/**
 * The three-step demo pipeline with an in-memory tracker: each node rewrites
 * `output` and records one trace of what it read and wrote.
 */
module CompleteDemo {
  import opened Text

  /** One `{"name", "input", "output"}` entry of the tracker. */
  datatype Trace = Trace(name: string, input: string, output: string)

  /** The separator the nodes put between steps and split on. */
  const Arrow := " → "
  const Step1Prefix := "Step 1: 处理 '"
  const Step2Text := "Step 2: 分析完成"
  const Step3Text := "Step 3: 最终输出"

  class OfflineTracker {
    var traces: seq<Trace>

    constructor ()
      ensures traces == []
    {
      traces := [];
    }

    /** track: one entry appended, earlier entries untouched. */
    method Track(name: string, inputData: string, outputData: string)
      modifies this
      ensures traces == old(traces) + [Trace(name, inputData, outputData)]
    {
      traces := traces + [Trace(name, inputData, outputData)];
    }
  }

  class State {
    var input: string
    var output: string

    constructor (input: string, output: string)
      ensures this.input == input && this.output == output
    {
      this.input := input;
      this.output := output;
    }
  }

  /** What node_1 writes: the input quoted after "Step 1: 处理 ". */
  function Step1Output(x: string): string
  {
    Step1Prefix + x + "'"
  }

  function Step2Output(x: string): string
  {
    Step1Output(x) + Arrow + Step2Text
  }

  function Step3Output(x: string): string
  {
    Step2Output(x) + Arrow + Step3Text
  }

  /** node_1 */
  method Node1(state: State, tracker: OfflineTracker)
    modifies state, tracker
    ensures state.output == Step1Output(state.input) && state.input == old(state.input)
    ensures tracker.traces == old(tracker.traces) + [Trace("node_1", state.input, state.output)]
  {
    state.output := Step1Prefix + state.input + "'";
    tracker.Track("node_1", state.input, state.output);
  }

  /** node_2: the trace's input is what precedes the first separator. */
  method Node2(state: State, tracker: OfflineTracker)
    modifies state, tracker
    ensures state.output == old(state.output) + Arrow + Step2Text && state.input == old(state.input)
    ensures tracker.traces == old(tracker.traces) + [Trace("node_2", Split(state.output, Arrow)[0], state.output)]
  {
    state.output := state.output + Arrow + Step2Text;
    tracker.Track("node_2", Split(state.output, Arrow)[0], state.output);
  }

  /** The next-to-last piece of `s` split on the separator, as `s.split(" → ")[-2]`. */
  function SecondToLast(s: string): string
    requires Contains(s, Arrow)
  {
    SplitContaining(s, Arrow);
    var parts := Split(s, Arrow);
    parts[|parts| - 2]
  }

  /** node_3: the trace's input is the next-to-last piece of the new output. */
  method Node3(state: State, tracker: OfflineTracker)
    modifies state, tracker
    ensures state.output == old(state.output) + Arrow + Step3Text && state.input == old(state.input)
    ensures Contains(state.output, Arrow)
    ensures tracker.traces == old(tracker.traces) + [Trace("node_3", SecondToLast(state.output), state.output)]
  {
    state.output := state.output + Arrow + Step3Text;
    ContainsMiddle(old(state.output), Arrow, Step3Text);
    SplitContaining(state.output, Arrow);
    var parts := Split(state.output, Arrow);
    tracker.Track("node_3", parts[|parts| - 2], state.output);
  }

  /** The three traces one run records for input `x`. */
  function RunTraces(x: string): seq<Trace>
  {
    ContainsMiddle(Step2Output(x), Arrow, Step3Text);
    [Trace("node_1", x, Step1Output(x)),
     Trace("node_2", Split(Step2Output(x), Arrow)[0], Step2Output(x)),
     Trace("node_3", SecondToLast(Step3Output(x)), Step3Output(x))]
  }

  /** The graph START → step1 → step2 → step3 → END. */
  method Invoke(state: State, tracker: OfflineTracker)
    modifies state, tracker
    ensures state.output == Step3Output(old(state.input)) && state.input == old(state.input)
    ensures tracker.traces == old(tracker.traces) + RunTraces(old(state.input))
  {
    ghost var x := state.input;
    Node1(state, tracker);
    assert state.output == Step1Output(x);
    Node2(state, tracker);
    assert state.output == Step2Output(x);
    Node3(state, tracker);
    assert state.output == Step3Output(x);
  }

  // ---------------------------------------------------------------------------
  // What a run promises

  /** The final output for input x, written out. */
  lemma FinalOutput(x: string)
    ensures Step3Output(x) == "Step 1: 处理 '" + x + "' → Step 2: 分析完成 → Step 3: 最终输出"
  {
  }

  /** Each node extends the previous node's output. */
  lemma OutputsExtend(x: string)
    ensures Step1Output(x) <= Step2Output(x) <= Step3Output(x)
  {
    assert Step2Output(x) == Step1Output(x) + (Arrow + Step2Text);
    assert Step3Output(x) == Step2Output(x) + (Arrow + Step3Text);
  }

  /** The fixed step texts contain no separator. */
  lemma StepTextsPlain()
    ensures !Contains(Step2Text, Arrow) && !Contains(Step3Text, Arrow)
  {
    LacksChar(Step2Text, Arrow, 1);
    LacksChar(Step3Text, Arrow, 1);
  }

  /** Splitting node_2's output: the pieces of node_1's output, then the step-2 text. */
  lemma Step2Pieces(x: string)
    ensures Split(Step2Output(x), Arrow) == Split(Step1Output(x), Arrow) + [Step2Text]
  {
    var a := Step1Output(x);
    assert a[|a| - 1] == '\'';
    SplitAround(a, Arrow, Step2Text);
    StepTextsPlain();
    SplitWithout(Step2Text, Arrow);
  }

  /** Splitting node_3's output: the pieces of node_2's output, then the step-3 text. */
  lemma Step3Pieces(x: string)
    ensures Split(Step3Output(x), Arrow) == Split(Step2Output(x), Arrow) + [Step3Text]
  {
    var b := Step2Output(x);
    assert b[|b| - 1] == Step2Text[|Step2Text| - 1];
    SplitAround(b, Arrow, Step3Text);
    StepTextsPlain();
    SplitWithout(Step3Text, Arrow);
  }

  /** Whatever the input, node_3 records the step-2 text as its input. */
  lemma Node3ReadsStep2(x: string)
    ensures RunTraces(x)[2].input == Step2Text
  {
    Step3Pieces(x);
    Step2Pieces(x);
    var parts := Split(Step3Output(x), Arrow);
    assert parts == Split(Step1Output(x), Arrow) + [Step2Text] + [Step3Text];
    assert parts[|parts| - 2] == Step2Text;
  }

  /** Node_1's output has no separator when the input has none: the quotes cannot be part of one. */
  lemma QuotedPlain(x: string)
    requires !Contains(x, Arrow)
    ensures !Contains(Step1Output(x), Arrow)
  {
    var s := Step1Output(x);
    var p := |Step1Prefix|;
    forall i: nat | i <= |s| && OccursAt(s, Arrow, i) ensures false {
      assert s[i..i + 3] == Arrow;
      assert s[i] == ' ' && s[i + 1] == '→' && s[i + 2] == ' ' by {
        assert s[i] == s[i..i + 3][0] && s[i + 1] == s[i..i + 3][1] && s[i + 2] == s[i..i + 3][2];
      }
      // Outside x the arrow or a blank would have to be a character of the prefix or the closing quote.
      if p <= i && i + 2 < p + |x| {
        assert x[i - p..i - p + 3] == s[i..i + 3];
        assert OccursAt(x, Arrow, i - p);
      }
    }
  }

  /** Without a separator in the input, node_2 records node_1's whole output as its input. */
  lemma Node2ReadsStep1(x: string)
    requires !Contains(x, Arrow)
    ensures RunTraces(x)[1].input == Step1Output(x)
  {
    QuotedPlain(x);
    SplitWithout(Step1Output(x), Arrow);
    Step2Pieces(x);
  }

  /** A run records exactly three traces, named after the nodes in wiring order, each holding that node's output. */
  lemma RunTraceNames(x: string)
    ensures |RunTraces(x)| == 3
    ensures RunTraces(x)[0].name == "node_1" && RunTraces(x)[1].name == "node_2" && RunTraces(x)[2].name == "node_3"
    ensures RunTraces(x)[0].output == Step1Output(x) && RunTraces(x)[1].output == Step2Output(x)
            && RunTraces(x)[2].output == Step3Output(x)
  {
  }
}
