/**
 * The offline tracker and its two-node pipeline: the tracker keeps every
 * trace it logs, stamped with the time of logging and its project name; the
 * pipeline's process and analyze nodes each log one trace and rewrite
 * `output`.
 */
module OfflineTracking {
  import opened Json
  import opened WallClock

  const DefaultProject := "default"
  const LogPrefix := "langfuse_traces_"
  const LogSuffix := ".jsonl"

  /** The JSONL file a tracker for `projectName` appends to. */
  function TraceLogFile(projectName: string): (r: string)
    ensures |r| == |LogPrefix| + |projectName| + |LogSuffix|
    ensures r[..|LogPrefix|] == LogPrefix && r[|r| - |LogSuffix|..] == LogSuffix
    ensures r[|LogPrefix|..|LogPrefix| + |projectName|] == projectName
  {
    LogPrefix + projectName + LogSuffix
  }

  /** Two projects never share a log file. */
  lemma {:induction false} TraceLogFileInjective(a: string, b: string)
    requires TraceLogFile(a) == TraceLogFile(b)
    ensures a == b
  {
    var f := TraceLogFile(a);
    assert a == f[|LogPrefix|..|f| - |LogSuffix|];
    assert b == f[|LogPrefix|..|f| - |LogSuffix|];
  }

  /**
   * The entry `log_trace` stores: `trace_data` with "timestamp" and
   * "project" added, or overwritten when `trace_data` already has them.
   */
  function Stamped(traceData: Dict, stamp: Timestamp, project: string): (r: Dict)
    ensures r.Keys == traceData.Keys + {"timestamp", "project"}
    ensures r["timestamp"] == Num(stamp) && r["project"] == Str(project)
    ensures forall k :: k in traceData && k != "timestamp" && k != "project" ==> r[k] == traceData[k]
  {
    traceData["timestamp" := Num(stamp)]["project" := Str(project)]
  }

  /** Stamping is insensitive to an earlier stamp: re-logging a logged entry changes only the stamp. */
  lemma RestampOverwrites(traceData: Dict, s0: Timestamp, s1: Timestamp, project: string)
    ensures Stamped(Stamped(traceData, s0, project), s1, project) == Stamped(traceData, s1, project)
  {
    var a := Stamped(Stamped(traceData, s0, project), s1, project);
    var b := Stamped(traceData, s1, project);
    assert a.Keys == b.Keys;
    forall k | k in a.Keys
      ensures a[k] == b[k]
    {
    }
  }

  class LocalLangfuseTracker {
    const projectName: string
    const traceLogFile: string
    /** The clock the entries are stamped from. */
    const clock: Clock
    var traces: seq<Dict>

    constructor (projectName: string, clock: Clock)
      ensures this.projectName == projectName && this.clock == clock
      ensures traceLogFile == TraceLogFile(projectName)
      ensures traces == []
    {
      this.projectName := projectName;
      this.clock := clock;
      traceLogFile := TraceLogFile(projectName);
      traces := [];
    }

    /** log_trace: the stamped entry is appended and returned; earlier entries are untouched. */
    method LogTrace(traceData: Dict) returns (entry: Dict)
      modifies this, clock
      ensures entry == Stamped(traceData, clock.readings(old(clock.count)), projectName)
      ensures traces == old(traces) + [entry]
      ensures clock.count == old(clock.count) + 1
    {
      var now := clock.Now();
      entry := traceData["timestamp" := Num(now)]["project" := Str(projectName)];
      traces := traces + [entry];
    }
  }

  class State {
    var input: string
    var output: string
    var traceId: string

    constructor (input: string, output: string, traceId: string)
      ensures this.input == input && this.output == output && this.traceId == traceId
    {
      this.input := input;
      this.output := output;
      this.traceId := traceId;
    }
  }

  const ProcessedPrefix := "处理完成: "
  const AnalyzedSuffix := " → 分析完成"

  /** The trace data a node hands to the tracker. */
  function NodeRecord(name: string, input: string, status: string): Dict
  {
    map["name" := Str(name), "type" := Str("node"), "input" := Str(input), "status" := Str(status)]
  }

  /** process_node */
  method ProcessNode(state: State, tracker: LocalLangfuseTracker)
    modifies state, tracker, tracker.clock
    ensures state.output == ProcessedPrefix + old(state.input)
    ensures state.input == old(state.input) && state.traceId == old(state.traceId)
    ensures tracker.traces == old(tracker.traces) +
      [Stamped(NodeRecord("process_node", old(state.input), "processing"),
               tracker.clock.readings(old(tracker.clock.count)), tracker.projectName)]
    ensures tracker.clock.count == old(tracker.clock.count) + 1
  {
    var _ := tracker.LogTrace(NodeRecord("process_node", state.input, "processing"));
    state.output := ProcessedPrefix + state.input;
  }

  /** analyze_node */
  method AnalyzeNode(state: State, tracker: LocalLangfuseTracker)
    modifies state, tracker, tracker.clock
    ensures state.output == old(state.output) + AnalyzedSuffix
    ensures state.input == old(state.input) && state.traceId == old(state.traceId)
    ensures tracker.traces == old(tracker.traces) +
      [Stamped(NodeRecord("analyze_node", old(state.output), "analyzing"),
               tracker.clock.readings(old(tracker.clock.count)), tracker.projectName)]
    ensures tracker.clock.count == old(tracker.clock.count) + 1
  {
    var _ := tracker.LogTrace(NodeRecord("analyze_node", state.output, "analyzing"));
    state.output := state.output + AnalyzedSuffix;
  }

  /** The entries one run on input `x` appends, given the two clock readings it takes. */
  function RunTraces(x: string, t0: Timestamp, t1: Timestamp, project: string): seq<Dict>
  {
    [Stamped(NodeRecord("process_node", x, "processing"), t0, project),
     Stamped(NodeRecord("analyze_node", ProcessedPrefix + x, "analyzing"), t1, project)]
  }

  /** START → process → analyze → END. */
  method Invoke(state: State, tracker: LocalLangfuseTracker)
    modifies state, tracker, tracker.clock
    ensures state.output == ProcessedPrefix + old(state.input) + AnalyzedSuffix
    ensures state.input == old(state.input) && state.traceId == old(state.traceId)
    ensures tracker.traces == old(tracker.traces) +
      RunTraces(old(state.input), tracker.clock.readings(old(tracker.clock.count)),
                tracker.clock.readings(old(tracker.clock.count) + 1), tracker.projectName)
    ensures tracker.clock.count == old(tracker.clock.count) + 2
  {
    ProcessNode(state, tracker);
    AnalyzeNode(state, tracker);
  }

  /** One node's entry: the node's four fields, its stamp and the project, nothing else. */
  lemma StampedRecord(name: string, input: string, status: string, t: Timestamp, project: string)
    ensures var e := Stamped(NodeRecord(name, input, status), t, project);
      e.Keys == {"name", "type", "input", "status", "timestamp", "project"} &&
      e["name"] == Str(name) && e["type"] == Str("node") && e["input"] == Str(input) &&
      e["status"] == Str(status) && e["timestamp"] == Num(t) && e["project"] == Str(project)
  {
    var d := NodeRecord(name, input, status);
    assert d.Keys == {"name", "type", "input", "status"};
    assert "name" in d && "type" in d && "input" in d && "status" in d;
  }

  /**
   * A run logs process_node then analyze_node; analyze_node's input is
   * process_node's output; both carry the node type, their status, their
   * stamp and the tracker's project.
   */
  lemma {:induction false} RunTraceFacts(x: string, t0: Timestamp, t1: Timestamp, project: string)
    ensures var r := RunTraces(x, t0, t1, project);
      |r| == 2 &&
      r[0].Keys == r[1].Keys &&
      r[0]["name"] == Str("process_node") && r[1]["name"] == Str("analyze_node") &&
      r[0]["input"] == Str(x) && r[1]["input"] == Str(ProcessedPrefix + x) &&
      r[0]["status"] == Str("processing") && r[1]["status"] == Str("analyzing") &&
      r[0]["project"] == r[1]["project"] == Str(project)
  {
    StampedRecord("process_node", x, "processing", t0, project);
    StampedRecord("analyze_node", ProcessedPrefix + x, "analyzing", t1, project);
  }

  /** A tracker created without a project name writes langfuse_traces_default.jsonl. */
  lemma DefaultTrackerLogFile()
    ensures TraceLogFile(DefaultProject) == "langfuse_traces_default.jsonl"
  {
  }

  /** The demo's tracker, for "langgraph_demo", writes langfuse_traces_langgraph_demo.jsonl. */
  lemma DemoLogFile()
    ensures TraceLogFile("langgraph_demo") == "langfuse_traces_langgraph_demo.jsonl"
  {
  }
}
