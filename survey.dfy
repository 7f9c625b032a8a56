/**
 * The questionnaire-processing graph: validate → clean → analyze → report,
 * with a conditional edge from validate to an identity error handler.
 *
 * The graph state is a dictionary the nodes mutate in place; here it is the
 * class `SurveyState`, whose fields the node methods update, and a value
 * `Snapshot` of those fields on which the node semantics and the run are
 * stated.  Questionnaire answers are strings, as in the demo inputs.
 */
module Survey {
  import opened Text

  /** A value held in `validated_data`: the copied answers are strings, the score an integer. */
  datatype Value = Str(s: string) | Int(i: int)

  /** `str(v)`, and what an f-string shows for `dict.get` (None when absent). */
  function ValueText(v: Value): string
  {
    match v
    case Str(s) => s
    case Int(i) => IntRepr(i)
  }

  function Shown(v: Option<Value>): string
  {
    if v.Some? then ValueText(v.value) else "None"
  }

  datatype Profile = Profile(name: Option<Value>, age: Option<Value>, userId: string)

  /** `analysis_result`: empty until analyze_satisfaction fills it in. */
  datatype Analysis =
    | NoAnalysis
    | Analysis(level: string, score: int, recommendation: string, profile: Profile)

  datatype Snapshot = Snapshot(
    userId: string,
    surveyData: map<string, string>,
    validatedData: map<string, Value>,
    analysisResult: Analysis,
    finalReport: string,
    errorMessage: string,
    processingSteps: seq<string>)

  const RequiredFields: seq<string> := ["name", "age", "satisfaction"]

  const Validating := "📋 验证输入中..."
  const ValidationPassed := "✅ 输入验证通过"
  const Cleaning := "🧹 清洗数据中..."
  const CleaningDone := "✅ 数据清洗完成"
  const Analyzing := "📊 分析满意度中..."
  const AnalysisDone := "✅ 分析完成"
  const Reporting := "📝 生成报告中..."
  const ReportDone := "✅ 报告生成完成"

  const AgeNotNumber := "年龄必须是数字"
  const AgeOutOfRange := "年龄必须在 0-150 之间"

  // ---------------------------------------------------------------------------
  // validate_input

  /** The fields of `fields` that `data` lacks, in the order of `fields`. */
  function MissingFrom(fields: seq<string>, data: map<string, string>): (r: seq<string>)
    ensures |r| <= |fields|
  {
    if fields == [] then []
    else (if fields[0] in data then [] else [fields[0]]) + MissingFrom(fields[1..], data)
  }

  lemma {:induction false} MissingFromSelects(fields: seq<string>, data: map<string, string>, f: string)
    ensures f in MissingFrom(fields, data) <==> f in fields && f !in data
  {
    if fields != [] {
      MissingFromSelects(fields[1..], data, f);
    }
  }

  function Missing(data: map<string, string>): (r: seq<string>)
    ensures r == [] <==> "name" in data && "age" in data && "satisfaction" in data
  {
    MissingFromEmpty(RequiredFields, data);
    MissingFrom(RequiredFields, data)
  }

  /** Nothing is missing exactly when every field is answered. */
  lemma {:induction false} MissingFromEmpty(fields: seq<string>, data: map<string, string>)
    ensures MissingFrom(fields, data) == [] <==> forall f :: f in fields ==> f in data
  {
    if fields != [] {
      MissingFromEmpty(fields[1..], data);
      assert forall f :: f in fields <==> f == fields[0] || f in fields[1..];
    }
  }

  /** The message for an age that is present: None when it is an integer in 0..150. */
  function AgeError(age: string): (r: Option<string>)
    ensures r == None || r == Some(AgeNotNumber) || r == Some(AgeOutOfRange)
    ensures r == Some(AgeNotNumber) <==> ParseInt(age).None?
    ensures r == None <==> ParseInt(age).Some? && 0 <= ParseInt(age).value <= 150
  {
    match ParseInt(age)
    case None => Some(AgeNotNumber)
    case Some(a) => if a < 0 || a > 150 then Some(AgeOutOfRange) else None
  }

  /** An age written out as `str(n)` is read back as `n`: only its range decides. */
  lemma AgeErrorRendered(n: int)
    ensures AgeError(IntRepr(n)) == if 0 <= n <= 150 then None else Some(AgeOutOfRange)
  {
    ParseIntRepr(n);
  }

  function MissingMessage(missing: seq<string>): string
  {
    "缺少字段: " + ListRepr(missing)
  }

  /** The answers copied into `validated_data`. */
  function Copied(data: map<string, string>): (r: map<string, Value>)
    ensures r.Keys == data.Keys
  {
    map k | k in data :: Str(data[k])
  }

  /** validate_input on a snapshot. */
  function Validated(s: Snapshot): Snapshot
  {
    var s1 := s.(processingSteps := s.processingSteps + [Validating]);
    var missing := Missing(s.surveyData);
    if missing != [] then s1.(errorMessage := MissingMessage(missing))
    else if AgeError(s.surveyData["age"]).Some? then s1.(errorMessage := AgeError(s.surveyData["age"]).value)
    else s1.(validatedData := Copied(s.surveyData), processingSteps := s1.processingSteps + [ValidationPassed])
  }

  // ---------------------------------------------------------------------------
  // clean_data

  const SatisfactionMap: map<string, int> := map[
    "很满意" := 5, "满意" := 4, "一般" := 3, "不满意" := 2, "很不满意" := 1,
    "5" := 5, "4" := 4, "3" := 3, "2" := 2, "1" := 1]

  /** `satisfaction_map.get(text, 3)` */
  function SatisfactionScore(text: string): int
  {
    if text in SatisfactionMap then SatisfactionMap[text] else 3
  }

  /** clean_data's demand: a name, when present, is a string (`strip` needs one). */
  predicate NameIsText(v: map<string, Value>)
  {
    "name" in v ==> v["name"].Str?
  }

  /** The name, when present, stripped and title-cased. */
  function NameCleaned(v: map<string, Value>): map<string, Value>
    requires NameIsText(v)
  {
    if "name" in v then v["name" := Str(Title(Strip(v["name"].s)))] else v
  }

  /** `str(validated_data.get("satisfaction", ""))` */
  function Answer(v: map<string, Value>): string
  {
    if "satisfaction" in v then ValueText(v["satisfaction"]) else ""
  }

  function Cleaned(s: Snapshot): Snapshot
    requires NameIsText(s.validatedData)
  {
    var v := NameCleaned(s.validatedData);
    s.(validatedData := v["satisfaction_score" := Int(SatisfactionScore(Answer(v)))],
       processingSteps := s.processingSteps + [Cleaning, CleaningDone])
  }

  // ---------------------------------------------------------------------------
  // analyze_satisfaction

  /** analyze_satisfaction's demand: a score, when present, is an integer (it is compared with 4). */
  predicate ScoreIsNumber(v: map<string, Value>)
  {
    "satisfaction_score" in v ==> v["satisfaction_score"].Int?
  }

  function Level(score: int): string
  {
    if score >= 4 then "很满意 😊" else if score >= 3 then "一般 😐" else "不满意 😞"
  }

  function Recommendation(score: int): string
  {
    if score >= 4 then "保持现有服务质量" else if score >= 3 then "需要改进一些方面" else "需要重大改进"
  }

  function Lookup(v: map<string, Value>, key: string): Option<Value>
  {
    if key in v then Some(v[key]) else None
  }

  function Analyzed(s: Snapshot): Snapshot
    requires ScoreIsNumber(s.validatedData)
  {
    var v := s.validatedData;
    var score := if "satisfaction_score" in v then v["satisfaction_score"].i else 3;
    s.(analysisResult := Analysis(Level(score), score, Recommendation(score),
                                  Profile(Lookup(v, "name"), Lookup(v, "age"), s.userId)),
       processingSteps := s.processingSteps + [Analyzing, AnalysisDone])
  }

  // ---------------------------------------------------------------------------
  // generate_report

  // The fixed text of the report template, line breaks included.
  const StepsLabel := "\n\n【处理步骤】\n"
  const Closing := "\n\n════════════════════════════════════════\n"
  const Banner := "\n╔════════════════════════════════════════╗\n║          问卷处理报告                    ║\n╚════════════════════════════════════════╝\n\n【用户信息】\n  姓名："
  const AgeLabel := "\n  年龄："
  const UserIdLabel := "\n  用户ID："
  const LevelLabel := "\n\n【满意度评分】\n  等级："
  const ScoreLabel := "\n  分数："
  const AdviceLabel := "/5\n  \n【建议】\n  "

  /** The report text up to the recommendation. */
  function ReportHead(a: Analysis): string
    requires a.Analysis?
  {
    Banner + Shown(a.profile.name)
    + AgeLabel + Shown(a.profile.age) + UserIdLabel + a.profile.userId
    + LevelLabel + a.level + ScoreLabel + IntRepr(a.score)
    + AdviceLabel
  }

  /** One line per step, each indented by two spaces. */
  function Indented(steps: seq<string>): (r: seq<string>)
    ensures |r| == |steps|
    ensures forall i :: 0 <= i < |steps| ==> r[i] == "  " + steps[i]
  {
    if steps == [] then [] else ["  " + steps[0]] + Indented(steps[1..])
  }

  /** The report text after the recommendation: the steps, one per line, indented. */
  function ReportTail(steps: seq<string>): string
  {
    StepsLabel + Join("\n", Indented(steps)) + Closing
  }

  function ReportText(a: Analysis, steps: seq<string>): string
    requires a.Analysis?
  {
    ReportHead(a) + a.recommendation + ReportTail(steps)
  }

  function Reported(s: Snapshot): Snapshot
    requires s.analysisResult.Analysis?
  {
    var steps := s.processingSteps + [Reporting];
    s.(finalReport := ReportText(s.analysisResult, steps), processingSteps := steps + [ReportDone])
  }

  // ---------------------------------------------------------------------------
  // Routing and wiring

  /** check_validation */
  function CheckValidation(s: Snapshot): (r: string)
    ensures r == "error" <==> s.errorMessage != ""
    ensures r == "error" || r == "proceed"
  {
    if s.errorMessage != "" then "error" else "proceed"
  }

  /**
   * decide_analysis_type: both branches give "analyze".  The age, when
   * present, must be an integer string, or `int` raises.
   */
  function DecideAnalysisType(s: Snapshot): (r: string)
    requires "age" in s.validatedData ==> ParseInt(ValueText(s.validatedData["age"])).Some?
    ensures r == "analyze"
  {
    var age := if "age" in s.validatedData then ParseInt(ValueText(s.validatedData["age"])).value else 0;
    if age < 18 then "analyze" else "analyze"
  }

  datatype Node = ValidateNode | CleanNode | AnalyzeNode | ReportNode | ErrorHandlerNode | End

  /** Edges still to take at most, which bounds the run. */
  function Rank(n: Node): nat
  {
    match n
    case ValidateNode => 4
    case CleanNode => 3
    case AnalyzeNode => 2
    case ReportNode => 1
    case ErrorHandlerNode => 1
    case End => 0
  }

  /** The wiring of create_survey_processor: every edge leads closer to End. */
  function Next(n: Node, s: Snapshot): (r: Node)
    ensures n != End ==> Rank(r) < Rank(n)
  {
    match n
    case ValidateNode => if CheckValidation(s) == "error" then ErrorHandlerNode else CleanNode
    case CleanNode => AnalyzeNode
    case AnalyzeNode => ReportNode
    case ReportNode => End
    case ErrorHandlerNode => End
    case End => End
  }

  /** What a node needs of the state to run without raising. */
  predicate Ready(n: Node, s: Snapshot)
  {
    match n
    case CleanNode => NameIsText(s.validatedData)
    case AnalyzeNode => ScoreIsNumber(s.validatedData)
    case ReportNode => s.analysisResult.Analysis?
    case _ => true
  }

  /** One node's effect; the error handler is the identity. */
  function Apply(n: Node, s: Snapshot): (r: Snapshot)
    requires Ready(n, s)
    ensures Ready(Next(n, r), r)
  {
    match n
    case ValidateNode => ValidatedReady(s); Validated(s)
    case CleanNode => Cleaned(s)
    case AnalyzeNode => Analyzed(s)
    case ReportNode => Reported(s)
    case ErrorHandlerNode => s
    case End => s
  }

  /** A validation that lets the run proceed has copied the answers, so every value is a string. */
  lemma ValidatedReady(s: Snapshot)
    ensures Ready(Next(ValidateNode, Validated(s)), Validated(s))
  {
    var t := Validated(s);
    if Next(ValidateNode, t) == CleanNode {
      assert Missing(s.surveyData) == [];
      assert t.validatedData == Copied(s.surveyData);
    }
  }

  /** The state at End when the graph is entered at `n`. */
  function RunFrom(n: Node, s: Snapshot): Snapshot
    requires Ready(n, s)
    decreases Rank(n)
  {
    if n == End then s else RunFrom(Next(n, Apply(n, s)), Apply(n, s))
  }

  /** `processor.invoke(state)` */
  function Run(s: Snapshot): Snapshot
  {
    RunFrom(ValidateNode, s)
  }

  // ---------------------------------------------------------------------------
  // The state object and its nodes

  class SurveyState {
    var userId: string
    var surveyData: map<string, string>
    var validatedData: map<string, Value>
    var analysisResult: Analysis
    var finalReport: string
    var errorMessage: string
    var processingSteps: seq<string>

    function View(): Snapshot
      reads this
    {
      Snapshot(userId, surveyData, validatedData, analysisResult, finalReport, errorMessage, processingSteps)
    }

    /** The initial state of an invocation: answers given, everything else empty. */
    constructor (userId: string, surveyData: map<string, string>)
      ensures View() == Snapshot(userId, surveyData, map[], NoAnalysis, "", "", [])
    {
      this.userId := userId;
      this.surveyData := surveyData;
      validatedData := map[];
      analysisResult := NoAnalysis;
      finalReport := "";
      errorMessage := "";
      processingSteps := [];
    }

    method ValidateInput()
      modifies this
      ensures View() == Validated(old(View()))
    {
      processingSteps := processingSteps + [Validating];
      var missing := Missing(surveyData);
      if missing != [] {
        errorMessage := MissingMessage(missing);
        return;
      }
      var age := ParseInt(surveyData["age"]);
      if age.None? {
        errorMessage := AgeNotNumber;
        return;
      }
      if age.value < 0 || age.value > 150 {
        errorMessage := AgeOutOfRange;
        return;
      }
      validatedData := Copied(surveyData);
      processingSteps := processingSteps + [ValidationPassed];
    }

    method CleanData()
      requires NameIsText(validatedData)
      modifies this
      ensures View() == Cleaned(old(View()))
    {
      processingSteps := processingSteps + [Cleaning];
      if "name" in validatedData {
        validatedData := validatedData["name" := Str(Title(Strip(validatedData["name"].s)))];
      }
      assert validatedData == NameCleaned(old(validatedData));
      var answer := Answer(validatedData);
      validatedData := validatedData["satisfaction_score" := Int(SatisfactionScore(answer))];
      processingSteps := processingSteps + [CleaningDone];
    }

    method AnalyzeSatisfaction()
      requires ScoreIsNumber(validatedData)
      modifies this
      ensures View() == Analyzed(old(View()))
    {
      processingSteps := processingSteps + [Analyzing];
      var score := if "satisfaction_score" in validatedData then validatedData["satisfaction_score"].i else 3;
      var level, recommendation;
      if score >= 4 {
        level, recommendation := "很满意 😊", "保持现有服务质量";
      } else if score >= 3 {
        level, recommendation := "一般 😐", "需要改进一些方面";
      } else {
        level, recommendation := "不满意 😞", "需要重大改进";
      }
      analysisResult := Analysis(level, score, recommendation,
                                 Profile(Lookup(validatedData, "name"), Lookup(validatedData, "age"), userId));
      processingSteps := processingSteps + [AnalysisDone];
    }

    method GenerateReport()
      requires analysisResult.Analysis?
      modifies this
      ensures View() == Reported(old(View()))
    {
      var steps := processingSteps + [Reporting];
      finalReport := ReportText(analysisResult, steps);
      processingSteps := steps + [ReportDone];
    }
  }

  /** Runs one node on the state. */
  method RunNode(n: Node, state: SurveyState)
    requires Ready(n, state.View())
    modifies state
    ensures state.View() == Apply(n, old(state.View()))
  {
    match n
    case ValidateNode => state.ValidateInput();
    case CleanNode => state.CleanData();
    case AnalyzeNode => state.AnalyzeSatisfaction();
    case ReportNode => state.GenerateReport();
    case ErrorHandlerNode =>
    case End =>
  }

  /** `processor.invoke(state)`: follow the edges from validate until End. */
  method Invoke(state: SurveyState)
    modifies state
    ensures state.View() == Run(old(state.View()))
  {
    var n := ValidateNode;
    while n != End
      invariant Ready(n, state.View())
      invariant RunFrom(n, state.View()) == Run(old(state.View()))
      decreases Rank(n)
    {
      RunNode(n, state);
      n := Next(n, state.View());
    }
  }

  // ---------------------------------------------------------------------------
  // What the pipeline promises

  /** The run takes one of two paths, decided by the error message after validation. */
  lemma RunPaths(s: Snapshot)
    ensures var v := Validated(s);
      Run(s) == if v.errorMessage != "" then v else Reported(Analyzed(Cleaned(v)))
  {
    var v := Validated(s);
    ValidatedReady(s);
    if v.errorMessage == "" {
      CleanRun(v);
    }
  }

  /** Entered at clean_data, the run goes through analysis and the report. */
  lemma CleanRun(v: Snapshot)
    requires Ready(CleanNode, v)
    ensures var c := Apply(CleanNode, v);
      RunFrom(CleanNode, v) == Reported(Analyzed(c))
  {
    var c := Apply(CleanNode, v);
    var a := Apply(AnalyzeNode, c);
    assert RunFrom(ReportNode, a) == Reported(a);
    assert RunFrom(AnalyzeNode, c) == RunFrom(ReportNode, a);
  }

  /** Missing answers: the message lists exactly the missing fields, in order; nothing is validated. */
  lemma ValidateMissingFields(s: Snapshot, f: string)
    requires Missing(s.surveyData) != []
    ensures var t := Validated(s);
      && t.errorMessage == "缺少字段: " + ListRepr(Missing(s.surveyData))
      && (f in Missing(s.surveyData) <==> f in RequiredFields && f !in s.surveyData)
      && t.validatedData == s.validatedData
      && t.processingSteps == s.processingSteps + [Validating]
  {
    MissingFromSelects(RequiredFields, s.surveyData, f);
  }

  /** A present but bad age: not an integer, or outside 0..150; nothing is validated. */
  lemma ValidateBadAge(s: Snapshot)
    requires Missing(s.surveyData) == []
    requires AgeError(s.surveyData["age"]).Some?
    ensures var t := Validated(s);
      && (ParseInt(s.surveyData["age"]).None? ==> t.errorMessage == "年龄必须是数字")
      && (ParseInt(s.surveyData["age"]).Some? ==>
            var a := ParseInt(s.surveyData["age"]).value;
            (a < 0 || a > 150) && t.errorMessage == "年龄必须在 0-150 之间")
      && t.validatedData == s.validatedData
      && t.processingSteps == s.processingSteps + [Validating]
  {
  }

  /** Validation passes exactly when all fields are present and the age is an integer in 0..150. */
  lemma ValidateSuccess(s: Snapshot)
    ensures var t := Validated(s);
      var ok := Missing(s.surveyData) == [] && ParseInt(s.surveyData["age"]).Some?
                && 0 <= ParseInt(s.surveyData["age"]).value <= 150;
      && (ok ==> t.validatedData == Copied(s.surveyData) && t.errorMessage == s.errorMessage
                 && t.processingSteps == s.processingSteps + [Validating, ValidationPassed])
      && (!ok ==> t.errorMessage != "" && t.validatedData == s.validatedData
                  && t.processingSteps == s.processingSteps + [Validating])
  {
    var ok := Missing(s.surveyData) == [] && ParseInt(s.surveyData["age"]).Some?
              && 0 <= ParseInt(s.surveyData["age"]).value <= 150;
    if !ok && Missing(s.surveyData) != [] {
      assert Validated(s).errorMessage == MissingMessage(Missing(s.surveyData));
    }
  }

  /** The copied answers hold exactly the survey's answers. */
  lemma CopiedAnswers(data: map<string, string>, k: string)
    requires k in data
    ensures Copied(data)[k] == Str(data[k])
  {
  }

  /** Every satisfaction score is in 1..5; answers outside the table score 3. */
  lemma SatisfactionScoreRange(text: string)
    ensures 1 <= SatisfactionScore(text) <= 5
    ensures text !in SatisfactionMap ==> SatisfactionScore(text) == 3
  {
  }

  /** Cleaning strips and title-cases the name and sets a score in 1..5; other answers are kept. */
  lemma CleanedData(s: Snapshot, k: string)
    requires NameIsText(s.validatedData)
    ensures var v := Cleaned(s).validatedData;
      && "satisfaction_score" in v && v["satisfaction_score"].Int?
      && 1 <= v["satisfaction_score"].i <= 5
      && ("name" in s.validatedData ==> v["name"] == Str(Title(Strip(s.validatedData["name"].s))))
      && (k in s.validatedData && k != "name" && k != "satisfaction_score" ==> k in v && v[k] == s.validatedData[k])
      && Cleaned(s).processingSteps == s.processingSteps + [Cleaning, CleaningDone]
  {
    SatisfactionScoreRange(Answer(NameCleaned(s.validatedData)));
  }

  /** The three satisfaction bands and the advice for each. */
  lemma AnalysisBands(s: Snapshot)
    requires ScoreIsNumber(s.validatedData)
    ensures var a := Analyzed(s).analysisResult;
      && a.Analysis?
      && (a.score >= 4 ==> a.level == "很满意 😊" && a.recommendation == "保持现有服务质量")
      && (a.score == 3 ==> a.level == "一般 😐" && a.recommendation == "需要改进一些方面")
      && (a.score < 3 ==> a.level == "不满意 😞" && a.recommendation == "需要重大改进")
      && a.profile.userId == s.userId
      && ("satisfaction_score" !in s.validatedData ==> a.score == 3)
  {
  }

  /** The report names the recommendation, and the steps grow by exactly two. */
  lemma ReportMentionsRecommendation(s: Snapshot)
    requires s.analysisResult.Analysis?
    ensures Contains(Reported(s).finalReport, s.analysisResult.recommendation)
    ensures Reported(s).processingSteps == s.processingSteps + [Reporting, ReportDone]
    ensures Reported(s).analysisResult == s.analysisResult
  {
    var steps := s.processingSteps + [Reporting];
    ContainsMiddle(ReportHead(s.analysisResult), s.analysisResult.recommendation, ReportTail(steps));
  }

  /**
   * The error branch: once validation leaves an error message, only the
   * identity error handler follows, so no report and no analysis are made.
   */
  lemma ErrorPathSkipsProcessing(s: Snapshot)
    requires Validated(s).errorMessage != ""
    ensures Run(s) == Validated(s)
    ensures Run(s).finalReport == s.finalReport && Run(s).analysisResult == s.analysisResult
  {
    RunPaths(s);
  }

  /** An error message already present routes every run to the error branch. */
  lemma InitialErrorWins(s: Snapshot)
    requires s.errorMessage != ""
    ensures Run(s) == Validated(s)
  {
    assert Validated(s).errorMessage != "";
    RunPaths(s);
  }

  /** A run that passes validation records eight steps and makes a report naming its recommendation. */
  lemma SuccessPath(s: Snapshot)
    requires Validated(s).errorMessage == ""
    ensures |Run(s).processingSteps| == |s.processingSteps| + 8
    ensures Run(s).analysisResult.Analysis?
    ensures 1 <= Run(s).analysisResult.score <= 5
    ensures Contains(Run(s).finalReport, Run(s).analysisResult.recommendation)
  {
    RunPaths(s);
    ValidatedReady(s);
    var v := Validated(s);
    assert Missing(s.surveyData) == [];
    CleanedData(v, "");
    ReportMentionsRecommendation(Analyzed(Cleaned(v)));
  }

  // ---------------------------------------------------------------------------
  // The three sample questionnaires

  function Sample(userId: string, answers: map<string, string>): Snapshot
  {
    Snapshot(userId, answers, map[], NoAnalysis, "", "", [])
  }

  const ValidAnswers := map["name" := "张三", "age" := "25", "satisfaction" := "很满意"]

  lemma ValidSampleValidates()
    ensures Validated(Sample("user_001", ValidAnswers)).errorMessage == ""
    ensures Validated(Sample("user_001", ValidAnswers)).validatedData == Copied(ValidAnswers)
  {
    assert AgeError("25") == None by {
      assert DigitsValue("25") == DigitsValue("2") * 10 + 5;
    }
  }

  lemma ValidSampleScores()
    ensures Cleaned(Validated(Sample("user_001", ValidAnswers))).validatedData["satisfaction_score"] == Int(5)
  {
    ValidSampleValidates();
    var v := Copied(ValidAnswers);
    AnswerIgnoresName(v);
    assert Answer(v) == "很满意";
    VerySatisfiedScoresFive();
  }

  lemma VerySatisfiedScoresFive()
    ensures SatisfactionScore("很满意") == 5
  {
  }

  /** Cleaning the name does not change the satisfaction answer. */
  lemma AnswerIgnoresName(v: map<string, Value>)
    requires NameIsText(v)
    ensures Answer(NameCleaned(v)) == Answer(v)
  {
  }

  /** The valid sample scores 5 and is advised to keep the service as it is. */
  lemma ValidSample()
    ensures var r := Run(Sample("user_001", ValidAnswers));
      r.analysisResult.Analysis? && r.analysisResult.score == 5
      && r.analysisResult.recommendation == "保持现有服务质量" && r.errorMessage == ""
  {
    var s := Sample("user_001", ValidAnswers);
    ValidSampleValidates();
    ValidSampleScores();
    RunPaths(s);
  }

  /** The sample without age and satisfaction stops after one step, naming both fields. */
  lemma MissingFieldsSample()
    ensures var r := Run(Sample("user_002", map["name" := "李四"]));
      r.errorMessage == "缺少字段: " + ListRepr(["age", "satisfaction"]) && r.processingSteps == [Validating]
      && r.finalReport == "" && r.analysisResult == NoAnalysis
  {
    var s := Sample("user_002", map["name" := "李四"]);
    assert Missing(s.surveyData) == ["age", "satisfaction"];
    RunPaths(s);
  }

  /** The sample aged 200 fails the range check. */
  lemma AgeOutOfRangeSample()
    ensures var r := Run(Sample("user_003", map["name" := "王五", "age" := "200", "satisfaction" := "一般"]));
      r.errorMessage == "年龄必须在 0-150 之间" && r.analysisResult == NoAnalysis
  {
    var s := Sample("user_003", map["name" := "王五", "age" := "200", "satisfaction" := "一般"]);
    assert Missing(s.surveyData) == [];
    assert ParseInt("200") == Some(200) by {
      assert DigitsValue("200") == DigitsValue("20") * 10 + 0;
      assert DigitsValue("20") == DigitsValue("2") * 10 + 0;
    }
    RunPaths(s);
  }
}
