/**
 * The tool-operations specialist: it runs one command against an outside tool
 * with a bounded number of immediate retries, drives the operation's status
 * through PENDING, IN_PROGRESS, RETRYING and finally SUCCESS or FAILED, and
 * appends exactly one line per finished operation to an append-only JSONL log,
 * which can be read back filtered by tool and bounded by a limit.
 *
 * The HTTP calls behind the "langfuse" and "github" tools are a collaborator
 * given as `network`: `network(k)` is what the remote call does on attempt k
 * (returns a JSON object or raises with a message). The JSONL file is the
 * sequence of dictionaries its lines hold.
 */
module ToolOperations {
  import opened Text
  import opened Json
  import opened WallClock

  // ------------------------------------------------------------------ enums

  datatype OperationType = Read | Write | Update | Delete | Execute | Query

  function TypeValue(t: OperationType): string
  {
    match t
    case Read => "read"
    case Write => "write"
    case Update => "update"
    case Delete => "delete"
    case Execute => "execute"
    case Query => "query"
  }

  datatype OperationStatus = Pending | InProgress | Success | Failed | Retrying

  function StatusValue(s: OperationStatus): string
  {
    match s
    case Pending => "pending"
    case InProgress => "in_progress"
    case Success => "success"
    case Failed => "failed"
    case Retrying => "retrying"
  }

  /** Distinct enum members have distinct serialised values. */
  lemma EnumValuesDistinct()
    ensures forall a, b :: TypeValue(a) == TypeValue(b) ==> a == b
    ensures forall a, b :: StatusValue(a) == StatusValue(b) ==> a == b
  {
  }

  // ---------------------------------------------------------------- records

  datatype OperationRecord = OperationRecord(
    operationId: string,
    toolName: string,
    operationType: OperationType,
    command: string,
    parameters: Dict,
    status: OperationStatus,
    requestPayload: Option<Dict>,
    responseData: Option<Dict>,
    errorMessage: Option<string>,
    startTime: Timestamp,
    endTime: Option<Timestamp>,
    durationMs: Option<real>,
    retryCount: int,
    metadata: Dict)

  function OptionalText(o: Option<string>): Json
  {
    if o.Some? then Str(o.value) else Null
  }

  function OptionalNum(o: Option<int>): Json
  {
    if o.Some? then Num(o.value) else Null
  }

  function OptionalFloat(o: Option<real>): Json
  {
    if o.Some? then Float(o.value) else Null
  }

  function OptionalDict(o: Option<Dict>): Json
  {
    if o.Some? then Object(o.value) else Null
  }

  const RecordKeys: set<string> :=
    {"operation_id", "tool_name", "operation_type", "command", "parameters", "status",
     "request_payload", "response_data", "error_message", "start_time", "end_time",
     "duration_ms", "retry_count", "metadata"}

  /** `OperationRecord.to_dict`. Timestamps are written as their reading. */
  function ToDict(r: OperationRecord): (d: Dict)
    ensures "tool_name" in d && d["tool_name"] == Str(r.toolName)
  {
    map[
      "operation_id" := Str(r.operationId),
      "tool_name" := Str(r.toolName),
      "operation_type" := Str(TypeValue(r.operationType)),
      "command" := Str(r.command),
      "parameters" := Object(r.parameters),
      "status" := Str(StatusValue(r.status)),
      "request_payload" := OptionalDict(r.requestPayload),
      "response_data" := OptionalDict(r.responseData),
      "error_message" := OptionalText(r.errorMessage),
      "start_time" := Num(r.startTime),
      "end_time" := OptionalNum(if r.endTime.Some? then Some(r.endTime.value as int) else None),
      "duration_ms" := OptionalFloat(r.durationMs),
      "retry_count" := Num(r.retryCount),
      "metadata" := Object(r.metadata)
    ]
  }

  /** Every serialised record has the same fourteen keys. */
  lemma ToDictKeys(r: OperationRecord)
    ensures ToDict(r).Keys == RecordKeys
  {
  }

  // What each key of a serialised record holds.

  lemma ToDictIdentity(r: OperationRecord)
    ensures ToDict(r)["operation_id"] == Str(r.operationId)
    ensures ToDict(r)["tool_name"] == Str(r.toolName)
    ensures ToDict(r)["operation_type"] == Str(TypeValue(r.operationType))
    ensures ToDict(r)["command"] == Str(r.command)
    ensures ToDict(r)["parameters"] == Object(r.parameters)
  {
  }

  lemma ToDictProgress(r: OperationRecord)
    ensures ToDict(r)["status"] == Str(StatusValue(r.status))
    ensures ToDict(r)["request_payload"] == OptionalDict(r.requestPayload)
    ensures ToDict(r)["response_data"] == OptionalDict(r.responseData)
    ensures ToDict(r)["error_message"] == OptionalText(r.errorMessage)
    ensures ToDict(r)["start_time"] == Num(r.startTime)
  {
  }

  lemma ToDictOutcome(r: OperationRecord)
    ensures ToDict(r)["end_time"] == OptionalNum(if r.endTime.Some? then Some(r.endTime.value as int) else None)
    ensures ToDict(r)["duration_ms"] == OptionalFloat(r.durationMs)
    ensures ToDict(r)["retry_count"] == Num(r.retryCount)
    ensures ToDict(r)["metadata"] == Object(r.metadata)
  {
  }

  lemma OptionalDictInjective(x: Option<Dict>, y: Option<Dict>)
    requires OptionalDict(x) == OptionalDict(y)
    ensures x == y
  {
  }

  lemma OptionalTextInjective(x: Option<string>, y: Option<string>)
    requires OptionalText(x) == OptionalText(y)
    ensures x == y
  {
  }

  lemma OptionalFloatInjective(x: Option<real>, y: Option<real>)
    requires OptionalFloat(x) == OptionalFloat(y)
    ensures x == y
  {
  }

  lemma EndTimeInjective(x: Option<Timestamp>, y: Option<Timestamp>)
    requires OptionalNum(if x.Some? then Some(x.value as int) else None)
             == OptionalNum(if y.Some? then Some(y.value as int) else None)
    ensures x == y
  {
  }

  lemma TypeValueInjective(x: OperationType, y: OperationType)
    requires TypeValue(x) == TypeValue(y)
    ensures x == y
  {
    EnumValuesDistinct();
  }

  lemma StatusValueInjective(x: OperationStatus, y: OperationStatus)
    requires StatusValue(x) == StatusValue(y)
    ensures x == y
  {
    EnumValuesDistinct();
  }

  /** `to_dict` loses nothing: two records with the same dictionary are equal. */
  lemma ToDictInjective(a: OperationRecord, b: OperationRecord)
    requires ToDict(a) == ToDict(b)
    ensures a == b
  {
    ToDictIdentity(a);
    ToDictIdentity(b);
    ToDictProgress(a);
    ToDictProgress(b);
    ToDictOutcome(a);
    ToDictOutcome(b);
    TypeValueInjective(a.operationType, b.operationType);
    StatusValueInjective(a.status, b.status);
    OptionalDictInjective(a.requestPayload, b.requestPayload);
    OptionalDictInjective(a.responseData, b.responseData);
    OptionalTextInjective(a.errorMessage, b.errorMessage);
    EndTimeInjective(a.endTime, b.endTime);
    OptionalFloatInjective(a.durationMs, b.durationMs);
  }

  // --------------------------------------------------------------- the log

  /** A log line is selected when no tool is asked for, or its "tool_name" is that tool. */
  predicate Matches(d: Dict, toolName: Option<string>)
  {
    toolName.None? || ("tool_name" in d && d["tool_name"] == Str(toolName.value))
  }

  /** The lines selected by `toolName`, in write order. */
  function Matching(lines: seq<Dict>, toolName: Option<string>): (r: seq<Dict>)
    ensures |r| <= |lines|
  {
    if lines == [] then []
    else
      var last := lines[|lines| - 1];
      Matching(lines[..|lines| - 1], toolName) + (if Matches(last, toolName) then [last] else [])
  }

  /** The selection holds exactly the log lines that match. */
  lemma {:induction false} MatchingSelects(lines: seq<Dict>, toolName: Option<string>)
    ensures forall d :: d in Matching(lines, toolName) ==> d in lines && Matches(d, toolName)
    ensures forall i :: 0 <= i < |lines| && Matches(lines[i], toolName) ==> lines[i] in Matching(lines, toolName)
  {
    if lines != [] {
      var init := lines[..|lines| - 1];
      MatchingSelects(init, toolName);
      assert forall i :: 0 <= i < |init| ==> init[i] == lines[i];
    }
  }

  /** Reading more of the log only adds to the end of what was selected. */
  lemma {:induction false} MatchingPrefix(a: seq<Dict>, b: seq<Dict>, toolName: Option<string>)
    ensures Matching(a, toolName) <= Matching(a + b, toolName)
    decreases |b|
  {
    if b != [] {
      var b' := b[..|b| - 1];
      assert (a + b)[..|a + b| - 1] == a + b';
      MatchingPrefix(a, b', toolName);
    } else {
      assert a + b == a;
    }
  }

  /** Selecting from one more line of the log. */
  lemma MatchingStep(lines: seq<Dict>, i: nat, toolName: Option<string>)
    requires i < |lines|
    ensures Matching(lines[..i + 1], toolName)
            == Matching(lines[..i], toolName) + (if Matches(lines[i], toolName) then [lines[i]] else [])
  {
    assert lines[..i + 1][..i] == lines[..i];
  }

  /** What is selected from the first `i` lines begins what is selected from all of them. */
  lemma MatchingOfPrefix(lines: seq<Dict>, i: nat, toolName: Option<string>)
    requires i <= |lines|
    ensures Matching(lines[..i], toolName) <= Matching(lines, toolName)
  {
    assert lines[..i] + lines[i..] == lines;
    MatchingPrefix(lines[..i], lines[i..], toolName);
  }

  /** A logged record is selected by its own tool name and by no other. */
  lemma LoggedRecordMatches(r: OperationRecord, toolName: string)
    ensures Matches(ToDict(r), Some(toolName)) <==> r.toolName == toolName
  {
  }

  /** After a record is logged, reading the log for its tool ends with it. */
  lemma {:induction false} MatchingAfterLog(lines: seq<Dict>, r: OperationRecord)
    ensures Matching(lines + [ToDict(r)], Some(r.toolName))
            == Matching(lines, Some(r.toolName)) + [ToDict(r)]
  {
    var s := lines + [ToDict(r)];
    assert s[..|s| - 1] == lines;
    LoggedRecordMatches(r, r.toolName);
  }

  /** Default file name of the operation log. */
  const DefaultLogFile: string := "tool_operations.jsonl"
  /** Default retry bound of the specialist. */
  const DefaultMaxRetries: int := 3

  /** The append-only operation log: the file, whether it exists, and its lines. */
  class OperationLogger {
    const logFile: string
    var fileExists: bool
    var lines: seq<Dict>

    ghost predicate Valid()
      reads this
    {
      !fileExists ==> lines == []
    }

    /** A logger over `logFile`, whose lines are `existing` if the file is there. */
    constructor (logFile: string, existing: Option<seq<Dict>>)
      ensures Valid() && this.logFile == logFile
      ensures fileExists == existing.Some?
      ensures lines == if existing.Some? then existing.value else []
    {
      this.logFile := logFile;
      fileExists := existing.Some?;
      lines := if existing.Some? then existing.value else [];
    }

    /** `log_operation`: appends one line; earlier lines are untouched. */
    method LogOperation(record: OperationRecord)
      requires Valid()
      modifies this
      ensures Valid() && fileExists
      ensures lines == old(lines) + [ToDict(record)]
    {
      fileExists := true;
      lines := lines + [ToDict(record)];
    }

    /** `get_operations`: the first lines selected by `toolName`, in write order;
        the limit is checked after a line is taken, so at least one line is
        returned whenever one matches, even for a limit below 1. */
    method GetOperations(toolName: Option<string>, limit: int) returns (ops: seq<Dict>)
      requires Valid()
      ensures !fileExists ==> ops == []
      ensures ops <= Matching(lines, toolName)
      ensures |ops| == Min(|Matching(lines, toolName)|, Max(limit, 1))
    {
      ops := [];
      if !fileExists {
        return;
      }
      var i := 0;
      while i < |lines|
        invariant 0 <= i <= |lines|
        invariant ops == Matching(lines[..i], toolName)
        invariant |ops| < Max(limit, 1)
      {
        var op := lines[i];
        MatchingStep(lines, i, toolName);
        if Matches(op, toolName) {
          ops := ops + [op];
          if |ops| >= limit {
            MatchingOfPrefix(lines, i + 1, toolName);
            return;
          }
        }
        i := i + 1;
      }
      assert i == |lines| ==> lines[..i] == lines;
    }
  }

  // ----------------------------------------------------------- one attempt

  /** What one call of a tool does: returns a JSON object or raises. */
  datatype Outcome = Returned(body: Dict) | Raised(message: string)

  datatype Request = Request(toolName: string, operationType: OperationType, command: string, parameters: Dict)

  /** `_execute_langfuse_operation`: "get_traces" and "create_trace" go to the
      HTTP API, whose behaviour is `reply`; any other command raises. */
  function LangfuseOperation(command: string, reply: Outcome): (r: Outcome)
    ensures command == "get_traces" || command == "create_trace" ==> r == reply
    ensures command != "get_traces" && command != "create_trace" ==>
              r == Raised("Unknown Langfuse command: " + command)
  {
    if command == "get_traces" then reply
    else if command == "create_trace" then reply
    else Raised("Unknown Langfuse command: " + command)
  }

  /** `_execute_github_operation`: "get_repo" and "create_issue" go to the
      HTTP API, whose behaviour is `reply`; any other command raises. */
  function GithubOperation(command: string, reply: Outcome): (r: Outcome)
    ensures command == "get_repo" || command == "create_issue" ==> r == reply
    ensures command != "get_repo" && command != "create_issue" ==>
              r == Raised("Unknown GitHub command: " + command)
  {
    if command == "get_repo" then reply
    else if command == "create_issue" then reply
    else Raised("Unknown GitHub command: " + command)
  }

  /** `_execute_generic_operation`: never fails; echoes the call. */
  function GenericOperation(toolName: string, command: string, parameters: Dict, now: Timestamp): (d: Dict)
    ensures d.Keys == {"status", "tool", "command", "parameters", "timestamp"}
    ensures d["status"] == Str("executed") && d["tool"] == Str(toolName)
    ensures d["command"] == Str(command) && d["parameters"] == Object(parameters)
  {
    map["status" := Str("executed"), "tool" := Str(toolName), "command" := Str(command),
        "parameters" := Object(parameters), "timestamp" := Num(now)]
  }

  /** Tools other than these two go to the generic operation. */
  predicate IsGeneric(toolName: string)
  {
    toolName != "langfuse" && toolName != "github"
  }

  /** A request whose attempts are HTTP calls (and so may fail or succeed). */
  predicate IsRemote(req: Request)
  {
    || (req.toolName == "langfuse" && (req.command == "get_traces" || req.command == "create_trace"))
    || (req.toolName == "github" && (req.command == "get_repo" || req.command == "create_issue"))
  }

  /** The dispatch inside the retry loop; `now` is read only by the generic operation. */
  function Attempt(req: Request, reply: Outcome, now: Timestamp): (r: Outcome)
    ensures IsRemote(req) ==> r == reply
    ensures IsGeneric(req.toolName) ==>
              r == Returned(GenericOperation(req.toolName, req.command, req.parameters, now))
  {
    if req.toolName == "langfuse" then LangfuseOperation(req.command, reply)
    else if req.toolName == "github" then GithubOperation(req.command, reply)
    else Returned(GenericOperation(req.toolName, req.command, req.parameters, now))
  }

  // ---------------------------------------------------------- the retry loop

  /** How the retry loop ended: never entered, or after `retries` failed attempts. */
  datatype LoopEnd = NotRun | Succeeded(retries: nat, body: Dict) | GaveUp(retries: nat, error: string)

  /** The retry loop entered with `k` failed attempts behind it. */
  function RetryLoop(req: Request, network: nat -> Outcome, now: Timestamp, maxRetries: int, k: nat): (e: LoopEnd)
    requires k <= maxRetries
    decreases maxRetries - k
    ensures e.Succeeded? ==> k <= e.retries <= maxRetries
    ensures e.GaveUp? ==> e.retries == maxRetries
    ensures !e.NotRun?
  {
    match Attempt(req, network(k), now)
    case Returned(body) => Succeeded(k, body)
    case Raised(message) =>
      if k + 1 <= maxRetries then RetryLoop(req, network, now, maxRetries, k + 1)
      else GaveUp(k, message)
  }

  function RunAttempts(req: Request, network: nat -> Outcome, now: Timestamp, maxRetries: int): LoopEnd
  {
    if maxRetries < 0 then NotRun else RetryLoop(req, network, now, maxRetries, 0)
  }

  /** Number of calls made to the tool. */
  function Tries(e: LoopEnd): nat
  {
    match e
    case NotRun => 0
    case Succeeded(k, _) => k + 1
    case GaveUp(k, _) => k + 1
  }

  /** The record as created, with status IN_PROGRESS: the clock was read for the
      id (reading `c`), by the record's default start time (`c + 1`) and for the
      start time proper (`c + 2`). */
  function Initial(req: Request, readings: nat -> Timestamp, c: nat): (r: OperationRecord)
    ensures r.status == InProgress && r.retryCount == 0
    ensures r.toolName == req.toolName && r.command == req.command
    ensures r.responseData.None? && r.errorMessage.None? && r.endTime.None?
  {
    OperationRecord(
      req.toolName + "_" + NatRepr(readings(c)), req.toolName, req.operationType,
      req.command, req.parameters, InProgress, None, None, None,
      readings(c + 2), None, None, 0, map[])
  }

  /** Clock readings made inside the loop before the end time is read. */
  function LoopReadings(req: Request, maxRetries: int): nat
  {
    if IsGeneric(req.toolName) && maxRetries >= 0 then 1 else 0
  }

  /** Milliseconds between two readings of the microsecond clock. */
  function DurationMs(start: Timestamp, end: Timestamp): real
  {
    (end - start) as real / 1000.0
  }

  /** The record once the loop has ended as `e`, the end time being `ended`. */
  function Completed(base: OperationRecord, e: LoopEnd, ended: Timestamp): OperationRecord
  {
    match e
    case NotRun => base
    case Succeeded(k, body) =>
      base.(status := Success, responseData := Some(body), endTime := Some(ended),
            durationMs := Some(DurationMs(base.startTime, ended)), retryCount := k)
    case GaveUp(k, message) =>
      base.(status := Failed, errorMessage := Some(message), endTime := Some(ended),
            durationMs := Some(DurationMs(base.startTime, ended)), retryCount := k)
  }

  /** Closing a record sets its status, so whether it was IN_PROGRESS or
      RETRYING before does not matter. */
  lemma CompletedIgnoresStatus(base: OperationRecord, r: OperationRecord, closed: OperationRecord,
                                e: LoopEnd, ended: Timestamp)
    requires r == base || r == base.(status := Retrying)
    requires !e.NotRun? && closed == Completed(r, e, ended)
    ensures closed == Completed(base, e, ended)
  {
  }

  /** The record `execute_operation` returns, for the clock's readings from `c` on. */
  function Executed(req: Request, network: nat -> Outcome, maxRetries: int,
                    readings: nat -> Timestamp, c: nat): OperationRecord
  {
    AfterLoop(Initial(req, readings, c), req, network, maxRetries, readings, c + 3)
  }

  /** The record `base` once the retry loop, entered at reading number `c`, has ended. */
  function AfterLoop(base: OperationRecord, req: Request, network: nat -> Outcome, maxRetries: int,
                     readings: nat -> Timestamp, c: nat): OperationRecord
  {
    Completed(base, RunAttempts(req, network, readings(c), maxRetries), readings(c + LoopReadings(req, maxRetries)))
  }

  /**
   * The record's clock readings: its id is made from reading `c`, its start
   * time is reading `c + 2`, and a loop that ran ends it with the reading
   * taken right after the loop's own readings.
   */
  lemma ExecutedTimes(req: Request, network: nat -> Outcome, maxRetries: int,
                      readings: nat -> Timestamp, c: nat)
    ensures var r := Executed(req, network, maxRetries, readings, c);
      && r.operationId == req.toolName + "_" + NatRepr(readings(c))
      && r.startTime == readings(c + 2)
      && r.endTime == if maxRetries >= 0 then Some(readings(c + 3 + LoopReadings(req, maxRetries))) else None
  {
    var e := RunAttempts(req, network, readings(c + 3), maxRetries);
    assert maxRetries >= 0 <==> !e.NotRun?;
  }

  // ------------------------------------------------ properties of the loop

  /** With a non-negative retry bound the record always ends SUCCESS or FAILED. */
  lemma ExecutedIsTerminal(req: Request, network: nat -> Outcome, maxRetries: int,
                           readings: nat -> Timestamp, c: nat)
    requires maxRetries >= 0
    ensures Executed(req, network, maxRetries, readings, c).status in {Success, Failed}
    ensures 0 <= Executed(req, network, maxRetries, readings, c).retryCount <= maxRetries
  {
  }

  /** With a negative retry bound the loop never runs: the record stays IN_PROGRESS. */
  lemma NegativeBoundNeverRuns(req: Request, network: nat -> Outcome, maxRetries: int,
                               readings: nat -> Timestamp, c: nat)
    requires maxRetries < 0
    ensures Executed(req, network, maxRetries, readings, c).status == InProgress
    ensures Executed(req, network, maxRetries, readings, c).endTime.None?
  {
  }

  /** The loop from attempt `j` on, when attempts `j` up to `k - 1` fail and attempt `k` succeeds. */
  lemma {:induction false} RetryLoopSucceedsAt(req: Request, network: nat -> Outcome, now: Timestamp,
                                               maxRetries: int, j: nat, k: nat)
    requires j <= k <= maxRetries
    requires forall i :: j <= i < k ==> Attempt(req, network(i), now).Raised?
    requires Attempt(req, network(k), now).Returned?
    ensures RetryLoop(req, network, now, maxRetries, j) == Succeeded(k, Attempt(req, network(k), now).body)
    decreases k - j
  {
    if j < k {
      RetryLoopSucceedsAt(req, network, now, maxRetries, j + 1, k);
    }
  }

  /** The loop from attempt `j` on, when every attempt up to `maxRetries` fails. */
  lemma {:induction false} RetryLoopGivesUp(req: Request, network: nat -> Outcome, now: Timestamp,
                                            maxRetries: int, j: nat)
    requires j <= maxRetries
    requires forall i :: j <= i <= maxRetries ==> Attempt(req, network(i), now).Raised?
    ensures RetryLoop(req, network, now, maxRetries, j)
            == GaveUp(maxRetries, Attempt(req, network(maxRetries), now).message)
    decreases maxRetries - j
  {
    if j < maxRetries {
      RetryLoopGivesUp(req, network, now, maxRetries, j + 1);
    }
  }

  /** A remote call that fails `k` times and then succeeds, with `k <= maxRetries`,
      gives SUCCESS with retry count `k`, the reply as response and no error. */
  lemma SucceedsAfterFailures(req: Request, network: nat -> Outcome, maxRetries: int,
                              readings: nat -> Timestamp, c: nat, k: nat)
    requires IsRemote(req)
    requires k <= maxRetries
    requires forall i :: 0 <= i < k ==> network(i).Raised?
    requires network(k).Returned?
    ensures var r := Executed(req, network, maxRetries, readings, c);
            && r.status == Success && r.retryCount == k
            && r.responseData == Some(network(k).body) && r.errorMessage.None?
  {
    RetryLoopSucceedsAt(req, network, readings(c + 3), maxRetries, 0, k);
  }

  /** A remote call that fails on every one of its `maxRetries + 1` attempts gives
      FAILED with retry count `maxRetries` and the last failure's message. */
  lemma FailsAfterAllAttempts(req: Request, network: nat -> Outcome, maxRetries: int,
                              readings: nat -> Timestamp, c: nat)
    requires IsRemote(req)
    requires maxRetries >= 0
    requires forall i :: 0 <= i <= maxRetries ==> network(i).Raised?
    ensures var r := Executed(req, network, maxRetries, readings, c);
            && r.status == Failed && r.retryCount == maxRetries
            && r.errorMessage == Some(network(maxRetries).message) && r.responseData.None?
  {
    RetryLoopGivesUp(req, network, readings(c + 3), maxRetries, 0);
  }

  /** Tools other than "langfuse" and "github" succeed on the first attempt with
      the generic echo of the call. */
  lemma GenericSucceedsAtOnce(req: Request, network: nat -> Outcome, maxRetries: int,
                              readings: nat -> Timestamp, c: nat)
    requires IsGeneric(req.toolName)
    requires maxRetries >= 0
    ensures var r := Executed(req, network, maxRetries, readings, c);
            && r.status == Success && r.retryCount == 0 && r.errorMessage.None?
            && r.responseData.Some?
            && r.responseData.value["status"] == Str("executed")
            && r.responseData.value["tool"] == Str(req.toolName)
            && r.responseData.value["command"] == Str(req.command)
            && r.responseData.value["parameters"] == Object(req.parameters)
  {
    RetryLoopSucceedsAt(req, network, readings(c + 3), maxRetries, 0, 0);
  }

  /** An unknown command for langfuse or github fails on every attempt, so the
      operation ends FAILED with the "Unknown ... command" message. */
  lemma UnknownCommandFails(req: Request, network: nat -> Outcome, maxRetries: int,
                            readings: nat -> Timestamp, c: nat)
    requires req.toolName == "langfuse" || req.toolName == "github"
    requires !IsRemote(req)
    requires maxRetries >= 0
    ensures var r := Executed(req, network, maxRetries, readings, c);
            && r.status == Failed && r.retryCount == maxRetries
            && r.errorMessage == Some(
                 if req.toolName == "langfuse" then "Unknown Langfuse command: " + req.command
                 else "Unknown GitHub command: " + req.command)
  {
    RetryLoopGivesUp(req, network, readings(c + 3), maxRetries, 0);
  }

  /** The loop consults the tool at most `maxRetries + 1` times. */
  lemma TriesBounded(req: Request, network: nat -> Outcome, now: Timestamp, maxRetries: int)
    ensures Tries(RunAttempts(req, network, now, maxRetries)) <= Max(0, maxRetries + 1)
  {
  }

  /** With the default bound of 3 the tool is called at most four times, the
      record always ends SUCCESS or FAILED, and four failures of a remote
      tool end it FAILED with retry_count 3. */
  lemma DefaultRetries(req: Request, network: nat -> Outcome, readings: nat -> Timestamp, c: nat)
    ensures Tries(RunAttempts(req, network, readings(c + 3), DefaultMaxRetries)) <= 4
    ensures Executed(req, network, DefaultMaxRetries, readings, c).status in {Success, Failed}
    ensures IsRemote(req) && (forall i :: 0 <= i <= 3 ==> network(i).Raised?) ==>
              Executed(req, network, DefaultMaxRetries, readings, c).status == Failed &&
              Executed(req, network, DefaultMaxRetries, readings, c).retryCount == 3
  {
    TriesBounded(req, network, readings(c + 3), DefaultMaxRetries);
    ExecutedIsTerminal(req, network, DefaultMaxRetries, readings, c);
    if IsRemote(req) && (forall i :: 0 <= i <= 3 ==> network(i).Raised?) {
      FailsAfterAllAttempts(req, network, DefaultMaxRetries, readings, c);
    }
  }

  /** Attempts after number `maxRetries` are never made: two collaborators that
      agree on attempts 0 to `maxRetries` give the same record. */
  lemma {:induction false} RetryLoopOnlyReadsBound(req: Request, n1: nat -> Outcome, n2: nat -> Outcome,
                                                   now: Timestamp, maxRetries: int, j: nat)
    requires j <= maxRetries
    requires forall i :: j <= i <= maxRetries ==> n1(i) == n2(i)
    ensures RetryLoop(req, n1, now, maxRetries, j) == RetryLoop(req, n2, now, maxRetries, j)
    decreases maxRetries - j
  {
    if j < maxRetries {
      RetryLoopOnlyReadsBound(req, n1, n2, now, maxRetries, j + 1);
    }
  }

  lemma ExecutedOnlyReadsBound(req: Request, n1: nat -> Outcome, n2: nat -> Outcome, maxRetries: int,
                               readings: nat -> Timestamp, c: nat)
    requires forall i :: 0 <= i <= maxRetries ==> n1(i) == n2(i)
    ensures Executed(req, n1, maxRetries, readings, c) == Executed(req, n2, maxRetries, readings, c)
  {
    if maxRetries >= 0 {
      RetryLoopOnlyReadsBound(req, n1, n2, readings(c + 3), maxRetries, 0);
    }
  }

  /** The operation id starts with the tool name and an underscore, followed by digits. */
  lemma OperationIdShape(req: Request, network: nat -> Outcome, maxRetries: int,
                         readings: nat -> Timestamp, c: nat)
    ensures var id := Executed(req, network, maxRetries, readings, c).operationId;
            && req.toolName + "_" <= id
            && |id| > |req.toolName| + 1
            && AllDigits(id[|req.toolName| + 1..])
  {
    var id := Executed(req, network, maxRetries, readings, c).operationId;
    assert id == req.toolName + "_" + NatRepr(readings(c));
    assert id[|req.toolName| + 1..] == NatRepr(readings(c));
  }

  // ------------------------------------------------- the status state machine

  /** The status changes `execute_operation` makes. SUCCESS and FAILED are final. */
  predicate Step(from: OperationStatus, to: OperationStatus)
  {
    match from
    case Pending => to == InProgress
    case InProgress => to in {Success, Retrying, Failed}
    case Retrying => to in {Success, Retrying, Failed}
    case Success => false
    case Failed => false
  }

  predicate IsWalk(statuses: seq<OperationStatus>)
  {
    && |statuses| >= 1 && statuses[0] == Pending
    && forall i :: 0 <= i < |statuses| - 1 ==> Step(statuses[i], statuses[i + 1])
  }

  /** `n` RETRYING statuses in a row. */
  function RetryingTimes(n: nat): seq<OperationStatus>
  {
    if n == 0 then [] else RetryingTimes(n - 1) + [Retrying]
  }

  /** The statuses the record takes inside the loop that ends as `e`. */
  function LoopStatuses(e: LoopEnd): seq<OperationStatus>
  {
    match e
    case NotRun => []
    case Succeeded(k, _) => RetryingTimes(k) + [Success]
    case GaveUp(k, _) => RetryingTimes(k) + [Failed]
  }

  lemma {:induction false} RetryingTimesAll(n: nat)
    ensures |RetryingTimes(n)| == n
    ensures forall i :: 0 <= i < n ==> RetryingTimes(n)[i] == Retrying
  {
    if n > 0 {
      RetryingTimesAll(n - 1);
    }
  }

  /** The statuses a finished record went through, in order. */
  function History(r: OperationRecord): seq<OperationStatus>
    requires r.retryCount >= 0
  {
    [Pending, InProgress] + RetryingTimes(r.retryCount) + [r.status]
  }

  /** A loop that ran leaves the record with the history of its statuses. */
  lemma LoopStatusesHistory(base: OperationRecord, e: LoopEnd, ended: Timestamp)
    ensures !e.NotRun? ==> Completed(base, e, ended).retryCount >= 0 &&
                           History(Completed(base, e, ended)) == [Pending, InProgress] + LoopStatuses(e)
  {
  }

  /** Every finished record went PENDING, IN_PROGRESS, RETRYING once per retry,
      then SUCCESS or FAILED: a walk of the state machine that ends in a final state. */
  lemma HistoryIsWalk(req: Request, network: nat -> Outcome, maxRetries: int,
                      readings: nat -> Timestamp, c: nat)
    requires maxRetries >= 0
    ensures var r := Executed(req, network, maxRetries, readings, c);
            r.retryCount >= 0 && IsWalk(History(r))
            && forall s :: Step(r.status, s) ==> false
  {
    var r := Executed(req, network, maxRetries, readings, c);
    ExecutedIsTerminal(req, network, maxRetries, readings, c);
    RetryingTimesAll(r.retryCount);
    var h := History(r);
    forall i | 0 <= i < |h| - 1 ensures Step(h[i], h[i + 1]) {
      if 2 <= i {
        assert h[i] == Retrying;
      }
    }
  }

  // ------------------------------------------------------ the specialist

  /** `check_tool_status` probe outcome: an HTTP reply, or an exception. */
  datatype Probe = Responded(statusCode: int, body: Json) | ProbeRaised(message: string)

  /** Tools that have a configuration entry. */
  predicate IsConfigured(toolName: string)
  {
    toolName == "langfuse" || toolName == "github"
  }

  /** `check_tool_status`: unconfigured tools are reported without any network
      call; configured ones by the outcome of their health probe. */
  function CheckToolStatus(toolName: string, probe: Probe): (d: Dict)
    ensures "tool" in d && "status" in d && d["tool"] == Str(toolName)
    ensures !IsConfigured(toolName) <==> d["status"] == Str("not_configured")
    ensures !IsConfigured(toolName) ==> "message" in d && d["message"] == Str("工具 " + toolName + " 未配置")
    ensures IsConfigured(toolName) && probe.ProbeRaised? ==>
              d == map["tool" := Str(toolName), "status" := Str("error"), "error" := Str(probe.message)]
    ensures d["status"] == Str("healthy") <==>
              IsConfigured(toolName) && probe.Responded? && probe.statusCode == 200
  {
    if !IsConfigured(toolName) then
      map["tool" := Str(toolName), "status" := Str("not_configured"),
          "message" := Str("工具 " + toolName + " 未配置")]
    else
      match probe
      case ProbeRaised(message) =>
        map["tool" := Str(toolName), "status" := Str("error"), "error" := Str(message)]
      case Responded(code, body) =>
        if code == 200 && toolName == "langfuse" then
          map["tool" := Str(toolName), "status" := Str("healthy")]
        else if code == 200 then
          map["tool" := Str(toolName), "status" := Str("healthy"), "user" := body]
        else
          map["tool" := Str(toolName), "status" := Str("unknown")]
  }

  class ToolOperationsSpecialist {
    const maxRetries: int
    const logger: OperationLogger
    const clock: Clock

    ghost predicate Valid()
      reads this, logger
    {
      logger.Valid()
    }

    /** A specialist whose log is `tool_operations.jsonl`, holding `existing`
        if the file exists, and whose clock gives `readings`. */
    constructor (maxRetries: int, existing: Option<seq<Dict>>, readings: nat -> Timestamp)
      ensures Valid() && fresh(logger) && fresh(clock)
      ensures this.maxRetries == maxRetries && logger.logFile == DefaultLogFile
      ensures logger.fileExists == existing.Some?
      ensures logger.lines == if existing.Some? then existing.value else []
      ensures clock.readings == readings && clock.count == 0
    {
      this.maxRetries := maxRetries;
      logger := new OperationLogger(DefaultLogFile, existing);
      clock := new Clock(readings);
    }

    /** The tool dispatch at the head of each attempt of `execute_operation`;
        only the generic operation reads the clock. */
    method Dispatch(req: Request, reply: Outcome) returns (outcome: Outcome)
      modifies clock
      ensures outcome == Attempt(req, reply, clock.readings(old(clock.count)))
      ensures clock.count == old(clock.count) + if IsGeneric(req.toolName) then 1 else 0
    {
      if req.toolName == "langfuse" {
        outcome := LangfuseOperation(req.command, reply);
      } else if req.toolName == "github" {
        outcome := GithubOperation(req.command, reply);
      } else {
        var t := clock.Now();
        outcome := Returned(GenericOperation(req.toolName, req.command, req.parameters, t));
      }
    }

    /** The opening block of `execute_operation`: the id is made from one clock
        reading, the record is created PENDING (its default start time being a
        second reading), then gets a third reading as start time and goes
        IN_PROGRESS. */
    method OpenOperation(req: Request) returns (record: OperationRecord)
      modifies clock
      ensures record == Initial(req, clock.readings, old(clock.count))
      ensures clock.count == old(clock.count) + 3
    {
      var stamp := clock.Now();
      var created := clock.Now();
      record := OperationRecord(req.toolName + "_" + NatRepr(stamp), req.toolName, req.operationType,
                                req.command, req.parameters, Pending, None, None, None, created,
                                None, None, 0, map[]);
      var started := clock.Now();
      record := record.(startTime := started);
      record := record.(status := InProgress);
    }

    /** The closing block of an attempt that returned, or of the last attempt that
        raised: status, response or error, end time, duration and retry count are
        set and the record is logged. */
    method CloseOperation(record: OperationRecord, e: LoopEnd) returns (closed: OperationRecord)
      requires logger.Valid() && !e.NotRun?
      modifies logger, clock
      ensures closed == Completed(record, e, clock.readings(old(clock.count)))
      ensures clock.count == old(clock.count) + 1
      ensures logger.Valid() && logger.fileExists && logger.lines == old(logger.lines) + [ToDict(closed)]
    {
      closed := record;
      match e {
        case Succeeded(k, body) =>
          closed := closed.(status := Success);
          closed := closed.(responseData := Some(body));
          var ended := clock.Now();
          closed := closed.(endTime := Some(ended));
          closed := closed.(durationMs := Some(DurationMs(closed.startTime, ended)));
          closed := closed.(retryCount := k);
        case GaveUp(k, message) =>
          closed := closed.(status := Failed);
          closed := closed.(errorMessage := Some(message));
          var ended := clock.Now();
          closed := closed.(endTime := Some(ended));
          closed := closed.(durationMs := Some(DurationMs(closed.startTime, ended)));
          closed := closed.(retryCount := k);
      }
      logger.LogOperation(closed);
    }

    /** `execute_operation`. The returned record is `Executed(...)`; with a
        non-negative bound it, and only it, is appended to the log, and
        `statuses` lists the status values the record took, in order. */
    method ExecuteOperation(toolName: string, operationType: OperationType, command: string,
                            parameters: Dict, network: nat -> Outcome)
      returns (record: OperationRecord, ghost statuses: seq<OperationStatus>, ghost attempts: nat)
      requires Valid()
      modifies logger, clock
      ensures Valid()
      ensures var req := Request(toolName, operationType, command, parameters);
              record == Executed(req, network, maxRetries, clock.readings, old(clock.count))
      ensures maxRetries >= 0 ==> logger.fileExists && logger.lines == old(logger.lines) + [ToDict(record)]
      ensures maxRetries < 0 ==> logger.fileExists == old(logger.fileExists) && logger.lines == old(logger.lines)
      ensures var req := Request(toolName, operationType, command, parameters);
              attempts == Tries(RunAttempts(req, network, clock.readings(old(clock.count) + 3), maxRetries))
      ensures maxRetries >= 0 ==> record.retryCount >= 0 && statuses == History(record)
      ensures maxRetries < 0 ==> statuses == [Pending, InProgress]
    {
      var req := Request(toolName, operationType, command, parameters);
      ghost var c := clock.count;
      record := OpenOperation(req);
      ghost var base := record;
      statuses := [Pending, InProgress];
      ghost var later;
      record, later, attempts := RetryLoopRun(req, network, record);
      statuses := statuses + later;
      LoopStatusesHistory(base, RunAttempts(req, network, clock.readings(c + 3), maxRetries),
                          clock.readings(c + 3 + LoopReadings(req, maxRetries)));
    }

    /** The retry loop of `execute_operation`, entered with the IN_PROGRESS
        record `base`: each attempt dispatches the request; an attempt that
        returns closes the record as SUCCESS, one that raises either marks it
        RETRYING or, once the bound is used up, closes it as FAILED. `statuses`
        lists the statuses the record took in the loop. */
    method RetryLoopRun(req: Request, network: nat -> Outcome, base: OperationRecord)
      returns (record: OperationRecord, ghost statuses: seq<OperationStatus>, ghost attempts: nat)
      requires logger.Valid()
      modifies logger, clock
      ensures logger.Valid()
      ensures record == AfterLoop(base, req, network, maxRetries, clock.readings, old(clock.count))
      ensures attempts == Tries(RunAttempts(req, network, clock.readings(old(clock.count)), maxRetries))
      ensures statuses == LoopStatuses(RunAttempts(req, network, clock.readings(old(clock.count)), maxRetries))
      ensures maxRetries >= 0 ==> logger.fileExists && logger.lines == old(logger.lines) + [ToDict(record)]
      ensures maxRetries < 0 ==> logger.fileExists == old(logger.fileExists) && logger.lines == old(logger.lines)
    {
      ghost var c := clock.count;
      ghost var now := clock.readings(c);
      ghost var e := RunAttempts(req, network, now, maxRetries);
      ghost var ended := clock.readings(c + LoopReadings(req, maxRetries));
      assert AfterLoop(base, req, network, maxRetries, clock.readings, c) == Completed(base, e, ended);
      record := base;
      statuses := [];
      attempts := 0;
      var retryCount: nat := 0;
      var lastError := "";
      while retryCount <= maxRetries
        invariant logger.Valid()
        invariant attempts == retryCount
        invariant retryCount == 0 || retryCount <= maxRetries
        invariant logger.lines == old(logger.lines) && logger.fileExists == old(logger.fileExists)
        invariant clock.count == c
        invariant record == if retryCount == 0 then base else base.(status := Retrying)
        invariant 0 <= maxRetries ==> e == RetryLoop(req, network, now, maxRetries, retryCount)
        invariant statuses == RetryingTimes(retryCount)
      {
        attempts := attempts + 1;
        var outcome := Dispatch(req, network(retryCount));
        match outcome {
          case Returned(body) =>
            assert e == Succeeded(retryCount, body);
            statuses := statuses + [Success];
            assert clock.readings(clock.count) == ended;
            record := Finish(base, record, Succeeded(retryCount, body), ended);
            return;
          case Raised(message) =>
            lastError := message;
            retryCount := retryCount + 1;
            if retryCount <= maxRetries {
              record := record.(status := Retrying);
              statuses := statuses + [Retrying];
            } else {
              assert e == GaveUp(retryCount - 1, lastError);
              statuses := statuses + [Failed];
              assert clock.readings(clock.count) == ended;
              record := Finish(base, record, GaveUp(retryCount - 1, lastError), ended);
              // The loop condition fails now; the record is returned as it is.
              return;
            }
        }
      }
    }

    /** The closing block of the retry loop, applied to the record as the loop
        left it (IN_PROGRESS or RETRYING): the result is `base` closed with `e`. */
    method Finish(ghost base: OperationRecord, record: OperationRecord, e: LoopEnd, ghost ended: Timestamp)
      returns (closed: OperationRecord)
      requires logger.Valid() && !e.NotRun?
      requires record == base || record == base.(status := Retrying)
      requires clock.readings(clock.count) == ended
      modifies logger, clock
      ensures closed == Completed(base, e, ended)
      ensures closed.retryCount == e.retries && closed.status == (if e.Succeeded? then Success else Failed)
      ensures clock.count == old(clock.count) + 1
      ensures logger.Valid() && logger.fileExists && logger.lines == old(logger.lines) + [ToDict(closed)]
    {
      closed := CloseOperation(record, e);
      CompletedIgnoresStatus(base, record, closed, e, ended);
    }

    /** `get_operation_history`: the log read through `get_operations`. */
    method GetOperationHistory(toolName: Option<string>, limit: int) returns (ops: seq<Dict>)
      requires Valid()
      ensures ops <= Matching(logger.lines, toolName)
      ensures |ops| == if logger.fileExists then Min(|Matching(logger.lines, toolName)|, Max(limit, 1)) else 0
    {
      ops := logger.GetOperations(toolName, limit);
    }
  }
}
