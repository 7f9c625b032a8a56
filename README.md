# langgraph-learning, modelled in Dafny

This project models the core of the langgraph-learning tutorials:

- The tool-operations specialist:
  - its operation records and their dictionary form;
  - its append-only JSONL operation log and the filtered, limited reading of that log;
  - the bounded retry loop of `execute_operation` with its status state machine;
  - the tool dispatch, including the generic operation;
  - `check_tool_status`.
- The monitoring specialist:
  - its system list and metrics dispatch;
  - the 100-point health score with its threshold deductions and status bands;
  - the error-log dispatch.
- The demo workflows:
  - the survey pipeline (validate → clean → analyze → report, with its error branch);
  - the five tutorial graphs (greeting, intent router, task list, retry cycle, conversation);
  - the two trace-recording pipelines (the in-memory tracker demo and the offline Langfuse tracker).
- The name derivations of the agent template generator.

Each graph is modelled from the `add_edge` / `add_conditional_edges` wiring the demo shows. The graphs run one node at a time, and every node sees and returns the whole state.

Node functions that change their state in place become methods of a state class, and each graph's run is a method that calls them:
- The survey state and the retry state have a snapshot function (`View()`). Each node method is specified by a function on that snapshot.
- The survey run is a loop over a cursor node, and the retry cycle is a while loop on `should_retry`. Each loop is proved to compute its run function, and the properties are proved about those functions.
- The linear graphs call their nodes in wiring order. These are the greeting, task list and conversation graphs, the intent router and the two trace-recording pipelines. Their ensures clauses give the final state.

Files:

| file | module | models |
|---|---|---|
| text.dfy | Text | Python string builtins used by the core: `lower`, `title`, `strip`, `replace`, `in`, `split`, `int()`, `str()` of integers and lists (ASCII model) |
| json.dfy | Json | JSON values and dictionaries |
| clock.dfy | WallClock | `datetime.now()` as a sequence of readings |
| tool_operations.dfy | ToolOperations | tool_operations_specialist_tracked.py |
| monitoring.dfy | Monitoring | monitoring_specialist_tracked.py |
| survey.dfy | Survey | langgraph_survey_project.py |
| tutorial.dfy | Tutorial | langgraph_tutorial.py |
| complete_demo.dfy | CompleteDemo | langgraph_complete_demo.py |
| offline_tracking.dfy | OfflineTracking | langgraph_offline_tracking.py |
| agent_template.dfy | AgentTemplate | agent_template_generator.py |

Outside collaborators are parameters of the model:

- An HTTP call is an outcome the caller supplies. For the retry loop it is `network: nat -> Outcome`, indexed by attempt number.
- The clock is a `Clock` object whose n-th reading is arbitrary but fixed.
- The log file is the sequence of dictionaries written to it, plus whether the file exists.

## Model

| member | source | states |
|---|---|---|
| ToolOperations.EnumValuesDistinct | tool_operations_specialist_tracked.py:55-71 | no two members of OperationType, or of OperationStatus, share a `.value` string |
| ToolOperations.ToDict | tool_operations_specialist_tracked.py:92-109 | the dictionary carries the record's tool name under "tool_name", the key the log filter reads |
| ToolOperations.ToDictKeys | tool_operations_specialist_tracked.py:94-109 | every serialised record has exactly the fourteen keys of `to_dict` |
| ToolOperations.OptionalDictInjective | tool_operations_specialist_tracked.py:101-102 | an optional dictionary field serialises differently for None and for every dictionary, and injectively |
| ToolOperations.OptionalTextInjective | tool_operations_specialist_tracked.py:103 | the optional error message serialises injectively |
| ToolOperations.OptionalFloatInjective | tool_operations_specialist_tracked.py:106 | the optional duration serialises injectively |
| ToolOperations.EndTimeInjective | tool_operations_specialist_tracked.py:105 | the optional end time serialises injectively |
| ToolOperations.TypeValueInjective | tool_operations_specialist_tracked.py:55-62 | equal type values mean equal operation types |
| ToolOperations.StatusValueInjective | tool_operations_specialist_tracked.py:65-71 | equal status values mean equal statuses |
| ToolOperations.ToDictInjective | tool_operations_specialist_tracked.py:92-109 | `to_dict` loses nothing: two records with the same dictionary are the same record (each field is stored under its key, the enums by their distinct values, None as null) |
| ToolOperations.Matching | tool_operations_specialist_tracked.py:142-146 | the lines selected from the log are never more than the log's lines |
| ToolOperations.MatchingSelects | tool_operations_specialist_tracked.py:145-146 | a line is selected iff it is in the log and no tool is asked for or its "tool_name" is that tool |
| ToolOperations.MatchingPrefix | tool_operations_specialist_tracked.py:142-146 | reading further into the log only adds selected lines at the end: the selection keeps write order |
| ToolOperations.MatchingStep | tool_operations_specialist_tracked.py:142-146 | one more line read adds that line to the selection exactly when it matches |
| ToolOperations.MatchingOfPrefix | tool_operations_specialist_tracked.py:142-148 | what is selected before the scan stops begins the full selection |
| ToolOperations.LoggedRecordMatches | tool_operations_specialist_tracked.py:145 | a logged record is selected by its own tool name and by no other |
| ToolOperations.MatchingAfterLog | tool_operations_specialist_tracked.py:120-146 | after a record is logged, the selection for its tool is the earlier selection followed by that record |
| ToolOperations.OperationLogger.constructor | tool_operations_specialist_tracked.py:116-118 | a logger over its file; the lines are those already in the file, if it exists |
| ToolOperations.OperationLogger.LogOperation | tool_operations_specialist_tracked.py:120-127 | exactly one line, the record's dictionary, is appended; earlier lines are unchanged; the file then exists |
| ToolOperations.OperationLogger.GetOperations | tool_operations_specialist_tracked.py:129-153 | a missing file gives []; otherwise a prefix of the selected lines in write order, of length min(selected, max(limit, 1)) since the limit is checked after appending |
| ToolOperations.LangfuseOperation | tool_operations_specialist_tracked.py:272-297 | "get_traces" and "create_trace" give the HTTP outcome; any other command raises "Unknown Langfuse command: <command>" |
| ToolOperations.GithubOperation | tool_operations_specialist_tracked.py:314-338 | "get_repo" and "create_issue" give the HTTP outcome; any other command raises "Unknown GitHub command: <command>" |
| ToolOperations.GenericOperation | tool_operations_specialist_tracked.py:341-354 | the reply has exactly status "executed", tool, command, parameters and timestamp |
| ToolOperations.Attempt | tool_operations_specialist_tracked.py:225-230 | a known langfuse/github command gives the collaborator's outcome; any other tool gets the generic reply, which never fails |
| ToolOperations.RetryLoop | tool_operations_specialist_tracked.py:222-258 | the loop always ends; success is at a retry count between the entry count and max_retries; giving up is at max_retries |
| ToolOperations.Initial | tool_operations_specialist_tracked.py:203-217 | the record before the loop is IN_PROGRESS with retry count 0 and no response, error or end time |
| ToolOperations.CompletedIgnoresStatus | tool_operations_specialist_tracked.py:233-255 | closing a record overwrites its status, so closing after RETRYING equals closing the IN_PROGRESS record |
| ToolOperations.ExecutedTimes | tool_operations_specialist_tracked.py:202-252 | the id is built from the first clock reading and start_time is the third; a loop that ran sets end_time to the reading taken after the loop's own readings; with max_retries < 0 end_time stays None |
| ToolOperations.ExecutedIsTerminal | tool_operations_specialist_tracked.py:222-260 | with max_retries >= 0 the status is SUCCESS or FAILED and 0 <= retry_count <= max_retries |
| ToolOperations.NegativeBoundNeverRuns | tool_operations_specialist_tracked.py:222-260 | with max_retries < 0 the loop never runs: IN_PROGRESS, no end time |
| ToolOperations.RetryLoopSucceedsAt | tool_operations_specialist_tracked.py:222-246 | from attempt j, failures up to k - 1 then a success at k end the loop as success at k with that reply |
| ToolOperations.RetryLoopGivesUp | tool_operations_specialist_tracked.py:244-258 | from attempt j, failures up to max_retries end the loop giving up with the last failure's message |
| ToolOperations.SucceedsAfterFailures | tool_operations_specialist_tracked.py:222-242 | k failures then a success (k <= max_retries): SUCCESS, retry_count k, the reply as response data, no error message |
| ToolOperations.FailsAfterAllAttempts | tool_operations_specialist_tracked.py:244-258 | max_retries + 1 failures: FAILED, retry_count max_retries, the last failure's message, no response data |
| ToolOperations.GenericSucceedsAtOnce | tool_operations_specialist_tracked.py:225-242 | other tools: SUCCESS at once, retry_count 0, the response holds status "executed", tool, command and parameters |
| ToolOperations.UnknownCommandFails | tool_operations_specialist_tracked.py:296-297 | an unknown langfuse or github command ends FAILED after max_retries retries with the "Unknown … command" message |
| ToolOperations.DefaultRetries | tool_operations_specialist_tracked.py:160-260 | with the default max_retries = 3 the tool is called at most four times and the record ends SUCCESS or FAILED; four failures of a remote tool end it FAILED with retry_count 3 |
| ToolOperations.TriesBounded | tool_operations_specialist_tracked.py:222 | the collaborator is called at most max_retries + 1 times |
| ToolOperations.RetryLoopOnlyReadsBound | tool_operations_specialist_tracked.py:222-258 | collaborators that agree on attempts j..max_retries make the loop from j end alike |
| ToolOperations.ExecutedOnlyReadsBound | tool_operations_specialist_tracked.py:222-260 | no attempt after number max_retries is ever made: the record depends only on the first max_retries + 1 outcomes |
| ToolOperations.OperationIdShape | tool_operations_specialist_tracked.py:203 | the operation id is the tool name, "_", then one or more digits |
| ToolOperations.RetryingTimesAll | tool_operations_specialist_tracked.py:249 | a run of n retries is n RETRYING statuses |
| ToolOperations.HistoryIsWalk | tool_operations_specialist_tracked.py:212-255 | every finished record went PENDING → IN_PROGRESS → RETRYING once per retry → SUCCESS or FAILED, each change allowed, the final status final |
| ToolOperations.CheckToolStatus | tool_operations_specialist_tracked.py:366-398 | not configured iff status "not_configured", with the message "工具 <tool> 未配置"; a raised probe gives the error dict; "healthy" iff configured and the probe answered 200 |
| ToolOperations.ToolOperationsSpecialist.constructor | tool_operations_specialist_tracked.py:160-189 | a fresh logger on tool_operations.jsonl, the retry bound, a fresh clock |
| ToolOperations.ToolOperationsSpecialist.Dispatch | tool_operations_specialist_tracked.py:225-230 | one attempt is `Attempt` on the collaborator's reply; only the generic operation reads the clock |
| ToolOperations.ToolOperationsSpecialist.OpenOperation | tool_operations_specialist_tracked.py:203-217 | the record is `Initial`, after three clock readings |
| ToolOperations.ToolOperationsSpecialist.CloseOperation | tool_operations_specialist_tracked.py:233-258 | the record is closed with one clock reading and its dictionary appended to the log |
| ToolOperations.ToolOperationsSpecialist.ExecuteOperation | tool_operations_specialist_tracked.py:192-260 | the record is `Executed`; with max_retries >= 0 exactly that record is appended; otherwise the log is unchanged; the statuses it went through are its history |
| ToolOperations.ToolOperationsSpecialist.Finish | tool_operations_specialist_tracked.py:233-258 | closing a record that is IN_PROGRESS or RETRYING gives the same closed record, whose retry count is the loop's and whose status is SUCCESS exactly when an attempt returned; its dictionary is appended to the log |
| ToolOperations.ToolOperationsSpecialist.RetryLoopRun | tool_operations_specialist_tracked.py:219-258 | the while loop computes `RunAttempts` and logs once; the statuses are RETRYING per retry then the final one |
| ToolOperations.ToolOperationsSpecialist.GetOperationHistory | tool_operations_specialist_tracked.py:357-363 | the log read through `get_operations` |
| Monitoring.GetSystemList | monitoring_specialist_tracked.py:150-152 | the five system values in declaration order |
| Monitoring.SystemListComplete | monitoring_specialist_tracked.py:52-58 | every system's value is listed, and no two systems share a value |
| Monitoring.LangfuseMetrics | monitoring_specialist_tracked.py:197-231 | langfuse metrics carry no CPU or memory; without a 200 reply they are the defaults 50 ms, 0.005, 500 |
| Monitoring.TargetSystem | monitoring_specialist_tracked.py:169 | the requested system when one is given and non-empty, the configured system's value otherwise; never empty |
| Monitoring.PrometheusMetrics | monitoring_specialist_tracked.py:233-247 | prometheus figures with CPU and memory readings, none of which triggers a scoring rule |
| Monitoring.GenericMetrics | monitoring_specialist_tracked.py:180-189 | figures for the named system without CPU or memory, triggering neither the response-time nor the error-rate rule |
| Monitoring.GetPerformanceMetrics | monitoring_specialist_tracked.py:155-194 | exactly one metrics entry, for the requested or configured system; CPU present iff that system is prometheus |
| Monitoring.MetricsIgnoreReply | monitoring_specialist_tracked.py:172-192 | for systems other than langfuse the metrics do not depend on any HTTP reply |
| Monitoring.Assess | monitoring_specialist_tracked.py:317-379 | the step-by-step deductions and list appends compute `Report` |
| Monitoring.GenerateHealthReport | monitoring_specialist_tracked.py:302-379 | the report of the fetched metrics; its status is never UNKNOWN, because a metrics entry is always fetched |
| Monitoring.ScoreRange | monitoring_specialist_tracked.py:330-362 | starting from 100, the deductions leave a score in 20..100, and that is the report's score |
| Monitoring.ReportScoreBounds | monitoring_specialist_tracked.py:317-375 | the score is in 0..100, and 0 iff there are no metrics |
| Monitoring.ReportStatusBands | monitoring_specialist_tracked.py:317-370 | UNKNOWN iff no metrics; otherwise HEALTHY iff score >= 80, WARNING iff 60 <= score < 80, CRITICAL iff score < 60 |
| Monitoring.ReportListsNonEmpty | monitoring_specialist_tracked.py:317-377 | issues and recommendations are never empty; with no metrics they are the connection issue and advice |
| Monitoring.ResponseTimeRule | monitoring_specialist_tracked.py:335-342 | the too-long issue and the cache advice iff over 1000 ms; the slow issue iff in (500, 1000]; −20 / −10 / 0 |
| Monitoring.ErrorRateRule | monitoring_specialist_tracked.py:344-351 | the too-high issue and the error-log advice iff over 0.05; the elevated issue iff in (0.01, 0.05] |
| Monitoring.UsageRules | monitoring_specialist_tracked.py:353-362 | scale advice iff CPU present and over 80; memory advice iff memory present and over 85; without either only the first two rules deduct |
| Monitoring.FixedSystemsHealthy | monitoring_specialist_tracked.py:176-247 | for any system but langfuse the report is HEALTHY, score 100, "running normally", "keep the configuration" |
| Monitoring.LangfuseDefaultsHealthy | monitoring_specialist_tracked.py:225-231 | when the langfuse call fails, the default metrics give HEALTHY with score 100 |
| Monitoring.GetErrorLogs | monitoring_specialist_tracked.py:250-269 | [] for every system but langfuse; the langfuse errors otherwise |
| Survey.MissingFrom | langgraph_survey_project.py:30 | the missing fields are never more than the required ones |
| Survey.MissingFromSelects | langgraph_survey_project.py:30 | a field is reported missing iff it is required and absent |
| Survey.MissingFromEmpty | langgraph_survey_project.py:29-30 | the missing-field list is empty exactly when every required field is answered |
| Survey.Missing | langgraph_survey_project.py:29-32 | nothing is missing iff name, age and satisfaction are all present |
| Survey.Copied | langgraph_survey_project.py:46 | the copy has exactly the answers' keys |
| Survey.Indented | langgraph_survey_project.py:124 | one report line per processing step; line i is step i indented by two spaces |
| Survey.CheckValidation | langgraph_survey_project.py:135-139 | "error" iff error_message is non-empty, else "proceed" |
| Survey.DecideAnalysisType | langgraph_survey_project.py:141-147 | "analyze" for every parseable age, and when age is absent |
| Survey.Next | langgraph_survey_project.py:163-181 | every edge of the wiring moves strictly closer to END |
| Survey.Apply | langgraph_survey_project.py:156-160 | after a node runs, whatever the next node needs of the state holds |
| Survey.ValidatedReady | langgraph_survey_project.py:166-173 | after validation the chosen branch can run |
| Survey.SurveyState.constructor | langgraph_survey_project.py:12-20 | the initial state of an invocation |
| Survey.SurveyState.ValidateInput | langgraph_survey_project.py:24-48 | the new state is `Validated` of the old one |
| Survey.SurveyState.CleanData | langgraph_survey_project.py:50-67 | the new state is `Cleaned` of the old one |
| Survey.SurveyState.AnalyzeSatisfaction | langgraph_survey_project.py:69-97 | the new state is `Analyzed` of the old one |
| Survey.SurveyState.GenerateReport | langgraph_survey_project.py:99-131 | the new state is `Reported` of the old one |
| Survey.RunNode | langgraph_survey_project.py:156-160 | running a node applies that node's function |
| Survey.Invoke | langgraph_survey_project.py:151-183 | the loop over the wiring computes `Run` |
| Survey.RunPaths | langgraph_survey_project.py:163-181 | a run is validate alone when validation sets an error, else validate, clean, analyze, report |
| Survey.ValidateMissingFields | langgraph_survey_project.py:29-34 | missing fields: the error lists them in required order, validated_data is untouched, one step added |
| Survey.AgeError | langgraph_survey_project.py:37-44 | one of three outcomes: the not-a-number message exactly when int() rejects the text, none exactly when it reads an integer in 0..150, the range message otherwise |
| Survey.AgeErrorRendered | langgraph_survey_project.py:37-44 | an age written as str(n) is read back as n, so it is accepted exactly when 0 <= n <= 150 and otherwise gets the range message |
| Survey.ValidateBadAge | langgraph_survey_project.py:37-44 | non-numeric age: "年龄必须是数字"; out of 0..150: the range error; validated_data untouched, one step added |
| Survey.ValidateSuccess | langgraph_survey_project.py:24-48 | on success validated_data is the answers and two steps are added; on any error one step is added and the error is set |
| Survey.CopiedAnswers | langgraph_survey_project.py:46 | each copied answer is the original text |
| Survey.SatisfactionScoreRange | langgraph_survey_project.py:59-64 | the score is in 1..5, and 3 for any answer the map lacks |
| Survey.CleanedData | langgraph_survey_project.py:50-67 | satisfaction_score set in 1..5, name stripped and title-cased, other answers kept, two steps added |
| Survey.AnalysisBands | langgraph_survey_project.py:69-97 | score >= 4, == 3, < 3 give the three level / recommendation pairs; a missing score counts as 3 |
| Survey.ReportMentionsRecommendation | langgraph_survey_project.py:99-131 | the report contains the recommendation; two steps are added; the analysis is kept |
| Survey.ErrorPathSkipsProcessing | langgraph_survey_project.py:160-176 | on the error path only validate and the identity error handler run: no report, no analysis |
| Survey.InitialErrorWins | langgraph_survey_project.py:135-139 | an error already present at the start sends the run to the error handler |
| Survey.SuccessPath | langgraph_survey_project.py:24-131 | on the success path eight steps are added, the score is in 1..5, the report names the recommendation |
| Survey.ValidSampleValidates | langgraph_survey_project.py:198-212 | the valid sample passes validation and validated_data is its answers |
| Survey.ValidSampleScores | langgraph_survey_project.py:198-212 | the valid sample scores 5 after cleaning |
| Survey.VerySatisfiedScoresFive | langgraph_survey_project.py:60-64 | "很满意" maps to 5 |
| Survey.AnswerIgnoresName | langgraph_survey_project.py:55-64 | cleaning the name does not change the satisfaction answer that is scored |
| Survey.ValidSample | langgraph_survey_project.py:198-212 | the valid sample ends with score 5, "保持现有服务质量" and no error |
| Survey.MissingFieldsSample | langgraph_survey_project.py:219-232 | the sample missing age and satisfaction ends with that error and one processing step |
| Survey.AgeOutOfRangeSample | langgraph_survey_project.py:240-254 | age "200" ends with the range error and no analysis |
| Tutorial.GreetingState.constructor | langgraph_tutorial.py:15-16 | the initial message |
| Tutorial.GreetingState.AddHello | langgraph_tutorial.py:22-25 | the message is prefixed with "Hello, " |
| Tutorial.GreetingState.AddExclamation | langgraph_tutorial.py:27-30 | "!" is appended to the message |
| Tutorial.InvokeGreeting | langgraph_tutorial.py:33-43 | m becomes "Hello, " + m + "!" |
| Tutorial.ChatState.constructor | langgraph_tutorial.py:54-56 | the initial input and response |
| Tutorial.ChatState.ProcessInput | langgraph_tutorial.py:60-63 | the response echoes the input after "你说: " |
| Tutorial.ChatState.Respond | langgraph_tutorial.py:74-87 | the response is the fixed reply of the chosen intent |
| Tutorial.InvokeChat | langgraph_tutorial.py:89-110 | the response is the reply of the input's intent |
| Tutorial.CheckIntent | langgraph_tutorial.py:65-72 | greet only when the input contains "问好", answer only when it contains "问题", default only when it contains neither |
| Tutorial.IntentPriority | langgraph_tutorial.py:65-72 | greet iff the input contains "问好"; answer iff it does not but contains "问题"; default otherwise |
| Tutorial.IntentSamples | langgraph_tutorial.py:113-114 | the three demo inputs route to greet, answer and default |
| Tutorial.TaskState.constructor | langgraph_tutorial.py:125-127 | the initial task name and results |
| Tutorial.TaskState.AnalyzeTask | langgraph_tutorial.py:131-134 | appends the analyzed entry |
| Tutorial.TaskState.FetchData | langgraph_tutorial.py:136-139 | appends the fetched entry |
| Tutorial.TaskState.ValidateInput | langgraph_tutorial.py:141-144 | appends the validated entry |
| Tutorial.InvokeTasks | langgraph_tutorial.py:146-158 | exactly the three entries are appended, in wiring order, after the existing results |
| Tutorial.Tried | langgraph_tutorial.py:179-188 | one more attempt; success once the attempt count reaches 3, and it stays |
| Tutorial.RetryState.constructor | langgraph_tutorial.py:171-175 | the initial retry state |
| Tutorial.RetryState.TryOperation | langgraph_tutorial.py:179-188 | the new state is `Tried` of the old one |
| Tutorial.InvokeRetry | langgraph_tutorial.py:190-209 | the loop computes `RetryRun`, counting the attempts it makes |
| Tutorial.ShouldRetry | langgraph_tutorial.py:190-195 | "retry" exactly when no attempt has succeeded and attempt < max_attempts, "end" otherwise |
| Tutorial.RetryRunReaches | langgraph_tutorial.py:179-206 | from a state whose attempt a is in 0..2 and that has not succeeded, the cycle stops at max(a + 1, min(3, max_attempts)), succeeding iff it reached 3 |
| Tutorial.RetryFromStart | langgraph_tutorial.py:190-209 | from attempt 0 with no success yet (the demo's start) the cycle runs max(1, min(3, max_attempts)) times and succeeds iff max_attempts >= 3 |
| Tutorial.RetrySample | langgraph_tutorial.py:209 | the demo run ends at attempt 3 with success and "✓ 第 3 次尝试成功" |
| Tutorial.MessageState.constructor | langgraph_tutorial.py:220-223 | the initial conversation state |
| Tutorial.MessageState.StoreUserMessage | langgraph_tutorial.py:227-233 | appends the user turn and nothing else |
| Tutorial.MessageState.GenerateResponse | langgraph_tutorial.py:235-246 | the response is `Reply` of the message, the history unchanged |
| Tutorial.MessageState.StoreAiResponse | langgraph_tutorial.py:248-254 | appends the assistant turn and nothing else |
| Tutorial.InvokeConversation | langgraph_tutorial.py:256-267 | exactly two turns are appended: the user's message, then the reply |
| Tutorial.Converse | langgraph_tutorial.py:270-279 | the demo's loop over the messages builds the transcript |
| Tutorial.TranscriptShape | langgraph_tutorial.py:270-279 | the history has two turns per message: message k at 2k, its reply at 2k + 1 |
| Tutorial.ReplyPriority | langgraph_tutorial.py:235-246 | the weather reply if "天气" occurs, else the help reply if "帮助" occurs, else the fallback |
| CompleteDemo.OfflineTracker.constructor | langgraph_complete_demo.py:15-16 | no traces yet |
| CompleteDemo.OfflineTracker.Track | langgraph_complete_demo.py:18-24 | exactly one {name, input, output} entry appended; earlier entries unchanged |
| CompleteDemo.State.constructor | langgraph_complete_demo.py:31-33 | the initial state |
| CompleteDemo.Node1 | langgraph_complete_demo.py:37-41 | output is the quoted input; one node_1 trace of input and output |
| CompleteDemo.Node2 | langgraph_complete_demo.py:43-47 | output extended by " → Step 2: 分析完成"; the trace's input is the part before the first separator |
| CompleteDemo.Node3 | langgraph_complete_demo.py:49-53 | output extended by " → Step 3: 最终输出"; the trace's input is the last-but-one part |
| CompleteDemo.Invoke | langgraph_complete_demo.py:57-65 | the final output is the step-3 output of the input; the run's three traces are appended |
| CompleteDemo.FinalOutput | langgraph_complete_demo.py:37-53 | step1→step2→step3 on x gives "Step 1: 处理 'x' → Step 2: 分析完成 → Step 3: 最终输出" |
| CompleteDemo.OutputsExtend | langgraph_complete_demo.py:45-51 | each node's output has the previous node's output as a prefix |
| CompleteDemo.StepTextsPlain | langgraph_complete_demo.py:45-51 | the step-2 and step-3 texts contain no separator |
| CompleteDemo.Step2Pieces | langgraph_complete_demo.py:45-46 | splitting node_2's output gives node_1's pieces then the step-2 text |
| CompleteDemo.Step3Pieces | langgraph_complete_demo.py:51-52 | splitting node_3's output gives node_2's pieces then the step-3 text |
| CompleteDemo.Node3ReadsStep2 | langgraph_complete_demo.py:52 | for every input, node_3 records "Step 2: 分析完成" as its input |
| CompleteDemo.QuotedPlain | langgraph_complete_demo.py:39 | node_1's output contains no separator when its input contains none |
| CompleteDemo.Node2ReadsStep1 | langgraph_complete_demo.py:46 | when the input has no separator, node_2 records node_1's output as its input |
| CompleteDemo.RunTraceNames | langgraph_complete_demo.py:40-52 | a run leaves three traces named node_1, node_2, node_3, holding the three outputs in order |
| OfflineTracking.TraceLogFile | langgraph_offline_tracking.py:19 | the JSONL file is "langfuse_traces_", then the project name, then ".jsonl" |
| OfflineTracking.TraceLogFileInjective | langgraph_offline_tracking.py:19 | two projects never share a log file |
| OfflineTracking.DefaultTrackerLogFile | langgraph_offline_tracking.py:16-19 | a tracker created with the default project name writes langfuse_traces_default.jsonl |
| OfflineTracking.DemoLogFile | langgraph_offline_tracking.py:47 | the demo's tracker writes langfuse_traces_langgraph_demo.jsonl |
| OfflineTracking.Stamped | langgraph_offline_tracking.py:23-27 | the entry has the trace data's keys plus "timestamp" and "project", which are overwritten; "project" is the project name; every other key keeps its value |
| OfflineTracking.RestampOverwrites | langgraph_offline_tracking.py:23-27 | stamping an already stamped entry is the same as stamping the original once |
| OfflineTracking.LocalLangfuseTracker.constructor | langgraph_offline_tracking.py:16-19 | no traces; the log file named after the project |
| OfflineTracking.LocalLangfuseTracker.LogTrace | langgraph_offline_tracking.py:21-35 | the stamped entry is appended and returned; earlier entries are unchanged; one clock reading |
| OfflineTracking.State.constructor | langgraph_offline_tracking.py:41-44 | the initial state |
| OfflineTracking.ProcessNode | langgraph_offline_tracking.py:50-59 | logs its input with status "processing", then output is "处理完成: " + input |
| OfflineTracking.AnalyzeNode | langgraph_offline_tracking.py:61-70 | logs the current output with status "analyzing", then appends " → 分析完成" |
| OfflineTracking.Invoke | langgraph_offline_tracking.py:73-78 | output "处理完成: x → 分析完成"; the run's two entries appended |
| OfflineTracking.StampedRecord | langgraph_offline_tracking.py:52-57 | a node's entry has exactly name, type "node", input, status, timestamp and project |
| OfflineTracking.RunTraceFacts | langgraph_offline_tracking.py:50-78 | a run logs process_node then analyze_node; analyze_node's input is process_node's output; both carry the project |
| AgentTemplate.OrElse | agent_template_generator.py:209 | Python's `or` on an optional string: the value unless it is None or empty |
| AgentTemplate.ClassName | agent_template_generator.py:207 | no spaces or underscores; length is the name's minus their count; every other character kept as often |
| AgentTemplate.AgentTitle | agent_template_generator.py:208 | same length, no '_'; '_' becomes a space; a letter is upper-cased iff it does not follow a letter |
| AgentTemplate.AgentTitleCn | agent_template_generator.py:209 | the description when non-empty, else the name + " Agent" |
| AgentTemplate.AgentType | agent_template_generator.py:210 | same length, lower-case, spaces become '_' |
| AgentTemplate.Derive | agent_template_generator.py:207-220 | the values filled into the template: class name, titles, type, the two ids, and the description defaulting to the Chinese title + " - 自动生成的 Agent" |
| AgentTemplate.OutputFile | agent_template_generator.py:255-257 | the given output file, else the lower-cased name + "_agent.py" |
| AgentTemplate.ClassNameIdempotent | agent_template_generator.py:207 | deriving a class name from a class name changes nothing |
| AgentTemplate.AgentTypeIdempotent | agent_template_generator.py:210 | deriving a type from a type changes nothing |
| AgentTemplate.AgentIdsDetermineType | agent_template_generator.py:211-212 | two names get the same default id, or the same test id, iff they have the same type |
| AgentTemplate.TestIdExtendsType | agent_template_generator.py:211-212 | both ids begin with the type; the test id is 5 characters longer |
| AgentTemplate.OutputFileMatchesType | agent_template_generator.py:257 | for a name without spaces, the default file is the type + "_agent.py" |
| AgentTemplate.AgentTitleKeepsNonLetters | agent_template_generator.py:208 | a non-letter other than '_' passes through the title unchanged |
| AgentTemplate.LettersOnlyTitle | agent_template_generator.py:208 | a name of letters only keeps its first letter, upper-cased, and lower-cases the rest: "DataAnalyst" gives "Dataanalyst" |

## Left out

- The HTTP calls are not modelled; each is an outcome the caller supplies:
  - Langfuse and GitHub request bodies, headers and URLs in the tool dispatch;
  - the health probes of `check_tool_status`;
  - `_get_langfuse_metrics` and `_get_langfuse_errors`.
- Monitoring.LangfuseMetrics: a 200 reply is modelled as optional numeric statistics, with 0 for an absent one. JSON values that are not numbers are not modelled.
- Timestamps: `datetime.now()` is a clock reading (a natural number). `isoformat`, `strftime` and time zones are not modelled. The operation id's digits are the reading's decimal digits, not the `%Y%m%d%H%M%S%f` layout.
- The duration is the difference of two readings divided by 1000. Python's float arithmetic and `timedelta` are not modelled.
- Float formatting of the health issue texts (`:.2f`, `:.1f`) is not modelled: an issue carries the measured value instead of its text.
- `PerformanceMetrics.to_dict`, `HealthReport.to_dict` and the metric timestamps are not modelled.
- `analyze_trends` is not modelled: it returns a fixed reply echoing its arguments, with nothing to state beyond that.
- File I/O and JSON serialisation:
  - The log files are the sequence of dictionaries written to them, so no encode/parse round trip is claimed.
  - An I/O error swallowed by `log_operation` or `get_operations` is not modelled.
  - The trace files written by the demos are not modelled.
- The langgraph library (`StateGraph`, `compile`, `invoke`, `stream`, `draw_ascii`) is not part of this model. A graph runs its nodes one at a time, in the order the wiring shows, and each node returns the whole state.
- In the conversation demo, each `invoke` is modelled as working on a copy of the history, so no aliasing between the list passed in and the list returned is captured.
- The Langfuse tracking decorators, the agent base class, `print` output, the `__main__` demo drivers, `argparse` and `input()` prompts are not modelled.
- The filling of the agent code template and its file write are not modelled; only the values put into it are.
- Text: `str.lower`, `str.title`, `str.strip` and `int()` follow an ASCII model:
  - case changes apply to ASCII letters only;
  - `int()` accepts an optional sign and ASCII digits, without surrounding whitespace or `_` separators;
  - `strip` removes the characters Python treats as whitespace.
- The default query limits of `get_operations` (100) and `get_operation_history` (50) are not constants of the model: every caller passes its limit.
- Survey answers are strings. An answer of another JSON type is not modelled.
- Survey.DecideAnalysisType: requires that a present age parses as an integer. The source would raise otherwise, and the graph never routes through it.
