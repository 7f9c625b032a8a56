/**
 * The five graphs of the LangGraph tutorial: a two-step greeting, an intent
 * router, three tasks in sequence, a retry cycle and a conversation that keeps
 * its history.
 *
 * Each graph's state dictionary is a class whose fields the node methods
 * update in place; each `Invoke…` method follows the graph's edges from its
 * entry node to END.
 */
module Tutorial {
  import opened Text

  // ---------------------------------------------------------------------------
  // Graph 1: START → add_hello → add_exclamation → END

  class GreetingState {
    var message: string

    constructor (message: string)
      ensures this.message == message
    {
      this.message := message;
    }

    /** add_hello */
    method AddHello()
      modifies this
      ensures message == "Hello, " + old(message)
    {
      message := "Hello, " + message;
    }

    /** add_exclamation */
    method AddExclamation()
      modifies this
      ensures message == old(message) + "!"
    {
      message := message + "!";
    }
  }

  /** The greeting graph wraps the message between "Hello, " and "!". */
  method InvokeGreeting(state: GreetingState)
    modifies state
    ensures state.message == "Hello, " + old(state.message) + "!"
  {
    state.AddHello();
    state.AddExclamation();
  }

  // ---------------------------------------------------------------------------
  // Graph 2: START → process → (check_intent) → greet | answer | default → END

  datatype Intent = Greet | Answer | Default

  const GreetReply := "你好！很高兴认识你 👋"
  const AnswerReply := "这是一个好问题！让我想想... 🤔"
  const DefaultReply := "我收到了你的消息 📝"

  /** check_intent: a greeting wins over a question, anything else is the default. */
  function CheckIntent(userInput: string): (r: Intent)
    ensures r == Greet ==> Contains(userInput, "问好")
    ensures r == Answer ==> Contains(userInput, "问题")
    ensures r == Default ==> !Contains(userInput, "问好") && !Contains(userInput, "问题")
  {
    if Contains(userInput, "问好") then Greet
    else if Contains(userInput, "问题") then Answer
    else Default
  }

  /** The fixed reply each target node writes. */
  function IntentReply(intent: Intent): string
  {
    match intent
    case Greet => GreetReply
    case Answer => AnswerReply
    case Default => DefaultReply
  }

  class ChatState {
    var userInput: string
    var response: string

    constructor (userInput: string, response: string)
      ensures this.userInput == userInput && this.response == response
    {
      this.userInput := userInput;
      this.response := response;
    }

    /** process_input */
    method ProcessInput()
      modifies this
      ensures response == "你说: " + userInput && userInput == old(userInput)
    {
      response := "你说: " + userInput;
    }

    /** greet_response, answer_response and default_response */
    method Respond(intent: Intent)
      modifies this
      ensures response == IntentReply(intent) && userInput == old(userInput)
    {
      match intent
      case Greet => response := GreetReply;
      case Answer => response := AnswerReply;
      case Default => response := DefaultReply;
    }
  }

  /** The router graph ends with the reply of the node check_intent chose. */
  method InvokeChat(state: ChatState)
    modifies state
    ensures state.response == IntentReply(CheckIntent(old(state.userInput)))
    ensures state.userInput == old(state.userInput)
  {
    state.ProcessInput();
    var intent := CheckIntent(state.userInput);
    state.Respond(intent);
  }

  /** Routing: a greeting goes to greet even when it also asks a question. */
  lemma IntentPriority(userInput: string)
    ensures CheckIntent(userInput) == Greet <==> Contains(userInput, "问好")
    ensures CheckIntent(userInput) == Answer <==> !Contains(userInput, "问好") && Contains(userInput, "问题")
    ensures CheckIntent(userInput) == Default <==> !Contains(userInput, "问好") && !Contains(userInput, "问题")
  {
  }

  /** The three sample inputs take the three branches. */
  lemma IntentSamples()
    ensures CheckIntent("你好，问好") == Greet
    ensures CheckIntent("我有个问题") == Answer
    ensures CheckIntent("随便说说") == Default
  {
    ContainsMiddle("你好，", "问好", "");
    assert "你好，" + "问好" + "" == "你好，问好";
    LacksChar("我有个问题", "问好", 1);
    ContainsMiddle("我有个", "问题", "");
    assert "我有个" + "问题" + "" == "我有个问题";
    LacksChar("随便说说", "问好", 0);
    LacksChar("随便说说", "问题", 0);
  }

  // ---------------------------------------------------------------------------
  // Graph 3: START → analyze → fetch → validate → END

  const Analyzed := "任务已分析 ✓"
  const Fetched := "数据已获取 ✓"
  const Validated := "输入已验证 ✓"

  class TaskState {
    var taskName: string
    var results: seq<string>

    constructor (taskName: string, results: seq<string>)
      ensures this.taskName == taskName && this.results == results
    {
      this.taskName := taskName;
      this.results := results;
    }

    /** analyze_task */
    method AnalyzeTask()
      modifies this
      ensures results == old(results) + [Analyzed] && taskName == old(taskName)
    {
      results := results + [Analyzed];
    }

    /** fetch_data */
    method FetchData()
      modifies this
      ensures results == old(results) + [Fetched] && taskName == old(taskName)
    {
      results := results + [Fetched];
    }

    /** validate_input */
    method ValidateInput()
      modifies this
      ensures results == old(results) + [Validated] && taskName == old(taskName)
    {
      results := results + [Validated];
    }
  }

  /** The graph of task nodes appends its three results, in wiring order, after the existing ones. */
  method InvokeTasks(state: TaskState)
    modifies state
    ensures state.results == old(state.results) + [Analyzed, Fetched, Validated]
    ensures state.taskName == old(state.taskName)
  {
    state.AnalyzeTask();
    state.FetchData();
    state.ValidateInput();
  }

  // ---------------------------------------------------------------------------
  // Graph 4: START → try → (should_retry) → try | END

  datatype RetrySnapshot = RetrySnapshot(attempt: int, maxAttempts: int, success: bool, message: string)

  const SucceededPrefix := "✓ 第 "
  const SucceededSuffix := " 次尝试成功"
  const FailedPrefix := "✗ 第 "
  const FailedSuffix := " 次尝试失败，重试..."

  /** try_operation: one more attempt, which succeeds from the third on. */
  function Tried(s: RetrySnapshot): (r: RetrySnapshot)
    ensures r.attempt == s.attempt + 1 && r.maxAttempts == s.maxAttempts
    ensures r.success == (s.success || r.attempt >= 3)
  {
    var attempt := s.attempt + 1;
    if attempt >= 3 then
      s.(attempt := attempt, success := true, message := SucceededPrefix + IntRepr(attempt) + SucceededSuffix)
    else
      s.(attempt := attempt, message := FailedPrefix + IntRepr(attempt) + FailedSuffix)
  }

  /** should_retry: another try exactly while no attempt succeeded and attempts remain. */
  function ShouldRetry(s: RetrySnapshot): (r: string)
    ensures r == "retry" || r == "end"
    ensures r == "retry" <==> !s.success && s.attempt < s.maxAttempts
  {
    if s.success || s.attempt >= s.maxAttempts then "end" else "retry"
  }

  /** Attempts left before the third, which always succeeds and so ends the cycle. */
  function AttemptsBeforeThird(s: RetrySnapshot): nat
  {
    if s.attempt >= 3 then 0 else 3 - s.attempt
  }

  /** The state at END when the cycle is entered at try. */
  function RetryRun(s: RetrySnapshot): RetrySnapshot
    decreases AttemptsBeforeThird(s)
  {
    var t := Tried(s);
    if ShouldRetry(t) == "end" then t else RetryRun(t)
  }

  class RetryState {
    var attempt: int
    var maxAttempts: int
    var success: bool
    var message: string

    function View(): RetrySnapshot
      reads this
    {
      RetrySnapshot(attempt, maxAttempts, success, message)
    }

    constructor (attempt: int, maxAttempts: int, success: bool, message: string)
      ensures View() == RetrySnapshot(attempt, maxAttempts, success, message)
    {
      this.attempt := attempt;
      this.maxAttempts := maxAttempts;
      this.success := success;
      this.message := message;
    }

    /** try_operation */
    method TryOperation()
      modifies this
      ensures View() == Tried(old(View()))
    {
      attempt := attempt + 1;
      if attempt >= 3 {
        success := true;
        message := SucceededPrefix + IntRepr(attempt) + SucceededSuffix;
      } else {
        message := FailedPrefix + IntRepr(attempt) + FailedSuffix;
      }
    }
  }

  /** The retry graph: try, then try again while should_retry says "retry". */
  method InvokeRetry(state: RetryState) returns (ghost tries: nat)
    modifies state
    ensures state.View() == RetryRun(old(state.View()))
    ensures tries == state.attempt - old(state.attempt)
  {
    state.TryOperation();
    tries := 1;
    while ShouldRetry(state.View()) == "retry"
      invariant RetryRun(old(state.View())) ==
                (if ShouldRetry(state.View()) == "end" then state.View() else RetryRun(state.View()))
      invariant tries == state.attempt - old(state.attempt)
      invariant state.success || state.attempt < 3
      decreases AttemptsBeforeThird(state.View())
    {
      state.TryOperation();
      tries := tries + 1;
    }
  }

  /** max(1, min(3, max_attempts)): how far the attempt counter gets from 0. */
  function ExpectedTries(maxAttempts: int): int
  {
    Max(1, Min(3, maxAttempts))
  }

  /**
   * From a failed attempt `a` below 3, the cycle stops at attempt
   * max(a + 1, min(3, max_attempts)), successfully exactly when that is 3.
   */
  lemma {:induction false} RetryRunReaches(s: RetrySnapshot)
    requires !s.success && 0 <= s.attempt < 3
    decreases 3 - s.attempt
    ensures RetryRun(s).attempt == Max(s.attempt + 1, Min(3, s.maxAttempts))
    ensures RetryRun(s).success <==> RetryRun(s).attempt >= 3
    ensures RetryRun(s).maxAttempts == s.maxAttempts
  {
    var t := Tried(s);
    if ShouldRetry(t) == "retry" {
      RetryRunReaches(t);
    }
  }

  /**
   * The demo's start (attempt 0, no success): try runs max(1, min(3, max_attempts))
   * times, and the cycle ends in success exactly when max_attempts is at least 3.
   */
  lemma RetryFromStart(maxAttempts: int, message: string)
    ensures var r := RetryRun(RetrySnapshot(0, maxAttempts, false, message));
      r.attempt == ExpectedTries(maxAttempts) && (r.success <==> maxAttempts >= 3)
  {
    RetryRunReaches(RetrySnapshot(0, maxAttempts, false, message));
  }

  /** With max_attempts 5 the third attempt succeeds and says so. */
  lemma RetrySample()
    ensures RetryRun(RetrySnapshot(0, 5, false, "")) == RetrySnapshot(3, 5, true, "✓ 第 3 次尝试成功")
  {
    var s0 := RetrySnapshot(0, 5, false, "");
    var s1 := Tried(s0);
    var s2 := Tried(s1);
    assert RetryRun(s0) == RetryRun(s1) == RetryRun(s2) == Tried(s2);
  }

  // ---------------------------------------------------------------------------
  // Graph 5: START → store_user → generate → store_ai → END

  /** A `{"role": …, "content": …}` entry of the conversation history. */
  datatype Turn = Turn(role: string, content: string)

  const WeatherReply := "今天天气很好，阳光充足 ☀️"
  const HelpReply := "我可以帮你回答问题、编写代码、进行分析等 🤖"
  const FallbackReply := "有什么我可以帮助你的吗？"

  /** The simulated model: weather first, then help, then the fallback. */
  function Reply(userMessage: string): string
  {
    if Contains(userMessage, "天气") then WeatherReply
    else if Contains(userMessage, "帮助") then HelpReply
    else FallbackReply
  }

  /** The two history entries one invocation adds. */
  function Exchange(userMessage: string): seq<Turn>
  {
    [Turn("user", userMessage), Turn("assistant", Reply(userMessage))]
  }

  class MessageState {
    var userMessage: string
    var conversationHistory: seq<Turn>
    var aiResponse: string

    constructor (userMessage: string, conversationHistory: seq<Turn>, aiResponse: string)
      ensures this.userMessage == userMessage && this.conversationHistory == conversationHistory
      ensures this.aiResponse == aiResponse
    {
      this.userMessage := userMessage;
      this.conversationHistory := conversationHistory;
      this.aiResponse := aiResponse;
    }

    /** store_user_message */
    method StoreUserMessage()
      modifies this
      ensures conversationHistory == old(conversationHistory) + [Turn("user", userMessage)]
      ensures userMessage == old(userMessage) && aiResponse == old(aiResponse)
    {
      conversationHistory := conversationHistory + [Turn("user", userMessage)];
    }

    /** generate_response */
    method GenerateResponse()
      modifies this
      ensures aiResponse == Reply(userMessage)
      ensures userMessage == old(userMessage) && conversationHistory == old(conversationHistory)
    {
      if Contains(userMessage, "天气") {
        aiResponse := WeatherReply;
      } else if Contains(userMessage, "帮助") {
        aiResponse := HelpReply;
      } else {
        aiResponse := FallbackReply;
      }
    }

    /** store_ai_response */
    method StoreAiResponse()
      modifies this
      ensures conversationHistory == old(conversationHistory) + [Turn("assistant", aiResponse)]
      ensures userMessage == old(userMessage) && aiResponse == old(aiResponse)
    {
      conversationHistory := conversationHistory + [Turn("assistant", aiResponse)];
    }
  }

  /** One conversation invocation appends the user's message and then the reply to it. */
  method InvokeConversation(state: MessageState)
    modifies state
    ensures state.conversationHistory == old(state.conversationHistory) + Exchange(old(state.userMessage))
    ensures state.aiResponse == Reply(old(state.userMessage))
  {
    state.StoreUserMessage();
    state.GenerateResponse();
    state.StoreAiResponse();
  }

  /** The history after invoking the graph on each message in turn, starting empty. */
  function Transcript(messages: seq<string>): seq<Turn>
  {
    if messages == [] then [] else Transcript(messages[..|messages| - 1]) + Exchange(messages[|messages| - 1])
  }

  /**
   * The demo conversation: each message is sent with the history so far, so
   * the history ends as every message followed by its reply, in order.
   */
  method Converse(messages: seq<string>) returns (history: seq<Turn>)
    ensures history == Transcript(messages)
  {
    var state := new MessageState("", [], "");
    var i := 0;
    while i < |messages|
      invariant 0 <= i <= |messages|
      invariant state.conversationHistory == Transcript(messages[..i])
    {
      state := new MessageState(messages[i], state.conversationHistory, "");
      InvokeConversation(state);
      assert messages[..i + 1][..i] == messages[..i];
      i := i + 1;
    }
    assert messages[..|messages|] == messages;
    history := state.conversationHistory;
  }

  /** Entry 2k is the k-th message and entry 2k + 1 the reply to it; nothing else is in the history. */
  lemma {:induction false} TranscriptShape(messages: seq<string>, k: nat)
    requires k < |messages|
    ensures |Transcript(messages)| == 2 * |messages|
    ensures Transcript(messages)[2 * k] == Turn("user", messages[k])
    ensures Transcript(messages)[2 * k + 1] == Turn("assistant", Reply(messages[k]))
  {
    var init := messages[..|messages| - 1];
    if k < |messages| - 1 {
      TranscriptShape(init, k);
      assert init[k] == messages[k];
    } else if |messages| > 1 {
      TranscriptShape(init, 0);
    }
  }

  /** The reply rules: weather wins over help, and help over the fallback. */
  lemma ReplyPriority(userMessage: string)
    ensures Contains(userMessage, "天气") ==> Reply(userMessage) == WeatherReply
    ensures !Contains(userMessage, "天气") && Contains(userMessage, "帮助") ==> Reply(userMessage) == HelpReply
    ensures !Contains(userMessage, "天气") && !Contains(userMessage, "帮助") ==> Reply(userMessage) == FallbackReply
  {
  }
}
