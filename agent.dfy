/** sendMessage: one turn of the agent. The page script keeps a global,
    append-only `conversation` array; a turn trims the input, appends the
    user message, asks the provider once, appends the assistant output if
    it is truthy and then one tool message per tool call, in order. Errors
    end the turn in the alert box and keep whatever was already appended. */
module AgentCore {
  import opened Js
  import opened Messages
  import opened Tools
  import opened Llm

  /** One `showMessage(role, text)` line of the chat display. */
  datatype ChatLine = ChatLine(role: string, text: string)

  /** What a turn can change: the conversation history, the chat display
      (appended to) and the alert box (which showAlert overwrites). */
  datatype Page = Page(conversation: seq<Message>, chat: seq<ChatLine>, alert: Option<string>)

  /** The collaborators of a turn: the provider's transport and the tools'
      stringifier and evaluator. */
  datatype Env = Env(respond: Request -> Transport, tools: ToolEnv)

  /** The page after a turn, and the request the turn handed to the
      transport, if any. */
  datatype TurnOutcome = TurnOutcome(page: Page, sent: Option<Request>)

  /** A tool call that returned, with its result. */
  datatype ToolRun = ToolRun(call: Value, result: string)

  /** The tool calls that returned, in order, and the error that stopped
      the loop, if one did. */
  datatype Dispatch = Dispatch(runs: seq<ToolRun>, failure: Option<JsError>)

  function DemoReply(text: string): string {
    "(Demo) You said: " + text
  }

  function Alerted(page: Page, e: JsError): Page {
    page.(alert := Some("Error: " + e.message))
  }

  function ToolMessage(run: ToolRun): Message {
    Message(Tool, Str(run.result))
  }

  function ToolLine(run: ToolRun): ChatLine {
    ChatLine("agent", "Tool result (" + ToJsString(ToolName(run.call)) + "): " + run.result)
  }

  function ToolMessages(runs: seq<ToolRun>): (ms: seq<Message>)
    ensures |ms| == |runs|
  {
    seq(|runs|, k requires 0 <= k < |runs| => ToolMessage(runs[k]))
  }

  function ToolLines(runs: seq<ToolRun>): (lines: seq<ChatLine>)
    ensures |lines| == |runs|
  {
    seq(|runs|, k requires 0 <= k < |runs| => ToolLine(runs[k]))
  }

  /** `length > 0` where `length` is an object's own property: a number is
      compared, a boolean counts as 0 or 1, null as 0. */
  predicate ExceedsZero(length: Value) {
    match length
    case Num(n) => n > 0
    case Bool(b) => b
    case _ => false
  }

  /** `tool_calls.length > 0` for a truthy `tool_calls`. */
  predicate HasPositiveLength(toolCalls: Value) {
    match toolCalls
    case Arr(items) => |items| > 0
    case Str(s) => |s| > 0
    case Obj(fields) => "length" in fields && ExceedsZero(fields["length"])
    case _ => false
  }

  /** What `for ... of` visits in a string: one-character strings. */
  function Characters(s: string): (cs: seq<Value>)
    ensures |cs| == |s|
  {
    seq(|s|, k requires 0 <= k < |s| => Str([s[k]]))
  }

  /** The calls `for (let tc of tool_calls)` visits, behind the guard
      `tool_calls && tool_calls.length > 0`: the elements of an array, the
      characters of a string; an object that passes the guard is not
      iterable and the loop throws. */
  function ToolCallsToRun(toolCalls: Value): (r: Result<seq<Value>>)
    ensures !Truthy(toolCalls) || toolCalls == Arr([]) ==> r == Ok([])
    ensures toolCalls.Arr? ==> r == Ok(toolCalls.items)
  {
    if !Truthy(toolCalls) || !HasPositiveLength(toolCalls) then Ok([])
    else
      match toolCalls
      case Arr(items) => Ok(items)
      case Str(s) => Ok(Characters(s))
      case _ => Err(TypeError("tool_calls is not iterable"))
  }

  /** What handling one tool call gives: its result, or the error it
      threw. */
  type Handler = Value -> Result<string>

  /** handleToolCall with the tools' collaborators fixed. */
  function Handle(tools: ToolEnv): Handler {
    tc => HandleToolCall(tc, tools)
  }

  /** handleToolCall as written, calling runJs as written. */
  function HandleAsWritten(tools: ToolEnv): Handler {
    tc => HandleToolCallAsWritten(tc, tools)
  }

  /** The tool loop over `calls`, stated on prefixes: each call is handled
      in turn, and the first one that throws ends the loop. The runs are
      the leading calls, in order, each with its own result; the loop
      either got through every call or stopped with the error of the call
      after the last run. */
  function Dispatched(calls: seq<Value>, handle: Handler): (d: Dispatch)
    ensures |d.runs| <= |calls|
    ensures forall k :: 0 <= k < |d.runs| ==>
              d.runs[k].call == calls[k] && handle(calls[k]) == Ok(d.runs[k].result)
    ensures d.failure == None ==> |d.runs| == |calls|
    ensures d.failure.Some? ==> |d.runs| < |calls| && handle(calls[|d.runs|]) == Err(d.failure.value)
  {
    if calls == [] then Dispatch([], None)
    else
      var before := Dispatched(calls[..|calls| - 1], handle);
      if before.failure.Some? then before
      else
        var tc := calls[|calls| - 1];
        match handle(tc)
        case Err(e) => Dispatch(before.runs, Some(e))
        case Ok(result) => Dispatch(before.runs + [ToolRun(tc, result)], None)
  }

  /** The run of one call, with an empty result where the call throws. */
  function RunOf(tc: Value, handle: Handler): ToolRun {
    ToolRun(tc, match handle(tc) case Ok(result) => result case Err(_) => "")
  }

  function RunsOf(calls: seq<Value>, handle: Handler): (runs: seq<ToolRun>)
    ensures |runs| == |calls|
  {
    seq(|calls|, k requires 0 <= k < |calls| => RunOf(calls[k], handle))
  }

  lemma RunsOfSnoc(calls: seq<Value>, handle: Handler)
    requires calls != []
    ensures RunsOf(calls, handle) == RunsOf(calls[..|calls| - 1], handle) + [RunOf(calls[|calls| - 1], handle)]
  {
    assert RunsOf(calls, handle)[..|calls| - 1] == RunsOf(calls[..|calls| - 1], handle);
  }

  /** One more step of the loop, while no call has thrown. */
  lemma DispatchedStep(calls: seq<Value>, i: nat, handle: Handler)
    requires i < |calls| && Dispatched(calls[..i], handle).failure == None
    ensures var before := Dispatched(calls[..i], handle).runs;
            Dispatched(calls[..i + 1], handle)
            == match handle(calls[i])
               case Err(e) => Dispatch(before, Some(e))
               case Ok(result) => Dispatch(before + [ToolRun(calls[i], result)], None)
  {
    assert calls[..i + 1][..i] == calls[..i];
  }

  /** Once the loop has stopped on a failure, later calls change nothing. */
  lemma {:induction false} DispatchedStopsAtFailure(calls: seq<Value>, j: nat, handle: Handler)
    requires j <= |calls| && Dispatched(calls[..j], handle).failure.Some?
    ensures Dispatched(calls, handle) == Dispatched(calls[..j], handle)
    decreases |calls| - j
  {
    if j < |calls| {
      assert calls[..j + 1][..j] == calls[..j];
      DispatchedStopsAtFailure(calls, j + 1, handle);
    } else {
      assert calls[..j] == calls;
    }
  }

  /** The loop gets through every call exactly when no call throws, and
      then it records every call with its result, in the order given. */
  lemma {:induction false} DispatchedAllSucceed(calls: seq<Value>, handle: Handler)
    ensures Dispatched(calls, handle).failure == None <==>
              forall k :: 0 <= k < |calls| ==> handle(calls[k]).Ok?
    ensures Dispatched(calls, handle).failure == None ==> Dispatched(calls, handle).runs == RunsOf(calls, handle)
  {
    if calls != [] {
      var n := |calls| - 1;
      var init := calls[..n];
      DispatchedAllSucceed(init, handle);
      assert forall k :: 0 <= k < n ==> init[k] == calls[k];
      RunsOfSnoc(calls, handle);
    }
  }

  /** When call `j` is the first that throws, the loop records the calls
      before it, in order, and stops with that call's error. */
  lemma DispatchedFirstFailure(calls: seq<Value>, j: nat, handle: Handler)
    requires j < |calls|
    requires forall k :: 0 <= k < j ==> handle(calls[k]).Ok?
    requires handle(calls[j]).Err?
    ensures Dispatched(calls, handle) == Dispatch(RunsOf(calls[..j], handle), Some(handle(calls[j]).error))
  {
    var init := calls[..j];
    assert forall k :: 0 <= k < j ==> init[k] == calls[k];
    DispatchedAllSucceed(init, handle);
    assert calls[..j + 1][..j] == init;
    DispatchedStopsAtFailure(calls, j + 1, handle);
  }

  /** Recording one more run appends its message and its chat line. */
  lemma AppendRun(runs: seq<ToolRun>, run: ToolRun)
    ensures ToolMessages(runs + [run]) == ToolMessages(runs) + [ToolMessage(run)]
    ensures ToolLines(runs + [run]) == ToolLines(runs) + [ToolLine(run)]
  {
    assert ToolMessages(runs + [run])[..|runs|] == ToolMessages(runs);
    assert ToolLines(runs + [run])[..|runs|] == ToolLines(runs);
  }

  /** The page after the tool loop with the given handler: the tool
      messages and chat lines of the calls that returned, and an alert if
      one threw. */
  function ToolLoop(page: Page, calls: seq<Value>, handle: Handler): Page {
    var d := Dispatched(calls, handle);
    var ran := page.(conversation := page.conversation + ToolMessages(d.runs),
                     chat := page.chat + ToolLines(d.runs));
    match d.failure
    case None => ran
    case Some(e) => Alerted(ran, e)
  }

  /** The tool loop over a single call. */
  lemma ToolLoopOfOne(page: Page, tc: Value, handle: Handler)
    ensures ToolLoop(page, [tc], handle)
            == match handle(tc)
               case Err(e) => Alerted(page, e)
               case Ok(result) => page.(conversation := page.conversation + [ToolMessage(ToolRun(tc, result))],
                                        chat := page.chat + [ToolLine(ToolRun(tc, result))])
  {
    assert [tc][..0] == [];
    assert Dispatched([], handle) == Dispatch([], None);
    assert ToolMessages([]) == [] && ToolLines([]) == [];
    match handle(tc)
    case Err(e) =>
      assert Dispatched([tc], handle) == Dispatch([], Some(e));
    case Ok(result) =>
      var run := ToolRun(tc, result);
      assert Dispatched([tc], handle) == Dispatch([] + [run], None);
      AppendRun([], run);
  }

  /** The page after the tool loop of sendMessage. */
  function AfterToolCalls(page: Page, calls: seq<Value>, tools: ToolEnv): Page {
    ToolLoop(page, calls, Handle(tools))
  }

  /** The page once the user's text is shown and appended. */
  function Asked(page: Page, text: string): Page {
    page.(conversation := page.conversation + [Message(User, Str(text))],
          chat := page.chat + [ChatLine("user", text)])
  }

  /** The page once a truthy output is shown and appended; a falsy one
      changes nothing. */
  function Answered(page: Page, output: Value): Page {
    if Truthy(output) then
      page.(conversation := page.conversation + [Message(Assistant, output)],
            chat := page.chat + [ChatLine("agent", ToJsString(output))])
    else page
  }

  /** The page after callLLM settles: an alert if it threw; otherwise the
      assistant output if truthy, then the tool loop. */
  function AfterReply(page: Page, reply: Result<TurnResult>, tools: ToolEnv): Page {
    match reply
    case Err(e) => Alerted(page, e)
    case Ok(result) =>
      var answered := Answered(page, result.output);
      match ToolCallsToRun(result.toolCalls)
      case Err(e) => Alerted(answered, e)
      case Ok(calls) => AfterToolCalls(answered, calls, tools)
  }

  /** One call of sendMessage with the given input box text and the
      selected provider and model. */
  function Turn(page: Page, input: string, provider: string, model: string, env: Env): TurnOutcome {
    var text := Trim(input);
    if text == "" then TurnOutcome(page, None)
    else
      var asked := Asked(page, text);
      if provider == "demo" then
        TurnOutcome(asked.(chat := asked.chat + [ChatLine("agent", DemoReply(text))]), None)
      else
        var exchange := CallLLM(provider, model, asked.conversation, env.respond);
        TurnOutcome(AfterReply(asked, exchange.reply, env.tools), exchange.sent)
  }

  /** The page script's state: the global `conversation` array and the
      two display areas it writes to. */
  class Agent {
    var conversation: seq<Message>
    var chat: seq<ChatLine>
    var alert: Option<string>

    constructor ()
      ensures conversation == [] && chat == [] && alert == None
    {
      conversation := [];
      chat := [];
      alert := None;
    }

    function State(): Page
      reads this
    {
      Page(conversation, chat, alert)
    }

    /** sendMessage. Returns the request handed to the transport, if the
        turn made one. */
    method SendMessage(input: string, provider: string, model: string, env: Env) returns (sent: Option<Request>)
      modifies this
      ensures State() == Turn(old(State()), input, provider, model, env).page
      ensures sent == Turn(old(State()), input, provider, model, env).sent
    {
      var text := Trim(input);
      if text == "" {
        return None;
      }
      chat := chat + [ChatLine("user", text)];
      conversation := conversation + [Message(User, Str(text))];
      if provider == "demo" {
        chat := chat + [ChatLine("agent", DemoReply(text))];
        return None;
      }
      var exchange := CallLLM(provider, model, conversation, env.respond);
      sent := exchange.sent;
      var reply := exchange.reply;
      if reply.Err? {
        alert := Some("Error: " + reply.error.message);
        return;
      }
      var output := reply.value.output;
      if Truthy(output) {
        chat := chat + [ChatLine("agent", ToJsString(output))];
        conversation := conversation + [Message(Assistant, output)];
      }
      var calls := ToolCallsToRun(reply.value.toolCalls);
      if calls.Err? {
        alert := Some("Error: " + calls.error.message);
        return;
      }
      RunToolCalls(calls.value, env.tools);
    }

    /** The `for (let tc of tool_calls)` loop of sendMessage. */
    method RunToolCalls(calls: seq<Value>, tools: ToolEnv)
      modifies this
      ensures State() == AfterToolCalls(old(State()), calls, tools)
    {
      var i := 0;
      while i < |calls|
        invariant 0 <= i <= |calls|
        invariant Dispatched(calls[..i], Handle(tools)).failure == None
        invariant conversation == old(conversation) + ToolMessages(Dispatched(calls[..i], Handle(tools)).runs)
        invariant chat == old(chat) + ToolLines(Dispatched(calls[..i], Handle(tools)).runs)
        invariant alert == old(alert)
      {
        var tc := calls[i];
        var handled := HandleToolCall(tc, tools);
        assert Handle(tools)(tc) == handled;
        DispatchedStep(calls, i, Handle(tools));
        ghost var before := Dispatched(calls[..i], Handle(tools)).runs;
        if handled.Err? {
          DispatchedStopsAtFailure(calls, i + 1, Handle(tools));
          alert := Some("Error: " + handled.error.message);
          return;
        }
        var run := ToolRun(tc, handled.value);
        chat := chat + [ToolLine(run)];
        conversation := conversation + [ToolMessage(run)];
        AppendRun(before, run);
        i := i + 1;
      }
      assert calls[..i] == calls;
    }
  }
}
