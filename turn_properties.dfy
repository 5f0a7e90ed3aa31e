/** What one call of sendMessage does to the conversation, stated over
    all inputs, provider replies and tool behaviours. */
module TurnProperties {
  import opened Js
  import opened Messages
  import opened Tools
  import opened Llm
  import opened AgentCore

  /** The message a non-blank input becomes. */
  function UserMessage(input: string): Message {
    Message(User, Str(Trim(input)))
  }

  /** The assistant message a reply's output becomes: none unless truthy. */
  function AssistantPart(output: Value): seq<Message> {
    if Truthy(output) then [Message(Assistant, output)] else []
  }

  /** The stages of a turn on non-blank input outside demo mode. */
  lemma NonBlankTurn(page: Page, input: string, provider: string, model: string, env: Env)
    requires !AllWhitespace(input) && provider != "demo"
    ensures Trim(input) != ""
    ensures Asked(page, Trim(input)).conversation == page.conversation + [UserMessage(input)]
    ensures var history := page.conversation + [UserMessage(input)];
            Turn(page, input, provider, model, env)
            == TurnOutcome(AfterReply(Asked(page, Trim(input)), CallLLM(provider, model, history, env.respond).reply, env.tools),
                           CallLLM(provider, model, history, env.respond).sent)
  {
    TrimEmptyIff(input);
  }

  /** Empty or white-space-only input changes nothing and asks no provider. */
  lemma BlankInputIsIgnored(page: Page, input: string, provider: string, model: string, env: Env)
    requires AllWhitespace(input)
    ensures Turn(page, input, provider, model, env) == TurnOutcome(page, None)
  {
    TrimEmptyIff(input);
  }

  lemma AfterToolCallsExtends(page: Page, calls: seq<Value>, tools: ToolEnv)
    ensures page.conversation <= AfterToolCalls(page, calls, tools).conversation
    ensures page.chat <= AfterToolCalls(page, calls, tools).chat
  {
  }

  lemma AfterReplyExtends(page: Page, reply: Result<TurnResult>, tools: ToolEnv)
    ensures page.conversation <= AfterReply(page, reply, tools).conversation
    ensures page.chat <= AfterReply(page, reply, tools).chat
  {
    if reply.Ok? && ToolCallsToRun(reply.value.toolCalls).Ok? {
      AfterToolCallsExtends(Answered(page, reply.value.output), ToolCallsToRun(reply.value.toolCalls).value, tools);
    }
  }

  /** The conversation and the chat display are append-only: a turn never
      drops, alters or reorders an earlier entry, whatever the provider
      replies and whatever the tools answer. Evaluated run_js code is a
      function of its text here, so code that writes to the page itself is
      outside this statement. */
  lemma HistoryIsAppendOnly(page: Page, input: string, provider: string, model: string, env: Env)
    ensures page.conversation <= Turn(page, input, provider, model, env).page.conversation
    ensures page.chat <= Turn(page, input, provider, model, env).page.chat
  {
    TrimEmptyIff(input);
    if !AllWhitespace(input) && provider != "demo" {
      NonBlankTurn(page, input, provider, model, env);
      var history := page.conversation + [UserMessage(input)];
      AfterReplyExtends(Asked(page, Trim(input)), CallLLM(provider, model, history, env.respond).reply, env.tools);
    }
  }

  /** A non-blank input is appended, trimmed, as a user message before
      anything else the turn appends, and the provider call that follows
      sees it: an OpenAI request carries the whole history ending in it,
      a Gemini request carries its text alone. */
  lemma UserMessageComesFirst(page: Page, input: string, provider: string, model: string, env: Env)
    requires !AllWhitespace(input)
    ensures var out := Turn(page, input, provider, model, env);
            var history := page.conversation + [UserMessage(input)];
            && history <= out.page.conversation
            && (out.sent.Some? && out.sent.value.endpoint == OpenAIChat ==>
                  DecodeHistory(GetOptional(out.sent.value.body, "messages")) == Some(history))
            && (out.sent.Some? && out.sent.value.endpoint.GeminiGenerate? ==>
                  GeminiPrompt(out.sent.value.body) == Some(Str(Trim(input))))
  {
    TrimEmptyIff(input);
    var history := page.conversation + [UserMessage(input)];
    var asked := Asked(page, Trim(input));
    if provider != "demo" {
      NonBlankTurn(page, input, provider, model, env);
      AfterReplyExtends(asked, CallLLM(provider, model, history, env.respond).reply, env.tools);
      if provider == "openai" {
        OpenAIRequestCarriesHistory(model, history);
      } else if provider == "gemini" {
        GeminiRequestCarriesLastMessage(model, history);
      }
    }
  }

  /** A turn hands exactly one request to the transport when the input is
      not blank and the provider is openai or gemini, and none otherwise
      (blank input, demo mode, an unsupported provider). */
  lemma RequestIsSentIff(page: Page, input: string, provider: string, model: string, env: Env)
    ensures Turn(page, input, provider, model, env).sent.Some? <==>
              !AllWhitespace(input) && (provider == "openai" || provider == "gemini")
  {
    TrimEmptyIff(input);
    if !AllWhitespace(input) && provider != "demo" {
      NonBlankTurn(page, input, provider, model, env);
    }
  }

  /** In demo mode the user message is the only append, nothing is sent,
      and the chat shows the echo "(Demo) You said: " and the text. */
  lemma DemoTurnOnlyEchoes(page: Page, input: string, model: string, env: Env)
    requires !AllWhitespace(input)
    ensures Turn(page, input, "demo", model, env)
            == TurnOutcome(Page(page.conversation + [UserMessage(input)],
                                page.chat + [ChatLine("user", Trim(input)),
                                             ChatLine("agent", "(Demo) You said: " + Trim(input))],
                                page.alert),
                           None)
  {
    TrimEmptyIff(input);
  }

  /** When callLLM throws (unsupported provider, transport failure, a
      missing level in the reply) the user message stays, nothing else is
      appended, and the alert shows the error. */
  lemma ProviderFailureKeepsUserMessage(page: Page, input: string, provider: string, model: string,
                                        env: Env, e: JsError)
    requires !AllWhitespace(input) && provider != "demo"
    requires CallLLM(provider, model, page.conversation + [UserMessage(input)], env.respond).reply == Err(e)
    ensures Turn(page, input, provider, model, env).page
            == Page(page.conversation + [UserMessage(input)],
                    page.chat + [ChatLine("user", Trim(input))],
                    Some("Error: " + e.message))
  {
    NonBlankTurn(page, input, provider, model, env);
  }

  /** A provider other than openai, gemini and demo sends nothing and
      alerts "Error: Unsupported provider" after the user message. */
  lemma UnsupportedProviderAlerts(page: Page, input: string, provider: string, model: string, env: Env)
    requires !AllWhitespace(input)
    requires provider != "demo" && provider != "openai" && provider != "gemini"
    ensures var out := Turn(page, input, provider, model, env);
            && out.sent == None
            && out.page.conversation == page.conversation + [UserMessage(input)]
            && out.page.alert == Some("Error: Unsupported provider")
  {
    var history := page.conversation + [UserMessage(input)];
    var asked := Asked(page, Trim(input));
    var e := PlainError("Unsupported provider");
    assert Turn(page, input, provider, model, env) == TurnOutcome(Alerted(asked, e), None)
           && asked.conversation == history by {
      NonBlankTurn(page, input, provider, model, env);
      UnsupportedProviderThrows(provider, model, history, env.respond);
      assert BuildRequest(provider, model, history) == Err(e);
    }
    UnsupportedAlertText(asked);
  }

  lemma UnsupportedAlertText(page: Page)
    ensures Alerted(page, PlainError("Unsupported provider")).alert == Some("Error: Unsupported provider")
  {
    assert "Error: " + "Unsupported provider" == "Error: Unsupported provider";
  }

  /** The `tool` messages the loop appends for `calls`, one per call, in
      order. */
  function ToolResults(calls: seq<Value>, tools: ToolEnv): (ms: seq<Message>)
    ensures |ms| == |calls|
  {
    ToolMessages(RunsOf(calls, Handle(tools)))
  }

  /** When every call returns, message k holds what call k returned. */
  lemma ToolResultsHold(calls: seq<Value>, tools: ToolEnv)
    requires forall k :: 0 <= k < |calls| ==> HandleToolCall(calls[k], tools).Ok?
    ensures forall k :: 0 <= k < |calls| ==>
              ToolResults(calls, tools)[k] == Message(Tool, Str(HandleToolCall(calls[k], tools).value))
  {
    forall k | 0 <= k < |calls|
      ensures ToolResults(calls, tools)[k] == Message(Tool, Str(HandleToolCall(calls[k], tools).value))
    {
      assert ToolResults(calls, tools)[k] == ToolMessage(RunOf(calls[k], Handle(tools)));
      assert Handle(tools)(calls[k]) == HandleToolCall(calls[k], tools);
    }
  }

  /** The same for the calls before `j`. */
  lemma EarlierToolResultsHold(calls: seq<Value>, j: nat, tools: ToolEnv)
    requires j <= |calls|
    requires forall k :: 0 <= k < j ==> HandleToolCall(calls[k], tools).Ok?
    ensures forall k :: 0 <= k < j ==>
              ToolResults(calls[..j], tools)[k] == Message(Tool, Str(HandleToolCall(calls[k], tools).value))
  {
    var init := calls[..j];
    assert forall k :: 0 <= k < j ==> init[k] == calls[k];
    ToolResultsHold(init, tools);
  }

  /** A reply whose tool calls are iterable hands them to the tool loop,
      after the truthy output. */
  lemma ReplyRunsTools(asked: Page, result: TurnResult, calls: seq<Value>, tools: ToolEnv)
    requires ToolCallsToRun(result.toolCalls) == Ok(calls)
    ensures AfterReply(asked, Ok(result), tools) == AfterToolCalls(Answered(asked, result.output), calls, tools)
  {
  }

  lemma AnsweredHistory(asked: Page, history: seq<Message>, output: Value)
    requires asked.conversation == history
    ensures Answered(asked, output).conversation == history + AssistantPart(output)
    ensures Answered(asked, output).alert == asked.alert
  {
  }

  /** The tool loop when every call returns: it appends the tool results
      and raises no alert. */
  lemma AllToolsSucceed(page: Page, base: seq<Message>, calls: seq<Value>, tools: ToolEnv)
    requires page.conversation == base
    requires forall k :: 0 <= k < |calls| ==> HandleToolCall(calls[k], tools).Ok?
    ensures AfterToolCalls(page, calls, tools).conversation == base + ToolResults(calls, tools)
    ensures AfterToolCalls(page, calls, tools).alert == page.alert
  {
    var handle := Handle(tools);
    forall k | 0 <= k < |calls| ensures handle(calls[k]).Ok? {
      assert handle(calls[k]) == HandleToolCall(calls[k], tools);
    }
    DispatchedAllSucceed(calls, handle);
  }

  /** The tool loop when call `j` is the first to throw: it appends the
      results of the calls before it, then alerts that call's error. */
  lemma FirstToolFails(page: Page, base: seq<Message>, calls: seq<Value>, j: nat, tools: ToolEnv)
    requires page.conversation == base
    requires j < |calls|
    requires forall k :: 0 <= k < j ==> HandleToolCall(calls[k], tools).Ok?
    requires HandleToolCall(calls[j], tools).Err?
    ensures AfterToolCalls(page, calls, tools).conversation == base + ToolResults(calls[..j], tools)
    ensures AfterToolCalls(page, calls, tools).alert == Some("Error: " + HandleToolCall(calls[j], tools).error.message)
  {
    var handle := Handle(tools);
    forall k | 0 <= k < j ensures handle(calls[k]).Ok? {
      assert handle(calls[k]) == HandleToolCall(calls[k], tools);
    }
    assert handle(calls[j]) == HandleToolCall(calls[j], tools);
    DispatchedFirstFailure(calls, j, handle);
  }

  /** The page after a reply whose tool calls all return. */
  lemma RepliedToolsSucceed(asked: Page, history: seq<Message>, result: TurnResult, calls: seq<Value>, tools: ToolEnv)
    requires asked.conversation == history
    requires ToolCallsToRun(result.toolCalls) == Ok(calls)
    requires forall k :: 0 <= k < |calls| ==> HandleToolCall(calls[k], tools).Ok?
    ensures AfterReply(asked, Ok(result), tools).conversation
            == history + AssistantPart(result.output) + ToolResults(calls, tools)
    ensures AfterReply(asked, Ok(result), tools).alert == asked.alert
  {
    ReplyRunsTools(asked, result, calls, tools);
    AnsweredHistory(asked, history, result.output);
    AllToolsSucceed(Answered(asked, result.output), history + AssistantPart(result.output), calls, tools);
  }

  /** The page after a reply whose tool call `j` is the first to throw. */
  lemma RepliedToolFails(asked: Page, history: seq<Message>, result: TurnResult, calls: seq<Value>, j: nat, tools: ToolEnv)
    requires asked.conversation == history
    requires ToolCallsToRun(result.toolCalls) == Ok(calls)
    requires j < |calls|
    requires forall k :: 0 <= k < j ==> HandleToolCall(calls[k], tools).Ok?
    requires HandleToolCall(calls[j], tools).Err?
    ensures AfterReply(asked, Ok(result), tools).conversation
            == history + AssistantPart(result.output) + ToolResults(calls[..j], tools)
    ensures AfterReply(asked, Ok(result), tools).alert == Some("Error: " + HandleToolCall(calls[j], tools).error.message)
  {
    ReplyRunsTools(asked, result, calls, tools);
    AnsweredHistory(asked, history, result.output);
    FirstToolFails(Answered(asked, result.output), history + AssistantPart(result.output), calls, j, tools);
  }

  /** On a successful turn the history becomes: the old history, the user
      message, the assistant output only when it is truthy, then one tool
      message per tool call, in the order of `tool_calls`, message k
      holding what call k returned; and no alert is raised. */
  lemma SuccessfulTurnHistory(page: Page, input: string, provider: string, model: string, env: Env,
                              result: TurnResult, calls: seq<Value>)
    requires !AllWhitespace(input) && provider != "demo"
    requires CallLLM(provider, model, page.conversation + [UserMessage(input)], env.respond).reply == Ok(result)
    requires ToolCallsToRun(result.toolCalls) == Ok(calls)
    requires forall k :: 0 <= k < |calls| ==> HandleToolCall(calls[k], env.tools).Ok?
    ensures Turn(page, input, provider, model, env).page.conversation
            == page.conversation + [UserMessage(input)] + AssistantPart(result.output) + ToolResults(calls, env.tools)
    ensures forall k :: 0 <= k < |calls| ==>
              ToolResults(calls, env.tools)[k] == Message(Tool, Str(HandleToolCall(calls[k], env.tools).value))
    ensures Turn(page, input, provider, model, env).page.alert == page.alert
  {
    var history := page.conversation + [UserMessage(input)];
    var asked := Asked(page, Trim(input));
    assert Turn(page, input, provider, model, env).page == AfterReply(asked, Ok(result), env.tools)
           && asked.conversation == history && asked.alert == page.alert by {
      NonBlankTurn(page, input, provider, model, env);
    }
    RepliedToolsSucceed(asked, history, result, calls, env.tools);
    ToolResultsHold(calls, env.tools);
  }

  /** When the tool call at index `j` is the first to throw, the results of
      the calls before it stay in the history, in order, nothing after
      them is appended, and the alert shows that call's error. */
  lemma ToolFailureKeepsEarlierResults(page: Page, input: string, provider: string, model: string, env: Env,
                                       result: TurnResult, calls: seq<Value>, j: nat)
    requires !AllWhitespace(input) && provider != "demo"
    requires CallLLM(provider, model, page.conversation + [UserMessage(input)], env.respond).reply == Ok(result)
    requires ToolCallsToRun(result.toolCalls) == Ok(calls)
    requires j < |calls|
    requires forall k :: 0 <= k < j ==> HandleToolCall(calls[k], env.tools).Ok?
    requires HandleToolCall(calls[j], env.tools).Err?
    ensures Turn(page, input, provider, model, env).page.conversation
            == page.conversation + [UserMessage(input)] + AssistantPart(result.output) + ToolResults(calls[..j], env.tools)
    ensures forall k :: 0 <= k < j ==>
              ToolResults(calls[..j], env.tools)[k] == Message(Tool, Str(HandleToolCall(calls[k], env.tools).value))
    ensures Turn(page, input, provider, model, env).page.alert
            == Some("Error: " + HandleToolCall(calls[j], env.tools).error.message)
  {
    var history := page.conversation + [UserMessage(input)];
    var asked := Asked(page, Trim(input));
    assert Turn(page, input, provider, model, env).page == AfterReply(asked, Ok(result), env.tools)
           && asked.conversation == history by {
      NonBlankTurn(page, input, provider, model, env);
    }
    RepliedToolFails(asked, history, result, calls, j, env.tools);
    EarlierToolResultsHold(calls, j, env.tools);
  }

  /** With runJs as written, a run_js call whose code throws `null` ends
      the tool loop: nothing is appended for it and the alert shows the
      TypeError of reading `err.message`. With the corrected runJs the same
      call appends the tool message "JS Error: null" and raises no alert. */
  lemma AsWrittenRunJsAlertsOnThrownNull(page: Page, tc: Value, tools: ToolEnv)
    requires ToolName(tc) == Str("run_js") && !IsNullish(ToolArguments(tc))
    requires tools.evaluate(FunctionSource(GetOptional(ToolArguments(tc), "code"))) == Threw(Null)
    ensures ToolLoop(page, [tc], HandleAsWritten(tools))
            == page.(alert := Some("Error: " + ReadError(Null, "message").message))
    ensures AfterToolCalls(page, [tc], tools)
            == page.(conversation := page.conversation + [Message(Tool, Str("JS Error: null"))],
                     chat := page.chat + [ChatLine("agent", "Tool result (" + "run_js" + "): " + "JS Error: null")])
  {
    var run := ToolRun(tc, "JS Error: null");
    assert ToolLoop(page, [tc], HandleAsWritten(tools)) == Alerted(page, ReadError(Null, "message")) by {
      RunJsThrowingNull(tc, tools);
      assert HandleAsWritten(tools)(tc) == Err(ReadError(Null, "message"));
      ToolLoopOfOne(page, tc, HandleAsWritten(tools));
    }
    assert AfterToolCalls(page, [tc], tools)
           == page.(conversation := page.conversation + [ToolMessage(run)],
                    chat := page.chat + [ToolLine(run)]) by {
      RunJsThrowingNull(tc, tools);
      assert Handle(tools)(tc) == Ok(run.result);
      ToolLoopOfOne(page, tc, Handle(tools));
    }
    assert ToolLine(run).text == "Tool result (" + "run_js" + "): " + "JS Error: null";
  }

  /** A Gemini turn never appends a tool message: its history grows by the
      user message and, when the text is truthy, the assistant's answer. */
  lemma GeminiTurnRunsNoTools(page: Page, input: string, model: string, env: Env, result: TurnResult)
    requires !AllWhitespace(input)
    requires CallLLM("gemini", model, page.conversation + [UserMessage(input)], env.respond).reply == Ok(result)
    ensures Turn(page, input, "gemini", model, env).page.conversation
            == page.conversation + [UserMessage(input)] + AssistantPart(result.output)
  {
    NonBlankTurn(page, input, "gemini", model, env);
    assert result.toolCalls == Arr([]);
    DispatchedAllSucceed([], Handle(env.tools));
  }

  /** Every tool the OpenAI request declares has a handler: a call naming
      it with object arguments never gets "Unknown tool"; a call naming
      anything else always does. */
  lemma DeclaredToolsAreHandled(name: string, args: map<string, Value>, tools: ToolEnv)
    ensures var tc := Obj(map["name" := Str(name), "arguments" := Obj(args)]);
            && (Str(name) in DeclaredNames(Arr(ToolDeclarations)) ==>
                  HandleToolCall(tc, tools).Ok? && HandleToolCall(tc, tools).value != UnknownTool)
            && (Str(name) !in DeclaredNames(Arr(ToolDeclarations)) ==>
                  HandleToolCall(tc, tools) == Ok(UnknownTool))
  {
    var tc := Obj(map["name" := Str(name), "arguments" := Obj(args)]);
    DeclaredToolNames();
    assert Get(tc, "name") == Ok(Str(name));
    assert ToolArguments(tc) == Obj(args);
    assert HandleToolCall(tc, tools).Ok?;
    ResultIdentifiesHandler(tc, tools);
  }

  /** A tool call in the shape OpenAI's chat completions return it,
      `{ id, type: "function", function: { name, arguments } }`, has no
      top-level `name`, so handleToolCall answers "Unknown tool" whatever
      function it names. */
  lemma OpenAIShapedCallIsUnknown(id: string, name: string, args: string, tools: ToolEnv)
    ensures var tc := Obj(map["id" := Str(id), "type" := Str("function"),
                              "function" := Obj(map["name" := Str(name), "arguments" := Str(args)])]);
            HandleToolCall(tc, tools) == Ok(UnknownTool)
  {
    var tc := Obj(map["id" := Str(id), "type" := Str("function"),
                      "function" := Obj(map["name" := Str(name), "arguments" := Str(args)])]);
    assert "name" !in tc.fields;
  }
}
