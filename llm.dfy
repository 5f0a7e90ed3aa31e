/** callLLM: the request body sent to a provider and the reading of the
    provider's JSON reply into `{ output, tool_calls }`. The transport
    itself (fetch, URLs, headers, `res.json()`) is a parameter: a function
    from the request to what came back. */
module Llm {
  import opened Js
  import opened Messages

  /** Where a request goes. The Gemini URL names the model; the OpenAI
      body does. */
  datatype Endpoint = OpenAIChat | GeminiGenerate(model: string)

  datatype Request = Request(endpoint: Endpoint, body: Value)

  /** What `await fetch(...)` followed by `await res.json()` produced: the
      parsed body, or the error either of them rejected with. */
  datatype Transport = Delivered(data: Value) | Failed(error: JsError)

  /** The `{ output, tool_calls }` record callLLM resolves to. */
  datatype TurnResult = TurnResult(output: Value, toolCalls: Value)

  /** One call of callLLM: the request it handed to the transport (none
      when it threw before sending) and what it resolved to or threw. */
  datatype Exchange = Exchange(sent: Option<Request>, reply: Result<TurnResult>)

  function ToolDeclaration(name: string, description: string, parameters: map<string, Value>): Value {
    Obj(map["type" := Str("function"),
            "function" := Obj(map["name" := Str(name),
                                  "description" := Str(description),
                                  "parameters" := Obj(parameters)])])
  }

  /** The fixed tool declarations of every OpenAI request. */
  const ToolDeclarations: seq<Value> := [
    ToolDeclaration("search", "Search the web", map["query" := Str("string")]),
    ToolDeclaration("aipipe", "Run an AI workflow", map["any" := Str("object")]),
    ToolDeclaration("run_js", "Run JavaScript code", map["code" := Str("string")])
  ]

  function DeclaredName(declaration: Value): Value {
    GetOptional(GetOptional(declaration, "function"), "name")
  }

  /** The names declared by a `tools` array, in order. */
  function DeclaredNames(tools: Value): seq<Value> {
    match tools
    case Arr(items) => seq(|items|, k requires 0 <= k < |items| => DeclaredName(items[k]))
    case _ => []
  }

  function OpenAIBody(model: string, messages: seq<Message>): Value {
    Obj(map["model" := Str(model),
            "messages" := EncodeHistory(messages),
            "tools" := Arr(ToolDeclarations)])
  }

  function GeminiBody(text: Value): Value {
    Obj(map["contents" := Arr([Obj(map["parts" := Arr([Obj(map["text" := text])])])])])
  }

  /** The request callLLM sends, or the error it throws before sending:
      `messages[messages.length-1].content` on an empty history, or an
      unknown provider. */
  function BuildRequest(provider: string, model: string, messages: seq<Message>): (r: Result<Request>)
    ensures r.Ok? <==> provider == "openai" || (provider == "gemini" && messages != [])
    ensures provider != "openai" && provider != "gemini" ==> r == Err(PlainError("Unsupported provider"))
  {
    if provider == "openai" then
      Ok(Request(OpenAIChat, OpenAIBody(model, messages)))
    else if provider == "gemini" then
      if messages == [] then Err(ReadError(Undefined, "content"))
      else Ok(Request(GeminiGenerate(model), GeminiBody(messages[|messages| - 1].content)))
    else
      Err(PlainError("Unsupported provider"))
  }

  /** `data.choices[0].message?.content` and `...message?.tool_calls`.
      Reading fails exactly when the reply, its `choices` or `choices[0]`
      is null or undefined. */
  function ParseOpenAI(data: Value): (r: Result<TurnResult>)
    ensures r.Err? <==>
              IsNullish(data)
              || IsNullish(GetOptional(data, "choices"))
              || IsNullish(At(GetOptional(data, "choices"), 0).value)
  {
    var choices :- Get(data, "choices");
    var first :- At(choices, 0);
    var message :- Get(first, "message");
    Ok(TurnResult(GetOptional(message, "content"), GetOptional(message, "tool_calls")))
  }

  /** `data.candidates[0].content.parts[0].text`, with no tool calls.
      Reading fails exactly when one of the levels on the way to the text
      is null or undefined. */
  function ParseGemini(data: Value): (r: Result<TurnResult>)
    ensures r.Ok? ==> r.value.toolCalls == Arr([])
    ensures r.Err? <==>
              var candidates := GetOptional(data, "candidates");
              IsNullish(data) || IsNullish(candidates) ||
              var first := At(candidates, 0).value;
              var content := GetOptional(first, "content");
              var parts := GetOptional(content, "parts");
              IsNullish(first) || IsNullish(content) || IsNullish(parts) || IsNullish(At(parts, 0).value)
  {
    var candidates :- Get(data, "candidates");
    var first :- At(candidates, 0);
    var content :- Get(first, "content");
    var parts :- Get(content, "parts");
    var part :- At(parts, 0);
    var text :- Get(part, "text");
    Ok(TurnResult(text, Arr([])))
  }

  function ParseResponse(endpoint: Endpoint, data: Value): Result<TurnResult> {
    match endpoint
    case OpenAIChat => ParseOpenAI(data)
    case GeminiGenerate(_) => ParseGemini(data)
  }

  /** What the transport's answer to a request resolves to. */
  function Receive(endpoint: Endpoint, answer: Transport): Result<TurnResult> {
    match answer
    case Failed(e) => Err(e)
    case Delivered(data) => ParseResponse(endpoint, data)
  }

  /** callLLM: build the request, hand it to the transport once, read the
      reply. A request is sent exactly for openai, and for gemini with a
      non-empty history; it is the request built from the history, and
      the reply is the transport's answer to that very request. When no
      request can be built, nothing is sent and the build error is
      thrown. */
  function CallLLM(provider: string, model: string, messages: seq<Message>,
                   respond: Request -> Transport): (x: Exchange)
    ensures x.sent.Some? <==> provider == "openai" || (provider == "gemini" && messages != [])
    ensures x.sent == BuildRequest(provider, model, messages).ToOption()
    ensures x.sent.Some? ==> x.reply == Receive(x.sent.value.endpoint, respond(x.sent.value))
    ensures x.sent.None? ==> x.reply == Err(BuildRequest(provider, model, messages).error)
  {
    match BuildRequest(provider, model, messages)
    case Err(e) => Exchange(None, Err(e))
    case Ok(request) => Exchange(Some(request), Receive(request.endpoint, respond(request)))
  }

  /** callLLM throws "Unsupported provider" before sending anything when
      the provider is neither openai nor gemini. */
  lemma UnsupportedProviderThrows(provider: string, model: string, messages: seq<Message>,
                                  respond: Request -> Transport)
    requires provider != "openai" && provider != "gemini"
    ensures CallLLM(provider, model, messages, respond) == Exchange(None, Err(PlainError("Unsupported provider")))
  {
    assert BuildRequest(provider, model, messages) == Err(PlainError("Unsupported provider"));
  }

  /** The OpenAI body carries the model, the whole history (it decodes back
      to exactly the messages given) and the three tool declarations
      search, aipipe and run_js, in that order. */
  lemma OpenAIRequestCarriesHistory(model: string, messages: seq<Message>)
    ensures BuildRequest("openai", model, messages).Ok?
    ensures var request := BuildRequest("openai", model, messages).value;
            && request.endpoint == OpenAIChat
            && Get(request.body, "model") == Ok(Str(model))
            && DecodeHistory(GetOptional(request.body, "messages")) == Some(messages)
            && DeclaredNames(GetOptional(request.body, "tools")) == [Str("search"), Str("aipipe"), Str("run_js")]
  {
    HistoryRoundTrip(messages);
    var tools := GetOptional(OpenAIBody(model, messages), "tools");
    assert tools == Arr(ToolDeclarations);
    DeclaredToolNames();
  }

  /** The declarations name search, aipipe and run_js, in that order. */
  lemma DeclaredToolNames()
    ensures DeclaredNames(Arr(ToolDeclarations)) == [Str("search"), Str("aipipe"), Str("run_js")]
  {
    DeclarationNamesTool("search", "Search the web", map["query" := Str("string")]);
    DeclarationNamesTool("aipipe", "Run an AI workflow", map["any" := Str("object")]);
    DeclarationNamesTool("run_js", "Run JavaScript code", map["code" := Str("string")]);
  }

  lemma DeclarationNamesTool(name: string, description: string, parameters: map<string, Value>)
    ensures DeclaredName(ToolDeclaration(name, description, parameters)) == Str(name)
  {
  }

  /** The one text a Gemini body carries: `contents[0].parts[0].text`, when
      both arrays hold exactly one entry. */
  function GeminiPrompt(body: Value): Option<Value> {
    var contents := GetOptional(body, "contents");
    if contents.Arr? && |contents.items| == 1 then
      var parts := GetOptional(contents.items[0], "parts");
      if parts.Arr? && |parts.items| == 1 && !IsNullish(parts.items[0]) then
        Some(GetOptional(parts.items[0], "text"))
      else None
    else None
  }

  /** The Gemini body carries a single part, whose text is the content of
      the last message; the earlier history does not reach the request. */
  lemma GeminiRequestCarriesLastMessage(model: string, messages: seq<Message>)
    requires messages != []
    ensures BuildRequest("gemini", model, messages).Ok?
    ensures var request := BuildRequest("gemini", model, messages).value;
            request.endpoint == GeminiGenerate(model)
            && GeminiPrompt(request.body) == Some(messages[|messages| - 1].content)
  {
  }

  lemma GeminiIgnoresEarlierHistory(model: string, a: seq<Message>, b: seq<Message>)
    requires a != [] && b != [] && a[|a| - 1].content == b[|b| - 1].content
    ensures BuildRequest("gemini", model, a) == BuildRequest("gemini", model, b)
  {
  }

  /** Reading any OpenAI reply whose `choices[0].message` is an object
      gives back that message's `content` and `tool_calls` (undefined where
      absent), whatever other fields the reply, the choice and the message
      carry and however many further choices follow. */
  lemma OpenAIParseRoundTrip(top: map<string, Value>, choice: map<string, Value>,
                             message: map<string, Value>, more: seq<Value>)
    ensures ParseOpenAI(Obj(top["choices" := Arr([Obj(choice["message" := Obj(message)])] + more)]))
            == Ok(TurnResult(if "content" in message then message["content"] else Undefined,
                             if "tool_calls" in message then message["tool_calls"] else Undefined))
  {
    var first := Obj(choice["message" := Obj(message)]);
    assert At(Arr([first] + more), 0) == Ok(first);
  }

  /** A reply whose message carries only `content: "hi"` reads as output
      "hi" and no tool calls. */
  lemma OpenAIPlainAnswer()
    ensures ParseResponse(OpenAIChat, Obj(map["choices" := Arr([Obj(map["message" := Obj(map["content" := Str("hi")])])])]))
            == Ok(TurnResult(Str("hi"), Undefined))
  {
    var message := Obj(map["content" := Str("hi")]);
    var first := Obj(map["message" := message]);
    assert At(Arr([first]), 0) == Ok(first);
    assert "tool_calls" !in message.fields;
  }

  /** A null or absent `message` in an OpenAI reply reads as no output
      and no tool calls, rather than as an error. */
  lemma OpenAIMissingMessage(data: Value)
    ensures ParseOpenAI(data).Ok? && IsNullish(GetOptional(At(GetOptional(data, "choices"), 0).value, "message"))
            ==> ParseOpenAI(data).value == TurnResult(Undefined, Undefined)
  {
  }

  /** Reading any Gemini reply gives back `candidates[0].content.parts[0].text`
      (undefined where absent) with an empty tool-call list, whatever other
      fields each level carries and however many further candidates and
      parts follow. */
  lemma GeminiParseRoundTrip(top: map<string, Value>, candidate: map<string, Value>,
                             content: map<string, Value>, part: map<string, Value>,
                             moreCandidates: seq<Value>, moreParts: seq<Value>)
    ensures var parts := Arr([Obj(part)] + moreParts);
            var first := Obj(candidate["content" := Obj(content["parts" := parts])]);
            ParseGemini(Obj(top["candidates" := Arr([first] + moreCandidates)]))
            == Ok(TurnResult(if "text" in part then part["text"] else Undefined, Arr([])))
  {
    var parts := Arr([Obj(part)] + moreParts);
    var first := Obj(candidate["content" := Obj(content["parts" := parts])]);
    assert At(Arr([first] + moreCandidates), 0) == Ok(first);
    assert At(parts, 0) == Ok(Obj(part));
  }
}
