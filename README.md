# Agent turn of the AI-agent page script, in Dafny

This project models the core of `agent.js`, the browser script of a small
conversational agent. The script keeps a global, append-only
`conversation` array. `sendMessage` runs one turn:

1. It trims the input box text and ignores blank input.
2. It appends the user message.
3. In demo mode it only echoes the text.
4. Otherwise it calls the selected provider (OpenAI or Gemini) once.
5. It appends the assistant output when that output is truthy.
6. It dispatches each returned tool call by name and appends each result as a `tool` message.

Any error ends the turn in the alert box. Whatever was appended before the
error stays. Errors here are the modelled ones: a thrown value is a JSON
value or `undefined` (see "Left out" for thrown values outside that set). The history is append-only as long as the code that `run_js`
evaluates leaves the page alone: that code runs with the page's globals,
and the model treats its evaluation as a pure function of the source
text.

Modules, one per concern of the script:

- `Js` (`js.dfy`): the JSON values a provider reply parses to, plus `undefined`. It also holds the JavaScript operations the script relies on: property reads that throw a TypeError on `null`/`undefined`, optional chaining, truthiness, conversion to a string, and `String.prototype.trim`.
- `Messages` (`messages.dfy`): history entries `{ role, content }` and their wire form, with a decoding that inverts it.
- `Tools` (`tools.dfy`): `handleToolCall`, the two stub tools and `runJs`.
- `Llm` (`llm.dfy`): `callLLM`. It builds the OpenAI and Gemini request bodies, reads the replies, and rejects unknown providers.
- `AgentCore` (`agent.dfy`): the class `Agent`, whose fields are the conversation, the chat display and the alert box. `Agent.SendMessage` is proved equal to the specification function `Turn`, and `Agent.RunToolCalls` is the tool loop.
- `TurnProperties` (`turn_properties.dfy`): what a turn does to the history, proved about `Turn` for all inputs, replies and tool behaviours.

Collaborators that cannot be seen or run are parameters:

- The transport (`fetch` plus `res.json()`) is a function from the request to a delivered value or an error.
- `JSON.stringify` is a function from a value to text.
- The JavaScript engine that `runJs` calls through `Function(...)` is a function from source text to "returned this text" or "threw this value".

## Model

| member | source | states |
|---|---|---|
| `AgentCore.Agent.SendMessage` | agent.js:18-53 | the new conversation, chat display and alert, and the request handed to the transport, are exactly those of `Turn` on the old state |
| `AgentCore.Agent.RunToolCalls` | agent.js:43-49 | the loop appends, for each tool call in order, a chat line and a `tool` message with the call's result; the first call that throws ends the loop with an alert |
| `AgentCore.Agent.constructor` | agent.js:2 | the conversation starts empty, as do the chat display and the alert box |
| `TurnProperties.BlankInputIsIgnored` | agent.js:19-21 | input that is empty or all white space changes nothing and sends no request |
| `TurnProperties.UserMessageComesFirst` | agent.js:20-36 | a non-blank input is appended, trimmed, as `{user, text}` before anything else; the OpenAI request that follows carries the whole history ending in it; the Gemini request carries exactly its text |
| `TurnProperties.RequestIsSentIff` | agent.js:30-36 | a turn sends exactly one request when the input is not blank and the provider is openai or gemini, and none otherwise |
| `TurnProperties.DemoTurnOnlyEchoes` | agent.js:23-33 | in demo mode the user message is the only append, no request is sent, and the chat shows "(Demo) You said: " followed by the text |
| `TurnProperties.HistoryIsAppendOnly` | agent.js:24-52 | the old conversation and the old chat display are prefixes of the new ones, whatever the provider replies and whatever the tools answer, provided the code `run_js` evaluates does not itself touch the page |
| `TurnProperties.ProviderFailureKeepsUserMessage` | agent.js:35-52 | when callLLM throws, the history is the old one plus the user message, and the alert shows "Error: " followed by the message |
| `TurnProperties.UnsupportedProviderAlerts` | agent.js:123 | a provider other than demo, openai and gemini sends nothing; it leaves the user message and alerts "Error: Unsupported provider" |
| `TurnProperties.SuccessfulTurnHistory` | agent.js:38-48 | on success the history is the old history, then the user message, then the assistant output only if truthy, then one `tool` message per tool call with that call's result, in `tool_calls` order; no alert |
| `TurnProperties.ToolFailureKeepsEarlierResults` | agent.js:44-52 | when tool call j is the first to throw, the results of calls 0..j-1 stay in order, nothing follows them, and the alert shows call j's error |
| `TurnProperties.GeminiTurnRunsNoTools` | agent.js:120 | a Gemini turn appends no tool message: only the user message and the truthy answer |
| `TurnProperties.DeclaredToolsAreHandled` | agent.js:56-66 | every tool declared to OpenAI has a handler, so a call `{ name, arguments }` naming it never gets "Unknown tool"; a call `{ name, arguments }` naming anything else always does |
| `TurnProperties.OpenAIShapedCallIsUnknown` | agent.js:56-66 | a tool call in OpenAI's own shape `{ id, type, function: { name, arguments } }` has no top-level `name`, so it always gets "Unknown tool", whatever function it names |
| `TurnProperties.AllToolsSucceed` | agent.js:43-49 | when every call returns, the tool loop appends exactly the tool results of the calls, in order, and leaves the alert alone |
| `TurnProperties.FirstToolFails` | agent.js:43-52 | when call j is the first to throw, the tool loop appends the results of calls 0..j-1 and alerts call j's error |
| `TurnProperties.AsWrittenRunJsAlertsOnThrownNull` | agent.js:44-52 | with runJs as written, a run_js call whose code throws `null` appends nothing and leaves the alert "Error: Cannot read properties of null (reading 'message')"; with the corrected runJs the same call appends the tool message "JS Error: null" and no alert |
| `AgentCore.Turn` | agent.js:18-53 | one sendMessage call on the page state; its behaviour is stated by the `TurnProperties` lemmas above, and `Agent.SendMessage` is proved equal to it |
| `AgentCore.Dispatched` | agent.js:44-52 | the tool loop: the recorded runs are the leading calls, in order, each with its own result; either every call returned, or the loop stopped with the error of the call after the last run |
| `AgentCore.ToolCallsToRun` | agent.js:43-44 | absent, null or empty `tool_calls` runs no tool; an array runs its elements in their order |
| `AgentCore.DispatchedAllSucceed` | agent.js:44-48 | the tool loop gets through every call exactly when no call throws, and then records every call with its own result in order |
| `AgentCore.DispatchedFirstFailure` | agent.js:44-52 | when call j is the first that throws, the loop records calls 0..j-1 in order and stops with call j's error |
| `AgentCore.DispatchedStopsAtFailure` | agent.js:44-52 | once a call has thrown, the later calls add nothing |
| `Tools.HandleToolCall` | agent.js:56-66 | a tool call throws exactly when the call is null/undefined, or when it names search or run_js with null/undefined arguments; any other name yields exactly "Unknown tool" |
| `Tools.HandleToolCallAsWritten` | agent.js:56-66 | handleToolCall as written agrees with the corrected one wherever it returns or the corrected one throws; it throws where the corrected one answers exactly on a run_js call with arguments whose code throws `null` or `undefined`, with the TypeError of reading `message` |
| `Tools.RunJsThrowingNull` | agent.js:61-83 | a run_js call whose code throws `null` makes handleToolCall as written throw the TypeError of reading `message`, and the corrected one answer "JS Error: null" |
| `Tools.GoogleSearch` | agent.js:68-71 | the stub answer is the search prefix followed by the query's string form, which reads back from it |
| `Tools.CallAIPipe` | agent.js:73-76 | the stub answer is the AIPipe prefix followed by the serialised parameters, which read back from it |
| `Tools.DispatchTable` | agent.js:56-76 | search gives the search stub text with `arguments.query`; aipipe gives the AIPipe stub text with the serialised arguments; run_js gives `runJs(arguments.code)`; any other name gives "Unknown tool" |
| `Tools.ResultIdentifiesHandler` | agent.js:56-76 | a result's opening text tells which handler produced it: search stub, AIPipe stub, runJs ("JS Result: "/"JS Error: ") or the unknown-tool answer |
| `Tools.RunJs` | agent.js:78-85 | for thrown values that are JSON values or `undefined`: never throws; the result starts with "JS Result: " exactly when evaluation returned and with "JS Error: " exactly when it threw; it equals runJs as written wherever that one does not throw |
| `Tools.RunJsAsWritten` | agent.js:78-85 | for thrown values that are JSON values or `undefined`, runJs as written throws exactly when the evaluated code throws `null` or `undefined`, and then with the TypeError of reading `message` from that value |
| `Tools.RunJsAsWrittenThrowsOnNull` | agent.js:82-83 | as written, runJs throws a TypeError when the evaluated code throws `null`, instead of answering "JS Error: ..." |
| `Llm.BuildRequest` | agent.js:88-124 | a request is built exactly for openai, and for gemini with a non-empty history; any other provider throws "Unsupported provider" |
| `Llm.CallLLM` | agent.js:87-124 | a request is handed to the transport exactly for openai, and for gemini with a non-empty history; it is the request built from the history, and the reply is the transport's answer to that very request read by the provider's parser; otherwise nothing is sent and the build error is thrown |
| `Llm.UnsupportedProviderThrows` | agent.js:87-124 | callLLM with a provider other than openai and gemini throws "Unsupported provider" without calling the transport |
| `Llm.OpenAIRequestCarriesHistory` | agent.js:96-103 | the OpenAI body carries the model and the entire history (it decodes back to exactly the given messages), plus the tool declarations search, aipipe and run_js |
| `Llm.DeclaredToolNames` | agent.js:99-103 | exactly three tools are declared, named search, aipipe and run_js, in that order |
| `Llm.GeminiRequestCarriesLastMessage` | agent.js:115-117 | the Gemini body carries a single part whose text is the content of the last message |
| `Llm.GeminiIgnoresEarlierHistory` | agent.js:116 | two histories with the same last content give the same Gemini request |
| `Llm.OpenAIParseRoundTrip` | agent.js:107 | any OpenAI reply whose `choices[0].message` is an object reads as that message's `content` and `tool_calls` (undefined where absent), whatever other fields the reply, choice and message carry and however many choices follow |
| `Llm.OpenAIPlainAnswer` | agent.js:107 | a reply whose message has only `content: "hi"` reads as output "hi" and undefined tool calls |
| `Llm.ParseOpenAI` | agent.js:107 | reading fails exactly when the reply, its `choices` or `choices[0]` is null/undefined; what a reply reads as is given by `Llm.OpenAIParseRoundTrip` and `Llm.OpenAIMissingMessage` |
| `Llm.OpenAIMissingMessage` | agent.js:107 | a null or absent `message` reads as no output and no tool calls, not as an error |
| `Llm.GeminiParseRoundTrip` | agent.js:120 | any Gemini reply with objects along the path reads as `candidates[0].content.parts[0].text` (undefined where absent) with an empty tool-call list, whatever other fields each level carries and however many candidates and parts follow |
| `Llm.ParseGemini` | agent.js:120 | a Gemini reply never yields tool calls; reading fails exactly when a level on the way to the text is null/undefined; the text it reads is given by `Llm.GeminiParseRoundTrip` |
| `Messages.HistoryRoundTrip` | agent.js:98 | the `messages` array of a request decodes back to exactly the history, in order, with roles and contents |
| `Js.TrimStartDropsLeadingSpace` | agent.js:20 | dropping leading white space leaves a suffix that does not start with white space, and what it dropped is all white space |
| `Js.TrimEndDropsTrailingSpace` | agent.js:20 | dropping trailing white space leaves a prefix that does not end with white space, and what it dropped is all white space |
| `Js.TrimEmptyIff` | agent.js:20-21 | the trimmed input is empty exactly when every character is JavaScript white space |
| `Js.TrimKeepsCore` | agent.js:20 | the trimmed text is the middle of the input between a white-space prefix and a white-space suffix, and neither of its ends is white space |
| `Js.TrimIdempotent` | agent.js:20 | trimming twice is trimming once |
| `Js.Get` | agent.js:107 | a property read throws V8's TypeError exactly on null or undefined; on an object holding the key it yields that key's value, and on anything else it yields undefined |
| `Js.Truthy` | agent.js:38 | the falsy values are exactly undefined, null, false, 0 and the empty string |
| `Js.ToJsString` | agent.js:46 | the string form used in chat lines and stub answers; `Js.IntToStringRoundTrip` states that an integer's form reads back as that integer |
| `Js.IntToStringRoundTrip` | agent.js:70 | the decimal form of any integer, with its sign, parses back to the same integer |
| `Js.At` | agent.js:107 | an index read throws exactly on null or undefined, and yields an array's element when in range |

## Left out

- The DOM: `showMessage` is modelled as an append-only list of `(role, text)` lines, and `showAlert` as a replaceable alert text. Rendering, icons, scrolling and the HTML markup are not modelled. Neither is the HTML injection that `innerHTML` allows.
- The input box: its value is the `input` parameter, and clearing it is not modelled. The provider, model and API key selectors are parameters. The API key only reaches headers and URLs, which are not modelled.
- Network transport: `fetch`, URLs, headers, HTTP status and `res.json()` are replaced by the `respond` function. Its failure stands for any rejection of `fetch` or of `res.json()`.
- `JSON.stringify` in `callAIPipe` is the opaque `stringify` parameter. The OpenAI request body is modelled as the value handed to it, not as text.
- `Function(...)` evaluation in `runJs` is the opaque `evaluate` parameter. Isolation, strict mode and side effects of the evaluated code are not modelled. That code runs with the page's globals. It could clear the chat display (`document.getElementById("chat").innerHTML = ""`), or truncate the global `conversation` when the script is loaded as a classic script. The append-only properties (`HistoryIsAppendOnly`, `SuccessfulTurnHistory`, `ToolFailureKeepsEarlierResults`) hold only for evaluated code that leaves the page alone.
- Thrown values are JSON values or `undefined` (`Evaluation.Threw` carries a `Value`). Symbols, objects without a prototype and getters are not modelled. With those, `"JS Error: " + err.message` can itself throw out of runJs, even in the corrected version. `throw { message: Symbol() }` throws "Cannot convert a Symbol value to a string". `throw { message: Object.create(null) }` throws "Cannot convert object to primitive value". `throw { get message() { throw null } }` makes runJs throw `null`, and then sendMessage's own `err.message` read throws as well, so no alert appears. `Tools.RunJs` "never throws" and "any error ends the turn in the alert box" hold only for the modelled thrown values.
- `async`/`await`: the turn is sequential. Two turns overlapping in time are not modelled.
- Numbers are unbounded integers, which matches JavaScript only for safe integers (magnitude below 2^53). Larger JSON integers lose precision in JavaScript, and values from 1e21 up print in exponent form ("1e+21"), where `IntToString` prints every digit. Floating point, NaN and `-0` are not modelled.
- Strings are sequences of Unicode scalar values. JavaScript indexes and iterates strings by UTF-16 unit and code point, and the difference is not modelled. This matters only for a string-valued `tool_calls` or `choices`.
- AgentCore.ExceedsZero: `tool_calls.length > 0` on an object whose `length` is a string, array or object is taken as false. The numeric coercion of such a `length` is not modelled.
- Error messages use V8's wording ("Cannot read properties of undefined (reading 'x')", "tool_calls is not iterable"). Other engines word them differently.
- Tools.HandleToolCall: uses the corrected runJs (see Findings), so in `Turn` a tool call whose code throws `null` or `undefined` yields "JS Error: null"/"JS Error: undefined" rather than ending the turn with an alert. The as-written effect on the tool loop (no tool message, the alert "Error: Cannot read properties of null (reading 'message')") is stated by `TurnProperties.AsWrittenRunJsAlertsOnThrownNull`.
- Tool-call shape: the dispatcher reads `tc.name` and `tc.arguments` as agent.js does. OpenAI's chat completions return tool calls as `{ id, type, function: { name, arguments } }`, with `arguments` as JSON text. `TurnProperties.OpenAIShapedCallIsUnknown` shows that agent.js answers "Unknown tool" to every such call. The model keeps the source's shape and does not correct it.
- `frontend/agent.js` (a separate UI class talking to a backend) and `backend/main.py` (an HTTP proxy) are not part of this model.

## Findings

| source | as written | input that shows it | evidently intended | confidence | as-written member | corrected member |
|---|---|---|---|---|---|---|
| agent.js:82-83 | the `catch` of `runJs` reads `err.message`; when the evaluated code throws `null` or `undefined`, that read throws a TypeError out of `runJs` | `run_js` with code `(() => { throw null })()` | `runJs` never throws: every failure becomes a "JS Error: " string | high; not executed | `Tools.RunJsAsWrittenThrowsOnNull` | `Tools.RunJs` |
