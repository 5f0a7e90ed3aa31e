/** The tool side of the agent: the name-based dispatcher, the two stub
    tools and the `runJs` wrapper around JavaScript evaluation. */
module Tools {
  import opened Js

  /** What the JavaScript engine does with the function body that runJs
      builds: it returns (`text` is the returned value converted to a
      string), or it throws a value (an Error object is an object whose
      `message` property holds its message). Thrown values are JSON values
      or `undefined`; symbols, prototype-less objects and getters are not
      modelled. */
  datatype Evaluation = Returned(text: string) | Threw(thrown: Value)

  /** The collaborators the tools call and that are not modelled:
      `JSON.stringify` (the text it contributes to a concatenation) and
      the engine's evaluation of a function body. */
  datatype ToolEnv = ToolEnv(stringify: Value -> string, evaluate: string -> Evaluation)

  const SearchPrefix: string := "\U{1F50D} (stub) Search results for: "
  const AIPipePrefix: string := "\U{1F50C} (stub) AIPipe executed with: "
  const ResultPrefix: string := "JS Result: "
  const ErrorPrefix: string := "JS Error: "
  const UnknownTool: string := "Unknown tool"

  /** The names the dispatcher has a handler for. */
  predicate IsToolName(name: Value) {
    name == Str("search") || name == Str("aipipe") || name == Str("run_js")
  }

  /** `tc.name`, read only where `tc` is known not to be nullish. */
  function ToolName(tc: Value): Value {
    GetOptional(tc, "name")
  }

  function ToolArguments(tc: Value): Value {
    GetOptional(tc, "arguments")
  }

  /** googleSearch, a stub: the answer carries the search prefix followed
      by the query's string form, which can be read back from it. */
  function GoogleSearch(query: Value): (r: string)
    ensures SearchPrefix <= r && r[|SearchPrefix|..] == ToJsString(query)
  {
    SearchPrefix + ToJsString(query)
  }

  /** callAIPipe, a stub: the answer carries the AIPipe prefix followed by
      the serialised parameters, which can be read back from it. */
  function CallAIPipe(params: Value, env: ToolEnv): (r: string)
    ensures AIPipePrefix <= r && r[|AIPipePrefix|..] == env.stringify(params)
  {
    AIPipePrefix + env.stringify(params)
  }

  /** The source text given to `Function(...)`. */
  function FunctionSource(code: Value): string {
    "\"use strict\"; return (" + ToJsString(code) + ")"
  }

  /** runJs as written: the catch block reads `err.message`, which itself
      throws when the thrown value is `null` or `undefined`. So it throws
      exactly then, with the TypeError of that read. */
  function RunJsAsWritten(code: Value, env: ToolEnv): (r: Result<string>)
    ensures var e := env.evaluate(FunctionSource(code));
            r.Err? <==> e.Threw? && IsNullish(e.thrown)
    ensures var e := env.evaluate(FunctionSource(code));
            r.Err? ==> r.error == ReadError(e.thrown, "message")
  {
    match env.evaluate(FunctionSource(code))
    case Returned(text) => Ok(ResultPrefix + text)
    case Threw(err) =>
      var message :- Get(err, "message");
      Ok(ErrorPrefix + ToJsString(message))
  }

  /** Running `throw null` through runJs as written: the wrapper that is
      meant to turn every failure into a "JS Error: " string throws a
      TypeError instead. */
  lemma RunJsAsWrittenThrowsOnNull()
    ensures var env := ToolEnv(v => "", src => Threw(Null));
            RunJsAsWritten(Str("(() => { throw null })()"), env)
              == Err(TypeError("Cannot read properties of null (reading 'message')"))
  {
    var env := ToolEnv(v => "", src => Threw(Null));
    var code := Str("(() => { throw null })()");
    assert env.evaluate(FunctionSource(code)) == Threw(Null);
    assert "Cannot read properties of " + "null" + " (reading '" + "message" + "')"
        == "Cannot read properties of null (reading 'message')";
  }

  /** runJs with the catch block guarded: a nullish thrown value is reported
      by its own string form. It never throws; the answer starts with
      "JS Result: " exactly when evaluation returned and with "JS Error: "
      exactly when it threw; and it agrees with runJs as written whenever
      the latter does not throw. */
  function RunJs(code: Value, env: ToolEnv): (r: string)
    ensures ResultPrefix <= r <==> env.evaluate(FunctionSource(code)).Returned?
    ensures ErrorPrefix <= r <==> env.evaluate(FunctionSource(code)).Threw?
    ensures RunJsAsWritten(code, env).Ok? ==> RunJsAsWritten(code, env).value == r
  {
    match env.evaluate(FunctionSource(code))
    case Returned(text) =>
      assert ErrorPrefix[3] != (ResultPrefix + text)[3];
      ResultPrefix + text
    case Threw(err) =>
      var r := ErrorPrefix + (if IsNullish(err) then ToJsString(err)
                              else ToJsString(GetOptional(err, "message")));
      assert ResultPrefix[3] != r[3];
      r
  }

  /** handleToolCall's dispatch on `tc.name`, given the runJs that a
      run_js call goes to. */
  function HandleWith(tc: Value, env: ToolEnv, runJs: Value -> Result<string>): Result<string> {
    var name :- Get(tc, "name");
    if name == Str("search") then
      var args := ToolArguments(tc);
      var query :- Get(args, "query");
      Ok(GoogleSearch(query))
    else if name == Str("aipipe") then
      var args := ToolArguments(tc);
      Ok(CallAIPipe(args, env))
    else if name == Str("run_js") then
      var args := ToolArguments(tc);
      var code :- Get(args, "code");
      runJs(code)
    else
      Ok(UnknownTool)
  }

  /** handleToolCall, with the corrected runJs. It throws only where a
      property is read from `null` or `undefined`: the call itself, or the
      arguments of a search or run_js call. */
  function HandleToolCall(tc: Value, env: ToolEnv): (r: Result<string>)
    ensures r.Err? <==> IsNullish(tc)
                        || ((ToolName(tc) == Str("search") || ToolName(tc) == Str("run_js"))
                            && IsNullish(ToolArguments(tc)))
    ensures r.Ok? && !IsToolName(ToolName(tc)) ==> r.value == UnknownTool
  {
    HandleWith(tc, env, code => Ok(RunJs(code, env)))
  }

  /** handleToolCall as written, with runJs as written. It agrees with
      HandleToolCall except on a run_js call whose code throws `null` or
      `undefined`, where it throws instead of answering. */
  function HandleToolCallAsWritten(tc: Value, env: ToolEnv): (r: Result<string>)
    ensures r.Ok? || HandleToolCall(tc, env).Err? ==> r == HandleToolCall(tc, env)
    ensures r.Err? && HandleToolCall(tc, env).Ok? ==>
              var e := env.evaluate(FunctionSource(GetOptional(ToolArguments(tc), "code")));
              ToolName(tc) == Str("run_js") && e.Threw? && IsNullish(e.thrown)
    ensures var e := env.evaluate(FunctionSource(GetOptional(ToolArguments(tc), "code")));
            ToolName(tc) == Str("run_js") && !IsNullish(ToolArguments(tc)) && e.Threw? && IsNullish(e.thrown)
            ==> r == Err(ReadError(e.thrown, "message"))
  {
    HandleWith(tc, env, code => RunJsAsWritten(code, env))
  }

  /** A run_js call whose code throws `null`: handleToolCall as written
      throws the TypeError of reading `err.message` from `null`, where the
      corrected one answers "JS Error: null". */
  lemma RunJsThrowingNull(tc: Value, env: ToolEnv)
    requires ToolName(tc) == Str("run_js") && !IsNullish(ToolArguments(tc))
    requires env.evaluate(FunctionSource(GetOptional(ToolArguments(tc), "code"))) == Threw(Null)
    ensures HandleToolCallAsWritten(tc, env) == Err(ReadError(Null, "message"))
    ensures HandleToolCall(tc, env) == Ok("JS Error: null")
  {
    var code := GetOptional(ToolArguments(tc), "code");
    RunJsCallReachesRunJs(tc, env, code => RunJsAsWritten(code, env));
    RunJsCallReachesRunJs(tc, env, code => Ok(RunJs(code, env)));
    assert RunJs(code, env) == ErrorPrefix + "null" == "JS Error: null";
  }

  /** A run_js call with arguments goes to the runJs given, with
      `arguments.code`. */
  lemma RunJsCallReachesRunJs(tc: Value, env: ToolEnv, runJs: Value -> Result<string>)
    requires ToolName(tc) == Str("run_js") && !IsNullish(ToolArguments(tc))
    ensures HandleWith(tc, env, runJs) == runJs(GetOptional(ToolArguments(tc), "code"))
  {
    assert Get(tc, "name") == Ok(Str("run_js"));
  }

  /** The dispatch table: each handled name reaches its own handler with
      the argument it reads, and every other name yields exactly
      "Unknown tool". */
  lemma DispatchTable(tc: Value, env: ToolEnv)
    requires !IsNullish(tc)
    ensures ToolName(tc) == Str("search") && !IsNullish(ToolArguments(tc)) ==>
              HandleToolCall(tc, env) == Ok(SearchPrefix + ToJsString(GetOptional(ToolArguments(tc), "query")))
    ensures ToolName(tc) == Str("aipipe") ==>
              HandleToolCall(tc, env) == Ok(AIPipePrefix + env.stringify(ToolArguments(tc)))
    ensures ToolName(tc) == Str("run_js") && !IsNullish(ToolArguments(tc)) ==>
              HandleToolCall(tc, env) == Ok(RunJs(GetOptional(ToolArguments(tc), "code"), env))
    ensures !IsToolName(ToolName(tc)) ==> HandleToolCall(tc, env) == Ok(UnknownTool)
  {
  }

  /** A result names the handler that produced it: its opening text tells
      the search stub, the AIPipe stub, runJs and the unknown-tool answer
      apart. */
  lemma ResultIdentifiesHandler(tc: Value, env: ToolEnv)
    requires HandleToolCall(tc, env).Ok?
    ensures var r := HandleToolCall(tc, env).value;
            && (SearchPrefix <= r <==> ToolName(tc) == Str("search"))
            && (AIPipePrefix <= r <==> ToolName(tc) == Str("aipipe"))
            && ((ResultPrefix <= r || ErrorPrefix <= r) <==> ToolName(tc) == Str("run_js"))
            && (r == UnknownTool <==> !IsToolName(ToolName(tc)))
  {
    var r := HandleToolCall(tc, env).value;
    var name := ToolName(tc);
    if name == Str("search") {
      assert r[0] == '\U{1F50D}';
    } else if name == Str("aipipe") {
      assert r[0] == '\U{1F50C}';
    } else if name == Str("run_js") {
      assert ResultPrefix <= r || ErrorPrefix <= r;
      assert r[0] == 'J';
    } else {
      assert r == UnknownTool && r[0] == 'U';
    }
  }
}
