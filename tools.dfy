/** The three tools the model may call, `call_function`'s dispatch by name
    with Python's keyword-argument binding, and the two-phase tool round of
    `get_assistant_response`: ask with tools offered, run every requested
    call in order, and ask again with the results. */
module Tools {
  import opened Wrappers
  import opened Text
  import opened Services
  import opened Paths
  import opened Drafting

  // ---------- search_file_or_folder ----------

  const NoMatches := "No matching files/folders found."

  /** File mode: the last path component has a dot in it. */
  predicate IsFileName(name: string)
  {
    '.' in Basename(name)
  }

  /** The `results` list: what the walk found, or the sentinel alone. */
  function Wrapped(found: seq<string>): (results: seq<string>)
  {
    if found == [] then [NoMatches] else found
  }

  /** The list is never empty; it is the sentinel alone exactly when nothing
      was found (or the only hit was itself named like the sentinel), and
      otherwise it is the hits unchanged. */
  lemma WrappedFacts(found: seq<string>)
    ensures Wrapped(found) != []
    ensures Wrapped(found) == [NoMatches] <==> found == [] || found == [NoMatches]
    ensures found != [] ==> Wrapped(found) == found
  {
  }

  /** `search_file_or_folder(name)`: the walk, in file or folder mode, is
      the filesystem's business; the result record is this module's. */
  function SearchFileOrFolder(name: string, env: Services): Json
  {
    var found := env.walk(name, IsFileName(name));
    JObject([("results", JArray(seq(|Wrapped(found)|, k requires 0 <= k < |Wrapped(found)| => JString(Wrapped(found)[k]))))])
  }

  // ---------- keyword binding ----------

  /** Quoted names separated by `, `. */
  function QuotedList(names: seq<string>): string
  {
    if |names| == 0 then ""
    else if |names| == 1 then "'" + names[0] + "'"
    else "'" + names[0] + "', " + QuotedList(names[1..])
  }

  /** The names as CPython lists missing arguments: `'a'`, `'a' and 'b'`,
      `'a', 'b', and 'c'`. */
  function QuotedNames(names: seq<string>): string
  {
    if |names| == 0 then ""
    else if |names| == 1 then "'" + names[0] + "'"
    else if |names| == 2 then "'" + names[0] + "' and '" + names[1] + "'"
    else QuotedList(names[..|names| - 1]) + ", and '" + names[|names| - 1] + "'"
  }

  function MissingMessage(fname: string, missing: seq<string>): string
  {
    fname + "() missing " + NatToString(|missing|) + " required positional argument"
    + (if |missing| == 1 then "" else "s") + ": " + QuotedNames(missing)
  }

  /** First key that names no parameter, in the dictionary's order. */
  function FirstUnexpected(fields: seq<(string, Json)>, params: seq<string>): (r: Option<string>)
    ensures r.None? ==> forall k :: 0 <= k < |fields| ==> fields[k].0 in params
    ensures r.Some? ==> r.value !in params && exists k :: 0 <= k < |fields| && fields[k].0 == r.value
  {
    if |fields| == 0 then None
    else if fields[0].0 !in params then Some(fields[0].0)
    else FirstUnexpected(fields[1..], params)
  }

  /** The required parameters no key supplies, in parameter order. */
  function Missing(fields: seq<(string, Json)>, required: seq<string>): (r: seq<string>)
    ensures forall k :: 0 <= k < |r| ==> r[k] in required && !HasField(fields, r[k])
    ensures forall p :: p in required && !HasField(fields, p) ==> p in r
  {
    if |required| == 0 then []
    else (if HasField(fields, required[0]) then [] else [required[0]]) + Missing(fields, required[1..])
  }

  /** The module a function defined in the script belongs to, as CPython
      qualifies it in the non-mapping `**` error. */
  const ScriptModule := "__main__."

  /** `f(**args)` for `def f(<required>, <optional>=<defaults>)`: the argument
      values in parameter order, or the `TypeError` message.  It binds
      exactly when `args` is an object whose keys all name parameters and
      which supplies every required one; each parameter then gets the value
      stored under its name, or its default. */
  function Bind(args: Json, fname: string, required: seq<string>, optional: seq<string>, defaults: seq<Json>)
    : (r: Result<seq<Json>, string>)
    requires |optional| == |defaults|
    ensures r.Success? <==>
      && args.JObject?
      && (forall k :: 0 <= k < |args.fields| ==> args.fields[k].0 in required + optional)
      && (forall k :: 0 <= k < |required| ==> HasField(args.fields, required[k]))
    ensures r.Success? ==>
      && |r.value| == |required| + |optional|
      && (forall k :: 0 <= k < |required| ==> r.value[k] == Get(args.fields, required[k], JNull))
      && (forall k :: 0 <= k < |optional| ==> r.value[|required| + k] == Get(args.fields, optional[k], defaults[k]))
    ensures !args.JObject? ==> r == Failure(ScriptModule + fname + "() argument after ** must be a mapping, not " + TypeName(args))
  {
    if !args.JObject? then
      Failure(ScriptModule + fname + "() argument after ** must be a mapping, not " + TypeName(args))
    else
      var fields := args.fields;
      match FirstUnexpected(fields, required + optional)
      case Some(key) => Failure(fname + "() got an unexpected keyword argument '" + key + "'")
      case None =>
        var missing := Missing(fields, required);
        if missing != [] then Failure(MissingMessage(fname, missing))
        else
          Success(seq(|required|, k requires 0 <= k < |required| => Get(fields, required[k], JNull))
                  + seq(|optional|, k requires 0 <= k < |optional| => Get(fields, optional[k], defaults[k])))
  }

  /** A string argument as an f-string renders it. */
  function AsText(j: Json, env: Services): string
  {
    match j
    case JString(t) => t
    case _ => env.render(j)
  }

  // ---------- call_function ----------

  predicate Registered(name: string)
  {
    name == "get_weather" || name == "search_file_or_folder" || name == "generate_email"
  }

  /** The record `generate_email` returns, as `json.dumps` sees it. */
  function DraftJson(d: Draft): Json
  {
    JObject([("subject", JString(d.subject)), ("body", JString(d.body)), ("success", JBool(d.success))])
  }

  /** `call_function(name, args)`: an exception from the tool (or from the
      binding) is not caught here. */
  function CallFunction(name: string, args: Json, sig: Signature, env: Services): Result<Json, string>
  {
    if name == "get_weather" then
      match Bind(args, "get_weather", ["latitude", "longitude"], [], [])
      case Failure(e) => Failure(e)
      case Success(vs) => env.weather(vs[0], vs[1])
    else if name == "search_file_or_folder" then
      match Bind(args, "search_file_or_folder", ["name"], [], [])
      case Failure(e) => Failure(e)
      case Success(vs) =>
        match vs[0]
        case JString(n) => Success(SearchFileOrFolder(n, env))
        case other => Failure("expected str, bytes or os.PathLike object, not " + TypeName(other))
    else if name == "generate_email" then
      match Bind(args, "generate_email", ["topic"], ["recipient_name", "tone"], [JString(""), JString("professional")])
      case Failure(e) => Failure(e)
      case Success(vs) => Success(DraftJson(Drafted(AsText(vs[0], env), AsText(vs[1], env), AsText(vs[2], env), sig, env)))
    else
      Failure("Unknown function: " + name)
  }

  /** Only the three registered names are dispatched: any other name is a
      `ValueError` naming it.  A `generate_email` call with a topic and no
      unknown keyword never fails. */
  lemma DispatchFacts(name: string, args: Json, sig: Signature, env: Services)
    ensures !Registered(name) ==> CallFunction(name, args, sig, env) == Failure("Unknown function: " + name)
    ensures name == "generate_email" && args.JObject? && HasField(args.fields, "topic")
         && (forall k :: 0 <= k < |args.fields| ==> args.fields[k].0 in ["topic", "recipient_name", "tone"])
      ==> CallFunction(name, args, sig, env).Success?
  {
    assert ["topic"] + ["recipient_name", "tone"] == ["topic", "recipient_name", "tone"];
  }

  /** A search for a string `name` yields the wrapped walk result. */
  lemma SearchDispatch(n: string, sig: Signature, env: Services)
    ensures CallFunction("search_file_or_folder", JObject([("name", JString(n))]), sig, env)
         == Success(SearchFileOrFolder(n, env))
  {
    var fields := [("name", JString(n))];
    assert ["name"] + [] == ["name"];
    assert HasField(fields, "name") by { assert fields[0].0 == "name"; }
  }

  // ---------- the tool round ----------

  /** One requested call: decode its arguments, run it, and record
      `json.dumps` of the result under the call's id. */
  function ToolStep(call: ToolCall, sig: Signature, env: Services): (r: Result<Message, string>)
    ensures r.Success? ==> r.value.ToolResult? && r.value.toolCallId == call.id
  {
    match env.loads(call.arguments)
    case Failure(e) => Failure(e)
    case Success(args) =>
      match CallFunction(call.name, args, sig, env)
      case Failure(e) => Failure(e)
      case Success(result) => Success(ToolResult(call.id, env.dumps(result)))
  }

  /** The tool messages for the calls, in call order; the first failure
      ends the round with its exception. */
  function ToolMessages(calls: seq<ToolCall>, sig: Signature, env: Services): Result<seq<Message>, string>
    decreases |calls|
  {
    if calls == [] then Success([])
    else
      match ToolStep(calls[0], sig, env)
      case Failure(e) => Failure(e)
      case Success(m) =>
        match ToolMessages(calls[1..], sig, env)
        case Failure(e) => Failure(e)
        case Success(rest) => Success([m] + rest)
  }

  /** The round succeeds exactly when every call does, and then holds one
      message per call, in call order, each carrying that call's id. */
  lemma {:induction false} ToolMessagesFacts(calls: seq<ToolCall>, sig: Signature, env: Services)
    ensures ToolMessages(calls, sig, env).Success? <==> forall k :: 0 <= k < |calls| ==> ToolStep(calls[k], sig, env).Success?
    ensures ToolMessages(calls, sig, env).Success? ==>
      && |ToolMessages(calls, sig, env).value| == |calls|
      && forall k :: 0 <= k < |calls| ==>
           && ToolMessages(calls, sig, env).value[k] == ToolStep(calls[k], sig, env).value
           && ToolMessages(calls, sig, env).value[k].toolCallId == calls[k].id
    decreases |calls|
  {
    if calls != [] {
      ToolMessagesFacts(calls[1..], sig, env);
      assert forall k :: 1 <= k < |calls| ==> calls[1..][k - 1] == calls[k];
    }
  }

  /** A call to an unregistered tool anywhere in the list ends the round
      in an exception. */
  lemma UnknownToolAborts(calls: seq<ToolCall>, k: nat, sig: Signature, env: Services)
    requires k < |calls| && !Registered(calls[k].name)
    ensures ToolMessages(calls, sig, env).Failure?
  {
    DispatchFacts(calls[k].name, JNull, sig, env);
    ToolMessagesFacts(calls, sig, env);
    match env.loads(calls[k].arguments)
    case Failure(_) =>
    case Success(args) => DispatchFacts(calls[k].name, args, sig, env);
  }

  /** The round's exception is that of its first failing call. */
  lemma FirstFailureEndsRound(calls: seq<ToolCall>, k: nat, sig: Signature, env: Services)
    requires k < |calls| && ToolStep(calls[k], sig, env).Failure?
    requires forall j :: 0 <= j < k ==> ToolStep(calls[j], sig, env).Success?
    ensures ToolMessages(calls, sig, env) == Failure(ToolStep(calls[k], sig, env).error)
  {
    FirstFailureFrom(calls, 0, k, sig, env);
    assert calls[0..] == calls;
  }

  /** The same, for the calls from `i` on. */
  lemma {:induction false} FirstFailureFrom(calls: seq<ToolCall>, i: nat, k: nat, sig: Signature, env: Services)
    requires i <= k < |calls| && ToolStep(calls[k], sig, env).Failure?
    requires forall j :: i <= j < k ==> ToolStep(calls[j], sig, env).Success?
    ensures ToolMessages(calls[i..], sig, env) == Failure(ToolStep(calls[k], sig, env).error)
    decreases k - i
  {
    UnfoldToolMessages(calls, i, sig, env);
    if i < k {
      FirstFailureFrom(calls, i + 1, k, sig, env);
    }
  }

  /** An unregistered name whose arguments decode, after calls that all
      succeed, ends the round with the dispatcher's `ValueError` text. */
  lemma UnknownToolMessage(calls: seq<ToolCall>, k: nat, sig: Signature, env: Services)
    requires k < |calls| && !Registered(calls[k].name) && env.loads(calls[k].arguments).Success?
    requires forall j :: 0 <= j < k ==> ToolStep(calls[j], sig, env).Success?
    ensures ToolMessages(calls, sig, env) == Failure("Unknown function: " + calls[k].name)
  {
    DispatchFacts(calls[k].name, env.loads(calls[k].arguments).value, sig, env);
    FirstFailureEndsRound(calls, k, sig, env);
  }

  /** The first request: system and user message, tools offered. */
  function FirstRequest(systemMessage: string, query: string): ChatRequest
  {
    ChatRequest([System(systemMessage), User(query)], true)
  }

  /** The second request: the first transcript, the assistant's message,
      then the tool messages; no tools offered. */
  function SecondRequest(systemMessage: string, query: string, reply: Reply, results: seq<Message>): ChatRequest
  {
    ChatRequest([System(systemMessage), User(query), AssistantTurn(reply.content, reply.toolCalls)] + results, false)
  }

  /** What the tool branch answers, or the exception that escapes it. */
  function ToolAnswer(systemMessage: string, query: string, sig: Signature, env: Services): Result<string, string>
  {
    match env.chat(FirstRequest(systemMessage, query))
    case Failure(e) => Failure(e)
    case Success(reply) =>
      if reply.toolCalls == [] then Success(reply.content)
      else
        match ToolMessages(reply.toolCalls, sig, env)
        case Failure(e) => Failure(e)
        case Success(results) =>
          match env.chat(SecondRequest(systemMessage, query, reply, results))
          case Failure(e) => Failure(e)
          case Success(final) => Success(final.content)
  }

  /** `ToolMessages` with `acc` already collected in front of it. */
  function Prefixed(acc: seq<Message>, r: Result<seq<Message>, string>): Result<seq<Message>, string>
  {
    match r
    case Failure(e) => Failure(e)
    case Success(rest) => Success(acc + rest)
  }

  lemma PrefixedAssoc(a: seq<Message>, b: seq<Message>, r: Result<seq<Message>, string>)
    ensures Prefixed(a, Prefixed(b, r)) == Prefixed(a + b, r)
  {
    if r.Success? { assert a + (b + r.value) == (a + b) + r.value; }
  }

  /** One step of the round, from call `i` on. */
  lemma UnfoldToolMessages(calls: seq<ToolCall>, i: nat, sig: Signature, env: Services)
    requires i < |calls|
    ensures ToolMessages(calls[i..], sig, env)
         == match ToolStep(calls[i], sig, env)
            case Failure(e) => Failure(e)
            case Success(m) => Prefixed([m], ToolMessages(calls[i + 1..], sig, env))
  {
    assert calls[i..][1..] == calls[i + 1..];
  }

  /** One pass of the loop over the tool calls: decode the arguments, call
      the tool, and wrap its JSON-encoded result under the call's id. */
  method RunToolCall(call: ToolCall, sig: Signature, env: Services) returns (step: Result<Message, string>)
    ensures step == ToolStep(call, sig, env)
  {
    var args := env.loads(call.arguments);
    if args.Failure? {
      return Failure(args.error);
    }
    var result := CallFunction(call.name, args.value, sig, env);
    if result.Failure? {
      return Failure(result.error);
    }
    step := Success(ToolResult(call.id, env.dumps(result.value)));
  }

  /** The tool branch as the program runs it: the transcript grows by one
      tool message per call inside the loop. */
  method ToolRound(systemMessage: string, query: string, sig: Signature, env: Services)
    returns (r: Result<string, string>)
    ensures r == ToolAnswer(systemMessage, query, sig, env)
  {
    var completion := env.chat(FirstRequest(systemMessage, query));
    if completion.Failure? {
      return Failure(completion.error);
    }
    var reply := completion.value;
    var calls := reply.toolCalls;
    if calls == [] {
      return Success(reply.content);
    }
    var results: seq<Message> := [];
    var i := 0;
    assert calls[i..] == calls;
    assert Prefixed(results, ToolMessages(calls, sig, env)) == ToolMessages(calls, sig, env) by {
      if ToolMessages(calls, sig, env).Success? { assert [] + ToolMessages(calls, sig, env).value == ToolMessages(calls, sig, env).value; }
    }
    while i < |calls|
      invariant 0 <= i <= |calls|
      invariant Prefixed(results, ToolMessages(calls[i..], sig, env)) == ToolMessages(calls, sig, env)
    {
      UnfoldToolMessages(calls, i, sig, env);
      var step := RunToolCall(calls[i], sig, env);
      if step.Failure? {
        return Failure(step.error);
      }
      var m := step.value;
      PrefixedAssoc(results, [m], ToolMessages(calls[i + 1..], sig, env));
      results := results + [m];
      i := i + 1;
    }
    assert calls[i..] == [];
    assert results + [] == results;
    var final := env.chat(SecondRequest(systemMessage, query, reply, results));
    if final.Failure? {
      return Failure(final.error);
    }
    r := Success(final.value.content);
  }

  /** Without tool calls the first answer is returned.  With them, the
      second request is the system, user and assistant messages followed by
      one tool message per call, in call order, under that call's id, and
      it offers no tools; the round answers that completion's content, or
      its exception.  An exception of the first completion or of a tool
      call ends the round. */
  lemma ToolAnswerFacts(systemMessage: string, query: string, sig: Signature, env: Services)
    ensures var first := env.chat(FirstRequest(systemMessage, query));
      first.Success? && first.value.toolCalls == [] ==> ToolAnswer(systemMessage, query, sig, env) == Success(first.value.content)
    ensures var first := env.chat(FirstRequest(systemMessage, query));
      first.Success? && first.value.toolCalls != [] && ToolMessages(first.value.toolCalls, sig, env).Success? ==>
        var calls := first.value.toolCalls;
        var req := SecondRequest(systemMessage, query, first.value, ToolMessages(calls, sig, env).value);
        && !req.offerTools
        && |req.messages| == 3 + |calls|
        && req.messages[..3] == [System(systemMessage), User(query), AssistantTurn(first.value.content, calls)]
        && forall k :: 0 <= k < |calls| ==> req.messages[3 + k].ToolResult? && req.messages[3 + k].toolCallId == calls[k].id
    ensures var first := env.chat(FirstRequest(systemMessage, query));
      first.Success? && first.value.toolCalls != [] && ToolMessages(first.value.toolCalls, sig, env).Success? ==>
        ToolAnswer(systemMessage, query, sig, env)
        == match env.chat(SecondRequest(systemMessage, query, first.value, ToolMessages(first.value.toolCalls, sig, env).value))
           case Success(final) => Success(final.content)
           case Failure(e) => Failure(e)
    ensures var first := env.chat(FirstRequest(systemMessage, query));
      && (first.Failure? ==> ToolAnswer(systemMessage, query, sig, env) == Failure(first.error))
      && (first.Success? && first.value.toolCalls != [] && ToolMessages(first.value.toolCalls, sig, env).Failure? ==>
            ToolAnswer(systemMessage, query, sig, env) == Failure(ToolMessages(first.value.toolCalls, sig, env).error))
  {
    var first := env.chat(FirstRequest(systemMessage, query));
    if first.Success? && first.value.toolCalls != [] && ToolMessages(first.value.toolCalls, sig, env).Success? {
      ToolMessagesFacts(first.value.toolCalls, sig, env);
    }
  }
}
