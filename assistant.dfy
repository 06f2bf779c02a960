/** The branches of `get_assistant_response` both script versions share:
    the tool round offering the weather or the search tool, the plain
    completion, and the outer handler that turns any exception into the
    "Error getting response" reply. */
module Assistant {
  import opened Wrappers
  import opened Services
  import opened Detectors
  import opened Router
  import opened Drafting
  import opened Tools

  const WeatherSystem := "You are a helpful weather assistant. Use the get_weather function."
  const SearchSystem := "You are a helpful assistant for locating files and folders."
  const GenericSystem := "You are a helpful AI assistant."
  const ResponseError := "Error getting response: "

  /** The reply of a branch that may raise: its answer, or the handler's text. */
  function Answered(r: Result<string, string>): (reply: string)
    ensures r.Success? ==> reply == r.value
    ensures r.Failure? ==> reply == ResponseError + r.error
  {
    match r
    case Success(t) => t
    case Failure(e) => ResponseError + e
  }

  /** The request of the generic branch: no tools offered. */
  function GenericRequest(query: string): ChatRequest
  {
    ChatRequest([System(GenericSystem), User(query)], false)
  }

  function GenericAnswer(query: string, env: Services): Result<string, string>
  {
    match env.chat(GenericRequest(query))
    case Success(reply) => Success(reply.content)
    case Failure(e) => Failure(e)
  }

  /** The branches answered by completions alone. */
  predicate IsChatBranch(b: Branch)
  {
    b == WeatherTool || b == SearchTool || b == GenericChat
  }

  /** The `system_message` of a tool branch. */
  function SystemFor(b: Branch): string
  {
    if b == WeatherTool then WeatherSystem else SearchSystem
  }

  /** `tool_name`, `system_message` and the completion they lead to. */
  function ChatBranch(b: Branch, query: string, sig: Signature, env: Services): string
    requires IsChatBranch(b)
  {
    if b == GenericChat then Answered(GenericAnswer(query, env))
    else Answered(ToolAnswer(SystemFor(b), query, sig, env))
  }

  /** An unknown tool requested in the weather or search round escapes as
      `ValueError` and is answered with the handler's prefix. */
  lemma UnknownToolReply(b: Branch, query: string, sig: Signature, env: Services, k: nat)
    requires b == WeatherTool || b == SearchTool
    requires var first := env.chat(FirstRequest(SystemFor(b), query));
      && first.Success? && k < |first.value.toolCalls|
      && !Registered(first.value.toolCalls[k].name)
      && env.loads(first.value.toolCalls[k].arguments).Success?
      && forall j :: 0 <= j < k ==> ToolStep(first.value.toolCalls[j], sig, env).Success?
    ensures var calls := env.chat(FirstRequest(SystemFor(b), query)).value.toolCalls;
      ChatBranch(b, query, sig, env) == ResponseError + "Unknown function: " + calls[k].name
  {
    var sm := SystemFor(b);
    var calls := env.chat(FirstRequest(sm, query)).value.toolCalls;
    UnknownToolMessage(calls, k, sig, env);
    assert ToolAnswer(sm, query, sig, env) == Failure("Unknown function: " + calls[k].name);
    assert ChatBranch(b, query, sig, env) == Answered(ToolAnswer(sm, query, sig, env));
  }

  /** The tool-routing code: pick the system message, run the tool round or
      the plain completion. */
  method AnswerInChat(b: Branch, query: string, sig: Signature, env: Services) returns (reply: string)
    requires IsChatBranch(b)
    ensures reply == ChatBranch(b, query, sig, env)
  {
    if b == WeatherTool || b == SearchTool {
      var systemMessage := SystemFor(b);
      var r := ToolRound(systemMessage, query, sig, env);
      reply := Answered(r);
    } else {
      var completion := env.chat(GenericRequest(query));
      if completion.Failure? {
        return ResponseError + completion.error;
      }
      reply := completion.value.content;
    }
  }
}
