/** One turn of the earlier assistant (AI-Agent_v5.py): no document
    sessions; email first, then the weather and search tools, then a plain
    completion. */
module AgentV5 {
  import opened Wrappers
  import opened Services
  import opened Detectors
  import opened Router
  import opened Session
  import opened Drafting
  import opened EmailWorkflow
  import opened Assistant
  import Agent

  /** The reply, the input left, and the email handed to the transport. */
  datatype TurnV5Outcome = TurnV5Outcome(reply: string, rest: seq<string>, sent: Option<Outgoing>)

  /** `get_assistant_response(query)` of the earlier version as a value. */
  function TurnV5(query: string, lines: seq<string>, sig: Signature, env: Services): TurnV5Outcome
  {
    var b := RouteV5(query);
    if b == EmailWorkflow then
      var o := EmailDialog(query, lines, sig, env);
      TurnV5Outcome(o.reply, o.rest, o.sent)
    else
      TurnV5Outcome(ChatBranch(b, query, sig, env), lines, None)
  }

  /** Without an open document and without close or document intent, the
      later version's turn is the earlier one's under the same signature
      and keeps the record closed. */
  lemma LaterVersionExtends(query: string, lines: seq<string>, sig: Signature, env: Services)
    requires !IsCloseDocumentQuery(query) && !IsDocumentQuery(query)
    ensures var t := Agent.Turn(query, Closed, lines, sig, env);
      && TurnV5(query, lines, sig, env) == TurnV5Outcome(t.reply, t.rest, t.sent)
      && t.state == Closed
  {
    AgreesWithEarlierVersion(query);
  }

  /** An email query always enters the workflow, and only it sends. */
  lemma EmailTurnV5(query: string, lines: seq<string>, sig: Signature, env: Services)
    ensures IsEmailQuery(query) ==> TurnV5(query, lines, sig, env).sent == EmailDialog(query, lines, sig, env).sent
    ensures TurnV5(query, lines, sig, env).sent.Some? ==>
      && IsEmailQuery(query)
      && TurnV5(query, lines, sig, env).sent.value.recipients != []
      && forall r :: r in TurnV5(query, lines, sig, env).sent.value.recipients ==> Addresses.IsValidAddress(r)
  {
    if IsEmailQuery(query) {
      EmailDialogFacts(query, lines, sig, env);
    }
  }

  /** `get_assistant_response` of the earlier version, signed by its author. */
  method GetAssistantResponseV5(query: string, lines: seq<string>, env: Services)
    returns (reply: string, rest: seq<string>, sent: Option<Outgoing>)
    ensures TurnV5Outcome(reply, rest, sent) == TurnV5(query, lines, EarlierSignature, env)
  {
    if IsEmailQuery(query) {
      reply, rest, sent := HandleEmailWorkflow(query, lines, EarlierSignature, env);
      return;
    }
    reply := AnswerInChat(RouteV5(query), query, EarlierSignature, env);
    rest, sent := lines, None;
  }
}
