/** One turn of the assistant with document sessions (AI-Agent_v5.1.py):
    the router's branch carried out against the `current_document` record
    and the user's further input lines. */
module Agent {
  import opened Wrappers
  import opened Text
  import opened Services
  import opened Detectors
  import opened Router
  import opened Session
  import opened Documents
  import opened Drafting
  import opened EmailWorkflow
  import opened Assistant

  /** The reply, the input left, the record after the turn, and the email
      handed to the transport, if any. */
  datatype TurnOutcome = TurnOutcome(reply: string, rest: seq<string>, state: Snapshot, sent: Option<Outgoing>)

  const NoDocument := "No document is currently open."

  function ClosedReply(filename: string): string
  {
    "Document '" + filename + "' closed. Resuming normal operations."
  }

  /** `get_assistant_response(query)` as a value, for a consistent record. */
  function Turn(query: string, st: Snapshot, lines: seq<string>, sig: Signature, env: Services): TurnOutcome
    requires Consistent(st)
  {
    var b := Route(query, st.isActive);
    match b
    case CloseDocument =>
      if st.isActive then TurnOutcome(ClosedReply(st.filename.value), lines, Closed, None)
      else TurnOutcome(NoDocument, lines, st, None)
    case DocumentFollowUp =>
      TurnOutcome(ChatWithDocument(query, st.content.value, st.filename.value, env), lines, st, None)
    case DocumentWorkflow =>
      var o := DocumentDialog(lines, env);
      TurnOutcome(o.reply, o.rest, if o.written.Some? then o.written.value else st, None)
    case EmailWorkflow =>
      var o := EmailDialog(query, lines, sig, env);
      TurnOutcome(o.reply, o.rest, st, o.sent)
    case _ =>
      TurnOutcome(ChatBranch(b, query, sig, env), lines, st, None)
  }

  /** A close request empties the record and names the file it held, or
      says no document is open; it reads no input and sends nothing. */
  lemma CloseTurn(query: string, st: Snapshot, lines: seq<string>, sig: Signature, env: Services)
    requires Consistent(st) && IsCloseDocumentQuery(query)
    ensures var t := Turn(query, st, lines, sig, env);
      && t.state == Closed && t.rest == lines && t.sent.None?
      && t.reply == (if st.isActive then ClosedReply(st.filename.value) else NoDocument)
  {
  }

  /** With a document open, a query no detector claims is answered from the
      stored text and file name, and the record is kept. */
  lemma FollowUpTurn(query: string, st: Snapshot, lines: seq<string>, sig: Signature, env: Services)
    requires Consistent(st) && st.isActive
    requires !IsCloseDocumentQuery(query) && !IsDocumentQuery(query) && !IsEmailQuery(query)
    requires !IsWeatherQuery(query) && !IsSearchQuery(query)
    ensures var t := Turn(query, st, lines, sig, env);
      && t.reply == ChatWithDocument(query, st.content.value, st.filename.value, env)
      && t.state == st && t.rest == lines && t.sent.None?
  {
    FollowUpExactly(query, st.isActive);
  }

  /** Past the close, document and email checks, a weather query runs the
      tool round under the weather system message, even when it also asks
      for a search; a search query runs it under the search message. */
  lemma ToolTurn(query: string, st: Snapshot, lines: seq<string>, sig: Signature, env: Services)
    requires Consistent(st) && !IsCloseDocumentQuery(query) && !IsDocumentQuery(query) && !IsEmailQuery(query)
    ensures IsWeatherQuery(query) ==>
      Turn(query, st, lines, sig, env) == TurnOutcome(Answered(Tools.ToolAnswer(WeatherSystem, query, sig, env)), lines, st, None)
    ensures !IsWeatherQuery(query) && IsSearchQuery(query) ==>
      Turn(query, st, lines, sig, env) == TurnOutcome(Answered(Tools.ToolAnswer(SearchSystem, query, sig, env)), lines, st, None)
  {
    var b := Route(query, st.isActive);
    if IsWeatherQuery(query) {
      assert b == WeatherTool && SystemFor(b) == WeatherSystem;
      assert Turn(query, st, lines, sig, env) == TurnOutcome(ChatBranch(b, query, sig, env), lines, st, None);
    } else if IsSearchQuery(query) {
      assert b == SearchTool && SystemFor(b) == SearchSystem;
      assert Turn(query, st, lines, sig, env) == TurnOutcome(ChatBranch(b, query, sig, env), lines, st, None);
    }
  }

  /** The record changes only in the close and document branches, never
      becomes inconsistent, and a document branch whose read fails leaves
      it as it was. */
  lemma StateChanges(query: string, st: Snapshot, lines: seq<string>, sig: Signature, env: Services)
    requires Consistent(st)
    ensures var t := Turn(query, st, lines, sig, env);
      && Consistent(t.state)
      && (t.state != st ==> Route(query, st.isActive) in {CloseDocument, DocumentWorkflow})
      && ((Route(query, st.isActive) == DocumentWorkflow && lines != []
           && ReadDocument(PathFrom(lines[0]), env).Failure?) ==> t.state == st)
  {
    if Route(query, st.isActive) == DocumentWorkflow {
      DocumentDialogFacts(lines, env);
    }
  }

  /** Only the email branch sends, and only to a non-empty list of valid
      addresses; every branch leaves a suffix of the input. */
  lemma SendsAndInput(query: string, st: Snapshot, lines: seq<string>, sig: Signature, env: Services)
    requires Consistent(st)
    ensures var t := Turn(query, st, lines, sig, env);
      && Consumed(t.rest, lines)
      && (t.sent.Some? ==>
            && Route(query, st.isActive) == EmailWorkflow
            && t.sent.value.recipients != []
            && forall r :: r in t.sent.value.recipients ==> Addresses.IsValidAddress(r))
  {
    assert lines[|lines| - |lines|..] == lines;
    match Route(query, st.isActive)
    case DocumentWorkflow =>
      DocumentDialogFacts(lines, env);
      if lines != [] { assert lines[1..] == lines[|lines| - |lines[1..]|..]; }
    case EmailWorkflow => EmailDialogFacts(query, lines, sig, env);
    case _ =>
  }

  /** `get_assistant_response` as the program runs it, on the global record. */
  method GetAssistantResponse(session: DocumentSession, query: string, lines: seq<string>, env: Services)
    returns (reply: string, rest: seq<string>, sent: Option<Outgoing>)
    requires session.Valid()
    modifies session
    ensures session.Valid()
    ensures TurnOutcome(reply, rest, session.State(), sent)
         == Turn(query, old(session.State()), lines, CurrentSignature, env)
  {
    ghost var st := session.State();
    var b := Route(query, session.isActive);
    rest, sent := lines, None;
    if IsCloseDocumentQuery(query) {
      CloseTurn(query, st, lines, CurrentSignature, env);
      if session.isActive {
        var filename := session.Close();
        reply := ClosedReply(filename.value);
      } else {
        reply := NoDocument;
      }
      return;
    }
    if session.isActive && !IsDocumentQuery(query) && !IsEmailQuery(query)
       && !IsWeatherQuery(query) && !IsSearchQuery(query) {
      FollowUpTurn(query, st, lines, CurrentSignature, env);
      reply := ChatWithDocument(query, session.content.value, session.filename.value, env);
      return;
    }
    if IsDocumentQuery(query) {
      assert b == DocumentWorkflow;
      reply, rest := HandleDocumentWorkflow(session, lines, env);
      DocumentDialogFacts(lines, env);
      WritesAreConsistent("", "", "");
      return;
    }
    if IsEmailQuery(query) {
      assert b == EmailWorkflow;
      reply, rest, sent := HandleEmailWorkflow(query, lines, CurrentSignature, env);
      return;
    }
    assert IsChatBranch(b);
    assert Turn(query, st, lines, CurrentSignature, env) == TurnOutcome(ChatBranch(b, query, CurrentSignature, env), lines, st, None);
    reply := AnswerInChat(b, query, CurrentSignature, env);
  }
}
