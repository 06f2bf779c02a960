/** `handle_email_workflow`: ask for a recipient name until one is given,
    draft the email, ask yes/no until one of the four answers is given, ask
    for addresses until at least one is valid, and send.  The user's input
    is the sequence `lines`; running out of it is the `EOFError` the
    workflow's own handler turns into its error reply.  Each prompt's retry
    loop is a stage defined by recursion on the remaining input. */
module EmailWorkflow {
  import opened Wrappers
  import opened Text
  import opened Services
  import opened Addresses
  import opened Drafting

  /** The message handed to the SMTP transport. */
  datatype Outgoing = Outgoing(subject: string, body: string, recipients: seq<string>)

  /** The reply, the input lines left, and what was sent, if anything. */
  datatype EmailOutcome = EmailOutcome(reply: string, rest: seq<string>, sent: Option<Outgoing>)

  const EmailEof := EmailError + EofMessage
  const NotSent := "Email draft saved. Not sent."
  /** The prefix the workflow's handler puts before an exception's text. */
  const EmailError := "Error in email workflow: "
  const Eof := EmailOutcome(EmailEof, [], None)

  /** The name prompt accepts a line that is not blank. */
  predicate HasName(line: string) { Strip(line) != "" }

  /** `input(...).strip().lower()` */
  function Answer(line: string): string { Lower(Strip(line)) }

  predicate Declines(line: string) { Answer(line) in {"no", "n"} }
  predicate Accepts(line: string) { Answer(line) in {"yes", "y"} }

  /** `send_email`'s message, from the transport's outcome. */
  function SendReply(recipients: seq<string>, d: Delivery): string
  {
    match d
    case Delivered => "Email sent successfully to " + NatToString(|recipients|) + " recipient(s): " + Join(recipients, ", ")
    case Refused(e) => "Failed to send email: " + e
  }

  /** The transport's replies differ from the other endings. */
  lemma SendReplyDistinct(recipients: seq<string>, d: Delivery)
    ensures SendReply(recipients, d) != NotSent && SendReply(recipients, d) != EmailEof
  {
    match d
    case Delivered =>
      var head := "Email sent successfully to ";
      var s := head + NatToString(|recipients|) + " recipient(s): " + Join(recipients, ", ");
      assert s[6] == head[6] == 's' && s[1] == head[1] == 'm';
      var notSent := "Email draft saved. Not sent.";
      var err := "Error in email workflow: ";
      assert notSent[6] == 'd' && (err + EofMessage)[1] == err[1] == 'r';
    case Refused(e) =>
      var s := "Failed to send email: " + e;
      var notSent := "Email draft saved. Not sent.";
      var err := "Error in email workflow: ";
      assert s[0] == 'F' && notSent[0] == 'E' && (err + EofMessage)[0] == err[0] == 'E';
  }

  /** One run of the workflow on the given input: the name prompt. */
  function EmailDialog(query: string, lines: seq<string>, sig: Signature, env: Services): EmailOutcome
    decreases |lines|
  {
    if lines == [] then Eof
    else if !HasName(lines[0]) then EmailDialog(query, lines[1..], sig, env)
    else AfterName(query, Strip(lines[0]), lines[1..], sig, env)
  }

  /** The workflow once the recipient's name is known: the draft is made
      with the professional tone. */
  function AfterName(query: string, name: string, lines: seq<string>, sig: Signature, env: Services): EmailOutcome
  {
    AfterDraft(Drafted(query, name, "professional", sig, env), lines, env)
  }

  /** A failed draft ends the workflow; otherwise the confirmation prompt. */
  function AfterDraft(draft: Draft, lines: seq<string>, env: Services): EmailOutcome
  {
    if !draft.success then EmailOutcome("Failed to generate email: " + draft.body, lines, None)
    else Confirm(draft, lines, env)
  }

  /** The confirmation prompt: no/n stops, yes/y goes on, anything else is
      asked again. */
  function Confirm(draft: Draft, lines: seq<string>, env: Services): EmailOutcome
    decreases |lines|
  {
    if lines == [] then Eof
    else if Declines(lines[0]) then EmailOutcome(NotSent, lines[1..], None)
    else if Accepts(lines[0]) then Collect(draft, lines[1..], env)
    else Confirm(draft, lines[1..], env)
  }

  /** The address prompt: a blank line or one without a valid address is
      asked again; otherwise the valid addresses are sent to. */
  function Collect(draft: Draft, lines: seq<string>, env: Services): EmailOutcome
    decreases |lines|
  {
    if lines == [] then Eof
    else
      var input := Strip(lines[0]);
      if input == "" then Collect(draft, lines[1..], env)
      else
        var recipients := ValidRecipients(input);
        if recipients == [] then Collect(draft, lines[1..], env)
        else EmailOutcome(SendReply(recipients, env.smtp(draft.subject, draft.body, recipients)),
                          lines[1..], Some(Outgoing(draft.subject, draft.body, recipients)))
  }

  /** `rest` is what the workflow left of `lines`. */
  predicate Consumed(rest: seq<string>, lines: seq<string>)
  {
    |rest| <= |lines| && rest == lines[|lines| - |rest|..]
  }

  lemma ConsumedStep(rest: seq<string>, lines: seq<string>)
    requires lines != [] && Consumed(rest, lines[1..])
    ensures Consumed(rest, lines)
  {
    assert lines[1..][|lines| - 1 - |rest|..] == lines[|lines| - |rest|..];
  }

  /** What the address stage does: it sends exactly when some line had a
      valid address, to a non-empty list of valid addresses taken from one
      line, with the draft's subject and body, and its reply is the
      transport's. */
  lemma {:induction false} CollectFacts(draft: Draft, lines: seq<string>, env: Services)
    ensures var o := Collect(draft, lines, env);
      && Consumed(o.rest, lines)
      && o.reply != NotSent
      && (o.sent.None? ==> o == Eof)
      && (o.sent.Some? ==>
            && o.sent.value.subject == draft.subject && o.sent.value.body == draft.body
            && o.sent.value.recipients != []
            && (forall r :: r in o.sent.value.recipients ==> IsValidAddress(r))
            && (exists k :: 0 <= k < |lines| && o.sent.value.recipients == ValidRecipients(Strip(lines[k])))
            && o.reply == SendReply(o.sent.value.recipients, env.smtp(draft.subject, draft.body, o.sent.value.recipients)))
    decreases |lines|
  {
    if lines != [] {
      var input := Strip(lines[0]);
      if input == "" || ValidRecipients(input) == [] {
        CollectFacts(draft, lines[1..], env);
        ConsumedStep(Collect(draft, lines[1..], env).rest, lines);
        var o := Collect(draft, lines[1..], env);
        if o.sent.Some? {
          var k :| 0 <= k < |lines[1..]| && o.sent.value.recipients == ValidRecipients(Strip(lines[1..][k]));
          assert lines[1..][k] == lines[k + 1];
        }
      } else {
        var recipients := ValidRecipients(input);
        ValidOnlyMembers(StripAll(Split(input, ',')));
        SendReplyDistinct(recipients, env.smtp(draft.subject, draft.body, recipients));
      }
    }
  }

  /** What the confirmation stage does: a decline answers "not sent" and
      sends nothing; anything sent comes from the address stage after a
      yes/y line. */
  lemma {:induction false} ConfirmFacts(draft: Draft, lines: seq<string>, env: Services)
    ensures var o := Confirm(draft, lines, env);
      && Consumed(o.rest, lines)
      && (o.reply == NotSent ==> o.sent.None?)
      && (o.sent.Some? ==>
            exists j :: 0 <= j < |lines| && Accepts(lines[j])
              && (forall k :: 0 <= k < j ==> !Declines(lines[k]))
              && o == Collect(draft, lines[j + 1..], env))
    decreases |lines|
  {
    if lines != [] {
      if Declines(lines[0]) {
      } else if Accepts(lines[0]) {
        CollectFacts(draft, lines[1..], env);
        ConsumedStep(Collect(draft, lines[1..], env).rest, lines);
        var o := Collect(draft, lines[1..], env);
        if o.sent.Some? {
          assert Accepts(lines[0]) && o == Collect(draft, lines[0 + 1..], env);
        }
      } else {
        ConfirmFacts(draft, lines[1..], env);
        ConsumedStep(Confirm(draft, lines[1..], env).rest, lines);
        var o := Confirm(draft, lines[1..], env);
        if o.sent.Some? {
          var j :| 0 <= j < |lines[1..]| && Accepts(lines[1..][j])
              && (forall k :: 0 <= k < j ==> !Declines(lines[1..][k]))
              && o == Collect(draft, lines[1..][j + 1..], env);
          assert lines[1..][j + 1..] == lines[j + 2..];
          assert lines[1..][j] == lines[j + 1];
          forall k | 0 <= k < j + 1 ensures !Declines(lines[k]) {
            if k > 0 { assert lines[k] == lines[1..][k - 1]; }
          }
        }
      }
    }
  }

  /** The first recognised no/n, before any yes/y, answers "not sent",
      sends nothing and leaves the input after that line. */
  lemma {:induction false} DeclineStops(draft: Draft, lines: seq<string>, env: Services, j: nat)
    requires j < |lines| && Declines(lines[j])
    requires forall k :: 0 <= k < j ==> !Declines(lines[k]) && !Accepts(lines[k])
    ensures Confirm(draft, lines, env) == EmailOutcome(NotSent, lines[j + 1..], None)
    decreases j
  {
    if j > 0 {
      assert forall k :: 0 <= k < j - 1 ==> lines[1..][k] == lines[k + 1];
      DeclineStops(draft, lines[1..], env, j - 1);
      assert lines[1..][j..] == lines[j + 1..];
    }
  }

  /** The first recognised yes/y, before any no/n, goes on to the address
      prompt from the next line. */
  lemma {:induction false} AcceptGoesOn(draft: Draft, lines: seq<string>, env: Services, j: nat)
    requires j < |lines| && Accepts(lines[j])
    requires forall k :: 0 <= k < j ==> !Declines(lines[k]) && !Accepts(lines[k])
    ensures Confirm(draft, lines, env) == Collect(draft, lines[j + 1..], env)
    decreases j
  {
    if j > 0 {
      assert forall k :: 0 <= k < j - 1 ==> lines[1..][k] == lines[k + 1];
      AcceptGoesOn(draft, lines[1..], env, j - 1);
      assert lines[1..][j..] == lines[j + 1..];
    }
  }

  /** The first line holding a valid address ends the address prompt: its
      valid addresses, and only they, are sent the drafted email, and the
      input after that line is left. */
  lemma {:induction false} CollectSends(draft: Draft, lines: seq<string>, env: Services, j: nat)
    requires j < |lines| && ValidRecipients(Strip(lines[j])) != []
    requires forall k :: 0 <= k < j ==> ValidRecipients(Strip(lines[k])) == []
    ensures var r := ValidRecipients(Strip(lines[j]));
      Collect(draft, lines, env)
        == EmailOutcome(SendReply(r, env.smtp(draft.subject, draft.body, r)), lines[j + 1..],
                        Some(Outgoing(draft.subject, draft.body, r)))
    decreases j
  {
    var r := ValidRecipients(Strip(lines[j]));
    var sending := EmailOutcome(SendReply(r, env.smtp(draft.subject, draft.body, r)), lines[j + 1..],
                                Some(Outgoing(draft.subject, draft.body, r)));
    if j > 0 {
      var tail := lines[1..];
      assert Collect(draft, lines, env) == Collect(draft, tail, env) by {
        CollectSkips(draft, lines, env);
      }
      assert Collect(draft, tail, env) == sending by {
        forall k | 0 <= k < j - 1 ensures ValidRecipients(Strip(tail[k])) == [] {
          assert tail[k] == lines[k + 1];
        }
        assert tail[j - 1] == lines[j];
        assert tail[j - 1 + 1..] == lines[j + 1..];
        CollectSends(draft, tail, env, j - 1);
      }
    } else {
      CollectTakes(draft, lines, env);
    }
  }

  /** A line with a valid address is sent to. */
  lemma CollectTakes(draft: Draft, lines: seq<string>, env: Services)
    requires lines != [] && ValidRecipients(Strip(lines[0])) != []
    ensures var r := ValidRecipients(Strip(lines[0]));
      Collect(draft, lines, env)
        == EmailOutcome(SendReply(r, env.smtp(draft.subject, draft.body, r)), lines[1..],
                        Some(Outgoing(draft.subject, draft.body, r)))
  {
    BlankHasNoRecipients();
  }

  /** A line without a valid address is asked again. */
  lemma CollectSkips(draft: Draft, lines: seq<string>, env: Services)
    requires lines != [] && ValidRecipients(Strip(lines[0])) == []
    ensures Collect(draft, lines, env) == Collect(draft, lines[1..], env)
  {
  }

  /** The first line with a non-blank name starts the draft, under that
      trimmed name, and the dialog goes on from the next line. */
  lemma {:induction false} NameGoesOn(query: string, lines: seq<string>, sig: Signature, env: Services, i: nat)
    requires i < |lines| && HasName(lines[i])
    requires forall k :: 0 <= k < i ==> !HasName(lines[k])
    ensures EmailDialog(query, lines, sig, env) == AfterName(query, Strip(lines[i]), lines[i + 1..], sig, env)
    decreases i
  {
    if i > 0 {
      var tail := lines[1..];
      assert EmailDialog(query, lines, sig, env) == EmailDialog(query, tail, sig, env);
      assert EmailDialog(query, tail, sig, env) == AfterName(query, Strip(lines[i]), lines[i + 1..], sig, env) by {
        forall k | 0 <= k < i - 1 ensures !HasName(tail[k]) {
          assert tail[k] == lines[k + 1];
        }
        assert tail[i - 1] == lines[i];
        assert tail[i - 1 + 1..] == lines[i + 1..];
        NameGoesOn(query, tail, sig, env, i - 1);
      }
    }
  }


  /** A failed draft is reported with its error text and nothing more is
      read; a successful one goes to the confirmation prompt. */
  lemma AfterDraftFacts(draft: Draft, lines: seq<string>, env: Services)
    ensures !draft.success ==>
      AfterDraft(draft, lines, env) == EmailOutcome("Failed to generate email: " + draft.body, lines, None)
    ensures draft.success ==> AfterDraft(draft, lines, env) == Confirm(draft, lines, env)
    ensures var o := AfterDraft(draft, lines, env);
      && Consumed(o.rest, lines)
      && (o.sent.Some? ==> draft.success && o.sent.value.subject == draft.subject && o.sent.value.body == draft.body
                           && o.sent.value.recipients != []
                           && forall r :: r in o.sent.value.recipients ==> IsValidAddress(r))
  {
    if draft.success {
      ConfirmFacts(draft, lines, env);
      var o := Confirm(draft, lines, env);
      if o.sent.Some? {
        var j :| 0 <= j < |lines| && Accepts(lines[j]) && o == Collect(draft, lines[j + 1..], env);
        CollectFacts(draft, lines[j + 1..], env);
      }
    } else {
      assert lines[|lines| - |lines|..] == lines;
    }
  }

  /** Over the whole workflow: an email is sent only with a successfully
      generated draft, a non-empty list of valid addresses, and after a
      non-blank name line; the input is consumed from the front. */
  lemma {:induction false} EmailDialogFacts(query: string, lines: seq<string>, sig: Signature, env: Services)
    ensures var o := EmailDialog(query, lines, sig, env);
      && Consumed(o.rest, lines)
      && (o.sent.Some? ==>
            && o.sent.value.recipients != []
            && (forall r :: r in o.sent.value.recipients ==> IsValidAddress(r))
            && exists i :: 0 <= i < |lines| && HasName(lines[i])
                 && (forall k :: 0 <= k < i ==> !HasName(lines[k]))
                 && o == AfterName(query, Strip(lines[i]), lines[i + 1..], sig, env)
                 && Drafted(query, Strip(lines[i]), "professional", sig, env).success)
    decreases |lines|
  {
    if lines != [] {
      var o := EmailDialog(query, lines, sig, env);
      if HasName(lines[0]) {
        assert o == AfterName(query, Strip(lines[0]), lines[1..], sig, env);
        AfterDraftFacts(Drafted(query, Strip(lines[0]), "professional", sig, env), lines[1..], env);
        ConsumedStep(o.rest, lines);
        if o.sent.Some? {
          assert lines[0 + 1..] == lines[1..];
        }
      } else {
        assert o == EmailDialog(query, lines[1..], sig, env);
        EmailDialogFacts(query, lines[1..], sig, env);
        ConsumedStep(o.rest, lines);
        if o.sent.Some? {
          var i :| 0 <= i < |lines[1..]| && HasName(lines[1..][i])
                 && (forall k :: 0 <= k < i ==> !HasName(lines[1..][k]))
                 && o == AfterName(query, Strip(lines[1..][i]), lines[1..][i + 1..], sig, env)
                 && Drafted(query, Strip(lines[1..][i]), "professional", sig, env).success;
          assert lines[1..][i + 1..] == lines[i + 2..];
          assert lines[1..][i] == lines[i + 1];
          forall k | 0 <= k < i + 1 ensures !HasName(lines[k]) {
            if k > 0 { assert lines[k] == lines[1..][k - 1]; }
          }
        }
      }
    }
  }

  /** The workflow as the program runs it: the name loop, then the draft
      and the later prompts. */
  method HandleEmailWorkflow(query: string, lines: seq<string>, sig: Signature, env: Services)
    returns (reply: string, rest: seq<string>, sent: Option<Outgoing>)
    ensures EmailOutcome(reply, rest, sent) == EmailDialog(query, lines, sig, env)
  {
    var pos := 0;
    var name: string;
    while true
      invariant 0 <= pos <= |lines|
      invariant EmailDialog(query, lines[pos..], sig, env) == EmailDialog(query, lines, sig, env)
      decreases |lines| - pos
    {
      if pos == |lines| {
        return EmailEof, [], None;
      }
      assert lines[pos..][1..] == lines[pos + 1..];
      name := Strip(lines[pos]);
      pos := pos + 1;
      if name != "" {
        break;
      }
    }
    reply, rest, sent := DraftAndConfirm(query, name, lines[pos..], sig, env);
  }

  /** Draft the email for the named recipient, then confirm and send. */
  method DraftAndConfirm(query: string, name: string, lines: seq<string>, sig: Signature, env: Services)
    returns (reply: string, rest: seq<string>, sent: Option<Outgoing>)
    ensures EmailOutcome(reply, rest, sent) == AfterName(query, name, lines, sig, env)
  {
    var draft := GenerateEmail(query, name, "professional", sig, env);
    if !draft.success {
      return "Failed to generate email: " + draft.body, lines, None;
    }
    reply, rest, sent := ConfirmAndSend(draft, lines, env);
  }

  /** Ask until the answer is one of yes, y, no, n. */
  method ConfirmAndSend(draft: Draft, lines: seq<string>, env: Services)
    returns (reply: string, rest: seq<string>, sent: Option<Outgoing>)
    ensures EmailOutcome(reply, rest, sent) == Confirm(draft, lines, env)
  {
    var pos := 0;
    while true
      invariant 0 <= pos <= |lines|
      invariant Confirm(draft, lines[pos..], env) == Confirm(draft, lines, env)
      decreases |lines| - pos
    {
      if pos == |lines| {
        return EmailEof, [], None;
      }
      assert lines[pos..][1..] == lines[pos + 1..];
      var choice := Answer(lines[pos]);
      pos := pos + 1;
      if choice in {"no", "n"} {
        return NotSent, lines[pos..], None;
      } else if choice in {"yes", "y"} {
        break;
      }
    }
    reply, rest, sent := CollectAndSend(draft, lines[pos..], env);
  }

  /** Ask until some address is valid, then send to exactly the valid ones. */
  method CollectAndSend(draft: Draft, lines: seq<string>, env: Services)
    returns (reply: string, rest: seq<string>, sent: Option<Outgoing>)
    ensures EmailOutcome(reply, rest, sent) == Collect(draft, lines, env)
  {
    var pos := 0;
    var recipients: seq<string>;
    while true
      invariant 0 <= pos <= |lines|
      invariant Collect(draft, lines[pos..], env) == Collect(draft, lines, env)
      decreases |lines| - pos
    {
      if pos == |lines| {
        return EmailEof, [], None;
      }
      assert lines[pos..][1..] == lines[pos + 1..];
      var input := Strip(lines[pos]);
      pos := pos + 1;
      if input == "" {
        continue;
      }
      var valid := CollectValid(StripAll(Split(input, ',')));
      if valid != [] {
        recipients := valid;
        break;
      }
    }
    var delivery := env.smtp(draft.subject, draft.body, recipients);
    reply := SendReply(recipients, delivery);
    rest := lines[pos..];
    sent := Some(Outgoing(draft.subject, draft.body, recipients));
  }
}
