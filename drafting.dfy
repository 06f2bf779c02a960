/** `generate_email`: the request sent to the model, and the deterministic
    post-processing of its reply: the ```` ```json ```` fence, the JSON
    fields with their defaults, the fallback split on a `subject:` line
    and the "append the signature if the sender's name is absent" rule.
    The two program versions differ only in the sender's name and phone,
    so those are a `Signature` parameter. */
module Drafting {
  import opened Wrappers
  import opened Text
  import opened Services

  /** The sender named in the prompt and in the appended signature block. */
  datatype Signature = Signature(name: string, phone: string)

  /** The sender of the earlier program version. */
  const EarlierSignature := Signature("Aritra Basak", "9836610724")
  /** The placeholder sender of the current program version. */
  const CurrentSignature := Signature("Your_Name", "Your_Phone_Number")

  /** The result record: subject, body and the success flag. */
  datatype Draft = Draft(subject: string, body: string, success: bool)

  // ---------- the signature rule ----------

  const Closing := "\n\nBest regards,\n"

  function SignatureBlock(sig: Signature): string
  {
    Closing + sig.name + "\nMobile: (+91) " + sig.phone
  }

  /** The body with the signature block appended when the sender's name
      does not occur in it. */
  function EnsureSignature(body: string, sig: Signature): string
  {
    if Contains(body, sig.name) then body else body + SignatureBlock(sig)
  }

  /** After the rule the name always occurs; the block is appended exactly
      when the name was absent; applying the rule twice changes nothing. */
  lemma SignatureRule(body: string, sig: Signature)
    ensures Contains(EnsureSignature(body, sig), sig.name)
    ensures Contains(body, sig.name) ==> EnsureSignature(body, sig) == body
    ensures !Contains(body, sig.name) ==> EnsureSignature(body, sig) == body + SignatureBlock(sig)
    ensures EnsureSignature(EnsureSignature(body, sig), sig) == EnsureSignature(body, sig)
  {
    var block := SignatureBlock(sig);
    assert block[|Closing|..|Closing| + |sig.name|] == sig.name;
    ContainsWithin(block, sig.name, |Closing|);
    ContainsConcat(body, block, sig.name);
  }

  // ---------- the fence ----------

  const JsonFence := "```json"
  const Fence := "```"

  /** Remove every ```` ```json ```` and then every ```` ``` ````, and strip,
      when the reply starts with ```` ```json ````; otherwise leave it. */
  function StripFence(s: string): string
  {
    if StartsWith(s, JsonFence) then Strip(ReplaceAll(ReplaceAll(s, JsonFence, ""), Fence, "")) else s
  }

  /** Number of leading backticks. */
  function Ticks(s: string): nat
    decreases |s|
  {
    if |s| > 0 && s[0] == '`' then 1 + Ticks(s[1..]) else 0
  }

  lemma {:induction false} TicksAtMostLength(s: string)
    ensures Ticks(s) <= |s|
    decreases |s|
  {
    if |s| > 0 { TicksAtMostLength(s[1..]); }
  }

  /** Three backticks start at `i`. */
  predicate TripleAt(s: string, i: nat)
  {
    i + 3 <= |s| && s[i] == '`' && s[i + 1] == '`' && s[i + 2] == '`'
  }

  /** No three backticks in a row. */
  ghost predicate NoFence(s: string)
  {
    forall i: nat :: !TripleAt(s, i)
  }

  /** Removing every ```` ``` ```` leaves no ```` ``` ````: each run of `n`
      backticks shrinks to `n % 3` of them, and runs stay apart. */
  lemma {:induction false} RemoveFence(s: string)
    ensures Ticks(ReplaceAll(s, Fence, "")) == Ticks(s) % 3
    ensures NoFence(ReplaceAll(s, Fence, ""))
    decreases |s|
  {
    var r := ReplaceAll(s, Fence, "");
    if |s| < 3 {
      assert r == s;
      TicksAtMostLength(s);
    } else if s[..3] == Fence {
      RemoveFence(s[3..]);
      assert r == ReplaceAll(s[3..], Fence, "");
      assert s[0] == '`' && s[1] == '`' && s[2] == '`' by { assert s[..3][0] == s[0] && s[..3][1] == s[1] && s[..3][2] == s[2]; }
      assert s[1..][1..] == s[2..];
      assert s[2..][1..] == s[3..];
      assert Ticks(s) == 1 + Ticks(s[1..]);
      assert s[1..][0] == '`';
      assert Ticks(s[1..]) == 1 + Ticks(s[2..]);
      assert s[2..][0] == '`';
      assert Ticks(s[2..]) == 1 + Ticks(s[3..]);
    } else {
      var rest := s[1..];
      RemoveFence(rest);
      var rr := ReplaceAll(rest, Fence, "");
      assert r == [s[0]] + rr;
      if s[0] == '`' {
        assert s[..3] == [s[0], s[1], s[2]];
        if rest[0] == '`' {
          assert s[2] != '`';
          assert rest[1..][0] == s[2];
          assert Ticks(rest) == 1 + Ticks(rest[1..]);
        }
        assert Ticks(rr) <= 1;
        assert Ticks(r) == 1 + Ticks(rr) by { assert r[1..] == rr; }
        if |rr| >= 2 && rr[0] == '`' {
          assert Ticks(rr) == 1 + Ticks(rr[1..]);
          assert rr[1..][0] == rr[1];
        }
      } else {
        assert Ticks(r) == 0;
      }
      forall i: nat ensures !TripleAt(r, i) {
        if i > 0 && i + 3 <= |r| {
          assert r[i] == rr[i - 1] && r[i + 1] == rr[i] && r[i + 2] == rr[i + 1];
          assert !TripleAt(rr, i - 1);
        }
      }
    }
  }

  /** Stripping keeps a string free of ```` ``` ````. */
  lemma StripKeepsNoFence(s: string)
    requires NoFence(s)
    ensures NoFence(Strip(s))
  {
    var r := Strip(s);
    var lead := LeadingCount(s, Whitespace);
    forall i: nat ensures !TripleAt(r, i) {
      if i + 3 <= |r| {
        assert r[i] == s[lead + i] && r[i + 1] == s[lead + i + 1] && r[i + 2] == s[lead + i + 2];
        assert !TripleAt(s, lead + i);
      }
    }
  }

  /** A string free of three backticks in a row does not contain the fence. */
  lemma {:induction false} NoFenceNotContained(s: string)
    requires NoFence(s)
    ensures !Contains(s, Fence)
    decreases |s|
  {
    if |s| >= 3 {
      assert !TripleAt(s, 0);
      assert s[..3] != Fence;
      forall i: nat ensures !TripleAt(s[1..], i) {
        assert !TripleAt(s, i + 1);
      }
      NoFenceNotContained(s[1..]);
    }
  }

  /** Where the json fence occurs, the plain fence occurs. */
  lemma JsonFenceHasFence(s: string)
    ensures Contains(s, JsonFence) ==> Contains(s, Fence)
  {
    if Contains(s, JsonFence) {
      var i: nat :| OccursAt(s, JsonFence, i);
      assert s[i..i + 3] == s[i..i + 7][..3];
      ContainsWithin(s, Fence, i);
    }
  }

  /** A fenced reply loses every fence and comes back stripped; any other
      reply is left exactly as it was. */
  lemma FenceStripping(s: string)
    ensures StartsWith(s, JsonFence) ==>
      !Contains(StripFence(s), Fence) && !Contains(StripFence(s), JsonFence)
      && Strip(StripFence(s)) == StripFence(s)
    ensures !StartsWith(s, JsonFence) ==> StripFence(s) == s
  {
    if StartsWith(s, JsonFence) {
      var r := ReplaceAll(ReplaceAll(s, JsonFence, ""), Fence, "");
      RemoveFence(ReplaceAll(s, JsonFence, ""));
      StripKeepsNoFence(r);
      NoFenceNotContained(Strip(r));
      JsonFenceHasFence(Strip(r));
      StripCharsIdempotent(r, Whitespace);
    }
  }

  /** A pattern starting with a backtick occurs nowhere inside a text
      without backticks, whatever follows that text. */
  lemma NoTickNoOccurrence(b: string, tail: string, pat: string)
    requires '`' !in b && |pat| > 0 && pat[0] == '`'
    ensures forall i: nat :: i < |b| ==> !OccursAt(b + tail, pat, i)
  {
    forall i: nat | i < |b| ensures !OccursAt(b + tail, pat, i) {
      if i + |pat| <= |b + tail| {
        assert (b + tail)[i..i + |pat|][0] == b[i];
      }
    }
  }

  /** A reply made of the json fence, a text with no backtick and a closing
      fence comes back as that text, stripped: only the fences go. */
  lemma FencedReply(b: string)
    requires '`' !in b
    ensures StartsWith(JsonFence + b + Fence, JsonFence)
    ensures StripFence(JsonFence + b + Fence) == Strip(b)
  {
    var s := JsonFence + b + Fence;
    var t := b + Fence;
    assert s[..|JsonFence|] == JsonFence;
    assert ReplaceAll(s, JsonFence, "") == ReplaceAll(t, JsonFence, "") by {
      assert s == "" + JsonFence + t;
      ReplaceAllSplit("", JsonFence, t, "");
    }
    assert ReplaceAll(t, JsonFence, "") == t by {
      assert JsonFence[0] == '`';
      NoTickNoOccurrence(b, Fence, JsonFence);
      assert forall i: nat :: i >= |b| ==> !OccursAt(t, JsonFence, i);
      ReplaceAbsent(t, JsonFence, "");
    }
    assert ReplaceAll(t, Fence, "") == b by {
      assert Fence[0] == '`';
      NoTickNoOccurrence(b, Fence + "", Fence);
      assert b + (Fence + "") == b + Fence + "" == t;
      ReplaceAllSplit(b, Fence, "", "");
      assert b + "" + ReplaceAll("", Fence, "") == b;
    }
  }

  // ---------- the fallback split ----------

  /** `line.lower().startswith('subject:')` */
  predicate IsSubjectLine(line: string)
  {
    StartsWith(Lower(line), "subject:")
  }

  /** The trimmed text after the colon of a subject line. */
  function SubjectOf(line: string): string
    requires IsSubjectLine(line)
  {
    Strip(line[8..])
  }

  /** The colon of a subject line is its first one, so `SubjectOf` is
      `line.split(':', 1)[1].strip()`. */
  lemma SubjectOfFirstColon(line: string)
    requires IsSubjectLine(line)
    ensures IndexOf(line, ':') == Some(7)
    ensures SubjectOf(line) == Strip(line[IndexOf(line, ':').value + 1..])
  {
    var low := Lower(line);
    assert forall k :: 0 <= k < 8 ==> low[k] == "subject:"[k] by {
      forall k | 0 <= k < 8 ensures low[k] == "subject:"[k] { assert low[..8][k] == low[k]; }
    }
    forall k | 0 <= k < 7 ensures line[k] != ':' {
      assert LowerChar(line[k]) == "subject:"[k];
    }
    assert LowerChar(line[7]) == ':';
    assert line[7] == ':';
  }

  /** The subject and body a non-JSON reply yields: the first subject
      line supplies the subject and is removed from the body; without one
      the subject is "Generated Email" and the body the whole reply. */
  function FallbackSplit(content: string): (string, string)
  {
    var lines := Split(Strip(content), '\n');
    match FirstWhere(lines, IsSubjectLine)
    case None => ("Generated Email", content)
    case Some(i) => (SubjectOf(lines[i]), Join(lines[..i] + lines[i + 1..], "\n"))
  }

  /** The `for i, line in enumerate(lines)` loop with its `break`. */
  method SplitSubjectLine(content: string) returns (subject: string, body: string)
    ensures (subject, body) == FallbackSplit(content)
  {
    var lines := Split(Strip(content), '\n');
    subject := "Generated Email";
    body := content;
    for i := 0 to |lines|
      invariant forall k :: 0 <= k < i ==> !IsSubjectLine(lines[k])
    {
      if IsSubjectLine(lines[i]) {
        subject := SubjectOf(lines[i]);
        body := Join(lines[..i] + lines[i + 1..], "\n");
        return;
      }
    }
  }

  /** Without a subject line the reply is kept whole.  With one, the
      subject is the first such line's text, no earlier line is a subject
      line, the lines before and after it are the body's lines in order,
      and putting it back between them rebuilds the trimmed reply. */
  lemma FallbackSplitFacts(content: string)
    ensures var lines := Split(Strip(content), '\n');
      match FirstWhere(lines, IsSubjectLine)
      case None => FallbackSplit(content) == ("Generated Email", content)
      case Some(i) =>
        && IsSubjectLine(lines[i])
        && (forall k :: 0 <= k < i ==> !IsSubjectLine(lines[k]))
        && FallbackSplit(content).0 == SubjectOf(lines[i])
        && (|lines| >= 2 ==> Split(FallbackSplit(content).1, '\n') == lines[..i] + lines[i + 1..])
        && Join(lines[..i] + [lines[i]] + lines[i + 1..], "\n") == Strip(content)
  {
    var lines := Split(Strip(content), '\n');
    match FirstWhere(lines, IsSubjectLine)
    case None =>
    case Some(i) =>
      if |lines| >= 2 {
        SplitWithoutLine(lines, i);
      }
      RejoinAround(Strip(content), i);
  }

  /** Putting a line back between the lines before and after it rebuilds
      the text they were split from. */
  lemma RejoinAround(s: string, i: nat)
    requires i < |Split(s, '\n')|
    ensures var lines := Split(s, '\n');
      Join(lines[..i] + [lines[i]] + lines[i + 1..], "\n") == s
  {
    var lines := Split(s, '\n');
    assert lines[..i] + [lines[i]] + lines[i + 1..] == lines;
    JoinSplit(s, '\n');
  }

  /** Dropping one of at least two newline-free lines and joining the rest
      with newlines gives text whose lines are exactly the rest. */
  lemma SplitWithoutLine(lines: seq<string>, i: nat)
    requires i < |lines| && |lines| >= 2
    requires forall k :: 0 <= k < |lines| ==> '\n' !in lines[k]
    ensures Split(Join(lines[..i] + lines[i + 1..], "\n"), '\n') == lines[..i] + lines[i + 1..]
  {
    var others := lines[..i] + lines[i + 1..];
    forall k | 0 <= k < |others| ensures '\n' !in others[k] {
      if k < i { assert others[k] == lines[k]; } else { assert others[k] == lines[k + 1]; }
    }
    SplitJoin(others, '\n');
  }

  // ---------- the request and the reply ----------

  function GreetingName(recipientName: string): string
  {
    if recipientName != "" then recipientName else "[Recipient Name]"
  }

  const PromptIntro :=
    "You are an expert email writer. Generate a well-structured email based on the given topic.\n"
    + "        \n"
    + "        Guidelines:\n"
    + "        - Use a "
  const PromptSender :=
    " tone\n"
    + "        - Create a clear and concise subject line (don't include \"Subject:\" prefix)\n"
    + "        - Structure the email with proper greeting using recipient's name, body, and professional closing\n"
    + "        - The sender is "
  const PromptStructure :=
    "\n"
    + "        - Include proper email signature at the end\n"
    + "        - Make it concise but comprehensive\n"
    + "        - Return ONLY a JSON object with 'subject' and 'body' keys\n"
    + "        - Do not include any markdown formatting or extra text outside the JSON\n"
    + "        \n"
    + "        Email Structure:\n"
    + "        - Greeting: Dear "
  const PromptClosing :=
    ",\n"
    + "        - Body: Well-structured content about the topic\n"
    + "        - Closing: Best regards, / Sincerely,\n"
    + "        - Signature: "
  const PromptEnd := " with contact information\n        "

  /** The system prompt: its fixed text with the tone, the sender's
      signature and the greeting name filled in. */
  function EmailSystemPrompt(tone: string, recipientName: string, sig: Signature): string
  {
    PromptIntro + tone + PromptSender + sig.name + " with mobile number (+91) " + sig.phone
    + PromptStructure + GreetingName(recipientName) + PromptClosing + sig.name + PromptEnd
  }

  function EmailUserPrompt(topic: string, recipientName: string): string
  {
    "Write an email about: " + topic + (if recipientName != "" then " to " + recipientName else "")
  }

  /** The one completion request `generate_email` makes; no tools offered. */
  function EmailRequest(topic: string, recipientName: string, tone: string, sig: Signature): ChatRequest
  {
    ChatRequest([System(EmailSystemPrompt(tone, recipientName, sig)), User(EmailUserPrompt(topic, recipientName))], false)
  }

  /** What the outer `except Exception` returns. */
  function ErrorDraft(e: string): Draft
  {
    Draft("Error generating email", "Error occurred while generating email: " + e, false)
  }

  /** The items `list += text` appends: one string per character. */
  function CharItems(text: string): (r: seq<Json>)
    ensures |r| == |text| && forall k :: 0 <= k < |text| ==> r[k] == JString([text[k]])
  {
    if text == [] then [] else [JString([text[0]])] + CharItems(text[1..])
  }

  /** A decoded reply: an object yields its `body` (default empty) with the
      signature rule applied and its `subject` (default "Email Subject");
      any other value has no `.get` and fails.  The rule's `name in body`
      and `body += block` follow the body's type: on a list they test the
      elements and extend it by characters, on a dict `in` tests the keys
      and `+=` fails, on a scalar `in` fails. */
  function FromJson(data: Json, sig: Signature, env: Services): Draft
  {
    match data
    case JObject(fields) =>
      var subject := match Get(fields, "subject", JString("Email Subject"))
        case JString(t) => t
        case other => env.render(other);
      (match Get(fields, "body", JString(""))
       case JString(b) => Draft(subject, EnsureSignature(b, sig), true)
       case JArray(items) =>
         var kept := if JString(sig.name) in items then items else items + CharItems(SignatureBlock(sig));
         Draft(subject, env.render(JArray(kept)), true)
       case JObject(keys) =>
         if HasField(keys, sig.name) then Draft(subject, env.render(JObject(keys)), true)
         else ErrorDraft("unsupported operand type(s) for +=: 'dict' and 'str'")
       case other => ErrorDraft("argument of type '" + TypeName(other) + "' is not iterable"))
    case _ => ErrorDraft("'" + TypeName(data) + "' object has no attribute 'get'")
  }

  /** The reply text after the model's answer is trimmed and unfenced. */
  function Cleaned(reply: Reply): string
  {
    StripFence(Strip(reply.content))
  }

  /** `generate_email(topic, recipient_name, tone)` as a value. */
  function Drafted(topic: string, recipientName: string, tone: string, sig: Signature, env: Services): Draft
  {
    match env.chat(EmailRequest(topic, recipientName, tone, sig))
    case Failure(e) => ErrorDraft(e)
    case Success(reply) =>
      var content := Cleaned(reply);
      match env.loads(content)
      case Success(data) => FromJson(data, sig, env)
      case Failure(_) =>
        var (subject, body) := FallbackSplit(content);
        Draft(subject, EnsureSignature(body, sig), true)
  }

  /** `generate_email` as the program runs it. */
  method GenerateEmail(topic: string, recipientName: string, tone: string, sig: Signature, env: Services)
    returns (d: Draft)
    ensures d == Drafted(topic, recipientName, tone, sig, env)
  {
    var completion := env.chat(EmailRequest(topic, recipientName, tone, sig));
    if completion.Failure? {
      return ErrorDraft(completion.error);
    }
    var content := Cleaned(completion.value);
    var data := env.loads(content);
    if data.Success? {
      return FromJson(data.value, sig, env);
    }
    var subject, body := SplitSubjectLine(content);
    d := Draft(subject, EnsureSignature(body, sig), true);
  }

  /** An error draft has the error subject and starts with the error text. */
  lemma ErrorDraftShape(e: string)
    ensures ErrorDraft(e).subject == "Error generating email" && !ErrorDraft(e).success
    ensures StartsWith(ErrorDraft(e).body, "Error occurred while generating email: ")
  {
    var p := "Error occurred while generating email: ";
    assert (p + e)[..|p|] == p;
  }

  /** A draft made from a decoded value: a string body gets the signature
      rule, a list body is kept or extended and never fails, a dict body
      fails unless the name is one of its keys, a scalar body and a
      non-object value fail with the error draft. */
  lemma FromJsonRules(data: Json, sig: Signature, env: Services)
    ensures var d := FromJson(data, sig, env);
      && (!d.success ==> d.subject == "Error generating email"
                         && StartsWith(d.body, "Error occurred while generating email: "))
      && (!data.JObject? ==> !d.success)
      && (data.JObject? ==>
            match Get(data.fields, "body", JString(""))
            case JString(b) => d.success && Contains(d.body, sig.name)
            case JArray(_) => d.success
            case JObject(keys) => d.success == HasField(keys, sig.name)
            case _ => !d.success)
  {
    if data.JObject? {
      match Get(data.fields, "body", JString(""))
      case JString(b) => SignatureRule(b, sig);
      case JArray(_) =>
      case JObject(_) => ErrorDraftShape("unsupported operand type(s) for +=: 'dict' and 'str'");
      case other => ErrorDraftShape("argument of type '" + TypeName(other) + "' is not iterable");
    } else {
      ErrorDraftShape("'" + TypeName(data) + "' object has no attribute 'get'");
    }
  }

  /** A successful draft from text the decoder rejects names the sender;
      a decoded reply is drafted by `FromJson`; every failed draft carries
      the error subject and an error body. */
  lemma DraftedRules(topic: string, recipientName: string, tone: string, sig: Signature, env: Services)
    ensures var d := Drafted(topic, recipientName, tone, sig, env);
      && (!d.success ==> d.subject == "Error generating email"
                         && StartsWith(d.body, "Error occurred while generating email: "))
      && match env.chat(EmailRequest(topic, recipientName, tone, sig))
         case Failure(e) => d == ErrorDraft(e)
         case Success(reply) =>
           match env.loads(Cleaned(reply))
           case Failure(_) => d.success && Contains(d.body, sig.name)
           case Success(data) => d == FromJson(data, sig, env)
  {
    match env.chat(EmailRequest(topic, recipientName, tone, sig))
    case Failure(e) => ErrorDraftShape(e);
    case Success(reply) =>
      var content := Cleaned(reply);
      match env.loads(content)
      case Success(data) => FromJsonRules(data, sig, env);
      case Failure(_) => SignatureRule(FallbackSplit(content).1, sig);
  }

  /** A decoded object without a `subject` key gets "Email Subject", and one
      without a `body` key gets the bare signature block. */
  lemma FromJsonDefaults(fields: seq<(string, Json)>, sig: Signature, env: Services)
    ensures (forall k :: 0 <= k < |fields| ==> fields[k].0 != "subject") && FromJson(JObject(fields), sig, env).success
      ==> FromJson(JObject(fields), sig, env).subject == "Email Subject"
    ensures (forall k :: 0 <= k < |fields| ==> fields[k].0 != "body")
      ==> FromJson(JObject(fields), sig, env).body == EnsureSignature("", sig)
  {
  }
}
