/** Recipient addresses in the email workflow: the anchored pattern
    `^[a-zA-Z0-9._%+-]+@[a-zA-Z0-9.-]+\.[a-zA-Z]{2,}$` applied with
    `re.match`, and the comma-separated input list filtered by it. */
module Addresses {
  import opened Wrappers
  import opened Text

  predicate AsciiLetter(c: char) { 'a' <= c <= 'z' || 'A' <= c <= 'Z' }
  predicate AsciiDigit(c: char) { '0' <= c <= '9' }
  /** `[a-zA-Z0-9._%+-]` */
  predicate LocalChar(c: char) { AsciiLetter(c) || AsciiDigit(c) || c in "._%+-" }
  /** `[a-zA-Z0-9.-]` */
  predicate DomainChar(c: char) { AsciiLetter(c) || AsciiDigit(c) || c == '.' || c == '-' }

  predicate AllLocal(s: string) { forall k :: 0 <= k < |s| ==> LocalChar(s[k]) }
  predicate AllDomain(s: string) { forall k :: 0 <= k < |s| ==> DomainChar(s[k]) }
  predicate AllLetters(s: string) { forall k :: 0 <= k < |s| ==> AsciiLetter(s[k]) }

  /** `s` reads local `@` domain `.` tld with the `@` at `at` and the dot at
      `dot`: a non-empty local part, a non-empty domain, two or more letters. */
  predicate ShapeAt(s: string, at: nat, dot: nat)
  {
    && 1 <= at && at + 2 <= dot && dot + 3 <= |s|
    && s[at] == '@' && s[dot] == '.'
    && AllLocal(s[..at]) && AllDomain(s[at + 1..dot]) && AllLetters(s[dot + 1..])
  }

  /** The whole of `s` has the address shape. */
  ghost predicate AddressShape(s: string)
  {
    exists at: nat, dot: nat :: ShapeAt(s, at, dot)
  }

  /** What `re.match` with this pattern accepts: `$` also matches just
      before one final newline. */
  ghost predicate PatternMatches(s: string)
  {
    AddressShape(s) || (|s| > 0 && s[|s| - 1] == '\n' && AddressShape(s[..|s| - 1]))
  }

  /** Every character satisfies `p`: the scan the regex engine makes over
      a character class. */
  function AllIn(s: string, p: char -> bool): bool
    decreases |s|
  {
    s == [] || (p(s[0]) && AllIn(s[1..], p))
  }

  lemma {:induction false} AllInMeans(s: string, p: char -> bool)
    ensures AllIn(s, p) <==> forall k :: 0 <= k < |s| ==> p(s[k])
    decreases |s|
  {
    if s != [] {
      AllInMeans(s[1..], p);
      assert forall k :: 1 <= k < |s| ==> s[k] == s[1..][k - 1];
    }
  }

  /** Decides the shape: the `@` must be the first one and, since the tld
      holds no dot, the dot must be the last one. */
  function HasShape(s: string): bool
  {
    match IndexOf(s, '@')
    case None => false
    case Some(at) =>
      match LastIndexOf(s, '.')
      case None => false
      case Some(dot) =>
        1 <= at && at + 2 <= dot && dot + 3 <= |s|
        && AllIn(s[..at], LocalChar) && AllIn(s[at + 1..dot], DomainChar) && AllIn(s[dot + 1..], AsciiLetter)
  }

  lemma HasShapeCorrect(s: string)
    ensures HasShape(s) <==> AddressShape(s)
  {
    match IndexOf(s, '@')
    case None =>
    case Some(at) =>
      match LastIndexOf(s, '.')
      case None =>
      case Some(dot) =>
        if 1 <= at && at + 2 <= dot && dot + 3 <= |s| {
          AllInMeans(s[..at], LocalChar);
          AllInMeans(s[at + 1..dot], DomainChar);
          AllInMeans(s[dot + 1..], AsciiLetter);
        }
        if HasShape(s) { assert ShapeAt(s, at, dot); }
        if AddressShape(s) {
          var at': nat, dot': nat :| ShapeAt(s, at', dot');
          assert at' == at;
          assert dot' == dot;
        }
  }

  /** `re.match(email_pattern, s)` succeeds. */
  function IsValidAddress(s: string): bool
  {
    HasShape(s) || (|s| > 0 && s[|s| - 1] == '\n' && HasShape(s[..|s| - 1]))
  }

  /** The executable check accepts exactly what the pattern accepts. */
  lemma IsValidAddressCorrect(s: string)
    ensures IsValidAddress(s) <==> PatternMatches(s)
  {
    HasShapeCorrect(s);
    if |s| > 0 { HasShapeCorrect(s[..|s| - 1]); }
  }

  /** In an address shape the only `@` is the separator. */
  lemma ShapeHasOneAt(t: string, at: nat, dot: nat)
    requires ShapeAt(t, at, dot)
    ensures forall k :: 0 <= k < |t| && t[k] == '@' ==> k == at
  {
  }

  /** A valid address holds exactly one `@`. */
  lemma ValidHasOneAt(s: string)
    requires IsValidAddress(s)
    ensures exists at :: 0 <= at < |s| && s[at] == '@' && forall k :: 0 <= k < |s| && s[k] == '@' ==> k == at
  {
    if HasShape(s) {
      HasShapeCorrect(s);
      var at: nat, dot: nat :| ShapeAt(s, at, dot);
      ShapeHasOneAt(s, at, dot);
    } else {
      var t := s[..|s| - 1];
      HasShapeCorrect(t);
      var at: nat, dot: nat :| ShapeAt(t, at, dot);
      ShapeHasOneAt(t, at, dot);
      forall k | 0 <= k < |s| && s[k] == '@' ensures k == at {
        if k < |t| { assert t[k] == s[k]; }
      }
      assert s[at] == t[at];
    }
  }

  /** A stripped part never ends in a newline, so for it the pattern means
      exactly the address shape. */
  lemma StrippedMeansShape(p: string)
    ensures IsValidAddress(Strip(p)) <==> AddressShape(Strip(p))
  {
    IsValidAddressCorrect(Strip(p));
  }

  /** `[email.strip() for email in parts]` */
  function StripAll(parts: seq<string>): (r: seq<string>)
    ensures |r| == |parts| && forall k :: 0 <= k < |parts| ==> r[k] == Strip(parts[k])
  {
    seq(|parts|, k requires 0 <= k < |parts| => Strip(parts[k]))
  }

  /** The parts that match the pattern, in their original order. */
  function ValidOnly(parts: seq<string>): (r: seq<string>)
    ensures |r| <= |parts|
  {
    if parts == [] then []
    else (if IsValidAddress(parts[0]) then [parts[0]] else []) + ValidOnly(parts[1..])
  }

  /** A part is kept exactly when it is valid; nothing else gets in. */
  lemma {:induction false} ValidOnlyMembers(parts: seq<string>)
    ensures forall p :: p in ValidOnly(parts) <==> p in parts && IsValidAddress(p)
  {
    if parts != [] {
      ValidOnlyMembers(parts[1..]);
      assert parts == [parts[0]] + parts[1..];
    }
  }

  /** The addresses kept from one line of recipient input. */
  function ValidRecipients(input: string): seq<string>
  {
    ValidOnly(StripAll(Split(input, ',')))
  }

  /** A blank line holds no address. */
  lemma BlankHasNoRecipients()
    ensures ValidRecipients("") == []
  {
    assert Split("", ',') == [""];
    assert Strip("") == "";
    assert StripAll([""]) == [""];
    assert !IsValidAddress("");
  }

  /** The validation loop: keep each matching part, drop (and warn about)
      the others. */
  method CollectValid(recipients: seq<string>) returns (valid: seq<string>)
    ensures valid == ValidOnly(recipients)
  {
    valid := [];
    var i := 0;
    while i < |recipients|
      invariant 0 <= i <= |recipients|
      invariant valid + ValidOnly(recipients[i..]) == ValidOnly(recipients)
    {
      assert recipients[i..][1..] == recipients[i + 1..];
      assert ValidOnly(recipients[i..])
        == (if IsValidAddress(recipients[i]) then [recipients[i]] else []) + ValidOnly(recipients[i + 1..]);
      if IsValidAddress(recipients[i]) {
        valid := valid + [recipients[i]];
      }
      i := i + 1;
    }
    assert recipients[i..] == [];
  }
}
