/** The Python string operations the assistant relies on, over `seq<char>`:
    `strip`, `lower`, `in` (substring), `startswith`, `split` on one
    character, `join` and `replace`.  Character sets are ASCII only. */
module Text {
  import opened Wrappers

  /** The characters `str.strip()` removes by default, restricted to ASCII. */
  const Whitespace: set<char> :=
    {' ', '\t', '\n', '\r', '\U{0B}', '\U{0C}', '\U{1C}', '\U{1D}', '\U{1E}', '\U{1F}'}

  /** Number of leading characters of `s` that belong to `cs`. */
  function LeadingCount(s: string, cs: set<char>): (n: nat)
    ensures n <= |s|
    ensures forall k :: 0 <= k < n ==> s[k] in cs
    ensures n == |s| || s[n] !in cs
    decreases |s|
  {
    if |s| == 0 || s[0] !in cs then 0 else 1 + LeadingCount(s[1..], cs)
  }

  /** Index where the trailing run of characters from `cs` starts. */
  function TrailingStart(s: string, cs: set<char>): (n: nat)
    ensures n <= |s|
    ensures forall k :: n <= k < |s| ==> s[k] in cs
    ensures n == 0 || s[n - 1] !in cs
    decreases |s|
  {
    if |s| == 0 || s[|s| - 1] !in cs then |s| else TrailingStart(s[..|s| - 1], cs)
  }

  /** `s.strip(chars)`: drop the characters of `cs` from both ends. */
  function StripChars(s: string, cs: set<char>): (r: string)
    ensures |r| <= |s|
  {
    var i := LeadingCount(s, cs);
    var t := s[i..];
    t[..TrailingStart(t, cs)]
  }

  /** What `strip` leaves: a middle slice of `s` that neither starts nor
      ends with a character of `cs`, empty exactly when every character is
      in `cs`, with only characters of `cs` cut off on either side. */
  lemma StripCharsFacts(s: string, cs: set<char>)
    ensures var r := StripChars(s, cs);
      && (r == "" || (r[0] !in cs && r[|r| - 1] !in cs))
      && (r == "" <==> forall k :: 0 <= k < |s| ==> s[k] in cs)
      && LeadingCount(s, cs) + |r| <= |s|
      && (forall k :: 0 <= k < |r| ==> r[k] == s[LeadingCount(s, cs) + k])
      && (forall k :: LeadingCount(s, cs) + |r| <= k < |s| ==> s[k] in cs)
  {
    var i := LeadingCount(s, cs);
    var t := s[i..];
    var j := TrailingStart(t, cs);
    var r := StripChars(s, cs);
    assert r == t[..j];
    assert forall k :: 0 <= k < j ==> r[k] == s[i + k];
    assert forall k :: i + j <= k < |s| ==> s[k] in cs by {
      forall k | i + j <= k < |s| ensures s[k] in cs {
        assert s[k] == t[k - i];
      }
    }
    assert i < |s| ==> j > 0 by {
      if i < |s| { assert t[0] == s[i]; }
    }
    assert (forall k :: 0 <= k < |s| ==> s[k] in cs) ==> i == |s|;
    if j > 0 {
      assert r[0] == s[i] && r[j - 1] == t[j - 1];
    }
  }

  /** `s.strip()`. */
  function Strip(s: string): string
  {
    StripChars(s, Whitespace)
  }

  /** Stripping twice removes nothing more. */
  lemma StripCharsIdempotent(s: string, cs: set<char>)
    ensures StripChars(StripChars(s, cs), cs) == StripChars(s, cs)
  {
    var r := StripChars(s, cs);
    if r != "" {
      assert LeadingCount(r, cs) == 0;
      assert TrailingStart(r, cs) == |r|;
    }
  }

  /** `c.lower()` on ASCII letters. */
  function LowerChar(c: char): char
  {
    if 'A' <= c <= 'Z' then (c as int + 32) as char else c
  }

  /** `c.upper()` on ASCII letters. */
  function UpperChar(c: char): char
  {
    if 'a' <= c <= 'z' then (c as int - 32) as char else c
  }

  /** `s.lower()` as the ASCII character map. */
  function Lower(s: string): (r: string)
    ensures |r| == |s| && forall k :: 0 <= k < |s| ==> r[k] == LowerChar(s[k])
  {
    seq(|s|, k requires 0 <= k < |s| => LowerChar(s[k]))
  }

  /** `s.upper()` as the ASCII character map. */
  function Upper(s: string): (r: string)
    ensures |r| == |s| && forall k :: 0 <= k < |s| ==> r[k] == UpperChar(s[k])
  {
    seq(|s|, k requires 0 <= k < |s| => UpperChar(s[k]))
  }

  /** Lowering is idempotent, and lowering an upper-cased string gives the
      same as lowering the original: case does not survive `lower()`. */
  lemma LowerCaseInsensitive(s: string)
    ensures Lower(Lower(s)) == Lower(s)
    ensures Lower(Upper(s)) == Lower(s)
  {
    assert forall k :: 0 <= k < |s| ==> LowerChar(LowerChar(s[k])) == LowerChar(s[k]);
    assert forall k :: 0 <= k < |s| ==> LowerChar(UpperChar(s[k])) == LowerChar(s[k]);
  }

  /** `t` occurs in `s` at index `i`. */
  predicate OccursAt(s: string, t: string, i: nat)
  {
    i + |t| <= |s| && s[i..i + |t|] == t
  }

  /** Moving one character along: occurrences in `s[1..]` are those in `s` shifted by one. */
  lemma OccursShift(s: string, t: string)
    requires |s| > 0
    ensures forall i: nat :: OccursAt(s[1..], t, i) <==> OccursAt(s, t, i + 1)
  {
    forall i: nat ensures OccursAt(s[1..], t, i) <==> OccursAt(s, t, i + 1) {
      if i + 1 + |t| <= |s| {
        assert s[1..][i..i + |t|] == s[i + 1..i + 1 + |t|];
      }
    }
  }

  /** Python's `t in s` for strings. */
  function Contains(s: string, t: string): (b: bool)
    ensures b <==> exists i: nat :: OccursAt(s, t, i)
    decreases |s|
  {
    if |t| > |s| then false
    else if s[..|t|] == t then assert OccursAt(s, t, 0); true
    else
      OccursShift(s, t);
      assert !OccursAt(s, t, 0);
      assert (exists i: nat :: OccursAt(s, t, i)) ==> exists i: nat :: OccursAt(s[1..], t, i) by {
        if exists i: nat :: OccursAt(s, t, i) {
          var i: nat :| OccursAt(s, t, i);
          assert OccursAt(s[1..], t, i - 1);
        }
      }
      Contains(s[1..], t)
  }

  /** A string that occurs inside a longer one at a known place is contained in it. */
  lemma ContainsWithin(s: string, t: string, i: nat)
    requires i + |t| <= |s| && s[i..i + |t|] == t
    ensures Contains(s, t)
  {
    assert OccursAt(s, t, i);
  }

  /** Text contained in `b` is contained in `a + b`, and text contained in
      `a` is contained in `a + b`. */
  lemma ContainsConcat(a: string, b: string, t: string)
    ensures Contains(a, t) || Contains(b, t) ==> Contains(a + b, t)
  {
    if Contains(b, t) {
      var i: nat :| OccursAt(b, t, i);
      assert (a + b)[|a| + i..|a| + i + |t|] == b[i..i + |t|];
      assert OccursAt(a + b, t, |a| + i);
    } else if Contains(a, t) {
      var i: nat :| OccursAt(a, t, i);
      assert (a + b)[i..i + |t|] == a[i..i + |t|];
      assert OccursAt(a + b, t, i);
    }
  }

  /** `s.startswith(p)`. */
  predicate StartsWith(s: string, p: string)
  {
    |p| <= |s| && s[..|p|] == p
  }

  /** `s.find(c)` as an option: the first index holding `c`. */
  function IndexOf(s: string, c: char): (r: Option<nat>)
    ensures r.None? ==> forall k :: 0 <= k < |s| ==> s[k] != c
    ensures r.Some? ==> r.value < |s| && s[r.value] == c
    ensures r.Some? ==> forall k :: 0 <= k < r.value ==> s[k] != c
    decreases |s|
  {
    if |s| == 0 then None
    else if s[0] == c then Some(0)
    else match IndexOf(s[1..], c)
      case None => None
      case Some(i) => Some(i + 1)
  }

  /** `s.rfind(c)` as an option: the last index holding `c`. */
  function LastIndexOf(s: string, c: char): (r: Option<nat>)
    ensures r.None? ==> forall k :: 0 <= k < |s| ==> s[k] != c
    ensures r.Some? ==> r.value < |s| && s[r.value] == c
    ensures r.Some? ==> forall k :: r.value < k < |s| ==> s[k] != c
    decreases |s|
  {
    if |s| == 0 then None
    else if s[|s| - 1] == c then Some(|s| - 1)
    else LastIndexOf(s[..|s| - 1], c)
  }

  /** `s.split(c)` for a one-character separator: never empty, and no part
      holds the separator. */
  function Split(s: string, c: char): (parts: seq<string>)
    ensures |parts| >= 1
    ensures forall k :: 0 <= k < |parts| ==> c !in parts[k]
    decreases |s|
  {
    match IndexOf(s, c)
    case None => [s]
    case Some(i) => [s[..i]] + Split(s[i + 1..], c)
  }

  /** `sep.join(parts)`. */
  function Join(parts: seq<string>, sep: string): string
  {
    if |parts| == 0 then ""
    else if |parts| == 1 then parts[0]
    else parts[0] + sep + Join(parts[1..], sep)
  }

  /** Joining the parts of a split with the separator gives back the string. */
  lemma {:induction false} JoinSplit(s: string, c: char)
    ensures Join(Split(s, c), [c]) == s
    decreases |s|
  {
    match IndexOf(s, c)
    case None =>
    case Some(i) =>
      JoinSplit(s[i + 1..], c);
      var rest := Split(s[i + 1..], c);
      assert Split(s, c) == [s[..i]] + rest;
      assert Split(s, c)[1..] == rest;
      assert Join(Split(s, c), [c]) == s[..i] + [c] + Join(rest, [c]);
      assert s == s[..i] + [c] + s[i + 1..];
  }

  /** Splitting a join of separator-free parts gives back the parts. */
  lemma {:induction false} SplitJoin(parts: seq<string>, c: char)
    requires |parts| >= 1
    requires forall k :: 0 <= k < |parts| ==> c !in parts[k]
    ensures Split(Join(parts, [c]), c) == parts
    decreases |parts|
  {
    var s := Join(parts, [c]);
    if |parts| == 1 {
      assert IndexOf(s, c).None?;
    } else {
      var p := parts[0];
      var rest := Join(parts[1..], [c]);
      assert s == p + [c] + rest;
      assert s[|p|] == c;
      assert forall k :: 0 <= k < |p| ==> s[k] == p[k];
      assert IndexOf(s, c) == Some(|p|);
      assert s[..|p|] == p;
      assert s[|p| + 1..] == rest;
      SplitJoin(parts[1..], c);
      assert parts == [p] + parts[1..];
    }
  }

  /** `s.replace(pat, rep)`: occurrences found left to right, without overlap. */
  function ReplaceAll(s: string, pat: string, rep: string): string
    requires |pat| > 0
    decreases |s|
  {
    if |s| < |pat| then s
    else if s[..|pat|] == pat then rep + ReplaceAll(s[|pat|..], pat, rep)
    else [s[0]] + ReplaceAll(s[1..], pat, rep)
  }

  /** Replacing a string that does not occur changes nothing. */
  lemma {:induction false} ReplaceAbsent(s: string, pat: string, rep: string)
    requires |pat| > 0 && !Contains(s, pat)
    ensures ReplaceAll(s, pat, rep) == s
    decreases |s|
  {
    if |s| >= |pat| {
      assert !OccursAt(s, pat, 0);
      OccursShift(s, pat);
      ReplaceAbsent(s[1..], pat, rep);
      assert s == [s[0]] + s[1..];
    }
  }

  /** An occurrence of `pat` that no earlier occurrence overlaps is
      replaced, and the text before it is kept as it is. */
  lemma {:induction false} ReplaceAllSplit(x: string, pat: string, y: string, rep: string)
    requires |pat| > 0
    requires forall i: nat :: i < |x| ==> !OccursAt(x + pat + y, pat, i)
    ensures ReplaceAll(x + pat + y, pat, rep) == x + rep + ReplaceAll(y, pat, rep)
    decreases |x|
  {
    var s := x + pat + y;
    if x == [] {
      assert s == pat + y;
      assert s[..|pat|] == pat && s[|pat|..] == y;
    } else {
      var t := x[1..] + pat + y;
      assert s[1..] == t;
      assert s[..|pat|] != pat by {
        assert !OccursAt(s, pat, 0);
        assert s[..|pat|] == s[0..|pat|];
      }
      forall i: nat | i < |x[1..]| ensures !OccursAt(t, pat, i) {
        assert !OccursAt(s, pat, i + 1);
        if i + |pat| <= |t| {
          assert t[i..i + |pat|] == s[i + 1..i + 1 + |pat|];
        }
      }
      ReplaceAllSplit(x[1..], pat, y, rep);
      assert ReplaceAll(s, pat, rep) == [s[0]] + ReplaceAll(t, pat, rep);
      assert [s[0]] + (x[1..] + rep + ReplaceAll(y, pat, rep)) == x + rep + ReplaceAll(y, pat, rep);
    }
  }

  /** Decimal digit character for `d < 10`. */
  function DigitChar(d: nat): char
    requires d < 10
  {
    "0123456789"[d]
  }

  /** `str(n)` for a natural number. */
  function NatToString(n: nat): (r: string)
    ensures |r| >= 1
    decreases n
  {
    if n < 10 then [DigitChar(n)] else NatToString(n / 10) + [DigitChar(n % 10)]
  }

  /** The index of the first element satisfying `p`, if any. */
  function FirstWhere(xs: seq<string>, p: string -> bool): (r: Option<nat>)
    ensures r.None? ==> forall k :: 0 <= k < |xs| ==> !p(xs[k])
    ensures r.Some? ==> r.value < |xs| && p(xs[r.value])
    ensures r.Some? ==> forall k :: 0 <= k < r.value ==> !p(xs[k])
    decreases |xs|
  {
    if |xs| == 0 then None
    else if p(xs[0]) then Some(0)
    else match FirstWhere(xs[1..], p)
      case None => None
      case Some(i) => Some(i + 1)
  }
}
