/** The fragment of Python regular expressions the intent detectors use,
    applied with `re.search`: a pattern is a list of segments joined by `.*`,
    where each segment is a run of single-character classes (a literal
    character, or `[a-z0-9]`).  Python's `.` does not match a newline, so the
    text between two segments must be free of `\n`.  `r'find.*\.([a-z0-9]+)'`
    is the two segments "find" and ".[a-z0-9]" (a trailing `+` adds nothing
    to a search). */
module Patterns {

  datatype CharClass = Exact(c: char) | LowerAlnum

  type Segment = seq<CharClass>

  type Pattern = seq<Segment>

  predicate ClassMatches(k: CharClass, ch: char)
  {
    match k
    case Exact(c) => ch == c
    case LowerAlnum => 'a' <= ch <= 'z' || '0' <= ch <= '9'
  }

  /** The segment that matches exactly the literal text `t`. */
  function Lit(t: string): (seg: Segment)
    ensures |seg| == |t| && forall k :: 0 <= k < |t| ==> seg[k] == Exact(t[k])
  {
    seq(|t|, k requires 0 <= k < |t| => Exact(t[k]))
  }

  /** Segment `seg` matches `s` starting at index `i`. */
  predicate SegmentAt(s: string, seg: Segment, i: nat)
  {
    i + |seg| <= |s| && forall k :: 0 <= k < |seg| ==> ClassMatches(seg[k], s[i + k])
  }

  /** What `.*` may skip: no character of `s[lo..hi]` is a newline. */
  predicate NoNewline(s: string, lo: nat, hi: nat)
  {
    forall k :: lo <= k < hi && k < |s| ==> s[k] != '\n'
  }

  /** Reference semantics: `pos` lists where each segment matches, in order,
      without overlap, with only `.*`-skippable text between neighbours. */
  ghost predicate Witness(s: string, pat: Pattern, pos: seq<nat>)
  {
    && |pos| == |pat|
    && (forall k :: 0 <= k < |pat| ==> SegmentAt(s, pat[k], pos[k]))
    && (forall k :: 0 <= k < |pat| - 1 ==>
          pos[k] + |pat[k]| <= pos[k + 1] && NoNewline(s, pos[k] + |pat[k]|, pos[k + 1]))
  }

  /** `re.search(pat, s)` succeeds. */
  ghost predicate Matches(s: string, pat: Pattern)
  {
    exists pos :: Witness(s, pat, pos)
  }

  /** Witnesses whose first segment starts at or after `from`, with only
      newline-free text in between. */
  ghost predicate WitnessAfter(s: string, pat: Pattern, pos: seq<nat>, from: nat)
  {
    Witness(s, pat, pos) && (|pat| > 0 ==> from <= pos[0] && NoNewline(s, from, pos[0]))
  }

  /** Executable matcher: the segments of `pat` follow, in order, from index
      `from` on, the gap before each being newline-free (the `.*`). */
  function MatchFrom(s: string, pat: Pattern, from: nat): bool
    requires from <= |s|
    decreases |pat|, |s| - from
  {
    if pat == [] then true
    else
      (SegmentAt(s, pat[0], from) && MatchFrom(s, pat[1..], from + |pat[0]|))
      || (from < |s| && s[from] != '\n' && MatchFrom(s, pat, from + 1))
  }

  /** Executable `re.search`: try every start index from `i` on. */
  function SearchFrom(s: string, pat: Pattern, i: nat): bool
    requires i <= |s|
    decreases |s| - i
  {
    (pat == [] || (SegmentAt(s, pat[0], i) && MatchFrom(s, pat[1..], i + |pat[0]|)))
    || (i < |s| && SearchFrom(s, pat, i + 1))
  }

  function Search(s: string, pat: Pattern): bool
  {
    SearchFrom(s, pat, 0)
  }

  /** A match for the tail of the pattern extends to a match of the whole. */
  lemma WitnessCons(s: string, pat: Pattern, i: nat, rest: seq<nat>)
    requires |pat| > 0 && SegmentAt(s, pat[0], i)
    requires WitnessAfter(s, pat[1..], rest, i + |pat[0]|)
    ensures Witness(s, pat, [i] + rest)
  {
    var pos := [i] + rest;
    forall k | 0 <= k < |pat| ensures SegmentAt(s, pat[k], pos[k]) {
      if k > 0 { assert pat[k] == pat[1..][k - 1] && pos[k] == rest[k - 1]; }
    }
    forall k | 0 <= k < |pat| - 1
      ensures pos[k] + |pat[k]| <= pos[k + 1] && NoNewline(s, pos[k] + |pat[k]|, pos[k + 1])
    {
      if k > 0 { assert pat[k] == pat[1..][k - 1] && pos[k] == rest[k - 1] && pos[k + 1] == rest[k]; }
    }
  }

  /** The tail of a witness is a witness for the tail of the pattern. */
  lemma WitnessTail(s: string, pat: Pattern, pos: seq<nat>)
    requires |pat| > 0 && Witness(s, pat, pos)
    ensures WitnessAfter(s, pat[1..], pos[1..], pos[0] + |pat[0]|)
  {
    var tail, rest := pat[1..], pos[1..];
    forall k | 0 <= k < |tail| ensures SegmentAt(s, tail[k], rest[k]) {
      assert tail[k] == pat[k + 1] && rest[k] == pos[k + 1];
    }
    forall k | 0 <= k < |tail| - 1
      ensures rest[k] + |tail[k]| <= rest[k + 1] && NoNewline(s, rest[k] + |tail[k]|, rest[k + 1])
    {
      assert tail[k] == pat[k + 1] && rest[k] == pos[k + 1] && rest[k + 1] == pos[k + 2];
    }
  }

  /** Soundness of the matcher with respect to the witnesses. */
  lemma {:induction false} MatchFromSound(s: string, pat: Pattern, from: nat)
    requires from <= |s| && MatchFrom(s, pat, from)
    ensures exists pos :: WitnessAfter(s, pat, pos, from)
    decreases |pat|, |s| - from
  {
    if pat == [] {
      assert WitnessAfter(s, pat, [], from);
    } else if SegmentAt(s, pat[0], from) && MatchFrom(s, pat[1..], from + |pat[0]|) {
      MatchFromSound(s, pat[1..], from + |pat[0]|);
      var rest :| WitnessAfter(s, pat[1..], rest, from + |pat[0]|);
      WitnessCons(s, pat, from, rest);
      assert WitnessAfter(s, pat, [from] + rest, from);
    } else {
      MatchFromSound(s, pat, from + 1);
      var pos :| WitnessAfter(s, pat, pos, from + 1);
      assert WitnessAfter(s, pat, pos, from);
    }
  }

  /** Completeness of the matcher with respect to the witnesses. */
  lemma {:induction false} MatchFromComplete(s: string, pat: Pattern, pos: seq<nat>, from: nat)
    requires from <= |s| && WitnessAfter(s, pat, pos, from)
    ensures MatchFrom(s, pat, from)
    decreases |pat|, |s| - from
  {
    if pat != [] {
      if from == pos[0] {
        WitnessTail(s, pat, pos);
        MatchFromComplete(s, pat[1..], pos[1..], from + |pat[0]|);
      } else {
        assert s[from] != '\n';
        MatchFromComplete(s, pat, pos, from + 1);
      }
    }
  }

  /** A search that succeeds from `i` has a witness starting at or after `i`. */
  lemma {:induction false} SearchFromSound(s: string, pat: Pattern, i: nat)
    requires i <= |s| && SearchFrom(s, pat, i)
    ensures exists pos :: Witness(s, pat, pos) && (|pat| > 0 ==> i <= pos[0])
    decreases |s| - i
  {
    if pat == [] {
      assert Witness(s, pat, []);
    } else if SegmentAt(s, pat[0], i) && MatchFrom(s, pat[1..], i + |pat[0]|) {
      MatchFromSound(s, pat[1..], i + |pat[0]|);
      var rest :| WitnessAfter(s, pat[1..], rest, i + |pat[0]|);
      WitnessCons(s, pat, i, rest);
      assert ([i] + rest)[0] == i;
    } else {
      SearchFromSound(s, pat, i + 1);
      var pos :| Witness(s, pat, pos) && i + 1 <= pos[0];
      assert i <= pos[0];
    }
  }

  /** A witness starting at or after `i` makes the search from `i` succeed. */
  lemma {:induction false} SearchFromComplete(s: string, pat: Pattern, pos: seq<nat>, i: nat)
    requires i <= |s| && Witness(s, pat, pos) && (|pat| > 0 ==> i <= pos[0])
    ensures SearchFrom(s, pat, i)
    decreases |s| - i
  {
    if pat != [] {
      if pos[0] == i {
        WitnessTail(s, pat, pos);
        MatchFromComplete(s, pat[1..], pos[1..], i + |pat[0]|);
      } else {
        assert SegmentAt(s, pat[0], pos[0]);
        SearchFromComplete(s, pat, pos, i + 1);
      }
    }
  }

  /** The executable search agrees with the reference semantics from index `i` on. */
  lemma SearchFromCorrect(s: string, pat: Pattern, i: nat)
    requires i <= |s|
    ensures SearchFrom(s, pat, i) <==> exists pos :: Witness(s, pat, pos) && (|pat| > 0 ==> i <= pos[0])
  {
    if SearchFrom(s, pat, i) {
      SearchFromSound(s, pat, i);
    }
    if pos :| Witness(s, pat, pos) && (|pat| > 0 ==> i <= pos[0]) {
      SearchFromComplete(s, pat, pos, i);
    }
  }

  /** `re.search` as computed agrees with its reference semantics. */
  lemma SearchCorrect(s: string, pat: Pattern)
    ensures Search(s, pat) <==> Matches(s, pat)
  {
    SearchFromCorrect(s, pat, 0);
  }
}
