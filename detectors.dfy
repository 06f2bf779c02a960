/** The intent detectors `is_weather_query`, `is_search_query`,
    `is_email_query`, `is_document_query` and `is_close_document_query`:
    each lower-cases the query and reports whether any pattern of its fixed
    list is found by `re.search`.  The first three lists are the same in both
    script versions; the last two exist only in the version with document
    sessions. */
module Detectors {
  import opened Text
  import opened Patterns

  /** `r'a.*b'`, `r'a.*b.*c'` and `r'a.*b.*c.*d'` for literal words. */
  function P2(a: string, b: string): Pattern { [Lit(a), Lit(b)] }
  function P3(a: string, b: string, c: string): Pattern { [Lit(a), Lit(b), Lit(c)] }
  function P4(a: string, b: string, c: string, d: string): Pattern { [Lit(a), Lit(b), Lit(c), Lit(d)] }

  /** `\.([a-z0-9]+)` inside a search: a dot followed by one lower-case letter or digit. */
  function DotAlnum(): Segment { Lit(".") + [LowerAlnum] }

  const WeatherPatterns: seq<Pattern> := [
    P2("weather", "in"), P2("temperature", "in"), P3("how", "hot", "in"),
    P3("how", "cold", "in"), P4("what", "weather", "like", "in"),
    P3("weather", "forecast", "in"), P2("weather", "of"), P2("temperature", "of"),
    P2("climate", "in")
  ]

  const SearchPatterns: seq<Pattern> := [
    P2("find", "file"), P2("locate", "file"), P2("search", "file"), P2("where", "file"),
    P2("find", "folder"), P2("locate", "folder"), P2("search", "folder"), P2("where", "folder"),
    [Lit("find"), DotAlnum()], [Lit("locate"), DotAlnum()]
  ]

  const EmailPatterns: seq<Pattern> := [
    P2("write", "email"), P2("compose", "email"), P2("draft", "email"), P2("create", "email"),
    P2("write", "mail"), P2("compose", "mail"), P2("draft", "mail"), P2("create", "mail"),
    P2("send", "email"), P2("send", "mail"), P2("email", "about"), P2("mail", "about"),
    P2("shoot", "email"), P2("shoot", "mail"), P3("shoot", "an", "email"), P3("shoot", "an", "mail"),
    P2("fire", "email"), P2("fire", "mail"), P2("prepare", "email"), P2("prepare", "mail"),
    P2("make", "email"), P2("make", "mail"), P2("generate", "email"), P2("generate", "mail")
  ]

  const DocumentPatterns: seq<Pattern> := [
    P3("tell", "about", "document"), P2("analyze", "document"), P2("read", "document"),
    P2("summarize", "document"), P4("what", "is", "in", "document"), P2("document", "analysis"),
    P2("open", "document"), P2("load", "document"), P2("analyze", "file"),
    P3("tell", "about", "file"), P2("summarize", "file"), P4("what", "is", "this", "document")
  ]

  const ClosePatterns: seq<Pattern> := [
    P2("close", "document"), P2("stop", "document"), P2("exit", "document"),
    P2("close", "file"), P2("stop", "analyzing"), P3("end", "document", "session")
  ]

  /** `any(re.search(p, s) for p in pats)`. */
  function AnyMatch(s: string, pats: seq<Pattern>): bool
  {
    |pats| > 0 && (Search(s, pats[0]) || AnyMatch(s, pats[1..]))
  }

  predicate IsWeatherQuery(q: string) { AnyMatch(Lower(q), WeatherPatterns) }
  predicate IsSearchQuery(q: string) { AnyMatch(Lower(q), SearchPatterns) }
  predicate IsEmailQuery(q: string) { AnyMatch(Lower(q), EmailPatterns) }
  predicate IsDocumentQuery(q: string) { AnyMatch(Lower(q), DocumentPatterns) }
  predicate IsCloseDocumentQuery(q: string) { AnyMatch(Lower(q), ClosePatterns) }

  /** `any` over the list holds exactly when some pattern of the list is found. */
  lemma {:induction false} AnyMatchCorrect(s: string, pats: seq<Pattern>)
    ensures AnyMatch(s, pats) <==> exists k :: 0 <= k < |pats| && Matches(s, pats[k])
    decreases |pats|
  {
    if |pats| > 0 {
      SearchCorrect(s, pats[0]);
      AnyMatchCorrect(s, pats[1..]);
      assert forall k :: 1 <= k < |pats| ==> pats[k] == pats[1..][k - 1];
      if exists k :: 0 <= k < |pats| && Matches(s, pats[k]) {
        var k :| 0 <= k < |pats| && Matches(s, pats[k]);
        if k > 0 { assert Matches(s, pats[1..][k - 1]); }
      }
    }
  }

  /** A literal segment matches exactly where its text occurs. */
  lemma LitSegment(s: string, t: string, i: nat)
    ensures SegmentAt(s, Lit(t), i) <==> OccursAt(s, t, i)
  {
    if i + |t| <= |s| && SegmentAt(s, Lit(t), i) {
      assert forall k :: 0 <= k < |t| ==> s[i..i + |t|][k] == t[k];
    }
  }

  /** `r'a.*b'` is found exactly when `a` occurs, and `b` occurs at or after
      its end with no newline in between. */
  lemma PairMeaning(s: string, a: string, b: string)
    ensures Matches(s, P2(a, b)) <==>
      exists i: nat, j: nat :: OccursAt(s, a, i) && i + |a| <= j && OccursAt(s, b, j) && NoNewline(s, i + |a|, j)
  {
    var pat := P2(a, b);
    if Matches(s, pat) {
      var pos :| Witness(s, pat, pos);
      LitSegment(s, a, pos[0]);
      LitSegment(s, b, pos[1]);
      assert OccursAt(s, a, pos[0]) && OccursAt(s, b, pos[1]);
    }
    if exists i: nat, j: nat :: OccursAt(s, a, i) && i + |a| <= j && OccursAt(s, b, j) && NoNewline(s, i + |a|, j) {
      var i: nat, j: nat :| OccursAt(s, a, i) && i + |a| <= j && OccursAt(s, b, j) && NoNewline(s, i + |a|, j);
      LitSegment(s, a, i);
      LitSegment(s, b, j);
      assert Witness(s, pat, [i, j]);
    }
  }

  /** Each detector depends on the query only through its lower-cased form:
      changing the case of any letter never changes a verdict. */
  lemma DetectorsIgnoreCase(q: string, q': string)
    requires Lower(q) == Lower(q')
    ensures IsWeatherQuery(q) == IsWeatherQuery(q')
    ensures IsSearchQuery(q) == IsSearchQuery(q')
    ensures IsEmailQuery(q) == IsEmailQuery(q')
    ensures IsDocumentQuery(q) == IsDocumentQuery(q')
    ensures IsCloseDocumentQuery(q) == IsCloseDocumentQuery(q')
  {
  }

  /** In particular the upper-cased and lower-cased query get the same verdicts. */
  lemma DetectorsCaseInsensitive(q: string)
    ensures IsWeatherQuery(Upper(q)) == IsWeatherQuery(q) == IsWeatherQuery(Lower(q))
    ensures IsSearchQuery(Upper(q)) == IsSearchQuery(q) == IsSearchQuery(Lower(q))
    ensures IsEmailQuery(Upper(q)) == IsEmailQuery(q) == IsEmailQuery(Lower(q))
    ensures IsDocumentQuery(Upper(q)) == IsDocumentQuery(q) == IsDocumentQuery(Lower(q))
    ensures IsCloseDocumentQuery(Upper(q)) == IsCloseDocumentQuery(q) == IsCloseDocumentQuery(Lower(q))
  {
    LowerCaseInsensitive(q);
    DetectorsIgnoreCase(Upper(q), q);
    DetectorsIgnoreCase(Lower(q), q);
  }

  /** The weather detector holds exactly when some weather pattern is found in
      the lower-cased query; likewise for the other four. */
  lemma DetectorsMeaning(q: string)
    ensures IsWeatherQuery(q) <==> exists k :: 0 <= k < |WeatherPatterns| && Matches(Lower(q), WeatherPatterns[k])
    ensures IsSearchQuery(q) <==> exists k :: 0 <= k < |SearchPatterns| && Matches(Lower(q), SearchPatterns[k])
    ensures IsEmailQuery(q) <==> exists k :: 0 <= k < |EmailPatterns| && Matches(Lower(q), EmailPatterns[k])
    ensures IsDocumentQuery(q) <==> exists k :: 0 <= k < |DocumentPatterns| && Matches(Lower(q), DocumentPatterns[k])
    ensures IsCloseDocumentQuery(q) <==> exists k :: 0 <= k < |ClosePatterns| && Matches(Lower(q), ClosePatterns[k])
  {
    AnyMatchCorrect(Lower(q), WeatherPatterns);
    AnyMatchCorrect(Lower(q), SearchPatterns);
    AnyMatchCorrect(Lower(q), EmailPatterns);
    AnyMatchCorrect(Lower(q), DocumentPatterns);
    AnyMatchCorrect(Lower(q), ClosePatterns);
  }
}
