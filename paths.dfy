/** The two POSIX path operations the assistant uses: `os.path.basename`
    and the extension half of `os.path.splitext`. */
module Paths {
  import opened Wrappers
  import opened Text

  /** Where the last component starts: just after the last `/`. */
  function ComponentStart(p: string): (i: nat)
    ensures i <= |p|
    ensures forall k :: i <= k < |p| ==> p[k] != '/'
    ensures i == 0 || p[i - 1] == '/'
  {
    match LastIndexOf(p, '/')
    case None => 0
    case Some(k) => k + 1
  }

  /** `os.path.basename(p)`: everything after the last `/`. */
  function Basename(p: string): string
  {
    p[ComponentStart(p)..]
  }

  /** The basename holds no `/`, and the path is a directory prefix (empty
      or ending in `/`) followed by it. */
  lemma BasenameFacts(p: string)
    ensures '/' !in Basename(p)
    ensures exists dir :: p == dir + Basename(p) && (dir == "" || dir[|dir| - 1] == '/')
  {
    var i := ComponentStart(p);
    var dir := p[..i];
    assert p == dir + Basename(p);
    assert dir == "" || dir[|dir| - 1] == p[i - 1] == '/';
    assert forall k :: 0 <= k < |p[i..]| ==> p[i..][k] == p[i + k];
  }

  /** `os.path.splitext(p)[1]`: from the last `.` of the last component,
      unless everything before that dot in the component is dots. */
  function Extension(p: string): (ext: string)
    ensures ext == "" || (|ext| <= |p| && ext == p[|p| - |ext|..] && ext[0] == '.')
  {
    var start := ComponentStart(p);
    match LastIndexOf(p, '.')
    case None => ""
    case Some(d) =>
      if start <= d && exists k :: start <= k < d && p[k] != '.' then p[d..] else ""
  }

  /** A non-empty extension lies in the basename, has one dot (its first
      character), and is preceded there by a character that is not a dot. */
  lemma ExtensionFacts(p: string)
    ensures var ext := Extension(p);
      ext != "" ==>
        && |ext| < |Basename(p)|
        && ext == Basename(p)[|Basename(p)| - |ext|..]
        && '.' !in ext[1..] && '/' !in ext
        && exists k :: 0 <= k < |Basename(p)| - |ext| && Basename(p)[k] != '.'
  {
    var start := ComponentStart(p);
    var ext := Extension(p);
    if ext != "" {
      var d := LastIndexOf(p, '.').value;
      assert ext == p[d..];
      var k :| start <= k < d && p[k] != '.';
      assert Basename(p)[k - start] == p[k];
      assert forall j :: 0 <= j < |ext| ==> ext[j] == p[d + j];
    }
  }

  /** Conversely, the last dot of the last component starts the extension
      whenever some character before it in the component is not a dot. */
  lemma ExtensionOfLastDot(p: string, d: nat)
    requires ComponentStart(p) <= d < |p| && p[d] == '.'
    requires forall k :: d < k < |p| ==> p[k] != '.'
    requires exists k :: ComponentStart(p) <= k < d && p[k] != '.'
    ensures Extension(p) == p[d..]
  {
    var r := LastIndexOf(p, '.');
    assert r.Some? && r.value == d;
  }

  /** The extension is non-empty exactly when the last component holds a
      dot with some non-dot before it. */
  lemma ExtensionNonEmpty(p: string)
    ensures Extension(p) != "" <==>
      exists k, d :: ComponentStart(p) <= k < d < |p| && p[k] != '.' && p[d] == '.'
  {
    var start := ComponentStart(p);
    if Extension(p) != "" {
      var d := LastIndexOf(p, '.').value;
      var k :| start <= k < d && p[k] != '.';
      assert start <= k < d < |p| && p[k] != '.' && p[d] == '.';
    }
    if exists k, d :: start <= k < d < |p| && p[k] != '.' && p[d] == '.' {
      var k, d :| start <= k < d < |p| && p[k] != '.' && p[d] == '.';
      var last := LastIndexOf(p, '.').value;
      assert d <= last;
      ExtensionOfLastDot(p, last);
    }
  }
}
