/** The `current_document` record: the loaded document's text, its file
    name, the analysis, and whether a document session is open. */
module Session {
  import opened Wrappers

  /** The record's four fields as a value. */
  datatype Snapshot = Snapshot(content: Option<string>, filename: Option<string>, summary: Option<string>, isActive: bool)

  /** The record with no document: every field absent, not active. */
  const Closed := Snapshot(None, None, None, false)

  /** The record right after a document was loaded and analysed. */
  function Opened(content: string, filename: string, summary: string): Snapshot
  {
    Snapshot(Some(content), Some(filename), Some(summary), true)
  }

  /** An inactive record has every field absent; an active one has all three. */
  predicate Consistent(s: Snapshot)
  {
    && (!s.isActive ==> s.content.None? && s.filename.None? && s.summary.None?)
    && (s.isActive ==> s.content.Some? && s.filename.Some? && s.summary.Some?)
  }

  /** Both ways of writing the record keep it consistent. */
  lemma WritesAreConsistent(content: string, filename: string, summary: string)
    ensures Consistent(Closed) && Consistent(Opened(content, filename, summary))
    ensures Opened(content, filename, summary).filename == Some(filename)
  {
  }

  /** The global record, updated in place by the document workflow and the
      close branch. */
  class DocumentSession {
    var content: Option<string>
    var filename: Option<string>
    var summary: Option<string>
    var isActive: bool

    function State(): Snapshot
      reads this
    {
      Snapshot(content, filename, summary, isActive)
    }

    ghost predicate Valid()
      reads this
    {
      Consistent(State())
    }

    /** The record at start-up. */
    constructor ()
      ensures State() == Closed && Valid()
    {
      content := None;
      filename := None;
      summary := None;
      isActive := false;
    }

    /** The document workflow's write after a successful analysis. */
    method Open(c: string, f: string, s: string)
      modifies this
      ensures State() == Opened(c, f, s) && Valid()
    {
      content := Some(c);
      filename := Some(f);
      summary := Some(s);
      isActive := true;
    }

    /** The close branch: clear the record, reporting the file name it held. */
    method Close() returns (previous: Option<string>)
      modifies this
      ensures previous == old(filename)
      ensures State() == Closed && Valid()
    {
      previous := filename;
      content := None;
      filename := None;
      summary := None;
      isActive := false;
    }
  }
}
