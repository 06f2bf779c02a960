/** Documents: `read_document`'s extension dispatch and result record, the
    8000-character window `analyze_document` and `chat_with_document`
    send to the model, and `handle_document_workflow`, which reads a path
    from the user and opens a document session on success only. */
module Documents {
  import opened Wrappers
  import opened Text
  import opened Services
  import opened Paths
  import opened Session

  // ---------- read_document ----------

  /** A successful read: stripped text, basename and lower-cased extension. */
  datatype DocText = DocText(content: string, filename: string, fileType: string)

  /** The extractor for an extension, if the reader handles it. */
  function FormatOf(ext: string): Option<DocFormat>
  {
    if ext == ".pdf" then Some(Pdf)
    else if ext == ".docx" then Some(Docx)
    else if ext == ".txt" then Some(Txt)
    else None
  }

  const LegacyDoc := "Legacy .doc format not fully supported. Please convert to .docx"

  /** `read_document(file_path)`: its `success`/`error` record as a result. */
  function ReadDocument(path: string, env: Services): Result<DocText, string>
  {
    if !env.pathExists(path) then Failure("File not found")
    else
      var ext := Lower(Extension(path));
      match FormatOf(ext)
      case None =>
        if ext == ".doc" then Failure(LegacyDoc) else Failure("Unsupported file format: " + ext)
      case Some(format) =>
        match env.extract(format, path)
        case Failure(e) => Failure("Error reading file: " + e)
        case Success(text) => Success(DocText(Strip(text), Basename(path), ext))
  }

  /** The reader's errors: a missing file, the legacy format, an unknown
      extension, an extractor error. */
  lemma ReadDocumentErrors(path: string, env: Services)
    ensures !env.pathExists(path) ==> ReadDocument(path, env) == Failure("File not found")
    ensures env.pathExists(path) && Lower(Extension(path)) == ".doc" ==> ReadDocument(path, env) == Failure(LegacyDoc)
    ensures (env.pathExists(path) && Lower(Extension(path)) !in {".pdf", ".docx", ".doc", ".txt"})
      ==> ReadDocument(path, env) == Failure("Unsupported file format: " + Lower(Extension(path)))
    ensures (env.pathExists(path) && FormatOf(Lower(Extension(path))).Some?
             && env.extract(FormatOf(Lower(Extension(path))).value, path).Failure?)
      ==> ReadDocument(path, env) == Failure("Error reading file: " + env.extract(FormatOf(Lower(Extension(path))).value, path).error)
  {
  }

  /** A successful read has stripped text, the path's basename and one of
      the three handled extensions. */
  lemma ReadDocumentSuccess(path: string, env: Services)
    ensures ReadDocument(path, env).Success? ==>
      var d := ReadDocument(path, env).value;
      && env.pathExists(path)
      && d.fileType in {".pdf", ".docx", ".txt"} && d.fileType == Lower(Extension(path))
      && d.filename == Basename(path)
      && Strip(d.content) == d.content
  {
    if ReadDocument(path, env).Success? {
      var ext := Lower(Extension(path));
      StripCharsIdempotent(env.extract(FormatOf(ext).value, path).value, Whitespace);
    }
  }

  // ---------- the model's view of a document ----------

  const Window := 8000

  /** `content[:8000]` */
  function Truncate(content: string): (r: string)
    ensures |r| == if |content| < Window then |content| else Window
    ensures r == content[..|r|]
  {
    if |content| < Window then content else content[..Window]
  }

  /** Two documents that agree on their first 8000 characters look the same
      to the model. */
  lemma TruncateSeesOnlyWindow(c1: string, c2: string)
    requires |c1| >= Window && |c2| >= Window && c1[..Window] == c2[..Window]
    ensures Truncate(c1) == Truncate(c2)
  {
  }

  const AnalysisPrompt :=
    "You are a document analysis expert. Analyze the provided document content and provide a comprehensive summary including:\n"
    + "\n"
    + "1. Document Type & Purpose\n"
    + "2. Main Topics/Themes\n"
    + "3. Key Points and Findings\n"
    + "4. Structure and Organization\n"
    + "5. Important Details or Data\n"
    + "6. Overall Summary\n"
    + "\n"
    + "Be thorough but concise. Focus on the most important aspects of the document."

  function AnalysisHead(filename: string): string
  {
    "Analyze this document titled '" + filename + "':\n\n"
  }

  function AnalysisRequest(content: string, filename: string): ChatRequest
  {
    ChatRequest([System(AnalysisPrompt), User(AnalysisHead(filename) + Truncate(content))], false)
  }

  /** `analyze_document(content, filename)`: the model's analysis, or the
      error text it catches. */
  function AnalyzeDocument(content: string, filename: string, env: Services): string
  {
    match env.chat(AnalysisRequest(content, filename))
    case Success(reply) => reply.content
    case Failure(e) => "Error analyzing document: " + e
  }

  const DocumentIntro :=
    "You are an AI assistant that answers questions about a specific document. \n"
    + "\n"
    + "Document: "
  const DocumentRules :=
    "\n"
    + "\n"
    + "You should:\n"
    + "1. Answer questions based ONLY on the document content provided\n"
    + "2. If the answer isn't in the document, say so clearly\n"
    + "3. Provide specific references or quotes when possible\n"
    + "4. Be accurate and helpful\n"
    + "\n"
    + "Document Content:\n"

  /** The system prompt before the document's text. */
  function DocumentPromptHead(filename: string): string
  {
    DocumentIntro + filename + DocumentRules
  }

  function DocumentRequest(query: string, content: string, filename: string): ChatRequest
  {
    ChatRequest([System(DocumentPromptHead(filename) + Truncate(content)), User(query)], false)
  }

  /** `chat_with_document(query, content, filename)`. */
  function ChatWithDocument(query: string, content: string, filename: string, env: Services): string
  {
    match env.chat(DocumentRequest(query, content, filename))
    case Success(reply) => reply.content
    case Failure(e) => "Error processing question about document: " + e
  }

  /** Both prompts end in exactly the first min(8000, length) characters of
      the document, after a head that depends only on the file name; the
      question is the user message. */
  lemma PromptsEmbedWindow(query: string, content: string, filename: string)
    ensures var n := if |content| < Window then |content| else Window;
      && AnalysisRequest(content, filename).messages[1].content == AnalysisHead(filename) + content[..n]
      && DocumentRequest(query, content, filename).messages[0].content == DocumentPromptHead(filename) + content[..n]
      && DocumentRequest(query, content, filename).messages[1] == User(query)
  {
  }

  // ---------- handle_document_workflow ----------

  /** What one run of the workflow yields: the reply, the input lines left,
      and the record it writes, if any. */
  datatype DocumentOutcome = DocumentOutcome(reply: string, rest: seq<string>, written: Option<Snapshot>)

  /** `input(...).strip().strip('"')` */
  function PathFrom(line: string): string
  {
    StripChars(Strip(line), {'"'})
  }

  const DocumentEof := "Error in document workflow: " + EofMessage

  function DocumentDialog(lines: seq<string>, env: Services): DocumentOutcome
  {
    if lines == [] then DocumentOutcome(DocumentEof, [], None)
    else
      match ReadDocument(PathFrom(lines[0]), env)
      case Failure(e) => DocumentOutcome(e, lines[1..], None)
      case Success(d) =>
        if Strip(d.content) == "" then DocumentOutcome("Document appears to be empty or unreadable", lines[1..], None)
        else
          var analysis := AnalyzeDocument(d.content, d.filename, env);
          DocumentOutcome("Document '" + d.filename + "' loaded and analyzed successfully!", lines[1..],
                          Some(Opened(d.content, d.filename, analysis)))
  }

  /** The workflow writes the record exactly when the read succeeded with
      non-blank text, and then with the stripped text, the basename and the
      analysis of that text; a failed read answers with the reader's error
      and writes nothing. */
  lemma DocumentDialogFacts(lines: seq<string>, env: Services)
    ensures var o := DocumentDialog(lines, env);
      o.written.Some? <==>
        lines != [] && ReadDocument(PathFrom(lines[0]), env).Success? && ReadDocument(PathFrom(lines[0]), env).value.content != ""
    ensures var o := DocumentDialog(lines, env);
      o.written.Some? ==>
        var d := ReadDocument(PathFrom(lines[0]), env).value;
        && Consistent(o.written.value)
        && o.written.value == Opened(d.content, Basename(PathFrom(lines[0])), AnalyzeDocument(d.content, d.filename, env))
        && Strip(d.content) == d.content
    ensures var o := DocumentDialog(lines, env);
      lines != [] && ReadDocument(PathFrom(lines[0]), env).Failure? ==>
        o.reply == ReadDocument(PathFrom(lines[0]), env).error && o.written.None?
    ensures var o := DocumentDialog(lines, env);
      lines != [] && ReadDocument(PathFrom(lines[0]), env).Success? && ReadDocument(PathFrom(lines[0]), env).value.content == "" ==>
        o.reply == "Document appears to be empty or unreadable" && o.written.None?
    ensures lines == [] ==> DocumentDialog(lines, env) == DocumentOutcome(DocumentEof, [], None)
    ensures lines != [] ==> DocumentDialog(lines, env).rest == lines[1..]
  {
    if lines != [] {
      ReadDocumentSuccess(PathFrom(lines[0]), env);
    }
  }

  /** `handle_document_workflow`: the record is overwritten on success only. */
  method HandleDocumentWorkflow(session: DocumentSession, lines: seq<string>, env: Services)
    returns (reply: string, rest: seq<string>)
    modifies session
    ensures var o := DocumentDialog(lines, env);
      && reply == o.reply && rest == o.rest
      && session.State() == (if o.written.Some? then o.written.value else old(session.State()))
  {
    if lines == [] {
      return DocumentEof, [];
    }
    var path := PathFrom(lines[0]);
    rest := lines[1..];
    var result := ReadDocument(path, env);
    if result.Failure? {
      return result.error, rest;
    }
    var content := result.value.content;
    var filename := result.value.filename;
    if Strip(content) == "" {
      return "Document appears to be empty or unreadable", rest;
    }
    var analysis := AnalyzeDocument(content, filename, env);
    session.Open(content, filename, analysis);
    reply := "Document '" + filename + "' loaded and analyzed successfully!";
  }
}
