/** The external collaborators of the assistant, as values the model is
    given rather than code it can see: the chat-completion endpoint, JSON
    encoding and decoding, the weather endpoint, the filesystem walk, the
    SMTP transport, `os.path.exists` and the document text extractors.  Each
    is a total function; an exception it raises is `Failure(message)`. */
module Services {
  import opened Wrappers

  /** A JSON value as `json.loads` yields it.  Objects keep their key order,
      numbers their source text. */
  datatype Json =
    | JNull
    | JBool(b: bool)
    | JNumber(text: string)
    | JString(s: string)
    | JArray(items: seq<Json>)
    | JObject(fields: seq<(string, Json)>)

  /** A tool call requested by the model: its id, the tool's name and the
      JSON text of its arguments. */
  datatype ToolCall = ToolCall(id: string, name: string, arguments: string)

  /** One transcript entry of a chat request. */
  datatype Message =
    | System(content: string)
    | User(content: string)
    | AssistantTurn(content: string, toolCalls: seq<ToolCall>)
    | ToolResult(toolCallId: string, content: string)

  /** A chat-completion request: the transcript, and whether the registered
      tool specifications are offered with `tool_choice="auto"`. */
  datatype ChatRequest = ChatRequest(messages: seq<Message>, offerTools: bool)

  /** The first choice's message of a completion. */
  datatype Reply = Reply(content: string, toolCalls: seq<ToolCall>)

  /** The text extractors `read_document` can dispatch to. */
  datatype DocFormat = Pdf | Docx | Txt

  /** What the SMTP session does with one message: delivered, or an
      exception with its message. */
  datatype Delivery = Delivered | Refused(error: string)

  /** The text of the `EOFError` `input()` raises once the user's input
      has run out. */
  const EofMessage := "EOF when reading a line"

  datatype Services = Services(
    chat: ChatRequest -> Result<Reply, string>,       // client.chat.completions.create
    loads: string -> Result<Json, string>,            // json.loads (Failure: JSONDecodeError)
    dumps: Json -> string,                            // json.dumps
    render: Json -> string,                           // str() of a decoded value
    weather: (Json, Json) -> Result<Json, string>,    // get_weather(latitude, longitude)
    walk: (string, bool) -> seq<string>,              // paths named `name`; true: files, false: folders
    smtp: (string, string, seq<string>) -> Delivery,  // subject, body, recipients
    pathExists: string -> bool,                       // os.path.exists
    extract: (DocFormat, string) -> Result<string, string>  // PyPDF2 / python-docx / open().read()
  )

  /** `d.get(key, default)` on a decoded object: with repeated keys the last
      one wins, as in the dictionary `json.loads` builds. */
  function Get(fields: seq<(string, Json)>, key: string, default: Json): (v: Json)
    ensures (forall k :: 0 <= k < |fields| ==> fields[k].0 != key) ==> v == default
    ensures (exists k :: 0 <= k < |fields| && fields[k].0 == key) ==> exists k :: 0 <= k < |fields| && fields[k] == (key, v)
  {
    if |fields| == 0 then default
    else if fields[|fields| - 1].0 == key then fields[|fields| - 1].1
    else Get(fields[..|fields| - 1], key, default)
  }

  /** With repeated keys, the value stored last under the key is the one
      returned. */
  lemma {:induction false} GetIsLast(fields: seq<(string, Json)>, key: string, default: Json, k: nat)
    requires k < |fields| && fields[k].0 == key
    requires forall j :: k < j < |fields| ==> fields[j].0 != key
    ensures Get(fields, key, default) == fields[k].1
    decreases |fields|
  {
    if k < |fields| - 1 {
      var init := fields[..|fields| - 1];
      forall j | k < j < |init| ensures init[j].0 != key {
        assert init[j] == fields[j];
      }
      GetIsLast(init, key, default, k);
    }
  }

  /** `key in d` on a decoded object. */
  predicate HasField(fields: seq<(string, Json)>, key: string)
  {
    exists k :: 0 <= k < |fields| && fields[k].0 == key
  }

  /** The Python type name of a decoded value. */
  function TypeName(j: Json): string
  {
    match j
    case JNull => "NoneType"
    case JBool(_) => "bool"
    case JNumber(t) => if exists k :: 0 <= k < |t| && t[k] in ".eEIN" then "float" else "int"
    case JString(_) => "str"
    case JArray(_) => "list"
    case JObject(_) => "dict"
  }
}
