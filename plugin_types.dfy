/** The records of the gateway/plugin protocol: a request travels as JSON on a plugin's
    stdin, a response comes back on its stdout, log lines on its stderr. */
module PluginTypes {
  import opened Wrappers
  import Strs

  /** A decoded JSON value (`any`). Numbers carry the text the renderer prints for them. */
  datatype Value =
    | Null
    | Str(s: string)
    | Bool(b: bool)
    | Num(text: string)
    | List(items: seq<Value>)
    | Obj(fields: map<string, Value>)

  datatype Context = Context(workingDir: string, user: string, verbose: bool)

  datatype Request = Request(command: string, args: seq<string>, flags: map<string, Value>, context: Context)

  /** The response metadata; its timestamp is not modelled. */
  datatype Metadata = Metadata(plugin: string, version: string, command: string)

  /** An empty `details` map is the absent (`omitempty`) one. */
  datatype ResponseError = ResponseError(code: string, message: string, details: map<string, Value>)

  datatype LogEntry = LogEntry(timestamp: string, level: string, category: string, message: string)

  /** An empty `data` map is the absent one; `error` may be nil. */
  datatype Response = Response(
    status: string,
    metadata: Metadata,
    data: map<string, Value>,
    error: Option<ResponseError>,
    rendererHint: string,
    logs: seq<LogEntry>)

  datatype Flag = Flag(name: string, kind: string, required: bool, default: Value, description: string)

  datatype CommandSpec = CommandSpec(name: string, description: string, outputs: seq<string>, flags: seq<Flag>)

  datatype Manifest = Manifest(
    name: string,
    version: string,
    description: string,
    author: string,
    commands: seq<CommandSpec>,
    rendererTypes: seq<string>)

  /** A successful response with its data and renderer hint. */
  function Success(plugin: string, version: string, command: string, data: map<string, Value>, hint: string): Response {
    Response("success", Metadata(plugin, version, command), data, None, hint, [])
  }

  /** The text of a signed integer as `%d` writes it. */
  function IntText(n: int): string {
    if n < 0 then "-" + Strs.Itoa(-n) else Strs.Itoa(n)
  }
}
