/** Error and warning responses of a plugin. The constructors only build a response;
    the `Write` operations encode it to stdout and end the process with status 1.
    The package-level name and version stay at their defaults, "cli" and "1.0.0":
    the release plugin never sets them. */
module PluginErrors {
  import opened Wrappers
  import opened PluginTypes
  import opened Effects

  const PluginName := "cli"
  const PluginVersion := "1.0.0"

  function Meta(): Metadata {
    Metadata(PluginName, PluginVersion, "")
  }

  /** `NewErrorResponse`: status "error", the code and message, no details. */
  function NewErrorResponse(code: string, message: string): (r: Response)
    ensures r.status == "error" && r.error.Some?
    ensures r.error.value.code == code && r.error.value.message == message
    ensures r.error.value.details == map[] && r.data == map[] && r.logs == []
  {
    Response("error", Meta(), map[], Some(ResponseError(code, message, map[])), "", [])
  }

  /** `NewErrorResponseWithDetails`: the same response carrying `details` unchanged. */
  function NewErrorResponseWithDetails(code: string, message: string, details: map<string, Value>): (r: Response)
    ensures r.error.Some? && r.error.value.details == details
    ensures r == NewErrorResponse(code, message).(error := Some(ResponseError(code, message, details)))
  {
    Response("error", Meta(), map[], Some(ResponseError(code, message, details)), "", [])
  }

  /** `WriteWarning`: builds the same response with status "warning"; it writes
      nothing and does not exit. */
  function WriteWarning(code: string, message: string): (r: Response)
    ensures r == NewErrorResponse(code, message).(status := "warning")
  {
    Response("warning", Meta(), map[], Some(ResponseError(code, message, map[])), "", [])
  }

  /** Without details the two error constructors agree. */
  lemma NoDetailsAgree(code: string, message: string)
    ensures NewErrorResponseWithDetails(code, message, map[]) == NewErrorResponse(code, message)
  {
  }

  /** The calls `WriteErrorWithDetails` makes: one response on stdout, then exit 1. */
  function WriteErrorCalls(w: World, h: seq<Call>, resp: Response): (calls: seq<Call>)
    ensures |calls| == 2 && calls[0].effect == Stdout(resp) && calls[1].effect == Exit(1)
  {
    var c1 := Ask(w, h, Stdout(resp));
    [c1, Ask(w, h + [c1], Exit(1))]
  }

  /** `WriteError`: encodes `NewErrorResponse(code, message)` and exits 1. */
  method WriteError(sh: Shell, code: string, message: string) returns (f: Flow<()>)
    modifies sh`trace
    ensures f == Halt(1)
    ensures sh.trace == old(sh.trace) + WriteErrorCalls(sh.world, old(sh.trace), NewErrorResponse(code, message))
  {
    f := WriteErrorWithDetails(sh, code, message, map[]);
  }

  /** `WriteErrorWithDetails`: encodes the detailed response and exits 1. */
  method WriteErrorWithDetails(sh: Shell, code: string, message: string, details: map<string, Value>) returns (f: Flow<()>)
    modifies sh`trace
    ensures f == Halt(1)
    ensures sh.trace == old(sh.trace) + WriteErrorCalls(sh.world, old(sh.trace), NewErrorResponseWithDetails(code, message, details))
  {
    var _ := sh.Do(Stdout(NewErrorResponseWithDetails(code, message, details)));
    var _ := sh.Do(Exit(1));
    f := Halt(1);
  }
}
