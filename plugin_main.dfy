/** The release plugin's entry point: it decodes the request from stdin, sets the
    verbose switch from the request, routes the command to its handler and writes the
    response to stdout. Every failure on the way is an error response followed by
    exit status 1. */
module PluginMain {
  import opened Wrappers
  import opened Effects
  import opened PluginTypes
  import Resolver
  import Config
  import Registry
  import ReleaseHandler
  import InitHandler
  import ValidateHandler
  import History
  import ContributorsHandler

  /** The handler a command goes to. */
  datatype Route =
    | InitRoute
    | InitOptionsRoute
    | ReleaseRoute(t: Resolver.Type)
    | HistoryRoute
    | ContributorsRoute
    | ValidateRoute
    | UnknownRoute

  /** The command switch: patch, minor and major are releases of that type. */
  function RouteOf(command: string): (r: Route)
    ensures r.ReleaseRoute? <==> command in {Resolver.Patch, Resolver.Minor, Resolver.Major}
    ensures r.ReleaseRoute? ==> r.t == command
    ensures r.UnknownRoute? <==>
      command !in {"init", "init-options", "patch", "minor", "major", "history", "contributors", "validate"}
  {
    match command
    case "init" => InitRoute
    case "init-options" => InitOptionsRoute
    case "patch" => ReleaseRoute(Resolver.Patch)
    case "minor" => ReleaseRoute(Resolver.Minor)
    case "major" => ReleaseRoute(Resolver.Major)
    case "history" => HistoryRoute
    case "contributors" => ContributorsRoute
    case "validate" => ValidateRoute
    case _ => UnknownRoute
  }

  /** `writeError`: the error response of the release plugin, without a command. */
  function ErrorResponse(code: string, message: string): (r: Response)
    ensures r.status == "error" && r.metadata == Metadata("release", "1.0.0", "")
    ensures r.error == Some(ResponseError(code, message, map[]))
  {
    Response("error", Metadata("release", "1.0.0", ""), map[], Some(ResponseError(code, message, map[])), "", [])
  }

  /** `writeError` followed by `os.Exit(1)`. */
  function FailCalls(w: World, h: seq<Call>, code: string, message: string): (calls: seq<Call>)
    ensures |calls| == 2 && calls[0].effect == Stdout(ErrorResponse(code, message)) && calls[1].effect == Exit(1)
  {
    var c := Ask(w, h, Stdout(ErrorResponse(code, message)));
    [c, Ask(w, h + [c], Exit(1))]
  }

  /** The release system whose state a request's handler reads: the requested one for
      init, the configured one for a release, none otherwise. */
  function SystemFor(w: World, lib: Library, h: seq<Call>, req: Request): string {
    match RouteOf(req.command)
    case InitRoute => InitHandler.RequestedSystem(req)
    case ReleaseRoute(_) => ReleaseHandler.ConfiguredSystem(Config.LoadConfigSpec(w, lib, h).value)
    case _ => ""
  }

  /** The answers of the handlers, each with the calls it makes: a response, the
      handler's error, or the process end a failed pre-flight check causes. */
  function InitAnswer(w: World, lib: Library, h: seq<Call>, found: Result<Registry.Snapshot>, req: Request): Out<Flow<Result<Response>>> {
    var r := InitHandler.HandleInitSpec(w, lib, h, found, req);
    Out(Next(Ok(r.value.0)), r.calls)
  }

  /** A release handler's flow as the switch holds it: its response comes without an
      error. */
  function Lift(f: Flow<Response>): Flow<Result<Response>> {
    if f.Halt? then Halt(f.code) else Next(Ok(f.value))
  }

  function ReleaseAnswer(w: World, lib: Library, h: seq<Call>, found: Result<Registry.Snapshot>, req: Request, t: Resolver.Type): Out<Flow<Result<Response>>> {
    var r := ReleaseHandler.HandleReleaseSpec(w, lib, h, found, req, t);
    Out(Lift(r.value), r.calls)
  }

  function HistoryAnswer(w: World, h: seq<Call>): Out<Flow<Result<Response>>> {
    var r := History.HandleHistorySpec(w, h);
    Out(Next(Ok(r.value)), r.calls)
  }

  function ContributorsAnswer(w: World, h: seq<Call>): Out<Flow<Result<Response>>> {
    var r := ContributorsHandler.HandleContributorsSpec(w, h);
    Out(Next(Ok(r.value)), r.calls)
  }

  function ValidateAnswer(w: World, lib: Library, h: seq<Call>, req: Request): Out<Flow<Result<Response>>> {
    var r := ValidateHandler.HandleValidateSpec(w, lib, h, req);
    Out(Next(Ok(r.value)), r.calls)
  }

  /** The command switch over the handlers. */
  function RouteSpec(w: World, lib: Library, h: seq<Call>, found: Result<Registry.Snapshot>, req: Request): (r: Out<Flow<Result<Response>>>)
    ensures RouteOf(req.command).UnknownRoute? ==> r == Out(Next(Err("unknown command: " + req.command)), [])
  {
    match RouteOf(req.command)
    case InitRoute => InitAnswer(w, lib, h, found, req)
    case InitOptionsRoute => Out(Next(Ok(InitHandler.AvailableOptions())), [])
    case ReleaseRoute(t) => ReleaseAnswer(w, lib, h, found, req, t)
    case HistoryRoute => HistoryAnswer(w, h)
    case ContributorsRoute => ContributorsAnswer(w, h)
    case ValidateRoute => ValidateAnswer(w, lib, h, req)
    case UnknownRoute => Out(Next(Err("unknown command: " + req.command)), [])
  }

  /** After the handler: its error ends the process with EXECUTION_ERROR; a response
      that cannot be written ends it with RESPONSE_ERROR. */
  function FinishSpec(w: World, h: seq<Call>, r: Flow<Result<Response>>): (o: Out<Flow<()>>)
    ensures r.Halt? ==> o == Out(Halt(r.code), [])
    ensures r.Next? && r.value.Err? ==>
      o == Out(Halt(1), FailCalls(w, h, "EXECUTION_ERROR", r.value.error))
  {
    match r
    case Halt(code) => Out(Halt(code), [])
    case Next(Err(e)) => Out(Halt(1), FailCalls(w, h, "EXECUTION_ERROR", e))
    case Next(Ok(resp)) =>
      var c := Ask(w, h, Stdout(resp));
      if c.reply.Done? then Out(Next(()), [c])
      else Out(Halt(1), [c] + FailCalls(w, h + [c], "RESPONSE_ERROR", "failed to encode response: " + ErrorText(c.reply)))
  }

  /** The release system a stdin's request reads; none when it does not decode. */
  function SystemOf(w: World, lib: Library, h: seq<Call>, stdin: string): string {
    var req := lib.decodeRequest(stdin);
    if req.Ok? then SystemFor(w, lib, h, req.value) else ""
  }

  /** `main` once the request has decoded: the handler's answer, then writing it. */
  function RespondSpec(w: World, lib: Library, h: seq<Call>, found: Result<Registry.Snapshot>, req: Request): Out<Flow<()>> {
    var r := RouteSpec(w, lib, h, found, req);
    var fin := FinishSpec(w, h + r.calls, r.value);
    Out(fin.value, r.calls + fin.calls)
  }

  /** `main`, given the registry's state for `SystemOf` the input. */
  function ServeSpec(w: World, lib: Library, h: seq<Call>, found: Result<Registry.Snapshot>, stdin: string): Out<Flow<()>> {
    var req := lib.decodeRequest(stdin);
    if req.Err? then Out(Halt(1), FailCalls(w, h, "PARSE_ERROR", "failed to parse request: " + req.error))
    else RespondSpec(w, lib, h, found, req.value)
  }

  method Fail(sh: Shell, code: string, message: string) returns (f: Flow<()>)
    modifies sh`trace
    ensures f == Halt(1)
    ensures sh.trace == old(sh.trace) + FailCalls(sh.world, old(sh.trace), code, message)
  {
    var _ := sh.Do(Stdout(ErrorResponse(code, message)));
    var _ := sh.Do(Exit(1));
    f := Halt(1);
  }

  method RunInit(sh: Shell, reg: Registry.Registry, req: Request) returns (r: Flow<Result<Response>>)
    modifies sh`trace, Registry.Footprint(reg.tools)
    ensures reg.tools == old(reg.tools)
    ensures Performs(old(sh.trace), sh.trace, r,
                     InitAnswer(sh.world, sh.lib, old(sh.trace), old(Registry.Find(reg.tools, InitHandler.RequestedSystem(req))), req))
  {
    var resp := InitHandler.HandleInit(sh, reg, req);
    r := Next(Ok(resp));
  }

  method RunRelease(sh: Shell, reg: Registry.Registry, req: Request, t: Resolver.Type) returns (r: Flow<Result<Response>>)
    modifies sh`trace, Registry.Footprint(reg.tools)
    ensures reg.tools == old(reg.tools)
    ensures var system := ReleaseHandler.ConfiguredSystem(Config.LoadConfigSpec(sh.world, sh.lib, old(sh.trace)).value);
      var spec := ReleaseHandler.HandleReleaseSpec(sh.world, sh.lib, old(sh.trace), old(Registry.Find(reg.tools, system)), req, t);
      sh.trace == old(sh.trace) + spec.calls && r == Lift(spec.value)
  {
    var f := ReleaseHandler.HandleRelease(sh, reg, req, t);
    r := if f.Halt? then Halt(f.code) else Next(Ok(f.value));
  }

  method RouteRequest(sh: Shell, reg: Registry.Registry, req: Request) returns (r: Flow<Result<Response>>)
    modifies sh`trace, Registry.Footprint(reg.tools)
    ensures reg.tools == old(reg.tools)
    ensures Performs(old(sh.trace), sh.trace, r,
                     RouteSpec(sh.world, sh.lib, old(sh.trace),
                               old(Registry.Find(reg.tools, SystemFor(sh.world, sh.lib, sh.trace, req))), req))
  {
    ghost var found := Registry.Find(reg.tools, SystemFor(sh.world, sh.lib, sh.trace, req));
    match RouteOf(req.command) {
      case InitRoute =>
        r := RunInit(sh, reg, req);
      case InitOptionsRoute =>
        r := Next(Ok(InitHandler.AvailableOptions()));
      case ReleaseRoute(t) =>
        r := RunRelease(sh, reg, req, t);
      case HistoryRoute =>
        var resp := History.HandleHistory(sh);
        r := Next(Ok(resp));
      case ContributorsRoute =>
        var resp := ContributorsHandler.HandleContributors(sh);
        r := Next(Ok(resp));
      case ValidateRoute =>
        var resp := ValidateHandler.HandleValidate(sh, req);
        r := Next(Ok(resp));
      case UnknownRoute =>
        r := Next(Err("unknown command: " + req.command));
    }
  }

  method Finish(sh: Shell, r: Flow<Result<Response>>) returns (f: Flow<()>)
    modifies sh`trace
    ensures Performs(old(sh.trace), sh.trace, f, FinishSpec(sh.world, old(sh.trace), r))
  {
    match r {
      case Halt(code) =>
        f := Halt(code);
      case Next(Err(e)) =>
        f := Fail(sh, "EXECUTION_ERROR", e);
      case Next(Ok(resp)) =>
        var reply := sh.Do(Stdout(resp));
        if reply.Done? {
          f := Next(());
        } else {
          ghost var c := sh.trace;
          f := Fail(sh, "RESPONSE_ERROR", "failed to encode response: " + ErrorText(reply));
          AppendAssoc(old(sh.trace), [Ask(sh.world, old(sh.trace), Stdout(resp))], FailCalls(sh.world, c, "RESPONSE_ERROR", "failed to encode response: " + ErrorText(reply)));
        }
    }
  }

  /** Routing a decoded request and writing the answer. */
  method Respond(sh: Shell, reg: Registry.Registry, req: Request) returns (f: Flow<()>)
    modifies sh`trace, Registry.Footprint(reg.tools)
    ensures reg.tools == old(reg.tools)
    ensures Performs(old(sh.trace), sh.trace, f,
                     RespondSpec(sh.world, sh.lib, old(sh.trace),
                                 old(Registry.Find(reg.tools, SystemFor(sh.world, sh.lib, sh.trace, req))), req))
  {
    ghost var h := sh.trace;
    var r := RouteRequest(sh, reg, req);
    ghost var routed := sh.trace[|h|..];
    assert sh.trace == h + routed;
    f := Finish(sh, r);
    AppendAssoc(h, routed, sh.trace[|h + routed|..]);
  }

  /** `main`, on the text of its standard input. */
  method Serve(sh: Shell, reg: Registry.Registry, stdin: string) returns (f: Flow<()>)
    modifies sh`trace, sh`verbose, Registry.Footprint(reg.tools)
    ensures reg.tools == old(reg.tools)
    ensures sh.lib.decodeRequest(stdin).Ok? ==> sh.verbose == sh.lib.decodeRequest(stdin).value.context.verbose
    ensures Performs(old(sh.trace), sh.trace, f,
                     ServeSpec(sh.world, sh.lib, old(sh.trace),
                               old(Registry.Find(reg.tools, SystemOf(sh.world, sh.lib, sh.trace, stdin))), stdin))
  {
    var req := sh.lib.decodeRequest(stdin);
    if req.Err? {
      f := Fail(sh, "PARSE_ERROR", "failed to parse request: " + req.error);
      return;
    }
    ghost var h := sh.trace;
    ghost var found := Registry.Find(reg.tools, SystemFor(sh.world, sh.lib, h, req.value));
    assert ServeSpec(sh.world, sh.lib, h, found, stdin) == RespondSpec(sh.world, sh.lib, h, found, req.value);
    sh.verbose := req.value.context.verbose;
    assert found == Registry.Find(reg.tools, SystemFor(sh.world, sh.lib, h, req.value));
    Registry.ShellOutside(reg.tools, sh);
    f := Respond(sh, reg, req.value);
  }

  // ---- Properties ---------------------------------------------------------------------

  /** A request that does not decode is answered with PARSE_ERROR and exit status 1,
      and no handler runs. */
  lemma UndecodableRequest(w: World, lib: Library, h: seq<Call>, found: Result<Registry.Snapshot>, stdin: string)
    requires lib.decodeRequest(stdin).Err?
    ensures var r := ServeSpec(w, lib, h, found, stdin);
      r.value == Halt(1) && |r.calls| == 2 &&
      r.calls[0].effect == Stdout(ErrorResponse("PARSE_ERROR", "failed to parse request: " + lib.decodeRequest(stdin).error)) &&
      r.calls[1].effect == Exit(1)
  {
  }

  /** An unknown command runs no handler: EXECUTION_ERROR naming it, then exit 1. */
  lemma UnknownCommandFails(w: World, lib: Library, h: seq<Call>, found: Result<Registry.Snapshot>, stdin: string)
    requires lib.decodeRequest(stdin).Ok? && RouteOf(lib.decodeRequest(stdin).value.command).UnknownRoute?
    ensures var command := lib.decodeRequest(stdin).value.command;
      var r := ServeSpec(w, lib, h, found, stdin);
      r.value == Halt(1) &&
      r.calls == FailCalls(w, h, "EXECUTION_ERROR", "unknown command: " + command)
  {
    var req := lib.decodeRequest(stdin).value;
    var r := RouteSpec(w, lib, h, found, req);
    assert r == Out(Next(Err("unknown command: " + req.command)), []);
    assert h + r.calls == h;
    var fin := FinishSpec(w, h, r.value);
    assert fin == Out(Halt(1), FailCalls(w, h, "EXECUTION_ERROR", "unknown command: " + req.command));
    assert ServeSpec(w, lib, h, found, stdin) == Out(fin.value, r.calls + fin.calls);
  }

  /** The three release commands are the three release types. */
  lemma ReleaseCommands()
    ensures RouteOf("patch") == ReleaseRoute(Resolver.Patch)
    ensures RouteOf("minor") == ReleaseRoute(Resolver.Minor)
    ensures RouteOf("major") == ReleaseRoute(Resolver.Major)
    ensures RouteOf("Patch").UnknownRoute?
  {
  }

  /** A handler's response that is written out ends the run normally; the process
      ends with a non-zero status only through an error response or a pre-flight exit. */
  lemma HaltsOnlyOnFailure(w: World, h: seq<Call>, r: Flow<Result<Response>>)
    ensures var o := FinishSpec(w, h, r);
      o.value.Halt? ==>
        r.Halt? || (o.value.code == 1 && |o.calls| >= 2 && o.calls[|o.calls| - 1].effect == Exit(1))
  {
  }
}
