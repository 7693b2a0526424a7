/** `HandleRelease`, the plugin command behind `patch`, `minor` and `major`: it loads
    the configuration, asks the service for the current and next version, answers a
    dry run with that preview, and otherwise runs the release and reports how it
    ended. Every outcome is a response; only a failed pre-flight check ends the
    process instead. */
module ReleaseHandler {
  import opened Wrappers
  import opened Effects
  import opened PluginTypes
  import Semver
  import Config
  import VersionGuard
  import Resolver
  import Registry
  import Service
  import Git
  import Preflight

  const PluginName := "release"
  const PluginVersion := "1.0.0"
  const DryRunFlag := "dry-run"
  const InitHint := "Run 'neko release init' first to initialize the release configuration"

  /** `getFlagBool`: true only for a flag that is present and holds the boolean true. */
  function GetFlagBool(flags: map<string, Value>, name: string): (b: bool)
    ensures b <==> name in flags && flags[name] == Bool(true)
  {
    if name in flags && flags[name].Bool? then flags[name].b else false
  }

  function Meta(t: Resolver.Type): Metadata {
    Metadata(PluginName, PluginVersion, t)
  }

  function ErrorResponse(t: Resolver.Type, code: string, message: string, details: map<string, Value>): (r: Response)
    ensures r.status == "error" && r.metadata == Meta(t) && r.data == map[]
    ensures r.error == Some(ResponseError(code, message, details))
  {
    Response("error", Meta(t), map[], Some(ResponseError(code, message, details)), "", [])
  }

  /** One row of a table of properties. */
  function Row(property: string, value: string): Value {
    Obj(map["property" := Str(property), "value" := Str(value)])
  }

  /** The preview a dry run answers with. */
  function DryRunResponse(t: Resolver.Type, current: Semver.Version, next: Semver.Version, system: string): (r: Response)
    ensures r.status == "success" && r.error.None? && r.rendererHint == "table"
    ensures r.metadata == Meta(t) && r.metadata.command == t
    ensures r.data.Keys == {"items"} && r.data["items"].List? && |r.data["items"].items| == 6
    ensures r.data["items"].items[0] == Row("Release Type", t)
    ensures r.data["items"].items[1] == Row("Current Version", Semver.Format(current))
    ensures r.data["items"].items[2] == Row("New Version", Semver.Format(next))
    ensures r.data["items"].items[3] == Row("Release System", system)
    ensures r.data["items"].items[4] == Row("Dry Run", "yes")
  {
    Response("success", Meta(t), map["items" := List([
      Row("Release Type", t),
      Row("Current Version", Semver.Format(current)),
      Row("New Version", Semver.Format(next)),
      Row("Release System", system),
      Row("Dry Run", "yes"),
      Row("Status", "Preview - no changes made")])], None, "table", [])
  }

  /** The answer to a successful release. */
  function ReleasedResponse(t: Resolver.Type, previous: Semver.Version, next: Semver.Version, system: string): (r: Response)
    ensures r.status == "success" && r.error.None? && r.rendererHint == "table"
    ensures r.metadata == Meta(t) && r.metadata.command == t
    ensures r.data.Keys == {"items"} && r.data["items"].List? && |r.data["items"].items| == 5
    ensures r.data["items"].items[0] == Row("Release Type", t)
    ensures r.data["items"].items[1] == Row("Previous Version", Semver.Format(previous))
    ensures r.data["items"].items[2] == Row("New Version", Semver.Format(next))
    ensures r.data["items"].items[3] == Row("Release System", system)
  {
    Response("success", Meta(t), map["items" := List([
      Row("Release Type", t),
      Row("Previous Version", Semver.Format(previous)),
      Row("New Version", Semver.Format(next)),
      Row("Release System", system),
      Row("Status", "Released successfully")])], None, "table", [])
  }

  /** The answer to a release that ran: the process exit of a failed pre-flight
      check, RELEASE_FAILED with the error, or the released versions. */
  function RunAnswer(t: Resolver.Type, run: Flow<Failure>, current: Semver.Version, next: Semver.Version, system: string): (f: Flow<Response>)
    ensures run.Halt? <==> f.Halt?
    ensures run.Halt? ==> f.code == run.code
    ensures run.Next? && run.value.Some? ==> f == Next(ErrorResponse(t, "RELEASE_FAILED", run.value.value, map[]))
    ensures run == Next(None) ==> f == Next(ReleasedResponse(t, current, next, system))
    ensures f.Next? ==> f.value.metadata.command == t
  {
    match run
    case Halt(code) => Halt(code)
    case Next(err) =>
      if err.Some? then Next(ErrorResponse(t, "RELEASE_FAILED", err.value, map[]))
      else Next(ReleasedResponse(t, current, next, system))
  }

  /** Everything after the configuration `cfg` loaded. */
  function AnswerSpec(w: World, lib: Library, h: seq<Call>, found: Result<Registry.Snapshot>, req: Request, t: Resolver.Type, cfg: ReleaseConfig): Out<Flow<Response>> {
    var g := Service.GetNewVersionSpec(w, lib, h, cfg, t);
    if g.value.Err? then Out(Next(ErrorResponse(t, "VERSION_ERROR", g.value.error, map[])), g.calls)
    else if GetFlagBool(req.flags, DryRunFlag) then
      Out(Next(DryRunResponse(t, g.value.value.0, g.value.value.1, cfg.releaseSystem)), g.calls)
    else
      var run := Service.RunSpec(w, lib, h + g.calls, cfg, found, t);
      Out(RunAnswer(t, run.value.flow, g.value.value.0, g.value.value.1, cfg.releaseSystem), g.calls + run.calls)
  }

  /** The release system a loaded configuration names; none when it did not load. */
  function ConfiguredSystem(load: Result<ReleaseConfig>): string {
    if load.Ok? then load.value.releaseSystem else ""
  }

  /** `HandleRelease`, given what the registry holds under the configured release
      system. */
  function HandleReleaseSpec(w: World, lib: Library, h: seq<Call>, found: Result<Registry.Snapshot>, req: Request, t: Resolver.Type): Out<Flow<Response>> {
    var load := Config.LoadConfigSpec(w, lib, h);
    if load.value.Err? then
      Out(Next(ErrorResponse(t, "CONFIG_NOT_FOUND", load.value.error, map["hint" := Str(InitHint)])), load.calls)
    else
      var rest := AnswerSpec(w, lib, h + load.calls, found, req, t, load.value.value);
      Out(rest.value, load.calls + rest.calls)
  }

  method Answer(sh: Shell, reg: Registry.Registry, req: Request, t: Resolver.Type, cfg: ReleaseConfig) returns (f: Flow<Response>)
    modifies sh`trace, Registry.Footprint(reg.tools)
    ensures Performs(old(sh.trace), sh.trace, f,
                     AnswerSpec(sh.world, sh.lib, old(sh.trace), old(Registry.Find(reg.tools, cfg.releaseSystem)), req, t, cfg))
  {
    ghost var h := sh.trace;
    ghost var found := Registry.Find(reg.tools, cfg.releaseSystem);
    ghost var gs := Service.GetNewVersionSpec(sh.world, sh.lib, h, cfg, t);
    var svc := new Service.Service(cfg, reg);
    var versions := svc.GetNewVersion(sh, t);
    assert versions == gs.value && sh.trace == h + gs.calls;
    if versions.Err? {
      return Next(ErrorResponse(t, "VERSION_ERROR", versions.error, map[]));
    }
    if GetFlagBool(req.flags, DryRunFlag) {
      return Next(DryRunResponse(t, versions.value.0, versions.value.1, cfg.releaseSystem));
    }
    assert Registry.Find(reg.tools, cfg.releaseSystem) == found;
    ghost var rs := Service.RunSpec(sh.world, sh.lib, h + gs.calls, cfg, found, t);
    var run := svc.Run(sh, t);
    assert run == rs.value.flow && sh.trace == h + gs.calls + rs.calls;
    AppendAssoc(h, gs.calls, rs.calls);
    f := RunAnswer(t, run, versions.value.0, versions.value.1, cfg.releaseSystem);
  }

  method HandleRelease(sh: Shell, reg: Registry.Registry, req: Request, t: Resolver.Type) returns (f: Flow<Response>)
    modifies sh`trace, Registry.Footprint(reg.tools)
    ensures var system := ConfiguredSystem(Config.LoadConfigSpec(sh.world, sh.lib, old(sh.trace)).value);
      Performs(old(sh.trace), sh.trace, f,
               HandleReleaseSpec(sh.world, sh.lib, old(sh.trace), old(Registry.Find(reg.tools, system)), req, t))
  {
    ghost var h := sh.trace;
    var cfg := Config.LoadConfig(sh);
    if cfg.Err? {
      return Next(ErrorResponse(t, "CONFIG_NOT_FOUND", cfg.error, map["hint" := Str(InitHint)]));
    }
    ghost var load := sh.trace[|h|..];
    assert sh.trace == h + load;
    ghost var found := Registry.Find(reg.tools, cfg.value.releaseSystem);
    assert found == old(Registry.Find(reg.tools, cfg.value.releaseSystem));
    ghost var rest := AnswerSpec(sh.world, sh.lib, h + load, found, req, t, cfg.value);
    assert HandleReleaseSpec(sh.world, sh.lib, h, found, req, t) == Out(rest.value, load + rest.calls);
    f := Answer(sh, reg, req, t, cfg.value);
    assert f == rest.value;
    assert sh.trace == h + load + rest.calls;
    AppendAssoc(h, load, rest.calls);
  }

  // ---- Properties ---------------------------------------------------------------------

  /** A dry run never releases: after the configuration and the version guard it
      answers with the preview of the current and next version. */
  lemma DryRunOnlyPreviews(w: World, lib: Library, h: seq<Call>, found: Result<Registry.Snapshot>, req: Request, t: Resolver.Type)
    requires GetFlagBool(req.flags, DryRunFlag)
    requires Config.LoadConfigSpec(w, lib, h).value.Ok?
    requires var load := Config.LoadConfigSpec(w, lib, h);
      Service.GetNewVersionSpec(w, lib, h + load.calls, load.value.value, t).value.Ok?
    ensures var load := Config.LoadConfigSpec(w, lib, h);
      var g := VersionGuard.VersionGuardSpec(w, lib, h + load.calls, load.value.value);
      var r := HandleReleaseSpec(w, lib, h, found, req, t);
      r.calls == load.calls + g.calls &&
      r.value == Next(DryRunResponse(t, g.value.value, Resolver.NextVersion(g.value.value, t), load.value.value.releaseSystem))
  {
  }

  /** A release that returns an error is answered with RELEASE_FAILED and that error. */
  lemma RunErrorIsReleaseFailed(w: World, lib: Library, h: seq<Call>, found: Result<Registry.Snapshot>, req: Request, t: Resolver.Type)
    requires !GetFlagBool(req.flags, DryRunFlag)
    requires Config.LoadConfigSpec(w, lib, h).value.Ok?
    requires var load := Config.LoadConfigSpec(w, lib, h);
      Service.GetNewVersionSpec(w, lib, h + load.calls, load.value.value, t).value.Ok?
    ensures var load := Config.LoadConfigSpec(w, lib, h);
      var cfg := load.value.value;
      var g := Service.GetNewVersionSpec(w, lib, h + load.calls, cfg, t);
      var run := Service.RunSpec(w, lib, h + load.calls + g.calls, cfg, found, t);
      var r := HandleReleaseSpec(w, lib, h, found, req, t);
      (run.value.flow.Next? && run.value.flow.value.Some? ==>
         r.value == Next(ErrorResponse(t, "RELEASE_FAILED", run.value.flow.value.value, map[]))) &&
      (run.value.flow == Next(None) ==>
         var tag := VersionGuard.VersionGuardSpec(w, lib, h + load.calls, cfg).value.value;
         r.value == Next(ReleasedResponse(t, tag, Resolver.NextVersion(tag, t), cfg.releaseSystem))) &&
      (run.value.flow.Halt? ==> r.value == Halt(run.value.flow.code))
  {
  }

  /** Every answer is for the command that asked: its metadata names the release type. */
  lemma AnswerNamesCommand(w: World, lib: Library, h: seq<Call>, found: Result<Registry.Snapshot>, req: Request, t: Resolver.Type, cfg: ReleaseConfig)
    ensures AnswerSpec(w, lib, h, found, req, t, cfg).value.Next? ==>
      AnswerSpec(w, lib, h, found, req, t, cfg).value.value.metadata.command == t
  {
  }

  /** Every response `HandleRelease` gives carries the release type as its command. */
  lemma ResponseNamesCommand(w: World, lib: Library, h: seq<Call>, found: Result<Registry.Snapshot>, req: Request, t: Resolver.Type)
    ensures HandleReleaseSpec(w, lib, h, found, req, t).value.Next? ==>
      HandleReleaseSpec(w, lib, h, found, req, t).value.value.metadata == Metadata(PluginName, PluginVersion, t)
  {
    var load := Config.LoadConfigSpec(w, lib, h);
    if load.value.Ok? {
      AnswerNamesCommand(w, lib, h + load.calls, found, req, t, load.value.value);
    }
  }

  /** A configuration that does not load, for whatever reason, is answered with
      CONFIG_NOT_FOUND, the loader's message and the hint to run init, and nothing
      else is done. */
  lemma ConfigErrorAnswered(w: World, lib: Library, h: seq<Call>, found: Result<Registry.Snapshot>, req: Request, t: Resolver.Type)
    requires Config.LoadConfigSpec(w, lib, h).value.Err?
    ensures var load := Config.LoadConfigSpec(w, lib, h);
      var r := HandleReleaseSpec(w, lib, h, found, req, t);
      r.calls == load.calls && r.value.Next? &&
      r.value.value.error == Some(ResponseError("CONFIG_NOT_FOUND", load.value.error, map["hint" := Str(InitHint)]))
  {
  }

  /** Without a dry run the version guard runs twice: once for the versions of the
      answer and again inside the release, each time starting with `git fetch`. */
  lemma GuardRunsTwice(w: World, lib: Library, h: seq<Call>, found: Result<Registry.Snapshot>, req: Request, t: Resolver.Type)
    requires !GetFlagBool(req.flags, DryRunFlag)
    requires Config.LoadConfigSpec(w, lib, h).value.Ok?
    requires var load := Config.LoadConfigSpec(w, lib, h);
      Service.GetNewVersionSpec(w, lib, h + load.calls, load.value.value, t).value.Ok?
    requires var load := Config.LoadConfigSpec(w, lib, h);
      var g := Service.GetNewVersionSpec(w, lib, h + load.calls, load.value.value, t);
      Service.ChecksSpec(w, lib, h + load.calls + g.calls, load.value.value).value.Next?
    ensures var r := HandleReleaseSpec(w, lib, h, found, req, t);
      exists i, j :: 0 <= i < j < |r.calls| &&
        r.calls[i].effect == VersionGuard.FetchCmd && r.calls[j].effect == VersionGuard.FetchCmd
  {
    var load := Config.LoadConfigSpec(w, lib, h);
    var cfg := load.value.value;
    var g := Service.GetNewVersionSpec(w, lib, h + load.calls, cfg, t);
    var run := Service.RunSpec(w, lib, h + load.calls + g.calls, cfg, found, t);
    ReleaseCalls(w, lib, h, found, req, t);
    AnswerCalls(w, lib, h + load.calls, found, req, t, cfg);
    VersionGuard.GuardFetchesFirst(w, lib, h + load.calls, cfg);
    var k := Service.RunFetches(w, lib, h + load.calls + g.calls, cfg, found, t);
    FetchedTwice(HandleReleaseSpec(w, lib, h, found, req, t).calls, load.calls, g.calls, run.calls, k);
  }

  /** The calls of a release whose configuration loaded: the load, then the answer's. */
  lemma ReleaseCalls(w: World, lib: Library, h: seq<Call>, found: Result<Registry.Snapshot>, req: Request, t: Resolver.Type)
    requires Config.LoadConfigSpec(w, lib, h).value.Ok?
    ensures var load := Config.LoadConfigSpec(w, lib, h);
      HandleReleaseSpec(w, lib, h, found, req, t).calls ==
        load.calls + AnswerSpec(w, lib, h + load.calls, found, req, t, load.value.value).calls
  {
  }

  /** The calls of an answer that is no dry run and found its versions: the guard's,
      then the run's. */
  lemma AnswerCalls(w: World, lib: Library, h: seq<Call>, found: Result<Registry.Snapshot>, req: Request, t: Resolver.Type, cfg: ReleaseConfig)
    requires !GetFlagBool(req.flags, DryRunFlag)
    requires Service.GetNewVersionSpec(w, lib, h, cfg, t).value.Ok?
    ensures var g := Service.GetNewVersionSpec(w, lib, h, cfg, t);
      AnswerSpec(w, lib, h, found, req, t, cfg).calls == g.calls + Service.RunSpec(w, lib, h + g.calls, cfg, found, t).calls
  {
  }

  /** Calls made of some calls, calls that start with a fetch, then calls with a fetch
      at `k` hold two fetches. */
  lemma FetchedTwice(calls: seq<Call>, before: seq<Call>, first: seq<Call>, second: seq<Call>, k: nat)
    requires calls == before + (first + second)
    requires |first| > 0 && first[0].effect == VersionGuard.FetchCmd
    requires k < |second| && second[k].effect == VersionGuard.FetchCmd
    ensures exists i, j ::
      0 <= i < j < |calls| && calls[i].effect == VersionGuard.FetchCmd && calls[j].effect == VersionGuard.FetchCmd
  {
    var i := |before|;
    var j := |before| + |first| + k;
    assert calls[i] == first[0];
    assert calls[j] == second[k];
  }
}
