/** The release service: the saga around a release. It runs the checks (the
    pre-flight checks and the version guard), looks up the configured release
    system, releases the next version with it, and on failure rolls the release
    back exactly once. A successful release records the new version in the
    configuration, and failing to save it only warns. */
module Service {
  import opened Wrappers
  import opened Strs
  import opened Effects
  import Semver
  import Git
  import Preflight
  import VersionGuard
  import Resolver
  import Config
  import CliErrors
  import Registry

  const NotFoundPrefix := "release System Not Found: "
  const FailedPrefix := "release failed: "
  const UndoFailed := ": Failed undoing changes: "
  const UpdateTitle := "Failed to update local config"
  const UpdatePrefix := "Updating version in .release.neko.json failed. Attempting to proceed with release: "

  /** The error `Run` returns for a failed release: the release error, and the
      rollback's error after it when the rollback failed too. */
  function ReleaseError(releaseErr: string, revertErr: Failure): (m: string)
    ensures HasPrefix(m, FailedPrefix + releaseErr)
    ensures revertErr.None? ==> m == FailedPrefix + releaseErr
    ensures revertErr.Some? ==> HasSuffix(m, UndoFailed + revertErr.value)
  {
    if revertErr.Some? then FailedPrefix + releaseErr + UndoFailed + revertErr.value
    else FailedPrefix + releaseErr
  }

  /** How `Run` ended: its flow (a process exit in the pre-flight checks, or the
      returned error), the configuration afterwards, and what the release system
      holds afterwards when it was asked to release. */
  datatype Outcome = Outcome(flow: Flow<Failure>, cfg: ReleaseConfig, tool: Option<Registry.Snapshot>)

  /** The release itself, once the checks have passed and the next version is
      known: on failure the rollback, on success `updateConfig` and, when saving
      fails, a warning. */
  function ReleasePhase(w: World, lib: Library, h: seq<Call>, cfg: ReleaseConfig, s: Registry.Snapshot, next: Semver.Version): Out<Outcome> {
    var rel := Registry.ReleaseSpec(w, lib, h, s, next);
    if rel.value.1.Some? then
      var rev := Registry.RevertSpec(w, lib, h + rel.calls, rel.value.0);
      Out(Outcome(Next(Some(ReleaseError(rel.value.1.value, rev.value))), cfg, Some(rel.value.0)), rel.calls + rev.calls)
    else
      var updated := cfg.(version := Semver.Format(next));
      var save := Config.SaveConfigSpec(w, h + rel.calls, updated);
      var warn := if save.value.Some? then CliErrors.WarningCalls(w, h + rel.calls + save.calls, UpdateTitle, UpdatePrefix + save.value.value) else [];
      Out(Outcome(Next(None), updated, Some(rel.value.0)), rel.calls + save.calls + warn)
  }

  /** The checks before a release: the remote lookup (whose result is ignored), the
      pre-flight checks, which end the process on failure, and the version guard. */
  function ChecksSpec(w: World, lib: Library, h: seq<Call>, cfg: ReleaseConfig): Out<Flow<Result<Semver.Version>>> {
    var cur := Git.CurrentSpec(w, h);
    var pre := Preflight.PreflightSpec(w, h + cur.calls);
    if pre.value.Halt? then Out(Halt(pre.value.code), cur.calls + pre.calls)
    else
      var g := VersionGuard.VersionGuardSpec(w, lib, h + cur.calls + pre.calls, cfg);
      Out(Next(g.value), cur.calls + pre.calls + g.calls)
  }

  /** `Run`: the checks, the release system, then the release phase with the next
      version of the requested type. `found` is what the registry holds under the
      configured release system. */
  function RunSpec(w: World, lib: Library, h: seq<Call>, cfg: ReleaseConfig, found: Result<Registry.Snapshot>, t: Resolver.Type): (r: Out<Outcome>)
    ensures r.value.tool.Some? ==> found.Ok?
  {
    var c := ChecksSpec(w, lib, h, cfg);
    if c.value.Halt? then Out(Outcome(Halt(c.value.code), cfg, None), c.calls)
    else
      var p := ProceedSpec(w, lib, h + c.calls, cfg, found, t, c.value.value);
      Out(p.value, c.calls + p.calls)
  }

  /** What `Run` does once the checks did not end the process: stop at a guard error
      or an unknown release system, otherwise the release phase with the next version
      of the requested type. */
  function ProceedSpec(w: World, lib: Library, h: seq<Call>, cfg: ReleaseConfig, found: Result<Registry.Snapshot>, t: Resolver.Type, checked: Result<Semver.Version>): (r: Out<Outcome>)
    ensures r.value.tool.Some? ==> found.Ok?
  {
    if checked.Err? then Out(Outcome(Next(Some(checked.error)), cfg, None), [])
    else if found.Err? then Out(Outcome(Next(Some(NotFoundPrefix + found.error)), cfg, None), [])
    else
      var v := checked.value;
      ReleasePhase(w, lib, h, cfg, found.value, Resolver.NextVersion(v, Resolver.ResolveReleaseType(v, t).0))
  }

  /** `GetNewVersion`: the guarded version and the next one of type `t`. */
  function GetNewVersionSpec(w: World, lib: Library, h: seq<Call>, cfg: ReleaseConfig, t: Resolver.Type): Out<Result<(Semver.Version, Semver.Version)>> {
    var g := VersionGuard.VersionGuardSpec(w, lib, h, cfg);
    Out(if g.value.Err? then Err(g.value.error) else Ok((g.value.value, Resolver.NextVersion(g.value.value, t))), g.calls)
  }

  class Service {
    var cfg: ReleaseConfig
    const registry: Registry.Registry

    constructor(cfg: ReleaseConfig, registry: Registry.Registry)
      ensures this.cfg == cfg && this.registry == registry
    {
      this.cfg := cfg;
      this.registry := registry;
    }

    /** `updateConfig`: the configuration takes the new version, then is saved. */
    method UpdateConfig(sh: Shell, next: Semver.Version) returns (err: Failure)
      modifies this`cfg, sh`trace
      ensures cfg == old(cfg).(version := Semver.Format(next))
      ensures Performs(old(sh.trace), sh.trace, err, Config.SaveConfigSpec(sh.world, old(sh.trace), cfg))
    {
      cfg := cfg.(version := Semver.Format(next));
      err := Config.SaveConfig(sh, cfg);
    }

    method GetNewVersion(sh: Shell, t: Resolver.Type) returns (r: Result<(Semver.Version, Semver.Version)>)
      modifies sh`trace
      ensures Performs(old(sh.trace), sh.trace, r, GetNewVersionSpec(sh.world, sh.lib, old(sh.trace), cfg, t))
    {
      var g := VersionGuard.VersionGuard(sh, cfg);
      if g.Err? {
        return Err(g.error);
      }
      return Ok((g.value, Resolver.NextVersion(g.value, t)));
    }

    method Checks(sh: Shell) returns (f: Flow<Result<Semver.Version>>)
      modifies sh`trace
      ensures Performs(old(sh.trace), sh.trace, f, ChecksSpec(sh.world, sh.lib, old(sh.trace), cfg))
    {
      ghost var h := sh.trace;
      var _ := Git.Current(sh);
      ghost var cur := Git.CurrentSpec(sh.world, h);
      var pf := Preflight.Preflight(sh);
      ghost var pre := Preflight.PreflightSpec(sh.world, h + cur.calls);
      AppendAssoc(h, cur.calls, pre.calls);
      if pf.Halt? {
        return Halt(pf.code);
      }
      var version := VersionGuard.VersionGuard(sh, cfg);
      AppendAssoc(h, cur.calls + pre.calls, VersionGuard.VersionGuardSpec(sh.world, sh.lib, h + cur.calls + pre.calls, cfg).calls);
      return Next(version);
    }

    /** The release phase with `tool`: release, then roll back or record the version. */
    method ReleaseWith(sh: Shell, tool: Registry.Tool, next: Semver.Version) returns (f: Flow<Failure>)
      modifies this`cfg, sh`trace, Registry.Obj(tool)
      ensures var r := ReleasePhase(sh.world, sh.lib, old(sh.trace), old(cfg), old(Registry.Snap(tool)), next);
        sh.trace == old(sh.trace) + r.calls && f == r.value.flow && cfg == r.value.cfg &&
        r.value.tool == Some(Registry.Snap(tool))
    {
      ghost var h := sh.trace;
      ghost var w := sh.world;
      ghost var rel := Registry.ReleaseSpec(w, sh.lib, h, Registry.Snap(tool), next);
      var err := Registry.Release(sh, tool, next);
      if err.Some? {
        ghost var rev := Registry.RevertSpec(w, sh.lib, h + rel.calls, rel.value.0);
        var undo := Registry.RevertRelease(sh, tool);
        AppendAssoc(h, rel.calls, rev.calls);
        return Next(Some(ReleaseError(err.value, undo)));
      }
      ghost var save := Config.SaveConfigSpec(w, h + rel.calls, cfg.(version := Semver.Format(next)));
      var saveErr := UpdateConfig(sh, next);
      AppendAssoc(h, rel.calls, save.calls);
      if saveErr.Some? {
        ghost var warn := CliErrors.WarningCalls(w, h + rel.calls + save.calls, UpdateTitle, UpdatePrefix + saveErr.value);
        CliErrors.Warning(sh, UpdateTitle, UpdatePrefix + saveErr.value);
        AppendAssoc(h, rel.calls + save.calls, warn);
        AppendAssoc(h, rel.calls, save.calls + warn);
      }
      return Next(None);
    }

    method Run(sh: Shell, t: Resolver.Type) returns (f: Flow<Failure>)
      modifies this`cfg, sh`trace, Registry.Footprint(registry.tools)
      ensures registry.tools == old(registry.tools)
      ensures sh.trace == old(sh.trace) + RunSpec(sh.world, sh.lib, old(sh.trace), old(cfg), old(Registry.Find(registry.tools, cfg.releaseSystem)), t).calls
      ensures f == RunSpec(sh.world, sh.lib, old(sh.trace), old(cfg), old(Registry.Find(registry.tools, cfg.releaseSystem)), t).value.flow
      ensures cfg == RunSpec(sh.world, sh.lib, old(sh.trace), old(cfg), old(Registry.Find(registry.tools, cfg.releaseSystem)), t).value.cfg
      ensures RunSpec(sh.world, sh.lib, old(sh.trace), old(cfg), old(Registry.Find(registry.tools, cfg.releaseSystem)), t).value.tool.Some? ==>
        Registry.Snap(registry.tools[old(cfg.releaseSystem)]) ==
        RunSpec(sh.world, sh.lib, old(sh.trace), old(cfg), old(Registry.Find(registry.tools, cfg.releaseSystem)), t).value.tool.value
    {
      ghost var h := sh.trace;
      ghost var cfg0 := cfg;
      ghost var found := Registry.Find(registry.tools, cfg.releaseSystem);
      ghost var run := RunSpec(sh.world, sh.lib, h, cfg0, found, t);
      Registry.ShellOutside(registry.tools, sh);
      var gate := Checks(sh);
      assert Registry.Find(registry.tools, cfg.releaseSystem) == found;
      if gate.Halt? {
        return Halt(gate.code);
      }
      ghost var c := sh.trace[|h|..];
      assert sh.trace == h + c;
      ghost var p := ProceedSpec(sh.world, sh.lib, h + c, cfg0, found, t, gate.value);
      assert run == Out(p.value, c + p.calls);
      f := Proceed(sh, t, gate.value);
      assert sh.trace == h + c + p.calls && f == p.value.flow && cfg == p.value.cfg;
      AppendAssoc(h, c, p.calls);
    }

    /** After the checks: the release system, then the release phase. */
    method Proceed(sh: Shell, t: Resolver.Type, checked: Result<Semver.Version>) returns (f: Flow<Failure>)
      modifies this`cfg, sh`trace, Registry.Footprint(registry.tools)
      ensures registry.tools == old(registry.tools)
      ensures sh.trace == old(sh.trace) + ProceedSpec(sh.world, sh.lib, old(sh.trace), old(cfg), old(Registry.Find(registry.tools, cfg.releaseSystem)), t, checked).calls
      ensures f == ProceedSpec(sh.world, sh.lib, old(sh.trace), old(cfg), old(Registry.Find(registry.tools, cfg.releaseSystem)), t, checked).value.flow
      ensures cfg == ProceedSpec(sh.world, sh.lib, old(sh.trace), old(cfg), old(Registry.Find(registry.tools, cfg.releaseSystem)), t, checked).value.cfg
      ensures ProceedSpec(sh.world, sh.lib, old(sh.trace), old(cfg), old(Registry.Find(registry.tools, cfg.releaseSystem)), t, checked).value.tool.Some? ==>
        Registry.Snap(registry.tools[old(cfg.releaseSystem)]) ==
        ProceedSpec(sh.world, sh.lib, old(sh.trace), old(cfg), old(Registry.Find(registry.tools, cfg.releaseSystem)), t, checked).value.tool.value
    {
      if checked.Err? {
        return Next(Some(checked.error));
      }
      var tool := registry.Get(cfg.releaseSystem);
      if tool.Err? {
        return Next(Some(NotFoundPrefix + tool.error));
      }
      assert tool.value in registry.tools.Values;
      var v := checked.value;
      f := ReleaseWith(sh, tool.value, Resolver.NextVersion(v, Resolver.ResolveReleaseType(v, t).0));
    }
  }

  // ---- Properties of the saga ----------------------------------------------------------

  /** A pre-flight failure ends the process before the version guard runs: nothing
      after the pre-flight checks is asked, and the release system is not touched. */
  lemma PreflightExitEndsRun(w: World, lib: Library, h: seq<Call>, cfg: ReleaseConfig, found: Result<Registry.Snapshot>, t: Resolver.Type)
    requires Preflight.PreflightSpec(w, h + Git.CurrentSpec(w, h).calls).value.Halt?
    ensures var r := RunSpec(w, lib, h, cfg, found, t);
      r.value.flow.Halt? && r.value.tool.None? && r.value.cfg == cfg &&
      r.calls == Git.CurrentSpec(w, h).calls + Preflight.PreflightSpec(w, h + Git.CurrentSpec(w, h).calls).calls
  {
  }

  /** Once the pre-flight checks pass, the checks' result is the version guard's,
      after the remote lookup, the pre-flight checks and the guard in that order. */
  lemma ChecksEndWithGuard(w: World, lib: Library, h: seq<Call>, cfg: ReleaseConfig)
    requires Preflight.PreflightSpec(w, h + Git.CurrentSpec(w, h).calls).value.Next?
    ensures var cur := Git.CurrentSpec(w, h);
      var pre := Preflight.PreflightSpec(w, h + cur.calls);
      var g := VersionGuard.VersionGuardSpec(w, lib, h + cur.calls + pre.calls, cfg);
      ChecksSpec(w, lib, h, cfg) == Out(Next(g.value), cur.calls + pre.calls + g.calls)
  {
  }

  /** Once the pre-flight checks pass, a run fetches from the remote: the guard's
      `git fetch` is the call at index `k` of the run. */
  lemma {:induction false} RunFetches(w: World, lib: Library, h: seq<Call>, cfg: ReleaseConfig, found: Result<Registry.Snapshot>, t: Resolver.Type) returns (k: nat)
    requires ChecksSpec(w, lib, h, cfg).value.Next?
    ensures var r := RunSpec(w, lib, h, cfg, found, t);
      k < |r.calls| && r.calls[k].effect == VersionGuard.FetchCmd
  {
    var cur := Git.CurrentSpec(w, h);
    var pre := Preflight.PreflightSpec(w, h + cur.calls);
    ChecksEndWithGuard(w, lib, h, cfg);
    var g := VersionGuard.VersionGuardSpec(w, lib, h + cur.calls + pre.calls, cfg);
    VersionGuard.GuardFetchesFirst(w, lib, h + cur.calls + pre.calls, cfg);
    var c := ChecksSpec(w, lib, h, cfg);
    k := |cur.calls| + |pre.calls|;
    assert c.calls[k] == g.calls[0];
    var r := RunSpec(w, lib, h, cfg, found, t);
    assert r.calls[..|c.calls|] == c.calls;
    assert r.calls[k] == r.calls[..|c.calls|][k];
  }

  /** A guard error is returned as it is, and no release or rollback follows: the
      only calls are those of the checks. */
  lemma GuardErrorReturned(w: World, lib: Library, h: seq<Call>, cfg: ReleaseConfig, found: Result<Registry.Snapshot>, t: Resolver.Type)
    requires ChecksSpec(w, lib, h, cfg).value.Next? && ChecksSpec(w, lib, h, cfg).value.value.Err?
    ensures var r := RunSpec(w, lib, h, cfg, found, t);
      var c := ChecksSpec(w, lib, h, cfg);
      r.value == Outcome(Next(Some(c.value.value.error)), cfg, None) && r.calls == c.calls
  {
  }

  /** An unknown release system is reported before any release: the error names it,
      and the only calls are those of the checks. */
  lemma UnknownSystemStops(w: World, lib: Library, h: seq<Call>, cfg: ReleaseConfig, tools: map<string, Registry.Tool>, found: Result<Registry.Snapshot>, t: Resolver.Type)
    requires ChecksSpec(w, lib, h, cfg).value.Next? && ChecksSpec(w, lib, h, cfg).value.value.Ok?
    requires cfg.releaseSystem !in tools
    requires found.Err? && found.error == Registry.Lookup(tools, cfg.releaseSystem).error
    ensures var r := RunSpec(w, lib, h, cfg, found, t);
      r.value == Outcome(Next(Some(NotFoundPrefix + "unknown release system: " + cfg.releaseSystem)), cfg, None) &&
      r.calls == ChecksSpec(w, lib, h, cfg).calls
  {
    var r := RunSpec(w, lib, h, cfg, found, t);
    assert r.value.flow == Next(Some(NotFoundPrefix + found.error));
    assert NotFoundPrefix + ("unknown release system: " + cfg.releaseSystem) == NotFoundPrefix + "unknown release system: " + cfg.releaseSystem;
  }

  /** A failed release is rolled back exactly once, right after it, from the state
      the release left; `Run` then returns an error that starts with the release's
      error and, when the rollback fails too, ends with the rollback's. */
  lemma FailedReleaseRevertedOnce(w: World, lib: Library, h: seq<Call>, cfg: ReleaseConfig, s: Registry.Snapshot, t: Resolver.Type)
    requires ChecksSpec(w, lib, h, cfg).value.Next? && ChecksSpec(w, lib, h, cfg).value.value.Ok?
    requires var c := ChecksSpec(w, lib, h, cfg); var v := c.value.value.value;
      Registry.ReleaseSpec(w, lib, h + c.calls, s, Resolver.NextVersion(v, t)).value.1.Some?
    ensures var c := ChecksSpec(w, lib, h, cfg);
      var v := c.value.value.value;
      var rel := Registry.ReleaseSpec(w, lib, h + c.calls, s, Resolver.NextVersion(v, t));
      var rev := Registry.RevertSpec(w, lib, h + c.calls + rel.calls, rel.value.0);
      var r := RunSpec(w, lib, h, cfg, Ok(s), t);
      r.calls == c.calls + rel.calls + rev.calls &&
      r.value.flow.Next? && r.value.flow.value.Some? &&
      HasPrefix(r.value.flow.value.value, FailedPrefix + rel.value.1.value) &&
      (rev.value.Some? ==> HasSuffix(r.value.flow.value.value, UndoFailed + rev.value.value)) &&
      r.value.cfg == cfg
  {
    var c := ChecksSpec(w, lib, h, cfg);
    var v := c.value.value.value;
    var rel := Registry.ReleaseSpec(w, lib, h + c.calls, s, Resolver.NextVersion(v, t));
    AppendAssoc(c.calls, rel.calls, Registry.RevertSpec(w, lib, h + c.calls + rel.calls, rel.value.0).calls);
    AppendAssoc(h, c.calls, rel.calls);
  }

  /** A successful release records the next version in the configuration, whether
      or not saving it works, and `Run` succeeds; for a known release type that
      version is strictly after the guarded one. */
  lemma SuccessRecordsVersion(w: World, lib: Library, h: seq<Call>, cfg: ReleaseConfig, s: Registry.Snapshot, t: Resolver.Type)
    requires ChecksSpec(w, lib, h, cfg).value.Next? && ChecksSpec(w, lib, h, cfg).value.value.Ok?
    requires var c := ChecksSpec(w, lib, h, cfg); var v := c.value.value.value;
      Registry.ReleaseSpec(w, lib, h + c.calls, s, Resolver.NextVersion(v, t)).value.1.None?
    ensures var v := ChecksSpec(w, lib, h, cfg).value.value.value;
      var r := RunSpec(w, lib, h, cfg, Ok(s), t);
      r.value.flow == Next(None) && r.value.cfg == cfg.(version := Semver.Format(Resolver.NextVersion(v, t))) &&
      (t in {Resolver.Major, Resolver.Minor, Resolver.Patch} ==> Semver.LessThan(v, Resolver.NextVersion(v, t)))
  {
    Resolver.NextVersionMonotone(ChecksSpec(w, lib, h, cfg).value.value.value, t);
  }

  /** `Run` succeeds only after every check passed, the release system was found and
      its release succeeded; otherwise the configuration is unchanged. */
  lemma SuccessNeedsRelease(w: World, lib: Library, h: seq<Call>, cfg: ReleaseConfig, found: Result<Registry.Snapshot>, t: Resolver.Type)
    ensures var r := RunSpec(w, lib, h, cfg, found, t);
      var c := ChecksSpec(w, lib, h, cfg);
      (r.value.flow == Next(None) <==>
         c.value.Next? && c.value.value.Ok? && found.Ok? &&
         Registry.ReleaseSpec(w, lib, h + c.calls, found.value, Resolver.NextVersion(c.value.value.value, t)).value.1.None?) &&
      (r.value.flow != Next(None) ==> r.value.cfg == cfg)
  {
  }

  /** `GetNewVersion` pairs the guarded version with its successor, or returns the
      guard's error and no version. */
  lemma NewVersionFromGuard(w: World, lib: Library, h: seq<Call>, cfg: ReleaseConfig, t: Resolver.Type)
    ensures var g := VersionGuard.VersionGuardSpec(w, lib, h, cfg);
      var r := GetNewVersionSpec(w, lib, h, cfg, t);
      r.calls == g.calls &&
      (g.value.Ok? <==> r.value.Ok?) &&
      (r.value.Ok? ==> r.value.value.0 == g.value.value && r.value.value.1 == Resolver.NextVersion(g.value.value, t)) &&
      (r.value.Err? ==> r.value.error == g.value.error)
  {
  }
}
