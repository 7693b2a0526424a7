/** The JReleaser release system. Its release writes the new version into
    jreleaser.yml before the release commit, and leaves tagging, pushing the tag and
    the GitHub release to `jreleaser full-release`; every jreleaser command runs with
    the GitHub token in its environment. */
module JReleaser {
  import opened Wrappers
  import opened Strs
  import opened Effects
  import opened ReleaseSteps
  import Semver
  import Git
  import CliErrors
  import ReleaseTool

  const Name := "jreleaser"

  /** How far a release got. */
  datatype State = State(
    preHead: string,
    releaseCommitHash: string,
    tagName: string,
    ranJRelease: bool,
    pushedCommit: bool)

  const Zero := State("", "", "", false, false)

  const ConfigFile := "jreleaser.yml"
  const HeadCmd := Git.GitCmd(["rev-parse", "--short", "HEAD"])
  const TokenEntry := "JRELEASER_GITHUB_TOKEN="

  /** The two-word action of the dry run is passed as one argument. */
  const CheckAction := "config"
  const DryRunAction := "full-release --dry-run"
  const ReleaseAction := "full-release"

  const DryRunTitle := "JReleaser dry run failed"

  function DryRunMessage(output: string): (m: string)
    ensures m != ""
  {
    "This is a warning - proceeding anyway: " + TrimSpace(output)
  }

  // ---- jreleaser.yml ----------------------------------------------------------------

  /** `LoadConfig`: read the file, then decode it. */
  function LoadConfigSpec(w: World, lib: Library, h: seq<Call>): (r: Out<Result<JReleaserConfig>>)
    ensures r.calls == [Ask(w, h, ReadFile(ConfigFile))]
    ensures var reply := w(h, ReadFile(ConfigFile));
      (r.value.Ok? <==> reply.Done? && lib.decodeJReleaser(reply.out).Ok?) &&
      (r.value.Ok? ==> r.value == lib.decodeJReleaser(reply.out)) &&
      (!reply.Done? ==> r.value == Err("failed to read config file: " + ErrorText(reply)))
  {
    var c := Ask(w, h, ReadFile(ConfigFile));
    if !c.reply.Done? then Out(Err("failed to read config file: " + ErrorText(c.reply)), [c])
    else
      match lib.decodeJReleaser(c.reply.out)
      case Err(e) => Out(Err("failed to parse config: " + e), [c])
      case Ok(doc) => Out(Ok(doc), [c])
  }

  method LoadConfig(sh: Shell) returns (r: Result<JReleaserConfig>)
    modifies sh`trace
    ensures Performs(old(sh.trace), sh.trace, r, LoadConfigSpec(sh.world, sh.lib, old(sh.trace)))
  {
    var reply := sh.Do(ReadFile(ConfigFile));
    if !reply.Done? {
      return Err("failed to read config file: " + ErrorText(reply));
    }
    match sh.lib.decodeJReleaser(reply.out)
    case Err(e) => r := Err("failed to parse config: " + e);
    case Ok(doc) => r := Ok(doc);
  }

  /** `SaveConfig`: writes the whole document; the error is the writer's. */
  function SaveConfigSpec(w: World, h: seq<Call>, doc: JReleaserConfig): (r: Out<Failure>)
    ensures r.calls == [Ask(w, h, SaveJReleaser(ConfigFile, doc))]
    ensures r.value.None? <==> w(h, SaveJReleaser(ConfigFile, doc)).Done?
  {
    var c := Ask(w, h, SaveJReleaser(ConfigFile, doc));
    Out(if c.reply.Done? then None else Some(ErrorText(c.reply)), [c])
  }

  method SaveConfig(sh: Shell, doc: JReleaserConfig) returns (err: Failure)
    modifies sh`trace
    ensures Performs(old(sh.trace), sh.trace, err, SaveConfigSpec(sh.world, old(sh.trace), doc))
  {
    var reply := sh.Do(SaveJReleaser(ConfigFile, doc));
    err := if reply.Done? then None else Some(ErrorText(reply));
  }

  // ---- jreleaser commands -----------------------------------------------------------

  /** What a jreleaser command gives back: its combined output and its error. */
  datatype Executed = Executed(output: string, err: Failure)

  function CommandFor(action: string, pat: string): Effect {
    CmdWithEnv(Name, [action], [TokenEntry + pat])
  }

  /** `executeJReleaserCommand`: the token first, without which nothing runs and
      there is no output; then `jreleaser <action>` with the token added to the
      environment. */
  function ExecuteSpec(w: World, h: seq<Call>, action: string): (r: Out<Executed>)
    ensures |r.calls| >= 1 && r.calls[0] == Ask(w, h, LookupEnv(ReleaseTool.TokenVariable))
    ensures var pat := ReleaseTool.GetPATSpec(w, h).value;
      (pat.Err? ==> r == Out(Executed("", Some(ReleaseTool.PatMissing)), [r.calls[0]])) &&
      (pat.Ok? ==> |r.calls| == 2 && r.calls[1].effect == CommandFor(action, pat.value) &&
                   r.value.output == Output(r.calls[1].reply) &&
                   (r.value.err.None? <==> r.calls[1].reply.Done?))
  {
    var pat := ReleaseTool.GetPATSpec(w, h);
    if pat.value.Err? then Out(Executed("", Some(pat.value.error)), pat.calls)
    else
      var c := Ask(w, h + pat.calls, CommandFor(action, pat.value.value));
      Out(Executed(Output(c.reply), if c.reply.Done? then None else Some("failed to execute command: " + ErrorText(c.reply))),
          pat.calls + [c])
  }

  method Execute(sh: Shell, action: string) returns (r: Executed)
    modifies sh`trace
    ensures Performs(old(sh.trace), sh.trace, r, ExecuteSpec(sh.world, old(sh.trace), action))
  {
    ghost var h := sh.trace;
    var pat := ReleaseTool.GetPAT(sh);
    if pat.Err? {
      return Executed("", Some(pat.error));
    }
    ghost var p := ReleaseTool.GetPATSpec(sh.world, h);
    var reply := sh.Do(CommandFor(action, pat.value));
    AppendAssoc(h, p.calls, [Call(CommandFor(action, pat.value), reply)]);
    r := Executed(Output(reply), if reply.Done? then None else Some("failed to execute command: " + ErrorText(reply)));
  }

  /** A failed command reported as `<what>: <output>: <error>`. */
  function Report(what: string, e: Executed): (f: Failure)
    ensures f.None? <==> e.err.None?
    ensures f.Some? ==> HasPrefix(f.value, what + ": ")
  {
    if e.err.None? then None else Some(what + ": " + e.output + ": " + e.err.value)
  }

  /** Every jreleaser command needs the token: without it the command fails after
      the environment lookup and runs nothing. */
  lemma CommandsNeedToken(w: World, h: seq<Call>, action: string)
    requires ReleaseTool.GetPATSpec(w, h).value.Err?
    ensures var r := ExecuteSpec(w, h, action);
      r.value.err == Some(ReleaseTool.PatMissing) && |r.calls| == 1 && !r.calls[0].effect.CmdWithEnv?
  {
  }

  // ---- Init ---------------------------------------------------------------------

  /** The configuration `runJReleaserInit` generates for a project; the year is the
      current one, as decimal text. */
  function Generated(cfg: ReleaseConfig, year: string): JReleaserConfig {
    JReleaserConfig(
      projectName := cfg.projectName,
      projectVersion := cfg.version,
      groupId := "at." + cfg.projectName,
      inceptionYear := year,
      owner := cfg.projectOwner,
      repoName := cfg.projectName,
      tagName := "v{{projectVersion}}",
      releaseName := cfg.projectName + "@{{projectVersion}}",
      other := "")
  }

  /** `runJReleaserInit`: nothing to do when jreleaser.yml exists; a stat error other
      than "does not exist" fails; otherwise the generated configuration is written. */
  function ConfigInitSpec(w: World, h: seq<Call>, cfg: ReleaseConfig): (r: Out<Failure>)
    ensures |r.calls| >= 1 && r.calls[0] == Ask(w, h, Stat(ConfigFile))
    ensures w(h, Stat(ConfigFile)).Done? ==> r == Out(None, [r.calls[0]])
    ensures var s := w(h, Stat(ConfigFile));
      !s.Done? && !s.Absent? ==> r == Out(Some("failed to check jreleaser.yml: " + ErrorText(s)), [r.calls[0]])
    ensures w(h, Stat(ConfigFile)).Absent? ==>
      |r.calls| == 3 && r.calls[1].effect == CurrentYear &&
      r.calls[2].effect == SaveJReleaser(ConfigFile, Generated(cfg, Output(r.calls[1].reply))) &&
      (r.value.None? <==> r.calls[2].reply.Done?)
  {
    var s := Ask(w, h, Stat(ConfigFile));
    if s.reply.Done? then Out(None, [s])
    else if !s.reply.Absent? then Out(Some("failed to check jreleaser.yml: " + ErrorText(s.reply)), [s])
    else
      var y := Ask(w, h + [s], CurrentYear);
      var save := SaveConfigSpec(w, h + [s, y], Generated(cfg, Output(y.reply)));
      Out(if save.value.None? then None else Some("configuration write failed: " + save.value.value), [s, y] + save.calls)
  }

  method ConfigInit(sh: Shell, cfg: ReleaseConfig) returns (err: Failure)
    modifies sh`trace
    ensures Performs(old(sh.trace), sh.trace, err, ConfigInitSpec(sh.world, old(sh.trace), cfg))
  {
    ghost var h := sh.trace;
    var s := sh.Do(Stat(ConfigFile));
    if s.Done? {
      return None;
    }
    if !s.Absent? {
      return Some("failed to check jreleaser.yml: " + ErrorText(s));
    }
    var y := sh.Do(CurrentYear);
    assert sh.trace == h + [Call(Stat(ConfigFile), s), Call(CurrentYear, y)];
    err := SaveConfig(sh, Generated(cfg, Output(y)));
    if err.Some? {
      err := Some("configuration write failed: " + err.value);
    }
  }

  /** `Init`: the binary, the configuration, then `jreleaser config`; the first
      failure ends it. */
  function InitSpec(w: World, h: seq<Call>, cfg: ReleaseConfig): (r: Out<Failure>)
  {
    var b := ReleaseTool.RequireBinarySpec(w, h, Name);
    if b.value.Some? then b
    else
      var i := ConfigInitSpec(w, h + b.calls, cfg);
      if i.value.Some? then Out(i.value, b.calls + i.calls)
      else
        var c := ExecuteSpec(w, h + b.calls + i.calls, CheckAction);
        Out(Report("JReleaser configuration check failed", c.value), b.calls + i.calls + c.calls)
  }

  /** Without the binary `Init` stops after looking for it; with the binary and an
      existing jreleaser.yml it writes nothing and goes on to the check. */
  lemma InitOrder(w: World, h: seq<Call>, cfg: ReleaseConfig)
    ensures var r := InitSpec(w, h, cfg);
      !w(h, LookPath(Name)).Done? ==> r.value.Some? && r.calls == [Ask(w, h, LookPath(Name))]
    ensures var r := InitSpec(w, h, cfg);
      var b := Ask(w, h, LookPath(Name));
      w(h, LookPath(Name)).Done? && w(h + [b], Stat(ConfigFile)).Done? ==>
        |r.calls| >= 3 && r.calls[1].effect == Stat(ConfigFile) &&
        r.calls[2].effect == LookupEnv(ReleaseTool.TokenVariable) &&
        (forall i :: 0 <= i < |r.calls| ==> !r.calls[i].effect.SaveJReleaser?)
  {
    var b := ReleaseTool.RequireBinarySpec(w, h, Name);
    if b.value.None? && w(h + b.calls, Stat(ConfigFile)).Done? {
      var i := ConfigInitSpec(w, h + b.calls, cfg);
      var c := ExecuteSpec(w, h + b.calls + i.calls, CheckAction);
      assert InitSpec(w, h, cfg).calls == b.calls + i.calls + c.calls;
    }
  }

  // ---- Release ------------------------------------------------------------------

  /** `syncJReleaser`: only a missing jreleaser.yml stops it before loading; the
      loaded document gets the new version and is written back. */
  function SyncSpec(w: World, lib: Library, h: seq<Call>, v: Semver.Version): (r: Out<Failure>)
    ensures |r.calls| >= 1 && r.calls[0] == Ask(w, h, Stat(ConfigFile))
    ensures w(h, Stat(ConfigFile)).Absent? ==> r == Out(Some("jreleaser.yml not found"), [r.calls[0]])
    ensures r.value.None? ==>
      |r.calls| == 3 && r.calls[1].effect == ReadFile(ConfigFile) &&
      r.calls[2].effect.SaveJReleaser? && r.calls[2].effect.doc.projectVersion == Semver.Format(v)
  {
    var s := Ask(w, h, Stat(ConfigFile));
    if s.reply.Absent? then Out(Some("jreleaser.yml not found"), [s])
    else
      var load := LoadConfigSpec(w, lib, h + [s]);
      if load.value.Err? then Out(Some("configuration serialization failed: " + load.value.error), [s] + load.calls)
      else
        var save := SaveConfigSpec(w, h + [s] + load.calls, load.value.value.(projectVersion := Semver.Format(v)));
        Out(if save.value.None? then None else Some("configuration write failed: " + save.value.value),
            [s] + load.calls + save.calls)
  }

  method Sync(sh: Shell, v: Semver.Version) returns (err: Failure)
    modifies sh`trace
    ensures Performs(old(sh.trace), sh.trace, err, SyncSpec(sh.world, sh.lib, old(sh.trace), v))
  {
    ghost var h := sh.trace;
    var s := sh.Do(Stat(ConfigFile));
    if s.Absent? {
      return Some("jreleaser.yml not found");
    }
    ghost var h1 := sh.trace;
    var doc := LoadConfig(sh);
    ghost var load := LoadConfigSpec(sh.world, sh.lib, h1);
    if doc.Err? {
      return Some("configuration serialization failed: " + doc.error);
    }
    ghost var h2 := sh.trace;
    assert h2 == h + [Call(Stat(ConfigFile), s)] + load.calls;
    err := SaveConfig(sh, doc.value.(projectVersion := Semver.Format(v)));
    AppendAssoc(h, [Call(Stat(ConfigFile), s)] + load.calls, SaveConfigSpec(sh.world, h2, doc.value.(projectVersion := Semver.Format(v))).calls);
    if err.Some? {
      err := Some("configuration write failed: " + err.value);
    }
  }

  /** The warning a failed dry run prints: one call, on stderr. */
  function DryRunWarning(w: World, h: seq<Call>, output: string): (calls: seq<Call>)
    ensures |calls| == 1 && calls[0].effect.StderrLines?
  {
    CliErrors.WarningCalls(w, h, DryRunTitle, DryRunMessage(output))
  }

  /** `runJReleaserDryRun`: a dry run whose failure, a missing token included, is
      only a warning. */
  function DryRunSpec(w: World, h: seq<Call>): (r: Out<Failure>)
    ensures r.value.None?
  {
    var e := ExecuteSpec(w, h, DryRunAction);
    if e.value.err.None? then Out(None, e.calls)
    else Out(None, e.calls + DryRunWarning(w, h + e.calls, e.value.output))
  }

  /** The dry run makes the calls of the jreleaser command and, when that fails, a
      missing token included, one warning on stderr after them. */
  lemma DryRunWarns(w: World, h: seq<Call>)
    ensures var r := DryRunSpec(w, h);
      var e := ExecuteSpec(w, h, DryRunAction);
      (e.value.err.None? ==> r.calls == e.calls) &&
      (e.value.err.Some? ==> |r.calls| == |e.calls| + 1 && r.calls[..|e.calls|] == e.calls &&
                             r.calls[|e.calls|].effect.StderrLines?)
  {
    var e := ExecuteSpec(w, h, DryRunAction);
    if e.value.err.Some? {
      var r := DryRunSpec(w, h);
      assert r.calls == e.calls + DryRunWarning(w, h + e.calls, e.value.output);
    }
  }

  method DryRun(sh: Shell) returns (err: Failure)
    modifies sh`trace
    ensures Performs(old(sh.trace), sh.trace, err, DryRunSpec(sh.world, old(sh.trace)))
  {
    ghost var h := sh.trace;
    var e := Execute(sh, DryRunAction);
    ghost var ex := ExecuteSpec(sh.world, h, DryRunAction);
    assert e == ex.value;
    if e.err.Some? {
      assert DryRunSpec(sh.world, h).calls == ex.calls + DryRunWarning(sh.world, h + ex.calls, e.output);
      Warn(sh, e.output);
      AppendAssoc(h, ex.calls, DryRunWarning(sh.world, h + ex.calls, e.output));
    } else {
      assert DryRunSpec(sh.world, h).calls == ex.calls;
    }
    err := None;
  }

  method Warn(sh: Shell, output: string)
    modifies sh`trace
    ensures sh.trace == old(sh.trace) + DryRunWarning(sh.world, old(sh.trace), output)
  {
    CliErrors.Warning(sh, DryRunTitle, DryRunMessage(output));
  }

  /** `runJReleaserRelease`. */
  function ReleaseRunSpec(w: World, h: seq<Call>): (r: Out<Failure>)
    ensures var e := ExecuteSpec(w, h, ReleaseAction);
      r.calls == e.calls && (r.value.None? <==> e.value.err.None?)
  {
    var e := ExecuteSpec(w, h, ReleaseAction);
    Out(Report("JReleaser release failed", e.value), e.calls)
  }

  method ReleaseRun(sh: Shell) returns (err: Failure)
    modifies sh`trace
    ensures Performs(old(sh.trace), sh.trace, err, ReleaseRunSpec(sh.world, old(sh.trace)))
  {
    var e := Execute(sh, ReleaseAction);
    err := Report("JReleaser release failed", e);
  }

  const StepCount := 7

  /** The `k`-th step of `Release` after history `h`, from state `st`. */
  function Step(w: World, lib: Library, v: Semver.Version, k: nat, h: seq<Call>, st: State): Out<Result<State>>
    requires k < StepCount
  {
    if k == 0 then
      var c := Git.HeadSpec(w, h);
      Out(if c.value.Err? then Err(c.value.error) else Ok(st.(preHead := c.value.value)), c.calls)
    else if k == 1 then Then(SyncSpec(w, lib, h, v), st)
    else if k == 2 then Then(ReleaseTool.CreateReleaseCommitSpec(w, h, v), st)
    else if k == 3 then
      var c := Git.HeadSpec(w, h);
      Out(if c.value.Err? then Err(c.value.error) else Ok(st.(releaseCommitHash := c.value.value)), c.calls)
    else if k == 4 then Then(ReleaseTool.PushCommitsSpec(w, h), st.(pushedCommit := true))
    else if k == 5 then Then(DryRunSpec(w, h), st)
    else Then(ReleaseRunSpec(w, h), st.(tagName := ReleaseTool.TagOf(v), ranJRelease := true))
  }

  /** The steps from the `k`-th on, after the calls `done`, from state `st`; the first
      failing step ends the release with its error. */
  function Stage(w: World, lib: Library, v: Semver.Version, h: seq<Call>, done: seq<Call>, st: State, k: nat): Out<Ended<State>>
    requires k <= StepCount
    decreases StepCount - k
  {
    if k == StepCount then Out(Ended(None, st, StepCount), done)
    else
      var c := Step(w, lib, v, k, h + done, st);
      if c.value.Err? then Out(Ended(Some(c.value.error), st, k), done + c.calls)
      else Stage(w, lib, v, h, done + c.calls, c.value.value, k + 1)
  }

  /** `Release`: the steps in order from state `st`, stopping at the first failure. */
  function ReleaseSpec(w: World, lib: Library, h: seq<Call>, v: Semver.Version, st: State): Out<Ended<State>> {
    Stage(w, lib, v, h, [], st, 0)
  }

  /** A successful step hands its state and calls on to the next. */
  lemma Pass(w: World, lib: Library, v: Semver.Version, h: seq<Call>, done: seq<Call>, st: State, k: nat)
    requires k < StepCount && Step(w, lib, v, k, h + done, st).value.Ok?
    ensures var c := Step(w, lib, v, k, h + done, st);
      Stage(w, lib, v, h, done, st, k) == Stage(w, lib, v, h, done + c.calls, c.value.value, k + 1)
  {
  }

  /** One step of the release: it either ends it or hands on to the next. */
  lemma Unfold(w: World, lib: Library, v: Semver.Version, h: seq<Call>, done: seq<Call>, st: State, k: nat)
    requires k < StepCount
    ensures var c := Step(w, lib, v, k, h + done, st);
      Stage(w, lib, v, h, done, st, k) ==
        if c.value.Err? then Out(Ended(Some(c.value.error), st, k), done + c.calls)
        else Stage(w, lib, v, h, done + c.calls, c.value.value, k + 1)
  {
  }

  /** A failing step ends the release with its error, keeping the state before it. */
  lemma Stop(w: World, lib: Library, v: Semver.Version, h: seq<Call>, done: seq<Call>, st: State, k: nat)
    requires k < StepCount && Step(w, lib, v, k, h + done, st).value.Err?
    ensures var c := Step(w, lib, v, k, h + done, st);
      Stage(w, lib, v, h, done, st, k) == Out(Ended(Some(c.value.error), st, k), done + c.calls)
  {
  }

  /** `RevertRelease`: the full release stands for the pushed tag and for the GitHub
      release, whose tag is the release's tag. */
  function Projection(s: State): ReleaseTool.GitReleaseState {
    ReleaseTool.GitReleaseState(
      preHead := s.preHead,
      releaseHead := s.releaseCommitHash,
      tagName := s.tagName,
      gitHubReleaseTag := s.tagName,
      pushedCommit := s.pushedCommit,
      pushedTag := s.ranJRelease,
      createdGitHubRelease := s.ranJRelease)
  }

  class JReleaser {
    var state: State

    constructor()
      ensures state == Zero
    {
      state := Zero;
    }

    method Init(sh: Shell, cfg: ReleaseConfig) returns (err: Failure)
      modifies sh`trace
      ensures Performs(old(sh.trace), sh.trace, err, InitSpec(sh.world, old(sh.trace), cfg))
    {
      ghost var h := sh.trace;
      err := ReleaseTool.RequireBinary(sh, Name);
      if err.Some? {
        return;
      }
      ghost var b := ReleaseTool.RequireBinarySpec(sh.world, h, Name);
      ghost var i := ConfigInitSpec(sh.world, h + b.calls, cfg);
      err := ConfigInit(sh, cfg);
      AppendAssoc(h, b.calls, i.calls);
      if err.Some? {
        return;
      }
      ghost var c := ExecuteSpec(sh.world, h + b.calls + i.calls, CheckAction);
      var e := Execute(sh, CheckAction);
      AppendAssoc(h, b.calls + i.calls, c.calls);
      err := Report("JReleaser configuration check failed", e);
    }

    method Release(sh: Shell, v: Semver.Version) returns (err: Failure)
      modifies this, sh`trace
      ensures var r := ReleaseSpec(sh.world, sh.lib, old(sh.trace), v, old(state));
        sh.trace == old(sh.trace) + r.calls && err == r.value.err && state == r.value.state
    {
      ghost var h := sh.trace;
      ghost var w := sh.world;
      ghost var lib := sh.lib;
      ghost var done: seq<Call> := [];
      assert h + done == h;

      ghost var c := Step(w, lib, v, 0, h + done, state);
      var pre := Git.Head(sh);
      AppendAssoc(h, done, c.calls);
      if pre.Err? {
        Stop(w, lib, v, h, done, state, 0);
        return Some(pre.error);
      }
      Pass(w, lib, v, h, done, state, 0);
      state := state.(preHead := pre.value);
      done := done + c.calls;

      c := Step(w, lib, v, 1, h + done, state);
      err := Sync(sh, v);
      AppendAssoc(h, done, c.calls);
      if err.Some? {
        Stop(w, lib, v, h, done, state, 1);
        return;
      }
      Pass(w, lib, v, h, done, state, 1);
      done := done + c.calls;

      c := Step(w, lib, v, 2, h + done, state);
      err := ReleaseTool.CreateReleaseCommit(sh, v);
      AppendAssoc(h, done, c.calls);
      if err.Some? {
        Stop(w, lib, v, h, done, state, 2);
        return;
      }
      Pass(w, lib, v, h, done, state, 2);
      done := done + c.calls;

      c := Step(w, lib, v, 3, h + done, state);
      var head := Git.Head(sh);
      AppendAssoc(h, done, c.calls);
      if head.Err? {
        Stop(w, lib, v, h, done, state, 3);
        return Some(head.error);
      }
      Pass(w, lib, v, h, done, state, 3);
      state := state.(releaseCommitHash := head.value);
      done := done + c.calls;

      c := Step(w, lib, v, 4, h + done, state);
      err := ReleaseTool.PushCommits(sh);
      AppendAssoc(h, done, c.calls);
      if err.Some? {
        Stop(w, lib, v, h, done, state, 4);
        return;
      }
      Pass(w, lib, v, h, done, state, 4);
      state := state.(pushedCommit := true);
      done := done + c.calls;

      c := Step(w, lib, v, 5, h + done, state);
      err := DryRun(sh);
      AppendAssoc(h, done, c.calls);
      Pass(w, lib, v, h, done, state, 5);
      done := done + c.calls;

      c := Step(w, lib, v, 6, h + done, state);
      err := ReleaseRun(sh);
      AppendAssoc(h, done, c.calls);
      if err.Some? {
        Stop(w, lib, v, h, done, state, 6);
        return;
      }
      Pass(w, lib, v, h, done, state, 6);
      state := state.(tagName := ReleaseTool.TagOf(v), ranJRelease := true);
      done := done + c.calls;
    }

    method RevertRelease(sh: Shell) returns (err: Failure)
      modifies sh`trace
      ensures Performs(old(sh.trace), sh.trace, err,
                       ReleaseTool.RevertGitReleaseSpec(sh.world, sh.lib, old(sh.trace), Projection(state)))
    {
      err := ReleaseTool.RevertGitRelease(sh, Projection(state));
    }
  }

  // ---- Properties -----------------------------------------------------------------

  /** What a release that got to step `k` from `s0` has recorded in `s`: the head
      before it once past step 0, the release commit once past step 3, the pushed
      commit once past step 4, and the tag and the full release only once past the
      last step; every field of a step not yet passed keeps its value in `s0`. */
  predicate Progress(v: Semver.Version, s0: State, k: nat, s: State) {
    (k <= 0 ==> s.preHead == s0.preHead) &&
    (k <= 3 ==> s.releaseCommitHash == s0.releaseCommitHash) &&
    (k <= 4 ==> s.pushedCommit == s0.pushedCommit) &&
    (k > 4 ==> s.pushedCommit) &&
    (k <= 6 ==> s.tagName == s0.tagName && s.ranJRelease == s0.ranJRelease) &&
    (k > 6 ==> s.tagName == ReleaseTool.TagOf(v) && s.ranJRelease)
  }

  lemma StepProgress(w: World, lib: Library, v: Semver.Version, s0: State, j: nat, h: seq<Call>, s: State)
    requires j < StepCount && Progress(v, s0, j, s) && Step(w, lib, v, j, h, s).value.Ok?
    ensures Progress(v, s0, j + 1, Step(w, lib, v, j, h, s).value.value)
  {
  }

  lemma {:induction false} StageProgress(w: World, lib: Library, v: Semver.Version, h: seq<Call>, done: seq<Call>, s0: State, st: State, k: nat)
    requires k <= StepCount && Progress(v, s0, k, st)
    decreases StepCount - k
    ensures var r := Stage(w, lib, v, h, done, st, k).value;
      Progress(v, s0, r.at, r.state) && k <= r.at <= StepCount && (r.err.None? <==> r.at == StepCount)
  {
    if k < StepCount {
      var c := Step(w, lib, v, k, h + done, st);
      if c.value.Ok? {
        StepProgress(w, lib, v, s0, k, h + done, st);
        StageProgress(w, lib, v, h, done + c.calls, s0, c.value.value, k + 1);
      }
    }
  }

  /** A release stops at the first failing step and leaves the fields of that step
      and of every later one as they were; it succeeds exactly when all seven steps
      do. */
  lemma ReleaseProgress(w: World, lib: Library, h: seq<Call>, v: Semver.Version, s0: State)
    ensures var r := ReleaseSpec(w, lib, h, v, s0).value;
      Progress(v, s0, r.at, r.state) && r.at <= StepCount && (r.err.None? <==> r.at == StepCount)
  {
    StageProgress(w, lib, v, h, [], s0, s0, 0);
  }

  /** From the zero state the tag is known only after the full release, and a failed
      release leaves it empty: its rollback deletes no tag and no GitHub release. */
  lemma FailedReleaseHasNoTag(w: World, lib: Library, h: seq<Call>, v: Semver.Version)
    ensures var r := ReleaseSpec(w, lib, h, v, Zero).value;
      (r.err.Some? ==> r.state.tagName == "" && !r.state.ranJRelease &&
                       !Projection(r.state).pushedTag && !Projection(r.state).createdGitHubRelease) &&
      (r.err.None? ==> r.state.tagName == ReleaseTool.TagOf(v) && r.state.ranJRelease && r.state.pushedCommit)
  {
    ReleaseProgress(w, lib, h, v, Zero);
  }

  /** Every step but the sync and the two jreleaser runs makes exactly one call, and
      the dry run never fails the release and leaves the state as it was. */
  lemma StepCalls(w: World, lib: Library, v: Semver.Version, k: nat, h: seq<Call>, st: State)
    requires k < StepCount
    ensures var c := Step(w, lib, v, k, h, st);
      |c.calls| >= 1 &&
      (k == 1 ==> c.calls[0].effect == Stat(ConfigFile)) &&
      (k == 1 && c.value.Ok? ==>
         |c.calls| == 3 && c.calls[2].effect.SaveJReleaser? &&
         c.calls[2].effect.doc.projectVersion == Semver.Format(v)) &&
      (k == 2 ==> c.calls == [Ask(w, h, Git.GitCmd(ReleaseTool.CommitArgs(v)))]) &&
      (k == 4 ==> c.calls == [Ask(w, h, Git.GitCmd(ReleaseTool.PushHeadArgs))]) &&
      (k == 5 ==> c.value == Ok(st))
  {
  }

  /** The calls made so far open the calls of the rest of the release. */
  lemma {:induction false} StageExtends(w: World, lib: Library, v: Semver.Version, h: seq<Call>, done: seq<Call>, st: State, k: nat)
    requires k <= StepCount
    decreases StepCount - k
    ensures |Stage(w, lib, v, h, done, st, k).calls| >= |done|
    ensures Stage(w, lib, v, h, done, st, k).calls[..|done|] == done
  {
    if k < StepCount {
      var c := Step(w, lib, v, k, h + done, st);
      if c.value.Ok? {
        Pass(w, lib, v, h, done, st, k);
        StageExtends(w, lib, v, h, done + c.calls, c.value.value, k + 1);
        PrefixOfPrefix(Stage(w, lib, v, h, done + c.calls, c.value.value, k + 1).calls, done, c.calls);
      } else {
        Stop(w, lib, v, h, done, st, k);
        PrefixOfPrefix(done + c.calls, done, c.calls);
      }
    }
  }

  /** A release that gets to the commit has passed the first two steps. */
  lemma PastSync(w: World, lib: Library, h: seq<Call>, v: Semver.Version, s0: State)
    requires ReleaseSpec(w, lib, h, v, s0).value.at >= 2
    ensures var c0 := Step(w, lib, v, 0, h, s0);
      c0.value.Ok? &&
      var c1 := Step(w, lib, v, 1, h + c0.calls, c0.value.value);
      c1.value.Ok? && c1.value.value == c0.value.value &&
      ReleaseSpec(w, lib, h, v, s0) == Stage(w, lib, v, h, c0.calls + c1.calls, c0.value.value, 2)
  {
    assert h + [] == h;
    Unfold(w, lib, v, h, [], s0, 0);
    var c0 := Step(w, lib, v, 0, h, s0);
    assert [] + c0.calls == c0.calls;
    Unfold(w, lib, v, h, c0.calls, c0.value.value, 1);
  }

  /** The commit step makes its call right after the calls before it. */
  lemma CommitNext(w: World, lib: Library, v: Semver.Version, h: seq<Call>, done: seq<Call>, st: State)
    ensures |Stage(w, lib, v, h, done, st, 2).calls| > |done|
    ensures Stage(w, lib, v, h, done, st, 2).calls[..|done|] == done
    ensures Stage(w, lib, v, h, done, st, 2).calls[|done|].effect == Git.GitCmd(ReleaseTool.CommitArgs(v))
  {
    var c2 := Step(w, lib, v, 2, h + done, st);
    StepCalls(w, lib, v, 2, h + done, st);
    if c2.value.Err? {
      Stop(w, lib, v, h, done, st, 2);
      CommitFirst(done + c2.calls, done, c2.calls);
    } else {
      Pass(w, lib, v, h, done, st, 2);
      StageExtends(w, lib, v, h, done + c2.calls, c2.value.value, 3);
      CommitFirst(Stage(w, lib, v, h, done + c2.calls, c2.value.value, 3).calls, done, c2.calls);
    }
  }

  /** Calls that open with `done` and then a call open with `done` and have that call
      right after. */
  lemma CommitFirst(calls: seq<Call>, done: seq<Call>, next: seq<Call>)
    requires |next| > 0 && |calls| >= |done + next| && calls[..|done + next|] == done + next
    ensures |calls| > |done| && calls[..|done|] == done && calls[|done|] == next[0]
  {
    PrefixOfPrefix(calls, done, next);
    assert calls[|done|] == calls[..|done + next|][|done|];
  }

  /** The new version is written to jreleaser.yml before the release commit: once the
      release gets past the sync, the save of the synced document is followed directly
      by the commit. */
  lemma SyncBeforeCommit(w: World, lib: Library, h: seq<Call>, v: Semver.Version, s0: State)
    requires ReleaseSpec(w, lib, h, v, s0).value.at >= 2
    ensures exists i ::
              && 0 <= i && i + 1 < |ReleaseSpec(w, lib, h, v, s0).calls|
              && ReleaseSpec(w, lib, h, v, s0).calls[i].effect.SaveJReleaser?
              && ReleaseSpec(w, lib, h, v, s0).calls[i].effect.doc.projectVersion == Semver.Format(v)
              && ReleaseSpec(w, lib, h, v, s0).calls[i + 1].effect == Git.GitCmd(ReleaseTool.CommitArgs(v))
  {
    PastSync(w, lib, h, v, s0);
    var c0 := Step(w, lib, v, 0, h, s0);
    var s1 := c0.value.value;
    var c1 := Step(w, lib, v, 1, h + c0.calls, s1);
    StepCalls(w, lib, v, 1, h + c0.calls, s1);
    CommitNext(w, lib, v, h, c0.calls + c1.calls, s1);
    SaveThenCommit(ReleaseSpec(w, lib, h, v, s0).calls, c0.calls, c1.calls, v);
  }

  /** Calls that open with some calls and then three calls ending in the save of the
      synced document, followed by the commit, hold the save right before the commit. */
  lemma SaveThenCommit(calls: seq<Call>, before: seq<Call>, sync: seq<Call>, v: Semver.Version)
    requires |sync| == 3 && sync[2].effect.SaveJReleaser? && sync[2].effect.doc.projectVersion == Semver.Format(v)
    requires |calls| > |before + sync| && calls[..|before + sync|] == before + sync
    requires calls[|before + sync|].effect == Git.GitCmd(ReleaseTool.CommitArgs(v))
    ensures exists i ::
              && 0 <= i && i + 1 < |calls|
              && calls[i].effect.SaveJReleaser? && calls[i].effect.doc.projectVersion == Semver.Format(v)
              && calls[i + 1].effect == Git.GitCmd(ReleaseTool.CommitArgs(v))
  {
    var i := |before + sync| - 1;
    assert calls[i] == calls[..|before + sync|][i] == sync[2];
  }
}
