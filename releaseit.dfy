/** The release-it release system. release-it itself commits, tags, pushes and
    creates the GitHub release in one run; the release system only records the head
    before and after it. The package manager (npm or bun) is detected from the lock
    files once and then kept. */
module ReleaseIt {
  import opened Wrappers
  import opened Effects
  import opened ReleaseSteps
  import Semver
  import Git
  import ReleaseTool

  const Name := "release-it"

  /** How far a release got. */
  datatype State = State(
    preHead: string,
    releaseCommitHash: string,
    tagName: string,
    pushedCommit: bool,
    pushedTag: bool,
    createdGitHubRelease: bool)

  const Zero := State("", "", "", false, false, false)

  const Bun := "bun"
  const Npm := "npm"
  const BunLock := "bun.lock"
  const NpmLock := "package-lock.json"
  const ConfigFile := ".release-it.json"
  const PackageFile := "package.json"

  // ---- Package manager ------------------------------------------------------------

  /** `detectPackageManager`: bun when bun.lock exists, otherwise npm, whether or not
      package-lock.json exists. */
  function DetectSpec(w: World, h: seq<Call>): (r: Out<string>)
    ensures |r.calls| >= 1 && r.calls[0] == Ask(w, h, Stat(BunLock))
    ensures w(h, Stat(BunLock)).Done? ==> r == Out(Bun, [r.calls[0]])
    ensures !w(h, Stat(BunLock)).Done? ==>
      r.value == Npm && |r.calls| == 2 && r.calls[1].effect == Stat(NpmLock)
  {
    var b := Ask(w, h, Stat(BunLock));
    if b.reply.Done? then Out(Bun, [b])
    else
      var n := Ask(w, h + [b], Stat(NpmLock));
      if n.reply.Done? then Out(Npm, [b, n]) else Out(Npm, [b, n])
  }

  method Detect(sh: Shell) returns (pm: string)
    modifies sh`trace
    ensures Performs(old(sh.trace), sh.trace, pm, DetectSpec(sh.world, old(sh.trace)))
  {
    var b := sh.Do(Stat(BunLock));
    if b.Done? {
      return Bun;
    }
    var n := sh.Do(Stat(NpmLock));
    if n.Done? {
      return Npm;
    }
    return Npm;
  }

  /** `ensurePackageManager`: the known package manager, or a detected one when none
      is known yet. */
  function EnsureSpec(w: World, h: seq<Call>, pm: string): (r: Out<string>)
    ensures r.value != ""
    ensures pm != "" ==> r == Out(pm, [])
    ensures pm == "" ==> r == DetectSpec(w, h)
  {
    if pm != "" then Out(pm, []) else DetectSpec(w, h)
  }

  /** Detection happens at most once: once a package manager is known, asking again
      makes no call and keeps it. */
  lemma DetectedOnce(w: World, h: seq<Call>, h': seq<Call>, pm: string)
    ensures var first := EnsureSpec(w, h, pm);
      EnsureSpec(w, h', first.value) == Out(first.value, [])
  {
  }

  /** The package manager is one of the two known ones whenever it was detected. */
  lemma DetectedKnown(w: World, h: seq<Call>)
    ensures var pm := DetectSpec(w, h).value;
      (pm == Bun <==> w(h, Stat(BunLock)).Done?) && (pm == Bun || pm == Npm)
  {
  }

  /** `getRunCommand`. */
  function RunCommand(pm: string): (bin: string)
    ensures bin == "bunx" <==> pm == Bun
    ensures bin != "bunx" ==> bin == "npx"
  {
    if pm == Bun then "bunx" else "npx"
  }

  // ---- Init ---------------------------------------------------------------------

  /** The install command: bun's own for bun, npm's for anything else. */
  function InstallCmd(pm: string): (e: Effect)
    ensures pm == Bun ==> e == Cmd(Bun, ["add", "-D", Name])
    ensures pm != Bun ==> e == Cmd(Npm, ["install", "-D", Name])
  {
    if pm == Bun then Cmd(Bun, ["add", "-D", Name]) else Cmd(Npm, ["install", "-D", Name])
  }

  /** `runReleaseItInit`: nothing to do when .release-it.json exists; a stat error
      other than "does not exist" fails; otherwise package.json is looked at (a
      missing one only builds a warning that is never written), release-it is
      installed and the default configuration saved. */
  function ConfigInitSpec(w: World, h: seq<Call>, pm: string, cfg: ReleaseConfig): (r: Out<Failure>)
    ensures |r.calls| >= 1 && r.calls[0] == Ask(w, h, Stat(ConfigFile))
    ensures w(h, Stat(ConfigFile)).Done? ==> r == Out(None, [r.calls[0]])
    ensures var s := w(h, Stat(ConfigFile));
      !s.Done? && !s.Absent? ==> r == Out(Some("failed to check .release-it.json: " + ErrorText(s)), [r.calls[0]])
    ensures w(h, Stat(ConfigFile)).Absent? ==>
      |r.calls| >= 3 && r.calls[1].effect == Stat(PackageFile) && r.calls[2].effect == InstallCmd(pm) &&
      (r.value.None? <==> |r.calls| == 4 && r.calls[2].reply.Done? && r.calls[3].reply.Done?) &&
      (|r.calls| == 4 ==> r.calls[3].effect == SaveReleaseItDefaults(cfg.projectName))
  {
    var s := Ask(w, h, Stat(ConfigFile));
    if s.reply.Done? then Out(None, [s])
    else if !s.reply.Absent? then Out(Some("failed to check .release-it.json: " + ErrorText(s.reply)), [s])
    else
      var p := Ask(w, h + [s], Stat(PackageFile));
      var install := ReleaseTool.CommandSpec(w, h + [s, p], InstallCmd(pm), "failed to initialize release-it");
      if install.value.Some? then Out(install.value, [s, p] + install.calls)
      else
        var save := Ask(w, h + [s, p] + install.calls, SaveReleaseItDefaults(cfg.projectName));
        Out(if save.reply.Done? then None else Some("failed to save .release-it.json: " + ErrorText(save.reply)),
            [s, p] + install.calls + [save])
  }

  method ConfigInit(sh: Shell, pm: string, cfg: ReleaseConfig) returns (err: Failure)
    modifies sh`trace
    ensures Performs(old(sh.trace), sh.trace, err, ConfigInitSpec(sh.world, old(sh.trace), pm, cfg))
  {
    ghost var h := sh.trace;
    var s := sh.Do(Stat(ConfigFile));
    if s.Done? {
      return None;
    }
    if !s.Absent? {
      return Some("failed to check .release-it.json: " + ErrorText(s));
    }
    var p := sh.Do(Stat(PackageFile));
    ghost var sp := [Call(Stat(ConfigFile), s), Call(Stat(PackageFile), p)];
    assert sh.trace == h + sp;
    err := ReleaseTool.Command(sh, InstallCmd(pm), "failed to initialize release-it");
    ghost var install := ReleaseTool.CommandSpec(sh.world, h + sp, InstallCmd(pm), "failed to initialize release-it");
    AppendAssoc(h, sp, install.calls);
    if err.Some? {
      return;
    }
    var save := sh.Do(SaveReleaseItDefaults(cfg.projectName));
    err := if save.Done? then None else Some("failed to save .release-it.json: " + ErrorText(save));
  }

  function CheckCmd(pm: string): Effect {
    Cmd(RunCommand(pm), [Name, "-v"])
  }

  /** `Init` once the package manager is known: the package manager's binary, the
      configuration, then `release-it -v`; the first failure ends it. */
  function InitWith(w: World, h: seq<Call>, pm: string, cfg: ReleaseConfig): (r: Out<Failure>)
    ensures |r.calls| >= 1 && r.calls[0] == Ask(w, h, LookPath(pm))
    ensures !w(h, LookPath(pm)).Done? ==> r.value.Some? && r.calls == [r.calls[0]]
  {
    var b := ReleaseTool.RequireBinarySpec(w, h, pm);
    if b.value.Some? then b
    else
      var i := ConfigInitSpec(w, h + b.calls, pm, cfg);
      if i.value.Some? then Out(i.value, b.calls + i.calls)
      else
        var c := ReleaseTool.CommandSpec(w, h + b.calls + i.calls, CheckCmd(pm), "failed to verify release-it installation");
        Out(c.value, b.calls + i.calls + c.calls)
  }

  /** `Init`: the package manager first, then the rest with it. */
  function InitSpec(w: World, h: seq<Call>, pm: string, cfg: ReleaseConfig): Out<(string, Failure)> {
    var e := EnsureSpec(w, h, pm);
    var i := InitWith(w, h + e.calls, e.value, cfg);
    Out((e.value, i.value), e.calls + i.calls)
  }

  /** An existing .release-it.json means nothing is installed or written: after the
      binary lookup the only calls are the stat and the check. */
  lemma InitSkipsExisting(w: World, h: seq<Call>, pm: string, cfg: ReleaseConfig)
    requires w(h, LookPath(pm)).Done?
    requires w(h + [Ask(w, h, LookPath(pm))], Stat(ConfigFile)).Done?
    ensures var r := InitWith(w, h, pm, cfg);
      |r.calls| == 3 && r.calls[1].effect == Stat(ConfigFile) && r.calls[2].effect == CheckCmd(pm) &&
      (r.value.None? <==> r.calls[2].reply.Done?)
  {
    var b := ReleaseTool.RequireBinarySpec(w, h, pm);
    var i := ConfigInitSpec(w, h + b.calls, pm, cfg);
    assert i.calls == [Ask(w, h + b.calls, Stat(ConfigFile))];
  }

  // ---- Release ------------------------------------------------------------------

  function ReleaseCmd(pm: string, v: Semver.Version): Effect {
    Cmd(RunCommand(pm), [Name, Semver.Format(v), "--ci", "--no-git.requireCleanWorkingDir"])
  }

  /** `runReleaseItRelease`: the error first, then the output. */
  function RunSpec(w: World, h: seq<Call>, pm: string, v: Semver.Version): (r: Out<Failure>)
    ensures r.calls == [Ask(w, h, ReleaseCmd(pm, v))]
    ensures r.value.None? <==> w(h, ReleaseCmd(pm, v)).Done?
  {
    var c := Ask(w, h, ReleaseCmd(pm, v));
    Out(if c.reply.Done? then None else Some("release failed: " + ErrorText(c.reply) + "\nOutput: " + Output(c.reply)), [c])
  }

  method Run(sh: Shell, pm: string, v: Semver.Version) returns (err: Failure)
    modifies sh`trace
    ensures Performs(old(sh.trace), sh.trace, err, RunSpec(sh.world, old(sh.trace), pm, v))
  {
    var reply := sh.Do(ReleaseCmd(pm, v));
    err := if reply.Done? then None else Some("release failed: " + ErrorText(reply) + "\nOutput: " + Output(reply));
  }

  const StepCount := 3

  /** The `k`-th step of `Release` after history `h`, from state `st`: the head, the
      release-it run, then the head again, after which everything counts as done. */
  function Step(w: World, pm: string, v: Semver.Version, k: nat, h: seq<Call>, st: State): Out<Result<State>>
    requires k < StepCount
  {
    if k == 0 then
      var c := Git.HeadSpec(w, h);
      Out(if c.value.Err? then Err(c.value.error) else Ok(st.(preHead := c.value.value)), c.calls)
    else if k == 1 then Then(RunSpec(w, h, pm, v), st)
    else
      var c := Git.HeadSpec(w, h);
      Out(if c.value.Err? then Err(c.value.error)
          else Ok(st.(releaseCommitHash := c.value.value, tagName := ReleaseTool.TagOf(v),
                      pushedCommit := true, pushedTag := true, createdGitHubRelease := true)),
          c.calls)
  }

  function Stage(w: World, pm: string, v: Semver.Version, h: seq<Call>, done: seq<Call>, st: State, k: nat): Out<Ended<State>>
    requires k <= StepCount
    decreases StepCount - k
  {
    if k == StepCount then Out(Ended(None, st, StepCount), done)
    else
      var c := Step(w, pm, v, k, h + done, st);
      if c.value.Err? then Out(Ended(Some(c.value.error), st, k), done + c.calls)
      else Stage(w, pm, v, h, done + c.calls, c.value.value, k + 1)
  }

  /** `Release`: the package manager, then the steps in order from state `st`,
      stopping at the first failure. */
  function ReleaseSpec(w: World, h: seq<Call>, pm: string, v: Semver.Version, st: State): Out<(string, Ended<State>)> {
    var e := EnsureSpec(w, h, pm);
    var r := Stage(w, e.value, v, h, e.calls, st, 0);
    Out((e.value, r.value), r.calls)
  }

  lemma Pass(w: World, pm: string, v: Semver.Version, h: seq<Call>, done: seq<Call>, st: State, k: nat)
    requires k < StepCount && Step(w, pm, v, k, h + done, st).value.Ok?
    ensures var c := Step(w, pm, v, k, h + done, st);
      Stage(w, pm, v, h, done, st, k) == Stage(w, pm, v, h, done + c.calls, c.value.value, k + 1)
  {
  }

  lemma Stop(w: World, pm: string, v: Semver.Version, h: seq<Call>, done: seq<Call>, st: State, k: nat)
    requires k < StepCount && Step(w, pm, v, k, h + done, st).value.Err?
    ensures var c := Step(w, pm, v, k, h + done, st);
      Stage(w, pm, v, h, done, st, k) == Out(Ended(Some(c.value.error), st, k), done + c.calls)
  {
  }

  /** `RevertRelease`: the state passes through, the tag standing for the GitHub
      release's tag. */
  function Projection(s: State): ReleaseTool.GitReleaseState {
    ReleaseTool.GitReleaseState(
      preHead := s.preHead,
      releaseHead := s.releaseCommitHash,
      tagName := s.tagName,
      gitHubReleaseTag := s.tagName,
      pushedCommit := s.pushedCommit,
      pushedTag := s.pushedTag,
      createdGitHubRelease := s.createdGitHubRelease)
  }

  class ReleaseIt {
    /** "npm" or "bun" once detected; empty before. */
    var packageManager: string
    var state: State

    constructor()
      ensures packageManager == "" && state == Zero
    {
      packageManager := "";
      state := Zero;
    }

    method EnsurePackageManager(sh: Shell)
      modifies this`packageManager, sh`trace
      ensures var r := EnsureSpec(sh.world, old(sh.trace), old(packageManager));
        sh.trace == old(sh.trace) + r.calls && packageManager == r.value
    {
      if packageManager == "" {
        packageManager := Detect(sh);
      }
    }

    method Init(sh: Shell, cfg: ReleaseConfig) returns (err: Failure)
      modifies this`packageManager, sh`trace
      ensures var r := InitSpec(sh.world, old(sh.trace), old(packageManager), cfg);
        sh.trace == old(sh.trace) + r.calls && packageManager == r.value.0 && err == r.value.1
    {
      ghost var h := sh.trace;
      EnsurePackageManager(sh);
      ghost var e := EnsureSpec(sh.world, h, old(packageManager));
      ghost var h1 := sh.trace;
      err := ReleaseTool.RequireBinary(sh, packageManager);
      ghost var b := ReleaseTool.RequireBinarySpec(sh.world, h1, packageManager);
      if err.Some? {
        AppendAssoc(h, e.calls, b.calls);
        return;
      }
      ghost var i := ConfigInitSpec(sh.world, h1 + b.calls, packageManager, cfg);
      err := ConfigInit(sh, packageManager, cfg);
      AppendAssoc(h1, b.calls, i.calls);
      if err.Some? {
        AppendAssoc(h, e.calls, b.calls + i.calls);
        return;
      }
      ghost var c := ReleaseTool.CommandSpec(sh.world, h1 + b.calls + i.calls, CheckCmd(packageManager), "failed to verify release-it installation");
      err := ReleaseTool.Command(sh, CheckCmd(packageManager), "failed to verify release-it installation");
      AppendAssoc(h1, b.calls + i.calls, c.calls);
      AppendAssoc(h, e.calls, b.calls + i.calls + c.calls);
    }

    method Release(sh: Shell, v: Semver.Version) returns (err: Failure)
      modifies this, sh`trace
      ensures var r := ReleaseSpec(sh.world, old(sh.trace), old(packageManager), v, old(state));
        sh.trace == old(sh.trace) + r.calls && packageManager == r.value.0 &&
        err == r.value.1.err && state == r.value.1.state
    {
      ghost var h := sh.trace;
      ghost var w := sh.world;
      EnsurePackageManager(sh);
      var pm := packageManager;
      ghost var done: seq<Call> := sh.trace[|h|..];
      assert sh.trace == h + done;

      ghost var c := Step(w, pm, v, 0, h + done, state);
      var pre := Git.Head(sh);
      AppendAssoc(h, done, c.calls);
      if pre.Err? {
        Stop(w, pm, v, h, done, state, 0);
        return Some(pre.error);
      }
      Pass(w, pm, v, h, done, state, 0);
      state := state.(preHead := pre.value);
      done := done + c.calls;

      c := Step(w, pm, v, 1, h + done, state);
      err := Run(sh, pm, v);
      AppendAssoc(h, done, c.calls);
      if err.Some? {
        Stop(w, pm, v, h, done, state, 1);
        return;
      }
      Pass(w, pm, v, h, done, state, 1);
      done := done + c.calls;

      c := Step(w, pm, v, 2, h + done, state);
      var head := Git.Head(sh);
      AppendAssoc(h, done, c.calls);
      if head.Err? {
        Stop(w, pm, v, h, done, state, 2);
        return Some(head.error);
      }
      Pass(w, pm, v, h, done, state, 2);
      state := state.(releaseCommitHash := head.value, tagName := ReleaseTool.TagOf(v),
                      pushedCommit := true, pushedTag := true, createdGitHubRelease := true);
      done := done + c.calls;
    }

    method RevertRelease(sh: Shell) returns (err: Failure)
      modifies sh`trace
      ensures Performs(old(sh.trace), sh.trace, err,
                       ReleaseTool.RevertGitReleaseSpec(sh.world, sh.lib, old(sh.trace), Projection(state)))
    {
      err := ReleaseTool.RevertGitRelease(sh, Projection(state));
    }
  }

  // ---- Properties -----------------------------------------------------------------

  /** What a release has recorded by step `k`, starting from `s0`: the head before it
      from step 1 on, and everything release-it does only after the last step. */
  predicate Progress(v: Semver.Version, s0: State, k: nat, s: State) {
    (k <= 0 ==> s.preHead == s0.preHead) &&
    (k <= 2 ==> s == s0.(preHead := s.preHead)) &&
    (k > 2 ==> s.tagName == ReleaseTool.TagOf(v) &&
               s.pushedCommit && s.pushedTag && s.createdGitHubRelease)
  }

  lemma StepProgress(w: World, pm: string, v: Semver.Version, s0: State, j: nat, h: seq<Call>, s: State)
    requires j < StepCount && Progress(v, s0, j, s) && Step(w, pm, v, j, h, s).value.Ok?
    ensures Progress(v, s0, j + 1, Step(w, pm, v, j, h, s).value.value)
  {
  }

  lemma {:induction false} StageProgress(w: World, pm: string, v: Semver.Version, h: seq<Call>, done: seq<Call>, s0: State, st: State, k: nat)
    requires k <= StepCount && Progress(v, s0, k, st)
    decreases StepCount - k
    ensures var r := Stage(w, pm, v, h, done, st, k).value;
      Progress(v, s0, r.at, r.state) && k <= r.at <= StepCount && (r.err.None? <==> r.at == StepCount)
  {
    if k < StepCount {
      var c := Step(w, pm, v, k, h + done, st);
      if c.value.Ok? {
        StepProgress(w, pm, v, s0, k, h + done, st);
        StageProgress(w, pm, v, h, done + c.calls, s0, c.value.value, k + 1);
      }
    }
  }

  /** A release either records everything release-it does (the tag `v<version>`,
      pushes and the GitHub release) or, failing, none of it:
      a failure keeps the starting state apart from the head before it. */
  lemma ReleaseAllOrNothing(w: World, h: seq<Call>, pm: string, v: Semver.Version, s0: State)
    ensures var r := ReleaseSpec(w, h, pm, v, s0).value.1;
      (r.err.None? <==> r.at == StepCount) &&
      (r.err.None? ==> r.state.tagName == ReleaseTool.TagOf(v) &&
                       r.state.pushedCommit && r.state.pushedTag && r.state.createdGitHubRelease) &&
      (r.err.Some? ==> r.state == s0.(preHead := r.state.preHead))
  {
    var e := EnsureSpec(w, h, pm);
    StageProgress(w, e.value, v, h, e.calls, s0, s0, 0);
  }

  /** A failed release from the zero state has recorded at most the head before it,
      so its rollback only removes untracked files. */
  lemma FailedReleaseOnlyCleans(w: World, lib: Library, h: seq<Call>, pm: string, v: Semver.Version, h': seq<Call>)
    requires ReleaseSpec(w, h, pm, v, Zero).value.1.err.Some?
    ensures var s := ReleaseSpec(w, h, pm, v, Zero).value.1.state;
      ReleaseTool.RevertGitReleaseSpec(w, lib, h', Projection(s)) == ReleaseTool.CleanPhase(w, h')
  {
    ReleaseAllOrNothing(w, h, pm, v, Zero);
    ReleaseTool.NothingToUndo(w, lib, h', Projection(ReleaseSpec(w, h, pm, v, Zero).value.1.state));
  }
}
