/** The GoReleaser release system. `Release` runs its steps one after another and
    records in `state` what each successful step did; `RevertRelease` hands that
    record to the shared rollback. */
module GoReleaser {
  import opened Wrappers
  import opened Strs
  import opened Effects
  import opened ReleaseSteps
  import Semver
  import Git
  import CliErrors
  import ReleaseTool

  const Name := "goreleaser"

  /** How far a release got. */
  datatype State = State(
    preHead: string,
    releaseCommitHash: string,
    tagName: string,
    pushedCommit: bool,
    pushedTag: bool,
    ranGoRelease: bool)

  const Zero := State("", "", "", false, false, false)

  const ConfigFile := ".goreleaser.yaml"
  const InitCmd := Cmd("goreleaser", ["init"])
  const CheckCmd := Cmd("goreleaser", ["check"])
  const DryRunCmd := Cmd("goreleaser", ["release", "--snapshot", "--clean"])
  const ReleaseCmd := Cmd("goreleaser", ["release", "--clean"])
  const HeadCmd := Git.GitCmd(["rev-parse", "--short", "HEAD"])

  const DryRunTitle := "GoReleaser dry run failed"

  function DryRunMessage(output: string): (m: string)
    ensures m != ""
  {
    "This is a warning - proceeding anyway: " + TrimSpace(output)
  }

  // ---- Init -------------------------------------------------------------------

  /** `runGoreleaserInit`: nothing to do when the configuration exists; a stat error
      other than "does not exist" fails; otherwise `goreleaser init`. */
  function ConfigInitSpec(w: World, h: seq<Call>): (r: Out<Failure>)
    ensures |r.calls| >= 1 && r.calls[0] == Ask(w, h, Stat(ConfigFile))
    ensures w(h, Stat(ConfigFile)).Done? ==> r == Out(None, [r.calls[0]])
  {
    var s := Ask(w, h, Stat(ConfigFile));
    if s.reply.Done? then Out(None, [s])
    else if !s.reply.Absent? then Out(Some("failed to check goreleaser.yml: " + ErrorText(s.reply)), [s])
    else
      var c := ReleaseTool.CommandSpec(w, h + [s], InitCmd, "failed to initialize goreleaser");
      Out(c.value, [s] + c.calls)
  }

  method ConfigInit(sh: Shell) returns (err: Failure)
    modifies sh`trace
    ensures Performs(old(sh.trace), sh.trace, err, ConfigInitSpec(sh.world, old(sh.trace)))
  {
    ghost var h := sh.trace;
    var s := sh.Do(Stat(ConfigFile));
    if s.Done? {
      return None;
    }
    if !s.Absent? {
      return Some("failed to check goreleaser.yml: " + ErrorText(s));
    }
    ghost var h1 := sh.trace;
    err := ReleaseTool.Command(sh, InitCmd, "failed to initialize goreleaser");
    AppendAssoc(h, h1[|h|..], ReleaseTool.CommandSpec(sh.world, h1, InitCmd, "failed to initialize goreleaser").calls);
  }

  /** `Init`: the binary, the configuration, then `goreleaser check`; the first
      failure ends it. */
  function InitSpec(w: World, h: seq<Call>): (r: Out<Failure>)
  {
    var b := ReleaseTool.RequireBinarySpec(w, h, Name);
    if b.value.Some? then b
    else
      var i := ConfigInitSpec(w, h + b.calls);
      if i.value.Some? then Out(i.value, b.calls + i.calls)
      else
        var c := ReleaseTool.CommandSpec(w, h + b.calls + i.calls, CheckCmd, "goreleaser configuration check failed");
        Out(c.value, b.calls + i.calls + c.calls)
  }

  /** Without the binary `Init` stops after looking for it; with the binary and an
      existing configuration it never runs `goreleaser init`, only the check. */
  lemma InitOrder(w: World, h: seq<Call>)
    ensures var r := InitSpec(w, h);
      !w(h, LookPath(Name)).Done? ==> r.value.Some? && r.calls == [Ask(w, h, LookPath(Name))]
    ensures var r := InitSpec(w, h);
      var b := Ask(w, h, LookPath(Name));
      w(h, LookPath(Name)).Done? && w(h + [b], Stat(ConfigFile)).Done? ==>
        |r.calls| == 3 && r.calls[1].effect == Stat(ConfigFile) && r.calls[2].effect == CheckCmd &&
        (r.value.None? <==> r.calls[2].reply.Done?)
  {
    var b := ReleaseTool.RequireBinarySpec(w, h, Name);
    if b.value.None? {
      var i := ConfigInitSpec(w, h + b.calls);
      if w(h + b.calls, Stat(ConfigFile)).Done? {
        assert i.calls == [Ask(w, h + b.calls, Stat(ConfigFile))];
      }
    }
  }

  // ---- Release ------------------------------------------------------------------

  /** The warning a failed dry run prints: one call, on stderr. */
  function DryRunWarning(w: World, h: seq<Call>, output: string): (calls: seq<Call>)
    ensures |calls| == 1 && calls[0].effect.StderrLines?
  {
    CliErrors.WarningCalls(w, h, DryRunTitle, DryRunMessage(output))
  }

  /** `runGoReleaserDryRun`: a snapshot build whose failure is only a warning. */
  function DryRunSpec(w: World, h: seq<Call>): (r: Out<Failure>)
    ensures r.value.None?
    ensures |r.calls| >= 1 && r.calls[0] == Ask(w, h, DryRunCmd)
    ensures r.calls[0].reply.Done? ==> |r.calls| == 1
    ensures !r.calls[0].reply.Done? ==> |r.calls| == 2 && r.calls[1].effect.StderrLines?
  {
    var c := Ask(w, h, DryRunCmd);
    if c.reply.Done? then Out(None, [c])
    else
      Out(None, [c] + DryRunWarning(w, h + [c], Output(c.reply)))
  }

  method DryRun(sh: Shell) returns (err: Failure)
    modifies sh`trace
    ensures Performs(old(sh.trace), sh.trace, err, DryRunSpec(sh.world, old(sh.trace)))
  {
    ghost var h := sh.trace;
    var reply := sh.Do(DryRunCmd);
    if !reply.Done? {
      ghost var c := Call(DryRunCmd, reply);
      CliErrors.Warning(sh, DryRunTitle, DryRunMessage(Output(reply)));
      AppendAssoc(h, [c], CliErrors.WarningCalls(sh.world, h + [c], DryRunTitle, DryRunMessage(Output(reply))));
    }
    return None;
  }

  /** `runGoReleaserRelease`: `goreleaser release --clean`. */
  function ReleaseRunSpec(w: World, h: seq<Call>): Out<Failure> {
    ReleaseTool.CommandSpec(w, h, ReleaseCmd, "GoReleaser release failed")
  }

  const StepCount := 8

  /** The steps of `Release`: HEAD, the release commit, the new HEAD, the tag, the
      pushes of the commit and of the tag, the dry run and the release; each records
      its result in the state once it succeeded. */
  function Step(w: World, v: Semver.Version, k: nat, h: seq<Call>, st: State): Out<Result<State>> {
    if k == 0 then
      var c := Git.HeadSpec(w, h);
      Out(if c.value.Err? then Err(c.value.error) else Ok(st.(preHead := c.value.value)), c.calls)
    else if k == 1 then Then(ReleaseTool.CreateReleaseCommitSpec(w, h, v), st)
    else if k == 2 then
      var c := Git.HeadSpec(w, h);
      Out(if c.value.Err? then Err(c.value.error) else Ok(st.(releaseCommitHash := c.value.value)), c.calls)
    else if k == 3 then Then(ReleaseTool.CreateGitTagSpec(w, h, v), st.(tagName := ReleaseTool.TagOf(v)))
    else if k == 4 then Then(ReleaseTool.PushCommitsSpec(w, h), st.(pushedCommit := true))
    else if k == 5 then Then(ReleaseTool.PushGitTagSpec(w, h, v), st.(pushedTag := true))
    else if k == 6 then Then(DryRunSpec(w, h), st)
    else Then(ReleaseRunSpec(w, h), st.(ranGoRelease := true))
  }

  /** The steps from the `k`-th on, after the calls `done`, from state `st`; the first
      failing step ends the release with its error. */
  function Stage(w: World, v: Semver.Version, h: seq<Call>, done: seq<Call>, st: State, k: nat): Out<Ended<State>>
    requires k <= StepCount
    decreases StepCount - k
  {
    if k == StepCount then Out(Ended(None, st, StepCount), done)
    else
      var c := Step(w, v, k, h + done, st);
      if c.value.Err? then Out(Ended(Some(c.value.error), st, k), done + c.calls)
      else Stage(w, v, h, done + c.calls, c.value.value, k + 1)
  }

  /** `Release`: the steps in order from state `st`, stopping at the first failure. */
  function ReleaseSpec(w: World, h: seq<Call>, v: Semver.Version, st: State): Out<Ended<State>> {
    Stage(w, v, h, [], st, 0)
  }

  /** A successful step hands its state and calls on to the next. */
  lemma Pass(w: World, v: Semver.Version, h: seq<Call>, done: seq<Call>, st: State, k: nat)
    requires k < StepCount && Step(w, v, k, h + done, st).value.Ok?
    ensures var c := Step(w, v, k, h + done, st);
      Stage(w, v, h, done, st, k) == Stage(w, v, h, done + c.calls, c.value.value, k + 1)
  {
  }

  /** A failing step ends the release with its error, keeping the state before it. */
  lemma Stop(w: World, v: Semver.Version, h: seq<Call>, done: seq<Call>, st: State, k: nat)
    requires k < StepCount && Step(w, v, k, h + done, st).value.Err?
    ensures var c := Step(w, v, k, h + done, st);
      Stage(w, v, h, done, st, k) == Out(Ended(Some(c.value.error), st, k), done + c.calls)
  {
  }

  /** `RevertRelease`: the rollback sees the tag as the GitHub release's tag and the
      GoReleaser run as the GitHub release. */
  function Projection(s: State): ReleaseTool.GitReleaseState {
    ReleaseTool.GitReleaseState(
      preHead := s.preHead,
      releaseHead := s.releaseCommitHash,
      tagName := s.tagName,
      gitHubReleaseTag := s.tagName,
      pushedCommit := s.pushedCommit,
      pushedTag := s.pushedTag,
      createdGitHubRelease := s.ranGoRelease)
  }

  class GoReleaser {
    var state: State

    constructor()
      ensures state == Zero
    {
      state := Zero;
    }

    method Init(sh: Shell, cfg: ReleaseConfig) returns (err: Failure)
      modifies sh`trace
      ensures Performs(old(sh.trace), sh.trace, err, InitSpec(sh.world, old(sh.trace)))
    {
      ghost var h := sh.trace;
      err := ReleaseTool.RequireBinary(sh, Name);
      if err.Some? {
        return;
      }
      ghost var b := ReleaseTool.RequireBinarySpec(sh.world, h, Name);
      ghost var i := ConfigInitSpec(sh.world, h + b.calls);
      err := ConfigInit(sh);
      AppendAssoc(h, b.calls, i.calls);
      if err.Some? {
        return;
      }
      ghost var c := ReleaseTool.CommandSpec(sh.world, h + b.calls + i.calls, CheckCmd, "goreleaser configuration check failed");
      err := ReleaseTool.Command(sh, CheckCmd, "goreleaser configuration check failed");
      AppendAssoc(h, b.calls + i.calls, c.calls);
    }

    method Release(sh: Shell, v: Semver.Version) returns (err: Failure)
      modifies this, sh`trace
      ensures var r := ReleaseSpec(sh.world, old(sh.trace), v, old(state));
        sh.trace == old(sh.trace) + r.calls && err == r.value.err && state == r.value.state
    {
      ghost var h := sh.trace;
      ghost var w := sh.world;
      ghost var done: seq<Call> := [];
      assert h + done == h;

      ghost var c := Step(w, v, 0, h + done, state);
      var pre := Git.Head(sh);
      AppendAssoc(h, done, c.calls);
      if pre.Err? {
        Stop(w, v, h, done, state, 0);
        return Some(pre.error);
      }
      Pass(w, v, h, done, state, 0);
      state := state.(preHead := pre.value);
      done := done + c.calls;

      c := Step(w, v, 1, h + done, state);
      err := ReleaseTool.CreateReleaseCommit(sh, v);
      AppendAssoc(h, done, c.calls);
      if err.Some? {
        Stop(w, v, h, done, state, 1);
        return;
      }
      Pass(w, v, h, done, state, 1);
      done := done + c.calls;

      c := Step(w, v, 2, h + done, state);
      var head := Git.Head(sh);
      AppendAssoc(h, done, c.calls);
      if head.Err? {
        Stop(w, v, h, done, state, 2);
        return Some(head.error);
      }
      Pass(w, v, h, done, state, 2);
      state := state.(releaseCommitHash := head.value);
      done := done + c.calls;

      c := Step(w, v, 3, h + done, state);
      err := ReleaseTool.CreateGitTag(sh, v);
      AppendAssoc(h, done, c.calls);
      if err.Some? {
        Stop(w, v, h, done, state, 3);
        return;
      }
      Pass(w, v, h, done, state, 3);
      state := state.(tagName := ReleaseTool.TagOf(v));
      done := done + c.calls;

      c := Step(w, v, 4, h + done, state);
      err := ReleaseTool.PushCommits(sh);
      AppendAssoc(h, done, c.calls);
      if err.Some? {
        Stop(w, v, h, done, state, 4);
        return;
      }
      Pass(w, v, h, done, state, 4);
      state := state.(pushedCommit := true);
      done := done + c.calls;

      c := Step(w, v, 5, h + done, state);
      err := ReleaseTool.PushGitTag(sh, v);
      AppendAssoc(h, done, c.calls);
      if err.Some? {
        Stop(w, v, h, done, state, 5);
        return;
      }
      Pass(w, v, h, done, state, 5);
      state := state.(pushedTag := true);
      done := done + c.calls;

      c := Step(w, v, 6, h + done, state);
      err := DryRun(sh);
      AppendAssoc(h, done, c.calls);
      Pass(w, v, h, done, state, 6);
      done := done + c.calls;

      c := Step(w, v, 7, h + done, state);
      err := ReleaseTool.Command(sh, ReleaseCmd, "GoReleaser release failed");
      AppendAssoc(h, done, c.calls);
      if err.Some? {
        Stop(w, v, h, done, state, 7);
        return;
      }
      Pass(w, v, h, done, state, 7);
      state := state.(ranGoRelease := true);
      done := done + c.calls;
    }

    method RevertRelease(sh: Shell) returns (err: Failure)
      modifies sh`trace
      ensures Performs(old(sh.trace), sh.trace, err,
                       ReleaseTool.RevertGitReleaseSpec(sh.world, sh.lib, old(sh.trace), Projection(state)))
    {
      err := ReleaseTool.RevertGitRelease(sh, Projection(state));
    }
  }

  // ---- Properties of a release ------------------------------------------------

  /** The state after the first `k` steps, starting from `s0`: every field a step
      before `k` sets holds, every later one is still as in `s0`. The hashes are
      whatever `git rev-parse` printed, so only their staying put is stated. */
  predicate Progress(v: Semver.Version, s0: State, k: nat, s: State) {
    (k <= 0 ==> s.preHead == s0.preHead) &&
    (k <= 2 ==> s.releaseCommitHash == s0.releaseCommitHash) &&
    (if k <= 3 then s.tagName == s0.tagName else s.tagName == ReleaseTool.TagOf(v)) &&
    (if k <= 4 then s.pushedCommit == s0.pushedCommit else s.pushedCommit) &&
    (if k <= 5 then s.pushedTag == s0.pushedTag else s.pushedTag) &&
    (if k <= 7 then s.ranGoRelease == s0.ranGoRelease else s.ranGoRelease)
  }

  lemma StepProgress(w: World, v: Semver.Version, s0: State, j: nat, h: seq<Call>, s: State)
    requires j < StepCount && Progress(v, s0, j, s) && Step(w, v, j, h, s).value.Ok?
    ensures Progress(v, s0, j + 1, Step(w, v, j, h, s).value.value)
  {
    if j == 0 || j == 2 {
    } else if j == 1 || j == 6 {
    } else if j == 3 {
    } else if j == 4 {
    } else if j == 5 {
    } else {
    }
  }

  /** The steps from the `k`-th on stop at or after `k`, and end without error exactly
      when they get to the end. */
  lemma {:induction false} StageEnd(w: World, v: Semver.Version, h: seq<Call>, done: seq<Call>, st: State, k: nat)
    requires k <= StepCount
    decreases StepCount - k
    ensures var r := Stage(w, v, h, done, st, k).value;
      k <= r.at <= StepCount && (r.err.None? <==> r.at == StepCount)
  {
    if k < StepCount {
      var c := Step(w, v, k, h + done, st);
      if c.value.Ok? {
        Pass(w, v, h, done, st, k);
        StageEnd(w, v, h, done + c.calls, c.value.value, k + 1);
      } else {
        Stop(w, v, h, done, st, k);
      }
    }
  }

  /** The steps from the `k`-th on keep `Progress`. */
  lemma {:induction false} StageProgress(w: World, v: Semver.Version, h: seq<Call>, done: seq<Call>, s0: State, st: State, k: nat)
    requires k <= StepCount && Progress(v, s0, k, st)
    decreases StepCount - k
    ensures var r := Stage(w, v, h, done, st, k).value;
      Progress(v, s0, r.at, r.state)
  {
    if k < StepCount {
      var c := Step(w, v, k, h + done, st);
      if c.value.Ok? {
        Pass(w, v, h, done, st, k);
        StepProgress(w, v, s0, k, h + done, st);
        StageProgress(w, v, h, done + c.calls, s0, c.value.value, k + 1);
      } else {
        Stop(w, v, h, done, st, k);
      }
    }
  }

  /** A release stops at the first failing step: the fields of that step and of every
      later one keep the values they had, the earlier ones hold what their steps
      recorded; the release succeeds exactly when all eight steps do. */
  lemma ReleaseProgress(w: World, h: seq<Call>, v: Semver.Version, s0: State)
    ensures var r := ReleaseSpec(w, h, v, s0).value;
      Progress(v, s0, r.at, r.state) && r.at <= StepCount && (r.err.None? <==> r.at == StepCount)
  {
    StageEnd(w, v, h, [], s0, 0);
    StageProgress(w, v, h, [], s0, s0, 0);
  }

  /** From the zero state a pushed tag implies a pushed commit, a pushed commit implies
      the tag `v<version>`, and a GoReleaser run implies the pushed tag; a failed
      release never counts as a GitHub release, so its rollback leaves GitHub alone. */
  lemma ChainFromZero(w: World, h: seq<Call>, v: Semver.Version)
    ensures var r := ReleaseSpec(w, h, v, Zero).value;
      (r.state.pushedTag ==> r.state.pushedCommit) &&
      (r.state.pushedCommit ==> r.state.tagName == ReleaseTool.TagOf(v) && r.state.tagName != "") &&
      (r.state.ranGoRelease ==> r.state.pushedTag) &&
      (r.err.Some? ==> !Projection(r.state).createdGitHubRelease)
  {
    ReleaseProgress(w, h, v, Zero);
  }

  /** The effect of the first call of the `i`-th step. */
  function StepEffect(v: Semver.Version, i: nat): Effect {
    if i == 0 || i == 2 then HeadCmd
    else if i == 1 then Git.GitCmd(ReleaseTool.CommitArgs(v))
    else if i == 3 then Git.GitCmd(ReleaseTool.TagArgs(v))
    else if i == 4 then Git.GitCmd(ReleaseTool.PushHeadArgs)
    else if i == 5 then Git.GitCmd(ReleaseTool.PushTagArgs(v))
    else if i == 6 then DryRunCmd
    else ReleaseCmd
  }

  /** Every step starts with its own command; only the dry run can make a second call,
      and the dry run never fails the release and leaves the state as it was. */
  lemma StepCalls(w: World, v: Semver.Version, k: nat, h: seq<Call>, st: State)
    requires k < StepCount
    ensures var calls := Step(w, v, k, h, st).calls;
      |calls| >= 1 && calls[0].effect == StepEffect(v, k) && (k != 6 ==> |calls| == 1)
    ensures k == 6 ==> Step(w, v, k, h, st).value == Ok(st)
  {
    if k == 0 || k == 2 {
    } else if k == 1 {
    } else if k == 3 {
    } else if k == 4 {
    } else if k == 5 {
    } else if k == 6 {
    } else {
    }
  }

  /** A successful release runs, in this order, `git rev-parse`, the release commit,
      `git rev-parse`, the tag, the two pushes, the dry run and, last, the release. */
  lemma {:induction false} StageOrder(w: World, v: Semver.Version, h: seq<Call>, done: seq<Call>, st: State, k: nat)
    requires k <= StepCount && Stage(w, v, h, done, st, k).value.err.None?
    requires k <= 6 ==> |done| == k
    requires forall i :: 0 <= i < |done| && i < k && i < 7 ==> done[i].effect == StepEffect(v, i)
    requires k > 6 ==> |done| >= k
    requires k == StepCount ==> done[|done| - 1].effect == ReleaseCmd
    decreases StepCount - k
    ensures var calls := Stage(w, v, h, done, st, k).calls;
      |calls| >= StepCount && calls[|calls| - 1].effect == ReleaseCmd &&
      forall i :: 0 <= i < 7 ==> calls[i].effect == StepEffect(v, i)
  {
    if k < StepCount {
      var c := Step(w, v, k, h + done, st);
      if c.value.Err? {
        Stop(w, v, h, done, st, k);
        assert false;
      }
      Pass(w, v, h, done, st, k);
      StepCalls(w, v, k, h + done, st);
      var next := done + c.calls;
      forall i | 0 <= i < |next| && i < k + 1 && i < 7
        ensures next[i].effect == StepEffect(v, i)
      {
        if i == k {
          assert next[i] == c.calls[0];
        }
      }
      StageOrder(w, v, h, next, c.value.value, k + 1);
      assert Stage(w, v, h, done, st, k) == Stage(w, v, h, next, c.value.value, k + 1);
    } else {
      assert Stage(w, v, h, done, st, k).calls == done;
    }
  }

  lemma ReleaseOrder(w: World, h: seq<Call>, v: Semver.Version, s0: State)
    requires ReleaseSpec(w, h, v, s0).value.err.None?
    ensures var r := ReleaseSpec(w, h, v, s0);
      |r.calls| >= 8 &&
      r.calls[0].effect == HeadCmd &&
      r.calls[1].effect == Git.GitCmd(ReleaseTool.CommitArgs(v)) &&
      r.calls[2].effect == HeadCmd &&
      r.calls[3].effect == Git.GitCmd(ReleaseTool.TagArgs(v)) &&
      r.calls[4].effect == Git.GitCmd(ReleaseTool.PushHeadArgs) &&
      r.calls[5].effect == Git.GitCmd(ReleaseTool.PushTagArgs(v)) &&
      r.calls[6].effect == DryRunCmd &&
      r.calls[|r.calls| - 1].effect == ReleaseCmd
  {
    StageOrder(w, v, h, [], s0, 0);
    var calls := ReleaseSpec(w, h, v, s0).calls;
    assert calls[0].effect == StepEffect(v, 0);
    assert calls[1].effect == StepEffect(v, 1);
    assert calls[2].effect == StepEffect(v, 2);
    assert calls[3].effect == StepEffect(v, 3);
    assert calls[4].effect == StepEffect(v, 4);
    assert calls[5].effect == StepEffect(v, 5);
    assert calls[6].effect == StepEffect(v, 6);
  }
}
