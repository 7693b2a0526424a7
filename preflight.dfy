/** The pre-flight checks of a release: a clean working tree, a branch rather than a
    detached HEAD, `main` or `master`, an upstream, and nothing to pull. The first
    check that fails writes an error response and ends the process. */
module Preflight {
  import opened Wrappers
  import opened Effects
  import Strs
  import Git
  import PluginErrors

  /** The error code of each check, in the order the checks run. */
  const Codes: seq<string> :=
    ["UNCOMMITTED_CHANGES", "DETACHED_HEAD", "INCORRECT_BRANCH", "NO_UPSTREAM_BRANCH", "BRANCH_OUT_OF_DATE"]

  const CheckCount := 5

  /** A read-only git query. */
  predicate GitQuery(e: Effect) {
    e.Cmd? && e.bin == "git"
  }

  predicate AllQueries(calls: seq<Call>) {
    forall c :: c in calls ==> GitQuery(c.effect)
  }

  /** The calls of a failed check: the error response with the check's code, then
      exit 1. */
  function FailCalls(w: World, h: seq<Call>, i: nat, message: string): seq<Call>
    requires i < CheckCount
  {
    PluginErrors.WriteErrorCalls(w, h, PluginErrors.NewErrorResponse(Codes[i], message))
  }

  /** The run after the `i`-th check failed: the calls before it, its own, then its
      error response and the exit. */
  function Failed(w: World, h: seq<Call>, before: seq<Call>, c: Out<Failure>, i: nat): Out<Flow<()>>
    requires i < CheckCount && c.value.Some?
  {
    Out(Halt(1), before + c.calls + FailCalls(w, h + before + c.calls, i, c.value.value))
  }

  /** The `i`-th check. */
  function Check(i: nat, w: World, h: seq<Call>): Out<Failure>
    requires i < CheckCount
  {
    if i == 0 then Git.IsCleanSpec(w, h)
    else if i == 1 then Git.EnsureNotDetachedSpec(w, h)
    else if i == 2 then Git.OnMainBranchSpec(w, h)
    else if i == 3 then Git.HasUpstreamSpec(w, h)
    else Git.IsUpToDateSpec(w, h)
  }

  /** Every check only queries git. */
  lemma CheckQueries(i: nat, w: World, h: seq<Call>)
    requires i < CheckCount
    ensures AllQueries(Check(i, w, h).calls)
  {
  }

  /** The checks from the `i`-th on, after the calls `done`; the first that fails
      ends the run. */
  function Stage(w: World, h: seq<Call>, done: seq<Call>, i: nat): Out<Flow<()>>
    requires i <= CheckCount
    decreases CheckCount - i
  {
    if i == CheckCount then Out(Next(()), done)
    else
      var c := Check(i, w, h + done);
      if c.value.Some? then Failed(w, h, done, c, i) else Stage(w, h, done + c.calls, i + 1)
  }

  /** `Preflight`: the five checks in order, each after the calls of the ones before. */
  function PreflightSpec(w: World, h: seq<Call>): Out<Flow<()>> {
    Stage(w, h, [], 0)
  }

  /** Writes the error of the `i`-th check and exits. */
  method Fail(sh: Shell, i: nat, message: string) returns (f: Flow<()>)
    requires i < CheckCount
    modifies sh`trace
    ensures f == Halt(1)
    ensures sh.trace == old(sh.trace) + FailCalls(sh.world, old(sh.trace), i, message)
  {
    f := PluginErrors.WriteError(sh, Codes[i], message);
  }

  /** Runs the `i`-th check. */
  method RunCheck(sh: Shell, i: nat) returns (err: Failure)
    requires i < CheckCount
    modifies sh`trace
    ensures Performs(old(sh.trace), sh.trace, err, Check(i, sh.world, old(sh.trace)))
  {
    if i == 0 {
      err := Git.IsClean(sh);
    } else if i == 1 {
      err := Git.EnsureNotDetached(sh);
    } else if i == 2 {
      err := Git.OnMainBranch(sh);
    } else if i == 3 {
      err := Git.HasUpstream(sh);
    } else {
      err := Git.IsUpToDate(sh);
    }
  }

  /** A passing check hands on to the next one after its own calls. */
  lemma Pass(w: World, h: seq<Call>, done: seq<Call>, i: nat)
    requires i < CheckCount && Check(i, w, h + done).value.None?
    ensures Stage(w, h, done, i) == Stage(w, h, done + Check(i, w, h + done).calls, i + 1)
  {
  }

  /** A failing check writes its error and stops. */
  lemma Stop(w: World, h: seq<Call>, done: seq<Call>, i: nat)
    requires i < CheckCount && Check(i, w, h + done).value.Some?
    ensures var c := Check(i, w, h + done);
      Stage(w, h, done, i) == Failed(w, h, done, c, i) &&
      h + Stage(w, h, done, i).calls == h + done + c.calls + FailCalls(w, h + done + c.calls, i, c.value.value)
  {
    var c := Check(i, w, h + done);
    AppendAssoc(h, done + c.calls, FailCalls(w, h + done + c.calls, i, c.value.value));
  }

  method Preflight(sh: Shell) returns (f: Flow<()>)
    modifies sh`trace
    ensures Performs(old(sh.trace), sh.trace, f, PreflightSpec(sh.world, old(sh.trace)))
  {
    ghost var h := sh.trace;
    ghost var w := sh.world;
    ghost var done: seq<Call> := [];
    assert h + done == h;
    var i := 0;
    ghost var c := Check(0, w, h + done);
    var err := RunCheck(sh, 0);
    if err.Some? {
      f := Fail(sh, 0, err.value);
      Stop(w, h, done, 0);
      return;
    }
    Pass(w, h, done, 0);
    AppendAssoc(h, done, c.calls);
    done := done + c.calls;
    c := Check(1, w, h + done);
    err := RunCheck(sh, 1);
    if err.Some? {
      f := Fail(sh, 1, err.value);
      Stop(w, h, done, 1);
      return;
    }
    Pass(w, h, done, 1);
    AppendAssoc(h, done, c.calls);
    done := done + c.calls;
    c := Check(2, w, h + done);
    err := RunCheck(sh, 2);
    if err.Some? {
      f := Fail(sh, 2, err.value);
      Stop(w, h, done, 2);
      return;
    }
    Pass(w, h, done, 2);
    AppendAssoc(h, done, c.calls);
    done := done + c.calls;
    c := Check(3, w, h + done);
    err := RunCheck(sh, 3);
    if err.Some? {
      f := Fail(sh, 3, err.value);
      Stop(w, h, done, 3);
      return;
    }
    Pass(w, h, done, 3);
    AppendAssoc(h, done, c.calls);
    done := done + c.calls;
    c := Check(4, w, h + done);
    err := RunCheck(sh, 4);
    if err.Some? {
      f := Fail(sh, 4, err.value);
      Stop(w, h, done, 4);
      return;
    }
    Pass(w, h, done, 4);
    AppendAssoc(h, done, c.calls);
    done := done + c.calls;
    f := Next(());
  }

  /** What a run of the checks leaves behind. When it goes on, only git was queried;
      when it stops, git queries are followed by exactly one error response, carrying
      one of the five codes, and the exit, with nothing after it. */
  predicate Outcome(r: Out<Flow<()>>) {
    (r.value.Next? ==> AllQueries(r.calls)) &&
    (r.value.Halt? ==>
      r.value.code == 1 && |r.calls| >= 2 &&
      r.calls[|r.calls| - 1].effect == Exit(1) &&
      r.calls[|r.calls| - 2].effect.Stdout? &&
      r.calls[|r.calls| - 2].effect.resp.status == "error" &&
      r.calls[|r.calls| - 2].effect.resp.error.Some? &&
      r.calls[|r.calls| - 2].effect.resp.error.value.code in Codes &&
      AllQueries(r.calls[..|r.calls| - 2]))
  }

  /** A failed check ends the run with its own code. */
  lemma FailedShape(w: World, h: seq<Call>, before: seq<Call>, c: Out<Failure>, i: nat)
    requires i < CheckCount && c.value.Some? && AllQueries(before) && AllQueries(c.calls)
    ensures Outcome(Failed(w, h, before, c, i))
    ensures var r := Failed(w, h, before, c, i);
      r.calls[|r.calls| - 2].effect.resp.error.value.code == Codes[i]
  {
    var r := Failed(w, h, before, c, i);
    var fail := FailCalls(w, h + before + c.calls, i, c.value.value);
    assert r.calls == (before + c.calls) + fail;
    assert r.calls[..|r.calls| - 2] == before + c.calls;
    assert r.calls[|r.calls| - 2] == fail[0];
    assert r.calls[|r.calls| - 1] == fail[1];
    assert Codes[i] in Codes;
  }

  lemma QueriesAppend(a: seq<Call>, b: seq<Call>)
    requires AllQueries(a) && AllQueries(b)
    ensures AllQueries(a + b)
  {
  }

  /** Passing checks only query git and the process goes on; the first failing check
      writes its error response and exits, and no check after it runs. */
  lemma {:induction false} StageOutcome(w: World, h: seq<Call>, done: seq<Call>, i: nat)
    requires i <= CheckCount && AllQueries(done)
    decreases CheckCount - i
    ensures Outcome(Stage(w, h, done, i))
  {
    if i < CheckCount {
      var c := Check(i, w, h + done);
      CheckQueries(i, w, h + done);
      if c.value.Some? {
        FailedShape(w, h, done, c, i);
      } else {
        QueriesAppend(done, c.calls);
        StageOutcome(w, h, done + c.calls, i + 1);
      }
    }
  }

  lemma PreflightOutcome(w: World, h: seq<Call>)
    ensures Outcome(PreflightSpec(w, h))
  {
    StageOutcome(w, h, [], 0);
  }

  /** `up` asks for the upstream of the branch that `branch` answered. */
  predicate AsksUpstream(branch: Call, up: Call)
    requires branch.reply.Done?
  {
    up.effect == Git.UpstreamOf(Strs.TrimSpace(branch.reply.out))
  }

  /** A run that goes on past the `i`-th check passed it. */
  lemma Passed(w: World, h: seq<Call>, done: seq<Call>, i: nat)
    requires i < CheckCount && Stage(w, h, done, i).value.Next?
    ensures Check(i, w, h + done).value.None?
    ensures Stage(w, h, done, i) == Stage(w, h, done + Check(i, w, h + done).calls, i + 1)
  {
  }

  /** The query a passing check asks; the upstream check asks two. */
  lemma PassedCalls(i: nat, w: World, h: seq<Call>)
    requires i < CheckCount && Check(i, w, h).value.None?
    ensures var calls := Check(i, w, h).calls;
      (i == 0 ==> |calls| == 1 && calls[0].effect == Git.StatusPorcelain) &&
      (i == 1 || i == 2 ==> |calls| == 1 && calls[0].effect == Git.AbbrevHead) &&
      (i == 3 ==> |calls| == 2 && calls[0].effect == Git.AbbrevHead && calls[0].reply.Done? &&
                  AsksUpstream(calls[0], calls[1])) &&
      (i == 4 ==> |calls| == 1 && calls[0].effect == Git.StatusShort)
  {
  }

  /** The six queries of five passing checks, laid end to end. */
  lemma InOrder(a: seq<Call>, b: seq<Call>, c: seq<Call>, d: seq<Call>, e: seq<Call>)
    requires |a| == 1 && a[0].effect == Git.StatusPorcelain
    requires |b| == 1 && b[0].effect == Git.AbbrevHead
    requires |c| == 1 && c[0].effect == Git.AbbrevHead
    requires |d| == 2 && d[0].effect == Git.AbbrevHead && d[0].reply.Done? && AsksUpstream(d[0], d[1])
    requires |e| == 1 && e[0].effect == Git.StatusShort
    ensures var r := [] + a + b + c + d + e;
      |r| == 6 &&
      r[0].effect == Git.StatusPorcelain &&
      r[1].effect == Git.AbbrevHead &&
      r[2].effect == Git.AbbrevHead &&
      r[3].effect == Git.AbbrevHead &&
      r[3].reply.Done? && AsksUpstream(r[3], r[4]) &&
      r[5].effect == Git.StatusShort
  {
    var r := [] + a + b + c + d + e;
    assert r == [a[0], b[0], c[0], d[0], d[1], e[0]];
  }

  /** When every check passes the queries run in the fixed order: the porcelain
      status, the branch for the detached-HEAD check, the branch for the main-branch
      check, the branch and its upstream, and the short status. */
  lemma AllPassInOrder(w: World, h: seq<Call>)
    requires PreflightSpec(w, h).value.Next?
    ensures var r := PreflightSpec(w, h);
      |r.calls| == 6 &&
      r.calls[0].effect == Git.StatusPorcelain &&
      r.calls[1].effect == Git.AbbrevHead &&
      r.calls[2].effect == Git.AbbrevHead &&
      r.calls[3].effect == Git.AbbrevHead &&
      r.calls[3].reply.Done? && AsksUpstream(r.calls[3], r.calls[4]) &&
      r.calls[5].effect == Git.StatusShort
  {
    var d0: seq<Call> := [];
    Passed(w, h, d0, 0);
    var c0 := Check(0, w, h + d0);
    PassedCalls(0, w, h + d0);
    var d1 := d0 + c0.calls;
    Passed(w, h, d1, 1);
    var c1 := Check(1, w, h + d1);
    PassedCalls(1, w, h + d1);
    var d2 := d1 + c1.calls;
    Passed(w, h, d2, 2);
    var c2 := Check(2, w, h + d2);
    PassedCalls(2, w, h + d2);
    var d3 := d2 + c2.calls;
    Passed(w, h, d3, 3);
    var c3 := Check(3, w, h + d3);
    PassedCalls(3, w, h + d3);
    var d4 := d3 + c3.calls;
    Passed(w, h, d4, 4);
    var c4 := Check(4, w, h + d4);
    PassedCalls(4, w, h + d4);
    var d5 := d4 + c4.calls;
    assert PreflightSpec(w, h).calls == d5;
    InOrder(c0.calls, c1.calls, c2.calls, c3.calls, c4.calls);
  }
}
