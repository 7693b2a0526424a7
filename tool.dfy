/** What every release system shares: the binary check, the release commit and tag
    with their pushes, and the rollback of a partly done release. A rollback is
    driven by a `GitReleaseState` that records how far the release got; each
    compensating step either aborts the rollback with a wrapped error or has its
    failure ignored. */
module ReleaseTool {
  import opened Wrappers
  import opened Strs
  import opened Effects
  import Semver
  import Git

  /** How far a release got. */
  datatype GitReleaseState = GitReleaseState(
    preHead: string,
    releaseHead: string,
    tagName: string,
    gitHubReleaseTag: string,
    pushedCommit: bool,
    pushedTag: bool,
    createdGitHubRelease: bool)

  const ZeroState := GitReleaseState("", "", "", "", false, false, false)

  /** A git command whose first argument is `verb`. */
  predicate GitVerb(e: Effect, verb: string) {
    e.Cmd? && e.bin == "git" && |e.args| > 0 && e.args[0] == verb
  }

  /** An effect on tags, local or remote. */
  predicate TagOperation(e: Effect) {
    GitVerb(e, "tag") || (GitVerb(e, "push") && "--delete" in e.args)
  }

  // ---- Binary lookup and access token -------------------------------------------

  /** `RequireBinary`: the binary must be on the path. On failure `exec.LookPath`
      gives an empty path, which the message keeps. */
  function RequireBinarySpec(w: World, h: seq<Call>, name: string): (r: Out<Failure>)
    ensures r.calls == [Ask(w, h, LookPath(name))]
    ensures r.value.None? <==> w(h, LookPath(name)).Done?
    ensures r.value.Some? ==> HasPrefix(r.value.value, "required dependency missing: ")
  {
    var c := Ask(w, h, LookPath(name));
    Out(if c.reply.Done? then None else Some("required dependency missing: " + Output(c.reply) + ": " + ErrorText(c.reply)), [c])
  }

  method RequireBinary(sh: Shell, name: string) returns (err: Failure)
    modifies sh`trace
    ensures Performs(old(sh.trace), sh.trace, err, RequireBinarySpec(sh.world, old(sh.trace), name))
  {
    var reply := sh.Do(LookPath(name));
    err := if reply.Done? then None else Some("required dependency missing: " + Output(reply) + ": " + ErrorText(reply));
  }

  const TokenVariable := "GITHUB_TOKEN"
  const PatMissing := "environment Variable Missing: " +
    "\nA GitHub Personal Access Token (GITHUB_TOKEN) is required.\nSet it with: export GITHUB_TOKEN=your_token_here"

  /** `GetPAT`: the GitHub token from the environment; unset and empty are both an error. */
  function GetPATSpec(w: World, h: seq<Call>): (r: Out<Result<string>>)
    ensures r.calls == [Ask(w, h, LookupEnv(TokenVariable))]
    ensures var reply := w(h, LookupEnv(TokenVariable));
      (r.value.Ok? <==> reply.Done? && reply.out != "") &&
      (r.value.Ok? ==> r.value.value == reply.out) &&
      (r.value.Err? ==> r.value.error == PatMissing)
  {
    var c := Ask(w, h, LookupEnv(TokenVariable));
    Out(if c.reply.Done? && c.reply.out != "" then Ok(c.reply.out) else Err(PatMissing), [c])
  }

  method GetPAT(sh: Shell) returns (r: Result<string>)
    modifies sh`trace
    ensures Performs(old(sh.trace), sh.trace, r, GetPATSpec(sh.world, old(sh.trace)))
  {
    var reply := sh.Do(LookupEnv(TokenVariable));
    r := if reply.Done? && reply.out != "" then Ok(reply.out) else Err(PatMissing);
  }

  /** `DeleteGitHubRelease`: the token, then the deletion; without a token nothing
      reaches the network. */
  function DeleteGitHubReleaseSpec(w: World, lib: Library, h: seq<Call>, tag: string): (r: Out<Failure>)
    ensures |r.calls| >= 1 && r.calls[0] == Ask(w, h, LookupEnv(TokenVariable))
    ensures GetPATSpec(w, h).value.Err? ==> r == Out(Some(PatMissing), [r.calls[0]])
  {
    var pat := GetPATSpec(w, h);
    if pat.value.Err? then Out(Some(pat.value.error), pat.calls)
    else
      var d := Git.DeleteGithubReleaseSpec(w, lib, h + pat.calls, tag, pat.value.value);
      Out(d.value, pat.calls + d.calls)
  }

  method DeleteGitHubRelease(sh: Shell, tag: string) returns (err: Failure)
    modifies sh`trace
    ensures Performs(old(sh.trace), sh.trace, err, DeleteGitHubReleaseSpec(sh.world, sh.lib, old(sh.trace), tag))
  {
    ghost var h := sh.trace;
    var pat := GetPAT(sh);
    if pat.Err? {
      return Some(pat.error);
    }
    ghost var h1 := sh.trace;
    err := Git.DeleteGithubRelease(sh, tag, pat.value);
    AppendAssoc(h, h1[|h|..], Git.DeleteGithubReleaseSpec(sh.world, sh.lib, h1, tag, pat.value).calls);
  }

  /** The deletion touches no tag and no working tree: it reads the environment and
      the remote and sends HTTP requests. */
  lemma DeleteGitHubReleaseCalls(w: World, lib: Library, h: seq<Call>, tag: string)
    ensures forall c :: c in DeleteGitHubReleaseSpec(w, lib, h, tag).calls ==>
      c.effect == LookupEnv(TokenVariable) || Git.GitHubCall(c.effect)
  {
    var pat := GetPATSpec(w, h);
    if pat.value.Ok? {
      var d := Git.DeleteGithubReleaseSpec(w, lib, h + pat.calls, tag, pat.value.value);
      Git.DeleteGithubReleaseCalls(w, lib, h + pat.calls, tag, pat.value.value);
      assert forall c :: c in pat.calls + d.calls ==> c in pat.calls || c in d.calls;
    }
  }

  // ---- Release commit, tag and pushes -------------------------------------------

  /** A git command whose failure is reported as `<what>: <output>: <error>`. */
  function ToolStepSpec(w: World, h: seq<Call>, args: seq<string>, what: string): (r: Out<Failure>)
    ensures r.calls == [Ask(w, h, Git.GitCmd(args))]
    ensures r.value.None? <==> w(h, Git.GitCmd(args)).Done?
    ensures r.value.Some? ==> HasPrefix(r.value.value, what + ": ")
  {
    var c := Ask(w, h, Git.GitCmd(args));
    Out(if c.reply.Done? then None else Some(what + ": " + Output(c.reply) + ": " + ErrorText(c.reply)), [c])
  }

  method ToolStep(sh: Shell, args: seq<string>, what: string) returns (err: Failure)
    modifies sh`trace
    ensures Performs(old(sh.trace), sh.trace, err, ToolStepSpec(sh.world, old(sh.trace), args, what))
  {
    var reply := sh.Do(Git.GitCmd(args));
    err := if reply.Done? then None else Some(what + ": " + Output(reply) + ": " + ErrorText(reply));
  }

  /** A command run for its combined output, whose failure is reported as
      `<what>: <output>: <error>`. */
  function CommandSpec(w: World, h: seq<Call>, e: Effect, what: string): (r: Out<Failure>)
    ensures r.calls == [Ask(w, h, e)]
    ensures r.value.None? <==> w(h, e).Done?
    ensures r.value.Some? ==> HasPrefix(r.value.value, what + ": ")
  {
    var c := Ask(w, h, e);
    Out(if c.reply.Done? then None else Some(what + ": " + Output(c.reply) + ": " + ErrorText(c.reply)), [c])
  }

  method Command(sh: Shell, e: Effect, what: string) returns (err: Failure)
    modifies sh`trace
    ensures Performs(old(sh.trace), sh.trace, err, CommandSpec(sh.world, old(sh.trace), e, what))
  {
    var reply := sh.Do(e);
    err := if reply.Done? then None else Some(what + ": " + Output(reply) + ": " + ErrorText(reply));
  }

  /** The release commit message and the tag of a version. */
  function CommitMessage(v: Semver.Version): string {
    "chore(neko-release): " + Semver.Format(v)
  }

  function TagOf(v: Semver.Version): string {
    "v" + Semver.Format(v)
  }

  function CommitArgs(v: Semver.Version): seq<string> {
    ["commit", "--allow-empty", "-a", "-m", CommitMessage(v)]
  }

  function TagArgs(v: Semver.Version): seq<string> { ["tag", TagOf(v)] }

  const PushHeadArgs := ["push", "origin", "HEAD"]

  function PushTagArgs(v: Semver.Version): seq<string> { ["push", "origin", TagOf(v)] }

  /** The tag of a well-formed version names it: dropping the `v` and parsing gives
      the version back. */
  lemma TagNamesVersion(v: Semver.Version)
    requires Semver.WellFormed(v)
    ensures HasPrefix(TagOf(v), "v") && Semver.Parse(TagOf(v)[1..]) == Some(v)
    ensures HasPrefix(CommitMessage(v), "chore(neko-release): ")
  {
    assert TagOf(v)[1..] == Semver.Format(v);
    Semver.ParseFormat(v);
  }

  /** `CreateReleaseCommit`: an empty-allowed commit of all tracked changes. */
  function CreateReleaseCommitSpec(w: World, h: seq<Call>, v: Semver.Version): Out<Failure> {
    ToolStepSpec(w, h, CommitArgs(v), "failed to create release commit")
  }

  /** `CreateGitTag`: the lightweight tag `v<version>`. */
  function CreateGitTagSpec(w: World, h: seq<Call>, v: Semver.Version): Out<Failure> {
    ToolStepSpec(w, h, TagArgs(v), "failed to create git tag")
  }

  /** `PushCommits`: `git push origin HEAD`. */
  function PushCommitsSpec(w: World, h: seq<Call>): Out<Failure> {
    ToolStepSpec(w, h, PushHeadArgs, "failed to push release commits")
  }

  /** `PushGitTag`: `git push origin v<version>`. */
  function PushGitTagSpec(w: World, h: seq<Call>, v: Semver.Version): Out<Failure> {
    ToolStepSpec(w, h, PushTagArgs(v), "failed to push git tag")
  }

  method CreateReleaseCommit(sh: Shell, v: Semver.Version) returns (err: Failure)
    modifies sh`trace
    ensures Performs(old(sh.trace), sh.trace, err, CreateReleaseCommitSpec(sh.world, old(sh.trace), v))
  {
    err := ToolStep(sh, CommitArgs(v), "failed to create release commit");
  }

  method CreateGitTag(sh: Shell, v: Semver.Version) returns (err: Failure)
    modifies sh`trace
    ensures Performs(old(sh.trace), sh.trace, err, CreateGitTagSpec(sh.world, old(sh.trace), v))
  {
    err := ToolStep(sh, TagArgs(v), "failed to create git tag");
  }

  method PushCommits(sh: Shell) returns (err: Failure)
    modifies sh`trace
    ensures Performs(old(sh.trace), sh.trace, err, PushCommitsSpec(sh.world, old(sh.trace)))
  {
    err := ToolStep(sh, PushHeadArgs, "failed to push release commits");
  }

  method PushGitTag(sh: Shell, v: Semver.Version) returns (err: Failure)
    modifies sh`trace
    ensures Performs(old(sh.trace), sh.trace, err, PushGitTagSpec(sh.world, old(sh.trace), v))
  {
    err := ToolStep(sh, PushTagArgs(v), "failed to push git tag");
  }

  // ---- Rollback ---------------------------------------------------------------

  const InconsistentMessage := "rollback: inconsistent state " +
    "(release commit exists but pre-head missing)"

  /** Wraps a failure as `fmt.Errorf("<context>: %w", err)` does. */
  function Wrap(context: string, f: Failure): (r: Failure)
    ensures r.None? <==> f.None?
    ensures r.Some? ==> r.value == context + ": " + f.value
  {
    if f.None? then None else Some(context + ": " + f.value)
  }

  /** First phase: the GitHub release, deleted only when one was created under a
      known tag. */
  function GitHubPhase(w: World, lib: Library, h: seq<Call>, st: GitReleaseState): (r: Out<Failure>)
    ensures !(st.createdGitHubRelease && st.gitHubReleaseTag != "") ==> r == Out(None, [])
    ensures st.createdGitHubRelease && st.gitHubReleaseTag != "" ==>
      var d := DeleteGitHubReleaseSpec(w, lib, h, st.gitHubReleaseTag);
      r.calls == d.calls &&
      r.value == Wrap("rollback: failed deleting GitHub release " + st.gitHubReleaseTag, d.value)
  {
    if st.createdGitHubRelease && st.gitHubReleaseTag != "" then
      var d := DeleteGitHubReleaseSpec(w, lib, h, st.gitHubReleaseTag);
      Out(Wrap("rollback: failed deleting GitHub release " + st.gitHubReleaseTag, d.value), d.calls)
    else Out(None, [])
  }

  /** Second phase: the local tag is always deleted, its failure ignored; the remote
      tag only when it was pushed, and its failure aborts. */
  function TagPhase(w: World, h: seq<Call>, st: GitReleaseState): (r: Out<Failure>)
    ensures st.tagName == "" ==> r == Out(None, [])
    ensures st.tagName != "" ==>
      |r.calls| == (if st.pushedTag then 2 else 1) &&
      r.calls[0] == Ask(w, h, Git.GitCmd(Git.DeleteLocalTagArgs(st.tagName))) &&
      (st.pushedTag ==> r.calls[1] == Ask(w, h + [r.calls[0]], Git.GitCmd(Git.DeleteRemoteTagArgs(st.tagName)))) &&
      (r.value.None? <==> !st.pushedTag || r.calls[1].reply.Done?)
  {
    if st.tagName == "" then Out(None, [])
    else
      var local := Git.DeleteLocalTagSpec(w, h, st.tagName);
      if !st.pushedTag then Out(None, local.calls)
      else
        var remote := Git.DeleteRemoteTagSpec(w, h + local.calls, st.tagName);
        Out(Wrap("rollback: failed deleting remote tag " + st.tagName, remote.value), local.calls + remote.calls)
  }

  /** The revert of a pushed release commit: `git revert`, an empty `revert <hash>`
      commit when the revert fails (its own failure ignored), then the push, whose
      failure aborts. */
  function RevertPushedSpec(w: World, h: seq<Call>, head: string): (r: Out<Failure>)
  {
    var c0 := Ask(w, h, Git.GitCmd(Git.RevertCommitArgs(head)));
    var pre := if c0.reply.Done? then [c0] else [c0, Ask(w, h + [c0], Git.GitCmd(Git.CreateCommitArgs("revert " + head)))];
    var push := PushCommitsSpec(w, h + pre);
    Out(Wrap("rollback: failed pushing revert commit", push.value), pre + push.calls)
  }

  /** The revert is tried first; the empty commit follows only a failed revert; the
      push comes last and alone decides the outcome. */
  lemma RevertPushedSteps(w: World, h: seq<Call>, head: string)
    ensures var r := RevertPushedSpec(w, h, head);
      var c0 := Ask(w, h, Git.GitCmd(Git.RevertCommitArgs(head)));
      (c0.reply.Done? ==> r.calls == [c0, Ask(w, h + [c0], Git.GitCmd(PushHeadArgs))]) &&
      (!c0.reply.Done? ==>
        var c1 := Ask(w, h + [c0], Git.GitCmd(Git.CreateCommitArgs("revert " + head)));
        r.calls == [c0, c1, Ask(w, h + [c0, c1], Git.GitCmd(PushHeadArgs))]) &&
      (r.value.None? <==> r.calls[|r.calls| - 1].reply.Done?)
  {
  }

  /** Third phase: the release commit. A pushed one is reverted; an unpushed one is
      undone by a hard reset to the commit before it; without that commit the state
      is inconsistent and the rollback stops. */
  function CommitPhase(w: World, h: seq<Call>, st: GitReleaseState): (r: Out<Failure>)
    ensures st.releaseHead == "" ==> r == Out(None, [])
    ensures st.releaseHead != "" && st.pushedCommit ==> r == RevertPushedSpec(w, h, st.releaseHead)
    ensures st.releaseHead != "" && !st.pushedCommit && st.preHead != "" ==>
      r.calls == [Ask(w, h, Git.GitCmd(Git.HardResetArgs(st.preHead)))] &&
      (r.value.None? <==> r.calls[0].reply.Done?)
    ensures st.releaseHead != "" && !st.pushedCommit && st.preHead == "" ==>
      r == Out(Some(InconsistentMessage), [])
  {
    if st.releaseHead == "" then Out(None, [])
    else if st.pushedCommit then RevertPushedSpec(w, h, st.releaseHead)
    else if st.preHead != "" then
      var reset := Git.HardResetToSpec(w, h, st.preHead);
      Out(Wrap("rollback: failed hard reset to " + st.preHead, reset.value), reset.calls)
    else Out(Some(InconsistentMessage), [])
  }

  /** Last phase: removing untracked files. */
  function CleanPhase(w: World, h: seq<Call>): (r: Out<Failure>)
    ensures r.calls == [Ask(w, h, Git.GitCmd(Git.CleanUntrackedArgs()))]
    ensures r.value.None? <==> r.calls[0].reply.Done?
  {
    var clean := Git.CleanUntrackedSpec(w, h);
    Out(Wrap("rollback: failed cleaning untracked files", clean.value), clean.calls)
  }

  /** The phases run in order; the first that fails ends the run with its error, and
      the calls are those of the phases that ran. */
  function Chain(p1: Out<Failure>, p2: Out<Failure>, p3: Out<Failure>, p4: Out<Failure>): Out<Failure> {
    if p1.value.Some? then p1
    else if p2.value.Some? then Out(p2.value, p1.calls + p2.calls)
    else if p3.value.Some? then Out(p3.value, p1.calls + p2.calls + p3.calls)
    else Out(p4.value, p1.calls + p2.calls + p3.calls + p4.calls)
  }

  /** `RevertGitRelease`: the four phases in order, each starting after the calls of
      the ones before; the first failing phase ends the rollback. */
  function RevertGitReleaseSpec(w: World, lib: Library, h: seq<Call>, st: GitReleaseState): (r: Out<Failure>)
  {
    var p1 := GitHubPhase(w, lib, h, st);
    var p2 := TagPhase(w, h + p1.calls, st);
    var p3 := CommitPhase(w, h + p1.calls + p2.calls, st);
    var p4 := CleanPhase(w, h + p1.calls + p2.calls + p3.calls);
    Chain(p1, p2, p3, p4)
  }

  method RevertGitRelease(sh: Shell, st: GitReleaseState) returns (err: Failure)
    modifies sh`trace
    ensures Performs(old(sh.trace), sh.trace, err, RevertGitReleaseSpec(sh.world, sh.lib, old(sh.trace), st))
  {
    ghost var h := sh.trace;
    ghost var p1 := GitHubPhase(sh.world, sh.lib, h, st);
    err := RevertGitHubRelease(sh, st);
    if err.Some? {
      return;
    }
    ghost var p2 := TagPhase(sh.world, h + p1.calls, st);
    err := RevertTags(sh, st);
    AppendAssoc(h, p1.calls, p2.calls);
    if err.Some? {
      return;
    }
    ghost var p3 := CommitPhase(sh.world, h + p1.calls + p2.calls, st);
    err := RevertCommits(sh, st);
    AppendAssoc(h, p1.calls + p2.calls, p3.calls);
    if err.Some? {
      return;
    }
    ghost var p4 := CleanPhase(sh.world, h + p1.calls + p2.calls + p3.calls);
    err := FinalCleanup(sh);
    AppendAssoc(h, p1.calls + p2.calls + p3.calls, p4.calls);
  }

  /** The GitHub-release block of `RevertGitRelease`. */
  method RevertGitHubRelease(sh: Shell, st: GitReleaseState) returns (err: Failure)
    modifies sh`trace
    ensures Performs(old(sh.trace), sh.trace, err, GitHubPhase(sh.world, sh.lib, old(sh.trace), st))
  {
    if st.createdGitHubRelease && st.gitHubReleaseTag != "" {
      var e := DeleteGitHubRelease(sh, st.gitHubReleaseTag);
      return Wrap("rollback: failed deleting GitHub release " + st.gitHubReleaseTag, e);
    }
    return None;
  }

  /** The tag block of `RevertGitRelease`. */
  method RevertTags(sh: Shell, st: GitReleaseState) returns (err: Failure)
    modifies sh`trace
    ensures Performs(old(sh.trace), sh.trace, err, TagPhase(sh.world, old(sh.trace), st))
  {
    if st.tagName != "" {
      var _ := Git.GitStep(sh, Git.DeleteLocalTagArgs(st.tagName), "git tag -d " + st.tagName);
      if st.pushedTag {
        var e := Git.GitStep(sh, Git.DeleteRemoteTagArgs(st.tagName), "git push origin --delete " + st.tagName);
        return Wrap("rollback: failed deleting remote tag " + st.tagName, e);
      }
    }
    return None;
  }

  /** The commit block of `RevertGitRelease`. */
  method RevertCommits(sh: Shell, st: GitReleaseState) returns (err: Failure)
    modifies sh`trace
    ensures Performs(old(sh.trace), sh.trace, err, CommitPhase(sh.world, old(sh.trace), st))
  {
    if st.releaseHead != "" {
      if st.pushedCommit {
        err := RevertPushed(sh, st.releaseHead);
        return;
      } else if st.preHead != "" {
        var e := Git.GitStep(sh, Git.HardResetArgs(st.preHead), "git reset --hard " + st.preHead);
        return Wrap("rollback: failed hard reset to " + st.preHead, e);
      } else {
        return Some(InconsistentMessage);
      }
    }
    return None;
  }

  method RevertPushed(sh: Shell, head: string) returns (err: Failure)
    modifies sh`trace
    ensures Performs(old(sh.trace), sh.trace, err, RevertPushedSpec(sh.world, old(sh.trace), head))
  {
    ghost var h := sh.trace;
    ghost var c0 := Ask(sh.world, h, Git.GitCmd(Git.RevertCommitArgs(head)));
    var e := Git.GitStep(sh, Git.RevertCommitArgs(head), "git revert " + head);
    assert sh.trace == h + [c0];
    ghost var pre := [c0];
    if e.Some? {
      ghost var c1 := Ask(sh.world, h + [c0], Git.GitCmd(Git.CreateCommitArgs("revert " + head)));
      var _ := Git.GitStep(sh, Git.CreateCommitArgs("revert " + head), "git commit -m '" + "revert " + head + "'");
      assert sh.trace == h + [c0] + [c1];
      pre := [c0, c1];
      assert h + [c0] + [c1] == h + pre;
    }
    ghost var push := PushCommitsSpec(sh.world, h + pre);
    var p := PushCommits(sh);
    assert sh.trace == h + pre + push.calls;
    AppendAssoc(h, pre, push.calls);
    err := Wrap("rollback: failed pushing revert commit", p);
    assert RevertPushedSpec(sh.world, h, head) == Out(err, pre + push.calls);
  }

  /** The final cleanup of `RevertGitRelease`. */
  method FinalCleanup(sh: Shell) returns (err: Failure)
    modifies sh`trace
    ensures Performs(old(sh.trace), sh.trace, err, CleanPhase(sh.world, old(sh.trace)))
  {
    var e := Git.GitStep(sh, Git.CleanUntrackedArgs(), "git clean -fd");
    err := Wrap("rollback: failed cleaning untracked files", e);
  }

  // ---- What a rollback does --------------------------------------------------------

  /** The calls each phase can make. */
  predicate GitHubPhaseCall(e: Effect) {
    e == LookupEnv(TokenVariable) || Git.GitHubCall(e)
  }

  predicate CommitPhaseCall(e: Effect) {
    GitVerb(e, "revert") || GitVerb(e, "commit") || GitVerb(e, "reset") || e == Git.GitCmd(PushHeadArgs)
  }

  predicate CleanCall(e: Effect) {
    e == Git.GitCmd(Git.CleanUntrackedArgs())
  }

  /** The phase an effect belongs to: 1 the GitHub release, 2 the tags, 3 the release
      commit, 4 the cleanup; 0 for anything else. */
  function PhaseOf(e: Effect): nat {
    if GitHubPhaseCall(e) then 1
    else if TagOperation(e) then 2
    else if CommitPhaseCall(e) then 3
    else if CleanCall(e) then 4
    else 0
  }

  predicate AllInPhase(calls: seq<Call>, k: nat) {
    forall c :: c in calls ==> PhaseOf(c.effect) == k
  }

  predicate NoLaterThan(calls: seq<Call>, k: nat) {
    forall c :: c in calls ==> PhaseOf(c.effect) <= k
  }

  /** Each call belongs to the same phase as the calls before it or a later one. */
  predicate InPhaseOrder(calls: seq<Call>) {
    forall i, j :: 0 <= i < j < |calls| ==> PhaseOf(calls[i].effect) <= PhaseOf(calls[j].effect)
  }

  lemma GitHubPhaseCalls(w: World, lib: Library, h: seq<Call>, st: GitReleaseState)
    ensures GitHubPhase(w, lib, h, st).calls != [] <==> st.createdGitHubRelease && st.gitHubReleaseTag != ""
    ensures AllInPhase(GitHubPhase(w, lib, h, st).calls, 1)
  {
    if st.createdGitHubRelease && st.gitHubReleaseTag != "" {
      DeleteGitHubReleaseCalls(w, lib, h, st.gitHubReleaseTag);
    }
  }

  lemma TagPhaseCalls(w: World, h: seq<Call>, st: GitReleaseState)
    ensures AllInPhase(TagPhase(w, h, st).calls, 2)
  {
    var r := TagPhase(w, h, st);
    if st.tagName != "" {
      PhaseOfGit(Git.DeleteLocalTagArgs(st.tagName));
      if st.pushedTag {
        PhaseOfGit(Git.DeleteRemoteTagArgs(st.tagName));
        assert r.calls == [r.calls[0], r.calls[1]];
      } else {
        assert r.calls == [r.calls[0]];
      }
    }
  }

  lemma CommitPhaseCalls(w: World, h: seq<Call>, st: GitReleaseState)
    ensures AllInPhase(CommitPhase(w, h, st).calls, 3)
  {
    if st.releaseHead != "" && st.pushedCommit {
      RevertPushedSteps(w, h, st.releaseHead);
      PhaseOfGit(Git.RevertCommitArgs(st.releaseHead));
      PhaseOfGit(Git.CreateCommitArgs("revert " + st.releaseHead));
      PhaseOfGit(PushHeadArgs);
    } else if st.releaseHead != "" && st.preHead != "" {
      PhaseOfGit(Git.HardResetArgs(st.preHead));
    }
  }

  lemma CleanPhaseCalls(w: World, h: seq<Call>)
    ensures AllInPhase(CleanPhase(w, h).calls, 4)
  {
    PhaseOfGit(Git.CleanUntrackedArgs());
  }

  /** The phase of a git command, read off its first two arguments. */
  lemma PhaseOfGit(args: seq<string>)
    requires |args| >= 2
    ensures var e := Git.GitCmd(args);
      PhaseOf(e) ==
        if args == ["remote", "-v"] then 1
        else if args[0] == "tag" || (args[0] == "push" && "--delete" in args) then 2
        else if args[0] in {"revert", "commit", "reset"} || args == PushHeadArgs then 3
        else if args == Git.CleanUntrackedArgs() then 4
        else 0
  {
  }

  lemma {:induction false} OrderAppend(a: seq<Call>, b: seq<Call>, k: nat)
    requires InPhaseOrder(a) && NoLaterThan(a, k) && AllInPhase(b, k)
    ensures InPhaseOrder(a + b) && NoLaterThan(a + b, k)
  {
    forall i, j | 0 <= i < j < |a + b|
      ensures PhaseOf((a + b)[i].effect) <= PhaseOf((a + b)[j].effect)
    {
      if j < |a| {
        assert (a + b)[i] == a[i] && (a + b)[j] == a[j];
      } else if i < |a| {
        assert (a + b)[i] == a[i] && (a + b)[j] == b[j - |a|];
        assert a[i] in a && b[j - |a|] in b;
      } else {
        assert (a + b)[i] == b[i - |a|] && (a + b)[j] == b[j - |a|];
        assert b[i - |a|] in b && b[j - |a|] in b;
      }
    }
  }

  /** A chain of phases whose calls each stay within their own phase makes its calls
      in phase order, and stops at the phase that fails. */
  lemma ChainOrder(p1: Out<Failure>, p2: Out<Failure>, p3: Out<Failure>, p4: Out<Failure>)
    requires AllInPhase(p1.calls, 1) && AllInPhase(p2.calls, 2) && AllInPhase(p3.calls, 3) && AllInPhase(p4.calls, 4)
    ensures InPhaseOrder(Chain(p1, p2, p3, p4).calls)
    ensures p1.value.Some? ==> NoLaterThan(Chain(p1, p2, p3, p4).calls, 1)
    ensures p1.value.None? && p2.value.Some? ==> NoLaterThan(Chain(p1, p2, p3, p4).calls, 2)
    ensures p1.value.None? && p2.value.None? && p3.value.Some? ==> NoLaterThan(Chain(p1, p2, p3, p4).calls, 3)
  {
    assert p1.calls == [] + p1.calls;
    OrderAppend([], p1.calls, 1);
    if p1.value.None? {
      OrderAppend(p1.calls, p2.calls, 2);
      if p2.value.None? {
        OrderAppend(p1.calls + p2.calls, p3.calls, 3);
        if p3.value.None? {
          OrderAppend(p1.calls + p2.calls + p3.calls, p4.calls, 4);
        }
      }
    }
  }

  /** The first phase's calls open every run of the chain. */
  lemma ChainPrefix(p1: Out<Failure>, p2: Out<Failure>, p3: Out<Failure>, p4: Out<Failure>)
    ensures var r := Chain(p1, p2, p3, p4);
      |p1.calls| <= |r.calls| && r.calls[..|p1.calls|] == p1.calls
  {
    var r := Chain(p1, p2, p3, p4);
    if p1.value.None? {
      AppendAssoc(p1.calls, p2.calls, p3.calls);
      AppendAssoc(p1.calls + p2.calls, p3.calls, p4.calls);
      AppendAssoc(p1.calls, p2.calls + p3.calls, p4.calls);
      var rest := if p2.value.Some? then p2.calls else if p3.value.Some? then p2.calls + p3.calls
        else p2.calls + p3.calls + p4.calls;
      assert r.calls == p1.calls + rest;
    }
  }

  /** The rollback undoes in reverse order of the release: the GitHub release first,
      then the tags, then the release commit, and the cleanup last; a failing phase
      ends it, so nothing of a later phase follows. */
  lemma RollbackInOrder(w: World, lib: Library, h: seq<Call>, st: GitReleaseState)
    ensures var r := RevertGitReleaseSpec(w, lib, h, st);
      var p1 := GitHubPhase(w, lib, h, st);
      var p2 := TagPhase(w, h + p1.calls, st);
      var p3 := CommitPhase(w, h + p1.calls + p2.calls, st);
      InPhaseOrder(r.calls) &&
      (p1.value.Some? ==> NoLaterThan(r.calls, 1)) &&
      (p1.value.None? && p2.value.Some? ==> NoLaterThan(r.calls, 2)) &&
      (p1.value.None? && p2.value.None? && p3.value.Some? ==> NoLaterThan(r.calls, 3))
  {
    var p1 := GitHubPhase(w, lib, h, st);
    var p2 := TagPhase(w, h + p1.calls, st);
    var p3 := CommitPhase(w, h + p1.calls + p2.calls, st);
    var p4 := CleanPhase(w, h + p1.calls + p2.calls + p3.calls);
    GitHubPhaseCalls(w, lib, h, st);
    TagPhaseCalls(w, h + p1.calls, st);
    CommitPhaseCalls(w, h + p1.calls + p2.calls, st);
    CleanPhaseCalls(w, h + p1.calls + p2.calls + p3.calls);
    ChainOrder(p1, p2, p3, p4);
  }

  /** The GitHub release goes first: its calls open the rollback, and a failure among
      them ends it with the release's tag in the error. */
  lemma GitHubReleaseFirst(w: World, lib: Library, h: seq<Call>, st: GitReleaseState)
    ensures var r := RevertGitReleaseSpec(w, lib, h, st);
      var p1 := GitHubPhase(w, lib, h, st);
      |p1.calls| <= |r.calls| && r.calls[..|p1.calls|] == p1.calls
    ensures var r := RevertGitReleaseSpec(w, lib, h, st);
      var p1 := GitHubPhase(w, lib, h, st);
      p1.value.Some? ==>
        r.calls == p1.calls &&
        HasPrefix(r.value.value, "rollback: failed deleting GitHub release " + st.gitHubReleaseTag + ": ")
  {
    var p1 := GitHubPhase(w, lib, h, st);
    var p2 := TagPhase(w, h + p1.calls, st);
    var p3 := CommitPhase(w, h + p1.calls + p2.calls, st);
    var p4 := CleanPhase(w, h + p1.calls + p2.calls + p3.calls);
    ChainPrefix(p1, p2, p3, p4);
  }

  /** Once the GitHub release is dealt with, the tag phase's calls follow at once. */
  lemma ChainSecond(p1: Out<Failure>, p2: Out<Failure>, p3: Out<Failure>, p4: Out<Failure>)
    requires p1.value.None?
    ensures var r := Chain(p1, p2, p3, p4);
      |p1.calls + p2.calls| <= |r.calls| && r.calls[..|p1.calls + p2.calls|] == p1.calls + p2.calls
  {
    var r := Chain(p1, p2, p3, p4);
    if p2.value.None? {
      AppendAssoc(p1.calls + p2.calls, p3.calls, p4.calls);
      var rest := if p3.value.Some? then p3.calls else p3.calls + p4.calls;
      assert r.calls == p1.calls + p2.calls + rest;
    }
  }

  /** Every call of a run of the chain belongs to one of its phases. */
  lemma ChainMembers(p1: Out<Failure>, p2: Out<Failure>, p3: Out<Failure>, p4: Out<Failure>)
    ensures forall c :: c in Chain(p1, p2, p3, p4).calls ==>
      c in p1.calls || c in p2.calls || c in p3.calls || c in p4.calls
  {
  }

  /** Once the GitHub release is dealt with, a known tag is deleted locally right away,
      and its remote deletion is among the rollback's calls exactly when the tag was
      pushed. */
  lemma TagsReverted(w: World, lib: Library, h: seq<Call>, st: GitReleaseState)
    requires GitHubPhase(w, lib, h, st).value.None?
    ensures var r := RevertGitReleaseSpec(w, lib, h, st);
      var p1 := GitHubPhase(w, lib, h, st);
      st.tagName != "" ==>
        |r.calls| > |p1.calls| &&
        r.calls[|p1.calls|] == Ask(w, h + p1.calls, Git.GitCmd(Git.DeleteLocalTagArgs(st.tagName)))
    ensures (exists c :: c in RevertGitReleaseSpec(w, lib, h, st).calls &&
                         c.effect == Git.GitCmd(Git.DeleteRemoteTagArgs(st.tagName))) <==>
      st.tagName != "" && st.pushedTag
  {
    var p1 := GitHubPhase(w, lib, h, st);
    var p2 := TagPhase(w, h + p1.calls, st);
    var p3 := CommitPhase(w, h + p1.calls + p2.calls, st);
    var p4 := CleanPhase(w, h + p1.calls + p2.calls + p3.calls);
    var r := Chain(p1, p2, p3, p4);
    var remote := Git.GitCmd(Git.DeleteRemoteTagArgs(st.tagName));
    ChainSecond(p1, p2, p3, p4);
    if st.tagName != "" {
      assert r.calls[|p1.calls|] == (p1.calls + p2.calls)[|p1.calls|];
      if st.pushedTag {
        assert r.calls[|p1.calls| + 1] == (p1.calls + p2.calls)[|p1.calls| + 1];
        assert r.calls[|p1.calls| + 1] in r.calls;
      }
    }
    if !(st.tagName != "" && st.pushedTag) {
      GitHubPhaseCalls(w, lib, h, st);
      CommitPhaseCalls(w, h + p1.calls + p2.calls, st);
      CleanPhaseCalls(w, h + p1.calls + p2.calls + p3.calls);
      ChainMembers(p1, p2, p3, p4);
      PhaseOfGit(Git.DeleteRemoteTagArgs(st.tagName));
      forall c | c in r.calls ensures c.effect != remote {
        if c in p2.calls {
          assert p2.calls == [] || p2.calls == [p2.calls[0]];
        }
      }
    }
  }

  /** An unpushed release commit with a known predecessor is undone by the hard reset
      alone: no revert, no empty commit and no push of HEAD. */
  lemma UnpushedCommitReset(w: World, lib: Library, h: seq<Call>, st: GitReleaseState)
    requires st.releaseHead != "" && !st.pushedCommit && st.preHead != ""
    ensures forall c :: c in RevertGitReleaseSpec(w, lib, h, st).calls && PhaseOf(c.effect) == 3 ==>
      c.effect == Git.GitCmd(Git.HardResetArgs(st.preHead))
  {
    var p1 := GitHubPhase(w, lib, h, st);
    var p2 := TagPhase(w, h + p1.calls, st);
    var p3 := CommitPhase(w, h + p1.calls + p2.calls, st);
    var p4 := CleanPhase(w, h + p1.calls + p2.calls + p3.calls);
    GitHubPhaseCalls(w, lib, h, st);
    TagPhaseCalls(w, h + p1.calls, st);
    CleanPhaseCalls(w, h + p1.calls + p2.calls + p3.calls);
    ChainMembers(p1, p2, p3, p4);
  }

  /** A release commit without a known predecessor cannot be undone: once the GitHub
      release and the tags are dealt with the rollback reports the inconsistency, and
      it never cleans up. */
  lemma InconsistentStateStops(w: World, lib: Library, h: seq<Call>, st: GitReleaseState)
    requires st.releaseHead != "" && !st.pushedCommit && st.preHead == ""
    ensures var r := RevertGitReleaseSpec(w, lib, h, st);
      var p1 := GitHubPhase(w, lib, h, st);
      var p2 := TagPhase(w, h + p1.calls, st);
      NoLaterThan(r.calls, 2) &&
      (p1.value.None? && p2.value.None? ==> r.value == Some(InconsistentMessage))
  {
    var p1 := GitHubPhase(w, lib, h, st);
    var p2 := TagPhase(w, h + p1.calls, st);
    var p3 := CommitPhase(w, h + p1.calls + p2.calls, st);
    var p4 := CleanPhase(w, h + p1.calls + p2.calls + p3.calls);
    GitHubPhaseCalls(w, lib, h, st);
    TagPhaseCalls(w, h + p1.calls, st);
    CommitPhaseCalls(w, h + p1.calls + p2.calls, st);
    CleanPhaseCalls(w, h + p1.calls + p2.calls + p3.calls);
    ChainOrder(p1, p2, p3, p4);
  }

  /** A rollback that gets past the release commit ends with the cleanup, whose outcome
      is the rollback's. */
  lemma CleanupLast(w: World, lib: Library, h: seq<Call>, st: GitReleaseState)
    ensures var r := RevertGitReleaseSpec(w, lib, h, st);
      var p1 := GitHubPhase(w, lib, h, st);
      var p2 := TagPhase(w, h + p1.calls, st);
      var p3 := CommitPhase(w, h + p1.calls + p2.calls, st);
      p1.value.None? && p2.value.None? && p3.value.None? ==>
        r.calls != [] && CleanCall(r.calls[|r.calls| - 1].effect) &&
        (r.value.None? <==> r.calls[|r.calls| - 1].reply.Done?)
  {
  }

  /** With nothing recorded the rollback only cleans up. */
  lemma NothingToUndo(w: World, lib: Library, h: seq<Call>, st: GitReleaseState)
    requires !(st.createdGitHubRelease && st.gitHubReleaseTag != "") && st.tagName == "" && st.releaseHead == ""
    ensures RevertGitReleaseSpec(w, lib, h, st) == CleanPhase(w, h)
  {
    assert h + [] + [] + [] == h;
  }
}
