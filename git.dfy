/** Git and GitHub operations of the release plugin: the GitHub owner/repository of
    the `origin` remote, the checks run before a release, contributors from
    `git shortlog`, deleting a GitHub release through the REST API, and the small
    git commands a rollback is made of. */
module Git {
  import opened Wrappers
  import opened Strs
  import opened PluginTypes
  import opened Effects

  datatype RepoInfo = RepoInfo(owner: string, repo: string)

  datatype Contributor = Contributor(commits: string, author: string)

  const NoRemoteMessage := "no Remote Found: " +
    "This git repository has no remote configured.\nAdd a remote with: git remote add origin <url>"
  const InvalidRemoteMessage := "invalid Remote URL: " +
    "Could not parse GitHub repository information from remote.\nOnly GitHub repositories are supported"

  function GitCmd(args: seq<string>): Effect {
    Cmd("git", args)
  }

  // ---- Remote URL parsing -------------------------------------------------------

  const SshPrefix := "git@github.com:"
  const HttpsPrefix := "https://github.com/"

  /** RE2's `\s`: tab, newline, form feed, carriage return and space. */
  predicate ReSpace(c: char) {
    c == '\t' || c == '\n' || c as int == 12 || c == '\r' || c == ' '
  }

  predicate NoReSpace(s: string) {
    forall c :: c in s ==> !ReSpace(c)
  }

  /** A character of the repository group `[^/\s]`. */
  predicate RepoChar(c: char) {
    c != '/' && !ReSpace(c)
  }

  /** Length of the leading run of `[^/\s]` characters. */
  function RunLength(v: string): (n: nat)
    ensures n <= |v|
    ensures forall c :: c in v[..n] ==> RepoChar(c)
    ensures n == |v| || !RepoChar(v[n])
  {
    if v == [] || !RepoChar(v[0]) then 0
    else
      assert v[..1 + RunLength(v[1..])] == [v[0]] + v[1..][..RunLength(v[1..])];
      1 + RunLength(v[1..])
  }

  /** The repository group `([^/\s]+?)(?:\.git)?(?:\s|$)` at the start of `v`: the
      shortest non-empty run that is followed by an optional `.git` and then a space
      or the end of the text. Since `.git` is itself made of run characters, it can
      only be the last four characters of the whole run. */
  function RepoGroup(v: string): (r: Option<string>)
    ensures r.Some? ==> r.value != [] && forall c :: c in r.value ==> RepoChar(c)
  {
    var n := RunLength(v);
    if n == 0 || !(n == |v| || ReSpace(v[n])) then None
    else if n > 4 && v[n - 4..n] == ".git" then Some(v[..n - 4])
    else Some(v[..n])
  }

  /** The whole pattern anchored at the start of `t`: the prefix, the owner group
      `([^/]+)` reaching up to the first slash, the slash, the repository group. */
  function MatchAt(t: string, prefix: string): (r: Option<RepoInfo>)
    ensures r.Some? ==> r.value.owner != [] && '/' !in r.value.owner
    ensures r.Some? ==> r.value.repo != [] && forall c :: c in r.value.repo ==> RepoChar(c)
  {
    if !HasPrefix(t, prefix) then None
    else
      var u := t[|prefix|..];
      if '/' !in u then None
      else
        var k := IndexOf(u, '/');
        if k == 0 then None
        else
          match RepoGroup(u[k + 1..])
          case None => None
          case Some(repo) => Some(RepoInfo(u[..k], repo))
  }

  /** `FindStringSubmatch`: the match with the leftmost start. */
  function Find(s: string, prefix: string): (r: Option<RepoInfo>)
    ensures r.Some? ==> r.value.owner != [] && '/' !in r.value.owner
    ensures r.Some? ==> r.value.repo != [] && forall c :: c in r.value.repo ==> RepoChar(c)
  {
    if MatchAt(s, prefix).Some? then MatchAt(s, prefix)
    else if s == [] then None
    else Find(s[1..], prefix)
  }

  /** `parseRemote`: the SSH form first, then the HTTPS form. */
  function ParseRemote(s: string): (r: Result<RepoInfo>)
    ensures Find(s, SshPrefix).Some? ==> r == Ok(Find(s, SshPrefix).value)
    ensures Find(s, SshPrefix).None? && Find(s, HttpsPrefix).Some? ==> r == Ok(Find(s, HttpsPrefix).value)
    ensures r.Err? <==> Find(s, SshPrefix).None? && Find(s, HttpsPrefix).None?
    ensures r.Err? ==> r.error == InvalidRemoteMessage
  {
    var ssh := Find(s, SshPrefix);
    if ssh.Some? then Ok(ssh.value)
    else
      var https := Find(s, HttpsPrefix);
      if https.Some? then Ok(https.value) else Err(InvalidRemoteMessage)
  }

  /** A run of repository characters followed by a space, a slash or nothing is read
      whole. */
  lemma {:induction false} RunOf(run: string, rest: string)
    requires forall c :: c in run ==> RepoChar(c)
    requires rest == [] || !RepoChar(rest[0])
    ensures RunLength(run + rest) == |run|
  {
    if run != [] {
      assert run[0] in run;
      assert (run + rest)[1..] == run[1..] + rest;
      RunOf(run[1..], rest);
    }
  }

  /** The repository group of `repo + ".git"` followed by a space or nothing is `repo`. */
  lemma RepoGroupGit(repo: string, rest: string)
    requires repo != [] && forall c :: c in repo ==> RepoChar(c)
    requires rest == [] || ReSpace(rest[0])
    ensures RepoGroup(repo + ".git" + rest) == Some(repo)
  {
    var run := repo + ".git";
    assert forall c :: c in run ==> RepoChar(c) by {
      assert forall c :: c in run ==> c in repo || c in ".git";
    }
    assert run + rest == repo + ".git" + rest;
    RunOf(run, rest);
    var v := run + rest;
    assert v[..|run|] == run;
    assert v[|run| - 4..|run|] == ".git";
    assert v[..|run| - 4] == repo;
  }

  /** The anchored match of `prefix + owner + "/" + v` reads the owner and the
      repository group of `v`. */
  lemma MatchLine(prefix: string, owner: string, v: string)
    requires owner != [] && '/' !in owner
    ensures MatchAt(prefix + owner + "/" + v, prefix) ==
      if RepoGroup(v).Some? then Some(RepoInfo(owner, RepoGroup(v).value)) else None
  {
    var t := prefix + owner + "/" + v;
    assert t[..|prefix|] == prefix;
    var u := t[|prefix|..];
    assert u == owner + ['/'] + v;
    IndexOfAfter(owner, '/', v);
    assert u[..|owner|] == owner;
    assert u[|owner| + 1..] == v;
  }

  /** A remote line `git@github.com:<owner>/<repo>.git <rest>` yields that owner and
      repository. */
  lemma SshRemote(owner: string, repo: string, rest: string)
    requires owner != [] && '/' !in owner
    requires repo != [] && forall c :: c in repo ==> RepoChar(c)
    requires rest == [] || ReSpace(rest[0])
    ensures ParseRemote(SshPrefix + owner + "/" + repo + ".git" + rest) == Ok(RepoInfo(owner, repo))
  {
    var v := repo + ".git" + rest;
    var s := SshPrefix + owner + "/" + v;
    assert s == SshPrefix + owner + "/" + repo + ".git" + rest;
    RepoGroupGit(repo, rest);
    MatchLine(SshPrefix, owner, v);
    assert Find(s, SshPrefix) == Some(RepoInfo(owner, repo));
  }

  /** A remote line `https://github.com/<owner>/<repo>.git <rest>` without any `@`
      yields that owner and repository: the SSH form, tried first, cannot match. */
  lemma HttpsRemote(owner: string, repo: string, rest: string)
    requires owner != [] && '/' !in owner && '@' !in owner
    requires repo != [] && '@' !in repo && forall c :: c in repo ==> RepoChar(c)
    requires rest == [] || ReSpace(rest[0])
    requires '@' !in rest
    ensures ParseRemote(HttpsPrefix + owner + "/" + repo + ".git" + rest) == Ok(RepoInfo(owner, repo))
  {
    var v := repo + ".git" + rest;
    var s := HttpsPrefix + owner + "/" + v;
    assert s == HttpsPrefix + owner + "/" + repo + ".git" + rest;
    assert '@' !in s by {
      assert forall c :: c in s ==> c in HttpsPrefix || c in owner || c == '/' || c in repo || c in ".git" || c in rest;
    }
    NoAtNoSsh(s);
    RepoGroupGit(repo, rest);
    MatchLine(HttpsPrefix, owner, v);
  }

  /** Without an `@` in the text the SSH form is never found. */
  lemma {:induction false} NoAtNoSsh(s: string)
    requires '@' !in s
    ensures Find(s, SshPrefix).None?
  {
    AbsentCharNoPrefix(s, SshPrefix, 3);
    if s != [] {
      assert forall c :: c in s[1..] ==> c in s;
      NoAtNoSsh(s[1..]);
    }
  }

  lemma AbsentCharNoPrefix(s: string, p: string, i: nat)
    requires i < |p| && p[i] !in s
    ensures !HasPrefix(s, p)
  {
    if |p| <= |s| {
      assert s[i] == s[..|p|][i];
      assert s[i] in s;
    }
  }

  /** A remote without a slash after the host never parses. */
  lemma {:induction false} NoSlashNoMatch(s: string, prefix: string)
    requires '/' !in s
    ensures Find(s, prefix).None?
  {
    if HasPrefix(s, prefix) {
      assert forall c :: c in s[|prefix|..] ==> c in s;
    }
    if s != [] {
      assert forall c :: c in s[1..] ==> c in s;
      NoSlashNoMatch(s[1..], prefix);
    }
  }

  // ---- Current repository ---------------------------------------------------------

  /** `Current`: `git remote -v`, then the remote parser. */
  function CurrentSpec(w: World, h: seq<Call>): (r: Out<Result<RepoInfo>>)
    ensures r.calls == [Ask(w, h, GitCmd(["remote", "-v"]))]
    ensures var reply := w(h, GitCmd(["remote", "-v"]));
      (!reply.Done? ==> r.value == Err("not a Git Repository: " + ErrorText(reply))) &&
      (reply.Done? && AllSpace(reply.out) ==> r.value == Err(NoRemoteMessage)) &&
      (reply.Done? && !AllSpace(reply.out) ==> r.value == ParseRemote(reply.out))
  {
    var c := Ask(w, h, GitCmd(["remote", "-v"]));
    TrimSpaceShape(Output(c.reply));
    var res :=
      if !c.reply.Done? then Err("not a Git Repository: " + ErrorText(c.reply))
      else if TrimSpace(c.reply.out) == "" then Err(NoRemoteMessage)
      else ParseRemote(c.reply.out);
    Out(res, [c])
  }

  method Current(sh: Shell) returns (r: Result<RepoInfo>)
    modifies sh`trace
    ensures Performs(old(sh.trace), sh.trace, r, CurrentSpec(sh.world, old(sh.trace)))
  {
    var reply := sh.Do(GitCmd(["remote", "-v"]));
    if !reply.Done? {
      return Err("not a Git Repository: " + ErrorText(reply));
    }
    if TrimSpace(reply.out) == "" {
      return Err(NoRemoteMessage);
    }
    r := ParseRemote(reply.out);
  }

  /** `Fetch`: `git fetch`, its outcome ignored. */
  method Fetch(sh: Shell)
    modifies sh`trace
    ensures sh.trace == old(sh.trace) + [Ask(sh.world, old(sh.trace), GitCmd(["fetch"]))]
  {
    var _ := sh.Do(GitCmd(["fetch"]));
  }

  // ---- Preflight checks ------------------------------------------------------------

  const DirtyMessage := "the working tree has uncommitted changes. Please commit or stash them"
  const DetachedMessage := "detached HEAD state detected. Please checkout a branch"
  const BehindMessage := "branch is behind its upstream. Please pull the latest changes"

  const StatusPorcelain := GitCmd(["status", "--porcelain"])
  const AbbrevHead := GitCmd(["rev-parse", "--abbrev-ref", "HEAD"])
  const StatusShort := GitCmd(["status", "-sb"])

  function UpstreamOf(branch: string): Effect {
    GitCmd(["for-each-ref", "--format=%(upstream:short)", "refs/heads/" + branch])
  }

  /** `IsClean`: fails exactly when the command fails or its trimmed output is not empty. */
  function IsCleanSpec(w: World, h: seq<Call>): (r: Out<Failure>)
    ensures r.calls == [Ask(w, h, StatusPorcelain)]
    ensures var reply := w(h, StatusPorcelain);
      (r.value.None? <==> reply.Done? && AllSpace(reply.out)) &&
      (reply.Done? && !AllSpace(reply.out) ==> r.value == Some(DirtyMessage))
  {
    var c := Ask(w, h, StatusPorcelain);
    TrimSpaceShape(Output(c.reply));
    var res :=
      if !c.reply.Done? then Some("unable to check git status: " + ErrorText(c.reply))
      else if TrimSpace(c.reply.out) != "" then Some(DirtyMessage)
      else None;
    Out(res, [c])
  }

  method IsClean(sh: Shell) returns (err: Failure)
    modifies sh`trace
    ensures Performs(old(sh.trace), sh.trace, err, IsCleanSpec(sh.world, old(sh.trace)))
  {
    var reply := sh.Do(StatusPorcelain);
    if !reply.Done? {
      return Some("unable to check git status: " + ErrorText(reply));
    }
    if TrimSpace(reply.out) != "" {
      return Some(DirtyMessage);
    }
    return None;
  }

  /** `EnsureNotDetached`: fails exactly when the command fails or the trimmed branch
      name is `HEAD`. */
  function EnsureNotDetachedSpec(w: World, h: seq<Call>): (r: Out<Failure>)
    ensures r.calls == [Ask(w, h, AbbrevHead)]
    ensures var reply := w(h, AbbrevHead);
      (r.value.None? <==> reply.Done? && TrimSpace(reply.out) != "HEAD") &&
      (reply.Done? && TrimSpace(reply.out) == "HEAD" ==> r.value == Some(DetachedMessage))
  {
    var c := Ask(w, h, AbbrevHead);
    var res :=
      if !c.reply.Done? then Some("unable to determine HEAD state: " + ErrorText(c.reply))
      else if TrimSpace(c.reply.out) == "HEAD" then Some(DetachedMessage)
      else None;
    Out(res, [c])
  }

  method EnsureNotDetached(sh: Shell) returns (err: Failure)
    modifies sh`trace
    ensures Performs(old(sh.trace), sh.trace, err, EnsureNotDetachedSpec(sh.world, old(sh.trace)))
  {
    var reply := sh.Do(AbbrevHead);
    if !reply.Done? {
      return Some("unable to determine HEAD state: " + ErrorText(reply));
    }
    if TrimSpace(reply.out) == "HEAD" {
      return Some(DetachedMessage);
    }
    return None;
  }

  /** `OnMainBranch`: succeeds exactly when the trimmed branch is `main` or `master`. */
  function OnMainBranchSpec(w: World, h: seq<Call>): (r: Out<Failure>)
    ensures r.calls == [Ask(w, h, AbbrevHead)]
    ensures var reply := w(h, AbbrevHead);
      r.value.None? <==> reply.Done? && TrimSpace(reply.out) in {"main", "master"}
  {
    var c := Ask(w, h, AbbrevHead);
    var branch := TrimSpace(Output(c.reply));
    var res :=
      if !c.reply.Done? then Some("unable to determine current branch: " + ErrorText(c.reply))
      else if branch != "main" && branch != "master" then
        Some("you are on branch '" + branch + "'. Releases are only allowed from 'main' or 'master'")
      else None;
    Out(res, [c])
  }

  method OnMainBranch(sh: Shell) returns (err: Failure)
    modifies sh`trace
    ensures Performs(old(sh.trace), sh.trace, err, OnMainBranchSpec(sh.world, old(sh.trace)))
  {
    var reply := sh.Do(AbbrevHead);
    if !reply.Done? {
      return Some("unable to determine current branch: " + ErrorText(reply));
    }
    var branch := TrimSpace(reply.out);
    if branch != "main" && branch != "master" {
      return Some("you are on branch '" + branch + "'. Releases are only allowed from 'main' or 'master'");
    }
    return None;
  }

  /** `HasUpstream`: the branch name, then its upstream; fails exactly when a command
      fails or the trimmed upstream is empty. */
  function HasUpstreamSpec(w: World, h: seq<Call>): (r: Out<Failure>)
    ensures 1 <= |r.calls| <= 2 && r.calls[0] == Ask(w, h, AbbrevHead)
    ensures var reply := w(h, AbbrevHead);
      !reply.Done? ==> |r.calls| == 1 && r.value.Some?
    ensures var reply := w(h, AbbrevHead);
      reply.Done? ==>
        var up := Ask(w, h + [r.calls[0]], UpstreamOf(TrimSpace(reply.out)));
        r.calls == [r.calls[0], up] &&
        (r.value.None? <==> up.reply.Done? && !AllSpace(up.reply.out))
  {
    var c1 := Ask(w, h, AbbrevHead);
    if !c1.reply.Done? then Out(Some("unable to determine current branch: " + ErrorText(c1.reply)), [c1])
    else
      var branch := TrimSpace(c1.reply.out);
      var c2 := Ask(w, h + [c1], UpstreamOf(branch));
      TrimSpaceShape(Output(c2.reply));
      var res :=
        if !c2.reply.Done? then Some("unable to determine upstream branch: " + ErrorText(c2.reply))
        else if TrimSpace(c2.reply.out) == "" then Some("branch '" + branch + "' has no upstream configured")
        else None;
      Out(res, [c1, c2])
  }

  method HasUpstream(sh: Shell) returns (err: Failure)
    modifies sh`trace
    ensures Performs(old(sh.trace), sh.trace, err, HasUpstreamSpec(sh.world, old(sh.trace)))
  {
    ghost var h := sh.trace;
    var reply := sh.Do(AbbrevHead);
    if !reply.Done? {
      return Some("unable to determine current branch: " + ErrorText(reply));
    }
    var branch := TrimSpace(reply.out);
    var up := sh.Do(UpstreamOf(branch));
    assert sh.trace == h + HasUpstreamSpec(sh.world, h).calls;
    if !up.Done? {
      return Some("unable to determine upstream branch: " + ErrorText(up));
    }
    if TrimSpace(up.out) == "" {
      return Some("branch '" + branch + "' has no upstream configured");
    }
    return None;
  }

  /** `IsUpToDate`: fails exactly when the command fails or the status mentions "behind". */
  function IsUpToDateSpec(w: World, h: seq<Call>): (r: Out<Failure>)
    ensures r.calls == [Ask(w, h, StatusShort)]
    ensures var reply := w(h, StatusShort);
      (r.value.None? <==> reply.Done? && !Contains(reply.out, "behind")) &&
      (reply.Done? && Contains(reply.out, "behind") ==> r.value == Some(BehindMessage))
  {
    var c := Ask(w, h, StatusShort);
    var res :=
      if !c.reply.Done? then Some("unable to check branch status: " + ErrorText(c.reply))
      else if Contains(c.reply.out, "behind") then Some(BehindMessage)
      else None;
    Out(res, [c])
  }

  method IsUpToDate(sh: Shell) returns (err: Failure)
    modifies sh`trace
    ensures Performs(old(sh.trace), sh.trace, err, IsUpToDateSpec(sh.world, old(sh.trace)))
  {
    var reply := sh.Do(StatusShort);
    if !reply.Done? {
      return Some("unable to check branch status: " + ErrorText(reply));
    }
    if Contains(reply.out, "behind") {
      return Some(BehindMessage);
    }
    return None;
  }

  // ---- Contributors ------------------------------------------------------------

  /** One `git shortlog -sne` line: the count, then the author words joined by single
      spaces; a line with fewer than two fields gives nothing. */
  function ContributorOf(line: string): Option<Contributor> {
    var parts := Fields(line);
    if |parts| < 2 then None else Some(Contributor(parts[0], Join(parts[1..], " ")))
  }

  /** The contributors of the lines, in order. */
  function ContributorsOf(lines: seq<string>): (cs: seq<Contributor>)
    ensures |cs| <= |lines|
  {
    if lines == [] then []
    else
      var rest := ContributorsOf(lines[..|lines| - 1]);
      match ContributorOf(lines[|lines| - 1])
      case None => rest
      case Some(c) => rest + [c]
  }

  /** A line of count and author words gives exactly that contributor. */
  lemma ContributorLine(commits: string, author: seq<string>)
    requires commits != [] && NoSpace(commits)
    requires author != [] && forall i :: 0 <= i < |author| ==> author[i] != [] && NoSpace(author[i])
    ensures ContributorOf(Join([commits] + author, " ")) == Some(Contributor(commits, Join(author, " ")))
  {
    var words := [commits] + author;
    forall i | 0 <= i < |words|
      ensures words[i] != [] && NoSpace(words[i])
    {
      if i > 0 {
        assert words[i] == author[i - 1];
      }
    }
    FieldsJoin(words);
    var parts := Fields(Join(words, " "));
    assert parts[0] == commits && parts[1..] == author;
  }

  /** Fields are split at any run of Unicode spaces (a tab, an ideographic space
      U+3000, ...): a count and two author words separated by such runs give the words
      joined by one space. */
  lemma ContributorSpaced(commits: string, sep: string, first: string, gap: string, last: string)
    requires commits != [] && NoSpace(commits) && first != [] && NoSpace(first) && last != [] && NoSpace(last)
    requires sep != [] && AllSpace(sep) && gap != [] && AllSpace(gap)
    ensures ContributorOf(commits + sep + first + gap + last) == Some(Contributor(commits, first + " " + last))
  {
    assert commits + sep + first + gap + last == commits + (sep + (first + (gap + last)));
    FieldsWord(last, []);
    assert last + [] == last;
    SpacesDropped(gap, last);
    FieldsWord(first, gap + last);
    SpacesDropped(sep, first + (gap + last));
    FieldsWord(commits, sep + (first + (gap + last)));
    assert Fields(commits + sep + first + gap + last) == [commits, first, last];
    assert Join([first, last], " ") == first + " " + last;
  }

  /** Every contributor has a non-empty count and author. */
  lemma {:induction false} ContributorsNonEmpty(lines: seq<string>)
    ensures forall c :: c in ContributorsOf(lines) ==> c.commits != [] && c.author != []
  {
    if lines != [] {
      ContributorsNonEmpty(lines[..|lines| - 1]);
      var parts := Fields(lines[|lines| - 1]);
      if |parts| >= 2 {
        assert parts[1..][0] == parts[1];
        assert Join(parts[1..], " ") != [] by {
          JoinStartsWith(parts[1..], " ");
        }
      }
    }
  }

  lemma JoinStartsWith(parts: seq<string>, sep: string)
    requires parts != []
    ensures HasPrefix(Join(parts, sep), parts[0])
  {
  }

  /** `Contributors`: `git shortlog -sne HEAD` and one contributor per usable line. */
  function ContributorsSpec(w: World, h: seq<Call>): (r: Out<Result<seq<Contributor>>>)
    ensures r.calls == [Ask(w, h, GitCmd(["shortlog", "-sne", "HEAD"]))]
    ensures var reply := w(h, GitCmd(["shortlog", "-sne", "HEAD"]));
      r.value == if reply.Done? then Ok(ContributorsOf(Split(TrimSpace(reply.out), '\n')))
                 else Err("failed to fetch contributors: " + ErrorText(reply))
  {
    var c := Ask(w, h, GitCmd(["shortlog", "-sne", "HEAD"]));
    var res :=
      if c.reply.Done? then Ok(ContributorsOf(Split(TrimSpace(c.reply.out), '\n')))
      else Err("failed to fetch contributors: " + ErrorText(c.reply));
    Out(res, [c])
  }

  /** The loop over the shortlog lines. */
  method CollectContributors(lines: seq<string>) returns (contributors: seq<Contributor>)
    ensures contributors == ContributorsOf(lines)
  {
    contributors := [];
    var i := 0;
    while i < |lines|
      invariant 0 <= i <= |lines|
      invariant contributors == ContributorsOf(lines[..i])
    {
      assert lines[..i + 1][..i] == lines[..i];
      assert ContributorsOf(lines[..i + 1]) ==
        match ContributorOf(lines[i]) case None => ContributorsOf(lines[..i]) case Some(c) => ContributorsOf(lines[..i]) + [c];
      var parts := Fields(lines[i]);
      if |parts| >= 2 {
        contributors := contributors + [Contributor(parts[0], Join(parts[1..], " "))];
      }
      i := i + 1;
    }
    assert lines[..|lines|] == lines;
  }

  method Contributors(sh: Shell) returns (r: Result<seq<Contributor>>)
    modifies sh`trace
    ensures Performs(old(sh.trace), sh.trace, r, ContributorsSpec(sh.world, old(sh.trace)))
  {
    ghost var h := sh.trace;
    var reply := sh.Do(GitCmd(["shortlog", "-sne", "HEAD"]));
    assert sh.trace == h + ContributorsSpec(sh.world, h).calls;
    if !reply.Done? {
      return Err("failed to fetch contributors: " + ErrorText(reply));
    }
    var lines := Split(TrimSpace(reply.out), '\n');
    var contributors := CollectContributors(lines);
    return Ok(contributors);
  }

  // ---- GitHub release deletion ------------------------------------------------------

  function ReleaseByTagUrl(info: RepoInfo, tag: string): string {
    "https://api.github.com/repos/" + info.owner + "/" + info.repo + "/releases/tags/" + tag
  }

  function ReleaseByIdUrl(info: RepoInfo, id: int): string {
    "https://api.github.com/repos/" + info.owner + "/" + info.repo + "/releases/" + IntText(id)
  }

  predicate IsStatus(r: Reply, code: int) {
    r.HttpStatus? && r.code == code
  }

  /** The calls the deletion of a GitHub release makes: reading the remote and the
      two requests. */
  predicate GitHubCall(e: Effect) {
    e == GitCmd(["remote", "-v"]) || e.HttpGet? || e.HttpDelete?
  }

  /** The DELETE request for a release id; only 204 No Content is success. */
  function DeleteByIdSpec(w: World, h: seq<Call>, info: RepoInfo, tag: string, id: int, token: string): (r: Out<Failure>)
    ensures r.calls == [Ask(w, h, HttpDelete(ReleaseByIdUrl(info, id), token))]
    ensures r.value.None? <==> IsStatus(r.calls[0].reply, 204)
  {
    var del := Ask(w, h, HttpDelete(ReleaseByIdUrl(info, id), token));
    var res :=
      match del.reply
      case HttpStatus(code, body) =>
        if code != 204 then
          Some("github: failed deleting release for tag " + tag + ": status=" + IntText(code) + " body=" + body)
        else None
      case _ => Some(ErrorText(del.reply));
    Out(res, [del])
  }

  /** The release id in a 200 reply, when the payload decodes to a non-zero id. */
  function ReleaseId(lib: Library, reply: Reply): Option<int> {
    if IsStatus(reply, 200) && lib.decodeReleaseId(reply.body).Ok? && lib.decodeReleaseId(reply.body).value != 0
    then Some(lib.decodeReleaseId(reply.body).value) else None
  }

  /** Looking the release up by tag and deleting it by id. A 404 on the lookup means
      there is nothing to delete, which is success; the DELETE is sent only for a
      non-zero id read from a 200 reply. */
  function DeleteByTagSpec(w: World, lib: Library, h: seq<Call>, info: RepoInfo, tag: string, token: string): (r: Out<Failure>)
    ensures 1 <= |r.calls| <= 2 && r.calls[0] == Ask(w, h, HttpGet(ReleaseByTagUrl(info, tag), token))
    ensures |r.calls| == 2 <==> ReleaseId(lib, r.calls[0].reply).Some?
    ensures |r.calls| == 2 ==>
      r.calls[1] == Ask(w, h + [r.calls[0]], HttpDelete(ReleaseByIdUrl(info, ReleaseId(lib, r.calls[0].reply).value), token))
    ensures r.value.None? <==>
      IsStatus(r.calls[0].reply, 404) || (|r.calls| == 2 && IsStatus(r.calls[1].reply, 204))
  {
    var get := Ask(w, h, HttpGet(ReleaseByTagUrl(info, tag), token));
    match get.reply
    case HttpStatus(code, body) =>
      if code == 404 then Out(None, [get])
      else if code != 200 then
        Out(Some("github: failed fetching release by tag " + tag + ": status=" + IntText(code) + " body=" + body), [get])
      else
        (match lib.decodeReleaseId(body)
         case Err(e) => Out(Some(e), [get])
         case Ok(id) =>
           if id == 0 then Out(Some("github: release id missing for tag " + tag), [get])
           else
             var del := DeleteByIdSpec(w, h + [get], info, tag, id, token);
             Out(del.value, [get] + del.calls))
    case _ => Out(Some(ErrorText(get.reply)), [get])
  }

  /** `DeleteGithubRelease`: nothing to do for an empty tag; an empty token is an
      error before any call; then the repository of `origin` and the lookup and
      deletion of the release. */
  function DeleteGithubReleaseSpec(w: World, lib: Library, h: seq<Call>, tag: string, token: string): (r: Out<Failure>)
    ensures tag == "" ==> r == Out(None, [])
    ensures tag != "" && token == "" ==> r == Out(Some("github token is empty"), [])
    ensures tag != "" && token != "" ==>
      var cur := CurrentSpec(w, h);
      (cur.value.Err? ==> r == Out(Some(cur.value.error), cur.calls)) &&
      (cur.value.Ok? ==> r == Out(DeleteByTagSpec(w, lib, h + cur.calls, cur.value.value, tag, token).value,
                                  cur.calls + DeleteByTagSpec(w, lib, h + cur.calls, cur.value.value, tag, token).calls))
  {
    if tag == "" then Out(None, [])
    else if token == "" then Out(Some("github token is empty"), [])
    else
      var cur := CurrentSpec(w, h);
      if cur.value.Err? then Out(Some(cur.value.error), cur.calls)
      else
        var rest := DeleteByTagSpec(w, lib, h + cur.calls, cur.value.value, tag, token);
        Out(rest.value, cur.calls + rest.calls)
  }

  /** Deleting a GitHub release reads the remote and sends HTTP requests, nothing else. */
  lemma DeleteGithubReleaseCalls(w: World, lib: Library, h: seq<Call>, tag: string, token: string)
    ensures forall c :: c in DeleteGithubReleaseSpec(w, lib, h, tag, token).calls ==> GitHubCall(c.effect)
  {
    if tag != "" && token != "" && CurrentSpec(w, h).value.Ok? {
      var cur := CurrentSpec(w, h);
      var rest := DeleteByTagSpec(w, lib, h + cur.calls, cur.value.value, tag, token);
      DeleteByTagCalls(w, lib, h + cur.calls, cur.value.value, tag, token);
      assert forall c :: c in cur.calls + rest.calls ==> c in cur.calls || c in rest.calls;
    }
  }

  lemma DeleteByTagCalls(w: World, lib: Library, h: seq<Call>, info: RepoInfo, tag: string, token: string)
    ensures forall c :: c in DeleteByTagSpec(w, lib, h, info, tag, token).calls ==> c.effect.HttpGet? || c.effect.HttpDelete?
  {
    var r := DeleteByTagSpec(w, lib, h, info, tag, token);
    if |r.calls| == 1 {
      assert r.calls == [r.calls[0]];
    } else {
      assert r.calls == [r.calls[0], r.calls[1]];
    }
  }

  /** Deleting succeeds exactly when the release is not found, or when a DELETE was
      sent and answered 204; no DELETE is sent unless the lookup gave an id. */
  lemma DeleteGithubReleaseOutcome(w: World, lib: Library, h: seq<Call>, tag: string, token: string)
    requires tag != "" && token != ""
    ensures var r := DeleteGithubReleaseSpec(w, lib, h, tag, token);
      var cur := CurrentSpec(w, h);
      cur.value.Ok? ==>
        var get := r.calls[1];
        get.effect == HttpGet(ReleaseByTagUrl(cur.value.value, tag), token) &&
        (r.value.None? <==> IsStatus(get.reply, 404) || (|r.calls| == 3 && IsStatus(r.calls[2].reply, 204))) &&
        (|r.calls| == 3 <==> ReleaseId(lib, get.reply).Some?)
  {
  }

  method DeleteById(sh: Shell, info: RepoInfo, tag: string, id: int, token: string) returns (err: Failure)
    modifies sh`trace
    ensures Performs(old(sh.trace), sh.trace, err, DeleteByIdSpec(sh.world, old(sh.trace), info, tag, id, token))
  {
    var del := sh.Do(HttpDelete(ReleaseByIdUrl(info, id), token));
    if !del.HttpStatus? {
      return Some(ErrorText(del));
    }
    if del.code != 204 {
      return Some("github: failed deleting release for tag " + tag + ": status=" + IntText(del.code) + " body=" + del.body);
    }
    return None;
  }

  method DeleteByTag(sh: Shell, info: RepoInfo, tag: string, token: string) returns (err: Failure)
    modifies sh`trace
    ensures Performs(old(sh.trace), sh.trace, err, DeleteByTagSpec(sh.world, sh.lib, old(sh.trace), info, tag, token))
  {
    var get := sh.Do(HttpGet(ReleaseByTagUrl(info, tag), token));
    if !get.HttpStatus? {
      return Some(ErrorText(get));
    }
    if get.code == 404 {
      return None;
    }
    if get.code != 200 {
      return Some("github: failed fetching release by tag " + tag + ": status=" + IntText(get.code) + " body=" + get.body);
    }
    var id := sh.lib.decodeReleaseId(get.body);
    if id.Err? {
      return Some(id.error);
    }
    if id.value == 0 {
      return Some("github: release id missing for tag " + tag);
    }
    err := DeleteById(sh, info, tag, id.value, token);
  }

  method DeleteGithubRelease(sh: Shell, tag: string, token: string) returns (err: Failure)
    modifies sh`trace
    ensures Performs(old(sh.trace), sh.trace, err, DeleteGithubReleaseSpec(sh.world, sh.lib, old(sh.trace), tag, token))
  {
    if tag == "" {
      return None;
    }
    if token == "" {
      return Some("github token is empty");
    }
    ghost var h := sh.trace;
    var cur := Current(sh);
    if cur.Err? {
      return Some(cur.error);
    }
    err := DeleteByTag(sh, cur.value, tag, token);

  }

  // ---- Single git commands -------------------------------------------------------

  /** A git command whose failure is reported as `<what> failed: <trimmed output>`. */
  function GitStepSpec(w: World, h: seq<Call>, args: seq<string>, what: string): (r: Out<Failure>)
    ensures r.calls == [Ask(w, h, GitCmd(args))]
    ensures r.value.None? <==> w(h, GitCmd(args)).Done?
  {
    var c := Ask(w, h, GitCmd(args));
    Out(if c.reply.Done? then None else Some(what + " failed: " + TrimSpace(Output(c.reply))), [c])
  }

  method GitStep(sh: Shell, args: seq<string>, what: string) returns (err: Failure)
    modifies sh`trace
    ensures Performs(old(sh.trace), sh.trace, err, GitStepSpec(sh.world, old(sh.trace), args, what))
  {
    var reply := sh.Do(GitCmd(args));
    err := if reply.Done? then None else Some(what + " failed: " + TrimSpace(Output(reply)));
  }

  function CleanUntrackedArgs(): seq<string> { ["clean", "-fd"] }
  function DeleteLocalTagArgs(tag: string): seq<string> { ["tag", "-d", tag] }
  function DeleteRemoteTagArgs(tag: string): seq<string> { ["push", "origin", "--delete", tag] }
  function RevertCommitArgs(hash: string): seq<string> { ["revert", "--no-edit", hash] }
  function CreateCommitArgs(message: string): seq<string> { ["commit", "--allow-empty", "-m", message] }
  function HardResetArgs(hash: string): seq<string> { ["reset", "--hard", hash] }

  /** `CleanUntracked`: `git clean -fd`. */
  function CleanUntrackedSpec(w: World, h: seq<Call>): Out<Failure> {
    GitStepSpec(w, h, CleanUntrackedArgs(), "git clean -fd")
  }

  /** `DeleteLocalTag`: `git tag -d <tag>`. */
  function DeleteLocalTagSpec(w: World, h: seq<Call>, tag: string): Out<Failure> {
    GitStepSpec(w, h, DeleteLocalTagArgs(tag), "git tag -d " + tag)
  }

  /** `DeleteRemoteTag`: `git push origin --delete <tag>`. */
  function DeleteRemoteTagSpec(w: World, h: seq<Call>, tag: string): Out<Failure> {
    GitStepSpec(w, h, DeleteRemoteTagArgs(tag), "git push origin --delete " + tag)
  }

  /** `RevertCommit`: `git revert --no-edit <hash>`. */
  function RevertCommitSpec(w: World, h: seq<Call>, hash: string): Out<Failure> {
    GitStepSpec(w, h, RevertCommitArgs(hash), "git revert " + hash)
  }

  /** `CreateCommit`: `git commit --allow-empty -m <message>`. */
  function CreateCommitSpec(w: World, h: seq<Call>, message: string): Out<Failure> {
    GitStepSpec(w, h, CreateCommitArgs(message), "git commit -m '" + message + "'")
  }

  /** `HardResetTo`: `git reset --hard <hash>`. */
  function HardResetToSpec(w: World, h: seq<Call>, hash: string): Out<Failure> {
    GitStepSpec(w, h, HardResetArgs(hash), "git reset --hard " + hash)
  }

  /** `Head`: the trimmed short hash of HEAD. */
  function HeadSpec(w: World, h: seq<Call>): (r: Out<Result<string>>)
    ensures r.calls == [Ask(w, h, GitCmd(["rev-parse", "--short", "HEAD"]))]
    ensures var reply := w(h, GitCmd(["rev-parse", "--short", "HEAD"]));
      r.value.Ok? <==> reply.Done?
    ensures r.value.Ok? ==> r.value.value == TrimSpace(r.calls[0].reply.out)
  {
    var c := Ask(w, h, GitCmd(["rev-parse", "--short", "HEAD"]));
    var res :=
      if c.reply.Done? then Ok(TrimSpace(c.reply.out))
      else Err("git rev-parse HEAD failed: " + TrimSpace(Output(c.reply)));
    Out(res, [c])
  }

  method Head(sh: Shell) returns (r: Result<string>)
    modifies sh`trace
    ensures Performs(old(sh.trace), sh.trace, r, HeadSpec(sh.world, old(sh.trace)))
  {
    var reply := sh.Do(GitCmd(["rev-parse", "--short", "HEAD"]));
    r := if reply.Done? then Ok(TrimSpace(reply.out)) else Err("git rev-parse HEAD failed: " + TrimSpace(Output(reply)));
  }
}
