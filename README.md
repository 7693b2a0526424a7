# neko-cli release plugin — a Dafny model

neko-cli is a command-line tool that drives releases through plugins. The gateway finds
a plugin's executable, sends it a JSON request on stdin and reads back a JSON response
on stdout plus log lines on stderr, then renders the response in the terminal. The
`release` plugin answers `patch`, `minor` and `major` (cut a release), `init`,
`validate`, `history` and `contributors`.

This project models, in Dafny:

- the release saga: the pre-flight git checks, the version guard, the choice of the
  next version, the release through one of three release systems (GoReleaser,
  JReleaser, release-it), the rollback of whatever a failed release had already done,
  and the update of the version in the configuration;
- the rollback coordinator `RevertGitRelease`, which turns a record of completed
  release steps into an ordered list of compensating git and GitHub actions;
- the release systems as classes whose `Release` records a `State` after each
  external step that succeeds, their `RevertRelease` projections and their `Init`;
- the name-to-release-system registry;
- the plugin's entry point (request decoding and command routing) and its handlers
  for release, init, validate, history and contributors, with their error codes;
- the configuration file checks, the version grammar, Semantic Versioning 2.0.0
  precedence (section 11) and the three increments (sections 6 to 8);
- the git helpers: GitHub remote parsing, tags, commit counts, contributors and the
  pre-flight predicates;
- the gateway side: running a plugin, parsing its stderr into log entries, listing
  installed plugins, and the terminal renderer's list, table and key-value layouts;
- the `neko plugin` commands: the installed list, available plugin names, install
  status, the asset a platform downloads, unpacking an archive, and uninstalling;
- the error and warning printers and the plugin's log line format.

Everything outside the program is one `World`: a function from the calls made so far
and a new `Effect` (a git command, a file read, a stat, an HTTP request, a write to
stdout, a process exit) to its `Reply`. A `Shell` object performs effects and keeps
their trace. Each imperative operation is a method whose postcondition says that it
appended exactly the calls of a pure specification function and returned that
function's value (`Effects.Performs`). The properties the program promises are then
lemmas about those specification functions. Foreign libraries that are not part of
this model are parameters, bundled in `Effects.Library`: the Masterminds semver
parser, JSON and YAML decoding, `filepath.Clean` and the terminal colouring. Calls to
the clock are effects (`CurrentYear`) or parameters (`now`).

Behaviour the source has and the model keeps as written:

- a failed pre-flight check writes an error response and exits the process, so `Run`
  never sees it;
- with no tags, the version guard compares against 0.1.0 rather than skipping the
  comparison;
- the guard's warning response is built and thrown away;
- `HandleRelease` runs the guard twice, once through `GetNewVersion` and once in `Run`;
- the init handler reports the configuration file as `..release.neko.json`;
- JReleaser's dry run passes `full-release --dry-run` to the binary as one argument;
- the configuration's version pattern accepts a numeric pre-release identifier with a
  leading zero, such as `1.0.0-01`, which section 9 of Semantic Versioning 2.0.0 forbids.

The declaration of the plugin's own configuration type is not part of this model. Its
record, `Effects.ReleaseConfig`, has the five fields the plugin's handlers read and
write: owner, name, project type, release system and version (the init handler sets
the owner and name at plugin/release/pkg/init/handler.go:78-79). The older
declaration in internal/config/nekoConfig.go has only the last three, and its
enumerations are modelled by `NekoConfig`.

## Model

| member | source | states |
|---|---|---|
| PluginMain.RouteOf | plugin/release/main.go:36-55 | "patch", "minor" and "major" (exactly, case-sensitive) route to a release of that type; any command outside the eight known ones is unknown |
| PluginMain.ErrorResponse | plugin/release/main.go:68-82 | the error response has status "error", plugin "release" version "1.0.0", and carries the code and message with no details |
| PluginMain.FailCalls | plugin/release/main.go:57-60 | a failure writes exactly one error response to stdout and then exits with status 1 |
| PluginMain.RouteSpec | plugin/release/main.go:53-55 | an unknown command makes no calls and yields the error "unknown command: <command>" |
| PluginMain.FinishSpec | plugin/release/main.go:57-65 | a handler error ends the process with EXECUTION_ERROR and exit 1; a handler that already ended the process is passed through |
| PluginMain.Fail | plugin/release/main.go:68-82 | writing the error response then exiting appends exactly the two failure calls and yields exit status 1 |
| PluginMain.RunInit | plugin/release/main.go:37-38 | the init branch makes exactly the calls of the init handler's specification and leaves the tool registry unchanged |
| PluginMain.RunRelease | plugin/release/main.go:41-46 | a release command makes exactly the calls of the release handler for the configured system and answers with its response |
| PluginMain.RouteRequest | plugin/release/main.go:36-55 | the command switch makes exactly the calls of the selected handler and returns its answer |
| PluginMain.Finish | plugin/release/main.go:57-65 | after the handler, the calls and final flow are those of the finishing specification: error response and exit 1 on error, encoded response otherwise |
| PluginMain.Respond | plugin/release/main.go:31-65 | routing a decoded request and writing the answer performs exactly the specified calls |
| PluginMain.Serve | plugin/release/main.go:22-66 | `main` on its stdin: verbose mode is the request's, and the calls and exit are those of the whole-program specification |
| PluginMain.UndecodableRequest | plugin/release/main.go:24-28 | an undecodable request yields PARSE_ERROR "failed to parse request: ..." then exit 1, and no handler runs |
| PluginMain.UnknownCommandFails | plugin/release/main.go:53-60 | an unknown command runs no handler: EXECUTION_ERROR "unknown command: <c>" then exit 1 |
| PluginMain.ReleaseCommands | plugin/release/main.go:41-46 | "patch", "minor" and "major" are the three release types, and "Patch" is unknown |
| PluginMain.HaltsOnlyOnFailure | plugin/release/main.go:57-65 | the process ends with a non-zero status only through an earlier halt or an error response followed by exit 1 |
| CliErrors.Prefix | pkg/errors/errors.go:37-48 | warning, error and fatal levels get "⚠ WARNING", "✗ ERROR" and "✗ FATAL"; any other level gets no heading |
| CliErrors.Lines | pkg/errors/errors.go:50-62 | the printed lines are the heading, the message, the error code line only when there is a code, and a final blank line |
| CliErrors.PrintErrorSpec | pkg/errors/errors.go:32-67 | an empty message prints nothing and returns; otherwise the lines go to stderr first, and the process exits with status 1 exactly for the error and fatal levels |
| CliErrors.PrintError | pkg/errors/errors.go:32-67 | performs exactly the calls of `PrintErrorSpec` and reports whether it exited |
| CliErrors.Warning | pkg/errors/errors.go:69-75 | a warning prints the warning lines (nothing for an empty message) and never exits |
| CliErrors.Error | pkg/errors/errors.go:77-84 | an error exits exactly when its message is non-empty, after printing its lines |
| CliErrors.WarningCalls | pkg/errors/errors.go:69-75 | the calls of a warning: none for an empty message, otherwise one stderr write of its lines |
| CliErrors.WarningNeverExits | pkg/errors/errors.go:64-66 | whatever its contents, a warning never makes an exit call |
| PluginErrors.NewErrorResponse | pkg/errors/plugin_errors.go:78-91 | status "error" with exactly the given code and message, no details, no data and no logs |
| PluginErrors.NewErrorResponseWithDetails | pkg/errors/plugin_errors.go:94-108 | the same response as `NewErrorResponse` except that the error carries the details unchanged |
| PluginErrors.WriteWarning | pkg/errors/plugin_errors.go:62-75 | the same response as `NewErrorResponse` with status "warning"; it writes nothing and does not exit |
| PluginErrors.NoDetailsAgree | pkg/errors/plugin_errors.go:78-108 | with empty details the two error constructors give the same response |
| PluginErrors.WriteErrorCalls | pkg/errors/plugin_errors.go:38-39 | writing an error is one response on stdout followed by exit 1 |
| PluginErrors.WriteError | pkg/errors/plugin_errors.go:25-40 | encodes `NewErrorResponse(code, message)` on stdout, exits 1, and makes no other call |
| PluginErrors.WriteErrorWithDetails | pkg/errors/plugin_errors.go:43-59 | encodes the detailed error response on stdout, exits 1, and makes no other call |
| PluginLog.CategoryColor | pkg/log/PluginLog.go:20-23 | a known category gets its colour and an unknown one gets `ColorReset` |
| PluginLog.PrintLineShape | pkg/log/PluginLog.go:25-31 | the line starts with the time and a space and ends with a space and the message; it is one line when no part holds a newline |
| PluginLog.PluginPrint | pkg/log/PluginLog.go:19-32 | exactly one line written to stderr: time, coloured "[category]", message |
| PluginLog.PluginV | pkg/log/PluginLog.go:35-44 | nothing happens unless verbose; otherwise one `PluginPrint` line whose message is the purple "V$" marker, a space, and the message |
| Config.Validate | plugin/release/pkg/config/config.go:61-91 | an invalid project type is reported first, then an invalid release system, then a missing version, each with its own message |
| Config.ValidateIff | plugin/release/pkg/config/config.go:57-91 | a configuration passes exactly when its project type and release system are valid and its version is the text of a well-formed semantic version (the SemVer pattern) |
| Config.FormatNonEmpty | plugin/release/pkg/config/config.go:76-86 | no semantic version has empty text, so a missing version never matches the pattern |
| Config.ExistsSpec | plugin/release/pkg/config/config.go:22-25 | one stat of ".release.neko.json"; the file exists exactly when the stat succeeds |
| Config.Exists | plugin/release/pkg/config/config.go:22-25 | performs exactly the calls of `ExistsSpec` and returns its answer |
| Config.LoadConfigSpec | plugin/release/pkg/config/config.go:27-55 | one read of the file; a missing file gives the "configuration not found" message; a read file loads exactly when it decodes and validates; a loaded configuration always validates |
| Config.LoadConfig | plugin/release/pkg/config/config.go:27-55 | performs exactly the calls of `LoadConfigSpec` and returns its result |
| Config.LoadConfigValid | plugin/release/pkg/config/config.go:30-54 | every configuration returned passes `Validate`, and the not-found message is returned exactly when the file does not exist |
| Config.SaveConfigSpec | plugin/release/pkg/config/config.go:93-102 | one save of the configuration; saving succeeds exactly when the write succeeds |
| Config.SaveConfig | plugin/release/pkg/config/config.go:93-102 | performs exactly the calls of `SaveConfigSpec` and returns its error |
| NekoConfig.ProjectTypeValidIff | internal/config/nekoConfig.go:30-37 | a project type is valid exactly when it is "frontend", "backend" or "other" |
| NekoConfig.ReleaseTypeValidIff | internal/config/nekoConfig.go:39-46 | a release system is valid exactly when it is "release-it", "jreleaser" or "goreleaser" |
| NekoConfig.EnumsDisjoint | internal/config/nekoConfig.go:12-46 | the empty text is neither a valid project type nor a valid release system, and no text is both |
| Resolver.NextVersion | plugin/release/pkg/release/resolver.go:40-51 | major, minor and patch apply the matching increment; any other type leaves the version unchanged |
| Resolver.NextVersionOfRelease | plugin/release/pkg/release/resolver.go:40-51 | on a version without prerelease, each increment bumps its own field, zeroes the lower ones, drops prerelease and build, and gives a strictly greater version |
| Resolver.NextVersionMonotone | plugin/release/pkg/release/resolver.go:40-51 | every release type gives a strictly greater version; any other type gives the same version |
| Resolver.ParseReleaseType | plugin/release/pkg/release/resolver.go:53-65 | succeeds exactly when the lower-cased input is major, minor or patch, returning it; otherwise returns patch with the "valid options" error |
| Resolver.ToLowerIdempotent | plugin/release/pkg/release/resolver.go:54 | lower-casing twice is lower-casing once |
| Resolver.ParseReleaseTypeIgnoresCase | plugin/release/pkg/release/resolver.go:53-65 | parsing ignores case: "MAJOR" is major and "Minor" is minor |
| Resolver.ResolveReleaseType | plugin/release/pkg/release/resolver.go:27-38 | the requested type is returned unchanged and no error is ever returned |
| VersionGuard.EnsureVersionIsValid | plugin/release/pkg/release/version_guard.go:29-70 | an unparsable local version is an error; an unparsable tag skips the comparison; otherwise the result is an error exactly when the local version is below the tag, with the violation message |
| VersionGuard.GuardedNotOlder | plugin/release/pkg/release/version_guard.go:53-69 | an accepted version is never older than a parsable latest tag |
| VersionGuard.GuardAcceptsEqual | plugin/release/pkg/release/version_guard.go:53-69 | a local version equal to the latest tag is accepted |
| VersionGuard.NextVersionBeyondTag | plugin/release/pkg/release/version_guard.go:29-70 | after the guard accepts, every release increment of the local version is strictly beyond the latest tag |
| VersionGuard.VersionGuard | plugin/release/pkg/release/version_guard.go:20-27 | performs exactly the calls of the guard specification: fetch, look up the latest tag, compare |
| VersionGuard.GuardFetchesFirst | plugin/release/pkg/release/version_guard.go:22-24 | the guard fetches before it asks git for the latest tag |
| VersionGuard.NoTagComparesDefault | plugin/release/pkg/release/version_guard.go:20-27 | when git describe fails, the local version is compared with the default "0.1.0", so a version below 0.1.0 is refused |
| Tags.LatestTagSpec | plugin/release/pkg/git/tag.go:20-43 | one `git describe --tags --abbrev=0`; when it fails or prints only spaces, a warning follows and the tag is "0.1.0"; otherwise the tag is the trimmed output; the tag is never empty |
| Tags.LatestTag | plugin/release/pkg/git/tag.go:20-43 | performs exactly the calls of `LatestTagSpec` and returns its tag |
| Tags.TagList | plugin/release/pkg/git/tag.go:60-65 | the tags are the lines of the trimmed output: none contains a newline, there are none exactly when the output is blank, and joined with newlines they give back the trimmed output |
| Tags.TagListJoin | plugin/release/pkg/git/tag.go:60-65 | the output `git tag` prints for a list of tags, with blank space around it, parses back to that list |
| Tags.GetTagsSpec | plugin/release/pkg/git/tag.go:46-66 | one `git tag`; on success the list of its lines, on failure an empty list after a warning |
| Tags.GetTags | plugin/release/pkg/git/tag.go:46-66 | performs exactly the calls of `GetTagsSpec` and returns its list |
| Tags.CountCommitsSpec | plugin/release/pkg/git/tag.go:69-102 | one `git rev-list --count` over `to` alone when `from` is empty and over `from..to` otherwise; a failed command, or output that after trimming Unicode space is not a decimal number in the range of Go's `int`, gives 0 after a warning, otherwise the parsed count |
| Tags.CountCommitsBetween | plugin/release/pkg/git/tag.go:69-102 | performs exactly the calls of `CountCommitsSpec` and returns its count |
| Tags.CountCommitsReadsCount | plugin/release/pkg/git/tag.go:82-101 | when git prints the decimal count n (within the range of `int`) and a newline, the result is n with no warning |
| Tags.CountCommitsOutOfRange | plugin/release/pkg/git/tag.go:90-97 | a printed count beyond the range of `int` is refused as `strconv.Atoi` refuses it: 0 after a warning |
| Git.RepoGroup | internal/git/repository.go:68-70 | the repository group of the remote patterns is a non-empty run of characters other than '/' and space, lazily stopped before an optional ".git" |
| Git.MatchAt | internal/git/repository.go:68-70 | a match right after the host prefix gives a non-empty owner without '/' and a non-empty repository group |
| Git.Find | internal/git/repository.go:68-92 | a match anywhere in the output gives a non-empty owner without '/' and a non-empty repository name |
| Git.ParseRemote | internal/git/repository.go:65-97 | the SSH form wins over the HTTPS form; output matching neither gives the invalid-remote error |
| Git.SshRemote | internal/git/repository.go:68-81 | `git@github.com:owner/repo.git` followed by a space or the end parses to that owner and that repository, without ".git" |
| Git.HttpsRemote | internal/git/repository.go:70-92 | `https://github.com/owner/repo.git` followed by a space or the end parses to that owner and repository when no SSH form is present |
| Git.NoAtNoSsh | internal/git/repository.go:68-73 | output without '@' never matches the SSH form |
| Git.NoSlashNoMatch | internal/git/repository.go:68-96 | output without '/' matches neither form, so it is an invalid remote |
| Git.CurrentSpec | internal/git/repository.go:42-62 | one `git remote -v`; a failure gives "not a Git Repository: ..."; blank output gives the no-remote error; anything else is parsed |
| Git.Current | internal/git/repository.go:42-62 | performs exactly the calls of `CurrentSpec` and returns its result |
| Git.Fetch | internal/git/repository.go:33-39 | runs `git fetch` once and ignores its outcome |
| Git.IsCleanSpec | internal/git/repository.go:99-115 | one `git status --porcelain`; clean exactly when it succeeds with blank output; non-blank output gives the dirty-tree message |
| Git.IsClean | internal/git/repository.go:99-115 | performs exactly the calls of `IsCleanSpec` and returns its error |
| Git.EnsureNotDetachedSpec | internal/git/repository.go:117-134 | one `git rev-parse --abbrev-ref HEAD`; passes exactly when it succeeds with a branch other than "HEAD"; "HEAD" gives the detached message |
| Git.EnsureNotDetached | internal/git/repository.go:117-134 | performs exactly the calls of `EnsureNotDetachedSpec` and returns its error |
| Git.OnMainBranchSpec | internal/git/repository.go:136-154 | passes exactly when the current branch is "main" or "master" |
| Git.OnMainBranch | internal/git/repository.go:136-154 | performs exactly the calls of `OnMainBranchSpec` and returns its error |
| Git.HasUpstreamSpec | internal/git/repository.go:156-188 | asks for the branch and, only when that succeeds, for its upstream; passes exactly when the upstream is non-blank |
| Git.HasUpstream | internal/git/repository.go:156-188 | performs exactly the calls of `HasUpstreamSpec` and returns its error |
| Git.IsUpToDateSpec | internal/git/repository.go:190-209 | one `git status -sb`; passes exactly when it succeeds without "behind" in its output |
| Git.IsUpToDate | internal/git/repository.go:190-209 | performs exactly the calls of `IsUpToDateSpec` and returns its error |
| Git.ContributorsOf | internal/git/repository.go:313-325 | at most one contributor per line |
| Git.ContributorLine | internal/git/repository.go:315-324 | a line of a count and an author's words gives commits = the count and author = the words joined by single spaces |
| Git.ContributorSpaced | internal/git/repository.go:315-324 | fields split at any run of Unicode spaces (tab, U+3000, ...): a count and two author words so separated give the words joined by one space |
| Git.ContributorsNonEmpty | internal/git/repository.go:316-319 | lines with fewer than two fields are skipped, so every contributor has a non-empty count and author |
| Git.ContributorsSpec | internal/git/repository.go:298-328 | one `git shortlog -sne HEAD`; a failure gives "failed to fetch contributors: ...", otherwise the contributors of its trimmed lines |
| Git.CollectContributors | internal/git/repository.go:313-325 | the loop returns exactly the contributors of the lines |
| Git.Contributors | internal/git/repository.go:298-328 | performs exactly the calls of `ContributorsSpec` and returns its result |
| Git.DeleteByIdSpec | internal/git/repository.go:384-407 | one DELETE of the release by id; success exactly when GitHub answers 204 |
| Git.DeleteByTagSpec | internal/git/repository.go:346-407 | one GET of the release by tag, then a DELETE only when a release id was read from a 200 answer; success exactly when the GET answers 404 or the DELETE answers 204 |
| Git.DeleteGithubReleaseSpec | internal/git/repository.go:330-408 | an empty tag does nothing and succeeds; an empty token fails with "github token is empty" and no call; otherwise the remote is looked up and its error returned, or the release deleted by tag |
| Git.DeleteGithubReleaseCalls | internal/git/repository.go:330-408 | deleting a release only runs `git remote -v` and GitHub requests |
| Git.DeleteByTagCalls | internal/git/repository.go:346-404 | deleting by tag only sends GET and DELETE requests |
| Git.DeleteGithubReleaseOutcome | internal/git/repository.go:338-407 | with a tag and token and a known remote, the second call is the GET by tag; 404 counts as success, so deleting twice is harmless |
| Git.DeleteById | internal/git/repository.go:384-407 | performs exactly the calls of `DeleteByIdSpec` and returns its error |
| Git.DeleteByTag | internal/git/repository.go:346-407 | performs exactly the calls of `DeleteByTagSpec` and returns its error |
| Git.DeleteGithubRelease | internal/git/repository.go:330-408 | performs exactly the calls of `DeleteGithubReleaseSpec` and returns its error |
| Git.GitStepSpec | internal/git/repository.go:421-480 | one git command, which fails exactly when git fails, with "<command> failed: <trimmed output>" |
| Git.GitStep | internal/git/repository.go:421-480 | performs exactly the calls of `GitStepSpec` and returns its error |
| Git.HeadSpec | internal/git/repository.go:411-418 | one `git rev-parse --short HEAD`; succeeds exactly when git does, with the trimmed hash |
| Git.Head | internal/git/repository.go:411-418 | performs exactly the calls of `HeadSpec` and returns its result |
| ReleaseTool.RequireBinarySpec | plugin/release/pkg/release/tool.go:30-53 | one PATH lookup; the binary is available exactly when the lookup succeeds, otherwise the error starts with "required dependency missing: " |
| ReleaseTool.RequireBinary | plugin/release/pkg/release/tool.go:30-53 | performs exactly the calls of `RequireBinarySpec` and returns its error |
| ReleaseTool.GetPATSpec | plugin/release/pkg/release/tool.go:133-136 | one read of GITHUB_TOKEN; the token is found exactly when the variable is set and non-empty, and then it is the variable's value; otherwise the missing-token message |
| ReleaseTool.GetPAT | plugin/release/pkg/release/tool.go:133-136 | performs exactly the calls of `GetPATSpec` and returns its result |
| ReleaseTool.DeleteGitHubReleaseSpec | plugin/release/pkg/release/tool.go:132-139 | the token is read first; without a token nothing else runs and the missing-token message is the error |
| ReleaseTool.DeleteGitHubRelease | plugin/release/pkg/release/tool.go:132-139 | performs exactly the calls of `DeleteGitHubReleaseSpec` and returns its error |
| ReleaseTool.DeleteGitHubReleaseCalls | plugin/release/pkg/release/tool.go:132-139 | deleting a GitHub release only reads the token, asks git for the remote and sends GitHub requests |
| ReleaseTool.ToolStepSpec | plugin/release/pkg/release/tool.go:142-217 | one git command, which fails exactly when git fails, with an error that starts with the step's own context |
| ReleaseTool.ToolStep | plugin/release/pkg/release/tool.go:142-217 | performs exactly the calls of `ToolStepSpec` and returns its error |
| ReleaseTool.CommandSpec | plugin/release/pkg/release/tool.go:148-153 | one external command, which fails exactly when it fails, with an error that starts with the given context |
| ReleaseTool.Command | plugin/release/pkg/release/tool.go:148-153 | performs exactly the calls of `CommandSpec` and returns its error |
| ReleaseTool.TagNamesVersion | plugin/release/pkg/release/tool.go:143-163 | the tag is "v" followed by the version, whose text parses back to the same version; the commit message starts with "chore(neko-release): " |
| ReleaseTool.CreateReleaseCommit | plugin/release/pkg/release/tool.go:142-159 | performs exactly `git commit --allow-empty -a -m "chore(neko-release): <v>"` and fails exactly when it fails |
| ReleaseTool.CreateGitTag | plugin/release/pkg/release/tool.go:162-179 | performs exactly `git tag v<v>` and fails exactly when it fails |
| ReleaseTool.PushCommits | plugin/release/pkg/release/tool.go:182-197 | performs exactly `git push origin HEAD` and fails exactly when it fails |
| ReleaseTool.PushGitTag | plugin/release/pkg/release/tool.go:200-217 | performs exactly `git push origin v<v>` and fails exactly when it fails |
| ReleaseTool.Wrap | plugin/release/pkg/release/tool.go:69-126 | a wrapped error exists exactly when the inner one does, and reads "<context>: <inner>" |
| ReleaseTool.GitHubPhase | plugin/release/pkg/release/tool.go:66-75 | the GitHub release is deleted only when one was created with a tag; a failure is wrapped as "rollback: failed deleting GitHub release <tag>" |
| ReleaseTool.TagPhase | plugin/release/pkg/release/tool.go:77-90 | with a tag, the local tag is deleted first with its error ignored; the remote tag is deleted only when it was pushed, and only that failure counts |
| ReleaseTool.RevertPushedSteps | plugin/release/pkg/release/tool.go:94-105 | the revert runs first; the empty "revert <hash>" commit follows only a failed revert; the push comes last and alone decides the outcome |
| ReleaseTool.CommitPhase | plugin/release/pkg/release/tool.go:92-119 | no release commit: nothing; a pushed one: revert and push; an unpushed one with a pre-release head: only a hard reset to it; otherwise the inconsistent-state error with no call |
| ReleaseTool.CleanPhase | plugin/release/pkg/release/tool.go:121-127 | one `git clean -fd`, whose failure is the rollback's error |
| ReleaseTool.RevertGitRelease | plugin/release/pkg/release/tool.go:65-130 | performs exactly the calls of the four rollback phases in order, stopping at the first that fails with its error |
| ReleaseTool.RevertGitHubRelease | plugin/release/pkg/release/tool.go:66-75 | performs exactly the calls of `GitHubPhase` and returns its error |
| ReleaseTool.RevertTags | plugin/release/pkg/release/tool.go:77-90 | performs exactly the calls of `TagPhase` and returns its error |
| ReleaseTool.RevertCommits | plugin/release/pkg/release/tool.go:92-119 | performs exactly the calls of `CommitPhase` and returns its error |
| ReleaseTool.RevertPushed | plugin/release/pkg/release/tool.go:94-105 | performs exactly the revert, optional empty commit and push of a pushed release commit |
| ReleaseTool.FinalCleanup | plugin/release/pkg/release/tool.go:121-127 | performs exactly the calls of `CleanPhase` and returns its error |
| ReleaseTool.GitHubPhaseCalls | plugin/release/pkg/release/tool.go:66-75 | the GitHub phase makes calls exactly when a release was created with a tag, and all of them belong to it |
| ReleaseTool.TagPhaseCalls | plugin/release/pkg/release/tool.go:77-90 | the tag phase only deletes tags |
| ReleaseTool.CommitPhaseCalls | plugin/release/pkg/release/tool.go:92-119 | the commit phase only reverts, commits, resets or pushes HEAD |
| ReleaseTool.CleanPhaseCalls | plugin/release/pkg/release/tool.go:121-127 | the cleanup phase only cleans untracked files |
| ReleaseTool.RollbackInOrder | plugin/release/pkg/release/tool.go:65-130 | the rollback's calls go GitHub release, tags, release commit, cleanup, never back; a failing phase stops everything after it |
| ReleaseTool.GitHubReleaseFirst | plugin/release/pkg/release/tool.go:66-75 | the GitHub release is deleted before anything else, and a failed deletion ends the rollback with the wrapped error |
| ReleaseTool.TagsReverted | plugin/release/pkg/release/tool.go:78-90 | after the GitHub phase, the local tag deletion is the first tag call; the remote tag is deleted exactly when a tag was pushed |
| ReleaseTool.UnpushedCommitReset | plugin/release/pkg/release/tool.go:106-113 | for an unpushed release commit, the only commit action is the hard reset to the pre-release head, never a revert or push |
| ReleaseTool.InconsistentStateStops | plugin/release/pkg/release/tool.go:114-118 | a release commit without a pre-release head stops before any commit or cleanup call with the inconsistent-state error |
| ReleaseTool.CleanupLast | plugin/release/pkg/release/tool.go:121-129 | when the earlier phases pass, the last call is `git clean -fd` and decides the outcome |
| ReleaseTool.NothingToUndo | plugin/release/pkg/release/tool.go:65-130 | with nothing released, the rollback is only the cleanup |
| Preflight.CheckQueries | plugin/release/pkg/release/preflight.go:17-45 | every pre-flight check only runs git queries |
| Preflight.Fail | plugin/release/pkg/release/preflight.go:18-21 | a failed check writes an error response with that check's code and the check's message, then exits with status 1 |
| Preflight.RunCheck | plugin/release/pkg/release/preflight.go:17-50 | runs the check of the given index, making exactly its calls |
| Preflight.Pass | plugin/release/pkg/release/preflight.go:17-50 | a passing check hands over to the next check, after its own calls |
| Preflight.Stop | plugin/release/pkg/release/preflight.go:17-50 | a failing check writes its error response and exits; nothing after it runs |
| Preflight.Preflight | plugin/release/pkg/release/preflight.go:15-53 | performs exactly the calls of the five checks in order, up to and including the first failure |
| Preflight.FailedShape | plugin/release/pkg/release/preflight.go:17-50 | a stopped run ends with one error response carrying the failing check's own code, then exit 1, after git queries only |
| Preflight.StageOutcome | plugin/release/pkg/release/preflight.go:17-52 | whatever git answers, the remaining checks either pass with git queries only or end in one coded error response and exit 1 |
| Preflight.PreflightOutcome | plugin/release/pkg/release/preflight.go:15-53 | the whole pre-flight run either passes having only queried git or halts with status 1 after one of the five error codes |
| Preflight.Passed | plugin/release/pkg/release/preflight.go:17-52 | when the run goes on past a check, that check passed |
| Preflight.PassedCalls | plugin/release/pkg/release/preflight.go:17-50 | a passing check's calls: the porcelain status for the first, the branch name for the second and third, branch then upstream for the fourth, the short status for the fifth |
| Preflight.AllPassInOrder | plugin/release/pkg/release/preflight.go:15-53 | a run that passes made exactly six git queries, in check order: porcelain status, branch three times, upstream, short status |
| Registry.Name | plugin/release/pkg/release/tool/goreleaser/goreleaser.go:48-50 | each backend's fixed name: "goreleaser", "jreleaser" or "release-it" |
| Registry.InitSpec | plugin/release/pkg/release/tool.go:23 | `Init` changes no release state; only release-it learns its package manager, which is then non-empty |
| Registry.ReleaseSpec | plugin/release/pkg/release/tool.go:24 | `Release` keeps the kind of backend and changes only its own state |
| Registry.Init | plugin/release/pkg/release/tool.go:23 | dispatches `Init` to the backend, with exactly the calls and new state of `InitSpec` |
| Registry.Release | plugin/release/pkg/release/tool.go:24 | dispatches `Release` to the backend, with exactly the calls and new state of `ReleaseSpec` |
| Registry.RevertRelease | plugin/release/pkg/release/tool.go:25 | dispatches `RevertRelease`: the shared git rollback of the backend's record |
| Registry.ShellOutside | internal/release/registry.go:11 | the registry's objects are release systems, never the shell |
| Registry.Find | internal/release/registry.go:18-23 | what the tool filed under the name holds, found exactly when the name is registered, with "unknown release system: <name>" otherwise |
| Registry.Lookup | internal/release/registry.go:18-23 | the tool filed under the name, found exactly when the name is registered, with "unknown release system: <name>" otherwise |
| Registry.Registry.Register | internal/release/registry.go:13-16 | prints "Detected Release Tool: <name>" and files the tool under its name, replacing any earlier one |
| Registry.Registry.Get | internal/release/registry.go:18-23 | answers exactly as `Lookup` on the current map and changes nothing |
| Registry.RegisterAll | plugin/release/pkg/release/tool/goreleaser/goreleaser.go:226-228 | the package initialisers register fresh goreleaser, jreleaser and release-it backends with empty state, keeping other names |
| Registry.GetAfterRegister | internal/release/registry.go:13-21 | after registering a tool, getting its name returns it |
| Registry.LastRegistrationWins | internal/release/registry.go:15 | registering two tools under one name keeps the later one |
| Registry.RegisterKeepsOthers | internal/release/registry.go:15 | registering leaves every other name's entry unchanged |
| Registry.KnownSystems | internal/release/registry.go:18-23 | with the three backends registered, a name is found exactly when it is one of the three release systems |
| Registry.ReleaseKeepsPackageManager | plugin/release/pkg/release/tool/releaseit/release_it.go:100-127 | release-it keeps its known package manager across a release |
| GoReleaser.DryRunMessage | plugin/release/pkg/release/tool/goreleaser/goreleaser.go:194-197 | the dry-run warning always has a message: "This is a warning - proceeding anyway: " and the trimmed output |
| GoReleaser.ConfigInitSpec | plugin/release/pkg/release/tool/goreleaser/goreleaser.go:124-160 | stats ".goreleaser.yaml" first; an existing file skips `goreleaser init` and succeeds with no other call |
| GoReleaser.ConfigInit | plugin/release/pkg/release/tool/goreleaser/goreleaser.go:124-160 | performs exactly the calls of `ConfigInitSpec`: a stat error other than not-found fails with "failed to check goreleaser.yml", a missing file runs `goreleaser init` |
| GoReleaser.InitOrder | plugin/release/pkg/release/tool/goreleaser/goreleaser.go:52-66 | without the binary, `Init` stops after looking for it; with the binary and an existing configuration it runs only `goreleaser check`, whose outcome decides |
| GoReleaser.DryRunWarning | plugin/release/pkg/release/tool/goreleaser/goreleaser.go:194-197 | a failed dry run writes one warning to standard error |
| GoReleaser.DryRunSpec | plugin/release/pkg/release/tool/goreleaser/goreleaser.go:187-205 | the dry run never fails the release; when `goreleaser release --snapshot --clean` fails, exactly one warning follows |
| GoReleaser.DryRun | plugin/release/pkg/release/tool/goreleaser/goreleaser.go:187-205 | performs exactly the calls of `DryRunSpec` and returns no error |
| GoReleaser.Pass | plugin/release/pkg/release/tool/goreleaser/goreleaser.go:68-110 | a successful step hands its new state and calls on to the next step |
| GoReleaser.Stop | plugin/release/pkg/release/tool/goreleaser/goreleaser.go:68-110 | a failing step ends the release with its error and the state of the steps before it |
| GoReleaser.GoReleaser.constructor | plugin/release/pkg/release/tool/goreleaser/goreleaser.go:227 | a new backend holds the empty release state |
| GoReleaser.GoReleaser.Init | plugin/release/pkg/release/tool/goreleaser/goreleaser.go:52-66 | the binary check, the configuration set-up, then `goreleaser check`, stopping at the first failure |
| GoReleaser.GoReleaser.Release | plugin/release/pkg/release/tool/goreleaser/goreleaser.go:68-110 | performs exactly the calls of the eight steps up to the first failure and leaves the state they recorded |
| GoReleaser.GoReleaser.RevertRelease | plugin/release/pkg/release/tool/goreleaser/goreleaser.go:112-122 | the shared rollback of the record: the release hash as release head, the tag as GitHub release tag, and a GitHub release exactly when GoReleaser ran |
| GoReleaser.StepProgress | plugin/release/pkg/release/tool/goreleaser/goreleaser.go:68-107 | a successful step sets exactly its own field: the tag `v<version>` after the tag step, the push flags after the pushes, the GoReleaser flag after the release |
| GoReleaser.StageEnd | plugin/release/pkg/release/tool/goreleaser/goreleaser.go:68-110 | the remaining steps stop at or after the current one and end without error exactly when every step ran |
| GoReleaser.StageProgress | plugin/release/pkg/release/tool/goreleaser/goreleaser.go:68-110 | a release stopped at step k has recorded exactly what the steps before k set |
| GoReleaser.ReleaseProgress | plugin/release/pkg/release/tool/goreleaser/goreleaser.go:68-110 | the state after `Release` records exactly the steps that succeeded, and the release succeeds exactly when all eight did |
| GoReleaser.ChainFromZero | plugin/release/pkg/release/tool/goreleaser/goreleaser.go:85-107 | from the empty state, a pushed tag implies a pushed commit, a pushed commit implies the tag `v<version>`, a GoReleaser run implies the pushed tag, and a failed release never counts as a GitHub release |
| GoReleaser.StepCalls | plugin/release/pkg/release/tool/goreleaser/goreleaser.go:68-107 | each step starts with its own command; only the dry run can make a second call, and it leaves the state unchanged |
| GoReleaser.StageOrder | plugin/release/pkg/release/tool/goreleaser/goreleaser.go:68-110 | a successful run of the remaining steps issues their commands in step order and ends with the release |
| GoReleaser.ReleaseOrder | plugin/release/pkg/release/tool/goreleaser/goreleaser.go:68-110 | a successful release runs: HEAD, release commit, HEAD, tag, push HEAD, push tag, dry run, and `goreleaser release --clean` last |
| JReleaser.DryRunMessage | plugin/release/pkg/release/tool/jreleaser/jreleaser.go:277-283 | the dry-run warning always has a message: "This is a warning - proceeding anyway: " and the trimmed output |
| JReleaser.LoadConfigSpec | plugin/release/pkg/release/tool/jreleaser/config.go:99-111 | one read of "jreleaser.yml"; loads exactly when the read succeeds and the text decodes, to the decoded document; a failed read gives "failed to read config file: ..." |
| JReleaser.LoadConfig | plugin/release/pkg/release/tool/jreleaser/config.go:99-111 | performs exactly the calls of `LoadConfigSpec` and returns its result |
| JReleaser.SaveConfigSpec | plugin/release/pkg/release/tool/jreleaser/config.go:113-138 | one save of the document to "jreleaser.yml"; succeeds exactly when the write does |
| JReleaser.SaveConfig | plugin/release/pkg/release/tool/jreleaser/config.go:113-138 | performs exactly the calls of `SaveConfigSpec` and returns its error |
| JReleaser.ExecuteSpec | plugin/release/pkg/release/tool/jreleaser/jreleaser.go:323-341 | the token is read first; without it jreleaser does not run and the missing-token message is the error; otherwise `jreleaser <action>` runs with the token in its environment, its output is returned and it fails exactly when the command does |
| JReleaser.Execute | plugin/release/pkg/release/tool/jreleaser/jreleaser.go:323-341 | performs exactly the calls of `ExecuteSpec` and returns its output and error |
| JReleaser.Report | plugin/release/pkg/release/tool/jreleaser/jreleaser.go:214-217 | a command's failure is reported exactly when it failed, prefixed with the step's context |
| JReleaser.CommandsNeedToken | plugin/release/pkg/release/tool/jreleaser/jreleaser.go:324-327 | without GITHUB_TOKEN no jreleaser command runs, and the error is the missing-token message |
| JReleaser.ConfigInitSpec | plugin/release/pkg/release/tool/jreleaser/jreleaser.go:117-205 | an existing "jreleaser.yml" is kept with no other call; a stat error fails with "failed to check jreleaser.yml"; a missing file is generated from the configuration and the current year and saved, succeeding exactly when the save does |
| JReleaser.ConfigInit | plugin/release/pkg/release/tool/jreleaser/jreleaser.go:117-205 | performs exactly the calls of `ConfigInitSpec` and returns its error |
| JReleaser.InitOrder | plugin/release/pkg/release/tool/jreleaser/jreleaser.go:44-63 | without the binary `Init` stops after looking for it; with the binary and an existing configuration it goes straight to `jreleaser config` and never writes the file |
| JReleaser.SyncSpec | plugin/release/pkg/release/tool/jreleaser/jreleaser.go:229-261 | a missing file gives "jreleaser.yml not found"; a successful sync reads the file and saves it back with the project version set to the new version |
| JReleaser.Sync | plugin/release/pkg/release/tool/jreleaser/jreleaser.go:229-261 | performs exactly the calls of `SyncSpec` and returns its error |
| JReleaser.DryRunWarning | plugin/release/pkg/release/tool/jreleaser/jreleaser.go:277-283 | a failed dry run writes one warning to standard error |
| JReleaser.DryRunSpec | plugin/release/pkg/release/tool/jreleaser/jreleaser.go:264-294 | the dry run never fails the release |
| JReleaser.DryRunWarns | plugin/release/pkg/release/tool/jreleaser/jreleaser.go:264-294 | the dry run makes the calls of the command, followed by one warning exactly when the command failed |
| JReleaser.DryRun | plugin/release/pkg/release/tool/jreleaser/jreleaser.go:264-294 | performs exactly the calls of `DryRunSpec` and returns no error |
| JReleaser.Warn | plugin/release/pkg/release/tool/jreleaser/jreleaser.go:277-283 | writes exactly the dry-run warning |
| JReleaser.ReleaseRunSpec | plugin/release/pkg/release/tool/jreleaser/jreleaser.go:297-321 | `jreleaser full-release` with its token; fails exactly when the command does |
| JReleaser.ReleaseRun | plugin/release/pkg/release/tool/jreleaser/jreleaser.go:297-321 | performs exactly the calls of `ReleaseRunSpec` and returns its error |
| JReleaser.Pass | plugin/release/pkg/release/tool/jreleaser/jreleaser.go:65-103 | a successful step hands its new state and calls on to the next step |
| JReleaser.Unfold | plugin/release/pkg/release/tool/jreleaser/jreleaser.go:65-103 | the remaining steps are the next step followed, only on its success, by the rest |
| JReleaser.Stop | plugin/release/pkg/release/tool/jreleaser/jreleaser.go:65-103 | a failing step ends the release with its error and the state of the steps before it |
| JReleaser.JReleaser.constructor | plugin/release/pkg/release/tool/jreleaser/jreleaser.go:344 | a new backend holds the empty release state |
| JReleaser.JReleaser.Init | plugin/release/pkg/release/tool/jreleaser/jreleaser.go:44-63 | the binary check, the configuration set-up, then `jreleaser config`, stopping at the first failure |
| JReleaser.JReleaser.Release | plugin/release/pkg/release/tool/jreleaser/jreleaser.go:65-103 | performs exactly the calls of the steps up to the first failure and leaves the state they recorded |
| JReleaser.JReleaser.RevertRelease | plugin/release/pkg/release/tool/jreleaser/jreleaser.go:105-115 | the shared rollback of the record, where a JReleaser run counts both as the pushed tag and as the GitHub release |
| JReleaser.StepProgress | plugin/release/pkg/release/tool/jreleaser/jreleaser.go:65-100 | a successful step sets exactly its own fields: the push flag after the push, the tag `v<version>` and the JReleaser flag after the release |
| JReleaser.StageProgress | plugin/release/pkg/release/tool/jreleaser/jreleaser.go:65-103 | a release stopped at step k has recorded exactly what the steps before k set, and ends without error exactly when every step ran |
| JReleaser.ReleaseProgress | plugin/release/pkg/release/tool/jreleaser/jreleaser.go:65-103 | the state after `Release` records exactly the steps that succeeded |
| JReleaser.FailedReleaseHasNoTag | plugin/release/pkg/release/tool/jreleaser/jreleaser.go:96-100 | from the empty state, a failed release records no tag and no GitHub release, so its rollback never touches tags or GitHub; a successful one records the tag `v<version>` and the pushed commit |
| JReleaser.StepCalls | plugin/release/pkg/release/tool/jreleaser/jreleaser.go:65-103 | the sync starts with a stat and, when it succeeds, saves the new version; the commit and push steps are single git commands; the dry run leaves the state unchanged |
| JReleaser.StageExtends | plugin/release/pkg/release/tool/jreleaser/jreleaser.go:65-103 | the remaining steps only add calls after those already made |
| JReleaser.PastSync | plugin/release/pkg/release/tool/jreleaser/jreleaser.go:66-75 | a release that got past the sync succeeded at reading HEAD and at the sync, which changes no state |
| JReleaser.CommitNext | plugin/release/pkg/release/tool/jreleaser/jreleaser.go:77-79 | right after the sync comes the release commit |
| JReleaser.SyncBeforeCommit | plugin/release/pkg/release/tool/jreleaser/jreleaser.go:73-79 | a release that got past the sync saved the new project version immediately before the release commit, so the commit includes it |
| ReleaseIt.DetectSpec | plugin/release/pkg/release/tool/releaseit/release_it.go:46-72 | "bun" exactly when "bun.lock" exists, with no further call; otherwise "package-lock.json" is checked and the answer is "npm" whether or not it exists |
| ReleaseIt.Detect | plugin/release/pkg/release/tool/releaseit/release_it.go:46-72 | performs exactly the calls of `DetectSpec` and returns its package manager |
| ReleaseIt.EnsureSpec | plugin/release/pkg/release/tool/releaseit/release_it.go:39-43 | a known package manager is kept with no call; an unknown one is detected; the result is never empty |
| ReleaseIt.DetectedOnce | plugin/release/pkg/release/tool/releaseit/release_it.go:39-43 | once the package manager is known, later calls keep it and touch nothing |
| ReleaseIt.DetectedKnown | plugin/release/pkg/release/tool/releaseit/release_it.go:46-72 | detection always answers "bun" or "npm", and "bun" exactly when the bun lock file exists |
| ReleaseIt.RunCommand | plugin/release/pkg/release/tool/releaseit/release_it.go:75-80 | "bunx" exactly for bun, "npx" for everything else |
| ReleaseIt.InstallCmd | plugin/release/pkg/release/tool/releaseit/release_it.go:173-178 | bun installs with `bun add -D release-it`, everything else with `npm install -D release-it` |
| ReleaseIt.ConfigInitSpec | plugin/release/pkg/release/tool/releaseit/release_it.go:141-202 | an existing ".release-it.json" is kept with no other call; a stat error fails with "failed to check .release-it.json"; a missing file leads to the package.json check, the install and, only after a successful install, the default configuration, succeeding exactly when both succeed |
| ReleaseIt.ConfigInit | plugin/release/pkg/release/tool/releaseit/release_it.go:141-202 | performs exactly the calls of `ConfigInitSpec` and returns its error |
| ReleaseIt.InitWith | plugin/release/pkg/release/tool/releaseit/release_it.go:82-98 | the package manager's binary is looked up first; without it `Init` stops there with an error |
| ReleaseIt.InitSkipsExisting | plugin/release/pkg/release/tool/releaseit/release_it.go:82-98 | with the binary and an existing configuration, `Init` makes no install and runs only the version check, whose outcome decides |
| ReleaseIt.RunSpec | plugin/release/pkg/release/tool/releaseit/release_it.go:231-248 | one `<npx or bunx> release-it <version> --ci --no-git.requireCleanWorkingDir`; fails exactly when it does |
| ReleaseIt.Run | plugin/release/pkg/release/tool/releaseit/release_it.go:231-248 | performs exactly the calls of `RunSpec` and returns its error |
| ReleaseIt.Pass | plugin/release/pkg/release/tool/releaseit/release_it.go:100-127 | a successful step hands its new state and calls on to the next step |
| ReleaseIt.Stop | plugin/release/pkg/release/tool/releaseit/release_it.go:100-127 | a failing step ends the release with its error and the state of the steps before it |
| ReleaseIt.ReleaseIt.constructor | plugin/release/pkg/release/tool/releaseit/release_it.go:251 | a new backend knows no package manager and holds the empty release state |
| ReleaseIt.ReleaseIt.EnsurePackageManager | plugin/release/pkg/release/tool/releaseit/release_it.go:39-43 | caches the package manager `EnsureSpec` gives, making exactly its calls |
| ReleaseIt.ReleaseIt.Init | plugin/release/pkg/release/tool/releaseit/release_it.go:82-98 | settles the package manager, then the binary check, the configuration set-up and the version check, stopping at the first failure |
| ReleaseIt.ReleaseIt.Release | plugin/release/pkg/release/tool/releaseit/release_it.go:100-127 | settles the package manager, then performs exactly the calls of the steps up to the first failure and leaves the state they recorded |
| ReleaseIt.ReleaseIt.RevertRelease | plugin/release/pkg/release/tool/releaseit/release_it.go:129-139 | the shared rollback of the record |
| ReleaseIt.StepProgress | plugin/release/pkg/release/tool/releaseit/release_it.go:100-124 | a successful step sets exactly its own fields; the last one records the tag, both pushes and the GitHub release at once |
| ReleaseIt.StageProgress | plugin/release/pkg/release/tool/releaseit/release_it.go:100-127 | a release stopped at step k has recorded exactly what the steps before k set, and ends without error exactly when every step ran |
| ReleaseIt.ReleaseAllOrNothing | plugin/release/pkg/release/tool/releaseit/release_it.go:100-127 | a successful release records the tag `v<version>`, both pushes and the GitHub release; a failed one changes nothing but the pre-release head |
| ReleaseIt.FailedReleaseOnlyCleans | plugin/release/pkg/release/tool/releaseit/release_it.go:103-111 | the rollback of a failed release from the empty state is only `git clean -fd` |
| Service.ReleaseError | plugin/release/pkg/release/service.go:67-76 | a failed release reports "release failed: " and the release error, followed by ": Failed undoing changes: " and the rollback error exactly when the rollback failed too |
| Service.RunSpec | plugin/release/pkg/release/service.go:30-89 | a release system is asked to release only when the registry knows the configured one |
| Service.Service.constructor | plugin/release/pkg/release/service.go:25-27 | the service holds the given configuration and registry |
| Service.Service.UpdateConfig | plugin/release/pkg/release/service.go:102-105 | the configuration's version becomes the new version's text, and exactly that configuration is saved |
| Service.Service.GetNewVersion | plugin/release/pkg/release/service.go:92-100 | performs exactly the version guard's calls and returns the guarded version with its successor of the requested type, or the guard's error |
| Service.Service.Checks | plugin/release/pkg/release/service.go:31-37 | the remote lookup with its result ignored, the pre-flight checks, which may end the process, then the version guard |
| Service.Service.ReleaseWith | plugin/release/pkg/release/service.go:65-88 | releases with the tool; a failure is rolled back once and reported; a success updates the configuration and only warns when saving fails |
| Service.Service.Run | plugin/release/pkg/release/service.go:30-89 | performs exactly the calls of `RunSpec`, leaves the registry's map as it was, and leaves the release system holding what the release recorded |
| Service.Service.Proceed | plugin/release/pkg/release/service.go:34-89 | after checks that did not end the process: performs exactly the calls of `ProceedSpec` (a guard error or an unknown release system stops with no call, otherwise the release phase), leaves the registry's map as it was and the release system holding what the release recorded |
| Service.PreflightExitEndsRun | plugin/release/pkg/release/service.go:31-33 | a failing pre-flight check ends the process: nothing after it runs and the configuration is unchanged |
| Service.ChecksEndWithGuard | plugin/release/pkg/release/service.go:31-37 | after passing pre-flight checks, the version guard runs and its result is the checks' result |
| Service.RunFetches | plugin/release/pkg/release/service.go:34 | a run that passes the pre-flight checks fetches from the remote |
| Service.GuardErrorReturned | plugin/release/pkg/release/service.go:34-37 | a version guard error is returned as it is, with no release and no further call |
| Service.UnknownSystemStops | plugin/release/pkg/release/service.go:39-44 | an unregistered release system gives "release System Not Found: unknown release system: <name>" with no further call |
| Service.FailedReleaseRevertedOnce | plugin/release/pkg/release/service.go:67-76 | a failed release is followed by exactly one rollback of what it recorded and nothing else; the error starts with the release error and ends with the rollback's, and the configuration is unchanged |
| Service.SuccessRecordsVersion | plugin/release/pkg/release/service.go:65-88 | a successful release returns no error and records the next version, strictly greater than the guarded one for major, minor and patch, in the configuration |
| Service.SuccessNeedsRelease | plugin/release/pkg/release/service.go:30-89 | `Run` succeeds exactly when the checks pass, the system is registered and its release succeeds; otherwise the configuration is unchanged |
| Service.NewVersionFromGuard | plugin/release/pkg/release/service.go:92-100 | `GetNewVersion` makes only the guard's calls, succeeds exactly when the guard does, and returns its version with the successor of the requested type |
| ReleaseHandler.GetFlagBool | plugin/release/pkg/release/handler.go:166-173 | a flag is set exactly when it is present and is the boolean true; absent and non-boolean flags read as false |
| ReleaseHandler.ErrorResponse | plugin/release/pkg/release/handler.go:54-66 | an error response for the release type's command, with the given code, message and details and no data |
| ReleaseHandler.DryRunResponse | plugin/release/pkg/release/handler.go:73-110 | a successful table answer for the release type's command with six rows: the type, the current and the new version's text, the release system, "Dry Run" yes, and the preview status |
| ReleaseHandler.ReleasedResponse | plugin/release/pkg/release/handler.go:130-163 | a successful table answer for the release type's command with five rows: the type, the previous and the new version's text, the release system, and the status |
| ReleaseHandler.RunAnswer | plugin/release/pkg/release/handler.go:113-163 | a process exit during the run stays that exit with its code; a run error becomes a RELEASE_FAILED response with its message; a successful run becomes the released answer for the current and next version; every answer names the release type as its command |
| ReleaseHandler.Answer | plugin/release/pkg/release/handler.go:48-163 | performs exactly the calls of the answer for a loaded configuration: the new version, then the preview or the run |
| ReleaseHandler.HandleRelease | plugin/release/pkg/release/handler.go:24-164 | performs exactly the calls of `HandleReleaseSpec` and returns its answer |
| ReleaseHandler.DryRunOnlyPreviews | plugin/release/pkg/release/handler.go:69-111 | with "dry-run" set, only the configuration is loaded and the version guarded: nothing is released, and the preview shows the guarded and the next version |
| ReleaseHandler.RunErrorIsReleaseFailed | plugin/release/pkg/release/handler.go:113-163 | without "dry-run", a run error is answered as RELEASE_FAILED with its message, a successful run as released with Previous Version the guarded version and New Version its successor of the requested type, and a process exit stays an exit |
| ReleaseHandler.AnswerNamesCommand | plugin/release/pkg/release/handler.go:69-163 | every answer after the configuration loaded names the release type as its command |
| ReleaseHandler.ResponseNamesCommand | plugin/release/pkg/release/handler.go:30-163 | every response of `HandleRelease` carries the metadata plugin "release", version "1.0.0" and the release type as command |
| ReleaseHandler.ConfigErrorAnswered | plugin/release/pkg/release/handler.go:27-46 | a configuration that does not load is answered as CONFIG_NOT_FOUND with the load error and the init hint, and nothing else runs |
| ReleaseHandler.GuardRunsTwice | plugin/release/pkg/release/handler.go:52-114 | a real release runs the version guard twice, so it fetches twice: once for the new version and once inside the run |
| ValidateHandler.ErrorResponse | plugin/release/pkg/validate/validate.go:29-62 | an error response for "validate", with the given code, message and details and no data |
| ValidateHandler.ValidResponse | plugin/release/pkg/validate/validate.go:85-150 | a successful table answer with six rows when "show" is set and two otherwise, the last one reporting the configuration as valid |
| ValidateHandler.HandleValidate | plugin/release/pkg/validate/validate.go:24-151 | performs exactly the calls of `HandleValidateSpec` and returns its answer |
| ValidateHandler.MissingFileNotLoaded | plugin/release/pkg/validate/validate.go:27-45 | when the configuration file does not exist, only the existence check runs and the answer is CONFIG_NOT_FOUND with the init hint |
| ValidateHandler.LoadFailureIsInvalid | plugin/release/pkg/validate/validate.go:47-63 | when the file exists but does not load, the answer is CONFIG_INVALID with the load error |
| ValidateHandler.ValidationNeverFails | plugin/release/pkg/validate/validate.go:65-80 | VALIDATION_FAILED is never answered, because a configuration that loads has already passed `Validate` |
| ValidateHandler.ValidAnswer | plugin/release/pkg/validate/validate.go:82-150 | a configuration that loads is answered as success with six rows when "show" is set and two otherwise |
| History.Item | plugin/release/pkg/history/history.go:37-41 | a history item holds the version, the previous tag and the commit count |
| History.HistoryResponse | plugin/release/pkg/history/history.go:46-57 | a success answer for "history" whose only data is the list of items |
| History.CollectItems | plugin/release/pkg/history/history.go:24-42 | performs exactly the count of each tag in order and returns the items of `ItemsSpec` |
| History.HandleHistory | plugin/release/pkg/history/history.go:17-58 | performs exactly the calls of `HandleHistorySpec` and returns its answer |
| History.CountIsOneCommand | plugin/release/pkg/git/tag.go:69-102 | counting commits runs exactly one git command, whatever follows it |
| History.ItemPerTag | plugin/release/pkg/history/history.go:25-42 | one item per tag, in order, each with its tag as version, the previous tag (empty for the first) as origin, and as commits the count git gave for that range when it was asked |
| History.CountsOverConsecutiveTags | plugin/release/pkg/history/history.go:29-35 | the commits are counted up to the first tag and then between each tag and the one before it, in order |
| History.HistoryAnswer | plugin/release/pkg/history/history.go:17-58 | the history always succeeds, with exactly one item per tag git lists |
| ContributorsHandler.ContributorsResponse | plugin/release/pkg/contributors/contributors.go:26-37 | a success answer for "contributors" whose only data is the list of items |
| ContributorsHandler.CollectItems | plugin/release/pkg/contributors/contributors.go:16-22 | one item per contributor, in order |
| ContributorsHandler.HandleContributors | plugin/release/pkg/contributors/contributors.go:11-38 | performs exactly the calls of `HandleContributorsSpec` and returns its answer |
| ContributorsHandler.ItemsPointwise | plugin/release/pkg/contributors/contributors.go:16-22 | the items map each contributor to its item, keeping the order |
| ContributorsHandler.ItemsAgree | plugin/release/pkg/contributors/contributors.go:16-22 | the items built in the loop are exactly the items of the contributors |
| ContributorsHandler.LookupErrorIgnored | plugin/release/pkg/contributors/contributors.go:14-37 | a failed lookup is no error: the answer is a success with an empty list |
| ContributorsHandler.OneItemPerContributor | plugin/release/pkg/contributors/contributors.go:11-38 | every contributor git reports gives one item with its author and commit count, in order |
| InitHandler.GetFlagString | plugin/release/pkg/init/handler.go:254-261 | a flag reads as its text when present and a string; absent and non-string flags read as the empty text |
| InitHandler.BuildConfigFromFlags | plugin/release/pkg/init/handler.go:221-252 | the configuration builds exactly when both the project type and the release system flags name valid values; the built configuration carries those two values, no owner or name, and a non-empty version |
| InitHandler.BuildNextSteps | plugin/release/pkg/init/handler.go:272-297 | three steps for a known release system and two otherwise, always opening with the release hint and closing with the single-source-of-truth note naming the configuration file |
| InitHandler.ErrorResponse | plugin/release/pkg/init/handler.go:85-97 | an error response for the init command with the given code, message and details and no data |
| InitHandler.InitializedResponse | plugin/release/pkg/init/handler.go:149-167 | a successful text answer with exactly the seven documented keys, carrying the configuration's version and release system |
| InitHandler.WithRepo | plugin/release/pkg/init/handler.go:75-81 | a detected repository sets owner and name from it and touches nothing else; a failed detection leaves the configuration as it was |
| InitHandler.SetUpSpec | plugin/release/pkg/init/handler.go:119-167 | an unknown release system gives RELEASE_SYSTEM_ERROR "Release system not found: ..." with no further calls and no tool; a known one always answers with the initialized response |
| InitHandler.SetUp | plugin/release/pkg/init/handler.go:119-167 | looks up the release system and initializes it; trace, answer and the tool's new state are those of the specification, and the registry map is unchanged |
| InitHandler.Configure | plugin/release/pkg/init/handler.go:75-167 | fills in the repository, validates, saves and sets up the release system, as the specification says, leaving the registry map unchanged |
| InitHandler.HandleInit | plugin/release/pkg/init/handler.go:29-168 | the whole init command: trace, answer and the tool's new state are those of the specification, and the registry map is unchanged |
| InitHandler.AvailableOptions | plugin/release/pkg/init/handler.go:172-219 | a successful table answer for "init-options" with four option items and a recommendation for each of frontend, backend and other |
| InitHandler.ExistingConfigRefused | plugin/release/pkg/init/handler.go:32-51 | an existing configuration without --force is refused with CONFIG_EXISTS after only the existence check, and no tool is touched |
| InitHandler.FlagChecksInOrder | plugin/release/pkg/init/handler.go:224-242 | the flags are checked in order: a missing project type, then an invalid one, then a missing release system, then an invalid one, each with its own message |
| InitHandler.VersionDefaults | plugin/release/pkg/init/handler.go:244-249 | the version is the flag's value, or 0.1.0 when the flag is absent or empty |
| InitHandler.BadFlagsListed | plugin/release/pkg/init/handler.go:53-73 | flags that do not build a configuration give INVALID_FLAGS with the builder's message and the required/optional flag lists, after only the existence check |
| InitHandler.SavedConfigHasRepo | plugin/release/pkg/init/handler.go:75-116 | a valid configuration is saved right after the repository lookup, with the detected owner and name when there is a repository and the flag-built ones otherwise |
| InitHandler.OnlyVersionCanBeInvalid | plugin/release/pkg/init/handler.go:83-98 | after the flags built a configuration, validation can only fail on the version's format, and then nothing is saved |
| InitHandler.SystemErrorAfterSave | plugin/release/pkg/init/handler.go:100-135 | RELEASE_SYSTEM_ERROR only follows a successful save, with no call after it |
| InitHandler.InitErrorIgnored | plugin/release/pkg/init/handler.go:137-167 | once the release system is found, the answer is the initialized success whatever its Init returned |
| InitHandler.NextStepsPerSystem | plugin/release/pkg/init/handler.go:277-290 | two different known release systems get different version-management hints |
| Dispatcher.InferLevel | pkg/dispatcher/dipatcher.go:121-133 | the inferred level is always one of error, warn, verbose or info |
| Dispatcher.ContainsIff | pkg/dispatcher/dipatcher.go:123-126 | the substring test used for level inference holds exactly when the word occurs at some position |
| Dispatcher.ContainsLower | pkg/dispatcher/dipatcher.go:122-126 | the lower-cased message contains a word exactly when the message mentions it in any letter case |
| Dispatcher.LevelOfMessage | pkg/dispatcher/dipatcher.go:121-133 | the level is error when the message mentions "error" or "failed" in any case, else warn when it mentions "warn", else verbose when it starts with "V$", else info |
| Dispatcher.ErrorWordInAnyCase | pkg/dispatcher/dipatcher.go:122-125 | a message holding "error" in any letter case is an error, whatever surrounds it |
| Dispatcher.TrimLeftBrackets | pkg/dispatcher/dipatcher.go:100 | trimming brackets on the left leaves a suffix of the text that does not start with a bracket |
| Dispatcher.TrimRightBrackets | pkg/dispatcher/dipatcher.go:100 | trimming brackets on the right leaves a prefix of the text that does not end with a bracket |
| Dispatcher.TrimBrackets | pkg/dispatcher/dipatcher.go:100 | the trimmed category neither starts nor ends with a bracket |
| Dispatcher.TrimLeftOpen | pkg/dispatcher/dipatcher.go:100 | an opening bracket in front is trimmed away |
| Dispatcher.TrimRightClose | pkg/dispatcher/dipatcher.go:100 | a closing bracket at the end is trimmed away |
| Dispatcher.UnbracketCategory | pkg/dispatcher/dipatcher.go:99-100 | a category without brackets at its ends comes back unchanged from its bracketed form |
| Dispatcher.LineParts | pkg/dispatcher/dipatcher.go:97 | splitting a structured line at its first two spaces gives back the timestamp, the bracketed category and the whole message, spaces included |
| Dispatcher.ParseLineRoundTrip | pkg/dispatcher/dipatcher.go:95-109 | a line "timestamp [category] message" parses back to its timestamp, category and message, with the level inferred from the message |
| Dispatcher.StructuredLine | pkg/dispatcher/dipatcher.go:97-109 | a line with at least three pieces whose second is bracketed gives an entry from those pieces |
| Dispatcher.SplitN3Pieces | pkg/dispatcher/dipatcher.go:97 | three pieces joined with single spaces give back the line |
| Dispatcher.NoBracketedPiece | pkg/dispatcher/dipatcher.go:97-99 | a line without an opening bracket never has a bracketed second piece |
| Dispatcher.PlainLine | pkg/dispatcher/dipatcher.go:111-117 | a line without an opening bracket falls back to an info entry of category "plugin" with the current time and the whole line as message |
| Dispatcher.LogsOf | pkg/dispatcher/dipatcher.go:81-89 | there are never more entries than lines |
| Dispatcher.ParseLogOutput | pkg/dispatcher/dipatcher.go:73-92 | the scanning loop yields exactly the entries of the specification: one per non-blank trimmed line, in order |
| Dispatcher.LogsOfSnoc | pkg/dispatcher/dipatcher.go:81-89 | one more line adds its entry at the end, or nothing when it is blank |
| Dispatcher.ParseNonBlankAppend | pkg/dispatcher/dipatcher.go:81-89 | the entries of two runs of lines are the entries of each, concatenated, whatever the line parser |
| Dispatcher.NoEntriesIffBlank | pkg/dispatcher/dipatcher.go:74-90 | no entries come out exactly when every line is blank |
| Dispatcher.EntryLines | pkg/dispatcher/dipatcher.go:72-73 | one "timestamp [category] message" line per entry, in order |
| Dispatcher.EntryLineShape | pkg/dispatcher/dipatcher.go:72-73 | a writable entry's line is a single non-empty line without surrounding blanks |
| Dispatcher.LogsOfEntryLines | pkg/dispatcher/dipatcher.go:73-118 | the lines written for writable entries parse back to those entries |
| Dispatcher.LogRoundTrip | pkg/dispatcher/dipatcher.go:72-118 | entries written one per line in the documented format and joined with newlines parse back to the same entries |
| Dispatcher.Decoded | pkg/dispatcher/dipatcher.go:155-166 | a manifest read gives at most one manifest |
| Dispatcher.Dispatcher.constructor | pkg/dispatcher/dipatcher.go:22-26 | the new dispatcher is over the given plugin directory |
| Dispatcher.Dispatcher.FindPlugin | pkg/dispatcher/dipatcher.go:135-141 | trace and result are those of the specification: the path pluginDir/name/plugin-name, or the not-found error when it does not exist |
| Dispatcher.Dispatcher.Dispatch | pkg/dispatcher/dipatcher.go:29-69 | trace and result are those of the specification of finding, running and decoding the plugin |
| Dispatcher.Dispatcher.CollectManifests | pkg/dispatcher/dipatcher.go:150-167 | the loop over the directory entries makes the reads and yields the manifests of the specification |
| Dispatcher.Dispatcher.ListPlugins | pkg/dispatcher/dipatcher.go:143-170 | trace and result are those of the specification of listing the plugin directory |
| Dispatcher.MissingPluginNotRun | pkg/dispatcher/dipatcher.go:30-33 | a plugin whose binary does not exist is never run: only the existence check, and the error names the plugin and its path |
| Dispatcher.DispatchAnswer | pkg/dispatcher/dipatcher.go:40-68 | an existing plugin is run once with the encoded request; the answer is a response exactly when stdout decodes and either the run succeeded or stdout was not empty, and its logs are those parsed from stderr |
| Dispatcher.RunErrors | pkg/dispatcher/dipatcher.go:47-63 | a failed run without a decodable answer is "plugin execution failed" with stderr; a successful run with an undecodable answer is "failed to parse plugin response" with the output |
| Dispatcher.EffectsOf | pkg/dispatcher/dipatcher.go:150-167 | one effect per call, in order |
| Dispatcher.OneReadPerDirectory | pkg/dispatcher/dipatcher.go:150-159 | exactly one manifest read per directory entry, in order, and none for plain files |
| Dispatcher.ManifestsAreDecodedReads | pkg/dispatcher/dipatcher.go:155-167 | the manifests are exactly the reads that succeeded and decode, in order; unreadable or malformed ones are skipped |
| Dispatcher.ListingErrors | pkg/dispatcher/dipatcher.go:143-147 | listing fails exactly when the plugin directory cannot be read, with that error and no other call |
| Renderer.LexLeqPreorder | pkg/renderer/renderer.go:292 | byte-wise string order, the order sort.Strings uses, is a total preorder |
| Renderer.LeastExists | pkg/renderer/renderer.go:476-480 | every non-empty set of keys has a least key |
| Renderer.LeastUnique | pkg/renderer/renderer.go:476-480 | the least key of a set is unique |
| Renderer.SortedKeys | pkg/renderer/renderer.go:475-480 | the keys in ascending order: exactly the set's keys, each once, sorted |
| Renderer.ItemTexts | pkg/renderer/renderer.go:451-454 | one formatted text per list item, in order |
| Renderer.FieldParts | pkg/renderer/renderer.go:458-461 | one "key=value" part per field, the value formatted |
| Renderer.ListTextsSplit | pkg/renderer/renderer.go:446-455 | a non-empty list whose items format without commas splits back at the commas into its items' texts |
| Renderer.ObjectParts | pkg/renderer/renderer.go:456-463 | an object formats as its "key=value" parts, sorted and joined with commas, one part per field and every field present |
| Renderer.CapitalizeFirst | pkg/renderer/renderer.go:505-510 | the first character is upper-cased and the rest is unchanged, so the length is kept |
| Renderer.CapitalizeKeepsLetters | pkg/renderer/renderer.go:505-510 | capitalizing leaves the text equal up to letter case, and capitalizing twice is capitalizing once |
| Renderer.ColorizeValue | pkg/renderer/renderer.go:388-423 | a value no rule colours is returned unchanged |
| Renderer.ToLowerIdempotent | pkg/renderer/renderer.go:389-390 | lower-casing twice is lower-casing once |
| Renderer.KeyCaseIgnored | pkg/renderer/renderer.go:389-393 | the colour does not depend on the key's letter case |
| Renderer.StatusWordsWin | pkg/renderer/renderer.go:392-402 | under a status or state key, the listed success words are green, the failure words red and the waiting words yellow, in any case |
| Renderer.LeadingVIsVersion | pkg/renderer/renderer.go:404-407 | outside status keys, a value starting with "v" is coloured as a version |
| Renderer.FirstPriorityListWins | pkg/renderer/renderer.go:202-211 | the scan of the priority keys returns the first key, from where it starts, that holds a list |
| Renderer.PriorityOrder | pkg/renderer/renderer.go:197-211 | the list shown is the one under the first priority key (items, releases, resources, results, data, list) that holds a list |
| Renderer.PriorityFound | pkg/renderer/renderer.go:205-211 | a list the priority scan returns is one of the data's values |
| Renderer.FindListIff | pkg/renderer/renderer.go:197-221 | no list is found exactly when no value of the data is a list, and a found list is one of its values |
| Renderer.HeaderSetIff | pkg/renderer/renderer.go:278-289 | a key is a header exactly when some object item has it |
| Renderer.HeaderLeqPreorder | pkg/renderer/renderer.go:323-336 | the header order, ranked columns first by rank then the rest by name, is a total preorder |
| Renderer.PrioritizeHeaders | pkg/renderer/renderer.go:312-339 | the prioritized headers are a permutation of the headers, sorted in the header order |
| Renderer.RankedColumnsFirst | pkg/renderer/renderer.go:312-339 | a ranked column never follows an unranked one, ranked columns come in rank order and unranked ones in name order |
| Renderer.RowCells | pkg/renderer/renderer.go:300-305 | an object item's row has a cell for each header and no other, holding the formatted field |
| Renderer.MissingKeyShowsNone | pkg/renderer/renderer.go:300-304 | a header an item lacks shows as "<none>" in its row |
| Renderer.CollectHeaderSet | pkg/renderer/renderer.go:278-289 | the first pass collects exactly the keys of the object items |
| Renderer.FillRows | pkg/renderer/renderer.go:297-307 | the second pass builds one row per item as the specification says |
| Renderer.ExtractTableData | pkg/renderer/renderer.go:273-310 | the headers are the sorted, prioritized item keys and the rows those of the specification |
| Renderer.FillRow | pkg/renderer/renderer.go:299-306 | one item's row is that of the specification |
| Renderer.WidthIsTightest | pkg/renderer/renderer.go:341-364 | a column is two wider than its header and every cell in it, and exactly two wider than one of them |
| Renderer.HeaderWidths | pkg/renderer/renderer.go:344-347 | the first loop gives each header its own length |
| Renderer.WidenForRow | pkg/renderer/renderer.go:350-356 | one row widens exactly the columns whose cell in it is wider than the column so far, to that cell's length, and keeps the set of columns |
| Renderer.CalculateColumnWidths | pkg/renderer/renderer.go:341-364 | a width per header and no other, each the column width of the specification |
| Renderer.PadRight | pkg/renderer/renderer.go:493 | padding keeps the text as a prefix and reaches the width when the text is shorter |
| Renderer.MaxLength | pkg/renderer/renderer.go:482-488 | no key is longer than the maximum key length |
| Renderer.LongestKey | pkg/renderer/renderer.go:482-488 | the loop finds the maximum key length |
| Renderer.KeyValueRows | pkg/renderer/renderer.go:490-499 | the loop builds the lines of the specification, one per key |
| Renderer.RenderKeyValue | pkg/renderer/renderer.go:469-502 | the key-value screen of the specification |
| Renderer.RenderList | pkg/renderer/renderer.go:237-271 | the list screen of the specification |
| Renderer.RenderTable | pkg/renderer/renderer.go:178-193 | the table screen of the specification |
| Renderer.RenderTo | pkg/renderer/renderer.go:46-57 | the screen of the specification for the requested format |
| Renderer.ErrorsBeforeData | pkg/renderer/renderer.go:178-183 | outside JSON, an error response is shown as its error report whatever its data |
| Renderer.PluginErrorsReported | pkg/renderer/renderer.go:223-235 | an error response built by the plugin helper is shown with its code, message and details |
| Renderer.KeyValueLines | pkg/renderer/renderer.go:469-502 | non-empty data gives one line per key in key order, each with the capitalized key padded to the longest key and the formatted value |
| Renderer.TableShape | pkg/renderer/renderer.go:249-268 | a table has one row per item, and every column is wide enough for its header and all its cells plus two |
| Renderer.WidthsBound | pkg/renderer/renderer.go:341-364 | every header's width is at least two more than the header and than each of its cells |
| Renderer.ColumnsAreItemKeys | pkg/renderer/renderer.go:273-296 | the columns are exactly the keys that occur in some object item |
| PluginCmd.Truncate | cmd/plugin.go:409-414 | text within the limit is kept unchanged, and only such text; longer text becomes exactly maxLen long, its first maxLen-3 characters followed by "..." |
| PluginCmd.ManifestRows | cmd/plugin.go:90-93 | one table row per installed manifest |
| PluginCmd.ListRows | cmd/plugin.go:91-93 | the loop builds the rows of the specification |
| PluginCmd.RunPluginList | cmd/plugin.go:71-96 | trace and result are those of the specification of listing the installed plugins |
| PluginCmd.DescriptionColumn | cmd/plugin.go:90-92 | the description column is always 40 characters wide, and a longer description shows its first 37 characters and "..." |
| PluginCmd.ManifestRowsPointwise | cmd/plugin.go:91-93 | each row is the row of its own manifest |
| PluginCmd.MissingDirectoryListsNothing | cmd/plugin.go:74-80 | a plugin directory that does not exist is no error: the answer is the "No plugins installed." hint |
| PluginCmd.AssetPluginShape | cmd/plugin.go:219-227 | a name read from an asset has no underscore, and the asset is "plugin-" followed by the name and then either nothing or an underscore |
| PluginCmd.AssetPluginOf | cmd/plugin.go:219-227 | an asset "plugin-" + name + a suffix that is empty or starts with an underscore offers exactly that name |
| PluginCmd.ParseAssetNames | cmd/plugin.go:217-228 | the loop collects exactly the plugin names of the specification |
| PluginCmd.AvailableNamesIff | cmd/plugin.go:217-228 | a name is offered exactly when some asset of the release carries it |
| PluginCmd.AvailablePlugins | cmd/plugin.go:230-236 | the available plugins are the offered names, each at the latest release's version |
| PluginCmd.CollectInstalled | cmd/plugin.go:113-117 | the loop builds the installed-version map of the specification |
| PluginCmd.InstallStatus | cmd/plugin.go:119-127 | "not installed" exactly when the plugin has no manifest, "installed" exactly when its installed version is the latest, and "installed (v)" with the installed version otherwise |
| PluginCmd.LastManifestWins | cmd/plugin.go:114-117 | a name is in the installed map exactly when some manifest has it, and its version is that of the last such manifest |
| PluginCmd.ArchName | cmd/plugin.go:271-275 | amd64 is named x86_64 and every other architecture keeps its name |
| PluginCmd.TitleWord | cmd/plugin.go:277-279 | the title-cased OS name keeps its length, with the first letter upper case and the rest lower case |
| PluginCmd.AssetNameOffersPlugin | cmd/plugin.go:281 | the asset name a platform downloads is read back, by the available-plugins scan, as the same plugin |
| PluginCmd.FirstAsset | cmd/plugin.go:304-308 | the first asset with the wanted name, or none when no asset has it |
| PluginCmd.FindDownloadUrl | cmd/plugin.go:304-310 | the loop gives the download URL of the specification |
| PluginCmd.DownloadUrlIff | cmd/plugin.go:267-311 | a found URL is that of an asset named plugin-{name}_{OS}_{arch}.tar.gz, and the lookup fails exactly when no asset has that name |
| PluginCmd.Base | cmd/plugin.go:365 | the base name is never empty and is "/" or holds no slash |
| PluginCmd.TrimTrailing | cmd/plugin.go:365 | trimming trailing separators leaves a prefix that does not end with one |
| PluginCmd.AfterLast | cmd/plugin.go:365 | the text after the last separator is a suffix without the separator, non-empty when the text does not end with one |
| PluginCmd.AfterLastOf | cmd/plugin.go:365 | the text after the last separator of a + separator + n is n when n holds none |
| PluginCmd.BaseOfNested | cmd/plugin.go:363-366 | a nested entry dir/n and a top-level entry n have the same base name n |
| PluginCmd.WriteEntry | cmd/plugin.go:372-387 | trace and result are those of the specification of writing one regular entry |
| PluginCmd.ExtractStep | cmd/plugin.go:349-388 | trace and result are those of the specification of one step of the extraction loop |
| PluginCmd.ExtractArchive | cmd/plugin.go:348-391 | trace and result are those of the specification of the whole extraction loop |
| PluginCmd.InstallArchive | cmd/plugin.go:326-391 | trace and result are those of the specification of removing, recreating and filling the plugin directory |
| PluginCmd.CreatedAppend | cmd/plugin.go:348-389 | the files created by two runs of calls are those of each, in order |
| PluginCmd.WriteCreatesTarget | cmd/plugin.go:372-387 | writing an entry that succeeds creates exactly its target |
| PluginCmd.StepCreatesTarget | cmd/plugin.go:357-388 | a step that succeeds creates exactly the file it asks for, or none |
| PluginCmd.ExtractCreatesTargets | cmd/plugin.go:348-389 | a successful extraction creates exactly the targets of the regular entries, in archive order |
| PluginCmd.TargetIsFlat | cmd/plugin.go:357-372 | directories, other entry types and empty or "." names create nothing; every created file lies directly under the install path by its base name |
| PluginCmd.NestedEntryFlattened | cmd/plugin.go:363-366 | a nested regular entry lands where a top-level entry of the same base name would |
| PluginCmd.Uninstall | cmd/plugin.go:164-178 | trace and result are those of the specification of uninstalling |
| PluginCmd.UninstallRemovesOnlyItsDirectory | cmd/plugin.go:164-178 | nothing is removed exactly when the plugin is not installed, which is then the error; anything removed is the plugin's own directory |
| PluginCmd.UninstallSucceedsIff | cmd/plugin.go:164-178 | uninstalling succeeds exactly when the directory exists and removing it succeeds |
| Semver.Parse | plugin/release/pkg/config/config.go:57-59 | a text that matches the version grammar yields a well-formed version |
| Semver.ParseFormat | plugin/release/pkg/config/config.go:57-59 | every well-formed version's text parses back to that version |
| Semver.FormatParse | plugin/release/pkg/config/config.go:57-59 | a text that parses is exactly the text of the version it parses to |
| Semver.MatchesPatternIff | plugin/release/pkg/config/config.go:57-59 | a text passes the configuration's version pattern exactly when it is the text of some well-formed version |
| Semver.LeadingZeroPreReleaseAccepted | plugin/release/pkg/config/config.go:58 | the pattern accepts a numeric pre-release identifier with a leading zero, such as 1.0.0-01 |
| Semver.Compare | plugin/release/pkg/release/version_guard.go:53 | comparison gives -1, 0 or 1 |
| Semver.CompareAntisymmetric | plugin/release/pkg/release/version_guard.go:53 | swapping the operands negates the comparison |
| Semver.CompareTransitive | plugin/release/pkg/release/version_guard.go:53 | precedence is transitive, strictly so when either step is strict |
| Semver.CompareIgnoresBuild | plugin/release/pkg/release/version_guard.go:53 | build metadata never affects precedence |
| Semver.CompareZero | plugin/release/pkg/release/version_guard.go:53 | two versions have equal precedence exactly when their cores agree and their pre-release identifiers compare equal one by one |
| Semver.PreReleaseBeforeRelease | plugin/release/pkg/release/version_guard.go:53 | a pre-release has lower precedence than the release it precedes |
| Semver.IncMajor | plugin/release/pkg/release/resolver.go:42-43 | a major bump adds one to the major number, resets minor and patch, and drops pre-release and build |
| Semver.IncMinor | plugin/release/pkg/release/resolver.go:44-45 | a minor bump keeps the major number, adds one to the minor, resets the patch, and drops pre-release and build |
| Semver.IncPatch | plugin/release/pkg/release/resolver.go:46-47 | a patch bump of a pre-release drops the pre-release and keeps the patch number; of a release it adds one to the patch |
| Semver.IncreasesPrecedence | plugin/release/pkg/release/resolver.go:40-49 | each of the three bumps gives a well-formed version of higher precedence |

## Left out

- Process, file, network and clock access is not executed. Each is an `Effect`
  answered by the `World` parameter; `time.Now` is the `CurrentYear` effect or a
  `now` parameter, and `os.Environ` is not modelled.
- JSON and YAML encoding and decoding, `filepath.Clean`, the Masterminds semver parser
  and `ColorText` are not part of this model. They are the fields of
  `Effects.Library`, so no save/load round trip is claimed for them.
- Semver: the Masterminds library's leniency (a leading "v", partial versions) is not
  modelled. `Semver.Parse` follows the configuration's version pattern, and the
  guard parses with the library parameter `parseVersion`.
- Semver.IncPatch, Semver.IncMajor, Semver.IncMinor: for a version with a pre-release
  part they follow the library's documented behaviour, because the library is not
  shown. `Resolver.NextVersionOfRelease` states the release case only.
- The fields of jreleaser.yml that the release systems neither read nor write are one
  uninterpreted `other` value.
- Terminal colours, ANSI escapes and the exact bytes written to stdout and stderr are
  not modelled. The renderer yields a `Screen` value, and coloured values carry the
  colour's name.
- PluginLog: info lines from `PluginPrint` and `PluginV` are not recorded in the traces
  of the release operations. Warnings and errors are recorded.
- Service: the error branch after `ResolveReleaseType` (plugin/release/pkg/release/service.go:57-61)
  is dead, because that function never fails, and it is left out.
- GoReleaser.ChainFromZero: does not state TagName != "" ⇒ ReleaseCommitHash != "",
  because the hash is whatever `git rev-parse HEAD` printed, which may be blank.
- ReleaseIt.ReleaseAllOrNothing: does not state that the recorded commit hash is
  non-empty, for the same reason.
- ValidateHandler.HandleValidate: the VALIDATION_FAILED branch is not in the method.
  `ValidateHandler.ValidationNeverFails` proves it unreachable, because loading already
  validates.
- InitHandler.HandleInit: the state of the registry's tools is stated only for the
  requested release system; other tools are untouched because only that one is called.
- The legacy internal/ release tree, the cobra command wiring and the print helpers are
  not part of this model. The registry modelled is internal/release/registry.go, the
  only registry implementation in the sources; registration by package import is the
  explicit `Registry.RegisterAll`.
- Dispatcher: cancellation of the plugin's context, the 64 KiB line limit of
  `bufio.Scanner` and a failing `json.Marshal` of the request are not modelled.
- Dispatcher.InferLevel: lower-casing is ASCII only; `strings.ToLower` agrees with it on
  ASCII text.
- Resolver.ParseReleaseType: lower-casing is ASCII only. `strings.ToLower` also maps a few
  non-ASCII letters to ASCII ones (U+0130 to "i", the Kelvin sign U+212A to "k"), so a
  type such as "M\u0130NOR", which the source reads as minor, is refused here.
- Renderer.ValueColor: keys and values are lower-cased in ASCII only, with the same gap as
  `ParseReleaseType` for the few non-ASCII letters `strings.ToLower` maps to ASCII.
- Renderer.CapitalizeFirst: works on the first character. The source upper-cases the first
  byte (`s[:1]`), so a text starting with a non-ASCII character such as "éx" becomes
  U+FFFD followed by that character's remaining bytes there; here it is unchanged.
- Strs.ToLower, Strs.ToUpper: map the ASCII letters only; every member that cases text
  (the three above, `Dispatcher.InferLevel` and `PluginCmd.TitleWord`) inherits this.
- Dispatcher.ParseLogOutput: every fallback entry gets the same `now` timestamp, where
  the source reads the clock once per line. An empty stderr gives the empty sequence,
  where the source returns nil.
- Renderer: the `float64` case of `formatValue` is not modelled. JSON numbers keep
  their text.
- Renderer.FindListIff: when no priority key holds a list, the source takes any list in
  Go map order. The model takes the one under the least key, and only the existence
  of a list is stated for that case.
- Renderer.PrioritizeHeaders: the in-place `sort.Slice` is modelled on values, as an
  insertion sort. `sort.Slice` is not stable, so the relative order of two headers of
  equal rank (such as "name" and "NAME") is not stated.
- Renderer.CalculateColumnWidths: widths are in characters of the header as written,
  where the source measures the bytes of the upper-cased header and the bytes of each
  cell.
- Renderer: a list without object items is shown as its items, without modelling the
  `%v` text of each. The describe view (metadata, logs and output sections,
  `colorizeStatus`) and the "wide" format beyond being the table view are not
  modelled.
- Renderer: an error response without an error object is the `NilErrorPanic` screen,
  the nil dereference the source would hit.
- PluginCmd: the HTTP fetches of the registry (`getLatestVersion`, the release and its
  assets, the download) are parameters: the asset names, the asset list and the
  archive's tar steps. The orchestration of `runPluginAvailable` and
  `runPluginInstall` around them is not modelled. The available plugins are a set, as
  the source's map iteration order is unspecified.
- PluginCmd: gzip decompression is not modelled. A gzip stream that cannot be opened is
  an archive whose first step is broken, and copying an entry and closing its file are
  one `CopyEntry` effect.
- PluginCmd.TitleWord: Title-casing is modelled for a one-word GOOS name only.
- PluginCmd.Truncate: requires the limit to be at least 3 when the text is longer; the
  source would panic there. Characters stand for bytes.
- PluginCmd.Uninstall: the success message is returned rather than printed.
- `GetInstalledPluginManifest` (cmd/plugin.go:417-430) is not modelled, because none of the modelled commands calls it. Its read-and-decode is one step of `Dispatcher.Dispatcher.ListPlugins`.
- Preflight: a failed check ends in the `Exit(1)` effect, and nothing after it is
  modelled, as in the source.
