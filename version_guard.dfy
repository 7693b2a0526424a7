/** The version guard of the release plugin: the configured version must be a
    semantic version and must not be older than the latest tag (Semantic Versioning
    2.0.0 section 11 precedence). The version parser is the semantic-version library's,
    a parameter of the model. */
module VersionGuard {
  import opened Wrappers
  import opened Strs
  import opened Effects
  import Semver
  import Git
  import Tags
  import Resolver

  function NotSemverMessage(text: string): string {
    "version " + text + " in .release.neko.json is not a valid semantic version"
  }

  function ViolationMessage(local: Semver.Version, remote: Semver.Version): string {
    "version violation: Local version " + Semver.Format(local) + " is smaller than latest tag " + Semver.Format(remote)
  }

  /** `EnsureVersionIsValid`: the configured version, unless it does not parse or is
      older than a tag that parses. A tag that does not parse skips the comparison
      (the warning built for it is discarded). */
  function EnsureVersionIsValid(parse: string -> Result<Semver.Version>, cfg: ReleaseConfig, latestTag: string)
    : (r: Result<Semver.Version>)
    ensures parse(cfg.version).Err? ==> r == Err(NotSemverMessage(cfg.version))
    ensures parse(cfg.version).Ok? && parse(latestTag).Err? ==> r == Ok(parse(cfg.version).value)
    ensures parse(cfg.version).Ok? && parse(latestTag).Ok? ==>
      (r.Err? <==> Semver.LessThan(parse(cfg.version).value, parse(latestTag).value)) &&
      (r.Err? ==> r.error == ViolationMessage(parse(cfg.version).value, parse(latestTag).value))
    ensures r.Ok? ==> r == parse(cfg.version)
  {
    match parse(cfg.version)
    case Err(_) => Err(NotSemverMessage(cfg.version))
    case Ok(local) =>
      match parse(latestTag)
      case Err(_) => Ok(local)
      case Ok(remote) =>
        if Semver.LessThan(local, remote) then Err(ViolationMessage(local, remote))
        else Ok(local)
  }

  /** A passed guard means the configured version is at least the tag's: never older
      by precedence. */
  lemma GuardedNotOlder(parse: string -> Result<Semver.Version>, cfg: ReleaseConfig, latestTag: string)
    requires EnsureVersionIsValid(parse, cfg, latestTag).Ok? && parse(latestTag).Ok?
    ensures Semver.Compare(parse(latestTag).value, EnsureVersionIsValid(parse, cfg, latestTag).value) <= 0
  {
    Semver.CompareAntisymmetric(parse(latestTag).value, parse(cfg.version).value);
  }

  /** A configured version equal to the latest tag passes. */
  lemma GuardAcceptsEqual(parse: string -> Result<Semver.Version>, cfg: ReleaseConfig, latestTag: string, v: Semver.Version)
    requires parse(cfg.version) == Ok(v) && parse(latestTag) == Ok(v)
    ensures EnsureVersionIsValid(parse, cfg, latestTag) == Ok(v)
  {
    Semver.CompareAntisymmetric(v, v);
  }

  /** The version a guarded release produces lies strictly after the latest tag. */
  lemma NextVersionBeyondTag(parse: string -> Result<Semver.Version>, cfg: ReleaseConfig, latestTag: string, t: Resolver.Type)
    requires EnsureVersionIsValid(parse, cfg, latestTag).Ok? && parse(latestTag).Ok?
    requires t in {Resolver.Major, Resolver.Minor, Resolver.Patch}
    ensures var local := EnsureVersionIsValid(parse, cfg, latestTag).value;
      Semver.LessThan(parse(latestTag).value, Resolver.NextVersion(local, t))
  {
    var local := EnsureVersionIsValid(parse, cfg, latestTag).value;
    GuardedNotOlder(parse, cfg, latestTag);
    Resolver.NextVersionMonotone(local, t);
    Semver.CompareTransitive(parse(latestTag).value, local, Resolver.NextVersion(local, t));
  }

  const FetchCmd := Git.GitCmd(["fetch"])

  /** `VersionGuard`: `git fetch`, the latest tag, then the check against it. */
  function VersionGuardSpec(w: World, lib: Library, h: seq<Call>, cfg: ReleaseConfig): (r: Out<Result<Semver.Version>>)
  {
    var fetch := Ask(w, h, FetchCmd);
    var tag := Tags.LatestTagSpec(w, h + [fetch]);
    Out(EnsureVersionIsValid(lib.parseVersion, cfg, tag.value), [fetch] + tag.calls)
  }

  method VersionGuard(sh: Shell, cfg: ReleaseConfig) returns (r: Result<Semver.Version>)
    modifies sh`trace
    ensures Performs(old(sh.trace), sh.trace, r, VersionGuardSpec(sh.world, sh.lib, old(sh.trace), cfg))
  {
    ghost var h := sh.trace;
    Git.Fetch(sh);
    ghost var fetch := Ask(sh.world, h, FetchCmd);
    var latest := Tags.LatestTag(sh);
    AppendAssoc(h, [fetch], Tags.LatestTagSpec(sh.world, h + [fetch]).calls);
    r := EnsureVersionIsValid(sh.lib.parseVersion, cfg, latest);
  }

  /** The guard fetches before it reads the latest tag, and reads it with
      `git describe`. */
  lemma GuardFetchesFirst(w: World, lib: Library, h: seq<Call>, cfg: ReleaseConfig)
    ensures var r := VersionGuardSpec(w, lib, h, cfg);
      |r.calls| >= 2 && r.calls[0].effect == FetchCmd && r.calls[1].effect == Tags.DescribeTags
  {
  }

  /** Without a tag the guard compares against 0.1.0 rather than skipping the check:
      a configured version before 0.1.0 is rejected. */
  lemma NoTagComparesDefault(w: World, lib: Library, h: seq<Call>, cfg: ReleaseConfig)
    requires !w(h + [Ask(w, h, FetchCmd)], Tags.DescribeTags).Done?
    ensures VersionGuardSpec(w, lib, h, cfg).value == EnsureVersionIsValid(lib.parseVersion, cfg, Tags.DefaultVersion)
    ensures (lib.parseVersion(cfg.version).Ok? && lib.parseVersion(Tags.DefaultVersion) == Ok(Semver.Version(0, 1, 0, [], [])) &&
             Semver.LessThan(lib.parseVersion(cfg.version).value, Semver.Version(0, 1, 0, [], []))) ==>
      VersionGuardSpec(w, lib, h, cfg).value.Err?
  {
  }
}
