/** The project configuration's enumerations: what kind of project it is and which
    release tool publishes it. Both are strings in the configuration file; only the
    listed spellings are valid. */
module NekoConfig {

  const Frontend := "frontend"
  const Backend := "backend"
  const Other := "other"

  const ReleaseIt := "release-it"
  const JReleaser := "jreleaser"
  const GoReleaser := "goreleaser"

  /** The configuration record: exactly these three fields. */
  datatype NekoConfig = NekoConfig(projectType: string, releaseSystem: string, version: string)

  /** `ProjectType.IsValid`. */
  predicate ProjectTypeValid(p: string) {
    match p
    case "frontend" => true
    case "backend" => true
    case "other" => true
    case _ => false
  }

  /** `ReleaseType.IsValid`. */
  predicate ReleaseTypeValid(r: string) {
    match r
    case "release-it" => true
    case "jreleaser" => true
    case "goreleaser" => true
    case _ => false
  }

  /** A project type is valid exactly when it is one of the three listed. */
  lemma ProjectTypeValidIff(p: string)
    ensures ProjectTypeValid(p) <==> p in {Frontend, Backend, Other}
  {
  }

  /** A release system is valid exactly when it is one of the three listed. */
  lemma ReleaseTypeValidIff(r: string)
    ensures ReleaseTypeValid(r) <==> r in {ReleaseIt, JReleaser, GoReleaser}
  {
  }

  /** The empty string is neither a project type nor a release system, and no
      spelling is both. */
  lemma EnumsDisjoint(s: string)
    ensures !ProjectTypeValid("") && !ReleaseTypeValid("")
    ensures !(ProjectTypeValid(s) && ReleaseTypeValid(s))
  {
  }
}
