/** The release type of the release plugin and the version it leads to. */
module Resolver {
  import opened Wrappers
  import opened Strs
  import Semver

  /** `release.Type`: a string naming the bump. */
  type Type = string

  const Major: Type := "major"
  const Minor: Type := "minor"
  const Patch: Type := "patch"

  const InvalidTypeMessage := "valid options: major, minor, patch"

  /** `NextVersion`: the increment the type names; any other type keeps the version. */
  function NextVersion(current: Semver.Version, t: Type): (r: Semver.Version)
    ensures t == Major ==> r == Semver.IncMajor(current)
    ensures t == Minor ==> r == Semver.IncMinor(current)
    ensures t == Patch ==> r == Semver.IncPatch(current)
    ensures t !in {Major, Minor, Patch} ==> r == current
  {
    if t == Major then Semver.IncMajor(current)
    else if t == Minor then Semver.IncMinor(current)
    else if t == Patch then Semver.IncPatch(current)
    else current
  }

  /** For a release (no pre-release part) the three types give (M+1).0.0, M.(m+1).0
      and M.m.(p+1), each a strictly later version (Semantic Versioning 2.0.0 sections 6 to 8). */
  lemma NextVersionOfRelease(v: Semver.Version)
    requires v.pre == []
    ensures var r := NextVersion(v, Major);
      r.major == v.major + 1 && r.minor == 0 && r.patch == 0 && r.pre == [] && r.build == [] &&
      Semver.LessThan(v, r)
    ensures var r := NextVersion(v, Minor);
      r.major == v.major && r.minor == v.minor + 1 && r.patch == 0 && r.pre == [] && r.build == [] &&
      Semver.LessThan(v, r)
    ensures var r := NextVersion(v, Patch);
      r.major == v.major && r.minor == v.minor && r.patch == v.patch + 1 && r.pre == [] && r.build == [] &&
      Semver.LessThan(v, r)
  {
    Semver.IncreasesPrecedence(v);
  }

  /** Every known type moves the version strictly forward; an unknown one leaves it. */
  lemma NextVersionMonotone(v: Semver.Version, t: Type)
    ensures t in {Major, Minor, Patch} ==> Semver.LessThan(v, NextVersion(v, t))
    ensures t !in {Major, Minor, Patch} ==> NextVersion(v, t) == v
  {
    Semver.IncreasesPrecedence(v);
  }

  /** `ParseReleaseType`: the lower-cased input when it is a known type; otherwise the
      patch type together with an error. */
  function ParseReleaseType(input: string): (r: (Type, Failure))
    ensures r.1.None? <==> ToLower(input) in {Major, Minor, Patch}
    ensures r.1.None? ==> r.0 == ToLower(input)
    ensures r.1.Some? ==> r.0 == Patch && r.1.value == InvalidTypeMessage
  {
    var lower := ToLower(input);
    if lower == Major then (Major, None)
    else if lower == Minor then (Minor, None)
    else if lower == Patch then (Patch, None)
    else (Patch, Some(InvalidTypeMessage))
  }

  lemma ToLowerIdempotent(s: string)
    ensures ToLower(ToLower(s)) == ToLower(s)
  {
  }

  /** Parsing ignores case: an input and its lower-cased form parse alike, and the
      upper-case names are accepted. */
  lemma ParseReleaseTypeIgnoresCase(input: string)
    ensures ParseReleaseType(input) == ParseReleaseType(ToLower(input))
    ensures ParseReleaseType("MAJOR") == (Major, None)
    ensures ParseReleaseType("Minor") == (Minor, None)
  {
    ToLowerIdempotent(input);
    assert ToLower("MAJOR") == "major";
    assert ToLower("Minor") == "minor";
  }

  /** `ResolveReleaseType`: reports the bump and hands back the type it was given,
      never with an error. */
  function ResolveReleaseType(version: Semver.Version, t: Type): (r: (Type, Failure))
    ensures r.0 == t && r.1.None?
  {
    (t, None)
  }
}
