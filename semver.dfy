/** Semantic versions as the release plugin sees them: the grammar its configuration
    check enforces (Semantic Versioning 2.0.0 sections 2, 9 and 10, written there as one
    regular expression), the canonical text form, precedence (section 11) and the three
    increments (sections 6 to 8). */
module Semver {
  import opened Wrappers
  import opened Strs

  /** `major.minor.patch`, the dot-separated pre-release identifiers and the
      dot-separated build identifiers. */
  datatype Version = Version(major: nat, minor: nat, patch: nat, pre: seq<string>, build: seq<string>)

  /** `[0-9A-Za-z-]`, the characters of one identifier. */
  predicate IdentChar(c: char) {
    IsDigit(c) || ('a' <= c <= 'z') || ('A' <= c <= 'Z') || c == '-'
  }

  predicate IsIdent(s: string) {
    s != [] && forall c :: c in s ==> IdentChar(c)
  }

  predicate IdentList(ids: seq<string>) {
    forall i :: 0 <= i < |ids| ==> IsIdent(ids[i])
  }

  /** What the configuration pattern accepts: every identifier non-empty and made of
      identifier characters. (The pattern does not reject numeric pre-release
      identifiers with leading zeros, which section 9 forbids.) */
  predicate WellFormed(v: Version) {
    IdentList(v.pre) && IdentList(v.build)
  }

  /** `0|[1-9]\d*`: a version number without superfluous leading zero. */
  predicate NumericPart(s: string) {
    s != [] && AllDigits(s) && (s[0] == '0' ==> s == "0")
  }

  function PrePart(pre: seq<string>): string {
    if pre == [] then "" else "-" + Join(pre, ".")
  }

  function BuildPart(build: seq<string>): string {
    if build == [] then "" else "+" + Join(build, ".")
  }

  function CoreText(major: nat, minor: nat, patch: nat): string {
    Itoa(major) + "." + Itoa(minor) + "." + Itoa(patch)
  }

  /** The canonical text of a version, the form `Version.String()` writes. */
  function Format(v: Version): string {
    CoreText(v.major, v.minor, v.patch) + PrePart(v.pre) + BuildPart(v.build)
  }

  /** The text before the first `c` and, when there is one, the text after it. */
  function CutAt(s: string, c: char): (r: (string, Option<string>))
    ensures r.1.None? ==> r.0 == s && c !in s
    ensures r.1.Some? ==> s == r.0 + [c] + r.1.value && c !in r.0
  {
    if c in s then
      var i := IndexOf(s, c);
      assert s == s[..i] + [c] + s[i + 1..];
      (s[..i], Some(s[i + 1..]))
    else (s, None)
  }

  lemma CutAtJoined(a: string, c: char, b: string)
    requires c !in a
    ensures CutAt(a + [c] + b, c) == (a, Some(b))
  {
    IndexOfAfter(a, c, b);
    var s := a + [c] + b;
    assert s[..|a|] == a && s[|a| + 1..] == b;
  }

  /** `major.minor.patch`, three numbers without leading zeros. */
  function ParseCore(s: string): Option<(nat, nat, nat)> {
    var p := Split(s, '.');
    if |p| == 3 && NumericPart(p[0]) && NumericPart(p[1]) && NumericPart(p[2]) then
      Some((DigitsValue(p[0]), DigitsValue(p[1]), DigitsValue(p[2])))
    else None
  }

  /** An absent part is the empty list; a present one is one or more dot-separated
      identifiers. */
  function ParseIds(s: Option<string>): (r: Option<seq<string>>)
    ensures r.Some? ==> IdentList(r.value)
  {
    if s.None? then Some([])
    else
      var p := Split(s.value, '.');
      if IdentList(p) then Some(p) else None
  }

  /** The configuration pattern
      `^(0|[1-9]\d*)\.(0|[1-9]\d*)\.(0|[1-9]\d*)(?:-ids)?(?:\+ids)?$`
      as a parser: the first `+` opens the build part, and in front of it the first
      `-` opens the pre-release part. */
  function Parse(s: string): (r: Option<Version>)
    ensures r.Some? ==> WellFormed(r.value)
  {
    var cut := CutAt(s, '+');
    var inner := CutAt(cut.0, '-');
    var nums := ParseCore(inner.0);
    var preIds := ParseIds(inner.1);
    var buildIds := ParseIds(cut.1);
    if nums.Some? && preIds.Some? && buildIds.Some? then
      Some(Version(nums.value.0, nums.value.1, nums.value.2, preIds.value, buildIds.value))
    else None
  }

  /** `regexp.MatchString` of the configuration pattern. */
  predicate MatchesPattern(s: string) {
    Parse(s).Some?
  }

  /** Every well-formed version's text matches the pattern and parses back to it. */
  lemma ParseFormat(v: Version)
    requires WellFormed(v)
    ensures Parse(Format(v)) == Some(v)
  {
    var core := CoreText(v.major, v.minor, v.patch);
    var main := core + PrePart(v.pre);
    CoreTextParses(v.major, v.minor, v.patch);
    PartCuts(core, '-', v.pre);
    PartChars(v.pre);
    assert '+' !in main;
    PartCuts(main, '+', v.build);
  }

  /** Cutting `text + part` at the part's marker gives back the text and the joined ids. */
  lemma PartCuts(text: string, c: char, ids: seq<string>)
    requires c !in text
    requires IdentList(ids)
    ensures var part := if ids == [] then "" else [c] + Join(ids, ".");
      CutAt(text + part, c) == (text, if ids == [] then None else Some(Join(ids, "."))) &&
      ParseIds(if ids == [] then None else Some(Join(ids, "."))) == Some(ids)
  {
    if ids == [] {
      assert text + "" == text;
    } else {
      assert text + ([c] + Join(ids, ".")) == text + [c] + Join(ids, ".");
      CutAtJoined(text, c, Join(ids, "."));
      JoinIdentChars(ids);
      SplitJoin(ids, '.');
    }
  }

  /** A pre-release part has no `+`. */
  lemma PartChars(ids: seq<string>)
    requires IdentList(ids)
    ensures '+' !in PrePart(ids)
  {
    JoinIdentChars(ids);
  }

  /** What the pattern accepts is exactly the text of the version it parses to. */
  lemma FormatParse(s: string)
    requires Parse(s).Some?
    ensures Format(Parse(s).value) == s
  {
    var v := Parse(s).value;
    var cut := CutAt(s, '+');
    var inner := CutAt(cut.0, '-');
    assert ParseIds(cut.1) == Some(v.build) && ParseIds(inner.1) == Some(v.pre);
    assert ParseCore(inner.0) == Some((v.major, v.minor, v.patch));
    CutText(s, '+', v.build);
    CutText(cut.0, '-', v.pre);
    CoreTextOf(inner.0);
    FormatOfParts(v, inner.0, cut.0, s);
  }

  /** Text cut at `c` is the part in front followed by `c` and the identifiers
      behind it, when there are any. */
  lemma CutText(s: string, c: char, ids: seq<string>)
    requires ParseIds(CutAt(s, c).1) == Some(ids)
    ensures s == CutAt(s, c).0 + (if ids == [] then "" else [c] + Join(ids, "."))
  {
    IdsText(CutAt(s, c).1, ids);
  }

  lemma FormatOfParts(v: Version, core: string, main: string, s: string)
    requires core == CoreText(v.major, v.minor, v.patch)
    requires main == core + PrePart(v.pre)
    requires s == main + BuildPart(v.build)
    ensures Format(v) == s
  {
  }

  /** A present part is the joined identifiers behind its marker. */
  lemma IdsText(part: Option<string>, ids: seq<string>)
    requires ParseIds(part) == Some(ids)
    ensures part.None? ==> ids == []
    ensures part.Some? ==> ids != [] && part.value == Join(ids, ".")
  {
    if part.Some? {
      JoinSplit(part.value, '.');
    }
  }

  /** Text the core parser accepts is the text of the numbers it reads. */
  lemma CoreTextOf(core: string)
    requires ParseCore(core).Some?
    ensures var n := ParseCore(core).value; CoreText(n.0, n.1, n.2) == core
  {
    var p := Split(core, '.');
    JoinSplit(core, '.');
    ItoaDigitsValue(p[0]);
    ItoaDigitsValue(p[1]);
    ItoaDigitsValue(p[2]);
    JoinThree(p);
  }

  lemma JoinThree(p: seq<string>)
    requires |p| == 3
    ensures Join(p, ".") == p[0] + "." + p[1] + "." + p[2]
  {
    assert p[1..][1..] == [p[2]];
    assert Join(p[1..], ".") == p[1] + "." + p[2];
  }

  /** The pattern accepts a text exactly when it is the text of a well-formed version. */
  lemma MatchesPatternIff(s: string)
    ensures MatchesPattern(s) <==> exists v :: WellFormed(v) && Format(v) == s
  {
    if MatchesPattern(s) {
      FormatParse(s);
    }
    if exists v :: WellFormed(v) && Format(v) == s {
      var v :| WellFormed(v) && Format(v) == s;
      ParseFormat(v);
    }
  }

  /** The core text has no `-` or `+` and reads back as its numbers. */
  lemma CoreTextParses(a: nat, b: nat, c: nat)
    ensures '-' !in CoreText(a, b, c) && '+' !in CoreText(a, b, c)
    ensures ParseCore(CoreText(a, b, c)) == Some((a, b, c))
  {
    var parts := [Itoa(a), Itoa(b), Itoa(c)];
    JoinThree(parts);
    ItoaChars(a);
    ItoaChars(b);
    ItoaChars(c);
    SplitJoin(parts, '.');
    DigitsValueItoa(a);
    DigitsValueItoa(b);
    DigitsValueItoa(c);
  }

  lemma ItoaChars(n: nat)
    ensures '.' !in Itoa(n) && '-' !in Itoa(n) && '+' !in Itoa(n)
  {
    var s := Itoa(n);
    forall k | 0 <= k < |s|
      ensures s[k] != '.' && s[k] != '-' && s[k] != '+'
    {
      assert IsDigit(s[k]);
    }
  }

  /** Joined identifiers hold only identifier characters and dots. */
  lemma {:induction false} JoinIdentChars(ids: seq<string>)
    requires IdentList(ids)
    ensures forall c :: c in Join(ids, ".") ==> c == '.' || IdentChar(c)
    ensures forall i :: 0 <= i < |ids| ==> '.' !in ids[i]
  {
    if |ids| > 1 {
      JoinIdentChars(ids[1..]);
      assert Join(ids, ".") == ids[0] + "." + Join(ids[1..], ".");
    }
  }

  // Precedence, Semantic Versioning 2.0.0 section 11.

  /** Three-way comparison of naturals. */
  function CmpNat(a: nat, b: nat): int {
    if a < b then -1 else if a > b then 1 else 0
  }

  predicate IsNumericIdent(s: string) {
    s != [] && AllDigits(s)
  }

  /** One pre-release identifier against another: numbers numerically, numbers
      before alphanumerics, alphanumerics in ASCII order. */
  function CmpIdent(a: string, b: string): (r: int)
    ensures -1 <= r <= 1
  {
    if IsNumericIdent(a) && IsNumericIdent(b) then CmpNat(DigitsValue(a), DigitsValue(b))
    else if IsNumericIdent(a) then -1
    else if IsNumericIdent(b) then 1
    else if a == b then 0
    else if LexLess(a, b) then -1
    else 1
  }

  /** Identifier lists field by field; when one is a prefix of the other the longer
      one comes later. */
  function CmpIds(a: seq<string>, b: seq<string>): (r: int)
    ensures -1 <= r <= 1
  {
    if a == [] && b == [] then 0
    else if a == [] then -1
    else if b == [] then 1
    else if CmpIdent(a[0], b[0]) != 0 then CmpIdent(a[0], b[0])
    else CmpIds(a[1..], b[1..])
  }

  /** `Version.Compare`: -1, 0 or 1. A release comes after all of its pre-releases;
      build metadata plays no part. */
  function Compare(a: Version, b: Version): (r: int)
    ensures -1 <= r <= 1
  {
    if a.major != b.major then CmpNat(a.major, b.major)
    else if a.minor != b.minor then CmpNat(a.minor, b.minor)
    else if a.patch != b.patch then CmpNat(a.patch, b.patch)
    else if a.pre == [] && b.pre == [] then 0
    else if a.pre == [] then 1
    else if b.pre == [] then -1
    else CmpIds(a.pre, b.pre)
  }

  /** `Version.LessThan`. */
  predicate LessThan(a: Version, b: Version) {
    Compare(a, b) < 0
  }

  lemma CmpIdentAntisymmetric(a: string, b: string)
    ensures CmpIdent(a, b) == -CmpIdent(b, a)
  {
    if !IsNumericIdent(a) && !IsNumericIdent(b) && a != b {
      LexLessTotal(a, b);
      if LexLess(a, b) && LexLess(b, a) {
        LexLessTransitive(a, b, a);
        LexLessIrreflexive(a);
      }
    }
  }

  lemma CmpIdentTransitive(a: string, b: string, c: string)
    ensures CmpIdent(a, b) <= 0 && CmpIdent(b, c) <= 0 ==> CmpIdent(a, c) <= 0
    ensures CmpIdent(a, b) < 0 && CmpIdent(b, c) <= 0 ==> CmpIdent(a, c) < 0
    ensures CmpIdent(a, b) <= 0 && CmpIdent(b, c) < 0 ==> CmpIdent(a, c) < 0
  {
    if !IsNumericIdent(a) && !IsNumericIdent(b) && !IsNumericIdent(c) {
      if LexLess(a, b) && LexLess(b, c) {
        LexLessTransitive(a, b, c);
      }
      if a == c && a != b && LexLess(a, b) && LexLess(b, c) {
        LexLessIrreflexive(a);
      }
    }
  }

  lemma {:induction false} CmpIdsAntisymmetric(a: seq<string>, b: seq<string>)
    ensures CmpIds(a, b) == -CmpIds(b, a)
  {
    if a != [] && b != [] {
      CmpIdentAntisymmetric(a[0], b[0]);
      CmpIdsAntisymmetric(a[1..], b[1..]);
    }
  }

  lemma {:induction false} CmpIdsTransitive(a: seq<string>, b: seq<string>, c: seq<string>)
    ensures CmpIds(a, b) <= 0 && CmpIds(b, c) <= 0 ==> CmpIds(a, c) <= 0
    ensures CmpIds(a, b) < 0 && CmpIds(b, c) <= 0 ==> CmpIds(a, c) < 0
    ensures CmpIds(a, b) <= 0 && CmpIds(b, c) < 0 ==> CmpIds(a, c) < 0
  {
    if a != [] && b != [] && c != [] {
      CmpIdentTransitive(a[0], b[0], c[0]);
      CmpIdentAntisymmetric(a[0], b[0]);
      CmpIdentAntisymmetric(b[0], c[0]);
      CmpIdentAntisymmetric(a[0], c[0]);
      CmpIdsTransitive(a[1..], b[1..], c[1..]);
    }
  }

  /** Swapping the operands negates the comparison. */
  lemma CompareAntisymmetric(a: Version, b: Version)
    ensures Compare(a, b) == -Compare(b, a)
  {
    CmpIdsAntisymmetric(a.pre, b.pre);
  }

  /** Precedence is transitive. */
  lemma CompareTransitive(a: Version, b: Version, c: Version)
    ensures Compare(a, b) <= 0 && Compare(b, c) <= 0 ==> Compare(a, c) <= 0
    ensures LessThan(a, b) && Compare(b, c) <= 0 ==> LessThan(a, c)
    ensures Compare(a, b) <= 0 && LessThan(b, c) ==> LessThan(a, c)
  {
    CmpIdsTransitive(a.pre, b.pre, c.pre);
  }

  /** Build metadata never decides precedence. */
  lemma CompareIgnoresBuild(a: Version, b: Version, x: seq<string>)
    ensures Compare(a.(build := x), b) == Compare(a, b)
    ensures Compare(a, b.(build := x)) == Compare(a, b)
  {
  }

  /** Equal precedence means equal numbers and pre-release identifiers that compare
      equal field by field. */
  lemma {:induction false} CompareZero(a: Version, b: Version)
    ensures Compare(a, b) == 0 <==>
      a.major == b.major && a.minor == b.minor && a.patch == b.patch &&
      |a.pre| == |b.pre| && forall i :: 0 <= i < |a.pre| ==> CmpIdent(a.pre[i], b.pre[i]) == 0
  {
    CmpIdsZero(a.pre, b.pre);
  }

  lemma {:induction false} CmpIdsZero(a: seq<string>, b: seq<string>)
    ensures CmpIds(a, b) == 0 <==>
      |a| == |b| && forall i :: 0 <= i < |a| ==> CmpIdent(a[i], b[i]) == 0
  {
    if a != [] && b != [] {
      CmpIdsZero(a[1..], b[1..]);
      if |a| == |b| && forall i :: 0 <= i < |a| ==> CmpIdent(a[i], b[i]) == 0 {
        assert CmpIdent(a[0], b[0]) == 0;
        forall i | 0 <= i < |a| - 1
          ensures CmpIdent(a[1..][i], b[1..][i]) == 0
        {
          assert a[1..][i] == a[i + 1] && b[1..][i] == b[i + 1];
        }
      }
      if CmpIds(a, b) == 0 {
        forall i | 0 <= i < |a|
          ensures CmpIdent(a[i], b[i]) == 0
        {
          if i > 0 {
            assert a[1..][i - 1] == a[i] && b[1..][i - 1] == b[i];
          }
        }
      }
    }
  }

  // Increments, Semantic Versioning 2.0.0 sections 6 to 8: the pre-release and build parts
  // are cleared. The patch increment of a pre-release only drops the pre-release:
  // 1.2.3-rc.1 is followed by 1.2.3.

  function IncMajor(v: Version): (r: Version)
    ensures r.major == v.major + 1 && r.minor == 0 && r.patch == 0
    ensures r.pre == [] && r.build == []
  {
    Version(v.major + 1, 0, 0, [], [])
  }

  function IncMinor(v: Version): (r: Version)
    ensures r.major == v.major && r.minor == v.minor + 1 && r.patch == 0
    ensures r.pre == [] && r.build == []
  {
    Version(v.major, v.minor + 1, 0, [], [])
  }

  function IncPatch(v: Version): (r: Version)
    ensures r.major == v.major && r.minor == v.minor
    ensures r.patch == if v.pre == [] then v.patch + 1 else v.patch
    ensures r.pre == [] && r.build == []
  {
    if v.pre == [] then Version(v.major, v.minor, v.patch + 1, [], [])
    else Version(v.major, v.minor, v.patch, [], [])
  }

  /** Each increment of a release gives a strictly later, well-formed version. */
  lemma IncreasesPrecedence(v: Version)
    ensures LessThan(v, IncMajor(v)) && LessThan(v, IncMinor(v)) && LessThan(v, IncPatch(v))
    ensures WellFormed(IncMajor(v)) && WellFormed(IncMinor(v)) && WellFormed(IncPatch(v))
  {
  }

  /** A pre-release comes before the release with the same numbers. */
  lemma PreReleaseBeforeRelease(v: Version)
    requires v.pre != []
    ensures LessThan(v, v.(pre := []))
  {
  }

  /** The pattern tolerates a leading zero in a numeric pre-release identifier. */
  lemma LeadingZeroPreReleaseAccepted()
    ensures MatchesPattern("1.0.0-01")
  {
    var v := Version(1, 0, 0, ["01"], []);
    assert IsIdent("01") by {
      forall c | c in "01"
        ensures IdentChar(c)
      {
      }
    }
    ParseFormat(v);
    LeadingZeroText();
  }

  lemma LeadingZeroText()
    ensures Format(Version(1, 0, 0, ["01"], [])) == "1.0.0-01"
  {
    assert CoreText(1, 0, 0) == "1.0.0";
  }


}
