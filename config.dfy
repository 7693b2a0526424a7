/** The release plugin's configuration file `.release.neko.json`: whether it exists,
    loading it (every loaded configuration is validated), the validation chain and
    saving. */
module Config {
  import opened Wrappers
  import opened Effects
  import NekoConfig
  import Semver

  const FileName := ".release.neko.json"

  /** The messages of a missing and of an invalid configuration open with the kind of
      failure. */
  const NotFound := "configuration not found: "
  const Invalid := "invalid configuration: "

  const NotFoundMessage := NotFound + "No .release.neko.json configuration found. Run 'neko release init' first"
  const BadProjectType := Invalid + "ProjectType is invalid in ..release.neko.json"
  const BadReleaseSystem := Invalid + "ReleaseSystem is invalid in ..release.neko.json"
  const MissingVersion := Invalid + "Version is missing in ..release.neko.json"
  const NotSemver := Invalid + "Version is not a valid semantic version (SemVer)"

  /** `Validate`: the first failing check names the error. */
  function Validate(cfg: ReleaseConfig): (err: Failure)
    ensures !NekoConfig.ProjectTypeValid(cfg.projectType) ==> err == Some(BadProjectType)
    ensures NekoConfig.ProjectTypeValid(cfg.projectType) && !NekoConfig.ReleaseTypeValid(cfg.releaseSystem) ==>
      err == Some(BadReleaseSystem)
    ensures (NekoConfig.ProjectTypeValid(cfg.projectType) && NekoConfig.ReleaseTypeValid(cfg.releaseSystem) &&
             cfg.version == "") ==> err == Some(MissingVersion)
  {
    if !NekoConfig.ProjectTypeValid(cfg.projectType) then Some(BadProjectType)
    else if !NekoConfig.ReleaseTypeValid(cfg.releaseSystem) then Some(BadReleaseSystem)
    else if cfg.version == "" then Some(MissingVersion)
    else if !Semver.MatchesPattern(cfg.version) then Some(NotSemver)
    else None
  }

  /** A configuration passes exactly when both enumerations are valid and the version
      is the text of a well-formed semantic version. */
  lemma ValidateIff(cfg: ReleaseConfig)
    ensures Validate(cfg).None? <==>
      NekoConfig.ProjectTypeValid(cfg.projectType) && NekoConfig.ReleaseTypeValid(cfg.releaseSystem) &&
      exists v :: Semver.WellFormed(v) && Semver.Format(v) == cfg.version
  {
    Semver.MatchesPatternIff(cfg.version);
    if exists v :: Semver.WellFormed(v) && Semver.Format(v) == cfg.version {
      var v :| Semver.WellFormed(v) && Semver.Format(v) == cfg.version;
      FormatNonEmpty(v);
    }
  }

  lemma FormatNonEmpty(v: Semver.Version)
    ensures Semver.Format(v) != ""
  {
    assert Semver.Format(v)[0] == Semver.CoreText(v.major, v.minor, v.patch)[0];
  }

  /** `Exists`: the stat of the file succeeds. */
  function ExistsSpec(w: World, h: seq<Call>): (r: Out<bool>)
    ensures r.calls == [Ask(w, h, Stat(FileName))]
    ensures r.value <==> w(h, Stat(FileName)).Done?
  {
    var c := Ask(w, h, Stat(FileName));
    Out(c.reply.Done?, [c])
  }

  method Exists(sh: Shell) returns (b: bool)
    modifies sh`trace
    ensures Performs(old(sh.trace), sh.trace, b, ExistsSpec(sh.world, old(sh.trace)))
  {
    var r := sh.Do(Stat(FileName));
    b := r.Done?;
  }

  /** `LoadConfig`: a missing file, another read error, a decode error, or the
      validated configuration. */
  function LoadConfigSpec(w: World, lib: Library, h: seq<Call>): (r: Out<Result<ReleaseConfig>>)
    ensures r.calls == [Ask(w, h, ReadFile(FileName))]
    ensures w(h, ReadFile(FileName)).Absent? ==> r.value == Err(NotFoundMessage)
    ensures w(h, ReadFile(FileName)).Done? ==>
      (r.value.Ok? <==> lib.decodeConfig(w(h, ReadFile(FileName)).out).Ok? &&
                        Validate(lib.decodeConfig(w(h, ReadFile(FileName)).out).value).None?)
    ensures r.value.Ok? ==> Validate(r.value.value).None?
  {
    var c := Ask(w, h, ReadFile(FileName));
    var res :=
      match c.reply
      case Done(data) =>
        (match lib.decodeConfig(data)
         case Err(e) => Err("configuration parse error: " + e)
         case Ok(cfg) => if Validate(cfg).Some? then Err(Validate(cfg).value) else Ok(cfg))
      case Absent(_) => Err(NotFoundMessage)
      case _ => Err("configuration read error: " + ErrorText(c.reply));
    Out(res, [c])
  }

  method LoadConfig(sh: Shell) returns (r: Result<ReleaseConfig>)
    modifies sh`trace
    ensures Performs(old(sh.trace), sh.trace, r, LoadConfigSpec(sh.world, sh.lib, old(sh.trace)))
  {
    var reply := sh.Do(ReadFile(FileName));
    match reply {
      case Done(data) =>
        var d := sh.lib.decodeConfig(data);
        if d.Err? {
          return Err("configuration parse error: " + d.error);
        }
        var err := Validate(d.value);
        if err.Some? {
          return Err(err.value);
        }
        return Ok(d.value);
      case Absent(_) =>
        return Err(NotFoundMessage);
      case _ =>
        return Err("configuration read error: " + ErrorText(reply));
    }
  }

  /** Every loaded configuration passes `Validate`; a file that is there but cannot be
      read is never reported as missing. */
  lemma LoadConfigValid(w: World, lib: Library, h: seq<Call>)
    ensures var r := LoadConfigSpec(w, lib, h).value;
      (r.Ok? ==> Validate(r.value).None?) &&
      (r == Err(NotFoundMessage) <==> w(h, ReadFile(FileName)).Absent?)
  {
    var reply := w(h, ReadFile(FileName));
    assert NotFoundMessage[0] == 'c' && NotFoundMessage[14] == 'n';
    if reply.Done? {
      var d := lib.decodeConfig(reply.out);
      if d.Err? {
        assert ("configuration parse error: " + d.error)[14] == 'p';
      } else if Validate(d.value).Some? {
        assert Validate(d.value).value[0] == 'i';
      }
    } else if !reply.Absent? {
      assert ("configuration read error: " + ErrorText(reply))[14] == 'r';
    }
  }

  /** `SaveConfig`: writes the file; a failed write is an error. */
  function SaveConfigSpec(w: World, h: seq<Call>, cfg: ReleaseConfig): (r: Out<Failure>)
    ensures r.calls == [Ask(w, h, SaveReleaseConfig(cfg))]
    ensures r.value.None? <==> w(h, SaveReleaseConfig(cfg)).Done?
  {
    var c := Ask(w, h, SaveReleaseConfig(cfg));
    Out(if c.reply.Done? then None else Some("configuration write failed: " + ErrorText(c.reply)), [c])
  }

  method SaveConfig(sh: Shell, cfg: ReleaseConfig) returns (err: Failure)
    modifies sh`trace
    ensures Performs(old(sh.trace), sh.trace, err, SaveConfigSpec(sh.world, old(sh.trace), cfg))
  {
    var reply := sh.Do(SaveReleaseConfig(cfg));
    err := if reply.Done? then None else Some("configuration write failed: " + ErrorText(reply));
  }
}
