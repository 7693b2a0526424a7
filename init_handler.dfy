/** `HandleInit`, the plugin command behind `init`: it takes the configuration from
    the request's flags instead of prompting, refuses to overwrite an existing file
    without `--force`, fills in the repository owner and name when git knows them,
    validates and saves the configuration, then initialises the chosen release
    system. Every outcome is a response. */
module InitHandler {
  import opened Wrappers
  import opened Effects
  import opened PluginTypes
  import NekoConfig
  import Config
  import Git
  import Registry
  import ReleaseHandler

  /** The file name the handler reports; it carries one dot too many. */
  const ConfigFileName := "..release.neko.json"
  const PluginName := "release"
  const PluginVersion := "1.0.0"

  const MissingProjectType := "missing required flag: --project-type (frontend|backend|other)"
  const MissingReleaseSystem := "missing required flag: --release-system (release-it|jreleaser|goreleaser)"
  const DefaultVersion := "0.1.0"

  function InvalidProjectType(p: string): string {
    "invalid project type: " + p + " (must be: frontend, backend, or other)"
  }

  function InvalidReleaseSystem(s: string): string {
    "invalid release system: " + s + " (must be: release-it, jreleaser, or goreleaser)"
  }

  /** `getFlagString`: the flag's text when it is present and a string, else "". */
  function GetFlagString(flags: map<string, Value>, key: string): (s: string)
    ensures key in flags && flags[key].Str? ==> s == flags[key].s
    ensures !(key in flags && flags[key].Str?) ==> s == ""
  {
    if key in flags && flags[key].Str? then flags[key].s else ""
  }

  /** `buildConfigFromFlags`: project type, then release system, each first checked
      for presence and then for validity; the version defaults to 0.1.0. */
  function BuildConfigFromFlags(flags: map<string, Value>): (r: Result<ReleaseConfig>)
    ensures r.Ok? <==> NekoConfig.ProjectTypeValid(GetFlagString(flags, "project-type")) &&
                       NekoConfig.ReleaseTypeValid(GetFlagString(flags, "release-system"))
    ensures r.Ok? ==> (r.value.projectOwner == "" && r.value.projectName == "" &&
                       r.value.projectType == GetFlagString(flags, "project-type") &&
                       r.value.releaseSystem == GetFlagString(flags, "release-system") &&
                       r.value.version != "")
  {
    var projectType := GetFlagString(flags, "project-type");
    if projectType == "" then Err(MissingProjectType)
    else if !NekoConfig.ProjectTypeValid(projectType) then Err(InvalidProjectType(projectType))
    else
      var releaseSystem := GetFlagString(flags, "release-system");
      if releaseSystem == "" then Err(MissingReleaseSystem)
      else if !NekoConfig.ReleaseTypeValid(releaseSystem) then Err(InvalidReleaseSystem(releaseSystem))
      else
        var version := GetFlagString(flags, "version");
        Ok(ReleaseConfig("", "", projectType, releaseSystem, if version == "" then DefaultVersion else version))
  }

  /** `buildNextSteps`: a fixed first line, a line for the release system when it is
      one of the three, and the line naming the configuration file. */
  function BuildNextSteps(cfg: ReleaseConfig): (steps: seq<string>)
    ensures |steps| == (if NekoConfig.ReleaseTypeValid(cfg.releaseSystem) then 3 else 2)
    ensures steps[0] == "Use 'neko release' to create a release"
    ensures steps[|steps| - 1] == "The version in " + ConfigFileName + " is the single source of truth"
  {
    var system :=
      match cfg.releaseSystem
      case "release-it" => ["Neko will manage version in: package.json, .release-it.json"]
      case "jreleaser" => ["Neko will manage version in: jreleaser.yml, pom.xml / build.gradle"]
      case "goreleaser" => ["Neko will manage version in: .goreleaser.yml, Git tags"]
      case _ => [];
    ["Use 'neko release' to create a release"] + system +
      ["The version in " + ConfigFileName + " is the single source of truth"]
  }

  function Meta(): Metadata {
    Metadata(PluginName, PluginVersion, "init")
  }

  function ErrorResponse(code: string, message: string, details: map<string, Value>): (r: Response)
    ensures r.status == "error" && r.metadata == Meta() && r.data == map[]
    ensures r.error == Some(ResponseError(code, message, details))
  {
    Response("error", Meta(), map[], Some(ResponseError(code, message, details)), "", [])
  }

  /** The flags INVALID_FLAGS lists. */
  const FlagDetails: map<string, Value> := map[
    "required_flags" := List([Str("project-type"), Str("release-system")]),
    "optional_flags" := List([Str("version"), Str("force")])]

  function Texts(s: seq<string>): (r: seq<Value>)
    ensures |r| == |s| && forall i :: 0 <= i < |s| ==> r[i] == Str(s[i])
  {
    if s == [] then [] else [Str(s[0])] + Texts(s[1..])
  }

  /** The answer to a completed initialisation. */
  function InitializedResponse(cfg: ReleaseConfig): (r: Response)
    ensures r.status == "success" && r.error.None? && r.rendererHint == "text"
    ensures r.data.Keys == {"config_file", "project_name", "project_owner", "project_type",
                            "release_system", "version", "next_steps"}
    ensures r.data["version"] == Str(cfg.version) && r.data["release_system"] == Str(cfg.releaseSystem)
  {
    Response("success", Meta(), map[
      "config_file" := Str(ConfigFileName),
      "project_name" := Str(cfg.projectName),
      "project_owner" := Str(cfg.projectOwner),
      "project_type" := Str(cfg.projectType),
      "release_system" := Str(cfg.releaseSystem),
      "version" := Str(cfg.version),
      "next_steps" := List(Texts(BuildNextSteps(cfg)))], None, "text", [])
  }

  /** The configuration with the repository's owner and name, when git found them. */
  function WithRepo(cfg: ReleaseConfig, repo: Result<Git.RepoInfo>): (c: ReleaseConfig)
    ensures repo.Ok? ==> c == cfg.(projectOwner := repo.value.owner, projectName := repo.value.repo)
    ensures repo.Err? ==> c == cfg
  {
    if repo.Ok? then cfg.(projectOwner := repo.value.owner, projectName := repo.value.repo) else cfg
  }

  /** After the configuration is saved: the release system looked up in the registry,
      and its `Init`, whose error is only logged. The second component is what the tool
      then holds. */
  function SetUpSpec(w: World, h: seq<Call>, found: Result<Registry.Snapshot>, cfg: ReleaseConfig): (r: Out<(Response, Option<Registry.Snapshot>)>)
    ensures found.Err? <==> r.value.1.None?
    ensures found.Err? ==> (r.calls == [] &&
      r.value.0 == ErrorResponse("RELEASE_SYSTEM_ERROR", "Release system not found: " + found.error, map[]))
    ensures found.Ok? ==> r.value.0 == InitializedResponse(cfg)
  {
    if found.Err? then Out((ErrorResponse("RELEASE_SYSTEM_ERROR", "Release system not found: " + found.error, map[]), None), [])
    else
      var i := Registry.InitSpec(w, h, found.value, cfg);
      Out((InitializedResponse(cfg), Some(i.value.0)), i.calls)
  }

  /** Once the flags gave a configuration: the repository lookup, validation, saving,
      then the release system. */
  function ConfigureSpec(w: World, h: seq<Call>, found: Result<Registry.Snapshot>, built: ReleaseConfig): Out<(Response, Option<Registry.Snapshot>)> {
    var cur := Git.CurrentSpec(w, h);
    var cfg := WithRepo(built, cur.value);
    var invalid := Config.Validate(cfg);
    if invalid.Some? then
      Out((ErrorResponse("VALIDATION_ERROR", invalid.value, map[]), None), cur.calls)
    else
      var save := Config.SaveConfigSpec(w, h + cur.calls, cfg);
      if save.value.Some? then
        Out((ErrorResponse("SAVE_ERROR", "Failed to save configuration: " + save.value.value, map[]), None),
            cur.calls + save.calls)
      else
        var rest := SetUpSpec(w, h + cur.calls + save.calls, found, cfg);
        Out(rest.value, cur.calls + save.calls + rest.calls)
  }

  /** `HandleInit`, given what the registry holds under the requested release system. */
  function HandleInitSpec(w: World, lib: Library, h: seq<Call>, found: Result<Registry.Snapshot>, req: Request): Out<(Response, Option<Registry.Snapshot>)> {
    var force := ReleaseHandler.GetFlagBool(req.flags, "force");
    var exists_ := Config.ExistsSpec(w, h);
    if exists_.value && !force then
      Out((ErrorResponse("CONFIG_EXISTS", ConfigFileName + " already exists. Use --force to overwrite.", map[]), None), exists_.calls)
    else
      var built := BuildConfigFromFlags(req.flags);
      if built.Err? then Out((ErrorResponse("INVALID_FLAGS", built.error, FlagDetails), None), exists_.calls)
      else
        var rest := ConfigureSpec(w, h + exists_.calls, found, built.value);
        Out(rest.value, exists_.calls + rest.calls)
  }

  /** The release system a request names. */
  function RequestedSystem(req: Request): string {
    GetFlagString(req.flags, "release-system")
  }

  method SetUp(sh: Shell, reg: Registry.Registry, cfg: ReleaseConfig) returns (resp: Response)
    modifies sh`trace, Registry.Footprint(reg.tools)
    ensures reg.tools == old(reg.tools)
    ensures var r := SetUpSpec(sh.world, old(sh.trace), old(Registry.Find(reg.tools, cfg.releaseSystem)), cfg);
      sh.trace == old(sh.trace) + r.calls && resp == r.value.0 &&
      (r.value.1.Some? ==> Registry.Snap(reg.tools[cfg.releaseSystem]) == r.value.1.value)
  {
    var tool := reg.Get(cfg.releaseSystem);
    if tool.Err? {
      return ErrorResponse("RELEASE_SYSTEM_ERROR", "Release system not found: " + tool.error, map[]);
    }
    assert tool.value in reg.tools.Values;
    var _ := Registry.Init(sh, tool.value, cfg);
    resp := InitializedResponse(cfg);
  }

  method Configure(sh: Shell, reg: Registry.Registry, built: ReleaseConfig) returns (resp: Response)
    modifies sh`trace, Registry.Footprint(reg.tools)
    ensures reg.tools == old(reg.tools)
    ensures var r := ConfigureSpec(sh.world, old(sh.trace), old(Registry.Find(reg.tools, built.releaseSystem)), built);
      sh.trace == old(sh.trace) + r.calls && resp == r.value.0 &&
      (r.value.1.Some? ==> Registry.Snap(reg.tools[built.releaseSystem]) == r.value.1.value)
  {
    ghost var h := sh.trace;
    var cur := Git.Current(sh);
    var cfg := WithRepo(built, cur);
    var invalid := Config.Validate(cfg);
    if invalid.Some? {
      return ErrorResponse("VALIDATION_ERROR", invalid.value, map[]);
    }
    var saveErr := Config.SaveConfig(sh, cfg);
    if saveErr.Some? {
      return ErrorResponse("SAVE_ERROR", "Failed to save configuration: " + saveErr.value, map[]);
    }
    ghost var cs := Git.CurrentSpec(sh.world, h);
    ghost var ss := Config.SaveConfigSpec(sh.world, h + cs.calls, cfg);
    ghost var done := cs.calls + ss.calls;
    assert sh.trace == h + done;
    ghost var found := Registry.Find(reg.tools, built.releaseSystem);
    assert found == old(Registry.Find(reg.tools, built.releaseSystem));
    ghost var rest := SetUpSpec(sh.world, h + done, found, cfg);
    assert ConfigureSpec(sh.world, h, found, built) == Out(rest.value, done + rest.calls);
    resp := SetUp(sh, reg, cfg);
    assert sh.trace == h + done + rest.calls;
    AppendAssoc(h, done, rest.calls);
  }

  method HandleInit(sh: Shell, reg: Registry.Registry, req: Request) returns (resp: Response)
    modifies sh`trace, Registry.Footprint(reg.tools)
    ensures reg.tools == old(reg.tools)
    ensures var r := HandleInitSpec(sh.world, sh.lib, old(sh.trace), old(Registry.Find(reg.tools, RequestedSystem(req))), req);
      sh.trace == old(sh.trace) + r.calls && resp == r.value.0 &&
      (r.value.1.Some? ==> Registry.Snap(reg.tools[RequestedSystem(req)]) == r.value.1.value)
  {
    ghost var h := sh.trace;
    var force := ReleaseHandler.GetFlagBool(req.flags, "force");
    var exists_ := Config.Exists(sh);
    if exists_ && !force {
      return ErrorResponse("CONFIG_EXISTS", ConfigFileName + " already exists. Use --force to overwrite.", map[]);
    }
    var built := BuildConfigFromFlags(req.flags);
    if built.Err? {
      return ErrorResponse("INVALID_FLAGS", built.error, FlagDetails);
    }
    ghost var e := sh.trace[|h|..];
    assert sh.trace == h + e;
    ghost var found := Registry.Find(reg.tools, built.value.releaseSystem);
    assert found == old(Registry.Find(reg.tools, RequestedSystem(req)));
    ghost var rest := ConfigureSpec(sh.world, h + e, found, built.value);
    assert HandleInitSpec(sh.world, sh.lib, h, found, req) == Out(rest.value, e + rest.calls);
    resp := Configure(sh, reg, built.value);
    assert sh.trace == h + e + rest.calls;
    AppendAssoc(h, e, rest.calls);
  }

  /** `GetAvailableOptions`: the four init options and the recommended release system
      for each project type. */
  function AvailableOptions(): (r: Response)
    ensures r.status == "success" && r.metadata.command == "init-options" && r.rendererHint == "table"
    ensures r.data.Keys == {"items", "recommendations"}
    ensures r.data["items"].List? && |r.data["items"].items| == 4
    ensures r.data["recommendations"].Obj? &&
      r.data["recommendations"].fields.Keys == {NekoConfig.Frontend, NekoConfig.Backend, NekoConfig.Other}
  {
    Response("success", Metadata(PluginName, PluginVersion, "init-options"), map[
      "items" := List([
        OptionRow("project-type", "frontend, backend, other", true, "Type of project being released"),
        OptionRow("release-system", "release-it, jreleaser, goreleaser", true, "Release tool to use"),
        OptionRow("version", "semver (e.g. 0.1.0)", false, "Initial version (default: 0.1.0)"),
        OptionRow("force", "true, false", false, "Overwrite existing config")]),
      "recommendations" := Obj(map[
        NekoConfig.Frontend := Str(NekoConfig.ReleaseIt),
        NekoConfig.Backend := Str(NekoConfig.JReleaser),
        NekoConfig.Other := Str(NekoConfig.GoReleaser)])], None, "table", [])
  }

  function OptionRow(name: string, values: string, required: bool, description: string): Value {
    Obj(map["option" := Str(name), "values" := Str(values), "required" := Bool(required), "description" := Str(description)])
  }

  // ---- Properties ---------------------------------------------------------------------

  /** An existing configuration without `--force` is refused with CONFIG_EXISTS after
      the one existence check, and nothing is written. */
  lemma ExistingConfigRefused(w: World, lib: Library, h: seq<Call>, found: Result<Registry.Snapshot>, req: Request)
    requires Config.ExistsSpec(w, h).value && !ReleaseHandler.GetFlagBool(req.flags, "force")
    ensures var r := HandleInitSpec(w, lib, h, found, req);
      r.calls == [Ask(w, h, Stat(Config.FileName))] && r.value.1.None? &&
      r.value.0.error.Some? && r.value.0.error.value.code == "CONFIG_EXISTS"
  {
  }

  /** The flag checks come in a fixed order: missing project type, invalid project
      type, missing release system, invalid release system. */
  lemma FlagChecksInOrder(flags: map<string, Value>)
    ensures var p := GetFlagString(flags, "project-type");
      var s := GetFlagString(flags, "release-system");
      var r := BuildConfigFromFlags(flags);
      (p == "" ==> r == Err(MissingProjectType)) &&
      (p != "" && !NekoConfig.ProjectTypeValid(p) ==> r == Err(InvalidProjectType(p))) &&
      (NekoConfig.ProjectTypeValid(p) && s == "" ==> r == Err(MissingReleaseSystem)) &&
      (NekoConfig.ProjectTypeValid(p) && s != "" && !NekoConfig.ReleaseTypeValid(s) ==> r == Err(InvalidReleaseSystem(s)))
  {
  }

  /** Without a version flag (or with an empty one) the version is 0.1.0; otherwise the
      flag's text is taken as it is. */
  lemma VersionDefaults(flags: map<string, Value>)
    requires BuildConfigFromFlags(flags).Ok?
    ensures var v := GetFlagString(flags, "version");
      BuildConfigFromFlags(flags).value.version == if v == "" then DefaultVersion else v
  {
  }

  /** Flags that do not make a configuration are answered with INVALID_FLAGS, the
      builder's message and the list of required and optional flags. */
  lemma BadFlagsListed(w: World, lib: Library, h: seq<Call>, found: Result<Registry.Snapshot>, req: Request)
    requires !(Config.ExistsSpec(w, h).value && !ReleaseHandler.GetFlagBool(req.flags, "force"))
    requires BuildConfigFromFlags(req.flags).Err?
    ensures var r := HandleInitSpec(w, lib, h, found, req);
      r.calls == Config.ExistsSpec(w, h).calls &&
      r.value.0.error == Some(ResponseError("INVALID_FLAGS", BuildConfigFromFlags(req.flags).error, FlagDetails))
  {
  }

  /** The saved configuration carries the repository's owner and name exactly when git
      reported them, and stays empty there otherwise. */
  lemma SavedConfigHasRepo(w: World, h: seq<Call>, found: Result<Registry.Snapshot>, built: ReleaseConfig)
    ensures var cur := Git.CurrentSpec(w, h);
      var cfg := WithRepo(built, cur.value);
      var r := ConfigureSpec(w, h, found, built);
      Config.Validate(cfg).None? ==>
        |r.calls| >= 2 && r.calls[1].effect == SaveReleaseConfig(cfg) &&
        (cur.value.Ok? ==> cfg.projectOwner == cur.value.value.owner && cfg.projectName == cur.value.value.repo) &&
        (cur.value.Err? ==> cfg.projectOwner == built.projectOwner && cfg.projectName == built.projectName)
  {
    var cfg := WithRepo(built, Git.CurrentSpec(w, h).value);
    if Config.Validate(cfg).None? {
      ConfigureSaves(w, h, found, built);
    }
  }

  /** A valid configuration is saved by the call right after the repository lookup. */
  lemma ConfigureSaves(w: World, h: seq<Call>, found: Result<Registry.Snapshot>, built: ReleaseConfig)
    requires Config.Validate(WithRepo(built, Git.CurrentSpec(w, h).value)).None?
    ensures var r := ConfigureSpec(w, h, found, built);
      |r.calls| >= 2 && r.calls[1].effect == SaveReleaseConfig(WithRepo(built, Git.CurrentSpec(w, h).value))
  {
    var cur := Git.CurrentSpec(w, h);
    if Config.SaveConfigSpec(w, h + cur.calls, WithRepo(built, cur.value)).value.Some? {
      ConfigureCallsUnsaved(w, h, found, built);
    } else {
      ConfigureCallsSaved(w, h, found, built);
    }
  }

  /** The calls of a valid configuration whose save failed: the lookup, then the save. */
  lemma ConfigureCallsUnsaved(w: World, h: seq<Call>, found: Result<Registry.Snapshot>, built: ReleaseConfig)
    requires Config.Validate(WithRepo(built, Git.CurrentSpec(w, h).value)).None?
    requires var cur := Git.CurrentSpec(w, h);
      Config.SaveConfigSpec(w, h + cur.calls, WithRepo(built, cur.value)).value.Some?
    ensures var cur := Git.CurrentSpec(w, h);
      ConfigureSpec(w, h, found, built).calls == cur.calls + Config.SaveConfigSpec(w, h + cur.calls, WithRepo(built, cur.value)).calls
    ensures var r := ConfigureSpec(w, h, found, built);
      |r.calls| >= 2 && r.calls[1].effect == SaveReleaseConfig(WithRepo(built, Git.CurrentSpec(w, h).value))
  {
  }

  /** The calls of a valid configuration that was saved: the lookup, the save, then
      those of setting up the release system. */
  lemma ConfigureCallsSaved(w: World, h: seq<Call>, found: Result<Registry.Snapshot>, built: ReleaseConfig)
    requires Config.Validate(WithRepo(built, Git.CurrentSpec(w, h).value)).None?
    requires var cur := Git.CurrentSpec(w, h);
      Config.SaveConfigSpec(w, h + cur.calls, WithRepo(built, cur.value)).value.None?
    ensures var cur := Git.CurrentSpec(w, h);
      var cfg := WithRepo(built, cur.value);
      var save := Config.SaveConfigSpec(w, h + cur.calls, cfg);
      ConfigureSpec(w, h, found, built).calls == cur.calls + save.calls + SetUpSpec(w, h + cur.calls + save.calls, found, cfg).calls
    ensures var r := ConfigureSpec(w, h, found, built);
      |r.calls| >= 2 && r.calls[1].effect == SaveReleaseConfig(WithRepo(built, Git.CurrentSpec(w, h).value))
  {
  }

  /** Once the flags are accepted only the version can fail validation, and then
      nothing is saved. */
  lemma OnlyVersionCanBeInvalid(w: World, lib: Library, h: seq<Call>, found: Result<Registry.Snapshot>, req: Request)
    requires !(Config.ExistsSpec(w, h).value && !ReleaseHandler.GetFlagBool(req.flags, "force"))
    requires BuildConfigFromFlags(req.flags).Ok?
    ensures var r := HandleInitSpec(w, lib, h, found, req);
      r.value.0.error.Some? && r.value.0.error.value.code == "VALIDATION_ERROR" ==>
        r.value.0.error.value.message == Config.NotSemver &&
        forall i :: 0 <= i < |r.calls| ==> !r.calls[i].effect.SaveReleaseConfig?
  {
  }

  /** A release system error can only come after the configuration was saved: the
      call before the lookup is a successful save. */
  lemma SystemErrorAfterSave(w: World, h: seq<Call>, found: Result<Registry.Snapshot>, built: ReleaseConfig)
    ensures var r := ConfigureSpec(w, h, found, built);
      r.value.0.error.Some? && r.value.0.error.value.code == "RELEASE_SYSTEM_ERROR" ==>
        |r.calls| == 2 && r.calls[1].effect.SaveReleaseConfig? && r.calls[1].reply.Done?
  {
  }

  /** A release system whose `Init` fails does not change the answer: it is the
      success response of the saved configuration all the same. */
  lemma InitErrorIgnored(w: World, h: seq<Call>, s: Registry.Snapshot, cfg: ReleaseConfig)
    ensures SetUpSpec(w, h, Ok(s), cfg).value.0 == InitializedResponse(cfg)
    ensures SetUpSpec(w, h, Ok(s), cfg).value.0.status == "success"
  {
  }

  /** Each valid release system has its own line in the next steps, and a name that is
      none of them gets no line. */
  lemma {:induction false} NextStepsPerSystem(cfg: ReleaseConfig, other: ReleaseConfig)
    requires NekoConfig.ReleaseTypeValid(cfg.releaseSystem) && NekoConfig.ReleaseTypeValid(other.releaseSystem)
    requires cfg.releaseSystem != other.releaseSystem
    ensures BuildNextSteps(cfg)[1] != BuildNextSteps(other)[1]
  {
    var a := BuildNextSteps(cfg)[1];
    var b := BuildNextSteps(other)[1];
    assert a[29] != b[29];
  }
}
