/** `HandleValidate`, the plugin command behind `validate`: whether the configuration
    file is there, whether it loads, and with `--show` what it holds. Loading already
    validates, so the handler's own validation step never fails. */
module ValidateHandler {
  import opened Wrappers
  import opened Effects
  import opened PluginTypes
  import Config
  import ReleaseHandler

  const PluginName := "release"
  const PluginVersion := "1.0.0"
  const NotFound := "No .release.neko.json configuration found"
  const Valid := "✓ Valid"

  function Meta(): Metadata {
    Metadata(PluginName, PluginVersion, "validate")
  }

  function ErrorResponse(code: string, message: string, details: map<string, Value>): (r: Response)
    ensures r.status == "error" && r.metadata == Meta() && r.data == map[]
    ensures r.error == Some(ResponseError(code, message, details))
  {
    Response("error", Meta(), map[], Some(ResponseError(code, message, details)), "", [])
  }

  /** The message of a failure, "" for none. */
  function FailureText(f: Failure): string {
    match f
    case Some(m) => m
    case None => ""
  }

  /** The table of a valid configuration: all of it with `--show`, otherwise just the
      file name; both end with the status row. */
  function ValidResponse(cfg: ReleaseConfig, show: bool): (r: Response)
    ensures r.status == "success" && r.error.None? && r.rendererHint == "table"
    ensures r.data.Keys == {"items"} && r.data["items"].List?
    ensures |r.data["items"].items| == if show then 6 else 2
    ensures r.data["items"].items[|r.data["items"].items| - 1] == ReleaseHandler.Row("Status", Valid)
  {
    var items :=
      if show then [
        ReleaseHandler.Row("Project Name", cfg.projectName),
        ReleaseHandler.Row("Project Owner", cfg.projectOwner),
        ReleaseHandler.Row("Project Type", cfg.projectType),
        ReleaseHandler.Row("Release System", cfg.releaseSystem),
        ReleaseHandler.Row("Version", cfg.version),
        ReleaseHandler.Row("Status", Valid)]
      else [
        ReleaseHandler.Row("Configuration", Config.FileName),
        ReleaseHandler.Row("Status", Valid)];
    Response("success", Meta(), map["items" := List(items)], None, "table", [])
  }

  /** `HandleValidate`, as written: existence, loading, validation, then the table. */
  function HandleValidateSpec(w: World, lib: Library, h: seq<Call>, req: Request): Out<Response> {
    var e := Config.ExistsSpec(w, h);
    if !e.value then
      Out(ErrorResponse("CONFIG_NOT_FOUND", NotFound, map["hint" := Str(ReleaseHandler.InitHint)]), e.calls)
    else
      var load := Config.LoadConfigSpec(w, lib, h + e.calls);
      if load.value.Err? then Out(ErrorResponse("CONFIG_INVALID", load.value.error, map[]), e.calls + load.calls)
      else if Config.Validate(load.value.value).Some? then
        Out(ErrorResponse("VALIDATION_FAILED", FailureText(Config.Validate(load.value.value)), map[]), e.calls + load.calls)
      else
        Out(ValidResponse(load.value.value, ReleaseHandler.GetFlagBool(req.flags, "show")), e.calls + load.calls)
  }

  /** The handler; the validation step of the source is left out here because a
      loaded configuration always passes it (`ValidationNeverFails`). */
  method HandleValidate(sh: Shell, req: Request) returns (resp: Response)
    modifies sh`trace
    ensures Performs(old(sh.trace), sh.trace, resp, HandleValidateSpec(sh.world, sh.lib, old(sh.trace), req))
  {
    var present := Config.Exists(sh);
    if !present {
      return ErrorResponse("CONFIG_NOT_FOUND", NotFound, map["hint" := Str(ReleaseHandler.InitHint)]);
    }
    var cfg := Config.LoadConfig(sh);
    if cfg.Err? {
      return ErrorResponse("CONFIG_INVALID", cfg.error, map[]);
    }
    resp := ValidResponse(cfg.value, ReleaseHandler.GetFlagBool(req.flags, "show"));
  }

  // ---- Properties ---------------------------------------------------------------------

  /** A missing file is reported with CONFIG_NOT_FOUND and the init hint before any
      attempt to load it. */
  lemma MissingFileNotLoaded(w: World, lib: Library, h: seq<Call>, req: Request)
    requires !w(h, Stat(Config.FileName)).Done?
    ensures var r := HandleValidateSpec(w, lib, h, req);
      r.calls == [Ask(w, h, Stat(Config.FileName))] &&
      r.value.error == Some(ResponseError("CONFIG_NOT_FOUND", NotFound, map["hint" := Str(ReleaseHandler.InitHint)]))
  {
  }

  /** Every load failure, a failed validation inside the loader included, is reported
      as CONFIG_INVALID with the loader's message. */
  lemma LoadFailureIsInvalid(w: World, lib: Library, h: seq<Call>, req: Request)
    requires w(h, Stat(Config.FileName)).Done?
    requires Config.LoadConfigSpec(w, lib, h + [Ask(w, h, Stat(Config.FileName))]).value.Err?
    ensures var load := Config.LoadConfigSpec(w, lib, h + [Ask(w, h, Stat(Config.FileName))]);
      HandleValidateSpec(w, lib, h, req).value.error == Some(ResponseError("CONFIG_INVALID", load.value.error, map[]))
  {
  }

  /** VALIDATION_FAILED is never the answer: whatever loads has passed `Validate`. */
  lemma ValidationNeverFails(w: World, lib: Library, h: seq<Call>, req: Request)
    ensures var r := HandleValidateSpec(w, lib, h, req).value;
      r.error.Some? ==> r.error.value.code != "VALIDATION_FAILED"
  {
  }

  /** A configuration that loads is answered with success, six rows with `--show` and
      two without. */
  lemma ValidAnswer(w: World, lib: Library, h: seq<Call>, req: Request)
    requires w(h, Stat(Config.FileName)).Done?
    requires Config.LoadConfigSpec(w, lib, h + [Ask(w, h, Stat(Config.FileName))]).value.Ok?
    ensures var r := HandleValidateSpec(w, lib, h, req).value;
      r.status == "success" &&
      |r.data["items"].items| == if ReleaseHandler.GetFlagBool(req.flags, "show") then 6 else 2
  {
  }
}
