/** Human-facing error printing on stderr. A message-less error prints nothing; a
    warning never ends the process; an error or a fatal error ends it with status 1. */
module CliErrors {
  import opened Effects

  const LevelWarning := 0
  const LevelError := 1
  const LevelFatal := 2

  datatype CliError = CliError(title: string, message: string, code: string, level: int)

  /** The heading word for a level; an unknown level has none. */
  function Prefix(level: int): (p: string)
    ensures level == LevelWarning ==> p == "⚠ WARNING"
    ensures level == LevelError ==> p == "✗ ERROR"
    ensures level == LevelFatal ==> p == "✗ FATAL"
    ensures level !in {LevelWarning, LevelError, LevelFatal} ==> p == ""
  {
    if level == LevelWarning then "⚠ WARNING"
    else if level == LevelError then "✗ ERROR"
    else if level == LevelFatal then "✗ FATAL"
    else ""
  }

  /** The lines printed, colour codes left out: heading with optional title, the
      message, the optional error code and a blank line. */
  function Lines(e: CliError): (lines: seq<string>)
    ensures |lines| == (if e.code == "" then 3 else 4)
    ensures lines[1] == e.message && lines[|lines| - 1] == ""
  {
    [Prefix(e.level) + (if e.title == "" then "" else ": " + e.title), e.message]
    + (if e.code == "" then [] else ["Error Code: " + e.code])
    + [""]
  }

  /** `PrintError`: whether it ends the process, with the calls it makes. */
  function PrintErrorSpec(w: World, h: seq<Call>, e: CliError): (r: Out<bool>)
    ensures e.message == "" ==> r == Out(false, [])
    ensures r.value <==> e.message != "" && (e.level == LevelError || e.level == LevelFatal)
    ensures e.message != "" ==> |r.calls| >= 1 && r.calls[0].effect == StderrLines(Lines(e))
    ensures r.value ==> |r.calls| == 2 && r.calls[1].effect == Exit(1)
    ensures !r.value ==> |r.calls| <= 1
  {
    if e.message == "" then Out(false, [])
    else
      var c1 := Ask(w, h, StderrLines(Lines(e)));
      if e.level == LevelFatal || e.level == LevelError then
        Out(true, [c1, Ask(w, h + [c1], Exit(1))])
      else Out(false, [c1])
  }

  method PrintError(sh: Shell, e: CliError) returns (exited: bool)
    modifies sh`trace
    ensures Performs(old(sh.trace), sh.trace, exited, PrintErrorSpec(sh.world, old(sh.trace), e))
  {
    if e.message == "" {
      return false;
    }
    var _ := sh.Do(StderrLines(Lines(e)));
    if e.level == LevelFatal || e.level == LevelError {
      var _ := sh.Do(Exit(1));
      return true;
    }
    return false;
  }

  /** `Warning`: never ends the process. */
  method Warning(sh: Shell, title: string, message: string)
    modifies sh`trace
    ensures sh.trace == old(sh.trace) + WarningCalls(sh.world, old(sh.trace), title, message)
  {
    var exited := PrintError(sh, CliError(title, message, "", LevelWarning));
  }

  /** `Error`: ends the process exactly when there is a message. */
  method Error(sh: Shell, title: string, message: string, code: string) returns (exited: bool)
    modifies sh`trace
    ensures exited <==> message != ""
    ensures sh.trace == old(sh.trace) + PrintErrorSpec(sh.world, old(sh.trace), CliError(title, message, code, LevelError)).calls
  {
    exited := PrintError(sh, CliError(title, message, code, LevelError));
  }

  /** The calls of `errors.Warning(title, message)`: the warning's lines on stderr,
      nothing for an empty message, and never an exit. */
  function WarningCalls(w: World, h: seq<Call>, title: string, message: string): (calls: seq<Call>)
    ensures message == "" ==> calls == []
    ensures message != "" ==> calls == [Ask(w, h, StderrLines(Lines(CliError(title, message, "", LevelWarning))))]
  {
    PrintErrorSpec(w, h, CliError(title, message, "", LevelWarning)).calls
  }

  /** A warning prints at most its lines and never exits, whatever its contents. */
  lemma WarningNeverExits(w: World, h: seq<Call>, title: string, message: string)
    ensures var r := PrintErrorSpec(w, h, CliError(title, message, "", LevelWarning));
      !r.value && forall i :: 0 <= i < |r.calls| ==> !r.calls[i].effect.Exit?
  {
  }
}
