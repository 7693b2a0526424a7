/** Log lines a plugin writes to stderr for the gateway to collect:
    `<time> <coloured [category]> <message>`. Verbose lines carry a coloured `V$`
    marker and are written only when verbose output is switched on. */
module PluginLog {
  import opened Wrappers
  import opened Strs
  import opened Effects

  const Init := "init"
  const Config := "config"
  const Preflight := "pre-flight"
  const Guard := "guard"
  const Exec := "exec"

  /** Colours are named by their constants; their escape codes are not modelled. */
  const ColorReset := "ColorReset"
  const ColorPurple := "ColorPurple"

  const CategoryColors: map<string, string> := map[
    Init := "ColorBrightYellow",
    Config := "ColorBrightCyan",
    Preflight := "ColorBrightYellow",
    Guard := "ColorBrightBlue",
    Exec := "ColorBrightGreen"]

  /** The colour of a category, `ColorReset` for an unknown one. */
  function CategoryColor(cat: string): (c: string)
    ensures cat in CategoryColors ==> c == CategoryColors[cat]
    ensures cat !in CategoryColors ==> c == ColorReset
  {
    if cat in CategoryColors then CategoryColors[cat] else ColorReset
  }

  /** The one line `PluginPrint` writes. */
  function PrintLine(colorText: (string, string) -> string, time: string, cat: string, msg: string): string {
    time + " " + colorText(CategoryColor(cat), "[" + cat + "]") + " " + msg
  }

  /** The line starts with the time and a space and ends with a space and the message;
      it is a single line when none of its parts holds a newline. */
  lemma PrintLineShape(colorText: (string, string) -> string, time: string, cat: string, msg: string)
    ensures var line := PrintLine(colorText, time, cat, msg);
      HasPrefix(line, time + " ") && HasSuffix(line, " " + msg) &&
      (('\n' !in time && '\n' !in colorText(CategoryColor(cat), "[" + cat + "]") && '\n' !in msg) ==> '\n' !in line)
  {
    var line := PrintLine(colorText, time, cat, msg);
    var mid := colorText(CategoryColor(cat), "[" + cat + "]");
    assert line == (time + " ") + (mid + " " + msg);
    assert line == (time + " " + mid) + (" " + msg);
  }

  /** `PluginPrint`: one line on stderr. The time of day is a parameter. */
  method PluginPrint(sh: Shell, time: string, cat: string, msg: string)
    modifies sh`trace
    ensures sh.trace == old(sh.trace) + [Ask(sh.world, old(sh.trace), StderrLines([PrintLine(sh.lib.colorText, time, cat, msg)]))]
  {
    var _ := sh.Do(StderrLines([PrintLine(sh.lib.colorText, time, cat, msg)]));
  }

  /** The message of a verbose line: the coloured marker, a space, the message. */
  function VerboseMessage(colorText: (string, string) -> string, msg: string): string {
    colorText(ColorPurple, "V$") + " " + msg
  }

  /** `PluginV`: nothing unless verbose; otherwise `PluginPrint` of the marked message. */
  method PluginV(sh: Shell, time: string, cat: string, msg: string)
    modifies sh`trace
    ensures !sh.verbose ==> sh.trace == old(sh.trace)
    ensures sh.verbose ==>
      sh.trace == old(sh.trace) + [Ask(sh.world, old(sh.trace),
        StderrLines([PrintLine(sh.lib.colorText, time, cat, VerboseMessage(sh.lib.colorText, msg))]))]
  {
    if !sh.verbose {
      return;
    }
    PluginPrint(sh, time, cat, VerboseMessage(sh.lib.colorText, msg));
  }
}
