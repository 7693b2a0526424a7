/** The gateway's side of the plugin protocol: finding a plugin's executable, running
    it with the JSON request on stdin, reading its JSON response from stdout and its
    log lines from stderr, and listing the installed plugins by their manifests.

    A log line reads `<time> [<category>] <message>`; any other line is kept as a
    plain "info" entry of category "plugin" stamped with the current time. The
    time of day is a parameter (`now`). */
module Dispatcher {
  import opened Wrappers
  import opened Strs
  import opened Effects
  import opened PluginTypes

  // ---- Log levels -----------------------------------------------------------------------

  /** `inferLogLevel`: an error word in any case makes an error, a warning word a
      warning; only then does the case-sensitive verbose marker count. */
  function InferLevel(msg: string): (level: string)
    ensures level in {"error", "warn", "verbose", "info"}
  {
    var lower := ToLower(msg);
    if Contains(lower, "error") || Contains(lower, "failed") then "error"
    else if Contains(lower, "warn") then "warn"
    else if HasPrefix(msg, "V$") then "verbose"
    else "info"
  }

  /** `word` occurs at offset `i` of `msg`, ignoring case. */
  ghost predicate MentionsAt(msg: string, word: string, i: int) {
    0 <= i && i + |word| <= |msg| &&
    forall k :: 0 <= k < |word| ==> ToLowerChar(msg[i + k]) == word[k]
  }

  /** `word` occurs somewhere in `msg`, ignoring case. */
  ghost predicate Mentions(msg: string, word: string) {
    exists i :: MentionsAt(msg, word, i)
  }

  /** `t` occurs in `s` at offset `i`. */
  predicate OccursAt(s: string, t: string, i: int) {
    0 <= i && i + |t| <= |s| && s[i..i + |t|] == t
  }

  /** `strings.Contains` finds `t` exactly when it occurs at some offset. */
  lemma {:induction false} ContainsIff(s: string, t: string)
    ensures Contains(s, t) <==> exists i :: OccursAt(s, t, i)
    decreases |s|
  {
    if Contains(s, t) {
      if HasPrefix(s, t) {
        assert OccursAt(s, t, 0);
      } else {
        ContainsIff(s[1..], t);
        var i :| OccursAt(s[1..], t, i);
        assert s[i + 1..i + 1 + |t|] == s[1..][i..i + |t|];
        assert OccursAt(s, t, i + 1);
      }
    }
    forall i | OccursAt(s, t, i)
      ensures Contains(s, t)
    {
      ContainsAt(s, t, i);
    }
  }

  /** Searching the lower-cased text is looking for a case-insensitive occurrence. */
  lemma ContainsLower(msg: string, word: string)
    ensures Contains(ToLower(msg), word) <==> Mentions(msg, word)
  {
    ContainsIff(ToLower(msg), word);
    if Contains(ToLower(msg), word) {
      var i :| OccursAt(ToLower(msg), word, i);
      forall k | 0 <= k < |word|
        ensures ToLowerChar(msg[i + k]) == word[k]
      {
        assert ToLower(msg)[i..i + |word|][k] == ToLower(msg)[i + k];
      }
      assert MentionsAt(msg, word, i);
    }
    if Mentions(msg, word) {
      var i :| MentionsAt(msg, word, i);
      var t := ToLower(msg)[i..i + |word|];
      forall k | 0 <= k < |word|
        ensures t[k] == word[k]
      {
        assert t[k] == ToLower(msg)[i + k];
      }
      assert OccursAt(ToLower(msg), word, i);
    }
  }

  /** The level of a message by what it mentions: "error" or "failed" in any case
      wins over "warn", which wins over a leading `V$`; anything else is "info". */
  lemma LevelOfMessage(msg: string)
    ensures InferLevel(msg) ==
      if Mentions(msg, "error") || Mentions(msg, "failed") then "error"
      else if Mentions(msg, "warn") then "warn"
      else if HasPrefix(msg, "V$") then "verbose"
      else "info"
  {
    ContainsLower(msg, "error");
    ContainsLower(msg, "failed");
    ContainsLower(msg, "warn");
  }

  /** "Error" anywhere, in any case, makes the line an error, whatever else it says. */
  lemma ErrorWordInAnyCase(pre: string, word: string, post: string)
    requires ToLower(word) == "error"
    ensures InferLevel(pre + word + post) == "error"
  {
    var msg := pre + word + post;
    forall k | 0 <= k < |word|
      ensures ToLowerChar(msg[|pre| + k]) == "error"[k]
    {
      assert msg[|pre| + k] == word[k];
      assert ToLower(word)[k] == ToLowerChar(word[k]);
    }
    assert MentionsAt(msg, "error", |pre|);
    LevelOfMessage(msg);
  }

  // ---- Log lines ------------------------------------------------------------------------

  predicate IsBracket(c: char) {
    c == '[' || c == ']'
  }

  function TrimLeftBrackets(s: string): (r: string)
    ensures |r| <= |s| && r == s[|s| - |r|..]
    ensures r == [] || !IsBracket(r[0])
  {
    if s != [] && IsBracket(s[0]) then
      var r := TrimLeftBrackets(s[1..]);
      assert s[1..][|s| - 1 - |r|..] == s[|s| - |r|..];
      r
    else s
  }

  function TrimRightBrackets(s: string): (r: string)
    ensures |r| <= |s| && r == s[..|r|]
    ensures r == [] || !IsBracket(r[|r| - 1])
  {
    if s != [] && IsBracket(s[|s| - 1]) then
      var r := TrimRightBrackets(s[..|s| - 1]);
      assert s[..|s| - 1][..|r|] == s[..|r|];
      r
    else s
  }

  /** `strings.Trim(s, "[]")`: what is left between the brackets at either end. */
  function TrimBrackets(s: string): (r: string)
    ensures r == [] || (!IsBracket(r[0]) && !IsBracket(r[|r| - 1]))
  {
    var l := TrimLeftBrackets(s);
    var r := TrimRightBrackets(l);
    assert r != [] ==> r[0] == l[0];
    r
  }

  lemma TrimLeftOpen(t: string)
    ensures TrimLeftBrackets("[" + t) == TrimLeftBrackets(t)
  {
    assert ("[" + t)[1..] == t;
  }

  lemma TrimRightClose(t: string)
    ensures TrimRightBrackets(t + "]") == TrimRightBrackets(t)
  {
    assert (t + "]")[..|t|] == t;
  }

  /** A category that neither starts nor ends with a bracket comes back out of its
      brackets unchanged. */
  lemma UnbracketCategory(cat: string)
    requires cat == [] || (!IsBracket(cat[0]) && !IsBracket(cat[|cat| - 1]))
    ensures TrimBrackets("[" + cat + "]") == cat
  {
    assert "[" + cat + "]" == "[" + (cat + "]");
    TrimLeftOpen(cat + "]");
    if cat == [] {
      assert cat + "]" == "]" + [];
      TrimRightClose([]);
    } else {
      assert (cat + "]")[0] == cat[0];
      TrimRightClose(cat);
    }
  }

  /** `parseLogLine`: three space-separated parts whose middle one is bracketed make a
      structured entry; anything else is plain text. */
  function ParseLogLine(line: string, now: string): LogEntry {
    var parts := SplitN3(line, ' ');
    if |parts| >= 3 && HasPrefix(parts[1], "[") && HasSuffix(parts[1], "]") then
      LogEntry(parts[0], InferLevel(parts[2]), TrimBrackets(parts[1]), parts[2])
    else
      LogEntry(now, "info", "plugin", line)
  }

  /** The line a plugin writes for an entry. */
  function LineOf(timestamp: string, category: string, message: string): string {
    timestamp + " " + "[" + category + "]" + " " + message
  }

  /** The parts of a log line: time, bracketed category, message. */
  lemma LineParts(ts: string, cat: string, msg: string)
    requires ' ' !in ts && ' ' !in cat
    ensures SplitN3(LineOf(ts, cat, msg), ' ') == [ts, "[" + cat + "]", msg]
  {
    var b := "[" + cat + "]";
    assert LineOf(ts, cat, msg) == ts + [' '] + b + [' '] + msg;
    assert ' ' !in b;
    SplitN3Of(ts, b, msg, ' ');
  }

  /** A line in the plugin format parses back into its time, category and message,
      with the level its message implies. */
  lemma ParseLineRoundTrip(ts: string, cat: string, msg: string, now: string)
    requires ' ' !in ts && ' ' !in cat
    requires cat == [] || (!IsBracket(cat[0]) && !IsBracket(cat[|cat| - 1]))
    ensures ParseLogLine(LineOf(ts, cat, msg), now) == LogEntry(ts, InferLevel(msg), cat, msg)
  {
    var b := "[" + cat + "]";
    LineParts(ts, cat, msg);
    UnbracketCategory(cat);
    assert b[..1] == "[" && b[|b| - 1..] == "]";
    StructuredLine(LineOf(ts, cat, msg), now);
  }

  /** A line whose second piece is bracketed is read piece by piece. */
  lemma StructuredLine(line: string, now: string)
    requires var p := SplitN3(line, ' ');
      |p| == 3 && HasPrefix(p[1], "[") && HasSuffix(p[1], "]")
    ensures var p := SplitN3(line, ' ');
      ParseLogLine(line, now) == LogEntry(p[0], InferLevel(p[2]), TrimBrackets(p[1]), p[2])
  {
  }

  /** The pieces of a split line sit in it one space apart. */
  lemma SplitN3Pieces(line: string)
    requires |SplitN3(line, ' ')| == 3
    ensures var p := SplitN3(line, ' ');
      line == p[0] + " " + p[1] + " " + p[2]
  {
    var p := SplitN3(line, ' ');
    assert Join(p[1..], " ") == p[1] + " " + Join(p[2..], " ");
  }

  /** Without a '[' in the line its second piece cannot be bracketed. */
  lemma NoBracketedPiece(line: string)
    requires '[' !in line
    ensures var p := SplitN3(line, ' ');
      |p| < 3 || !HasPrefix(p[1], "[")
  {
    var p := SplitN3(line, ' ');
    if |p| == 3 && p[1] != [] {
      SplitN3Pieces(line);
      assert line[|p[0]| + 1] == p[1][0];
    }
  }

  /** A line without a '[' is plain text: stamped now, "info", category "plugin",
      the whole line as the message. */
  lemma PlainLine(line: string, now: string)
    requires '[' !in line
    ensures ParseLogLine(line, now) == LogEntry(now, "info", "plugin", line)
  {
    NoBracketedPiece(line);
  }

  /** Each non-blank line, trimmed and parsed by `parse`, in order; blank lines give
      nothing. */
  function ParseNonBlank(lines: seq<string>, parse: string -> LogEntry): (r: seq<LogEntry>)
    ensures |r| <= |lines|
  {
    if lines == [] then []
    else
      var t := TrimSpace(lines[0]);
      (if t == "" then [] else [parse(t)]) + ParseNonBlank(lines[1..], parse)
  }

  /** `parseLogLine` with the time it falls back to. */
  function LineParser(now: string): string -> LogEntry {
    t => ParseLogLine(t, now)
  }

  /** The entries of some stderr lines; blank lines give none. */
  function LogsOf(lines: seq<string>, now: string): (r: seq<LogEntry>)
    ensures |r| <= |lines|
  {
    ParseNonBlank(lines, LineParser(now))
  }

  /** `parseLogOutput`: one entry per non-blank line of stderr, each trimmed, in order. */
  function ParseLogOutputSpec(stderr: string, now: string): seq<LogEntry> {
    if stderr == "" then [] else LogsOf(Split(stderr, '\n'), now)
  }

  /** The scanning loop of `parseLogOutput`. */
  method ParseLogOutput(stderr: string, now: string) returns (logs: seq<LogEntry>)
    ensures logs == ParseLogOutputSpec(stderr, now)
  {
    if stderr == "" {
      return [];
    }
    var lines := Split(stderr, '\n');
    logs := [];
    var i := 0;
    while i < |lines|
      invariant 0 <= i <= |lines|
      invariant logs == LogsOf(lines[..i], now)
    {
      LogsOfSnoc(lines, i, now);
      var line := TrimSpace(lines[i]);
      if line != "" {
        var entry := ParseLogLine(line, now);
        logs := logs + [entry];
      }
      i := i + 1;
    }
    assert lines[..i] == lines;
  }

  /** One step of the scanning loop. */
  lemma LogsOfSnoc(lines: seq<string>, i: nat, now: string)
    requires i < |lines|
    ensures var t := TrimSpace(lines[i]);
      LogsOf(lines[..i + 1], now) == LogsOf(lines[..i], now) + (if t == "" then [] else [ParseLogLine(t, now)])
  {
    assert lines[..i + 1] == lines[..i] + [lines[i]];
    ParseNonBlankAppend(lines[..i], [lines[i]], LineParser(now));
    assert [lines[i]][1..] == [];
  }

  /** Parsing lines is parsing each part of them. */
  lemma {:induction false} ParseNonBlankAppend(a: seq<string>, b: seq<string>, parse: string -> LogEntry)
    ensures ParseNonBlank(a + b, parse) == ParseNonBlank(a, parse) + ParseNonBlank(b, parse)
  {
    if a == [] {
      assert a + b == b;
    } else {
      assert (a + b)[0] == a[0];
      assert (a + b)[1..] == a[1..] + b;
      ParseNonBlankAppend(a[1..], b, parse);
    }
  }

  /** No entries exactly when every line is blank. */
  lemma {:induction false} NoEntriesIffBlank(lines: seq<string>, now: string)
    ensures LogsOf(lines, now) == [] <==> forall i :: 0 <= i < |lines| ==> AllSpace(lines[i])
  {
    if lines != [] {
      TrimSpaceShape(lines[0]);
      NoEntriesIffBlank(lines[1..], now);
      assert forall i :: 0 < i < |lines| ==> lines[i] == lines[1..][i - 1];
    }
  }

  /** An entry the plugin format can carry: time and category without space, the
      category unbracketed, a one-line message ending in something other than space,
      and the level its message implies. */
  predicate Writable(e: LogEntry) {
    e.timestamp != [] && NoSpace(e.timestamp) && NoSpace(e.category) &&
    (e.category == [] || (!IsBracket(e.category[0]) && !IsBracket(e.category[|e.category| - 1]))) &&
    e.message != [] && '\n' !in e.message && !IsSpace(e.message[|e.message| - 1]) &&
    e.level == InferLevel(e.message)
  }

  function EntryLine(e: LogEntry): string {
    LineOf(e.timestamp, e.category, e.message)
  }

  function EntryLines(es: seq<LogEntry>): (r: seq<string>)
    ensures |r| == |es|
    ensures forall i :: 0 <= i < |es| ==> r[i] == EntryLine(es[i])
  {
    if es == [] then [] else [EntryLine(es[0])] + EntryLines(es[1..])
  }

  /** An entry's line is a single line with no space at either end. */
  lemma EntryLineShape(e: LogEntry)
    requires Writable(e)
    ensures var line := EntryLine(e);
      '\n' !in line && TrimSpace(line) == line && line != ""
  {
    var line := EntryLine(e);
    assert IsSpace('\n') && IsSpace(' ');
    assert '\n' !in e.timestamp && '\n' !in e.category;
    assert line[0] == e.timestamp[0];
    assert line[|line| - 1] == e.message[|e.message| - 1];
    TrimSpaceKeeps(line);
  }

  lemma LogsOfEntryLines(es: seq<LogEntry>, now: string)
    requires forall i :: 0 <= i < |es| ==> Writable(es[i])
    ensures LogsOf(EntryLines(es), now) == es
  {
    var lines := EntryLines(es);
    forall i | 0 <= i < |lines|
      ensures TrimSpace(lines[i]) == lines[i] && lines[i] != "" && LineParser(now)(lines[i]) == es[i]
    {
      EntryParsesBack(es[i], now);
    }
    ParseNonBlankInverse(lines, es, LineParser(now));
  }

  /** Lines that are each trimmed, not blank and parsed into an entry give exactly
      those entries. */
  lemma {:induction false} ParseNonBlankInverse(lines: seq<string>, es: seq<LogEntry>, parse: string -> LogEntry)
    requires |lines| == |es|
    requires forall i :: 0 <= i < |lines| ==>
      TrimSpace(lines[i]) == lines[i] && lines[i] != "" && parse(lines[i]) == es[i]
    ensures ParseNonBlank(lines, parse) == es
  {
    if lines != [] {
      assert lines == [lines[0]] + lines[1..];
      ParseNonBlankCons(lines[0], lines[1..], parse);
      ParseNonBlankInverse(lines[1..], es[1..], parse);
    }
  }

  /** A writable entry's line is trimmed, not blank, and parses back into the entry. */
  lemma EntryParsesBack(e: LogEntry, now: string)
    requires Writable(e)
    ensures TrimSpace(EntryLine(e)) == EntryLine(e) && EntryLine(e) != ""
    ensures LineParser(now)(EntryLine(e)) == e
  {
    EntryLineShape(e);
    assert IsSpace(' ');
    ParseLineRoundTrip(e.timestamp, e.category, e.message, now);
  }

  /** A trimmed, non-blank first line gives the first entry. */
  lemma ParseNonBlankCons(line: string, lines: seq<string>, parse: string -> LogEntry)
    requires TrimSpace(line) == line && line != ""
    ensures ParseNonBlank([line] + lines, parse) == [parse(line)] + ParseNonBlank(lines, parse)
  {
    assert ([line] + lines)[1..] == lines;
  }

  /** Stderr written as one line per entry in the plugin format parses back into
      those entries, in order. */
  lemma LogRoundTrip(es: seq<LogEntry>, now: string)
    requires forall i :: 0 <= i < |es| ==> Writable(es[i])
    ensures ParseLogOutputSpec(Join(EntryLines(es), "\n"), now) == es
  {
    if es != [] {
      var lines := EntryLines(es);
      forall i | 0 <= i < |lines|
        ensures '\n' !in lines[i]
      {
        EntryLineShape(es[i]);
      }
      SplitJoin(lines, '\n');
      LogsOfEntryLines(es, now);
      EntryLineShape(es[0]);
      if |lines| > 1 {
        assert Join(lines, "\n") == lines[0] + "\n" + Join(lines[1..], "\n");
      }
      assert Join(lines, "\n") != "";
    }
  }

  // ---- Finding and running a plugin -------------------------------------------------------

  /** The executable of plugin `name`: `<dir>/<name>/plugin-<name>`. */
  function PluginPath(lib: Library, dir: string, name: string): string {
    JoinPath(lib, [dir, name, "plugin-" + name])
  }

  /** `findPlugin`: only a path that does not exist is an error; any other stat
      failure leaves the path to the run. */
  function FindPluginSpec(w: World, lib: Library, h: seq<Call>, dir: string, name: string): Out<Result<string>> {
    var path := PluginPath(lib, dir, name);
    var st := Ask(w, h, Stat(path));
    Out(if st.reply.Absent? then Err("plugin '" + name + "' not found at " + path) else Ok(path), [st])
  }

  /** How a run ended: success, the error, and the captured stdout and stderr. */
  function Captured(r: Reply): (bool, string, string, string) {
    match r
    case Exited(ok, err, stdout, stderr) => (ok, err, stdout, stderr)
    case _ => (false, ErrorText(r), Output(r), "")
  }

  /** What a run of the plugin gives: its decoded response with the stderr log
      entries, a failed run's response when it wrote one, or an error. */
  function RunOutcome(lib: Library, run: Reply, now: string): Result<Response> {
    var (ok, err, stdout, stderr) := Captured(run);
    var decoded := lib.decodeResponse(stdout);
    if !ok then
      if |stdout| > 0 && decoded.Ok? then Ok(decoded.value.(logs := ParseLogOutputSpec(stderr, now)))
      else Err("plugin execution failed: " + err + "\nStderr: " + stderr)
    else if decoded.Err? then Err("failed to parse plugin response: " + decoded.error + "\nOutput: " + stdout)
    else Ok(decoded.value.(logs := ParseLogOutputSpec(stderr, now)))
  }

  /** `Dispatch`: find the plugin, run it with the encoded request on stdin. */
  function DispatchSpec(w: World, lib: Library, h: seq<Call>, dir: string, name: string, req: Request, now: string): Out<Result<Response>> {
    var f := FindPluginSpec(w, lib, h, dir, name);
    if f.value.Err? then Out(Err("plugin not found: " + f.value.error), f.calls)
    else
      var run := Ask(w, h + f.calls, RunPlugin(f.value.value, [], lib.encodeRequest(req)));
      Out(RunOutcome(lib, run.reply, now), f.calls + [run])
  }

  /** The directory reads that listing the plugins makes: one manifest per
      sub-directory, in directory order; plain files are passed over. */
  function ManifestPath(lib: Library, dir: string, name: string): string {
    JoinPath(lib, [dir, name, "manifest.json"])
  }

  /** The manifests of the entries from index `i` on; a manifest that cannot be read
      or decoded is passed over. */
  function ManifestsSpec(w: World, lib: Library, h: seq<Call>, dir: string, entries: seq<DirEntry>, i: nat): (r: Out<seq<Manifest>>)
    requires i <= |entries|
    decreases |entries| - i
  {
    if i == |entries| then Out([], [])
    else if !entries[i].isDir then ManifestsSpec(w, lib, h, dir, entries, i + 1)
    else
      var read := Ask(w, h, ReadFile(ManifestPath(lib, dir, entries[i].name)));
      var rest := ManifestsSpec(w, lib, h + [read], dir, entries, i + 1);
      Out(Decoded(lib, read.reply) + rest.value, [read] + rest.calls)
  }

  /** The manifest a read gives, if it was read and decodes. */
  function Decoded(lib: Library, r: Reply): (m: seq<Manifest>)
    ensures |m| <= 1
  {
    if r.Done? && lib.decodeManifest(r.out).Ok? then [lib.decodeManifest(r.out).value] else []
  }

  /** `ListPlugins`: a directory that cannot be read is the error. */
  function ListPluginsSpec(w: World, lib: Library, h: seq<Call>, dir: string): Out<Result<seq<Manifest>>> {
    var rd := Ask(w, h, ReadDir(dir));
    if !rd.reply.Entries? then Out(Err(ErrorText(rd.reply)), [rd])
    else
      var m := ManifestsSpec(w, lib, h + [rd], dir, rd.reply.entries, 0);
      Out(Ok(m.value), [rd] + m.calls)
  }

  /** The plugin gateway over one plugin directory. */
  class Dispatcher {
    const pluginDir: string

    constructor(pluginDir: string)
      ensures this.pluginDir == pluginDir
    {
      this.pluginDir := pluginDir;
    }

    method FindPlugin(sh: Shell, name: string) returns (r: Result<string>)
      modifies sh`trace
      ensures Performs(old(sh.trace), sh.trace, r, FindPluginSpec(sh.world, sh.lib, old(sh.trace), pluginDir, name))
    {
      var path := JoinPath(sh.lib, [pluginDir, name, "plugin-" + name]);
      var st := sh.Do(Stat(path));
      if st.Absent? {
        return Err("plugin '" + name + "' not found at " + path);
      }
      r := Ok(path);
    }

    method Dispatch(sh: Shell, name: string, req: Request, now: string) returns (r: Result<Response>)
      modifies sh`trace
      ensures Performs(old(sh.trace), sh.trace, r, DispatchSpec(sh.world, sh.lib, old(sh.trace), pluginDir, name, req, now))
    {
      var path := FindPlugin(sh, name);
      if path.Err? {
        return Err("plugin not found: " + path.error);
      }
      var reply := sh.Do(RunPlugin(path.value, [], sh.lib.encodeRequest(req)));
      var (ok, err, stdout, stderr) := Captured(reply);
      var decoded := sh.lib.decodeResponse(stdout);
      if !ok {
        if |stdout| > 0 && decoded.Ok? {
          var logs := ParseLogOutput(stderr, now);
          return Ok(decoded.value.(logs := logs));
        }
        return Err("plugin execution failed: " + err + "\nStderr: " + stderr);
      }
      if decoded.Err? {
        return Err("failed to parse plugin response: " + decoded.error + "\nOutput: " + stdout);
      }
      var logs := ParseLogOutput(stderr, now);
      r := Ok(decoded.value.(logs := logs));
    }

    /** The loop over the directory's entries. */
    method CollectManifests(sh: Shell, entries: seq<DirEntry>) returns (manifests: seq<Manifest>)
      modifies sh`trace
      ensures Performs(old(sh.trace), sh.trace, manifests, ManifestsSpec(sh.world, sh.lib, old(sh.trace), pluginDir, entries, 0))
    {
      ghost var h := sh.trace;
      ghost var all := ManifestsSpec(sh.world, sh.lib, h, pluginDir, entries, 0);
      manifests := [];
      var i := 0;
      while i < |entries|
        invariant 0 <= i <= |entries|
        invariant manifests + ManifestsSpec(sh.world, sh.lib, sh.trace, pluginDir, entries, i).value == all.value
        invariant sh.trace + ManifestsSpec(sh.world, sh.lib, sh.trace, pluginDir, entries, i).calls == h + all.calls
      {
        if entries[i].isDir {
          ghost var before := sh.trace;
          var data := sh.Do(ReadFile(JoinPath(sh.lib, [pluginDir, entries[i].name, "manifest.json"])));
          ghost var rest := ManifestsSpec(sh.world, sh.lib, sh.trace, pluginDir, entries, i + 1);
          AppendAssoc(before, [Call(ReadFile(ManifestPath(sh.lib, pluginDir, entries[i].name)), data)], rest.calls);
          if data.Done? {
            var m := sh.lib.decodeManifest(data.out);
            if m.Ok? {
              assert manifests + ([m.value] + rest.value) == (manifests + [m.value]) + rest.value;
              manifests := manifests + [m.value];
            }
          }
        }
        i := i + 1;
      }
      assert manifests + [] == manifests && sh.trace + [] == sh.trace;
    }

    method ListPlugins(sh: Shell) returns (r: Result<seq<Manifest>>)
      modifies sh`trace
      ensures Performs(old(sh.trace), sh.trace, r, ListPluginsSpec(sh.world, sh.lib, old(sh.trace), pluginDir))
    {
      ghost var h := sh.trace;
      var entries := sh.Do(ReadDir(pluginDir));
      if !entries.Entries? {
        return Err(ErrorText(entries));
      }
      ghost var rd := sh.trace[|h|..];
      assert sh.trace == h + rd;
      var manifests := CollectManifests(sh, entries.entries);
      AppendAssoc(h, rd, sh.trace[|h + rd|..]);
      r := Ok(manifests);
    }
  }

  // ---- Properties of dispatching and listing ----------------------------------------------

  /** A plugin whose executable does not exist is reported, and nothing is run. */
  lemma MissingPluginNotRun(w: World, lib: Library, h: seq<Call>, dir: string, name: string, req: Request, now: string)
    requires w(h, Stat(PluginPath(lib, dir, name))).Absent?
    ensures var d := DispatchSpec(w, lib, h, dir, name, req, now);
      d.calls == [Ask(w, h, Stat(PluginPath(lib, dir, name)))] &&
      d.value == Err("plugin not found: plugin '" + name + "' not found at " + PluginPath(lib, dir, name))
  {
  }

  /** A plugin that is there is run once, with the encoded request on stdin. The
      answer is a response exactly when stdout decodes and either the run succeeded
      or it failed but wrote something; that response is the plugin's own, with the
      log entries of its stderr. */
  lemma DispatchAnswer(w: World, lib: Library, h: seq<Call>, dir: string, name: string, req: Request, now: string)
    requires !w(h, Stat(PluginPath(lib, dir, name))).Absent?
    ensures var path := PluginPath(lib, dir, name);
      var st := Ask(w, h, Stat(path));
      var run := Ask(w, h + [st], RunPlugin(path, [], lib.encodeRequest(req)));
      var (ok, err, stdout, stderr) := Captured(run.reply);
      var d := DispatchSpec(w, lib, h, dir, name, req, now);
      d.calls == [st, run] &&
      (d.value.Ok? <==> lib.decodeResponse(stdout).Ok? && (ok || stdout != "")) &&
      (d.value.Ok? ==> d.value.value == lib.decodeResponse(stdout).value.(logs := ParseLogOutputSpec(stderr, now)))
  {
  }

  /** The errors of a run: a failed run without a readable response reports the
      error and stderr; a successful run whose stdout does not decode reports the
      decoding error and stdout. */
  lemma RunErrors(lib: Library, run: Reply, now: string)
    ensures var (ok, err, stdout, stderr) := Captured(run);
      var decoded := lib.decodeResponse(stdout);
      (!ok && (stdout == "" || decoded.Err?) ==>
        RunOutcome(lib, run, now) == Err("plugin execution failed: " + err + "\nStderr: " + stderr)) &&
      (ok && decoded.Err? ==>
        RunOutcome(lib, run, now) == Err("failed to parse plugin response: " + decoded.error + "\nOutput: " + stdout))
  {
  }

  /** The reads the listing makes, as a reference: one per sub-directory, in order. */
  function ManifestReads(lib: Library, dir: string, entries: seq<DirEntry>): seq<Effect> {
    if entries == [] then []
    else
      (if entries[0].isDir then [ReadFile(ManifestPath(lib, dir, entries[0].name))] else []) +
      ManifestReads(lib, dir, entries[1..])
  }

  function EffectsOf(calls: seq<Call>): (r: seq<Effect>)
    ensures |r| == |calls|
    ensures forall i :: 0 <= i < |calls| ==> r[i] == calls[i].effect
  {
    if calls == [] then [] else [calls[0].effect] + EffectsOf(calls[1..])
  }

  /** The manifests that some reads give, as a reference: every read that succeeded
      and decodes, in order. */
  function DecodedReads(lib: Library, calls: seq<Call>): seq<Manifest> {
    if calls == [] then [] else Decoded(lib, calls[0].reply) + DecodedReads(lib, calls[1..])
  }

  /** Listing reads the manifest of each sub-directory once, in directory order, and
      reads nothing else. */
  lemma {:induction false} OneReadPerDirectory(w: World, lib: Library, h: seq<Call>, dir: string, entries: seq<DirEntry>, i: nat)
    requires i <= |entries|
    decreases |entries| - i
    ensures EffectsOf(ManifestsSpec(w, lib, h, dir, entries, i).calls) == ManifestReads(lib, dir, entries[i..])
  {
    if i < |entries| {
      assert entries[i..][0] == entries[i] && entries[i..][1..] == entries[i + 1..];
      if entries[i].isDir {
        var read := Ask(w, h, ReadFile(ManifestPath(lib, dir, entries[i].name)));
        OneReadPerDirectory(w, lib, h + [read], dir, entries, i + 1);
        var rest := ManifestsSpec(w, lib, h + [read], dir, entries, i + 1);
        assert EffectsOf([read] + rest.calls) == [read.effect] + EffectsOf(rest.calls) by {
          assert ([read] + rest.calls)[1..] == rest.calls;
        }
      } else {
        OneReadPerDirectory(w, lib, h, dir, entries, i + 1);
      }
    } else {
      assert entries[i..] == [];
    }
  }

  /** The manifests listed are exactly those of the reads that succeeded and decode,
      in order: a missing or broken manifest is skipped, never an error. */
  lemma {:induction false} ManifestsAreDecodedReads(w: World, lib: Library, h: seq<Call>, dir: string, entries: seq<DirEntry>, i: nat)
    requires i <= |entries|
    decreases |entries| - i
    ensures var m := ManifestsSpec(w, lib, h, dir, entries, i);
      m.value == DecodedReads(lib, m.calls)
  {
    if i < |entries| {
      if entries[i].isDir {
        var read := Ask(w, h, ReadFile(ManifestPath(lib, dir, entries[i].name)));
        ManifestsAreDecodedReads(w, lib, h + [read], dir, entries, i + 1);
        var rest := ManifestsSpec(w, lib, h + [read], dir, entries, i + 1);
        assert ([read] + rest.calls)[1..] == rest.calls;
      } else {
        ManifestsAreDecodedReads(w, lib, h, dir, entries, i + 1);
      }
    }
  }

  /** An unreadable plugin directory is the error, after reading nothing else; a
      readable one is never an error. */
  lemma ListingErrors(w: World, lib: Library, h: seq<Call>, dir: string)
    ensures var l := ListPluginsSpec(w, lib, h, dir);
      (l.value.Err? <==> !w(h, ReadDir(dir)).Entries?) &&
      (l.value.Err? ==> l.calls == [Ask(w, h, ReadDir(dir))] && l.value.error == ErrorText(w(h, ReadDir(dir))))
  {
  }
}
