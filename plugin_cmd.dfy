/** The `neko plugin` commands: listing installed plugins, the names offered by a
    registry release, the install status shown beside them, the asset a platform
    downloads, unpacking a plugin archive into its directory, and uninstalling. */
module PluginCmd {
  import opened Wrappers
  import opened Strs
  import opened Effects
  import opened PluginTypes
  import Dispatcher
  import Renderer

  // ---- Truncating descriptions ------------------------------------------------------------

  /** `truncate`: text longer than `maxLen` is cut to `maxLen - 3` characters and
      "..." is appended, so it is exactly `maxLen` long; shorter text is kept. Go's
      slice would panic on a longer text when `maxLen < 3`. */
  function Truncate(s: string, maxLen: int): (r: string)
    requires |s| <= maxLen || 3 <= maxLen
    ensures |r| <= maxLen
    ensures r == s <==> |s| <= maxLen
    ensures r != s ==> |r| == maxLen && r[..maxLen - 3] == s[..maxLen - 3] && r[maxLen - 3..] == "..."
  {
    if |s| <= maxLen then s else s[..maxLen - 3] + "..."
  }

  // ---- Listing installed plugins ----------------------------------------------------------

  const NoPluginsInstalled := ["No plugins installed.", "Use 'neko plugin available' to see available plugins."]

  /** One line of `%-15s %-10s %-40s %s`. */
  function ListRow(name: string, version: string, description: string, author: string): string {
    Renderer.PadRight(name, 15) + " " + Renderer.PadRight(version, 10) + " " +
    Renderer.PadRight(description, 40) + " " + author
  }

  const ListHeader := ListRow("NAME", "VERSION", "DESCRIPTION", "AUTHOR")

  function ManifestRow(m: Manifest): string {
    ListRow(m.name, m.version, Truncate(m.description, 40), m.author)
  }

  /** The rows of some manifests, in order. */
  function ManifestRows(ms: seq<Manifest>): (rows: seq<string>)
    ensures |rows| == |ms|
  {
    if ms == [] then [] else ManifestRows(ms[..|ms| - 1]) + [ManifestRow(ms[|ms| - 1])]
  }

  /** `runPluginList`: a plugin directory that does not exist, or one without
      manifests, is "No plugins installed."; any other listing error is returned;
      otherwise a header and one row per manifest. */
  function PluginListSpec(w: World, lib: Library, h: seq<Call>, dir: string): Out<Result<seq<string>>> {
    var l := Dispatcher.ListPluginsSpec(w, lib, h, dir);
    var rd := Ask(w, h, ReadDir(dir));
    var lines :=
      if l.value.Err? then
        if rd.reply.Absent? then Ok(NoPluginsInstalled) else Err("failed to list plugins: " + l.value.error)
      else if |l.value.value| == 0 then Ok(NoPluginsInstalled)
      else Ok([ListHeader] + ManifestRows(l.value.value));
    Out(lines, l.calls)
  }

  /** The loop printing one row per manifest. */
  method ListRows(ms: seq<Manifest>) returns (rows: seq<string>)
    ensures rows == ManifestRows(ms)
  {
    rows := [];
    var i := 0;
    while i < |ms|
      invariant 0 <= i <= |ms|
      invariant rows == ManifestRows(ms[..i])
    {
      assert ms[..i + 1][..i] == ms[..i];
      rows := rows + [ListRow(ms[i].name, ms[i].version, Truncate(ms[i].description, 40), ms[i].author)];
      i := i + 1;
    }
    assert ms[..i] == ms;
  }

  method RunPluginList(sh: Shell, d: Dispatcher.Dispatcher) returns (r: Result<seq<string>>)
    modifies sh`trace
    ensures Performs(old(sh.trace), sh.trace, r, PluginListSpec(sh.world, sh.lib, old(sh.trace), d.pluginDir))
  {
    var h := sh.trace;
    var manifests := d.ListPlugins(sh);
    if manifests.Err? {
      if sh.trace[|h|].reply.Absent? {
        return Ok(NoPluginsInstalled);
      }
      return Err("failed to list plugins: " + manifests.error);
    }
    if |manifests.value| == 0 {
      return Ok(NoPluginsInstalled);
    }
    var rows := ListRows(manifests.value);
    r := Ok([ListHeader] + rows);
  }

  /** Every listed description column is exactly 40 characters wide, long
      descriptions cut with "...". */
  lemma DescriptionColumn(m: Manifest)
    ensures var t := Truncate(m.description, 40);
      |Renderer.PadRight(t, 40)| == 40 &&
      (|m.description| > 40 ==> Renderer.PadRight(t, 40) == m.description[..37] + "...")
  {
    var t := Truncate(m.description, 40);
    if |m.description| > 40 {
      assert |t| == 40;
      assert Renderer.PadRight(t, 40) == t + [];
      assert t == t[..37] + t[37..];
    }
  }

  /** The row of manifest `i` is the `i`-th line after the header. */
  lemma {:induction false} ManifestRowsPointwise(ms: seq<Manifest>)
    ensures forall i :: 0 <= i < |ms| ==> ManifestRows(ms)[i] == ManifestRow(ms[i])
  {
    if ms != [] {
      ManifestRowsPointwise(ms[..|ms| - 1]);
    }
  }

  /** A missing plugin directory is not an error: it lists no plugins. */
  lemma MissingDirectoryListsNothing(w: World, lib: Library, h: seq<Call>, dir: string)
    requires w(h, ReadDir(dir)).Absent?
    ensures PluginListSpec(w, lib, h, dir).value == Ok(NoPluginsInstalled)
  {
  }

  // ---- Plugins offered by a release -------------------------------------------------------

  const PluginPrefix := "plugin-"

  /** The plugin an asset name offers: for a name starting with "plugin-", the text
      before its first "_" without that prefix. */
  function AssetPlugin(asset: string): Option<string> {
    if HasPrefix(asset, PluginPrefix) then Some(TrimPrefix(Split(asset, '_')[0], PluginPrefix)) else None
  }

  /** The plugin an asset offers is the text between "plugin-" and the first "_". */
  lemma AssetPluginShape(asset: string)
    requires AssetPlugin(asset).Some?
    ensures var n := AssetPlugin(asset).value;
      '_' !in n && HasPrefix(asset, PluginPrefix + n) &&
      (|asset| == |PluginPrefix + n| || asset[|PluginPrefix + n|] == '_')
  {
    var n := AssetPlugin(asset).value;
    if '_' in asset {
      var i := IndexOf(asset, '_');
      assert i >= |PluginPrefix|;
      assert asset[..i][..|PluginPrefix|] == PluginPrefix;
      assert asset[..i] == PluginPrefix + n;
      assert asset[..|PluginPrefix + n|] == asset[..i];
    } else {
      assert asset == PluginPrefix + n;
    }
  }

  /** Conversely, "plugin-", a name without "_", and a rest that is empty or starts
      with "_" offer that name. */
  lemma AssetPluginOf(n: string, rest: string)
    requires '_' !in n
    requires rest == "" || rest[0] == '_'
    ensures AssetPlugin(PluginPrefix + n + rest) == Some(n)
  {
    var asset := PluginPrefix + n + rest;
    assert asset[..|PluginPrefix|] == PluginPrefix;
    assert '_' !in PluginPrefix + n;
    if rest == "" {
      assert asset == PluginPrefix + n;
    } else {
      assert asset == (PluginPrefix + n) + ['_'] + rest[1..];
      IndexOfAfter(PluginPrefix + n, '_', rest[1..]);
      assert asset[..|PluginPrefix + n|] == PluginPrefix + n;
    }
  }

  /** The names offered by some assets, each once (`pluginMap`'s keys). */
  function AvailableNames(assets: seq<string>): set<string> {
    if assets == [] then {}
    else
      var last := AssetPlugin(assets[|assets| - 1]);
      AvailableNames(assets[..|assets| - 1]) + (if last.Some? then {last.value} else {})
  }

  /** The loop filling `pluginMap`. */
  method ParseAssetNames(assets: seq<string>) returns (names: set<string>)
    ensures names == AvailableNames(assets)
  {
    names := {};
    var i := 0;
    while i < |assets|
      invariant 0 <= i <= |assets|
      invariant names == AvailableNames(assets[..i])
    {
      assert assets[..i + 1][..i] == assets[..i];
      if HasPrefix(assets[i], PluginPrefix) {
        var parts := Split(assets[i], '_');
        names := names + {TrimPrefix(parts[0], PluginPrefix)};
      }
      i := i + 1;
    }
    assert assets[..i] == assets;
  }

  /** A name is available exactly when some asset offers it. */
  lemma {:induction false} AvailableNamesIff(assets: seq<string>, n: string)
    ensures n in AvailableNames(assets) <==> exists i :: 0 <= i < |assets| && AssetPlugin(assets[i]) == Some(n)
  {
    if assets != [] {
      var init := assets[..|assets| - 1];
      AvailableNamesIff(init, n);
      if exists i :: 0 <= i < |init| && AssetPlugin(init[i]) == Some(n) {
        var i :| 0 <= i < |init| && AssetPlugin(init[i]) == Some(n);
        assert assets[i] == init[i];
      }
      if exists i :: 0 <= i < |assets| && AssetPlugin(assets[i]) == Some(n) {
        var i :| 0 <= i < |assets| && AssetPlugin(assets[i]) == Some(n);
        if i < |init| {
          assert init[i] == assets[i];
        }
      }
    }
  }

  datatype AvailablePlugin = AvailablePlugin(name: string, version: string)

  /** `fetchAvailablePlugins` after the release is read: every offered name at the
      release's version. Go lists them in map order, so the model keeps a set. */
  function AvailablePlugins(assets: seq<string>, latest: string): (r: set<AvailablePlugin>)
    ensures forall p :: p in r <==> p.name in AvailableNames(assets) && p.version == latest
  {
    set n | n in AvailableNames(assets) :: AvailablePlugin(n, latest)
  }

  // ---- Install status ---------------------------------------------------------------------

  /** `installedMap`: the version of each installed plugin; a later manifest of the
      same name overwrites an earlier one. */
  function InstalledVersions(ms: seq<Manifest>): map<string, string> {
    if ms == [] then map[]
    else InstalledVersions(ms[..|ms| - 1])[ms[|ms| - 1].name := ms[|ms| - 1].version]
  }

  /** The loop filling `installedMap`. */
  method CollectInstalled(ms: seq<Manifest>) returns (installed: map<string, string>)
    ensures installed == InstalledVersions(ms)
  {
    installed := map[];
    var i := 0;
    while i < |ms|
      invariant 0 <= i <= |ms|
      invariant installed == InstalledVersions(ms[..i])
    {
      assert ms[..i + 1][..i] == ms[..i];
      installed := installed[ms[i].name := ms[i].version];
      i := i + 1;
    }
    assert ms[..i] == ms;
  }

  /** The status column of `neko plugin available`. */
  function InstallStatus(installed: map<string, string>, p: AvailablePlugin): (status: string)
    ensures status == "not installed" <==> p.name !in installed
    ensures status == "installed" <==> p.name in installed && installed[p.name] == p.version
    ensures p.name in installed && installed[p.name] != p.version ==> status == "installed (" + installed[p.name] + ")"
  {
    if p.name in installed then
      var v := installed[p.name];
      if v == p.version then "installed"
      else
        var other := "installed (" + v + ")";
        assert other[0] == 'i' && |other| > 9;
        other
    else "not installed"
  }

  /** A plugin counts as installed when some manifest has its name, and its
      version is that of the last such manifest. */
  lemma {:induction false} LastManifestWins(ms: seq<Manifest>, n: string)
    ensures n in InstalledVersions(ms) <==> exists i :: 0 <= i < |ms| && ms[i].name == n
    ensures forall i :: (0 <= i < |ms| && ms[i].name == n &&
      (forall j :: i < j < |ms| ==> ms[j].name != n)) ==> InstalledVersions(ms)[n] == ms[i].version
  {
    if ms != [] {
      var init := ms[..|ms| - 1];
      LastManifestWins(init, n);
      if exists i :: 0 <= i < |init| && init[i].name == n {
        var i :| 0 <= i < |init| && init[i].name == n;
        assert ms[i] == init[i];
      }
      if exists i :: 0 <= i < |ms| && ms[i].name == n {
        var i :| 0 <= i < |ms| && ms[i].name == n;
        if i < |init| {
          assert init[i] == ms[i];
        }
      }
      forall i | 0 <= i < |init| && init[i].name == n && (forall j :: i < j < |init| ==> init[j].name != n)
        ensures i < |ms| && ms[i] == init[i]
      {
      }
    }
  }

  // ---- The asset a platform downloads -----------------------------------------------------

  /** GoReleaser names the amd64 architecture "x86_64". */
  function ArchName(goarch: string): (a: string)
    ensures goarch == "amd64" ==> a == "x86_64"
    ensures goarch != "amd64" ==> a == goarch
  {
    if goarch == "amd64" then "x86_64" else goarch
  }

  /** `cases.Title` on a one-word operating-system name: first letter upper case,
      the rest lower case. */
  function TitleWord(s: string): (r: string)
    ensures |r| == |s|
    ensures r != "" ==> r[0] == ToUpperChar(s[0]) && r[1..] == ToLower(s[1..])
  {
    if s == "" then "" else ToUpper(s[..1]) + ToLower(s[1..])
  }

  /** `plugin-<name>_<Os>_<arch>.tar.gz`. */
  function AssetName(pluginName: string, goos: string, goarch: string): string {
    PluginPrefix + pluginName + "_" + TitleWord(goos) + "_" + ArchName(goarch) + ".tar.gz"
  }

  /** The asset a platform downloads offers the plugin it was named for. */
  lemma AssetNameOffersPlugin(pluginName: string, goos: string, goarch: string)
    requires '_' !in pluginName
    ensures AssetPlugin(AssetName(pluginName, goos, goarch)) == Some(pluginName)
  {
    var rest := "_" + TitleWord(goos) + "_" + ArchName(goarch) + ".tar.gz";
    assert AssetName(pluginName, goos, goarch) == PluginPrefix + pluginName + rest;
    AssetPluginOf(pluginName, rest);
  }

  datatype ReleaseAsset = ReleaseAsset(name: string, downloadUrl: string)

  /** The index of the first asset with a given name. */
  function FirstAsset(assets: seq<ReleaseAsset>, name: string): (r: Option<nat>)
    ensures r.Some? ==> (r.value < |assets| && assets[r.value].name == name &&
      forall j :: 0 <= j < r.value ==> assets[j].name != name)
    ensures r.None? ==> forall j :: 0 <= j < |assets| ==> assets[j].name != name
  {
    if assets == [] then None
    else if assets[0].name == name then Some(0)
    else
      match FirstAsset(assets[1..], name)
      case None => None
      case Some(k) => Some(k + 1)
  }

  /** `getPluginDownloadURL` after the release is read: the download address of the
      first asset named for the platform, or an error naming the platform. */
  function DownloadUrl(assets: seq<ReleaseAsset>, pluginName: string, version: string, goos: string, goarch: string): Result<string> {
    match FirstAsset(assets, AssetName(pluginName, goos, goarch))
    case Some(k) => Ok(assets[k].downloadUrl)
    case None =>
      Err("plugin '" + pluginName + "' not found for " + TitleWord(goos) + "/" + ArchName(goarch) + " in version " + version)
  }

  /** The loop over the release's assets. */
  method FindDownloadUrl(assets: seq<ReleaseAsset>, pluginName: string, version: string, goos: string, goarch: string)
    returns (r: Result<string>)
    ensures r == DownloadUrl(assets, pluginName, version, goos, goarch)
  {
    var archName := if goarch == "amd64" then "x86_64" else goarch;
    var osName := TitleWord(goos);
    var assetName := "plugin-" + pluginName + "_" + osName + "_" + archName + ".tar.gz";
    assert assetName == AssetName(pluginName, goos, goarch);
    var i := 0;
    while i < |assets|
      invariant 0 <= i <= |assets|
      invariant forall j :: 0 <= j < i ==> assets[j].name != assetName
    {
      if assets[i].name == assetName {
        var k := FirstAsset(assets, assetName);
        assert k == Some(i);
        return Ok(assets[i].downloadUrl);
      }
      i := i + 1;
    }
    r := Err("plugin '" + pluginName + "' not found for " + osName + "/" + archName + " in version " + version);
  }

  /** The address found is that of an asset named for the platform; none is found
      only when no asset has that name. */
  lemma DownloadUrlIff(assets: seq<ReleaseAsset>, pluginName: string, version: string, goos: string, goarch: string)
    ensures var r := DownloadUrl(assets, pluginName, version, goos, goarch);
      (r.Ok? ==> exists k :: 0 <= k < |assets| && assets[k].name == AssetName(pluginName, goos, goarch) &&
                   assets[k].downloadUrl == r.value) &&
      (r.Err? <==> forall k :: 0 <= k < |assets| ==> assets[k].name != AssetName(pluginName, goos, goarch))
  {
    var name := AssetName(pluginName, goos, goarch);
    var f := FirstAsset(assets, name);
    if f.Some? {
      assert assets[f.value].name == name;
    }
  }

  // ---- Unpacking a plugin archive ---------------------------------------------------------

  /** `filepath.Base`: the last element of a slash-separated path, trailing slashes
      ignored; "." for the empty path and "/" for a path of slashes only. */
  function Base(path: string): (r: string)
    ensures r != ""
    ensures r == "/" || '/' !in r
  {
    if path == "" then "."
    else
      var stripped := TrimTrailing(path, '/');
      if stripped == "" then "/" else AfterLast(stripped, '/')
  }

  /** The text without its trailing `c`s. */
  function TrimTrailing(s: string, c: char): (r: string)
    ensures |r| <= |s| && r == s[..|r|]
    ensures r != "" ==> r[|r| - 1] != c
  {
    if s != "" && s[|s| - 1] == c then TrimTrailing(s[..|s| - 1], c) else s
  }

  /** The text after the last `c`, all of it when there is none. */
  function AfterLast(s: string, c: char): (r: string)
    ensures c !in r
    ensures |r| <= |s| && r == s[|s| - |r|..]
    ensures s != "" && s[|s| - 1] != c ==> r != ""
    decreases |s|
  {
    if c !in s then s
    else
      var i := IndexOf(s, c);
      var t := s[i + 1..];
      assert s != "" && s[|s| - 1] != c ==> i < |s| - 1 && t[|t| - 1] == s[|s| - 1];
      AfterLast(t, c)
  }

  /** The element after the last separator is what `AfterLast` gives. */
  lemma {:induction false} AfterLastOf(a: string, c: char, n: string)
    requires c !in n
    ensures AfterLast(a + [c] + n, c) == n
    decreases |a|
  {
    var s := a + [c] + n;
    assert s[|a|] == c;
    assert c in s;
    var i := IndexOf(s, c);
    IndexOfFirst(s, c, |a|);
    SliceAfter(a, c, n, i);
    if i < |a| {
      AfterLastOf(a[i + 1..], c, n);
    }
  }

  /** What follows position `i` of `a + [c] + n`, for `i` within `a` or at the `c`. */
  lemma SliceAfter(a: string, c: char, n: string, i: nat)
    requires i <= |a|
    ensures i == |a| ==> (a + [c] + n)[i + 1..] == n
    ensures i < |a| ==> (a + [c] + n)[i + 1..] == a[i + 1..] + [c] + n
  {
  }

  /** The base of a nested name is its last element; a name without a slash is its
      own base. */
  lemma BaseOfNested(dir: string, n: string)
    requires n != "" && '/' !in n
    ensures Base(dir + "/" + n) == n
    ensures Base(n) == n
  {
    var s := dir + "/" + n;
    assert s[|s| - 1] == n[|n| - 1];
    assert n[|n| - 1] in n;
    AfterLastOf(dir, '/', n);
  }

  /** `filepath.Dir` on a slash-separated path: everything before the last element,
      cleaned. */
  function DirOf(lib: Library, path: string): string {
    lib.cleanPath(path[..|path| - |AfterLast(path, '/')|])
  }

  datatype TarType = TypeDir | TypeReg | OtherType

  /** What `tr.Next` gives: a header, or a read error. The end of the sequence is
      `io.EOF`. */
  datatype TarStep = Header(name: string, typeflag: TarType, mode: int) | Broken(err: string)

  /** Where a header's file goes, if it is written: a regular entry whose cleaned
      name is neither empty nor "." lands under the install path by its base name. */
  function Target(lib: Library, installPath: string, step: TarStep): Option<string> {
    if step.Broken? then None
    else
      var name := lib.cleanPath(step.name);
      if name == "" || name == "." || step.typeflag != TypeReg then None
      else Some(JoinPath(lib, [installPath, Base(name)]))
  }

  /** Writing one regular entry: its directory, the file, then its bytes. */
  function WriteEntrySpec(w: World, lib: Library, h: seq<Call>, target: string, mode: int): Out<Failure> {
    var mk := Ask(w, h, MkdirAll(DirOf(lib, target)));
    if !mk.reply.Done? then Out(Some(ErrorText(mk.reply)), [mk])
    else
      var open := Ask(w, h + [mk], CreateFile(target, mode));
      if !open.reply.Done? then Out(Some("failed to create file " + target + ": " + ErrorText(open.reply)), [mk, open])
      else
        var copy := Ask(w, h + [mk, open], CopyEntry(target));
        Out(if copy.reply.Done? then None else Some(ErrorText(copy.reply)), [mk, open, copy])
  }

  /** One step of the extraction loop: a read error stops it; an entry with a
      target is written; any other entry is passed over. */
  function StepSpec(w: World, lib: Library, h: seq<Call>, installPath: string, step: TarStep): Out<Failure> {
    if step.Broken? then Out(Some(step.err), [])
    else
      match Target(lib, installPath, step)
      case None => Out(None, [])
      case Some(target) => WriteEntrySpec(w, lib, h, target, step.mode)
  }

  /** The extraction loop from step `i` on, stopping at the first failing step. */
  function ExtractSpec(w: World, lib: Library, h: seq<Call>, installPath: string, archive: seq<TarStep>, i: nat): Out<Failure>
    requires i <= |archive|
    decreases |archive| - i
  {
    if i == |archive| then Out(None, [])
    else
      var step := StepSpec(w, lib, h, installPath, archive[i]);
      if step.value.Some? then step
      else
        var rest := ExtractSpec(w, lib, h + step.calls, installPath, archive, i + 1);
        Out(rest.value, step.calls + rest.calls)
  }

  method WriteEntry(sh: Shell, target: string, mode: int) returns (err: Failure)
    modifies sh`trace
    ensures Performs(old(sh.trace), sh.trace, err, WriteEntrySpec(sh.world, sh.lib, old(sh.trace), target, mode))
  {
    ghost var h := sh.trace;
    var mk := sh.Do(MkdirAll(DirOf(sh.lib, target)));
    if !mk.Done? {
      return Some(ErrorText(mk));
    }
    var open := sh.Do(CreateFile(target, mode));
    assert sh.trace == h + [Call(MkdirAll(DirOf(sh.lib, target)), mk), Call(CreateFile(target, mode), open)];
    if !open.Done? {
      return Some("failed to create file " + target + ": " + ErrorText(open));
    }
    var copy := sh.Do(CopyEntry(target));
    assert sh.trace == h + [Call(MkdirAll(DirOf(sh.lib, target)), mk), Call(CreateFile(target, mode), open), Call(CopyEntry(target), copy)];
    err := if copy.Done? then None else Some(ErrorText(copy));
  }

  method ExtractStep(sh: Shell, installPath: string, step: TarStep) returns (err: Failure)
    modifies sh`trace
    ensures Performs(old(sh.trace), sh.trace, err, StepSpec(sh.world, sh.lib, old(sh.trace), installPath, step))
  {
    if step.Broken? {
      assert sh.trace + [] == sh.trace;
      return Some(step.err);
    }
    var name := sh.lib.cleanPath(step.name);
    if name == "" || name == "." || step.typeflag != TypeReg {
      assert sh.trace + [] == sh.trace;
      return None;
    }
    err := WriteEntry(sh, JoinPath(sh.lib, [installPath, Base(name)]), step.mode);
  }

  /** The loop over the archive's entries. */
  method ExtractArchive(sh: Shell, installPath: string, archive: seq<TarStep>) returns (err: Failure)
    modifies sh`trace
    ensures Performs(old(sh.trace), sh.trace, err, ExtractSpec(sh.world, sh.lib, old(sh.trace), installPath, archive, 0))
  {
    ghost var h := sh.trace;
    ghost var all := ExtractSpec(sh.world, sh.lib, h, installPath, archive, 0);
    var i := 0;
    while i < |archive|
      invariant 0 <= i <= |archive|
      invariant ExtractSpec(sh.world, sh.lib, sh.trace, installPath, archive, i).value == all.value
      invariant sh.trace + ExtractSpec(sh.world, sh.lib, sh.trace, installPath, archive, i).calls == h + all.calls
    {
      ghost var before := sh.trace;
      var e := ExtractStep(sh, installPath, archive[i]);
      ghost var step := StepSpec(sh.world, sh.lib, before, installPath, archive[i]);
      if e.Some? {
        assert ExtractSpec(sh.world, sh.lib, before, installPath, archive, i) == step;
        return e;
      }
      ghost var rest := ExtractSpec(sh.world, sh.lib, sh.trace, installPath, archive, i + 1);
      AppendAssoc(before, step.calls, rest.calls);
      i := i + 1;
    }
    assert ExtractSpec(sh.world, sh.lib, sh.trace, installPath, archive, i) == Out(None, []);
    assert sh.trace + [] == sh.trace;
    err := None;
  }

  /** `downloadAndInstallPlugin` once the download has answered: the old plugin
      directory is removed and made afresh, then the archive is unpacked into it. A
      gzip stream that cannot be opened is an archive whose first step is broken. */
  function InstallArchiveSpec(w: World, lib: Library, h: seq<Call>, pluginDir: string, name: string, archive: seq<TarStep>): Out<Failure> {
    var installPath := JoinPath(lib, [pluginDir, name]);
    var rm := Ask(w, h, RemoveAll(installPath));
    if !rm.reply.Done? then Out(Some("failed to remove existing plugin: " + ErrorText(rm.reply)), [rm])
    else
      var mk := Ask(w, h + [rm], MkdirAll(installPath));
      if !mk.reply.Done? then Out(Some(ErrorText(mk.reply)), [rm, mk])
      else
        var x := ExtractSpec(w, lib, h + [rm, mk], installPath, archive, 0);
        Out(x.value, [rm, mk] + x.calls)
  }

  method InstallArchive(sh: Shell, pluginDir: string, name: string, archive: seq<TarStep>) returns (err: Failure)
    modifies sh`trace
    ensures Performs(old(sh.trace), sh.trace, err, InstallArchiveSpec(sh.world, sh.lib, old(sh.trace), pluginDir, name, archive))
  {
    ghost var h := sh.trace;
    var installPath := JoinPath(sh.lib, [pluginDir, name]);
    var rm := sh.Do(RemoveAll(installPath));
    if !rm.Done? {
      return Some("failed to remove existing plugin: " + ErrorText(rm));
    }
    var mk := sh.Do(MkdirAll(installPath));
    assert sh.trace == h + [Call(RemoveAll(installPath), rm), Call(MkdirAll(installPath), mk)];
    if !mk.Done? {
      return Some(ErrorText(mk));
    }
    ghost var prefix := sh.trace[|h|..];
    assert sh.trace == h + prefix;
    err := ExtractArchive(sh, installPath, archive);
    AppendAssoc(h, prefix, sh.trace[|h + prefix|..]);
  }

  /** The file a step asks for, if any, as a sequence. */
  function TargetOf(lib: Library, installPath: string, step: TarStep): seq<string> {
    match Target(lib, installPath, step)
    case Some(t) => [t]
    case None => []
  }

  /** The files an archive asks for, in order, up to its first read error. */
  function Targets(lib: Library, installPath: string, archive: seq<TarStep>): seq<string> {
    if archive == [] || archive[0].Broken? then []
    else
      TargetOf(lib, installPath, archive[0]) + Targets(lib, installPath, archive[1..])
  }

  /** The files created by some calls, in order. */
  function Created(calls: seq<Call>): seq<string> {
    if calls == [] then []
    else (if calls[0].effect.CreateFile? then [calls[0].effect.path] else []) + Created(calls[1..])
  }

  lemma {:induction false} CreatedAppend(a: seq<Call>, b: seq<Call>)
    ensures Created(a + b) == Created(a) + Created(b)
  {
    if a == [] {
      assert a + b == b;
    } else {
      assert (a + b)[0] == a[0];
      assert (a + b)[1..] == a[1..] + b;
      CreatedAppend(a[1..], b);
    }
  }

  /** A successful write creates exactly its target. */
  lemma WriteCreatesTarget(w: World, lib: Library, h: seq<Call>, target: string, mode: int)
    requires WriteEntrySpec(w, lib, h, target, mode).value.None?
    ensures Created(WriteEntrySpec(w, lib, h, target, mode).calls) == [target]
  {
    var c := WriteEntrySpec(w, lib, h, target, mode).calls;
    assert |c| == 3 && c[2].effect.CopyEntry? && c[1].effect == CreateFile(target, mode);
    assert Created(c[2..][1..]) == [] by { assert c[2..][1..] == []; }
    assert Created(c[2..]) == [];
    assert c[1..][1..] == c[2..];
    assert Created(c[1..]) == [target];
    assert !c[0].effect.CreateFile?;
  }

  /** A successful step creates exactly its target, if it has one. */
  lemma StepCreatesTarget(w: World, lib: Library, h: seq<Call>, installPath: string, step: TarStep)
    requires StepSpec(w, lib, h, installPath, step).value.None?
    ensures Created(StepSpec(w, lib, h, installPath, step).calls) == TargetOf(lib, installPath, step)
  {
    match Target(lib, installPath, step)
    case None =>
    case Some(target) =>
      WriteCreatesTarget(w, lib, h, target, step.mode);
  }

  /** A successful extraction creates exactly the archive's targets, in order. */
  lemma {:induction false} ExtractCreatesTargets(w: World, lib: Library, h: seq<Call>, installPath: string, archive: seq<TarStep>, i: nat)
    requires i <= |archive|
    requires ExtractSpec(w, lib, h, installPath, archive, i).value.None?
    ensures Created(ExtractSpec(w, lib, h, installPath, archive, i).calls) == Targets(lib, installPath, archive[i..])
    decreases |archive| - i
  {
    if i < |archive| {
      var step := StepSpec(w, lib, h, installPath, archive[i]);
      var rest := ExtractSpec(w, lib, h + step.calls, installPath, archive, i + 1);
      assert archive[i..][0] == archive[i] && archive[i..][1..] == archive[i + 1..];
      ExtractCreatesTargets(w, lib, h + step.calls, installPath, archive, i + 1);
      StepCreatesTarget(w, lib, h, installPath, archive[i]);
      CreatedAppend(step.calls, rest.calls);
    }
  }

  /** Every target is flat: the install path joined with one path element, the base
      of the entry's cleaned name; directories, empty names and "." give none. */
  lemma TargetIsFlat(lib: Library, installPath: string, step: TarStep)
    ensures step.Header? && step.typeflag != TypeReg ==> Target(lib, installPath, step).None?
    ensures step.Header? && lib.cleanPath(step.name) in {"", "."} ==> Target(lib, installPath, step).None?
    ensures Target(lib, installPath, step).Some? ==>
      var b := Base(lib.cleanPath(step.name));
      Target(lib, installPath, step).value == JoinPath(lib, [installPath, b]) && b != "" && (b == "/" || '/' !in b)
  {
  }

  /** Nested entries are flattened: "dir/sub/file" lands at the same place as
      "file". */
  lemma NestedEntryFlattened(lib: Library, installPath: string, dir: string, file: string, mode: int)
    requires file != "" && file != "." && '/' !in file
    requires lib.cleanPath(dir + "/" + file) == dir + "/" + file && lib.cleanPath(file) == file
    ensures Target(lib, installPath, Header(dir + "/" + file, TypeReg, mode)) ==
      Target(lib, installPath, Header(file, TypeReg, mode))
  {
    var nested := dir + "/" + file;
    BaseOfNested(dir, file);
    assert |nested| >= 2;
  }

  // ---- Uninstalling -----------------------------------------------------------------------

  /** `runPluginUninstall`: a plugin directory that does not exist is an error and
      nothing is removed; otherwise the directory is removed, and on success the
      confirmation line is the result. */
  function UninstallSpec(w: World, lib: Library, h: seq<Call>, pluginDir: string, name: string): Out<Result<string>> {
    var installPath := JoinPath(lib, [pluginDir, name]);
    var st := Ask(w, h, Stat(installPath));
    if st.reply.Absent? then Out(Err("plugin '" + name + "' is not installed"), [st])
    else
      var rm := Ask(w, h + [st], RemoveAll(installPath));
      if !rm.reply.Done? then Out(Err("failed to uninstall plugin: " + ErrorText(rm.reply)), [st, rm])
      else Out(Ok("Plugin '" + name + "' uninstalled successfully!"), [st, rm])
  }

  method Uninstall(sh: Shell, pluginDir: string, name: string) returns (r: Result<string>)
    modifies sh`trace
    ensures Performs(old(sh.trace), sh.trace, r, UninstallSpec(sh.world, sh.lib, old(sh.trace), pluginDir, name))
  {
    var installPath := JoinPath(sh.lib, [pluginDir, name]);
    var st := sh.Do(Stat(installPath));
    if st.Absent? {
      return Err("plugin '" + name + "' is not installed");
    }
    var rm := sh.Do(RemoveAll(installPath));
    if !rm.Done? {
      return Err("failed to uninstall plugin: " + ErrorText(rm));
    }
    r := Ok("Plugin '" + name + "' uninstalled successfully!");
  }

  /** A plugin that is not installed is reported and nothing is removed; an
      installed one has exactly its own directory removed. */
  lemma UninstallRemovesOnlyItsDirectory(w: World, lib: Library, h: seq<Call>, pluginDir: string, name: string)
    ensures var u := UninstallSpec(w, lib, h, pluginDir, name);
      var path := JoinPath(lib, [pluginDir, name]);
      (w(h, Stat(path)).Absent? <==> forall c :: c in u.calls ==> !c.effect.RemoveAll?) &&
      (w(h, Stat(path)).Absent? ==> u.value == Err("plugin '" + name + "' is not installed")) &&
      (forall c :: c in u.calls && c.effect.RemoveAll? ==> c.effect.path == path)
  {
    var path := JoinPath(lib, [pluginDir, name]);
    var u := UninstallSpec(w, lib, h, pluginDir, name);
    if !w(h, Stat(path)).Absent? {
      assert u.calls[1].effect == RemoveAll(path);
    }
  }

  /** Uninstalling succeeds exactly when the plugin is there and its removal works. */
  lemma UninstallSucceedsIff(w: World, lib: Library, h: seq<Call>, pluginDir: string, name: string)
    ensures var path := JoinPath(lib, [pluginDir, name]);
      var st := Ask(w, h, Stat(path));
      UninstallSpec(w, lib, h, pluginDir, name).value.Ok? <==>
        !st.reply.Absent? && w(h + [st], RemoveAll(path)).Done?
  {
  }
}
