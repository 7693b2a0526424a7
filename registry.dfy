/** The release systems and the name-to-system registry. Each backend registers
    itself under its name when its package is loaded; the release service and the
    init handler look systems up by the name in the configuration. A `Tool` is one
    of the three backends, and the operations of the common interface dispatch on
    it. */
module Registry {
  import opened Wrappers
  import opened Effects
  import Semver
  import ReleaseTool
  import GoReleaser
  import JReleaser
  import ReleaseIt

  /** A release system: one of the three backends, by reference. */
  datatype Tool =
    | GoTool(go: GoReleaser.GoReleaser)
    | JTool(j: JReleaser.JReleaser)
    | ItTool(it: ReleaseIt.ReleaseIt)

  /** `Name`: each backend's fixed name. */
  function Name(t: Tool): (n: string)
    ensures t.GoTool? ==> n == "goreleaser"
    ensures t.JTool? ==> n == "jreleaser"
    ensures t.ItTool? ==> n == "release-it"
  {
    match t
    case GoTool(_) => GoReleaser.Name
    case JTool(_) => JReleaser.Name
    case ItTool(_) => ReleaseIt.Name
  }

  /** The object a tool's operations change. */
  function Obj(t: Tool): object {
    match t
    case GoTool(g) => g
    case JTool(j) => j
    case ItTool(r) => r
  }

  /** What a tool holds: its release state, and release-it's package manager. */
  datatype Snapshot =
    | GoState(go: GoReleaser.State)
    | JState(j: JReleaser.State)
    | ItState(pm: string, it: ReleaseIt.State)

  function Snap(t: Tool): Snapshot
    reads Obj(t)
  {
    match t
    case GoTool(g) => GoState(g.state)
    case JTool(j) => JState(j.state)
    case ItTool(r) => ItState(r.packageManager, r.state)
  }

  /** The rollback record of what a tool holds. */
  function Projection(s: Snapshot): ReleaseTool.GitReleaseState {
    match s
    case GoState(st) => GoReleaser.Projection(st)
    case JState(st) => JReleaser.Projection(st)
    case ItState(_, st) => ReleaseIt.Projection(st)
  }

  /** `Init` of a tool holding `s`: what it then holds and its error. */
  function InitSpec(w: World, h: seq<Call>, s: Snapshot, cfg: ReleaseConfig): (r: Out<(Snapshot, Failure)>)
    ensures !s.ItState? ==> r.value.0 == s
    ensures s.ItState? ==> r.value.0.ItState? && r.value.0.it == s.it && r.value.0.pm != ""
  {
    match s
    case GoState(_) =>
      var i := GoReleaser.InitSpec(w, h);
      Out((s, i.value), i.calls)
    case JState(_) =>
      var i := JReleaser.InitSpec(w, h, cfg);
      Out((s, i.value), i.calls)
    case ItState(pm, st) =>
      var i := ReleaseIt.InitSpec(w, h, pm, cfg);
      Out((ItState(i.value.0, st), i.value.1), i.calls)
  }

  /** `Release` of a tool holding `s`, to version `v`. */
  function ReleaseSpec(w: World, lib: Library, h: seq<Call>, s: Snapshot, v: Semver.Version): (r: Out<(Snapshot, Failure)>)
    ensures r.value.0.GoState? <==> s.GoState?
    ensures r.value.0.JState? <==> s.JState?
    ensures r.value.0.ItState? <==> s.ItState?
  {
    match s
    case GoState(st) =>
      var r := GoReleaser.ReleaseSpec(w, h, v, st);
      Out((GoState(r.value.state), r.value.err), r.calls)
    case JState(st) =>
      var r := JReleaser.ReleaseSpec(w, lib, h, v, st);
      Out((JState(r.value.state), r.value.err), r.calls)
    case ItState(pm, st) =>
      var r := ReleaseIt.ReleaseSpec(w, h, pm, v, st);
      Out((ItState(r.value.0, r.value.1.state), r.value.1.err), r.calls)
  }

  /** `RevertRelease` of a tool holding `s`: the shared git rollback of its record. */
  function RevertSpec(w: World, lib: Library, h: seq<Call>, s: Snapshot): Out<Failure> {
    ReleaseTool.RevertGitReleaseSpec(w, lib, h, Projection(s))
  }

  method Init(sh: Shell, t: Tool, cfg: ReleaseConfig) returns (err: Failure)
    modifies Obj(t), sh`trace
    ensures var r := InitSpec(sh.world, old(sh.trace), old(Snap(t)), cfg);
      sh.trace == old(sh.trace) + r.calls && Snap(t) == r.value.0 && err == r.value.1
  {
    match t
    case GoTool(g) => err := g.Init(sh, cfg);
    case JTool(j) => err := j.Init(sh, cfg);
    case ItTool(r) => err := r.Init(sh, cfg);
  }

  method Release(sh: Shell, t: Tool, v: Semver.Version) returns (err: Failure)
    modifies Obj(t), sh`trace
    ensures var r := ReleaseSpec(sh.world, sh.lib, old(sh.trace), old(Snap(t)), v);
      sh.trace == old(sh.trace) + r.calls && Snap(t) == r.value.0 && err == r.value.1
  {
    match t
    case GoTool(g) => err := g.Release(sh, v);
    case JTool(j) => err := j.Release(sh, v);
    case ItTool(r) => err := r.Release(sh, v);
  }

  method RevertRelease(sh: Shell, t: Tool) returns (err: Failure)
    modifies sh`trace
    ensures Performs(old(sh.trace), sh.trace, err, RevertSpec(sh.world, sh.lib, old(sh.trace), Snap(t)))
  {
    match t
    case GoTool(g) => err := g.RevertRelease(sh);
    case JTool(j) => err := j.RevertRelease(sh);
    case ItTool(r) => err := r.RevertRelease(sh);
  }

  // ---- The registry ---------------------------------------------------------------

  const DetectedPrefix := "Detected Release Tool: "

  /** Every object a registry's tools hold. */
  function Footprint(tools: map<string, Tool>): set<object> {
    set t | t in tools.Values :: Obj(t)
  }

  /** The registry's objects are release systems; the shell is never one of them. */
  lemma ShellOutside(tools: map<string, Tool>, sh: Shell)
    ensures sh !in Footprint(tools)
  {
  }

  /** What the tool registered under `name` holds, or `Get`'s error. */
  function Find(tools: map<string, Tool>, name: string): (r: Result<Snapshot>)
    reads if name in tools && tools[name].GoTool? then {tools[name].go} else {}
    reads if name in tools && tools[name].JTool? then {tools[name].j} else {}
    reads if name in tools && tools[name].ItTool? then {tools[name].it} else {}
    ensures r.Ok? <==> name in tools
    ensures r.Err? ==> r.error == "unknown release system: " + name
  {
    if name in tools then Ok(Snap(tools[name])) else Err("unknown release system: " + name)
  }

  /** `Get` on a registry holding `tools`. */
  function Lookup(tools: map<string, Tool>, name: string): (r: Result<Tool>)
    ensures r.Ok? <==> name in tools
    ensures r.Ok? ==> r.value == tools[name]
    ensures r.Err? ==> r.error == "unknown release system: " + name
  {
    if name in tools then Ok(tools[name]) else Err("unknown release system: " + name)
  }

  class Registry {
    var tools: map<string, Tool>

    constructor()
      ensures tools == map[]
    {
      tools := map[];
    }

    /** `Register`: announces the tool on standard output, then files it under its
        name, replacing any tool of the same name. */
    method Register(sh: Shell, t: Tool)
      modifies this`tools, sh`trace
      ensures sh.trace == old(sh.trace) + [Ask(sh.world, old(sh.trace), StdoutText(DetectedPrefix + Name(t)))]
      ensures tools == old(tools)[Name(t) := t]
    {
      var _ := sh.Do(StdoutText(DetectedPrefix + Name(t)));
      tools := tools[Name(t) := t];
    }

    method Get(name: string) returns (r: Result<Tool>)
      ensures r == Lookup(tools, name)
    {
      if name in tools {
        r := Ok(tools[name]);
      } else {
        r := Err("unknown release system: " + name);
      }
    }
  }

  /** The package initialisers: each backend, fresh, registers itself. */
  method RegisterAll(sh: Shell, reg: Registry)
    modifies reg`tools, sh`trace
    ensures reg.tools.Keys == old(reg.tools.Keys) + {"goreleaser", "jreleaser", "release-it"}
    ensures forall n :: n in reg.tools && n !in old(reg.tools) ==> fresh(Obj(reg.tools[n]))
    ensures forall n :: n in reg.tools && n !in {"goreleaser", "jreleaser", "release-it"} ==> reg.tools[n] == old(reg.tools[n])
    ensures Snap(reg.tools["goreleaser"]) == GoState(GoReleaser.Zero)
    ensures Snap(reg.tools["jreleaser"]) == JState(JReleaser.Zero)
    ensures Snap(reg.tools["release-it"]) == ItState("", ReleaseIt.Zero)
  {
    var g := new GoReleaser.GoReleaser();
    reg.Register(sh, GoTool(g));
    var j := new JReleaser.JReleaser();
    reg.Register(sh, JTool(j));
    var r := new ReleaseIt.ReleaseIt();
    reg.Register(sh, ItTool(r));
  }

  // ---- Properties -------------------------------------------------------------------

  /** After `Register(t)`, `Get(t.Name())` finds `t`. */
  lemma GetAfterRegister(tools: map<string, Tool>, t: Tool)
    ensures Lookup(tools[Name(t) := t], Name(t)) == Ok(t)
  {
  }

  /** Registering under a name twice keeps the later tool. */
  lemma LastRegistrationWins(tools: map<string, Tool>, t1: Tool, t2: Tool)
    requires Name(t1) == Name(t2)
    ensures tools[Name(t1) := t1][Name(t2) := t2] == tools[Name(t2) := t2]
    ensures Lookup(tools[Name(t1) := t1][Name(t2) := t2], Name(t1)) == Ok(t2)
  {
  }

  /** Registering leaves every other name as it was. */
  lemma RegisterKeepsOthers(tools: map<string, Tool>, t: Tool, name: string)
    requires name != Name(t)
    ensures Lookup(tools[Name(t) := t], name) == Lookup(tools, name)
  {
  }

  /** With every backend registered, a name is found exactly when it is a release
      system of the configuration's enumeration. */
  lemma KnownSystems(tools: map<string, Tool>, name: string)
    requires tools.Keys == {"goreleaser", "jreleaser", "release-it"}
    ensures Lookup(tools, name).Ok? <==> name == "goreleaser" || name == "jreleaser" || name == "release-it"
  {
  }

  /** A release changes nothing but the backend's own state: the kind of tool stays,
      and release-it keeps its package manager once known. */
  lemma ReleaseKeepsPackageManager(w: World, lib: Library, h: seq<Call>, pm: string, st: ReleaseIt.State, v: Semver.Version)
    requires pm != ""
    ensures ReleaseSpec(w, lib, h, ItState(pm, st), v).value.0.pm == pm
  {
  }
}
