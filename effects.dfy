/** The world outside the program: child processes, files, the environment, HTTP, the
    standard streams and process exit. Every such action is an `Effect`; the world
    answers it with a `Reply` that may depend on everything asked before (a commit
    changes what `git rev-parse HEAD` prints next). A `Shell` keeps the trace of every
    effect performed with its reply; the operations of the model are specified by pure
    functions that compute their result together with the calls they make. */
module Effects {
  import opened Wrappers
  import opened PluginTypes
  import Semver
  import Strs

  /** The configuration record of the release plugin, as its handlers use it. */
  datatype ReleaseConfig = ReleaseConfig(
    projectOwner: string,
    projectName: string,
    projectType: string,
    releaseSystem: string,
    version: string)

  /** The jreleaser.yml document: the project and GitHub-release settings the release
      system reads or writes, and everything else as one uninterpreted value. */
  datatype JReleaserConfig = JReleaserConfig(
    projectName: string,
    projectVersion: string,
    groupId: string,
    inceptionYear: string,
    owner: string,
    repoName: string,
    tagName: string,
    releaseName: string,
    other: string)

  datatype DirEntry = DirEntry(name: string, isDir: bool)

  datatype Effect =
    | Cmd(bin: string, args: seq<string>)             // a child process, waited for
    | CmdWithEnv(bin: string, args: seq<string>, env: seq<string>)
    | LookPath(bin: string)                           // exec.LookPath
    | LookupEnv(name: string)                         // os.LookupEnv
    | Stat(path: string)                              // os.Stat
    | ReadFile(path: string)                          // os.ReadFile
    | ReadDir(path: string)                           // os.ReadDir
    | SaveReleaseConfig(cfg: ReleaseConfig)           // config.SaveConfig
    | SaveJReleaser(path: string, doc: JReleaserConfig)
    | SaveReleaseItDefaults(projectName: string)      // releaseit.InitDefaultConfig + SaveConfig
    | CurrentYear                                     // time.Now().Year(), as decimal text
    | HttpGet(url: string, token: string)
    | HttpDelete(url: string, token: string)
    | RunPlugin(path: string, args: seq<string>, stdin: string)
    | RemoveAll(path: string)
    | MkdirAll(path: string)                          // os.MkdirAll
    | CreateFile(path: string, mode: int)             // os.OpenFile(O_CREATE|O_RDWR|O_TRUNC)
    | CopyEntry(path: string)                         // io.Copy of a tar entry into the file, then Close
    | Stdout(resp: Response)                          // json.NewEncoder(os.Stdout).Encode
    | StdoutText(text: string)
    | StderrLines(lines: seq<string>)
    | Exit(code: int)                                 // os.Exit

  /** `Done` is success with the action's output; `Failed` carries the error text and
      any output the action produced; `Absent` is "does not exist" (`os.IsNotExist`,
      an unset variable, a binary not on the path). */
  datatype Reply =
    | Done(out: string)
    | Failed(err: string, out: string)
    | Absent(err: string)
    | HttpStatus(code: int, body: string)
    | Exited(ok: bool, err: string, stdout: string, stderr: string)
    | Entries(entries: seq<DirEntry>)

  datatype Call = Call(effect: Effect, reply: Reply)

  /** The world answers an effect, given every call made before it. */
  type World = (seq<Call>, Effect) -> Reply

  /** Libraries whose code is not part of this model: the semantic-version parser,
      JSON and YAML decoding (`decodeReleaseId` reads the `id` of a GitHub release
      payload, `decodeJReleaser` a jreleaser.yml), JSON encoding of a request,
      path cleaning and terminal colouring. */
  datatype Library = Library(
    parseVersion: string -> Result<Semver.Version>,
    decodeConfig: string -> Result<ReleaseConfig>,
    decodeRequest: string -> Result<Request>,
    decodeResponse: string -> Result<Response>,
    decodeManifest: string -> Result<Manifest>,
    encodeRequest: Request -> string,
    decodeJReleaser: string -> Result<JReleaserConfig>,
    decodeReleaseId: string -> Result<int>,
    cleanPath: string -> string,
    colorText: (string, string) -> string)

  /** A result together with the calls that produced it, in order. */
  datatype Out<+T> = Out(value: T, calls: seq<Call>)

  /** Performing `e` after history `h`. */
  function Ask(w: World, h: seq<Call>, e: Effect): Call {
    Call(e, w(h, e))
  }

  /** A method produced `value` and appended exactly the calls of `spec`. */
  predicate Performs<T(==)>(before: seq<Call>, after: seq<Call>, value: T, spec: Out<T>) {
    after == before + spec.calls && value == spec.value
  }

  /** Appending calls in two steps is appending them in one. */
  lemma AppendAssoc(a: seq<Call>, b: seq<Call>, c: seq<Call>)
    ensures a + b + c == a + (b + c)
  {
  }

  /** Calls that open with `a + b` open with `a`. */
  lemma PrefixOfPrefix(r: seq<Call>, a: seq<Call>, b: seq<Call>)
    requires |r| >= |a + b| && r[..|a + b|] == a + b
    ensures |r| >= |a| && r[..|a|] == a
  {
    assert r[..|a|] == r[..|a + b|][..|a|];
  }

  predicate Succeeded(r: Reply) {
    r.Done?
  }

  /** The error text of a failed reply. */
  function ErrorText(r: Reply): string {
    match r
    case Done(_) => ""
    case Failed(err, _) => err
    case Absent(err) => err
    case HttpStatus(code, _) => "status " + IntText(code)
    case Exited(_, err, _, _) => err
    case Entries(_) => ""
  }

  /** The output of a command, whether it failed or not. */
  function Output(r: Reply): string {
    match r
    case Done(out) => out
    case Failed(_, out) => out
    case _ => ""
  }

  /** The elements of a path that are not empty, in order. */
  function NonEmpty(elems: seq<string>): (r: seq<string>)
    ensures |r| <= |elems|
    ensures forall i :: 0 <= i < |r| ==> r[i] != ""
  {
    if elems == [] then []
    else (if elems[0] == "" then [] else [elems[0]]) + NonEmpty(elems[1..])
  }

  /** `filepath.Join`: the non-empty elements joined by "/" and cleaned, "" when
      every element is empty. */
  function JoinPath(lib: Library, elems: seq<string>): string {
    var parts := NonEmpty(elems);
    if parts == [] then "" else lib.cleanPath(Strs.Join(parts, "/"))
  }

  /** The process's connection to the world. */
  class Shell {
    const world: World
    const lib: Library
    var trace: seq<Call>
    /** The process-wide `log.Verbose` switch. */
    var verbose: bool

    constructor(world: World, lib: Library)
      ensures this.world == world && this.lib == lib && trace == [] && !verbose
    {
      this.world := world;
      this.lib := lib;
      trace := [];
      verbose := false;
    }

    /** Performs one effect: the world's answer is recorded after everything before. */
    method Do(e: Effect) returns (r: Reply)
      modifies this`trace
      ensures r == world(old(trace), e)
      ensures trace == old(trace) + [Call(e, r)]
    {
      r := world(trace, e);
      trace := trace + [Call(e, r)];
    }
  }
}
