/**
 * The in-browser Node.js runner (`runJS`): acquire the shared container, mount
 * the editor files plus a synthesised `package.json`, spawn `node` on the active
 * file, feed it stdin, and collect what it prints.
 *
 * The container itself is outside the model: what it does when mounted,
 * spawned and written to is a `ContainerWorld` parameter, and the calls the
 * runner makes on it are returned in order.
 */
module WebContainerRunner {
  import opened Types
  import opened Text
  import opened EngineHandle

  /** The synthesised `package.json`: its name, its `start` script, and whether it declares `"type": "module"`. */
  datatype Manifest = Manifest(name: string, start: string, esModule: bool)

  /** One entry of the mount object: an editor file, or the synthesised manifest. */
  datatype MountEntry = Source(contents: string) | Generated(manifest: Manifest)

  type MountTree = map<string, MountEntry>

  /** The calls `runJS` makes on the container, in order. */
  datatype ContainerCall =
    | Mount(tree: MountTree)
    | Spawn(command: string, args: seq<string>)
    | WriteInput(data: string)

  /**
   * How the container answers: a failure of `mount`, of `spawn` or of the stdin
   * write (each `None` when it succeeds), the chunks the process prints, and its
   * exit code.
   */
  datatype ContainerWorld = ContainerWorld(
    mountFault: Option<Fault>, spawnFault: Option<Fault>, inputFault: Option<Fault>,
    chunks: seq<string>, exitCode: int)

  /** What one call of `runJS` produces: its result, what it streams to `onOutput`, and its container calls. */
  datatype Run = Run(result: RunResult, emitted: seq<string>, calls: seq<ContainerCall>)

  // ---- the mount object ----

  /** The content the mount object holds for `name`: that of the last file so named, since later keys overwrite. */
  function LastContent(files: seq<CodeFile>, name: string): (c: string)
    requires name in Names(files)
    ensures exists k :: 0 <= k < |files| && files[k].name == name && files[k].content == c
                        && forall j :: k < j < |files| ==> files[j].name != name
  {
    var last := files[|files| - 1];
    if last.name == name then last.content
    else
      var front := files[..|files| - 1];
      assert forall f :: f in files && f != last ==> f in front;
      assert exists f :: f in front && f.name == name;
      LastContent(front, name)
  }

  /** The mount object built from the files alone: one `Source` entry per distinct name. */
  function FileTree(files: seq<CodeFile>): MountTree {
    map name | name in Names(files) :: Source(LastContent(files, name))
  }

  lemma FileTreeSnoc(files: seq<CodeFile>, f: CodeFile)
    ensures FileTree(files + [f]) == FileTree(files)[f.name := Source(f.content)]
  {
    var all := files + [f];
    assert Names(all) == Names(files) + {f.name} by {
      assert forall g :: g in all <==> g in files || g == f;
    }
    assert all[..|all| - 1] == files;
    forall n | n in Names(all)
      ensures FileTree(all)[n] == FileTree(files)[f.name := Source(f.content)][n]
    {
      if n != f.name {
        assert LastContent(all, n) == LastContent(files, n);
      }
    }
  }

  /** The loop over `files` that fills the mount object. */
  method BuildMountTree(files: seq<CodeFile>) returns (tree: MountTree)
    ensures tree == FileTree(files)
  {
    tree := map[];
    for i := 0 to |files|
      invariant tree == FileTree(files[..i])
    {
      assert files[..i + 1] == files[..i] + [files[i]];
      FileTreeSnoc(files[..i], files[i]);
      tree := tree[files[i].name := Source(files[i].content)];
    }
    assert files[..|files|] == files;
  }

  // ---- CommonJS detection ----

  /** The contents of all files joined with newlines (`allCode`). */
  function AllCode(files: seq<CodeFile>): string {
    Join(seq(|files|, k requires 0 <= k < |files| => files[k].content), "\n")
  }

  /** White space and then `(` follow position `j`. */
  predicate ParenAfterSpace(code: string, j: nat) {
    exists k :: j <= k < |code| && code[k] == '(' && forall m :: j <= m < k ==> IsJsSpace(code[m])
  }

  /**
   * `/(?:^|[^.\w])require\s*\(/` matches with `require` at `i`: it is at the start
   * or after a character that is neither `.` nor a word character, and is
   * followed by white space and an opening parenthesis.
   */
  predicate RequireCallAt(code: string, i: nat) {
    i + 7 <= |code| && code[i..i + 7] == "require"
    && (i == 0 || (code[i - 1] != '.' && !IsWordChar(code[i - 1])))
    && ParenAfterSpace(code, i + 7)
  }

  /** `usesCJS`: a bare `require(` call, or `module.exports`, anywhere in the code. */
  predicate UsesCommonJS(code: string) {
    (exists i :: 0 <= i < |code| && RequireCallAt(code, i)) || Contains(code, "module.exports")
  }

  /** The manifest added when the files bring none: ES modules unless CommonJS is detected. */
  function StartManifest(files: seq<CodeFile>, mainName: string): Manifest {
    Manifest("runnow-snippet", "node " + mainName, !UsesCommonJS(AllCode(files)))
  }

  /** The mount object `runJS` mounts. */
  function ProjectTree(files: seq<CodeFile>, mainName: string): MountTree {
    if "package.json" in Names(files) then FileTree(files)
    else FileTree(files)["package.json" := Generated(StartManifest(files, mainName))]
  }

  /**
   * The mount object has one entry per file name plus `package.json`, and the
   * synthesised manifest never replaces an editor file.
   */
  lemma ProjectTreeEntries(files: seq<CodeFile>, mainName: string)
    ensures ProjectTree(files, mainName).Keys == Names(files) + {"package.json"}
    ensures forall n :: n in Names(files) ==> ProjectTree(files, mainName)[n] == Source(LastContent(files, n))
  {
  }

  /** A project that writes `module.exports` anywhere is never declared an ES module. */
  lemma ModuleExportsNotEsModule(files: seq<CodeFile>, mainName: string, k: nat)
    requires k < |files| && Contains(files[k].content, "module.exports")
    requires "package.json" !in Names(files)
    ensures ProjectTree(files, mainName)["package.json"] ==
            Generated(Manifest("runnow-snippet", "node " + mainName, false))
  {
    var parts := seq(|files|, j requires 0 <= j < |files| => files[j].content);
    JoinContainsPart(parts, "\n", k, "module.exports");
  }

  /** A project without `require(` calls and without `module.exports` is declared an ES module. */
  lemma PlainProjectIsEsModule(files: seq<CodeFile>, mainName: string)
    requires "package.json" !in Names(files)
    requires !UsesCommonJS(AllCode(files))
    ensures ProjectTree(files, mainName)["package.json"].manifest.esModule
  {
  }

  /** A `package.json` among the files is mounted as written, never replaced. */
  lemma UserManifestKept(files: seq<CodeFile>, mainName: string)
    requires "package.json" in Names(files)
    ensures ProjectTree(files, mainName) == FileTree(files)
    ensures ProjectTree(files, mainName)["package.json"].Source?
  {
  }

  // ---- one run ----

  /** The note streamed after a process that exits with a non-zero code (a literal backslash-n on both sides). */
  function ExitNote(code: int): string {
    "\\nProcess exited with code " + IntToString(code) + "\\n"
  }

  /** The catch block: the message streamed and the result returned for a thrown error. */
  function Failure(notices: seq<string>, calls: seq<ContainerCall>, f: Fault, elapsed: int): Run {
    Run(RunResult(ErrorOutput(f), elapsed), notices + [ErrorNote(f)], calls)
  }

  /** The calls that reach the process: mount, spawn, and the stdin write when there is input. */
  function ProcessCalls(tree: MountTree, mainName: string, stdin: string): seq<ContainerCall> {
    [Mount(tree), Spawn("node", [mainName])] + (if stdin != "" then [WriteInput(stdin)] else [])
  }

  /** `runJS` after acquisition, given its outcome `acq` and the notices the acquisition streamed. */
  function ContainerRun(acq: Result<Instance>, notices: seq<string>, files: seq<CodeFile>,
                        activeFileId: string, stdin: string, world: ContainerWorld, elapsed: int): Run
  {
    if acq.Err? then Failure(notices, [], acq.fault, elapsed)
    else
      match FindFile(files, activeFileId)
      case None => Failure(notices, [], MainNotFound, elapsed)
      case Some(main) => ProcessRun(notices, ProjectTree(files, main.name), main.name, stdin, world, elapsed)
  }

  /** Mounting `tree`, spawning `node` on the main file, feeding stdin and waiting for the exit. */
  function ProcessRun(notices: seq<string>, tree: MountTree, mainName: string, stdin: string,
                      world: ContainerWorld, elapsed: int): Run
  {
    if world.mountFault.Some? then Failure(notices, [Mount(tree)], world.mountFault.value, elapsed)
    else if world.spawnFault.Some? then
      Failure(notices, [Mount(tree), Spawn("node", [mainName])], world.spawnFault.value, elapsed)
    else if stdin != "" && world.inputFault.Some? then
      Failure(notices, ProcessCalls(tree, mainName, stdin), world.inputFault.value, elapsed)
    else
      var tail := if world.exitCode != 0 then [ExitNote(world.exitCode)] else [];
      Run(RunResult(Concat(world.chunks), elapsed), notices + world.chunks + tail,
          ProcessCalls(tree, mainName, stdin))
  }

  /** The run reaches a process that exits, with no error thrown on the way. */
  predicate Completes(acq: Result<Instance>, files: seq<CodeFile>, activeFileId: string,
                      stdin: string, world: ContainerWorld) {
    acq.Ok? && FindFile(files, activeFileId).Some? && world.mountFault.None? && world.spawnFault.None?
    && (stdin == "" || world.inputFault.None?)
  }

  /**
   * A completed run returns exactly what the process printed, whatever its exit
   * code (the exit note is streamed, never returned); any other run returns the
   * error tagged with `ERROR: ` and streams the same message as its last chunk.
   */
  lemma RunOutcome(acq: Result<Instance>, notices: seq<string>, files: seq<CodeFile>,
                   activeFileId: string, stdin: string, world: ContainerWorld, elapsed: int)
    ensures var r := ContainerRun(acq, notices, files, activeFileId, stdin, world, elapsed);
      r.result.time == elapsed
      && |r.emitted| >= |notices| && r.emitted[..|notices|] == notices
      && (Completes(acq, files, activeFileId, stdin, world) ==>
            r.result.output == Concat(world.chunks)
            && r.emitted == notices + world.chunks + (if world.exitCode != 0 then [ExitNote(world.exitCode)] else []))
      && (!Completes(acq, files, activeFileId, stdin, world) ==>
            exists f :: r.result.output == ErrorOutput(f) && r.emitted == notices + [ErrorNote(f)])
  {
  }

  /** Without an instance or a main file the container is never touched. */
  lemma NoCallsWithoutMain(acq: Result<Instance>, notices: seq<string>, files: seq<CodeFile>,
                           activeFileId: string, stdin: string, world: ContainerWorld, elapsed: int)
    requires acq.Err? || FindFile(files, activeFileId).None?
    ensures ContainerRun(acq, notices, files, activeFileId, stdin, world, elapsed).calls == []
  {
  }

  /**
   * Once a main file is found the project is mounted first, and the only process
   * ever spawned is `node` on the main file's name.
   */
  lemma MountThenSpawnMain(acq: Result<Instance>, notices: seq<string>, files: seq<CodeFile>,
                           activeFileId: string, stdin: string, world: ContainerWorld, elapsed: int)
    requires acq.Ok? && FindFile(files, activeFileId).Some?
    ensures var r := ContainerRun(acq, notices, files, activeFileId, stdin, world, elapsed);
      var main := FindFile(files, activeFileId).value;
      r.calls != [] && r.calls[0] == Mount(ProjectTree(files, main.name))
      && forall c :: c in r.calls && c.Spawn? ==> c == Spawn("node", [main.name])
  {
    var main := FindFile(files, activeFileId).value;
    ProcessCallsShape(notices, ProjectTree(files, main.name), main.name, stdin, world, elapsed);
  }

  /** Every run that reaches the container mounts first and spawns only `node` on the main file. */
  lemma ProcessCallsShape(notices: seq<string>, tree: MountTree, mainName: string, stdin: string,
                          world: ContainerWorld, elapsed: int)
    ensures var calls := ProcessRun(notices, tree, mainName, stdin, world, elapsed).calls;
      calls != [] && calls[0] == Mount(tree)
      && forall c :: c in calls && c.Spawn? ==> c == Spawn("node", [mainName])
  {
    var calls := ProcessCalls(tree, mainName, stdin);
    assert forall c :: c in calls ==> c == Mount(tree) || c == Spawn("node", [mainName]) || c == WriteInput(stdin);
  }

  /** In a completed run stdin is written to the process exactly when it is non-empty. */
  lemma StdinWrittenIffGiven(acq: Result<Instance>, notices: seq<string>, files: seq<CodeFile>,
                             activeFileId: string, stdin: string, world: ContainerWorld, elapsed: int)
    requires Completes(acq, files, activeFileId, stdin, world)
    ensures WriteInput(stdin) in ContainerRun(acq, notices, files, activeFileId, stdin, world, elapsed).calls
            <==> stdin != ""
  {
  }

  /** `onOutput` as the process output stream's sink: each chunk is appended and forwarded. */
  method Drain(chunks: seq<string>, sink: seq<string>) returns (output: string, sink': seq<string>)
    ensures output == Concat(chunks) && sink' == sink + chunks
  {
    output, sink' := "", sink;
    for i := 0 to |chunks|
      invariant output == Concat(chunks[..i]) && sink' == sink + chunks[..i]
    {
      assert chunks[..i + 1][..i] == chunks[..i];
      output := output + chunks[i];
      sink' := sink' + [chunks[i]];
      assert chunks[..i + 1] == chunks[..i] + [chunks[i]];
    }
    assert chunks[..|chunks|] == chunks;
  }

  /** `runJS` from the instance check on: find the main file, mount, spawn, feed stdin and drain. */
  method Launch(acq: Result<Instance>, notices: seq<string>, files: seq<CodeFile>, activeFileId: string,
                stdin: string, world: ContainerWorld, startTime: int, endTime: int) returns (r: Run)
    ensures r == ContainerRun(acq, notices, files, activeFileId, stdin, world, endTime - startTime)
  {
    var elapsed := endTime - startTime;
    if acq.Err? {
      return Failure(notices, [], acq.fault, elapsed);
    }
    var main := FindFile(files, activeFileId);
    if main.None? {
      return Failure(notices, [], MainNotFound, elapsed);
    }
    var name := main.value.name;
    var tree := BuildMountTree(files);
    if "package.json" !in Names(files) {
      tree := tree["package.json" := Generated(StartManifest(files, name))];
    }
    assert tree == ProjectTree(files, name);
    r := Process(notices, tree, name, stdin, world, startTime, endTime);
  }

  /** Mount, spawn, feed stdin, drain the output stream and wait for the exit. */
  method Process(notices: seq<string>, tree: MountTree, name: string, stdin: string, world: ContainerWorld,
                 startTime: int, endTime: int) returns (r: Run)
    ensures r == ProcessRun(notices, tree, name, stdin, world, endTime - startTime)
  {
    var elapsed := endTime - startTime;
    if world.mountFault.Some? {
      return Failure(notices, [Mount(tree)], world.mountFault.value, elapsed);
    }
    if world.spawnFault.Some? {
      return Failure(notices, [Mount(tree), Spawn("node", [name])], world.spawnFault.value, elapsed);
    }
    var calls := ProcessCalls(tree, name, stdin);
    if stdin != "" && world.inputFault.Some? {
      return Failure(notices, calls, world.inputFault.value, elapsed);
    }
    var output, emitted := Drain(world.chunks, notices);
    if world.exitCode != 0 {
      emitted := emitted + [ExitNote(world.exitCode)];
    }
    r := Run(RunResult(output, elapsed), emitted, calls);
  }

  /** `runJS`, on the shared container engine. */
  method RunJS(engine: Engine, files: seq<CodeFile>, activeFileId: string, stdin: string,
               boot: Result<Instance>, inflight: Result<Instance>, world: ContainerWorld,
               startTime: int, endTime: int)
    returns (run: Run)
    requires engine.Valid() && engine.kind == Container
    modifies engine
    ensures engine.Valid() && engine.State() == AfterAcquire(Container, old(engine.State()), boot, inflight)
    ensures run ==
      ContainerRun(AcquireOutcome(Container, old(engine.instance), old(engine.busy), boot, inflight),
                   AcquireNotices(Container, old(engine.instance), old(engine.busy), boot),
                   files, activeFileId, stdin, world, endTime - startTime)
  {
    ghost var before := engine.State();
    var acq, notices := engine.Acquire(boot, inflight);
    assert engine.State() == AfterAcquire(Container, before, boot, inflight);
    run := Launch(acq, notices, files, activeFileId, stdin, world, startTime, endTime);
  }
}
