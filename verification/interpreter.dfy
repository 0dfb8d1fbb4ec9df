/**
 * The in-browser Python runner (`runPython`): acquire the shared Pyodide
 * interpreter, bind its output sinks, copy the other editor files into its
 * virtual file system, expose stdin as the global `input_data`, and run the
 * active file.
 *
 * The interpreter itself is outside the model: the lines the program prints and
 * how it ends are a `PythonWorld` parameter, and the calls the runner makes on
 * the interpreter are returned in order.
 */
module PyodideRunner {
  import opened Types
  import opened Text
  import opened EngineHandle

  /** One batched line from the interpreter, without its newline. */
  datatype StreamLine = Stdout(text: string) | Stderr(text: string)

  /** The calls `runPython` makes on the interpreter, in order. */
  datatype PythonCall =
    | BindSinks                                  // setStdout and setStderr
    | WriteFile(path: string, data: string)      // FS.writeFile
    | SetGlobal(name: string, value: string)     // globals.set
    | RunSource(code: string)                    // runPythonAsync

  /**
   * How the program behaves: the lines it prints, and how `runPythonAsync`
   * settles — a thrown error, or the value of the last expression (`None` when
   * it is `undefined`, otherwise what `toString` gives).
   */
  datatype PythonWorld = PythonWorld(lines: seq<StreamLine>, outcome: Result<Option<string>>)

  /** What one call of `runPython` produces: its result, what it streams, and its interpreter calls. */
  datatype Run = Run(result: RunResult, emitted: seq<string>, calls: seq<PythonCall>)

  // ---- output capture ----

  /** What the sinks append for one line: stdout as is, stderr tagged, both with a newline. */
  function Rendered(line: StreamLine): (s: string)
    ensures s != [] && s[|s| - 1] == '\n'
  {
    match line
    case Stdout(text) => text + "\n"
    case Stderr(text) => "ERROR: " + text + "\n"
  }

  /** The chunks the sinks produce for a sequence of lines, in order. */
  function RenderAll(lines: seq<StreamLine>): (r: seq<string>)
    ensures |r| == |lines|
  {
    if lines == [] then [] else RenderAll(lines[..|lines| - 1]) + [Rendered(lines[|lines| - 1])]
  }

  /** The captured output is empty exactly when the program printed no line (the `!output` test). */
  lemma CapturedEmptyIffSilent(lines: seq<StreamLine>)
    ensures Concat(RenderAll(lines)) == "" <==> lines == []
  {
    if lines != [] {
      var r := RenderAll(lines);
      var last := Rendered(lines[|lines| - 1]);
      assert r == RenderAll(lines[..|lines| - 1]) + [last];
      assert r[..|r| - 1] == RenderAll(lines[..|lines| - 1]);
      assert Concat(r) == Concat(r[..|r| - 1]) + last;
    }
  }

  /** The two sinks: each line is appended to `output` and forwarded to `onOutput`. */
  method Capture(lines: seq<StreamLine>, sink: seq<string>) returns (output: string, sink': seq<string>)
    ensures output == Concat(RenderAll(lines)) && sink' == sink + RenderAll(lines)
  {
    output, sink' := "", sink;
    for i := 0 to |lines|
      invariant output == Concat(RenderAll(lines[..i])) && sink' == sink + RenderAll(lines[..i])
    {
      var chunk := Rendered(lines[i]);
      assert lines[..i + 1][..i] == lines[..i];
      assert RenderAll(lines[..i + 1]) == RenderAll(lines[..i]) + [chunk];
      assert Concat(RenderAll(lines[..i + 1])) == Concat(RenderAll(lines[..i])) + chunk;
      output := output + chunk;
      sink' := sink' + [chunk];
    }
    assert lines[..|lines|] == lines;
  }

  // ---- the virtual file system ----

  /** The files copied into the interpreter's file system: every file but the active one, in order. */
  function AuxWrites(files: seq<CodeFile>, activeFileId: string): (w: seq<PythonCall>)
    ensures forall c :: c in w ==> exists f :: f in files && f.id != activeFileId && c == WriteFile(f.name, f.content)
    ensures forall f :: f in files && f.id != activeFileId ==> WriteFile(f.name, f.content) in w
    ensures |w| <= |files|
  {
    if files == [] then []
    else
      var front, last := files[..|files| - 1], files[|files| - 1];
      assert files == front + [last];
      AuxWrites(front, activeFileId)
      + (if last.id != activeFileId then [WriteFile(last.name, last.content)] else [])
  }

  /** The loop over `files` that writes the other files. */
  method WriteAuxFiles(files: seq<CodeFile>, activeFileId: string) returns (calls: seq<PythonCall>)
    ensures calls == AuxWrites(files, activeFileId)
  {
    calls := [];
    for i := 0 to |files|
      invariant calls == AuxWrites(files[..i], activeFileId)
    {
      assert files[..i + 1][..i] == files[..i];
      if files[i].id != activeFileId {
        calls := calls + [WriteFile(files[i].name, files[i].content)];
      }
    }
    assert files[..|files|] == files;
  }

  // ---- one run ----

  /** The catch block. */
  function Failure(notices: seq<string>, calls: seq<PythonCall>, f: Fault, elapsed: int): Run {
    Run(RunResult(ErrorOutput(f), elapsed), notices + [ErrorNote(f)], calls)
  }

  /** The calls once the main file is known: sinks, the other files, stdin, then the main file's source. */
  function SessionCalls(files: seq<CodeFile>, main: CodeFile, stdin: string): seq<PythonCall> {
    [BindSinks] + AuxWrites(files, main.id)
    + (if stdin != "" then [SetGlobal("input_data", stdin)] else [])
    + [RunSource(main.content)]
  }

  /** `runPython` after acquisition, given its outcome `acq` and the notices the acquisition streamed. */
  function PythonRun(acq: Result<Instance>, notices: seq<string>, files: seq<CodeFile>,
                     activeFileId: string, stdin: string, world: PythonWorld, elapsed: int): Run
  {
    if acq.Err? then Failure(notices, [], acq.fault, elapsed)
    else
      match FindFile(files, activeFileId)
      case None => Failure(notices, [BindSinks], MainNotFound, elapsed)
      case Some(main) => Session(notices, SessionCalls(files, main, stdin), world, elapsed)
  }

  /** Running the main file once the calls are made: captured lines, then the error or the trailing value. */
  function Session(notices: seq<string>, calls: seq<PythonCall>, world: PythonWorld, elapsed: int): Run {
    var captured := RenderAll(world.lines);
    var output := Concat(captured);
    match world.outcome
    case Err(f) => Failure(notices + captured, calls, f, elapsed)
    case Ok(value) =>
      if value.Some? && output == "" then
        Run(RunResult(value.value + "\\n", elapsed), notices + captured + [value.value + "\\n"], calls)
      else Run(RunResult(output, elapsed), notices + captured, calls)
  }

  /** The run reaches the end of the program with no error thrown on the way. */
  predicate Completes(acq: Result<Instance>, files: seq<CodeFile>, activeFileId: string, world: PythonWorld) {
    acq.Ok? && FindFile(files, activeFileId).Some? && world.outcome.Ok?
  }

  /**
   * Once the main file runs: a completed program returns what it printed
   * (stderr lines tagged), or, when it printed nothing, the value of its last
   * expression followed by a literal backslash-n; a Python error is caught
   * after the printed lines were streamed.
   */
  lemma SessionOutcome(notices: seq<string>, calls: seq<PythonCall>, world: PythonWorld, elapsed: int)
    ensures var r := Session(notices, calls, world, elapsed);
      var captured := RenderAll(world.lines);
      r.calls == calls
      && (world.outcome.Ok? && world.lines != [] ==>
            r.result == RunResult(Concat(captured), elapsed) && r.emitted == notices + captured)
      && (world.outcome.Ok? && world.lines == [] ==>
            match world.outcome.value
            case None => r.result == RunResult("", elapsed) && r.emitted == notices
            case Some(v) => r.result == RunResult(v + "\\n", elapsed) && r.emitted == notices + [v + "\\n"])
      && (world.outcome.Err? ==> r == Failure(notices + captured, calls, world.outcome.fault, elapsed))
  {
    CapturedEmptyIffSilent(world.lines);
    if world.lines == [] {
      assert RenderAll(world.lines) == [];
      assert notices + [] == notices;
    }
  }

  /**
   * Every run keeps the elapsed time; a run that does not complete returns the
   * tagged error and streams its note last, and the lines printed before a
   * Python error are streamed but not returned.
   */
  lemma RunOutcome(acq: Result<Instance>, notices: seq<string>, files: seq<CodeFile>,
                   activeFileId: string, stdin: string, world: PythonWorld, elapsed: int)
    ensures var r := PythonRun(acq, notices, files, activeFileId, stdin, world, elapsed);
      r.result.time == elapsed
      && (Completes(acq, files, activeFileId, world) ==>
            r == Session(notices, SessionCalls(files, FindFile(files, activeFileId).value, stdin), world, elapsed))
      && (!Completes(acq, files, activeFileId, world) ==>
            exists f :: r.result.output == ErrorOutput(f) && r.emitted[|r.emitted| - 1] == ErrorNote(f))
      && (acq.Ok? && FindFile(files, activeFileId).Some? && world.outcome.Err? ==>
            r.emitted == notices + RenderAll(world.lines) + [ErrorNote(world.outcome.fault)])
  {
    var r := PythonRun(acq, notices, files, activeFileId, stdin, world, elapsed);
    if acq.Err? {
      assert r == Failure(notices, [], acq.fault, elapsed);
    } else if FindFile(files, activeFileId).None? {
      assert r == Failure(notices, [BindSinks], MainNotFound, elapsed);
    } else {
      SessionOutcome(notices, SessionCalls(files, FindFile(files, activeFileId).value, stdin), world, elapsed);
    }
  }

  /**
   * Once the main file is found the sinks are bound first and the main file's
   * source runs last; in between only files other than the active one are
   * written, every one of them is, and `input_data` is set exactly when stdin
   * is non-empty.
   */
  lemma SessionCallOrder(files: seq<CodeFile>, activeFileId: string, stdin: string)
    requires FindFile(files, activeFileId).Some?
    ensures var main := FindFile(files, activeFileId).value;
      var calls := SessionCalls(files, main, stdin);
      calls[0] == BindSinks && calls[|calls| - 1] == RunSource(main.content)
      && (forall f :: f in files && f.id != activeFileId ==> WriteFile(f.name, f.content) in calls)
      && (forall c :: c in calls && c.WriteFile? ==>
            exists f :: f in files && f.id != activeFileId && c == WriteFile(f.name, f.content))
      && (SetGlobal("input_data", stdin) in calls <==> stdin != "")
  {
    var main := FindFile(files, activeFileId).value;
    var w := AuxWrites(files, activeFileId);
    var g: seq<PythonCall> := if stdin != "" then [SetGlobal("input_data", stdin)] else [];
    var calls := SessionCalls(files, main, stdin);
    assert calls == [BindSinks] + w + g + [RunSource(main.content)];
    assert forall c :: c in calls <==> c == BindSinks || c in w || c in g || c == RunSource(main.content);
    assert SetGlobal("input_data", stdin) !in w;
  }

  /** Running the main file: capture its lines, then report the error or the trailing value. */
  method RunSession(notices: seq<string>, calls: seq<PythonCall>, world: PythonWorld,
                    startTime: int, endTime: int) returns (r: Run)
    ensures r == Session(notices, calls, world, endTime - startTime)
  {
    var output, emitted := Capture(world.lines, notices);
    if world.outcome.Err? {
      return Failure(emitted, calls, world.outcome.fault, endTime - startTime);
    }
    var value := world.outcome.value;
    if value.Some? && output == "" {
      output := value.value + "\\n";
      emitted := emitted + [output];
    }
    r := Run(RunResult(output, endTime - startTime), emitted, calls);
  }

  /** `runPython` from the sink binding on: bind, find the main file, write, set stdin, run, report. */
  method Execute(acq: Result<Instance>, notices: seq<string>, files: seq<CodeFile>, activeFileId: string,
                 stdin: string, world: PythonWorld, startTime: int, endTime: int) returns (r: Run)
    ensures r == PythonRun(acq, notices, files, activeFileId, stdin, world, endTime - startTime)
  {
    if acq.Err? {
      return Failure(notices, [], acq.fault, endTime - startTime);
    }
    var calls := [BindSinks];
    var main := FindFile(files, activeFileId);
    if main.None? {
      return Failure(notices, calls, MainNotFound, endTime - startTime);
    }
    var writes := WriteAuxFiles(files, activeFileId);
    calls := calls + writes;
    if stdin != "" {
      calls := calls + [SetGlobal("input_data", stdin)];
    }
    calls := calls + [RunSource(main.value.content)];
    assert calls == SessionCalls(files, main.value, stdin);
    r := RunSession(notices, calls, world, startTime, endTime);
  }

  /** `runPython`, on the shared interpreter engine. */
  method RunPython(engine: Engine, files: seq<CodeFile>, activeFileId: string, stdin: string,
                   boot: Result<Instance>, inflight: Result<Instance>, world: PythonWorld,
                   startTime: int, endTime: int)
    returns (run: Run)
    requires engine.Valid() && engine.kind == Interpreter
    modifies engine
    ensures engine.Valid() && engine.State() == AfterAcquire(Interpreter, old(engine.State()), boot, inflight)
    ensures run ==
      PythonRun(AcquireOutcome(Interpreter, old(engine.instance), old(engine.busy), boot, inflight),
                AcquireNotices(Interpreter, old(engine.instance), old(engine.busy), boot),
                files, activeFileId, stdin, world, endTime - startTime)
  {
    ghost var before := engine.State();
    var acq, notices := engine.Acquire(boot, inflight);
    assert engine.State() == AfterAcquire(Interpreter, before, boot, inflight);
    run := Execute(acq, notices, files, activeFileId, stdin, world, startTime, endTime);
  }
}
