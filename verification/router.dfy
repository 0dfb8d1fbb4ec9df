/**
 * `executeCode`: route a run to the in-browser Python interpreter, the
 * in-browser Node.js container, or the remote execution server.
 *
 * The server is outside the model: its answer is a `ServerResponse` parameter,
 * and the request the dispatcher would post is returned.
 */
module HybridExecutor {
  import opened Types
  import opened Text
  import opened EngineHandle
  import WebContainerRunner
  import PyodideRunner

  /** Where a language runs. */
  datatype Backend = Pyodide | WebContainer | Server

  /** `supportedClient`: the languages the browser may run itself. */
  const ClientLanguages: seq<LanguageId> := ["python", "javascript", "typescript", "nodejs"]

  /** The languages handed to the container. */
  const NodeLanguages: seq<LanguageId> := ["javascript", "nodejs", "typescript"]

  /** The dispatch: Python in the browser, the three JavaScript flavours in the container, the rest on the server. */
  function Route(lang: LanguageId): (b: Backend)
    ensures b == Pyodide <==> lang == "python"
    ensures b == WebContainer <==> lang == "javascript" || lang == "nodejs" || lang == "typescript"
    ensures b == Server <==> lang !in ClientLanguages
  {
    if lang in ClientLanguages then
      if lang == "python" then Pyodide
      else if lang in NodeLanguages then WebContainer
      else Server
    else Server
  }

  /** The JSON body posted to the server's `/run` endpoint. */
  datatype ServerRequest = ServerRequest(lang: LanguageId, files: seq<CodeFile>, activeFileId: string, input: string)

  /** How the server answers. */
  datatype ServerResponse =
    | Unreachable(fault: Fault)                     // `fetch` rejects
    | Rejected(status: int, error: Option<string>)  // a non-2xx status; the body's `error` field when it has one
    | Malformed(fault: Fault)                       // a 2xx status whose body is not JSON
    | Replied(output: string)                       // a 2xx status with the body's `output`

  /** The notice streamed before the request. */
  function DeferNotice(lang: LanguageId): string {
    "System: Deferring to server for " + lang + " execution...\n"
  }

  /** The message thrown for a non-2xx status: the body's `error` when it is a non-empty string, else the status. */
  function RejectionMessage(status: int, error: Option<string>): string {
    if error.Some? && error.value != "" then error.value else "Server error " + IntToString(status)
  }

  /** The error the server path catches, when the response is not a reply. */
  function ServerFault(resp: ServerResponse): Fault
    requires !resp.Replied?
  {
    match resp
    case Unreachable(f) => f
    case Rejected(status, error) => Raised(RejectionMessage(status, error))
    case Malformed(f) => f
  }

  /** What the server path returns and streams. */
  datatype Reply = Reply(result: RunResult, emitted: seq<string>)

  /**
   * The server path: the notice, then the reply's output with a newline, or
   * the caught error's bare message, with time 0.
   */
  function ServerRun(lang: LanguageId, resp: ServerResponse, elapsed: int): (r: Reply)
    ensures |r.emitted| == 2 && r.emitted[0] == DeferNotice(lang)
  {
    match resp
    case Replied(output) => Reply(RunResult(output, elapsed), [DeferNotice(lang), output + "\n"])
    case _ =>
      var message := ServerFault(resp).message;
      Reply(RunResult(message, 0), [DeferNotice(lang), "ERROR: " + message + "\n"])
  }

  /**
   * A failed server run returns the bare message with time 0 — unlike the
   * in-browser runners it adds no `ERROR: ` tag and keeps no elapsed time, and
   * it uses the message even when it is empty.
   */
  lemma ServerFailureShape(lang: LanguageId, resp: ServerResponse, elapsed: int)
    requires !resp.Replied?
    ensures var r := ServerRun(lang, resp, elapsed);
      r.result == RunResult(ServerFault(resp).message, 0)
      && r.emitted[1] == "ERROR: " + r.result.output + "\n"
      && r.result.output != ErrorOutput(ServerFault(resp))
  {
    var f := ServerFault(resp);
    assert |ErrorOutput(f)| >= |"ERROR: "| + |f.message|;
  }

  /**
   * A rejection without a usable `error` field reports the status: the text
   * after `Server error ` reads back as the status code.
   */
  lemma RejectionReportsStatus(lang: LanguageId, status: nat, error: Option<string>, elapsed: int)
    requires error.None? || error.value == ""
    ensures var out := ServerRun(lang, Rejected(status, error), elapsed).result.output;
      |out| > 13 && out[..13] == "Server error "
      && DigitsValue(out[13..]) == status
  {
    var out := ServerRun(lang, Rejected(status, error), elapsed).result.output;
    assert out == "Server error " + NatToString(status);
    assert out[13..] == NatToString(status);
    NatToStringRoundTrip(status);
  }

  /**
   * What the output pane shows of a server run is the notice, then the output
   * the run returns (tagged `ERROR: ` when it failed), then a newline; a reply
   * is returned exactly as the server sent it, with the elapsed time.
   */
  lemma ServerStreamsResult(lang: LanguageId, resp: ServerResponse, elapsed: int)
    ensures var r := ServerRun(lang, resp, elapsed);
      Concat(r.emitted) == DeferNotice(lang) + (if resp.Replied? then "" else "ERROR: ") + r.result.output + "\n"
    ensures resp.Replied? ==> ServerRun(lang, resp, elapsed).result == RunResult(resp.output, elapsed)
  {
    var r := ServerRun(lang, resp, elapsed);
    assert r.emitted[..1][..0] == [];
    assert Concat(r.emitted) == Concat(r.emitted[..1]) + r.emitted[1] == r.emitted[0] + r.emitted[1];
  }

  /** Everything the dispatcher depends on besides its arguments. */
  datatype Surroundings = Surroundings(
    containerBoot: Result<Instance>, containerInflight: Result<Instance>, container: WebContainerRunner.ContainerWorld,
    pythonBoot: Result<Instance>, pythonInflight: Result<Instance>, python: PyodideRunner.PythonWorld,
    server: ServerResponse)

  /**
   * What `executeCode` returns and streams, given the engines' state when it
   * is called: the interpreter's run for Python, the container's run for the
   * JavaScript flavours, the server's answer for everything else.
   */
  function Dispatched(lang: LanguageId, files: seq<CodeFile>, activeFileId: string, input: string, env: Surroundings,
                      containerInstance: Option<Instance>, containerBusy: bool,
                      pythonInstance: Option<Instance>, pythonBusy: bool, elapsed: int): Reply
  {
    match Route(lang)
    case Pyodide =>
      var r := PyodideRunner.PythonRun(
        AcquireOutcome(Interpreter, pythonInstance, pythonBusy, env.pythonBoot, env.pythonInflight),
        AcquireNotices(Interpreter, pythonInstance, pythonBusy, env.pythonBoot),
        files, activeFileId, input, env.python, elapsed);
      Reply(r.result, r.emitted)
    case WebContainer =>
      var r := WebContainerRunner.ContainerRun(
        AcquireOutcome(Container, containerInstance, containerBusy, env.containerBoot, env.containerInflight),
        AcquireNotices(Container, containerInstance, containerBusy, env.containerBoot),
        files, activeFileId, input, env.container, elapsed);
      Reply(r.result, r.emitted)
    case Server => ServerRun(lang, env.server, elapsed)
  }

  /** The interpreter after `executeCode` for `lang`: only a Python run acquires it. */
  function InterpreterAfter(lang: LanguageId, env: Surroundings, s: EngineState): EngineState {
    if Route(lang) == Pyodide then AfterAcquire(Interpreter, s, env.pythonBoot, env.pythonInflight) else s
  }

  /** The container after `executeCode` for `lang`: only a JavaScript, Node.js or TypeScript run acquires it. */
  function ContainerAfter(lang: LanguageId, env: Surroundings, s: EngineState): EngineState {
    if Route(lang) == WebContainer then AfterAcquire(Container, s, env.containerBoot, env.containerInflight) else s
  }

  /** `executeCode`, with the two engines and what the outside world does. */
  method ExecuteCode(container: Engine, interpreter: Engine, lang: LanguageId, files: seq<CodeFile>,
                     activeFileId: string, input: string, env: Surroundings, startTime: int, endTime: int)
    returns (result: RunResult, emitted: seq<string>, request: Option<ServerRequest>)
    requires container.Valid() && container.kind == Container
    requires interpreter.Valid() && interpreter.kind == Interpreter
    requires container != interpreter
    modifies container, interpreter
    ensures container.Valid() && interpreter.Valid()
    ensures request.Some? <==> Route(lang) == Server
    ensures request.Some? ==> request.value == ServerRequest(lang, files, activeFileId, input)
    ensures Route(lang) != Pyodide ==> unchanged(interpreter)
    ensures Route(lang) != WebContainer ==> unchanged(container)
    ensures interpreter.State() == InterpreterAfter(lang, env, old(interpreter.State()))
    ensures container.State() == ContainerAfter(lang, env, old(container.State()))
    ensures Reply(result, emitted) == Dispatched(lang, files, activeFileId, input, env,
      old(container.instance), old(container.busy), old(interpreter.instance), old(interpreter.busy), endTime - startTime)
  {
    request := None;
    match Route(lang)
    case Pyodide =>
      result, emitted := ExecutePython(interpreter, lang, files, activeFileId, input, env, container.instance, container.busy, startTime, endTime);
    case WebContainer =>
      result, emitted := ExecuteNode(container, lang, files, activeFileId, input, env, interpreter.instance, interpreter.busy, startTime, endTime);
    case Server =>
      request := Some(ServerRequest(lang, files, activeFileId, input));
      var reply := ServerRun(lang, env.server, endTime - startTime);
      result, emitted := reply.result, reply.emitted;
  }

  /** The Python branch of `executeCode`. */
  method ExecutePython(interpreter: Engine, lang: LanguageId, files: seq<CodeFile>, activeFileId: string, input: string,
                       env: Surroundings, containerInstance: Option<Instance>, containerBusy: bool, startTime: int, endTime: int)
    returns (result: RunResult, emitted: seq<string>)
    requires interpreter.Valid() && interpreter.kind == Interpreter && Route(lang) == Pyodide
    modifies interpreter
    ensures interpreter.Valid()
    ensures interpreter.State() == AfterAcquire(Interpreter, old(interpreter.State()), env.pythonBoot, env.pythonInflight)
    ensures Reply(result, emitted) == Dispatched(lang, files, activeFileId, input, env,
      containerInstance, containerBusy, old(interpreter.instance), old(interpreter.busy), endTime - startTime)
  {
    var run := PyodideRunner.RunPython(interpreter, files, activeFileId, input,
                                       env.pythonBoot, env.pythonInflight, env.python, startTime, endTime);
    result, emitted := run.result, run.emitted;
  }

  /** The container branch of `executeCode`. */
  method ExecuteNode(container: Engine, lang: LanguageId, files: seq<CodeFile>, activeFileId: string, input: string,
                     env: Surroundings, pythonInstance: Option<Instance>, pythonBusy: bool, startTime: int, endTime: int)
    returns (result: RunResult, emitted: seq<string>)
    requires container.Valid() && container.kind == Container && Route(lang) == WebContainer
    modifies container
    ensures container.Valid()
    ensures container.State() == AfterAcquire(Container, old(container.State()), env.containerBoot, env.containerInflight)
    ensures Reply(result, emitted) == Dispatched(lang, files, activeFileId, input, env,
      old(container.instance), old(container.busy), pythonInstance, pythonBusy, endTime - startTime)
  {
    var run := WebContainerRunner.RunJS(container, files, activeFileId, input,
                                        env.containerBoot, env.containerInflight, env.container, startTime, endTime);
    result, emitted := run.result, run.emitted;
  }
}
