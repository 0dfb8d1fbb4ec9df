/**
 * The editor page (`IDEPage.tsx`): the language menu, naming new files,
 * renaming, the save guard, and the run button, which drives the store, the
 * dispatcher and the history endpoint.
 */
module IdePage {
  import opened Types
  import opened Text
  import opened EngineHandle
  import CodeStore
  import HybridExecutor

  // ---- tables ----

  /** `EXT`: the file extension (without the dot) offered for each language. */
  const Ext: map<LanguageId, string> := map[
    "python" := "py", "javascript" := "js", "typescript" := "ts", "nodejs" := "js",
    "cpp" := "cpp", "c" := "c", "java" := "java", "rust" := "rs", "go" := "go",
    "ruby" := "rb", "php" := "php", "swift" := "swift", "kotlin" := "kt", "scala" := "scala",
    "csharp" := "cs", "bash" := "sh", "sql" := "sql"
  ]

  /** The page's table and the store's table name the same extension for every language. */
  lemma ExtAgreesWithStore(lang: LanguageId)
    ensures lang in Ext <==> lang in CodeStore.Extensions
    ensures lang in Ext ==> CodeStore.Extensions[lang] == "." + Ext[lang]
  {
  }

  /** The language menu: id, display name and group. */
  datatype MenuEntry = MenuEntry(id: LanguageId, name: string, group: string)

  const NativeGroup: string := "Native (Client)"
  const ServerGroup: string := "Server"

  /** The menu: the in-browser languages first, then the server's. */
  const Menu: seq<MenuEntry> := NativeMenu + ServerMenu

  const NativeMenu: seq<MenuEntry> := [
    MenuEntry("python", "Python 3", NativeGroup), MenuEntry("javascript", "JavaScript", NativeGroup),
    MenuEntry("typescript", "TypeScript", NativeGroup), MenuEntry("nodejs", "Node.js", NativeGroup)
  ]

  const ServerMenu: seq<MenuEntry> := [
    MenuEntry("cpp", "C++", ServerGroup), MenuEntry("c", "C", ServerGroup), MenuEntry("java", "Java", ServerGroup),
    MenuEntry("rust", "Rust", ServerGroup), MenuEntry("go", "Go", ServerGroup), MenuEntry("ruby", "Ruby", ServerGroup),
    MenuEntry("php", "PHP", ServerGroup), MenuEntry("swift", "Swift", ServerGroup), MenuEntry("kotlin", "Kotlin", ServerGroup),
    MenuEntry("scala", "Scala", ServerGroup), MenuEntry("csharp", "C#", ServerGroup), MenuEntry("bash", "Bash", ServerGroup),
    MenuEntry("sql", "SQL", ServerGroup)
  ]

  /** The native entries are exactly the languages the dispatcher keeps in the browser. */
  lemma NativeMenuRunsInBrowser()
    ensures forall e :: e in NativeMenu ==> e.group == NativeGroup && HybridExecutor.Route(e.id) != HybridExecutor.Server
  {
  }

  /** The server entries are all sent to the server. */
  lemma ServerMenuRunsOnServer()
    ensures forall e :: e in ServerMenu ==> e.group == ServerGroup && HybridExecutor.Route(e.id) == HybridExecutor.Server
  {
    forall e | e in ServerMenu
      ensures e.group == ServerGroup && HybridExecutor.Route(e.id) == HybridExecutor.Server
    {
      assert e.id != "python" && e.id != "javascript" && e.id != "typescript" && e.id != "nodejs";
    }
  }

  /**
   * The menu's groups tell the truth: a language is listed as native exactly
   * when the dispatcher runs it in the browser, and every other one is listed
   * under the server.
   */
  lemma MenuGroupsMatchDispatch()
    ensures forall e :: e in Menu ==> e.group in {NativeGroup, ServerGroup}
    ensures forall e :: e in Menu ==> (e.group == NativeGroup <==> HybridExecutor.Route(e.id) != HybridExecutor.Server)
  {
    NativeMenuRunsInBrowser();
    ServerMenuRunsOnServer();
    assert forall e :: e in Menu ==> e in NativeMenu || e in ServerMenu;
  }

  /** Every language on the menu has an extension for new files. */
  lemma MenuHasExtensions()
    ensures forall e :: e in Menu ==> e.id in Ext
  {
    forall e | e in Menu
      ensures e.id in Ext
    {
      assert e in NativeMenu || e in ServerMenu;
    }
  }

  // ---- new files ----

  /** `handleAddFile`'s name: `new_file_<count + 1>.<ext>`, `txt` for a language without one. */
  function NewFileName(count: nat, lang: LanguageId): string {
    "new_file_" + NatToString(count + 1) + "." + (if lang in Ext then Ext[lang] else "txt")
  }

  /** The new file's extension is the one the store gives the language. */
  lemma NewFileNameUsesStoreExtension(count: nat, lang: LanguageId)
    ensures NewFileName(count, lang) == "new_file_" + NatToString(count + 1) + CodeStore.Extension(lang)
  {
    ExtAgreesWithStore(lang);
  }

  /** Two different file counts give two different names. */
  lemma NewFileNamesDiffer(m: nat, n: nat, lang: LanguageId)
    requires m != n
    ensures NewFileName(m, lang) != NewFileName(n, lang)
  {
    var a, b := NatToString(m + 1), NatToString(n + 1);
    var ext := if lang in Ext then Ext[lang] else "txt";
    NatToStringInjective(m + 1, n + 1);
    var x, y := "new_file_" + a + "." + ext, "new_file_" + b + "." + ext;
    if |a| < |b| {
      assert x[9 + |a|] == '.' && y[9 + |a|] == b[|a|];
      assert x[9 + |a|] != y[9 + |a|];
    } else if |b| < |a| {
      assert y[9 + |b|] == '.' && x[9 + |b|] == a[|b|];
      assert x[9 + |b|] != y[9 + |b|];
    } else {
      var k :| 0 <= k < |a| && a[k] != b[k];
      assert x[9 + k] == a[k] && y[9 + k] == b[k];
    }
  }

  // ---- saving ----

  /** The route ids that are not stored workspaces. */
  predicate IsStoredWorkspace(pageId: Option<string>) {
    pageId.Some? && pageId.value !in ["", "demo", "new", "guest"]
  }

  /** The PUT body of `handleSaveRuntainer`: the title, language, and every file's name and content. */
  datatype SaveBody = SaveBody(title: string, language: LanguageId, files: seq<(string, string)>)

  /** The request `handleSaveRuntainer` sends: to the page's workspace, none for a placeholder page. */
  function SaveRequest(pageId: Option<string>, title: string, language: LanguageId, files: seq<CodeFile>)
    : (r: Option<(string, SaveBody)>)
    ensures r.Some? <==> IsStoredWorkspace(pageId)
    ensures r.Some? ==> r.value.0 == pageId.value && r.value.1.title == title && r.value.1.language == language
    ensures r.Some? ==> |r.value.1.files| == |files|
    ensures r.Some? ==> forall k :: 0 <= k < |files| ==> r.value.1.files[k] == (files[k].name, files[k].content)
  {
    if !IsStoredWorkspace(pageId) then None
    else Some((pageId.value, SaveBody(title, language, seq(|files|, k requires 0 <= k < |files| => (files[k].name, files[k].content)))))
  }

  // ---- running ----

  /** The body posted to the history endpoint after a run. */
  datatype HistoryPost = HistoryPost(authorId: string, language: LanguageId, code: string, output: string, timeTaken: int)

  /** The history endpoint's answer: an id for the stored entry, or anything else (silently ignored). */
  datatype HistoryReply = Saved(id: string) | NotSaved

  /** The author of a history entry: the signed-in user's id, or `anonymous_user`. */
  function AuthorId(user: Option<string>): string {
    user.GetOr("anonymous_user")
  }

  /** The run button does something only when the active id is set, non-empty, and names a file. */
  predicate Runnable(files: seq<CodeFile>, active: Option<string>) {
    active.Some? && active.value != "" && FindFile(files, active.value).Some?
  }

  /**
   * After a run of the active file `id` that returned and streamed `ran`: the
   * output holds everything streamed, in order; the history endpoint was sent
   * the code, output and time; and an entry it acknowledged is at the front
   * of the history, stamped `now`.
   */
  ghost predicate Recorded(ran: HybridExecutor.Reply, files: seq<CodeFile>, id: string, language: LanguageId,
                           history: seq<HistoryItem>, output': string, history': seq<HistoryItem>,
                           post: Option<HistoryPost>, user: Option<string>, reply: HistoryReply, now: int)
    requires FindFile(files, id).Some?
  {
    var code := FindFile(files, id).value.content;
    output' == Concat(ran.emitted)
    && post == Some(HistoryPost(AuthorId(user), language, code, ran.result.output, ran.result.time))
    && history' == (if reply.Saved? then
         CodeStore.PushHistory(history, HistoryItem(reply.id, now, language, code, ran.result.output, ran.result.time))
       else history)
  }

  /** The page with the store and the two engines it drives. */
  class Ide {
    const store: CodeStore.Store
    const container: Engine
    const interpreter: Engine
    var renamingFileId: Option<string>

    ghost predicate Valid()
      reads container, interpreter
    {
      container.Valid() && container.kind == Container
      && interpreter.Valid() && interpreter.kind == Interpreter
      && container != interpreter
    }

    constructor (store: CodeStore.Store, container: Engine, interpreter: Engine)
      requires container.Valid() && container.kind == Container
      requires interpreter.Valid() && interpreter.kind == Interpreter && container != interpreter
      ensures Valid() && this.store == store && this.container == container && this.interpreter == interpreter
      ensures renamingFileId == None
    {
      this.store := store;
      this.container := container;
      this.interpreter := interpreter;
      renamingFileId := None;
    }

    /**
     * `handleRun`. The output is cleared first; when there is no runnable
     * active file the run stops there. Otherwise the dispatcher runs the
     * active file with `stdin`, everything it streams ends up in the output in
     * order, the history endpoint is sent the code, output and time, and the
     * entry it acknowledges goes to the front of the history, stamped `now`.
     * Either way the running flag is down at the end and the files, the active
     * file and the language are as they were.
     */
    method HandleRun(stdin: string, user: Option<string>, env: HybridExecutor.Surroundings,
                     startTime: int, endTime: int, reply: HistoryReply, now: int)
      returns (post: Option<HistoryPost>, request: Option<HybridExecutor.ServerRequest>,
               ghost ran: Option<HybridExecutor.Reply>)
      requires Valid()
      modifies store, container, interpreter
      ensures Valid() && !store.isRunning
      ensures store.files == old(store.files) && store.activeFileId == old(store.activeFileId)
      ensures store.language == old(store.language)
      ensures ran.Some? <==> Runnable(old(store.files), old(store.activeFileId))
      ensures ran.None? ==>
        store.output == "" && store.history == old(store.history) && post.None? && request.None?
        && unchanged(container) && unchanged(interpreter)
      ensures ran.Some? ==>
        ran.value == HybridExecutor.Dispatched(old(store.language), old(store.files), old(store.activeFileId).value, stdin, env,
          old(container.instance), old(container.busy), old(interpreter.instance), old(interpreter.busy), endTime - startTime)
      ensures ran.Some? ==>
        container.State() == HybridExecutor.ContainerAfter(old(store.language), env, old(container.State()))
        && interpreter.State() == HybridExecutor.InterpreterAfter(old(store.language), env, old(interpreter.State()))
      ensures ran.Some? ==> Recorded(ran.value, old(store.files), old(store.activeFileId).value, old(store.language),
                                     old(store.history), store.output, store.history, post, user, reply, now)
    {
      var files, language, active := store.files, store.language, store.activeFileId;
      store.SetIsRunning(true);
      store.ClearOutput();
      if !Runnable(files, active) {
        store.SetIsRunning(false);
        return None, None, None;
      }
      var result, emitted;
      result, emitted, request := HybridExecutor.ExecuteCode(container, interpreter, language, files,
                                                             active.value, stdin, env, startTime, endTime);
      ghost var engines := (container.State(), interpreter.State());
      ran := Some(HybridExecutor.Reply(result, emitted));
      post := Record(result, emitted, active.value, user, reply, now);
      store.SetIsRunning(false);
      assert (container.State(), interpreter.State()) == engines;
    }

    /** The part of `handleRun` after the dispatcher returns: its chunks reach the output, then the history is posted. */
    method Record(result: RunResult, emitted: seq<string>, id: string, user: Option<string>, reply: HistoryReply, now: int)
      returns (post: Option<HistoryPost>)
      requires FindFile(store.files, id).Some? && store.output == ""
      modifies store
      ensures store.files == old(store.files) && store.activeFileId == old(store.activeFileId)
      ensures store.language == old(store.language) && store.isRunning == old(store.isRunning)
      ensures Recorded(HybridExecutor.Reply(result, emitted), old(store.files), id, old(store.language),
                       old(store.history), store.output, store.history, post, user, reply, now)
    {
      var code := FindFile(store.files, id).value.content;
      var language := store.language;
      Stream(emitted);
      post := Some(HistoryPost(AuthorId(user), language, code, result.output, result.time));
      if reply.Saved? {
        store.AddHistory(HistoryItem(reply.id, now, language, code, result.output, result.time));
      }
    }

    /** The `onOutput` callback, chunk after chunk: each is appended to the store's output. */
    method Stream(chunks: seq<string>)
      modifies store
      ensures store.output == old(store.output) + Concat(chunks)
      ensures store.files == old(store.files) && store.activeFileId == old(store.activeFileId)
      ensures store.language == old(store.language) && store.isRunning == old(store.isRunning)
      ensures store.history == old(store.history)
    {
      for i := 0 to |chunks|
        invariant store.output == old(store.output) + Concat(chunks[..i])
        invariant store.files == old(store.files) && store.activeFileId == old(store.activeFileId)
        invariant store.language == old(store.language) && store.isRunning == old(store.isRunning)
        invariant store.history == old(store.history)
      {
        assert chunks[..i + 1][..i] == chunks[..i];
        store.AppendOutput(chunks[i]);
      }
      assert chunks[..|chunks|] == chunks;
    }

    /**
     * `handleRenameFile`: a blank name changes nothing; otherwise the file
     * takes the trimmed name (through the `setFiles` fallback, the store
     * having no `updateFileName`) and the rename box closes.
     */
    method HandleRenameFile(fileId: string, newName: string)
      modifies this, store
      ensures AllSpace(newName) ==> store.files == old(store.files) && renamingFileId == old(renamingFileId)
      ensures !AllSpace(newName) ==>
        store.files == CodeStore.WithName(old(store.files), fileId, Trim(newName)) && renamingFileId == None
      ensures store.activeFileId == old(store.activeFileId) && store.language == old(store.language)
      ensures store.output == old(store.output) && store.history == old(store.history)
      ensures store.isRunning == old(store.isRunning)
    {
      TrimEmptyIffBlank(newName);
      if Trim(newName) == "" {
        return;
      }
      store.SetFiles(CodeStore.WithName(store.files, fileId, Trim(newName)));
      renamingFileId := None;
    }

    /** `handleAddFile`: an empty file named after the file count and the language, made active. */
    method HandleAddFile(freshId: string)
      modifies store
      ensures store.files == old(store.files) + [CodeFile(freshId, NewFileName(|old(store.files)|, old(store.language)), "")]
      ensures store.activeFileId == Some(freshId)
      ensures store.language == old(store.language) && store.output == old(store.output)
      ensures store.history == old(store.history) && store.isRunning == old(store.isRunning)
    {
      store.AddFile(NewFileName(|store.files|, store.language), "", freshId);
    }
  }
}
