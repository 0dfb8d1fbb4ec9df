# RunNow execution path and editor state, in Dafny

RunNow is a browser IDE. This project models the part of its frontend that runs code and keeps the editor's state:

- **Dispatcher** (`executeCode`). Python runs in an in-browser Pyodide interpreter. JavaScript, Node.js and TypeScript run in an in-browser WebContainer. Every other language is posted to a remote `/run` endpoint, and the reply or error becomes a `{ output, time }` result.
- **Two in-browser runners** (`runJS`, `runPython`). Each keeps a lazily booted engine singleton behind a module-level flag. Each then:
  - prepares the project (a mount tree with a synthesised `package.json`, or virtual-file-system writes of the other files);
  - feeds stdin;
  - collects what the program prints;
  - turns every failure into an `ERROR: ` result.
- **Editor store** (`useCodeStore`): files, active file, language, output pane and a run history capped at 50 entries.
- **Two pages**:
  - the dashboard: badges, relative times, creating, deleting, searching, filtering and sorting workspaces, and the language list;
  - the editor page: the language menu, new-file names, rename, the save guard, and the run button, which drives the store, the dispatcher and the history endpoint.

Modules, one per source file or shared concern:

| file | module | models |
|---|---|---|
| `types.dfy` | `Types` | files, results, history items, thrown errors, `files.find` |
| `text.dfy` | `Text` | JavaScript `trim`, `\s` and `\w`, ASCII `toLowerCase`, `includes`, `join`, decimal rendering of numbers |
| `engine.dfy` | `EngineHandle` | the booted-singleton handle both runners repeat, modelled once as class `Engine` |
| `container.dfy` | `WebContainerRunner` | `runJS` |
| `interpreter.dfy` | `PyodideRunner` | `runPython` |
| `router.dfy` | `HybridExecutor` | `executeCode` |
| `store.dfy` | `CodeStore` | `useCodeStore` (class `Store`) |
| `dashboard.dfy` | `DashboardPage` | `Dashboard.tsx` (class `Dashboard` for its dialog state) |
| `ide.dfy` | `IdePage` | `IDEPage.tsx` (class `Ide`: the page with the store and both engines) |

Things outside the browser are parameters:

- the engines' behaviour: `ContainerWorld` and `PythonWorld` say what mount, spawn, stdin writes and the program do;
- the outcome of a boot;
- the server's and the history endpoint's answers;
- the clock (`startTime`, `endTime`, `now`);
- random ids (`freshId`).

The calls each runner makes on its engine are returned in order, so call order is stated as a property.

The single-flight boot works like this in the model:

- Every caller that reaches an engine's acquisition is recorded as a task (`Booting`, `Waiting`, `Acquired`, `Failed`).
- The object invariant `Consistent` says three things:
  - the flag is up exactly while one caller's boot is in flight;
  - nobody boots once there is an instance;
  - every caller that acquired holds that instance.
- `SingleFlight` proves the first-page-load scenario: N callers arrive, exactly one boot starts, and every caller ends with its outcome.

Behaviour of the code worth noting:

- A caller that waited for a failed boot does not receive that boot's error. It throws `Failed to initialize WebContainer` (or `Pyodide`), because after the wait it finds no instance (`WebContainerRunner.ts:24-26`, `PyodideRunner.ts:30-32`).
- The dashboard's create dialog names the first file `main.js` for every language except python, typescript, cpp and c. A Go workspace, for example, starts with `main.js` (lemma `DashboardPage.CreateExtFallsBackToJs`).
- The store has no `updateFileName`, so the editor's rename always takes the `setFiles` fallback, and that is the path modelled.
- Several strings hold a literal backslash followed by `n`, not a newline. These are the exit note, the runners' error notes and Pyodide's trailing value, and they are modelled character for character.

## Model

| member | source | states |
|---|---|---|
| `Types.Describe` | frontend/src/components/Execution/WebContainerRunner.ts:95 | a caught error is described by one of its two fields, the message whenever there is one, else the name (what `toString` gives); the description is empty only when both are |
| `Types.FindFile` | frontend/src/components/Execution/WebContainerRunner.ts:28 | `None` exactly when no file has the id; otherwise the first file with that id |
| `Text.TrimEmptyIffBlank` | frontend/src/pages/IDEPage.tsx:158 | `s.trim()` is empty exactly when every character of `s` is JavaScript white space |
| `Text.TrimIsInfix` | frontend/src/pages/Dashboard.tsx:125 | the trimmed string is a contiguous piece of the original, and only white space is cut from either side |
| `Text.JoinContainsPart` | frontend/src/components/Execution/WebContainerRunner.ts:42 | whatever occurs in one of the joined parts occurs in the joined text |
| `Text.NatToStringRoundTrip` | frontend/src/pages/Dashboard.tsx:72 | reading back the decimal rendering of a number gives the number |
| `HybridExecutor.Route` | frontend/src/components/Execution/HybridExecutor.ts:13-22 | python goes to Pyodide, exactly javascript/nodejs/typescript go to the container, and a language goes to the server exactly when it is outside the client list |
| `HybridExecutor.ServerRun` | frontend/src/components/Execution/HybridExecutor.ts:24-46 | the server path streams exactly two chunks, the first being the `Deferring to server` notice |
| `HybridExecutor.ServerStreamsResult` | frontend/src/components/Execution/HybridExecutor.ts:24-46 | what the pane shows of a server run is the notice, then the returned output (tagged `ERROR: ` on failure), then a newline; a reply is returned as the server sent it, with the elapsed time |
| `HybridExecutor.RejectionReportsStatus` | frontend/src/components/Execution/HybridExecutor.ts:35-38 | a non-2xx reply without a usable `error` field fails with `Server error ` followed by digits that read back as the status |
| `HybridExecutor.ServerFailureShape` | frontend/src/components/Execution/HybridExecutor.ts:43-46 | a failed server run returns the bare message with time 0; that differs from the `ERROR: `-tagged output the runners give, while the streamed chunk carries the tag |
| `HybridExecutor.ExecuteCode` | frontend/src/components/Execution/HybridExecutor.ts:6-47 | a request is posted exactly for server languages; result and streamed chunks are those of the chosen backend (`Dispatched`) given the engines' state on entry; the chosen engine ends as one acquisition leaves it (`AfterAcquire`) and the other engine is untouched; both keep their invariant |
| `HybridExecutor.ExecutePython` | frontend/src/components/Execution/HybridExecutor.ts:16-18 | the Python branch returns what `runPython` gives on the interpreter's state on entry, and the interpreter ends as one acquisition leaves it |
| `HybridExecutor.ExecuteNode` | frontend/src/components/Execution/HybridExecutor.ts:19-21 | the container branch returns what `runJS` gives on the container's state on entry, and the container ends as one acquisition leaves it |
| `EngineHandle.ArrivalKeepsConsistent` | frontend/src/components/Execution/WebContainerRunner.ts:10-19 | a newly arriving caller takes the instance, waits, or boots, and the engine invariant still holds with the flag raised exactly when it boots |
| `EngineHandle.Engine.constructor` | frontend/src/components/Execution/WebContainerRunner.ts:4-5 | on page load there is no instance and the flag is down |
| `EngineHandle.Engine.Begin` | frontend/src/components/Execution/WebContainerRunner.ts:10-18 | a caller arriving with an instance takes it, one arriving during a boot waits, and otherwise it raises the flag and starts the one new boot |
| `EngineHandle.Engine.Settle` | frontend/src/components/Execution/WebContainerRunner.ts:18-20 | a boot that succeeds stores the instance and streams the ready notice; one that fails leaves no instance; either way the flag is down (the catch block at line 94 lowers it on failure), so a later call can boot again |
| `EngineHandle.Engine.Poll` | frontend/src/components/Execution/WebContainerRunner.ts:12-25 | a waiter keeps waiting while the flag is up; once it is down it takes the instance, or fails with `Failed to initialize …` when there is none |
| `EngineHandle.Engine.Acquire` | frontend/src/components/Execution/WebContainerRunner.ts:10-26 | one caller's whole acquisition: its outcome and notices are `AcquireOutcome`/`AcquireNotices` of the state it arrived in; a boot is counted only when it arrived with no instance and no boot in flight; the flag ends down |
| `EngineHandle.Engine.ArriveWhileBooting` | frontend/src/components/Execution/WebContainerRunner.ts:11-14 | callers arriving during a boot all wait and start no boot |
| `EngineHandle.Engine.WakeAll` | frontend/src/components/Execution/WebContainerRunner.ts:12-26 | after the boot settles every waiter ends with the instance, or with the initialisation error when there is none |
| `EngineHandle.Engine.SingleFlight` | frontend/src/components/Execution/WebContainerRunner.ts:10-26 | N+1 callers on a never-booted engine start exactly one boot; on success all hold its instance; on failure the booting caller fails with the boot's error and every waiter with `Failed to initialize …` |
| `EngineHandle.AcquireEffect` | frontend/src/components/Execution/WebContainerRunner.ts:10-26 | after an acquisition the flag is down; a booting caller leaves the instance its boot produced, or none, so that the next caller boots again; a caller that found an instance changes nothing; only a booting caller counts a boot |
| `EngineHandle.BootedStays` | frontend/src/components/Execution/WebContainerRunner.ts:10-26 | once an instance is held, any series of later acquisitions leaves the engine as it is and boots nothing |
| `EngineHandle.FirstBootServesAll` | frontend/src/components/Execution/WebContainerRunner.ts:15-20 | on a never-booted engine, a series of runs whose first boot succeeds boots once and keeps that instance |
| `WebContainerRunner.LastContent` | frontend/src/components/Execution/WebContainerRunner.ts:32-39 | the mount entry of a name holds the content of the last file with that name |
| `WebContainerRunner.FileTreeSnoc` | frontend/src/components/Execution/WebContainerRunner.ts:33-39 | adding a file to the list overwrites the mount entry of its name |
| `WebContainerRunner.BuildMountTree` | frontend/src/components/Execution/WebContainerRunner.ts:32-39 | the loop builds the mount object `FileTree` of the whole list |
| `WebContainerRunner.ProjectTreeEntries` | frontend/src/components/Execution/WebContainerRunner.ts:32-58 | the mount object has one entry per file name plus `package.json`, and an editor file's entry is never replaced by the manifest |
| `WebContainerRunner.ModuleExportsNotEsModule` | frontend/src/components/Execution/WebContainerRunner.ts:42-52 | a project with `module.exports` in any file gets a manifest without `"type": "module"` |
| `WebContainerRunner.PlainProjectIsEsModule` | frontend/src/components/Execution/WebContainerRunner.ts:46-52 | a project without CommonJS patterns gets `"type": "module"` |
| `WebContainerRunner.UserManifestKept` | frontend/src/components/Execution/WebContainerRunner.ts:46 | a `package.json` among the files is mounted as written |
| `WebContainerRunner.RunOutcome` | frontend/src/components/Execution/WebContainerRunner.ts:61-97 | a completed run returns exactly the process's chunks, whatever the exit code, and streams the exit note only when the code is non-zero; any other run returns `ERROR: ` plus the description and streams the error note last; the acquisition notices always come first |
| `WebContainerRunner.NoCallsWithoutMain` | frontend/src/components/Execution/WebContainerRunner.ts:24-29 | without an instance or a main file the container is never touched |
| `WebContainerRunner.MountThenSpawnMain` | frontend/src/components/Execution/WebContainerRunner.ts:61-67 | with a main file the project tree is mounted first, and the only process spawned is `node` on the main file |
| `WebContainerRunner.ProcessCallsShape` | frontend/src/components/Execution/WebContainerRunner.ts:61-67 | every run that reaches the container mounts first and spawns nothing but `node` on the main file |
| `WebContainerRunner.StdinWrittenIffGiven` | frontend/src/components/Execution/WebContainerRunner.ts:71-75 | in a completed run stdin is written to the process exactly when it is non-empty |
| `WebContainerRunner.Drain` | frontend/src/components/Execution/WebContainerRunner.ts:78-83 | the stream writer accumulates the chunks in order and forwards each one |
| `WebContainerRunner.Launch` | frontend/src/components/Execution/WebContainerRunner.ts:24-92 | the steps after acquisition equal `ContainerRun`: without an instance or main file no container call is made; otherwise mount comes first and the only spawn is `node <main>`; a completed run returns the process chunks, and a failure returns `ERROR: ` plus the description, streamed last (`RunOutcome`, `NoCallsWithoutMain`, `MountThenSpawnMain`) |
| `WebContainerRunner.Process` | frontend/src/components/Execution/WebContainerRunner.ts:61-92 | mount, spawn, stdin and drain equal `ProcessRun`: stdin is written exactly when it is non-empty, the output is the drained chunks in order, and the exit note is streamed only for a non-zero code (`StdinWrittenIffGiven`, `RunOutcome`) |
| `WebContainerRunner.RunJS` | frontend/src/components/Execution/WebContainerRunner.ts:7-99 | `runJS` on the shared engine: the run is `ContainerRun` of the acquisition's outcome and notices, and the engine ends as the acquisition leaves it (`AfterAcquire`: the acquired instance or none, the flag down, a boot counted only when none was in flight and there was no instance) |
| `PyodideRunner.Rendered` | frontend/src/components/Execution/PyodideRunner.ts:35-47 | every captured line ends with a newline |
| `PyodideRunner.CapturedEmptyIffSilent` | frontend/src/components/Execution/PyodideRunner.ts:66 | the captured output is empty exactly when the program printed no line |
| `PyodideRunner.Capture` | frontend/src/components/Execution/PyodideRunner.ts:34-47 | the sinks append every line, stderr lines tagged `ERROR: `, to the output and forward the same chunks in order |
| `PyodideRunner.AuxWrites` | frontend/src/components/Execution/PyodideRunner.ts:53-58 | every file whose id differs from the active id is written under its name, and only such files are |
| `PyodideRunner.WriteAuxFiles` | frontend/src/components/Execution/PyodideRunner.ts:53-58 | the loop makes exactly the writes of `AuxWrites` |
| `PyodideRunner.SessionOutcome` | frontend/src/components/Execution/PyodideRunner.ts:63-71 | a completed program returns what it printed, or, when it printed nothing, its last value followed by a literal backslash-n; a Python error is reported after the printed lines were streamed |
| `PyodideRunner.RunOutcome` | frontend/src/components/Execution/PyodideRunner.ts:50-77 | every run keeps the elapsed time; a completed run is the session's result; a failed one returns `ERROR: ` plus the description, discarding printed output, and streams the error note last |
| `PyodideRunner.SessionCallOrder` | frontend/src/components/Execution/PyodideRunner.ts:34-63 | sinks are bound first and the main file's source runs last; every other file is written and no write names the active file; `input_data` is set exactly when stdin is non-empty |
| `PyodideRunner.RunSession` | frontend/src/components/Execution/PyodideRunner.ts:63-71 | running the main file equals `Session`: the printed lines are the output, or when nothing was printed the last value plus a literal backslash-n; an error is raised after the printed lines were streamed (`SessionOutcome`) |
| `PyodideRunner.Execute` | frontend/src/components/Execution/PyodideRunner.ts:30-71 | the steps after acquisition equal `PythonRun`: the sinks are bound first and the main source runs last, only the other files are written, `input_data` is set exactly when stdin is non-empty, and a failure returns `ERROR: ` plus the description (`SessionCallOrder`, `RunOutcome`) |
| `PyodideRunner.RunPython` | frontend/src/components/Execution/PyodideRunner.ts:7-78 | `runPython` on the shared engine: the run is `PythonRun` of the acquisition's outcome and notices, and the interpreter ends as the acquisition leaves it (`AfterAcquire`), as for the container |
| `CodeStore.DefaultCode` | frontend/src/store/useCodeStore.ts:34-52 | a language has a starter program exactly when it is in the table, and every starter is non-empty |
| `CodeStore.Extension` | frontend/src/store/useCodeStore.ts:54-62 | the mapped extension, or `.txt` for a language outside the table; always a dot and at least one more character |
| `CodeStore.TemplatesMatchExtensions` | frontend/src/store/useCodeStore.ts:34-62 | the languages with a starter are exactly those with an extension |
| `CodeStore.EditsChangeOneField` | frontend/src/store/useCodeStore.ts:77-82 | updating content or renaming keeps ids, order and the other field, and sets the field exactly on the files with the id |
| `CodeStore.EditsIdempotent` | frontend/src/store/useCodeStore.ts:77-82 | repeating an edit changes nothing more |
| `CodeStore.RenameThenFind` | frontend/src/store/useCodeStore.ts:80-82 | after a rename, looking the id up gives the renamed file |
| `CodeStore.WithoutId` | frontend/src/store/useCodeStore.ts:84 | exactly the files with another id remain, each as often as before |
| `CodeStore.WithoutIdKeepsOrder` | frontend/src/store/useCodeStore.ts:84 | the remaining files keep their relative order |
| `Types.FilterKeepsOrder` | frontend/src/pages/Dashboard.tsx:149-150 | every filter keeps the relative order of what it keeps |
| `CodeStore.DeleteKeepsOtherLookups` | frontend/src/store/useCodeStore.ts:83-89 | deleting one id leaves every other lookup as it was |
| `CodeStore.ActiveAfterDelete` | frontend/src/store/useCodeStore.ts:87 | deleting another file keeps the active id; deleting the active file moves it to the first remaining file (found by a lookup of the new id), and leaves it unset exactly when no file remains or the first one's id is empty |
| `CodeStore.DeleteRepairsActive` | frontend/src/store/useCodeStore.ts:83-89 | after a delete the active id is absent or names a remaining file |
| `CodeStore.RetemplateOnlyUntouched` | frontend/src/store/useCodeStore.ts:92-103 | the files change on a language switch only when there is one file holding the old language's starter, and its id is kept |
| `CodeStore.RetemplateRoundTrip` | frontend/src/store/useCodeStore.ts:92-103 | switching away and back restores the starter file as `main<ext>` with the original language's template |
| `CodeStore.PushHistory` | frontend/src/store/useCodeStore.ts:107 | the new item is first, followed by the older entries, and the list has at most 50 entries |
| `CodeStore.HistoryNewestFirst` | frontend/src/store/useCodeStore.ts:107 | after any number of additions the history is the newest 50 entries, newest first |
| `CodeStore.NewestOfPush` | frontend/src/store/useCodeStore.ts:107 | cutting the list before or after pushing gives the same list |
| `CodeStore.Store.constructor` | frontend/src/store/useCodeStore.ts:65-70 | one Python starter file `main.py` with id `1`, active; language python; empty output and history; not running |
| `CodeStore.Store.SetFiles` | frontend/src/store/useCodeStore.ts:72 | replaces the files; nothing else changes |
| `CodeStore.Store.AddFile` | frontend/src/store/useCodeStore.ts:73-76 | appends one file under the fresh id and makes it active; nothing else changes |
| `CodeStore.Store.UpdateFileContent` | frontend/src/store/useCodeStore.ts:77-79 | the files become `WithContent`; nothing else changes |
| `CodeStore.Store.RenameFile` | frontend/src/store/useCodeStore.ts:80-82 | the files become `WithName`; nothing else changes |
| `CodeStore.Store.DeleteFile` | frontend/src/store/useCodeStore.ts:83-89 | the files lose the id, and the active id is repaired by `ActiveAfterDelete`; nothing else changes |
| `CodeStore.Store.SetActiveFileId` | frontend/src/store/useCodeStore.ts:90 | sets the active id; nothing else changes |
| `CodeStore.Store.SetLanguage` | frontend/src/store/useCodeStore.ts:92-103 | always sets the language; the files become `Retemplated`; nothing else changes |
| `CodeStore.Store.SetOutput` | frontend/src/store/useCodeStore.ts:104 | sets the output; nothing else changes |
| `CodeStore.Store.SetIsRunning` | frontend/src/store/useCodeStore.ts:105 | sets the running flag; nothing else changes |
| `CodeStore.Store.AppendOutput` | frontend/src/store/useCodeStore.ts:106 | the output becomes the old output followed by the chunk; nothing else changes |
| `CodeStore.Store.AddHistory` | frontend/src/store/useCodeStore.ts:107 | the history becomes `PushHistory` of the old one; nothing else changes |
| `CodeStore.Store.SetHistory` | frontend/src/store/useCodeStore.ts:108 | replaces the history as given, without the cap; nothing else changes |
| `CodeStore.Store.ClearOutput` | frontend/src/store/useCodeStore.ts:109 | the output becomes empty; nothing else changes |
| `DashboardPage.Lookup` | frontend/src/pages/Dashboard.tsx:60 | `None` exactly when no entry has the key; otherwise the value of the first entry with it |
| `DashboardPage.LookupFindsEntry` | frontend/src/pages/Dashboard.tsx:60 | with distinct keys, an entry's key finds that entry |
| `DashboardPage.BadgeLabels` | frontend/src/pages/Dashboard.tsx:32-60 | every listed language shows its display name, and any other id is shown as it is |
| `DashboardPage.RelativeTimeBuckets` | frontend/src/pages/Dashboard.tsx:68-76 | under a minute (or in the future) reads `just now`; otherwise it shows the whole minutes (under an hour), hours (under a day) or days elapsed |
| `DashboardPage.CreateRules` | frontend/src/pages/Dashboard.tsx:116-128 | a title is rejected exactly when it is blank; an accepted one is posted trimmed (non-empty, no white space at either end, the input with only white space cut from either side) with a single empty file `main.<ext>` |
| `DashboardPage.CreateExtFallsBackToJs` | frontend/src/pages/Dashboard.tsx:120 | any language other than python, typescript, cpp and c gets `main.js` |
| `DashboardPage.Distinct` | frontend/src/pages/Dashboard.tsx:145 | the language list holds exactly the languages that occur, each once |
| `DashboardPage.DistinctFirstAppearance` | frontend/src/pages/Dashboard.tsx:145 | the language list is in order of first appearance |
| `DashboardPage.SearchFilter` | frontend/src/pages/Dashboard.tsx:149 | keeps exactly the entries whose lower-cased title contains the lower-cased query, each as often as in the input |
| `DashboardPage.LanguageFilter` | frontend/src/pages/Dashboard.tsx:150 | keeps exactly the entries of the language, each as often as in the input |
| `DashboardPage.Selected` | frontend/src/pages/Dashboard.tsx:147-150 | an entry is kept, as often as it occurs, exactly when it matches the query (if the trimmed query is non-empty) and has the language (unless the filter is `all`) |
| `DashboardPage.LexLeTotal` | frontend/src/pages/Dashboard.tsx:153 | the title order compares any two titles |
| `DashboardPage.LexLeTransitive` | frontend/src/pages/Dashboard.tsx:153 | the title order is transitive |
| `DashboardPage.PrecedesTotal` | frontend/src/pages/Dashboard.tsx:151-153 | each of the three comparators orders any two entries |
| `DashboardPage.PrecedesTransitive` | frontend/src/pages/Dashboard.tsx:151-153 | each of the three comparators is transitive |
| `DashboardPage.SortInPlace` | frontend/src/pages/Dashboard.tsx:151-153 | the array ends sorted under the comparator and is a permutation of what it held |
| `DashboardPage.InsertLast` | frontend/src/pages/Dashboard.tsx:151-153 | moving one entry left extends the sorted prefix by one and keeps the array a permutation |
| `DashboardPage.FilteredRuntainers` | frontend/src/pages/Dashboard.tsx:147-155 | the shown list is a permutation of the selected entries, so every shown workspace occurs as often as in the list and no other is shown, sorted newest first, oldest first or by title |
| `DashboardPage.WithoutRuntainer` | frontend/src/pages/Dashboard.tsx:139 | exactly the entries with another id remain, each as often as before |
| `DashboardPage.Dashboard.constructor` | frontend/src/pages/Dashboard.tsx:81-91 | the loaded list, no delete target, no title error |
| `DashboardPage.Dashboard.RequestDelete` | frontend/src/pages/Dashboard.tsx:91 | sets the delete target; the list is unchanged |
| `DashboardPage.Dashboard.ConfirmDelete` | frontend/src/pages/Dashboard.tsx:135-141 | without a target nothing happens; otherwise the DELETE names its id; once it settles the toast names the title, exactly its entries leave the list and the dialog closes; when `fetch` rejects, no toast appears and the list and the dialog stay as they were |
| `DashboardPage.Dashboard.Create` | frontend/src/pages/Dashboard.tsx:116-133 | a blank title records the error and posts nothing; otherwise the error is cleared and the request of `HandleCreate` is posted |
| `IdePage.ExtAgreesWithStore` | frontend/src/pages/IDEPage.tsx:11-16 | the page's extension table and the store's have the same languages and, for each one, the same extension up to the dot |
| `IdePage.NativeMenuRunsInBrowser` | frontend/src/pages/IDEPage.tsx:38-42 | the native entries are all grouped `Native (Client)` and all run in the browser |
| `IdePage.ServerMenuRunsOnServer` | frontend/src/pages/IDEPage.tsx:43-55 | the server entries are all grouped `Server` and all go to the server |
| `IdePage.MenuGroupsMatchDispatch` | frontend/src/pages/IDEPage.tsx:38-56 | on the whole menu an entry is grouped native exactly when the dispatcher keeps it in the browser |
| `IdePage.MenuHasExtensions` | frontend/src/pages/IDEPage.tsx:38-56 | every language on the menu has an extension for new files |
| `IdePage.NewFileNameUsesStoreExtension` | frontend/src/pages/IDEPage.tsx:169-172 | a new file is `new_file_<count + 1>` with the extension the store gives the language |
| `IdePage.NewFileNamesDiffer` | frontend/src/pages/IDEPage.tsx:171 | different file counts give different names |
| `IdePage.SaveRequest` | frontend/src/pages/IDEPage.tsx:144-150 | a request is made exactly for a stored workspace id (not absent, empty, `demo`, `new` or `guest`) and carries the title, language and every file's name and content in order |
| `IdePage.Ide.constructor` | frontend/src/pages/IDEPage.tsx:21-31 | the page holds the store and the two engines, with no file being renamed |
| `IdePage.Ide.HandleRun` | frontend/src/pages/IDEPage.tsx:70-93 | the run proceeds exactly when the active id names a file; otherwise the output is cleared and nothing else happens; a run's reply is what the dispatcher gives on the engines' state on entry, the engines end as the dispatcher leaves them, its chunks fill the output in order, the history post carries the code, output and time, and an acknowledged entry heads the history; the flag ends down and the files, active id and language are kept |
| `IdePage.Ide.Record` | frontend/src/pages/IDEPage.tsx:77-91 | the chunks fill the cleared output, the history post is made, and an acknowledged entry is pushed |
| `IdePage.Ide.Stream` | frontend/src/pages/IDEPage.tsx:77 | `appendOutput` as the sink: the output grows by the chunks in order; nothing else changes |
| `IdePage.Ide.HandleRenameFile` | frontend/src/pages/IDEPage.tsx:157-167 | a blank name changes nothing and keeps the rename box; otherwise only that file takes the trimmed name and the box closes |
| `IdePage.Ide.HandleAddFile` | frontend/src/pages/IDEPage.tsx:169-172 | appends an empty file named from the file count and the language, and makes it active |

## Left out

- The network. The `/run`, `/runtainers` and `/history` endpoints appear only through their answers, passed as parameters (for the DELETE of a workspace, only whether `fetch` settles or rejects), and the requests the page would send are returned. JSON encoding and decoding are not modelled. A server reply whose body has no `output` field is not modelled.
- The engines' internals (`WebContainer.boot`, `mount`, `spawn`, `loadPyodide`, `runPythonAsync`, `FS.writeFile`, `globals.set`). Their behaviour is a parameter and their calls are recorded. A failing `FS.writeFile` or `globals.set` is not modelled: the Pyodide run treats them as succeeding.
- Concurrency:
  - the 100 ms polling loop is modelled as a waiter resuming after the boot in flight has settled;
  - the output stream is assumed to drain before `process.exit` resolves;
  - chunks reach the store's output after the dispatcher returns rather than while it runs, so the final state is modelled but not the interleaving;
  - overlapping runs on one engine are covered only by the engine invariant, not by a model of two interleaved runners.
- Pyodide's `input_data` global persisting from one run to the next; each run is modelled on its own.
- Clocks and randomness: `Date.now`, `new Date(...).getTime()` and the random file ids are parameters. `updatedAt` is taken as already parsed to milliseconds, so an unparseable date (`NaN`) is not modelled.
- Browser effects: `localStorage` (the signed-in user is a parameter), `document.title`, toasts, navigation, keyboard shortcuts, the console interception, the `LANGUAGE_COLORS` styling, and JSX rendering.
- The two loading effects of the editor page (history list, workspace load). Only the workspace-id guard they share with saving is modelled (`IdePage.SaveRequest`).
- `Text.Lower`: ASCII case folding only; `toLowerCase` folds all of Unicode.
- `DashboardPage.LexLe`: code-unit order stands for `localeCompare`; the locale's collation is not modelled.
- `DashboardPage.SortInPlace`: proves sorted and permutation, not the stability of `Array.prototype.sort`. Entries that compare equal may end in another order.
- `DashboardPage.FilteredRuntainers`: the same as `SortInPlace`; equal entries are not shown to keep their input order.
- `WebContainerRunner.BuildMountTree`: the mount object is a plain `{}`, so a file named `__proto__` replaces its prototype instead of adding an entry and is never mounted (and `node __proto__` then finds no file); the model mounts it like any other file.
- `WebContainerRunner.ProjectTreeEntries`: for the same reason, "one entry per file name" does not hold in the source for a file named `__proto__`.
- `CodeStore.Extension`: the extension table is a plain object, so an id naming an inherited `Object.prototype` member (`constructor`, `toString`, …) makes `map[lang] || '.txt'` yield that member; the model gives such ids `.txt`, as any other id outside the table.
- `CodeStore.DefaultCode`: likewise `defaultCode[lang] || ''` yields the inherited member for such ids, where the model has no starter (and `Retemplated` writes empty content).
- `IdePage.NewFileName`: likewise `EXT[language] ?? 'txt'` yields the inherited member for such ids, where the model uses `txt`.
- `IdePage.MenuHasExtensions`: proves that every menu language has an extension, not the converse, that every language in the table is on the menu.
