/**
 * The editor store (`useCodeStore`): the open files, the active file, the
 * language, the output pane and the run history, with the actions the pages
 * call.  Each action replaces some fields of the store and leaves the others
 * alone; the new values are computed by the pure functions of this module.
 */
module CodeStore {
  import opened Types
  import opened Text

  // ---- templates and extensions ----

  /** `defaultCode`: the starter program of every supported language. */
  const Templates: map<LanguageId, string> := map[
    "python" := "print(\"Hello, RunNow!\")\n",
    "javascript" := "console.log(\"Hello, RunNow!\");\n",
    "typescript" := "const msg: string = \"Hello, RunNow!\";\nconsole.log(msg);\n",
    "nodejs" := "console.log(\"Hello, Node!\");\n",
    "cpp" := "#include <iostream>\n\nint main() {\n    std::cout << \"Hello, RunNow!\" << std::endl;\n    return 0;\n}\n",
    "c" := "#include <stdio.h>\n\nint main() {\n    printf(\"Hello, RunNow!\\n\");\n    return 0;\n}\n",
    "java" := "public class Main {\n    public static void main(String[] args) {\n        System.out.println(\"Hello, RunNow!\");\n    }\n}\n",
    "rust" := "fn main() {\n    println!(\"Hello, RunNow!\");\n}\n",
    "go" := "package main\n\nimport \"fmt\"\n\nfunc main() {\n    fmt.Println(\"Hello, RunNow!\")\n}\n",
    "ruby" := "puts \"Hello, RunNow!\"\n",
    "php" := "<?php\n\necho \"Hello, RunNow!\";\n",
    "swift" := "print(\"Hello, RunNow!\")\n",
    "kotlin" := "fun main() {\n    println(\"Hello, RunNow!\")\n}\n",
    "scala" := "object Main extends App {\n    println(\"Hello, RunNow!\")\n}\n",
    "csharp" := "using System;\n\nclass Program {\n    static void Main() {\n        Console.WriteLine(\"Hello, RunNow!\");\n    }\n}\n",
    "bash" := "echo \"Hello, RunNow!\"\n",
    "sql" := "SELECT \"Hello, RunNow!\";\n"
  ]

  /** `defaultCode[lang]`: undefined for a language outside the table. */
  function DefaultCode(lang: LanguageId): (r: Option<string>)
    ensures r.Some? <==> lang in Templates
    ensures r.Some? ==> r.value == Templates[lang] && r.value != ""
  {
    if lang in Templates then Some(Templates[lang]) else None
  }

  /** The extension table of `getExtension`. */
  const Extensions: map<LanguageId, string> := map[
    "python" := ".py", "javascript" := ".js", "typescript" := ".ts", "nodejs" := ".js",
    "cpp" := ".cpp", "c" := ".c", "java" := ".java", "rust" := ".rs", "go" := ".go",
    "ruby" := ".rb", "php" := ".php", "swift" := ".swift", "kotlin" := ".kt",
    "scala" := ".scala", "csharp" := ".cs", "bash" := ".sh", "sql" := ".sql"
  ]

  /** `getExtension`: the mapped extension, `.txt` for a language outside the table. */
  function Extension(lang: LanguageId): (e: string)
    ensures lang in Extensions ==> e == Extensions[lang]
    ensures lang !in Extensions ==> e == ".txt"
    ensures |e| >= 2 && e[0] == '.'
  {
    if lang in Extensions && Extensions[lang] != "" then Extensions[lang] else ".txt"
  }

  /** Every language with a template has a dedicated extension, and the other way round. */
  lemma TemplatesMatchExtensions()
    ensures Templates.Keys == Extensions.Keys
  {
  }

  // ---- the new values the actions compute ----

  /** The map both edits make: `edit` applied to every file with the id, the others kept. */
  function Edited(files: seq<CodeFile>, id: string, edit: CodeFile -> CodeFile): (r: seq<CodeFile>)
    ensures |r| == |files|
  {
    seq(|files|, k requires 0 <= k < |files| => if files[k].id == id then edit(files[k]) else files[k])
  }

  /** `updateFileContent`'s map: files with the id get the new content. */
  function WithContent(files: seq<CodeFile>, id: string, content: string): (r: seq<CodeFile>)
    ensures |r| == |files|
  {
    Edited(files, id, (f: CodeFile) => f.(content := content))
  }

  /** `renameFile`'s map: files with the id get the new name. */
  function WithName(files: seq<CodeFile>, id: string, name: string): (r: seq<CodeFile>)
    ensures |r| == |files|
  {
    Edited(files, id, (f: CodeFile) => f.(name := name))
  }

  /** The ids of the files, in order. */
  function Ids(files: seq<CodeFile>): (r: seq<string>)
    ensures |r| == |files|
  {
    seq(|files|, k requires 0 <= k < |files| => files[k].id)
  }

  /**
   * An edit touches exactly one field of exactly the files with the id: the
   * ids, the order and every other field stay, and the edited field takes the
   * new value.
   */
  lemma EditsChangeOneField(files: seq<CodeFile>, id: string, v: string)
    ensures Ids(WithContent(files, id, v)) == Ids(files) && Ids(WithName(files, id, v)) == Ids(files)
    ensures forall k :: 0 <= k < |files| ==>
      WithContent(files, id, v)[k].name == files[k].name
      && WithContent(files, id, v)[k].content == (if files[k].id == id then v else files[k].content)
    ensures forall k :: 0 <= k < |files| ==>
      WithName(files, id, v)[k].content == files[k].content
      && WithName(files, id, v)[k].name == (if files[k].id == id then v else files[k].name)
  {
  }

  /** Repeating an edit changes nothing more. */
  lemma EditsIdempotent(files: seq<CodeFile>, id: string, v: string)
    ensures WithContent(WithContent(files, id, v), id, v) == WithContent(files, id, v)
    ensures WithName(WithName(files, id, v), id, v) == WithName(files, id, v)
  {
  }

  /** After a rename, looking the file up gives the renamed file. */
  lemma {:induction false} RenameThenFind(files: seq<CodeFile>, id: string, name: string)
    ensures FindFile(WithName(files, id, name), id) ==
      (match FindFile(files, id) case None => None case Some(f) => Some(f.(name := name)))
  {
    if files != [] {
      var r := WithName(files, id, name);
      assert r[1..] == WithName(files[1..], id, name);
      RenameThenFind(files[1..], id, name);
    }
  }

  /** `deleteFile`'s filter: the files whose id differs, in their original order. */
  function WithoutId(files: seq<CodeFile>, id: string): (r: seq<CodeFile>)
    ensures forall f :: f in r <==> f in files && f.id != id
    ensures forall f :: multiset(r)[f] == if f.id != id then multiset(files)[f] else 0
  {
    Filter(files, (f: CodeFile) => f.id != id)
  }

  /** The filter keeps relative order. */
  lemma WithoutIdKeepsOrder(files: seq<CodeFile>, id: string)
    ensures IsSubsequence(WithoutId(files, id), files)
  {
    FilterKeepsOrder(files, (f: CodeFile) => f.id != id);
  }

  /** Deleting one id leaves every other lookup as it was. */
  lemma {:induction false} DeleteKeepsOtherLookups(files: seq<CodeFile>, id: string, other: string)
    requires other != id
    ensures FindFile(WithoutId(files, id), other) == FindFile(files, other)
  {
    if files != [] {
      DeleteKeepsOtherLookups(files[1..], id, other);
    }
  }

  /**
   * `deleteFile`'s active-file repair: the first remaining file's id, `null`
   * when there is none or it is empty.  Deleting another file keeps the active
   * id; deleting the active file moves it to a file that remains, the first
   * one, and leaves it unset exactly when no remaining first file has a usable id.
   */
  function ActiveAfterDelete(active: Option<string>, id: string, remaining: seq<CodeFile>): (r: Option<string>)
    ensures active != Some(id) ==> r == active
    ensures active == Some(id) && r.Some? ==> remaining != [] && FindFile(remaining, r.value) == Some(remaining[0])
    ensures active == Some(id) ==> (r.None? <==> remaining == [] || remaining[0].id == "")
  {
    if active == Some(id) then
      if remaining != [] && remaining[0].id != "" then Some(remaining[0].id) else None
    else active
  }

  /** The active id names a file, or is absent. */
  predicate ActiveNamesFile(active: Option<string>, files: seq<CodeFile>) {
    active.None? || FindFile(files, active.value).Some?
  }

  /** Deleting a file never leaves the active id pointing at a missing file. */
  lemma DeleteRepairsActive(files: seq<CodeFile>, active: Option<string>, id: string)
    requires ActiveNamesFile(active, files)
    ensures var remaining := WithoutId(files, id);
      ActiveNamesFile(ActiveAfterDelete(active, id, remaining), remaining)
  {
    var remaining := WithoutId(files, id);
    var r := ActiveAfterDelete(active, id, remaining);
    if active.Some? && active.value != id {
      DeleteKeepsOtherLookups(files, id, active.value);
    }
  }

  /**
   * `setLanguage`'s file rewrite: a single file still holding the old
   * language's template becomes `main<ext>` with the new template (or empty
   * content when the new language has none); anything else is kept.
   */
  function Retemplated(files: seq<CodeFile>, oldLang: LanguageId, newLang: LanguageId): (r: seq<CodeFile>)
    ensures |r| == |files|
  {
    if |files| == 1 && Some(files[0].content) == DefaultCode(oldLang) then
      files[0 := files[0].(name := "main" + Extension(newLang), content := DefaultCode(newLang).GetOr(""))]
    else files
  }

  /** A project the user has touched — more files, or an edited one — is never rewritten. */
  lemma RetemplateOnlyUntouched(files: seq<CodeFile>, oldLang: LanguageId, newLang: LanguageId)
    ensures Retemplated(files, oldLang, newLang) != files ==>
      |files| == 1 && oldLang in Templates && files[0].content == Templates[oldLang]
    ensures Retemplated(files, oldLang, newLang) != files ==>
      Retemplated(files, oldLang, newLang)[0].id == files[0].id
  {
  }

  /**
   * Switching away from a language and back restores its template: the
   * untouched starter file of `a` becomes `main<ext of a>` holding `a`'s
   * template again, with its id.
   */
  lemma RetemplateRoundTrip(f: CodeFile, a: LanguageId, b: LanguageId)
    requires a in Templates && b in Templates && f.content == Templates[a]
    ensures Retemplated(Retemplated([f], a, b), b, a) ==
      [f.(name := "main" + Extension(a), content := Templates[a])]
  {
  }

  /** The history cap. */
  const HistoryLimit: nat := 50

  /** `addHistory`'s new list: the item first, then the older entries, cut at the cap. */
  function PushHistory(history: seq<HistoryItem>, item: HistoryItem): (r: seq<HistoryItem>)
    ensures |r| == if |history| + 1 <= HistoryLimit then |history| + 1 else HistoryLimit
    ensures r[0] == item && r[1..] == history[..|r| - 1]
  {
    var all := [item] + history;
    if |all| <= HistoryLimit then all else all[..HistoryLimit]
  }

  /** The first `HistoryLimit` elements (`slice(0, 50)`). */
  function Newest(s: seq<HistoryItem>): (r: seq<HistoryItem>)
    ensures |r| <= HistoryLimit
  {
    if |s| <= HistoryLimit then s else s[..HistoryLimit]
  }

  function Reverse<T>(s: seq<T>): (r: seq<T>)
    ensures |r| == |s|
  {
    if s == [] then [] else [s[|s| - 1]] + Reverse(s[..|s| - 1])
  }

  /** Adding items one after the other, oldest first. */
  function AddAll(history: seq<HistoryItem>, items: seq<HistoryItem>): seq<HistoryItem> {
    if items == [] then history else PushHistory(AddAll(history, items[..|items| - 1]), items[|items| - 1])
  }

  /**
   * After any number of additions the history holds the newest entries, newest
   * first, at most 50 of them: the added items in reverse, then the older list,
   * cut at the cap.
   */
  lemma {:induction false} HistoryNewestFirst(history: seq<HistoryItem>, items: seq<HistoryItem>)
    requires items != [] || |history| <= HistoryLimit
    ensures AddAll(history, items) == Newest(Reverse(items) + history)
  {
    if items != [] {
      var front, x := items[..|items| - 1], items[|items| - 1];
      assert Reverse(items) == [x] + Reverse(front);
      assert [x] + (Reverse(front) + history) == Reverse(items) + history;
      if front == [] {
        assert Reverse(front) + history == history;
      } else {
        HistoryNewestFirst(history, front);
        NewestOfPush(Reverse(front) + history, x);
      }
    }
  }

  /** Cutting before or after pushing gives the same list. */
  lemma NewestOfPush(s: seq<HistoryItem>, x: HistoryItem)
    ensures PushHistory(Newest(s), x) == Newest([x] + s)
  {
    if |s| > HistoryLimit {
      assert ([x] + s[..HistoryLimit])[..HistoryLimit] == ([x] + s)[..HistoryLimit];
    }
  }

  // ---- the store ----

  /** The zustand store: its fields, replaced by its actions. */
  class Store {
    var files: seq<CodeFile>
    var activeFileId: Option<string>
    var language: LanguageId
    var output: string
    var isRunning: bool
    var history: seq<HistoryItem>

    /** The initial state: one Python starter file, active, nothing run yet. */
    constructor ()
      ensures files == [CodeFile("1", "main.py", Templates["python"])]
      ensures activeFileId == Some("1") && language == "python"
      ensures output == "" && !isRunning && history == []
    {
      files := [CodeFile("1", "main.py", Templates["python"])];
      activeFileId := Some("1");
      language := "python";
      output := "";
      isRunning := false;
      history := [];
    }

    method SetFiles(fs: seq<CodeFile>)
      modifies this
      ensures files == fs
      ensures activeFileId == old(activeFileId) && language == old(language)
      ensures output == old(output) && isRunning == old(isRunning) && history == old(history)
    {
      files := fs;
    }

    /** `addFile`: append a file under a fresh random id and make it active. */
    method AddFile(name: string, content: string, freshId: string)
      modifies this
      ensures files == old(files) + [CodeFile(freshId, name, content)]
      ensures activeFileId == Some(freshId)
      ensures language == old(language) && output == old(output)
      ensures isRunning == old(isRunning) && history == old(history)
    {
      files := files + [CodeFile(freshId, name, content)];
      activeFileId := Some(freshId);
    }

    method UpdateFileContent(id: string, content: string)
      modifies this
      ensures files == WithContent(old(files), id, content)
      ensures activeFileId == old(activeFileId) && language == old(language)
      ensures output == old(output) && isRunning == old(isRunning) && history == old(history)
    {
      files := WithContent(files, id, content);
    }

    method RenameFile(id: string, name: string)
      modifies this
      ensures files == WithName(old(files), id, name)
      ensures activeFileId == old(activeFileId) && language == old(language)
      ensures output == old(output) && isRunning == old(isRunning) && history == old(history)
    {
      files := WithName(files, id, name);
    }

    method DeleteFile(id: string)
      modifies this
      ensures files == WithoutId(old(files), id)
      ensures activeFileId == ActiveAfterDelete(old(activeFileId), id, files)
      ensures language == old(language) && output == old(output)
      ensures isRunning == old(isRunning) && history == old(history)
    {
      var remaining := WithoutId(files, id);
      activeFileId := ActiveAfterDelete(activeFileId, id, remaining);
      files := remaining;
    }

    method SetActiveFileId(id: string)
      modifies this
      ensures activeFileId == Some(id)
      ensures files == old(files) && language == old(language)
      ensures output == old(output) && isRunning == old(isRunning) && history == old(history)
    {
      activeFileId := Some(id);
    }

    /** `setLanguage`: always switch; rewrite slot 0 of a copy when it is the untouched starter file. */
    method SetLanguage(lang: LanguageId)
      modifies this
      ensures language == lang
      ensures files == Retemplated(old(files), old(language), lang)
      ensures activeFileId == old(activeFileId) && output == old(output)
      ensures isRunning == old(isRunning) && history == old(history)
    {
      var newFiles := files;
      if |newFiles| == 1 && Some(newFiles[0].content) == DefaultCode(language) {
        newFiles := newFiles[0 := newFiles[0].(name := "main" + Extension(lang), content := DefaultCode(lang).GetOr(""))];
      }
      language := lang;
      files := newFiles;
    }

    method SetOutput(text: string)
      modifies this
      ensures output == text
      ensures files == old(files) && activeFileId == old(activeFileId) && language == old(language)
      ensures isRunning == old(isRunning) && history == old(history)
    {
      output := text;
    }

    method SetIsRunning(running: bool)
      modifies this
      ensures isRunning == running
      ensures files == old(files) && activeFileId == old(activeFileId) && language == old(language)
      ensures output == old(output) && history == old(history)
    {
      isRunning := running;
    }

    method AppendOutput(chunk: string)
      modifies this
      ensures output == old(output) + chunk
      ensures files == old(files) && activeFileId == old(activeFileId) && language == old(language)
      ensures isRunning == old(isRunning) && history == old(history)
    {
      output := output + chunk;
    }

    method ClearOutput()
      modifies this
      ensures output == ""
      ensures files == old(files) && activeFileId == old(activeFileId) && language == old(language)
      ensures isRunning == old(isRunning) && history == old(history)
    {
      output := "";
    }

    method AddHistory(item: HistoryItem)
      modifies this
      ensures history == PushHistory(old(history), item)
      ensures files == old(files) && activeFileId == old(activeFileId) && language == old(language)
      ensures output == old(output) && isRunning == old(isRunning)
    {
      history := PushHistory(history, item);
    }

    /** `setHistory`: replaces the list as given, without the cap. */
    method SetHistory(items: seq<HistoryItem>)
      modifies this
      ensures history == items
      ensures files == old(files) && activeFileId == old(activeFileId) && language == old(language)
      ensures output == old(output) && isRunning == old(isRunning)
    {
      history := items;
    }
  }
}
