/**
 * Values shared by the execution path, the store and the pages: source files,
 * run results, history entries, and the errors the runners catch.
 */
module Types {

  datatype Option<T> = None | Some(value: T) {
    function GetOr(default: T): T {
      match this
      case Some(v) => v
      case None => default
    }
  }

  /** What an operation that may throw yields: a value, or the thrown error. */
  datatype Result<T> = Ok(value: T) | Err(fault: Fault)

  /** A thrown JavaScript error: its `name` and its `message`. */
  datatype Fault = Fault(name: string, message: string)

  /** A plain `new Error(message)`. */
  function Raised(message: string): Fault {
    Fault("Error", message)
  }

  /** What both runners throw when the active id names no file. */
  const MainNotFound: Fault := Raised("Main file not found")

  /**
   * `err.message || err.toString()`, as the two in-browser runners describe a
   * caught error: the message, or when it is empty what `toString` gives, the name.
   * The description is one of the two fields, the message whenever there is
   * one, and it is empty only when the error carries no text at all.
   */
  function Describe(f: Fault): (r: string)
    ensures r == f.message || r == f.name
    ensures f.message != "" ==> r == f.message
    ensures r == "" <==> f.message == "" && f.name == ""
  {
    if f.message != "" then f.message else f.name
  }

  /** What a runner's catch block returns as output for a caught error. */
  function ErrorOutput(f: Fault): string {
    "ERROR: " + Describe(f)
  }

  /** What a runner's catch block streams for a caught error (a literal backslash-n on both sides). */
  function ErrorNote(f: Fault): string {
    "\\nERROR: " + Describe(f) + "\\n"
  }

  /** A language identifier (`SupportedLanguage`, but any string arriving from stored data). */
  type LanguageId = string

  /** One editor file (`CodeFile`). */
  datatype CodeFile = CodeFile(id: string, name: string, content: string)

  /** An entry of the run history (`HistoryItem`). */
  datatype HistoryItem = HistoryItem(
    id: string, timestamp: int, language: LanguageId, code: string, output: string, timeTaken: int)

  /** What every backend resolves with (`{ output, time }`). */
  datatype RunResult = RunResult(output: string, time: int)

  /** `s.find(p)`: the first element `p` accepts, if any. */
  function Find<T(==)>(s: seq<T>, p: T -> bool): (r: Option<T>)
    ensures r.None? <==> forall k :: 0 <= k < |s| ==> !p(s[k])
    ensures r.Some? ==> exists k :: 0 <= k < |s| && s[k] == r.value && p(s[k]) && forall j :: 0 <= j < k ==> !p(s[j])
  {
    if s == [] then None
    else if p(s[0]) then Some(s[0])
    else
      var r := Find(s[1..], p);
      assert r.Some? ==> FirstMatchShifted(s, p, r.value);
      r
  }

  /** A first match in `s[1..]` is a first match in `s` when `s[0]` does not match. */
  ghost predicate FirstMatchShifted<T>(s: seq<T>, p: T -> bool, x: T)
    requires s != [] && !p(s[0])
    requires exists k :: 0 <= k < |s[1..]| && s[1..][k] == x && p(s[1..][k]) && forall j :: 0 <= j < k ==> !p(s[1..][j])
  {
    var k :| 0 <= k < |s[1..]| && s[1..][k] == x && p(s[1..][k]) && forall j :: 0 <= j < k ==> !p(s[1..][j]);
    s[k + 1] == x && p(s[k + 1]) && forall j :: 0 <= j < k + 1 ==> !p(s[j])
  }

  /** `files.find(f => f.id === id)`: the first file with that id, if any. */
  function FindFile(files: seq<CodeFile>, id: string): (r: Option<CodeFile>)
    ensures r.None? <==> forall k :: 0 <= k < |files| ==> files[k].id != id
    ensures r.Some? ==>
      (exists k :: 0 <= k < |files| && files[k] == r.value && forall j :: 0 <= j < k ==> files[j].id != id)
    ensures r.Some? ==> r.value.id == id
  {
    Find(files, (f: CodeFile) => f.id == id)
  }

  /** `s.filter(keep)`: the elements `keep` accepts, each as often as in `s`, in their order in `s`. */
  function Filter<T(==,!new)>(s: seq<T>, keep: T -> bool): (r: seq<T>)
    ensures forall x :: x in r <==> x in s && keep(x)
    ensures forall x :: multiset(r)[x] == if keep(x) then multiset(s)[x] else 0
    ensures |r| <= |s|
  {
    if s == [] then []
    else
      var rest := Filter(s[1..], keep);
      assert s == [s[0]] + s[1..];
      if keep(s[0]) then [s[0]] + rest else rest
  }

  /** `a` is `b` with some elements left out. */
  predicate IsSubsequence<T(==)>(a: seq<T>, b: seq<T>)
    decreases |b|
  {
    a == [] || (b != [] && ((a[0] == b[0] && IsSubsequence(a[1..], b[1..])) || IsSubsequence(a, b[1..])))
  }

  /** A filter keeps the relative order of what it keeps. */
  lemma {:induction false} FilterKeepsOrder<T(!new)>(s: seq<T>, keep: T -> bool)
    ensures IsSubsequence(Filter(s, keep), s)
  {
    if s != [] {
      FilterKeepsOrder(s[1..], keep);
    }
  }

  /** The names of a list of files. */
  function Names(files: seq<CodeFile>): set<string> {
    set f | f in files :: f.name
  }
}
