/**
 * The rules of the dashboard page (`Dashboard.tsx`): badge labels, relative
 * times, the create dialog's checks and file naming, deleting a workspace,
 * the language list, and the search / filter / sort of the workspace list.
 */
module DashboardPage {
  import opened Types
  import opened Text

  /** One workspace of the list (`RuntainerSummary`), its `updatedAt` already read as milliseconds. */
  datatype Summary = Summary(id: string, title: string, language: LanguageId, fileCount: int, updatedAt: int)

  // ---- labels ----

  /** `LANGUAGES`: language ids and their display names, in menu order. */
  const Languages: seq<(LanguageId, string)> := [
    ("python", "Python"), ("javascript", "JavaScript"), ("typescript", "TypeScript"),
    ("nodejs", "Node.js"), ("go", "Go"), ("rust", "Rust"), ("java", "Java"),
    ("cpp", "C++"), ("c", "C"), ("ruby", "Ruby"), ("php", "PHP")
  ]

  /** `table.find(([v]) => v === key)?.[1]`: the value of the first entry with that key. */
  function Lookup(table: seq<(string, string)>, key: string): (r: Option<string>)
    ensures r.None? <==> forall i :: 0 <= i < |table| ==> table[i].0 != key
    ensures r.Some? ==> exists i :: 0 <= i < |table| && table[i] == (key, r.value)
                                   && forall j :: 0 <= j < i ==> table[j].0 != key
  {
    match Find(table, (e: (string, string)) => e.0 == key)
    case None => None
    case Some(e) => Some(e.1)
  }

  /** The badge text (`langBadge`, also `selectedLangLabel`): the display name, or the raw id. */
  function BadgeLabel(lang: LanguageId): string {
    Lookup(Languages, lang).GetOr(lang)
  }

  /** No two entries share a key. */
  predicate KeysDistinct(table: seq<(string, string)>) {
    forall i, j :: 0 <= i < j < |table| ==> table[i].0 != table[j].0
  }

  /** With distinct keys, looking up an entry's key finds that entry. */
  lemma LookupFindsEntry(table: seq<(string, string)>, i: int)
    requires KeysDistinct(table) && 0 <= i < |table|
    ensures Lookup(table, table[i].0) == Some(table[i].1)
  {
    var r := Lookup(table, table[i].0);
    var k :| 0 <= k < |table| && table[k] == (table[i].0, r.value)
             && forall j :: 0 <= j < k ==> table[j].0 != table[i].0;
    assert k == i;
  }

  /** Every listed language shows its display name; any other id is shown as it is. */
  lemma BadgeLabels(lang: LanguageId)
    ensures forall i :: 0 <= i < |Languages| ==> BadgeLabel(Languages[i].0) == Languages[i].1
    ensures (forall i :: 0 <= i < |Languages| ==> Languages[i].0 != lang) ==> BadgeLabel(lang) == lang
  {
    assert KeysDistinct(Languages);
    forall i | 0 <= i < |Languages|
      ensures BadgeLabel(Languages[i].0) == Languages[i].1
    {
      LookupFindsEntry(Languages, i);
    }
  }

  // ---- relative time ----

  /** `relativeTime`, for a workspace updated at `updated` seen at `now` (both in milliseconds). */
  function RelativeTime(now: int, updated: int): string {
    var mins := (now - updated) / 60000;  // `Math.floor`: the divisor is positive
    if mins < 1 then "just now"
    else if mins < 60 then IntToString(mins) + "m ago"
    else
      var hrs := mins / 60;
      if hrs < 24 then IntToString(hrs) + "h ago"
      else IntToString(hrs / 24) + "d ago"
  }

  /**
   * The buckets in terms of the elapsed time (a minute is 60000 ms, an hour
   * 3600000, a day 86400000): under a minute, or in the future, is `just now`;
   * otherwise the count shown is the number of whole minutes, hours or days
   * elapsed, in the first unit that keeps it under 60, 24, or without limit.
   */
  lemma RelativeTimeBuckets(now: int, updated: int)
    ensures var diff, r := now - updated, RelativeTime(now, updated);
      (diff < 60000 ==> r == "just now")
      && (60000 <= diff < 3600000 ==>
            exists n: nat :: 1 <= n < 60 && n * 60000 <= diff < (n + 1) * 60000 && r == NatToString(n) + "m ago")
      && (3600000 <= diff < 86400000 ==>
            exists n: nat :: 1 <= n < 24 && n * 3600000 <= diff < (n + 1) * 3600000 && r == NatToString(n) + "h ago")
      && (86400000 <= diff ==>
            exists n: nat :: 1 <= n && n * 86400000 <= diff < (n + 1) * 86400000 && r == NatToString(n) + "d ago")
  {
    var diff := now - updated;
    var mins := diff / 60000;
    var hrs := mins / 60;
    var days := hrs / 24;
    assert diff == 60000 * mins + diff % 60000;
    assert mins == 60 * hrs + mins % 60;
    assert hrs == 24 * days + hrs % 24;
    if 60000 <= diff < 3600000 {
      assert 1 <= mins < 60;
      assert mins * 60000 <= diff < (mins + 1) * 60000;
      assert RelativeTime(now, updated) == NatToString(mins) + "m ago";
    } else if 3600000 <= diff < 86400000 {
      assert 60 <= mins && 1 <= hrs < 24;
      assert hrs * 3600000 <= diff < (hrs + 1) * 3600000;
      assert RelativeTime(now, updated) == NatToString(hrs) + "h ago";
    } else if 86400000 <= diff {
      assert 60 <= mins && 24 <= hrs && 1 <= days;
      assert days * 86400000 <= diff < (days + 1) * 86400000;
      assert RelativeTime(now, updated) == NatToString(days) + "d ago";
    }
  }

  // ---- create dialog ----

  /** `ext` in `handleCreate`: five languages get their own extension, every other one `js`. */
  function CreateExt(lang: LanguageId): string {
    if lang == "python" then "py"
    else if lang == "typescript" then "ts"
    else if lang == "cpp" then "cpp"
    else if lang == "c" then "c"
    else "js"
  }

  /** The POST body of a new workspace: trimmed title, author, language, one empty main file. */
  datatype CreateRequest = CreateRequest(title: string, authorId: string, language: LanguageId, files: seq<(string, string)>)

  /** What `handleCreate` does: reject a blank title with a message, or post the new workspace. */
  datatype CreateOutcome = TitleRejected(message: string) | Post(request: CreateRequest)

  function HandleCreate(title: string, lang: LanguageId, authorId: string): CreateOutcome {
    if Trim(title) == "" then TitleRejected("Give your Runtainer a name.")
    else Post(CreateRequest(Trim(title), authorId, lang, [("main." + CreateExt(lang), "")]))
  }

  /**
   * A title made only of white space is rejected and nothing is posted;
   * any other is posted trimmed, with a single empty file `main.<ext>`.
   */
  lemma CreateRules(title: string, lang: LanguageId, authorId: string)
    ensures HandleCreate(title, lang, authorId).TitleRejected? <==> AllSpace(title)
    ensures HandleCreate(title, lang, authorId).Post? ==>
      var req := HandleCreate(title, lang, authorId).request;
      req.title != "" && !IsJsSpace(req.title[0]) && !IsJsSpace(req.title[|req.title| - 1])
      && (exists i, j :: 0 <= i <= j <= |title| && req.title == title[i..j]
                         && AllSpace(title[..i]) && AllSpace(title[j..]))
      && |req.files| == 1 && req.files[0].1 == ""
      && req.files[0].0 == "main." + CreateExt(lang)
  {
    TrimEmptyIffBlank(title);
    TrimIsInfix(title);
  }

  /** Only python, typescript, cpp and c are named after their language: a Go workspace starts with `main.js`. */
  lemma CreateExtFallsBackToJs(lang: LanguageId)
    requires lang !in ["python", "typescript", "cpp", "c"]
    ensures HandleCreate("x", lang, "").Post? && HandleCreate("x", lang, "").request.files[0].0 == "main.js"
  {
  }

  // ---- the language list ----

  /** `[...new Set(langs)]`: each value once, at its first position. */
  function Distinct(s: seq<LanguageId>): (r: seq<LanguageId>)
    ensures forall x :: x in r <==> x in s
    ensures forall i, j :: 0 <= i < j < |r| ==> r[i] != r[j]
  {
    if s == [] then []
    else
      var d := Distinct(s[..|s| - 1]);
      assert forall x :: x in s <==> x in s[..|s| - 1] || x == s[|s| - 1];
      if s[|s| - 1] in d then d else d + [s[|s| - 1]]
  }

  /** Index of the first occurrence of `x`. */
  function FirstIndex(s: seq<LanguageId>, x: LanguageId): (i: nat)
    requires x in s
    ensures i < |s| && s[i] == x && forall j :: 0 <= j < i ==> s[j] != x
  {
    if s[0] == x then 0 else 1 + FirstIndex(s[1..], x)
  }

  lemma FirstIndexSnoc(s: seq<LanguageId>, y: LanguageId, x: LanguageId)
    requires x in s
    ensures FirstIndex(s + [y], x) == FirstIndex(s, x)
  {
    var i := FirstIndex(s, x);
    var k := FirstIndex(s + [y], x);
    assert (s + [y])[i] == x;
    assert s[k] == x || k == |s|;
  }

  /** `r` lists values of `s` in the order in which they first appear there. */
  ghost predicate InFirstAppearanceOrder(s: seq<LanguageId>, r: seq<LanguageId>) {
    (forall x :: x in r ==> x in s)
    && forall i, j :: 0 <= i < j < |r| ==> FirstIndex(s, r[i]) < FirstIndex(s, r[j])
  }

  /** Appending to `s` keeps first positions, so the order carries over. */
  lemma OrderCarries(front: seq<LanguageId>, y: LanguageId, d: seq<LanguageId>)
    requires InFirstAppearanceOrder(front, d)
    ensures InFirstAppearanceOrder(front + [y], d)
  {
    forall i, j | 0 <= i < j < |d|
      ensures FirstIndex(front + [y], d[i]) < FirstIndex(front + [y], d[j])
    {
      FirstIndexSnoc(front, y, d[i]);
      FirstIndexSnoc(front, y, d[j]);
    }
  }

  /** The language list is in order of first appearance. */
  lemma {:induction false} DistinctFirstAppearance(s: seq<LanguageId>)
    ensures InFirstAppearanceOrder(s, Distinct(s))
  {
    if s != [] {
      var front, y := s[..|s| - 1], s[|s| - 1];
      assert s == front + [y];
      DistinctFirstAppearance(front);
      var d := Distinct(front);
      OrderCarries(front, y, d);
      if y !in d {
        assert y !in front;
        var r := d + [y];
        forall i, j | 0 <= i < j < |r|
          ensures FirstIndex(s, r[i]) < FirstIndex(s, r[j])
        {
          assert r[i] == d[i];
          if j == |d| {
            assert FirstIndex(s, y) == |front|;
            FirstIndexSnoc(front, y, d[i]);
          } else {
            assert r[j] == d[j];
          }
        }
        assert Distinct(s) == r;
      } else {
        assert Distinct(s) == d;
      }
    }
  }

  /** The language list of the runtainers. */
  function UsedLangs(runtainers: seq<Summary>): seq<LanguageId> {
    Distinct(seq(|runtainers|, k requires 0 <= k < |runtainers| => runtainers[k].language))
  }

  // ---- search, filter, sort ----

  /** The search box filter: the title contains the query, ignoring ASCII case. */
  predicate MatchesSearch(r: Summary, search: string) {
    Contains(Lower(r.title), Lower(search))
  }

  /** The search step: the entries whose title matches, each as often as in the list, in order. */
  function SearchFilter(list: seq<Summary>, search: string): (r: seq<Summary>)
    ensures forall x :: x in r <==> x in list && MatchesSearch(x, search)
    ensures forall x :: multiset(r)[x] == if MatchesSearch(x, search) then multiset(list)[x] else 0
  {
    Filter(list, (x: Summary) => MatchesSearch(x, search))
  }

  /** The language step: the entries of the language, each as often as in the list, in order. */
  function LanguageFilter(list: seq<Summary>, lang: LanguageId): (r: seq<Summary>)
    ensures forall x :: x in r <==> x in list && x.language == lang
    ensures forall x :: multiset(r)[x] == if x.language == lang then multiset(list)[x] else 0
  {
    Filter(list, (x: Summary) => x.language == lang)
  }

  /** Whether an entry survives the two steps. */
  predicate Shown(x: Summary, search: string, langFilter: LanguageId) {
    (Trim(search) == "" || MatchesSearch(x, search)) && (langFilter == "all" || x.language == langFilter)
  }

  /** The list before sorting: search applied when the trimmed query is non-empty, language unless `all`. */
  function Selected(runtainers: seq<Summary>, search: string, langFilter: LanguageId): (r: seq<Summary>)
    ensures forall x :: x in r <==> x in runtainers && Shown(x, search, langFilter)
    ensures forall x :: multiset(r)[x] == if Shown(x, search, langFilter) then multiset(runtainers)[x] else 0
  {
    var afterSearch := if Trim(search) != "" then SearchFilter(runtainers, search) else runtainers;
    if langFilter != "all" then LanguageFilter(afterSearch, langFilter) else afterSearch
  }

  datatype SortOrder = Newest | Oldest | ByName

  /** `localeCompare` read as code-unit order: `a` sorts no later than `b`. */
  predicate LexLe(a: string, b: string) {
    a == [] || (b != [] && (a[0] < b[0] || (a[0] == b[0] && LexLe(a[1..], b[1..]))))
  }

  lemma {:induction false} LexLeTotal(a: string, b: string)
    ensures LexLe(a, b) || LexLe(b, a)
  {
    if a != [] && b != [] && a[0] == b[0] {
      LexLeTotal(a[1..], b[1..]);
    }
  }

  lemma {:induction false} LexLeTransitive(a: string, b: string, c: string)
    requires LexLe(a, b) && LexLe(b, c)
    ensures LexLe(a, c)
  {
    if a != [] && b != [] && c != [] && a[0] == b[0] == c[0] {
      LexLeTransitive(a[1..], b[1..], c[1..]);
    }
  }

  /** `x` may precede `y` under the comparator of the chosen order. */
  predicate Precedes(x: Summary, y: Summary, order: SortOrder) {
    match order
    case Newest => x.updatedAt >= y.updatedAt
    case Oldest => x.updatedAt <= y.updatedAt
    case ByName => LexLe(x.title, y.title)
  }

  lemma PrecedesTotal(x: Summary, y: Summary, order: SortOrder)
    ensures Precedes(x, y, order) || Precedes(y, x, order)
  {
    if order == ByName {
      LexLeTotal(x.title, y.title);
    }
  }

  lemma PrecedesTransitive(x: Summary, y: Summary, z: Summary, order: SortOrder)
    requires Precedes(x, y, order) && Precedes(y, z, order)
    ensures Precedes(x, z, order)
  {
    if order == ByName {
      LexLeTransitive(x.title, y.title, z.title);
    }
  }

  predicate Sorted(s: seq<Summary>, order: SortOrder) {
    forall p, q :: 0 <= p < q < |s| ==> Precedes(s[p], s[q], order)
  }

  /** `list.sort(...)` on the copy: insertion sort, in place. */
  method SortInPlace(a: array<Summary>, order: SortOrder)
    modifies a
    ensures Sorted(a[..], order)
    ensures multiset(a[..]) == multiset(old(a[..]))
  {
    for i := 0 to a.Length
      invariant Sorted(a[..i], order)
      invariant multiset(a[..]) == multiset(old(a[..]))
    {
      InsertLast(a, i, order);
    }
    assert a[..a.Length] == a[..];
  }

  /** Move `a[i]` left past the entries that must follow it, so that `a[..i + 1]` is sorted. */
  method InsertLast(a: array<Summary>, i: int, order: SortOrder)
    requires 0 <= i < a.Length && Sorted(a[..i], order)
    modifies a
    ensures Sorted(a[..i + 1], order)
    ensures multiset(a[..]) == multiset(old(a[..]))
  {
    var j := i;
    InsertionStart(a[..], i, order);
    while j > 0 && !Precedes(a[j - 1], a[j], order)
      invariant InsertionState(a[..], i, j, order)
      invariant multiset(a[..]) == multiset(old(a[..]))
    {
      ghost var s := a[..];
      SwapStep(s, i, j, order);
      a[j - 1], a[j] := a[j], a[j - 1];
      assert a[..] == Swap(s, j - 1, j);
      j := j - 1;
    }
    InsertionDone(a[..], i, j, order);
  }

  /** `s` with the entries at `x` and `y` exchanged. */
  function Swap(s: seq<Summary>, x: int, y: int): (r: seq<Summary>)
    requires 0 <= x < |s| && 0 <= y < |s|
    ensures multiset(r) == multiset(s) && |r| == |s|
  {
    s[x := s[y]][y := s[x]]
  }

  /**
   * Midway through inserting the entry now at `j` into the sorted `s[..i]`:
   * the other entries up to `i` are in order, and the entry at `j` precedes
   * everything after it up to `i`.
   */
  ghost predicate InsertionState(s: seq<Summary>, i: int, j: int, order: SortOrder) {
    0 <= j <= i < |s|
    && (forall p, q :: 0 <= p < q <= i && p != j && q != j ==> Precedes(s[p], s[q], order))
    && (forall q :: j < q <= i ==> Precedes(s[j], s[q], order))
  }

  lemma InsertionStart(s: seq<Summary>, i: int, order: SortOrder)
    requires 0 <= i < |s| && Sorted(s[..i], order)
    ensures InsertionState(s, i, i, order)
  {
    forall p, q | 0 <= p < q <= i && p != i && q != i
      ensures Precedes(s[p], s[q], order)
    {
      assert s[p] == s[..i][p] && s[q] == s[..i][q];
    }
  }

  lemma SwapStep(s: seq<Summary>, i: int, j: int, order: SortOrder)
    requires InsertionState(s, i, j, order) && j > 0 && !Precedes(s[j - 1], s[j], order)
    ensures InsertionState(Swap(s, j - 1, j), i, j - 1, order)
  {
    PrecedesTotal(s[j - 1], s[j], order);
  }

  lemma InsertionDone(s: seq<Summary>, i: int, j: int, order: SortOrder)
    requires InsertionState(s, i, j, order) && (j == 0 || Precedes(s[j - 1], s[j], order))
    ensures Sorted(s[..i + 1], order)
  {
    forall p, q | 0 <= p < q < i + 1
      ensures Precedes(s[p], s[q], order)
    {
      if q == j && p < j - 1 {
        PrecedesTransitive(s[p], s[j - 1], s[j], order);
      }
    }
  }

  /** `filteredRuntainers`: filter the copy, then sort it. */
  method FilteredRuntainers(runtainers: seq<Summary>, search: string, langFilter: LanguageId, order: SortOrder)
    returns (list: seq<Summary>)
    ensures multiset(list) == multiset(Selected(runtainers, search, langFilter))
    ensures forall x :: multiset(list)[x] == if Shown(x, search, langFilter) then multiset(runtainers)[x] else 0
    ensures Sorted(list, order)
  {
    list := runtainers;
    if Trim(search) != "" {
      list := SearchFilter(list, search);
    }
    if langFilter != "all" {
      list := LanguageFilter(list, langFilter);
    }
    ghost var selected := list;
    assert selected == Selected(runtainers, search, langFilter);
    var a := new Summary[|list|](k requires 0 <= k < |list| => list[k]);
    assert a[..] == list;
    SortInPlace(a, order);
    list := a[..];
    assert multiset(list) == multiset(selected);
  }

  // ---- deleting ----

  /** `prev.filter(r => r.id !== id)`. */
  function WithoutRuntainer(list: seq<Summary>, id: string): (r: seq<Summary>)
    ensures forall x :: x in r <==> x in list && x.id != id
    ensures forall x :: multiset(r)[x] == if x.id != id then multiset(list)[x] else 0
  {
    Filter(list, (x: Summary) => x.id != id)
  }

  /** The workspace a delete confirmation is about. */
  datatype Target = Target(id: string, title: string)

  /** The page state the dialogs change. */
  class Dashboard {
    var runtainers: seq<Summary>
    var deleteTarget: Option<Target>
    var titleError: string

    constructor (loaded: seq<Summary>)
      ensures runtainers == loaded && deleteTarget == None && titleError == ""
    {
      runtainers := loaded;
      deleteTarget := None;
      titleError := "";
    }

    /** Ask for confirmation before deleting `t`. */
    method RequestDelete(t: Target)
      modifies this
      ensures deleteTarget == Some(t) && runtainers == old(runtainers) && titleError == old(titleError)
    {
      deleteTarget := Some(t);
    }

    /**
     * `confirmDelete`: without a target nothing happens; otherwise the DELETE
     * request for its id is issued.  When the request settles (`resolved`,
     * whatever the status) the toast names its title, exactly the entries with
     * that id leave the list, and the dialog closes; when `fetch` rejects, the
     * awaiting function throws before any of that, and the page is left as it was.
     */
    method ConfirmDelete(resolved: bool) returns (request: Option<string>, toast: Option<string>)
      modifies this
      ensures old(deleteTarget).None? ==>
        request.None? && toast.None? && runtainers == old(runtainers) && deleteTarget == None
      ensures old(deleteTarget).Some? ==> request == Some(old(deleteTarget).value.id)
      ensures old(deleteTarget).Some? && resolved ==>
        var t := old(deleteTarget).value;
        toast == Some("\"" + t.title + "\" deleted")
        && runtainers == WithoutRuntainer(old(runtainers), t.id) && deleteTarget == None
      ensures old(deleteTarget).Some? && !resolved ==>
        toast.None? && runtainers == old(runtainers) && deleteTarget == old(deleteTarget)
      ensures titleError == old(titleError)
    {
      if deleteTarget.None? {
        return None, None;
      }
      var t := deleteTarget.value;
      request := Some(t.id);
      if !resolved {
        return request, None;
      }
      toast := Some("\"" + t.title + "\" deleted");
      runtainers := WithoutRuntainer(runtainers, t.id);
      deleteTarget := None;
    }

    /** `handleCreate`: record the title error, and return the request to post, if any. */
    method Create(title: string, lang: LanguageId, authorId: string) returns (request: Option<CreateRequest>)
      modifies this
      ensures HandleCreate(title, lang, authorId).TitleRejected? ==>
        request.None? && titleError == HandleCreate(title, lang, authorId).message
      ensures HandleCreate(title, lang, authorId).Post? ==>
        request == Some(HandleCreate(title, lang, authorId).request) && titleError == ""
      ensures runtainers == old(runtainers) && deleteTarget == old(deleteTarget)
    {
      match HandleCreate(title, lang, authorId)
      case TitleRejected(message) =>
        titleError := message;
        request := None;
      case Post(req) =>
        titleError := "";
        request := Some(req);
    }
  }
}
