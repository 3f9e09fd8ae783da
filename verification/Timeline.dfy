/** Windows onto a Run's activity log: merging them, checking pages, and reading the gap between two. */
module Timeline {
  import opened Sequences

  datatype Result<+T> = Ok(value: T) | Error(message: string)

  datatype Activity = Activity(id: string, runId: string, sequence: int)

  datatype Window = Window(items: seq<Activity>, hasEarlier: bool, earliest: Option<int>, latest: Option<int>)

  datatype Page = Page(items: seq<Activity>, hasMore: bool, nextCursor: Option<int>)

  const PageLimit := 100
  const MaxSafeInteger := 0x1f_ffff_ffff_ffff

  function First(items: seq<Activity>): Option<int> {
    if items == [] then None else Some(items[0].sequence)
  }

  function Last(items: seq<Activity>): Option<int> {
    if items == [] then None else Some(items[|items| - 1].sequence)
  }

  // ---- merging ---------------------------------------------------------------------------------

  ghost predicate Increasing(s: seq<Activity>) {
    forall i, j :: 0 <= i < j < |s| ==> s[i].sequence < s[j].sequence
  }

  /** One Run's items, identifiers and sequence numbers naming each other. */
  ghost predicate Consistent(runId: string, items: set<Activity>) {
    && (forall x :: x in items ==> x.runId == runId)
    && (forall x, y :: x in items && y in items ==> (x.id == y.id <==> x.sequence == y.sequence))
  }

  function Insert(s: seq<Activity>, x: Activity): seq<Activity> {
    if s == [] || x.sequence < s[0].sequence then [x] + s
    else if x.sequence == s[0].sequence then [x] + s[1..]
    else [s[0]] + Insert(s[1..], x)
  }

  function Sorted(items: seq<Activity>): seq<Activity> {
    if items == [] then [] else Insert(Sorted(items[..|items| - 1]), items[|items| - 1])
  }

  function AllItems(windows: seq<Window>): seq<Activity> {
    if windows == [] then [] else AllItems(windows[..|windows| - 1]) + windows[|windows| - 1].items
  }

  /** The window that reaches back furthest, the first of those. */
  function Earliest(windows: seq<Window>): Option<Window> {
    if windows == [] then None else
    var best, w := Earliest(windows[..|windows| - 1]), windows[|windows| - 1];
    if w.earliest.Some? && (best.None? || best.value.earliest.None? || w.earliest.value < best.value.earliest.value)
    then Some(w) else best
  }

  function Merge(windows: seq<Window>): Window {
    var items := Sorted(AllItems(windows));
    Window(items, Earliest(windows).Some? && Earliest(windows).value.hasEarlier, First(items), Last(items))
  }

  lemma PrependKeepsIncreasing(x: Activity, s: seq<Activity>)
    requires Increasing(s) && forall y :: y in s ==> x.sequence < y.sequence
    ensures Increasing([x] + s)
  {
  }

  lemma {:induction false} InsertKeepsIncreasing(s: seq<Activity>, x: Activity)
    requires Increasing(s)
    ensures Increasing(Insert(s, x))
    ensures forall y :: y in Insert(s, x) ==> y == x || y in s
    ensures x in Insert(s, x) && forall y :: y in s && y.sequence != x.sequence ==> y in Insert(s, x)
  {
    if s != [] && x.sequence > s[0].sequence {
      assert s == [s[0]] + s[1..];
      InsertKeepsIncreasing(s[1..], x);
      var rest := Insert(s[1..], x);
      forall y | y in rest ensures s[0].sequence < y.sequence {
        if y != x { var i :| 0 <= i < |s[1..]| && s[1..][i] == y; assert s[i + 1] == y; }
      }
      PrependKeepsIncreasing(s[0], rest);
    } else if s != [] {
      assert s == [s[0]] + s[1..];
    }
  }

  /** Sorting consistent items keeps each of them, once, in order. */
  lemma {:induction false} SortedSorts(runId: string, items: seq<Activity>)
    requires Consistent(runId, Elements(items))
    ensures Increasing(Sorted(items)) && Elements(Sorted(items)) == Elements(items)
  {
    if items != [] {
      var n := |items| - 1;
      assert items == items[..n] + [items[n]];
      assert Elements(items) == Elements(items[..n]) + {items[n]};
      SortedSorts(runId, items[..n]);
      InsertKeepsIncreasing(Sorted(items[..n]), items[n]);
      forall y | y in Sorted(items[..n]) && y.sequence == items[n].sequence ensures y == items[n] {
        assert y in Elements(Sorted(items[..n]));
      }
      assert forall y :: y in Elements(items[..n]) ==> y in Sorted(items[..n]) by {
        assert forall y :: y in Elements(items[..n]) ==> y in Elements(Sorted(items[..n]));
      }
    }
  }

  /** An increasing sequence is determined by its elements. */
  lemma {:induction false} IncreasingIsUnique(a: seq<Activity>, b: seq<Activity>)
    requires Increasing(a) && Increasing(b) && Elements(a) == Elements(b)
    ensures a == b
    decreases |a|
  {
    FirstIsElement(a);
    FirstIsElement(b);
    if a != [] {
      assert a[0] == b[0] by {
        var i :| 0 <= i < |a| && a[i] == b[0];
        var j :| 0 <= j < |b| && b[j] == a[0];
      }
      Rest(a);
      Rest(b);
      IncreasingIsUnique(a[1..], b[1..]);
      assert a == [a[0]] + a[1..] && b == [b[0]] + b[1..];
    }
  }

  lemma FirstIsElement(s: seq<Activity>)
    ensures if s == [] then Elements(s) == {} else s[0] in Elements(s)
  {
  }

  lemma Rest(s: seq<Activity>)
    requires Increasing(s) && s != []
    ensures Increasing(s[1..]) && Elements(s[1..]) == Elements(s) - {s[0]}
  {
    assert s == [s[0]] + s[1..];
    forall x | x in s[1..] ensures x != s[0] {
      var i :| 0 <= i < |s[1..]| && s[1..][i] == x;
      assert s[i + 1] == x;
    }
  }

  ghost predicate Tables(
    runId: string, items: set<Activity>, byId: map<string, Activity>, bySequence: map<int, string>)
  {
    && Consistent(runId, items)
    && (forall x :: x in items ==>
          x.id in byId && byId[x.id] == x && x.sequence in bySequence && bySequence[x.sequence] == x.id)
    && (forall id :: id in byId ==> byId[id] in items && byId[id].id == id)
    && (forall n :: n in bySequence ==> bySequence[n] in byId && byId[bySequence[n]].sequence == n)
  }

  predicate Contradicts(runId: string, byId: map<string, Activity>, bySequence: map<int, string>, x: Activity) {
    || x.runId != runId
    || (x.id in byId && byId[x.id].sequence != x.sequence)
    || (x.sequence in bySequence && bySequence[x.sequence] != x.id)
  }

  lemma TablesAdd(
    runId: string, items: set<Activity>, byId: map<string, Activity>, bySequence: map<int, string>, x: Activity)
    requires Tables(runId, items, byId, bySequence)
    ensures Contradicts(runId, byId, bySequence, x) ==> !Consistent(runId, items + {x})
    ensures !Contradicts(runId, byId, bySequence, x) ==>
      Tables(runId, items + {x}, byId[x.id := x], bySequence[x.sequence := x.id])
  {
    if Contradicts(runId, byId, bySequence, x) && x.runId == runId {
      if x.id in byId && byId[x.id].sequence != x.sequence {
        assert byId[x.id] in items + {x} && x in items + {x};
      } else {
        assert byId[bySequence[x.sequence]] in items + {x} && x in items + {x};
      }
    }
  }

  lemma SubsetConsistent(runId: string, some: set<Activity>, all: set<Activity>)
    requires some <= all && Consistent(runId, all)
    ensures Consistent(runId, some)
  {
  }

  lemma NextItem(before: seq<Activity>, items: seq<Activity>, j: nat)
    requires j < |items|
    ensures Elements(before + items[..j + 1]) == Elements(before + items[..j]) + {items[j]}
    ensures Sorted(before + items[..j + 1]) == Insert(Sorted(before + items[..j]), items[j])
  {
    var seen := before + items[..j];
    assert before + items[..j + 1] == seen + [items[j]] && (seen + [items[j]])[..|seen|] == seen;
  }

  /** Merge windows of one Run, or find that they contradict each other. */
  method MergeActivity(runId: string, windows: seq<Window>) returns (r: Result<Window>)
    ensures r.Ok? <==> Consistent(runId, Elements(AllItems(windows)))
    ensures r.Ok? ==> r.value == Merge(windows)
  {
    hide Consistent, Tables, Contradicts, Sorted, Insert, Elements;
    var byId: map<string, Activity> := map[];
    var bySequence: map<int, string> := map[];
    var items: seq<Activity> := [];
    var earliest: Option<Window> := None;
    NothingMerged(runId);
    for i := 0 to |windows|
      invariant Tables(runId, Elements(AllItems(windows[..i])), byId, bySequence)
      invariant items == Sorted(AllItems(windows[..i])) && earliest == Earliest(windows[..i])
    {
      var w := windows[i];
      assert windows[..i + 1][..i] == windows[..i] && windows[..i + 1][i] == w;
      if w.earliest.Some? &&
         (earliest.None? || earliest.value.earliest.None? || w.earliest.value < earliest.value.earliest.value) {
        earliest := Some(w);
      }
      ghost var before := AllItems(windows[..i]);
      assert before + w.items[..0] == before;
      for j := 0 to |w.items|
        invariant Tables(runId, Elements(before + w.items[..j]), byId, bySequence)
        invariant items == Sorted(before + w.items[..j])
      {
        var item := w.items[j];
        NextItem(before, w.items, j);
        TablesAdd(runId, Elements(before + w.items[..j]), byId, bySequence, item);
        if Contradicts(runId, byId, bySequence, item) {
          PartOfAll(windows, i, j);
          if Consistent(runId, Elements(AllItems(windows))) {
            SubsetConsistent(runId, Elements(before + w.items[..j + 1]), Elements(AllItems(windows)));
          }
          return Error("Inconsistent Run activity identity.");
        }
        byId := byId[item.id := item];
        bySequence := bySequence[item.sequence := item.id];
        items := Insert(items, item);
      }
      assert w.items[..|w.items|] == w.items;
    }
    assert windows[..|windows|] == windows;
    TablesAreConsistent(runId, Elements(AllItems(windows)), byId, bySequence);
    return Ok(Window(items, earliest.Some? && earliest.value.hasEarlier, First(items), Last(items)));
  }

  lemma NothingMerged(runId: string)
    ensures Tables(runId, Elements(AllItems([])), map[], map[]) && Sorted(AllItems([])) == []
  {
  }

  lemma TablesAreConsistent(
    runId: string, items: set<Activity>, byId: map<string, Activity>, bySequence: map<int, string>)
    requires Tables(runId, items, byId, bySequence)
    ensures Consistent(runId, items)
  {
  }

  lemma {:induction false} PartOfAll(windows: seq<Window>, i: nat, j: nat)
    requires i < |windows| && j < |windows[i].items|
    ensures Elements(AllItems(windows[..i]) + windows[i].items[..j + 1]) <= Elements(AllItems(windows))
    decreases |windows|
  {
    var n := |windows| - 1;
    if i == n {
      assert windows[..n] == windows[..i];
    } else {
      assert windows[..n][..i] == windows[..i] && windows[..n][i] == windows[i];
      PartOfAll(windows[..n], i, j);
    }
  }

  // ---- pages -----------------------------------------------------------------------------------

  function HistoryWindow(page: Page): Window {
    Window(page.items, page.hasMore, First(page.items), Last(page.items))
  }

  ghost predicate ValidItem(x: Activity, runId: string, before: int, after: Option<int>) {
    x.runId == runId && (if after.Some? then after.value else 0) < x.sequence < before
    && -MaxSafeInteger <= x.sequence <= MaxSafeInteger
  }

  /** Within its bounds, in order, and moving its cursor when there is more. */
  ghost predicate ValidPage(page: Page, runId: string, before: int, after: Option<int>) {
    && |page.items| <= PageLimit
    && Increasing(page.items)
    && (forall x :: x in page.items ==> ValidItem(x, runId, before, after))
    && (page.hasMore ==>
          page.items != [] && page.nextCursor == if after.None? then First(page.items) else Last(page.items))
  }

  method ValidateActivityPage(page: Page, runId: string, before: int, after: Option<int>) returns (valid: bool)
    ensures valid <==> ValidPage(page, runId, before, after)
  {
    var previous := if after.Some? then after.value else 0;
    if |page.items| > PageLimit {
      return false;
    }
    for i := 0 to |page.items|
      invariant Increasing(page.items[..i])
      invariant previous == if i > 0 then page.items[i - 1].sequence else if after.Some? then after.value else 0
      invariant forall k :: 0 <= k < i ==>
        ValidItem(page.items[k], runId, before, after) && page.items[k].sequence <= previous
    {
      var item := page.items[i];
      if item.runId != runId || !(-MaxSafeInteger <= item.sequence <= MaxSafeInteger)
         || item.sequence <= previous || item.sequence >= before {
        assert item in page.items;
        assert i > 0 ==> page.items[i - 1].sequence == previous;
        return false;
      }
      assert ValidItem(item, runId, before, after);
      previous := item.sequence;
    }
    assert page.items[..|page.items|] == page.items;
    var cursor := if after.None? then First(page.items) else Last(page.items);
    return !(page.hasMore && (cursor.None? || page.nextCursor != cursor));
  }

  // ---- an honest server ------------------------------------------------------------------------

  ghost predicate IsLog(runId: string, log: seq<Activity>) {
    && |log| <= MaxSafeInteger
    && (forall i :: 0 <= i < |log| ==> log[i].runId == runId && log[i].sequence == i + 1)
    && (forall i, j :: 0 <= i < j < |log| ==> log[i].id != log[j].id)
  }

  function Min(a: int, b: int): int { if a < b then a else b }

  function Max(a: int, b: int): int { if a < b then b else a }

  function LatestWindow(log: seq<Activity>, limit: nat): Window {
    var from := Max(0, |log| - limit);
    Window(log[from..], from > 0, First(log[from..]), Last(log[from..]))
  }

  /** The last entries before `before`. */
  function PageBefore(log: seq<Activity>, before: int): Page
    requires 1 <= before
  {
    var n := Min(before - 1, |log|);
    var from := Max(0, n - PageLimit);
    Page(log[from..n], from > 0, if from > 0 then First(log[from..n]) else None)
  }

  /** The first entries after `after` and before `before`. */
  function PageBetween(log: seq<Activity>, after: int, before: int): Page
    requires 0 <= after < before
  {
    var n := Min(before - 1, |log|);
    var to := Min(n, after + PageLimit);
    var items := if after <= to then log[after..to] else [];
    Page(items, to < n, if to < n then Last(items) else None)
  }

  lemma HonestPagesAreValid(runId: string, log: seq<Activity>, after: int, before: int)
    requires IsLog(runId, log) && 0 <= after < before
    ensures ValidPage(PageBetween(log, after, before), runId, before, Some(after))
    ensures ValidPage(PageBefore(log, before), runId, before, None)
  {
    hide ValidPage, IsLog;
    GapPageIsValid(runId, log, after, before);
    EarlierPageIsValid(runId, log, before);
  }

  lemma GapPageIsValid(runId: string, log: seq<Activity>, after: int, before: int)
    requires IsLog(runId, log) && 0 <= after < before
    ensures ValidPage(PageBetween(log, after, before), runId, before, Some(after))
  {
    var to := Min(Min(before - 1, |log|), after + PageLimit);
    if after <= to { SliceIsValid(runId, log, after, to); }
  }

  lemma EarlierPageIsValid(runId: string, log: seq<Activity>, before: int)
    requires IsLog(runId, log) && 1 <= before
    ensures ValidPage(PageBefore(log, before), runId, before, None)
  {
    var n := Min(before - 1, |log|);
    SliceIsValid(runId, log, Max(0, n - PageLimit), n);
  }

  lemma SliceIsValid(runId: string, log: seq<Activity>, from: int, to: int)
    requires IsLog(runId, log) && 0 <= from <= to <= |log|
    ensures Increasing(log[from..to])
    ensures forall x :: x in log[from..to] ==> x.runId == runId && from < x.sequence <= to
  {
  }

  /** A page below what is already there is the same whenever it is read. */
  lemma PagesAreStable(log: seq<Activity>, later: seq<Activity>, after: int, before: int)
    requires log <= later && 0 <= after < before <= |log| + 1
    ensures PageBetween(later, after, before) == PageBetween(log, after, before)
    ensures PageBefore(later, before) == PageBefore(log, before)
  {
    var n := before - 1;
    var to := Min(n, after + PageLimit);
    assert log == later[..|log|];
    assert after <= to ==> later[after..to] == log[after..to];
    assert later[Max(0, n - PageLimit)..n] == log[Max(0, n - PageLimit)..n];
  }

  ghost predicate HonestReader(runId: string, log: seq<Activity>, read: (int, int) -> Page) {
    IsLog(runId, log) && forall a, b :: 0 <= a < b ==> read(b, a) == PageBetween(log, a, b)
  }

  /** The page holds the next entries, with a cursor at the last of them, or all that is left. */
  ghost predicate Advances(log: seq<Activity>, page: Page, after: int, before: int)
    requires 0 <= after && after + 1 < before <= |log| + 1
  {
    if page.hasMore then
      && page.nextCursor.Some? && after < page.nextCursor.value < before - 1
      && page.items == log[after..page.nextCursor.value]
    else page.items == log[after..before - 1]
  }

  /** One honest page of a gap. */
  lemma PageAdvances(runId: string, log: seq<Activity>, after: int, before: int)
    requires IsLog(runId, log) && 0 <= after && after + 1 < before <= |log| + 1
    ensures Advances(log, PageBetween(log, after, before), after, before)
  {
  }

  lemma CursorAdvances(page: Page, runId: string, before: int, after: int)
    requires ValidPage(page, runId, before, Some(after)) && page.hasMore
    ensures page.nextCursor.Some? && after < page.nextCursor.value < before
  {
    assert page.items[|page.items| - 1] in page.items;
  }

  /** Read what lies between two windows, page by page, until the caller no longer wants it; it ends whatever
      the pages are, because a page that says there is more must move the lower bound up. `isCurrent` is the
      caller's answer the i-th time it is asked. */
  method ReadActivityGap(
    runId: string, previous: Option<Window>, next: Window, read: (int, int) -> Page,
    isCurrent: nat -> bool, ghost log: seq<Activity>)
    returns (r: Result<seq<Activity>>)
    ensures previous.None? || next.earliest.None? ==> r == Ok([])
    ensures r.Ok? && next.earliest.Some? ==> FillsGap(r.value, runId, GapStart(previous), next.earliest.value)
    ensures GapInLog(log, previous, next) && HonestReader(runId, log, read) ==>
      var gap := Gap(log, GapStart(previous), next.earliest.value);
      r.Ok? && r.value <= gap && ((forall i: nat :: isCurrent(i)) ==> r.value == gap)
  {
    var items: seq<Activity> := [];
    if previous.None? || next.earliest.None? {
      return Ok(items);
    }
    hide HonestReader, PageBetween, IsLog, FillsGap, NoneAfter, ValidPage;
    NothingFills(runId, GapStart(previous), next.earliest.value);
    var after := GapStart(previous);
    var before := next.earliest.value;
    ghost var start := after;
    ghost var honest := GapInLog(log, previous, next) && HonestReader(runId, log, read);
    var asked := 0;
    while after + 1 < before && isCurrent(asked)
      invariant honest ==> HasRead(log, start, after, before, items)
      invariant start <= after && FillsGap(items, runId, start, before) && NoneAfter(items, after)
      decreases before - after
    {
      asked := asked + 1;
      var page := read(before, after);
      var valid := ValidateActivityPage(page, runId, before, Some(after));
      if honest {
        HonestPage(runId, log, read, after, before);
        ReadOn(log, start, after, before, items, page);
      }
      if !valid {
        return Error("Activity page has invalid sequence bounds.");
      }
      GapFills(items, page, runId, start, before, after);
      items := items + page.items;
      if !page.hasMore {
        return Ok(items);
      }
      CursorAdvances(page, runId, before, after);
      after := page.nextCursor.value;
    }
    if honest {
      SoFar(log, start, after, before, items);
    }
    return Ok(items);
  }

  lemma NothingFills(runId: string, start: int, before: int)
    ensures FillsGap([], runId, start, before) && NoneAfter([], start)
  {
  }

  /** Entries of the Run between two sequence numbers, in order: whatever the server answers. */
  ghost predicate FillsGap(items: seq<Activity>, runId: string, start: int, before: int) {
    Increasing(items) && forall x :: x in items ==> x.runId == runId && start < x.sequence < before
  }

  ghost predicate NoneAfter(items: seq<Activity>, after: int) {
    forall x :: x in items ==> x.sequence <= after
  }

  lemma GapFills(items: seq<Activity>, page: Page, runId: string, start: int, before: int, after: int)
    requires FillsGap(items, runId, start, before) && NoneAfter(items, after) && start <= after
    requires ValidPage(page, runId, before, Some(after))
    ensures FillsGap(items + page.items, runId, start, before)
    ensures page.hasMore ==>
      page.nextCursor.Some? && after < page.nextCursor.value && NoneAfter(items + page.items, page.nextCursor.value)
  {
    var all := items + page.items;
    forall x | x in page.items ensures x.runId == runId && after < x.sequence < before {
      assert ValidItem(x, runId, before, Some(after));
    }
    forall i, j | 0 <= i < j < |all| ensures all[i].sequence < all[j].sequence {
      if i < |items| {
        assert all[i] in items;
        if j >= |items| { assert all[j] == page.items[j - |items|] && all[j] in page.items; }
      } else {
        assert all[i] == page.items[i - |items|] && all[j] == page.items[j - |items|];
      }
    }
    if page.hasMore {
      var last := page.items[|page.items| - 1];
      assert last in page.items && page.nextCursor == Some(last.sequence);
      forall x | x in all ensures x.sequence <= last.sequence {
        if x in page.items {
          var i :| 0 <= i < |page.items| && page.items[i] == x;
        }
      }
    }
  }

  lemma SoFar(log: seq<Activity>, start: int, after: int, before: int, items: seq<Activity>)
    requires HasRead(log, start, after, before, items) && before <= |log| + 1
    ensures items <= Gap(log, start, before) && (after + 1 >= before ==> items == Gap(log, start, before))
  {
  }

  ghost predicate GapInLog(log: seq<Activity>, previous: Option<Window>, next: Window) {
    && previous.Some? && next.earliest.Some?
    && 0 <= GapStart(previous) <= |log| && next.earliest.value <= |log| + 1
  }

  ghost predicate HasRead(log: seq<Activity>, start: int, after: int, before: int, items: seq<Activity>) {
    0 <= start <= after <= |log| && (after == start || after < before) && items == log[start..after]
  }

  lemma ReadOn(log: seq<Activity>, start: int, after: int, before: int, items: seq<Activity>, page: Page)
    requires HasRead(log, start, after, before, items) && after + 1 < before <= |log| + 1
    requires Advances(log, page, after, before)
    ensures page.hasMore ==> HasRead(log, start, page.nextCursor.value, before, items + page.items)
    ensures !page.hasMore ==> items + page.items == Gap(log, start, before)
  {
  }

  lemma HonestPage(runId: string, log: seq<Activity>, read: (int, int) -> Page, after: int, before: int)
    requires HonestReader(runId, log, read) && 0 <= after && after + 1 < before <= |log| + 1
    ensures ValidPage(read(before, after), runId, before, Some(after))
    ensures Advances(log, read(before, after), after, before)
  {
    HonestPagesAreValid(runId, log, after, before);
    PageAdvances(runId, log, after, before);
  }

  function GapStart(previous: Option<Window>): int {
    if previous.Some? && previous.value.latest.Some? then previous.value.latest.value else 0
  }

  /** The entries after the first `from` and before sequence `before`. */
  function Gap(log: seq<Activity>, from: int, before: int): seq<Activity>
    requires 0 <= from <= |log| && before <= |log| + 1
  {
    if from + 1 < before then log[from..before - 1] else []
  }
}
