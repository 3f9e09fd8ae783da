/** Refreshes, gap reads and earlier-history loads interleaved over a growing log: what is shown stays a
    contiguous slice of it. */
module TimelineRuns {
  import opened Sequences
  import opened Machines
  import opened Timeline

  /** What is shown of the Run: its revision and its activity. */
  datatype Shown = Shown(revision: nat, activity: Window)

  /** The latest refresh: waiting for the Run, or reading the gap below the window it got. */
  datatype Refresh =
    | Asked
    | Reading(previous: Option<Window>, revision: nat, next: Window, after: int, items: seq<Activity>, more: bool)

  datatype State = State(
    log: seq<Activity>, revision: nat, shown: Option<Shown>, refresh: Option<Refresh>, history: Option<int>)

  datatype Step =
    | Append(activity: Activity)
    | Advance                       // the Run's revision grows
    | StartRefresh                  // a later refresh makes an earlier one's result void
    | RunArrives
    | GapArrives
    | RefreshEnds
    | RefreshFails
    | StartHistory
    | HistoryArrives
    | HistoryFails
    | SelectAnew                    // another Run, or none, was selected in between

  /** `window`: how many entries the server sends with a Run. */
  datatype Config = Config(runId: string, window: nat) {
    ghost predicate Valid() { window > 0 }
  }

  predicate GapOpen(r: Refresh)
    requires r.Reading?
  {
    r.previous.Some? && r.next.earliest.Some? && r.more && r.after + 1 < r.next.earliest.value
  }

  ghost predicate Enabled(c: Config, s: State, a: Step) {
    match a
    case Append(x) => IsLog(c.runId, s.log + [x])
    case RunArrives => s.refresh == Some(Asked)
    case GapArrives =>
      s.refresh.Some? && s.refresh.value.Reading? && GapOpen(s.refresh.value) && 0 <= s.refresh.value.after
    case RefreshEnds => s.refresh.Some? && s.refresh.value.Reading? && !GapOpen(s.refresh.value)
    case RefreshFails => s.refresh.Some?
    case StartHistory =>
      s.shown.Some? && s.shown.value.activity.hasEarlier && s.history.None? && s.shown.value.activity.earliest.Some?
    case HistoryArrives => s.history.Some? && s.shown.Some? && 1 <= s.history.value
    case HistoryFails => s.history.Some?
    case _ => true
  }

  /** The refresh's own window and the gap below it, as one. */
  function Incoming(r: Refresh): Window
    requires r.Reading?
  {
    var hasEarlier := r.previous.Some? && r.previous.value.hasEarlier;
    Merge([HistoryWindow(Page(r.items, hasEarlier, None)), r.next])
  }

  /** What is shown once a newer reading of the Run is merged in. */
  function MergeRun(shown: Option<Shown>, revision: nat, activity: Window): Shown {
    match shown
    case None => Shown(revision, Merge([activity]))
    case Some(was) => Shown(Max(was.revision, revision), Merge([was.activity, activity]))
  }

  /** One more page of the gap was read. */
  function WithPage(r: Refresh, page: Page): Refresh
    requires r.Reading?
  {
    r.(items := r.items + page.items, more := page.hasMore,
       after := if page.hasMore && page.nextCursor.Some? then page.nextCursor.value else r.after)
  }

  function Take(c: Config, s: State, a: Step): State
    requires a == GapArrives ==>
      s.refresh.Some? && s.refresh.value.Reading? && GapOpen(s.refresh.value) && 0 <= s.refresh.value.after
    requires a == RefreshEnds ==> s.refresh.Some? && s.refresh.value.Reading?
    requires a == StartHistory ==> s.shown.Some?
    requires a == HistoryArrives ==> s.history.Some? && s.shown.Some? && 1 <= s.history.value
  {
    match a
    case Append(x) => s.(log := s.log + [x])
    case Advance => s.(revision := s.revision + 1)
    case StartRefresh => s.(refresh := Some(Asked))
    case RunArrives =>
      var previous := if s.shown.Some? then Some(s.shown.value.activity) else None;
      s.(refresh := Some(Reading(previous, s.revision, LatestWindow(s.log, c.window), GapStart(previous), [], true)))
    case GapArrives =>
      var r := s.refresh.value;
      s.(refresh := Some(WithPage(r, PageBetween(s.log, r.after, r.next.earliest.value))))
    case RefreshEnds =>
      var r := s.refresh.value;
      s.(refresh := None, shown := Some(MergeRun(s.shown, r.revision, Incoming(r))))
    case RefreshFails => s.(refresh := None)
    case StartHistory => s.(history := s.shown.value.activity.earliest)
    case HistoryArrives =>
      var page := PageBefore(s.log, s.history.value);
      var was := s.shown.value;
      s.(history := None,
         shown := Some(was.(activity := Merge([HistoryWindow(page), was.activity]).(hasEarlier := page.hasMore))))
    case HistoryFails => s.(history := None)
    case SelectAnew => s.(shown := None, refresh := None, history := None)
  }

  ghost function Client(c: Config): Machine<State, Step> {
    Machine((s, a) => Enabled(c, s, a), (s: State, a: Step) => if Enabled(c, s, a) then Take(c, s, a) else s)
  }

  const Initial := State([], 0, None, None, None)

  // ---- slices ----------------------------------------------------------------------------------

  /** The window's items are the entries from position `a` up to `b`. */
  ghost predicate Covers(log: seq<Activity>, w: Window, a: int, b: int) {
    && 0 <= a <= b <= |log| && w.items == log[a..b]
    && w.earliest == (if a < b then Some(log[a].sequence) else None)
    && w.latest == (if a < b then Some(log[b - 1].sequence) else None)
  }

  /** And it says rightly whether there are older ones. */
  ghost predicate Slice(log: seq<Activity>, w: Window, a: int, b: int) {
    Covers(log, w, a, b) && (a == b ==> a == 0) && (w.hasEarlier <==> a > 0)
  }

  ghost predicate IsSlice(log: seq<Activity>, w: Window) {
    exists a, b :: Slice(log, w, a, b)
  }

  function Part(log: seq<Activity>, a: int, b: int): set<Activity> {
    set i | a <= i < b && 0 <= i < |log| :: log[i]
  }

  lemma SliceElements(runId: string, log: seq<Activity>, a: int, b: int)
    requires IsLog(runId, log) && 0 <= a <= b <= |log|
    ensures Elements(log[a..b]) == Part(log, a, b)
    ensures Increasing(log[a..b]) && Consistent(runId, Part(log, a, b))
  {
    hide Elements, Part, IsLog, Increasing, Consistent;
    SliceIsPart(log, a, b);
    SliceIncreases(runId, log, a, b);
    PartIsConsistent(runId, log, a, b);
  }

  lemma SliceIsPart(log: seq<Activity>, a: int, b: int)
    requires 0 <= a <= b <= |log|
    ensures Elements(log[a..b]) == Part(log, a, b)
  {
    var slice := log[a..b];
    assert forall j :: 0 <= j < |slice| ==> slice[j] == log[a + j];
    forall x | x in slice ensures x in Part(log, a, b) {
      var j :| 0 <= j < |slice| && slice[j] == x;
      assert log[a + j] == x;
    }
    forall x | x in Part(log, a, b) ensures x in slice {
      var i :| a <= i < b && 0 <= i < |log| && log[i] == x;
      assert slice[i - a] == x;
    }
  }

  lemma SliceIncreases(runId: string, log: seq<Activity>, a: int, b: int)
    requires IsLog(runId, log) && 0 <= a <= b <= |log|
    ensures Increasing(log[a..b])
  {
    var slice := log[a..b];
    assert forall j :: 0 <= j < |slice| ==> slice[j] == log[a + j];
  }

  lemma PartIsConsistent(runId: string, log: seq<Activity>, a: int, b: int)
    requires IsLog(runId, log) && 0 <= a <= b <= |log|
    ensures Consistent(runId, Part(log, a, b))
  {
  }

  /** Entries that all come from one log never contradict each other, so merging them cannot fail. */
  lemma EntriesOfOneLogAgree(runId: string, log: seq<Activity>, items: set<Activity>)
    requires IsLog(runId, log) && items <= Part(log, 0, |log|)
    ensures Consistent(runId, items)
  {
    SliceElements(runId, log, 0, |log|);
  }

  /** Two overlapping or adjacent parts of the log sort into one. */
  lemma PartsJoin(runId: string, log: seq<Activity>, items: seq<Activity>, a: int, b: int, c: int, d: int)
    requires IsLog(runId, log) && 0 <= a <= b <= |log| && 0 <= c <= d <= |log|
    requires Elements(items) == Part(log, a, b) + Part(log, c, d)
    requires a == b || c == d || (c <= b && a <= d)
    ensures Sorted(items) == if a == b then log[c..d] else if c == d then log[a..b] else log[Min(a, c)..Max(b, d)]
  {
    var from := if a == b then c else if c == d then a else Min(a, c);
    var to := if a == b then d else if c == d then b else Max(b, d);
    assert Part(log, a, b) + Part(log, c, d) == Part(log, from, to) by {
      forall x | x in Part(log, from, to) ensures x in Part(log, a, b) || x in Part(log, c, d) {
        var i :| from <= i < to && 0 <= i < |log| && log[i] == x;
        assert a <= i < b || c <= i < d;
      }
    }
    SliceElements(runId, log, from, to);
    SortedSorts(runId, items);
    IncreasingIsUnique(Sorted(items), log[from..to]);
  }

  lemma TwoWindows(v: Window, w: Window)
    ensures AllItems([v, w]) == v.items + w.items && AllItems([v]) == v.items
    ensures v.earliest.None? ==> Earliest([v, w]) == if w.earliest.Some? then Some(w) else None
    ensures v.earliest.Some? && w.earliest.Some? && w.earliest.value < v.earliest.value ==> Earliest([v, w]) == Some(w)
    ensures v.earliest.Some? && (w.earliest.Some? ==> w.earliest.value >= v.earliest.value) ==>
      Earliest([v, w]) == Some(v)
    ensures Earliest([v]) == if v.earliest.Some? then Some(v) else None
    ensures Elements(v.items + w.items) == Elements(v.items) + Elements(w.items)
  {
    assert [v, w][..1] == [v] && [v][..0] == [];
    assert AllItems([v]) == AllItems([]) + v.items;
    assert Earliest([]) == None;
  }

  lemma Numbered(runId: string, log: seq<Activity>)
    requires IsLog(runId, log)
    ensures forall i :: 0 <= i < |log| ==> log[i].sequence == i + 1
  {
  }

  function Join(a: int, b: int, c: int, d: int): (int, int) {
    if a == b then (c, d) else if c == d then (a, b) else (Min(a, c), Max(b, d))
  }

  /** Merging two parts of the log that overlap or touch gives the part they cover, with the word of the
      one that reaches back further. */
  lemma CoversMerge(runId: string, log: seq<Activity>, v: Window, a: int, b: int, w: Window, c: int, d: int)
    requires IsLog(runId, log) && Covers(log, v, a, b) && Covers(log, w, c, d)
    requires a == b || c == d || (c <= b && a <= d)
    ensures Covers(log, Merge([v, w]), Join(a, b, c, d).0, Join(a, b, c, d).1)
    ensures Merge([v, w]).hasEarlier ==
      if a == b then c < d && w.hasEarlier else if c < d && c < a then w.hasEarlier else v.hasEarlier
  {
    hide IsLog, Consistent, Increasing, Earliest, Sorted, AllItems, Elements, Part;
    Numbered(runId, log);
    MergedItems(runId, log, v, a, b, w, c, d);
    TwoWindows(v, w);
  }

  lemma MergedItems(runId: string, log: seq<Activity>, v: Window, a: int, b: int, w: Window, c: int, d: int)
    requires IsLog(runId, log) && Covers(log, v, a, b) && Covers(log, w, c, d)
    requires a == b || c == d || (c <= b && a <= d)
    ensures var (from, to) := Join(a, b, c, d);
      0 <= from <= to <= |log| && Sorted(AllItems([v, w])) == log[from..to]
  {
    hide IsLog, Consistent, Increasing, Earliest, Sorted, AllItems, Elements, Part;
    TwoWindows(v, w);
    SliceElements(runId, log, a, b);
    SliceElements(runId, log, c, d);
    PartsJoin(runId, log, v.items + w.items, a, b, c, d);
  }

  lemma SliceAlone(runId: string, log: seq<Activity>, v: Window, a: int, b: int)
    requires IsLog(runId, log) && Slice(log, v, a, b)
    ensures Merge([v]) == v
  {
    hide IsLog, Consistent, Increasing, Earliest, Sorted, AllItems, Elements, Part;
    TwoWindows(v, v);
    SliceElements(runId, log, a, b);
    SortedSorts(runId, v.items);
    IncreasingIsUnique(Sorted(v.items), v.items);
  }

  // ---- the invariant ---------------------------------------------------------------------------

  /** A refresh in progress: what it had seen, the window it got, and the part of the gap it has read. */
  ghost predicate ReadingHolds(log: seq<Activity>, r: Refresh, a: int, b: int, c: int, d: int)
    requires r.Reading?
  {
    && Slice(log, r.next, c, d) && 0 <= b <= d && a <= c
    && (r.previous.None? ==> a == b == 0 && r.items == [])
    && (r.previous.Some? ==> Slice(log, r.previous.value, a, b))
    && b + |r.items| <= Max(b, c) && r.items == log[b..b + |r.items|]
    && (if r.more then r.after == b + |r.items| else b + |r.items| == c)
  }

  /** What is shown meanwhile still ends where the refresh found it, and reaches back at least as far. */
  ghost predicate ShownAt(s: State, a: int, b: int)
    requires s.refresh.Some? && s.refresh.value.Reading?
  {
    && (s.shown.None? <==> s.refresh.value.previous.None?)
    && (s.shown.Some? ==> exists e :: e <= a && Slice(s.log, s.shown.value.activity, e, b))
  }

  ghost predicate RefreshHolds(s: State) {
    s.refresh.Some? && s.refresh.value.Reading? ==>
      exists a, b, c, d :: ReadingHolds(s.log, s.refresh.value, a, b, c, d) && ShownAt(s, a, b)
  }

  ghost predicate HistoryHolds(s: State) {
    s.history.Some? ==>
      s.shown.Some? && s.shown.value.activity.hasEarlier && s.shown.value.activity.earliest == s.history
  }

  /** The window the server would send now does not reach back further than what is shown. */
  ghost predicate ReachesBack(log: seq<Activity>, w: Window, window: nat) {
    exists a, b :: Slice(log, w, a, b) && a <= Max(0, |log| - window)
  }

  ghost predicate Good(c: Config, s: State) {
    && c.Valid() && IsLog(c.runId, s.log)
    && (s.shown.Some? ==> ReachesBack(s.log, s.shown.value.activity, c.window))
    && (s.refresh.Some? && s.refresh.value.Reading? ==> ReachesBack(s.log, s.refresh.value.next, c.window))
    && RefreshHolds(s) && HistoryHolds(s)
  }

  lemma SliceGrows(log: seq<Activity>, x: Activity, w: Window, a: int, b: int)
    requires Slice(log, w, a, b)
    ensures Slice(log + [x], w, a, b)
  {
    assert (log + [x])[a..b] == log[a..b];
  }

  lemma AppendKeeps(c: Config, s: State, x: Activity)
    requires Good(c, s) && IsLog(c.runId, s.log + [x])
    ensures Good(c, s.(log := s.log + [x]))
  {
    hide IsLog, ReachesBack, RefreshHolds;
    if s.shown.Some? { ReachGrows(s.log, x, s.shown.value.activity, c.window); }
    if s.refresh.Some? && s.refresh.value.Reading? { ReachGrows(s.log, x, s.refresh.value.next, c.window); }
    AppendKeepsRefresh(s, x);
  }

  lemma ReachGrows(log: seq<Activity>, x: Activity, w: Window, window: nat)
    requires ReachesBack(log, w, window)
    ensures ReachesBack(log + [x], w, window)
  {
    hide Slice;
    var a, b :| Slice(log, w, a, b) && a <= Max(0, |log| - window);
    SliceGrows(log, x, w, a, b);
  }

  lemma AppendKeepsRefresh(s: State, x: Activity)
    requires RefreshHolds(s)
    ensures RefreshHolds(s.(log := s.log + [x]))
  {
    hide Slice;
    var t := s.(log := s.log + [x]);
    if s.refresh.Some? && s.refresh.value.Reading? {
      var r := s.refresh.value;
      var a, b, d, e :| ReadingHolds(s.log, r, a, b, d, e) && ShownAt(s, a, b);
      SliceGrows(s.log, x, r.next, d, e);
      if r.previous.Some? {
        SliceGrows(s.log, x, r.previous.value, a, b);
        var f :| f <= a && Slice(s.log, s.shown.value.activity, f, b);
        SliceGrows(s.log, x, s.shown.value.activity, f, b);
      }
      SliceBounds(s.log, r.next, d, e);
      assert t.log[b..b + |r.items|] == s.log[b..b + |r.items|];
      assert ReadingHolds(t.log, r, a, b, d, e) && ShownAt(t, a, b);
    }
  }

  lemma SliceBounds(log: seq<Activity>, w: Window, a: int, b: int)
    requires Slice(log, w, a, b)
    ensures 0 <= a <= b <= |log|
    ensures a < b ==> w.earliest == Some(log[a].sequence) && w.latest == Some(log[b - 1].sequence)
    ensures a == b ==> w.earliest == None && w.latest == None
    ensures w.hasEarlier <==> a > 0
  {
  }

  lemma LatestIsSlice(runId: string, log: seq<Activity>, window: nat)
    requires IsLog(runId, log) && window > 0
    ensures Slice(log, LatestWindow(log, window), Max(0, |log| - window), |log|)
  {
  }

  /** What is shown ends within the log, where a gap would start. */
  lemma ShownEnds(c: Config, s: State) returns (a: int, b: int)
    requires Good(c, s) && s.shown.Some?
    ensures Slice(s.log, s.shown.value.activity, a, b) && a <= Max(0, |s.log| - c.window)
    ensures 0 <= b <= |s.log| && GapStart(Some(s.shown.value.activity)) == b
  {
    Numbered(c.runId, s.log);
    hide IsLog, Slice;
    a, b :| Slice(s.log, s.shown.value.activity, a, b) && a <= Max(0, |s.log| - c.window);
    SliceBounds(s.log, s.shown.value.activity, a, b);
    SliceOfNothing(s.log, s.shown.value.activity, a, b);
  }

  lemma SliceOfNothing(log: seq<Activity>, w: Window, a: int, b: int)
    requires Slice(log, w, a, b)
    ensures a == b ==> b == 0
  {
  }

  lemma RunArrivesKeeps(c: Config, s: State)
    requires Good(c, s) && Enabled(c, s, RunArrives)
    ensures Good(c, Take(c, s, RunArrives))
  {
    hide IsLog, LatestWindow, Slice;
    var t := Take(c, s, RunArrives);
    LatestIsSlice(c.runId, s.log, c.window);
    var a, b := 0, 0;
    if s.shown.Some? {
      a, b := ShownEnds(c, s);
    }
    assert s.log[b..b] == [];
    assert ReachesBack(s.log, t.refresh.value.next, c.window);
    assert ReadingHolds(t.log, t.refresh.value, a, b, Max(0, |s.log| - c.window), |s.log|);
    assert ShownAt(t, a, b);
  }

  lemma GapArrivesKeeps(c: Config, s: State)
    requires Good(c, s) && Enabled(c, s, GapArrives)
    ensures Good(c, Take(c, s, GapArrives))
  {
    hide IsLog, ReadingHolds, ReachesBack, PageBetween;
    Numbered(c.runId, s.log);
    var t := Take(c, s, GapArrives);
    var r := s.refresh.value;
    var a, b, d, e :| ReadingHolds(s.log, r, a, b, d, e) && ShownAt(s, a, b);
    ReadingIsSlice(s.log, r, a, b, d, e);
    SliceBounds(s.log, r.next, d, e);
    GapReads(c.runId, s.log, r, a, b, d, e);
    assert ReadingHolds(t.log, t.refresh.value, a, b, d, e) && ShownAt(t, a, b);
  }

  lemma ReadingIsSlice(log: seq<Activity>, r: Refresh, a: int, b: int, c: int, d: int)
    requires r.Reading? && ReadingHolds(log, r, a, b, c, d)
    ensures Slice(log, r.next, c, d)
  {
  }

  lemma GapReads(runId: string, log: seq<Activity>, r: Refresh, a: int, b: int, c: int, d: int)
    requires IsLog(runId, log) && r.Reading? && GapOpen(r) && 0 <= r.after && ReadingHolds(log, r, a, b, c, d)
    requires r.next.earliest == Some(c + 1) && 0 <= c <= |log|
    ensures ReadingHolds(log, WithPage(r, PageBetween(log, r.after, c + 1)), a, b, c, d)
  {
    hide IsLog, Slice, PageBetween;
    GapPage(runId, log, r, a, b, c, d);
  }

  lemma GapPage(runId: string, log: seq<Activity>, r: Refresh, a: int, b: int, c: int, d: int)
    requires IsLog(runId, log) && r.Reading? && GapOpen(r) && 0 <= r.after && ReadingHolds(log, r, a, b, c, d)
    requires r.next.earliest == Some(c + 1) && 0 <= c <= |log|
    ensures var page := PageBetween(log, r.after, c + 1);
      && b + |r.items| + |page.items| <= c && r.items + page.items == log[b..b + |r.items| + |page.items|]
      && (if page.hasMore then page.nextCursor == Some(b + |r.items| + |page.items|)
          else b + |r.items| + |page.items| == c)
  {
    hide IsLog, Slice, PageBetween;
    PageAdvances(runId, log, r.after, c + 1);
    var m, n := b + |r.items|, |PageBetween(log, r.after, c + 1).items|;
    assert r.after == m;
    SlicesJoin(log, b, m, m + n);
  }

  lemma SlicesJoin(log: seq<Activity>, a: int, b: int, c: int)
    requires 0 <= a <= b <= c <= |log|
    ensures log[a..b] + log[b..c] == log[a..c]
  {
  }

  lemma IncomingCovers(runId: string, log: seq<Activity>, r: Refresh, a: int, b: int, c: int, d: int)
    requires IsLog(runId, log) && r.Reading? && !GapOpen(r) && ReadingHolds(log, r, a, b, c, d)
    ensures Covers(log, Incoming(r), if b < c && r.previous.Some? then b else c, d)
    ensures !(b < c && r.previous.Some?) ==> Incoming(r).hasEarlier == (c < d && r.next.hasEarlier)
    ensures b < c && r.previous.Some? ==> Incoming(r).hasEarlier == r.previous.value.hasEarlier
  {
    hide IsLog, Merge;
    Numbered(runId, log);
    var hasEarlier := r.previous.Some? && r.previous.value.hasEarlier;
    var m := b + |r.items|;
    var v := HistoryWindow(Page(r.items, hasEarlier, None));
    assert r.previous.Some? && c < d ==> r.next.earliest == Some(c + 1);
    assert Covers(log, v, b, m);
    CoversMerge(runId, log, v, b, m, r.next, c, d);
  }

  /** The window after a refresh that ends. */
  lemma RefreshShows(runId: string, s: State, a: int, b: int, d: int, e: int) returns (from: int)
    requires IsLog(runId, s.log) && s.refresh.Some? && s.refresh.value.Reading? && !GapOpen(s.refresh.value)
    requires ReadingHolds(s.log, s.refresh.value, a, b, d, e) && ShownAt(s, a, b)
    ensures var r := s.refresh.value; var w := MergeRun(s.shown, r.revision, Incoming(r)).activity;
      Slice(s.log, w, from, e) && from <= d
    ensures s.shown.Some? ==> exists f :: Slice(s.log, s.shown.value.activity, f, b) && (f < b ==> from == f)
  {
    hide IsLog, Incoming, Merge, ReadingHolds, Slice, Covers;
    var r := s.refresh.value;
    IncomingCovers(runId, s.log, r, a, b, d, e);
    ReadingBounds(s.log, r, a, b, d, e);
    if s.shown.None? {
      from := d;
      CoversIsSlice(s.log, Incoming(r), d, e);
      SliceAlone(runId, s.log, Incoming(r), d, e);
    } else {
      var f :| f <= a && Slice(s.log, s.shown.value.activity, f, b);
      from := ShownMerges(runId, s.log, s.shown.value.activity, f, b, Incoming(r), if b < d then b else d, e);
    }
  }

  lemma CoversIsSlice(log: seq<Activity>, w: Window, a: int, b: int)
    requires Covers(log, w, a, b) && (a == b ==> a == 0) && (w.hasEarlier <==> a > 0)
    ensures Slice(log, w, a, b)
  {
  }

  lemma ShownMerges(runId: string, log: seq<Activity>, shown: Window, f: int, b: int, w: Window, g: int, e: int)
    returns (from: int)
    requires IsLog(runId, log) && Slice(log, shown, f, b) && Covers(log, w, g, e)
    requires f <= g <= b <= e && (g == e ==> g == 0) && (f == b ==> (w.hasEarlier <==> g < e && g > 0))
    ensures Slice(log, Merge([shown, w]), from, e) && from <= g && (f < b ==> from == f)
  {
    hide IsLog, Merge;
    CoversMerge(runId, log, shown, f, b, w, g, e);
    from := Join(f, b, g, e).0;
  }

  lemma ReadingBounds(log: seq<Activity>, r: Refresh, a: int, b: int, c: int, d: int)
    requires r.Reading? && ReadingHolds(log, r, a, b, c, d)
    ensures 0 <= b <= d && 0 <= a <= c <= d <= |log| && (c == d ==> c == 0)
    ensures r.next.hasEarlier <==> c > 0
    ensures r.previous.None? ==> a == b == 0
    ensures r.previous.Some? ==> (r.previous.value.hasEarlier <==> a > 0)
    ensures r.previous.Some? ==> 0 <= a <= b && (a == b ==> a == 0)
  {
  }

  lemma RefreshEndsKeeps(c: Config, s: State)
    requires Good(c, s) && Enabled(c, s, RefreshEnds)
    ensures Good(c, Take(c, s, RefreshEnds))
  {
    hide IsLog, Incoming, MergeRun, Slice;
    var t := Take(c, s, RefreshEnds);
    var r := s.refresh.value;
    var a, b, d, e :| ReadingHolds(s.log, r, a, b, d, e) && ShownAt(s, a, b);
    var from := RefreshShows(c.runId, s, a, b, d, e);
    var f, g :| Slice(s.log, r.next, f, g) && f <= Max(0, |s.log| - c.window);
    Numbered(c.runId, s.log);
    SliceIsOne(s.log, r.next, d, e, f, g);
    assert ReachesBack(t.log, t.shown.value.activity, c.window);
    SliceBounds(t.log, t.shown.value.activity, from, e);
    if s.shown.Some? {
      var h :| Slice(s.log, s.shown.value.activity, h, b) && (h < b ==> from == h);
      SliceBounds(s.log, s.shown.value.activity, h, b);
    }
  }

  lemma HistoryArrivesKeeps(c: Config, s: State)
    requires Good(c, s) && Enabled(c, s, HistoryArrives)
    ensures Good(c, Take(c, s, HistoryArrives))
  {
    hide IsLog, Merge, Slice, PageBefore;
    Numbered(c.runId, s.log);
    var t := Take(c, s, HistoryArrives);
    var was := s.shown.value.activity;
    var a, b :| Slice(s.log, was, a, b) && a <= Max(0, |s.log| - c.window);
    SliceBounds(s.log, was, a, b);
    HistoryMerges(c.runId, s.log, was, a, b);
    var from := Max(0, a - PageLimit);
    assert Slice(t.log, t.shown.value.activity, from, b);
    if s.refresh.Some? && s.refresh.value.Reading? {
      var p, q, d, e :| ReadingHolds(s.log, s.refresh.value, p, q, d, e) && ShownAt(s, p, q);
      var f :| f <= p && Slice(s.log, was, f, q);
      SliceIsOne(s.log, was, a, b, f, q);
      assert ShownAt(t, p, q);
    }
  }

  lemma SliceIsOne(log: seq<Activity>, w: Window, a: int, b: int, c: int, d: int)
    requires Slice(log, w, a, b) && Slice(log, w, c, d)
    requires forall i :: 0 <= i < |log| ==> log[i].sequence == i + 1
    ensures a == c && b == d
  {
    assert |w.items| == b - a == d - c;
    if a < b { assert w.items[0] == log[a] == log[c]; }
  }

  lemma HistoryMerges(runId: string, log: seq<Activity>, was: Window, a: int, b: int)
    requires IsLog(runId, log) && Slice(log, was, a, b) && was.hasEarlier
    ensures a < b && var page := PageBefore(log, a + 1); var from := Max(0, a - PageLimit);
      Slice(log, Merge([HistoryWindow(page), was]).(hasEarlier := page.hasMore), from, b)
  {
    var page, from := PageBefore(log, a + 1), Max(0, a - PageLimit);
    assert Covers(log, HistoryWindow(page), from, a);
    CoversMerge(runId, log, HistoryWindow(page), from, a, was, a, b);
  }

  lemma TakeKeeps(c: Config, s: State, a: Step)
    requires Good(c, s) && Enabled(c, s, a)
    ensures Good(c, Take(c, s, a))
  {
    match a
    case Append(x) => AppendKeeps(c, s, x);
    case RunArrives => RunArrivesKeeps(c, s);
    case GapArrives => GapArrivesKeeps(c, s);
    case RefreshEnds => RefreshEndsKeeps(c, s);
    case HistoryArrives => HistoryArrivesKeeps(c, s);
    case _ =>
  }

  /** After any interleaving, what is shown is a contiguous slice of the log in increasing order, and it says
      there are earlier entries exactly when there are. */
  lemma TimelineIsASlice(c: Config, steps: seq<Step>)
    requires c.Valid() && Legal(Client(c), Initial, steps)
    ensures var s := After(Client(c), Initial, steps);
      IsLog(c.runId, s.log) && (s.shown.Some? ==> IsSlice(s.log, s.shown.value.activity))
  {
    forall s: State, a: Step | Good(c, s) && Client(c).enabled(s, a) ensures Good(c, Client(c).next(s, a)) {
      TakeKeeps(c, s, a);
    }
    RunKeeps(Client(c), (s: State) => Good(c, s), Initial, steps);
  }

  /** A refresh that ends shows everything up to the entries it read, and loses nothing shown before. */
  lemma RefreshCatchesUp(c: Config, s: State)
    requires Good(c, s) && Enabled(c, s, RefreshEnds)
    ensures var t := Take(c, s, RefreshEnds);
      && (forall x :: x in s.refresh.value.next.items ==> x in t.shown.value.activity.items)
      && (s.shown.Some? ==> forall x :: x in s.shown.value.activity.items ==> x in t.shown.value.activity.items)
  {
    hide IsLog, Incoming, MergeRun;
    var r := s.refresh.value;
    var a, b, d, e :| ReadingHolds(s.log, r, a, b, d, e) && ShownAt(s, a, b);
    var from := RefreshShows(c.runId, s, a, b, d, e);
    SubSlice(s.log, d, e, from, e);
    if s.shown.Some? {
      var f :| Slice(s.log, s.shown.value.activity, f, b) && (f < b ==> from == f);
      SubSlice(s.log, f, b, from, e);
    }
  }

  lemma SubSlice(log: seq<Activity>, a: int, b: int, c: int, d: int)
    requires 0 <= a <= b <= |log| && 0 <= c <= d <= |log| && (a < b ==> c <= a && b <= d)
    ensures forall x :: x in log[a..b] ==> x in log[c..d]
  {
    forall x | x in log[a..b] ensures x in log[c..d] {
      var i :| a <= i < b && log[i] == x;
      assert log[c..d][i - c] == x;
    }
  }

  /** The revision shown of a selected Run never falls. */
  lemma {:induction false} RevisionNeverFalls(c: Config, s: State, steps: seq<Step>)
    requires s.shown.Some? && Legal(Client(c), s, steps) && SelectAnew !in steps
    ensures After(Client(c), s, steps).shown.Some?
    ensures After(Client(c), s, steps).shown.value.revision >= s.shown.value.revision
    decreases |steps|
  {
    if steps != [] {
      hide Incoming, Merge;
      assert steps[0] in steps && SelectAnew !in steps[1..];
      RevisionNeverFalls(c, Client(c).next(s, steps[0]), steps[1..]);
    }
  }

  // ---- the revision shown ----------------------------------------------------------------------

  /** Nothing newer than the server has is shown or was read. */
  ghost predicate RevisionsTrue(s: State) {
    && (s.shown.Some? ==> s.shown.value.revision <= s.revision)
    && (s.refresh.Some? && s.refresh.value.Reading? ==> s.refresh.value.revision <= s.revision)
  }

  lemma RevisionsStayTrue(c: Config, s: State, a: Step)
    requires RevisionsTrue(s) && Enabled(c, s, a)
    ensures RevisionsTrue(Take(c, s, a)) && s.revision <= Take(c, s, a).revision
  {
    hide Incoming, Merge, PageBetween, PageBefore, LatestWindow;
  }

  lemma RevisionsAreTrue(c: Config, steps: seq<Step>)
    requires Legal(Client(c), Initial, steps)
    ensures RevisionsTrue(After(Client(c), Initial, steps))
  {
    hide Take, Enabled;
    forall s: State, a: Step | RevisionsTrue(s) && Client(c).enabled(s, a) ensures RevisionsTrue(Client(c).next(s, a)) {
      RevisionsStayTrue(c, s, a);
    }
    RunKeeps(Client(c), RevisionsTrue, Initial, steps);
  }

  /** The refresh under way goes on. */
  ghost predicate GoesOn(a: Step) {
    !a.StartRefresh? && !a.RunArrives? && !a.RefreshEnds? && !a.RefreshFails? && !a.SelectAnew?
  }

  lemma ReadingStays(c: Config, s: State, a: Step)
    requires s.refresh.Some? && s.refresh.value.Reading? && Enabled(c, s, a) && GoesOn(a)
    ensures var t := Take(c, s, a);
      && t.refresh.Some? && t.refresh.value.Reading? && t.refresh.value.revision == s.refresh.value.revision
      && (a.Advance? || t.revision == s.revision)
  {
    hide Incoming, Merge, PageBetween, PageBefore;
  }

  lemma {:induction false} ReadingGoesOn(c: Config, s: State, steps: seq<Step>)
    requires s.refresh.Some? && s.refresh.value.Reading? && RevisionsTrue(s)
    requires Legal(Client(c), s, steps) && forall a :: a in steps ==> GoesOn(a)
    ensures var t := After(Client(c), s, steps);
      && RevisionsTrue(t) && s.revision <= t.revision && (Advance !in steps ==> t.revision == s.revision)
      && t.refresh.Some? && t.refresh.value.Reading? && t.refresh.value.revision == s.refresh.value.revision
    decreases |steps|
  {
    hide Take, Enabled, RevisionsTrue;
    if steps != [] {
      ReadingStays(c, s, steps[0]);
      RevisionsStayTrue(c, s, steps[0]);
      assert steps[0] in steps && forall a :: a in steps[1..] ==> a in steps;
      ReadingGoesOn(c, Client(c).next(s, steps[0]), steps[1..]);
    }
  }

  /** Whatever was shown before and happens meanwhile, a refresh that ends shows at least the revision the
      server had when the refresh read the Run, and no more than it has now: exactly its revision unless it
      has advanced since. */
  lemma RefreshShowsTheRevisionItRead(c: Config, s: State, steps: seq<Step>)
    requires RevisionsTrue(s) && Enabled(c, s, RunArrives)
    requires Legal(Client(c), Take(c, s, RunArrives), steps) && forall a :: a in steps ==> GoesOn(a)
    requires Enabled(c, After(Client(c), Take(c, s, RunArrives), steps), RefreshEnds)
    ensures var t := Take(c, After(Client(c), Take(c, s, RunArrives), steps), RefreshEnds);
      && t.shown.Some? && s.revision <= t.shown.value.revision <= t.revision
      && (Advance !in steps ==> t.shown.value.revision == s.revision)
  {
    hide Incoming, Merge, LatestWindow, GapStart;
    var u := Take(c, s, RunArrives);
    RevisionsStayTrue(c, s, RunArrives);
    ReadingGoesOn(c, u, steps);
  }
}
