/** Loads get somewhere: a refresh that nothing disturbs shows the Run as it is, and a history load shows one page
    more. */
module TimelineProgress {
  import opened Sequences
  import opened Machines
  import opened Timeline
  import opened TimelineRuns

  // ---- a history load --------------------------------------------------------------------------

  /** A history load that arrives shows exactly the page before what is shown, or all that is left of it, and
      everything that was shown. */
  lemma HistoryShowsOnePageMore(c: Config, s: State)
    requires Good(c, s) && Enabled(c, s, HistoryArrives)
    ensures var t := Take(c, s, HistoryArrives);
      && t.history.None? && t.shown.Some? && t.shown.value.revision == s.shown.value.revision
      && exists a, b :: 0 < a && Slice(s.log, s.shown.value.activity, a, b)
           && Slice(s.log, t.shown.value.activity, Max(0, a - 100), b)
  {
    hide IsLog, Merge, Slice, PageBefore;
    Numbered(c.runId, s.log);
    var was := s.shown.value.activity;
    var a, b :| Slice(s.log, was, a, b) && a <= Max(0, |s.log| - c.window);
    SliceBounds(s.log, was, a, b);
    HistoryMerges(c.runId, s.log, was, a, b);
  }

  // ---- a refresh -------------------------------------------------------------------------------

  /** The gap is read, and nothing else happens. */
  ghost predicate OnlyReads(s: State, t: State) {
    && t == s.(refresh := t.refresh) && s.refresh.Some? && s.refresh.value.Reading?
    && t.refresh.Some? && t.refresh.value.Reading?
    && t.refresh.value.previous == s.refresh.value.previous && t.refresh.value.next == s.refresh.value.next
    && t.refresh.value.revision == s.refresh.value.revision
  }

  ghost function GapLeft(r: Refresh): nat
    requires r.Reading?
  {
    if r.next.earliest.None? || !r.more then 0 else Max(0, r.next.earliest.value - r.after)
  }

  lemma OnePageLess(c: Config, s: State)
    requires Good(c, s) && s.refresh.Some? && s.refresh.value.Reading? && GapOpen(s.refresh.value)
    ensures Enabled(c, s, GapArrives)
    ensures var t := Take(c, s, GapArrives); OnlyReads(s, t) && GapLeft(t.refresh.value) < GapLeft(s.refresh.value)
  {
    hide IsLog, Slice, PageBetween, ReachesBack;
    var r := s.refresh.value;
    var a, b, d, e :| ReadingHolds(s.log, r, a, b, d, e) && ShownAt(s, a, b);
    Numbered(c.runId, s.log);
    SliceBounds(s.log, r.next, d, e);
    PageAdvances(c.runId, s.log, r.after, r.next.earliest.value);
  }

  lemma {:induction false} GapCloses(c: Config, s: State)
    requires Good(c, s) && s.refresh.Some? && s.refresh.value.Reading?
    ensures exists steps :: Legal(Client(c), s, steps) && Closed(s, After(Client(c), s, steps))
    decreases GapLeft(s.refresh.value)
  {
    hide Good, Take, GapOpen, GapLeft;
    var m := Client(c);
    if !GapOpen(s.refresh.value) {
      assert Legal(m, s, []) && After(m, s, []) == s;
    } else {
      OnePageLess(c, s);
      TakeKeeps(c, s, GapArrives);
      var u := Take(c, s, GapArrives);
      GapCloses(c, u);
      var rest :| Legal(m, u, rest) && Closed(u, After(m, u, rest));
      assert ([GapArrives] + rest)[1..] == rest && ([GapArrives] + rest)[0] == GapArrives;
      assert Legal(m, s, [GapArrives] + rest) && After(m, s, [GapArrives] + rest) == After(m, u, rest);
    }
  }

  ghost predicate Closed(s: State, t: State) {
    OnlyReads(s, t) && !GapOpen(t.refresh.value)
  }

  /** The Run is shown as it is: its revision, or a newer one shown before, and its activity up to the newest. */
  ghost predicate UpToDate(s: State, t: State) {
    && t == s.(refresh := None, shown := t.shown) && t.shown.Some?
    && t.shown.value.revision == (if s.shown.Some? then Max(s.shown.value.revision, s.revision) else s.revision)
    && (exists from :: Slice(s.log, t.shown.value.activity, from, |s.log|))
    && (s.shown.Some? ==> forall x :: x in s.shown.value.activity.items ==> x in t.shown.value.activity.items)
  }

  lemma EndShows(c: Config, s: State, u: State, t: State)
    requires Good(c, s) && Enabled(c, s, RunArrives) && u == Take(c, s, RunArrives) && Good(c, t) && Closed(u, t)
    ensures Enabled(c, t, RefreshEnds) && UpToDate(s, Take(c, t, RefreshEnds))
  {
    hide IsLog, Incoming, Merge, Slice, LatestWindow, ReadingHolds, ReachesBack, GapOpen;
    var r := t.refresh.value;
    var a, b, d, e :| ReadingHolds(t.log, r, a, b, d, e) && ShownAt(t, a, b);
    var from := RefreshShows(c.runId, t, a, b, d, e);
    LatestIsSlice(c.runId, s.log, c.window);
    Numbered(c.runId, s.log);
    ReadingIsSlice(t.log, r, a, b, d, e);
    SliceIsOne(s.log, r.next, d, e, Max(0, |s.log| - c.window), |s.log|);
    RefreshCatchesUp(c, t);
  }

  /** From any state in which a refresh has been asked for: if nothing else happens, the Run and the pages of the
      gap arrive, the refresh ends, and the Run is shown as it is. */
  lemma RefreshCompletes(c: Config, s: State)
    requires Good(c, s) && s.refresh == Some(Asked)
    ensures exists steps :: Legal(Client(c), s, steps) && UpToDate(s, After(Client(c), s, steps))
  {
    hide Good, Take, UpToDate, Closed;
    var m := Client(c);
    var u := Take(c, s, RunArrives);
    assert Leads(m, s, [RunArrives], u) by { LeadsOne(m, s, RunArrives, u); }
    TakeKeeps(c, s, RunArrives);
    RunIsReading(c, s);
    GapCloses(c, u);
    var steps :| Legal(m, u, steps) && Closed(u, After(m, u, steps));
    var t := After(m, u, steps);
    RunStaysGood(c, u, steps);
    EndShows(c, s, u, t);
    var w := Take(c, t, RefreshEnds);
    assert Leads(m, t, [RefreshEnds], w) by { LeadsOne(m, t, RefreshEnds, w); }
    LeadsOn(m, s, [RunArrives], u, steps, t);
    LeadsOn(m, s, [RunArrives] + steps, t, [RefreshEnds], w);
  }

  lemma RunIsReading(c: Config, s: State)
    requires s.refresh == Some(Asked)
    ensures var u := Take(c, s, RunArrives); u.refresh.Some? && u.refresh.value.Reading?
  {
  }

  lemma RunStaysGood(c: Config, s: State, steps: seq<Step>)
    requires Good(c, s) && Legal(Client(c), s, steps)
    ensures Good(c, After(Client(c), s, steps))
  {
    hide Good, Take, Enabled;
    forall x: State, a: Step | Good(c, x) && Client(c).enabled(x, a) ensures Good(c, Client(c).next(x, a)) {
      TakeKeeps(c, x, a);
    }
    RunKeeps(Client(c), (x: State) => Good(c, x), s, steps);
  }
}
