/** No invalidation is stranded, and no event is marked handled without a fresh enough read. */
module InvalidationTheorems {
  import opened Sequences
  import opened Machines
  import opened CoalescedRefresh
  import opened ProjectionIndex
  import opened Invalidation

  // ---- building blocks -------------------------------------------------------------------------

  lemma TimelyKept(s: State, t: State)
    requires WaitersTimely(s) && MarksTimely(s)
    requires Keeps(s.flights, t.flights) && t.marks == s.marks
    requires forall w :: w in t.waiters ==> w in s.waiters && t.waiters[w] == s.waiters[w]
    ensures WaitersTimely(t)
  {
    hide Since, Before, Awaitable;
    forall w, x | w in t.waiters && x in t.marks
      ensures Timely(t.flights, w, t.waiters[w].promise, t.marks[x])
    {
      assert Timely(s.flights, w, s.waiters[w].promise, s.marks[x]) && Earlier(s, s.marks[x]);
    }
  }

  lemma LogKept(s: State, f: Flights)
    requires LogTimely(s) && Keeps(s.flights, f)
    ensures LogTimely(s.(flights := f))
  {
  }

  /** A step that only moves refreshes along. */
  lemma FlightsStep(s: State, f: Flights)
    requires Good(s) && Tables(f) && Keeps(s.flights, f)
    ensures Good(s.(flights := f))
  {
    var t := s.(flights := f);
    forall e, k | Waits(t.index, e, k) ensures CoveredPair(t, e, k) {
      assert CoveredPair(s, e, k);
    }
    TimelyKept(s, t);
    LogKept(s, f);
  }

  lemma CoveredKept(s: State, t: State, e: Event, k: Key)
    requires k in s.index.projections && k in t.index.projections && CoveredPair(s, e, k)
    requires t.index.projections[k].id == s.index.projections[k].id
    requires s.index.projections[k].timer ==> t.index.projections[k].timer
    requires forall w :: w in s.waiters ==> w in t.waiters && t.waiters[w] == s.waiters[w]
    ensures CoveredPair(t, e, k)
  {
  }

  /** The same pairs are pending. */
  ghost predicate SamePairs(s: Index, t: Index) {
    forall e, k :: Waits(t, e, k) == Waits(s, e, k) && Pending(t, e, k) == Pending(s, e, k)
  }

  // ---- the steps -------------------------------------------------------------------------------

  /** Registering and awaiting: the new pair is covered by the timer or by the new continuation. */
  lemma QueueKeeps(s: State, e: Event, key: Key, call: nat)
    requires Good(s)
    ensures Good(Queue(s, e, key, call))
  {
    QueueKeepsTables(s, e, key, call);
    QueueKeepsMarks(s, e, key, call);
    QueueKeepsLog(s, e, key, call);
    QueueCovers(s, e, key, call);
    QueueIsTimely(s, e, key, call);
  }

  lemma QueueKeepsTables(s: State, e: Event, key: Key, call: nat)
    requires Good(s)
    ensures var t := Queue(s, e, key, call); Indexed(t.index) && Tables(t.flights) && WaitersAwait(t)
  {
    hide Indexed, Tables, Since, Before, Coalesce, Covered, WaitersTimely, MarksTimely, LogTimely;
    RegisterKeeps(s.index, e, key);
    CoalesceKeeps(s.flights, key);
  }

  lemma QueueKeepsMarks(s: State, e: Event, key: Key, call: nat)
    requires Good(s)
    ensures MarksTimely(Queue(s, e, key, call))
  {
    hide Tables, Coalesce, Register, Began, Covered, WaitersTimely, LogTimely, Awaitable, Since, Before;
    RegisterKeeps(s.index, e, key);
    CoalesceKeeps(s.flights, key);
    var t := Queue(s, e, key, call);
    forall x | x in t.marks ensures Earlier(t, t.marks[x]) {
      assert x in s.marks && t.marks[x] == s.marks[x] ==> Earlier(s, s.marks[x]);
    }
  }

  lemma QueueKeepsLog(s: State, e: Event, key: Key, call: nat)
    requires Good(s)
    ensures LogTimely(Queue(s, e, key, call))
  {
    CoalesceKeeps(s.flights, key);
    LogKept(s, Queue(s, e, key, call).flights);
    LogKept(s, s.flights);
  }

  lemma QueueIsTimely(s: State, e: Event, key: Key, call: nat)
    requires Good(s)
    ensures WaitersTimely(Queue(s, e, key, call))
  {
    hide Indexed, Tables, Covered, LogTimely, Since, Before, Began, Coalesce, Register, Waits, Pending;
    NoteIsTimely(s, e, key);
    var t := Note(s, e, key);
    CoalesceKeeps(s.flights, key);
    NothingNew(s.flights, s.flights.next);
    assert forall x :: x in s.marks ==> Earlier(s, s.marks[x]);
    AwaitIsTimely(t, t, Apply(e, key, Immediate, call));
    AwaitIsTimely(t, t.(flights := Coalesce(s.flights, key).0), Apply(e, key, Coalesce(s.flights, key).1, call));
  }

  lemma NothingNew(f: Flights, mark: nat)
    ensures Since(f, Immediate, mark) && Keeps(f, f)
  {
  }

  /** Those who wait are divided by whether their refresh has begun. */
  lemma NoteIsTimely(s: State, e: Event, key: Key)
    requires Tables(s.flights) && WaitersAwait(s) && WaitersTimely(s)
    ensures WaitersTimely(Note(s, e, key))
  {
    hide Tables, Since, Before, Began, Register, Pending, Awaitable;
    var t := Note(s, e, key);
    forall w, x | w in t.waiters && x in t.marks
      ensures Timely(t.flights, w, t.waiters[w].promise, t.marks[x])
    {
      if x in s.marks && t.marks[x] == s.marks[x] {
        assert Timely(s.flights, w, s.waiters[w].promise, s.marks[x]);
      } else {
        BeganIsBefore(s.flights, s.waiters[w].promise, s.waiters[w].key, s.flights.next);
      }
    }
  }

  /** A promise obtained now settles to nothing older than any registration. */
  lemma AwaitIsTimely(s: State, t: State, a: Waiter)
    requires WaitersTimely(s) && Keeps(s.flights, t.flights) && t == s.(flights := t.flights)
    requires forall x :: x in s.marks ==> Earlier(s, s.marks[x])
    requires Since(t.flights, a.promise, s.flights.next)
    ensures WaitersTimely(Await(t, a))
  {
    hide Since, Before, Awaitable;
    var u := Await(t, a);
    forall w, x | w in u.waiters && x in u.marks
      ensures Timely(u.flights, w, u.waiters[w].promise, u.marks[x])
    {
      assert Earlier(s, s.marks[x]);
      if w == s.nextWaiter {
        SinceEarlier(t.flights, a.promise, s.marks[x].flight, s.flights.next);
      } else {
        assert Timely(s.flights, w, s.waiters[w].promise, s.marks[x]);
      }
    }
  }

  lemma QueueCovers(s: State, e: Event, key: Key, call: nat)
    requires Indexed(s.index) && Tables(s.flights) && Covered(s) && WaitersAwait(s)
    ensures Covered(Queue(s, e, key, call))
  {
    hide Indexed, Tables, Queue, Register, WaitersAwait;
    RegisterKeeps(s.index, e, key);
    QueueAwaits(s, e, key, call);
    NextWaiterIsFree(s);
    var t := Queue(s, e, key, call);
    forall d, k | Waits(t.index, d, k) ensures CoveredPair(t, d, k) {
      if Waits(s.index, d, k) {
        CoveredKept(s, t, d, k);
      } else {
        assert s.nextWaiter in t.waiters;
      }
    }
  }

  /** The key's timer is armed, or the new continuation awaits a refresh. */
  lemma QueueAwaits(s: State, e: Event, key: Key, call: nat)
    requires Tables(s.flights)
    ensures var t := Queue(s, e, key, call); var p := t.waiters[s.nextWaiter].promise;
      && t.index == Register(s.index, e, key) && t.waiters == s.waiters[s.nextWaiter := Apply(e, key, p, call)]
      && (p.Immediate? ==> key in s.index.projections && s.index.projections[key].timer)
  {
    hide Tables, Coalesce, Register, Here;
    CoalesceKeeps(s.flights, key);
  }

  lemma NextWaiterIsFree(s: State)
    requires WaitersAwait(s)
    ensures s.nextWaiter !in s.waiters
  {
  }

  lemma {:induction false} QueueAllKeeps(s: State, e: Event, keys: seq<Key>, call: nat)
    requires Good(s)
    ensures Good(QueueAll(s, e, keys, call))
    decreases |keys|
  {
    if keys != [] {
      QueueKeeps(s, e, keys[0], call);
      QueueAllKeeps(Queue(s, e, keys[0], call), e, keys[1..], call);
    }
  }

  lemma Restart(s: State, processing: set<Event>, seen: seq<Event>, next: nat)
    requires Good(s) && s.nextWaiter <= next
    ensures Good(s.(processing := processing, nextWaiter := next, index := s.index.(seen := seen)))
  {
    var t := s.(processing := processing, nextWaiter := next, index := s.index.(seen := seen));
    assert SamePairs(s.index, t.index);
    forall e, k | Waits(t.index, e, k) ensures CoveredPair(t, e, k) {
      CoveredKept(s, t, e, k);
    }
    TimelyKept(s, t);
  }

  lemma DeliverKeeps(s: State, e: Event, keys: seq<Key>)
    requires Good(s)
    ensures Good(Deliver(s, e, keys))
  {
    hide Good, QueueAll, Remember;
    if keys == [] {
      Restart(s, s.processing, Remember(s.index.seen, e), s.nextWaiter);
    } else {
      Restart(s, s.processing + {e}, s.index.seen, s.nextWaiter + 1);
      QueueAllKeeps(s.(processing := s.processing + {e}, nextWaiter := s.nextWaiter + 1), e, keys, s.nextWaiter);
    }
  }

  /** Taking the timer's place: the new continuation covers everything the timer covered. */
  lemma RetryKeeps(s: State, key: Key)
    requires Good(s) && key in s.index.projections
    ensures Good(RetryNow(s, key))
  {
    hide Indexed, Tables, Covered, WaitersAwait, WaitersTimely, MarksTimely, LogTimely;
    RetryKeepsRest(s, key);
    RetryCovers(s, key);
    RetryIsTimely(s, key);
  }

  lemma RetryCovers(s: State, key: Key)
    requires Good(s) && key in s.index.projections
    ensures Covered(RetryNow(s, key))
  {
    hide Tables, Coalesce, WaitersTimely, LogTimely, MarksTimely;
    var t := RetryNow(s, key);
    CoalesceKeeps(s.flights, key);
    forall e, k | Waits(t.index, e, k) ensures CoveredPair(t, e, k) {
      assert Waits(s.index, e, k);
      if k == key {
        assert s.nextWaiter in t.waiters && Covers(t.waiters[s.nextWaiter], e, k, t.index.projections[k].id);
      } else {
        CoveredKept(s, t, e, k);
      }
    }
  }

  lemma RetryIsTimely(s: State, key: Key)
    requires Good(s) && key in s.index.projections
    ensures WaitersTimely(RetryNow(s, key))
  {
    hide Tables, Coalesce, Since, Before, Awaitable, LogTimely, Covered, Indexed, WaitersTimely;
    var p := s.index.projections[key];
    var (flights, promise) := Coalesce(s.flights, key);
    CoalesceKeeps(s.flights, key);
    AwaitIsTimely(s, s.(flights := flights), Retry(p.id, key, promise, p.events));
    Moved(Await(s.(flights := flights), Retry(p.id, key, promise, p.events)), RetryNow(s, key));
  }

  lemma Moved(s: State, t: State)
    requires WaitersTimely(s) && t == s.(index := t.index)
    ensures WaitersTimely(t)
  {
  }

  lemma SinceEarlier(f: Flights, p: Promise, earlier: nat, mark: nat)
    requires earlier <= mark && Since(f, p, mark)
    ensures Since(f, p, earlier)
  {
  }

  lemma RetryKeepsRest(s: State, key: Key)
    requires Good(s) && key in s.index.projections
    ensures var t := RetryNow(s, key);
      Indexed(t.index) && Tables(t.flights) && WaitersAwait(t) && MarksTimely(t) && LogTimely(t)
  {
    hide Indexed, Tables, WaitersAwait, MarksTimely, LogTimely, Coalesce, Covered, WaitersTimely;
    var t := RetryNow(s, key);
    CoalesceKeeps(s.flights, key);
    LogKept(s, t.flights);
    LogSame(s.(flights := t.flights), t);
    DisarmKeeps(s.index, key);
    RetryAwaits(s, key);
    RetryMarks(s, key);
  }

  lemma DisarmKeeps(index: Index, key: Key)
    requires Indexed(index) && key in index.projections
    ensures Indexed(SetTimer(index, key, false)) && SamePairs(index, SetTimer(index, key, false))
  {
    assert SamePairs(index, SetTimer(index, key, false));
  }

  lemma RetryAwaits(s: State, key: Key)
    requires Indexed(s.index) && Tables(s.flights) && WaitersAwait(s) && key in s.index.projections
    ensures WaitersAwait(RetryNow(s, key))
  {
    hide Tables, Coalesce, Since, Before, Awaitable;
    CoalesceKeeps(s.flights, key);
  }

  lemma RetryMarks(s: State, key: Key)
    requires Tables(s.flights) && MarksTimely(s) && key in s.index.projections
    ensures MarksTimely(RetryNow(s, key))
  {
    hide Tables, Coalesce, Since, Before, Awaitable;
    CoalesceKeeps(s.flights, key);
    assert SamePairs(s.index, RetryNow(s, key).index);
    MarksKept(s, RetryNow(s, key));
  }

  lemma LogSame(s: State, t: State)
    requires LogTimely(s) && t.log == s.log && t.flights == s.flights
    ensures LogTimely(t)
  {
  }

  /** Reconciling a pair, with evidence as fresh as the log will say. */
  lemma HandleKeeps(s: State, e: Event, key: Key, cause: Cause, waiter: Option<nat>)
    requires Good(s) && Evidence(s, e, key, cause, waiter)
    ensures Good(Handle(s, e, key, cause, waiter))
  {
    var t := Handle(s, e, key, cause, waiter);
    ReconcileKeeps(s.index, e, key);
    forall d, k | Waits(t.index, d, k) ensures CoveredPair(t, d, k) {
      CoveredKept(s, t, d, k);
    }
    TimelyKept(s, t);
    MarksKept(s, t);
  }

  lemma MarksKept(s: State, t: State)
    requires MarksTimely(s) && t.marks == s.marks
    requires s.flights.next <= t.flights.next && s.nextWaiter <= t.nextWaiter
    requires forall e, k :: Waits(t.index, e, k) ==> Waits(s.index, e, k)
    ensures MarksTimely(t)
  {
    forall x | x in t.marks ensures Earlier(t, t.marks[x]) {
      assert Earlier(s, s.marks[x]);
    }
  }

  ghost predicate Evidence(s: State, e: Event, key: Key, cause: Cause, waiter: Option<nat>) {
    var h := Logged(s, e, key, cause, waiter);
    && (cause.ByRequest? ==> Outcome(s.flights, cause.request).Some?)
    && (Waits(s.index, e, key) ==> (Justified(s.flights, h) <==> !h.late) && (h.late ==> h.again))
  }

  lemma {:induction false} HandleAllKeeps(s: State, events: seq<Event>, key: Key, cause: Cause, waiter: Option<nat>)
    requires Good(s)
    requires forall e :: Evidence(s, e, key, cause, waiter)
    ensures Good(HandleAll(s, events, key, cause, waiter))
    ensures forall d, k :: Waits(HandleAll(s, events, key, cause, waiter).index, d, k) <==>
      Waits(s.index, d, k) && !(d in events && k == key)
    ensures HandleAll(s, events, key, cause, waiter).flights == s.flights
    decreases |events|
  {
    if events != [] {
      var t := Handle(s, events[0], key, cause, waiter);
      assert events == [events[0]] + events[1..];
      HandleKeeps(s, events[0], key, cause, waiter);
      ReconcileKeeps(s.index, events[0], key);
      forall e ensures Evidence(t, e, key, cause, waiter) {
        assert Evidence(s, e, key, cause, waiter);
      }
      HandleAllKeeps(t, events[1..], key, cause, waiter);
    }
  }

  lemma AbandonKeeps(s: State, key: Key)
    requires Good(s)
    ensures Good(Abandon(s, key)) && key !in Abandon(s, key).index.projections
  {
    var t := s;
    if key in s.index.projections {
      HandleAllKeeps(s, s.index.projections[key].events, key, ByAbandoning, None);
      t := HandleAll(s, s.index.projections[key].events, key, ByAbandoning, None);
      assert forall e :: !Waits(t.index, e, key);
      if key in t.index.projections {
        assert Waits(t.index, t.index.projections[key].events[0], key);
      }
    }
    ReleaseKeeps(t.flights, key);
    FlightsStep(t, Release(t.flights, key));
  }

  lemma ScheduleKeeps(s: State, key: Key)
    requires Good(s)
    ensures Good(s.(index := Schedule(s.index, key)))
    ensures key in s.index.projections ==> Schedule(s.index, key).projections[key].timer
  {
    var t := s.(index := Schedule(s.index, key));
    assert SamePairs(s.index, t.index);
    forall e, k | Waits(t.index, e, k) ensures CoveredPair(t, e, k) {
      CoveredKept(s, t, e, k);
    }
    TimelyKept(s, t);
  }

  lemma RetireWaiter(s: State, w: nat)
    requires Good(s) && w in s.waiters
    requires forall e, k :: Waits(s.index, e, k) && Covers(s.waiters[w], e, k, s.index.projections[k].id) ==>
      s.index.projections[k].timer
    ensures Good(s.(waiters := s.waiters - {w}))
  {
    var t := s.(waiters := s.waiters - {w});
    forall e, k | Waits(t.index, e, k) ensures CoveredPair(t, e, k) {
      assert CoveredPair(s, e, k);
      if !s.index.projections[k].timer {
        var x :| x in s.waiters && Covers(s.waiters[x], e, k, s.index.projections[k].id);
        assert x in t.waiters;
      }
    }
    TimelyKept(s, t);
  }

  /** A continuation that reads successfully brings evidence as fresh as the log will say. */
  lemma ResumeBringsEvidence(s: State, w: nat, e: Event)
    requires Good(s) && w in s.waiters && Value(s.flights, s.waiters[w].promise) == Some(true)
    ensures Evidence(s, e, s.waiters[w].key, CauseOf(s.flights, s.waiters[w].promise), Some(w))
  {
    hide Tables, Indexed, Covered, LogTimely;
    var a := s.waiters[w];
    assert Awaitable(s.flights, a.promise, a.key);
    if Waits(s.index, e, a.key) {
      var m := s.marks[(e, a.key)];
      assert Timely(s.flights, w, a.promise, m) && Earlier(s, m);
    }
  }

  lemma ResumeApplyKeeps(s: State, w: nat)
    requires Good(s) && Enabled(s, Resume(w)) && s.waiters[w].Apply?
    ensures Good(ResumeApply(s, w))
  {
    hide Indexed, Tables, WaitersAwait, WaitersTimely, MarksTimely, LogTimely;
    var a := s.waiters[w];
    var u := s;
    match Value(s.flights, a.promise) {
      case None =>
      case Some(ok) =>
        if ok {
          ResumeBringsEvidence(s, w, a.event);
          HandleKeeps(s, a.event, a.key, CauseOf(s.flights, a.promise), Some(w));
          ReconcileKeeps(s.index, a.event, a.key);
          u := Handle(s, a.event, a.key, CauseOf(s.flights, a.promise), Some(w));
        } else {
          ScheduleKeeps(s, a.key);
          u := s.(index := Schedule(s.index, a.key));
        }
    }
    RetireWaiter(u, w);
    var v := u.(waiters := u.waiters - {w});
    Restart(v, v.processing - {a.event}, v.index.seen, v.nextWaiter);
  }

  lemma ResumeRetryKeeps(s: State, w: nat)
    requires Good(s) && w in s.waiters && s.waiters[w].Retry?
    ensures Good(ResumeRetry(s, w))
  {
    var a := s.waiters[w];
    var u := s;
    if a.key in s.index.projections && s.index.projections[a.key].id == a.projection {
      if Value(s.flights, a.promise) == Some(true) {
        ResetKeeps(s, a.key);
        var t := s.(index := ResetRetries(s.index, a.key));
        var cause := CauseOf(s.flights, a.promise);
        forall e ensures Evidence(t, e, a.key, cause, Some(w)) {
          ResumeBringsEvidence(t, w, e);
        }
        HandleAllKeeps(t, a.events, a.key, cause, Some(w));
        u := HandleAll(t, a.events, a.key, cause, Some(w));
        HandleAllKeepsWaiters(t, a.events, a.key, cause, Some(w), s.waiters - {w});
      } else {
        ScheduleKeeps(s, a.key);
        u := s.(index := Schedule(s.index, a.key));
      }
    }
    RetireWaiter(u, w);
  }

  lemma ResetKeeps(s: State, key: Key)
    requires Good(s) && key in s.index.projections
    ensures Good(s.(index := ResetRetries(s.index, key)))
  {
    var t := s.(index := ResetRetries(s.index, key));
    assert SamePairs(s.index, t.index);
    forall e, k | Waits(t.index, e, k) ensures CoveredPair(t, e, k) {
      CoveredKept(s, t, e, k);
    }
    TimelyKept(s, t);
  }

  /** Marking events handled does not look at the waiters. */
  lemma {:induction false} HandleAllKeepsWaiters(
    s: State, events: seq<Event>, key: Key, cause: Cause, waiter: Option<nat>, waiters: map<nat, Waiter>)
    ensures HandleAll(s.(waiters := waiters), events, key, cause, waiter)
      == HandleAll(s, events, key, cause, waiter).(waiters := waiters)
    ensures HandleAll(s, events, key, cause, waiter).waiters == s.waiters
    decreases |events|
  {
    if events != [] {
      HandleAllKeepsWaiters(Handle(s, events[0], key, cause, waiter), events[1..], key, cause, waiter, waiters);
    }
  }

  lemma ClearKeeps(s: State)
    requires Good(s)
    ensures Good(Clear(s))
  {
    var t := Clear(s);
    ReleaseAllKeeps(s.flights);
    LogKept(s, t.flights);
    TimelyKept(s, t);
    MarksKept(s, t);
  }

  lemma LoadKeeps(s: State, key: Key)
    requires Good(s)
    ensures Good(Take(s, Load(key)))
  {
    hide Good, Tables, Keeps, SingleFlight, FollowUpsHeld;
    GoodTables(s);
    NextKeeps(s.flights);
    var f := s.flights.(next := s.flights.next + 1);
    assert SingleFlight(f) && FollowUpsHeld(f);
    TablesAre(f);
    FlightsStep(s, f);
    LoadsUnread(s.(flights := f), s.loads[key := s.flights.next]);
  }

  lemma GoodTables(s: State)
    requires Good(s)
    ensures Tables(s.flights) && Indexed(s.index)
  {
  }

  lemma TablesAre(f: Flights)
    requires SingleFlight(f) && FollowUpsHeld(f)
    ensures Tables(f)
  {
  }

  lemma LoadsUnread(s: State, loads: map<Key, nat>)
    requires Good(s)
    ensures Good(s.(loads := loads))
  {
    hide Indexed, Tables, Covers, Timely;
    var t := s.(loads := loads);
    forall e, k | Waits(t.index, e, k) ensures CoveredPair(t, e, k) {
      assert CoveredPair(s, e, k);
    }
  }

  lemma TakeKeeps(s: State, a: Step)
    requires Good(s) && Enabled(s, a)
    ensures Good(Take(s, a))
  {
    match a
    case Arrive(e, keys) => DeliverKeeps(s, e, keys);
    case Refresh(key) => CoalesceKeeps(s.flights, key); FlightsStep(s, Coalesce(s.flights, key).0);
    case Load(key) => LoadKeeps(s, key);
    case Answer(r, ok) => SettleKeeps(s.flights, r, ok); FlightsStep(s, Settle(s.flights, r, ok));
    case RunChain(r) => ChainKeeps(s.flights, r); FlightsStep(s, Chain(s.flights, r));
    case Fire(key) => RetryKeeps(s, key);
    case Reconnect(key) => RetryKeeps(s, key);
    case Resume(w) => if s.waiters[w].Apply? { ResumeApplyKeeps(s, w); } else { ResumeRetryKeeps(s, w); }
    case Drop(key) => AbandonKeeps(s, key);
    case Reset => ClearKeeps(s);
  }

  lemma ChainIsGood(s: State, r: nat)
    requires Good(s) && Outcome(s.flights, r).Some?
    ensures Good(s.(flights := Chain(s.flights, r)))
  {
    ChainKeeps(s.flights, r);
    FlightsStep(s, Chain(s.flights, r));
  }

  // ---- every run -------------------------------------------------------------------------------

  /** Index, coverage, single flight and freshness hold after every run, whatever the order in which
      refreshes settle, timers fire, continuations resume, keys are abandoned and sessions restart. */
  lemma EveryRunIsGood(steps: seq<Step>)
    requires Legal(Client(), Initial, steps)
    ensures Good(After(Client(), Initial, steps))
  {
    forall s: State, a: Step | Good(s) && Client().enabled(s, a) ensures Good(Client().next(s, a)) {
      TakeKeeps(s, a);
    }
    RunKeeps(Client(), (s: State) => Good(s), Initial, steps);
  }

  lemma SomethingWillMove(s: State, k: Key)
    requires Good(s) && k in s.index.projections
    ensures s.index.projections[k].timer || s.waiters != map[]
  {
    var e := s.index.projections[k].events[0];
    assert Waits(s.index, e, k) && CoveredPair(s, e, k);
  }

  /** When no timer is armed and no continuation is suspended, nothing is pending. */
  lemma NothingIsStranded(s: State)
    requires Good(s) && s.waiters == map[]
    requires forall k :: k in s.index.projections ==> !s.index.projections[k].timer
    ensures s.index.pending == map[] && s.index.projections == map[]
  {
    if s.index.projections != map[] {
      var k :| k in s.index.projections;
      SomethingWillMove(s, k);
    }
    if s.index.pending != map[] {
      var e :| e in s.index.pending;
      var k :| k in s.index.pending[e];
      assert Pending(s.index, e, k);
    }
  }

  /** Request `r` has yet to settle, or its callback is about to start the follow-up `w` waits for. */
  ghost predicate Advances(s: State, w: nat, r: nat)
    requires w in s.waiters
  {
    r in s.flights.requests && s.flights.requests[r].key == s.waiters[w].key &&
    (Enabled(s, Answer(r, false)) || (Enabled(s, RunChain(r)) && StartsFollowUp(s, s.waiters[w].promise, r)))
  }

  ghost predicate StartsFollowUp(s: State, p: Promise, r: nat)
    requires r in s.flights.requests
  {
    var t := Chain(s.flights, r);
    p.OfFollowUp? && p.followUp in t.followUps && t.followUps[p.followUp] == Linked(s.flights.next) &&
    s.flights.next in t.requests && t.requests[s.flights.next].outcome == None
  }

  /** What a suspended continuation waits for always has a next step. */
  lemma NoContinuationIsLost(s: State, w: nat)
    requires Good(s) && w in s.waiters && !Enabled(s, Resume(w))
    ensures exists r :: Advances(s, w, r)
  {
    var a := s.waiters[w];
    assert Awaitable(s.flights, a.promise, a.key);
    match a.promise
    case OfRequest(r) => assert Advances(s, w, r);
    case OfFollowUp(f) =>
      match s.flights.followUps[f] {
        case Waiting(k) =>
          assert k in s.flights.entries && Flying(s.flights, k);
          assert Advances(s, w, s.flights.entries[k].inFlight);
        case Linked(r) => assert Advances(s, w, r);
      }
  }

  // ---- one refresh in flight -------------------------------------------------------------------

  /** The refreshes of the key that have yet to settle. */
  ghost function Unfinished(f: Flights, k: Key): set<nat> {
    set r | r in f.requests && f.requests[r].key == k && f.requests[r].outcome.None?
  }

  /** Those among them that began before the last clear. */
  ghost function Outlived(f: Flights, k: Key): set<nat> {
    set r | r in Unfinished(f, k) && r < f.cleared
  }

  ghost predicate EntryUnfinished(f: Flights, k: Key) {
    k in f.entries && Outcome(f, f.entries[k].inFlight).None?
  }

  /** After any run: since the last clear a key has at most one unfinished refresh, the one its entry waits
      for; and it has at most one in all exactly when none outlived a clear, or a single one did and the
      entry has none. */
  lemma SingleFlightExactly(steps: seq<Step>, k: Key)
    requires Legal(Client(), Initial, steps)
    ensures var f := After(Client(), Initial, steps).flights;
      && (forall r :: r in Unfinished(f, k) && f.cleared <= r ==> k in f.entries && f.entries[k].inFlight == r)
      && (|Unfinished(f, k)| <= 1 <==>
            Outlived(f, k) == {} || (|Outlived(f, k)| == 1 && !EntryUnfinished(f, k)))
  {
    EveryRunIsGood(steps);
    FlightsOfAKey(After(Client(), Initial, steps).flights, k);
  }

  lemma FlightsOfAKey(f: Flights, k: Key)
    requires Tables(f)
    ensures forall r :: r in Unfinished(f, k) && f.cleared <= r ==> k in f.entries && f.entries[k].inFlight == r
    ensures |Unfinished(f, k)| <= 1 <==> Outlived(f, k) == {} || (|Outlived(f, k)| == 1 && !EntryUnfinished(f, k))
  {
    hide Tables, Unfinished, Outlived, EntryUnfinished;
    UnfinishedFlies(f, k);
    UnfinishedSplits(f, k);
    AtMostOne(Unfinished(f, k), Outlived(f, k), EntryUnfinished(f, k),
              if EntryUnfinished(f, k) then f.entries[k].inFlight else 0);
  }

  lemma UnfinishedSplits(f: Flights, k: Key)
    requires Tables(f)
    ensures EntryUnfinished(f, k) ==>
      && k in f.entries && f.entries[k].inFlight !in Outlived(f, k)
      && Unfinished(f, k) == Outlived(f, k) + {f.entries[k].inFlight}
    ensures !EntryUnfinished(f, k) ==> Unfinished(f, k) == Outlived(f, k)
  {
    hide Tables;
    UnfinishedFlies(f, k);
  }

  lemma AtMostOne(all: set<nat>, before: set<nat>, more: bool, current: nat)
    requires if more then current !in before && all == before + {current} else all == before
    ensures |all| <= 1 <==> before == {} || (|before| == 1 && !more)
  {
    if before == {} {
      assert all == if more then {current} else {};
    }
  }

  lemma UnfinishedFlies(f: Flights, k: Key)
    requires Tables(f)
    ensures forall r :: r in Unfinished(f, k) && f.cleared <= r ==> k in f.entries && f.entries[k].inFlight == r
    ensures EntryUnfinished(f, k) ==> f.entries[k].inFlight in Unfinished(f, k) && f.cleared <= f.entries[k].inFlight
  {
    forall r | r in Unfinished(f, k) && f.cleared <= r ensures k in f.entries && f.entries[k].inFlight == r {
      assert InFlight(f, r);
    }
    if EntryUnfinished(f, k) {
      assert Flying(f, k);
    }
  }

  // ---- freshness -------------------------------------------------------------------------------

  /** After any run: an event was marked handled for a key by a successful read of the key that began at or
      after the last registration of the pair, or by giving the key up, exactly unless the continuation that
      did it was, at that registration, already suspended on a refresh that had begun. */
  lemma HandledIsFreshUnlessLate(steps: seq<Step>, i: nat)
    requires Legal(Client(), Initial, steps) && i < |After(Client(), Initial, steps).log|
    ensures var s := After(Client(), Initial, steps);
      && (Justified(s.flights, s.log[i]) <==> !s.log[i].late)
      && (s.log[i].late ==> s.log[i].again)
  {
    EveryRunIsGood(steps);
  }
}
