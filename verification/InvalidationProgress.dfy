/** What becomes of an event: it is registered and read for unless it is known, handled by the first read that
    succeeds, retried after one that fails, and ignored for as long as it is remembered. */
module InvalidationProgress {
  import opened Sequences
  import opened Machines
  import opened CoalescedRefresh
  import opened ProjectionIndex
  import opened Invalidation
  import opened InvalidationTheorems

  // ---- an event is delivered -------------------------------------------------------------------

  ghost predicate TimerOn(s: Index, k: Key) {
    k in s.projections && s.projections[k].timer
  }

  /** A new continuation answers the event for the key: it leaves the pair to the timer when that is armed, and
      otherwise awaits a read that had not begun. */
  ghost predicate SoughtBy(s: State, t: State, e: Event, k: Key, w: nat) {
    && s.nextWaiter <= w && w in t.waiters && t.waiters[w].Apply? && t.waiters[w].event == e && t.waiters[w].key == k
    && if TimerOn(s.index, k) then t.waiters[w].promise.Immediate?
       else !t.waiters[w].promise.Immediate? && Since(t.flights, t.waiters[w].promise, s.flights.next)
  }

  ghost predicate Sought(s: State, t: State, e: Event, k: Key) {
    exists w :: SoughtBy(s, t, e, k, w)
  }

  /** Continuations, promises and timers of `s` are still there. */
  ghost predicate Beyond(s: State, t: State) {
    && Keeps(s.flights, t.flights) && s.nextWaiter <= t.nextWaiter
    && (forall w :: w in s.waiters ==> w in t.waiters && t.waiters[w] == s.waiters[w])
    && forall k :: TimerOn(t.index, k) == TimerOn(s.index, k)
  }

  lemma QueueSeeks(s: State, e: Event, key: Key, call: nat)
    requires Good(s)
    ensures var t := Queue(s, e, key, call);
      && Beyond(s, t) && Sought(s, t, e, key)
      && forall d, k :: Waits(t.index, d, k) <==> Waits(s.index, d, k) || (d == e && k == key)
  {
    hide Indexed, Tables, Covered, WaitersTimely, MarksTimely, LogTimely, Coalesce, Register, Waits, TimerOn;
    hide Keeps, Since, Before, Awaitable, Here, Pending;
    RegisterKeeps(s.index, e, key);
    RegisterTimers(s.index, e, key);
    CoalesceKeeps(s.flights, key);
    NothingNew(s.flights, s.flights.next);
    NextWaiterIsFree(s);
    assert SoughtBy(s, Queue(s, e, key, call), e, key, s.nextWaiter);
  }

  lemma RegisterTimers(s: Index, e: Event, key: Key)
    ensures forall k :: TimerOn(Register(s, e, key), k) == TimerOn(s, k)
    ensures TimerOn(s, key) <==> key in s.projections && s.projections[key].timer
  {
  }

  lemma StillSought(s: State, u: State, t: State, e: Event, k: Key)
    requires Beyond(s, u) && Beyond(u, t) && (Sought(s, u, e, k) || Sought(u, t, e, k))
    ensures Sought(s, t, e, k)
  {
    hide Since, Before, Awaitable;
    if Sought(s, u, e, k) {
      var w :| SoughtBy(s, u, e, k, w);
      assert SoughtBy(s, t, e, k, w);
    } else {
      var w :| SoughtBy(u, t, e, k, w);
      if !TimerOn(s.index, k) {
        SinceEarlier(t.flights, t.waiters[w].promise, s.flights.next, u.flights.next);
      }
      assert SoughtBy(s, t, e, k, w);
    }
  }

  lemma BeyondChains(s: State, u: State, t: State)
    requires Beyond(s, u) && Beyond(u, t)
    ensures Beyond(s, t)
  {
    hide Keeps;
    KeepsChains(s.flights, u.flights, t.flights);
  }

  lemma {:induction false} QueueAllSeeks(s: State, e: Event, keys: seq<Key>, call: nat)
    requires Good(s)
    ensures var t := QueueAll(s, e, keys, call);
      && Good(t) && Beyond(s, t)
      && (forall k :: k in keys ==> Sought(s, t, e, k))
      && forall d, k :: Waits(t.index, d, k) <==> Waits(s.index, d, k) || (d == e && k in keys)
    decreases |keys|
  {
    hide Good, Queue, Sought, Beyond, Waits;
    if keys == [] {
      NothingHappened(s);
    } else {
      var u, t := Queue(s, e, keys[0], call), QueueAll(s, e, keys, call);
      QueueKeeps(s, e, keys[0], call);
      QueueSeeks(s, e, keys[0], call);
      QueueAllSeeks(u, e, keys[1..], call);
      BeyondChains(s, u, t);
      forall k | k in keys ensures Sought(s, t, e, k) {
        assert keys == [keys[0]] + keys[1..];
        StillSought(s, u, t, e, k);
      }
    }
  }

  lemma NothingHappened(s: State)
    ensures Beyond(s, s)
  {
  }

  ghost predicate Recognised(s: State, e: Event) {
    e in s.index.seen || e in s.processing || e in s.index.pending
  }

  /** A new event waits for each of its keys and for nothing else, and is sought for each of them; one that
      touches nothing on the screen is remembered at once. One that is recognised changes nothing. */
  lemma DeliveryRegisters(s: State, e: Event, keys: seq<Key>)
    requires Good(s)
    ensures var t := Deliver(s, e, keys);
      if Recognised(s, e) then t == s
      else
        && (forall d, k :: Waits(t.index, d, k) <==> Waits(s.index, d, k) || (d == e && k in keys))
        && (forall k :: k in keys ==> Sought(s, t, e, k))
        && (keys == [] ==> e in t.index.seen && t.waiters == s.waiters && t.flights == s.flights)
  {
    hide Good, QueueAll, Sought, SoughtBy, Beyond, Waits, Pending;
    if Recognised(s, e) {
    } else if keys == [] {
      RememberedLast(s.index.seen, e);
      OnlySeen(s.index, Remember(s.index.seen, e));
    } else {
      Restart(s, s.processing + {e}, s.index.seen, s.nextWaiter + 1);
      var u := s.(processing := s.processing + {e}, nextWaiter := s.nextWaiter + 1);
      QueueAllSeeks(u, e, keys, s.nextWaiter);
      forall k | k in keys ensures Sought(s, Deliver(s, e, keys), e, k) {
        SoughtEarlier(s, u, Deliver(s, e, keys), e, k);
      }
    }
  }

  lemma OnlySeen(s: Index, seen: seq<Event>)
    ensures forall d, k :: Waits(s.(seen := seen), d, k) == Waits(s, d, k)
  {
  }

  lemma SoughtEarlier(s: State, u: State, t: State, e: Event, k: Key)
    requires Sought(u, t, e, k) && u.index == s.index && u.flights == s.flights && s.nextWaiter <= u.nextWaiter
    ensures Sought(s, t, e, k)
  {
    var w :| SoughtBy(u, t, e, k, w);
    assert SoughtBy(s, t, e, k, w);
  }

  lemma RememberedLast(seen: seq<Event>, e: Event)
    ensures e in Remember(seen, e)
  {
    var longer := seen + [e];
    assert longer[|longer| - 1] == e;
    if |longer| > SeenLimit {
      assert Remember(seen, e)[SeenKept - 1] == e;
    }
  }

  // ---- a continuation resumes ------------------------------------------------------------------

  lemma {:induction false} HandleAllSettles(s: State, events: seq<Event>, key: Key, cause: Cause, waiter: Option<nat>)
    requires Indexed(s.index)
    ensures var t := HandleAll(s, events, key, cause, waiter);
      && Indexed(t.index)
      && (forall d, k :: Waits(t.index, d, k) <==> Waits(s.index, d, k) && !(d in events && k == key))
      && (forall k :: k in t.index.projections ==>
            k in s.index.projections && t.index.projections[k].id == s.index.projections[k].id)
    decreases |events|
  {
    hide Indexed, Waits, Reconcile;
    if events != [] {
      var u := Handle(s, events[0], key, cause, waiter);
      ReconcileKeeps(s.index, events[0], key);
      HandleAllSettles(u, events[1..], key, cause, waiter);
      assert events == [events[0]] + events[1..];
    }
  }

  /** What continuation `a` answers for: its own event, or what waited when its retry began. */
  ghost predicate AnswersFor(s: Index, a: Waiter, e: Event, k: Key) {
    k == a.key &&
    match a
    case Apply(event, _, _, _) => e == event
    case Retry(projection, _, _, events) =>
      k in s.projections && s.projections[k].id == projection && e in events
  }

  ghost predicate Settled(s: State, t: State, w: nat)
    requires w in s.waiters
  {
    var a := s.waiters[w];
    var read := Value(s.flights, a.promise);
    && t.waiters == s.waiters - {w} && t.flights == s.flights
    && forall d, k ::
         && (Waits(t.index, d, k) <==> Waits(s.index, d, k) && !(read == Some(true) && AnswersFor(s.index, a, d, k)))
         && (read == Some(false) && AnswersFor(s.index, a, d, k) && Waits(s.index, d, k) ==> TimerOn(t.index, k))
  }

  /** A continuation whose read succeeded settles exactly the pairs it answers for. After one that failed every
      pair waits as before, and the timer is armed for those it answers for. */
  lemma ResumeSettles(s: State, w: nat)
    requires Good(s) && Enabled(s, Resume(w))
    ensures Settled(s, Take(s, Resume(w)), w)
  {
    hide Good, Indexed, Waits, ResumeApply, ResumeRetry;
    GoodTables(s);
    if s.waiters[w].Apply? {
      SettledApply(s, w);
    } else {
      RetryAwaitsARead(s, w);
      SettledRetry(s, w);
    }
  }

  lemma RetryAwaitsARead(s: State, w: nat)
    requires Good(s) && w in s.waiters && s.waiters[w].Retry?
    ensures !s.waiters[w].promise.Immediate?
  {
  }

  lemma SettledApply(s: State, w: nat)
    requires Indexed(s.index) && w in s.waiters && s.waiters[w].Apply?
    ensures Settled(s, ResumeApply(s, w), w)
  {
    hide Indexed, Schedule, Reconcile, Waits;
    var a := s.waiters[w];
    ScheduleSettles(s.index, a.key);
    WaitingIsThere(s.index);
    ReconcileKeeps(s.index, a.event, a.key);
  }

  lemma WaitingIsThere(s: Index)
    ensures forall d, k :: Waits(s, d, k) ==> k in s.projections
  {
  }

  lemma SettledRetry(s: State, w: nat)
    requires Indexed(s.index) && w in s.waiters && s.waiters[w].Retry? && Enabled(s, Resume(w))
    requires !s.waiters[w].promise.Immediate?
    ensures Settled(s, ResumeRetry(s, w), w)
  {
    hide Indexed, Schedule, Waits, ResetRetries;
    var a := s.waiters[w];
    ScheduleSettles(s.index, a.key);
    WaitingIsThere(s.index);
    if a.key in s.index.projections && s.index.projections[a.key].id == a.projection {
      ResetRetriesKeeps(s.index, a.key);
      ResetWaits(s.index, a.key);
      var t := s.(waiters := s.waiters - {w}, index := ResetRetries(s.index, a.key));
      HandleAllSettles(t, a.events, a.key, CauseOf(s.flights, a.promise), Some(w));
      HandleAllKeepsWaiters(t, a.events, a.key, CauseOf(s.flights, a.promise), Some(w), t.waiters);
      HandleAllKeepsFlights(t, a.events, a.key, CauseOf(s.flights, a.promise), Some(w));
    }
  }

  lemma ResetWaits(s: Index, key: Key)
    requires key in s.projections
    ensures forall d, k :: Waits(ResetRetries(s, key), d, k) == Waits(s, d, k)
  {
  }

  lemma {:induction false} HandleAllKeepsFlights(
    s: State, events: seq<Event>, key: Key, cause: Cause, waiter: Option<nat>)
    ensures var t := HandleAll(s, events, key, cause, waiter);
      t.flights == s.flights && t.processing == s.processing && t.nextWaiter == s.nextWaiter && t.marks == s.marks
    decreases |events|
  {
    if events != [] {
      HandleAllKeepsFlights(Handle(s, events[0], key, cause, waiter), events[1..], key, cause, waiter);
    }
  }

  lemma ScheduleSettles(s: Index, key: Key)
    ensures var t := Schedule(s, key);
      && (forall d, k :: Waits(t, d, k) == Waits(s, d, k))
      && (key in s.projections ==> TimerOn(t, key))
      && forall k :: TimerOn(s, k) ==> TimerOn(t, k)
  {
  }

  /** A retry, by the timer or at a reconnect, disarms the timer and awaits a read that had not begun, for
      everything that waits in the projection. */
  lemma RetryReadsForAll(s: State, key: Key)
    requires Good(s) && key in s.index.projections
    ensures var t := RetryNow(s, key); var p := s.index.projections[key];
      && !TimerOn(t.index, key) && s.nextWaiter !in s.waiters && s.nextWaiter in t.waiters
      && t.waiters[s.nextWaiter].Retry? && t.waiters[s.nextWaiter].key == key
      && Since(t.flights, t.waiters[s.nextWaiter].promise, s.flights.next)
      && !t.waiters[s.nextWaiter].promise.Immediate?
      && forall e, k :: Waits(t.index, e, k) == Waits(s.index, e, k)
           && (Waits(s.index, e, key) ==> AnswersFor(t.index, t.waiters[s.nextWaiter], e, key))
  {
    hide Indexed, Tables, Covered, WaitersTimely, MarksTimely, LogTimely, Coalesce, Since, Before, Awaitable, Keeps;
    CoalesceKeeps(s.flights, key);
    NextWaiterIsFree(s);
  }

  // ---- how long a delivery lasts ---------------------------------------------------------------

  /** A delivery's continuations are all of one event, and come after its call. */
  ghost predicate CallsApart(s: State) {
    && (forall w :: w in s.waiters && s.waiters[w].Apply? ==> s.waiters[w].call < s.nextWaiter)
    && forall v, w :: v in s.waiters && w in s.waiters && s.waiters[v].Apply? && s.waiters[w].Apply?
         ==> (s.waiters[v].call == s.waiters[w].call ==> s.waiters[v].event == s.waiters[w].event)
  }

  ghost predicate Awaited(s: State, e: Event) {
    exists w :: w in s.waiters && s.waiters[w].Apply? && s.waiters[w].event == e
  }

  /** An event counts as being processed only while a continuation of its delivery is suspended. */
  ghost predicate Brief(s: State) {
    && CallsApart(s) && (forall e :: e in s.processing ==> Awaited(s, e))
    && forall w :: w in s.waiters ==> w < s.nextWaiter
  }

  /** Waiters are added for the event and the call only. */
  ghost predicate Adds(s: State, t: State, e: Event, call: nat) {
    && s.nextWaiter <= t.nextWaiter && t.processing == s.processing
    && (forall w :: w in s.waiters ==> w in t.waiters && t.waiters[w] == s.waiters[w])
    && forall w :: w in t.waiters && w !in s.waiters ==>
         w < t.nextWaiter && t.waiters[w].Apply? && t.waiters[w].event == e && t.waiters[w].call == call
  }

  lemma QueueAdds(s: State, e: Event, key: Key, call: nat)
    requires forall w :: w in s.waiters ==> w < s.nextWaiter
    ensures var t := Queue(s, e, key, call);
      && Adds(s, t, e, call) && t.nextWaiter == s.nextWaiter + 1
      && s.nextWaiter in t.waiters && forall w :: w in t.waiters ==> w < t.nextWaiter
  {
    hide Coalesce, Register, Here, Pending;
  }

  lemma {:induction false} QueueAllAdds(s: State, e: Event, keys: seq<Key>, call: nat)
    requires forall w :: w in s.waiters ==> w < s.nextWaiter
    ensures var t := QueueAll(s, e, keys, call);
      Adds(s, t, e, call) && (keys != [] ==> Awaited(t, e)) && forall w :: w in t.waiters ==> w < t.nextWaiter
    decreases |keys|
  {
    hide Queue;
    if keys != [] {
      var u := Queue(s, e, keys[0], call);
      QueueAdds(s, e, keys[0], call);
      assert u.waiters[s.nextWaiter].Apply? && u.waiters[s.nextWaiter].event == e;
      QueueAllAdds(u, e, keys[1..], call);
      assert s.nextWaiter in QueueAll(s, e, keys, call).waiters;
    }
  }

  lemma DeliverIsBrief(s: State, e: Event, keys: seq<Key>)
    requires Brief(s)
    ensures Brief(Deliver(s, e, keys))
  {
    hide QueueAll, Remember;
    if !Recognised(s, e) && keys != [] {
      var u := s.(processing := s.processing + {e}, nextWaiter := s.nextWaiter + 1);
      QueueAllAdds(u, e, keys, s.nextWaiter);
      var t := Deliver(s, e, keys);
      forall d | d in t.processing ensures Awaited(t, d) {
        if d in s.processing {
          var w :| w in s.waiters && s.waiters[w].Apply? && s.waiters[w].event == d;
          assert w in t.waiters;
        }
      }
    }
  }

  lemma RetryIsBrief(s: State, key: Key)
    requires Brief(s) && key in s.index.projections
    ensures Brief(RetryNow(s, key))
  {
    hide Coalesce, SetTimer;
    var t := RetryNow(s, key);
    forall d | d in t.processing ensures Awaited(t, d) {
      var w :| w in s.waiters && s.waiters[w].Apply? && s.waiters[w].event == d;
      assert w in t.waiters;
    }
  }

  /** The continuation that was the last of its call takes the event with it. */
  lemma ResumeIsBrief(s: State, w: nat)
    requires Brief(s) && w in s.waiters
    ensures Brief(if s.waiters[w].Apply? then ResumeApply(s, w) else ResumeRetry(s, w))
  {
    hide Brief, ResumeApply, ResumeRetry;
    if s.waiters[w].Apply? {
      var v := ResumeApply(s, w);
      ApplyFinishes(s, w);
      LastIsBrief(s, w, v);
    } else {
      RetryFinishes(s, w);
      OthersAreBrief(s, w, ResumeRetry(s, w));
    }
  }

  lemma ApplyFinishes(s: State, w: nat)
    requires w in s.waiters && s.waiters[w].Apply?
    ensures var t, a := ResumeApply(s, w), s.waiters[w];
      && t.waiters == s.waiters - {w} && t.nextWaiter == s.nextWaiter
      && t.processing == if exists v :: v in t.waiters && t.waiters[v].Apply? && t.waiters[v].call == a.call
                         then s.processing else s.processing - {a.event}
  {
    hide Schedule, Reconcile;
  }

  lemma RetryFinishes(s: State, w: nat)
    requires w in s.waiters && s.waiters[w].Retry?
    ensures var t := ResumeRetry(s, w);
      t.waiters == s.waiters - {w} && t.nextWaiter == s.nextWaiter && t.processing == s.processing
  {
    hide HandleAll, Schedule, ResetRetries;
    var a, u := s.waiters[w], s.(waiters := s.waiters - {w});
    if a.key in s.index.projections {
      var v := u.(index := ResetRetries(u.index, a.key));
      HandleAllKeepsWaiters(v, a.events, a.key, CauseOf(s.flights, a.promise), Some(w), u.waiters);
      HandleAllKeepsFlights(v, a.events, a.key, CauseOf(s.flights, a.promise), Some(w));
    }
  }

  lemma OthersAreBrief(s: State, w: nat, t: State)
    requires Brief(s) && w in s.waiters && s.waiters[w].Retry?
    requires t.waiters == s.waiters - {w} && t.nextWaiter == s.nextWaiter && t.processing == s.processing
    ensures Brief(t)
  {
    forall d | d in t.processing ensures Awaited(t, d) {
      var v :| v in s.waiters && s.waiters[v].Apply? && s.waiters[v].event == d;
      assert v in t.waiters;
    }
  }

  lemma LastIsBrief(s: State, w: nat, t: State)
    requires Brief(s) && w in s.waiters && s.waiters[w].Apply?
    requires t.waiters == s.waiters - {w} && t.nextWaiter == s.nextWaiter
    requires t.processing ==
      if exists v :: v in t.waiters && t.waiters[v].Apply? && t.waiters[v].call == s.waiters[w].call
      then s.processing else s.processing - {s.waiters[w].event}
    ensures Brief(t)
  {
    forall d | d in t.processing ensures Awaited(t, d) {
      var v :| v in s.waiters && s.waiters[v].Apply? && s.waiters[v].event == d;
      if v == w {
        var x :| x in t.waiters && t.waiters[x].Apply? && t.waiters[x].call == s.waiters[w].call;
        assert t.waiters[x].event == d;
      } else {
        assert v in t.waiters;
      }
    }
  }

  lemma StepIsBrief(s: State, a: Step)
    requires Brief(s) && Enabled(s, a)
    ensures Brief(Take(s, a))
  {
    hide Brief, Coalesce, Deliver, RetryNow, ResumeApply, ResumeRetry, HandleAll;
    match a
    case Arrive(e, keys) => DeliverIsBrief(s, e, keys);
    case Fire(key) => RetryIsBrief(s, key);
    case Reconnect(key) => RetryIsBrief(s, key);
    case Resume(w) => ResumeIsBrief(s, w);
    case Drop(key) =>
      if key in s.index.projections {
        HandleAllKeepsWaiters(s, s.index.projections[key].events, key, ByAbandoning, None, s.waiters);
        HandleAllKeepsFlights(s, s.index.projections[key].events, key, ByAbandoning, None);
      }
      SameIsBrief(s, Take(s, a));
    case Reset => SameIsBrief(s, Take(s, a));
    case Refresh(_) => SameIsBrief(s, Take(s, a));
    case Load(_) => SameIsBrief(s, Take(s, a));
    case Answer(_, _) => SameIsBrief(s, Take(s, a));
    case RunChain(_) => SameIsBrief(s, Take(s, a));
  }

  lemma SameIsBrief(s: State, t: State)
    requires Brief(s) && t.waiters == s.waiters && t.nextWaiter == s.nextWaiter && t.processing <= s.processing
    ensures Brief(t)
  {
    forall e | e in t.processing ensures Awaited(t, e) {
      assert Awaited(s, e);
    }
  }

  /** Over every run an event counts as being processed only while a continuation of its delivery is suspended:
      once none is, the next delivery of it is recognised only if it is pending or remembered. */
  lemma ProcessingEnds(steps: seq<Step>, e: Event)
    requires Legal(Client(), Initial, steps)
    ensures var s := After(Client(), Initial, steps); e in s.processing ==> Awaited(s, e)
  {
    hide Enabled, Take;
    forall s: State, a: Step | Brief(s) && Client().enabled(s, a) ensures Brief(Client().next(s, a)) {
      StepIsBrief(s, a);
    }
    RunKeeps(Client(), (s: State) => Brief(s), Initial, steps);
  }

  // ---- a handled event is ignored --------------------------------------------------------------

  /** The event was remembered, and at most `n` others since. */
  ghost predicate FreshFor(seen: seq<Event>, e: Event, n: int) {
    exists first: seq<Event>, later: seq<Event> :: |first| <= SeenLimit && |later| <= n
      && seen == RememberAll(Remember(first, e), later)
  }

  lemma FreshIsKnown(seen: seq<Event>, e: Event, n: int)
    requires FreshFor(seen, e, n) && n < SeenKept
    ensures e in seen
  {
    var first: seq<Event>, later: seq<Event> :| |first| <= SeenLimit && |later| <= n
      && seen == RememberAll(Remember(first, e), later);
    RememberedForAHundred(first, e, later);
  }

  lemma {:induction false} RememberOneMore(seen: seq<Event>, events: seq<Event>, d: Event)
    ensures RememberAll(seen, events + [d]) == Remember(RememberAll(seen, events), d)
    decreases |events|
  {
    hide Remember;
    if events == [] {
      assert [d][1..] == [];
      assert events + [d] == [d];
    } else {
      assert (events + [d])[1..] == events[1..] + [d];
      RememberOneMore(Remember(seen, events[0]), events[1..], d);
    }
  }

  lemma FreshAfterOneMore(seen: seq<Event>, e: Event, n: int, d: Event)
    requires FreshFor(seen, e, n)
    ensures FreshFor(Remember(seen, d), e, n + 1)
  {
    hide Remember, RememberAll;
    var first: seq<Event>, later: seq<Event> :| |first| <= SeenLimit && |later| <= n
      && seen == RememberAll(Remember(first, e), later);
    RememberOneMore(Remember(first, e), later, d);
    assert |later + [d]| <= n + 1;
  }

  lemma FreshlyRemembered(seen: seq<Event>, e: Event)
    requires |seen| <= SeenLimit
    ensures FreshFor(Remember(seen, e), e, 0)
  {
    hide Remember;
    assert RememberAll(Remember(seen, e), []) == Remember(seen, e);
  }

  lemma FreshForLonger(seen: seq<Event>, e: Event, n: int, m: int)
    requires FreshFor(seen, e, n) && n <= m
    ensures FreshFor(seen, e, m)
  {
    hide Remember, RememberAll;
  }

  lemma HandleRemembers(s: State, d: Event, key: Key, cause: Cause, waiter: Option<nat>, e: Event, n: int)
    requires |s.index.seen| <= SeenLimit
    ensures var t := Handle(s, d, key, cause, waiter); var more := |t.log| - |s.log|;
      && |t.index.seen| <= SeenLimit && 0 <= more
      && (FreshFor(s.index.seen, e, n) ==> FreshFor(t.index.seen, e, n + more))
      && (e !in s.index.seen && e in t.index.seen ==> more == 1 && FreshFor(t.index.seen, e, 0))
  {
    hide Remember, RememberAll, FreshFor;
    var t := Handle(s, d, key, cause, waiter);
    NewestIsLast(s.index.seen, d);
    if FreshFor(s.index.seen, e, n) {
      FreshForLonger(s.index.seen, e, n, n + |t.log| - |s.log|);
      FreshAfterOneMore(s.index.seen, e, n, d);
    }
    FreshlyRemembered(s.index.seen, d);
    if e !in s.index.seen && e in t.index.seen { OnlyOneNew(s.index.seen, d, e); }
  }

  lemma OnlyOneNew(seen: seq<Event>, d: Event, e: Event)
    requires e in Remember(seen, d)
    ensures e in seen || e == d
  {
  }

  lemma {:induction false} HandleAllRemembers(
    s: State, events: seq<Event>, key: Key, cause: Cause, waiter: Option<nat>, e: Event, n: int)
    requires |s.index.seen| <= SeenLimit
    ensures var t := HandleAll(s, events, key, cause, waiter); Remembers(s, t, e, n, 0)
    decreases |events|
  {
    hide Handle, FreshFor, RememberAll;
    if events != [] {
      var u := Handle(s, events[0], key, cause, waiter);
      HandleRemembers(s, events[0], key, cause, waiter, e, n);
      HandleAllRemembers(u, events[1..], key, cause, waiter, e, n + |u.log| - |s.log|);
      if e !in s.index.seen && e in u.index.seen {
        HandleAllRemembers(u, events[1..], key, cause, waiter, e, 0);
      }
      RemembersChains(s, u, HandleAll(s, events, key, cause, waiter), e, n, 0, 0);
    }
  }

  /** What the step from `s` to `t` makes of the list of remembered events: each entry is logged, but for `more`
      deliveries of events that touch nothing. */
  ghost predicate Remembers(s: State, t: State, e: Event, n: int, more: nat) {
    var count := |t.log| - |s.log| + more;
    && |t.index.seen| <= SeenLimit && |s.log| <= |t.log|
    && (FreshFor(s.index.seen, e, n) ==> FreshFor(t.index.seen, e, n + count))
    && (e !in s.index.seen && e in t.index.seen ==> FreshFor(t.index.seen, e, count - 1))
  }

  lemma RemembersChains(s: State, u: State, t: State, e: Event, n: int, more: nat, later: nat)
    requires Remembers(s, u, e, n, more) && Remembers(u, t, e, n + |u.log| - |s.log| + more, later)
    requires e !in s.index.seen && e in u.index.seen ==> Remembers(u, t, e, |u.log| - |s.log| + more - 1, later)
    ensures Remembers(s, t, e, n, more + later)
  {
    hide FreshFor;
    if e !in s.index.seen && e in t.index.seen && e !in u.index.seen {
      FreshForLonger(t.index.seen, e, |t.log| - |u.log| + later - 1, |t.log| - |s.log| + more + later - 1);
    }
  }

  function Keyless(a: Step): nat {
    if a.Arrive? && a.keys == [] then 1 else 0
  }

  function KeylessIn(steps: seq<Step>): nat {
    if steps == [] then 0 else Keyless(steps[0]) + KeylessIn(steps[1..])
  }

  lemma SameRemembers(s: State, t: State, e: Event, n: int)
    requires |s.index.seen| <= SeenLimit && t.index.seen == s.index.seen && t.log == s.log
    ensures Remembers(s, t, e, n, 0)
  {
    hide FreshFor, Remember, RememberAll;
  }

  lemma {:induction false} QueueAllRemembersNothing(s: State, e: Event, keys: seq<Key>, call: nat)
    ensures var t := QueueAll(s, e, keys, call); t.index.seen == s.index.seen && t.log == s.log
    decreases |keys|
  {
    hide Coalesce, Here;
    if keys != [] {
      QueueAllRemembersNothing(Queue(s, e, keys[0], call), e, keys[1..], call);
    }
  }

  lemma DeliverRemembers(s: State, d: Event, keys: seq<Key>, e: Event, n: int)
    requires |s.index.seen| <= SeenLimit
    ensures Remembers(s, Deliver(s, d, keys), e, n, if keys == [] then 1 else 0)
  {
    hide QueueAll, FreshFor, Remember;
    var t := Deliver(s, d, keys);
    if Recognised(s, d) || keys != [] {
      QueueAllRemembersNothing(
        s.(processing := s.processing + {d}, nextWaiter := s.nextWaiter + 1), d, keys, s.nextWaiter);
      SameRemembers(s, t, e, n);
      if FreshFor(s.index.seen, e, n) { FreshForLonger(s.index.seen, e, n, n + 1); }
    } else {
      NewestIsLast(s.index.seen, d);
      if FreshFor(s.index.seen, e, n) { FreshAfterOneMore(s.index.seen, e, n, d); }
      FreshlyRemembered(s.index.seen, d);
      if e in t.index.seen { OnlyOneNew(s.index.seen, d, e); }
    }
  }

  lemma ResumeRemembers(s: State, w: nat, e: Event, n: int)
    requires |s.index.seen| <= SeenLimit && w in s.waiters
    ensures Remembers(s, if s.waiters[w].Apply? then ResumeApply(s, w) else ResumeRetry(s, w), e, n, 0)
  {
    hide Handle, HandleAll, FreshFor, Remember;
    var a, t := s.waiters[w], s.(waiters := s.waiters - {w});
    var u := if a.Apply? then ResumeApply(s, w) else ResumeRetry(s, w);
    if a.Apply? && Value(s.flights, a.promise) == Some(true) {
      HandleRemembers(t, a.event, a.key, CauseOf(s.flights, a.promise), Some(w), e, n);
    } else if a.Retry? && a.key in s.index.projections {
      HandleAllRemembers(t.(index := ResetRetries(t.index, a.key)), a.events, a.key, CauseOf(s.flights, a.promise),
                         Some(w), e, n);
      SameRemembers(s, t.(index := Schedule(t.index, a.key)), e, n);
    } else {
      SameRemembers(s, u, e, n);
    }
  }

  lemma StepRemembers(s: State, a: Step, e: Event, n: int)
    requires |s.index.seen| <= SeenLimit && Enabled(s, a) && !a.Reset?
    ensures Remembers(s, Take(s, a), e, n, Keyless(a))
  {
    hide Coalesce, Deliver, ResumeApply, ResumeRetry, HandleAll, Remembers, Settle, Chain, Release;
    match a
    case Arrive(d, keys) => DeliverRemembers(s, d, keys, e, n);
    case Resume(w) => ResumeRemembers(s, w, e, n);
    case Drop(key) => DropRemembers(s, key, e, n);
    case Fire(_) => SameRemembers(s, Take(s, a), e, n);
    case Reconnect(_) => SameRemembers(s, Take(s, a), e, n);
    case Refresh(_) => SameRemembers(s, Take(s, a), e, n);
    case Load(_) => SameRemembers(s, Take(s, a), e, n);
    case Answer(_, _) => SameRemembers(s, Take(s, a), e, n);
    case RunChain(_) => SameRemembers(s, Take(s, a), e, n);
  }

  lemma DropRemembers(s: State, key: Key, e: Event, n: int)
    requires |s.index.seen| <= SeenLimit
    ensures Remembers(s, Abandon(s, key), e, n, 0)
  {
    hide HandleAll, FreshFor, Release;
    if key in s.index.projections {
      HandleAllRemembers(s, s.index.projections[key].events, key, ByAbandoning, None, e, n);
    } else {
      SameRemembers(s, Abandon(s, key), e, n);
    }
  }

  // ---- no pair of a remembered event -----------------------------------------------------------

  /** Nothing waits for the event, and nothing was registered, sought or handled for it. */
  ghost predicate LeftAlone(s: State, t: State, e: Event) {
    && e !in t.index.pending && s.log <= t.log && s.nextWaiter <= t.nextWaiter
    && (forall x :: x in t.marks && x.0 == e ==> x in s.marks && t.marks[x] == s.marks[x])
    && (forall w :: w in t.waiters && t.waiters[w].Apply? && t.waiters[w].event == e ==>
          w in s.waiters && t.waiters[w] == s.waiters[w])
    && (forall i :: |s.log| <= i < |t.log| ==> t.log[i].event != e)
  }

  lemma LeftAloneChains(s: State, u: State, t: State, e: Event)
    requires LeftAlone(s, u, e) && LeftAlone(u, t, e)
    ensures LeftAlone(s, t, e)
  {
  }

  lemma SameLeavesAlone(s: State, t: State, e: Event)
    requires e !in s.index.pending && t.index.pending == s.index.pending && t.log == s.log && t.marks == s.marks
    requires s.nextWaiter <= t.nextWaiter
    requires forall w :: w in t.waiters && t.waiters[w].Apply? && t.waiters[w].event == e ==>
      w in s.waiters && t.waiters[w] == s.waiters[w]
    ensures LeftAlone(s, t, e)
  {
  }

  lemma HandleLeavesAlone(s: State, d: Event, key: Key, cause: Cause, waiter: Option<nat>, e: Event)
    requires e !in s.index.pending
    ensures LeftAlone(s, Handle(s, d, key, cause, waiter), e)
  {
    hide Remember;
  }

  lemma {:induction false} HandleAllLeavesAlone(
    s: State, events: seq<Event>, key: Key, cause: Cause, waiter: Option<nat>, e: Event)
    requires e !in s.index.pending
    ensures LeftAlone(s, HandleAll(s, events, key, cause, waiter), e)
    decreases |events|
  {
    hide Handle, LeftAlone;
    if events == [] {
      SameLeavesAlone(s, s, e);
    } else {
      var u := Handle(s, events[0], key, cause, waiter);
      HandleLeavesAlone(s, events[0], key, cause, waiter, e);
      NotPending(s, u, e);
      HandleAllLeavesAlone(u, events[1..], key, cause, waiter, e);
      LeftAloneChains(s, u, HandleAll(s, events, key, cause, waiter), e);
    }
  }

  lemma NotPending(s: State, t: State, e: Event)
    requires LeftAlone(s, t, e)
    ensures e !in t.index.pending
  {
  }

  lemma QueueLeavesAlone(s: State, d: Event, key: Key, call: nat, e: Event)
    requires e !in s.index.pending && d != e
    ensures LeftAlone(s, Queue(s, d, key, call), e)
  {
    hide Coalesce, Here;
  }

  lemma {:induction false} QueueAllLeavesAlone(s: State, d: Event, keys: seq<Key>, call: nat, e: Event)
    requires e !in s.index.pending && d != e
    ensures LeftAlone(s, QueueAll(s, d, keys, call), e)
    decreases |keys|
  {
    hide Queue, LeftAlone;
    if keys == [] {
      SameLeavesAlone(s, s, e);
    } else {
      var u := Queue(s, d, keys[0], call);
      QueueLeavesAlone(s, d, keys[0], call, e);
      NotPending(s, u, e);
      QueueAllLeavesAlone(u, d, keys[1..], call, e);
      LeftAloneChains(s, u, QueueAll(s, d, keys, call), e);
    }
  }

  lemma DeliverLeavesAlone(s: State, d: Event, keys: seq<Key>, e: Event)
    requires e !in s.index.pending && e in s.index.seen
    ensures LeftAlone(s, Deliver(s, d, keys), e)
  {
    hide QueueAll, LeftAlone, Remember;
    var t := Deliver(s, d, keys);
    if Recognised(s, d) || keys == [] {
      SameLeavesAlone(s, t, e);
    } else {
      var u := s.(processing := s.processing + {d}, nextWaiter := s.nextWaiter + 1);
      SameLeavesAlone(s, u, e);
      QueueAllLeavesAlone(u, d, keys, s.nextWaiter, e);
      LeftAloneChains(s, u, t, e);
    }
  }

  lemma ResumeLeavesAlone(s: State, w: nat, e: Event)
    requires e !in s.index.pending && w in s.waiters
    ensures LeftAlone(s, if s.waiters[w].Apply? then ResumeApply(s, w) else ResumeRetry(s, w), e)
  {
    hide Handle, HandleAll, LeftAlone, ResetRetries, Finish;
    var a, t := s.waiters[w], s.(waiters := s.waiters - {w});
    var u := if a.Apply? then ResumeApply(s, w) else ResumeRetry(s, w);
    SameLeavesAlone(s, t, e);
    SameLeavesAlone(s, t.(index := Schedule(t.index, a.key)), e);
    if a.Apply? {
      var cause := CauseOf(s.flights, a.promise);
      HandleLeavesAlone(t, a.event, a.key, cause, Some(w), e);
      LeftAloneChains(s, t, Handle(t, a.event, a.key, cause, Some(w)), e);
      FinishLeavesAlone(s, Handle(t, a.event, a.key, cause, Some(w)), a.event, a.call, e);
      FinishLeavesAlone(s, t.(index := Schedule(t.index, a.key)), a.event, a.call, e);
      FinishLeavesAlone(s, t, a.event, a.call, e);
    } else if a.key in s.index.projections {
      RetryLeavesAlone(s, t, a.key, a.events, CauseOf(s.flights, a.promise), w, e);
    }
  }

  lemma RetryLeavesAlone(s: State, t: State, key: Key, events: seq<Event>, cause: Cause, w: nat, e: Event)
    requires LeftAlone(s, t, e) && key in t.index.projections
    ensures LeftAlone(s, HandleAll(t.(index := ResetRetries(t.index, key)), events, key, cause, Some(w)), e)
  {
    hide HandleAll, LeftAlone;
    var v := t.(index := ResetRetries(t.index, key));
    NotPending(s, t, e);
    SameLeavesAlone(t, v, e);
    HandleAllLeavesAlone(v, events, key, cause, Some(w), e);
    LeftAloneChains(s, t, v, e);
    LeftAloneChains(s, v, HandleAll(v, events, key, cause, Some(w)), e);
  }

  lemma FinishLeavesAlone(s: State, t: State, d: Event, call: nat, e: Event)
    requires LeftAlone(s, t, e)
    ensures LeftAlone(s, Finish(t, d, call), e)
  {
  }

  lemma StepLeavesAlone(s: State, a: Step, e: Event)
    requires e !in s.index.pending && e in s.index.seen && Enabled(s, a) && !a.Reset?
    ensures LeftAlone(s, Take(s, a), e)
  {
    hide Coalesce, Deliver, ResumeApply, ResumeRetry, HandleAll, LeftAlone, Settle, Chain, Release;
    match a
    case Arrive(d, keys) => DeliverLeavesAlone(s, d, keys, e);
    case Resume(w) => ResumeLeavesAlone(s, w, e);
    case Drop(key) => DropLeavesAlone(s, key, e);
    case Fire(_) => SameLeavesAlone(s, Take(s, a), e);
    case Reconnect(_) => SameLeavesAlone(s, Take(s, a), e);
    case Refresh(_) => SameLeavesAlone(s, Take(s, a), e);
    case Load(_) => SameLeavesAlone(s, Take(s, a), e);
    case Answer(_, _) => SameLeavesAlone(s, Take(s, a), e);
    case RunChain(_) => SameLeavesAlone(s, Take(s, a), e);
  }

  lemma DropLeavesAlone(s: State, key: Key, e: Event)
    requires e !in s.index.pending
    ensures LeftAlone(s, Abandon(s, key), e)
  {
    hide HandleAll, LeftAlone, Release;
    SameLeavesAlone(s, s.(flights := Release(s.flights, key)), e);
    if key in s.index.projections {
      var t := HandleAll(s, s.index.projections[key].events, key, ByAbandoning, None);
      HandleAllLeavesAlone(s, s.index.projections[key].events, key, ByAbandoning, None, e);
      NotPending(s, t, e);
      SameLeavesAlone(t, t.(flights := Release(t.flights, key)), e);
      LeftAloneChains(s, t, t.(flights := Release(t.flights, key)), e);
    }
  }

  // ---- over every run --------------------------------------------------------------------------

  /** What is remembered is not pending, and the list does not grow without bound. */
  ghost predicate Remembering(s: State) {
    |s.index.seen| <= SeenLimit && forall e :: e in s.index.seen ==> e !in s.index.pending
  }

  lemma HandleRemembering(s: State, d: Event, key: Key, cause: Cause, waiter: Option<nat>)
    requires Remembering(s)
    ensures Remembering(Handle(s, d, key, cause, waiter))
  {
  }

  lemma {:induction false} HandleAllRemembering(
    s: State, events: seq<Event>, key: Key, cause: Cause, waiter: Option<nat>)
    requires Remembering(s)
    ensures Remembering(HandleAll(s, events, key, cause, waiter))
    decreases |events|
  {
    hide Handle;
    if events != [] {
      HandleRemembering(s, events[0], key, cause, waiter);
      HandleAllRemembering(Handle(s, events[0], key, cause, waiter), events[1..], key, cause, waiter);
    }
  }

  lemma {:induction false} QueueAllRemembering(s: State, d: Event, keys: seq<Key>, call: nat)
    requires Remembering(s) && d !in s.index.seen
    ensures Remembering(QueueAll(s, d, keys, call))
    decreases |keys|
  {
    hide Coalesce, Here;
    if keys != [] {
      QueueAllRemembering(Queue(s, d, keys[0], call), d, keys[1..], call);
    }
  }

  lemma DeliverRemembering(s: State, d: Event, keys: seq<Key>)
    requires Remembering(s)
    ensures Remembering(Deliver(s, d, keys))
  {
    hide QueueAll;
    if !Recognised(s, d) && keys != [] {
      QueueAllRemembering(
        s.(processing := s.processing + {d}, nextWaiter := s.nextWaiter + 1), d, keys, s.nextWaiter);
    }
  }

  lemma StepRemembering(s: State, a: Step)
    requires Remembering(s) && Enabled(s, a)
    ensures Remembering(Take(s, a))
  {
    hide Coalesce, Deliver, Handle, HandleAll, Settle, Chain, Release;
    match a
    case Arrive(d, keys) => DeliverRemembering(s, d, keys);
    case Resume(w) =>
      var x, t := s.waiters[w], s.(waiters := s.waiters - {w});
      HandleRemembering(t, if x.Apply? then x.event else Event(""), x.key, CauseOf(s.flights, x.promise), Some(w));
      if x.Retry? && x.key in s.index.projections {
        HandleAllRemembering(t.(index := ResetRetries(t.index, x.key)), x.events, x.key,
                             CauseOf(s.flights, x.promise), Some(w));
      }
    case Drop(key) =>
      if key in s.index.projections {
        HandleAllRemembering(s, s.index.projections[key].events, key, ByAbandoning, None);
      }
    case Fire(_) =>
    case Reconnect(_) =>
    case Refresh(_) =>
    case Load(_) =>
    case Answer(_, _) =>
    case RunChain(_) =>
    case Reset =>
  }

  lemma {:induction false} LogNeverShrinks(s: State, steps: seq<Step>)
    requires Remembering(s) && Legal(Client(), s, steps) && Reset !in steps
    ensures |s.log| <= |After(Client(), s, steps).log|
    decreases |steps|
  {
    hide Enabled, Take, FreshFor;
    if steps != [] {
      StepRemembers(s, steps[0], Event(""), 0);
      StepRemembering(s, steps[0]);
      assert forall a :: a in steps[1..] ==> a in steps;
      LogNeverShrinks(Client().next(s, steps[0]), steps[1..]);
    }
  }

  lemma {:induction false} QuietWhileFresh(s: State, steps: seq<Step>, e: Event, n: int)
    requires Remembering(s) && FreshFor(s.index.seen, e, n) && 0 <= n
    requires Legal(Client(), s, steps) && Reset !in steps
    requires n + |After(Client(), s, steps).log| - |s.log| + KeylessIn(steps) < SeenKept
    ensures var t := After(Client(), s, steps); LeftAlone(s, t, e) && e in t.index.seen
    decreases |steps|
  {
    hide Enabled, Take, FreshFor, LeftAlone;
    LogNeverShrinks(s, steps);
    FreshIsKnown(s.index.seen, e, n);
    if steps == [] {
      SameLeavesAlone(s, s, e);
    } else {
      var u := Client().next(s, steps[0]);
      StepRemembers(s, steps[0], e, n);
      StepRemembering(s, steps[0]);
      StepLeavesAlone(s, steps[0], e);
      assert forall a :: a in steps[1..] ==> a in steps;
      QuietWhileFresh(u, steps[1..], e, n + |u.log| - |s.log| + Keyless(steps[0]));
      LeftAloneChains(s, u, After(Client(), s, steps), e);
    }
  }

  /** Once an event has been remembered, and until a hundred pairs or events that touch nothing have been handled
      since, or the session starts anew: nothing waits for it, no continuation or registration or log entry of it
      is added, and a further delivery changes nothing. */
  lemma RememberedIsIgnored(steps: seq<Step>, a: Step, more: seq<Step>, e: Event, keys: seq<Key>)
    requires Legal(Client(), Initial, steps) && Enabled(After(Client(), Initial, steps), a)
    requires Legal(Client(), Take(After(Client(), Initial, steps), a), more) && Reset !in more
    requires var s := After(Client(), Initial, steps); var u := Take(s, a); var t := After(Client(), u, more);
      && e !in s.index.seen && e in u.index.seen
      && |t.log| - |s.log| + Keyless(a) + KeylessIn(more) <= 100
    ensures var u := Take(After(Client(), Initial, steps), a); var t := After(Client(), u, more);
      LeftAlone(u, t, e) && Deliver(t, e, keys) == t
  {
    hide Enabled, Take, FreshFor, LeftAlone;
    forall s: State, b: Step | Remembering(s) && Client().enabled(s, b) ensures Remembering(Client().next(s, b)) {
      StepRemembering(s, b);
    }
    RunKeeps(Client(), (s: State) => Remembering(s), Initial, steps);
    var s := After(Client(), Initial, steps);
    var u := Take(s, a);
    StepRemembering(s, a);
    ResetForgets(s, a);
    StepRemembers(s, a, e, 0);
    LogNeverShrinks(u, more);
    FreshIsPositive(u.index.seen, e, |u.log| - |s.log| + Keyless(a) - 1);
    QuietWhileFresh(u, more, e, |u.log| - |s.log| + Keyless(a) - 1);
  }

  lemma ResetForgets(s: State, a: Step)
    requires Enabled(s, a)
    ensures a.Reset? ==> Take(s, a).index.seen == []
  {
  }

  /** A new session recognises no event of the old one, waits for none, and has no timer and no refresh to join;
      whoever waited for a follow-up of the old one is told that it failed. */
  lemma NewSessionForgets(s: State)
    requires Good(s)
    ensures var t := Take(s, Reset);
      && (forall e :: !Recognised(t, e)) && (forall e, k :: !Waits(t.index, e, k)) && t.index.projections == map[]
      && t.flights.entries == map[] && t.waiters == s.waiters
      && forall k :: k in s.flights.entries && s.flights.entries[k].followUp.Some? ==>
           Value(t.flights, OfFollowUp(s.flights.entries[k].followUp.value)) == Some(false)
  {
    hide Covered, WaitersAwait, WaitersTimely, MarksTimely, LogTimely, SingleFlight, Indexed;
  }

  /** A key that leaves the screen has nothing waiting, no timer and no follow-up; whoever awaited the follow-up
      goes on at once, as if it had succeeded, and every other pair waits as before. */
  lemma AbandonedKeyIsLeft(s: State, key: Key)
    requires Good(s)
    ensures var t := Take(s, Drop(key));
      && key !in t.index.projections && t.waiters == s.waiters
      && (forall e, k :: Waits(t.index, e, k) <==> Waits(s.index, e, k) && k != key)
      && (key in t.flights.entries ==> t.flights.entries[key].followUp.None?)
      && (key in s.flights.entries && s.flights.entries[key].followUp.Some? ==>
            Value(t.flights, OfFollowUp(s.flights.entries[key].followUp.value)) == Some(true))
  {
    hide Good, Covered, WaitersAwait, WaitersTimely, MarksTimely, LogTimely, Tables, Indexed;
    GoodTables(s);
    AbandonKeeps(s, key);
    if key in s.index.projections {
      var events := s.index.projections[key].events;
      HandleAllSettles(s, events, key, ByAbandoning, None);
      HandleAllKeepsFlights(s, events, key, ByAbandoning, None);
      HandleAllKeepsWaiters(s, events, key, ByAbandoning, None, s.waiters);
    }
  }

  lemma FreshIsPositive(seen: seq<Event>, e: Event, n: int)
    requires FreshFor(seen, e, n)
    ensures 0 <= n
  {
    hide Remember, RememberAll;
  }

  // ---- how often a projection has been retried -------------------------------------------------

  /** A projection's count of retries grows by one each time its timer is armed, and starts again when a retry
      succeeds; nothing else changes it. */
  lemma RetriesCountTheTimers(s: State, a: Step, k: Key)
    requires Good(s) && Enabled(s, a) && k in s.index.projections && k in Take(s, a).index.projections
    requires Take(s, a).index.projections[k].id == s.index.projections[k].id
    ensures var p, q := s.index.projections[k], Take(s, a).index.projections[k];
      q.retries == if RetrySucceeds(s, a, k) then 0
                   else p.retries + if !p.timer && q.timer then 1 else 0
  {
    hide Good, Coalesce, QueueAll, HandleAll, Settle, Chain, Release, ResumeApply, ResumeRetry;
    match a
    case Arrive(d, keys) =>
      QueueAllKeepsRetries(
        s.(processing := s.processing + {d}, nextWaiter := s.nextWaiter + 1), d, keys, s.nextWaiter, k);
    case Resume(w) => ResumeCounts(s, w, k);
    case Drop(key) =>
      if key in s.index.projections {
        HandleAllKeepsRetries(s, s.index.projections[key].events, key, ByAbandoning, None, k);
      }
    case Fire(_) =>
    case Reconnect(_) =>
    case Refresh(_) =>
    case Load(_) =>
    case Answer(_, _) =>
    case RunChain(_) =>
    case Reset =>
  }

  lemma ResumeCounts(s: State, w: nat, k: Key)
    requires Enabled(s, Resume(w)) && k in s.index.projections && k in Take(s, Resume(w)).index.projections
    ensures var p, q := s.index.projections[k], Take(s, Resume(w)).index.projections[k];
      q.retries == if RetrySucceeds(s, Resume(w), k) then 0
                   else p.retries + if !p.timer && q.timer then 1 else 0
  {
    hide ResumeApply, ResumeRetry;
    if s.waiters[w].Apply? {
      ApplyCounts(s, w, k);
    } else {
      RetryCounts(s, w, k);
    }
  }

  lemma ApplyCounts(s: State, w: nat, k: Key)
    requires Enabled(s, Resume(w)) && s.waiters[w].Apply?
    requires k in s.index.projections && k in ResumeApply(s, w).index.projections
    ensures var p, q := s.index.projections[k], ResumeApply(s, w).index.projections[k];
      q.retries == p.retries + if !p.timer && q.timer then 1 else 0
  {
    hide Reconcile;
    ReconcileKeepsRetries(s.index, s.waiters[w].event, s.waiters[w].key, k);
  }

  lemma RetryCounts(s: State, w: nat, k: Key)
    requires Enabled(s, Resume(w)) && s.waiters[w].Retry?
    requires k in s.index.projections && k in ResumeRetry(s, w).index.projections
    ensures var p, q := s.index.projections[k], ResumeRetry(s, w).index.projections[k];
      q.retries == if RetrySucceeds(s, Resume(w), k) then 0
                   else p.retries + if !p.timer && q.timer then 1 else 0
  {
    hide HandleAll;
    var x, t := s.waiters[w], s.(waiters := s.waiters - {w});
    if x.key in s.index.projections {
      HandleAllKeepsRetries(t.(index := ResetRetries(t.index, x.key)), x.events, x.key,
                            CauseOf(s.flights, x.promise), Some(w), k);
    }
  }

  ghost predicate RetrySucceeds(s: State, a: Step, k: Key)
    requires k in s.index.projections
  {
    a.Resume? && a.waiter in s.waiters && s.waiters[a.waiter].Retry? && s.waiters[a.waiter].key == k
    && s.waiters[a.waiter].projection == s.index.projections[k].id
    && Value(s.flights, s.waiters[a.waiter].promise) == Some(true)
  }

  /** The projection of `k`, if it is still there, is the same but for its events. */
  ghost predicate SameRetries(s: Index, t: Index, k: Key) {
    k in s.projections && k in t.projections ==>
      t.projections[k].retries == s.projections[k].retries && t.projections[k].timer == s.projections[k].timer
  }

  lemma ReconcileKeepsRetries(s: Index, e: Event, key: Key, k: Key)
    ensures SameRetries(s, Reconcile(s, e, key), k) && (k in Reconcile(s, e, key).projections ==> k in s.projections)
  {
    hide Remember;
  }

  lemma {:induction false} HandleAllKeepsRetries(
    s: State, events: seq<Event>, key: Key, cause: Cause, waiter: Option<nat>, k: Key)
    ensures var t := HandleAll(s, events, key, cause, waiter);
      SameRetries(s.index, t.index, k) && (k in t.index.projections ==> k in s.index.projections)
    decreases |events|
  {
    hide Reconcile;
    if events != [] {
      ReconcileKeepsRetries(s.index, events[0], key, k);
      HandleAllKeepsRetries(Handle(s, events[0], key, cause, waiter), events[1..], key, cause, waiter, k);
    }
  }

  lemma {:induction false} QueueAllKeepsRetries(s: State, d: Event, keys: seq<Key>, call: nat, k: Key)
    requires k in s.index.projections
    ensures var t := QueueAll(s, d, keys, call); k in t.index.projections && SameRetries(s.index, t.index, k)
    decreases |keys|
  {
    hide Coalesce, Here;
    if keys != [] {
      QueueAllKeepsRetries(Queue(s, d, keys[0], call), d, keys[1..], call, k);
    }
  }
}
