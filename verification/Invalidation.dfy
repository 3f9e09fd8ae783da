/**
 How the browser answers server events: it registers each event for the projections it touches, refreshes
 them, and marks the event handled for a projection once a fresh enough read has succeeded.

 A step is one synchronous stretch of the program. A waiter is a suspended continuation; the environment
 settles refreshes, fires timers and resumes waiters whose promise has settled, in any order.
 */
module Invalidation {
  import opened Sequences
  import opened Machines
  import opened CoalescedRefresh
  import opened ProjectionIndex

  /** `Apply` continues the delivery of one event for one key, `Retry` a retry of one projection. */
  datatype Waiter =
    | Apply(event: Event, key: Key, promise: Promise, call: nat)
    | Retry(projection: nat, key: Key, promise: Promise, events: seq<Event>)

  datatype Cause = ByRequest(request: nat) | ByRelease(at: nat) | ByAbandoning

  /** What was the case when a pair was last registered: the next flight, the next waiter, and the waiters
      suspended on a refresh that had begun. */
  datatype Registration = Registration(flight: nat, waiter: nat, begun: set<nat>)

  /** An event marked handled for a key. `again`: the pair was registered anew after the continuation that
      did it was suspended; `late`: and by then the refresh it awaited had begun. */
  datatype Handled = Handled(event: Event, key: Key, cause: Cause, mark: nat, again: bool, late: bool)

  datatype State = State(
    processing: set<Event>,
    index: Index,
    flights: Flights,
    waiters: map<nat, Waiter>,
    nextWaiter: nat,
    loads: map<Key, nat>,             // the last successful load of a key outside the refreshes, since the last clear
    marks: map<(Event, Key), Registration>,
    log: seq<Handled>)

  const Initial := State({}, NoIndex, NoFlights, map[], 0, map[], map[], [])

  ghost function Mark(s: State, e: Event, key: Key): Registration {
    if (e, key) in s.marks then s.marks[(e, key)] else Registration(0, 0, {})
  }

  function CauseOf(s: Flights, p: Promise): Cause {
    match p
    case Immediate => ByAbandoning
    case OfRequest(r) => ByRequest(r)
    case OfFollowUp(f) =>
      if f !in s.followUps then ByAbandoning else
      match s.followUps[f]
      case Waiting(_) => ByAbandoning
      case Linked(r) => ByRequest(r)
      case Released(at, _) => ByRelease(at)
  }

  /** What is logged of the continuation `waiter`, or of nobody in particular. */
  ghost function Logged(s: State, e: Event, key: Key, cause: Cause, waiter: Option<nat>): Handled {
    var m := Mark(s, e, key);
    Handled(e, key, cause, m.flight, waiter.Some? && waiter.value < m.waiter, waiter.Some? && waiter.value in m.begun)
  }

  ghost function Handle(s: State, e: Event, key: Key, cause: Cause, waiter: Option<nat>): State {
    s.(index := Reconcile(s.index, e, key),
       log := if Pending(s.index, e, key) then s.log + [Logged(s, e, key, cause, waiter)] else s.log)
  }

  ghost function HandleAll(s: State, events: seq<Event>, key: Key, cause: Cause, waiter: Option<nat>): State
    decreases |events|
  {
    if events == [] then s
    else HandleAll(Handle(s, events[0], key, cause, waiter), events[1..], key, cause, waiter)
  }

  // ---- the steps -------------------------------------------------------------------------------

  function Await(s: State, waiter: Waiter): State {
    s.(waiters := s.waiters[s.nextWaiter := waiter], nextWaiter := s.nextWaiter + 1)
  }

  ghost function Here(s: State): Registration {
    Registration(s.flights.next, s.nextWaiter, set w | w in s.waiters && Began(s.flights, s.waiters[w].promise))
  }

  ghost function Note(s: State, e: Event, key: Key): State {
    s.(index := Register(s.index, e, key),
       marks := if Pending(s.index, e, key) then s.marks else s.marks[(e, key) := Here(s)])
  }

  /** Register one key of an event and either join its refresh or leave it to the armed timer. */
  ghost function Queue(s: State, e: Event, key: Key, call: nat): State {
    var t := Note(s, e, key);
    if key in s.index.projections && s.index.projections[key].timer then
      Await(t, Apply(e, key, Immediate, call))
    else
      var (flights, promise) := Coalesce(s.flights, key);
      Await(t.(flights := flights), Apply(e, key, promise, call))
  }

  ghost function QueueAll(s: State, e: Event, keys: seq<Key>, call: nat): State
    decreases |keys|
  {
    if keys == [] then s else QueueAll(Queue(s, e, keys[0], call), e, keys[1..], call)
  }

  /** An event arrives that touches the projections `keys`. */
  ghost function Deliver(s: State, e: Event, keys: seq<Key>): State {
    if e in s.index.seen || e in s.processing || e in s.index.pending then s
    else if keys == [] then s.(index := s.index.(seen := Remember(s.index.seen, e)))
    else QueueAll(s.(processing := s.processing + {e}, nextWaiter := s.nextWaiter + 1), e, keys, s.nextWaiter)
  }

  /** Disarm the timer and refresh the projection for everything that waits in it. */
  function RetryNow(s: State, key: Key): State
    requires key in s.index.projections
  {
    var p := s.index.projections[key];
    var (flights, promise) := Coalesce(s.flights, key);
    Await(s.(index := SetTimer(s.index, key, false), flights := flights), Retry(p.id, key, promise, p.events))
  }

  /** The last continuation of a delivery forgets that the event is being processed. */
  function Finish(s: State, e: Event, call: nat): State {
    if exists w :: w in s.waiters && s.waiters[w].Apply? && s.waiters[w].call == call
    then s else s.(processing := s.processing - {e})
  }

  ghost function ResumeApply(s: State, w: nat): State
    requires w in s.waiters && s.waiters[w].Apply?
  {
    var a := s.waiters[w];
    var t := s.(waiters := s.waiters - {w});
    Finish(
      match Value(s.flights, a.promise)
      case None => t
      case Some(ok) =>
        if ok then Handle(t, a.event, a.key, CauseOf(s.flights, a.promise), Some(w))
        else t.(index := Schedule(t.index, a.key)),
      a.event, a.call)
  }

  ghost function ResumeRetry(s: State, w: nat): State
    requires w in s.waiters && s.waiters[w].Retry?
  {
    var a := s.waiters[w];
    var t := s.(waiters := s.waiters - {w});
    if a.key !in s.index.projections || s.index.projections[a.key].id != a.projection then t
    else if Value(s.flights, a.promise) == Some(true) then
      HandleAll(t.(index := ResetRetries(t.index, a.key)), a.events, a.key, CauseOf(s.flights, a.promise), Some(w))
    else t.(index := Schedule(t.index, a.key))
  }

  /** A key leaves the screen: nothing waits for it any more. */
  ghost function Abandon(s: State, key: Key): State {
    var t := if key !in s.index.projections then s
             else HandleAll(s, s.index.projections[key].events, key, ByAbandoning, None);
    t.(flights := Release(t.flights, key))
  }

  /** The session ends or starts anew. */
  function Clear(s: State): State {
    s.(processing := {}, index := Index([], map[], map[], s.index.next), flights := ReleaseAll(s.flights),
       loads := map[])
  }

  datatype Step =
    | Arrive(event: Event, keys: seq<Key>)
    | Refresh(key: Key)                      // a refresh nobody waits for
    | Load(key: Key)                         // a load of the same data, not as a refresh, succeeds
    | Answer(request: nat, ok: bool)         // a refresh settles
    | RunChain(request: nat)
    | Fire(key: Key)
    | Reconnect(key: Key)                    // retry at once, timer or not
    | Resume(waiter: nat)
    | Drop(key: Key)
    | Reset

  /** A read that a clear has overtaken reports success only for a newer one of the same data. */
  ghost predicate Replaced(s: State, r: nat)
    requires r in s.flights.requests
  {
    var k := s.flights.requests[r].key;
    || (k in s.loads && r < s.loads[k])
    || exists q :: r < q && q in s.flights.requests && s.flights.requests[q].key == k
                   && Outcome(s.flights, q) == Some(true)
  }

  ghost predicate Enabled(s: State, a: Step) {
    match a
    case Answer(r, ok) =>
      && r in s.flights.requests && s.flights.requests[r].outcome.None?
      && (ok && r < s.flights.cleared ==> Replaced(s, r))
    case RunChain(r) =>
      r in s.flights.requests && s.flights.requests[r].outcome.Some? && !s.flights.requests[r].chained
    case Fire(key) => key in s.index.projections && s.index.projections[key].timer
    case Reconnect(key) => key in s.index.projections
    case Resume(w) =>
      w in s.waiters && (s.waiters[w].promise.Immediate? || Value(s.flights, s.waiters[w].promise).Some?)
    case _ => true
  }

  ghost function Take(s: State, a: Step): State
    requires Enabled(s, a)
  {
    match a
    case Arrive(e, keys) => Deliver(s, e, keys)
    case Refresh(key) => s.(flights := Coalesce(s.flights, key).0)
    case Load(key) => s.(flights := s.flights.(next := s.flights.next + 1), loads := s.loads[key := s.flights.next])
    case Answer(r, ok) => s.(flights := Settle(s.flights, r, ok))
    case RunChain(r) => s.(flights := Chain(s.flights, r))
    case Fire(key) => RetryNow(s, key)
    case Reconnect(key) => RetryNow(s, key)
    case Resume(w) => if s.waiters[w].Apply? then ResumeApply(s, w) else ResumeRetry(s, w)
    case Drop(key) => Abandon(s, key)
    case Reset => Clear(s)
  }

  ghost function Client(): Machine<State, Step> {
    Machine((s, a) => Enabled(s, a), (s: State, a: Step) => if Enabled(s, a) then Take(s, a) else s)
  }

  // ---- the invariant ---------------------------------------------------------------------------

  /** The continuation will reconcile the pair, or arm the key's timer. */
  ghost predicate Covers(a: Waiter, e: Event, k: Key, projection: nat) {
    a.key == k && !a.promise.Immediate? &&
    if a.Apply? then a.event == e else a.projection == projection && e in a.events
  }

  /** Every pending pair has an armed timer or a continuation that covers it. */
  ghost predicate Covered(s: State) {
    forall e, k :: Waits(s.index, e, k) ==> CoveredPair(s, e, k)
  }

  ghost predicate CoveredPair(s: State, e: Event, k: Key)
    requires k in s.index.projections
  {
    s.index.projections[k].timer ||
    exists w :: w in s.waiters && Covers(s.waiters[w], e, k, s.index.projections[k].id)
  }

  ghost predicate WaitersAwait(s: State) {
    forall w :: w in s.waiters ==>
      && w < s.nextWaiter
      && Awaitable(s.flights, s.waiters[w].promise, s.waiters[w].key)
      && (s.waiters[w].Retry? ==> s.waiters[w].projection < s.index.next && !s.waiters[w].promise.Immediate?)
  }

  /** A continuation that at the registration was suspended on a refresh that had begun brings older
      evidence; any other brings evidence at least as new as the registration. */
  ghost predicate Timely(f: Flights, w: nat, p: Promise, m: Registration) {
    if w in m.begun then Before(f, p, m.flight) else Since(f, p, m.flight)
  }

  /** The refresh that handled the event began at or after the last registration of the event for the key, and
      succeeded; or the key was given up at or after that. */
  ghost predicate Justified(s: Flights, h: Handled) {
    match h.cause
    case ByRequest(r) =>
      r in s.requests && s.requests[r].key == h.key && s.requests[r].outcome == Some(true) && h.mark <= r
    case ByRelease(at) => h.mark <= at
    case ByAbandoning => true
  }

  ghost predicate LogTimely(s: State) {
    forall i :: 0 <= i < |s.log| ==>
      && (s.log[i].cause.ByRequest? ==> Outcome(s.flights, s.log[i].cause.request).Some?)
      && (Justified(s.flights, s.log[i]) <==> !s.log[i].late)
      && (s.log[i].late ==> s.log[i].again)
  }

  ghost predicate Earlier(s: State, m: Registration) {
    m.flight <= s.flights.next && m.waiter <= s.nextWaiter && forall w :: w in m.begun ==> w < m.waiter
  }

  ghost predicate MarksTimely(s: State) {
    && (forall x :: x in s.marks ==> Earlier(s, s.marks[x]))
    && (forall e, k :: Waits(s.index, e, k) ==> (e, k) in s.marks)
  }

  ghost predicate WaitersTimely(s: State) {
    forall w, x :: w in s.waiters && x in s.marks ==> Timely(s.flights, w, s.waiters[w].promise, s.marks[x])
  }

  ghost predicate Good(s: State) {
    && Indexed(s.index) && Tables(s.flights)
    && Covered(s) && WaitersAwait(s) && WaitersTimely(s) && MarksTimely(s) && LogTimely(s)
  }
}
