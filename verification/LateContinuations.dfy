/**
 Runs in which the client does less than one would expect: two refreshes of one key at a time, and a
 continuation that marks a newer delivery handled by an older read. Each run takes the order the program takes:
 the callback that starts a follow-up runs before the continuations that await the same refresh.
 */
module LateContinuations {
  import opened Sequences
  import opened Machines
  import opened CoalescedRefresh
  import opened ProjectionIndex
  import opened Invalidation
  import opened InvalidationTheorems

  // ---- an index of two events and one key ------------------------------------------------------

  ghost function Nobody(seen: seq<Event>, next: nat): Index {
    Index(seen, map[], map[], next)
  }

  ghost function One(seen: seq<Event>, a: Event, k: Key, id: nat, next: nat): Index {
    Index(seen, map[a := {k}], map[k := Projection(id, [a], 0, false)], next)
  }

  ghost function Two(seen: seq<Event>, a: Event, b: Event, k: Key, id: nat, next: nat): Index {
    Index(seen, map[a := {k}, b := {k}], map[k := Projection(id, [a, b], 0, false)], next)
  }

  lemma FirstRegisters(seen: seq<Event>, a: Event, k: Key, next: nat)
    ensures Register(Nobody(seen, next), a, k) == One(seen, a, k, next, next + 1)
  {
    assert {} + {k} == {k} && [] + [a] == [a];
  }

  lemma SecondRegisters(seen: seq<Event>, a: Event, b: Event, k: Key, id: nat, next: nat)
    requires a != b
    ensures Register(One(seen, a, k, id, next), b, k) == Two(seen, a, b, k, id, next + 1)
  {
    assert {} + {k} == {k} && [a] + [b] == [a, b];
  }

  lemma FirstReconciles(seen: seq<Event>, a: Event, b: Event, k: Key, id: nat, next: nat)
    requires a != b && a !in seen
    ensures Reconcile(Two(seen, a, b, k, id, next), a, k) == One(Remember(seen, a), b, k, id, next)
  {
    hide Remember;
    assert {k} - {k} == {};
    assert [a, b][1..] == [b] && Without([b], a) == [b] && Without([a, b], a) == [b];
    var p := map[a := {k}, b := {k}];
    assert p - {a} == map[b := {k}];
  }

  lemma LastReconciles(seen: seq<Event>, a: Event, k: Key, id: nat, next: nat)
    requires a !in seen
    ensures Reconcile(One(seen, a, k, id, next), a, k) == Nobody(Remember(seen, a), next)
  {
    hide Remember;
    assert {k} - {k} == {};
    assert [a][1..] == [] && Without([a], a) == [];
    var p := map[a := {k}];
    assert p - {a} == map[];
  }

  // ---- single steps ----------------------------------------------------------------------------

  /** The delivery of an event for one key whose timer is not armed, given what it finds. */
  lemma DeliverOne(s: State, e: Event, k: Key, index: Index, flights: Flights, promise: Promise, begun: set<nat>)
    requires e !in s.index.seen && e !in s.processing && e !in s.index.pending
    requires k in s.index.projections ==> !s.index.projections[k].timer
    requires Register(s.index, e, k) == index
    requires Coalesce(s.flights, k).0 == flights && Coalesce(s.flights, k).1 == promise
    requires forall w :: w in begun <==> w in s.waiters && Began(s.flights, s.waiters[w].promise)
    ensures Take(s, Arrive(e, [k])) ==
      State(s.processing + {e}, index, flights, s.waiters[s.nextWaiter + 1 := Apply(e, k, promise, s.nextWaiter)],
            s.nextWaiter + 2, s.loads, s.marks[(e, k) := Registration(s.flights.next, s.nextWaiter + 1, begun)], s.log)
  {
    hide Register, Coalesce, Began;
    var t := s.(processing := s.processing + {e}, nextWaiter := s.nextWaiter + 1);
    var first := Queue(t, e, k, s.nextWaiter);
    assert [k][1..] == [] && QueueAll(first, e, [], s.nextWaiter) == first;
    assert Here(t).begun == begun;
  }

  /** The continuation of a delivery of one key reads successfully. */
  lemma ResumeOne(s: State, w: nat, index: Index)
    requires w in s.waiters && s.waiters[w].Apply? && Value(s.flights, s.waiters[w].promise) == Some(true)
    requires var a := s.waiters[w]; Pending(s.index, a.event, a.key) && Reconcile(s.index, a.event, a.key) == index
    requires forall x :: x in s.waiters && x != w && s.waiters[x].Apply? ==> s.waiters[x].call != s.waiters[w].call
    ensures Enabled(s, Resume(w))
    ensures var a := s.waiters[w];
      Take(s, Resume(w)) ==
        s.(processing := s.processing - {a.event}, index := index, waiters := s.waiters - {w},
           log := s.log + [Logged(s, a.event, a.key, CauseOf(s.flights, a.promise), Some(w))])
  {
    hide Reconcile, Pending, CauseOf, Value;
  }

  // ---- runs ------------------------------------------------------------------------------------

  ghost predicate Comes(s: State, steps: seq<Step>, t: State) {
    Leads(Client(), s, steps, t)
  }

  lemma Begins(s: State, a: Step, t: State)
    requires Enabled(s, a) && Take(s, a) == t
    ensures Comes(s, [a], t)
  {
    hide Take, Enabled;
    LeadsOne(Client(), s, a, t);
  }

  lemma Then(s: State, first: seq<Step>, t: State, a: Step, u: State)
    requires Comes(s, first, t) && Enabled(t, a) && Take(t, a) == u
    ensures Comes(s, first + [a], u)
  {
    hide Take, Enabled, Leads;
    LeadsOne(Client(), t, a, u);
    LeadsOn(Client(), s, first, t, [a], u);
  }

  lemma Joins(s: State, first: seq<Step>, t: State, second: seq<Step>, u: State)
    requires Comes(s, first, t) && Comes(t, second, u)
    ensures Comes(s, first + second, u)
  {
    hide Leads;
    LeadsOn(Client(), s, first, t, second, u);
  }

  lemma ComesThere(s: State, steps: seq<Step>, t: State)
    requires Comes(s, steps, t)
    ensures Legal(Client(), s, steps) && After(Client(), s, steps) == t
  {
  }

  /** A refresh succeeds, and its callback runs at once. */
  lemma Succeeds(s: State, first: seq<Step>, t: State, r: nat, flights: Flights)
    requires Comes(s, first, t) && Enabled(t, Answer(r, true)) && Chain(Settle(t.flights, r, true), r) == flights
    requires !t.flights.requests[r].chained
    ensures Comes(s, first + [Answer(r, true)] + [RunChain(r)], t.(flights := flights))
  {
    hide Comes, Chain;
    var u := t.(flights := Settle(t.flights, r, true));
    Then(s, first, t, Answer(r, true), u);
    Then(s, first + [Answer(r, true)], u, RunChain(r), t.(flights := flights));
  }

  // ---- across a clear --------------------------------------------------------------------------

  ghost function Once(e: Event, k: Key): State {
    State({e}, One([], e, k, 0, 1),
          Flights(map[k := Entry(0, 1, None)], map[1 := Request(k, 0, None, false)], map[], 2, 0),
          map[1 := Apply(e, k, OfRequest(1), 0)], 2, map[], map[(e, k) := Registration(0, 1, {})], [])
  }

  ghost function Cleared(e: Event, k: Key): State {
    Once(e, k).(processing := {}, index := Nobody([], 1),
                flights := Flights(map[], map[1 := Request(k, 0, None, false)], map[], 3, 3))
  }

  // another event is delivered, which starts request 4
  ghost function Another(e: Event, f: Event, k: Key): State {
    State({f}, One([], f, k, 1, 2), TwoFlights(k),
          map[1 := Apply(e, k, OfRequest(1), 0), 3 := Apply(f, k, OfRequest(4), 2)], 4, map[],
          map[(e, k) := Registration(0, 1, {}), (f, k) := Registration(3, 3, {1})], [])
  }

  ghost function TwoFlights(k: Key): Flights {
    Flights(map[k := Entry(3, 4, None)], map[1 := Request(k, 0, None, false), 4 := Request(k, 3, None, false)],
            map[], 5, 3)
  }

  // the first event is delivered again, and asks for a follow-up
  ghost function Again(e: Event, f: Event, k: Key, flights: Flights): State {
    State({f, e}, Two([], f, e, k, 1, 3), flights,
          map[1 := Apply(e, k, OfRequest(1), 0), 3 := Apply(f, k, OfRequest(4), 2), 5 := Apply(e, k, OfFollowUp(5), 4)],
          6, map[], map[(e, k) := Registration(5, 5, {1, 3}), (f, k) := Registration(3, 3, {1})], [])
  }

  ghost function FollowUpAsked(k: Key): Flights {
    TwoFlights(k).(entries := map[k := Entry(3, 4, Some(5))], followUps := map[5 := Waiting(k)], next := 6)
  }

  // request 4 is answered, and the follow-up begins as request 6
  ghost function FollowUpBegun(k: Key, first: Option<bool>, chained: bool): Flights {
    Flights(map[k := Entry(3, 6, None)],
            map[1 := Request(k, 0, first, chained), 4 := Request(k, 3, Some(true), true),
                6 := Request(k, 3, None, false)],
            map[5 := Linked(6)], 7, 3)
  }

  // the other event is handled, and request 1 is answered by what 4 read
  ghost function OtherHandled(e: Event, f: Event, k: Key, flights: Flights): State {
    Again(e, f, k, flights).(
      processing := {e}, index := One([f], e, k, 1, 3),
      waiters := map[1 := Apply(e, k, OfRequest(1), 0), 5 := Apply(e, k, OfFollowUp(5), 4)],
      log := [Handled(f, k, ByRequest(4), 3, false, false)])
  }

  ghost function HandledLate(e: Event, f: Event, k: Key): State {
    OtherHandled(e, f, k, FollowUpBegun(k, Some(true), true)).(
      processing := {}, index := Nobody([f, e], 3), waiters := map[5 := Apply(e, k, OfFollowUp(5), 4)],
      log := [Handled(f, k, ByRequest(4), 3, false, false), Handled(e, k, ByRequest(1), 5, true, true)])
  }

  lemma OnceFollows(e: Event, k: Key)
    ensures Take(Initial, Arrive(e, [k])) == Once(e, k)
  {
    FirstRegisters([], e, k, 0);
    DeliverOne(Initial, e, k, One([], e, k, 0, 1), Once(e, k).flights, OfRequest(1), {});
  }

  lemma ClearedFollows(e: Event, k: Key)
    ensures Take(Once(e, k), Reset) == Cleared(e, k)
  {
  }

  lemma AnotherFollows(e: Event, f: Event, k: Key)
    ensures Take(Cleared(e, k), Arrive(f, [k])) == Another(e, f, k)
  {
    hide Register, Coalesce, Take, Began;
    FirstRegisters([], f, k, 1);
    AnotherFlies(e, k);
    DeliverOne(Cleared(e, k), f, k, One([], f, k, 1, 2), TwoFlights(k), OfRequest(4), {1});
  }

  lemma AnotherFlies(e: Event, k: Key)
    ensures Coalesce(Cleared(e, k).flights, k).0 == TwoFlights(k)
    ensures Coalesce(Cleared(e, k).flights, k).1 == OfRequest(4)
    ensures var s := Cleared(e, k);
      forall w :: w in {1} <==> w in s.waiters && Began(s.flights, s.waiters[w].promise)
  {
  }

  lemma AgainFollows(e: Event, f: Event, k: Key)
    requires e != f
    ensures Take(Another(e, f, k), Arrive(e, [k])) == Again(e, f, k, FollowUpAsked(k))
  {
    hide Register, Coalesce, Take, Began;
    SecondRegisters([], f, e, k, 1, 2);
    AgainFlies(e, f, k);
    DeliverOne(Another(e, f, k), e, k, Two([], f, e, k, 1, 3), FollowUpAsked(k), OfFollowUp(5), {1, 3});
  }

  lemma AgainFlies(e: Event, f: Event, k: Key)
    ensures Coalesce(TwoFlights(k), k).0 == FollowUpAsked(k) && Coalesce(TwoFlights(k), k).1 == OfFollowUp(5)
    ensures var s := Another(e, f, k);
      forall w :: w in {1, 3} <==> w in s.waiters && Began(s.flights, s.waiters[w].promise)
  {
  }

  lemma FollowUpFollows(k: Key)
    ensures var asked := FollowUpAsked(k); Chain(Settle(asked, 4, true), 4) == FollowUpBegun(k, None, false)
  {
    var s := Settle(FollowUpAsked(k), 4, true);
    var t, u := Chain(s, 4), FollowUpBegun(k, None, false);
    assert t.requests == u.requests;
    assert t.entries == u.entries && t.followUps == u.followUps;
  }

  lemma FirstSettles(k: Key)
    ensures Chain(Settle(FollowUpBegun(k, None, false), 1, true), 1) == FollowUpBegun(k, Some(true), true)
  {
    var s := Settle(FollowUpBegun(k, None, false), 1, true);
    assert !Current(s, 1);
    assert Chained(s, 1).requests == FollowUpBegun(k, Some(true), true).requests;
  }

  lemma OtherFollows(e: Event, f: Event, k: Key)
    requires e != f
    ensures var s := Again(e, f, k, FollowUpBegun(k, None, false));
      Enabled(s, Resume(3)) && Take(s, Resume(3)) == OtherHandled(e, f, k, FollowUpBegun(k, None, false))
  {
    hide Reconcile;
    FirstReconciles([], f, e, k, 1, 3);
    var s := Again(e, f, k, FollowUpBegun(k, None, false));
    var t := OtherHandled(e, f, k, FollowUpBegun(k, None, false));
    assert Remember([], f) == [f];
    ResumeOne(s, 3, One([f], e, k, 1, 3));
    assert s.waiters - {3} == t.waiters;
  }

  lemma LateFollows(e: Event, f: Event, k: Key)
    requires e != f
    ensures var s := OtherHandled(e, f, k, FollowUpBegun(k, Some(true), true));
      Enabled(s, Resume(1)) && Take(s, Resume(1)) == HandledLate(e, f, k)
  {
    hide Reconcile;
    LastReconciles([f], e, k, 1, 3);
    var s := OtherHandled(e, f, k, FollowUpBegun(k, Some(true), true));
    var t := HandledLate(e, f, k);
    assert Remember([f], e) == [f, e];
    ResumeOne(s, 1, Nobody([f, e], 3));
    assert s.waiters - {1} == t.waiters;
    assert s.log + [Handled(e, k, ByRequest(1), 5, true, true)] == t.log;
  }

  ghost function AcrossAClear(e: Event, f: Event, k: Key): seq<Step> {
    [Arrive(e, [k]), Reset, Arrive(f, [k]), Arrive(e, [k]), Answer(4, true), RunChain(4), Resume(3),
     Answer(1, true), RunChain(1), Resume(1)]
  }

  lemma DeliveriesLead(e: Event, f: Event, k: Key)
    ensures Comes(Initial, [Arrive(e, [k]), Reset, Arrive(f, [k])], Another(e, f, k))
  {
    hide Take, Comes, Once, Cleared, Another;
    OnceFollows(e, k);
    ClearedFollows(e, k);
    AnotherFollows(e, f, k);
    Begins(Initial, Arrive(e, [k]), Once(e, k));
    Then(Initial, [Arrive(e, [k])], Once(e, k), Reset, Cleared(e, k));
    Then(Initial, [Arrive(e, [k])] + [Reset], Cleared(e, k), Arrive(f, [k]), Another(e, f, k));
    assert [Arrive(e, [k])] + [Reset] + [Arrive(f, [k])] == [Arrive(e, [k]), Reset, Arrive(f, [k])];
  }

  lemma AgainLeads(e: Event, f: Event, k: Key, first: seq<Step>)
    requires e != f && Comes(Initial, first, Another(e, f, k))
    ensures Comes(Initial, first + [Arrive(e, [k])], Again(e, f, k, FollowUpAsked(k)))
  {
    hide Take, Comes, Another, Again;
    AgainFollows(e, f, k);
    Then(Initial, first, Another(e, f, k), Arrive(e, [k]), Again(e, f, k, FollowUpAsked(k)));
  }

  lemma AnswersLead(e: Event, f: Event, k: Key, first: seq<Step>)
    requires e != f && Comes(Initial, first, Again(e, f, k, FollowUpAsked(k)))
    ensures Comes(Initial, first + [Answer(4, true)] + [RunChain(4)] + [Resume(3)] + [Answer(1, true)] + [RunChain(1)],
                  OtherHandled(e, f, k, FollowUpBegun(k, Some(true), true)))
  {
    hide Comes, Take, Chain, Settle;
    var begun, chained := FollowUpBegun(k, None, false), FollowUpBegun(k, Some(true), true);
    FollowUpFollows(k);
    FirstSettles(k);
    OtherFollows(e, f, k);
    FirstIsReplaced(e, f, k);
    Succeeds(Initial, first, Again(e, f, k, FollowUpAsked(k)), 4, begun);
    var second := first + [Answer(4, true)] + [RunChain(4)];
    Then(Initial, second, Again(e, f, k, begun), Resume(3), OtherHandled(e, f, k, begun));
    Succeeds(Initial, second + [Resume(3)], OtherHandled(e, f, k, begun), 1, chained);
  }

  /** The clear has overtaken request 1, so it succeeds only because request 4 has. */
  lemma FirstIsReplaced(e: Event, f: Event, k: Key)
    ensures Enabled(OtherHandled(e, f, k, FollowUpBegun(k, None, false)), Answer(1, true))
    ensures Enabled(Again(e, f, k, FollowUpAsked(k)), Answer(4, true))
    ensures !Enabled(Again(e, f, k, FollowUpAsked(k)), Answer(1, true))
  {
    var s := OtherHandled(e, f, k, FollowUpBegun(k, None, false));
    assert 4 in s.flights.requests && Outcome(s.flights, 4) == Some(true);
  }

  /** A failing case: an event is delivered and its refresh starts; the session restarts; another event starts
      a second refresh of the key, and the first is delivered again and asks for a follow-up; the second
      refresh succeeds, and with it the first, which it replaces; and the old continuation marks the new
      delivery handled while its own refresh is in flight. */
  lemma StaleContinuationHandlesANewerDelivery(e: Event, f: Event, k: Key)
    requires e != f
    ensures var s := After(Client(), Initial, AcrossAClear(e, f, k));
      && Legal(Client(), Initial, AcrossAClear(e, f, k))
      && s.index.pending == map[]
      && s.flights.followUps == map[5 := Linked(6)] && Outcome(s.flights, 6) == None
      && s.log == [Handled(f, k, ByRequest(4), 3, false, false), Handled(e, k, ByRequest(1), 5, true, true)]
      && !Justified(s.flights, s.log[1])
  {
    hide Legal, After, Take, Enabled, Comes;
    var first := [Arrive(e, [k]), Reset, Arrive(f, [k])];
    var handled := OtherHandled(e, f, k, FollowUpBegun(k, Some(true), true));
    DeliveriesLead(e, f, k);
    AgainLeads(e, f, k, first);
    AnswersLead(e, f, k, first + [Arrive(e, [k])]);
    LateFollows(e, f, k);
    var steps := first + [Arrive(e, [k])] + [Answer(4, true)] + [RunChain(4)] + [Resume(3)] + [Answer(1, true)]
                 + [RunChain(1)];
    Then(Initial, steps, handled, Resume(1), HandledLate(e, f, k));
    assert steps + [Resume(1)] == AcrossAClear(e, f, k);
    ComesThere(Initial, AcrossAClear(e, f, k), HandledLate(e, f, k));
  }

  /** Two refreshes of one key in flight: a clear forgets the first, and the next delivery starts another. */
  lemma TwoInFlightAfterAClear(e: Event, f: Event, k: Key)
    ensures var steps := [Arrive(e, [k]), Reset, Arrive(f, [k])];
      && Legal(Client(), Initial, steps)
      && Unfinished(After(Client(), Initial, steps).flights, k) == {1, 4}
  {
    hide Legal, After, Comes;
    DeliveriesLead(e, f, k);
    ComesThere(Initial, [Arrive(e, [k]), Reset, Arrive(f, [k])], Another(e, f, k));
    assert Unfinished(TwoFlights(k), k) == {1, 4};
  }

  // ---- within a session ------------------------------------------------------------------------

  // a second event asks for the follow-up of the first one's refresh
  ghost function Second(e: Event, d: Event, k: Key): State {
    State({e, d}, Two([], e, d, k, 0, 2), SecondAsked(k),
          map[1 := Apply(e, k, OfRequest(1), 0), 3 := Apply(d, k, OfFollowUp(2), 2)], 4, map[],
          map[(e, k) := Registration(0, 1, {}), (d, k) := Registration(2, 3, {1})], [])
  }

  ghost function SecondAsked(k: Key): Flights {
    Flights(map[k := Entry(0, 1, Some(2))], map[1 := Request(k, 0, None, false)], map[2 := Waiting(k)], 3, 0)
  }

  // request 1 is answered, and the follow-up begins as request 3
  ghost function SecondBegun(k: Key): Flights {
    Flights(map[k := Entry(0, 3, None)], map[1 := Request(k, 0, Some(true), true), 3 := Request(k, 0, None, false)],
            map[2 := Linked(3)], 4, 0)
  }

  // with a retry for both events
  ghost function Retried(e: Event, d: Event, k: Key, flights: Flights): State {
    State({e, d}, Two([], e, d, k, 0, 2), flights,
          map[1 := Apply(e, k, OfRequest(1), 0), 3 := Apply(d, k, OfFollowUp(2), 2),
              4 := Retry(0, k, OfFollowUp(2), [e, d])],
          5, map[], map[(e, k) := Registration(0, 1, {}), (d, k) := Registration(2, 3, {1})], [])
  }

  // the first event is handled; later events come by
  ghost function FirstHandled(e: Event, d: Event, k: Key, seen: seq<Event>): State {
    Retried(e, d, k, SecondBegun(k)).(
      processing := {d}, index := One(seen, d, k, 0, 2),
      waiters := map[3 := Apply(d, k, OfFollowUp(2), 2), 4 := Retry(0, k, OfFollowUp(2), [e, d])],
      log := [Handled(e, k, ByRequest(1), 0, false, false)])
  }

  // the first event is delivered again, and asks for a follow-up
  ghost function Renewed(e: Event, d: Event, k: Key, seen: seq<Event>, flights: Flights): State {
    State({d, e}, Two(seen, d, e, k, 0, 3), flights,
          map[3 := Apply(d, k, OfFollowUp(2), 2), 4 := Retry(0, k, OfFollowUp(2), [e, d]),
              6 := Apply(e, k, OfFollowUp(4), 5)],
          7, map[], map[(e, k) := Registration(4, 6, {3, 4}), (d, k) := Registration(2, 3, {1})],
          [Handled(e, k, ByRequest(1), 0, false, false)])
  }

  ghost function RenewedAsked(k: Key): Flights {
    SecondBegun(k).(
      entries := map[k := Entry(0, 3, Some(4))], followUps := map[2 := Linked(3), 4 := Waiting(k)], next := 5)
  }

  // request 3 is answered, and the follow-up begins as request 5
  ghost function RenewedBegun(k: Key): Flights {
    Flights(map[k := Entry(0, 5, None)],
            map[1 := Request(k, 0, Some(true), true), 3 := Request(k, 0, Some(true), true),
                5 := Request(k, 0, None, false)],
            map[2 := Linked(3), 4 := Linked(5)], 6, 0)
  }

  // the second event is handled
  ghost function SecondHandled(e: Event, d: Event, k: Key, seen: seq<Event>): State {
    Renewed(e, d, k, seen, RenewedBegun(k)).(
      processing := {e}, index := One(Remember(seen, d), e, k, 0, 3),
      waiters := map[4 := Retry(0, k, OfFollowUp(2), [e, d]), 6 := Apply(e, k, OfFollowUp(4), 5)],
      log := [Handled(e, k, ByRequest(1), 0, false, false), Handled(d, k, ByRequest(3), 2, false, false)])
  }

  lemma SecondFollows(e: Event, d: Event, k: Key)
    requires e != d
    ensures Take(Once(e, k), Arrive(d, [k])) == Second(e, d, k)
  {
    hide Register, Coalesce, Began, Take;
    SecondRegisters([], e, d, k, 0, 1);
    SecondFlies(e, k);
    DeliverOne(Once(e, k), d, k, Two([], e, d, k, 0, 2), SecondAsked(k), OfFollowUp(2), {1});
  }

  lemma SecondFlies(e: Event, k: Key)
    ensures var s := Once(e, k);
      && Coalesce(s.flights, k).0 == SecondAsked(k) && Coalesce(s.flights, k).1 == OfFollowUp(2)
      && forall w :: w in {1} <==> w in s.waiters && Began(s.flights, s.waiters[w].promise)
  {
  }

  lemma RetriedFollows(e: Event, d: Event, k: Key)
    requires e != d
    ensures Enabled(Second(e, d, k), Reconnect(k))
    ensures Take(Second(e, d, k), Reconnect(k)) == Retried(e, d, k, SecondAsked(k))
  {
  }

  lemma SecondBegins(k: Key)
    ensures Chain(Settle(SecondAsked(k), 1, true), 1) == SecondBegun(k)
  {
    var t, u := Chain(Settle(SecondAsked(k), 1, true), 1), SecondBegun(k);
    assert t.requests == u.requests;
    assert t.entries == u.entries && t.followUps == u.followUps;
  }

  lemma RenewedBegins(k: Key)
    ensures Chain(Settle(RenewedAsked(k), 3, true), 3) == RenewedBegun(k)
  {
    var t, u := Chain(Settle(RenewedAsked(k), 3, true), 3), RenewedBegun(k);
    assert t.requests == u.requests;
    assert t.entries == u.entries && t.followUps == u.followUps;
  }

  lemma FirstAnswered(k: Key)
    ensures Value(SecondBegun(k), OfRequest(1)) == Some(true) && CauseOf(SecondBegun(k), OfRequest(1)) == ByRequest(1)
  {
  }

  lemma FirstHandledFollows(e: Event, d: Event, k: Key)
    requires e != d
    ensures var s := Retried(e, d, k, SecondBegun(k));
      Enabled(s, Resume(1)) && Take(s, Resume(1)) == FirstHandled(e, d, k, [e])
  {
    hide Reconcile, Value, CauseOf, Enabled;
    FirstReconciles([], e, d, k, 0, 2);
    FirstAnswered(k);
    var s, t := Retried(e, d, k, SecondBegun(k)), FirstHandled(e, d, k, [e]);
    assert Remember([], e) == [e];
    ResumeOne(s, 1, One([e], d, k, 0, 2));
    assert s.waiters - {1} == t.waiters;
  }

  lemma RenewedFollows(e: Event, d: Event, k: Key, seen: seq<Event>)
    requires e != d && e !in seen
    ensures Take(FirstHandled(e, d, k, seen), Arrive(e, [k])) == Renewed(e, d, k, seen, RenewedAsked(k))
  {
    hide Register, Coalesce, Began, Take;
    SecondRegisters(seen, d, e, k, 0, 2);
    RenewedFlies(e, d, k, seen);
    DeliverOne(FirstHandled(e, d, k, seen), e, k, Two(seen, d, e, k, 0, 3), RenewedAsked(k), OfFollowUp(4), {3, 4});
  }

  lemma RenewedFlies(e: Event, d: Event, k: Key, seen: seq<Event>)
    ensures Coalesce(SecondBegun(k), k).0 == RenewedAsked(k) && Coalesce(SecondBegun(k), k).1 == OfFollowUp(4)
    ensures var s := FirstHandled(e, d, k, seen);
      forall w :: w in {3, 4} <==> w in s.waiters && Began(s.flights, s.waiters[w].promise)
  {
  }

  lemma ThirdAnswered(k: Key)
    ensures Value(RenewedBegun(k), OfFollowUp(2)) == Some(true)
    ensures CauseOf(RenewedBegun(k), OfFollowUp(2)) == ByRequest(3)
  {
  }

  lemma SecondHandledFollows(e: Event, d: Event, k: Key, seen: seq<Event>)
    requires e != d && d !in seen
    ensures var s := Renewed(e, d, k, seen, RenewedBegun(k));
      Enabled(s, Resume(3)) && Take(s, Resume(3)) == SecondHandled(e, d, k, seen)
  {
    hide Reconcile, Remember, Value, CauseOf, Enabled;
    FirstReconciles(seen, d, e, k, 0, 3);
    ThirdAnswered(k);
    var s, t := Renewed(e, d, k, seen, RenewedBegun(k)), SecondHandled(e, d, k, seen);
    ResumeOne(s, 3, One(Remember(seen, d), e, k, 0, 3));
    assert s.waiters - {3} == t.waiters;
    assert s.log + [Handled(d, k, ByRequest(3), 2, false, false)] == t.log;
  }

  /** The old retry still names both events, and reconciles the first by its old read. */
  lemma LateRetry(e: Event, d: Event, k: Key, seen: seq<Event>)
    requires e != d && e !in seen
    ensures var s := SecondHandled(e, d, k, seen);
      && Enabled(s, Resume(4))
      && var t := Take(s, Resume(4));
      && t.flights == s.flights && t.index.pending == map[]
      && t.log == s.log + [Handled(e, k, ByRequest(3), 4, true, true)]
  {
    hide Reconcile, Remember, HandleAll;
    var s := SecondHandled(e, d, k, seen);
    var t := s.(waiters := s.waiters - {4}, index := ResetRetries(s.index, k));
    assert ResetRetries(s.index, k) == s.index;
    NotSeen(e, d, seen);
    LastReconciles(Remember(seen, d), e, k, 0, 3);
    OnlyFirst(t, e, d, k, ByRequest(3), 4);
  }

  lemma NotSeen(e: Event, d: Event, seen: seq<Event>)
    requires e != d && e !in seen
    ensures e !in Remember(seen, d)
  {
  }

  lemma OnlyFirst(t: State, e: Event, d: Event, k: Key, cause: Cause, w: nat)
    requires Pending(t.index, e, k) && Reconcile(t.index, e, k).pending == map[]
    ensures var u := HandleAll(t, [e, d], k, cause, Some(w));
      u.flights == t.flights && u.log == t.log + [Logged(t, e, k, cause, Some(w))] && u.index.pending == map[]
  {
    var u := Handle(t, e, k, cause, Some(w));
    var v := Handle(u, d, k, cause, Some(w));
    assert v == u;
    assert [e, d][1..] == [d] && [d][1..] == [];
    assert HandleAll(v, [], k, cause, Some(w)) == v;
    assert HandleAll(u, [d], k, cause, Some(w)) == v;
  }

  /** Events of no projection on screen arrive, and are remembered. */
  ghost function Arrivals(events: seq<Event>): seq<Step> {
    seq(|events|, i requires 0 <= i < |events| => Arrive(events[i], []))
  }

  lemma {:induction false} ArrivalsLead(s: State, events: seq<Event>)
    requires Distinct(events)
    requires forall x :: x in events ==> x !in s.index.seen && x !in s.processing && x !in s.index.pending
    ensures Comes(s, Arrivals(events), s.(index := s.index.(seen := RememberAll(s.index.seen, events))))
    decreases |events|
  {
    if events != [] {
      var x := events[0];
      var t := s.(index := s.index.(seen := Remember(s.index.seen, x)));
      DistinctHead(events);
      assert forall y :: y in events[1..] ==> y in events && y != x;
      ArrivalsLead(t, events[1..]);
      Begins(s, Arrive(x, []), t);
      Joins(s, [Arrive(x, [])], t, Arrivals(events[1..]),
            t.(index := t.index.(seen := RememberAll(t.index.seen, events[1..]))));
      assert [Arrive(x, [])] + Arrivals(events[1..]) == Arrivals(events);
    }
  }

  /** Distinct events. */
  function Named(n: nat): Event {
    Event(seq(n, _ => 'x'))
  }

  ghost function Others(): seq<Event> {
    seq(SeenLimit, i requires 0 <= i => Named(i + 2))
  }

  lemma OthersDiffer()
    ensures Distinct(Others()) && Named(0) !in Others() && Named(1) !in Others() && Named(0) != Named(1)
  {
    var all := Others();
    assert forall i, j :: 0 <= i < j < |all| ==> |all[i].id| < |all[j].id|;
    assert |Named(0).id| == 0 && |Named(1).id| == 1;
    forall i | 0 <= i < |all| ensures all[i] != Named(0) && all[i] != Named(1) {
      assert |all[i].id| == i + 2;
    }
  }

  lemma OthersCrowdOut(e: Event, d: Event, k: Key)
    requires e !in Others() && d !in Others()
    ensures var s := FirstHandled(e, d, k, [e]); var seen := RememberAll([e], Others());
      && e !in seen && d !in seen
      && forall x :: x in Others() ==> x !in s.index.seen && x !in s.processing && x !in s.index.pending
  {
    assert Remember([], e) == [e];
    RememberedForAHundred([], e, Others());
    RememberAllKeepsTheLatest([e], Others());
  }

  ghost function Opening(e: Event, d: Event, k: Key): seq<Step> {
    [Arrive(e, [k]), Arrive(d, [k]), Reconnect(k), Answer(1, true), RunChain(1), Resume(1)]
  }

  ghost function Ending(e: Event, k: Key): seq<Step> {
    [Arrive(e, [k]), Answer(3, true), RunChain(3), Resume(3), Resume(4)]
  }

  lemma OpeningLeads(e: Event, d: Event, k: Key)
    requires e != d
    ensures Comes(Initial, Opening(e, d, k), FirstHandled(e, d, k, [e]))
  {
    hide Comes, Take, Once, Second, FirstHandled, Chain, Settle;
    OnceFollows(e, k);
    SecondFollows(e, d, k);
    RetriedFollows(e, d, k);
    SecondBegins(k);
    FirstHandledFollows(e, d, k);
    Begins(Initial, Arrive(e, [k]), Once(e, k));
    Then(Initial, [Arrive(e, [k])], Once(e, k), Arrive(d, [k]), Second(e, d, k));
    var two := [Arrive(e, [k])] + [Arrive(d, [k])];
    Then(Initial, two, Second(e, d, k), Reconnect(k), Retried(e, d, k, SecondAsked(k)));
    Succeeds(Initial, two + [Reconnect(k)], Retried(e, d, k, SecondAsked(k)), 1, SecondBegun(k));
    var five := two + [Reconnect(k)] + [Answer(1, true)] + [RunChain(1)];
    Then(Initial, five, Retried(e, d, k, SecondBegun(k)), Resume(1), FirstHandled(e, d, k, [e]));
    assert five + [Resume(1)] == Opening(e, d, k);
  }

  lemma EndingLeads(e: Event, d: Event, k: Key, seen: seq<Event>)
    requires e != d && e !in seen && d !in seen
    ensures Enabled(SecondHandled(e, d, k, seen), Resume(4))
    ensures Comes(FirstHandled(e, d, k, seen), Ending(e, k), Take(SecondHandled(e, d, k, seen), Resume(4)))
  {
    hide Comes, Take, FirstHandled, SecondHandled, Chain, Settle;
    RenewedFollows(e, d, k, seen);
    RenewedBegins(k);
    SecondHandledFollows(e, d, k, seen);
    LateRetry(e, d, k, seen);
    var s := FirstHandled(e, d, k, seen);
    Begins(s, Arrive(e, [k]), Renewed(e, d, k, seen, RenewedAsked(k)));
    Succeeds(s, [Arrive(e, [k])], Renewed(e, d, k, seen, RenewedAsked(k)), 3, RenewedBegun(k));
    var three := [Arrive(e, [k])] + [Answer(3, true)] + [RunChain(3)];
    Then(s, three, Renewed(e, d, k, seen, RenewedBegun(k)), Resume(3), SecondHandled(e, d, k, seen));
    var handled := SecondHandled(e, d, k, seen);
    Then(s, three + [Resume(3)], handled, Resume(4), Take(handled, Resume(4)));
    assert three + [Resume(3)] + [Resume(4)] == Ending(e, k);
  }

  /** Another failing case, without a clear: a retry is suspended on a refresh for two events; the first is
      handled meanwhile and, two hundred events later, no longer known; its new delivery registers it again
      after the retry's refresh began; and the retry marks it handled by that older read. */
  lemma LateRetryHandlesANewerDelivery(k: Key)
    ensures var e, d := Named(0), Named(1);
      var steps := Opening(e, d, k) + Arrivals(Others()) + Ending(e, k);
      var s := After(Client(), Initial, steps);
      && Legal(Client(), Initial, steps) && Reset !in steps
      && s.index.pending == map[]
      && s.flights.followUps == map[2 := Linked(3), 4 := Linked(5)] && Outcome(s.flights, 5) == None
      && s.log == [Handled(e, k, ByRequest(1), 0, false, false), Handled(d, k, ByRequest(3), 2, false, false),
                   Handled(e, k, ByRequest(3), 4, true, true)]
      && !Justified(s.flights, s.log[2])
  {
    hide Comes, Legal, After, RememberAll, Named, Others, Justified, Enabled, Take;
    var e, d := Named(0), Named(1);
    var seen := RememberAll([e], Others());
    var s, t := FirstHandled(e, d, k, [e]), FirstHandled(e, d, k, seen);
    OthersDiffer();
    OthersCrowdOut(e, d, k);
    OpeningLeads(e, d, k);
    ArrivalsLead(s, Others());
    EndingLeads(e, d, k, seen);
    LateRetry(e, d, k, seen);
    var u := Take(SecondHandled(e, d, k, seen), Resume(4));
    Joins(Initial, Opening(e, d, k), s, Arrivals(Others()), t);
    Joins(Initial, Opening(e, d, k) + Arrivals(Others()), t, Ending(e, k), u);
    ComesThere(Initial, Opening(e, d, k) + Arrivals(Others()) + Ending(e, k), u);
    TooOld(u.flights, e, k);
  }

  lemma TooOld(f: Flights, e: Event, k: Key)
    ensures !Justified(f, Handled(e, k, ByRequest(3), 4, true, true))
  {
  }
}
