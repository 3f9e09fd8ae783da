/** The two-way index between server events and the projections they invalidate, as a value. */
module ProjectionIndex {
  import opened Sequences
  import opened CoalescedRefresh

  datatype Event = Event(id: string)

  /** `id` stands for the identity of the JavaScript object. */
  datatype Projection = Projection(id: nat, events: seq<Event>, retries: nat, timer: bool)

  datatype Index = Index(
    seen: seq<Event>, pending: map<Event, set<Key>>, projections: map<Key, Projection>, next: nat)

  const NoIndex := Index([], map[], map[], 0)

  const SeenLimit := 200
  const SeenKept := 100

  function Remember(seen: seq<Event>, e: Event): seq<Event> {
    var longer := seen + [e];
    if |longer| > SeenLimit then longer[|longer| - SeenKept..] else longer
  }

  function RememberAll(seen: seq<Event>, events: seq<Event>): seq<Event>
    decreases |events|
  {
    if events == [] then seen else RememberAll(Remember(seen, events[0]), events[1..])
  }

  ghost predicate Suffix(r: seq<Event>, all: seq<Event>) {
    |r| <= |all| && r == all[|all| - |r|..]
  }

  lemma SuffixChains(all: seq<Event>, e: Event, seen: seq<Event>, part: seq<Event>, events: seq<Event>, r: seq<Event>)
    requires Suffix(part, seen + [e]) && events != [] && events[0] == e && Suffix(r, part + events[1..])
    requires all == seen + events
    ensures Suffix(r, all)
  {
    assert all == (seen + [e]) + events[1..];
    assert (seen + [e])[|seen| + 1 - |part|..] + events[1..] == all[|all| - |part + events[1..]|..];
  }

  lemma {:induction false} RememberAllKeepsTheLatest(seen: seq<Event>, events: seq<Event>)
    requires |seen| <= SeenLimit
    ensures var r, all := RememberAll(seen, events), seen + events;
      && |r| <= SeenLimit && (|all| <= |r| || SeenKept <= |r|) && Suffix(r, all)
    decreases |events|
  {
    hide Remember, Suffix;
    if events == [] {
      assert seen + events == seen;
      NothingLost(seen);
    } else {
      var next := Remember(seen, events[0]);
      RememberKeepsTheEnd(seen, events[0]);
      RememberAllKeepsTheLatest(next, events[1..]);
      SuffixChains(seen + events, events[0], seen, next, events, RememberAll(seen, events));
    }
  }

  lemma NothingLost(seen: seq<Event>)
    ensures Suffix(seen, seen)
  {
  }

  lemma RememberKeepsTheEnd(seen: seq<Event>, e: Event)
    ensures var r, all := Remember(seen, e), seen + [e];
      Suffix(r, all) && (|r| == |all| || |r| == SeenKept) && (|seen| <= SeenLimit ==> |r| <= SeenLimit)
  {
  }

  lemma NewestIsLast(seen: seq<Event>, e: Event)
    requires |seen| <= SeenLimit
    ensures var r := Remember(seen, e); 0 < |r| <= SeenLimit && r[|r| - 1] == e
  {
  }

  /** The list grows to two hundred events; one more, and the last hundred stay. */
  lemma TheLastHundredStay(seen: seq<Event>, e: Event)
    requires |seen| <= 200
    ensures var r, all := Remember(seen, e), seen + [e];
      if |seen| < 200 then r == all else |r| == 100 && r == all[101..]
  {
  }

  /** An event that has been remembered is known for the next 99 events, and forgotten after 200 others. */
  lemma RememberedForAHundred(seen: seq<Event>, e: Event, later: seq<Event>)
    requires |seen| <= 200
    ensures |later| < 100 ==> e in RememberAll(Remember(seen, e), later)
    ensures 200 <= |later| && e !in later ==> e !in RememberAll(Remember(seen, e), later)
  {
    hide Remember, RememberAll, Suffix;
    NewestIsLast(seen, e);
    RememberAllKeepsTheLatest(Remember(seen, e), later);
    EndOf(Remember(seen, e), e, later, RememberAll(Remember(seen, e), later));
  }

  lemma EndOf(first: seq<Event>, e: Event, later: seq<Event>, r: seq<Event>)
    requires first != [] && first[|first| - 1] == e && Suffix(r, first + later)
    requires |r| <= SeenLimit && (|first| + |later| <= |r| || SeenKept <= |r|)
    ensures |later| < SeenKept ==> e in r
    ensures SeenLimit <= |later| && e !in later ==> e !in r
  {
    hide Suffix;
    if |later| < SeenKept {
      SuffixAt(first, later, r, |r| - 1 - |later|);
    }
    if SeenLimit <= |later| {
      forall i | 0 <= i < |r| ensures r[i] in later { SuffixAt(first, later, r, i); }
    }
  }

  lemma SuffixAt(first: seq<Event>, later: seq<Event>, r: seq<Event>, i: int)
    requires Suffix(r, first + later) && 0 <= i < |r|
    ensures var j := |first| + |later| - |r| + i;
      0 <= j && r[i] == if j < |first| then first[j] else later[j - |first|]
  {
  }

  predicate Pending(s: Index, e: Event, key: Key) {
    e in s.pending && key in s.pending[e]
  }

  predicate Waits(s: Index, e: Event, key: Key) {
    key in s.projections && e in s.projections[key].events
  }

  function Register(s: Index, e: Event, key: Key): Index {
    var keys := (if e in s.pending then s.pending[e] else {}) + {key};
    var known := if key in s.projections then s.projections[key] else Projection(s.next, [], 0, false);
    s.(pending := s.pending[e := keys],
       projections := s.projections[key :=
         known.(events := if e in known.events then known.events else known.events + [e])],
       next := s.next + 1)
  }

  function Reconcile(s: Index, e: Event, key: Key): Index {
    if !Pending(s, e, key) then s else
    var keys := s.pending[e] - {key};
    var rest := if key in s.projections then Without(s.projections[key].events, e) else [];
    s.(projections :=
         if key !in s.projections then s.projections
         else if rest == [] then s.projections - {key}
         else s.projections[key := s.projections[key].(events := rest)],
       pending := if keys == {} then s.pending - {e} else s.pending[e := keys],
       seen := if keys == {} && e !in s.seen then Remember(s.seen, e) else s.seen)
  }

  function SetTimer(s: Index, key: Key, timer: bool): Index
    requires key in s.projections
  {
    s.(projections := s.projections[key := s.projections[key].(timer := timer)])
  }

  /** Arm the retry timer of a key that still has waiting events. */
  function Schedule(s: Index, key: Key): Index {
    if key !in s.projections || s.projections[key].timer then s else
    s.(projections := s.projections[key :=
         s.projections[key].(timer := true, retries := s.projections[key].retries + 1)])
  }

  function ResetRetries(s: Index, key: Key): Index
    requires key in s.projections
  {
    s.(projections := s.projections[key := s.projections[key].(retries := 0)])
  }

  // ---- agreement -------------------------------------------------------------------------------

  /** A key is pending for an event exactly when the event waits in the key's projection; and neither side
      holds an empty entry. */
  ghost predicate Indexed(s: Index) {
    && (forall e, k :: Pending(s, e, k) <==> Waits(s, e, k))
    && (forall e :: e in s.pending ==> s.pending[e] != {})
    && (forall k :: k in s.projections ==> s.projections[k].events != [] && Distinct(s.projections[k].events))
    && (forall k :: k in s.projections ==> s.projections[k].id < s.next)
  }

  lemma RegisterKeeps(s: Index, e: Event, key: Key)
    requires Indexed(s)
    ensures var t := Register(s, e, key);
      && Indexed(t) && key in t.projections
      && (forall d, k :: Waits(t, d, k) <==> Waits(s, d, k) || (d == e && k == key))
      && (forall k :: k in s.projections ==>
            t.projections[k].id == s.projections[k].id && t.projections[k].timer == s.projections[k].timer)
      && (key !in s.projections ==> t.projections[key].id == s.next && !t.projections[key].timer)
  {
    var t := Register(s, e, key);
    if key in s.projections && e !in s.projections[key].events {
      assert t.projections[key].events == s.projections[key].events + [e];
    }
    forall d, k ensures Waits(t, d, k) <==> Waits(s, d, k) || (d == e && k == key) {
    }
    forall d, k ensures Pending(t, d, k) <==> Pending(s, d, k) || (d == e && k == key) {
    }
  }

  lemma ReconcileKeeps(s: Index, e: Event, key: Key)
    requires Indexed(s)
    ensures var t := Reconcile(s, e, key);
      && Indexed(t) && t.next == s.next
      && (forall d, k :: Waits(t, d, k) <==> Waits(s, d, k) && !(d == e && k == key))
      && (forall k :: k in t.projections ==> k in s.projections)
      && (forall k :: k in t.projections ==>
            t.projections[k].id == s.projections[k].id && t.projections[k].timer == s.projections[k].timer)
  {
    if Pending(s, e, key) {
      var t := Reconcile(s, e, key);
      assert Waits(s, e, key);
      WithoutKeepsDistinct(s.projections[key].events, e);
      forall d, k ensures Waits(t, d, k) <==> Waits(s, d, k) && !(d == e && k == key) {
        if k == key && Without(s.projections[key].events, e) == [] {
          assert forall x :: x in s.projections[key].events ==> x == e || x in Without(s.projections[key].events, e);
        }
      }
      forall d, k ensures Pending(t, d, k) <==> (Pending(s, d, k) && !(d == e && k == key)) {
      }
    }
  }

  /** Nothing to do for a pair that is not pending, even when the event is pending for other keys. */
  lemma ReconcileSkips(s: Index, e: Event, key: Key)
    requires Indexed(s) && e in s.pending && !Pending(s, e, key)
    ensures s.pending[e] - {key} == s.pending[e] != {}
    ensures key in s.projections ==> Without(s.projections[key].events, e) == s.projections[key].events != []
  {
    assert !Waits(s, e, key);
  }

  lemma ResetRetriesKeeps(s: Index, key: Key)
    requires Indexed(s) && key in s.projections
    ensures Indexed(ResetRetries(s, key))
  {
    var t := ResetRetries(s, key);
    assert forall e, k :: Waits(t, e, k) == Waits(s, e, k) && Pending(t, e, k) == Pending(s, e, k);
  }

  /** An event leaves the pending table, into the list of seen events, with its last key. */
  lemma ReconcileRemembers(s: Index, e: Event, key: Key)
    requires Indexed(s) && Pending(s, e, key)
    ensures var t := Reconcile(s, e, key);
      && (e in t.pending <==> s.pending[e] != {key})
      && (e !in t.pending ==> e in t.seen)
      && forall d :: d != e ==> (d in t.pending <==> d in s.pending)
  {
    if s.pending[e] - {key} == {} {
      assert s.pending[e] == {key};
      var longer := s.seen + [e];
      assert longer[|longer| - 1] == e;
      if e !in s.seen && |longer| > SeenLimit {
        assert Remember(s.seen, e)[SeenKept - 1] == e;
      }
    }
  }
}
