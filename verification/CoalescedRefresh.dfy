/**
 Single-flight refreshes with one follow-up per key, as a value.

 Identities come from one growing counter, so that comparing a request with the counter's value at some
 moment tells whether the refresh began before that moment or not.
 */
module CoalescedRefresh {
  import opened Sequences

  datatype Key = Key(name: string)

  /** One refresh; `entry` is the coalescing entry it was started for. */
  datatype Request = Request(key: Key, entry: nat, outcome: Option<bool>, chained: bool)

  /** A follow-up promise waits for its refresh to start, follows it, or was released early. */
  datatype Source = Waiting(key: Key) | Linked(request: nat) | Released(at: nat, value: bool)

  datatype Promise = Immediate | OfRequest(request: nat) | OfFollowUp(followUp: nat)

  datatype Entry = Entry(id: nat, inFlight: nat, followUp: Option<nat>)

  /** `cleared` is the next identity when everything was last cleared. */
  datatype Flights = Flights(
    entries: map<Key, Entry>, requests: map<nat, Request>, followUps: map<nat, Source>, next: nat, cleared: nat)

  const NoFlights := Flights(map[], map[], map[], 0, 0)

  function Start(s: Flights, key: Key, entry: nat): Flights {
    s.(requests := s.requests[s.next := Request(key, entry, None, false)],
       entries := s.entries[key := Entry(entry, s.next, None)],
       next := s.next + 1)
  }

  /** Join the follow-up of the refresh in flight, or start a refresh. */
  function Coalesce(s: Flights, key: Key): (Flights, Promise) {
    if key in s.entries then
      match s.entries[key].followUp
      case Some(f) => (s, OfFollowUp(f))
      case None =>
        (s.(followUps := s.followUps[s.next := Waiting(key)],
            entries := s.entries[key := s.entries[key].(followUp := Some(s.next))],
            next := s.next + 1), OfFollowUp(s.next))
    else
      (Start(s.(next := s.next + 1), key, s.next), OfRequest(s.next + 1))
  }

  function Settle(s: Flights, r: nat, ok: bool): Flights
    requires r in s.requests
  {
    s.(requests := s.requests[r := s.requests[r].(outcome := Some(ok))])
  }

  function Chained(s: Flights, r: nat): Flights
    requires r in s.requests
  {
    s.(requests := s.requests[r := s.requests[r].(chained := true)])
  }

  predicate InFlight(s: Flights, r: nat)
    requires r in s.requests
  {
    s.requests[r].key in s.entries && s.entries[s.requests[r].key].inFlight == r
  }

  /** The entry the request was started for is still its key's, and still waits for it. */
  predicate Current(s: Flights, r: nat)
    requires r in s.requests
  {
    InFlight(s, r) && s.entries[s.requests[r].key].id == s.requests[r].entry
  }

  /** The callback that runs once a request has settled: start the follow-up, or forget the entry. */
  function Chain(s: Flights, r: nat): Flights
    requires r in s.requests
  {
    if !Current(s, r) then Chained(s, r) else
    var key := s.requests[r].key;
    match s.entries[key].followUp
    case None => Chained(s, r).(entries := s.entries - {key})
    case Some(f) => Start(Chained(s, r), key, s.requests[r].entry).(followUps := s.followUps[f := Linked(s.next)])
  }

  /** Giving a key up answers those who wait for its follow-up. */
  function Release(s: Flights, key: Key): Flights {
    if key in s.entries && s.entries[key].followUp.Some? then
      s.(followUps := s.followUps[s.entries[key].followUp.value := Released(s.next, true)],
         entries := s.entries[key := s.entries[key].(followUp := None)],
         next := s.next + 1)
    else s
  }

  /** Forget every entry; a follow-up nobody will start any more is answered with failure. */
  function ReleaseAll(s: Flights): Flights {
    Flights(map[], s.requests,
            map f | f in s.followUps :: if HeldBy(s, f) then Released(s.next, false) else s.followUps[f],
            s.next + 1, s.next + 1)
  }

  predicate HeldBy(s: Flights, f: nat) {
    exists k :: k in s.entries && s.entries[k].followUp == Some(f)
  }

  /** What an awaited promise has settled to, if it has. */
  function Value(s: Flights, p: Promise): Option<bool> {
    match p
    case Immediate => None
    case OfRequest(r) => Outcome(s, r)
    case OfFollowUp(f) =>
      if f !in s.followUps then None else
      match s.followUps[f]
      case Waiting(_) => None
      case Linked(r) => Outcome(s, r)
      case Released(_, value) => Some(value)
  }

  function Outcome(s: Flights, r: nat): Option<bool> {
    if r in s.requests then s.requests[r].outcome else None
  }

  // ---- what the steps keep ---------------------------------------------------------------------

  /** One refresh in flight for each entry, and since the last clear none without an entry. */
  ghost predicate SingleFlight(s: Flights) {
    && s.cleared <= s.next
    && (forall r :: r in s.requests ==>
          s.requests[r].entry < r < s.next && (s.requests[r].chained ==> s.requests[r].outcome.Some?))
    && (forall k :: k in s.entries ==> s.cleared <= s.entries[k].id && Flying(s, k))
    && (forall r :: r in s.requests && !s.requests[r].chained && s.cleared <= r ==> InFlight(s, r))
  }

  ghost predicate Flying(s: Flights, k: Key)
    requires k in s.entries
  {
    var r := s.entries[k].inFlight;
    r in s.requests && s.requests[r].key == k && s.requests[r].entry == s.entries[k].id && !s.requests[r].chained
  }

  /** A follow-up that has not settled belongs to its key's entry, which has a refresh in flight; one
      that follows a refresh follows one of a known request. */
  ghost predicate FollowUpsHeld(s: Flights) {
    && (forall k :: k in s.entries && s.entries[k].followUp.Some? ==>
          s.entries[k].followUp.value in s.followUps && s.followUps[s.entries[k].followUp.value] == Waiting(k))
    && (forall f :: f in s.followUps ==> f < s.next && (s.followUps[f].Released? ==> s.followUps[f].at < s.next))
    && (forall f :: f in s.followUps && s.followUps[f].Waiting? ==>
          s.followUps[f].key in s.entries && s.entries[s.followUps[f].key].followUp == Some(f))
  }

  ghost predicate Tables(s: Flights) {
    SingleFlight(s) && FollowUpsHeld(s)
  }

  /** A promise a continuation for `k` may await. */
  ghost predicate Awaitable(s: Flights, p: Promise, k: Key) {
    match p
    case Immediate => true
    case OfRequest(r) => r in s.requests && s.requests[r].key == k
    case OfFollowUp(f) =>
      f in s.followUps &&
      match s.followUps[f]
      case Waiting(j) => j == k
      case Linked(r) => r in s.requests && s.requests[r].key == k
      case Released(_, _) => true
  }

  /** Whatever the promise settles to comes from something that began at or after `mark`. */
  ghost predicate Since(s: Flights, p: Promise, mark: nat) {
    match p
    case Immediate => true
    case OfRequest(r) => mark <= r
    case OfFollowUp(f) =>
      f in s.followUps &&
      match s.followUps[f]
      case Waiting(_) => true
      case Linked(r) => mark <= r
      case Released(at, _) => mark <= at
  }

  /** The promise was released, or its refresh began, before `mark`. */
  ghost predicate Before(s: Flights, p: Promise, mark: nat) {
    match p
    case Immediate => true
    case OfRequest(r) => r < mark
    case OfFollowUp(f) =>
      f in s.followUps &&
      match s.followUps[f]
      case Waiting(_) => false
      case Linked(r) => r < mark
      case Released(at, _) => at < mark
  }

  /** The promise follows a refresh that has begun, or was released. */
  ghost predicate Began(s: Flights, p: Promise) {
    match p
    case Immediate => false
    case OfRequest(_) => true
    case OfFollowUp(f) => f in s.followUps && !s.followUps[f].Waiting?
  }

  lemma BeganIsBefore(s: Flights, p: Promise, k: Key, mark: nat)
    requires Tables(s) && Awaitable(s, p, k)
    ensures if Began(s, p) then Before(s, p, s.next) else Since(s, p, mark)
  {
  }

  /** What a promise stands for only becomes more certain, and settled requests stay as they are. */
  ghost predicate Keeps(s: Flights, t: Flights) {
    && s.next <= t.next
    && (forall p, k :: Awaitable(s, p, k) ==> Awaitable(t, p, k))
    && (forall p, m: nat :: m <= s.next && Since(s, p, m) ==> Since(t, p, m))
    && (forall p, m: nat :: Before(s, p, m) ==> Before(t, p, m))
    && (forall r :: r in s.requests && s.requests[r].outcome.Some? ==>
          r in t.requests && t.requests[r].key == s.requests[r].key && t.requests[r].outcome == s.requests[r].outcome)
  }

  lemma StartKeeps(s: Flights, key: Key, entry: nat)
    requires FollowUpsHeld(s) && SingleFlight(s) && s.cleared <= entry < s.next
    requires key in s.entries ==> s.entries[key].followUp == None
    requires forall r :: r in s.requests && s.requests[r].key == key && s.cleared <= r ==> s.requests[r].chained
    ensures Tables(Start(s, key, entry)) && Keeps(s, Start(s, key, entry))
  {
    hide SingleFlight, FollowUpsHeld, Keeps, Start;
    StartKeepsFlights(s, key, entry);
    StartKeepsFollowUps(s, key, entry);
    StartKeepsPromises(s, key, entry);
  }

  lemma StartKeepsFlights(s: Flights, key: Key, entry: nat)
    requires SingleFlight(s) && s.cleared <= entry < s.next
    requires forall r :: r in s.requests && s.requests[r].key == key && s.cleared <= r ==> s.requests[r].chained
    ensures SingleFlight(Start(s, key, entry))
  {
  }

  lemma StartKeepsFollowUps(s: Flights, key: Key, entry: nat)
    requires FollowUpsHeld(s)
    requires key in s.entries ==> s.entries[key].followUp == None
    ensures FollowUpsHeld(Start(s, key, entry))
  {
  }

  lemma StartKeepsPromises(s: Flights, key: Key, entry: nat)
    requires SingleFlight(s)
    ensures Keeps(s, Start(s, key, entry))
  {
  }

  /** The promise a caller gets: it can be awaited for the key, and settles to nothing older than `mark`. */
  ghost predicate Serves(s: Flights, p: Promise, key: Key, mark: nat) {
    !p.Immediate? && Awaitable(s, p, key) && Since(s, p, mark)
  }

  lemma CoalesceKeeps(s: Flights, key: Key)
    requires Tables(s)
    ensures var (t, p) := Coalesce(s, key);
      && Tables(t) && Keeps(s, t)
      && !p.Immediate? && Awaitable(t, p, key) && Since(t, p, s.next)
  {
    hide Tables, Keeps, Awaitable, Since;
    if key !in s.entries { CoalesceStarts(s, key); }
    else if s.entries[key].followUp.None? { CoalesceAsks(s, key); }
    else { CoalesceJoins(s, key); }
    assert Serves(Coalesce(s, key).0, Coalesce(s, key).1, key, s.next);
  }

  lemma CoalesceStarts(s: Flights, key: Key)
    requires Tables(s) && key !in s.entries
    ensures var (t, p) := Coalesce(s, key); Tables(t) && Keeps(s, t) && Serves(t, p, key, s.next)
  {
    hide Tables, Keeps, SingleFlight, FollowUpsHeld;
    var u := s.(next := s.next + 1);
    NextKeeps(s);
    NothingFlies(s, key);
    StartKeeps(u, key, s.next);
    KeepsChains(s, u, Start(u, key, s.next));
  }

  lemma NextKeeps(s: Flights)
    requires Tables(s)
    ensures var u := s.(next := s.next + 1); SingleFlight(u) && FollowUpsHeld(u) && Keeps(s, u)
  {
  }

  lemma NothingFlies(s: Flights, key: Key)
    requires Tables(s) && key !in s.entries
    ensures s.cleared <= s.next
    ensures forall r :: r in s.requests && s.requests[r].key == key && s.cleared <= r ==> s.requests[r].chained
  {
  }

  lemma KeepsChains(s: Flights, t: Flights, u: Flights)
    requires Keeps(s, t) && Keeps(t, u)
    ensures Keeps(s, u)
  {
    hide Awaitable, Since, Before;
  }

  lemma CoalesceAsks(s: Flights, key: Key)
    requires Tables(s) && key in s.entries && s.entries[key].followUp.None?
    ensures var (t, p) := Coalesce(s, key); Tables(t) && Keeps(s, t) && Serves(t, p, key, s.next)
  {
    hide Tables, Keeps, Serves, Coalesce;
    AsksKeepsTables(s, key);
    AsksKeepsPromises(s, key);
  }

  lemma AsksKeepsTables(s: Flights, key: Key)
    requires Tables(s) && key in s.entries && s.entries[key].followUp.None?
    ensures var (t, p) := Coalesce(s, key); Tables(t) && Serves(t, p, key, s.next)
  {
  }

  lemma AsksKeepsPromises(s: Flights, key: Key)
    requires Tables(s) && key in s.entries && s.entries[key].followUp.None?
    ensures Keeps(s, Coalesce(s, key).0)
  {
    hide SingleFlight;
  }

  lemma CoalesceJoins(s: Flights, key: Key)
    requires Tables(s) && key in s.entries && s.entries[key].followUp.Some?
    ensures var (t, p) := Coalesce(s, key); Tables(t) && Keeps(s, t) && Serves(t, p, key, s.next)
  {
  }

  lemma SettleKeeps(s: Flights, r: nat, ok: bool)
    requires Tables(s) && r in s.requests && s.requests[r].outcome.None?
    ensures Tables(Settle(s, r, ok)) && Keeps(s, Settle(s, r, ok))
  {
  }

  lemma ChainKeepsFlights(s: Flights, r: nat)
    requires Tables(s) && Outcome(s, r).Some?
    ensures SingleFlight(Chain(s, r))
  {
    hide SingleFlight, FollowUpsHeld;
    if !Current(s, r) {
      OutlivedChains(s, r);
    } else if s.entries[s.requests[r].key].followUp.None? {
      LastChains(s, r);
    } else {
      NextFlies(s, r);
      Unread(Start(Chained(s, r), s.requests[r].key, s.requests[r].entry), Chain(s, r));
    }
  }

  lemma OutlivedChains(s: Flights, r: nat)
    requires SingleFlight(s) && Outcome(s, r).Some? && !Current(s, r)
    ensures SingleFlight(Chained(s, r))
  {
  }

  lemma LastChains(s: Flights, r: nat)
    requires SingleFlight(s) && Outcome(s, r).Some? && Current(s, r)
    ensures SingleFlight(Chained(s, r).(entries := s.entries - {s.requests[r].key}))
  {
  }

  lemma NextFlies(s: Flights, r: nat)
    requires SingleFlight(s) && Outcome(s, r).Some? && Current(s, r)
    ensures SingleFlight(Start(Chained(s, r), s.requests[r].key, s.requests[r].entry))
  {
    var k, t := s.requests[r].key, Start(Chained(s, r), s.requests[r].key, s.requests[r].entry);
    forall q | q in t.requests && !t.requests[q].chained && t.cleared <= q ensures InFlight(t, q) {
      if q != s.next {
        assert InFlight(s, q);
      }
    }
  }

  /** Single flight does not look at the follow-ups. */
  lemma Unread(s: Flights, t: Flights)
    requires SingleFlight(s) && t == s.(followUps := t.followUps)
    ensures SingleFlight(t)
  {
  }

  lemma ChainKeepsFollowUps(s: Flights, r: nat)
    requires Tables(s) && Outcome(s, r).Some?
    ensures FollowUpsHeld(Chain(s, r))
  {
    hide SingleFlight;
  }

  lemma ChainKeeps(s: Flights, r: nat)
    requires Tables(s) && Outcome(s, r).Some?
    ensures Tables(Chain(s, r)) && Keeps(s, Chain(s, r))
  {
    hide SingleFlight, FollowUpsHeld, Keeps, Chain;
    ChainKeepsFlights(s, r);
    ChainKeepsFollowUps(s, r);
    ChainKeepsPromises(s, r);
  }

  lemma ChainKeepsPromises(s: Flights, r: nat)
    requires Tables(s) && r in s.requests
    ensures Keeps(s, Chain(s, r))
  {
    hide Tables, Keeps, Chain;
    if Current(s, r) && s.entries[s.requests[r].key].followUp.Some? {
      LinkKeepsPromises(s, r);
    } else {
      MarkKeepsPromises(s, r);
    }
  }

  /** A callback that starts nothing changes no promise. */
  lemma MarkKeepsPromises(s: Flights, r: nat)
    requires r in s.requests && (Current(s, r) ==> s.entries[s.requests[r].key].followUp.None?)
    ensures Keeps(s, Chain(s, r))
  {
  }

  lemma LinkKeepsPromises(s: Flights, r: nat)
    requires Tables(s) && r in s.requests && Current(s, r) && s.entries[s.requests[r].key].followUp.Some?
    ensures Keeps(s, Chain(s, r))
  {
  }

  lemma ReleaseKeeps(s: Flights, key: Key)
    requires Tables(s)
    ensures Tables(Release(s, key)) && Keeps(s, Release(s, key))
  {
    hide SingleFlight, FollowUpsHeld, Keeps, Release;
    ReleaseKeepsFlights(s, key);
    ReleaseKeepsFollowUps(s, key);
    ReleaseKeepsPromises(s, key);
  }

  lemma ReleaseKeepsFlights(s: Flights, key: Key)
    requires SingleFlight(s)
    ensures SingleFlight(Release(s, key))
  {
  }

  lemma ReleaseKeepsFollowUps(s: Flights, key: Key)
    requires FollowUpsHeld(s)
    ensures FollowUpsHeld(Release(s, key))
  {
  }

  lemma ReleaseKeepsPromises(s: Flights, key: Key)
    requires Tables(s)
    ensures Keeps(s, Release(s, key))
  {
    hide SingleFlight;
  }

  lemma ReleaseAllKeeps(s: Flights)
    requires Tables(s)
    ensures Tables(ReleaseAll(s)) && Keeps(s, ReleaseAll(s))
  {
  }
}
