/** What every run of the attention scheduler keeps: limits, work conservation, the ledger. */
module AttentionTheorems {
  import opened Machines
  import opened Sequences
  import opened AttentionQueue

  datatype Step = Arrive(attention: Attention) | End(key: Key, outcome: Outcome)

  ghost predicate CanTake(s: State, step: Step) {
    Core(s) && (step.End? ==> step.key in s.active)
  }

  ghost function Take(s: State, L: Limits, step: Step): (t: State)
    requires CanTake(s, step)
    ensures Core(t)
  {
    match step
    case Arrive(a) => Enqueue(s, L, a).0
    case End(key, outcome) => Complete(s, L, key, outcome)
  }

  /** Arrivals at any time; an active dispatch may end at any time, with any outcome. */
  ghost function Scheduler(L: Limits): Machine<State, Step> {
    Machine(CanTake, (s: State, step: Step) => if CanTake(s, step) then Take(s, L, step) else s)
  }

  // ---- limits and work conservation ------------------------------------------------------------

  ghost predicate Bounded(s: State, L: Limits) {
    && |s.queued| <= L.bufferLimit
    && (forall p :: Retained(s.queued, p) <= L.projectLimit)
    && |s.active| <= L.concurrency
  }

  /** Either every slot is busy or nothing waits. */
  ghost predicate WorkConserving(s: State, L: Limits) {
    |s.active| == L.concurrency || s.active == s.queued.Keys
  }

  lemma {:induction false} PumpKeepsRetained(s: State, c: nat)
    requires Core(s)
    ensures Pump(s, c).queued == s.queued && Pump(s, c).order == s.order && Pump(s, c).behind == s.behind
    ensures Pump(s, c).deferred == s.deferred && Pump(s, c).dispatched == s.dispatched
    ensures s.active <= Pump(s, c).active
    ensures |s.active| <= c ==> |Pump(s, c).active| <= c
    decreases c - |s.active|, |s.ring|
  {
    if |s.active| < c && s.ring != [] {
      PopOneKeepsCore(s);
      PumpKeepsRetained(PopOne(s), c);
    }
  }

  lemma PumpConservesWork(s: State, L: Limits)
    requires Core(s) && |s.active| <= L.concurrency
    ensures WorkConserving(Pump(s, L.concurrency), L)
  {
    PumpKeepsRetained(s, L.concurrency);
    var t := Pump(s, L.concurrency);
    if |t.active| < L.concurrency {
      assert t.ring == [];
      assert t.queued.Keys == t.active;
    }
  }

  lemma EvictShrinks(s: State, p: Project)
    requires Core(s) && p in s.lanes
    ensures var t := Evict(s, p).0;
      && t.active == s.active
      && |t.queued| == |s.queued| - 1
      && forall q :: Retained(t.queued, q) == Retained(s.queued, q) - if q == p then 1 else 0
  {
    TakeKeepsLanes(s, p);
    forall q
      ensures Retained(Evict(s, p).0.queued, q) == Retained(s.queued, q) - if q == p then 1 else 0
    {
      RetainedDrop(s.queued, s.lanes[p][0], q);
    }
    RetainedDrop(s.queued, s.lanes[p][0], p);
  }

  /** Evicting for a new project removes one waiting domain of some other project. */
  lemma {:induction false} EvictFirstPicks(s: State, ps: seq<Project>) returns (i: int)
    requires Core(s)
    ensures EvictFirst(s, ps).1 ==> 0 <= i < |ps| && ps[i] in s.lanes && EvictFirst(s, ps).0 == Evict(s, ps[i]).0
    ensures EvictFirst(s, ps).1 ==> forall j :: 0 <= j < i ==> ps[j] !in s.lanes
    ensures !EvictFirst(s, ps).1 ==> forall p :: p in ps ==> p !in s.lanes
    decreases |ps|
  {
    i := 0;
    if ps != [] {
      assert ps == [ps[0]] + ps[1..];
      EvictKeepsCore(s, ps[0]);
      if ps[0] !in s.lanes {
        var j := EvictFirstPicks(s, ps[1..]);
        i := j + 1;
      }
    }
  }

  /** The victim of an eviction for a new project: a waiting domain of a project that retains more than
      one, and no project with a waiting domain and more retained is passed over. */
  lemma EvictionFallsOnTheFullest(s: State, p: Project) returns (victim: Project)
    requires Core(s) && p !in s.order
    ensures EvictForNewProject(s, p).1 <==> exists q :: q in s.lanes && q in s.order && Retained(s.queued, q) > 1
    ensures EvictForNewProject(s, p).1 ==>
      && victim in s.lanes && victim != p && Retained(s.queued, victim) > 1
      && EvictForNewProject(s, p).0 == Evict(s, victim).0
      && forall q :: q in s.lanes && q in s.order ==> Retained(s.queued, q) <= Retained(s.queued, victim)
    ensures !EvictForNewProject(s, p).1 ==> EvictForNewProject(s, p).0 == s
  {
    hide Core, Evict, EvictFirst, SortByCount, Keep, Retained;
    var count := Counts(s.queued, s.order);
    var kept := Keep(count, s.order, p);
    var candidates := Candidates(count, s.order, p);
    var i := EvictFirstPicks(s, candidates);
    NothingPicked(s, candidates);
    SortFalls(count, kept);
    victim := if EvictFirst(s, candidates).1 then candidates[i] else p;
    LaneMeansRetained(s, p);
    EvictKeepsCore(s, p);
    NothingEvicted(s, p);
    if EvictFirst(s, candidates).1 {
      assert candidates[i] in candidates;
      forall q | q in s.lanes && q in s.order && Retained(s.queued, q) > 1
        ensures Retained(s.queued, q) <= Retained(s.queued, victim)
      {
        assert q in candidates;
        var j :| 0 <= j < |candidates| && candidates[j] == q;
      }
    }
  }

  lemma LaneMeansRetained(s: State, p: Project)
    requires Core(s)
    ensures p in s.lanes ==> p in s.order
  {
    if p in s.lanes {
      TakeKeepsLanes(s, p);
      RetainedPositive(s.queued, s.lanes[p][0]);
    }
  }

  lemma NothingEvicted(s: State, p: Project)
    ensures !Evict(s, p).1 ==> Evict(s, p).0 == s
  {
  }

  lemma {:induction false} NothingPicked(s: State, ps: seq<Project>)
    ensures !EvictFirst(s, ps).1 ==> EvictFirst(s, ps).0 == s
    decreases |ps|
  {
    hide Evict;
    if ps != [] {
      NothingEvicted(s, ps[0]);
      NothingPicked(s, ps[1..]);
    }
  }

  lemma MakeRoomMakesRoom(s: State, L: Limits, p: Project)
    requires Core(s) && Bounded(s, L) && MakeRoom(s, L, p).1
    ensures var t := MakeRoom(s, L, p).0;
      && t.active == s.active
      && |t.queued| < L.bufferLimit && Retained(t.queued, p) < L.projectLimit
      && forall q :: Retained(t.queued, q) <= Retained(s.queued, q)
  {
    hide EvictForNewProject, Evict;
    if Retained(s.queued, p) >= L.projectLimit
       || (|s.queued| >= L.bufferLimit && Retained(s.queued, p) != 0) {
      EvictKeepsCore(s, p);
      EvictShrinks(s, p);
    } else if |s.queued| >= L.bufferLimit {
      var victim := EvictionFallsOnTheFullest(s, p);
      EvictShrinks(s, victim);
    }
  }

  lemma ArriveKeepsBounds(s: State, L: Limits, a: Attention)
    requires Core(s) && Bounded(s, L) && WorkConserving(s, L)
    ensures Bounded(Enqueue(s, L, a).0, L) && WorkConserving(Enqueue(s, L, a).0, L)
  {
    var key := ConflictDomain(a);
    MakeRoomKeepsCore(s, L, a.projectId);
    if key !in s.queued && MakeRoom(s, L, a.projectId).1 {
      var t := MakeRoom(s, L, a.projectId).0;
      MakeRoomMakesRoom(s, L, a.projectId);
      InsertKeepsCore(t, key, a);
      var u := Insert(t, key, a);
      forall p ensures Retained(u.queued, p) <= L.projectLimit {
        RetainedAdd(t.queued, key, a, p);
      }
      RetainedAdd(t.queued, key, a, a.projectId);
      PumpKeepsRetained(u, L.concurrency);
      PumpConservesWork(u, L);
    }
  }

  lemma EndKeepsBounds(s: State, L: Limits, key: Key, outcome: Outcome)
    requires Core(s) && Bounded(s, L) && key in s.active
    ensures Bounded(Complete(s, L, key, outcome), L) && WorkConserving(Complete(s, L, key, outcome), L)
    ensures |Complete(s, L, key, outcome).queued| == |s.queued| - 1
  {
    SettleKeepsCore(s, key, outcome);
    var t := Settle(s, key, outcome);
    forall p ensures Retained(t.queued, p) <= L.projectLimit {
      RetainedDrop(s.queued, key, p);
    }
    RetainedDrop(s.queued, key, s.queued[key].projectId);
    PumpKeepsRetained(t, L.concurrency);
    PumpConservesWork(t, L);
  }

  // ---- the ledger ------------------------------------------------------------------------------

  ghost predicate Closes(e: Event, k: Key) {
    (e.Evicted? || e.Completed?) && e.key == k
  }

  /** No eviction or completion of `k` at a position strictly between `i` and `j`. */
  ghost predicate Open(log: seq<Event>, i: int, j: int, k: Key)
    requires 0 <= i <= j <= |log|
  {
    forall m :: i < m < j ==> !Closes(log[m], k)
  }

  /** Rejections behind `k` that no end of `k` has answered yet. */
  ghost function PendingSet(log: seq<Event>, k: Key): set<int> {
    set i | 0 <= i < |log| && log[i] == SameDomain(k) && Open(log, i, |log|, k)
  }

  /** The domain this rejection waited behind ended blocked. */
  ghost predicate Forgiven(log: seq<Event>, i: int)
    requires 0 <= i < |log|
  {
    log[i].SameDomain? &&
    exists j :: i < j < |log| && log[j] == Completed(log[i].key, Blocked) && Open(log, i, j, log[i].key)
  }

  /** Something was rejected while the domain ending at `j` was retained. */
  ghost predicate Contended(log: seq<Event>, j: int)
    requires 0 <= j < |log| && log[j].Completed?
  {
    exists i :: 0 <= i < j && log[i] == SameDomain(log[j].key) && Open(log, i, j, log[j].key)
  }

  ghost predicate Owed(log: seq<Event>, i: int)
    requires 0 <= i < |log|
  {
    match log[i]
    case LimitRejected(_) => true
    case Evicted(_, _) => true
    case SameDomain(_) => !Forgiven(log, i)
    case Completed(_, outcome) => outcome == Retry && !Contended(log, i)
    case _ => false
  }

  ghost function OwedSet(log: seq<Event>): set<int> {
    set i | 0 <= i < |log| && Owed(log, i)
  }

  ghost predicate LedgerHolds(s: State) {
    && s.deferred == |OwedSet(s.log)|
    && forall k :: Behind(s, k) == |PendingSet(s.log, k)|
  }

  lemma AppendPending(log: seq<Event>, e: Event, k: Key)
    ensures PendingSet(log + [e], k) ==
      if Closes(e, k) then {} else PendingSet(log, k) + if e == SameDomain(k) then {|log|} else {}
  {
    var l := log + [e];
    forall i | 0 <= i < |log| ensures Open(l, i, |l|, k) <==> Open(log, i, |log|, k) && !Closes(e, k) {
      assert l[|log|] == e;
      if Open(l, i, |l|, k) {
        forall m | i < m < |log| ensures !Closes(log[m], k) { assert l[m] == log[m]; }
      }
    }
  }

  lemma AppendOwedOld(log: seq<Event>, e: Event, i: int)
    requires 0 <= i < |log|
    ensures Owed(log + [e], i) <==>
      Owed(log, i) && !(e.Completed? && e.outcome == Blocked && i in PendingSet(log, e.key))
  {
    var l := log + [e];
    if log[i].SameDomain? {
      AppendForgiven(log, e, i);
    } else if log[i].Completed? {
      AppendContended(log, e, i);
    }
  }

  lemma AppendOpen(log: seq<Event>, e: Event, i: int, j: int, k: Key)
    requires 0 <= i <= j <= |log|
    ensures Open(log + [e], i, j, k) == Open(log, i, j, k)
  {
    var l := log + [e];
    assert forall m :: i < m < j ==> l[m] == log[m];
    if Open(l, i, j, k) {
      forall m | i < m < j ensures !Closes(log[m], k) { assert !Closes(l[m], k); }
    }
  }

  lemma AppendContended(log: seq<Event>, e: Event, j: int)
    requires 0 <= j < |log| && log[j].Completed?
    ensures Contended(log + [e], j) == Contended(log, j)
  {
    var l := log + [e];
    forall i | 0 <= i < j ensures l[i] == log[i] && Open(l, i, j, log[j].key) == Open(log, i, j, log[j].key) {
      AppendOpen(log, e, i, j, log[j].key);
    }
  }

  lemma AppendForgiven(log: seq<Event>, e: Event, i: int)
    requires 0 <= i < |log| && log[i].SameDomain?
    ensures Forgiven(log + [e], i) <==>
      Forgiven(log, i) || (e == Completed(log[i].key, Blocked) && Open(log, i, |log|, log[i].key))
  {
    var l := log + [e];
    var k := log[i].key;
    forall j | i < j <= |log| ensures Open(l, i, j, k) == Open(log, i, j, k) {
      AppendOpen(log, e, i, j, k);
    }
    assert l[i] == log[i] && l[|log|] == e;
    assert forall j :: i < j < |log| ==> l[j] == log[j];
    if Forgiven(log, i) {
      var j :| i < j < |log| && log[j] == Completed(k, Blocked) && Open(log, i, j, k);
      assert l[j] == Completed(k, Blocked) && Open(l, i, j, k);
    }
    if e == Completed(k, Blocked) && Open(log, i, |log|, k) {
      assert l[|log|] == Completed(k, Blocked) && Open(l, i, |log|, k);
    }
  }

  lemma AppendOwedNew(log: seq<Event>, e: Event)
    ensures Owed(log + [e], |log|) <==>
      || e.LimitRejected? || e.Evicted? || e.SameDomain?
      || (e.Completed? && e.outcome == Retry && PendingSet(log, e.key) == {})
  {
    var l := log + [e];
    assert l[|log|] == e;
    if e.Completed? {
      forall a | 0 <= a < |log| ensures Open(l, a, |log|, e.key) == Open(log, a, |log|, e.key) {
        AppendOpen(log, e, a, |log|, e.key);
      }
      if Contended(l, |log|) {
        var i :| 0 <= i < |log| && l[i] == SameDomain(e.key) && Open(l, i, |log|, e.key);
        assert i in PendingSet(log, e.key);
      }
    }
  }

  lemma PendingIsOwed(log: seq<Event>, k: Key)
    ensures PendingSet(log, k) <= OwedSet(log)
  {
    forall i | i in PendingSet(log, k) ensures !Forgiven(log, i) {
      assert Open(log, i, |log|, k);
      assert forall j :: i < j < |log| ==> !Closes(log[j], k);
    }
  }

  ghost function Answered(log: seq<Event>, e: Event): set<int> {
    if e.Completed? && e.outcome == Blocked then PendingSet(log, e.key) else {}
  }

  ghost predicate OwedAtOnce(log: seq<Event>, e: Event) {
    || e.LimitRejected? || e.Evicted? || e.SameDomain?
    || (e.Completed? && e.outcome == Retry && PendingSet(log, e.key) == {})
  }

  lemma AppendOwedSet(log: seq<Event>, e: Event)
    ensures OwedSet(log + [e]) == (OwedSet(log) - Answered(log, e)) + if OwedAtOnce(log, e) then {|log|} else {}
  {
    AppendOwedNew(log, e);
    forall i | 0 <= i < |log| ensures Owed(log + [e], i) <==> Owed(log, i) && i !in Answered(log, e) {
      AppendOwedOld(log, e, i);
    }
  }

  /** How one more event changes what is owed. */
  lemma AppendOwed(log: seq<Event>, e: Event)
    ensures |OwedSet(log + [e])| ==
      |OwedSet(log)| - |Answered(log, e)| + if OwedAtOnce(log, e) then 1 else 0
  {
    hide OwedSet, OwedAtOnce, PendingSet;
    AppendOwedSet(log, e);
    AnsweredIsOwed(log, e);
    var kept := OwedSet(log) - Answered(log, e);
    assert OwedSet(log) == kept + Answered(log, e);
  }

  lemma AnsweredIsOwed(log: seq<Event>, e: Event)
    ensures Answered(log, e) <= OwedSet(log) && |log| !in OwedSet(log)
  {
    if e.Completed? { PendingIsOwed(log, e.key); }
  }

  lemma {:induction false} PumpKeepsLedger(s: State, c: nat)
    requires Core(s) && LedgerHolds(s)
    ensures LedgerHolds(Pump(s, c))
    decreases c - |s.active|, |s.ring|
  {
    if |s.active| < c && s.ring != [] {
      var p := s.ring[0];
      var t := PopOne(s);
      PopOneKeepsCore(s);
      Quiet(s.log, Popped(p));
      if p in s.lanes {
        Quiet(s.log + [Popped(p)], Started(s.lanes[p][0], p));
        assert t.log == s.log + [Popped(p)] + [Started(s.lanes[p][0], p)];
      }
      PumpKeepsLedger(t, c);
    }
  }

  lemma Quiet(log: seq<Event>, e: Event)
    requires e.Popped? || e.Started? || e.Accepted?
    ensures |OwedSet(log + [e])| == |OwedSet(log)|
    ensures forall k :: PendingSet(log + [e], k) == PendingSet(log, k)
  {
    AppendOwed(log, e);
    forall k ensures PendingSet(log + [e], k) == PendingSet(log, k) { AppendPending(log, e, k); }
  }

  lemma EvictKeepsLedger(s: State, p: Project)
    requires Core(s) && LedgerHolds(s)
    ensures LedgerHolds(Evict(s, p).0)
  {
    if p in s.lanes {
      TakeKeepsLanes(s, p);
      var key := s.lanes[p][0];
      AppendOwed(s.log, Evicted(key, p));
      forall k ensures Behind(Evict(s, p).0, k) == |PendingSet(s.log + [Evicted(key, p)], k)| {
        AppendPending(s.log, Evicted(key, p), k);
      }
    }
  }

  lemma MakeRoomKeepsLedger(s: State, L: Limits, p: Project)
    requires Core(s) && LedgerHolds(s)
    ensures LedgerHolds(MakeRoom(s, L, p).0)
  {
    assert Retained(s.queued, p) == 0 ==> p !in s.order;
    hide Core, Evict, EvictForNewProject, LedgerHolds;
    EvictKeepsLedger(s, p);
    if Retained(s.queued, p) == 0 && Retained(s.queued, p) < L.projectLimit && |s.queued| >= L.bufferLimit {
      var victim := EvictionFallsOnTheFullest(s, p);
      EvictKeepsLedger(s, victim);
    }
  }

  lemma ArriveKeepsLedger(s: State, L: Limits, a: Attention)
    requires Core(s) && LedgerHolds(s)
    ensures LedgerHolds(Enqueue(s, L, a).0)
  {
    hide LedgerHolds, MakeRoom, Insert, Pump, ConflictDomain;
    var key := ConflictDomain(a);
    var p := a.projectId;
    RunningIsKept(s, key);
    if key in s.queued {
      RejectionKeepsLedger(s, key);
    } else {
      MakeRoomKeepsCore(s, L, p);
      MakeRoomKeepsLedger(s, L, p);
      var t := MakeRoom(s, L, p).0;
      if MakeRoom(s, L, p).1 {
        InsertKeepsCore(t, key, a);
        InsertKeepsLedger(t, key, a);
        PumpKeepsLedger(Insert(t, key, a), L.concurrency);
      } else {
        RefusalKeepsLedger(t, p);
      }
    }
  }

  lemma RejectionKeepsLedger(s: State, key: Key)
    requires LedgerHolds(s)
    ensures LedgerHolds(s.(deferred := s.deferred + 1, behind := s.behind[key := Behind(s, key) + 1],
                           log := s.log + [SameDomain(key)]))
  {
    hide PendingSet, OwedSet;
    AppendOwed(s.log, SameDomain(key));
    forall k ensures |PendingSet(s.log + [SameDomain(key)], k)| == |PendingSet(s.log, k)| + if k == key then 1 else 0 {
      AppendPending(s.log, SameDomain(key), k);
      PendingIsPast(s.log, k);
    }
  }

  lemma PendingIsPast(log: seq<Event>, k: Key)
    ensures |log| !in PendingSet(log, k)
  {
  }

  lemma InsertKeepsLedger(s: State, key: Key, a: Attention)
    requires LedgerHolds(s)
    ensures LedgerHolds(Insert(s, key, a))
  {
    hide PendingSet, OwedSet;
    Quiet(s.log, Accepted(key, a.projectId));
  }

  lemma RefusalKeepsLedger(s: State, p: Project)
    requires LedgerHolds(s)
    ensures LedgerHolds(s.(deferred := s.deferred + 1, log := s.log + [LimitRejected(p)]))
  {
    hide PendingSet, OwedSet;
    AppendOwed(s.log, LimitRejected(p));
    forall k ensures PendingSet(s.log + [LimitRejected(p)], k) == PendingSet(s.log, k) {
      AppendPending(s.log, LimitRejected(p), k);
    }
  }

  lemma RunningIsKept(s: State, key: Key)
    requires Core(s)
    ensures key in s.active ==> key in s.queued
  {
  }

  lemma EndKeepsLedger(s: State, L: Limits, key: Key, outcome: Outcome)
    requires Core(s) && LedgerHolds(s) && key in s.active
    ensures LedgerHolds(Complete(s, L, key, outcome))
  {
    hide Core, LedgerHolds, Settle, Pump;
    RunningIsKept(s, key);
    SettleKeepsLedger(s, key, outcome);
    SettleKeepsCore(s, key, outcome);
    PumpKeepsLedger(Settle(s, key, outcome), L.concurrency);
  }

  lemma SettleKeepsLedger(s: State, key: Key, outcome: Outcome)
    requires LedgerHolds(s) && key in s.queued
    ensures LedgerHolds(Settle(s, key, outcome))
  {
    hide PendingSet, OwedSet;
    var t := Settle(s, key, outcome);
    AppendOwed(s.log, Completed(key, outcome));
    forall k ensures Behind(t, k) == |PendingSet(t.log, k)| {
      AppendPending(s.log, Completed(key, outcome), k);
    }
  }

  // ---- every reachable state -------------------------------------------------------------------

  ghost predicate Sound(s: State, L: Limits) {
    Core(s) && Bounded(s, L) && WorkConserving(s, L) && LedgerHolds(s)
  }

  lemma EmptyIsSound(L: Limits)
    ensures Sound(Empty, L)
  {
    assert OwedSet([]) == {};
    assert forall k :: PendingSet([], k) == {};
    assert forall p :: KeysOf(map[], p) == {};
  }

  lemma TakeKeepsSound(s: State, L: Limits, step: Step)
    requires Sound(s, L) && CanTake(s, step)
    ensures Sound(Take(s, L, step), L)
  {
    match step
    case Arrive(a) =>
      ArriveKeepsBounds(s, L, a);
      ArriveKeepsLedger(s, L, a);
    case End(key, outcome) =>
      EndKeepsBounds(s, L, key, outcome);
      EndKeepsLedger(s, L, key, outcome);
  }

  lemma SoundIsInductive(L: Limits)
    ensures Inductive(Scheduler(L), (s: State) => Sound(s, L))
  {
    forall s: State, step: Step | Sound(s, L) && Scheduler(L).enabled(s, step)
      ensures Sound(Scheduler(L).next(s, step), L)
    {
      TakeKeepsSound(s, L, step);
    }
  }

  /** The limits, work conservation and the ledger hold after any interleaving of arrivals and ends; and
      the projects' counts add up to what is retained. */
  lemma EveryRunIsSound(s: State, L: Limits, steps: seq<Step>)
    requires Sound(s, L) && Legal(Scheduler(L), s, steps)
    ensures var t := After(Scheduler(L), s, steps); Sound(t, L) && |t.queued| == RetainedSum(t.queued, t.order)
  {
    SoundIsInductive(L);
    hide Take, CanTake, Sound;
    RunKeeps(Scheduler(L), (s: State) => Sound(s, L), s, steps);
    CountsAddUp(After(Scheduler(L), s, steps), L);
  }

  lemma CountsAddUp(s: State, L: Limits)
    requires Sound(s, L)
    ensures |s.queued| == RetainedSum(s.queued, s.order)
  {
    EverythingIsOrdered(s);
    RetainedSumIsSize(s.queued, s.order);
  }

  ghost predicate Clean(log: seq<Event>, i: int)
    requires 0 <= i < |log|
  {
    match log[i]
    case LimitRejected(_) => false
    case Evicted(_, _) => false
    case Completed(_, outcome) => outcome != Retry
    case SameDomain(_) => Forgiven(log, i)
    case _ => true
  }

  ghost predicate CleanLog(log: seq<Event>) {
    forall i :: 0 <= i < |log| ==> Clean(log, i)
  }

  lemma NothingOwedIsClean(log: seq<Event>)
    ensures OwedSet(log) == {} <==> CleanLog(log)
  {
    if OwedSet(log) == {} {
      forall i | 0 <= i < |log| ensures Clean(log, i) {
        assert i !in OwedSet(log);
        if log[i].Completed? && log[i].outcome == Retry {
          var k := log[i].key;
          var j :| 0 <= j < i && log[j] == SameDomain(k) && Open(log, j, i, k);
          assert j !in OwedSet(log);
          var m :| j < m < |log| && log[m] == Completed(k, Blocked) && Open(log, j, m, k);
          assert Closes(log[m], k) && Closes(log[i], k);
        }
      }
    } else {
      var i :| i in OwedSet(log);
      assert !Clean(log, i);
    }
  }

  /** `deferred` is zero exactly when nothing was evicted, turned away by a limit or retried, and each
      same-domain rejection stood behind a domain that ended blocked. */
  lemma CleanDrain(L: Limits, steps: seq<Step>)
    requires Legal(Scheduler(L), Empty, steps)
    ensures var s := After(Scheduler(L), Empty, steps); s.deferred == 0 <==> CleanLog(s.log)
  {
    EmptyIsSound(L);
    EveryRunIsSound(Empty, L, steps);
    NothingOwedIsClean(After(Scheduler(L), Empty, steps).log);
  }

  lemma RetainedMeansRunning(s: State, L: Limits)
    requires Sound(s, L) && L.concurrency > 0 && s.queued != map[]
    ensures s.active != {}
  {
    var k :| k in s.queued;
    assert k in s.queued.Keys;
  }

  /** Progress: retained work means running work, and a run of ends alone drains the scheduler after
      exactly as many ends as there were retained attentions. */
  lemma {:induction false} DrainsAfterEachEnd(s: State, L: Limits, steps: seq<Step>)
    requires Sound(s, L) && L.concurrency > 0 && Legal(Scheduler(L), s, steps)
    requires forall step :: step in steps ==> step.End?
    ensures |After(Scheduler(L), s, steps).queued| == |s.queued| - |steps|
    ensures After(Scheduler(L), s, steps).queued == map[] <==> |steps| == |s.queued|
    ensures |steps| < |s.queued| ==> After(Scheduler(L), s, steps).active != {}
    decreases |steps|
  {
    if steps == [] {
      if |s.queued| > 0 { RetainedMeansRunning(s, L); }
    } else {
      EndsOnce(s, L, steps[0]);
      assert forall step :: step in steps[1..] ==> step in steps;
      DrainsAfterEachEnd(Scheduler(L).next(s, steps[0]), L, steps[1..]);
    }
  }

  lemma EndsOnce(s: State, L: Limits, step: Step)
    requires Sound(s, L) && step.End? && CanTake(s, step)
    ensures Sound(Scheduler(L).next(s, step), L)
    ensures |Scheduler(L).next(s, step).queued| == |s.queued| - 1
  {
    EndKeepsBounds(s, L, step.key, step.outcome);
    TakeKeepsSound(s, L, step);
  }

  // ---- the dispatcher's limits -----------------------------------------------------------------

  const PageSize := 100
  const QueueReserve := 1

  function Max(a: int, b: int): int { if a < b then b else a }

  function Min(a: int, b: int): int { if a < b then a else b }

  /** The limits the runtime computes for `projects` projects; dividing by zero gives Infinity there. */
  function DispatcherLimits(concurrency: nat, projects: nat): Limits {
    var buffer := concurrency * PageSize;
    Limits(concurrency, buffer,
           Max(1, if projects == 0 then concurrency + QueueReserve
                  else Min(concurrency + QueueReserve, buffer / projects)))
  }

  lemma ShareFits(concurrency: nat, projects: nat)
    requires 0 < projects
    ensures var L := DispatcherLimits(concurrency, projects);
      && (projects <= L.bufferLimit ==> projects * L.projectLimit <= L.bufferLimit)
      && (projects > L.bufferLimit ==> L.projectLimit == 1)
  {
    var L := DispatcherLimits(concurrency, projects);
    Share(L.bufferLimit, projects);
    if projects <= L.bufferLimit {
      Monotone(projects, L.projectLimit, L.bufferLimit / projects);
    }
  }

  lemma Share(n: nat, d: nat)
    requires 0 < d
    ensures d * (n / d) <= n && (n / d >= 1 <==> d <= n)
  {
  }

  lemma Monotone(n: nat, a: nat, b: nat)
    requires a <= b
    ensures n * a <= n * b
  {
  }

  lemma {:induction false} SumBound(queued: map<Key, Attention>, ps: seq<Project>, p: Project, limit: nat)
    requires p in ps && Retained(queued, p) < limit
    requires forall q :: q in ps ==> Retained(queued, q) <= limit
    ensures RetainedSum(queued, ps) < |ps| * limit
  {
    hide Retained;
    assert ps == [ps[0]] + ps[1..];
    if ps[0] == p {
      SumAtMost(queued, ps[1..], limit);
    } else {
      SumBound(queued, ps[1..], p, limit);
    }
    OneMore(|ps[1..]|, limit);
  }

  lemma OneMore(n: nat, limit: nat)
    ensures (n + 1) * limit == limit + n * limit
  {
  }

  lemma {:induction false} SumAtMost(queued: map<Key, Attention>, ps: seq<Project>, limit: nat)
    requires forall q :: q in ps ==> Retained(queued, q) <= limit
    ensures RetainedSum(queued, ps) <= |ps| * limit
  {
    if ps != [] {
      assert ps == [ps[0]] + ps[1..];
      SumAtMost(queued, ps[1..], limit);
      OneMore(|ps[1..]|, limit);
    }
  }

  /** With the dispatcher's limits, attentions drawn from its own projects never meet a full buffer. */
  lemma NeverGloballyFull(concurrency: nat, projects: seq<Project>, s: State, a: Attention)
    requires Distinct(projects) && |projects| <= concurrency * PageSize
    requires var L := DispatcherLimits(concurrency, |projects|); Sound(s, L)
    requires a.projectId in projects && forall k :: k in s.queued ==> s.queued[k].projectId in projects
    ensures Enqueue(s, DispatcherLimits(concurrency, |projects|), a).1 != GlobalFull
  {
    var L := DispatcherLimits(concurrency, |projects|);
    ShareFits(concurrency, |projects|);
    RetainedSumIsSize(s.queued, projects);
    assert KeysAmong(s.queued, projects) == s.queued.Keys;
    if Retained(s.queued, a.projectId) < L.projectLimit {
      SumBound(s.queued, projects, a.projectId, L.projectLimit);
      assert |s.queued| < L.bufferLimit;
    }
  }

  ghost predicate From(s: State, projects: seq<Project>) {
    forall k :: k in s.queued ==> s.queued[k].projectId in projects
  }

  lemma ArriveStaysWithin(s: State, L: Limits, a: Attention, projects: seq<Project>)
    requires Core(s) && From(s, projects) && a.projectId in projects
    ensures From(Enqueue(s, L, a).0, projects)
  {
    var key := ConflictDomain(a);
    MakeRoomKeepsCore(s, L, a.projectId);
    MakeRoomOnlyDrops(s, L, a.projectId);
    var t := MakeRoom(s, L, a.projectId).0;
    if key !in s.queued && MakeRoom(s, L, a.projectId).1 {
      InsertKeepsCore(t, key, a);
      PumpKeepsRetained(Insert(t, key, a), L.concurrency);
    }
  }

  lemma EndStaysWithin(s: State, L: Limits, key: Key, outcome: Outcome, projects: seq<Project>)
    requires Core(s) && From(s, projects) && key in s.active
    ensures From(Complete(s, L, key, outcome), projects)
  {
    SettleKeepsCore(s, key, outcome);
    PumpKeepsRetained(Settle(s, key, outcome), L.concurrency);
  }

  lemma MakeRoomOnlyDrops(s: State, L: Limits, p: Project)
    requires Core(s)
    ensures var t := MakeRoom(s, L, p).0; forall k :: k in t.queued ==> k in s.queued && t.queued[k] == s.queued[k]
  {
    assert Retained(s.queued, p) == 0 ==> p !in s.order;
    hide Core, EvictForNewProject, Evict;
    EvictOnlyDrops(s, p);
    if Retained(s.queued, p) == 0 && Retained(s.queued, p) < L.projectLimit && |s.queued| >= L.bufferLimit {
      var victim := EvictionFallsOnTheFullest(s, p);
      EvictOnlyDrops(s, victim);
    }
  }

  lemma EvictOnlyDrops(s: State, p: Project)
    ensures var t := Evict(s, p).0; forall k :: k in t.queued ==> k in s.queued && t.queued[k] == s.queued[k]
  {
  }

  lemma StepStaysWithin(s: State, L: Limits, step: Step, projects: seq<Project>)
    requires Sound(s, L) && CanTake(s, step) && From(s, projects)
    requires step.Arrive? ==> step.attention.projectId in projects
    ensures Sound(Scheduler(L).next(s, step), L) && From(Scheduler(L).next(s, step), projects)
  {
    TakeKeepsSound(s, L, step);
    match step
    case Arrive(a) => ArriveStaysWithin(s, L, a, projects);
    case End(key, outcome) => EndStaysWithin(s, L, key, outcome, projects);
  }

  /** The whole run: no arrival from the dispatcher's projects is ever answered global-full. */
  lemma {:induction false} RunNeverGloballyFull(
    concurrency: nat, projects: seq<Project>, s: State, steps: seq<Step>, a: Attention)
    requires Distinct(projects) && |projects| <= concurrency * PageSize
    requires var L := DispatcherLimits(concurrency, |projects|); Sound(s, L) && Legal(Scheduler(L), s, steps)
    requires From(s, projects) && a.projectId in projects
    requires forall step :: step in steps && step.Arrive? ==> step.attention.projectId in projects
    ensures var L := DispatcherLimits(concurrency, |projects|); var t := After(Scheduler(L), s, steps);
      Core(t) && Enqueue(t, L, a).1 != GlobalFull
    decreases |steps|
  {
    var L := DispatcherLimits(concurrency, |projects|);
    if steps == [] {
      NeverGloballyFull(concurrency, projects, s, a);
    } else {
      StepStaysWithin(s, L, steps[0], projects);
      assert forall step :: step in steps[1..] ==> step in steps;
      RunNeverGloballyFull(concurrency, projects, Scheduler(L).next(s, steps[0]), steps[1..], a);
    }
  }
}
