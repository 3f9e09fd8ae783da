/** Every attention is accounted for: what the log says happened to it adds up with the totals and the tables. */
module AttentionBalance {
  import opened Machines
  import opened Sequences
  import opened AttentionQueue
  import opened AttentionTheorems

  datatype Kind = Rejection | Refusal | Eviction | Acceptance | Start | Ending(outcome: Outcome)

  predicate Is(e: Event, kind: Kind) {
    match kind
    case Rejection => e.SameDomain?
    case Refusal => e.LimitRejected?
    case Eviction => e.Evicted?
    case Acceptance => e.Accepted?
    case Start => e.Started?
    case Ending(outcome) => e.Completed? && e.outcome == outcome
  }

  /** How often something happened. */
  function Count(log: seq<Event>, kind: Kind): nat {
    if log == [] then 0 else
    Count(log[..|log| - 1], kind) + if Is(log[|log| - 1], kind) then 1 else 0
  }

  lemma CountAppend(log: seq<Event>, e: Event, kind: Kind)
    ensures Count(log + [e], kind) == Count(log, kind) + if Is(e, kind) then 1 else 0
  {
    assert (log + [e])[..|log|] == log;
  }

  function Ends(log: seq<Event>): nat {
    Count(log, Ending(Dispatched)) + Count(log, Ending(Blocked)) + Count(log, Ending(Retry))
    + Count(log, Ending(Failed))
  }

  /** What a drain reports as dispatched is the number of dispatches that ended so; what was started has ended or
      runs; and what was accepted was evicted, has ended or is retained. */
  ghost predicate Balanced(s: State) {
    && s.dispatched == Count(s.log, Ending(Dispatched))
    && Count(s.log, Start) == Ends(s.log) + |s.active|
    && Count(s.log, Acceptance) == Count(s.log, Eviction) + Ends(s.log) + |s.queued|
  }

  /** The two states differ by one more event, and in tables and totals by what it stands for. */
  ghost predicate OneEvent(s: State, t: State, e: Event) {
    && t.log == s.log + [e]
    && t.dispatched == s.dispatched + (if Is(e, Ending(Dispatched)) then 1 else 0)
    && |t.active| == |s.active| + (if e.Started? then 1 else if e.Completed? then -1 else 0)
    && |t.queued| == |s.queued| + (if e.Accepted? then 1 else if e.Evicted? || e.Completed? then -1 else 0)
  }

  lemma OneEventBalances(s: State, t: State, e: Event)
    requires Balanced(s) && OneEvent(s, t, e)
    ensures Balanced(t)
  {
    hide Count;
    CountAppend(s.log, e, Eviction);
    CountAppend(s.log, e, Acceptance);
    CountAppend(s.log, e, Start);
    CountAppend(s.log, e, Ending(Dispatched));
    CountAppend(s.log, e, Ending(Blocked));
    CountAppend(s.log, e, Ending(Retry));
    CountAppend(s.log, e, Ending(Failed));
  }

  lemma PopOneBalances(s: State)
    requires Core(s) && s.ring != [] && Balanced(s)
    ensures Balanced(PopOne(s))
  {
    hide Balanced;
    var p := s.ring[0];
    var popped := s.(log := s.log + [Popped(p)]);
    OneEventBalances(s, popped, Popped(p));
    if p in s.lanes {
      PopOneStarts(s);
      OneEventBalances(popped, PopOne(s), Started(s.lanes[p][0], p));
    } else {
      Unread(popped, PopOne(s));
    }
  }

  lemma PopOneStarts(s: State)
    requires Core(s) && s.ring != [] && s.ring[0] in s.lanes
    ensures var p := s.ring[0];
      s.lanes[p] != [] && OneEvent(s.(log := s.log + [Popped(p)]), PopOne(s), Started(s.lanes[p][0], p))
  {
    TakeKeepsLanes(s, s.ring[0]);
    var p := s.ring[0];
    assert s.log + [Popped(p)] + [Started(s.lanes[p][0], p)] == s.log + [Popped(p), Started(s.lanes[p][0], p)];
  }

  lemma Unread(s: State, t: State)
    requires Balanced(s) && t.log == s.log && t.dispatched == s.dispatched
    requires t.active == s.active && t.queued == s.queued
    ensures Balanced(t)
  {
  }

  lemma {:induction false} PumpBalances(s: State, c: nat)
    requires Core(s) && Balanced(s)
    ensures Balanced(Pump(s, c))
    decreases c - |s.active|, |s.ring|
  {
    hide Balanced, PopOne;
    if |s.active| < c && s.ring != [] {
      PopOneKeepsCore(s);
      PopOneBalances(s);
      PumpBalances(PopOne(s), c);
    }
  }

  lemma EvictBalances(s: State, p: Project)
    requires Core(s) && Balanced(s)
    ensures Balanced(Evict(s, p).0)
  {
    hide Balanced, Retained;
    if p in s.lanes {
      TakeKeepsLanes(s, p);
      RetainedDrop(s.queued, s.lanes[p][0], p);
      OneEventBalances(s, Evict(s, p).0, Evicted(s.lanes[p][0], p));
    }
  }

  lemma MakeRoomBalances(s: State, L: Limits, p: Project)
    requires Core(s) && Balanced(s)
    ensures Balanced(MakeRoom(s, L, p).0)
  {
    assert Retained(s.queued, p) == 0 ==> p !in s.order;
    hide Core, Evict, EvictForNewProject, Balanced;
    EvictBalances(s, p);
    if Retained(s.queued, p) == 0 && Retained(s.queued, p) < L.projectLimit && |s.queued| >= L.bufferLimit {
      var victim := EvictionFallsOnTheFullest(s, p);
      EvictBalances(s, victim);
    }
  }

  lemma ArriveBalances(s: State, L: Limits, a: Attention)
    requires Core(s) && Balanced(s)
    ensures Balanced(Enqueue(s, L, a).0)
  {
    hide MakeRoom, Insert, Pump, Balanced, ConflictDomain;
    var key, p := ConflictDomain(a), a.projectId;
    RunningIsKept(s, key);
    if key in s.queued {
      OneEventBalances(s, Enqueue(s, L, a).0, SameDomain(key));
    } else {
      var t := MakeRoom(s, L, p).0;
      MakeRoomKeepsCore(s, L, p);
      MakeRoomBalances(s, L, p);
      if MakeRoom(s, L, p).1 {
        InsertKeepsCore(t, key, a);
        InsertIsOneEvent(t, key, a);
        OneEventBalances(t, Insert(t, key, a), Accepted(key, p));
        PumpBalances(Insert(t, key, a), L.concurrency);
      } else {
        OneEventBalances(t, Enqueue(s, L, a).0, LimitRejected(p));
      }
    }
  }

  lemma InsertIsOneEvent(s: State, key: Key, a: Attention)
    requires key !in s.queued
    ensures OneEvent(s, Insert(s, key, a), Accepted(key, a.projectId))
  {
    SizeAdd(s.queued, key, a);
  }

  lemma SettleIsOneEvent(s: State, key: Key, outcome: Outcome)
    requires key in s.active && key in s.queued
    ensures OneEvent(s, Settle(s, key, outcome), Completed(key, outcome))
  {
    hide Retained;
    RetainedDrop(s.queued, key, s.queued[key].projectId);
  }

  lemma EndBalances(s: State, L: Limits, key: Key, outcome: Outcome)
    requires Core(s) && Balanced(s) && key in s.active
    ensures Balanced(Complete(s, L, key, outcome))
  {
    hide Core, Balanced, Pump, Settle;
    RunningIsKept(s, key);
    SettleKeepsCore(s, key, outcome);
    SettleIsOneEvent(s, key, outcome);
    OneEventBalances(s, Settle(s, key, outcome), Completed(key, outcome));
    PumpBalances(Settle(s, key, outcome), L.concurrency);
  }

  /** After any interleaving of arrivals and ends the books balance. */
  lemma EveryRunBalances(L: Limits, steps: seq<Step>)
    requires Legal(Scheduler(L), Empty, steps)
    ensures Balanced(After(Scheduler(L), Empty, steps))
  {
    hide Balanced, Core, Enqueue, Complete;
    EmptyBalances();
    EmptyIsCore();
    var inv := (s: State) => Core(s) && Balanced(s);
    forall s: State, step: Step | inv(s) && Scheduler(L).enabled(s, step) ensures inv(Scheduler(L).next(s, step)) {
      match step
      case Arrive(a) => ArriveBalances(s, L, a);
      case End(key, outcome) => EndBalances(s, L, key, outcome);
    }
    RunKeeps(Scheduler(L), inv, Empty, steps);
  }

  lemma EmptyBalances()
    ensures Balanced(Empty)
  {
  }

  // ---- what the calls were ---------------------------------------------------------------------

  function EndsAs(steps: seq<Step>, outcome: Outcome): nat {
    if steps == [] then 0 else
    (if steps[0].End? && steps[0].outcome == outcome then 1 else 0) + EndsAs(steps[1..], outcome)
  }

  lemma StepCounts(s: State, L: Limits, step: Step)
    requires CanTake(s, step)
    ensures var t := Take(s, L, step);
      && t.dispatched == s.dispatched + (if step.End? && step.outcome == Dispatched then 1 else 0)
  {
    hide Core;
    match step
    case Arrive(a) =>
      MakeRoomKeepsCore(s, L, a.projectId);
      MakeRoomDispatches(s, L, a.projectId);
      if ConflictDomain(a) !in s.queued && MakeRoom(s, L, a.projectId).1 {
        InsertKeepsCore(MakeRoom(s, L, a.projectId).0, ConflictDomain(a), a);
        PumpKeepsRetained(Insert(MakeRoom(s, L, a.projectId).0, ConflictDomain(a), a), L.concurrency);
      }
    case End(key, outcome) =>
      RunningIsKept(s, key);
      SettleKeepsCore(s, key, outcome);
      PumpKeepsRetained(Settle(s, key, outcome), L.concurrency);
  }

  lemma MakeRoomDispatches(s: State, L: Limits, p: Project)
    requires Core(s)
    ensures MakeRoom(s, L, p).0.dispatched == s.dispatched
  {
    assert Retained(s.queued, p) == 0 ==> p !in s.order;
    hide Core, EvictForNewProject;
    if Retained(s.queued, p) == 0 && Retained(s.queued, p) < L.projectLimit && |s.queued| >= L.bufferLimit {
      var victim := EvictionFallsOnTheFullest(s, p);
    }
  }

  /** The total a drain reports is the number of dispatches that ended as dispatched. */
  lemma {:induction false} DispatchedIsCounted(s: State, L: Limits, steps: seq<Step>)
    requires Core(s) && Legal(Scheduler(L), s, steps)
    ensures After(Scheduler(L), s, steps).dispatched == s.dispatched + EndsAs(steps, Dispatched)
    decreases |steps|
  {
    hide Core, Take;
    if steps != [] {
      StepCounts(s, L, steps[0]);
      DispatchedIsCounted(Scheduler(L).next(s, steps[0]), L, steps[1..]);
    }
  }

  // ---- what an arrival is answered -------------------------------------------------------------

  ghost predicate Waiting(s: State, p: Project) {
    exists k :: k in s.queued && k !in s.active && s.queued[k].projectId == p
  }

  lemma LanesAreWaiting(s: State, p: Project)
    requires Core(s)
    ensures p in s.lanes <==> Waiting(s, p)
  {
    if p in s.lanes {
      TakeKeepsLanes(s, p);
    }
  }

  /** Someone else has more than one attention retained, and one of them waits. */
  ghost predicate SomeoneYields(s: State) {
    exists q :: Waiting(s, q) && Retained(s.queued, q) > 1
  }

  /** Room can be made for one more attention of the project. */
  ghost predicate RoomFor(s: State, L: Limits, p: Project) {
    if Retained(s.queued, p) >= L.projectLimit then Waiting(s, p)
    else if |s.queued| < L.bufferLimit then true
    else if Retained(s.queued, p) == 0 then SomeoneYields(s)
    else Waiting(s, p)
  }

  lemma RoomIsMade(s: State, L: Limits, p: Project)
    requires Core(s)
    ensures MakeRoom(s, L, p).1 <==> RoomFor(s, L, p)
  {
    assert Retained(s.queued, p) == 0 ==> p !in s.order;
    assert forall q :: q in s.order <==> Retained(s.queued, q) > 0;
    hide Core, Evict, EvictForNewProject, Waiting, Retained;
    forall q ensures q in s.lanes <==> Waiting(s, q) { LanesAreWaiting(s, q); }
    EvictKeepsCore(s, p);
    if Retained(s.queued, p) == 0 && Retained(s.queued, p) < L.projectLimit && |s.queued| >= L.bufferLimit {
      var victim := EvictionFallsOnTheFullest(s, p);
    }
  }

  /** An arrival is deferred exactly when its domain is retained, or its project is full and nothing of it waits;
      it is answered global-full exactly when the buffer is full and nobody can yield; otherwise it is admitted,
      and only then is it retained, in its own domain. */
  lemma ArrivalIsAnswered(s: State, L: Limits, a: Attention)
    requires Core(s)
    ensures var (t, answer) := Enqueue(s, L, a); var key, p := ConflictDomain(a), a.projectId;
      && (answer == Deferred <==>
            key in s.queued || (Retained(s.queued, p) >= L.projectLimit && !RoomFor(s, L, p)))
      && (answer == GlobalFull <==>
            key !in s.queued && Retained(s.queued, p) < L.projectLimit && !RoomFor(s, L, p))
      && (answer == Admitted ==> key !in s.queued && key in t.queued && t.queued[key] == a)
      && (answer != Admitted ==> t.queued == s.queued)
  {
    hide Core, MakeRoom, Pump, ConflictDomain, RoomFor;
    var key, p := ConflictDomain(a), a.projectId;
    RunningIsKept(s, key);
    RoomIsMade(s, L, p);
    MakeRoomKeepsCore(s, L, p);
    if key !in s.queued && MakeRoom(s, L, p).1 {
      InsertKeepsCore(MakeRoom(s, L, p).0, key, a);
      PumpKeepsRetained(Insert(MakeRoom(s, L, p).0, key, a), L.concurrency);
    }
  }
}
