/** Whose turn it is: the ring of projects, and what it means for the dispatches that are started. */
module AttentionTurns {
  import opened Machines
  import opened Sequences
  import opened AttentionQueue
  import opened AttentionTheorems

  // ---- round robin -----------------------------------------------------------------------------

  ghost function Pops(log: seq<Event>): seq<Project> {
    if log == [] then [] else
    var n := |log| - 1;
    Pops(log[..n]) + if log[n].Popped? then [log[n].project] else []
  }

  lemma PopsAppend(log: seq<Event>, e: Event)
    ensures Pops(log + [e]) == Pops(log) + if e.Popped? then [e.project] else []
  {
    assert (log + [e])[..|log|] == log;
  }

  /** Everything that ever joined the ring, in order: the turns taken, then the turns to come. */
  ghost function Flow(s: State): seq<Project> {
    Pops(s.log) + s.ring
  }

  lemma {:induction false} PumpExtendsFlow(s: State, c: nat)
    requires Core(s)
    ensures Flow(s) <= Flow(Pump(s, c)) && Pops(s.log) <= Pops(Pump(s, c).log)
    decreases c - |s.active|, |s.ring|
  {
    if |s.active| < c && s.ring != [] {
      PopOneKeepsCore(s);
      PopOneExtendsFlow(s);
      PumpExtendsFlow(PopOne(s), c);
    }
  }

  lemma PopOneExtendsFlow(s: State)
    requires s.ring != []
    ensures Pops(PopOne(s).log) == Pops(s.log) + [s.ring[0]]
    ensures Flow(s) <= Flow(PopOne(s))
  {
    var p, lane, t := s.ring[0], Lane(s, s.ring[0]), PopOne(s);
    PopsAppend(s.log, Popped(p));
    if lane != [] {
      PopsAppend(s.log + [Popped(p)], Started(lane[0], p));
      assert t.log == s.log + [Popped(p)] + [Started(lane[0], p)];
    }
    Requeue(Pops(s.log), s.ring, t.ring);
  }

  lemma Requeue(taken: seq<Project>, ring: seq<Project>, after: seq<Project>)
    requires ring != [] && (after == ring[1..] || after == ring[1..] + [ring[0]])
    ensures taken + ring <= taken + [ring[0]] + after
  {
    assert taken + ring == taken + [ring[0]] + ring[1..];
  }

  lemma EvictKeepsFlow(s: State, p: Project)
    requires Core(s)
    ensures Flow(Evict(s, p).0) == Flow(s) && Pops(Evict(s, p).0.log) == Pops(s.log)
  {
    hide Core, Pops, SetLane, Retained;
    if Lane(s, p) != [] {
      PopsAppend(s.log, Evicted(s.lanes[p][0], p));
    }
  }

  ghost predicate Extends(s: State, t: State) {
    Flow(s) <= Flow(t) && Pops(s.log) <= Pops(t.log)
  }

  lemma InsertExtendsFlow(s: State, key: Key, a: Attention)
    ensures Extends(s, Insert(s, key, a))
  {
    var t := Insert(s, key, a);
    assert t.log == s.log + [Accepted(key, a.projectId)] && s.ring <= t.ring;
    PopsAppend(s.log, Accepted(key, a.projectId));
    hide Insert;
    assert Pops(t.log) == Pops(s.log);
  }

  lemma ArriveExtendsFlow(s: State, L: Limits, a: Attention)
    requires Core(s)
    ensures Extends(s, Enqueue(s, L, a).0)
  {
    hide MakeRoom, Insert, Pump, Pops;
    var key, p := ConflictDomain(a), a.projectId;
    if key in s.queued {
      PopsAppend(s.log, SameDomain(key));
    } else {
      var t := MakeRoom(s, L, p).0;
      MakeRoomKeepsCore(s, L, p);
      MakeRoomKeepsFlow(s, L, p);
      if MakeRoom(s, L, p).1 {
        InsertKeepsCore(t, key, a);
        InsertExtendsFlow(t, key, a);
        PumpExtendsFlow(Insert(t, key, a), L.concurrency);
      } else {
        PopsAppend(t.log, LimitRejected(p));
      }
    }
  }

  lemma EndExtendsFlow(s: State, L: Limits, key: Key, outcome: Outcome)
    requires Core(s) && key in s.active
    ensures Extends(s, Complete(s, L, key, outcome))
  {
    hide Pump, Pops, Settle;
    SettleKeepsCore(s, key, outcome);
    SettleExtendsFlow(s, key, outcome);
    PumpExtendsFlow(Settle(s, key, outcome), L.concurrency);
  }

  lemma SettleExtendsFlow(s: State, key: Key, outcome: Outcome)
    requires key in s.queued
    ensures Extends(s, Settle(s, key, outcome))
  {
    hide Pops, Forget;
    SettleKeepsRing(s, key, outcome);
    PopsAppend(s.log, Completed(key, outcome));
  }

  lemma SettleKeepsRing(s: State, key: Key, outcome: Outcome)
    requires key in s.queued
    ensures Settle(s, key, outcome).ring == s.ring && Settle(s, key, outcome).log == s.log + [Completed(key, outcome)]
  {
  }

  lemma MakeRoomKeepsFlow(s: State, L: Limits, p: Project)
    requires Core(s)
    ensures Flow(MakeRoom(s, L, p).0) == Flow(s) && Pops(MakeRoom(s, L, p).0.log) == Pops(s.log)
  {
    assert Retained(s.queued, p) == 0 ==> p !in s.order;
    hide Core, Evict, EvictForNewProject, Flow, Pops;
    EvictKeepsFlow(s, p);
    if Retained(s.queued, p) == 0 && Retained(s.queued, p) < L.projectLimit && |s.queued| >= L.bufferLimit {
      var victim := EvictionFallsOnTheFullest(s, p);
      EvictKeepsFlow(s, victim);
    }
  }

  lemma RunExtendsFlow(s: State, L: Limits, steps: seq<Step>)
    requires Core(s) && Legal(Scheduler(L), s, steps)
    ensures Extends(s, After(Scheduler(L), s, steps))
  {
    forall x: State, step: Step | Core(x) && CanTake(x, step) ensures Extends(x, Take(x, L, step)) {
      match step
      case Arrive(a) => ArriveExtendsFlow(x, L, a);
      case End(key, outcome) => EndExtendsFlow(x, L, key, outcome);
    }
    RunRelates(Scheduler(L), Core, Extends, s, steps);
  }

  /** Round robin: whatever arrives or ends meanwhile, the project at position `i` of the ring takes
      exactly the (i+1)-st turn from now, and no project takes two turns before that. */
  lemma RoundRobin(s: State, L: Limits, steps: seq<Step>, i: nat)
    requires Core(s) && Legal(Scheduler(L), s, steps) && i < |s.ring|
    ensures var n := |Pops(s.log)|; var turns := Pops(After(Scheduler(L), s, steps).log);
      && n <= |turns|
      && (n + i < |turns| ==> turns[n + i] == s.ring[i])
      && forall a, b :: n <= a < b <= n + i && b < |turns| ==> turns[a] != turns[b]
  {
    RunExtendsFlow(s, L, steps);
    QueueOrder(s, After(Scheduler(L), s, steps), i);
  }

  lemma QueueOrder(s: State, t: State, i: nat)
    requires Distinct(s.ring) && Extends(s, t) && i < |s.ring|
    ensures var n := |Pops(s.log)|; var turns := Pops(t.log);
      && n <= |turns|
      && (n + i < |turns| ==> turns[n + i] == s.ring[i])
      && forall a, b :: n <= a < b <= n + i && b < |turns| ==> turns[a] != turns[b]
  {
    var n := |Pops(s.log)|;
    var turns := Pops(t.log);
    forall j | n <= j <= n + i && j < |turns| ensures turns[j] == s.ring[j - n] {
      assert Flow(t)[j] == turns[j] && Flow(s)[j] == s.ring[j - n];
    }
  }

  /** A turn of a project that has something waiting starts its oldest waiting domain. */
  lemma TurnStartsTheOldest(s: State)
    requires Core(s) && s.ring != [] && s.ring[0] in s.lanes
    ensures var p := s.ring[0]; var key := s.lanes[p][0];
      && key !in s.active && PopOne(s).active == s.active + {key}
      && PopOne(s).log == s.log + [Popped(p), Started(key, p)]
      && Lane(PopOne(s), p) == s.lanes[p][1..]
      && (s.lanes[p][1..] != [] ==> PopOne(s).ring == s.ring[1..] + [p])
  {
    TakeKeepsLanes(s, s.ring[0]);
  }

  /** A turn is skipped exactly when the project has nothing waiting. */
  lemma SkippedExactlyWithoutWork(s: State)
    requires Core(s) && s.ring != []
    ensures PopOne(s).log == s.log + [Popped(s.ring[0])] <==> s.ring[0] !in s.lanes
  {
  }

  // ---- dispatches ------------------------------------------------------------------------------

  ghost predicate StartedBy(log: seq<Event>, i: int, p: Project) {
    0 <= i < |log| && log[i].Started? && log[i].project == p
  }

  /** From `n` on, every start follows its turn. */
  ghost predicate StartsFollowTurns(log: seq<Event>, n: nat) {
    forall i, p :: n <= i && StartedBy(log, i, p) ==> n < i && log[i - 1] == Popped(p)
  }

  ghost predicate Continues(s: State, t: State) {
    s.log <= t.log && StartsFollowTurns(t.log, |s.log|)
  }

  lemma ContinuesChains(s: State, t: State, u: State)
    requires Continues(s, t) && Continues(t, u)
    ensures Continues(s, u)
  {
    forall i, p | |s.log| <= i && StartedBy(u.log, i, p) ensures |s.log| < i && u.log[i - 1] == Popped(p) {
      if i < |t.log| {
        assert StartedBy(t.log, i, p);
      }
    }
  }

  lemma OneMore(s: State, t: State, e: Event)
    requires t.log == s.log + [e] && !e.Started?
    ensures Continues(s, t)
  {
  }

  lemma {:induction false} PumpContinues(s: State, c: nat)
    requires Core(s)
    ensures Continues(s, Pump(s, c))
    decreases c - |s.active|, |s.ring|
  {
    hide Continues, PopOne;
    NothingContinues(s);
    if |s.active| < c && s.ring != [] {
      PopOneKeepsCore(s);
      PopOneContinues(s);
      PumpContinues(PopOne(s), c);
      ContinuesChains(s, PopOne(s), Pump(s, c));
    }
  }

  lemma NothingContinues(s: State)
    ensures Continues(s, s)
  {
  }

  lemma PopOneContinues(s: State)
    requires s.ring != []
    ensures Continues(s, PopOne(s))
  {
  }

  lemma EvictContinues(s: State, p: Project)
    ensures Continues(s, Evict(s, p).0)
  {
  }

  lemma MakeRoomContinues(s: State, L: Limits, p: Project)
    requires Core(s)
    ensures Continues(s, MakeRoom(s, L, p).0)
  {
    assert Retained(s.queued, p) == 0 ==> p !in s.order;
    hide Core, Evict, EvictForNewProject, Continues;
    NothingContinues(s);
    EvictContinues(s, p);
    if Retained(s.queued, p) == 0 && Retained(s.queued, p) < L.projectLimit && |s.queued| >= L.bufferLimit {
      var victim := EvictionFallsOnTheFullest(s, p);
      EvictContinues(s, victim);
    }
  }

  lemma ArriveContinues(s: State, L: Limits, a: Attention)
    requires Core(s)
    ensures Continues(s, Enqueue(s, L, a).0)
  {
    hide MakeRoom, Pump, Continues;
    var key, p := ConflictDomain(a), a.projectId;
    var u := Enqueue(s, L, a).0;
    if key in s.queued {
      OneMore(s, u, SameDomain(key));
    } else {
      var t := MakeRoom(s, L, p).0;
      MakeRoomKeepsCore(s, L, p);
      MakeRoomContinues(s, L, p);
      if MakeRoom(s, L, p).1 {
        var v := Insert(t, key, a);
        InsertKeepsCore(t, key, a);
        OneMore(t, v, Accepted(key, a.projectId));
        PumpContinues(v, L.concurrency);
        ContinuesChains(t, v, u);
      } else {
        OneMore(t, u, LimitRejected(p));
      }
      ContinuesChains(s, t, u);
    }
  }

  lemma EndContinues(s: State, L: Limits, key: Key, outcome: Outcome)
    requires Core(s) && key in s.active
    ensures Continues(s, Complete(s, L, key, outcome))
  {
    hide Pump, Continues;
    var t := Settle(s, key, outcome);
    SettleKeepsCore(s, key, outcome);
    OneMore(s, t, Completed(key, outcome));
    PumpContinues(t, L.concurrency);
    ContinuesChains(s, t, Complete(s, L, key, outcome));
  }

  lemma RunContinues(s: State, L: Limits, steps: seq<Step>)
    requires Core(s) && Legal(Scheduler(L), s, steps)
    ensures Continues(s, After(Scheduler(L), s, steps))
  {
    hide Continues;
    forall x: State, step: Step | Core(x) && CanTake(x, step) ensures Continues(x, Take(x, L, step)) {
      match step
      case Arrive(a) => ArriveContinues(x, L, a);
      case End(key, outcome) => EndContinues(x, L, key, outcome);
    }
    forall x: State ensures Continues(x, x) { NothingContinues(x); }
    forall x: State, y: State, z: State | Continues(x, y) && Continues(y, z) ensures Continues(x, z) {
      ContinuesChains(x, y, z);
    }
    RunRelates(Scheduler(L), Core, Continues, s, steps);
  }

  /** How many turns were taken before position `i`. */
  ghost function Turn(log: seq<Event>, i: nat): nat
    requires i <= |log|
  {
    |Pops(log[..i])|
  }

  lemma {:induction false} TurnsGrow(log: seq<Event>, i: nat, j: nat)
    requires i <= j <= |log|
    ensures Pops(log[..i]) <= Pops(log[..j])
    decreases j - i
  {
    if i < j {
      TurnsGrow(log, i, j - 1);
      assert log[..j] == log[..j - 1] + [log[j - 1]];
      PopsAppend(log[..j - 1], log[j - 1]);
    }
  }

  /** The turn taken at a position is the one counted there. */
  lemma TurnAt(log: seq<Event>, i: nat)
    requires i < |log| && log[i].Popped?
    ensures Turn(log, i + 1) == Turn(log, i) + 1 <= |Pops(log)| && Pops(log)[Turn(log, i)] == log[i].project
  {
    assert log[..i + 1] == log[..i] + [log[i]] && log[..|log|] == log;
    PopsAppend(log[..i], log[i]);
    TurnsGrow(log, i + 1, |log|);
  }

  /** Every turn between two positions was taken at a position between them. */
  lemma {:induction false} TurnSits(log: seq<Event>, i: nat, j: nat, n: nat) returns (m: nat)
    requires i <= j <= |log| && Turn(log, i) <= n < Turn(log, j)
    ensures i <= m < j && log[m].Popped? && Turn(log, m) == n
    decreases j - i
  {
    assert log[..j] == log[..j - 1] + [log[j - 1]];
    PopsAppend(log[..j - 1], log[j - 1]);
    if n < Turn(log, j - 1) {
      m := TurnSits(log, i, j - 1, n);
    } else {
      m := j - 1;
    }
  }

  /** From `n` on, no turn of the project is skipped. */
  ghost predicate NeverSkipped(log: seq<Event>, n: nat, p: Project) {
    forall i :: n <= i < |log| && log[i] == Popped(p) ==> StartedBy(log, i + 1, p)
  }

  /** From turn `n` on, `p` has the turn `i` turns later, and nobody two turns before. */
  ghost predicate RingOrder(turns: seq<Project>, n: nat, i: nat, p: Project) {
    && (n + i < |turns| ==> turns[n + i] == p)
    && forall x, y :: n <= x < y <= n + i && y < |turns| ==> turns[x] != turns[y]
  }

  lemma RunFollowsRing(s: State, L: Limits, steps: seq<Step>, p: Project) returns (i: nat)
    requires Core(s) && Legal(Scheduler(L), s, steps) && p in s.lanes
    ensures RingOrder(Pops(After(Scheduler(L), s, steps).log), |Pops(s.log)|, i, p)
  {
    hide Pops;
    i :| 0 <= i < |s.ring| && s.ring[i] == p;
    RoundRobin(s, L, steps, i);
  }

  lemma TurnBefore(log: seq<Event>, n: nat, a: nat, q: Project)
    requires StartsFollowTurns(log, n) && n <= a && StartedBy(log, a, q)
    ensures n < a < |log| && log[a - 1] == Popped(q)
  {
  }

  /** No starvation: while a project has something waiting at each of its turns, no other project is
      dispatched twice before it is dispatched once, whatever arrives or ends meanwhile. */
  lemma NobodyIsDispatchedTwiceBefore(s: State, L: Limits, steps: seq<Step>, p: Project, q: Project, a: nat, b: nat)
    requires Core(s) && Legal(Scheduler(L), s, steps) && p in s.lanes && p != q
    requires var log := After(Scheduler(L), s, steps).log;
      && |s.log| <= a < b && StartedBy(log, a, q) && StartedBy(log, b, q)
      && NeverSkipped(log, |s.log|, p)
    ensures var log := After(Scheduler(L), s, steps).log;
      exists c :: |s.log| <= c < b && StartedBy(log, c, p)
  {
    hide Core, Legal, After, Pops, RingOrder, StartsFollowTurns, NeverSkipped, StartedBy;
    RunContinues(s, L, steps);
    var i := RunFollowsRing(s, L, steps, p);
    TwoTurns(s.log, After(Scheduler(L), s, steps).log, p, q, a, b, i);
  }

  /** The same about a log whose turns are in ring order. */
  lemma TwoTurns(before: seq<Event>, log: seq<Event>, p: Project, q: Project, a: nat, b: nat, i: nat)
    requires before <= log && |before| <= a < b && StartedBy(log, a, q) && StartedBy(log, b, q) && p != q
    requires StartsFollowTurns(log, |before|) && NeverSkipped(log, |before|, p)
    requires RingOrder(Pops(log), |Pops(before)|, i, p)
    ensures exists c :: |before| <= c < b && StartedBy(log, c, p)
  {
    hide Pops, RingOrder, StartsFollowTurns, NeverSkipped, StartedBy, Turn;
    var n := |Pops(before)|;
    TurnBefore(log, |before|, a, q);
    TurnBefore(log, |before|, b, q);
    TurnsInOrder(before, log, a - 1, b - 1);
    TwoInOrder(Pops(log), n, i, p, q, Turn(log, a - 1), Turn(log, b - 1));
    var m := TurnSits(log, |before|, b - 1, n + i);
    TurnAt(log, m);
    SkipsNot(log, |before|, p, m, Pops(log)[n + i], n, i);
    assert StartedBy(log, m + 1, p);
  }

  lemma SkipsNot(log: seq<Event>, start: nat, p: Project, m: nat, r: Project, n: nat, i: nat)
    requires RingOrder(Pops(log), n, i, p) && n + i < |Pops(log)| && r == Pops(log)[n + i]
    requires NeverSkipped(log, start, p) && start <= m < |log| && log[m] == Popped(r)
    ensures StartedBy(log, m + 1, p)
  {
    hide Pops;
  }

  lemma TurnsInOrder(before: seq<Event>, log: seq<Event>, a: nat, b: nat)
    requires before <= log && |before| <= a < b < |log| && log[a].Popped? && log[b].Popped?
    ensures |Pops(before)| == Turn(log, |before|) <= Turn(log, a) < Turn(log, b) < |Pops(log)|
    ensures Pops(log)[Turn(log, a)] == log[a].project && Pops(log)[Turn(log, b)] == log[b].project
  {
    hide Pops;
    assert log[..|before|] == before;
    TurnAt(log, a);
    TurnAt(log, b);
    TurnsGrow(log, |before|, a);
    TurnsGrow(log, a + 1, b);
  }

  lemma TwoInOrder(turns: seq<Project>, n: nat, i: nat, p: Project, q: Project, x: nat, y: nat)
    requires RingOrder(turns, n, i, p) && p != q && n <= x < y < |turns| && turns[x] == turns[y] == q
    ensures n + i < y
  {
  }
}
