/** Who comes first: domains of a project leave their lane in the order they were accepted, and among projects that
    retain equally many an eviction falls on the one that has had something retained for longest. */
module AttentionOrder {
  import opened Machines
  import opened Sequences
  import opened AttentionQueue
  import opened AttentionTheorems
  import opened AttentionBalance

  // ---- first in, first out ---------------------------------------------------------------------

  /** The domains accepted for a project, oldest first. */
  function Entered(log: seq<Event>, p: Project): seq<Key> {
    if log == [] then [] else
    var e := log[|log| - 1];
    Entered(log[..|log| - 1], p) + if e.Accepted? && e.project == p then [e.key] else []
  }

  /** The domains that left its lane, started or evicted, oldest first. */
  function Departed(log: seq<Event>, p: Project): seq<Key> {
    if log == [] then [] else
    var e := log[|log| - 1];
    Departed(log[..|log| - 1], p) + if (e.Started? || e.Evicted?) && e.project == p then [e.key] else []
  }

  /** Those who entered first left first, and the others wait in the order they came. */
  ghost predicate InOrder(s: State) {
    forall p :: Entered(s.log, p) == Departed(s.log, p) + Lane(s, p)
  }

  lemma OneMoreEvent(log: seq<Event>, e: Event, p: Project)
    ensures Entered(log + [e], p) == Entered(log, p) + if e.Accepted? && e.project == p then [e.key] else []
    ensures Departed(log + [e], p) ==
      Departed(log, p) + if (e.Started? || e.Evicted?) && e.project == p then [e.key] else []
  {
    assert (log + [e])[..|log|] == log;
  }

  /** What an event does to the lane of its project. */
  ghost predicate LaneMoves(s: State, t: State, e: Event) {
    forall p :: Lane(t, p) ==
      if e.Accepted? && e.project == p then Lane(s, p) + [e.key]
      else if (e.Started? || e.Evicted?) && e.project == p && Lane(s, p) != [] then Lane(s, p)[1..]
      else Lane(s, p)
  }

  lemma EventInOrder(s: State, t: State, e: Event)
    requires InOrder(s) && t.log == s.log + [e] && LaneMoves(s, t, e)
    requires e.Started? || e.Evicted? ==> Lane(s, e.project) != [] && Lane(s, e.project)[0] == e.key
    ensures InOrder(t)
  {
    hide Lane, Entered, Departed;
    forall p ensures Entered(t.log, p) == Departed(t.log, p) + Lane(t, p) {
      OneMoreEvent(s.log, e, p);
      if (e.Started? || e.Evicted?) && e.project == p {
        HeadAndRest(Departed(s.log, p), Lane(s, p));
      } else if e.Accepted? && e.project == p {
        Regrouped(Departed(s.log, p), Lane(s, p), e.key);
      } else {
        assert Entered(t.log, p) == Entered(s.log, p) && Departed(t.log, p) == Departed(s.log, p);
      }
    }
  }

  lemma HeadAndRest(departed: seq<Key>, lane: seq<Key>)
    requires lane != []
    ensures departed + lane == departed + [lane[0]] + lane[1..]
    ensures departed + lane == departed + lane + []
  {
  }

  lemma Regrouped(departed: seq<Key>, lane: seq<Key>, key: Key)
    ensures departed + lane + [key] == departed + (lane + [key])
    ensures departed + [] == departed
  {
  }

  lemma PopInOrder(s: State)
    requires Core(s) && s.ring != [] && InOrder(s)
    ensures InOrder(PopOne(s))
  {
    hide InOrder, Core;
    var p := s.ring[0];
    var popped := s.(log := s.log + [Popped(p)]);
    EventInOrder(s, popped, Popped(p));
    if Lane(s, p) == [] {
      Unread(popped, PopOne(s));
    } else {
      var e := Started(Lane(s, p)[0], p);
      assert PopOne(s).log == popped.log + [e];
      EventInOrder(popped, PopOne(s), e);
    }
  }

  lemma Unread(s: State, t: State)
    requires InOrder(s) && t.log == s.log && t.lanes == s.lanes
    ensures InOrder(t)
  {
  }

  lemma {:induction false} PumpInOrder(s: State, c: nat)
    requires Core(s) && InOrder(s)
    ensures InOrder(Pump(s, c))
    decreases c - |s.active|, |s.ring|
  {
    hide InOrder, PopOne;
    if |s.active| < c && s.ring != [] {
      PopOneKeepsCore(s);
      PopInOrder(s);
      PumpInOrder(PopOne(s), c);
    }
  }

  lemma EvictInOrder(s: State, p: Project)
    requires Core(s) && InOrder(s)
    ensures InOrder(Evict(s, p).0)
  {
    hide InOrder, Retained, Core;
    EvictKeepsCore(s, p);
    if Evict(s, p).1 {
      EventInOrder(s, Evict(s, p).0, Evicted(Lane(s, p)[0], p));
    }
  }

  lemma MakeRoomInOrder(s: State, L: Limits, p: Project)
    requires Core(s) && InOrder(s)
    ensures InOrder(MakeRoom(s, L, p).0)
  {
    assert Retained(s.queued, p) == 0 ==> p !in s.order;
    hide Core, Evict, EvictForNewProject, InOrder;
    EvictInOrder(s, p);
    if Retained(s.queued, p) == 0 && Retained(s.queued, p) < L.projectLimit && |s.queued| >= L.bufferLimit {
      var victim := EvictionFallsOnTheFullest(s, p);
      EvictInOrder(s, victim);
    }
  }

  lemma InsertInOrder(s: State, key: Key, a: Attention)
    requires InOrder(s)
    ensures InOrder(Insert(s, key, a))
  {
    hide InOrder;
    EventInOrder(s, Insert(s, key, a), Accepted(key, a.projectId));
  }

  lemma StepInOrder(s: State, L: Limits, step: Step)
    requires CanTake(s, step) && InOrder(s)
    ensures InOrder(Take(s, L, step))
  {
    hide InOrder, MakeRoom, Insert, Pump, Core, ConflictDomain, Settle;
    match step
    case Arrive(a) =>
      var key, p := ConflictDomain(a), a.projectId;
      RunningIsKept(s, key);
      if key in s.queued {
        EventInOrder(s, Take(s, L, step), SameDomain(key));
      } else {
        var t := MakeRoom(s, L, p).0;
        MakeRoomKeepsCore(s, L, p);
        MakeRoomInOrder(s, L, p);
        if MakeRoom(s, L, p).1 {
          InsertKeepsCore(t, key, a);
          InsertInOrder(t, key, a);
          PumpInOrder(Insert(t, key, a), L.concurrency);
        } else {
          EventInOrder(t, Take(s, L, step), LimitRejected(p));
        }
      }
    case End(key, outcome) =>
      RunningIsKept(s, key);
      SettleKeepsCore(s, key, outcome);
      SettleInOrder(s, key, outcome);
      PumpInOrder(Settle(s, key, outcome), L.concurrency);
  }

  lemma SettleInOrder(s: State, key: Key, outcome: Outcome)
    requires key in s.queued && InOrder(s)
    ensures InOrder(Settle(s, key, outcome))
  {
    hide InOrder, Retained;
    EventInOrder(s, Settle(s, key, outcome), Completed(key, outcome));
  }

  /** Over every run the domains of a project are started or evicted in the order they were accepted, and those
      that are left wait in that order. */
  lemma FirstInFirstOut(L: Limits, steps: seq<Step>, p: Project)
    requires Legal(Scheduler(L), Empty, steps)
    ensures var s := After(Scheduler(L), Empty, steps); Entered(s.log, p) == Departed(s.log, p) + Lane(s, p)
  {
    hide Core, Take;
    EmptyIsCore();
    EmptyIsInOrder();
    var inv := (s: State) => Core(s) && InOrder(s);
    forall s: State, step: Step | inv(s) && Scheduler(L).enabled(s, step) ensures inv(Scheduler(L).next(s, step)) {
      StepInOrder(s, L, step);
    }
    RunKeeps(Scheduler(L), inv, Empty, steps);
  }

  lemma EmptyIsInOrder()
    ensures InOrder(Empty)
  {
  }

  // ---- a stable choice -------------------------------------------------------------------------

  /** The projects with this count, in the order they come. */
  function OfCount(count: map<Project, nat>, ps: seq<Project>, c: nat): (r: seq<Project>)
    requires forall q :: q in ps ==> q in count
    ensures forall q :: q in r <==> q in ps && count[q] == c
  {
    if ps == [] then [] else
    assert ps == [ps[0]] + ps[1..];
    (if count[ps[0]] == c then [ps[0]] else []) + OfCount(count, ps[1..], c)
  }

  lemma {:induction false} OfCountJoins(count: map<Project, nat>, ps: seq<Project>, qs: seq<Project>, c: nat)
    requires forall q :: q in ps || q in qs ==> q in count
    ensures forall q :: q in ps + qs ==> q in count
    ensures OfCount(count, ps + qs, c) == OfCount(count, ps, c) + OfCount(count, qs, c)
    decreases |ps|
  {
    if ps == [] {
      assert ps + qs == qs;
    } else {
      assert (ps + qs)[1..] == ps[1..] + qs;
      OfCountJoins(count, ps[1..], qs, c);
    }
  }

  lemma OneOfCount(count: map<Project, nat>, p: Project, c: nat)
    requires p in count
    ensures OfCount(count, [p], c) == if count[p] == c then [p] else []
  {
    assert [p][1..] == [];
  }

  lemma {:induction false} InsertIsStable(count: map<Project, nat>, ps: seq<Project>, p: Project, c: nat)
    requires p in count && (forall q :: q in ps ==> q in count) && Falling(count, ps)
    ensures OfCount(count, InsertByCount(count, ps, p), c) ==
      OfCount(count, ps, c) + if count[p] == c then [p] else []
    decreases |ps|
  {
    hide OfCount, Falling;
    OneOfCount(count, p, c);
    if ps == [] {
      NobodyOfCount(count, [], c);
    } else if count[ps[0]] < count[p] {
      if count[p] == c { NoneOfCount(count, ps, c); }
      OfCountJoins(count, [p], ps, c);
    } else {
      var x, tail := ps[0], ps[1..];
      assert ps == [x] + tail;
      FallingRest(count, ps);
      InsertIsStable(count, tail, p, c);
      OfCountJoins(count, [x], tail, c);
      OfCountJoins(count, [x], InsertByCount(count, tail, p), c);
    }
  }

  lemma FallingRest(count: map<Project, nat>, ps: seq<Project>)
    requires ps != [] && (forall q :: q in ps ==> q in count) && Falling(count, ps)
    ensures (forall q :: q in ps[1..] ==> q in count) && Falling(count, ps[1..])
  {
  }

  lemma NoneOfCount(count: map<Project, nat>, ps: seq<Project>, c: nat)
    requires ps != [] && (forall q :: q in ps ==> q in count) && Falling(count, ps) && count[ps[0]] < c
    ensures OfCount(count, ps, c) == []
  {
    forall q | q in ps ensures count[q] < c {
      var i :| 0 <= i < |ps| && ps[i] == q;
    }
    NobodyOfCount(count, ps, c);
  }

  lemma {:induction false} NobodyOfCount(count: map<Project, nat>, ps: seq<Project>, c: nat)
    requires forall q :: q in ps ==> q in count && count[q] != c
    ensures OfCount(count, ps, c) == []
    decreases |ps|
  {
    if ps != [] {
      assert ps == [ps[0]] + ps[1..];
      NobodyOfCount(count, ps[1..], c);
    }
  }

  /** Sorting leaves projects of equal count in the order they came. */
  lemma {:induction false} SortIsStable(count: map<Project, nat>, ps: seq<Project>, c: nat)
    requires forall q :: q in ps ==> q in count
    ensures OfCount(count, SortByCount(count, ps), c) == OfCount(count, ps, c)
    decreases |ps|
  {
    hide OfCount, InsertByCount, Falling;
    if ps != [] {
      var n := |ps| - 1;
      assert ps == ps[..n] + [ps[n]];
      SortIsStable(count, ps[..n], c);
      SortFalls(count, ps[..n]);
      InsertIsStable(count, SortByCount(count, ps[..n]), ps[n], c);
      OfCountJoins(count, ps[..n], [ps[n]], c);
      OneOfCount(count, ps[n], c);
    }
  }

  ghost predicate Before(ps: seq<Project>, p: Project, q: Project) {
    exists i, j :: 0 <= i < j < |ps| && ps[i] == p && ps[j] == q
  }

  /** Who comes before whom in a list with one more in front. */
  lemma BeforeCons(x: Project, rest: seq<Project>, p: Project, q: Project)
    ensures Before([x] + rest, p, q) <==> (p == x && q in rest) || Before(rest, p, q)
  {
    var ps := [x] + rest;
    if Before(ps, p, q) {
      var i, j :| 0 <= i < j < |ps| && ps[i] == p && ps[j] == q;
      assert rest[j - 1] == q && (i > 0 ==> rest[i - 1] == p);
    }
    if p == x && q in rest {
      var j :| 0 <= j < |rest| && rest[j] == q;
      assert ps[0] == p && ps[j + 1] == q;
    }
    if Before(rest, p, q) {
      var i, j :| 0 <= i < j < |rest| && rest[i] == p && rest[j] == q;
      assert ps[i + 1] == p && ps[j + 1] == q;
    }
  }

  lemma FirstOfCount(count: map<Project, nat>, before: seq<Project>, p: Project, after: seq<Project>, q: Project)
    requires forall x :: x in before + ([p] + after) ==> x in count
    requires p in count && q in after && q in count && count[q] == count[p]
    ensures Before(OfCount(count, before + ([p] + after), count[q]), p, q)
  {
    hide Before;
    var c := count[q];
    AllCounted(count, before, [p] + after);
    AllCounted(count, [p], after);
    OfCountJoins(count, before, [p] + after, c);
    OfCountJoins(count, [p], after, c);
    OneOfCount(count, p, c);
    BeforeJoin(OfCount(count, before, c), p, OfCount(count, after, c), q);
  }

  lemma AllCounted(count: map<Project, nat>, ps: seq<Project>, qs: seq<Project>)
    requires forall x :: x in ps + qs ==> x in count
    ensures forall x :: x in ps || x in qs ==> x in count
  {
  }

  lemma BeforeJoin(some: seq<Project>, p: Project, rest: seq<Project>, q: Project)
    requires q in rest
    ensures Before(some + ([p] + rest), p, q)
  {
    var all := some + ([p] + rest);
    var j :| 0 <= j < |rest| && rest[j] == q;
    assert all[|some|] == p && all[|some| + 1 + j] == q;
  }

  lemma {:induction false} BeforeAmongAll(count: map<Project, nat>, ps: seq<Project>, c: nat, p: Project, q: Project)
    requires (forall x :: x in ps ==> x in count) && Before(OfCount(count, ps, c), p, q)
    ensures Before(ps, p, q)
    decreases |ps|
  {
    hide Before;
    if ps == [] {
      NothingBefore(p, q);
    } else {
      var x, rest := ps[0], ps[1..];
      assert ps == [x] + rest;
      BeforeCons(x, rest, p, q);
      BeforeCons(x, OfCount(count, rest, c), p, q);
      assert [] + OfCount(count, rest, c) == OfCount(count, rest, c);
      if Before(OfCount(count, rest, c), p, q) { BeforeAmongAll(count, rest, c, p, q); }
    }
  }

  lemma NothingBefore(p: Project, q: Project)
    ensures !Before([], p, q)
  {
  }

  lemma {:induction false} BeforeIsKept(
    count: map<Project, nat>, ps: seq<Project>, except: Project, p: Project, q: Project)
    requires (forall x :: x in ps ==> x in count) && Before(Keep(count, ps, except), p, q)
    ensures Before(ps, p, q)
    decreases |ps|
  {
    hide Before;
    if ps == [] {
      NothingBefore(p, q);
    } else {
      var x, rest := ps[0], ps[1..];
      assert ps == [x] + rest;
      BeforeCons(x, rest, p, q);
      BeforeCons(x, Keep(count, rest, except), p, q);
      assert [] + Keep(count, rest, except) == Keep(count, rest, except);
      if Before(Keep(count, rest, except), p, q) { BeforeIsKept(count, rest, except, p, q); }
    }
  }

  lemma {:induction false} WithoutKeepsBefore(ps: seq<Project>, x: Project, p: Project, q: Project)
    requires Before(Without(ps, x), p, q)
    ensures Before(ps, p, q)
    decreases |ps|
  {
    hide Before;
    if ps == [] {
      NothingBefore(p, q);
    } else {
      assert ps == [ps[0]] + ps[1..];
      BeforeCons(ps[0], ps[1..], p, q);
      BeforeCons(ps[0], Without(ps[1..], x), p, q);
      if Before(Without(ps[1..], x), p, q) { WithoutKeepsBefore(ps[1..], x, p, q); }
    }
  }

  ghost predicate Rivals(s: State, p: Project, q: Project) {
    q in s.order && q != p && Retained(s.queued, q) == Retained(s.queued, p)
  }

  /** Among the fullest projects with something waiting, an eviction for a new project falls on the one that comes
      first in the order of the projects. */
  lemma TiesFallOnTheFirst(s: State, p: Project) returns (victim: Project)
    requires Core(s) && p !in s.order && EvictForNewProject(s, p).1
    ensures victim in s.lanes && EvictForNewProject(s, p).0 == Evict(s, victim).0
    ensures forall q :: q in s.lanes && q in s.order ==> Retained(s.queued, q) <= Retained(s.queued, victim)
    ensures forall q :: q in s.lanes && Rivals(s, victim, q) ==> Before(s.order, victim, q)
  {
    hide Core, Evict, EvictForNewProject, SortByCount, Keep, Retained, Before, OfCount;
    var count := Counts(s.queued, s.order);
    var candidates := Candidates(count, s.order, p);
    var i := FirstPick(s, p);
    victim := candidates[i];
    forall q | q in s.lanes && Rivals(s, victim, q) ensures Before(s.order, victim, q) {
      assert q in candidates;
      var j :| 0 <= j < |candidates| && candidates[j] == q;
      assert candidates == candidates[..i] + ([victim] + candidates[i + 1..]);
      assert candidates[i + 1..][j - i - 1] == q;
      FirstOfCount(count, candidates[..i], victim, candidates[i + 1..], q);
      SortIsStable(count, Keep(count, s.order, p), count[q]);
      BeforeAmongAll(count, Keep(count, s.order, p), count[q], victim, q);
      BeforeIsKept(count, s.order, p, victim, q);
    }
  }

  /** The first candidate with something waiting is evicted, and it is among the fullest. */
  lemma FirstPick(s: State, p: Project) returns (i: nat)
    requires Core(s) && p !in s.order && EvictForNewProject(s, p).1
    ensures var candidates := Candidates(Counts(s.queued, s.order), s.order, p);
      && i < |candidates| && candidates[i] in s.lanes && candidates[i] in s.order && candidates[i] != p
      && Retained(s.queued, candidates[i]) > 1
      && EvictForNewProject(s, p).0 == Evict(s, candidates[i]).0
      && (forall j :: 0 <= j < i ==> candidates[j] !in s.lanes)
      && forall q :: q in s.lanes && q in s.order ==> Retained(s.queued, q) <= Retained(s.queued, candidates[i])
  {
    hide Core, Evict, EvictFirst, SortByCount, Keep, Retained;
    var count := Counts(s.queued, s.order);
    var candidates := Candidates(count, s.order, p);
    var k := EvictFirstPicks(s, candidates);
    NothingPicked(s, candidates);
    LaneMeansRetained(s, p);
    EvictKeepsCore(s, p);
    NothingEvicted(s, p);
    SortFalls(count, Keep(count, s.order, p));
    i := k;
    assert candidates[i] in candidates;
    forall q | q in s.lanes && q in s.order ensures Retained(s.queued, q) <= Retained(s.queued, candidates[i]) {
      if Retained(s.queued, q) > 1 {
        assert q in candidates;
        var j :| 0 <= j < |candidates| && candidates[j] == q;
      }
    }
  }

  // ---- the order of the projects ---------------------------------------------------------------

  /** The order of the projects changes only in that some leave it and the one that is new comes last. */
  ghost predicate NewcomerLast(s: State, t: State, arriving: Option<Project>) {
    && (forall p :: p in t.order ==> p in s.order || arriving == Some(p))
    && forall p, q :: Before(t.order, p, q) ==> p in s.order && (Before(s.order, p, q) || arriving == Some(q))
  }

  lemma SameOrder(s: State, t: State, arriving: Option<Project>)
    requires t.order == s.order
    ensures NewcomerLast(s, t, arriving)
  {
  }

  lemma EvictKeepsOrder(s: State, p: Project)
    ensures NewcomerLast(s, Evict(s, p).0, None)
  {
    hide Retained, Before;
    SameOrder(s, s, None);
    if Evict(s, p).1 {
      var left := s.queued[Lane(s, p)[0]].projectId;
      forall x, y | Before(Without(s.order, left), x, y) ensures x in s.order && Before(s.order, x, y) {
        WithoutKeepsBefore(s.order, left, x, y);
        BeforeIsIn(s.order, x, y);
      }
      SameOrder(s, Evict(s, p).0.(order := s.order), None);
    }
  }

  lemma BeforeIsIn(ps: seq<Project>, p: Project, q: Project)
    requires Before(ps, p, q)
    ensures p in ps
  {
  }

  lemma InsertKeepsOrder(s: State, key: Key, a: Attention)
    ensures NewcomerLast(s, Insert(s, key, a), Some(a.projectId))
  {
    var t, r := Insert(s, key, a), a.projectId;
    forall p, q | Before(t.order, p, q) ensures p in s.order && (Before(s.order, p, q) || q == r) {
      var i, j :| 0 <= i < j < |t.order| && t.order[i] == p && t.order[j] == q;
      assert i < |s.order| && s.order[i] == p;
    }
  }

  lemma OrderChains(s: State, u: State, t: State, arriving: Option<Project>)
    requires NewcomerLast(s, u, None) && NewcomerLast(u, t, arriving)
    ensures NewcomerLast(s, t, arriving)
  {
    hide Before;
  }

  lemma MakeRoomKeepsOrder(s: State, L: Limits, p: Project)
    requires Core(s)
    ensures NewcomerLast(s, MakeRoom(s, L, p).0, None)
  {
    assert Retained(s.queued, p) == 0 ==> p !in s.order;
    hide Core, Evict, EvictForNewProject, NewcomerLast;
    EvictKeepsOrder(s, p);
    SameOrder(s, s, None);
    if Retained(s.queued, p) == 0 && Retained(s.queued, p) < L.projectLimit && |s.queued| >= L.bufferLimit {
      var victim := EvictionFallsOnTheFullest(s, p);
      EvictKeepsOrder(s, victim);
    }
  }

  lemma SettleKeepsOrder(s: State, key: Key, outcome: Outcome)
    requires key in s.queued
    ensures NewcomerLast(s, Settle(s, key, outcome), None)
  {
    hide Retained, Before;
    var left := s.queued[key].projectId;
    forall x, y | Before(Without(s.order, left), x, y) ensures x in s.order && Before(s.order, x, y) {
      WithoutKeepsBefore(s.order, left, x, y);
      BeforeIsIn(s.order, x, y);
    }
    forall x, y | Before(s.order, x, y) ensures x in s.order { BeforeIsIn(s.order, x, y); }
  }

  /** In every step the projects that stay keep their order, and the project of an arrival, if it had nothing
      retained, comes after all of them: so the first in the order has had something retained for longest. */
  lemma OrderIsByAge(s: State, L: Limits, step: Step)
    requires CanTake(s, step)
    ensures NewcomerLast(s, Take(s, L, step), if step.Arrive? then Some(step.attention.projectId) else None)
    ensures forall p :: p in Take(s, L, step).order <==> Retained(Take(s, L, step).queued, p) > 0
  {
    hide MakeRoom, Insert, Pump, Core, ConflictDomain, Settle, NewcomerLast;
    OrderIsRetained(Take(s, L, step));
    match step
    case Arrive(a) =>
      var key, p := ConflictDomain(a), a.projectId;
      RunningIsKept(s, key);
      if key in s.queued {
        SameOrder(s, Take(s, L, step), Some(p));
      } else {
        var t := MakeRoom(s, L, p).0;
        MakeRoomKeepsCore(s, L, p);
        MakeRoomKeepsOrder(s, L, p);
        if MakeRoom(s, L, p).1 {
          InsertKeepsCore(t, key, a);
          InsertKeepsOrder(t, key, a);
          OrderChains(s, t, Insert(t, key, a), Some(p));
          PumpKeepsRetained(Insert(t, key, a), L.concurrency);
          OrderUnread(s, Insert(t, key, a), Take(s, L, step), Some(p));
        } else {
          SameOrder(t, Take(s, L, step), Some(p));
          OrderChains(s, t, Take(s, L, step), Some(p));
        }
      }
    case End(key, outcome) =>
      RunningIsKept(s, key);
      SettleKeepsCore(s, key, outcome);
      SettleKeepsOrder(s, key, outcome);
      PumpKeepsRetained(Settle(s, key, outcome), L.concurrency);
      OrderUnread(s, Settle(s, key, outcome), Take(s, L, step), None);
  }

  lemma OrderUnread(s: State, t: State, u: State, arriving: Option<Project>)
    requires NewcomerLast(s, t, arriving) && u.order == t.order
    ensures NewcomerLast(s, u, arriving)
  {
  }

  lemma OrderIsRetained(s: State)
    requires Core(s)
    ensures forall p :: p in s.order <==> Retained(s.queued, p) > 0
  {
  }
}
