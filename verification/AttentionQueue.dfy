/**
 The attention scheduler as a value: what is retained, what runs, and in which order each project
 waits. The class in AttentionScheduler.dfy keeps eight collections that all derive from this one.
 */
module AttentionQueue {
  import opened Sequences

  datatype Project = Project(id: string)
  datatype Key = Key(name: string)

  datatype Attention = Attention(id: nat, projectId: Project, targetAgentId: string, threadRootId: string)

  datatype Limits = Limits(concurrency: nat, bufferLimit: nat, projectLimit: nat)

  datatype Outcome = Dispatched | Blocked | Retry | Failed

  datatype Admission = Admitted | Deferred | GlobalFull

  /** What happened, oldest first. */
  datatype Event =
    | SameDomain(key: Key)
    | LimitRejected(project: Project)
    | Evicted(key: Key, project: Project)
    | Accepted(key: Key, project: Project)
    | Completed(key: Key, outcome: Outcome)
    | Popped(project: Project)
    | Started(key: Key, project: Project)

  datatype State = State(
    queued: map<Key, Attention>,        // every retained attention, running or waiting
    active: set<Key>,                   // the domains being dispatched
    lanes: map<Project, seq<Key>>,      // waiting domains of a project, oldest first; never an empty lane
    ring: seq<Project>,                 // the round-robin order
    order: seq<Project>,                // projects with something retained, in Map insertion order
    behind: map<Key, nat>,              // same-domain rejections since the domain was admitted
    deferred: int,
    dispatched: nat,
    log: seq<Event>)

  const Empty := State(map[], {}, map[], [], [], map[], 0, 0, [])

  function ConflictDomain(a: Attention): Key {
    Key(a.targetAgentId + "\0" + a.threadRootId)
  }

  /** One agent's name continues the other's after a NUL, and the threads make up for it. */
  ghost predicate Straddles(a: Attention, b: Attention) {
    exists middle :: StraddlesBy(a, b, middle)
  }

  predicate StraddlesBy(a: Attention, b: Attention, middle: string) {
    a.targetAgentId == b.targetAgentId + "\0" + middle && b.threadRootId == middle + "\0" + a.threadRootId
  }

  /** Two attentions share a conflict domain exactly when they share agent and thread, or a NUL inside an agent
      identifier lets two different pairs read the same. */
  lemma ConflictDomainsCoincide(a: Attention, b: Attention)
    ensures ConflictDomain(a) == ConflictDomain(b) <==>
      || (a.targetAgentId == b.targetAgentId && a.threadRootId == b.threadRootId)
      || Straddles(a, b) || Straddles(b, a)
  {
    if ConflictDomain(a) == ConflictDomain(b) {
      if |a.targetAgentId| >= |b.targetAgentId| { Split(a, b); } else { Split(b, a); }
    }
    if Straddles(a, b) { Joined(a, b); }
    if Straddles(b, a) { Joined(b, a); }
  }

  lemma Split(a: Attention, b: Attention)
    requires ConflictDomain(a) == ConflictDomain(b) && |a.targetAgentId| >= |b.targetAgentId|
    ensures (a.targetAgentId == b.targetAgentId && a.threadRootId == b.threadRootId) || Straddles(a, b)
  {
    var x, y, text := a.targetAgentId, b.targetAgentId, ConflictDomain(a).name;
    assert text == ConflictDomain(b).name;
    assert x == text[..|x|] && a.threadRootId == text[|x| + 1..] && text[|x|] == '\0';
    assert y == text[..|y|] && b.threadRootId == text[|y| + 1..] && text[|y|] == '\0';
    if |x| > |y| {
      var middle := text[|y| + 1..|x|];
      assert x == y + "\0" + middle;
      assert b.threadRootId == middle + "\0" + a.threadRootId;
      assert StraddlesBy(a, b, middle);
    }
  }

  lemma Joined(a: Attention, b: Attention)
    requires Straddles(a, b)
    ensures ConflictDomain(a) == ConflictDomain(b)
  {
    var middle :| StraddlesBy(a, b, middle);
    assert a.targetAgentId + "\0" + a.threadRootId == b.targetAgentId + "\0" + (middle + "\0" + a.threadRootId);
  }

  // ---- retained counts -------------------------------------------------------------------------

  function KeysOf(queued: map<Key, Attention>, p: Project): set<Key> {
    set k | k in queued && queued[k].projectId == p
  }

  function Retained(queued: map<Key, Attention>, p: Project): nat {
    |KeysOf(queued, p)|
  }

  lemma RetainedAdd(queued: map<Key, Attention>, k: Key, a: Attention, p: Project)
    requires k !in queued
    ensures |queued[k := a]| == |queued| + 1
    ensures Retained(queued[k := a], p) == Retained(queued, p) + if p == a.projectId then 1 else 0
  {
    SizeAdd(queued, k, a);
    var after := queued[k := a];
    if p == a.projectId {
      assert KeysOf(after, p) == KeysOf(queued, p) + {k};
    } else {
      assert KeysOf(after, p) == KeysOf(queued, p);
    }
  }

  lemma SizeAdd(queued: map<Key, Attention>, k: Key, a: Attention)
    requires k !in queued
    ensures |queued[k := a]| == |queued| + 1
  {
    assert queued[k := a].Keys == queued.Keys + {k};
  }

  lemma RetainedDrop(queued: map<Key, Attention>, k: Key, p: Project)
    requires k in queued
    ensures |queued - {k}| == |queued| - 1
    ensures Retained(queued - {k}, p) == Retained(queued, p) - if p == queued[k].projectId then 1 else 0
  {
    assert (queued - {k})[k := queued[k]] == queued;
    RetainedAdd(queued - {k}, k, queued[k], p);
  }

  function RetainedSum(queued: map<Key, Attention>, ps: seq<Project>): nat {
    if ps == [] then 0 else Retained(queued, ps[0]) + RetainedSum(queued, ps[1..])
  }

  function KeysAmong(queued: map<Key, Attention>, ps: seq<Project>): set<Key> {
    set k | k in queued && queued[k].projectId in ps
  }

  lemma {:induction false} RetainedSumIsSize(queued: map<Key, Attention>, ps: seq<Project>)
    requires Distinct(ps)
    ensures RetainedSum(queued, ps) == |KeysAmong(queued, ps)|
  {
    if ps == [] {
      assert KeysAmong(queued, ps) == {};
    } else {
      DistinctHead(ps);
      RetainedSumIsSize(queued, ps[1..]);
      assert ps == [ps[0]] + ps[1..];
      assert KeysAmong(queued, ps) == KeysOf(queued, ps[0]) + KeysAmong(queued, ps[1..]);
      assert KeysOf(queued, ps[0]) !! KeysAmong(queued, ps[1..]);
    }
  }

  // ---- lanes and the ring ----------------------------------------------------------------------

  function Lane(s: State, p: Project): seq<Key> {
    if p in s.lanes then s.lanes[p] else []
  }

  function SetLane(lanes: map<Project, seq<Key>>, p: Project, keys: seq<Key>): map<Project, seq<Key>> {
    if keys == [] then lanes - {p} else lanes[p := keys]
  }

  /** Remove a retained domain. */
  function Forget(s: State, key: Key): State
    requires key in s.queued
  {
    var p := s.queued[key].projectId;
    s.(queued := s.queued - {key},
       order := if Retained(s.queued, p) == 1 then Without(s.order, p) else s.order,
       behind := s.behind - {key})
  }

  /** Drop the oldest waiting domain of `p`, if it has one. */
  function Evict(s: State, p: Project): (r: (State, bool)) {
    var lane := Lane(s, p);
    if lane == [] || lane[0] !in s.queued then (s, false) else
    (Forget(s, lane[0]).(
       lanes := SetLane(s.lanes, p, lane[1..]),
       deferred := s.deferred + 1,
       log := s.log + [Evicted(lane[0], p)]), true)
  }

  // Insertion into a list sorted by falling count, after the entries of equal count: a stable sort.
  function InsertByCount(count: map<Project, nat>, ps: seq<Project>, p: Project): (r: seq<Project>)
    requires p in count && forall q :: q in ps ==> q in count
    ensures multiset(r) == multiset(ps) + multiset{p}
    ensures forall q :: q in r <==> q in ps || q == p
  {
    if ps == [] then [p] else
    assert ps == [ps[0]] + ps[1..];
    if count[ps[0]] < count[p] then [p] + ps else [ps[0]] + InsertByCount(count, ps[1..], p)
  }

  function SortByCount(count: map<Project, nat>, ps: seq<Project>): (r: seq<Project>)
    requires forall q :: q in ps ==> q in count
    ensures multiset(r) == multiset(ps)
    ensures forall q :: q in r <==> q in ps
  {
    if ps == [] then [] else
    var n := |ps| - 1;
    assert ps == ps[..n] + [ps[n]];
    InsertByCount(count, SortByCount(count, ps[..n]), ps[n])
  }

  ghost predicate Falling(count: map<Project, nat>, ps: seq<Project>)
    requires forall q :: q in ps ==> q in count
  {
    forall i, j :: 0 <= i < j < |ps| ==> count[ps[i]] >= count[ps[j]]
  }

  lemma {:induction false} InsertKeepsFalling(count: map<Project, nat>, ps: seq<Project>, p: Project)
    requires p in count && forall q :: q in ps ==> q in count
    requires Falling(count, ps)
    ensures Falling(count, InsertByCount(count, ps, p))
  {
    if ps != [] && count[ps[0]] >= count[p] {
      var rest := InsertByCount(count, ps[1..], p);
      assert Falling(count, ps[1..]);
      InsertKeepsFalling(count, ps[1..], p);
      forall j | 0 <= j < |rest| ensures count[ps[0]] >= count[rest[j]] {
        assert rest[j] in rest;
        if rest[j] != p {
          var i :| 0 <= i < |ps[1..]| && ps[1..][i] == rest[j];
          assert ps[i + 1] == rest[j];
        }
      }
    }
  }

  lemma {:induction false} SortFalls(count: map<Project, nat>, ps: seq<Project>)
    requires forall q :: q in ps ==> q in count
    ensures Falling(count, SortByCount(count, ps))
  {
    if ps != [] {
      var n := |ps| - 1;
      assert ps == ps[..n] + [ps[n]];
      SortFalls(count, ps[..n]);
      InsertKeepsFalling(count, SortByCount(count, ps[..n]), ps[n]);
    }
  }

  function Counts(queued: map<Key, Attention>, order: seq<Project>): map<Project, nat> {
    map p | p in order :: Retained(queued, p)
  }

  function Keep(count: map<Project, nat>, ps: seq<Project>, except: Project): (r: seq<Project>)
    requires forall q :: q in ps ==> q in count
    ensures forall q :: q in r <==> q in ps && q != except && count[q] > 1
  {
    if ps == [] then [] else
    assert ps == [ps[0]] + ps[1..];
    (if ps[0] != except && count[ps[0]] > 1 then [ps[0]] else []) + Keep(count, ps[1..], except)
  }

  /** The projects an eviction may fall on, fullest first. */
  function Candidates(count: map<Project, nat>, order: seq<Project>, except: Project): seq<Project>
    requires forall q :: q in order ==> q in count
  {
    SortByCount(count, Keep(count, order, except))
  }

  function EvictFirst(s: State, candidates: seq<Project>): (State, bool)
    decreases |candidates|
  {
    if candidates == [] then (s, false) else
    var (t, done) := Evict(s, candidates[0]);
    if done then (t, true) else EvictFirst(t, candidates[1..])
  }

  function EvictForNewProject(s: State, p: Project): (State, bool) {
    var (t, done) := EvictFirst(s, Candidates(Counts(s.queued, s.order), s.order, p));
    if done then (t, true) else Evict(t, p)
  }

  // ---- the three operations --------------------------------------------------------------------

  /** One turn of the ring: the project at its head starts its oldest waiting domain. */
  function PopOne(s: State): State
    requires s.ring != []
  {
    var p := s.ring[0];
    var lane := Lane(s, p);
    var t := s.(ring := s.ring[1..], log := s.log + [Popped(p)]);
    if lane == [] then t else
    t.(lanes := SetLane(s.lanes, p, lane[1..]),
       ring := if |lane| > 1 then s.ring[1..] + [p] else s.ring[1..],
       active := s.active + {lane[0]},
       log := s.log + [Popped(p), Started(lane[0], p)])
  }

  function Insert(s: State, key: Key, a: Attention): State {
    var p := a.projectId;
    s.(queued := s.queued[key := a],
       order := if p in s.order then s.order else s.order + [p],
       lanes := SetLane(s.lanes, p, Lane(s, p) + [key]),
       ring := if p in s.ring then s.ring else s.ring + [p],
       log := s.log + [Accepted(key, p)])
  }

  /** Make room for one more attention of `p`, if the limits ask for it. */
  function MakeRoom(s: State, L: Limits, p: Project): (State, bool) {
    if Retained(s.queued, p) >= L.projectLimit then Evict(s, p)
    else if |s.queued| >= L.bufferLimit then
      (if Retained(s.queued, p) == 0 then EvictForNewProject(s, p) else Evict(s, p))
    else (s, true)
  }

  function Behind(s: State, key: Key): nat {
    if key in s.behind then s.behind[key] else 0
  }

  function Settle(s: State, key: Key, outcome: Outcome): State
    requires key in s.queued
  {
    Forget(s, key).(
      active := s.active - {key},
      dispatched := s.dispatched + if outcome == Dispatched then 1 else 0,
      deferred := s.deferred +
        (if outcome == Blocked then 0 - Behind(s, key) else if outcome == Retry && Behind(s, key) == 0 then 1 else 0),
      log := s.log + [Completed(key, outcome)])
  }

  // ---- the structural invariant ----------------------------------------------------------------

  ghost predicate KeysAgree(s: State) {
    && s.active <= s.queued.Keys
    && s.behind.Keys <= s.queued.Keys
    && (forall k :: k in s.queued ==> ConflictDomain(s.queued[k]) == k)
  }

  ghost predicate LanesHold(s: State) {
    && (forall p :: p in s.lanes ==> s.lanes[p] != [] && Distinct(s.lanes[p]))
    && (forall p, k :: p in s.lanes && k in s.lanes[p] ==>
          k in s.queued && s.queued[k].projectId == p && k !in s.active)
  }

  ghost predicate AllWait(s: State) {
    forall k :: k in s.queued && k !in s.active ==>
      s.queued[k].projectId in s.lanes && k in s.lanes[s.queued[k].projectId]
  }

  ghost predicate RingHolds(s: State) {
    Distinct(s.ring) && forall p :: p in s.lanes ==> p in s.ring
  }

  ghost predicate OrderHolds(s: State) {
    Distinct(s.order) && forall p :: p in s.order <==> Retained(s.queued, p) > 0
  }

  /** Running domains are retained; every retained domain either runs or waits, once, in the lane of
      its own project; and a project with a lane is on the ring. */
  ghost predicate Core(s: State) {
    KeysAgree(s) && LanesHold(s) && AllWait(s) && RingHolds(s) && OrderHolds(s)
  }

  lemma RetainedPositive(queued: map<Key, Attention>, k: Key)
    requires k in queued
    ensures Retained(queued, queued[k].projectId) > 0
  {
    assert k in KeysOf(queued, queued[k].projectId);
  }

  lemma TakeKeepsLanes(s: State, p: Project)
    requires LanesHold(s) && p in s.lanes
    ensures var k := s.lanes[p][0]; var rest := SetLane(s.lanes, p, s.lanes[p][1..]);
      && k in s.queued && k !in s.active && s.queued[k].projectId == p
      && rest.Keys <= s.lanes.Keys
      && (forall q :: q in rest ==> rest[q] != [] && Distinct(rest[q]))
      && (forall q, j :: q in rest && j in rest[q] ==> j in s.lanes[q] && j != k)
      && (forall q, j :: q in s.lanes && j in s.lanes[q] && j != k ==> q in rest && j in rest[q])
  {
    var lane := s.lanes[p];
    DistinctHead(lane);
    assert lane == [lane[0]] + lane[1..];
    assert lane[0] in lane;
  }

  lemma PopOneKeepsCore(s: State)
    requires Core(s) && s.ring != []
    ensures Core(PopOne(s))
    ensures s.ring[0] !in s.lanes ==> PopOne(s).active == s.active && |PopOne(s).ring| < |s.ring|
    ensures s.ring[0] in s.lanes ==> |PopOne(s).active| == |s.active| + 1
  {
    hide LanesHold, AllWait, RingHolds, OrderHolds, SetLane;
    LaneHeads(s);
    PopOneKeepsLanes(s);
    PopOneKeepsRing(s);
  }

  lemma LaneHeads(s: State)
    requires LanesHold(s)
    ensures forall p :: p in s.lanes ==> s.lanes[p] != [] && s.lanes[p][0] in s.queued && s.lanes[p][0] !in s.active
    ensures OrderHolds(s) && s.ring != [] ==> OrderHolds(PopOne(s))
  {
  }

  lemma PopOneKeepsLanes(s: State)
    requires LanesHold(s) && AllWait(s) && s.ring != []
    ensures LanesHold(PopOne(s)) && AllWait(PopOne(s))
  {
    hide Distinct;
    if s.ring[0] in s.lanes {
      TakeKeepsLanes(s, s.ring[0]);
    }
  }

  lemma PopOneKeepsRing(s: State)
    requires RingHolds(s) && LanesHold(s) && s.ring != []
    ensures RingHolds(PopOne(s))
  {
    DistinctHead(s.ring);
    assert s.ring == [s.ring[0]] + s.ring[1..];
  }

  lemma EverythingIsOrdered(s: State)
    requires Core(s)
    ensures KeysAmong(s.queued, s.order) == s.queued.Keys && Distinct(s.order)
  {
    forall k | k in s.queued ensures s.queued[k].projectId in s.order {
      RetainedPositive(s.queued, k);
    }
  }

  lemma InsertKeepsCore(s: State, key: Key, a: Attention)
    requires Core(s) && key == ConflictDomain(a) && key !in s.queued
    ensures Core(Insert(s, key, a))
  {
    hide KeysAgree, LanesHold, AllWait, RingHolds, OrderHolds, Insert;
    InsertKeepsKeys(s, key, a);
    InsertKeepsLanes(s, key, a);
    InsertKeepsRing(s, key, a);
    InsertKeepsOrder(s, key, a);
  }

  lemma InsertKeepsKeys(s: State, key: Key, a: Attention)
    requires KeysAgree(s) && key == ConflictDomain(a)
    ensures KeysAgree(Insert(s, key, a))
  {
    hide ConflictDomain;
  }

  lemma InsertKeepsLanes(s: State, key: Key, a: Attention)
    requires KeysAgree(s) && LanesHold(s) && AllWait(s) && key !in s.queued
    ensures LanesHold(Insert(s, key, a)) && AllWait(Insert(s, key, a))
  {
    hide ConflictDomain;
    var t, lane := Insert(s, key, a), Lane(s, a.projectId);
    assert t.lanes[a.projectId] == lane + [key];
    assert a.projectId in s.lanes ==> key !in s.lanes[a.projectId];
  }

  lemma InsertKeepsRing(s: State, key: Key, a: Attention)
    requires RingHolds(s)
    ensures RingHolds(Insert(s, key, a))
  {
  }

  lemma InsertKeepsOrder(s: State, key: Key, a: Attention)
    requires OrderHolds(s) && key !in s.queued
    ensures OrderHolds(Insert(s, key, a))
  {
    hide Retained;
    var t := Insert(s, key, a);
    forall p ensures p in t.order <==> Retained(t.queued, p) > 0 {
      RetainedAdd(s.queued, key, a, p);
    }
  }

  lemma ForgetKeepsOrder(s: State, key: Key)
    requires OrderHolds(s) && key in s.queued
    ensures OrderHolds(Forget(s, key))
  {
    WithoutKeepsDistinct(s.order, s.queued[key].projectId);
    forall p ensures p in Forget(s, key).order <==> Retained(Forget(s, key).queued, p) > 0 {
      RetainedDrop(s.queued, key, p);
    }
    RetainedPositive(s.queued, key);
  }

  lemma EvictKeepsCore(s: State, p: Project)
    requires Core(s)
    ensures Core(Evict(s, p).0)
    ensures Evict(s, p).1 <==> p in s.lanes
  {
    if p in s.lanes {
      TakeKeepsLanes(s, p);
      ForgetKeepsOrder(s, s.lanes[p][0]);
      var t := Evict(s, p).0;
      assert OrderHolds(t);
      assert KeysAgree(t);
    }
  }

  lemma {:induction false} EvictFirstKeepsCore(s: State, ps: seq<Project>)
    requires Core(s)
    ensures Core(EvictFirst(s, ps).0)
    ensures EvictFirst(s, ps).0.queued.Keys <= s.queued.Keys
    ensures !EvictFirst(s, ps).1 ==> EvictFirst(s, ps).0 == s
    decreases |ps|
  {
    if ps != [] {
      EvictKeepsCore(s, ps[0]);
      EvictFirstKeepsCore(Evict(s, ps[0]).0, ps[1..]);
    }
  }

  lemma EvictForNewKeepsCore(s: State, p: Project)
    requires Core(s)
    ensures Core(EvictForNewProject(s, p).0)
    ensures EvictForNewProject(s, p).0.queued.Keys <= s.queued.Keys
    ensures !EvictForNewProject(s, p).1 ==> EvictForNewProject(s, p).0 == s
  {
    var candidates := Candidates(Counts(s.queued, s.order), s.order, p);
    EvictFirstKeepsCore(s, candidates);
    EvictKeepsCore(s, p);
  }

  lemma MakeRoomKeepsCore(s: State, L: Limits, p: Project)
    requires Core(s)
    ensures Core(MakeRoom(s, L, p).0)
    ensures MakeRoom(s, L, p).0.queued.Keys <= s.queued.Keys
    ensures !MakeRoom(s, L, p).1 ==> MakeRoom(s, L, p).0 == s
  {
    if Retained(s.queued, p) < L.projectLimit && |s.queued| >= L.bufferLimit && Retained(s.queued, p) == 0 {
      assert MakeRoom(s, L, p) == EvictForNewProject(s, p);
      EvictForNewKeepsCore(s, p);
    } else {
      EvictKeepsCore(s, p);
    }
  }

  lemma SettleKeepsCore(s: State, key: Key, outcome: Outcome)
    requires Core(s) && key in s.active
    ensures Core(Settle(s, key, outcome))
  {
    ForgetKeepsOrder(s, key);
  }

  lemma EmptyIsCore()
    ensures Core(Empty)
  {
    assert forall p :: KeysOf(map[], p) == {};
  }

  /** The states the scheduler can be in between two steps of an operation. */
  type Ordered = s: State | Core(s) ghost witness (EmptyIsCore(); Empty)

  /** A domain at the head of a lane is retained and idle: the checks that guard against anything else
      when it is taken never fail. */
  lemma HeadIsIdle(s: Ordered, p: Project)
    requires p in s.lanes
    ensures s.lanes[p] != [] && s.lanes[p][0] in s.queued && s.lanes[p][0] !in s.active
    ensures s.queued[s.lanes[p][0]].projectId == p
  {
  }

  // ---- the operations --------------------------------------------------------------------------

  /** Start waiting domains, one turn of the ring at a time, while there is a free slot. */
  ghost function Pump(s: State, concurrency: nat): (t: State)
    requires Core(s)
    ensures Core(t)
    ensures t.ring == [] || |t.active| >= concurrency
    decreases concurrency - |s.active|, |s.ring|
  {
    if |s.active| >= concurrency || s.ring == [] then s else
    PopOneKeepsCore(s);
    Pump(PopOne(s), concurrency)
  }

  ghost function Enqueue(s: State, L: Limits, a: Attention): (r: (State, Admission))
    requires Core(s)
    ensures Core(r.0)
  {
    var key := ConflictDomain(a);
    if key in s.queued || key in s.active then
      (s.(deferred := s.deferred + 1,
          behind := s.behind[key := Behind(s, key) + 1],
          log := s.log + [SameDomain(key)]), Deferred)
    else
      var (t, room) := MakeRoom(s, L, a.projectId);
      MakeRoomKeepsCore(s, L, a.projectId);
      if room then
        InsertKeepsCore(t, key, a);
        (Pump(Insert(t, key, a), L.concurrency), Admitted)
      else
        (t.(deferred := t.deferred + 1, log := t.log + [LimitRejected(a.projectId)]),
         if Retained(s.queued, a.projectId) >= L.projectLimit then Deferred else GlobalFull)
  }

  /** The dispatch of an active domain ends. */
  ghost function Complete(s: State, L: Limits, key: Key, outcome: Outcome): (t: State)
    requires Core(s) && key in s.active
    ensures Core(t)
  {
    SettleKeepsCore(s, key, outcome);
    Pump(Settle(s, key, outcome), L.concurrency)
  }
}
