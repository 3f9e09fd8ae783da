/** The scheduler as the runtime keeps it: eight collections updated in place, and the proof that each
    call changes them as the value in AttentionQueue.dfy says. */
module AttentionScheduler {
  import opened Sequences
  import Queue = AttentionQueue
  import opened AttentionQueue

  /** `ticket` stands for the identity of the JavaScript object. */
  datatype Queued = Queued(ticket: nat, attention: Attention)

  datatype Drained = Totals(dispatched: nat, deferred: int) | Error(error: nat)

  // ---- how the collections represent the value -------------------------------------------------

  ghost function Attentions(queues: map<Key, Queued>): map<Key, Attention> {
    map k | k in queues :: queues[k].attention
  }

  ghost function Lanes(domains: map<Project, seq<Key>>): map<Project, seq<Key>> {
    map p | p in domains && domains[p] != [] :: domains[p]
  }

  ghost function LaneSets(domains: map<Project, seq<Key>>): map<Project, set<Key>> {
    map p | p in domains :: Elements(domains[p])
  }

  ghost function Running(queues: map<Key, Queued>, active: set<Key>): map<Key, Queued> {
    map k | k in queues && k in active :: queues[k]
  }

  function Count(retained: map<Project, nat>, p: Project): nat {
    if p in retained then retained[p] else 0
  }

  function Total(retained: map<Project, nat>, ps: seq<Project>): nat {
    if ps == [] then 0 else Count(retained, ps[0]) + Total(retained, ps[1..])
  }

  lemma {:induction false} TotalIsSum(queued: map<Key, Attention>, order: seq<Project>, ps: seq<Project>)
    requires forall p :: p in ps ==> p in order
    ensures Total(Counts(queued, order), ps) == RetainedSum(queued, ps)
    decreases |ps|
  {
    if ps != [] {
      assert forall p :: p in ps[1..] ==> p in ps;
      assert ps[0] in ps;
      TotalIsSum(queued, order, ps[1..]);
    }
  }

  lemma CountIsRetained(s: Ordered, p: Project)
    ensures Count(Counts(s.queued, s.order), p) == Retained(s.queued, p)
  {
  }

  lemma QueuesGrow(queues: map<Key, Queued>, active: set<Key>, key: Key, q: Queued)
    requires key !in queues
    ensures Attentions(queues[key := q]) == Attentions(queues)[key := q.attention]
    ensures |queues[key := q]| == |queues| + 1
    ensures key !in active ==> Running(queues[key := q], active) == Running(queues, active)
  {
  }

  lemma QueuesShrink(queues: map<Key, Queued>, active: set<Key>, key: Key)
    requires key in queues
    ensures Attentions(queues - {key}) == Attentions(queues) - {key}
    ensures |queues - {key}| == |queues| - 1
    ensures Running(queues - {key}, active - {key}) == Running(queues, active) - {key}
  {
    assert (queues - {key})[key := queues[key]] == queues;
  }

  lemma RunningDrop(queues: map<Key, Queued>, active: set<Key>, key: Key)
    requires key in Attentions(queues) && key !in active
    ensures key in queues && Running(queues - {key}, active) == Running(queues, active)
  {
  }

  lemma SameKeys(queues: map<Key, Queued>)
    ensures Attentions(queues).Keys == queues.Keys
  {
  }

  lemma RunningIsRetained(s: Ordered, key: Key)
    ensures key in s.active ==> key in s.queued
  {
  }

  lemma FreshWaitsNowhere(s: Ordered, L: Limits, key: Key, p: Project)
    requires key !in s.queued
    ensures key !in s.active && key !in Lane(s, p)
    ensures Core(MakeRoom(s, L, p).0) && key !in MakeRoom(s, L, p).0.queued
  {
    MakeRoomKeepsCore(s, L, p);
  }

  ghost predicate Evicts(s: State, key: Key, p: Project, t: State)
    requires key in s.queued && p in s.lanes && s.lanes[p] != []
  {
    var rest := Forget(s, key);
    && t.queued == rest.queued && t.order == rest.order && t.behind == s.behind - {key}
    && t.lanes == SetLane(s.lanes, p, s.lanes[p][1..])
    && t.active == s.active && t.ring == s.ring && t.deferred == s.deferred + 1 && t.dispatched == s.dispatched
  }

  lemma EvictParts(s: Ordered, p: Project)
    ensures Distinct(Lane(s, p))
    ensures p !in s.lanes ==> Evict(s, p) == (s, false)
    ensures p in s.lanes ==>
      && s.lanes[p] != [] && s.lanes[p][0] in s.queued && Evict(s, p).1
      && Evicts(s, s.lanes[p][0], p, Evict(s, p).0)
  {
    if p in s.lanes {
      HeadIsIdle(s, p);
    }
  }

  lemma RunningShows(queues: map<Key, Queued>, active: set<Key>, key: Key)
    requires key in Running(queues, active)
    ensures key in queues && key in active && queues[key] == Running(queues, active)[key]
    ensures key in Attentions(queues) && Attentions(queues)[key] == queues[key].attention
  {
  }

  lemma PopParts(s: State)
    requires s.ring != []
    ensures var t, lane := PopOne(s), Lane(s, s.ring[0]);
      && t.queued == s.queued && t.order == s.order && t.behind == s.behind
      && t.deferred == s.deferred && t.dispatched == s.dispatched
      && t.active == if lane == [] then s.active else s.active + {lane[0]}
  {
  }

  lemma SettleParts(s: State, key: Key, outcome: Outcome)
    requires key in s.queued
    ensures var t := Settle(s, key, outcome);
      && t.queued == Forget(s, key).queued && t.order == Forget(s, key).order
      && t.active == s.active - {key} && t.lanes == s.lanes && t.ring == s.ring
  {
  }

  lemma RunningGrow(queues: map<Key, Queued>, active: set<Key>, key: Key)
    requires key in Attentions(queues)
    ensures key in queues
    ensures Running(queues, active + {key}) == Running(queues, active)[key := queues[key]]
  {
  }

  lemma CountsGrow(s: Ordered, key: Key, a: Attention)
    requires key !in s.queued
    ensures var p := a.projectId; var counts := Counts(s.queued, s.order); var t := Insert(s, key, a);
      && (p in counts <==> p in s.order)
      && Counts(t.queued, t.order) == counts[p := Count(counts, p) + 1]
  {
    hide Core, Counts, Retained;
    CountsCover(s);
    forall p
      ensures Retained(s.queued[key := a], p) == Retained(s.queued, p) + if p == a.projectId then 1 else 0
    {
      RetainedAdd(s.queued, key, a, p);
    }
    CountsMore(s.queued, s.queued[key := a], s.order, Insert(s, key, a).order, a.projectId);
  }

  lemma CountsCover(s: Ordered)
    ensures forall p :: p in Counts(s.queued, s.order) <==> p in s.order
    ensures forall p :: p in s.order <==> Retained(s.queued, p) > 0
  {
  }

  lemma CountsMore(
    queued: map<Key, Attention>, more: map<Key, Attention>, order: seq<Project>, after: seq<Project>, p: Project)
    requires after == if p in order then order else order + [p]
    requires forall q :: q in order <==> Retained(queued, q) > 0
    requires forall q :: Retained(more, q) == Retained(queued, q) + if q == p then 1 else 0
    ensures Counts(more, after) == Counts(queued, order)[p := Count(Counts(queued, order), p) + 1]
  {
    hide Retained;
  }

  lemma CountsShrink(s: Ordered, key: Key)
    requires key in s.queued
    ensures var p := s.queued[key].projectId; var counts := Counts(s.queued, s.order); var t := Forget(s, key);
      && p in counts && counts[p] == Retained(s.queued, p) > 0
      && Counts(t.queued, t.order) ==
           if counts[p] == 1 then counts - {p} else counts[p := counts[p] - 1]
  {
    RetainedPositive(s.queued, key);
    assert OrderHolds(s);
    hide Core, Retained;
    CountsLess(s.queued, s.queued - {key}, s.order, key);
  }

  lemma CountsLess(queued: map<Key, Attention>, rest: map<Key, Attention>, order: seq<Project>, key: Key)
    requires key in queued && rest == queued - {key}
    ensures var p := queued[key].projectId;
      && (p in order ==>
            Retained(queued, p) > 0 && Counts(rest, order) == Counts(queued, order)[p := Retained(queued, p) - 1])
      && Counts(rest, Without(order, p)) == Counts(queued, order) - {p}
  {
    hide Retained, Counts;
    RetainedLess(queued, rest, key);
    CountsWithout(queued, rest, order, queued[key].projectId);
    if queued[key].projectId in order {
      CountsDecrement(queued, rest, order, queued[key].projectId);
    }
  }

  lemma CountsDecrement(queued: map<Key, Attention>, rest: map<Key, Attention>, order: seq<Project>, p: Project)
    requires p in order && Retained(queued, p) > 0 && Retained(rest, p) == Retained(queued, p) - 1
    requires forall q :: q != p ==> Retained(rest, q) == Retained(queued, q)
    ensures Counts(rest, order) == Counts(queued, order)[p := Retained(queued, p) - 1]
  {
    hide Retained;
  }

  lemma CountsWithout(queued: map<Key, Attention>, rest: map<Key, Attention>, order: seq<Project>, p: Project)
    requires forall q :: q != p ==> Retained(rest, q) == Retained(queued, q)
    ensures Counts(rest, Without(order, p)) == Counts(queued, order) - {p}
  {
    hide Retained;
  }

  lemma RetainedLess(queued: map<Key, Attention>, rest: map<Key, Attention>, key: Key)
    requires key in queued && rest == queued - {key}
    ensures var p := queued[key].projectId;
      && Retained(queued, p) > 0
      && forall q :: Retained(rest, q) == Retained(queued, q) - if q == p then 1 else 0
  {
    RetainedPositive(queued, key);
    forall q ensures Retained(rest, q) == Retained(queued, q) - if q == queued[key].projectId then 1 else 0 {
      RetainedDrop(queued, key, q);
    }
  }

  lemma LanesPush(domains: map<Project, seq<Key>>, p: Project, key: Key)
    requires p in domains
    ensures Lanes(domains[p := domains[p] + [key]]) == Lanes(domains)[p := domains[p] + [key]]
    ensures LaneSets(domains[p := domains[p] + [key]]) == LaneSets(domains)[p := Elements(domains[p]) + {key}]
  {
    assert Elements(domains[p] + [key]) == Elements(domains[p]) + {key};
  }

  lemma LanesTake(domains: map<Project, seq<Key>>, p: Project)
    requires p in domains && Distinct(domains[p]) && domains[p] != []
    ensures Lanes(domains[p := domains[p][1..]]) == SetLane(Lanes(domains), p, domains[p][1..])
    ensures LaneSets(domains[p := domains[p][1..]]) == LaneSets(domains)[p := Elements(domains[p]) - {domains[p][0]}]
  {
    DistinctHead(domains[p]);
  }

  lemma LanesTidy(domains: map<Project, seq<Key>>, p: Project)
    requires p in domains && domains[p] == []
    ensures Lanes(domains - {p}) == Lanes(domains) && LaneSets(domains - {p}) == LaneSets(domains) - {p}
    ensures LaneSets(domains)[p] == {}
  {
  }

  lemma LanesOpen(domains: map<Project, seq<Key>>, p: Project)
    requires p !in domains
    ensures Lanes(domains[p := []]) == Lanes(domains) && LaneSets(domains[p := []]) == LaneSets(domains)[p := {}]
  {
    assert Elements<Key>([]) == {};
  }

  class AttentionScheduler {
    const limits: Limits
    var queues: map<Key, Queued>
    var activeDomains: set<Key>
    var domainDeferred: map<Key, nat>
    var projectRetained: map<Project, nat>
    var retainedOrder: seq<Project>        // the insertion order of projectRetained
    var projectReadyDomains: map<Project, seq<Key>>
    var projectReadyDomainSets: map<Project, set<Key>>
    var readyProjects: seq<Project>
    var readyProjectSet: set<Project>
    var drainWaiters: set<nat>
    var releasedWaiters: set<nat>
    var buffered: int
    var dispatched: nat
    var deferred: int
    var firstError: Option<nat>
    var tickets: nat
    ghost var running: map<Key, Queued>    // what each pending dispatch was started with

    ghost predicate BooksAgree(s: State)
      reads this`queues, this`buffered, this`projectRetained, this`retainedOrder
    {
      && s.queued == Attentions(queues) && buffered == |queues|
      && s.order == retainedOrder && projectRetained == Counts(s.queued, s.order)
    }

    ghost predicate RunsAgree(s: State)
      reads this`queues, this`activeDomains, this`running
    {
      s.active == activeDomains && running == Running(queues, activeDomains)
    }

    ghost predicate TotalsAgree(s: State)
      reads this`domainDeferred, this`dispatched, this`deferred
    {
      s.behind == domainDeferred && s.dispatched == dispatched && s.deferred == deferred
    }

    ghost predicate LanesAgree(s: State)
      reads this`projectReadyDomains, this`projectReadyDomainSets
    {
      s.lanes == Lanes(projectReadyDomains) && projectReadyDomainSets == LaneSets(projectReadyDomains)
    }

    ghost predicate RingAgrees(s: State)
      reads this`readyProjects, this`readyProjectSet
    {
      s.ring == readyProjects && readyProjectSet == Elements(readyProjects)
    }

    /** The fields represent `s`: each list agrees with the set beside it, each counter with what it
        counts, and all of them with one another. */
    ghost predicate Represents(s: State)
      reads this`queues, this`buffered, this`projectRetained, this`retainedOrder, this`activeDomains, this`running,
            this`domainDeferred, this`dispatched, this`deferred, this`projectReadyDomains,
            this`projectReadyDomainSets, this`readyProjects, this`readyProjectSet
    {
      BooksAgree(s) && RunsAgree(s) && TotalsAgree(s) && LanesAgree(s) && RingAgrees(s)
    }

    /** Someone waits for the drain only while something is retained. */
    ghost predicate WaitersAgree()
      reads this`drainWaiters, this`buffered
    {
      drainWaiters != {} ==> buffered > 0
    }

    /** The fields look only at their own parts of the value. */
    lemma Carry(s: State, t: State)
      ensures BooksAgree(s) && t.queued == s.queued && t.order == s.order ==> BooksAgree(t)
      ensures RunsAgree(s) && t.active == s.active ==> RunsAgree(t)
      ensures TotalsAgree(s) && t.behind == s.behind && t.dispatched == s.dispatched && t.deferred == s.deferred ==>
        TotalsAgree(t)
      ensures LanesAgree(s) && t.lanes == s.lanes ==> LanesAgree(t)
      ensures RingAgrees(s) && t.ring == s.ring ==> RingAgrees(t)
    {
    }

    /** The number of retained attentions is the sum of the projects' counts. */
    lemma BufferedIsTheSum(s: Ordered)
      requires Represents(s)
      ensures buffered == Total(projectRetained, retainedOrder)
    {
      RetainedSumIsSize(s.queued, s.order);
      EverythingIsOrdered(s);
      TotalIsSum(s.queued, s.order, s.order);
      assert queues.Keys == s.queued.Keys;
    }

    constructor (limits: Limits)
      ensures Represents(Empty) && this.limits == limits
      ensures drainWaiters == {} && releasedWaiters == {} && firstError == None
    {
      this.limits := limits;
      queues, activeDomains, domainDeferred := map[], {}, map[];
      projectRetained, retainedOrder := map[], [];
      projectReadyDomains, projectReadyDomainSets := map[], map[];
      readyProjects, readyProjectSet := [], {};
      drainWaiters, releasedWaiters := {}, {};
      buffered, dispatched, deferred, firstError, tickets := 0, 0, 0, None, 0;
      running := map[];
    }

    method Enqueue(attention: Attention, ghost s: Ordered) returns (admission: Admission)
      requires Represents(s) && WaitersAgree()
      modifies this
      ensures var (t, answer) := Queue.Enqueue(s, limits, attention); Represents(t) && admission == answer
      ensures DrainFollows()
    {
      hide Represents, BooksAgree, RunsAgree, TotalsAgree, LanesAgree, RingAgrees, Core, Queue.Enqueue;
      admission := Receive(attention, s);
      if admission == Admitted {
        NotifyRetainedChanged();
      }
    }

    /** The end of the dispatch started for `key`; `queued` is the object that dispatch captured. */
    method Complete(key: Key, queued: Queued, outcome: Outcome, error: nat, ghost s: Ordered)
      requires Represents(s) && WaitersAgree() && key in running && running[key] == queued
      modifies this
      ensures key in s.active && Represents(Queue.Complete(s, limits, key, outcome))
      ensures DrainFollows()
      ensures firstError == if outcome == Failed && old(firstError).None? then Some(error) else old(firstError)
    {
      hide Represents, BooksAgree, RunsAgree, TotalsAgree, LanesAgree, RingAgrees, Core, Queue.Complete;
      if outcome == Failed && firstError.None? {
        firstError := Some(error);
      }
      Conclude(key, queued, outcome, s);
      NotifyRetainedChanged();
    }

    /** Register a waiter unless nothing is retained. */
    method Drain(waiter: nat, ghost s: Ordered) returns (waiting: bool)
      requires Represents(s) && WaitersAgree()
      modifies this`drainWaiters
      ensures Represents(s) && WaitersAgree()
      ensures waiting <==> |s.queued| > 0
      ensures drainWaiters == old(drainWaiters) + if waiting then {waiter} else {}
    {
      assert queues.Keys == s.queued.Keys;
      waiting := buffered > 0;
      if waiting {
        drainWaiters := drainWaiters + {waiter};
      }
    }

    /** What drain reports once it may proceed. */
    method DrainResult(ghost s: Ordered) returns (r: Drained)
      requires Represents(s)
      ensures r == if firstError.Some? then Error(firstError.value) else Totals(s.dispatched, s.deferred)
    {
      if firstError.Some? {
        return Error(firstError.value);
      }
      return Totals(dispatched, deferred);
    }

    /** A call releases the waiters exactly when it leaves nothing retained. */
    twostate predicate DrainFollows()
      reads this`buffered, this`drainWaiters, this`releasedWaiters
    {
      if buffered == 0 then
        drainWaiters == {} && releasedWaiters == old(releasedWaiters) + old(drainWaiters)
      else
        drainWaiters == old(drainWaiters) && releasedWaiters == old(releasedWaiters)
    }

    // ---- private steps -------------------------------------------------------------------------

    method Receive(attention: Attention, ghost s: Ordered) returns (admission: Admission)
      requires Represents(s)
      modifies this`queues, this`tickets, this`buffered, this`projectRetained, this`retainedOrder, this`deferred,
               this`domainDeferred, this`projectReadyDomains, this`projectReadyDomainSets, this`readyProjects,
               this`readyProjectSet, this`activeDomains, this`running
      ensures var (t, answer) := Queue.Enqueue(s, limits, attention); Represents(t) && admission == answer
      ensures admission != Admitted ==> buffered == old(buffered)
    {
      hide Core, KeysOf, Distinct, Elements, Retained, Attentions, Counts, Lanes, LaneSets, Running;
      hide Queue.Pump, MakeRoom, Insert;
      var key := ConflictDomain(attention);
      SameKeys(queues);
      RunningIsRetained(s, key);
      if key in queues || key in activeDomains {
        Reject(SameDomain(key), s);
        return Deferred;
      }
      FreshWaitsNowhere(s, limits, key, attention.projectId);
      ghost var t: Ordered := MakeRoom(s, limits, attention.projectId).0;
      var room;
      room, admission := Admit(attention.projectId, s);
      if room {
        Place(key, attention, t);
      } else {
        Reject(LimitRejected(attention.projectId), t);
      }
    }

    method Place(key: Key, attention: Attention, ghost s: Ordered)
      requires Represents(s) && key == ConflictDomain(attention) && key !in s.queued
      modifies this`queues, this`tickets, this`buffered, this`projectRetained, this`retainedOrder,
               this`projectReadyDomains, this`projectReadyDomainSets, this`readyProjects,
               this`readyProjectSet, this`activeDomains, this`running
      ensures Core(Insert(s, key, attention))
      ensures Represents(Queue.Pump(Insert(s, key, attention), limits.concurrency))
    {
      InsertKeepsCore(s, key, attention);
      assert key !in s.active && key !in queues;
      hide Core, Queue.Pump, Insert, Attentions, Counts, Lanes, LaneSets, Running;
      Keep(key, attention, s);
      Pump(Insert(s, key, attention));
    }

    method Conclude(key: Key, queued: Queued, outcome: Outcome, ghost s: Ordered)
      requires Represents(s) && key in running && running[key] == queued
      modifies this`queues, this`buffered, this`projectRetained, this`retainedOrder, this`deferred, this`dispatched,
               this`domainDeferred, this`projectReadyDomains, this`projectReadyDomainSets, this`readyProjects,
               this`readyProjectSet, this`activeDomains, this`running
      ensures key in s.active && Represents(Queue.Complete(s, limits, key, outcome))
    {
      assert key in s.active;
      SettleKeepsCore(s, key, outcome);
      hide Core, Queue.Pump, Settle, Attentions, Counts, Lanes, LaneSets, Running;
      Retire(key, queued, outcome, s);
      Pump(Settle(s, key, outcome));
    }

    method Reject(event: Event, ghost s: Ordered)
      requires Represents(s) && (event.LimitRejected? || (event.SameDomain? && event.key in s.queued))
      modifies this`deferred, this`domainDeferred
      ensures Represents(s.(
        deferred := s.deferred + 1,
        behind := if event.SameDomain? then s.behind[event.key := Behind(s, event.key) + 1] else s.behind,
        log := s.log + [event]))
    {
      hide Core, Attentions, Counts, Lanes, LaneSets, Running;
      deferred := deferred + 1;
      if event.SameDomain? {
        domainDeferred := domainDeferred[event.key :=
          (if event.key in domainDeferred then domainDeferred[event.key] else 0) + 1];
      }
    }

    /** The limits in front of an admission: make room by evicting, or say which limit refuses. */
    method Admit(projectId: Project, ghost s: Ordered) returns (room: bool, refusal: Admission)
      requires Represents(s)
      modifies this`queues, this`buffered, this`projectRetained, this`retainedOrder, this`deferred,
               this`domainDeferred, this`projectReadyDomains, this`projectReadyDomainSets
      ensures var (t, made) := MakeRoom(s, limits, projectId); Represents(t) && room == made
      ensures refusal == if room then Admitted
        else if Retained(s.queued, projectId) >= limits.projectLimit then Deferred else GlobalFull
      ensures !room ==> buffered == old(buffered)
    {
      var count := Count(projectRetained, projectId);
      CountIsRetained(s, projectId);
      assert queues.Keys == s.queued.Keys;
      hide Core, Evict, Queue.EvictForNewProject, Attentions, Counts, Lanes, LaneSets, Running;
      if count >= limits.projectLimit {
        room := EvictQueuedCandidate(projectId, s);
        refusal := if room then Admitted else Deferred;
      } else if buffered >= limits.bufferLimit {
        if count == 0 {
          room := EvictForNewProject(projectId, s);
        } else {
          room := EvictQueuedCandidate(projectId, s);
        }
        refusal := if room then Admitted else GlobalFull;
      } else {
        room, refusal := true, Admitted;
      }
    }

    method Keep(key: Key, attention: Attention, ghost s: Ordered)
      requires Represents(s) && key == ConflictDomain(attention) && key !in queues && key !in activeDomains
      modifies this`queues, this`tickets, this`buffered, this`projectRetained, this`retainedOrder,
               this`projectReadyDomains, this`projectReadyDomainSets, this`readyProjects, this`readyProjectSet
      ensures Represents(Insert(s, key, attention))
    {
      hide Core, KeysOf, Distinct, Elements, Retained, Attentions, Counts, Lanes, LaneSets, Running;
      SameKeys(queues);
      QueuesGrow(queues, activeDomains, key, Queued(tickets, attention));
      FreshWaitsNowhere(s, limits, key, attention.projectId);
      Record(key, attention, s);
      MarkReady(attention.projectId, key, s);
    }

    /** A retained attention enters the queue and the counts. */
    method Record(key: Key, attention: Attention, ghost s: Ordered)
      requires BooksAgree(s) && key !in queues
      modifies this`queues, this`tickets, this`buffered, this`projectRetained, this`retainedOrder
      ensures BooksAgree(Insert(s, key, attention)) && queues == old(queues[key := Queued(tickets, attention)])
    {
      hide Core, KeysOf, Retained, Distinct, Attentions, Counts;
      SameKeys(queues);
      QueuesGrow(queues, {}, key, Queued(tickets, attention));
      CountsGrow(s, key, attention);
      queues := queues[key := Queued(tickets, attention)];
      tickets := tickets + 1;
      buffered := buffered + 1;
      ChangeProjectRetained(attention.projectId, 1);
    }

    method Retire(key: Key, queued: Queued, outcome: Outcome, ghost s: Ordered)
      requires Represents(s) && key in running && running[key] == queued
      modifies this`queues, this`activeDomains, this`running, this`buffered, this`projectRetained,
               this`retainedOrder, this`deferred, this`dispatched, this`domainDeferred
      ensures key in s.queued && Represents(Settle(s, key, outcome))
    {
      hide Core, Attentions, Running, Settle, Forget, BooksAgree, TotalsAgree, LanesAgree, RingAgrees;
      RunningShows(queues, activeDomains, key);
      QueuesShrink(queues, activeDomains, key);
      QueuedIsShown(key, s);
      SettleParts(s, key, outcome);
      activeDomains := activeDomains - {key};
      running := running - {key};
      if key in queues && queues[key] == queued {
        Discard(key, queued.attention.projectId, s);
        Answer(key, outcome, s);
      } else {
        assert false;
      }
      Carry(s, Settle(s, key, outcome));
      Carry(Forget(s, key), Settle(s, key, outcome));
    }

    lemma QueuedIsShown(key: Key, s: State)
      requires BooksAgree(s) && key in queues
      ensures key in s.queued && s.queued[key] == queues[key].attention
    {
      hide Counts;
    }

    /** A completion answers the rejections behind its domain. */
    method Answer(key: Key, outcome: Outcome, ghost s: State)
      requires TotalsAgree(s) && key in s.queued
      modifies this`deferred, this`dispatched, this`domainDeferred
      ensures TotalsAgree(Settle(s, key, outcome))
    {
      if outcome == Dispatched {
        dispatched := dispatched + 1;
      }
      var behind := if key in domainDeferred then domainDeferred[key] else 0;
      if outcome == Blocked {
        deferred := deferred - behind;
      } else if outcome == Retry && behind == 0 {
        deferred := deferred + 1;
      }
      domainDeferred := domainDeferred - {key};
    }

    /** A retained attention leaves the queue and the counts. */
    method Discard(key: Key, projectId: Project, ghost s: Ordered)
      requires BooksAgree(s) && key in s.queued && s.queued[key].projectId == projectId
      modifies this`queues, this`buffered, this`projectRetained, this`retainedOrder
      ensures BooksAgree(Forget(s, key)) && queues == old(queues) - {key}
    {
      hide Core, KeysOf, Retained, Distinct, Attentions, Counts;
      SameKeys(queues);
      QueuesShrink(queues, {}, key);
      CountsShrink(s, key);
      queues := queues - {key};
      buffered := buffered - 1;
      ChangeProjectRetained(projectId, -1);
    }

    method MarkReady(projectId: Project, key: Key, ghost s: State)
      requires LanesAgree(s) && RingAgrees(s)
      requires key !in activeDomains && key !in Lane(s, projectId)
      modifies this`projectReadyDomains, this`projectReadyDomainSets, this`readyProjects, this`readyProjectSet
      ensures projectReadyDomainSets == LaneSets(projectReadyDomains)
      ensures Lanes(projectReadyDomains) == SetLane(s.lanes, projectId, Lane(s, projectId) + [key])
      ensures readyProjectSet == Elements(readyProjects)
      ensures readyProjects == if projectId in s.ring then s.ring else s.ring + [projectId]
    {
      if key in activeDomains {
        assert false;
      }
      if projectId !in projectReadyDomainSets {
        LanesOpen(projectReadyDomains, projectId);
        projectReadyDomainSets := projectReadyDomainSets[projectId := {}];
        projectReadyDomains := projectReadyDomains[projectId := []];
      }
      if key !in projectReadyDomainSets[projectId] {
        LanesPush(projectReadyDomains, projectId, key);
        projectReadyDomainSets := projectReadyDomainSets[projectId := projectReadyDomainSets[projectId] + {key}];
        projectReadyDomains := projectReadyDomains[projectId := projectReadyDomains[projectId] + [key]];
      } else {
        assert false;
      }
      MarkProjectReady(projectId);
    }

    method MarkProjectReady(projectId: Project)
      requires projectReadyDomainSets == LaneSets(projectReadyDomains) && readyProjectSet == Elements(readyProjects)
      modifies this`readyProjects, this`readyProjectSet
      ensures readyProjectSet == Elements(readyProjects)
      ensures readyProjects ==
        if projectId in old(readyProjects) || projectId !in Lanes(projectReadyDomains) then old(readyProjects)
        else old(readyProjects) + [projectId]
    {
      if projectId in readyProjectSet ||
         (if projectId in projectReadyDomainSets then |projectReadyDomainSets[projectId]| else 0) == 0 {
        assert projectId in Lanes(projectReadyDomains) ==>
          projectReadyDomains[projectId][0] in projectReadyDomainSets[projectId];
        return;
      }
      readyProjectSet := readyProjectSet + {projectId};
      readyProjects := readyProjects + [projectId];
    }

    /** List and set agree, so a loop over stale entries would never meet one: a single turn is enough. */
    method TakeReadyDomain(projectId: Project, ghost s: State) returns (taken: Option<Key>)
      requires LanesAgree(s) && Distinct(Lane(s, projectId))
      modifies this`projectReadyDomains, this`projectReadyDomainSets
      ensures projectReadyDomainSets == LaneSets(projectReadyDomains)
      ensures projectId !in s.lanes ==> taken == None && Lanes(projectReadyDomains) == s.lanes
      ensures projectId in s.lanes ==>
        && s.lanes[projectId] != [] && taken == Some(s.lanes[projectId][0])
        && Lanes(projectReadyDomains) == SetLane(s.lanes, projectId, s.lanes[projectId][1..])
    {
      if projectId !in projectReadyDomains {
        return None;
      }
      var domains := projectReadyDomains[projectId];
      if |domains| > 0 {
        LanesTake(projectReadyDomains, projectId);
        projectReadyDomains := projectReadyDomains[projectId := domains[1..]];
        if domains[0] !in projectReadyDomainSets[projectId] {
          assert false;
        }
        projectReadyDomainSets := projectReadyDomainSets[projectId := projectReadyDomainSets[projectId] - {domains[0]}];
        return Some(domains[0]);
      }
      LanesTidy(projectReadyDomains, projectId);
      if |projectReadyDomainSets[projectId]| == 0 {
        projectReadyDomainSets := projectReadyDomainSets - {projectId};
        projectReadyDomains := projectReadyDomains - {projectId};
      }
      return None;
    }

    method ChangeProjectRetained(projectId: Project, delta: int)
      requires delta == 1 || (delta == -1 && projectId in projectRetained && projectRetained[projectId] > 0)
      modifies this`projectRetained, this`retainedOrder
      ensures var next := Count(old(projectRetained), projectId) + delta;
        && projectRetained ==
             (if next == 0 then old(projectRetained) - {projectId} else old(projectRetained)[projectId := next])
        && retainedOrder ==
             (if next == 0 then Without(old(retainedOrder), projectId)
              else if projectId in old(projectRetained) then old(retainedOrder)
              else old(retainedOrder) + [projectId])
    {
      var next := Count(projectRetained, projectId) + delta;
      if next == 0 {
        projectRetained := projectRetained - {projectId};
        retainedOrder := Without(retainedOrder, projectId);
      } else {
        if projectId !in projectRetained {
          retainedOrder := retainedOrder + [projectId];
        }
        projectRetained := projectRetained[projectId := next];
      }
    }

    method Pump(ghost s: Ordered)
      requires Represents(s)
      modifies this`readyProjects, this`readyProjectSet, this`projectReadyDomains, this`projectReadyDomainSets,
               this`activeDomains, this`running
      ensures Represents(Queue.Pump(s, limits.concurrency))
    {
      ghost var t: Ordered := s;
      while |activeDomains| < limits.concurrency && |readyProjects| > 0
        invariant Represents(t)
        invariant Queue.Pump(t, limits.concurrency) == Queue.Pump(s, limits.concurrency)
        decreases limits.concurrency - |activeDomains|, |readyProjects|
      {
        PopOneKeepsCore(t);
        PumpOne(t);
        t := PopOne(t);
      }
    }

    /** One turn of the loop of `pump`. */
    method PumpOne(ghost s: Ordered)
      requires Represents(s) && readyProjects != []
      modifies this`readyProjects, this`readyProjectSet, this`projectReadyDomains, this`projectReadyDomainSets,
               this`activeDomains, this`running
      ensures Represents(PopOne(s))
    {
      hide Core, KeysOf, Distinct, Elements, LaneSets, Lanes, PopOne, BooksAgree, RunsAgree, TotalsAgree;
      PopParts(s);
      RingIsReady(s);
      if s.ring[0] in s.lanes {
        HeadIsIdle(s, s.ring[0]);
      }
      var taken := TurnRing(s);
      if taken.Some? {
        Begin(taken.value, s);
      }
      Carry(s, PopOne(s));
      Carry(if taken.Some? then s.(active := s.active + {taken.value}) else s, PopOne(s));
    }

    lemma RingIsReady(s: State)
      requires RingAgrees(s)
      ensures s.ring == readyProjects
    {
    }

    /** A retained domain starts. */
    method Begin(key: Key, ghost s: State)
      requires BooksAgree(s) && RunsAgree(s) && key in s.queued
      modifies this`activeDomains, this`running
      ensures RunsAgree(s.(active := s.active + {key}))
    {
      hide Counts, Running, Attentions;
      SameKeys(queues);
      RunningGrow(queues, activeDomains, key);
      if key !in queues {
        assert false;
      }
      activeDomains := activeDomains + {key};
      running := running[key := queues[key]];
    }

    /** The project at the head of the ring gives up its oldest ready domain and queues again. */
    method TurnRing(ghost s: Ordered) returns (taken: Option<Key>)
      requires LanesAgree(s) && RingAgrees(s) && readyProjects != []
      modifies this`readyProjects, this`readyProjectSet, this`projectReadyDomains, this`projectReadyDomainSets
      ensures LanesAgree(PopOne(s)) && RingAgrees(PopOne(s))
      ensures taken == if s.ring[0] in s.lanes && s.lanes[s.ring[0]] != [] then Some(s.lanes[s.ring[0]][0]) else None
    {
      var projectId := readyProjects[0];
      DistinctHead(readyProjects);
      assert Distinct(Lane(s, projectId));
      hide Core, LaneSets;
      readyProjects := readyProjects[1..];
      if projectId !in readyProjectSet {
        assert false;
      }
      readyProjectSet := readyProjectSet - {projectId};
      taken := TakeReadyDomain(projectId, s);
      MarkProjectReady(projectId);
    }

    method EvictQueuedCandidate(projectId: Project, ghost s: Ordered) returns (evicted: bool)
      requires Represents(s)
      modifies this`queues, this`buffered, this`projectRetained, this`retainedOrder, this`deferred,
               this`domainDeferred, this`projectReadyDomains, this`projectReadyDomainSets
      ensures var (t, done) := Evict(s, projectId); Represents(t) && evicted == done
      ensures !evicted ==> buffered == old(buffered)
    {
      hide Core, KeysOf, Distinct, Elements, Retained, Attentions, Counts, Lanes, LaneSets, Running, Evict, Forget;
      EvictParts(s, projectId);
      var taken := TakeReadyDomain(projectId, s);
      evicted := taken.Some?;
      if evicted {
        Drop(taken.value, projectId, s);
      }
    }

    method Drop(key: Key, projectId: Project, ghost s: Ordered)
      requires BooksAgree(s) && RunsAgree(s)
      requires projectId in s.lanes && s.lanes[projectId] != [] && key == s.lanes[projectId][0]
      modifies this`queues, this`buffered, this`projectRetained, this`retainedOrder, this`deferred,
               this`domainDeferred
      ensures key in s.queued && BooksAgree(Forget(s, key)) && RunsAgree(s)
      ensures deferred == old(deferred) + 1 && domainDeferred == old(domainDeferred) - {key}
    {
      hide Core, KeysOf, Distinct, Elements, Retained, Attentions, Counts, Lanes, LaneSets, Running, Forget;
      HeadIsIdle(s, projectId);
      RunningDrop(queues, activeDomains, key);
      if key !in queues || key in activeDomains {
        assert false;
      }
      deferred := deferred + 1;
      domainDeferred := domainDeferred - {key};
      Discard(key, projectId, s);
    }

    method EvictForNewProject(projectId: Project, ghost s: Ordered) returns (evicted: bool)
      requires Represents(s)
      modifies this`queues, this`buffered, this`projectRetained, this`retainedOrder, this`deferred,
               this`domainDeferred, this`projectReadyDomains, this`projectReadyDomainSets
      ensures var (t, done) := Queue.EvictForNewProject(s, projectId); Represents(t) && evicted == done
      ensures !evicted ==> buffered == old(buffered)
    {
      var candidates := Candidates(projectRetained, retainedOrder, projectId);
      ghost var t: Ordered := s;
      for i := 0 to |candidates|
        invariant Represents(t) && buffered == old(buffered)
        invariant EvictFirst(t, candidates[i..]) == EvictFirst(s, candidates)
      {
        assert candidates[i..][1..] == candidates[i + 1..];
        EvictKeepsCore(t, candidates[i]);
        var done := EvictQueuedCandidate(candidates[i], t);
        if done {
          return true;
        }
        t := Evict(t, candidates[i]).0;
      }
      evicted := EvictQueuedCandidate(projectId, t);
    }

    method NotifyRetainedChanged()
      modifies this`drainWaiters, this`releasedWaiters
      ensures DrainFollows()
    {
      if buffered == 0 {
        releasedWaiters := releasedWaiters + drainWaiters;
        drainWaiters := {};
      }
    }
  }
}
