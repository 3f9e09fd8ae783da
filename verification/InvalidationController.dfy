/** The controller's tables, updated in place, and the proof that each handler changes them as the steps in
    Invalidation.dfy say. A handler runs one synchronous stretch; the runtime resumes what it suspended. */
module InvalidationController {
  import opened Sequences
  import opened CoalescedRefresh
  import opened ProjectionIndex
  import opened Invalidation
  import opened InvalidationTheorems

  lemma GoodIndex(s: State)
    requires Good(s)
    ensures Indexed(s.index)
  {
  }

  class Controller {
    var seenEventIds: seq<Event>
    var processingEventIds: set<Event>
    var pendingInvalidations: map<Event, set<Key>>
    var projectionInvalidations: map<Key, Projection>
    var coalescedRefreshes: map<Key, Entry>

    // The JavaScript runtime's promises, suspended continuations and object identities.
    var requests: map<nat, Request>
    var followUps: map<nat, Source>
    var suspended: map<nat, Waiter>
    var nextProjection: nat
    var nextFlight: nat
    var nextSuspended: nat
    var clearedAt: nat

    ghost var loads: map<Key, nat>
    ghost var marks: map<(Event, Key), Registration>
    ghost var log: seq<Handled>

    ghost function TheIndex(): Index
      reads this`seenEventIds, this`pendingInvalidations, this`projectionInvalidations, this`nextProjection
    {
      Index(seenEventIds, pendingInvalidations, projectionInvalidations, nextProjection)
    }

    ghost function TheFlights(): Flights
      reads this`coalescedRefreshes, this`requests, this`followUps, this`nextFlight, this`clearedAt
    {
      Flights(coalescedRefreshes, requests, followUps, nextFlight, clearedAt)
    }

    /** The fields as one value. */
    ghost function Now(): State
      reads this
    {
      State(processingEventIds, TheIndex(), TheFlights(), suspended, nextSuspended, loads, marks, log)
    }

    ghost predicate Valid()
      reads this
    {
      Good(Now())
    }

    constructor ()
      ensures Valid() && Now() == Initial
    {
      seenEventIds, processingEventIds, pendingInvalidations, projectionInvalidations := [], {}, map[], map[];
      coalescedRefreshes, requests, followUps, suspended := map[], map[], map[], map[];
      nextProjection, nextFlight, nextSuspended, clearedAt := 0, 0, 0, 0;
      loads, marks, log := map[], map[], [];
    }

    // ---- the handlers --------------------------------------------------------------------------

    method ApplyEvent(event: Event, keys: seq<Key>)
      requires Valid()
      modifies this
      ensures Valid() && Now() == Deliver(old(Now()), event, keys)
    {
      hide Good, Queue;
      DeliverKeeps(Now(), event, keys);
      if event in seenEventIds || event in processingEventIds || event in pendingInvalidations {
        return;
      }
      if |keys| == 0 {
        RememberEvent(event);
        return;
      }
      var call := nextSuspended;
      processingEventIds := processingEventIds + {event};
      nextSuspended := nextSuspended + 1;
      ghost var start := Now();
      for i := 0 to |keys|
        invariant QueueAll(Now(), event, keys[i..], call) == QueueAll(start, event, keys, call)
      {
        assert keys[i..][0] == keys[i] && keys[i..][1..] == keys[i + 1..];
        QueueKey(event, keys[i], call);
      }
    }

    method TimerFires(key: Key)
      requires Valid() && key in projectionInvalidations && projectionInvalidations[key].timer
      modifies this
      ensures Valid() && Now() == RetryNow(old(Now()), key)
    {
      RetryKeeps(Now(), key);
      hide Good;
      RetryProjectionInvalidation(key);
    }

    method RetryPendingInvalidation(key: Key)
      requires Valid() && key in projectionInvalidations
      modifies this
      ensures Valid() && Now() == RetryNow(old(Now()), key)
    {
      RetryKeeps(Now(), key);
      hide Good;
      RetryProjectionInvalidation(key);
    }

    method Resume(waiter: nat)
      requires Valid() && waiter in suspended && Enabled(Now(), Step.Resume(waiter))
      modifies this
      ensures Valid() && Now() == Take(old(Now()), Step.Resume(waiter))
    {
      TakeKeeps(Now(), Step.Resume(waiter));
      var w := suspended[waiter];
      if w.Apply? {
        ContinueApply(waiter, w);
      } else {
        ContinueRetry(waiter, w);
      }
    }

    /** The refresh of a request settles. */
    method Settled(request: nat, ok: bool)
      requires Valid() && Enabled(Now(), Answer(request, ok))
      modifies this`requests
      ensures Valid() && TheFlights() == Settle(old(TheFlights()), request, ok)
    {
      TakeKeeps(Now(), Answer(request, ok));
      requests := requests[request := requests[request].(outcome := Some(ok))];
    }

    /** The callback attached to every request. */
    method AfterRefresh(request: nat)
      requires Valid() && request in requests && requests[request].outcome.Some? && !requests[request].chained
      modifies this`coalescedRefreshes, this`requests, this`followUps, this`nextFlight
      ensures Valid() && TheFlights() == Chain(old(TheFlights()), request)
    {
      hide Good, Chain;
      ChainIsGood(Now(), request);
      FollowUpOrForget(request);
    }

    method FollowUpOrForget(request: nat)
      requires request in requests
      modifies this`coalescedRefreshes, this`requests, this`followUps, this`nextFlight
      ensures TheFlights() == Chain(old(TheFlights()), request)
    {
      hide Start;
      var key, entry := requests[request].key, requests[request].entry;
      requests := requests[request := requests[request].(chained := true)];
      if key !in coalescedRefreshes || coalescedRefreshes[key].id != entry
         || coalescedRefreshes[key].inFlight != request {
        return;
      }
      var followUp := coalescedRefreshes[key].followUp;
      if followUp.None? {
        coalescedRefreshes := coalescedRefreshes - {key};
        return;
      }
      var next := StartCoalescedRefresh(key, entry);
      followUps := followUps[followUp.value := Linked(next)];
    }

    method AbandonProjectionInvalidation(key: Key)
      requires Valid()
      modifies this
      ensures Valid() && Now() == Abandon(old(Now()), key) && key !in projectionInvalidations
    {
      hide Good, Indexed, Abandon;
      AbandonKeeps(Now(), key);
      GoodIndex(Now());
      GiveUp(key);
    }

    method GiveUp(key: Key)
      requires Indexed(TheIndex()) && key !in Abandon(Now(), key).index.projections
      modifies this`seenEventIds, this`pendingInvalidations, this`projectionInvalidations, this`log,
               this`coalescedRefreshes, this`followUps, this`nextFlight
      ensures Now() == Abandon(old(Now()), key)
    {
      hide Indexed, HandleAll, Release;
      if key in projectionInvalidations {
        ReconcileAll(projectionInvalidations[key].events, key, ByAbandoning, None);
      }
      assert projectionInvalidations - {key} == projectionInvalidations;
      projectionInvalidations := projectionInvalidations - {key};
      ReleaseFollowUp(key);
    }

    /** Sign-out, disposal or a new bootstrap. */
    method ClearSession()
      requires Valid()
      modifies this
      ensures Valid() && Now() == Clear(old(Now()))
    {
      hide Good, Clear;
      ClearKeeps(Now());
      ClearTables();
    }

    method ClearTables()
      modifies this`seenEventIds, this`processingEventIds, this`pendingInvalidations, this`projectionInvalidations,
               this`coalescedRefreshes, this`followUps, this`nextFlight, this`clearedAt, this`loads
      ensures Now() == Clear(old(Now()))
    {
      hide ReleaseAll;
      ClearPendingInvalidations();
      ClearCoalescedRefreshes();
      seenEventIds, loads := [], map[];
    }

    method ClearPendingInvalidations()
      modifies this`processingEventIds, this`pendingInvalidations, this`projectionInvalidations
      ensures Now() == old(Now()).(processing := {}, index := old(TheIndex()).(pending := map[], projections := map[]))
    {
      pendingInvalidations, projectionInvalidations, processingEventIds := map[], map[], {};
    }

    method CoalesceProjectionRefresh(key: Key) returns (promise: Promise)
      requires Valid()
      modifies this`coalescedRefreshes, this`requests, this`followUps, this`nextFlight
      ensures Valid() && TheFlights() == Coalesce(old(TheFlights()), key).0
      ensures promise == Coalesce(old(TheFlights()), key).1
    {
      TakeKeeps(Now(), Refresh(key));
      hide Good;
      promise := JoinRefresh(key);
    }

    // ---- private steps -------------------------------------------------------------------------

    method RememberEvent(event: Event)
      modifies this`seenEventIds
      ensures seenEventIds == Remember(old(seenEventIds), event)
    {
      seenEventIds := seenEventIds + [event];
      if |seenEventIds| > SeenLimit {
        seenEventIds := seenEventIds[|seenEventIds| - SeenKept..];
      }
    }

    method RegisterProjectionInvalidation(event: Event, key: Key)
      modifies this`pendingInvalidations, this`projectionInvalidations, this`nextProjection
      ensures TheIndex() == Register(old(TheIndex()), event, key)
    {
      var keys := if event in pendingInvalidations then pendingInvalidations[event] else {};
      pendingInvalidations := pendingInvalidations[event := keys + {key}];
      var projection :=
        if key in projectionInvalidations then projectionInvalidations[key]
        else Projection(nextProjection, [], 0, false);
      if event !in projection.events {
        projection := projection.(events := projection.events + [event]);
      }
      projectionInvalidations := projectionInvalidations[key := projection];
      nextProjection := nextProjection + 1;
    }

    /** Await `waiter`'s promise. */
    method Suspend(waiter: Waiter)
      modifies this`suspended, this`nextSuspended
      ensures Now() == Await(old(Now()), waiter)
    {
      suspended := suspended[nextSuspended := waiter];
      nextSuspended := nextSuspended + 1;
    }

    method NoteEvent(event: Event, key: Key)
      modifies this`pendingInvalidations, this`projectionInvalidations, this`nextProjection, this`marks
      ensures Now() == Note(old(Now()), event, key)
    {
      hide Register;
      marks := if Pending(TheIndex(), event, key) then marks else marks[(event, key) := Here(Now())];
      RegisterProjectionInvalidation(event, key);
    }

    method QueueKey(event: Event, key: Key, call: nat)
      modifies this`pendingInvalidations, this`projectionInvalidations, this`nextProjection, this`marks, this`suspended,
               this`nextSuspended, this`coalescedRefreshes, this`requests, this`followUps, this`nextFlight
      ensures Now() == Queue(old(Now()), event, key, call)
    {
      hide Note, Coalesce, Await;
      var armed := key in projectionInvalidations && projectionInvalidations[key].timer;
      NoteEvent(event, key);
      if armed {
        Suspend(Apply(event, key, Immediate, call));
      } else {
        AwaitRefresh(event, key, call);
      }
    }

    method AwaitRefresh(event: Event, key: Key, call: nat)
      modifies this`suspended, this`nextSuspended, this`coalescedRefreshes, this`requests, this`followUps,
               this`nextFlight
      ensures var (flights, promise) := Coalesce(old(TheFlights()), key);
        Now() == Await(old(Now()).(flights := flights), Apply(event, key, promise, call))
    {
      hide Coalesce;
      var promise := JoinRefresh(key);
      Suspend(Apply(event, key, promise, call));
    }

    method JoinRefresh(key: Key) returns (promise: Promise)
      modifies this`coalescedRefreshes, this`requests, this`followUps, this`nextFlight
      ensures TheFlights() == Coalesce(old(TheFlights()), key).0
      ensures promise == Coalesce(old(TheFlights()), key).1
    {
      if key in coalescedRefreshes {
        var existing := coalescedRefreshes[key];
        if existing.followUp.None? {
          existing := existing.(followUp := Some(nextFlight));
          coalescedRefreshes := coalescedRefreshes[key := existing];
          followUps := followUps[nextFlight := Waiting(key)];
          nextFlight := nextFlight + 1;
        }
        return OfFollowUp(existing.followUp.value);
      }
      var entry := nextFlight;
      nextFlight := nextFlight + 1;
      var request := StartCoalescedRefresh(key, entry);
      return OfRequest(request);
    }

    method ReleaseFollowUp(key: Key)
      modifies this`coalescedRefreshes, this`followUps, this`nextFlight
      ensures TheFlights() == Release(old(TheFlights()), key)
    {
      if key in coalescedRefreshes && coalescedRefreshes[key].followUp.Some? {
        var followUp := coalescedRefreshes[key].followUp.value;
        coalescedRefreshes := coalescedRefreshes[key := coalescedRefreshes[key].(followUp := None)];
        followUps := followUps[followUp := Released(nextFlight, true)];
        nextFlight := nextFlight + 1;
      }
    }

    method ClearCoalescedRefreshes()
      modifies this`coalescedRefreshes, this`followUps, this`nextFlight, this`clearedAt
      ensures TheFlights() == ReleaseAll(old(TheFlights()))
    {
      ghost var before := TheFlights();
      var released := set k | k in coalescedRefreshes && coalescedRefreshes[k].followUp.Some?
                      :: coalescedRefreshes[k].followUp.value;
      assert forall f :: f in released <==> HeldBy(before, f);
      followUps := map f | f in followUps :: if f in released then Released(nextFlight, false) else followUps[f];
      nextFlight, clearedAt := nextFlight + 1, nextFlight + 1;
      coalescedRefreshes := map[];
    }

    method StartCoalescedRefresh(key: Key, entry: nat) returns (request: nat)
      modifies this`coalescedRefreshes, this`requests, this`nextFlight
      ensures TheFlights() == Start(old(TheFlights()), key, entry) && request == old(nextFlight)
    {
      request := nextFlight;
      requests := requests[request := Request(key, entry, None, false)];
      coalescedRefreshes := coalescedRefreshes[key := Entry(entry, request, None)];
      nextFlight := nextFlight + 1;
    }

    method RetryProjectionInvalidation(key: Key)
      requires key in projectionInvalidations
      modifies this
      ensures Now() == RetryNow(old(Now()), key)
    {
      var projection := projectionInvalidations[key].(timer := false);
      projectionInvalidations := projectionInvalidations[key := projection];
      var promise := JoinRefresh(key);
      Suspend(Retry(projection.id, key, promise, projection.events));
    }

    method ScheduleProjectionRetry(key: Key)
      modifies this`projectionInvalidations
      ensures TheIndex() == Schedule(old(TheIndex()), key)
    {
      if key !in projectionInvalidations || projectionInvalidations[key].timer {
        return;
      }
      var projection := projectionInvalidations[key];
      projectionInvalidations := projectionInvalidations[key :=
        projection.(retries := projection.retries + 1, timer := true)];
    }

    /** Take the pair out of both tables, and either entry with it when it is the last one. */
    method ReconcileEventProjection(event: Event, key: Key)
      requires Indexed(TheIndex())
      modifies this`seenEventIds, this`pendingInvalidations, this`projectionInvalidations
      ensures TheIndex() == Reconcile(old(TheIndex()), event, key) && Indexed(TheIndex())
    {
      hide Indexed, Waits;
      ReconcileKeeps(TheIndex(), event, key);
      if event !in pendingInvalidations {
        return;
      }
      if !Pending(TheIndex(), event, key) {
        ReconcileSkips(TheIndex(), event, key);
      }
      var keys := pendingInvalidations[event] - {key};
      pendingInvalidations := pendingInvalidations[event := keys];
      DropFromProjection(event, key);
      if |keys| == 0 {
        pendingInvalidations := pendingInvalidations - {event};
        if event !in seenEventIds {
          RememberEvent(event);
        }
      }
    }

    method DropFromProjection(event: Event, key: Key)
      modifies this`projectionInvalidations
      ensures projectionInvalidations ==
        var was := old(projectionInvalidations);
        if key !in was then was
        else if Without(was[key].events, event) == [] then was - {key}
        else was[key := was[key].(events := Without(was[key].events, event))]
    {
      if key in projectionInvalidations {
        var projection := projectionInvalidations[key];
        projection := projection.(events := Without(projection.events, event));
        projectionInvalidations := projectionInvalidations[key := projection];
        if |projection.events| == 0 {
          projectionInvalidations := projectionInvalidations - {key};
        }
      }
    }

    method HandleEvent(event: Event, key: Key, ghost cause: Cause, ghost waiter: Option<nat>)
      requires Indexed(TheIndex())
      modifies this`seenEventIds, this`pendingInvalidations, this`projectionInvalidations, this`log
      ensures Now() == Handle(old(Now()), event, key, cause, waiter) && Indexed(TheIndex())
    {
      hide Indexed, Reconcile, Logged;
      log := if Pending(TheIndex(), event, key) then log + [Logged(Now(), event, key, cause, waiter)] else log;
      ReconcileEventProjection(event, key);
    }

    method ReconcileAll(events: seq<Event>, key: Key, ghost cause: Cause, ghost waiter: Option<nat>)
      requires Indexed(TheIndex())
      modifies this`seenEventIds, this`pendingInvalidations, this`projectionInvalidations, this`log
      ensures Now() == HandleAll(old(Now()), events, key, cause, waiter)
    {
      ghost var start := Now();
      for i := 0 to |events|
        invariant Indexed(TheIndex())
        invariant HandleAll(Now(), events[i..], key, cause, waiter) == HandleAll(start, events, key, cause, waiter)
      {
        assert events[i..][0] == events[i] && events[i..][1..] == events[i + 1..];
        HandleEvent(events[i], key, cause, waiter);
      }
    }

    method ContinueApply(waiter: nat, w: Waiter)
      requires Indexed(TheIndex()) && waiter in suspended && suspended[waiter] == w && w.Apply?
      modifies this
      ensures Now() == ResumeApply(old(Now()), waiter)
    {
      hide Indexed, Handle, Schedule, CauseOf, Value;
      ghost var s := Now();
      suspended := suspended - {waiter};
      var succeeded := Value(Flights(coalescedRefreshes, requests, followUps, nextFlight, clearedAt), w.promise);
      if succeeded == Some(true) {
        HandleEvent(w.event, w.key, CauseOf(s.flights, w.promise), Some(waiter));
      } else if succeeded == Some(false) {
        ScheduleProjectionRetry(w.key);
      }
      ghost var t := Now();
      if forall x :: x in suspended ==> !(suspended[x].Apply? && suspended[x].call == w.call) {
        processingEventIds := processingEventIds - {w.event};
      }
      assert Now() == Finish(t, w.event, w.call);
    }

    method ContinueRetry(waiter: nat, w: Waiter)
      requires Indexed(TheIndex()) && waiter in suspended && suspended[waiter] == w && w.Retry?
      modifies this
      ensures Now() == ResumeRetry(old(Now()), waiter)
    {
      ghost var s := Now();
      suspended := suspended - {waiter};
      if w.key !in projectionInvalidations || projectionInvalidations[w.key].id != w.projection {
        return;
      }
      if Value(Flights(coalescedRefreshes, requests, followUps, nextFlight, clearedAt), w.promise) == Some(true) {
        ResetRetriesKeeps(TheIndex(), w.key);
        projectionInvalidations := projectionInvalidations[w.key := projectionInvalidations[w.key].(retries := 0)];
        ReconcileAll(w.events, w.key, CauseOf(s.flights, w.promise), Some(waiter));
      } else {
        ScheduleProjectionRetry(w.key);
      }
    }
  }
}
