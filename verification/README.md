# Verified model of the coordination core

A Dafny model of the parts of the system that have to stay right while other things happen: work that is
scheduled, refreshed, stopped, resent or resumed while replies are late, storage fails, processes die and
connections break. Every stretch of the program between two awaits is one atomic step, and the environment
picks the next step freely.

How the files go together:

- `Machines.dfy` and `Sequences.dfy` hold what the models share: runs of a state machine whose environment
  picks the actions, and facts about sequences without repetition.
- The attention scheduler of the runtime. `AttentionQueue.dfy` is the scheduler as a value,
  `AttentionTheorems.dfy` proves what every run keeps, `AttentionTurns.dfy` whose turn it is and that nobody
  starves, `AttentionOrder.dfy` who comes first, `AttentionBalance.dfy` that the books balance and what an arrival
  is answered; `AttentionScheduler.dfy` is the object with its eight collections and shows that each call changes
  them as the value says.
- Invalidation in the browser. `CoalescedRefresh.dfy` (single-flight refreshes with one follow-up),
  `ProjectionIndex.dfy` (the two-way index of events and projections) and `Invalidation.dfy` (continuations,
  timers, abandonment) are the model; `InvalidationTheorems.dfy` proves coverage and freshness over every run,
  `InvalidationProgress.dfy` what becomes of an event, `LateContinuations.dfy` holds the runs that fall short;
  `InvalidationController.dfy` is the controller that updates the tables in place.
- Stopping a writer process. `StopProtocol.dfy` is the handle, the Kernel's record and the process itself,
  `StopTheorems.dfy` the fencing argument, `StopVerdicts.dfy` who is said to have ended the process,
  `StopProgress.dfy` that a stop gets to its end and what is recorded then, `LateStops.dfy` what becomes of a stop
  that comes too late, `WorktreeProcess.dfy` the handle as an object.
- Human Run commands. `RunCommands.dfy` is the window, its storage, the network and a server that looks the
  idempotency key up first; `RunCommandTheorems.dfy` proves exactly-once, `RunCommandProgress.dfy` what is shown and
  what can be done next; `RunRecovery.dfy` is the recovery format; `RunControlsModel.dfy` is the window's model as an
  object.
- The ACP wire. `WireMonitor.dfy` holds the monitor and an independent trace specification in terms of the
  history alone, after sections 4 and 5 of the JSON-RPC 2.0 Specification; `WireTheorems.dfy` proves that the
  one accepts what the other allows, `WireOutcomes.dfy` says what constants and failure codes mean; `Wire.dfy` is
  the monitor as an object; `Framing.dfy` the frames below it.
- The Run timeline. `Timeline.dfy` holds merging, page checks and the gap loop; `TimelineRuns.dfy` interleaves
  refreshes and history loads over a growing log, `TimelineProgress.dfy` shows that they get somewhere.
- Windows start-up. `Quoting.dfy` prints a command line and takes it apart by the rules of the Microsoft C
  runtime; `OwnerInput.dfy` frames fields and reads them from a pipe that gives any pieces it likes.
- `EventStream.dfy` is the resumable event stream with a client that reconnects by its last identifier
  (section 9.2 of the WHATWG HTML standard), and `CausalTree.dfy` the admission of Runs into causal trees.

Where a value and an object model the same thing, the object's methods state their new state by the value's
functions, and the theorems are about those functions.

## Where the code does less than one would expect

- A continuation that is suspended on a refresh does not notice that its event is handled and registered anew
  meanwhile, and may mark the new delivery handled by the older read. Two runs show it: one across a clear of the
  session (`StaleContinuationHandlesANewerDelivery`), one within a session, where two hundred other events have
  pushed the event out of the seen list (`LateRetryHandlesANewerDelivery`). `HandledIsFreshUnlessLate` is the
  exact condition, over every run: the mark is justified if and only if the continuation was not, when the pair
  was last registered, already suspended on a refresh that had begun. In particular it is justified whenever the
  event stayed registered since the continuation was suspended.
- A clear forgets the refreshes in flight, and the next delivery starts another of the same key beside them:
  `TwoInFlightAfterAClear`. `SingleFlightExactly` says when a key has at most one unfinished refresh: if and
  only if none outlived a clear, or a single one did and the current entry has none.
- A stop asked for between a finishing settlement's last look and its return is not made durable.
  `DurableExactlyWhenInTime` is the equivalence, over every run of a settlement from any of its points. What else
  happens depends on where the settlement was suspended, and `LateStopOutcome` says exactly when it releases the
  lease all the same: `LateStopReleasesWithoutDurableRevocation` is a run in which it does, and
  `LateStopIsDropped` one in which it does nothing at all, because it was about to return; then the stop is
  asked for, but neither is the revocation durable nor the lease released nor a retry armed.
  `StopInTimeIsDurable` shows that a stop asked for before the last look is durable before any later release. A
  released lease means a dead child all the same.
- Beyond the byte limit the cut of a stream into chunks matters: the chunk that exceeds the limit is dropped
  whole. `CutsDifferBeyondTheLimit` is the case, `BeyondTheLimit` says exactly what is shown.
- A command line is cut at the first NUL, so an argument with a NUL is not passed on. `ArgumentsRoundTrip` is an
  equivalence for that reason.
- The conflict domain joins agent and thread with a NUL, so two different pairs can share one when an agent
  identifier holds a NUL; `ConflictDomainsCoincide` says exactly when.

## Model

| member | source | states |
|---|---|---|
| `AttentionQueue.ConflictDomainsCoincide` | packages/agent-runtime/src/runtime.ts:2282-2284 | two attentions share a conflict domain exactly when they share agent and thread, or a NUL inside an agent identifier lets two pairs read the same |
| `AttentionQueue.SortFalls` | packages/agent-runtime/src/runtime.ts:2240-2247 | the candidates of an eviction come fullest project first |
| `AttentionQueue.EvictKeepsCore` | packages/agent-runtime/src/runtime.ts:2223-2238 | an eviction succeeds exactly when the project has a waiting domain, so the fallback for a missing or running domain is never taken, and the collections agree afterwards |
| `AttentionQueue.PopOneKeepsCore` | packages/agent-runtime/src/runtime.ts:2148-2169 | one turn of the ring keeps every domain either running or waiting once in its own project's lane |
| `AttentionQueue.InsertKeepsCore` | packages/agent-runtime/src/runtime.ts:2090-2095 | admitting a fresh domain keeps the collections in agreement |
| `AttentionQueue.MakeRoomKeepsCore` | packages/agent-runtime/src/runtime.ts:2068-2088 | making room keeps the collections in agreement, drops domains only, and does nothing when it fails |
| `AttentionQueue.SettleKeepsCore` | packages/agent-runtime/src/runtime.ts:2171-2204 | the end of a dispatch, whatever its outcome, keeps the collections in agreement |
| `AttentionScheduler.AttentionScheduler.constructor` | packages/agent-runtime/src/runtime.ts:2035-2056 | a new scheduler represents the empty state |
| `AttentionScheduler.AttentionScheduler.Enqueue` | packages/agent-runtime/src/runtime.ts:2058-2096 | the eight collections change as the abstract scheduler does, with its answer; drain waiters are released exactly when nothing is retained |
| `AttentionScheduler.AttentionScheduler.Complete` | packages/agent-runtime/src/runtime.ts:2171-2204 | the end of a running dispatch changes all collections as the abstract scheduler does; only the first failure is kept |
| `AttentionScheduler.AttentionScheduler.Drain` | packages/agent-runtime/src/runtime.ts:2098-2107 | a caller waits exactly when something is retained |
| `AttentionScheduler.AttentionScheduler.DrainResult` | packages/agent-runtime/src/runtime.ts:2108-2114 | the first error, or the totals of the abstract scheduler, which DispatchedIsCounted and AppendOwed pin to what happened |
| `AttentionScheduler.AttentionScheduler.Admit` | packages/agent-runtime/src/runtime.ts:2068-2088 | eviction or refusal exactly as the limits ask, and which refusal |
| `AttentionScheduler.AttentionScheduler.EvictForNewProject` | packages/agent-runtime/src/runtime.ts:2240-2253 | the loop over candidates evicts what the abstract choice evicts |
| `AttentionScheduler.AttentionScheduler.EvictQueuedCandidate` | packages/agent-runtime/src/runtime.ts:2223-2238 | the oldest waiting domain leaves every collection, and counts as deferred |
| `AttentionScheduler.AttentionScheduler.TakeReadyDomain` | packages/agent-runtime/src/runtime.ts:2206-2221 | the oldest ready domain leaves list and set together; a project without one takes nothing |
| `AttentionScheduler.AttentionScheduler.MarkReady` | packages/agent-runtime/src/runtime.ts:2116-2135 | list and set of the project gain the domain, and the project is on the ring once |
| `AttentionScheduler.AttentionScheduler.Pump` | packages/agent-runtime/src/runtime.ts:2148-2169 | the loop takes exactly the turns the abstract scheduler takes |
| `AttentionTheorems.EveryRunIsSound` | packages/agent-runtime/src/runtime.ts:2058-2262 | after any interleaving of arrivals and ends: buffer, project and concurrency limits hold, every slot is busy or nothing waits, the ledger balances, the collections agree and the projects' counts add up to what is retained |
| `AttentionTheorems.EvictionFallsOnTheFullest` | packages/agent-runtime/src/runtime.ts:2240-2253 | the victim is a waiting domain of a project retaining more than one, and no fuller project with a waiting domain is passed over; it fails exactly when there is none |
| `AttentionTheorems.EndKeepsBounds` | packages/agent-runtime/src/runtime.ts:2171-2204 | every end keeps the limits and work conservation, and lowers the buffer by one |
| `AttentionTheorems.AppendOwed` | packages/agent-runtime/src/runtime.ts:2058-2113 | how one more event changes what is owed: limits, evictions and rejections add, a blocked end answers the rejections behind it, a retry adds when nothing was rejected behind it |
| `AttentionTheorems.CleanDrain` | packages/agent-runtime/src/runtime.ts:2058-2113 | over every run, deferred is zero exactly when nothing was evicted, limited or retried and every same-domain rejection stood behind a domain that ended blocked |
| `AttentionTheorems.DrainsAfterEachEnd` | packages/agent-runtime/src/runtime.ts:2098-2114 | without arrivals each end lowers the buffer by one, something runs until it is empty, and it is empty with exactly the last end |
| `AttentionTurns.RoundRobin` | packages/agent-runtime/src/runtime.ts:2137-2169 | the project at position i of the ring takes exactly the (i+1)-st turn, whatever happens meanwhile, and no project takes two turns before |
| `AttentionTurns.TurnStartsTheOldest` | packages/agent-runtime/src/runtime.ts:2148-2169 | a turn of a project with waiting work starts its oldest domain, which was not running |
| `AttentionTurns.SkippedExactlyWithoutWork` | packages/agent-runtime/src/runtime.ts:2148-2169 | a turn is skipped if and only if its project has nothing waiting |
| `AttentionTurns.NobodyIsDispatchedTwiceBefore` | packages/agent-runtime/src/runtime.ts:2137-2169 | over every run: while a project has something waiting at each of its turns, no other project is dispatched twice before it is dispatched once |
| `AttentionTheorems.ShareFits` | packages/agent-runtime/src/runtime.ts:304-311 | n times the project limit fits the buffer when n is at most the buffer limit; beyond that the project limit is one |
| `AttentionTheorems.RunNeverGloballyFull` | packages/agent-runtime/src/runtime.ts:304-311 | over every run drawn from the dispatcher's projects no arrival is answered global-full |
| `CoalescedRefresh.CoalesceKeeps` | apps/web/src/controller.ts:2041-2061 | joining or starting a refresh keeps single flight; whatever the promise settles to began no earlier than the call |
| `CoalescedRefresh.SettleKeeps` | apps/web/src/controller.ts:2067-2071 | a refresh that settles keeps single flight and what every promise stands for |
| `CoalescedRefresh.ChainKeeps` | apps/web/src/controller.ts:2072-2088 | the callback after a refresh keeps single flight and never loses a follow-up |
| `CoalescedRefresh.ReleaseKeeps` | apps/web/src/controller.ts:2022-2027 | giving a key up answers its follow-up and keeps single flight |
| `CoalescedRefresh.ReleaseAllKeeps` | apps/web/src/controller.ts:2091-2096 | clearing answers every open follow-up |
| `ProjectionIndex.RegisterKeeps` | apps/web/src/controller.ts:1907-1933 | registering adds exactly one pair to both sides of the index |
| `ProjectionIndex.ReconcileKeeps` | apps/web/src/controller.ts:1989-2010 | reconciling removes exactly one pair from both sides and leaves no empty entry |
| `ProjectionIndex.ReconcileRemembers` | apps/web/src/controller.ts:1989-2010 | an event leaves the pending table exactly with its last key, and is then remembered as seen |
| `InvalidationTheorems.QueueKeeps` | apps/web/src/controller.ts:1669-1685 | registering a key of an event, then joining its refresh or leaving it to the armed timer, keeps the whole invariant |
| `InvalidationTheorems.RetryKeeps` | apps/web/src/controller.ts:1951-1987 | a retry takes over all that its timer covered |
| `InvalidationTheorems.AbandonKeeps` | apps/web/src/controller.ts:2012-2028 | abandoning a key leaves nothing waiting for it and keeps the invariant |
| `InvalidationTheorems.ResumeApplyKeeps` | apps/web/src/controller.ts:1751-1767 | a delivery's continuation reconciles or reschedules, and keeps the invariant |
| `InvalidationTheorems.ResumeRetryKeeps` | apps/web/src/controller.ts:1962-1976 | a retry's continuation reconciles what it read for, or reschedules |
| `InvalidationTheorems.ClearKeeps` | apps/web/src/controller.ts:2030-2038 | a clear keeps the invariant even for continuations that outlive it |
| `InvalidationTheorems.EveryRunIsGood` | apps/web/src/controller.ts:1641-2096 | two-way index, single flight since the last clear, coverage and freshness against the last registration of every pair hold after every run of deliveries, replies, timers, abandonments and clears |
| `InvalidationTheorems.NothingIsStranded` | apps/web/src/controller.ts:1935-2010 | when no timer is armed and nothing is suspended, nothing is pending |
| `InvalidationTheorems.NoContinuationIsLost` | apps/web/src/controller.ts:2041-2096 | what a suspended continuation waits for always has a next step: a refresh in flight, or the callback that starts it |
| `InvalidationTheorems.SingleFlightExactly` | apps/web/src/controller.ts:2063-2096 | over every run: since the last clear a key has at most one unfinished refresh, its entry's; and it has at most one in all if and only if none outlived a clear, or a single one did and the entry has none |
| `LateContinuations.TwoInFlightAfterAClear` | apps/web/src/controller.ts:2091-2096 | the failing run: after a clear the next delivery starts a refresh beside the one still in flight |
| `InvalidationTheorems.NoteIsTimely` | apps/web/src/controller.ts:1907-1933 | a registration divides the suspended continuations: those whose refresh has begun bring older evidence, all others evidence at least as new |
| `InvalidationTheorems.ResumeBringsEvidence` | apps/web/src/controller.ts:1751-1767 | a continuation that reads successfully has read since the last registration if and only if its refresh had not begun when the pair was registered |
| `InvalidationTheorems.HandledIsFreshUnlessLate` | apps/web/src/controller.ts:1751-1976 | over every run: an event is marked handled by a successful read begun at or after the last registration of the pair, or by giving the key up, if and only if the continuation was not already suspended on a begun refresh at that registration; in particular whenever the event stayed registered since the continuation was suspended |
| `LateContinuations.StaleContinuationHandlesANewerDelivery` | apps/web/src/controller.ts:2030-2038 | a failing run across a clear: the refresh a continuation awaits is replaced by a newer one of the key, which began before the event was registered anew; the continuation marks the new delivery handled while that delivery's own refresh is in flight |
| `LateContinuations.LateRetryHandlesANewerDelivery` | apps/web/src/controller.ts:1951-1976 | a failing run without a clear: a retry marks a delivery handled that was registered anew, two hundred events later, after the retry's refresh had begun |
| `InvalidationController.Controller.ApplyEvent` | apps/web/src/controller.ts:1641-1771 | the loop over an event's keys changes the tables as the delivery step does |
| `InvalidationController.Controller.Resume` | apps/web/src/controller.ts:1751-1770 | resuming a continuation does exactly the resumption step and keeps the invariant |
| `InvalidationController.Controller.AbandonProjectionInvalidation` | apps/web/src/controller.ts:2012-2028 | the loop over the waiting events reconciles each, and the key is gone |
| `InvalidationController.Controller.AfterRefresh` | apps/web/src/controller.ts:2072-2088 | the callback starts the follow-up or forgets the entry, as the step says |
| `InvalidationController.Controller.ClearSession` | apps/web/src/controller.ts:1290-1303 | tables, index and refreshes are cleared and every open follow-up answered |
| `InvalidationController.Controller.ReconcileEventProjection` | apps/web/src/controller.ts:1989-2010 | the branches of the code amount to removing one pair, also when the pair is not pending |
| `ProjectionIndex.RememberedForAHundred` | apps/web/src/controller.ts:1900-1905 | an event that was remembered is recognised for the next 99 events and forgotten after 200 others |
| `StopTheorems.SpawnKeeps` | packages/agent-runtime/src/worktree-executor.ts:354-362 | whatever the section that starts the child does, the invariant holds |
| `StopTheorems.DrainKeeps` | packages/agent-runtime/src/worktree-executor.ts:615-647 | a drain begins the stop and the settlement once, and keeps the invariant; whom it attributes the end to is VerdictExactly |
| `StopTheorems.ProceedKeeps` | packages/agent-runtime/src/worktree-executor.ts:757-808 | each turn of the settlement keeps the invariant |
| `StopTheorems.ResumeKeeps` | packages/agent-runtime/src/worktree-executor.ts:757-853 | each reply of the Kernel to the settlement keeps the invariant |
| `StopTheorems.PerformKeeps` | packages/kernel/src/physical-worktrees.ts:76-112 | each Kernel transaction the settlement asks for keeps the invariant |
| `StopTheorems.EveryRunIsGood` | packages/agent-runtime/src/worktree-executor.ts:463-853 | the fencing invariant holds after every run of a handle, with any failures, retries, cancellations and interference |
| `StopTheorems.NoNewWriterBeforeTheOldIsDead` | packages/agent-runtime/src/worktree-executor.ts:757-853 | the lease is released, or another writer can be granted, only once the child was seen closed or no spawn was attempted, and then nothing writes |
| `StopTheorems.NoSpawnAfterRevocation` | packages/agent-runtime/src/worktree-executor.ts:532-600 | no run from a revocation or a close brings a process to life |
| `StopTheorems.UnconfirmedStaysUncertain` | packages/agent-runtime/src/worktree-executor.ts:649-683 | a child nobody saw close stays Uncertain and unreleased through every failure and retry |
| `StopTheorems.OneVerdict` | packages/agent-runtime/src/native-run-cancellation.ts:36-51 | at most one verdict about a cancellation, never both, and the guards never throw |
| `StopTheorems.VerdictIsFinal` | packages/agent-runtime/src/worktree-executor.ts:618-630 | once causality is recorded no run changes it |
| `StopTheorems.ReleaseIsDurableUnlessAskedLate` | packages/agent-runtime/src/worktree-executor.ts:803-808 | a release follows a durable revocation if and only if the stop had been asked for at the settlement's last look |
| `StopTheorems.StopInTimeIsDurable` | packages/agent-runtime/src/worktree-executor.ts:587-647 | a stop asked for while no settlement is past its last look unaware of it is durable before any later release, in every run |
| `StopTheorems.StopIsHonoured` | packages/agent-runtime/src/worktree-executor.ts:803-808 | a settlement that knew of the stop resolves with the revocation durable and, for a confirmed end, the lease gone and nothing writing |
| `LateStops.StepIsOrderly` | packages/agent-runtime/src/worktree-executor.ts:587-647 | a stop is dropped (asked for, not durable, no settlement, no retry) by exactly one step, the return of a settlement that had not seen it, and stays so until somebody asks again |
| `LateStops.EveryRunIsOrderly` | packages/agent-runtime/src/worktree-executor.ts:463-853 | over every run: a handle that retries is revoked and has no settlement, only an open handle has a settlement that did not see a stop, and a settlement calls for a release only of a lease not released yet |
| `LateStops.DurableExactlyWhenInTime` | packages/agent-runtime/src/worktree-executor.ts:757-808 | from every point of every settlement: when it returns, the revocation is durable if and only if the stop was asked for in time, and the stop is dropped if and only if it was not |
| `LateStops.LateStopOutcome` | packages/agent-runtime/src/worktree-executor.ts:803-853 | a late stop, at each point where the settlement may be suspended: the settlement releases the lease if and only if it already had, or its end is confirmed, the release is still ahead and the lease is active |
| `LateStops.LateStopReturns` | packages/agent-runtime/src/worktree-executor.ts:803-853 | such a settlement does return when nothing fails, having told the Kernel of no revocation |
| `LateStops.LateStopIsDropped` | packages/agent-runtime/src/worktree-executor.ts:633-637 | the failing run: a stop asked for as the settlement is about to return joins it, and nothing comes of it: no durable revocation, no retry, and the lease still active |
| `LateStops.LateStopReleasesWithoutDurableRevocation` | packages/agent-runtime/src/worktree-executor.ts:803-808 | the failing run: a stop asked for after the last look releases the lease while no revocation is durable |
| `WorktreeProcess.ControlledWorktreeProcess.constructor` | packages/agent-runtime/src/worktree-executor.ts:497-507 | a new handle is a fresh one |
| `WorktreeProcess.ControlledWorktreeProcess.Spawn` | packages/agent-runtime/src/worktree-executor.ts:354-394 | nothing is spawned unless the Kernel admits the mutation and the intent is unused; what follows is the spawn step |
| `WorktreeProcess.ControlledWorktreeProcess.Stop` | packages/agent-runtime/src/worktree-executor.ts:587-600 | the handle is revoked and drained as the step says |
| `WorktreeProcess.ControlledWorktreeProcess.Finish` | packages/agent-runtime/src/worktree-executor.ts:602-604 | a finish drains unless the authority was revoked |
| `WorktreeProcess.ControlledWorktreeProcess.Finished` | packages/agent-runtime/src/worktree-executor.ts:605-613 | a finish succeeds if and only if the child ended normally with a confirmed stop and nobody revoked, aborted or overran; and then nothing of it writes |
| `WorktreeProcess.ControlledWorktreeProcess.PersistStop` | packages/agent-runtime/src/worktree-executor.ts:757-808 | each stretch of the settlement between awaits is the abstract turn and keeps the invariant |
| `WorktreeProcess.ControlledWorktreeProcess.AfterCall` | packages/agent-runtime/src/worktree-executor.ts:757-853 | each stretch after a Kernel reply is the abstract resumption |
| `WorktreeProcess.ControlledWorktreeProcess.AfterFailure` | packages/agent-runtime/src/worktree-executor.ts:638-646 | a failed settlement revokes and arms the retry |
| `WorktreeProcess.ControlledWorktreeProcess.ClassifyLoss` | packages/agent-runtime/src/worktree-executor.ts:703-741 | the classification after an authority loss records at most what it may |
| `RunCommandTheorems.ExecuteAnswers` | packages/kernel/src/kernel.ts:379-401 | the server commits a request at most once, answers a replay with its receipt, and a refusal for the Run's state is final |
| `RunCommandTheorems.RejectionIsFinal` | apps/web/src/run-composer-model.ts:159-176 | a submission the window shows as rejected has not committed and never can |
| `RunCommandTheorems.SendWritesFirst` | apps/web/src/run-composer-model.ts:139-149 | a request is on its way only once storage holds it; when the write fails the entry is as before |
| `RunCommandTheorems.SetStores` | apps/web/src/run-controls-model.ts:56-73 | a write changes what storage holds about the replaced entry only |
| `RunCommandTheorems.RecoveryIsExact` | apps/web/src/run-controls-model.ts:143-160 | a reload recovers exactly what was kept |
| `RunCommandTheorems.EveryRunIsGood` | apps/web/src/run-composer-model.ts:116-192 | the whole invariant holds over every run of presses, replies, losses, storage failures and reloads |
| `RunCommandTheorems.CommittedAtMostOnce` | apps/web/src/run-composer-model.ts:116-185 | for each control target the server commits at most one request |
| `RunCommandTheorems.ShownIsTrue` | apps/web/src/run-composer-model.ts:150-185 | an acknowledged action is the one that committed; a rejected one left nothing committed |
| `RunCommandTheorems.FreshKeyOnlyWhenOthersAreGone` | apps/web/src/run-controls-model.ts:75-99 | a fresh key is made only once every earlier request for the target can never commit |
| `RunCommandTheorems.LetGoNeverCommits` | apps/web/src/run-controls-model.ts:56-73 | a request storage has let go of never commits in any later run |
| `RunCommandTheorems.NoNewRequestBeforeReview` | apps/web/src/run-controls-model.ts:84-90 | after a refusal nothing new is made for the target until a refresh completes or the window is replaced |
| `RunControlsModel.RunControlsModel.constructor` | apps/web/src/run-controls-model.ts:42-50 | a window that cannot read its storage is empty and refuses to act; otherwise it is the recovered one |
| `RunControlsModel.RunControlsModel.Submit` | apps/web/src/run-controls-model.ts:75-99 | table and storage change as the press step says, and what is sent is what storage holds |
| `RunControlsModel.RunControlsModel.Conclude` | apps/web/src/run-composer-model.ts:150-185 | the settled send changes table, versions and storage as the step does, whose outcomes are those of RepliesAreShown, and succeeds exactly on a confirming receipt |
| `RunControlsModel.RunControlsModel.BeginRefresh` | apps/web/src/run-composer-model.ts:101-113 | a refresh gets the next version |
| `RunControlsModel.RunControlsModel.EndRefresh` | apps/web/src/run-composer-model.ts:107-113 | only the latest version's end changes the entry |
| `RunRecovery.ControlKeyIsInjective` | apps/web/src/run-controls-model.ts:25-27 | distinct targets have distinct keys, whatever their names contain |
| `RunRecovery.ReadRecovery` | apps/web/src/run-controls-model.ts:143-160 | the loop reads the records in order and stops at the first invalid one; which those are is RecoveryDecides |
| `RunRecovery.RecordRoundTrip` | apps/web/src/run-controls-model.ts:56-65 | a written record is read back as pending and uncertain, or as acknowledged with the same receipt |
| `RunRecovery.RecoveryRoundTrip` | apps/web/src/run-controls-model.ts:143-160 | everything a reachable window writes is accepted and recovers exactly its kept entries, without drafts and errors |
| `WireTheorems.MonitorRefinesTheSpecification` | packages/acp-conformance/src/wire.ts:87-235 | the monitor accepts a conversation if and only if every message may follow those before it; its tables say what the history says |
| `WireTheorems.ResponseDecides` | packages/acp-conformance/src/wire.ts:95-113 | a response is accepted exactly when it answers an outstanding request of the other side in a way that fits it |
| `WireTheorems.CallDecides` | packages/acp-conformance/src/wire.ts:114-186 | a request or notification is accepted exactly when the history allows it |
| `WireTheorems.ResponsesPairWithRequests` | packages/acp-conformance/src/wire.ts:95-104 | each response answers exactly one earlier request, and no request is answered twice |
| `WireTheorems.OnePromptPerSession` | packages/acp-conformance/src/wire.ts:141-148 | at most one prompt of a session is unanswered |
| `WireTheorems.CancelledPromptsEndCancelled` | packages/acp-conformance/src/wire.ts:105-107 | a cancelled prompt is answered by cancelled and nothing else |
| `WireTheorems.SessionsFollowInitialize` | packages/acp-conformance/src/wire.ts:123-125 | a session exists only after the connection was initialized |
| `WireTheorems.ToolsAreAnnouncedOnce` | packages/acp-conformance/src/wire.ts:190-201 | a tool is announced once, in an existing session with a prompt outstanding |
| `WireTheorems.PermissionsNameAnnouncedTools` | packages/acp-conformance/src/wire.ts:203-208 | a permission names an announced tool under an outstanding prompt, when asked and when answered |
| `Wire.Wire.Observe` | packages/acp-conformance/src/wire.ts:87-188 | the tables change, or the failure is raised, as the abstract monitor says |
| `Framing.NdjsonReader.Receive` | packages/acp-conformance/src/wire.ts:31-50 | one chunk changes buffer, frames and failure as draining the buffered bytes does |
| `Framing.SealedExactly` | packages/agent-runtime/src/copilot-acp-adapter.ts:757-810 | nothing fails and nothing is left over at the end if and only if the stream is a sequence of frames within the limit, each ended by a newline; and those frames, less the empty ones for the adapter, are what was read |
| `Framing.DrainSplits` | packages/agent-runtime/src/copilot-acp-adapter.ts:786-810 | draining two chunks at once is draining the first, then its rest with the second |
| `Framing.ChunksDoNotMatter` | packages/acp-conformance/src/wire.ts:31-50 | two cuts of a stream within the byte limit show the same frames, the same failure and the same rest |
| `Framing.BeyondTheLimit` | packages/acp-conformance/src/wire.ts:34-35 | beyond the byte limit, what is shown is what the chunks before the exceeding one show |
| `Framing.CutsDifferBeyondTheLimit` | packages/acp-conformance/src/wire.ts:34-35 | the failing case, for every acceptable frame and whatever follows it beyond the limit: in one chunk nothing is shown, in two chunks the frame is |
| `Framing.DrainIsSplitting` | packages/acp-conformance/src/wire.ts:37-48 | frames, newlines and rest make up the stream; a frame fails exactly when no newline comes within the frame limit |
| `Framing.TwinsAgree` | packages/agent-runtime/src/copilot-acp-adapter.ts:786-810 | the adapter shows the monitor's frames without the empty ones and fails when it does; while neither fails they keep the same rest |
| `AttentionScheduler.AttentionScheduler.Receive` | packages/agent-runtime/src/runtime.ts:2058-2096 | an arrival is rejected behind its own domain, refused by a limit or admitted, as the abstract scheduler decides |
| `AttentionScheduler.AttentionScheduler.Keep` | packages/agent-runtime/src/runtime.ts:2090-2094 | an admitted attention enters queue, counts, lane and ring together |
| `AttentionScheduler.AttentionScheduler.Retire` | packages/agent-runtime/src/runtime.ts:2182-2203 | a finished dispatch leaves the collections and settles its ledger; the object it retires is the one it was started with |
| `AttentionScheduler.AttentionScheduler.Answer` | packages/agent-runtime/src/runtime.ts:2190-2199 | a completion answers the rejections behind its domain as the ledger says |
| `AttentionScheduler.AttentionScheduler.MarkProjectReady` | packages/agent-runtime/src/runtime.ts:2137-2146 | a project joins the ring exactly when it has a ready domain and is not on it |
| `AttentionScheduler.CountsGrow` | packages/agent-runtime/src/runtime.ts:2255-2262 | counting an admission up gives the recount of what is then retained, also for a project new to the table |
| `AttentionScheduler.CountsShrink` | packages/agent-runtime/src/runtime.ts:2255-2262 | counting a departure down gives the recount of what is left, and the project leaves the table with its last attention |
| `AttentionScheduler.AttentionScheduler.BufferedIsTheSum` | packages/agent-runtime/src/runtime.ts:2255-2262 | the number of buffered attentions is the sum of the counts of all projects |
| `InvalidationController.Controller.constructor` | apps/web/src/controller.ts:1290-1303 | a new controller has empty tables |
| `InvalidationController.Controller.TimerFires` | apps/web/src/controller.ts:1945-1948 | a timer that fires is disarmed and its projection retried |
| `InvalidationController.Controller.RetryPendingInvalidation` | apps/web/src/controller.ts:1979-1987 | a reconnect disarms the timer and retries at once |
| `InvalidationController.Controller.CoalesceProjectionRefresh` | apps/web/src/controller.ts:2041-2061 | a caller joins the follow-up or starts a refresh, and the invariant holds |
| `InvalidationTheorems.ScheduleKeeps` | apps/web/src/controller.ts:1935-1949 | a key with waiting events has its timer armed, and coverage and freshness hold as before |
| `InvalidationController.Controller.RetryProjectionInvalidation` | apps/web/src/controller.ts:1951-1965 | a retry joins or starts a refresh for everything that waits now |
| `CoalescedRefresh.StartKeeps` | apps/web/src/controller.ts:2063-2071 | starting a refresh keeps single flight and what every promise stands for, when every refresh of the key since the last clear has run its callback |
| `InvalidationController.Controller.ClearCoalescedRefreshes` | apps/web/src/controller.ts:2091-2096 | every entry is forgotten and its follow-up answered with failure |
| `WorktreeProcess.ControlledWorktreeProcess.AfterRunning` | packages/agent-runtime/src/worktree-executor.ts:557-585 | the report that the child runs opens the handle, or stops it when the signal was aborted meanwhile |
| `WorktreeProcess.ControlledWorktreeProcess.Retry` | packages/agent-runtime/src/worktree-executor.ts:638-646 | a retry drains again |
| `WorktreeProcess.ControlledWorktreeProcess.StopAfterAuthorityLoss` | packages/agent-runtime/src/worktree-executor.ts:689-690 | a lost authority revokes and drains before anything is classified |
| `WorktreeProcess.ControlledWorktreeProcess.AfterTimeout` | packages/agent-runtime/src/worktree-executor.ts:659-671 | a child that does not close is forced once, then nobody knows |
| `WorktreeProcess.ControlledWorktreeProcess.AfterClose` | packages/agent-runtime/src/worktree-executor.ts:672-687 | a child seen closed is confirmed or force-terminated by its evidence |
| `Timeline.MergeActivity` | apps/web/src/timeline-history.ts:26-55 | merging succeeds exactly when identifiers and sequence numbers name each other, and gives the sorted union |
| `Timeline.SortedSorts` | apps/web/src/timeline-history.ts:48-49 | the merged items are all the items, each once, in increasing order |
| `Timeline.ValidateActivityPage` | apps/web/src/timeline-history.ts:80-103 | a page is accepted exactly when it is in order, within its bounds and moves its cursor when there is more |
| `Timeline.ReadActivityGap` | apps/web/src/timeline-history.ts:106-129 | the loop ends whatever pages it gets; what it returns is in order, of the Run and within the gap even if the server is not honest; honest pages give a beginning of the entries between the two windows, and all of them when the caller wants them to the end |
| `Timeline.PagesAreStable` | packages/kernel/src/projections.ts:734-770 | a page below what is already there is the same whenever it is read |
| `TimelineRuns.CoversMerge` | apps/web/src/timeline-history.ts:26-55 | merging two parts of the log that touch gives the part they cover, with the word of the one that reaches back further |
| `TimelineRuns.EntriesOfOneLogAgree` | apps/web/src/timeline-history.ts:39-44 | windows of one log never contradict each other |
| `TimelineRuns.RefreshEndsKeeps` | apps/web/src/controller.ts:710-733 | a refresh that ends, however its gap reads were interleaved, leaves a slice |
| `TimelineRuns.HistoryArrivesKeeps` | apps/web/src/controller.ts:752-790 | an earlier page extends the slice, also during a refresh |
| `TimelineRuns.TimelineIsASlice` | apps/web/src/controller.ts:710-790 | after any interleaving what is shown is a contiguous slice of the log, and it claims earlier entries exactly when there are some |
| `TimelineRuns.RefreshCatchesUp` | apps/web/src/controller.ts:721-732 | a refresh shows every entry it read and loses none shown before |
| `TimelineRuns.RevisionNeverFalls` | apps/web/src/timeline-history.ts:66-78 | the revision shown of a selected Run never falls |
| `Quoting.BodyUnfolds` | packages/agent-runtime/src/provider-process.ts:217-219 | the two replacements together, character run by character run |
| `Quoting.ArgumentRoundTrip` | packages/agent-runtime/src/provider-process.ts:217-219 | the C runtime's rules read a quoted argument back and stop right behind it |
| `Quoting.ArgumentsRoundTrip` | packages/agent-runtime/src/provider-process.ts:37 | a program gets back exactly its arguments if and only if none of them holds a NUL |
| `OwnerInput.FrameField` | packages/agent-runtime/src/provider-process.ts:221-227 | a field is framed exactly when it fits a mebibyte |
| `OwnerInput.ReadExact` | packages/agent-runtime/src/provider-process-windows-owner.ts:143-152 | the next bytes, whatever pieces the pipe gives, or an error when they are not all there |
| `OwnerInput.ReadField` | packages/agent-runtime/src/provider-process-windows-owner.ts:136-141 | the field at the current position, or which error |
| `OwnerInput.FieldsRoundTrip` | packages/agent-runtime/src/provider-process-windows-owner.ts:184-189 | reading as many fields as were framed gives their contents in order |
| `OwnerInput.ReadStart` | packages/agent-runtime/src/provider-process-windows-owner.ts:184-190 | the six fields in order, whatever pieces the pipe gives, or the error of the first that is missing or malformed |
| `OwnerInput.StartRoundTrip` | packages/agent-runtime/src/provider-process-windows-owner.ts:184-190 | six framed texts written by the parent are what the owner starts with, each in its place and with its terminator, for every schedule of short reads |
| `OwnerInput.ArgumentsArrive` | packages/agent-runtime/src/provider-process.ts:37-60 | from the parent's command line through the pipe to the started program: it finds exactly its arguments, for every schedule of short reads, if and only if none of them holds a NUL |
| `OwnerInput.Utf16IsInjective` | packages/agent-runtime/src/provider-process.ts:222 | different texts have different contents |
| `EventStream.Connection.Turn` | apps/server/src/server.ts:881-946 | a turn writes a prefix of its page's chunks, all of them unless the connection breaks, and reads on from there |
| `EventStream.TurnIsExact` | apps/server/src/server.ts:881-911 | however much of a turn arrives, the client has exactly the visible events up to its last identifier |
| `EventStream.StreamResumes` | apps/server/src/server.ts:817-947 | over any number of reconnects the client's events are a gap-free, duplicate-free prefix of what it may see |
| `EventStream.CaughtUpAfter` | apps/server/src/server.ts:881-936 | over a log that stands still, m whole turns bring the client m pages on; once they make up the backlog it has everything it may see |
| `EventStream.ConnectReads` | apps/server/src/server.ts:817-880 | a connection reads on from the client's last identifier, so the same holds after a reconnect |
| `CausalTree.DepthIsChainLength` | packages/kernel/src/causal-limits.ts:62-75 | a Run's depth is the length of its chain of ancestors, which is acyclic and shares root, project, channel and thread |
| `CausalTree.EveryForestIsWithinLimits` | packages/kernel/src/causal-limits.ts:49-103 | in every reachable forest each root has at most its live Runs and no Run is too deep; that no admissible Run is refused is AdmittedExactly |
| `CausalTree.ProvenanceEndures` | packages/kernel/src/causal-limits.ts:78-84 | a Run keeps its place in its tree for good, and once terminal stays terminal |
| `AttentionBalance.EveryRunBalances` | packages/agent-runtime/src/runtime.ts:2058-2204 | over every run: what was started has ended, by outcome, or runs; what was accepted was evicted, has ended or is retained; and dispatched counts the ends as dispatched |
| `AttentionBalance.DispatchedIsCounted` | packages/agent-runtime/src/runtime.ts:2179-2184 | the dispatched total of a drain is the number of dispatches that ended as dispatched, over every run of calls |
| `AttentionBalance.ArrivalIsAnswered` | packages/agent-runtime/src/runtime.ts:2058-2096 | which of the three answers an arrival gets, in terms of what is retained and waits; only an admitted one is retained, in its own domain |
| `AttentionOrder.FirstInFirstOut` | packages/agent-runtime/src/runtime.ts:2116-2221 | over every run the domains of a project are started or evicted in the order they were accepted, and the others wait in that order |
| `AttentionOrder.TiesFallOnTheFirst` | packages/agent-runtime/src/runtime.ts:2240-2253 | among the fullest projects with something waiting, the eviction falls on the one that comes first in the order of the projects |
| `AttentionOrder.OrderIsByAge` | packages/agent-runtime/src/runtime.ts:2255-2262 | in every step the projects that keep something retained keep their order, and one that had nothing comes last |
| `InvalidationProgress.DeliveryRegisters` | apps/web/src/controller.ts:1641-1685 | a new event waits for each of its keys and nothing else, and is read for by a refresh that had not begun, or left to an armed timer; one that touches nothing is remembered at once; a recognised one changes nothing |
| `InvalidationProgress.ResumeSettles` | apps/web/src/controller.ts:1751-1976 | a continuation settles exactly the pairs it answers for when its read succeeded, and arms their timer when it failed |
| `InvalidationProgress.RetryReadsForAll` | apps/web/src/controller.ts:1951-1987 | a retry disarms the timer and awaits a refresh that had not begun, for all that waits |
| `InvalidationProgress.ProcessingEnds` | apps/web/src/controller.ts:1652-1770 | over every run an event counts as being processed only while a continuation of its delivery is suspended |
| `InvalidationProgress.RememberedIsIgnored` | apps/web/src/controller.ts:1642-1651 | over every run a handled event, until a hundred more have been handled or the session starts anew, is neither registered nor read for again, and a further delivery changes nothing |
| `InvalidationProgress.NewSessionForgets` | apps/web/src/controller.ts:1293-1304 | a new session recognises no event, waits for none, has no timer and no refresh to join, and tells those who waited for a follow-up that it failed |
| `InvalidationProgress.AbandonedKeyIsLeft` | apps/web/src/controller.ts:2012-2028 | an abandoned key has nothing waiting and no follow-up; whoever awaited the follow-up goes on; other pairs wait as before |
| `InvalidationProgress.RetriesCountTheTimers` | apps/web/src/controller.ts:1935-1972 | the count a delay depends on grows by one with each timer armed and starts again when a retry succeeds |
| `StopVerdicts.VerdictExactly` | packages/agent-runtime/src/worktree-executor.ts:618-630 | over every run of a handle bound to its cancellation, each step: the first drain under the abort for it decides, the exit came first exactly if it had been observed, the stop is owned exactly if not and it had not begun and no authority was lost; a confirmed loss of authority with no exit seen ends as owned; nothing else decides |
| `StopVerdicts.UndecidedIsOpen` | packages/agent-runtime/src/worktree-executor.ts:618-630 | over every run neither verdict stands until one of those steps has decided |
| `StopVerdicts.CancelledRunIsOwned` | packages/agent-runtime/src/worktree-executor.ts:557-566 | the abort of an open, running handle for the cancellation of its Run is recorded as an owned stop |
| `StopVerdicts.EveryStopIsInOrder` | packages/agent-runtime/src/worktree-executor.ts:649-683 | over every run: a child is asked to stop before it is forced, and forced before its end is uncertain; a concluded end is the one its evidence shows, or there never was a child |
| `StopProgress.RecordedAsItEnded` | packages/agent-runtime/src/worktree-executor.ts:757-786 | over every run: a confirmed end in the record is forced exactly if the process was forced or ended by a signal, and the handle knows no other end |
| `StopProgress.AbnormalEndsAreRevoked` | packages/kernel/src/physical-worktrees.ts:356-360 | over every run: an uncertain or forced end in the record comes with the authority revoked |
| `StopProgress.SettlementCompletes` | packages/agent-runtime/src/worktree-executor.ts:757-808 | after any run a settlement that begins can go through: the record then holds the end there was, by way of a requested stop if need be, or the one it had; the revocation is durable and the lease of a confirmed end not active |
| `StopProgress.EveryStopCanEnd` | packages/agent-runtime/src/worktree-executor.ts:587-808 | after any run a stop asked for while no settlement is under way can be brought to its end, with the revocation durable and the lease given up once the end is confirmed |
| `StopProgress.DrainBeginsAStop` | packages/agent-runtime/src/worktree-executor.ts:587-635 | every step that drains begins the stop and a settlement or joins them, and all but finishing and retrying revoke |
| `StopProgress.FailureIsRetried` | packages/agent-runtime/src/worktree-executor.ts:638-646 | a settlement that fails revokes and arms a retry, which begins it anew |
| `RunCommandProgress.RepliesAreShown` | apps/web/src/run-composer-model.ts:148-185 | how every reply that is heard is shown: a request is given up only when confirmed, refused for the state of the Run, or turned away at its first send; otherwise it is kept, as needing a sign-in or as of unknown outcome |
| `RunCommandProgress.RefusalIsShown` | apps/web/src/run-composer-model.ts:161-176 | a refusal for the state of the Run ends the request in window and storage and puts the target under review with its code and revision; it can never commit |
| `RunCommandProgress.PressMints` | apps/web/src/run-controls-model.ts:75-99 | a press makes a new request exactly when target and view allow it; the request is for what was seen, and leaves once storage holds it |
| `RunCommandProgress.PressResends` | apps/web/src/run-composer-model.ts:122-150 | a retained request is sent again as it was stored, and only for the Human who made it |
| `RunCommandProgress.NewActionAfterReview` | apps/web/src/run-composer-model.ts:101-114 | after a refusal, once the latest refresh has completed, whatever happened meanwhile, a press whose view allows it makes a new request, unless the refusal was for a stale revision that is still shown |
| `RunCommandProgress.StepKeepsVersions` | apps/web/src/run-composer-model.ts:101-156 | only a refresh that begins and an acknowledgement give a target a new version |
| `RunCommandProgress.OvertakenRefreshChangesNothing` | apps/web/src/run-composer-model.ts:107-113 | a refresh begun before a later one, or before an acknowledgement, changes nothing when it ends |
| `RunCommandProgress.LatestRefreshIsShown` | apps/web/src/run-composer-model.ts:107-113 | the latest refresh shows how it ended, and ends the review exactly if it succeeded |
| `RunCommandProgress.ReceiptIsStored` | apps/web/src/run-controls-model.ts:56-73 | a confirmed request is in storage with its receipt once the write succeeds |
| `RunCommandProgress.ReloadShowsWhatWasKept` | apps/web/src/run-controls-model.ts:42-50 | a new window shows what storage keeps and nothing else; one that cannot read it shows nothing, leaves it alone and takes no action |
| `RunCommandProgress.ExecuteDecides` | packages/kernel/src/kernel.ts:379-401 | the server accepts exactly a replay of a committed request, which changes nothing, and a request under an unused key that Run and input still allow, which is carried out; every other is refused for what is in its way and changes nothing |
| `RunRecovery.RecoveryDecides` | apps/web/src/run-controls-model.ts:143-160 | recovery succeeds exactly when every record is valid, is stored under the key of its own target, and no two share one; then it gives one entry for each |
| `RunRecovery.OnlyRequestsAreRead` | apps/web/src/run-controls-model.ts:126-141 | a request is read only if it could have been written |
| `RunRecovery.OnlyConfirmationsAreRead` | apps/web/src/run-controls-model.ts:106-124 | a receipt is read only if it confirms its request |
| `WireOutcomes.PromptResultDecides` | packages/acp-conformance/src/wire.ts:105-113 | a well-formed result for a prompt is accepted exactly when it ends for one of the five reasons, and as cancelled if it was cancelled |
| `WireOutcomes.PromptsEndForAReason` | packages/acp-conformance/src/wire.ts:233-235 | every prompt that is answered with a result ends for one of the five reasons |
| `WireOutcomes.UpdateDecides` | packages/acp-conformance/src/wire.ts:151-163 | an update that announces no tool is accepted in any created session unless it is content, and then exactly while a prompt is unanswered |
| `WireOutcomes.ContentComesDuringPrompts` | packages/acp-conformance/src/wire.ts:156-159 | content and tool updates come only while a prompt of their session is unanswered |
| `WireOutcomes.ClientSessionCalls` | packages/acp-conformance/src/wire.ts:118-122 | the client uses three session methods, two as requests and the cancellation as a notification |
| `WireOutcomes.FailureTellsWhy` | packages/acp-conformance/src/wire.ts:87-235 | a message fails exactly when it may not follow, and each failure code names what is wrong with it |
| `WireOutcomes.ConversationFailsAtTheFirst` | packages/acp-conformance/src/wire.ts:87-188 | a conversation fails at its first message that may not follow, with the code for it |
| `Framing.FramesAreShownUntilABadOne` | packages/acp-conformance/src/wire.ts:31-50 | however a stream is cut, its frames are shown up to the first that is judged bad, which ends the reading; otherwise reading goes on behind them |
| `TimelineRuns.RevisionsAreTrue` | apps/web/src/timeline-history.ts:66-78 | over every run no revision is shown or was read that the server has not reached |
| `TimelineRuns.RefreshShowsTheRevisionItRead` | apps/web/src/timeline-history.ts:66-78 | a refresh that ends shows at least the revision the server had when the Run was read and at most its present one: exactly that one if it did not advance |
| `TimelineProgress.RefreshCompletes` | apps/web/src/controller.ts:710-733 | from every state in which a refresh was asked for, if nothing disturbs it the gap closes after finitely many pages and the Run is shown as it is, up to its newest entry |
| `TimelineProgress.HistoryShowsOnePageMore` | apps/web/src/controller.ts:752-790 | a history load shows exactly the page before what is shown, or all that is left of it |
| `OwnerInput.OnlyFramesAreRead` | packages/agent-runtime/src/provider-process-windows-owner.ts:136-141 | whatever is read as a field was framed: its length, low byte first and at most a mebibyte, and its bytes |
| `OwnerInput.NothingStartsFromAPart` | packages/agent-runtime/src/provider-process-windows-owner.ts:143-152 | input cut off anywhere before its end gives an error and no start |
| `EventStream.TurnMovesOn` | apps/server/src/server.ts:870-900 | the chunks of a turn move the client strictly on to the end of what was scanned, none twice; nothing scanned, nothing written |
| `EventStream.MoreExactly` | packages/kernel/src/projections.ts:571-588 | a page says that there is more exactly when entries were left unscanned |
| `CausalTree.RootsAreHumanMessages` | packages/kernel/src/causal-limits.ts:62-82 | over every run: the root of a Run is the message of a Human at the top of its chain, so parentless Runs share a root exactly when they came from the same message |
| `CausalTree.AdmittedExactly` | packages/kernel/src/causal-limits.ts:49-103 | over every run an attention with sound provenance is refused exactly when its chain is already at the depth limit or its own tree at the limit of live Runs, and with which of the two |
| `StopProgress.NothingSpawnsWithoutAuthority` | packages/agent-runtime/src/worktree-executor.ts:354-362 | from the moment the Kernel revokes an execution or its lease ends, no run brings a process to life |
| `ProjectionIndex.TheLastHundredStay` | apps/web/src/controller.ts:1900-1905 | the list of remembered events grows to two hundred; with one more, the last hundred stay |

## Left out

- The Kernel and its database: each model holds the few records it needs, with the transitions the Kernel accepts (packages/kernel/src/physical-worktrees.ts:88-95) and its idempotency lookup.
- Attention scheduler: the hook called when the buffer changes, and errors it throws; what a dispatch does; the loop that skips stale entries of a ready list, which the agreement of list and set reduces to one turn.
- Attention scheduler: only the first failure is kept as an error number; the error object itself is opaque.
- Invalidation: the delays of retry timers, error projections, broadcasting to other windows, and which keys an event touches (a parameter). The branch for an entry without a refresh in flight is dead, because an entry's refresh starts in the stretch that creates it, and the entry always holds its refresh here. A refresh that synchronously asks for the same key again is not modelled.
- Invalidation: a retry of all projections at once is one step per projection.
- Invalidation: a refresh that a newer read of the same data has superseded settles to what that read settles to. `ByRequest(r)` names the refresh that was awaited, not the read that replaced it; a refresh a clear has overtaken succeeds only after a newer read of its key has (another refresh, or a load outside the refreshes). A refresh of a thread or a Run that a clear has overtaken always fails in the program and may also succeed here.
- Stop protocol: logging and its errors except that a failed log fails the settlement, deadlines (a nondeterministic time-out), and replays of a Kernel call under the same key.
- WorktreeProcess.ControlledWorktreeProcess.Spawn: the probe's own file write, the check of the tree and the other refusals before the spawn are one choice, a section that throws before any attempt.
- WorktreeProcess.ControlledWorktreeProcess.ClassifyLoss: the conditions on the two queried projections are one flag, whether the Run's own cancellation caused the loss.
- Stop protocol: one handle; the executor's map of handles and its pending starts are not modelled.
- Run commands: one window at a time over its own storage; the composer's free-text drafts and its `edit`; the text of error messages; listeners. Views are honest: they come from the server, possibly late.
- Run commands: a body whose JSON does not parse counts as a broken reply. The server never answers that a well-formed request is invalid, so that branch of the client is only shown to be final.
- RunRecovery.ReadRecovery: records are typed values, so a record with a field of the wrong type is not represented; a decimal string for a Run revision is a number; identifiers are well-formed Unicode.
- Wire monitor: JSON parsing, UTF-8 decoding and schema validation are one flag of the message; the transcript and the process that is failed are not modelled; nor is the check for requests that are still open when the stream ends.
- Wire.Wire.Observe: says nothing about the tables after a failure, because a failure ends the conversation.
- Framing: what a frame means is a predicate on the frames so far.
- Timeline: payloads of entries; a server that deletes entries; requests that are repeated after a new sign-in.
- Timeline.ReadActivityGap: the reader is a function, so one call sees one log; growth of the log between pages is in TimelineRuns.
- Quoting: how the application path is resolved; environment blocks; the Linux owner.
- OwnerInput: the native calls the owner makes with the fields.
- EventStream: authentication expiry, abort and a broken socket are one kind of break; heartbeats carry no identifier; visibility is a fixed predicate of the event.
- CausalTree: the rows are typed; which Run a message was caused by is given.
- React components, HTTP routing, sessions, cookies, provider policy, publication of files and hashing.
