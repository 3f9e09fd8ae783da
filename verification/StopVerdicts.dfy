/** Who ended the process, and how: when exactly a verdict about the Run's cancellation is given, and which; and
    that a child is asked before it is forced, and forced before nobody knows. */
module StopVerdicts {
  import opened Sequences
  import opened Machines
  import opened StopProtocol
  import opened StopTheorems

  ghost predicate SameVerdict(s: State, t: State) {
    t.cancellation == s.cancellation && t.causality == s.causality
  }

  /** The step drains the handle. */
  ghost predicate Drains(s: State, a: Step) {
    match a
    case SpawnRefused => true
    case SpawnThrew(_) => true
    case Attach(running) => !running
    case StartReply(ok) => !ok || s.signal.Aborted?
    case AskStop => true
    case AskFinish => true
    case AskRetry => true
    case AuthorityLost => true
    case Abort(_) => s.signal.Unaborted? && s.handle.start.Open? && !s.handle.revocation
    case _ => false
  }

  /** The signal as the step's drain finds it. */
  ghost function SignalAt(s: State, a: Step): Signal {
    if a.Abort? && s.signal.Unaborted? then Aborted(a.ofRun) else s.signal
  }

  /** The first drain under an abort for the Run's cancellation decides, for good: the exit came first if it had
      been observed, and otherwise the stop is owned unless it had begun before or the authority was lost. */
  ghost predicate DrainDecides(s: State, t: State, signal: Signal) {
    if s.causality || signal != Aborted(true) then SameVerdict(s, t)
    else
      t.causality && t.cancellation.Some? &&
      var i := t.cancellation.value;
      && (i.exited <==> s.child.exitObserved)
      && (i.owned <==> !s.child.exitObserved && s.handle.physical.Idle? && !s.handle.authorityStop)
      && !i.fault
  }

  /** A confirmed loss of authority with no exit seen ends as owned, if nothing has been decided. */
  ghost predicate LossDecides(s: State, t: State, confirmed: bool) {
    if s.causality || s.child.exitObserved || !confirmed then SameVerdict(s, t)
    else t.causality && t.cancellation.Some? && t.cancellation.value.owned && !t.cancellation.value.exited
  }

  ghost predicate Decides(s: State, t: State, a: Step) {
    if Drains(s, a) then DrainDecides(s, t, SignalAt(s, a))
    else if a.AttributeLoss? then LossDecides(s, t, a.confirmed)
    else SameVerdict(s, t)
  }

  // ---- one drain -------------------------------------------------------------------------------

  /** The states agree in what a drain looks at. */
  ghost predicate Alike(s: State, t: State) {
    && SameVerdict(s, t) && t.execution == s.execution && t.child.exitObserved == s.child.exitObserved
    && t.handle.physical == s.handle.physical && t.handle.authorityStop == s.handle.authorityStop
  }

  lemma AttributeDecides(s: State, t: State)
    requires VerdictHolds(s) && s.cancellation.Some? && Alike(s, t)
    ensures DrainDecides(s, Attribute(t), t.signal)
  {
  }

  lemma BeginKeepsVerdict(s: State)
    ensures SameVerdict(s, BeginStop(s)) && SameVerdict(s, Join(s))
  {
    hide Observed;
  }

  lemma DecidedStays(s: State, t: State, u: State, signal: Signal)
    requires DrainDecides(s, t, signal) && SameVerdict(t, u)
    ensures DrainDecides(s, u, signal)
  {
  }

  lemma DrainGives(s: State, t: State)
    requires VerdictHolds(s) && s.cancellation.Some? && Alike(s, t)
    ensures DrainDecides(s, Drain(t), t.signal)
  {
    hide VerdictHolds, Attribute, BeginStop, Join, DrainDecides, SameVerdict;
    var u := t.(handle := t.handle.(retry := false));
    StillAlike(s, t, u);
    AttributeDecides(s, u);
    BeginKeepsVerdict(Attribute(u));
    BeginKeepsVerdict(BeginStop(Attribute(u)));
    DecidedStays(s, Attribute(u), BeginStop(Attribute(u)), t.signal);
    DecidedStays(s, BeginStop(Attribute(u)), Drain(t), t.signal);
  }

  lemma StillAlike(s: State, t: State, u: State)
    requires Alike(s, t) && u == t.(handle := u.handle, kernel := u.kernel)
    requires u.handle.physical == t.handle.physical && u.handle.authorityStop == t.handle.authorityStop
    ensures Alike(s, u)
  {
  }

  lemma StopGives(s: State, t: State)
    requires VerdictHolds(s) && s.cancellation.Some? && Alike(s, t)
    ensures DrainDecides(s, Stop(t), t.signal)
  {
    hide VerdictHolds, Drain, DrainDecides, Alike;
    StillAlike(s, t, RevokeLocally(t));
    DrainGives(s, RevokeLocally(t));
  }

  // ---- every step ------------------------------------------------------------------------------

  lemma SpawnDecides(s: State, a: Step)
    requires VerdictHolds(s) && s.cancellation.Some? && Enabled(s, a)
    requires a.SpawnRefused? || a.SpawnThrew? || a.Attach?
    ensures Decides(s, Take(s, a), a)
  {
    hide Stop, VerdictHolds, DrainDecides;
    var failed := s.(handle := s.handle.(start := Failed));
    match a
    case SpawnRefused => StopGives(s, failed);
    case SpawnThrew(alive) => StopGives(s, failed.(child := s.child.(attempted := true, alive := alive)));
    case Attach(_) => StopGives(s, failed.(child := s.child.(attempted := true, attached := true, alive := true)));
  }

  lemma AskDecides(s: State, a: Step)
    requires VerdictHolds(s) && s.cancellation.Some? && Enabled(s, a)
    requires a.StartReply? || a.AskStop? || a.AskFinish? || a.AskRetry? || a.AuthorityLost? || a.Abort?
    ensures Decides(s, Take(s, a), a)
  {
    hide Stop, Drain, FailStart, Attempt, Proceed, Resume, Reject, VerdictHolds, DrainDecides;
    match a
    case StartReply(ok) =>
      StopGives(s, s.(handle := s.handle.(start := Failed)));
      StopGives(s, s.(handle := s.handle.(start := Open, state := Running)));
    case Abort(ofRun) => StopGives(s, s.(signal := Aborted(ofRun)));
    case AskFinish => DrainGives(s, s);
    case AskRetry => DrainGives(s, s);
    case AskStop => StopGives(s, s);
    case AuthorityLost =>
      StopGives(s, s);
      DecidedStays(s, Stop(s), Take(s, a), s.signal);
  }

  /** The settlement's own steps touch neither the verdict nor the child. */
  ghost predicate Untouched(s: State, t: State) {
    SameVerdict(s, t) && t.child == s.child && t.handle.physical == s.handle.physical
  }

  lemma RevocationTouchesNothing(s: State, last: bool, target: Exec)
    ensures Untouched(s, RevokeLocally(s)) && Untouched(s, Reject(s))
    ensures Untouched(s, PersistRevocation(s, last, target))
  {
  }

  lemma ProceedTouchesNothing(s: State, p: Persist)
    ensures Untouched(s, Proceed(s, p))
  {
    hide RevokeLocally, PersistRevocation, Untouched;
    match p {
      case AwaitingStop => SettlementBeginsUntouched(s);
      case Logging => RevocationTouchesNothing(s, true, s.handle.state);
      case _ => OnlyTheSettlement(s, Proceed(s, p));
    }
  }

  lemma OnlyTheSettlement(s: State, t: State)
    requires t == s.(handle := s.handle.(settlement := t.handle.settlement))
    ensures Untouched(s, t)
  {
  }

  lemma SettlementBeginsUntouched(s: State)
    ensures Untouched(s, Proceed(s, AwaitingStop))
  {
    hide RevokeLocally, PersistRevocation;
    if s.handle.physical.Concluded? {
      var target := if s.child.evidence.Some? then Observed(s.child) else s.handle.physical.verdict;
      RevocationTouchesNothing(s, false, target);
      RevocationTouchesNothing(RevokeLocally(s), false, target);
    }
  }

  lemma ResumeTouchesNothing(s: State, op: Op, target: Exec, answer: Answer)
    ensures Untouched(s, Resume(s, op, target, answer))
  {
    hide Reject, AfterRead, AfterRecord, Untouched;
    RevocationTouchesNothing(s, false, target);
    ReplyTouchesNothing(s, op, target, answer);
    if answer.Tree? { RecordTouchesNothing(s, target, answer.state); }
    if op.Record? { RecordTouchesNothing(s, target, op.state); }
  }

  lemma ReplyTouchesNothing(s: State, op: Op, target: Exec, answer: Answer)
    ensures op.Revoke? || op.Check? || op.Free? ==> Untouched(s, Resume(s, op, target, answer))
  {
    hide Reject, AfterRead, AfterRecord;
  }

  lemma RecordTouchesNothing(s: State, target: Exec, state: Exec)
    ensures Untouched(s, AfterRead(s, target, state)) && Untouched(s, AfterRecord(s, target, state))
  {
    hide Untouched, At;
    NoteTouchesNothing(s, state, true, Logging);
    NoteTouchesNothing(s, target, true, Logging);
    NoteTouchesNothing(s, state, s.handle.durablySettled, Calling(Record(StopRequested), target, None));
    NoteTouchesNothing(s, state, s.handle.durablySettled, Calling(Record(target), target, None));
  }

  lemma NoteTouchesNothing(s: State, state: Exec, settled: bool, p: Persist)
    ensures Untouched(s, At(s.(handle := s.handle.(state := state, durablySettled := settled)), p))
  {
  }

  lemma SettlementTouchesNothing(s: State, a: Step)
    requires Enabled(s, a) && (a.Go? || a.LogFails? || a.Reply? || a.KernelActs? || a.LeaseExpired?)
    ensures Untouched(s, Take(s, a))
  {
    hide Proceed, Resume, Reject, Untouched, Perform;
    var p := s.handle.settlement.value;
    RevocationTouchesNothing(s, false, Starting);
    if a.Go? {
      ProceedTouchesNothing(s, p);
    } else if a == Reply(true) {
      ResumeTouchesNothing(s, p.op, p.target, p.answer.value);
    } else if a.KernelActs? || a.LeaseExpired? {
      KernelAndSettlement(s, Take(s, a));
    }
  }

  lemma KernelAndSettlement(s: State, t: State)
    requires t == s.(kernel := t.kernel, handle := s.handle.(settlement := t.handle.settlement))
    ensures Untouched(s, t)
  {
  }

  lemma WorldDecides(s: State, a: Step)
    requires VerdictHolds(s) && s.cancellation.Some? && Enabled(s, a) && OutsideTheHandle(a)
    ensures Decides(s, Take(s, a), a)
  {
    hide RecordState, GiveUpWaiting;
    assert a.TimeOut? ==> SameVerdict(s, Take(s, a)) by {
      if a.TimeOut? { WaitingKeepsVerdict(s, a.forced); }
    }
  }

  lemma WaitingKeepsVerdict(s: State, forced: bool)
    ensures SameVerdict(s, GiveUpWaiting(s, forced))
  {
  }

  lemma StepDecides(s: State, a: Step)
    requires Good(s) && s.cancellation.Some? && Enabled(s, a)
    ensures Decides(s, Take(s, a), a)
  {
    hide Take, Enabled, ChildHolds, KernelHolds, HandleHolds, PhysicalHolds, SettlementHolds, VerdictHolds;
    hide SameVerdict, DrainDecides, LossDecides;
    match a
    case SpawnRefused => SpawnDecides(s, a);
    case SpawnThrew(_) => SpawnDecides(s, a);
    case Attach(_) => SpawnDecides(s, a);
    case StartReply(_) => AskDecides(s, a);
    case AskStop => AskDecides(s, a);
    case AskFinish => AskDecides(s, a);
    case AskRetry => AskDecides(s, a);
    case AuthorityLost => AskDecides(s, a);
    case Abort(_) => AskDecides(s, a);
    case Go => SettlementTouchesNothing(s, a);
    case LogFails => SettlementTouchesNothing(s, a);
    case Reply(_) => SettlementTouchesNothing(s, a);
    case KernelActs => SettlementTouchesNothing(s, a);
    case LeaseExpired => SettlementTouchesNothing(s, a);
    case _ => WorldDecides(s, a);
  }

  // ---- every run -------------------------------------------------------------------------------

  lemma CancellationStays(execution: nat, cancellation: Option<Interruption>, steps: seq<Step>)
    requires Unused(cancellation, execution) && Legal(Writer(), Fresh(execution, cancellation), steps)
    ensures After(Writer(), Fresh(execution, cancellation), steps).cancellation.Some? <==> cancellation.Some?
  {
    FreshIsGood(execution, cancellation);
    RunFollows(Fresh(execution, cancellation), steps);
  }

  lemma FreshIsGood(execution: nat, cancellation: Option<Interruption>)
    requires Unused(cancellation, execution)
    ensures Good(Fresh(execution, cancellation))
  {
  }

  /** Over every run of a handle bound to its Run's cancellation, each step decides exactly as said: a verdict is
      given when a drain first runs under the Run's own abort, or when a lost authority is confirmed, and never
      otherwise; and it is the right one. */
  lemma VerdictExactly(execution: nat, cancellation: Interruption, steps: seq<Step>, a: Step)
    requires cancellation == Interruption(Some(execution), false, false, false)
    requires Legal(Writer(), Fresh(execution, Some(cancellation)), steps)
    requires Enabled(After(Writer(), Fresh(execution, Some(cancellation)), steps), a)
    ensures var s := After(Writer(), Fresh(execution, Some(cancellation)), steps); Decides(s, Take(s, a), a)
  {
    EveryRunIsGood(execution, Some(cancellation), steps);
    CancellationStays(execution, Some(cancellation), steps);
    StepDecides(After(Writer(), Fresh(execution, Some(cancellation)), steps), a);
  }

  /** Until something is decided neither verdict stands, so what `Decides` says of a step is its own doing. */
  lemma UndecidedIsOpen(execution: nat, cancellation: Interruption, steps: seq<Step>)
    requires cancellation == Interruption(Some(execution), false, false, false)
    requires Legal(Writer(), Fresh(execution, Some(cancellation)), steps)
    ensures var s := After(Writer(), Fresh(execution, Some(cancellation)), steps);
      s.cancellation.Some? && (!s.causality ==> !s.cancellation.value.owned && !s.cancellation.value.exited)
  {
    EveryRunIsGood(execution, Some(cancellation), steps);
    CancellationStays(execution, Some(cancellation), steps);
  }

  /** The ordinary cancellation of a running Run: the abort stops the child, and the stop is the Run's own. */
  lemma CancelledRunIsOwned(s: State)
    requires Good(s) && s.cancellation.Some? && !s.causality
    requires s.handle.start.Open? && !s.handle.revocation && s.signal.Unaborted?
    requires s.handle.physical.Idle? && !s.handle.authorityStop && !s.child.exitObserved
    ensures Enabled(s, Abort(true))
    ensures var i := Take(s, Abort(true)).cancellation; i.Some? && i.value.owned && !i.value.exited
  {
    hide Take, Good;
    StepDecides(s, Abort(true));
  }

  // ---- asked, then forced ----------------------------------------------------------------------

  /** A child is asked to stop before it is forced, and forced before its end is called uncertain; an end that is
      known is the one its evidence shows, or there never was a child. */
  ghost predicate StopsInOrder(s: State) {
    var c := s.child;
    && (c.forceSent ==> c.stopSent) && (c.forced ==> c.forceSent)
    && match s.handle.physical
       case Idle => !c.forceSent
       case Asked => c.attached && c.stopSent && !c.forceSent
       case Forcing => c.attached && c.forceSent
       case Concluded(verdict) =>
         if verdict == Uncertain then c.attached ==> c.forceSent
         else if c.evidence.Some? then verdict == Observed(c)
         else !c.attempted && verdict == StopConfirmed
  }

  lemma BeginsInOrder(s: State)
    requires StopsInOrder(s) && ChildHolds(s.child)
    ensures StopsInOrder(BeginStop(s)) && BeginStop(s).child.attached == s.child.attached
  {
    if s.handle.physical.Idle? && !s.child.forceSent { assert !s.child.forced; }
  }

  /** The handle's other fields do not matter. */
  lemma OrderUnread(s: State, t: State)
    requires StopsInOrder(s) && t.child == s.child && t.handle.physical == s.handle.physical
    ensures StopsInOrder(t)
  {
  }

  lemma DrainsInOrder(s: State)
    requires StopsInOrder(s) && ChildHolds(s.child)
    ensures StopsInOrder(Drain(s)) && StopsInOrder(Stop(s))
  {
    hide StopsInOrder, BeginStop;
    DrainInOrder(s);
    OrderUnread(s, RevokeLocally(s));
    DrainInOrder(RevokeLocally(s));
  }

  lemma DrainInOrder(s: State)
    requires StopsInOrder(s) && ChildHolds(s.child)
    ensures StopsInOrder(Drain(s))
  {
    hide StopsInOrder, BeginStop, ChildHolds;
    var t := Attribute(s.(handle := s.handle.(retry := false)));
    OrderUnread(s, t);
    BeginsInOrder(t);
    OrderUnread(BeginStop(t), Drain(s));
  }

  lemma SpawnInOrder(s: State, a: Step)
    requires Good(s) && StopsInOrder(s) && Enabled(s, a) && (a.SpawnRefused? || a.SpawnThrew? || a.Attach?)
    ensures StopsInOrder(Take(s, a))
  {
    hide Stop, StopsInOrder, SettlementHolds, VerdictHolds;
    var failed := s.(handle := s.handle.(start := Failed));
    OrderUnread(s, failed);
    match a
    case SpawnRefused => DrainsInOrder(failed);
    case SpawnThrew(alive) =>
      AttemptInOrder(s, false, alive);
      OrderUnread(Attempt(s, false, alive), Attempt(failed, false, alive));
      DrainsInOrder(Attempt(failed, false, alive));
    case Attach(running) =>
      AttemptInOrder(s, true, true);
      OrderUnread(Attempt(s, true, true), Attempt(failed, true, true));
      DrainsInOrder(Attempt(failed, true, true));
      OrderUnread(Attempt(s, true, true), Report(Attempt(s, true, true)));
  }

  /** Nothing was stopped before the attempt: the handle would be revoked. */
  lemma AttemptInOrder(s: State, attached: bool, alive: bool)
    requires Good(s) && StopsInOrder(s) && MayMutate(s.kernel) && !s.child.attempted
    ensures StopsInOrder(Attempt(s, attached, alive)) && ChildHolds(Attempt(s, attached, alive).child)
    ensures !s.child.attached
  {
    hide SettlementHolds, VerdictHolds;
  }

  lemma AskInOrder(s: State, a: Step)
    requires ChildHolds(s.child) && StopsInOrder(s) && Enabled(s, a)
    requires a.StartReply? || a.AskStop? || a.AskFinish? || a.AskRetry? || a.AuthorityLost? || a.Abort?
    ensures StopsInOrder(Take(s, a))
  {
    hide Stop, Drain, FailStart, Attempt, Proceed, Resume, Reject, StopsInOrder, ChildHolds;
    match a
    case StartReply(ok) =>
      var failed, running :=
        s.(handle := s.handle.(start := Failed)), s.(handle := s.handle.(start := Open, state := Running));
      OrderUnread(s, failed);
      OrderUnread(s, running);
      DrainsInOrder(failed);
      DrainsInOrder(running);
    case Abort(ofRun) =>
      OrderUnread(s, s.(signal := Aborted(ofRun)));
      DrainsInOrder(s.(signal := Aborted(ofRun)));
    case AuthorityLost =>
      DrainsInOrder(s);
      OrderUnread(Stop(s), Take(s, a));
    case _ => DrainsInOrder(s);
  }

  lemma WorldInOrder(s: State, a: Step)
    requires Good(s) && StopsInOrder(s) && Enabled(s, a) && OutsideTheHandle(a)
    ensures StopsInOrder(Take(s, a))
  {
    hide RecordState, SettlementHolds, VerdictHolds, KernelHolds, HandleHolds, Attribute;
  }

  lemma StepInOrder(s: State, a: Step)
    requires Good(s) && StopsInOrder(s) && Enabled(s, a)
    ensures StopsInOrder(Take(s, a))
  {
    hide Take, Enabled, Good, StopsInOrder;
    GoodChild(s);
    if a.SpawnRefused? || a.SpawnThrew? || a.Attach? {
      SpawnInOrder(s, a);
    } else if a.StartReply? || a.AskStop? || a.AskFinish? || a.AskRetry? || a.AuthorityLost? || a.Abort? {
      AskInOrder(s, a);
    } else if a.Go? || a.LogFails? || a.Reply? || a.KernelActs? || a.LeaseExpired? {
      SettlementTouchesNothing(s, a);
      OrderUnread(s, Take(s, a));
    } else {
      WorldInOrder(s, a);
    }
  }

  lemma GoodChild(s: State)
    requires Good(s)
    ensures ChildHolds(s.child)
  {
  }

  /** Over every run: a child is asked to stop before it is forced, and forced before its end is uncertain. */
  lemma EveryStopIsInOrder(execution: nat, cancellation: Option<Interruption>, steps: seq<Step>)
    requires Unused(cancellation, execution) && Legal(Writer(), Fresh(execution, cancellation), steps)
    ensures StopsInOrder(After(Writer(), Fresh(execution, cancellation), steps))
  {
    hide Good, StopsInOrder, Take, Enabled;
    var inv := (s: State) => Good(s) && StopsInOrder(s);
    forall s: State, a: Step | inv(s) && Writer().enabled(s, a) ensures inv(Writer().next(s, a)) {
      TakeKeeps(s, a);
      StepInOrder(s, a);
    }
    FreshIsGood(execution, cancellation);
    FreshIsInOrder(execution, cancellation);
    RunKeeps(Writer(), inv, Fresh(execution, cancellation), steps);
  }

  lemma FreshIsInOrder(execution: nat, cancellation: Option<Interruption>)
    ensures StopsInOrder(Fresh(execution, cancellation))
  {
  }
}
