/** Fencing: what every run of a controlled writer process keeps, whatever fails and whenever it is retried. */
module StopTheorems {
  import opened Sequences
  import opened Machines
  import opened StopProtocol

  // ---- the invariant ---------------------------------------------------------------------------

  /** No process of this execution writes, and none ever will. */
  ghost predicate Gone(s: State) {
    s.child.evidence.Some? || (!s.child.attempted && s.handle.revocation)
  }

  ghost predicate ChildHolds(c: Child) {
    && (c.attached ==> c.attempted)
    && (c.alive ==> c.attempted && c.evidence.None?)
    && (c.evidence.Some? ==> c.attached)
  }

  ghost predicate KernelHolds(s: State) {
    && s.kernel.locallyRevoked == s.handle.revocation
    && (Stopped(s.kernel.state) ==> Gone(s))
    && (s.kernel.lease == Released || s.kernel.successor ==> Stopped(s.kernel.state))
  }

  ghost predicate HandleHolds(s: State) {
    var h := s.handle;
    && (h.durablyRevoked ==> h.revocation && s.kernel.revoked)
    && (Stopped(h.state) ==> Stopped(s.kernel.state))
    && (h.start.Reporting? || h.start.Open? ==> s.child.attached)
    && (h.retry || h.settlement.Some? ==> !h.physical.Idle?)
  }

  ghost predicate PhysicalHolds(s: State) {
    match s.handle.physical
    case Idle => true
    case Concluded(v) => Conclusion(s, v)
    case _ => s.child.attached
  }

  /** What a settlement may record: an unconfirmed end, or an end nothing can follow. */
  ghost predicate Conclusion(s: State, v: Exec) {
    (s.child.attempted || s.handle.revocation) && (v == Uncertain || (Stopped(v) && Gone(s)))
  }

  ghost predicate SettlementHolds(s: State) {
    s.handle.settlement.Some? ==>
      match s.handle.settlement.value
      case Settling(target) => Conclusion(s, target)
      case Calling(op, target, answer) =>
        CallHolds(s, op, target) && (answer.Some? ==> AnswerHolds(s, op, answer.value))
      case Finishing(asked) => asked == s.handle.durablyRevoked
      case Returning(asked) =>
        && asked == s.handle.durablyRevoked
        && (asked && Stopped(s.handle.state) ==> s.kernel.lease != Active)
      case _ => true
  }

  ghost predicate CallHolds(s: State, op: Op, target: Exec) {
    match op
    case Revoke(last) => s.handle.revocation && (last || Conclusion(s, target))
    case Read => Conclusion(s, target)
    case Record(state) => Conclusion(s, target) && (state == target || state == StopRequested)
    case Check(asked) => s.handle.revocation && Stopped(s.kernel.state) && asked == s.handle.durablyRevoked
    case Free(asked) => s.handle.revocation && Stopped(s.kernel.state) && asked == s.handle.durablyRevoked
  }

  ghost predicate AnswerHolds(s: State, op: Op, answer: Answer) {
    match answer
    case Applied =>
      && !op.Read? && !op.Check? && (op.Revoke? ==> s.kernel.revoked)
      && (op.Record? && Stopped(op.state) ==> Stopped(s.kernel.state))
      && (op.Free? ==> s.kernel.lease != Active)
    case Tree(state) => op.Read? && (Stopped(state) ==> Stopped(s.kernel.state))
    case LeaseIs(active) => op.Check? && (active || s.kernel.lease != Active)
    case Refused => true
  }

  /** At most one verdict, and no guard of the interruption ever threw. */
  ghost predicate VerdictHolds(s: State) {
    s.cancellation.Some? ==>
      var i := s.cancellation.value;
      && i.bound == Some(s.execution) && !i.fault
      && (i.owned || i.exited ==> s.causality) && !(i.owned && i.exited)
      && (i.exited ==> s.child.exitObserved)
  }

  ghost predicate Good(s: State) {
    && ChildHolds(s.child) && KernelHolds(s) && HandleHolds(s) && PhysicalHolds(s)
    && SettlementHolds(s) && VerdictHolds(s)
  }

  // ---- the handle's steps ----------------------------------------------------------------------

  lemma StopKeeps(s: State)
    requires Good(s)
    ensures Good(Stop(s))
  {
    RevokeKeeps(s);
    DrainKeeps(RevokeLocally(s));
  }

  lemma RevokeKeeps(s: State)
    requires Good(s)
    ensures Good(RevokeLocally(s))
  {
  }

  lemma AttributeKeeps(s: State)
    requires Good(s)
    ensures Good(Attribute(s)) && Attribute(s).child == s.child && Attribute(s).handle == s.handle
  {
  }

  /** A settlement moves to another point. */
  lemma AtKeeps(s: State, p: Persist)
    requires Good(s) && !s.handle.physical.Idle? && SettlementHolds(At(s, p))
    ensures Good(At(s, p))
  {
    hide SettlementHolds;
  }

  /** The handle notes what the Kernel's record says. */
  lemma NoteKeeps(s: State, state: Exec, settled: bool)
    requires Good(s) && (Stopped(state) ==> Stopped(s.kernel.state) && !Resolving(s))
    ensures Good(s.(handle := s.handle.(state := state, durablySettled := settled)))
  {
    SettlementKept(s, s.(handle := s.handle.(state := state, durablySettled := settled)));
    hide SettlementHolds;
  }

  lemma RetryKeeps(s: State, retry: bool)
    requires Good(s) && (retry ==> !s.handle.physical.Idle?)
    ensures Good(s.(handle := s.handle.(retry := retry)))
  {
    SettlementKept(s, s.(handle := s.handle.(retry := retry)));
    hide SettlementHolds;
  }

  lemma StartKeeps(s: State, start: Start)
    requires Good(s) && (start.Reporting? || start.Open? ==> s.child.attached)
    ensures Good(s.(handle := s.handle.(start := start)))
  {
    SettlementKept(s, s.(handle := s.handle.(start := start)));
    hide SettlementHolds;
  }

  lemma BeginStopKeeps(s: State)
    requires Good(s) && (s.child.attempted || s.handle.revocation)
    ensures Good(BeginStop(s)) && !BeginStop(s).handle.physical.Idle?
  {
    var t := BeginStop(s);
    assert ChildHolds(t.child) && KernelHolds(t) && HandleHolds(t) && VerdictHolds(t);
    assert PhysicalHolds(t);
    SettlementKept(s, t);
  }

  ghost predicate Resolving(s: State) {
    s.handle.settlement.Some? && s.handle.settlement.value.Returning?
  }

  /** The settlement looks only at these fields. */
  lemma SettlementKept(s: State, t: State)
    requires SettlementHolds(s)
    requires t.handle.settlement == s.handle.settlement && t.handle.durablyRevoked == s.handle.durablyRevoked
    requires t.handle.revocation == s.handle.revocation && t.child.attempted == s.child.attempted
    requires s.child.evidence.Some? ==> t.child.evidence.Some?
    requires s.kernel.revoked ==> t.kernel.revoked
    requires Stopped(s.kernel.state) ==> Stopped(t.kernel.state)
    requires s.kernel.lease != Active ==> t.kernel.lease != Active
    requires Resolving(s) && Stopped(t.handle.state) ==> Stopped(s.handle.state)
    ensures SettlementHolds(t)
  {
  }

  lemma DrainKeeps(s: State)
    requires Good(s) && (s.child.attempted || s.handle.revocation)
    ensures Good(Drain(s))
  {
    hide Good, Attribute, BeginStop;
    var t := s.(handle := s.handle.(retry := false));
    RetryKeeps(s, false);
    AttributeKeeps(t);
    BeginStopKeeps(Attribute(t));
    AtKeeps(BeginStop(Attribute(t)), AwaitingStop);
  }

  lemma RejectKeeps(s: State)
    requires Good(s) && !s.handle.physical.Idle?
    ensures Good(Reject(s))
  {
    RevokeKeeps(s.(handle := s.handle.(settlement := None)));
  }

  lemma FailStartKeeps(s: State)
    requires Good(s)
    ensures Good(FailStart(s))
  {
    hide Good;
    StartKeeps(s, Failed);
    StopKeeps(s.(handle := s.handle.(start := Failed)));
  }

  lemma AttemptKeeps(s: State, attached: bool, alive: bool)
    requires Good(s) && MayMutate(s.kernel) && !s.child.attempted
    ensures Good(Attempt(s, attached, alive)) && !s.child.attached
  {
  }

  lemma SpawnKeeps(s: State, a: Step)
    requires Good(s) && Enabled(s, a) && (a.SpawnRefused? || a.SpawnThrew? || a.Attach?)
    ensures Good(Take(s, a))
  {
    hide Good, FailStart, Attempt;
    match a
    case SpawnRefused => FailStartKeeps(s);
    case SpawnThrew(alive) =>
      AttemptKeeps(s, s.child.attached, alive);
      FailStartKeeps(Attempt(s, s.child.attached, alive));
    case Attach(running) =>
      AttemptKeeps(s, true, true);
      FailStartKeeps(Attempt(s, true, true));
      ReportKeeps(s);
  }

  lemma ReportKeeps(s: State)
    requires Good(Attempt(s, true, true))
    ensures Good(Report(Attempt(s, true, true)))
  {
    hide Good;
    StartKeeps(Attempt(s, true, true), Reporting(None));
  }

  lemma StartReplyKeeps(s: State, ok: bool)
    requires Good(s) && Enabled(s, StartReply(ok))
    ensures Good(Take(s, StartReply(ok)))
  {
    assert s.child.attached;
    hide Good, Stop;
    var t := s.(handle := s.handle.(start := if ok then Open else Failed));
    StartKeeps(s, if ok then Open else Failed);
    NoteKeeps(t, Running, t.handle.durablySettled);
    StopKeeps(t);
    StopKeeps(t.(handle := t.handle.(state := Running)));
  }

  lemma AbortKeeps(s: State, signal: Signal)
    requires Good(s)
    ensures Good(s.(signal := signal))
  {
    SettlementKept(s, s.(signal := signal));
    hide SettlementHolds;
  }

  lemma AuthorityLostKeeps(s: State)
    requires Good(s)
    ensures Good(s.(handle := s.handle.(authorityStop := true)))
  {
    SettlementKept(s, s.(handle := s.handle.(authorityStop := true)));
    hide SettlementHolds;
  }

  lemma StopRevokes(s: State)
    ensures Stop(s).handle.revocation
  {
    hide Drain;
    DrainLeaves(RevokeLocally(s));
  }

  lemma OpenIsAttempted(s: State)
    requires Good(s) && (s.handle.start.Open? || s.handle.retry)
    ensures s.child.attempted || s.handle.revocation
  {
  }

  lemma AskKeeps(s: State, a: Step)
    requires Good(s) && Enabled(s, a)
    requires a.AskStop? || a.AskFinish? || a.AskRetry? || a.AuthorityLost? || a.Abort?
    ensures Good(Take(s, a))
  {
    hide Good, Stop, Drain;
    match a
    case AskStop => StopKeeps(s);
    case AskFinish => OpenIsAttempted(s); DrainKeeps(s);
    case AskRetry => OpenIsAttempted(s); DrainKeeps(s);
    case AuthorityLost =>
      StopKeeps(s);
      AuthorityLostKeeps(Stop(s));
    case Abort(ofRun) =>
      AbortKeeps(s, Aborted(ofRun));
      StopKeeps(s.(signal := Aborted(ofRun)));
  }

  /** The Kernel's record changes, but for what releases the worktree. */
  lemma KernelMoves(s: State, k: Kernel)
    requires Good(s) && k.locallyRevoked == s.kernel.locallyRevoked && (s.kernel.revoked ==> k.revoked)
    requires (Stopped(k.state) <==> Stopped(s.kernel.state)) && (s.kernel.lease != Active ==> k.lease != Active)
    requires k.lease == Released || k.successor ==> Stopped(k.state)
    ensures Good(s.(kernel := k))
  {
    SettlementKept(s, s.(kernel := k));
    hide SettlementHolds;
  }

  /** The child changes, but stays the one that was attempted. */
  lemma ChildMoves(s: State, c: Child)
    requires Good(s) && ChildHolds(c) && c.attempted == s.child.attempted && c.attached == s.child.attached
    requires (s.child.evidence.Some? ==> c.evidence.Some?) && (s.child.exitObserved ==> c.exitObserved)
    ensures Good(s.(child := c))
  {
    SettlementKept(s, s.(child := c));
    hide SettlementHolds;
  }

  lemma PhysicalMoves(s: State, p: Physical)
    requires Good(s) && (s.handle.physical.Asked? || s.handle.physical.Forcing?)
    requires p.Forcing? || p == Concluded(Uncertain) || (p.Concluded? && Stopped(p.verdict) && s.child.evidence.Some?)
    ensures Good(s.(handle := s.handle.(physical := p)))
  {
    SettlementKept(s, s.(handle := s.handle.(physical := p)));
    hide SettlementHolds;
  }

  lemma GiveUpKeeps(s: State, forced: bool)
    requires Good(s) && (s.handle.physical.Asked? || s.handle.physical.Forcing?)
    ensures Good(GiveUpWaiting(s, forced))
  {
    hide Good;
    BasicFacts(s);
    ChildMoves(s, s.child.(forceSent := true, forced := forced));
    PhysicalMoves(s.(child := s.child.(forceSent := true, forced := forced)), Forcing);
    PhysicalMoves(s, Concluded(Uncertain));
  }

  lemma LossKeeps(s: State, confirmed: bool)
    requires Good(s) && Enabled(s, AttributeLoss(confirmed))
    ensures Good(Take(s, AttributeLoss(confirmed)))
  {
    SettlementKept(s, Take(s, AttributeLoss(confirmed)));
    hide SettlementHolds;
  }

  ghost predicate OutsideTheHandle(a: Step) {
    a.KernelStarts? || a.AttributeLoss? || a.ExitSeen? || a.Dies? || a.Closes? || a.TimeOut? || a.SeeClose?
    || a.Recover? || a.RevokedElsewhere? || a.LoseLease? || a.Succeed?
  }

  lemma BasicFacts(s: State)
    requires Good(s)
    ensures ChildHolds(s.child)
    ensures s.kernel.lease == Released || s.kernel.successor ==> Stopped(s.kernel.state)
    ensures s.handle.start.Reporting? ==> s.child.attached
  {
  }

  lemma WorldKeeps(s: State, a: Step)
    requires Good(s) && Enabled(s, a) && OutsideTheHandle(a)
    ensures Good(Take(s, a))
  {
    hide Good, Take, Enabled;
    match a
    case KernelStarts => KernelStartsKeeps(s);
    case AttributeLoss(confirmed) => LossKeeps(s, confirmed);
    case TimeOut(_) => PhysicalStepKeeps(s, a);
    case SeeClose => PhysicalStepKeeps(s, a);
    case ExitSeen => ChildStepKeeps(s, a);
    case Dies => ChildStepKeeps(s, a);
    case Closes(_) => ChildStepKeeps(s, a);
    case _ => KernelStepKeeps(s, a);
  }

  lemma KernelStartsKeeps(s: State)
    requires Good(s) && Enabled(s, KernelStarts)
    ensures Good(Take(s, KernelStarts))
  {
    hide Good;
    BasicFacts(s);
    var (l, answer) := RecordState(s.kernel, Running);
    KernelMoves(s, l);
    StartKeeps(s.(kernel := l), Reporting(Some(answer)));
  }

  lemma ChildStepKeeps(s: State, a: Step)
    requires Good(s) && Enabled(s, a) && (a.ExitSeen? || a.Dies? || a.Closes?)
    ensures Good(Take(s, a))
  {
    hide Good;
    BasicFacts(s);
    match a
    case ExitSeen => ChildMoves(s, s.child.(exitObserved := true));
    case Dies => ChildMoves(s, s.child.(alive := false));
    case Closes(evidence) => ChildMoves(s, s.child.(evidence := Some(evidence)));
  }

  lemma PhysicalStepKeeps(s: State, a: Step)
    requires Good(s) && Enabled(s, a) && (a.TimeOut? || a.SeeClose?)
    ensures Good(Take(s, a))
  {
    hide Good;
    match a
    case TimeOut(forced) => GiveUpKeeps(s, forced);
    case SeeClose => PhysicalMoves(s, Concluded(Observed(s.child)));
  }

  lemma KernelStepKeeps(s: State, a: Step)
    requires Good(s) && Enabled(s, a) && (a.Recover? || a.RevokedElsewhere? || a.LoseLease? || a.Succeed?)
    ensures Good(Take(s, a))
  {
    hide Good;
    BasicFacts(s);
    var k := s.kernel;
    match a
    case Recover => KernelMoves(s, k.(revoked := true, state := Uncertain));
    case RevokedElsewhere => KernelMoves(s, k.(revoked := true));
    case LoseLease => KernelMoves(s, k.(lease := Lost));
    case Succeed => KernelMoves(s, k.(successor := true));
  }

  lemma SettlementKeeps(s: State, a: Step)
    requires Good(s) && Enabled(s, a)
    requires a.Go? || a.LogFails? || a.KernelActs? || a.Reply? || a.LeaseExpired?
    ensures Good(Take(s, a))
  {
    match a
    case Go => ProceedKeeps(s, s.handle.settlement.value);
    case LogFails => RejectKeeps(s);
    case Reply(ok) => RejectKeeps(s); if ok { ResumeKeeps(s, s.handle.settlement.value); }
    case KernelActs => KernelKeeps(s);
    case LeaseExpired =>
  }

  lemma TakeKeeps(s: State, a: Step)
    requires Good(s) && Enabled(s, a)
    ensures Good(Take(s, a))
  {
    hide Good, Enabled, Take;
    match a
    case SpawnRefused => SpawnKeeps(s, a);
    case SpawnThrew(_) => SpawnKeeps(s, a);
    case Attach(_) => SpawnKeeps(s, a);
    case StartReply(ok) => StartReplyKeeps(s, ok);
    case AskStop => AskKeeps(s, a);
    case AskFinish => AskKeeps(s, a);
    case AskRetry => AskKeeps(s, a);
    case AuthorityLost => AskKeeps(s, a);
    case Abort(_) => AskKeeps(s, a);
    case Go => SettlementKeeps(s, a);
    case LogFails => SettlementKeeps(s, a);
    case KernelActs => SettlementKeeps(s, a);
    case Reply(_) => SettlementKeeps(s, a);
    case LeaseExpired => SettlementKeeps(s, a);
    case _ => WorldKeeps(s, a);
  }

  lemma PersistKeeps(s: State, last: bool, target: Exec)
    requires Good(s) && !s.handle.physical.Idle? && (last || Conclusion(s, target))
    ensures Good(PersistRevocation(s, last, target))
  {
    hide Good;
    RevocationIsKnown(s);
    if s.handle.revocation && !s.handle.durablyRevoked {
      AtKeeps(s, Calling(Revoke(last), target, None));
    } else {
      AtKeeps(s, if last then Finishing(s.handle.revocation) else Settling(target));
    }
  }

  lemma RevocationIsKnown(s: State)
    requires Good(s)
    ensures s.handle.durablyRevoked ==> s.handle.revocation
  {
  }

  lemma SettleBegins(s: State)
    requires Good(s) && s.handle.physical.Concluded?
    ensures Good(Proceed(s, AwaitingStop))
  {
    var target := if s.child.evidence.Some? then Observed(s.child) else s.handle.physical.verdict;
    assert Conclusion(s, target) && Conclusion(RevokeLocally(s), target);
    hide Good, PersistRevocation, Conclusion, RevokeLocally;
    RevokeKeeps(s);
    PersistKeeps(if target == StopConfirmed then s else RevokeLocally(s), false, target);
  }

  lemma ProceedKeeps(s: State, p: Persist)
    requires Good(s) && s.handle.settlement == Some(p) && (p == AwaitingStop ==> s.handle.physical.Concluded?)
    ensures Good(Proceed(s, p))
  {
    match p
    case AwaitingStop => SettleBegins(s);
    case Settling(target) =>
      if s.handle.durablySettled && s.handle.state == target { AtKeeps(s, Logging); }
      else { AtKeeps(s, Calling(Read, target, None)); }
    case Logging => PersistKeeps(s, true, s.handle.state);
    case Finishing(asked) =>
      if s.handle.revocation && Stopped(s.handle.state) { AtKeeps(s, Calling(Check(asked), s.handle.state, None)); }
      else { AtKeeps(s, Returning(asked)); }
    case Returning(_) =>
    case Calling(_, _, _) =>
  }

  lemma CallInFlight(s: State)
    requires Good(s) && s.handle.settlement.Some? && s.handle.settlement.value.Calling?
    ensures !s.handle.physical.Idle? && CallHolds(s, s.handle.settlement.value.op, s.handle.settlement.value.target)
  {
  }

  lemma KernelKeeps(s: State)
    requires Good(s) && Enabled(s, KernelActs)
    ensures Good(Take(s, KernelActs))
  {
    hide Good, CallHolds, AnswerHolds, Perform;
    CallInFlight(s);
    var p := s.handle.settlement.value;
    PerformKeeps(s, p.op, p.target);
    CallKept(s.(kernel := Perform(s.kernel, p.op).0), p.op, p.target, Perform(s.kernel, p.op).1);
  }

  lemma CallKept(s: State, op: Op, target: Exec, answer: Answer)
    requires Good(s) && !s.handle.physical.Idle? && CallHolds(s, op, target) && AnswerHolds(s, op, answer)
    ensures Good(At(s, Calling(op, target, Some(answer))))
  {
    AtKeeps(s, Calling(op, target, Some(answer)));
  }

  lemma PerformKeeps(s: State, op: Op, target: Exec)
    requires Good(s) && CallHolds(s, op, target)
    ensures var (l, answer) := Perform(s.kernel, op); var t := s.(kernel := l);
      Good(t) && CallHolds(t, op, target) && AnswerHolds(t, op, answer)
  {
    var t := s.(kernel := Perform(s.kernel, op).0);
    SettlementKept(s, t);
    hide SettlementHolds;
  }

  lemma DurableKeeps(s: State, p: Persist)
    requires Good(s) && !s.handle.physical.Idle? && s.handle.revocation && s.kernel.revoked
    requires match p case Finishing(asked) => asked case Settling(target) => Conclusion(s, target) case _ => false
    ensures Good(At(s.(handle := s.handle.(durablyRevoked := true)), p))
  {
  }

  lemma ResumeKeeps(s: State, p: Persist)
    requires Good(s) && s.handle.settlement == Some(p) && Answered(p)
    ensures Good(Resume(s, p.op, p.target, p.answer.value))
  {
    var answer := p.answer.value;
    assert CallHolds(s, p.op, p.target) && AnswerHolds(s, p.op, answer);
    match p.op
    case Revoke(last) => DurableKeeps(s, if last then Finishing(true) else Settling(p.target));
    case Read => ReadKeeps(s, p.target, answer);
    case Record(state) => RecordKeeps(s, state, p.target);
    case Check(asked) =>
      AtKeeps(s, if answer == LeaseIs(true) then Calling(Free(asked), p.target, None) else Returning(asked));
    case Free(asked) => AtKeeps(s, Returning(asked));
  }

  lemma SettledKeeps(s: State, state: Exec)
    requires Good(s) && !s.handle.physical.Idle? && !Resolving(s)
    requires Stopped(state) ==> Stopped(s.kernel.state)
    ensures Good(Settled(s, state))
  {
    hide Good;
    NoteKeeps(s, state, true);
    AtKeeps(s.(handle := s.handle.(state := state, durablySettled := true)), Logging);
  }

  lemma AskRecordKeeps(s: State, noted: Exec, state: Exec, target: Exec)
    requires Good(s) && !s.handle.physical.Idle? && !Resolving(s) && !Stopped(noted)
    requires Conclusion(s, target) && (state == target || state == StopRequested)
    ensures Good(Call(s.(handle := s.handle.(state := noted)), Record(state), target))
  {
    hide Good;
    NoteKeeps(s, noted, s.handle.durablySettled);
    AtKeeps(s.(handle := s.handle.(state := noted)), Calling(Record(state), target, None));
  }

  lemma ReadKeeps(s: State, target: Exec, answer: Answer)
    requires Good(s) && !s.handle.physical.Idle? && !Resolving(s)
    requires Conclusion(s, target) && AnswerHolds(s, Read, answer)
    ensures Good(Resume(s, Read, target, answer))
  {
    hide Good, Conclusion, Reject, Settled;
    if !answer.Tree? {
      RejectKeeps(s);
    } else if Stopped(answer.state) || answer.state == target {
      SettledKeeps(s, answer.state);
    } else {
      AskRecordKeeps(s, answer.state, StopRequested, target);
      AskRecordKeeps(s, answer.state, target, target);
    }
  }

  lemma RecordKeeps(s: State, state: Exec, target: Exec)
    requires Good(s) && !s.handle.physical.Idle? && !Resolving(s) && CallHolds(s, Record(state), target)
    requires Stopped(state) ==> Stopped(s.kernel.state)
    ensures Good(Resume(s, Record(state), target, Applied))
  {
    if state == target {
      SettledKeeps(s, target);
    } else {
      AskRecordKeeps(s, state, target, target);
    }
  }

  // ---- every run -------------------------------------------------------------------------------

  ghost predicate Unused(cancellation: Option<Interruption>, execution: nat) {
    cancellation.Some? ==> cancellation.value == Interruption(Some(execution), false, false, false)
  }

  /** The invariant holds after every run from a fresh handle, with or without a cancellation bound to it. */
  lemma EveryRunIsGood(execution: nat, cancellation: Option<Interruption>, steps: seq<Step>)
    requires Unused(cancellation, execution) && Legal(Writer(), Fresh(execution, cancellation), steps)
    ensures Good(After(Writer(), Fresh(execution, cancellation), steps))
  {
    WriterKeepsGood();
    RunKeeps(Writer(), (s: State) => Good(s), Fresh(execution, cancellation), steps);
  }

  lemma WriterKeepsGood()
    ensures Inductive(Writer(), (s: State) => Good(s))
  {
    forall s: State, a: Step | Good(s) && Writer().enabled(s, a) ensures Good(Writer().next(s, a)) {
      TakeKeeps(s, a);
    }
  }

  /** The lease is released, or another writer may be granted, only once the original child was seen closed
      or no spawn was ever attempted; and then nothing of this execution writes. */
  lemma NoNewWriterBeforeTheOldIsDead(execution: nat, cancellation: Option<Interruption>, steps: seq<Step>)
    requires Unused(cancellation, execution) && Legal(Writer(), Fresh(execution, cancellation), steps)
    ensures var s := After(Writer(), Fresh(execution, cancellation), steps);
      s.kernel.lease == Released || s.kernel.successor || Enabled(s, Succeed) ==>
        !s.child.alive && (s.child.evidence.Some? || !s.child.attempted)
  {
    EveryRunIsGood(execution, cancellation, steps);
  }

  /** What the handle's own steps leave alone. */
  ghost predicate Leaves(s: State, t: State) {
    && t.child.attempted == s.child.attempted && t.child.attached == s.child.attached
    && t.child.alive == s.child.alive && t.child.evidence == s.child.evidence
    && t.kernel.state == s.kernel.state
    && (s.handle.revocation ==> t.handle.revocation)
    && (s.cancellation.Some? <==> t.cancellation.Some?)
    && (s.causality ==> t.causality && t.cancellation == s.cancellation)
  }

  lemma DrainLeaves(s: State)
    ensures Leaves(s, Drain(s))
  {
    hide Attribute, BeginStop, Leaves;
    var t := s.(handle := s.handle.(retry := false));
    OnlyTheHandleLeaves(s, t);
    AttributeLeaves(t);
    BeginStopLeaves(Attribute(t));
    var u := BeginStop(Attribute(t));
    OnlyTheHandleLeaves(u, At(u, AwaitingStop));
    LeavesChains(s, t, Attribute(t));
    LeavesChains(s, Attribute(t), u);
    LeavesChains(s, u, At(u, AwaitingStop));
  }

  lemma AttributeLeaves(s: State)
    ensures Leaves(s, Attribute(s))
  {
  }

  lemma BeginStopLeaves(s: State)
    ensures Leaves(s, BeginStop(s))
  {
  }

  lemma RevokeLeaves(s: State)
    ensures Leaves(s, RevokeLocally(s)) && Leaves(s, Reject(s))
  {
  }

  lemma StopLeaves(s: State)
    ensures Leaves(s, Stop(s)) && Leaves(s, Drain(s)) && Leaves(s, Reject(s))
  {
    hide Drain, Reject, RevokeLocally;
    RevokeLeaves(s);
    DrainLeaves(s);
    DrainLeaves(RevokeLocally(s));
  }

  ghost predicate OnlyTheHandle(s: State, t: State) {
    && t.kernel == s.kernel && t.child == s.child && t.cancellation == s.cancellation && t.causality == s.causality
    && t.handle.revocation == s.handle.revocation
  }

  lemma OnlyTheHandleLeaves(s: State, t: State)
    requires OnlyTheHandle(s, t)
    ensures Leaves(s, t)
  {
  }

  lemma PersistLeaves(s: State, last: bool, target: Exec)
    ensures OnlyTheHandle(s, PersistRevocation(s, last, target))
  {
  }

  lemma ProceedLeaves(s: State, p: Persist)
    ensures Leaves(s, Proceed(s, p))
  {
    var t := Proceed(s, p);
    if p == AwaitingStop && s.handle.physical.Concluded? {
      hide Leaves, RevokeLocally, PersistRevocation;
      var target := if s.child.evidence.Some? then Observed(s.child) else s.handle.physical.verdict;
      var u := if target == StopConfirmed then s else RevokeLocally(s);
      OnlyTheHandleLeaves(s, s);
      RevokeLeaves(s);
      PersistLeaves(u, false, target);
      OnlyTheHandleLeaves(u, t);
      LeavesChains(s, u, t);
    } else {
      hide Leaves;
      assert OnlyTheHandle(s, t);
      OnlyTheHandleLeaves(s, t);
    }
  }

  lemma LeavesChains(s: State, t: State, u: State)
    requires Leaves(s, t) && Leaves(t, u)
    ensures Leaves(s, u)
  {
  }

  lemma ResumeLeaves(s: State, op: Op, target: Exec, answer: Answer)
    ensures Leaves(s, Resume(s, op, target, answer))
  {
    hide Reject, Resume, Leaves, OnlyTheHandle;
    RevokeLeaves(s);
    if op.Read? && !answer.Tree? {
      ReadFailure(s, target, answer);
    } else {
      ResumeIsLocal(s, op, target, answer);
      OnlyTheHandleLeaves(s, Resume(s, op, target, answer));
    }
  }

  lemma ReadFailure(s: State, target: Exec, answer: Answer)
    requires !answer.Tree?
    ensures Resume(s, Read, target, answer) == Reject(s)
  {
  }

  lemma NoteIsLocal(s: State, state: Exec, settled: bool, p: Persist)
    ensures OnlyTheHandle(s, At(s.(handle := s.handle.(state := state, durablySettled := settled)), p))
  {
  }

  lemma ReadIsLocal(s: State, target: Exec, state: Exec)
    ensures OnlyTheHandle(s, AfterRead(s, target, state)) && OnlyTheHandle(s, AfterRecord(s, target, state))
  {
    hide OnlyTheHandle, At;
    NoteIsLocal(s, state, true, Logging);
    NoteIsLocal(s, target, true, Logging);
    NoteIsLocal(s, state, s.handle.durablySettled, Calling(Record(StopRequested), target, None));
    NoteIsLocal(s, state, s.handle.durablySettled, Calling(Record(target), target, None));
  }

  lemma ResumeIsLocal(s: State, op: Op, target: Exec, answer: Answer)
    requires op.Read? ==> answer.Tree?
    ensures OnlyTheHandle(s, Resume(s, op, target, answer))
  {
    hide Reject, AfterRead, AfterRecord;
    if op.Read? { ReadIsLocal(s, target, answer.state); }
    if op.Record? { ReadIsLocal(s, target, op.state); }
  }

  ghost predicate OfTheWorld(a: Step) {
    || a.SpawnThrew? || a.Attach? || a.KernelStarts? || a.KernelActs? || a.AttributeLoss? || a.Dies? || a.Closes?
    || a.Recover?
  }

  lemma StepLeaves(s: State, a: Step)
    requires Enabled(s, a) && !OfTheWorld(a)
    ensures Leaves(s, Take(s, a))
  {
    hide Stop, Drain, Reject, Proceed, Resume;
    match a
    case SpawnRefused => StopLeaves(s.(handle := s.handle.(start := Failed)));
    case StartReply(ok) =>
      StopLeaves(s.(handle := s.handle.(start := Failed)));
      StopLeaves(s.(handle := s.handle.(start := Open, state := Running)));
    case AskStop => StopLeaves(s);
    case AskFinish => StopLeaves(s);
    case AskRetry => StopLeaves(s);
    case AuthorityLost => StopLeaves(s);
    case Abort(ofRun) => StopLeaves(s.(signal := Aborted(ofRun)));
    case LogFails => StopLeaves(s);
    case _ => SettlementStepLeaves(s, a);
  }

  lemma SettlementStepLeaves(s: State, a: Step)
    requires Enabled(s, a)
    requires a.Go? || a.Reply? || a.LeaseExpired? || a.ExitSeen? || a.TimeOut? || a.SeeClose? || a.RevokedElsewhere?
      || a.LoseLease? || a.Succeed?
    ensures Leaves(s, Take(s, a))
  {
    hide Stop, Drain, Reject, Proceed, Resume;
    match a
    case Go => ProceedLeaves(s, s.handle.settlement.value);
    case Reply(ok) =>
      var p := s.handle.settlement.value;
      StopLeaves(s);
      if ok { ResumeLeaves(s, p.op, p.target, p.answer.value); }
    case _ =>
  }

  ghost predicate Spawns(a: Step) {
    a.SpawnThrew? || a.Attach?
  }

  lemma SpawnLeaves(s: State, a: Step)
    requires Enabled(s, a) && Spawns(a)
    ensures !s.handle.revocation || !s.kernel.locallyRevoked
    ensures !s.child.attempted && Take(s, a).child.attempted
    ensures Take(s, a).kernel.state == s.kernel.state && Take(s, a).child.evidence == s.child.evidence
    ensures s.cancellation.Some? <==> Take(s, a).cancellation.Some?
    ensures s.causality ==> Take(s, a).causality && Take(s, a).cancellation == s.cancellation
  {
    hide Stop;
    var c := s.child;
    match a
    case SpawnThrew(alive) =>
      StopLeaves(s.(handle := s.handle.(start := Failed), child := c.(attempted := true, alive := alive)));
    case Attach(_) =>
      StopLeaves(s.(child := c.(attempted := true, attached := true, alive := true),
                    handle := s.handle.(start := Failed)));
  }

  lemma ActLeaves(s: State)
    requires Good(s) && Enabled(s, KernelActs)
    ensures var t := Take(s, KernelActs);
      && t.child == s.child && t.cancellation == s.cancellation && t.causality == s.causality
      && t.handle.revocation == s.handle.revocation
      && (s.kernel.state == Uncertain ==> t.kernel.state == Uncertain || Gone(s))
  {
  }

  ghost predicate SpawnsNothingMore(s: State, t: State) {
    && (s.handle.revocation ==>
          t.handle.revocation && t.child.attempted == s.child.attempted && t.child.attached == s.child.attached)
    && (s.handle.revocation || s.child.evidence.Some? ==> (t.child.alive ==> s.child.alive))
    && (s.child.evidence.Some? ==> t.child.evidence.Some?)
  }

  ghost predicate StaysUncertain(s: State, t: State) {
    && (s.child.attempted ==> t.child.attempted)
    && (s.child.evidence.Some? ==> t.child.evidence.Some?)
    && (s.child.attempted && s.kernel.state == Uncertain && t.child.evidence.None? ==> t.kernel.state == Uncertain)
  }

  ghost predicate VerdictStands(s: State, t: State) {
    && (s.cancellation.Some? <==> t.cancellation.Some?)
    && (s.causality ==> t.causality && t.cancellation == s.cancellation)
  }

  ghost predicate Follows(s: State, t: State) {
    SpawnsNothingMore(s, t) && StaysUncertain(s, t) && VerdictStands(s, t)
  }

  lemma StepFollows(s: State, a: Step)
    requires Good(s) && Enabled(s, a)
    ensures Follows(s, Take(s, a))
  {
    hide Good, Take, Enabled, Leaves, Follows;
    if !OfTheWorld(a) {
      StepLeaves(s, a);
      LeavesFollows(s, Take(s, a));
    } else if Spawns(a) {
      SpawnFollows(s, a);
    } else if a.KernelActs? {
      ActFollows(s);
    } else {
      WorldFollows(s, a);
    }
  }

  lemma LeavesFollows(s: State, t: State)
    requires Leaves(s, t)
    ensures Follows(s, t)
  {
  }

  lemma SpawnFollows(s: State, a: Step)
    requires Good(s) && Enabled(s, a) && Spawns(a)
    ensures Follows(s, Take(s, a))
  {
    hide Take, Enabled;
    SpawnLeaves(s, a);
  }

  lemma ActFollows(s: State)
    requires Good(s) && Enabled(s, KernelActs)
    ensures Follows(s, Take(s, KernelActs))
  {
    hide Take, Enabled;
    ActLeaves(s);
  }

  lemma WorldFollows(s: State, a: Step)
    requires Good(s) && Enabled(s, a) && OfTheWorld(a) && !Spawns(a) && !a.KernelActs?
    ensures Follows(s, Take(s, a))
  {
  }

  lemma RunFollows(s: State, steps: seq<Step>)
    requires Good(s) && Legal(Writer(), s, steps)
    ensures Follows(s, After(Writer(), s, steps)) && Good(After(Writer(), s, steps))
  {
    WriterKeepsGood();
    forall x: State, a: Step | Good(x) && Writer().enabled(x, a) ensures Follows(x, Writer().next(x, a)) {
      StepFollows(x, a);
    }
    FollowsChains();
    hide Good, Follows, Take, Enabled;
    RunRelates(Writer(), (x: State) => Good(x), (x: State, y: State) => Follows(x, y), s, steps);
    RunKeeps(Writer(), (x: State) => Good(x), s, steps);
  }

  lemma FollowsChains()
    ensures forall s :: Follows(s, s)
    ensures forall s, t, u :: Follows(s, t) && Follows(t, u) ==> Follows(s, u)
  {
  }

  /** No spawn can follow a revocation or a close: no run from there brings a process to life. */
  lemma NoSpawnAfterRevocation(s: State, steps: seq<Step>)
    requires Good(s) && Legal(Writer(), s, steps)
    ensures SpawnsNothingMore(s, After(Writer(), s, steps))
  {
    RunFollows(s, steps);
  }

  /** A child nobody saw close stays Uncertain, and its lease unreleased, through every failure and retry. */
  lemma UnconfirmedStaysUncertain(s: State, steps: seq<Step>)
    requires Good(s) && s.child.attempted && s.kernel.state == Uncertain && Legal(Writer(), s, steps)
    ensures var t := After(Writer(), s, steps);
      t.child.evidence.None? ==> t.kernel.state == Uncertain && t.kernel.lease != Released && !t.kernel.successor
  {
    RunFollows(s, steps);
  }

  /** Whatever is cancelled, exits or is lost when: at most one verdict about the cancellation, and the
      guards of the interruption never throw. */
  lemma OneVerdict(execution: nat, cancellation: Option<Interruption>, steps: seq<Step>)
    requires Unused(cancellation, execution) && Legal(Writer(), Fresh(execution, cancellation), steps)
    ensures var s := After(Writer(), Fresh(execution, cancellation), steps);
      s.cancellation.Some? ==>
        !s.cancellation.value.fault && !(s.cancellation.value.owned && s.cancellation.value.exited)
  {
    EveryRunIsGood(execution, cancellation, steps);
  }

  /** A verdict is final. */
  lemma VerdictIsFinal(s: State, steps: seq<Step>)
    requires Good(s) && s.causality && Legal(Writer(), s, steps)
    ensures After(Writer(), s, steps).cancellation == s.cancellation
  {
    RunFollows(s, steps);
  }

  // ---- durable revocation ----------------------------------------------------------------------

  /** A release follows a durable revocation exactly when the stop had been asked for at the settlement's
      last look; the same holds of the answer the settlement gives. */
  lemma ReleaseIsDurableUnlessAskedLate(s: State)
    requires Good(s) && s.handle.settlement.Some?
    ensures var p := s.handle.settlement.value;
      && (p.Calling? && p.op.Free? ==>
            s.handle.revocation && (s.handle.durablyRevoked <==> p.op.asked) && (p.op.asked ==> s.kernel.revoked))
      && (p.Returning? ==> (s.handle.durablyRevoked <==> p.asked))
  {
  }

  /** The settlement is past its last look at whether a stop was asked for. */
  ghost predicate PastTheLook(p: Persist) {
    p.Finishing? || p.Returning? || (p.Calling? && (p.op.Check? || p.op.Free?))
  }

  ghost predicate LookSaw(p: Persist)
    requires PastTheLook(p)
  {
    match p
    case Finishing(asked) => asked
    case Returning(asked) => asked
    case Calling(op, _, _) => op.asked
  }

  /** A stop was asked for, and not behind the back of a settlement past its last look. */
  ghost predicate InTime(s: State) {
    s.handle.revocation && (s.handle.settlement.Some? && PastTheLook(s.handle.settlement.value) ==>
      LookSaw(s.handle.settlement.value))
  }

  /** What most steps do to a settlement: leave it, drop it, or start it. */
  ghost predicate Early(s: State, t: State) {
    && (s.handle.revocation ==> t.handle.revocation)
    && (t.handle.settlement == s.handle.settlement || t.handle.settlement.None?
        || t.handle.settlement == Some(AwaitingStop))
    && t.kernel.lease == s.kernel.lease && (s.kernel.revoked ==> t.kernel.revoked)
  }

  lemma DrainIsEarly(s: State)
    ensures Early(s, Drain(s))
  {
    assert forall t :: Early(t, BeginStop(t)) && BeginStop(t).handle.settlement == t.handle.settlement;
    assert forall t :: Attribute(t).handle == t.handle && Attribute(t).kernel == t.kernel;
    hide BeginStop, Attribute;
  }

  lemma StopIsEarly(s: State)
    ensures Early(s, Stop(s)) && Early(s, Reject(s)) && Early(s, FailStart(s))
  {
    hide Drain;
    DrainIsEarly(RevokeLocally(s));
    DrainIsEarly(RevokeLocally(s.(handle := s.handle.(start := Failed))));
  }

  ghost predicate OfTheSettlement(a: Step) {
    a.Go? || a.KernelActs? || a.Reply? || a.LeaseExpired?
  }

  lemma MostStepsAreEarly(s: State, a: Step)
    requires Enabled(s, a) && !OfTheSettlement(a)
    ensures Early(s, Take(s, a)) || (a.LoseLease? && Take(s, a) == s.(kernel := s.kernel.(lease := Lost)))
  {
    if a.SpawnRefused? || a.SpawnThrew? || a.Attach? {
      SpawnIsEarly(s, a);
    } else if Asks(a) {
      AskIsEarly(s, a);
    } else {
      WorldIsEarly(s, a);
    }
    hide Take, Enabled;
  }

  ghost predicate Asks(a: Step) {
    a.StartReply? || a.AskStop? || a.AskFinish? || a.AskRetry? || a.AuthorityLost? || a.Abort? || a.LogFails?
  }

  lemma AskIsEarly(s: State, a: Step)
    requires Enabled(s, a) && Asks(a)
    ensures Early(s, Take(s, a))
  {
    hide Drain, Stop, Reject, FailStart, Attempt, Proceed, Resume;
    match a
    case StartReply(ok) =>
      StopIsEarly(s.(handle := s.handle.(start := Failed)));
      StopIsEarly(s.(handle := s.handle.(start := Open, state := Running)));
    case Abort(ofRun) => StopIsEarly(s.(signal := Aborted(ofRun)));
    case AskFinish => DrainIsEarly(s);
    case AskRetry => DrainIsEarly(s);
    case _ => StopIsEarly(s);
  }

  lemma WorldIsEarly(s: State, a: Step)
    requires Enabled(s, a) && OutsideTheHandle(a)
    ensures Early(s, Take(s, a)) || (a.LoseLease? && Take(s, a) == s.(kernel := s.kernel.(lease := Lost)))
  {
  }

  lemma SpawnIsEarly(s: State, a: Step)
    requires Enabled(s, a) && (a.SpawnRefused? || a.SpawnThrew? || a.Attach?)
    ensures Early(s, Take(s, a))
  {
    hide FailStart;
    match a
    case SpawnRefused => StopIsEarly(s);
    case SpawnThrew(alive) => StopIsEarly(Attempt(s, s.child.attached, alive));
    case Attach(_) => StopIsEarly(Attempt(s, true, true));
  }

  lemma EarlyStaysInTime(s: State, t: State)
    requires InTime(s) && Early(s, t)
    ensures InTime(t)
  {
  }

  lemma ProceedStaysInTime(s: State, p: Persist)
    requires InTime(s) && s.handle.settlement == Some(p)
    ensures InTime(Proceed(s, p))
  {
    assert RevokeLocally(s) == s;
    hide RevokeLocally;
  }

  lemma ResumeStaysInTime(s: State, op: Op, target: Exec, answer: Answer)
    requires InTime(s) && s.handle.settlement == Some(Calling(op, target, Some(answer)))
    ensures InTime(Resume(s, op, target, answer))
  {
    hide Reject, AfterRead, AfterRecord;
    match op
    case Read =>
      if answer.Tree? {
        ReadIsBeforeTheLook(s, target, answer.state);
      } else {
        StopIsEarly(s);
        EarlyStaysInTime(s, Reject(s));
      }
    case Record(state) => ReadIsBeforeTheLook(s, target, state);
    case _ =>
  }

  lemma ReadIsBeforeTheLook(s: State, target: Exec, state: Exec)
    requires s.handle.revocation
    ensures InTime(AfterRead(s, target, state)) && InTime(AfterRecord(s, target, state))
  {
    hide InTime, At;
    NoteIsInTime(s, state, true, Logging);
    NoteIsInTime(s, target, true, Logging);
    NoteIsInTime(s, state, s.handle.durablySettled, Calling(Record(StopRequested), target, None));
    NoteIsInTime(s, state, s.handle.durablySettled, Calling(Record(target), target, None));
  }

  lemma NoteIsInTime(s: State, state: Exec, settled: bool, p: Persist)
    requires s.handle.revocation && !PastTheLook(p)
    ensures InTime(At(s.(handle := s.handle.(state := state, durablySettled := settled)), p))
  {
  }

  /** The Kernel's half of a settlement; a release it makes follows a durable revocation. */
  lemma ActStaysInTime(s: State)
    requires Good(s) && InTime(s) && Enabled(s, KernelActs)
    ensures var t := Take(s, KernelActs);
      InTime(t) && (s.kernel.lease != Released && t.kernel.lease == Released ==> s.kernel.revoked)
  {
    hide KernelHolds, PhysicalHolds, VerdictHolds, ChildHolds;
  }

  ghost predicate StaysInTime(s: State, t: State) {
    && (InTime(s) ==> InTime(t)) && (s.kernel.revoked ==> t.kernel.revoked)
    && (InTime(s) && s.kernel.lease != Released && t.kernel.lease == Released ==> t.kernel.revoked)
  }

  lemma StepStaysInTime(s: State, a: Step)
    requires Good(s) && Enabled(s, a)
    ensures StaysInTime(s, Take(s, a))
  {
    hide Good, InTime;
    LeaseAndRevocation(s, a);
    if InTime(s) {
      if a.KernelActs? {
        ActStaysInTime(s);
      } else if a.Go? {
        ProceedStaysInTime(s, s.handle.settlement.value);
      } else if a.Reply? {
        ReplyStaysInTime(s, a.ok);
      } else if a.LeaseExpired? {
        ExpiryStaysInTime(s);
      } else {
        OtherStaysInTime(s, a);
      }
    }
    hide Take, Enabled;
  }

  lemma OtherStaysInTime(s: State, a: Step)
    requires InTime(s) && Enabled(s, a) && !OfTheSettlement(a)
    ensures InTime(Take(s, a))
  {
    MostStepsAreEarly(s, a);
    hide Take, Enabled;
    if Early(s, Take(s, a)) { EarlyStaysInTime(s, Take(s, a)); }
  }

  lemma ReplyStaysInTime(s: State, ok: bool)
    requires InTime(s) && Enabled(s, Reply(ok))
    ensures InTime(Take(s, Reply(ok)))
  {
    hide Reject, Resume;
    var p := s.handle.settlement.value;
    if ok {
      ResumeStaysInTime(s, p.op, p.target, p.answer.value);
    } else {
      StopIsEarly(s);
      EarlyStaysInTime(s, Reject(s));
    }
  }

  lemma ExpiryStaysInTime(s: State)
    requires InTime(s) && Enabled(s, LeaseExpired)
    ensures InTime(Take(s, LeaseExpired))
  {
  }

  /** Only the settlement's call of the Kernel releases the lease, and revocations stay. */
  lemma LeaseAndRevocation(s: State, a: Step)
    requires Enabled(s, a)
    ensures s.kernel.revoked ==> Take(s, a).kernel.revoked
    ensures !a.KernelActs? && Take(s, a).kernel.lease == Released ==> s.kernel.lease == Released
  {
    hide Drain, Stop, Reject, FailStart, Proceed, Resume;
    if !OfTheSettlement(a) {
      MostStepsAreEarly(s, a);
    } else if a.Go? {
      ProceedKeepsKernel(s, s.handle.settlement.value);
    } else if a.Reply? {
      var p := s.handle.settlement.value;
      StopIsEarly(s);
      if a.ok { ResumeKeepsKernel(s, p.op, p.target, p.answer.value); }
    }
  }

  lemma ProceedKeepsKernel(s: State, p: Persist)
    ensures Proceed(s, p).kernel.lease == s.kernel.lease && Proceed(s, p).kernel.revoked == s.kernel.revoked
  {
  }

  lemma ResumeKeepsKernel(s: State, op: Op, target: Exec, answer: Answer)
    ensures Resume(s, op, target, answer).kernel.lease == s.kernel.lease
    ensures s.kernel.revoked ==> Resume(s, op, target, answer).kernel.revoked
  {
    hide Reject, Resume;
    if op.Read? && !answer.Tree? {
      ReadFailure(s, target, answer);
      StopIsEarly(s);
    } else {
      ResumeIsLocal(s, op, target, answer);
    }
  }

  /** A stop asked for in time is durable before the lease is released, whatever happens in between: if
      revocation is known and no settlement is past its last look unaware of it, every run that comes to
      release the lease has made the revocation durable. */
  lemma StopInTimeIsDurable(s: State, steps: seq<Step>)
    requires Good(s) && InTime(s) && s.kernel.lease != Released && Legal(Writer(), s, steps)
    ensures After(Writer(), s, steps).kernel.lease == Released ==> After(Writer(), s, steps).kernel.revoked
  {
    WriterKeepsGood();
    forall x: State, a: Step | Good(x) && Writer().enabled(x, a) ensures StaysInTime(x, Writer().next(x, a)) {
      StepStaysInTime(x, a);
    }
    hide Good, InTime, Take, Enabled;
    RunRelates(Writer(), (x: State) => Good(x), StaysInTime, s, steps);
  }

  /** A settlement that knew of the stop resolves with the revocation durable and, when the end is
      confirmed, with the lease gone and nothing writing. */
  lemma StopIsHonoured(s: State)
    requires Good(s) && s.handle.settlement == Some(Returning(true))
    ensures s.handle.durablyRevoked && s.kernel.revoked
    ensures Stopped(s.handle.state) ==> s.kernel.lease != Active && !s.child.alive
  {
  }
}
