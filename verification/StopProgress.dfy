/** A stop gets somewhere: the end that is recorded is the one that was observed, and a settlement that nothing
    disturbs records it, tells the Kernel of the revocation and gives the lease back. */
module StopProgress {
  import opened Sequences
  import opened Machines
  import opened StopProtocol
  import opened StopTheorems
  import opened StopVerdicts

  // ---- the end that is recorded ----------------------------------------------------------------

  /** How the execution ended, once it has: forced or by a signal, or normally, or it never began. */
  ghost function Final(s: State): Exec {
    if s.child.evidence.Some? && (s.child.forced || s.child.evidence.value.signalled) then ForceTerminated
    else StopConfirmed
  }

  ghost predicate Over(e: Exec) {
    Stopped(e) || e == Uncertain
  }

  /** What was read of the Kernel's record, or written to it, is still so once it is an end. */
  ghost predicate Current(s: State, state: Exec) {
    (Stopped(state) ==> s.kernel.state == state) && (state == Uncertain ==> Over(s.kernel.state))
  }

  /** What the settlement is about to record is the end there was. */
  ghost predicate Aims(s: State, target: Exec) {
    s.handle.physical.Concluded? && (Stopped(target) ==> target == Final(s))
  }

  ghost predicate SettlementAims(s: State) {
    s.handle.settlement.Some? ==>
      match s.handle.settlement.value
      case Settling(target) => Aims(s, target)
      case Calling(op, target, answer) =>
        && (op.Read? || op.Record? || op == Revoke(false) ==> Aims(s, target))
        && (op.Read? && answer.Some? && answer.value.Tree? ==> Current(s, answer.value.state))
        && (op.Record? && answer == Some(Applied) ==> Current(s, op.state))
      case _ => true
  }

  ghost predicate TrueEnd(s: State) {
    && (Stopped(s.kernel.state) ==> s.handle.physical.Concluded? && s.kernel.state == Final(s))
    && Current(s, s.handle.state)
    && (s.handle.physical == Concluded(Uncertain) ==> s.child.attempted)
    && SettlementAims(s)
  }

  // ---- the handle drains -----------------------------------------------------------------------

  /** Only a stop has begun, and a settlement. */
  ghost predicate Begun(s: State, t: State) {
    && t.kernel.state == s.kernel.state && t.child == s.child.(stopSent := t.child.stopSent)
    && (t.handle.state == s.handle.state || t.handle.state == Running)
    && (t.handle.settlement == s.handle.settlement || t.handle.settlement in {None, Some(AwaitingStop)})
    && (s.handle.physical.Concluded? ==> t.handle.physical == s.handle.physical)
    && (t.handle.physical == Concluded(Uncertain) && t.handle.physical != s.handle.physical ==> s.child.attempted)
  }

  lemma BegunKeeps(s: State, t: State)
    requires TrueEnd(s) && Begun(s, t)
    ensures TrueEnd(t)
  {
  }

  lemma BegunChains(s: State, t: State, u: State)
    requires Begun(s, t) && Begun(t, u)
    ensures Begun(s, u)
  {
  }

  lemma BeginBegins(s: State)
    ensures Begun(s, BeginStop(s)) && Begun(s, Join(s)) && Begun(s, RevokeLocally(s)) && Begun(s, Attribute(s))
  {
    hide Begun, BeginStop, Attribute;
    BeginBegun(s);
    OthersBegun(s);
  }

  lemma BeginBegun(s: State)
    ensures Begun(s, BeginStop(s))
  {
    hide Observed;
    if s.child.evidence.Some? { ObservedIsKnown(s.child); }
  }

  lemma ObservedIsKnown(c: Child)
    requires c.evidence.Some?
    ensures Observed(c) != Uncertain
  {
  }

  lemma OthersBegun(s: State)
    ensures Begun(s, Join(s)) && Begun(s, RevokeLocally(s)) && Begun(s, Attribute(s))
  {
    hide BeginStop, RecordOwned, RecordExited;
  }

  lemma DrainBegins(s: State)
    ensures Begun(s, Drain(s)) && Begun(s, Stop(s))
  {
    hide Begun, BeginStop, Join, RevokeLocally, Attribute;
    BeginBegins(s);
    DrainBegun(s);
    DrainBegun(RevokeLocally(s));
    BegunChains(s, RevokeLocally(s), Stop(s));
  }

  lemma DrainBegun(s: State)
    ensures Begun(s, Drain(s))
  {
    hide Begun, BeginStop, Join, Attribute;
    var t := s.(handle := s.handle.(retry := false));
    SameBegun(s, t);
    BeginBegins(t);
    BeginBegins(Attribute(t));
    BeginBegins(BeginStop(Attribute(t)));
    BegunChains(s, t, Attribute(t));
    BegunChains(s, Attribute(t), BeginStop(Attribute(t)));
    BegunChains(s, BeginStop(Attribute(t)), Drain(s));
  }

  lemma SameBegun(s: State, t: State)
    requires t == s.(handle := t.handle, signal := t.signal)
    requires t.handle == s.handle.(retry := t.handle.retry, start := t.handle.start, state := t.handle.state,
                                   authorityStop := t.handle.authorityStop)
    requires t.handle.state == s.handle.state || t.handle.state == Running
    ensures Begun(s, t)
  {
  }

  /** A process can only come to be while nothing has been stopped. */
  lemma AttemptKeepsEnd(s: State, attached: bool, alive: bool)
    requires Good(s) && TrueEnd(s) && MayMutate(s.kernel) && !s.child.attempted
    ensures TrueEnd(Attempt(s, attached, alive))
  {
    hide VerdictHolds;
  }

  lemma SpawnKeepsEnd(s: State, a: Step)
    requires Good(s) && TrueEnd(s) && Enabled(s, a) && (a.SpawnRefused? || a.SpawnThrew? || a.Attach?)
    ensures TrueEnd(Take(s, a))
  {
    hide Good, Stop, TrueEnd, Begun, Attempt, MayMutate;
    match a
    case SpawnRefused => FailKeepsEnd(s);
    case SpawnThrew(alive) =>
      AttemptKeepsEnd(s, s.child.attached, alive);
      FailKeepsEnd(Attempt(s, s.child.attached, alive));
    case Attach(_) =>
      AttemptKeepsEnd(s, true, true);
      FailKeepsEnd(Attempt(s, true, true));
      SameBegun(Attempt(s, true, true), Report(Attempt(s, true, true)));
      BegunKeeps(Attempt(s, true, true), Report(Attempt(s, true, true)));
  }

  lemma FailKeepsEnd(s: State)
    requires TrueEnd(s)
    ensures TrueEnd(FailStart(s))
  {
    hide TrueEnd, Begun, Stop;
    var t := s.(handle := s.handle.(start := Failed));
    SameBegun(s, t);
    DrainBegins(t);
    BegunChains(s, t, FailStart(s));
    BegunKeeps(s, FailStart(s));
  }

  lemma AskKeepsEnd(s: State, a: Step)
    requires TrueEnd(s) && Enabled(s, a)
    requires a.StartReply? || a.AskStop? || a.AskFinish? || a.AskRetry? || a.AuthorityLost? || a.Abort?
    ensures TrueEnd(Take(s, a))
  {
    hide TrueEnd, Begun, Stop, Drain;
    match a
    case StartReply(ok) =>
      var t := s.(handle := s.handle.(start := if ok then Open else Failed,
                                      state := if ok then Running else s.handle.state));
      SameBegun(s, t);
      DrainBegins(t);
      BegunChains(s, t, Stop(t));
      BegunKeeps(s, t);
      BegunKeeps(s, Stop(t));
    case Abort(ofRun) =>
      var t := s.(signal := Aborted(ofRun));
      SameBegun(s, t);
      DrainBegins(t);
      BegunChains(s, t, Stop(t));
      BegunKeeps(s, t);
      BegunKeeps(s, Stop(t));
    case AuthorityLost =>
      DrainBegins(s);
      SameBegun(Stop(s), Take(s, a));
      BegunChains(s, Stop(s), Take(s, a));
      BegunKeeps(s, Take(s, a));
    case _ =>
      DrainBegins(s);
      BegunKeeps(s, Drain(s));
      BegunKeeps(s, Stop(s));
  }

  // ---- the world -------------------------------------------------------------------------------

  lemma KernelKeepsEnd(s: State, k: Kernel)
    requires TrueEnd(s) && (if Stopped(s.kernel.state) then k.state == s.kernel.state else !Stopped(k.state))
    requires s.kernel.state == Uncertain ==> k.state == Uncertain
    ensures TrueEnd(s.(kernel := k))
  {
  }

  lemma ChildKeepsEnd(s: State, a: Step)
    requires Good(s) && StopsInOrder(s) && TrueEnd(s) && Enabled(s, a)
    requires a.ExitSeen? || a.Dies? || a.Closes? || a.TimeOut? || a.SeeClose?
    ensures TrueEnd(Take(s, a))
  {
    hide VerdictHolds, HandleHolds;
  }

  lemma WorldKeepsEnd(s: State, a: Step)
    requires Good(s) && StopsInOrder(s) && TrueEnd(s) && Enabled(s, a) && OutsideTheHandle(a)
    ensures TrueEnd(Take(s, a))
  {
    hide Good, StopsInOrder, TrueEnd, GiveUpWaiting;
    var k := s.kernel;
    match a
    case KernelStarts =>
      KernelKeepsEnd(s, RecordState(k, Running).0);
      var t := s.(kernel := RecordState(k, Running).0);
      SameBegun(t, Take(s, a));
      BegunKeeps(t, Take(s, a));
    case AttributeLoss(_) => OnlyTheVerdict(s, Take(s, a));
    case Recover => KernelKeepsEnd(s, k.(revoked := true, state := Uncertain));
    case RevokedElsewhere => KernelKeepsEnd(s, k.(revoked := true));
    case LoseLease => KernelKeepsEnd(s, k.(lease := Lost));
    case Succeed => KernelKeepsEnd(s, k.(successor := true));
    case ExitSeen => ChildKeepsEnd(s, a);
    case Dies => ChildKeepsEnd(s, a);
    case Closes(_) => ChildKeepsEnd(s, a);
    case TimeOut(_) => ChildKeepsEnd(s, a);
    case SeeClose => ChildKeepsEnd(s, a);
  }

  lemma OnlyTheVerdict(s: State, t: State)
    requires TrueEnd(s) && t == s.(causality := t.causality, cancellation := t.cancellation)
    ensures TrueEnd(t)
  {
  }

  // ---- the settlement --------------------------------------------------------------------------

  /** The settlement sees the end there was. */
  lemma EndIsSeen(s: State)
    requires StopsInOrder(s) && s.handle.physical.Concluded?
    ensures Aims(s, if s.child.evidence.Some? then Observed(s.child) else s.handle.physical.verdict)
  {
  }

  /** The settlement moved on, and with it at most what the handle knows of the record. */
  ghost predicate Moved(s: State, t: State, p: Persist) {
    && t.kernel.state == s.kernel.state && t.child == s.child && Current(s, t.handle.state)
    && t.handle.physical == s.handle.physical && t.handle.settlement == Some(p)
  }

  ghost predicate Fits(s: State, p: Persist) {
    match p
    case Settling(target) => Aims(s, target)
    case Calling(op, target, answer) =>
      answer.None? && (op.Read? || op.Record? || op == Revoke(false) ==> Aims(s, target))
    case _ => true
  }

  lemma MovedKeeps(s: State, t: State, p: Persist)
    requires TrueEnd(s) && Moved(s, t, p) && Fits(s, p)
    ensures TrueEnd(t)
  {
    hide Stopped;
  }

  lemma AtMoves(s: State, p: Persist)
    requires TrueEnd(s) && Fits(s, p)
    ensures TrueEnd(At(s, p))
  {
    hide Fits, Current, Aims, SettlementAims, Stopped;
    MovedKeeps(s, At(s, p), p);
  }

  lemma NoteMoves(s: State, state: Exec, settled: bool, p: Persist)
    requires TrueEnd(s) && Fits(s, p) && Current(s, state)
    ensures TrueEnd(At(s.(handle := s.handle.(state := state, durablySettled := settled)), p))
  {
    hide Fits, Current, Aims, SettlementAims, Stopped;
    MovedKeeps(s, At(s.(handle := s.handle.(state := state, durablySettled := settled)), p), p);
  }

  lemma PersistMoves(s: State, last: bool, target: Exec)
    requires Current(s, s.handle.state)
    ensures var t := PersistRevocation(s, last, target);
      && t.handle.settlement.Some? && Moved(s, t, t.handle.settlement.value)
      && match t.handle.settlement.value
         case Settling(x) => x == target && !last
         case Calling(op, x, answer) => op == Revoke(last) && x == target && answer == None
         case Finishing(_) => last
         case _ => false
  {
  }

  lemma GoKeepsEnd(s: State, p: Persist)
    requires StopsInOrder(s) && TrueEnd(s) && s.handle.settlement == Some(p)
    ensures TrueEnd(Proceed(s, p))
  {
    hide StopsInOrder, TrueEnd, Aims, Moved, PersistRevocation, RevokeLocally, Stopped;
    HandleIsCurrent(s);
    match p {
      case AwaitingStop => if s.handle.physical.Concluded? { SettlingKeepsEnd(s); }
      case Settling(target) =>
        AimsAt(s, target);
        AtMoves(s, Logging);
        AtMoves(s, Calling(Read, target, None));
      case Logging =>
        PersistMoves(s, true, s.handle.state);
        var t := PersistRevocation(s, true, s.handle.state);
        MovedKeeps(s, t, t.handle.settlement.value);
      case Finishing(asked) =>
        AtMoves(s, Returning(asked));
        AtMoves(s, Calling(Check(asked), s.handle.state, None));
      case Returning(_) => ReturnKeepsEnd(s);
      case Calling(_, _, _) =>
    }
  }

  lemma SettlingKeepsEnd(s: State)
    requires StopsInOrder(s) && TrueEnd(s) && s.handle.settlement == Some(AwaitingStop) && s.handle.physical.Concluded?
    ensures TrueEnd(Proceed(s, AwaitingStop))
  {
    hide StopsInOrder, TrueEnd, Moved, PersistRevocation, RevokeLocally, Observed;
    var target := if s.child.evidence.Some? then Observed(s.child) else s.handle.physical.verdict;
    EndIsSeen(s);
    RevokedMoves(s);
    var u := if target == StopConfirmed then s else RevokeLocally(s);
    HandleIsCurrent(u);
    PersistMoves(u, false, target);
    var t := PersistRevocation(u, false, target);
    MovedKeeps(u, t, t.handle.settlement.value);
  }

  lemma RevokedMoves(s: State)
    requires TrueEnd(s)
    ensures TrueEnd(RevokeLocally(s)) && forall x :: Aims(RevokeLocally(s), x) == Aims(s, x)
  {
  }

  lemma HandleIsCurrent(s: State)
    requires TrueEnd(s)
    ensures Current(s, s.handle.state)
  {
  }

  lemma AimsAt(s: State, target: Exec)
    requires TrueEnd(s) && s.handle.settlement == Some(Settling(target))
    ensures Aims(s, target)
  {
  }

  lemma ReturnKeepsEnd(s: State)
    requires TrueEnd(s)
    ensures TrueEnd(s.(handle := s.handle.(settlement := None)))
  {
  }

  lemma ReplyKeepsEnd(s: State)
    requires Good(s) && TrueEnd(s) && Enabled(s, Reply(true))
    ensures TrueEnd(Take(s, Reply(true)))
  {
    hide Good, AfterRead, AfterRecord, Reject, TrueEnd, Aims, Current, Stopped;
    var p := s.handle.settlement.value;
    ReplyIsCurrent(s);
    RejectKeepsEnd(s);
    if p.op.Read? {
      if p.answer.value.Tree? { NotedKeepsEnd(s, p.target, p.answer.value.state); }
    } else if p.op.Record? {
      NotedKeepsEnd(s, p.target, p.op.state);
    } else {
      OtherReplyKeepsEnd(s);
    }
  }

  lemma ReplyIsCurrent(s: State)
    requires Good(s) && TrueEnd(s) && Enabled(s, Reply(true))
    ensures var p := s.handle.settlement.value;
      && (p.op.Read? && p.answer.value.Tree? ==> Current(s, p.answer.value.state) && Aims(s, p.target))
      && (p.op.Record? ==> Current(s, p.op.state) && Aims(s, p.target))
  {
    hide VerdictHolds, KernelHolds, PhysicalHolds, HandleHolds, ChildHolds;
  }

  lemma NotedKeepsEnd(s: State, target: Exec, state: Exec)
    requires TrueEnd(s) && Current(s, state) && Aims(s, target)
    ensures TrueEnd(AfterRead(s, target, state)) && TrueEnd(AfterRecord(s, target, state))
  {
    hide TrueEnd, Current, Aims, Stopped, At;
    NoteMoves(s, state, true, Logging);
    NoteMoves(s, state, s.handle.durablySettled, Calling(Record(StopRequested), target, None));
    NoteMoves(s, state, s.handle.durablySettled, Calling(Record(target), target, None));
  }

  lemma OtherReplyKeepsEnd(s: State)
    requires TrueEnd(s) && Enabled(s, Reply(true))
    requires !s.handle.settlement.value.op.Read? && !s.handle.settlement.value.op.Record?
    ensures TrueEnd(Take(s, Reply(true)))
  {
    hide AfterRead, AfterRecord, Reject, TrueEnd, Current, Aims, Stopped;
    var p := s.handle.settlement.value;
    match p.op {
      case Revoke(last) => RevokedReply(s, p.target, last);
      case Check(asked) =>
        AtMoves(s, Calling(Free(asked), p.target, None));
        AtMoves(s, Returning(asked));
      case Free(asked) => AtMoves(s, Returning(asked));
    }
  }

  lemma RevokedReply(s: State, target: Exec, last: bool)
    requires TrueEnd(s) && s.handle.settlement.Some? && s.handle.settlement.value.Calling?
    requires s.handle.settlement.value.op == Revoke(last) && s.handle.settlement.value.target == target
    ensures var next := if last then Finishing(true) else Settling(target);
      TrueEnd(At(s.(handle := s.handle.(durablyRevoked := true)), next))
  {
    hide Stopped;
  }

  lemma RejectKeepsEnd(s: State)
    requires TrueEnd(s)
    ensures TrueEnd(Reject(s))
  {
  }

  lemma ActKeepsEnd(s: State)
    requires Good(s) && TrueEnd(s) && Enabled(s, KernelActs)
    ensures TrueEnd(Take(s, KernelActs))
  {
    hide VerdictHolds, KernelHolds, PhysicalHolds, HandleHolds, ChildHolds;
  }

  lemma StepKeepsEnd(s: State, a: Step)
    requires Good(s) && StopsInOrder(s) && TrueEnd(s) && Enabled(s, a)
    ensures TrueEnd(Take(s, a))
  {
    hide Good, StopsInOrder, TrueEnd;
    match a
    case SpawnRefused => SpawnKeepsEnd(s, a);
    case SpawnThrew(_) => SpawnKeepsEnd(s, a);
    case Attach(_) => SpawnKeepsEnd(s, a);
    case Go => GoKeepsEnd(s, s.handle.settlement.value);
    case LogFails => RejectKeepsEnd(s);
    case Reply(ok) => if ok { ReplyKeepsEnd(s); } else { RejectKeepsEnd(s); }
    case KernelActs => ActKeepsEnd(s);
    case LeaseExpired => ExpiryKeepsEnd(s);
    case StartReply(_) => AskKeepsEnd(s, a);
    case AskStop => AskKeepsEnd(s, a);
    case AskFinish => AskKeepsEnd(s, a);
    case AskRetry => AskKeepsEnd(s, a);
    case AuthorityLost => AskKeepsEnd(s, a);
    case Abort(_) => AskKeepsEnd(s, a);
    case _ => WorldKeepsEnd(s, a);
  }

  lemma ExpiryKeepsEnd(s: State)
    requires TrueEnd(s) && Enabled(s, LeaseExpired)
    ensures TrueEnd(Take(s, LeaseExpired))
  {
  }

  // ---- every run -------------------------------------------------------------------------------

  lemma FreshEnds(execution: nat, cancellation: Option<Interruption>)
    ensures TrueEnd(Fresh(execution, cancellation))
  {
  }

  ghost predicate Sound(s: State) {
    Good(s) && StopsInOrder(s) && TrueEnd(s)
  }

  lemma StepKeepsSound(s: State, a: Step)
    requires Sound(s) && Enabled(s, a)
    ensures Sound(Take(s, a))
  {
    hide Good, StopsInOrder, TrueEnd, Take, Enabled;
    TakeKeeps(s, a);
    StepInOrder(s, a);
    StepKeepsEnd(s, a);
  }

  lemma EveryRunIsSound(execution: nat, cancellation: Option<Interruption>, steps: seq<Step>)
    requires Unused(cancellation, execution) && Legal(Writer(), Fresh(execution, cancellation), steps)
    ensures Sound(After(Writer(), Fresh(execution, cancellation), steps))
  {
    hide Sound, Take, Enabled;
    forall s: State, a: Step | Sound(s) && Writer().enabled(s, a) ensures Sound(Writer().next(s, a)) {
      StepKeepsSound(s, a);
    }
    FreshIsGood(execution, cancellation);
    FreshIsInOrder(execution, cancellation);
    FreshEnds(execution, cancellation);
    FreshIsSound(execution, cancellation);
    RunKeeps(Writer(), (s: State) => Sound(s), Fresh(execution, cancellation), steps);
  }

  lemma FreshIsSound(execution: nat, cancellation: Option<Interruption>)
    requires var s := Fresh(execution, cancellation); Good(s) && StopsInOrder(s) && TrueEnd(s)
    ensures Sound(Fresh(execution, cancellation))
  {
  }

  /** Over every run, whatever fails and whoever else writes the record: an end in the record is the end there was,
      as forced exactly if the process was forced or ended by a signal, and the handle knows no other. */
  lemma RecordedAsItEnded(execution: nat, cancellation: Option<Interruption>, steps: seq<Step>)
    requires Unused(cancellation, execution) && Legal(Writer(), Fresh(execution, cancellation), steps)
    ensures var s := After(Writer(), Fresh(execution, cancellation), steps); var c := s.child;
      && (Stopped(s.kernel.state) ==>
            (c.evidence.Some? || !c.attempted)
            && (s.kernel.state == ForceTerminated <==>
                c.evidence.Some? && (c.forced || c.evidence.value.signalled)))
      && (Stopped(s.handle.state) ==> s.handle.state == s.kernel.state)
      && (s.handle.state == Uncertain ==> s.kernel.state == Uncertain || Stopped(s.kernel.state))
  {
    hide Sound, Take, Enabled;
    EveryRunIsSound(execution, cancellation, steps);
    SoundEnds(After(Writer(), Fresh(execution, cancellation), steps));
  }

  lemma SoundEnds(s: State)
    requires Sound(s)
    ensures Stopped(s.kernel.state) ==> s.kernel.state == Final(s) && (s.child.evidence.Some? || !s.child.attempted)
    ensures Current(s, s.handle.state)
  {
    hide StopsInOrder;
  }

  // ---- a settlement that nothing disturbs ------------------------------------------------------

  /** The end the settlement goes by. */
  ghost function EndOf(s: State): Exec {
    if s.child.evidence.Some? then Final(s)
    else if s.handle.physical.Concluded? then s.handle.physical.verdict else Uncertain
  }

  /** The record holds the end, and the handle knows it. */
  ghost predicate Recorded(s: State) {
    s.handle.state == s.kernel.state && (Stopped(s.kernel.state) || s.kernel.state == EndOf(s))
  }

  /** Told of the revocation, if there is one. */
  ghost predicate InStep(s: State) {
    s.handle.revocation == s.handle.durablyRevoked && (s.handle.revocation ==> s.kernel.revoked)
  }

  /** Where a settlement is that nothing has disturbed since it began. */
  ghost predicate OnTrack(s: State) {
    && s.handle.settlement.Some? && s.handle.physical.Concluded? && Over(EndOf(s))
    && match s.handle.settlement.value
       case AwaitingStop => true
       case Settling(target) => target == EndOf(s) && InStep(s)
       case Calling(op, target, answer) => answer != Some(Refused) && CallOnTrack(s, op, target, answer)
       case Logging => Recorded(s) && InStep(s)
       case Finishing(_) => Recorded(s) && InStep(s)
       case Returning(_) => Recorded(s) && InStep(s)
  }

  ghost predicate CallOnTrack(s: State, op: Op, target: Exec, answer: Option<Answer>) {
    match op
    case Revoke(last) => !last && target == EndOf(s) && s.handle.revocation && answer in {None, Some(Applied)}
    case Read => target == EndOf(s) && InStep(s) && (answer.Some? ==> answer.value == Tree(s.kernel.state))
    case Record(state) =>
      && target == EndOf(s) && InStep(s) && answer in {None, Some(Applied)}
      && if answer.None? then StopProtocol.Allowed(s.kernel.state, state) && (state == target || state == StopRequested)
         else s.kernel.state == state && (state == target || StopProtocol.Allowed(state, target))
    case Check(_) =>
      Recorded(s) && InStep(s) && (answer.Some? ==> answer.value == LeaseIs(s.kernel.lease == Active))
    case Free(_) =>
      && Recorded(s) && InStep(s) && Stopped(s.kernel.state) && answer in {None, Some(Applied)}
      && (answer.None? ==> s.kernel.lease == Active)
  }

  /** How far a settlement is from its end. */
  ghost function Left(p: Persist): nat {
    match p
    case AwaitingStop => 20
    case Settling(_) => 16
    case Calling(op, target, answer) => CallsLeft(op, target) - (if answer.Some? then 1 else 0)
    case Logging => 7
    case Finishing(_) => 6
    case Returning(_) => 0
  }

  ghost function CallsLeft(op: Op, target: Exec): (n: nat)
    ensures n > 0
  {
    match op
    case Revoke(last) => if last then 9 else 18
    case Read => 15
    case Record(state) => if state == target then 10 else 12
    case Check(_) => 4
    case Free(_) => 2
  }

  /** What the settlement does next when nothing fails. */
  ghost function Next(p: Persist): Step {
    if p.Calling? && p.answer.None? then KernelActs else if p.Calling? then Reply(true) else Go
  }

  ghost predicate Advances(s: State, t: State)
    requires s.handle.settlement.Some?
  {
    && OnTrack(t) && Left(t.handle.settlement.value) < Left(s.handle.settlement.value)
    && t.child == s.child && EndOf(t) == EndOf(s)
    && (Stopped(s.kernel.state) || Stopped(t.kernel.state) ==>
          t.kernel.state == if Stopped(s.kernel.state) then s.kernel.state else EndOf(s))
    && (s.handle.revocation ==> t.handle.revocation)
  }

  /** What a sound state says about the end. */
  ghost predicate EndFacts(s: State) {
    && (Stopped(s.kernel.state) ==> EndOf(s) != Uncertain)
    && (EndOf(s) == ForceTerminated ==> s.child.attached)
    && (s.child.evidence.Some? ==> Observed(s.child) == EndOf(s))
    && (s.handle.durablyRevoked ==> s.handle.revocation && s.kernel.revoked)
    && Current(s, s.handle.state)
  }

  lemma SoundFacts(s: State)
    requires Sound(s) && s.handle.physical.Concluded?
    ensures EndFacts(s) && Over(EndOf(s))
  {
    hide VerdictHolds, SettlementHolds, SettlementAims;
  }

  lemma BeginAdvances(s: State)
    requires EndFacts(s) && OnTrack(s) && s.handle.settlement == Some(AwaitingStop)
    ensures Advances(s, Proceed(s, AwaitingStop))
  {
    hide EndFacts, Observed, Over, Advances, PersistRevocation, RevokeLocally;
    EndIsTarget(s);
    var target := EndOf(s);
    TellsFirst(s, s, target);
    RevokedIsKnown(s);
    TellsFirst(s, RevokeLocally(s), target);
  }

  lemma EndIsTarget(s: State)
    requires EndFacts(s) && s.handle.physical.Concluded?
    ensures EndOf(s) == if s.child.evidence.Some? then Observed(s.child) else s.handle.physical.verdict
    ensures s.handle.durablyRevoked ==> s.handle.revocation && s.kernel.revoked
  {
    hide Observed;
  }

  lemma RevokedIsKnown(s: State)
    ensures var t := RevokeLocally(s);
      && t.handle.revocation && t.kernel.state == s.kernel.state && t.kernel.revoked == s.kernel.revoked
      && t.child == s.child && t.handle.physical == s.handle.physical
      && t.handle.durablyRevoked == s.handle.durablyRevoked && t.handle.settlement == s.handle.settlement
  {
  }

  lemma TellsFirst(s: State, u: State, target: Exec)
    requires s.handle.settlement == Some(AwaitingStop) && s.handle.physical.Concluded? && Over(EndOf(s))
    requires target == EndOf(s) && u.child == s.child && u.handle.physical == s.handle.physical
    requires u.kernel.state == s.kernel.state && u.kernel.revoked == s.kernel.revoked
    requires u.handle.durablyRevoked == s.handle.durablyRevoked && (s.handle.revocation ==> u.handle.revocation)
    requires s.handle.durablyRevoked ==> s.handle.revocation && s.kernel.revoked
    ensures Advances(s, PersistRevocation(u, false, target))
  {
    hide EndOf;
    EndUnread(s, u);
    EndUnread(s, PersistRevocation(u, false, target));
  }

  lemma SettlingAdvances(s: State, target: Exec)
    requires EndFacts(s) && OnTrack(s) && s.handle.settlement == Some(Settling(target))
    ensures Advances(s, Proceed(s, Settling(target)))
  {
    hide EndOf, Over, Stopped;
    EndUnread(s, Proceed(s, Settling(target)));
    if s.handle.state == target { KnownIsRecorded(s); }
  }

  lemma KnownIsRecorded(s: State)
    requires EndFacts(s) && Over(EndOf(s)) && s.handle.state == EndOf(s)
    ensures s.handle.state == s.kernel.state
  {
    hide EndOf, Observed;
  }

  lemma LogAdvances(s: State)
    requires EndFacts(s) && OnTrack(s) && s.handle.settlement == Some(Logging)
    ensures Advances(s, Proceed(s, Logging))
  {
    hide Observed, Current, EndOf;
    EndUnread(s, Proceed(s, Logging));
  }

  lemma FinishAdvances(s: State, asked: bool)
    requires EndFacts(s) && OnTrack(s) && s.handle.settlement == Some(Finishing(asked))
    ensures Advances(s, Proceed(s, Finishing(asked)))
  {
    hide Observed, Current, EndOf;
    EndUnread(s, Proceed(s, Finishing(asked)));
  }

  lemma EndUnread(s: State, t: State)
    requires t.child == s.child && t.handle.physical == s.handle.physical
    ensures EndOf(t) == EndOf(s)
  {
  }

  lemma GoAdvances(s: State)
    requires Sound(s) && OnTrack(s) && !s.handle.settlement.value.Calling? && !s.handle.settlement.value.Returning?
    ensures Enabled(s, Go) && Advances(s, Take(s, Go))
  {
    hide Sound, OnTrack, Advances, EndFacts, Proceed;
    TrackIsEnabled(s);
    SoundFacts(s);
    match s.handle.settlement.value {
      case AwaitingStop => BeginAdvances(s);
      case Settling(target) => SettlingAdvances(s, target);
      case Logging => LogAdvances(s);
      case Finishing(asked) => FinishAdvances(s, asked);
    }
  }

  lemma TrackIsEnabled(s: State)
    requires OnTrack(s)
    ensures s.handle.settlement.Some? && s.handle.physical.Concluded? && Over(EndOf(s))
  {
  }

  lemma ActAdvances(s: State)
    requires OnTrack(s) && s.handle.settlement.value.Calling? && s.handle.settlement.value.answer.None?
    ensures Enabled(s, KernelActs) && Advances(s, Take(s, KernelActs))
  {
    hide Observed, EndOf;
    EndUnread(s, Take(s, KernelActs));
  }

  lemma ReadAdvances(s: State, target: Exec)
    requires EndFacts(s) && OnTrack(s)
    requires s.handle.settlement == Some(Calling(Read, target, Some(Tree(s.kernel.state))))
    ensures Advances(s, AfterRead(s, target, s.kernel.state))
  {
    hide OnTrack, EndFacts, Advances;
    if Stopped(s.kernel.state) || s.kernel.state == target {
      ReadSettles(s, target);
    } else {
      ReadRecords(s, target);
    }
  }

  lemma ReadSettles(s: State, target: Exec)
    requires EndFacts(s) && OnTrack(s) && (Stopped(s.kernel.state) || s.kernel.state == target)
    requires s.handle.settlement == Some(Calling(Read, target, Some(Tree(s.kernel.state))))
    ensures Advances(s, Settled(s, s.kernel.state))
  {
    hide Observed, Current, EndOf, StopProtocol.Allowed, AfterRead;
    EndUnread(s, Settled(s, s.kernel.state));
  }

  lemma ReadRecords(s: State, target: Exec)
    requires EndFacts(s) && OnTrack(s) && !Stopped(s.kernel.state) && s.kernel.state != target
    requires s.handle.settlement == Some(Calling(Read, target, Some(Tree(s.kernel.state))))
    ensures Advances(s, AfterRead(s, target, s.kernel.state))
  {
    hide EndOf, EndFacts, Advances, InStep, StopProtocol.Allowed;
    TargetIsAllowed(s);
    RecordGoes(s, target, target);
    if s.child.attached && s.kernel.state != StopRequested && s.kernel.state != Uncertain {
      RecordGoes(s, StopRequested, target);
    }
  }

  lemma RecordGoes(s: State, state: Exec, target: Exec)
    requires InStep(s) && Over(EndOf(s)) && s.handle.physical.Concluded? && target == EndOf(s)
    requires s.handle.settlement == Some(Calling(Read, target, Some(Tree(s.kernel.state))))
    requires !Stopped(s.kernel.state) && (state == target || state == StopRequested)
    ensures StopProtocol.Allowed(s.kernel.state, state) ==>
      Advances(s, Call(s.(handle := s.handle.(state := s.kernel.state)), Record(state), target))
  {
    hide EndOf, StopProtocol.Allowed;
    EndUnread(s, Call(s.(handle := s.handle.(state := s.kernel.state)), Record(state), target));
  }

  /** From any state of the record the end can be recorded, by way of a requested stop if need be. */
  lemma TargetIsAllowed(s: State)
    requires EndFacts(s) && Over(EndOf(s)) && !Stopped(s.kernel.state) && s.kernel.state != EndOf(s)
    ensures if s.child.attached && s.kernel.state != StopRequested && s.kernel.state != Uncertain
            then StopProtocol.Allowed(s.kernel.state, StopRequested) && StopProtocol.Allowed(StopRequested, EndOf(s))
            else StopProtocol.Allowed(s.kernel.state, EndOf(s))
  {
    hide Observed, Current, EndOf;
  }

  lemma RecordAdvances(s: State, state: Exec, target: Exec)
    requires EndFacts(s) && OnTrack(s)
    requires s.handle.settlement == Some(Calling(Record(state), target, Some(Applied)))
    ensures Advances(s, AfterRecord(s, target, state))
  {
    hide Observed, Current, EndOf;
    EndUnread(s, AfterRecord(s, target, state));
  }

  lemma RevokedAdvances(s: State, target: Exec)
    requires EndFacts(s) && OnTrack(s) && s.handle.settlement == Some(Calling(Revoke(false), target, Some(Applied)))
    requires s.kernel.revoked
    ensures Advances(s, Resume(s, Revoke(false), target, Applied))
  {
    hide Observed, Current, EndOf, AfterRead, AfterRecord, Reject;
    EndUnread(s, Resume(s, Revoke(false), target, Applied));
  }

  lemma LeaseAdvances(s: State, op: Op, target: Exec, answer: Answer)
    requires EndFacts(s) && OnTrack(s) && s.handle.settlement == Some(Calling(op, target, Some(answer)))
    requires op.Free? || (op.Check? && Stopped(s.kernel.state))
    ensures Advances(s, Resume(s, op, target, answer))
  {
    hide OnTrack, EndFacts, Advances, AfterRead, AfterRecord, Reject;
    CheckAdvances(s, op, target, answer);
    if op.Check? && answer == LeaseIs(true) {
      LeaseGoes(s, Calling(Free(op.asked), target, None));
    } else {
      LeaseGoes(s, Returning(op.asked));
    }
  }

  lemma CheckAdvances(s: State, op: Op, target: Exec, answer: Answer)
    requires OnTrack(s) && s.handle.settlement == Some(Calling(op, target, Some(answer))) && (op.Check? || op.Free?)
    ensures Recorded(s) && InStep(s) && Over(EndOf(s)) && s.handle.physical.Concluded?
    ensures Left(s.handle.settlement.value) == if op.Check? then 3 else 1
    ensures op.Check? && answer == LeaseIs(true) ==> s.kernel.lease == Active
  {
    hide EndOf;
  }

  lemma LeaseGoes(s: State, p: Persist)
    requires Recorded(s) && InStep(s) && Over(EndOf(s)) && s.handle.physical.Concluded? && s.handle.settlement.Some?
    requires Left(p) < Left(s.handle.settlement.value)
    requires p.Returning? || (p.Calling? && p.op.Free? && p.answer.None? && Stopped(s.kernel.state))
    requires p.Calling? ==> s.kernel.lease == Active
    ensures Advances(s, At(s, p))
  {
    hide EndOf;
    EndUnread(s, At(s, p));
  }

  lemma ReplyFacts(s: State)
    requires Good(s) && OnTrack(s) && s.handle.settlement.value.Calling? && s.handle.settlement.value.answer.Some?
    ensures Enabled(s, Reply(true))
    ensures var p := s.handle.settlement.value;
      && (p.op.Revoke? ==> p.op == Revoke(false) && p.answer.value == Applied && s.kernel.revoked)
      && (p.op.Check? ==> Stopped(s.kernel.state))
      && (p.op.Read? ==> p.answer.value == Tree(s.kernel.state)) && (p.op.Record? ==> p.answer.value == Applied)
  {
    hide VerdictHolds, KernelHolds, PhysicalHolds, HandleHolds, EndOf;
  }

  lemma SoundIsGood(s: State)
    requires Sound(s)
    ensures Good(s)
  {
  }

  lemma ReplyAdvances(s: State)
    requires Sound(s) && OnTrack(s) && s.handle.settlement.value.Calling? && s.handle.settlement.value.answer.Some?
    ensures Enabled(s, Reply(true)) && Advances(s, Take(s, Reply(true)))
  {
    hide OnTrack, Advances, EndFacts, AfterRead, AfterRecord, Good, StopsInOrder, TrueEnd;
    TrackIsEnabled(s);
    var p := s.handle.settlement.value;
    SoundIsGood(s);
    SoundFacts(s);
    ReplyFacts(s);
    if p.op.Read? {
      ReadAdvances(s, p.target);
    } else if p.op.Record? {
      RecordAdvances(s, p.op.state, p.target);
    } else if p.op.Revoke? {
      RevokedAdvances(s, p.target);
    } else {
      LeaseAdvances(s, p.op, p.target, p.answer.value);
    }
  }

  lemma NextAdvances(s: State)
    requires Sound(s) && OnTrack(s) && !s.handle.settlement.value.Returning?
    ensures var a := Next(s.handle.settlement.value); Enabled(s, a) && Advances(s, Take(s, a))
  {
    hide Sound, OnTrack, Advances, Take, Enabled;
    TrackIsEnabled(s);
    var p := s.handle.settlement.value;
    if p.Calling? && p.answer.None? {
      ActAdvances(s);
    } else if p.Calling? {
      ReplyAdvances(s);
    } else {
      GoAdvances(s);
    }
  }

  /** The settlement returns: the record holds the end there was, or the one it had; a revocation is durable, and
      once the end is confirmed its lease is not active any more. */
  ghost predicate Completed(s: State, t: State) {
    && t.handle.settlement.Some? && t.handle.settlement.value.Returning? && t.child == s.child
    && t.handle.state == t.kernel.state
    && t.kernel.state == (if Stopped(s.kernel.state) then s.kernel.state else EndOf(s))
    && t.handle.revocation == t.handle.durablyRevoked && (t.handle.revocation ==> t.kernel.revoked)
    && (s.handle.revocation ==> t.handle.revocation)
    && (t.handle.revocation && Stopped(t.kernel.state) ==> t.kernel.lease != Active)
  }

  lemma CompletedLater(s: State, u: State, t: State)
    requires s.handle.settlement.Some? && Advances(s, u) && Completed(u, t)
    ensures Completed(s, t)
  {
    hide OnTrack, EndOf;
  }

  lemma ReturningCompletes(s: State)
    requires Sound(s) && OnTrack(s) && s.handle.settlement.value.Returning?
    ensures Completed(s, s)
  {
    hide StopsInOrder, TrueEnd, EndOf;
  }

  lemma {:induction false} TrackCompletes(s: State)
    requires Sound(s) && OnTrack(s)
    ensures exists steps :: Legal(Writer(), s, steps) && Completed(s, After(Writer(), s, steps))
    decreases Left(s.handle.settlement.value)
  {
    hide Sound, OnTrack, Take, Enabled, Left, Next, Completed, Advances;
    var m := Writer();
    TrackIsEnabled(s);
    if s.handle.settlement.value.Returning? {
      ReturningCompletes(s);
      assert Legal(m, s, []) && After(m, s, []) == s;
    } else {
      NextAdvances(s);
      var a := Next(s.handle.settlement.value);
      StepKeepsSound(s, a);
      AdvancesOn(s, Take(s, a));
      TrackCompletes(Take(s, a));
      var rest :| Legal(m, Take(s, a), rest) && Completed(Take(s, a), After(m, Take(s, a), rest));
      CompletedLater(s, Take(s, a), After(m, Take(s, a), rest));
      assert ([a] + rest)[1..] == rest && ([a] + rest)[0] == a;
      assert Legal(m, s, [a] + rest) && After(m, s, [a] + rest) == After(m, Take(s, a), rest);
    }
  }

  lemma AdvancesOn(s: State, t: State)
    requires s.handle.settlement.Some? && Advances(s, t)
    ensures OnTrack(t) && t.handle.settlement.Some?
    ensures Left(t.handle.settlement.value) < Left(s.handle.settlement.value)
  {
    hide EndOf;
  }

  /** After any run: a settlement that is about to begin, once the physical stop has concluded, can go through
      without a failure, and then the record holds the end there was, or the one it had; the revocation is durable
      and, once the end is confirmed, the lease is not active any more. */
  lemma SettlementCompletes(execution: nat, cancellation: Option<Interruption>, steps: seq<Step>)
    requires Unused(cancellation, execution) && Legal(Writer(), Fresh(execution, cancellation), steps)
    requires var s := After(Writer(), Fresh(execution, cancellation), steps);
      s.handle.settlement == Some(AwaitingStop) && s.handle.physical.Concluded?
    ensures var s := After(Writer(), Fresh(execution, cancellation), steps);
      exists more :: Legal(Writer(), s, more) && Completed(s, After(Writer(), s, more))
  {
    hide Sound, Take, Enabled, Completed, EndFacts;
    EveryRunIsSound(execution, cancellation, steps);
    var s := After(Writer(), Fresh(execution, cancellation), steps);
    SoundFacts(s);
    TrackCompletes(s);
  }

  // ---- every stop can be brought to its end ----------------------------------------------------

  /** A stop that is waiting for its child needs at most two timeouts to conclude. */
  lemma WaitingConcludes(s: State)
    requires Good(s) && s.handle.settlement == Some(AwaitingStop) && !s.handle.physical.Concluded?
    ensures Enabled(s, TimeOut(false))
    ensures var t := Take(s, TimeOut(false));
      && t.handle.settlement == Some(AwaitingStop) && t.handle.revocation == s.handle.revocation
      && t.kernel == s.kernel
      && (s.handle.physical.Forcing? ==> t.handle.physical == Concluded(Uncertain))
      && (!s.handle.physical.Forcing? ==> t.handle.physical.Forcing?)
  {
    hide VerdictHolds, KernelHolds;
  }

  /** The settlement has returned, with the end on record and the revocation durable. */
  ghost predicate BroughtToItsEnd(t: State) {
    && t.handle.settlement.Some? && t.handle.settlement.value.Returning?
    && t.handle.state == t.kernel.state && Over(t.kernel.state)
    && t.handle.revocation && t.handle.durablyRevoked && t.kernel.revoked
    && (Stopped(t.kernel.state) ==> t.kernel.lease != Active)
  }

  ghost predicate CanEnd(s: State) {
    exists steps :: Legal(Writer(), s, steps) && BroughtToItsEnd(After(Writer(), s, steps))
  }

  lemma StepToTheEnd(s: State, a: Step)
    requires Enabled(s, a) && CanEnd(Take(s, a))
    ensures CanEnd(s)
  {
    hide Take, Enabled, BroughtToItsEnd;
    var m := Writer();
    var rest :| Legal(m, Take(s, a), rest) && BroughtToItsEnd(After(m, Take(s, a), rest));
    assert ([a] + rest)[1..] == rest && ([a] + rest)[0] == a;
    assert Legal(m, s, [a] + rest) && After(m, s, [a] + rest) == After(m, Take(s, a), rest);
  }

  lemma ConcludedCanEnd(s: State)
    requires Sound(s) && s.handle.settlement == Some(AwaitingStop) && s.handle.physical.Concluded?
    requires s.handle.revocation
    ensures CanEnd(s)
  {
    hide Sound, Take, Enabled, EndFacts, Completed, BroughtToItsEnd;
    SoundFacts(s);
    TrackCompletes(s);
    var steps :| Legal(Writer(), s, steps) && Completed(s, After(Writer(), s, steps));
    CompletedIsTheEnd(s, After(Writer(), s, steps));
  }

  lemma CompletedIsTheEnd(s: State, t: State)
    requires Completed(s, t) && s.handle.revocation && Over(EndOf(s))
    ensures BroughtToItsEnd(t)
  {
    hide EndOf;
  }

  lemma AwaitingCanEnd(s: State)
    requires Sound(s) && s.handle.settlement == Some(AwaitingStop) && s.handle.revocation
    ensures CanEnd(s)
    decreases if s.handle.physical.Concluded? then 0 else if s.handle.physical.Forcing? then 1 else 2
  {
    hide Sound, Take, Enabled, CanEnd;
    if s.handle.physical.Concluded? {
      ConcludedCanEnd(s);
    } else {
      SoundIsGood(s);
      WaitingConcludes(s);
      StepKeepsSound(s, TimeOut(false));
      AwaitingCanEnd(Take(s, TimeOut(false)));
      StepToTheEnd(s, TimeOut(false));
    }
  }

  /** Whatever has happened to the handle, its child and the Kernel's record: a stop asked for while no settlement
      is under way can be brought to its end, with the revocation durable, the end on record, and the lease given
      up once that end is confirmed. */
  lemma EveryStopCanEnd(execution: nat, cancellation: Option<Interruption>, steps: seq<Step>)
    requires Unused(cancellation, execution) && Legal(Writer(), Fresh(execution, cancellation), steps)
    requires After(Writer(), Fresh(execution, cancellation), steps).handle.settlement.None?
    ensures var s := After(Writer(), Fresh(execution, cancellation), steps);
      Enabled(s, AskStop) && CanEnd(s)
  {
    hide Sound, Take, CanEnd, Stop;
    EveryRunIsSound(execution, cancellation, steps);
    var s := After(Writer(), Fresh(execution, cancellation), steps);
    StepKeepsSound(s, AskStop);
    StopAwaits(s);
    AwaitingCanEnd(Take(s, AskStop));
    StepToTheEnd(s, AskStop);
  }

  lemma StopAwaits(s: State)
    requires s.handle.settlement.None?
    ensures Take(s, AskStop).handle.settlement == Some(AwaitingStop) && Take(s, AskStop).handle.revocation
  {
    hide RevokeLocally, Attribute, BeginStop, Join;
    var t := RevokeLocally(s);
    RevokeAwaits(s);
    AttributeAwaits(t.(handle := t.handle.(retry := false)));
    BeginAwaits(Attribute(t.(handle := t.handle.(retry := false))));
    JoinAwaits(BeginStop(Attribute(t.(handle := t.handle.(retry := false)))));
  }

  lemma RevokeAwaits(s: State)
    ensures RevokeLocally(s).handle.settlement == s.handle.settlement && RevokeLocally(s).handle.revocation
  {
  }

  lemma AttributeAwaits(s: State)
    ensures Attribute(s).handle == s.handle
  {
    hide RecordOwned, RecordExited;
  }

  lemma BeginAwaits(s: State)
    ensures var t := BeginStop(s);
      t.handle.settlement == s.handle.settlement && t.handle.revocation == s.handle.revocation
  {
    hide Observed;
  }

  lemma JoinAwaits(s: State)
    requires s.handle.settlement.None?
    ensures var t := Join(s);
      t.handle.settlement == Some(AwaitingStop) && t.handle.revocation == s.handle.revocation
  {
  }

  // ---- what begins a stop ----------------------------------------------------------------------

  /** Every step that drains begins the physical stop, or finds it begun, and joins or begins a settlement; and
      all but finishing and retrying revoke the handle. */
  lemma DrainBeginsAStop(s: State, a: Step)
    requires Enabled(s, a) && Drains(s, a)
    ensures var t := Take(s, a);
      && !t.handle.physical.Idle? && t.handle.settlement.Some? && !t.handle.retry
      && (s.handle.settlement.Some? ==> t.handle.settlement == s.handle.settlement)
      && (if a.AskFinish? || a.AskRetry? then t.handle.revocation == s.handle.revocation else t.handle.revocation)
  {
    hide Stop, Drain, MayMutate;
    var failed := s.(handle := s.handle.(start := Failed));
    match a
    case SpawnRefused => StopIsBegun(failed);
    case SpawnThrew(alive) => StopIsBegun(failed.(child := s.child.(attempted := true, alive := alive)));
    case Attach(_) => StopIsBegun(failed.(child := s.child.(attempted := true, attached := true, alive := true)));
    case StartReply(ok) =>
      StopIsBegun(failed);
      StopIsBegun(s.(handle := s.handle.(start := Open, state := Running)));
    case AskStop => StopIsBegun(s);
    case AskFinish => DrainIsBegun(s);
    case AskRetry => DrainIsBegun(s);
    case AuthorityLost => StopIsBegun(s);
    case Abort(ofRun) => StopIsBegun(s.(signal := Aborted(ofRun)));
  }

  ghost predicate IsBegun(s: State, t: State) {
    && !t.handle.physical.Idle? && t.handle.settlement.Some? && !t.handle.retry
    && (s.handle.settlement.Some? ==> t.handle.settlement == s.handle.settlement)
  }

  lemma DrainIsBegun(s: State)
    ensures IsBegun(s, Drain(s)) && Drain(s).handle.revocation == s.handle.revocation
  {
    hide Attribute, Observed;
    AttributeAwaits(s.(handle := s.handle.(retry := false)));
  }

  lemma StopIsBegun(s: State)
    ensures IsBegun(s, Stop(s)) && Stop(s).handle.revocation
  {
    hide Drain;
    RevokeAwaits(s);
    DrainIsBegun(RevokeLocally(s));
  }

  /** A settlement that fails revokes the handle, and is tried again: until then nothing else can begin one but a
      further request, and the retry begins it anew. */
  lemma FailureIsRetried(s: State, a: Step)
    requires Good(s) && Enabled(s, a) && (a.LogFails? || a == Reply(false))
    ensures var t := Take(s, a);
      && t.handle.revocation && t.kernel.locallyRevoked && t.handle.settlement.None? && Enabled(t, AskRetry)
      && Take(t, AskRetry).handle.settlement == Some(AwaitingStop) && Take(t, AskRetry).handle.revocation
  {
    hide ChildHolds, PhysicalHolds, SettlementHolds, VerdictHolds, Drain;
    var t := Take(s, a);
    DrainIsBegun(t);
    RetryAwaits(t);
  }

  lemma RetryAwaits(s: State)
    requires s.handle.settlement.None?
    ensures Drain(s).handle.settlement == Some(AwaitingStop)
  {
    hide Attribute, BeginStop, Join;
    var t := s.(handle := s.handle.(retry := false));
    AttributeAwaits(t);
    BeginAwaits(Attribute(t));
    JoinAwaits(BeginStop(Attribute(t)));
  }

  // ---- an end that is not normal ---------------------------------------------------------------

  /** An execution that did not end normally, as far as anyone knows, has lost its authority. */
  ghost predicate Denied(s: State) {
    s.kernel.state == Uncertain || s.kernel.state == ForceTerminated ==> s.kernel.revoked
  }

  lemma StepKeepsDenied(s: State, a: Step)
    requires Denied(s) && Enabled(s, a)
    ensures Denied(Take(s, a))
  {
    hide Stop, Drain, Proceed, Resume, Reject, FailStart;
    LeaseAndRevocation(s, a);
    if a.KernelActs? {
      ActKeepsDenied(s.kernel, s.handle.settlement.value.op);
    } else if Spawns(a) {
      SpawnLeaves(s, a);
    } else if !OfTheWorld(a) {
      StepLeaves(s, a);
    }
  }

  lemma ActKeepsDenied(k: Kernel, op: Op)
    requires k.state == Uncertain || k.state == ForceTerminated ==> k.revoked
    ensures var l := Perform(k, op).0; l.state == Uncertain || l.state == ForceTerminated ==> l.revoked
  {
  }

  /** Over every run: once the record says that the end is uncertain or was forced, the execution's authority to
      publish is revoked. */
  lemma AbnormalEndsAreRevoked(execution: nat, cancellation: Option<Interruption>, steps: seq<Step>)
    requires Legal(Writer(), Fresh(execution, cancellation), steps)
    ensures var k := After(Writer(), Fresh(execution, cancellation), steps).kernel;
      k.state == Uncertain || k.state == ForceTerminated ==> k.revoked
  {
    hide Take, Enabled;
    forall s: State, a: Step | Denied(s) && Writer().enabled(s, a) ensures Denied(Writer().next(s, a)) {
      StepKeepsDenied(s, a);
    }
    RunKeeps(Writer(), Denied, Fresh(execution, cancellation), steps);
  }

  // ---- without authority -----------------------------------------------------------------------

  /** The Kernel has revoked the execution, or its lease is over. */
  ghost predicate Unauthorised(s: State) {
    s.kernel.revoked || s.kernel.lease != Active
  }

  /** Only an execution that nobody has revoked, under an active lease, and once, brings a process to life. */
  lemma OnlyTheAuthorisedSpawn(s: State, a: Step)
    requires Enabled(s, a) && Take(s, a).child.alive && !s.child.alive
    ensures !Unauthorised(s) && !s.kernel.locallyRevoked && !s.child.attempted
    ensures s.kernel.state == Starting || s.kernel.state == Running
  {
    hide Stop, Drain, Proceed, Resume, Reject, FailStart;
    if !OfTheWorld(a) { StepLeaves(s, a); }
  }

  lemma StaysUnauthorised(s: State, a: Step)
    requires Enabled(s, a) && Unauthorised(s)
    ensures Unauthorised(Take(s, a))
  {
    hide Drain, Stop, Reject, FailStart, Proceed, Resume;
    LeaseAndRevocation(s, a);
    if !OfTheSettlement(a) {
      MostStepsAreEarly(s, a);
    } else if a.Go? {
      ProceedKeepsKernel(s, s.handle.settlement.value);
    } else if a.Reply? {
      var p := s.handle.settlement.value;
      StopIsEarly(s);
      if a.ok { ResumeKeepsKernel(s, p.op, p.target, p.answer.value); }
    }
  }

  ghost predicate NothingComesAlive(s: State, t: State) {
    Unauthorised(s) ==> Unauthorised(t) && (t.child.alive ==> s.child.alive)
  }

  /** From the moment the Kernel revokes an execution or its lease ends, no run brings a process to life, whatever
      the handle knows of it. */
  lemma NothingSpawnsWithoutAuthority(s: State, steps: seq<Step>)
    requires Unauthorised(s) && Legal(Writer(), s, steps)
    ensures After(Writer(), s, steps).child.alive ==> s.child.alive
  {
    hide Take, Enabled, Unauthorised;
    forall x: State, a: Step | Writer().enabled(x, a) ensures NothingComesAlive(x, Writer().next(x, a)) {
      if Unauthorised(x) {
        StaysUnauthorised(x, a);
        if Take(x, a).child.alive && !x.child.alive { OnlyTheAuthorisedSpawn(x, a); }
      }
    }
    RunRelates(Writer(), (x: State) => true, NothingComesAlive, s, steps);
  }
}
