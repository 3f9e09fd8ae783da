/**
 The life of one controlled writer process: its handle, the execution record the Kernel keeps for it, and
 the operating-system process itself.

 A step is one synchronous stretch of the handle, one transaction of the Kernel, one reply, or one thing the
 world does by itself. The Kernel may fail a call before or after it took effect.
 */
module StopProtocol {
  import opened Sequences
  import opened Machines

  datatype Exec = Starting | Running | StopRequested | StopConfirmed | ForceTerminated | Uncertain

  predicate Stopped(e: Exec) { e == StopConfirmed || e == ForceTerminated }

  /** The transitions the Kernel accepts. */
  predicate Allowed(before: Exec, after: Exec) {
    match before
    case Starting => after in {Running, StopRequested, StopConfirmed, Uncertain}
    case Running => after in {StopRequested, StopConfirmed, Uncertain}
    case StopRequested => after in {StopConfirmed, ForceTerminated, Uncertain}
    case Uncertain => Stopped(after)
    case _ => false
  }

  datatype Lease = Active | Released | Lost

  /** The Kernel's side. `successor`: another writer was granted the worktree. */
  datatype Kernel = Kernel(state: Exec, revoked: bool, locallyRevoked: bool, lease: Lease, successor: bool)

  datatype Evidence = Evidence(normal: bool, signalled: bool)

  /** `alive`: some process of this execution may still write. */
  datatype Child = Child(
    attempted: bool, attached: bool, alive: bool, evidence: Option<Evidence>, exitObserved: bool,
    stopSent: bool, forceSent: bool, forced: bool)

  datatype Physical = Idle | Asked | Forcing | Concluded(verdict: Exec)

  datatype Op = Revoke(last: bool) | Read | Record(state: Exec) | Check(asked: bool) | Free(asked: bool)

  datatype Answer = Applied | Refused | Tree(state: Exec) | LeaseIs(active: bool)

  /** Where the settlement is suspended. `asked`: a stop had been asked for at the last look. */
  datatype Persist =
    | AwaitingStop
    | Settling(target: Exec)
    | Calling(op: Op, target: Exec, answer: Option<Answer>)
    | Logging
    | Finishing(asked: bool)
    | Returning(asked: bool)

  datatype Start = Opening | Reporting(answer: Option<Answer>) | Open | Failed

  datatype Handle = Handle(
    state: Exec, revocation: bool, durablyRevoked: bool, durablySettled: bool,
    physical: Physical, settlement: Option<Persist>, retry: bool, start: Start, authorityStop: bool)

  /** The interruption a cancelled Run shares with the handle; `fault` when one of its guards threw. */
  datatype Interruption = Interruption(bound: Option<nat>, owned: bool, exited: bool, fault: bool)

  /** The signal of the execution; `ofRun`: its reason is the Run's cancellation. Only its first abort counts. */
  datatype Signal = Unaborted | Aborted(ofRun: bool)

  datatype State = State(
    kernel: Kernel, child: Child, handle: Handle,
    cancellation: Option<Interruption>, execution: nat, signal: Signal, causality: bool)

  function Fresh(execution: nat, cancellation: Option<Interruption>): State {
    State(Kernel(Starting, false, false, Active, false),
          Child(false, false, false, None, false, false, false, false),
          Handle(Starting, false, false, false, Idle, None, false, Opening, false),
          cancellation, execution, Unaborted, false)
  }

  // ---- the handle ------------------------------------------------------------------------------

  function RevokeLocally(s: State): State {
    if s.handle.revocation then s else
    s.(handle := s.handle.(revocation := true), kernel := s.kernel.(locallyRevoked := true))
  }

  function RecordOwned(i: Interruption, execution: nat): Interruption {
    if i.bound != Some(execution) || i.exited then i.(fault := true) else i.(owned := true)
  }

  function RecordExited(i: Interruption, execution: nat): Interruption {
    if i.bound != Some(execution) || i.owned then i.(fault := true) else i.(exited := true)
  }

  /** The first drain after an abort for the Run's cancellation decides who ended the process. */
  function Attribute(s: State): State {
    if s.cancellation.None? || s.signal != Aborted(true) || s.causality then s else
    var i := s.cancellation.value;
    s.(causality := true,
       cancellation := Some(
         if s.child.exitObserved then RecordExited(i, s.execution)
         else if s.handle.physical.Idle? && !s.handle.authorityStop then RecordOwned(i, s.execution)
         else i))
  }

  function Observed(c: Child): Exec
    requires c.evidence.Some?
  {
    if c.forced || c.evidence.value.signalled then ForceTerminated else StopConfirmed
  }

  /** The operating-system half of a stop begins, once. */
  function BeginStop(s: State): State {
    if !s.handle.physical.Idle? then s
    else if !s.child.attached then
      s.(handle := s.handle.(physical := Concluded(if s.child.attempted then Uncertain else StopConfirmed)))
    else if s.child.evidence.Some? then
      s.(handle := s.handle.(physical := Concluded(Observed(s.child))))
    else
      s.(child := s.child.(stopSent := true), handle := s.handle.(physical := Asked))
  }

  /** The child did not close in time: force it, or conclude that nobody knows. */
  function GiveUpWaiting(s: State, forced: bool): State {
    if s.handle.physical.Asked? then
      s.(handle := s.handle.(physical := Forcing), child := s.child.(forceSent := true, forced := forced))
    else s.(handle := s.handle.(physical := Concluded(Uncertain)))
  }

  /** The settlement under way, or a new one. */
  function Join(s: State): State {
    if s.handle.settlement.Some? then s else s.(handle := s.handle.(settlement := Some(AwaitingStop)))
  }

  function Drain(s: State): State {
    Join(BeginStop(Attribute(s.(handle := s.handle.(retry := false)))))
  }

  function Stop(s: State): State {
    Drain(RevokeLocally(s))
  }

  /** The section that starts the child throws, and the handle is stopped. */
  function FailStart(s: State): State {
    Stop(s.(handle := s.handle.(start := Failed)))
  }

  function Attempt(s: State, attached: bool, alive: bool): State {
    s.(child := s.child.(attempted := true, attached := attached, alive := alive))
  }

  /** Report to the Kernel that the child runs. */
  function Report(s: State): State {
    s.(handle := s.handle.(start := Reporting(None)))
  }

  function At(s: State, p: Persist): State {
    s.(handle := s.handle.(settlement := Some(p)))
  }

  function Call(s: State, op: Op, target: Exec): State {
    At(s, Calling(op, target, None))
  }

  /** A failed settlement revokes and tries again later. */
  function Reject(s: State): State {
    var t := RevokeLocally(s.(handle := s.handle.(settlement := None)));
    t.(handle := t.handle.(retry := true))
  }

  /** Persist the revocation unless there is none or it is durable, then go on. */
  function PersistRevocation(s: State, last: bool, target: Exec): State {
    if s.handle.revocation && !s.handle.durablyRevoked then Call(s, Revoke(last), target)
    else At(s, if last then Finishing(s.handle.revocation) else Settling(target))
  }

  /** The settlement goes on from a point where it waits for nothing but its turn. */
  function Proceed(s: State, p: Persist): State {
    match p
    case AwaitingStop =>
      if !s.handle.physical.Concluded? then s else
      var target := if s.child.evidence.Some? then Observed(s.child) else s.handle.physical.verdict;
      PersistRevocation(if target == StopConfirmed then s else RevokeLocally(s), false, target)
    case Settling(target) =>
      if s.handle.durablySettled && s.handle.state == target then At(s, Logging) else Call(s, Read, target)
    case Logging => PersistRevocation(s, true, s.handle.state)
    case Finishing(asked) =>
      if s.handle.revocation && Stopped(s.handle.state) then Call(s, Check(asked), s.handle.state)
      else At(s, Returning(asked))
    case Returning(_) => s.(handle := s.handle.(settlement := None))
    case Calling(_, _, _) => s
  }

  function Settled(s: State, state: Exec): State {
    At(s.(handle := s.handle.(state := state, durablySettled := true)), Logging)
  }

  /** The Kernel's record is `state`: settle on it, or record the target, by way of a requested stop. */
  function AfterRead(s: State, target: Exec, state: Exec): State {
    if Stopped(state) || state == target then Settled(s, state)
    else
      var t := s.(handle := s.handle.(state := state));
      if s.child.attached && state != StopRequested && state != Uncertain
      then Call(t, Record(StopRequested), target) else Call(t, Record(target), target)
  }

  function AfterRecord(s: State, target: Exec, state: Exec): State {
    if state == target then Settled(s, target)
    else Call(s.(handle := s.handle.(state := state)), Record(target), target)
  }

  /** The Kernel's reply to the settlement's call arrives. */
  function Resume(s: State, op: Op, target: Exec, answer: Answer): State {
    match op
    case Revoke(last) =>
      At(s.(handle := s.handle.(durablyRevoked := true)), if last then Finishing(true) else Settling(target))
    case Read => if answer.Tree? then AfterRead(s, target, answer.state) else Reject(s)
    case Record(state) => AfterRecord(s, target, state)
    case Check(asked) =>
      if answer == LeaseIs(true) then Call(s, Free(asked), target) else At(s, Returning(asked))
    case Free(asked) => At(s, Returning(asked))
  }

  // ---- the Kernel ------------------------------------------------------------------------------

  function RecordState(k: Kernel, state: Exec): (Kernel, Answer) {
    if !Allowed(k.state, state) then (k, Refused) else
    (k.(state := state, revoked := k.revoked || state == Uncertain || state == ForceTerminated), Applied)
  }

  function Perform(k: Kernel, op: Op): (Kernel, Answer) {
    match op
    case Revoke(_) => (k.(revoked := true), Applied)
    case Read => (k, Tree(k.state))
    case Record(state) => RecordState(k, state)
    case Check(_) => (k, LeaseIs(k.lease == Active))
    case Free(_) =>
      if k.lease == Active && Stopped(k.state) then (k.(lease := Released), Applied) else (k, Refused)
  }

  /** The Kernel lets an effect on the worktree begin. */
  predicate MayMutate(k: Kernel) {
    !k.locallyRevoked && !k.revoked && k.lease == Active && (k.state == Starting || k.state == Running)
  }

  // ---- the steps -------------------------------------------------------------------------------

  datatype Step =
    | SpawnRefused                    // the section that starts the child throws before any attempt
    | SpawnThrew(alive: bool)         // the attempt throws; a process may or may not exist
    | Attach(running: bool)           // a child exists; `running` unless the section then throws
    | KernelStarts                    // the Kernel handles the report that the child runs
    | StartReply(ok: bool)
    | AskStop | AskFinish | AskRetry
    | AuthorityLost | AttributeLoss(confirmed: bool)
    | Abort(ofRun: bool) | ExitSeen | Dies | Closes(evidence: Evidence)
    | TimeOut(forced: bool) | SeeClose
    | Go | LogFails | KernelActs | Reply(ok: bool) | LeaseExpired
    | Recover | RevokedElsewhere | LoseLease | Succeed

  predicate Answered(p: Persist) {
    p.Calling? && p.answer.Some? && p.answer != Some(Refused)
  }

  ghost predicate Enabled(s: State, a: Step) {
    var h, c, k := s.handle, s.child, s.kernel;
    match a
    case SpawnRefused => h.start.Opening?
    case SpawnThrew(_) => h.start.Opening? && MayMutate(k) && h.state == Starting && !c.attempted
    case Attach(_) => h.start.Opening? && MayMutate(k) && h.state == Starting && !c.attempted
    case KernelStarts => h.start == Reporting(None)
    case StartReply(ok) => h.start.Reporting? && (ok ==> h.start.answer == Some(Applied))
    case AskStop => true
    case AskFinish => h.start.Open? && !h.revocation
    case AskRetry => h.retry
    case AuthorityLost => h.start.Open? && !h.revocation && h.physical.Idle?
    case AttributeLoss(_) => h.authorityStop
    case Abort(_) => true
    case ExitSeen => c.attached
    case Dies => c.alive
    case Closes(_) => c.attached && !c.alive && c.evidence.None?
    case TimeOut(_) => h.physical.Asked? || h.physical.Forcing?
    case SeeClose => (h.physical.Asked? || h.physical.Forcing?) && c.evidence.Some?
    case Go => h.settlement.Some? && (h.settlement == Some(AwaitingStop) ==> h.physical.Concluded?)
    case LogFails => h.settlement == Some(Logging)
    case KernelActs => h.settlement.Some? && h.settlement.value.Calling? && h.settlement.value.answer.None?
    case Reply(ok) => h.settlement.Some? && h.settlement.value.Calling? && (ok ==> Answered(h.settlement.value))
    case LeaseExpired => h.settlement.Some? && h.settlement.value.Calling? && h.settlement.value.op.Free? &&
      h.settlement.value.answer == Some(Refused) && k.lease == Lost
    case Recover => !Stopped(k.state)
    case RevokedElsewhere => true
    case LoseLease => k.lease == Active
    case Succeed => k.lease != Active && Stopped(k.state)
  }

  ghost function Take(s: State, a: Step): State
    requires Enabled(s, a)
  {
    var h, c, k := s.handle, s.child, s.kernel;
    match a
    case SpawnRefused => FailStart(s)
    case SpawnThrew(alive) => FailStart(Attempt(s, c.attached, alive))
    case Attach(running) => if running then Report(Attempt(s, true, true)) else FailStart(Attempt(s, true, true))
    case KernelStarts =>
      var (l, answer) := RecordState(k, Running);
      s.(kernel := l, handle := h.(start := Reporting(Some(answer))))
    case StartReply(ok) =>
      if !ok then Stop(s.(handle := h.(start := Failed)))
      else
        var t := s.(handle := h.(start := Open, state := Running));
        if s.signal.Aborted? then Stop(t) else t
    case AskStop => Stop(s)
    case AskFinish => Drain(s)
    case AskRetry => Drain(s)
    case AuthorityLost => var t := Stop(s); t.(handle := t.handle.(authorityStop := true))
    case AttributeLoss(confirmed) =>
      if s.cancellation.None? || c.exitObserved || s.causality || !confirmed then s
      else s.(causality := true, cancellation := Some(RecordOwned(s.cancellation.value, s.execution)))
    case Abort(ofRun) =>
      if s.signal.Aborted? then s else
      var t := s.(signal := Aborted(ofRun));
      if h.start.Open? && !h.revocation then Stop(t) else t
    case ExitSeen => s.(child := c.(exitObserved := true))
    case Dies => s.(child := c.(alive := false))
    case Closes(evidence) => s.(child := c.(evidence := Some(evidence)))
    case TimeOut(forced) => GiveUpWaiting(s, forced)
    case SeeClose => s.(handle := h.(physical := Concluded(Observed(c))))
    case Go => Proceed(s, h.settlement.value)
    case LogFails => Reject(s)
    case KernelActs =>
      var p := h.settlement.value;
      var (l, answer) := Perform(k, p.op);
      At(s.(kernel := l), p.(answer := Some(answer)))
    case Reply(ok) =>
      var p := h.settlement.value;
      if ok then Resume(s, p.op, p.target, p.answer.value) else Reject(s)
    case LeaseExpired => At(s, Returning(h.settlement.value.op.asked))
    case Recover => s.(kernel := k.(revoked := true, state := Uncertain))
    case RevokedElsewhere => s.(kernel := k.(revoked := true))
    case LoseLease => s.(kernel := k.(lease := Lost))
    case Succeed => s.(kernel := k.(successor := true))
  }

  ghost function Writer(): Machine<State, Step> {
    Machine((s, a) => Enabled(s, a), (s: State, a: Step) => if Enabled(s, a) then Take(s, a) else s)
  }
}
