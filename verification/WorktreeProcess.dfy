/** The handle of one controlled writer process, as the executor keeps it: fields updated in place between
    awaits, and the proof that each stretch does what StopProtocol.dfy says and keeps its invariant. */
module WorktreeProcess {
  import opened Sequences
  import opened StopProtocol
  import opened StopTheorems

  lemma AttemptAttaches(s: State, attached: bool, alive: bool)
    ensures Attempt(s, attached, alive).child.attached == attached
  {
  }

  lemma BeginsOnce(s: State)
    requires !s.handle.physical.Idle?
    ensures BeginStop(s) == s
  {
  }

  class ControlledWorktreeProcess {
    const execution: nat
    var kernel: Kernel                          // the Kernel's durable record, and its local denial
    var state: Exec
    var revocation: bool
    var durablyRevoked: bool
    var durablySettled: bool
    var attached: bool                          // the original child handle is retained
    var spawnAttempted: bool
    var closeEvidence: Option<Evidence>
    var providerExitObserved: bool
    var stopSent: bool
    var forceSent: bool
    var forced: bool
    var physicalStop: Physical
    var settlement: Option<Persist>
    var retry: bool
    var start: Start
    var authorityStop: bool
    var signal: Signal
    var cancellation: Option<Interruption>
    var cancellationCausalityRecorded: bool
    ghost var alive: bool

    ghost function Now(): State
      reads this
    {
      State(kernel,
            Child(spawnAttempted, attached, alive, closeEvidence, providerExitObserved, stopSent, forceSent, forced),
            Handle(state, revocation, durablyRevoked, durablySettled, physicalStop, settlement, retry, start,
                   authorityStop),
            cancellation, execution, signal, cancellationCausalityRecorded)
    }

    ghost predicate Valid()
      reads this
    {
      Good(Now())
    }

    constructor (execution: nat, cancellation: Option<Interruption>)
      requires Unused(cancellation, execution)
      ensures Valid() && Now() == Fresh(execution, cancellation)
    {
      this.execution, this.cancellation := execution, cancellation;
      kernel := Kernel(Starting, false, false, Active, false);
      state, revocation, durablyRevoked, durablySettled := Starting, false, false, false;
      attached, spawnAttempted, closeEvidence, providerExitObserved := false, false, None, false;
      stopSent, forceSent, forced, alive := false, false, false, false;
      physicalStop, settlement, retry, start := Idle, None, false, Opening;
      authorityStop, signal, cancellationCausalityRecorded := false, Unaborted, false;
    }

    // ---- what others call ----------------------------------------------------------------------

    /** The section that starts the child, inside a Kernel mutation; `started` is what the driver did. */
    method Spawn(started: bool, running: bool, leftAlive: bool)
      requires Valid() && start.Opening?
      modifies this
      ensures Valid()
      ensures !old(Admits()) ==> Now() == FailStart(old(Now()))
      ensures old(Admits()) && !started ==> Now() == FailStart(Attempt(old(Now()), old(attached), leftAlive))
      ensures old(Admits()) && started && !running ==> Now() == FailStart(Attempt(old(Now()), true, true))
      ensures old(Admits()) && started && running ==> Now() == Report(Attempt(old(Now()), true, true))
    {
      hide Good, FailStart, Attempt;
      if Admits() {
        AttemptKeeps(Now(), started || attached, started || leftAlive);
        MakeAttempt(started, leftAlive);
        if started && running {
          AttemptAttaches(old(Now()), true, true);
          StartKeeps(Now(), Reporting(None));
          start := Reporting(None);
          return;
        }
      }
      FailStartKeeps(Now());
      StopUnstarted();
    }

    method StopUnstarted()
      modifies this
      ensures Now() == FailStart(old(Now()))
    {
      hide StopProtocol.Stop;
      start := Failed;
      RevokeAndDrain();
    }

    method MakeAttempt(started: bool, leftAlive: bool)
      requires !spawnAttempted
      modifies this`spawnAttempted, this`attached, this`alive
      ensures Now() == Attempt(old(Now()), started || old(attached), started || leftAlive)
    {
      spawnAttempted := true;
      alive := started || leftAlive;
      if started {
        attached := true;
      }
    }

    /** The Kernel allows the mutation, and the intent to spawn is unused. */
    predicate Admits()
      reads this`kernel, this`spawnAttempted, this`state
    {
      MayMutate(kernel) && !spawnAttempted && state == Starting
    }

    /** The report that the child runs was answered. */
    method AfterRunning(ok: bool)
      requires Valid() && Enabled(Now(), StartReply(ok))
      modifies this
      ensures Valid() && Now() == Take(old(Now()), StartReply(ok))
    {
      hide Good, StopProtocol.Stop;
      StartReplyKeeps(Now(), ok);
      if !ok {
        start := Failed;
        RevokeAndDrain();
        return;
      }
      start, state := Open, Running;
      if signal.Aborted? {
        RevokeAndDrain();
      }
    }

    method Stop()
      requires Valid()
      modifies this
      ensures Valid() && revocation && Now() == StopProtocol.Stop(old(Now()))
    {
      hide Good, StopProtocol.Stop;
      StopKeeps(Now());
      StopRevokes(Now());
      RevokeAndDrain();
    }

    /** Wait for a normal end; throws instead once the authority is revoked. */
    method Finish() returns (ok: bool)
      requires Valid() && start.Open?
      modifies this
      ensures Valid() && ok == !old(revocation)
      ensures Now() == if ok then StopProtocol.Drain(old(Now())) else old(Now())
    {
      hide Good, StopProtocol.Drain;
      ok := !revocation;
      if ok {
        OpenIsAttempted(Now());
        DrainKeeps(Now());
        Drain();
      }
    }

    /** The drain of a finish has settled on `settled`: the child's work counts only after a normal end that
        nobody asked for, and then nothing of it writes any more. `inBudget`: the lease has not run out;
        `publishable`: what the Kernel's check of the publication says. */
    method Finished(settled: Exec, inBudget: bool, publishable: bool) returns (ok: bool)
      requires Valid() && (Stopped(settled) ==> Stopped(kernel.state))
      ensures ok ==> !alive && Stopped(kernel.state) && !kernel.locallyRevoked
      ensures ok <==>
        && settled == StopConfirmed
        && closeEvidence.Some? && closeEvidence.value.normal && !closeEvidence.value.signalled
        && signal.Unaborted? && !revocation && inBudget && publishable
    {
      if settled != StopConfirmed || closeEvidence.None? {
        return false;
      }
      if !closeEvidence.value.normal || closeEvidence.value.signalled {
        return false;
      }
      if signal.Aborted? || revocation || !inBudget {
        return false;
      }
      return publishable;
    }

    method Retry()
      requires Valid() && retry
      modifies this
      ensures Valid() && Now() == StopProtocol.Drain(old(Now()))
    {
      hide Good, StopProtocol.Drain;
      OpenIsAttempted(Now());
      DrainKeeps(Now());
      Drain();
    }

    /** The monitor found the authority gone. */
    method StopAfterAuthorityLoss()
      requires Valid() && Enabled(Now(), AuthorityLost)
      modifies this
      ensures Valid() && Now() == Take(old(Now()), AuthorityLost)
    {
      hide Good, StopProtocol.Stop;
      AskKeeps(Now(), AuthorityLost);
      RevokeAndDrain();
      authorityStop := true;
    }

    /** Its query came back: did the Run's own cancellation cause the loss? */
    method ClassifyLoss(confirmed: bool)
      requires Valid() && authorityStop
      modifies this`cancellation, this`cancellationCausalityRecorded
      ensures Valid() && Now() == Take(old(Now()), AttributeLoss(confirmed))
    {
      hide Good;
      WorldKeeps(Now(), AttributeLoss(confirmed));
      if cancellation.Some? && !providerExitObserved && !cancellationCausalityRecorded && confirmed {
        cancellationCausalityRecorded := true;
        cancellation := Some(RecordOwned(cancellation.value, execution));
      }
    }

    // ---- the operating-system half -------------------------------------------------------------

    /** The wait for the child's close ended with its evidence. */
    method AfterClose()
      requires Valid() && (physicalStop.Asked? || physicalStop.Forcing?) && closeEvidence.Some?
      modifies this`physicalStop
      ensures Valid() && physicalStop == Concluded(ObservedStopState())
    {
      hide Good;
      PhysicalMoves(Now(), Concluded(ObservedStopState()));
      physicalStop := Concluded(ObservedStopState());
    }

    /** It ended without. */
    method AfterTimeout(forceStop: bool)
      requires Valid() && (physicalStop.Asked? || physicalStop.Forcing?)
      modifies this`physicalStop, this`forceSent, this`forced
      ensures Valid() && Now() == GiveUpWaiting(old(Now()), forceStop)
    {
      hide Good;
      GiveUpKeeps(Now(), forceStop);
      if physicalStop.Asked? {
        forceSent, forced := true, forceStop;
        physicalStop := Forcing;
      } else {
        physicalStop := Concluded(Uncertain);
      }
    }

    function ObservedStopState(): Exec
      requires closeEvidence.Some?
      reads this`forced, this`closeEvidence
    {
      if forced || closeEvidence.value.signalled then ForceTerminated else StopConfirmed
    }

    // ---- the settlement ------------------------------------------------------------------------

    /** The settlement's turn, where it waits for nothing else. */
    method PersistStop(p: Persist)
      requires Valid() && settlement == Some(p) && (p == AwaitingStop ==> physicalStop.Concluded?)
      modifies this`settlement, this`revocation, this`kernel
      ensures Valid() && Now() == Proceed(old(Now()), p)
    {
      hide Good, Proceed;
      ProceedKeeps(Now(), p);
      TakeTurn(p);
    }

    method TakeTurn(p: Persist)
      requires settlement == Some(p) && (p == AwaitingStop ==> physicalStop.Concluded?)
      modifies this`settlement, this`revocation, this`kernel
      ensures Now() == Proceed(old(Now()), p)
    {
      hide StopProtocol.PersistRevocation, RevokeLocally;
      match p
      case AwaitingStop =>
        var target := if closeEvidence.Some? then ObservedStopState() else physicalStop.verdict;
        if target != StopConfirmed {
          RevokeOnce();
        }
        PersistRevocation(false, target);
      case Settling(target) =>
        settlement := Some(if durablySettled && state == target then Logging else Calling(Read, target, None));
      case Logging => PersistRevocation(true, state);
      case Finishing(asked) =>
        settlement := Some(
          if revocation && Stopped(state) then Calling(Check(asked), state, None) else Returning(asked));
      case Returning(_) => settlement := None;
      case Calling(_, _, _) =>
    }

    /** The Kernel answered the settlement's call. */
    method AfterCall(call: Persist)
      requires Valid() && settlement == Some(call) && Answered(call)
      modifies this`settlement, this`retry, this`revocation, this`kernel, this`state, this`durablyRevoked,
               this`durablySettled
      ensures Valid() && Now() == Resume(old(Now()), call.op, call.target, call.answer.value)
    {
      hide Good, Resume;
      ResumeKeeps(Now(), call);
      GoOn(call.op, call.target, call.answer.value);
    }

    method GoOn(op: Op, target: Exec, answer: Answer)
      modifies this`settlement, this`retry, this`revocation, this`kernel, this`state, this`durablyRevoked,
               this`durablySettled
      ensures Now() == Resume(old(Now()), op, target, answer)
    {
      hide Reject, StopProtocol.AfterRead, StopProtocol.AfterRecord, At;
      match op
      case Revoke(last) =>
        durablyRevoked := true;
        Suspend(if last then Finishing(true) else Settling(target));
      case Read =>
        if answer.Tree? {
          AfterRead(target, answer.state);
        } else {
          PersistenceFailed();
        }
      case Record(recorded) => AfterRecord(recorded, target);
      case Check(asked) =>
        Suspend(if answer == LeaseIs(true) then Calling(Free(asked), target, None) else Returning(asked));
      case Free(asked) => Suspend(Returning(asked));
    }

    method Suspend(p: Persist)
      modifies this`settlement
      ensures Now() == At(old(Now()), p)
    {
      settlement := Some(p);
    }

    /** A call failed, before or after it took effect. */
    method AfterFailure()
      requires Valid() && settlement.Some?
      modifies this`settlement, this`retry, this`revocation, this`kernel
      ensures Valid() && Now() == Reject(old(Now()))
    {
      hide Reject;
      RejectKeeps(Now());
      PersistenceFailed();
    }

    // ---- private steps -------------------------------------------------------------------------

    method RevokeAndDrain()
      modifies this
      ensures Now() == StopProtocol.Stop(old(Now()))
    {
      RevokeOnce();
      Drain();
    }

    method RevokeOnce()
      modifies this`revocation, this`kernel
      ensures Now() == RevokeLocally(old(Now()))
    {
      if revocation {
        return;
      }
      revocation := true;
      kernel := kernel.(locallyRevoked := true);
    }

    method Drain()
      modifies this
      ensures Now() == StopProtocol.Drain(old(Now()))
    {
      hide Attribute, BeginStop, Join;
      retry := false;
      RecordCausality();
      BeginPhysicalStop();
      JoinSettlement();
    }

    method JoinSettlement()
      modifies this`settlement
      ensures Now() == Join(old(Now()))
    {
      if settlement.None? {
        settlement := Some(AwaitingStop);
      }
    }

    method BeginPhysicalStop()
      modifies this`physicalStop, this`stopSent
      ensures Now() == BeginStop(old(Now()))
    {
      hide BeginStop;
      if physicalStop.Idle? {
        StopProcess();
      } else {
        BeginsOnce(Now());
      }
    }

    method RecordCausality()
      modifies this`cancellation, this`cancellationCausalityRecorded
      ensures Now() == Attribute(old(Now()))
    {
      if cancellation.Some? && signal == Aborted(true) && !cancellationCausalityRecorded {
        cancellationCausalityRecorded := true;
        if providerExitObserved {
          cancellation := Some(RecordExited(cancellation.value, execution));
        } else if physicalStop.Idle? && !authorityStop {
          cancellation := Some(RecordOwned(cancellation.value, execution));
        }
      }
    }

    method StopProcess()
      requires physicalStop.Idle?
      modifies this`physicalStop, this`stopSent
      ensures Now() == BeginStop(old(Now()))
    {
      if !attached {
        physicalStop := Concluded(if spawnAttempted then Uncertain else StopConfirmed);
        return;
      }
      if closeEvidence.Some? {
        physicalStop := Concluded(ObservedStopState());
        return;
      }
      if !stopSent {
        stopSent := true;
      }
      physicalStop := Asked;
    }

    method PersistRevocation(last: bool, target: Exec)
      modifies this`settlement
      ensures Now() == StopProtocol.PersistRevocation(old(Now()), last, target)
    {
      if !revocation || durablyRevoked {
        settlement := Some(if last then Finishing(revocation) else Settling(target));
      } else {
        settlement := Some(Calling(Revoke(last), target, None));
      }
    }

    method AfterRead(target: Exec, recorded: Exec)
      modifies this`settlement, this`state, this`durablySettled
      ensures Now() == StopProtocol.AfterRead(old(Now()), target, recorded)
    {
      hide At;
      state := recorded;
      if Stopped(state) || state == target {
        durablySettled := true;
        Suspend(Logging);
      } else if attached && state != StopRequested && state != Uncertain {
        Suspend(Calling(Record(StopRequested), target, None));
      } else {
        Suspend(Calling(Record(target), target, None));
      }
    }

    method AfterRecord(recorded: Exec, target: Exec)
      modifies this`settlement, this`state, this`durablySettled
      ensures Now() == StopProtocol.AfterRecord(old(Now()), target, recorded)
    {
      hide At;
      state := recorded;
      if recorded == target {
        durablySettled := true;
        Suspend(Logging);
      } else {
        Suspend(Calling(Record(target), target, None));
      }
    }

    method PersistenceFailed()
      modifies this`settlement, this`retry, this`revocation, this`kernel
      ensures Now() == Reject(old(Now()))
    {
      settlement := None;
      RevokeOnce();
      retry := true;
    }
  }
}
