/**
 Stops that are asked for behind the back of a settlement that has taken its last look: what becomes of them,
 at each point where the settlement may be suspended, and the runs in which they are not honoured.
 */
module LateStops {
  import opened Sequences
  import opened Machines
  import opened StopProtocol
  import opened StopTheorems

  // ---- more that every run keeps ---------------------------------------------------------------

  /** The settlement is past its last look, and no stop had been asked for then. */
  ghost predicate Unaware(s: State) {
    s.handle.settlement.Some? && PastTheLook(s.handle.settlement.value) && !LookSaw(s.handle.settlement.value)
  }

  /** A stop was asked for, but its revocation is not durable and nothing is under way to make it so. */
  ghost predicate Dropped(s: State) {
    s.handle.revocation && !s.handle.durablyRevoked && s.handle.settlement.None? && !s.handle.retry
  }

  /** What is known of the lease while the settlement calls for its release. */
  ghost predicate LeaseHolds(op: Op, answer: Option<Answer>, lease: Lease) {
    && (op.Check? ==> answer != Some(Refused) && (answer == Some(LeaseIs(true)) ==> lease != Released))
    && (op.Free? ==> (answer.None? ==> lease != Released) && (answer == Some(Refused) ==> lease == Lost))
  }

  ghost predicate Orderly(s: State) {
    var h := s.handle;
    && (h.retry ==> h.revocation && h.settlement.None?)
    && (h.settlement.Some? && (!h.revocation || Unaware(s)) ==> h.start.Open?)
    && (Dropped(s) ==> h.start.Open?)
    && (h.settlement.Some? && h.settlement.value.Calling? ==>
          LeaseHolds(h.settlement.value.op, h.settlement.value.answer, s.kernel.lease))
  }

  /** The step leaves the settlement, the revocation and the lease alone. */
  ghost predicate Quiet(s: State, t: State) {
    var g, h := s.handle, t.handle;
    && h.settlement == g.settlement && h.retry == g.retry && t.kernel.lease == s.kernel.lease
    && h.revocation == g.revocation && h.durablyRevoked == g.durablyRevoked
    && (g.start.Open? ==> h.start.Open? && h.state == g.state)
  }

  /** The step joins the settlement, or begins one. */
  ghost predicate Joins(s: State, t: State) {
    var g, h := s.handle, t.handle;
    && h.settlement == (if g.settlement.Some? then g.settlement else Some(AwaitingStop)) && !h.retry
    && t.kernel.lease == s.kernel.lease && (g.revocation ==> h.revocation) && h.durablyRevoked == g.durablyRevoked
    && (g.start.Open? ==> h.start.Open? && h.state == g.state) && (h.revocation || h.start.Open?)
  }

  lemma BeginIsQuiet(s: State)
    ensures Quiet(s, BeginStop(s)) && BeginStop(s).handle.start == s.handle.start
  {
    hide Observed;
    if !s.handle.physical.Idle? {
    } else if !s.child.attached || s.child.evidence.Some? {
      var t := s.(handle := s.handle.(physical := BeginStop(s).handle.physical));
      assert BeginStop(s) == t;
    } else {
      assert BeginStop(s).handle == s.handle.(physical := Asked);
    }
  }

  lemma AttributeIsQuiet(s: State)
    ensures Quiet(s, Attribute(s)) && Attribute(s).handle == s.handle
  {
  }

  lemma DrainJoins(s: State)
    requires s.handle.revocation || s.handle.start.Open?
    ensures Joins(s, Drain(s)) && Drain(s).handle.revocation == s.handle.revocation
    ensures Drain(s).handle.start == s.handle.start
  {
    hide BeginStop, Attribute;
    var t := s.(handle := s.handle.(retry := false));
    AttributeIsQuiet(t);
    BeginIsQuiet(Attribute(t));
  }

  lemma StopJoins(s: State)
    ensures Joins(s, Stop(s)) && Stop(s).handle.revocation
  {
    hide Drain;
    DrainJoins(RevokeLocally(s));
  }

  lemma FailStartJoins(s: State)
    requires !s.handle.start.Open?
    ensures Joins(s, FailStart(s)) && FailStart(s).handle.revocation
  {
    hide Stop;
    StopJoins(s.(handle := s.handle.(start := Failed)));
  }

  /** The steps that are not the settlement's own. */
  lemma OtherStep(s: State, a: Step)
    requires Orderly(s) && Enabled(s, a) && !OfTheSettlement(a) && !a.LogFails? && !a.LoseLease?
    ensures (Quiet(s, Take(s, a)) && !a.AskStop?) || (Joins(s, Take(s, a)) && (a.AskStop? || !Dropped(s)))
  {
    hide Drain, Stop, FailStart, Attempt, Reject, Proceed, Resume;
    if a.SpawnRefused? || a.SpawnThrew? || a.Attach? {
      SpawnJoins(s, a);
    } else if Asks(a) {
      AskJoins(s, a);
    } else {
      WorldIsQuiet(s, a);
    }
    hide Take, Enabled;
  }

  lemma SpawnJoins(s: State, a: Step)
    requires Orderly(s) && Enabled(s, a) && (a.SpawnRefused? || a.SpawnThrew? || a.Attach?)
    ensures !Dropped(s) && (Quiet(s, Take(s, a)) || Joins(s, Take(s, a)))
  {
    hide FailStart;
    match a
    case SpawnRefused => FailStartJoins(s);
    case SpawnThrew(alive) => FailStartJoins(Attempt(s, s.child.attached, alive));
    case Attach(_) => FailStartJoins(Attempt(s, true, true));
  }

  lemma AskJoins(s: State, a: Step)
    requires Orderly(s) && Enabled(s, a) && Asks(a) && !a.LogFails?
    ensures (Quiet(s, Take(s, a)) && !a.AskStop?) || (Joins(s, Take(s, a)) && (a.AskStop? || !Dropped(s)))
  {
    hide Drain, Stop, FailStart, Attempt, Proceed, Resume, Reject;
    match a
    case StartReply(ok) =>
      StopJoins(s.(handle := s.handle.(start := Failed)));
      StopJoins(s.(handle := s.handle.(start := Open, state := Running)));
    case Abort(ofRun) => StopJoins(s.(signal := Aborted(ofRun)));
    case AskFinish => DrainJoins(s);
    case AskRetry => DrainJoins(s);
    case _ => StopJoins(s);
  }

  lemma WorldIsQuiet(s: State, a: Step)
    requires Enabled(s, a) && OutsideTheHandle(a) && !a.LoseLease?
    ensures Quiet(s, Take(s, a))
  {
  }

  // ---- the settlement's own steps --------------------------------------------------------------

  /** Where the settlement stands and what it can see. */
  ghost predicate SameSight(s: State, t: State) {
    && t.handle.start == s.handle.start && t.kernel.lease == s.kernel.lease && t.handle.retry == s.handle.retry
    && t.handle.durablyRevoked == s.handle.durablyRevoked
    && (s.handle.revocation ==> t.handle.revocation)
  }

  /** How the settlement moves on: it forgets no stop it saw, and calls before it waits for a reply. */
  ghost predicate MovesOn(p: Persist, q: Option<Persist>, revocation: bool) {
    && (q.None? <==> p.Returning?)
    && (q.Some? && PastTheLook(q.value) && !LookSaw(q.value) ==> (PastTheLook(p) && !LookSaw(p)) || !revocation)
    && (PastTheLook(p) && q.Some? ==> PastTheLook(q.value) && LookSaw(q.value) == LookSaw(p))
    && (q.Some? && q.value.Calling? ==> q.value.answer.None? && !q.value.op.Free?)
  }

  lemma RevocationMovesOn(s: State, last: bool, target: Exec)
    ensures var t := PersistRevocation(s, last, target);
      && SameSight(s, t) && t.handle.settlement.Some? && !t.handle.settlement.value.Returning?
      && (PastTheLook(t.handle.settlement.value) ==> LookSaw(t.handle.settlement.value) == s.handle.revocation)
      && (t.handle.settlement.value.Calling? ==>
            t.handle.settlement.value.answer.None? && t.handle.settlement.value.op.Revoke?)
  {
  }

  lemma GoMovesOn(s: State, p: Persist)
    requires !p.Calling? && (p == AwaitingStop ==> s.handle.physical.Concluded?)
    ensures var t := Proceed(s, p); SameSight(s, t) && MovesOn(p, t.handle.settlement, s.handle.revocation)
    ensures PastTheLook(p) ==> Proceed(s, p).handle.revocation == s.handle.revocation
  {
    hide PersistRevocation, RevokeLocally;
    match p
    case AwaitingStop =>
      var target := if s.child.evidence.Some? then Observed(s.child) else s.handle.physical.verdict;
      RevokedSight(s);
      RevocationMovesOn(s, false, target);
      RevocationMovesOn(RevokeLocally(s), false, target);
    case Logging => RevocationMovesOn(s, true, s.handle.state);
    case _ =>
  }

  lemma RevokedSight(s: State)
    ensures SameSight(s, RevokeLocally(s))
  {
  }

  lemma GoIsOrderly(s: State)
    requires Good(s) && Orderly(s) && Enabled(s, Go)
    ensures var t := Take(s, Go); Orderly(t) && SameSight(s, t)
    ensures Dropped(Take(s, Go)) <==> s.handle.settlement == Some(Returning(false)) && s.handle.revocation
  {
    hide Good, Proceed;
    ReturningKnows(s);
    if s.handle.settlement.value.Calling? { WaitsForReply(s, s.handle.settlement.value); }
    else { GoMovesOn(s, s.handle.settlement.value); }
  }

  lemma WaitsForReply(s: State, p: Persist)
    requires p.Calling?
    ensures Proceed(s, p) == s
  {
  }

  lemma ReturningKnows(s: State)
    requires Good(s)
    ensures s.handle.settlement.Some? && s.handle.settlement.value.Returning? ==>
      s.handle.settlement.value.asked == s.handle.durablyRevoked
  {
  }

  lemma RejectIsOrderly(s: State)
    requires Orderly(s) && s.handle.settlement.Some?
    ensures Orderly(Reject(s)) && !Dropped(Reject(s))
  {
  }

  lemma LogFailureIsOrderly(s: State)
    requires Orderly(s) && Enabled(s, LogFails)
    ensures Orderly(Take(s, LogFails)) && !Dropped(Take(s, LogFails))
  {
    hide Orderly, Reject;
    RejectIsOrderly(s);
  }

  lemma ExpiryIsOrderly(s: State)
    requires Orderly(s) && Enabled(s, LeaseExpired)
    ensures Orderly(Take(s, LeaseExpired)) && !Dropped(Take(s, LeaseExpired))
  {
  }

  lemma ActIsOrderly(s: State)
    requires Good(s) && Orderly(s) && Enabled(s, KernelActs)
    ensures Orderly(Take(s, KernelActs)) && !Dropped(Take(s, KernelActs))
  {
    hide ChildHolds, PhysicalHolds, VerdictHolds, RecordState;
  }

  /** After a reading or recording reply the settlement logs, or records, and the rest is as it was. */
  ghost predicate Records(s: State, t: State) {
    && SameSight(s, t) && t.handle.revocation == s.handle.revocation && t.handle.settlement.Some?
    && match t.handle.settlement.value
       case Logging => true
       case Calling(op, _, answer) => op.Record? && answer.None?
       case _ => false
  }

  lemma NoteRecords(s: State, state: Exec, settled: bool, p: Persist)
    requires p.Logging? || (p.Calling? && p.op.Record? && p.answer.None?)
    ensures Records(s, At(s.(handle := s.handle.(state := state, durablySettled := settled)), p))
  {
  }

  lemma ReadRecords(s: State, target: Exec, state: Exec)
    ensures Records(s, AfterRead(s, target, state)) && Records(s, AfterRecord(s, target, state))
  {
    hide Records, At;
    NoteRecords(s, state, true, Logging);
    NoteRecords(s, target, true, Logging);
    NoteRecords(s, state, s.handle.durablySettled, Calling(Record(StopRequested), target, None));
    NoteRecords(s, state, s.handle.durablySettled, Calling(Record(target), target, None));
  }

  lemma RecordsIsOrderly(s: State, t: State)
    requires Orderly(s) && s.handle.settlement.Some? && Records(s, t)
    ensures Orderly(t) && !Dropped(t)
  {
  }

  lemma ReplyIsOrderly(s: State, ok: bool)
    requires Good(s) && Orderly(s) && Enabled(s, Reply(ok))
    ensures Orderly(Take(s, Reply(ok))) && !Dropped(Take(s, Reply(ok)))
  {
    hide Good, Reject, AfterRead, AfterRecord, Records;
    var p := s.handle.settlement.value;
    if !ok {
      RejectIsOrderly(s);
    } else if p.op.Read? {
      AnswerFits(s);
      ReadRecords(s, p.target, p.answer.value.state);
      RecordsIsOrderly(s, AfterRead(s, p.target, p.answer.value.state));
    } else if p.op.Record? {
      ReadRecords(s, p.target, p.op.state);
      RecordsIsOrderly(s, AfterRecord(s, p.target, p.op.state));
    } else {
      AnswerFits(s);
    }
  }

  lemma AnswerFits(s: State)
    requires Good(s) && s.handle.settlement.Some? && Answered(s.handle.settlement.value)
    ensures var p := s.handle.settlement.value;
      (p.op.Read? ==> p.answer.value.Tree?) && (p.op.Check? ==> p.answer.value.LeaseIs?)
  {
  }

  lemma LossIsOrderly(s: State)
    requires Orderly(s) && Enabled(s, LoseLease)
    ensures Orderly(Take(s, LoseLease)) && (Dropped(Take(s, LoseLease)) <==> Dropped(s))
  {
  }

  lemma OtherIsOrderly(s: State, t: State)
    requires Orderly(s) && (Quiet(s, t) || Joins(s, t))
    ensures Orderly(t) && (Quiet(s, t) ==> (Dropped(t) <==> Dropped(s))) && (Joins(s, t) ==> !Dropped(t))
  {
  }

  /** Every step keeps the order; and a stop is dropped exactly when a settlement returns that did not see it,
      and stays so exactly until it is asked for again. */
  lemma StepIsOrderly(s: State, a: Step)
    requires Good(s) && Orderly(s) && Enabled(s, a)
    ensures Orderly(Take(s, a))
    ensures Dropped(Take(s, a)) <==>
      (Dropped(s) && !a.AskStop?) || (a.Go? && s.handle.settlement == Some(Returning(false)) && s.handle.revocation)
  {
    hide Good, Take, Orderly, Quiet, Joins;
    if a.Go? { GoIsOrderly(s); }
    else if a.KernelActs? { ActIsOrderly(s); }
    else if a.Reply? { ReplyIsOrderly(s, a.ok); }
    else if a.LeaseExpired? { ExpiryIsOrderly(s); }
    else if a.LogFails? { LogFailureIsOrderly(s); }
    else if a.LoseLease? { LossIsOrderly(s); }
    else {
      OtherStep(s, a);
      OtherIsOrderly(s, Take(s, a));
    }
  }

  /** Every run keeps the order. */
  lemma EveryRunIsOrderly(execution: nat, cancellation: Option<Interruption>, steps: seq<Step>)
    requires Unused(cancellation, execution) && Legal(Writer(), Fresh(execution, cancellation), steps)
    ensures Orderly(After(Writer(), Fresh(execution, cancellation), steps))
  {
    var inv := (s: State) => Good(s) && Orderly(s);
    forall s: State, a: Step | inv(s) && Writer().enabled(s, a) ensures inv(Writer().next(s, a)) {
      TakeKeeps(s, a);
      StepIsOrderly(s, a);
    }
    hide Good, Orderly, Take, Enabled;
    FreshIsOrderly(execution, cancellation);
    RunKeeps(Writer(), inv, Fresh(execution, cancellation), steps);
  }

  lemma FreshIsOrderly(execution: nat, cancellation: Option<Interruption>)
    requires Unused(cancellation, execution)
    ensures Good(Fresh(execution, cancellation)) && Orderly(Fresh(execution, cancellation))
  {
  }

  // ---- one settlement --------------------------------------------------------------------------

  /** The settlement under way neither fails nor returns. */
  ghost predicate Continues(s: State, a: Step) {
    s.handle.settlement.Some? && !a.LogFails? && a != Reply(false) && !(a.Go? && s.handle.settlement.value.Returning?)
  }

  /** The runs in which one settlement goes on, whatever else happens; `undisturbed`: the lease is not lost. */
  ghost function OneSettlement(undisturbed: bool): Machine<State, Step> {
    Machine((s, a) => Enabled(s, a) && Continues(s, a) && !(undisturbed && a.LoseLease?),
            (s: State, a: Step) => if Enabled(s, a) then Take(s, a) else s)
  }

  ghost predicate Returns(s: State) {
    s.handle.settlement.Some? && s.handle.settlement.value.Returning?
  }

  /** A settlement sees what it saw at its last look, and nothing more. */
  lemma SightStays(s: State, a: Step)
    requires Good(s) && Orderly(s) && Enabled(s, a) && Continues(s, a) && s.handle.revocation
    ensures var t := Take(s, a);
      t.handle.revocation && t.handle.settlement.Some? && (Unaware(t) <==> Unaware(s))
  {
    hide Good, Orderly, Proceed, AfterRead, AfterRecord;
    if a.Go? {
      if s.handle.settlement.value.Calling? { WaitsForReply(s, s.handle.settlement.value); }
      else { GoMovesOn(s, s.handle.settlement.value); }
    } else if a.Reply? {
      ReplyStays(s);
    } else if a.KernelActs? || a.LeaseExpired? || a.LoseLease? {
    } else {
      OtherStep(s, a);
      hide Take, Enabled;
    }
  }

  lemma ReplyStays(s: State)
    requires Good(s) && Enabled(s, Reply(true)) && s.handle.revocation
    ensures var t := Take(s, Reply(true));
      t.handle.revocation && t.handle.settlement.Some? && (Unaware(t) <==> Unaware(s))
  {
    hide Good, AfterRead, AfterRecord, Reject, Unaware, Records;
    var p := s.handle.settlement.value;
    AnswerFits(s);
    if p.op.Read? {
      ReadRecords(s, p.target, p.answer.value.state);
      RecordsStays(s, AfterRead(s, p.target, p.answer.value.state));
    } else if p.op.Record? {
      ReadRecords(s, p.target, p.op.state);
      RecordsStays(s, AfterRecord(s, p.target, p.op.state));
    } else {
      LookStays(s);
    }
  }

  lemma RecordsStays(s: State, t: State)
    requires Records(s, t) && s.handle.revocation && s.handle.settlement.Some?
    requires !PastTheLook(s.handle.settlement.value)
    ensures t.handle.revocation && t.handle.settlement.Some? && !Unaware(t) && !Unaware(s)
  {
  }

  lemma LookStays(s: State)
    requires Enabled(s, Reply(true)) && s.handle.revocation
    requires !s.handle.settlement.value.op.Read? && !s.handle.settlement.value.op.Record?
    ensures var t := Take(s, Reply(true));
      t.handle.revocation && t.handle.settlement.Some? && (Unaware(t) <==> Unaware(s))
  {
    hide Reject, AfterRead, AfterRecord;
  }

  /** Past the last look, whether the lease will be released is settled by these. */
  ghost predicate WillRelease(s: State)
    requires s.handle.settlement.Some?
  {
    s.kernel.lease == Active &&
    match s.handle.settlement.value
    case Finishing(_) => Stopped(s.handle.state)
    case Calling(op, _, answer) =>
      (op.Check? && (answer.None? || answer == Some(LeaseIs(true)))) || (op.Free? && answer.None?)
    case _ => false
  }

  ghost predicate Outcome(s: State)
    requires s.handle.settlement.Some?
  {
    s.kernel.lease == Released || WillRelease(s)
  }

  lemma OutcomeStays(s: State, a: Step)
    requires Good(s) && Orderly(s) && Enabled(s, a) && Continues(s, a) && s.handle.revocation && Unaware(s)
    requires !a.LoseLease?
    ensures var t := Take(s, a); t.handle.settlement.Some? && (Outcome(t) <==> Outcome(s))
  {
    SightStays(s, a);
    if OfTheSettlement(a) {
      SettlementOutcome(s, a);
    } else {
      hide Take, Enabled, Good;
      OtherStep(s, a);
    }
  }

  lemma SettlementOutcome(s: State, a: Step)
    requires Good(s) && Orderly(s) && Enabled(s, a) && Continues(s, a) && s.handle.revocation && Unaware(s)
    requires OfTheSettlement(a)
    ensures var t := Take(s, a); t.handle.settlement.Some? && (Outcome(t) <==> Outcome(s))
  {
    hide Good, PersistRevocation, AfterRead, AfterRecord, Outcome, Reject;
    CallIsFit(s);
    if a.Go? { GoOutcome(s); }
    else if a.KernelActs? { ActOutcome(s); }
    else { ReplyOutcome(s, a); }
  }

  /** The calls of a settlement that is past its last look. */
  ghost predicate FitCall(s: State) {
    s.handle.settlement.Some? && s.handle.settlement.value.Calling? ==>
      && Stopped(s.kernel.state)
      && (s.handle.settlement.value.answer == Some(LeaseIs(false)) ==> s.kernel.lease != Active)
      && (s.handle.settlement.value.op.Free? && s.handle.settlement.value.answer.Some? ==> s.kernel.lease != Active)
  }

  lemma CallIsFit(s: State)
    requires Good(s) && Orderly(s) && Unaware(s)
    ensures FitCall(s)
  {
    hide ChildHolds, PhysicalHolds, VerdictHolds;
  }

  lemma GoOutcome(s: State)
    requires Enabled(s, Go) && Continues(s, Go) && s.handle.revocation && Unaware(s)
    ensures var t := Take(s, Go); t.handle.settlement.Some? && (Outcome(t) <==> Outcome(s))
  {
    hide PersistRevocation;
  }

  lemma ActOutcome(s: State)
    requires Orderly(s) && FitCall(s) && Enabled(s, KernelActs) && Unaware(s)
    ensures var t := Take(s, KernelActs); t.handle.settlement.Some? && (Outcome(t) <==> Outcome(s))
  {
    hide RecordState;
  }

  lemma ReplyOutcome(s: State, a: Step)
    requires FitCall(s) && Enabled(s, a) && Unaware(s) && (a == Reply(true) || a.LeaseExpired?)
    ensures var t := Take(s, a); t.handle.settlement.Some? && (Outcome(t) <==> Outcome(s))
  {
    hide Reject, AfterRead, AfterRecord, Stop, Drain, FailStart, Attempt, RevokeLocally;
  }

  ghost predicate Underway(s: State) {
    Good(s) && Orderly(s) && s.handle.revocation && s.handle.settlement.Some?
  }

  lemma StaysUnderway(s: State, a: Step)
    requires Underway(s) && Enabled(s, a) && Continues(s, a)
    ensures Underway(Take(s, a)) && (Unaware(Take(s, a)) <==> Unaware(s))
  {
    TakeKeeps(s, a);
    StepIsOrderly(s, a);
    SightStays(s, a);
    hide Good, Orderly, Take, Enabled;
  }

  /** When a settlement returns, the revocation is durable exactly if the stop was asked for in time; and if
      not, the stop is dropped: nothing will make it durable until somebody asks again. This holds from every
      point of every settlement, whatever happens meanwhile. */
  lemma DurableExactlyWhenInTime(s: State, steps: seq<Step>)
    requires Good(s) && Orderly(s) && s.handle.revocation && s.handle.settlement.Some?
    requires Legal(OneSettlement(false), s, steps) && Returns(After(OneSettlement(false), s, steps))
    ensures var t := After(OneSettlement(false), s, steps);
      && (t.handle.durablyRevoked <==> InTime(s))
      && Enabled(t, Go) && (Dropped(Take(t, Go)) <==> !InTime(s))
  {
    var m := OneSettlement(false);
    var inv := (x: State) => Underway(x) && (Unaware(x) <==> Unaware(s));
    forall x: State, a: Step | inv(x) && m.enabled(x, a) ensures inv(m.next(x, a)) {
      StaysUnderway(x, a);
    }
    assert InTime(s) <==> !Unaware(s);
    hide Take, Good, Orderly, Unaware, InTime;
    RunKeeps(m, inv, s, steps);
    ReturnsAware(After(m, s, steps));
  }

  lemma ReturnsAware(t: State)
    requires Underway(t) && Returns(t)
    ensures t.handle.durablyRevoked <==> !Unaware(t)
    ensures Enabled(t, Go) && (Dropped(Take(t, Go)) <==> Unaware(t))
  {
    hide Orderly, Good, Take;
    ReturningKnows(t);
    GoIsOrderly(t);
  }

  /** A late stop at each point where it can find the settlement: its lease is released by that settlement
      exactly if it already was or `WillRelease` says so, and it is not durable in any case. */
  lemma LateStopOutcome(s: State, steps: seq<Step>)
    requires Good(s) && Orderly(s) && s.handle.revocation && Unaware(s)
    requires Legal(OneSettlement(true), s, steps) && Returns(After(OneSettlement(true), s, steps))
    ensures var t := After(OneSettlement(true), s, steps);
      && (t.kernel.lease == Released <==> s.kernel.lease == Released || WillRelease(s))
      && !t.handle.durablyRevoked
      && Enabled(t, Go) && Dropped(Take(t, Go))
  {
    var m := OneSettlement(true);
    var inv := (x: State) => Underway(x) && Unaware(x) && (Outcome(x) <==> Outcome(s));
    forall x: State, a: Step | inv(x) && m.enabled(x, a) ensures inv(m.next(x, a)) {
      StaysUnderway(x, a);
      OutcomeStays(x, a);
    }
    hide Take, Good, Orderly, Unaware;
    RunKeeps(m, inv, s, steps);
    ReturnsAware(After(m, s, steps));
  }

  /** What the settlement does next when nothing fails. */
  ghost function Quietly(p: Persist): Step {
    if p.Calling? && p.answer.None? then KernelActs
    else if p.Calling? && p.answer == Some(Refused) then LeaseExpired
    else if p.Calling? then Reply(true)
    else Go
  }

  ghost function Distance(p: Persist): nat {
    match p
    case Finishing(_) => 5
    case Calling(op, _, answer) => (if op.Check? then 3 else 1) + (if answer.None? then 1 else 0)
    case _ => 0
  }

  lemma QuietlyOn(s: State)
    requires Underway(s) && Unaware(s) && !Returns(s)
    ensures var p := s.handle.settlement.value; var a := Quietly(p);
      && Enabled(s, a) && Continues(s, a) && !a.LoseLease?
      && Take(s, a).kernel.revoked == s.kernel.revoked
      && Take(s, a).handle.settlement.Some? && Distance(Take(s, a).handle.settlement.value) < Distance(p)
  {
    hide ChildHolds, KernelHolds, PhysicalHolds, VerdictHolds, HandleHolds;
  }

  ghost predicate ReturnsSilently(s: State, t: State) {
    Returns(t) && t.kernel.revoked == s.kernel.revoked
  }

  /** Such a settlement does return, when nothing fails, and tells the Kernel of no revocation. */
  lemma {:induction false} LateStopReturns(s: State)
    requires Good(s) && Orderly(s) && s.handle.revocation && Unaware(s)
    ensures exists steps ::
      Legal(OneSettlement(true), s, steps) && ReturnsSilently(s, After(OneSettlement(true), s, steps))
    decreases Distance(s.handle.settlement.value)
  {
    hide Good, Orderly, Take, Enabled, Distance, Quietly, Continues;
    var m := OneSettlement(true);
    if Returns(s) {
      assert Legal(m, s, []) && After(m, s, []) == s;
    } else {
      QuietlyOn(s);
      var a := Quietly(s.handle.settlement.value);
      StaysUnderway(s, a);
      LateStopReturns(Take(s, a));
      var rest :| Legal(m, Take(s, a), rest) && ReturnsSilently(Take(s, a), After(m, Take(s, a), rest));
      assert ([a] + rest)[1..] == rest && ([a] + rest)[0] == a;
      assert Legal(m, s, [a] + rest) && After(m, s, [a] + rest) == After(m, Take(s, a), rest);
    }
  }

  // ---- two runs ---------------------------------------------------------------------------------

  lemma LeadsFour(s: State, a: Step, t: State, b: Step, u: State, c: Step, v: State, d: Step, w: State)
    requires Enabled(s, a) && Take(s, a) == t && Enabled(t, b) && Take(t, b) == u
    requires Enabled(u, c) && Take(u, c) == v && Enabled(v, d) && Take(v, d) == w
    ensures Leads(Writer(), s, [a, b, c, d], w)
  {
    hide Enabled, Take, Leads;
    var m := Writer();
    LeadsOne(m, s, a, t);
    LeadsOne(m, t, b, u);
    LeadsOne(m, u, c, v);
    LeadsOne(m, v, d, w);
    LeadsOn(m, s, [a], t, [b], u);
    LeadsOn(m, s, [a] + [b], u, [c], v);
    LeadsOn(m, s, [a] + [b] + [c], v, [d], w);
    assert [a] + [b] + [c] + [d] == [a, b, c, d];
  }

  const Normally := Evidence(true, false)

  /** A child that was started, asked to finish, and has just ended by itself. */
  function Ended(x: nat, recorded: Exec, noted: Exec, settled: bool, settlement: Persist): State {
    State(Kernel(recorded, false, false, Active, false),
          Child(true, true, false, Some(Normally), false, true, false, false),
          Handle(noted, false, false, settled, Concluded(StopConfirmed), Some(settlement), false, Open, false),
          None, x, Unaborted, false)
  }

  /** The same, once a stop was asked for. */
  function Late(x: nat, lease: Lease, settlement: Persist): State {
    var s := Ended(x, StopConfirmed, StopConfirmed, true, settlement);
    s.(kernel := s.kernel.(locallyRevoked := true, lease := lease), handle := s.handle.(revocation := true))
  }

  const Begin := [Attach(true), KernelStarts, StartReply(true), AskFinish]
  const End := [Dies, Closes(Normally), SeeClose, Go]
  const Recording := [Go, KernelActs, Reply(true), KernelActs]
  const Settlement := [Reply(true), KernelActs, Reply(true), Go]
  const Release := [AskStop, Go, KernelActs, Reply(true)]

  /** The same while the child still runs and has been asked to stop. */
  function Asking(x: nat): State {
    var s := Ended(x, Running, Running, false, AwaitingStop);
    s.(child := s.child.(alive := true, evidence := None), handle := s.handle.(physical := Asked))
  }

  lemma FinishBegins(x: nat)
    ensures Leads(Writer(), Fresh(x, None), Begin, Asking(x))
  {
    var s := Fresh(x, None);
    var a := Take(s, Attach(true));
    var b := Take(a, KernelStarts);
    var c := Take(b, StartReply(true));
    LeadsFour(s, Attach(true), a, KernelStarts, b, StartReply(true), c, AskFinish, Asking(x));
  }

  lemma FinishEnds(x: nat)
    ensures Leads(Writer(), Asking(x), End, Ended(x, Running, Running, false, Settling(StopConfirmed)))
  {
    var d := Asking(x);
    var e := Take(d, Dies);
    var f := Take(e, Closes(Normally));
    var g := Take(f, SeeClose);
    var h := Take(g, Go);
    LeadsFour(d, Dies, e, Closes(Normally), f, SeeClose, g, Go, h);
  }

  lemma Goes(s: State, p: Persist)
    requires s.handle.settlement == Some(p) && p != AwaitingStop
    ensures Enabled(s, Go) && Take(s, Go) == Proceed(s, p)
  {
  }

  lemma Acts(s: State, op: Op, target: Exec)
    requires s.handle.settlement == Some(Calling(op, target, None))
    ensures Enabled(s, KernelActs)
    ensures Take(s, KernelActs) ==
      At(s.(kernel := Perform(s.kernel, op).0), Calling(op, target, Some(Perform(s.kernel, op).1)))
  {
    hide Perform;
  }

  lemma Replies(s: State, op: Op, target: Exec, answer: Answer)
    requires s.handle.settlement == Some(Calling(op, target, Some(answer))) && answer != Refused
    ensures Enabled(s, Reply(true)) && Take(s, Reply(true)) == Resume(s, op, target, answer)
  {
    hide Resume;
  }

  lemma FinishRequests(x: nat)
    ensures Leads(Writer(), Ended(x, Running, Running, false, Settling(StopConfirmed)), Recording,
                  Ended(x, StopRequested, Running, false, Calling(Record(StopRequested), StopConfirmed, Some(Applied))))
  {
    hide Take, Enabled, Leads;
    var a := Ended(x, Running, Running, false, Settling(StopConfirmed));
    var b := Ended(x, Running, Running, false, Calling(Read, StopConfirmed, None));
    var c := Ended(x, Running, Running, false, Calling(Read, StopConfirmed, Some(Tree(Running))));
    var d := Ended(x, Running, Running, false, Calling(Record(StopRequested), StopConfirmed, None));
    Goes(a, Settling(StopConfirmed));
    Acts(b, Read, StopConfirmed);
    Replies(c, Read, StopConfirmed, Tree(Running));
    Acts(d, Record(StopRequested), StopConfirmed);
    LeadsFour(a, Go, b, KernelActs, c, Reply(true), d, KernelActs,
              Ended(x, StopRequested, Running, false, Calling(Record(StopRequested), StopConfirmed, Some(Applied))));
  }

  lemma FinishRecords(x: nat)
    ensures Leads(Writer(),
                  Ended(x, StopRequested, Running, false, Calling(Record(StopRequested), StopConfirmed, Some(Applied))),
                  Settlement, Ended(x, StopConfirmed, StopConfirmed, true, Finishing(false)))
  {
    hide Take, Enabled, Leads;
    var a := Ended(x, StopRequested, Running, false, Calling(Record(StopRequested), StopConfirmed, Some(Applied)));
    var b := Ended(x, StopRequested, StopRequested, false, Calling(Record(StopConfirmed), StopConfirmed, None));
    var c :=
      Ended(x, StopConfirmed, StopRequested, false, Calling(Record(StopConfirmed), StopConfirmed, Some(Applied)));
    var d := Ended(x, StopConfirmed, StopConfirmed, true, Logging);
    Replies(a, Record(StopRequested), StopConfirmed, Applied);
    Acts(b, Record(StopConfirmed), StopConfirmed);
    Replies(c, Record(StopConfirmed), StopConfirmed, Applied);
    Goes(d, Logging);
    LeadsFour(a, Reply(true), b, KernelActs, c, Reply(true), d,
              Go, Ended(x, StopConfirmed, StopConfirmed, true, Finishing(false)));
  }

  lemma LateStopAsks(x: nat)
    ensures var s := Ended(x, StopConfirmed, StopConfirmed, true, Finishing(false));
      Enabled(s, AskStop) && Take(s, AskStop) == Late(x, Active, Finishing(false))
  {
  }

  lemma LateStopReleases(x: nat)
    ensures Leads(Writer(), Ended(x, StopConfirmed, StopConfirmed, true, Finishing(false)), Release + [KernelActs],
                  Late(x, Released, Calling(Free(false), StopConfirmed, Some(Applied))))
  {
    hide Take, Enabled, Leads;
    var s := Ended(x, StopConfirmed, StopConfirmed, true, Finishing(false));
    var a := Late(x, Active, Finishing(false));
    var b := Late(x, Active, Calling(Check(false), StopConfirmed, None));
    var c := Late(x, Active, Calling(Check(false), StopConfirmed, Some(LeaseIs(true))));
    var d := Late(x, Active, Calling(Free(false), StopConfirmed, None));
    var e := Late(x, Released, Calling(Free(false), StopConfirmed, Some(Applied)));
    LateStopAsks(x);
    Goes(a, Finishing(false));
    Acts(b, Check(false), StopConfirmed);
    Replies(c, Check(false), StopConfirmed, LeaseIs(true));
    Acts(d, Free(false), StopConfirmed);
    LeadsFour(s, AskStop, a, Go, b, KernelActs, c, Reply(true), d);
    LeadsOne(Writer(), d, KernelActs, e);
    LeadsOn(Writer(), s, Release, d, [KernelActs], e);
  }

  lemma EndsNormally(x: nat)
    ensures Leads(Writer(), Fresh(x, None), Begin + End + (Recording + Settlement),
                  Ended(x, StopConfirmed, StopConfirmed, true, Finishing(false)))
  {
    hide Leads;
    FinishBegins(x);
    FinishEnds(x);
    FinishRequests(x);
    FinishRecords(x);
    LeadsOn(Writer(), Ended(x, Running, Running, false, Settling(StopConfirmed)), Recording,
            Ended(x, StopRequested, Running, false, Calling(Record(StopRequested), StopConfirmed, Some(Applied))),
            Settlement, Ended(x, StopConfirmed, StopConfirmed, true, Finishing(false)));
    LeadsOn(Writer(), Fresh(x, None), Begin, Asking(x),
            End, Ended(x, Running, Running, false, Settling(StopConfirmed)));
    LeadsOn(Writer(), Fresh(x, None), Begin + End, Ended(x, Running, Running, false, Settling(StopConfirmed)),
            Recording + Settlement, Ended(x, StopConfirmed, StopConfirmed, true, Finishing(false)));
  }

  /** The failing case: a finishing child ends normally, a stop is asked for between the settlement's last
      look and its release, and the lease is released while no revocation is durable. */
  lemma LateStopReleasesWithoutDurableRevocation(x: nat)
    ensures var s := Late(x, Released, Calling(Free(false), StopConfirmed, Some(Applied)));
      && Leads(Writer(), Fresh(x, None), Begin + End + (Recording + Settlement) + (Release + [KernelActs]), s)
      && s.kernel.lease == Released && s.handle.revocation && !s.kernel.revoked && !s.handle.durablyRevoked
  {
    hide Leads;
    EndsNormally(x);
    LateStopReleases(x);
    LeadsOn(Writer(), Fresh(x, None), Begin + End + (Recording + Settlement),
            Ended(x, StopConfirmed, StopConfirmed, true, Finishing(false)), Release + [KernelActs],
            Late(x, Released, Calling(Free(false), StopConfirmed, Some(Applied))));
  }

  /** The handle after the settlement that did not see the stop. */
  ghost function Unheard(x: nat): State {
    var s := Late(x, Active, Returning(false));
    s.(handle := s.handle.(settlement := None))
  }

  /** The other failing case: the stop is asked for once the settlement is about to return; it joins that
      settlement, which returns, and nothing comes of it. */
  lemma LateStopIsDropped(x: nat)
    ensures var s := Unheard(x);
      && Leads(Writer(), Fresh(x, None), Begin + End + (Recording + Settlement) + [Go, AskStop, Go], s)
      && Dropped(s) && s.kernel.lease == Active && !s.kernel.revoked
  {
    hide Leads;
    EndsNormally(x);
    var s := Ended(x, StopConfirmed, StopConfirmed, true, Finishing(false));
    var a := Ended(x, StopConfirmed, StopConfirmed, true, Returning(false));
    var b := Late(x, Active, Returning(false));
    LeadsOne(Writer(), s, Go, a);
    LeadsOne(Writer(), a, AskStop, b);
    LeadsOne(Writer(), b, Go, Unheard(x));
    LeadsOn(Writer(), s, [Go], a, [AskStop], b);
    LeadsOn(Writer(), s, [Go] + [AskStop], b, [Go], Unheard(x));
    assert [Go] + [AskStop] + [Go] == [Go, AskStop, Go];
    LeadsOn(Writer(), Fresh(x, None), Begin + End + (Recording + Settlement), s, [Go, AskStop, Go], Unheard(x));
  }
}
