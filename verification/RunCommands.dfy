/**
 A Human's Run controls: requests kept until their outcome is certain, written to the window's storage
 before they are sent, and a server that looks a request's key up before it checks anything else.

 The network may lose, delay or reorder messages and replies; storage may fail; the window may reload.
 */
module RunCommands {
  import opened Sequences
  import opened Machines

  /** Cancel a Run, or withdraw one of its inputs. */
  datatype Target = Target(run: string, input: Option<string>)

  datatype Request = Request(key: string, target: Target, revision: nat, disposition: nat)

  datatype Receipt = Receipt(target: Target, revision: nat, runRevision: nat)

  datatype Code =
    | StaleRevision | TerminalRun | InvalidCommand | Forbidden | NotFound | Conflict | InvalidRequest | TooLarge

  /** What comes back: a body, an error of the server, a failed authentication, or anything else. */
  datatype Reply = Accepted(receipt: Receipt) | Refused(code: Code) | Unauthenticated | Broken

  // ---- the window ------------------------------------------------------------------------------

  datatype Status = Draft | Submitting | Unknown | AuthRequired | Rejected | Submitted

  datatype Projection = Settled | Refreshing | Failed

  datatype Ack = Ack(request: Request, principal: string, receipt: Receipt)

  datatype Entry = Entry(
    draft: string, status: Status, request: Option<Request>, principal: Option<string>, uncertain: bool,
    error: Option<string>, rejectionCode: Option<Code>, rejectedRevision: Option<nat>, reviewRequired: bool,
    acknowledged: Option<Ack>, projection: Projection)

  const EmptyEntry := Entry("", Draft, None, None, false, None, None, None, false, None, Settled)

  /** What storage holds about one target. */
  datatype Saved = Saved(request: Request, principal: string, receipt: Option<Receipt>)

  /** A submission in progress: the send it awaits, and the entry it captured. */
  datatype Flight = Flight(send: nat, pending: Entry)

  datatype Window = Window(
    entries: map<Target, Entry>, versions: map<Target, nat>, blocked: bool, awaiting: map<Target, Flight>)

  function EntryOf(w: Window, t: Target): Entry {
    if t in w.entries then w.entries[t] else EmptyEntry
  }

  function VersionOf(w: Window, t: Target): nat {
    if t in w.versions then w.versions[t] else 0
  }

  predicate Kept(e: Entry) {
    e.request.Some? || e.acknowledged.Some?
  }

  function SavedOf(e: Entry): Saved
    requires Kept(e)
  {
    if e.request.Some? then
      Saved(e.request.value, if e.principal.Some? then e.principal.value else "", None)
    else
      Saved(e.acknowledged.value.request, e.acknowledged.value.principal, Some(e.acknowledged.value.receipt))
  }

  function Persisted(entries: map<Target, Entry>): map<Target, Saved> {
    map t | t in entries && Kept(entries[t]) :: SavedOf(entries[t])
  }

  /** What a reload makes of a saved record: pending requests are of unknown outcome. */
  function Restored(s: Saved): Entry {
    match s.receipt
    case None =>
      EmptyEntry.(request := Some(s.request), principal := Some(s.principal), status := Unknown, uncertain := true)
    case Some(receipt) => EmptyEntry.(status := Submitted, acknowledged := Some(Ack(s.request, s.principal, receipt)))
  }

  function Recovered(saved: map<Target, Saved>): map<Target, Entry> {
    map t | t in saved :: Restored(saved[t])
  }

  /** The Run and the input as the window last read them. */
  datatype View = View(revision: nat, terminal: bool, input: Option<InputView>, available: bool)

  datatype InputView = InputView(disposition: nat, pending: bool, assigner: string)

  /** Why no new request may be made; none when it may. */
  function Objection(e: Entry, t: Target, principal: string, v: View): Option<string> {
    if e.acknowledged.Some? then Some("This action already committed.")
    else if !v.available then Some("Wait for the selected Run to finish refreshing.")
    else if e.reviewRequired || (e.rejectionCode == Some(StaleRevision) && e.rejectedRevision == Some(v.revision)) then
      Some("Refresh and review the Run and input before a new action.")
    else if principal == "" then Some("Reconnect as a Human to use Run controls.")
    else if v.terminal then Some("New controls are unavailable.")
    else if v.input.Some? && !v.input.value.pending then Some("Only Pending input can be withdrawn.")
    else if v.input.Some? && v.input.value.assigner != principal then
      Some("Only the assigning Human can withdraw this input.")
    else if t.input.Some? && v.input.None? then Some("The selected input is unavailable.")
    else None
  }

  function OriginalHumanOnly(): string { "Reconnect as the original Human to recover this submission." }

  /** The client's own check of a receipt. */
  predicate Confirms(receipt: Receipt, r: Request) {
    receipt.target == r.target && receipt.runRevision == r.revision + 1 &&
    receipt.revision == if r.target.input.None? then r.revision + 1 else r.disposition + 1
  }

  const DomainCodes := {StaleRevision, TerminalRun, InvalidCommand}
  const InitialCodes := {Forbidden, NotFound, InvalidRequest, Conflict, TooLarge}

  /** The entry once a submission's reply is in. */
  function Concluded(e: Entry, r: Request, principal: string, reply: Reply): Entry {
    if reply.Accepted? && Confirms(reply.receipt, r) then
      EmptyEntry.(status := Submitted, acknowledged := Some(Ack(r, principal, reply.receipt)))
    else if reply.Refused? && (reply.code in DomainCodes || (!e.uncertain && reply.code in InitialCodes)) then
      e.(status := Rejected, request := None, uncertain := false, error := Some("rejected"),
         rejectionCode := Some(reply.code), rejectedRevision := Some(r.revision), reviewRequired := true)
    else
      var uncertain := e.uncertain || !reply.Unauthenticated?;
      e.(status := if uncertain then Unknown else AuthRequired, uncertain := uncertain, error := Some("unsettled"))
  }

  // ---- the server ------------------------------------------------------------------------------

  datatype Run = Run(revision: nat, terminal: bool)
  datatype Input = Input(disposition: nat, pending: bool, assigner: string)
  datatype Slot = Slot(principal: string, key: string)
  datatype Commit = Commit(request: Request, receipt: Receipt)

  datatype Server = Server(runs: map<string, Run>, inputs: map<Target, Input>, committed: map<Slot, Commit>)

  /** A cancelled Run abandons its pending inputs. */
  function Abandoned(inputs: map<Target, Input>, run: string): map<Target, Input> {
    map t | t in inputs ::
      if t.run == run && inputs[t].pending then inputs[t].(disposition := inputs[t].disposition + 1, pending := false)
      else inputs[t]
  }

  function Execute(v: Server, principal: string, r: Request): (Server, Reply) {
    var slot, t := Slot(principal, r.key), r.target;
    if slot in v.committed then
      (v, if v.committed[slot].request == r then Accepted(v.committed[slot].receipt) else Refused(Conflict))
    else if t.run !in v.runs || (t.input.Some? && t !in v.inputs) then (v, Refused(NotFound))
    else
      var run := v.runs[t.run];
      if run.terminal then (v, Refused(TerminalRun))
      else if run.revision != r.revision then (v, Refused(StaleRevision))
      else if t.input.Some? && v.inputs[t].disposition != r.disposition then (v, Refused(StaleRevision))
      else if t.input.Some? && !v.inputs[t].pending then (v, Refused(Conflict))
      else if t.input.Some? && v.inputs[t].assigner != principal then (v, Refused(Forbidden))
      else
        var receipt := Receipt(t, if t.input.None? then r.revision + 1 else r.disposition + 1, r.revision + 1);
        (Server(v.runs[t.run := Run(run.revision + 1, t.input.None?)],
                if t.input.None? then Abandoned(v.inputs, t.run)
                else v.inputs[t := v.inputs[t].(disposition := r.disposition + 1, pending := false)],
                v.committed[slot := Commit(r, receipt)]),
         Accepted(receipt))
  }

  // ---- the whole -------------------------------------------------------------------------------

  /** One copy of a request on its way; the server handles it at most once. */
  datatype Message = Message(request: Request, principal: string, reply: Option<Reply>)

  datatype State = State(
    window: Window, storage: map<Target, Saved>, net: map<nat, Message>, server: Server,
    minted: map<string, (Request, string)>, nextSend: nat)

  const Initial := State(Window(map[], map[], false, map[]), map[], map[], Server(map[], map[], map[]), map[], 0)

  /** Replace an entry and write the table, unless writing has failed before; `saves`: it succeeds now. */
  function Set(s: State, t: Target, e: Entry, saves: bool): State {
    var w := s.window.(entries := s.window.entries[t := e]);
    if w.blocked then s.(window := w)
    else if saves then s.(window := w, storage := Persisted(w.entries))
    else s.(window := w.(blocked := true))
  }

  function Send(s: State, t: Target, e: Entry, r: Request, principal: string, saves: bool): State {
    var pending := e.(request := Some(r), principal := Some(principal), status := Submitting,
                      error := None, rejectionCode := None, rejectedRevision := None);
    var u := Set(s, t, pending, saves);
    if u.window.blocked then Set(u, t, e, saves)
    else
      u.(net := u.net[u.nextSend := Message(r, principal, None)], nextSend := u.nextSend + 1,
         window := u.window.(awaiting := u.window.awaiting[t := Flight(u.nextSend, pending)]))
  }

  /** The Human presses the button: a retained request is sent again, or a new one made with a fresh key. */
  function Submit(s: State, t: Target, principal: string, v: View, key: string, saves: bool): State {
    var e := EntryOf(s.window, t);
    if s.window.blocked || e.status == Submitting then s
    else if e.request.Some? then
      if e.principal != Some(principal) then
        Set(s, t, e.(error := Some(OriginalHumanOnly())), saves)
      else Send(s, t, e, e.request.value, principal, saves)
    else
      var objection := Objection(e, t, principal, v);
      if objection.Some? then Set(s, t, e.(error := objection), saves)
      else
        var r := Request(key, t, v.revision, if v.input.Some? then v.input.value.disposition else 0);
        Send(s.(minted := s.minted[key := (r, principal)]), t, e, r, principal, saves)
  }

  /** The entry of `t` that a submission ends with. */
  function Ending(s: State, t: Target, reply: Reply): Entry
    requires t in s.window.awaiting && s.window.awaiting[t].send in s.net
  {
    var flight := s.window.awaiting[t];
    var m := s.net[flight.send];
    Concluded(flight.pending, m.request, m.principal, reply)
  }

  /** The submission of `t` is over; an acknowledgement outdates the refreshes under way. */
  function Landed(s: State, t: Target, e: Entry): State {
    s.(window := s.window.(
      awaiting := s.window.awaiting - {t},
      versions := if e.acknowledged.Some? then s.window.versions[t := VersionOf(s.window, t) + 1]
                  else s.window.versions))
  }

  /** The awaited send of `t` settles. */
  function Conclude(s: State, t: Target, reply: Reply, saves: bool): State
    requires t in s.window.awaiting && s.window.awaiting[t].send in s.net
  {
    Set(Landed(s, t, Ending(s, t, reply)), t, Ending(s, t, reply), saves)
  }

  function BeginRefresh(s: State, t: Target, saves: bool): State {
    var w := s.window.(versions := s.window.versions[t := VersionOf(s.window, t) + 1]);
    Set(s.(window := w), t, EntryOf(w, t).(projection := Refreshing), saves)
  }

  function EndRefresh(s: State, t: Target, version: nat, ok: bool, saves: bool): State {
    var e := EntryOf(s.window, t);
    if VersionOf(s.window, t) != version || t !in s.window.entries then s
    else if ok then Set(s, t, e.(projection := Settled, reviewRequired := false), saves)
    else Set(s, t, e.(projection := Failed), saves)
  }

  /** A new window takes over what storage holds, or nothing when it cannot be read. */
  function Reload(s: State, readable: bool): State {
    s.(window := Window(if readable then Recovered(s.storage) else map[], map[], !readable, map[]))
  }

  datatype Handling = Normally | Unauthorized | Forbidding | FailingBefore | FailingAfter

  function Handle(s: State, n: nat, how: Handling): State
    requires n in s.net
  {
    var m := s.net[n];
    var (v, reply) := Execute(s.server, m.principal, m.request);
    match how
    case Normally => s.(server := v, net := s.net[n := m.(reply := Some(reply))])
    case Unauthorized => s.(net := s.net[n := m.(reply := Some(Unauthenticated))])
    case Forbidding => s.(net := s.net[n := m.(reply := Some(Refused(Forbidden)))])
    case FailingBefore => s.(net := s.net[n := m.(reply := Some(Broken))])
    case FailingAfter => s.(server := v, net := s.net[n := m.(reply := Some(Broken))])
  }

  datatype Step =
    | Press(target: Target, principal: string, view: View, key: string, saves: bool)
    | Arrive(message: nat, how: Handling)
    | Answer(target: Target, saves: bool)             // the reply the window waits for arrives
    | GiveUp(target: Target, saves: bool)             // it never will, for all the window knows
    | StartRefresh(target: Target, saves: bool)
    | FinishRefresh(target: Target, version: nat, ok: bool, saves: bool)
    | NewWindow(readable: bool)
    | Create(run: string)
    | Advance(run: string, terminal: bool)            // other commands on the Run
    | Assign(target: Target, assigner: string)
    | Dispose(target: Target, pending: bool)          // other commands on the input

  const MaxSafeInteger := 0x1f_ffff_ffff_ffff

  predicate Safe(n: nat) { 1 <= n <= MaxSafeInteger }

  /** Views come from the server, which gives its entities non-empty names; and keys are fresh. */
  ghost predicate Enabled(s: State, a: Step) {
    match a
    case Press(t, _, v, key, _) =>
      && key !in s.minted && key != "" && t.run != "" && t.input != Some("")
      && Safe(v.revision) && (v.input.Some? ==> Safe(v.input.value.disposition))
      && t.run in s.server.runs && v.revision <= s.server.runs[t.run].revision
      && (v.input.Some? ==> t in s.server.inputs && v.input.value.disposition <= s.server.inputs[t].disposition)
      && (v.input.Some? ==> t.input.Some?)
    case Arrive(n, _) => n in s.net && s.net[n].reply.None?
    case Answer(t, _) =>
      && t in s.window.awaiting && s.window.awaiting[t].send in s.net
      && s.net[s.window.awaiting[t].send].reply.Some?
    case GiveUp(t, _) => t in s.window.awaiting && s.window.awaiting[t].send in s.net
    case Create(run) => run !in s.server.runs
    case Advance(run, _) => run in s.server.runs
    case Assign(t, _) => t.input.Some? && t !in s.server.inputs
    case Dispose(t, _) => t in s.server.inputs
    case _ => true
  }

  ghost function Take(s: State, a: Step): State
    requires Enabled(s, a)
  {
    var v := s.server;
    match a
    case Press(t, principal, view, key, saves) => Submit(s, t, principal, view, key, saves)
    case Arrive(n, how) => Handle(s, n, how)
    case Answer(t, saves) => Conclude(s, t, s.net[s.window.awaiting[t].send].reply.value, saves)
    case GiveUp(t, saves) => Conclude(s, t, Broken, saves)
    case StartRefresh(t, saves) => BeginRefresh(s, t, saves)
    case FinishRefresh(t, version, ok, saves) => EndRefresh(s, t, version, ok, saves)
    case NewWindow(readable) => Reload(s, readable)
    case Create(run) => s.(server := v.(runs := v.runs[run := Run(1, false)]))
    case Advance(run, terminal) =>
      s.(server := v.(runs := v.runs[run := Run(v.runs[run].revision + 1, v.runs[run].terminal || terminal)]))
    case Assign(t, assigner) => s.(server := v.(inputs := v.inputs[t := Input(1, true, assigner)]))
    case Dispose(t, pending) =>
      s.(server := v.(
        inputs := v.inputs[t := v.inputs[t].(disposition := v.inputs[t].disposition + 1, pending := pending)]))
  }

  ghost function Controls(): Machine<State, Step> {
    Machine((s, a) => Enabled(s, a), (s: State, a: Step) => if Enabled(s, a) then Take(s, a) else s)
  }
}
