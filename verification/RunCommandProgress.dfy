/** What a Human gets to see and can do next: which outcome a reply is shown as, when a request is given up, and
    that a press sends. */
module RunCommandProgress {
  import opened Sequences
  import opened Machines
  import opened RunCommands
  import opened RunCommandTheorems

  // ---- how a submission ends -------------------------------------------------------------------

  /** The request has committed, as its receipt confirms. */
  ghost predicate Confirmed(r: Request, reply: Reply) {
    reply.Accepted? && Confirms(reply.receipt, r)
  }

  /** The server refused the request for the Run's state, which is final. */
  ghost predicate RefusedForTheRun(reply: Reply) {
    reply.Refused? && reply.code in {StaleRevision, TerminalRun, InvalidCommand}
  }

  /** The server turned the request away, and no other copy of it can have got further. */
  ghost predicate TurnedAway(e: Entry, reply: Reply) {
    !e.uncertain && reply.Refused? && reply.code in {Forbidden, NotFound, InvalidRequest, Conflict, TooLarge}
  }

  ghost predicate ShownAs(was: Entry, r: Request, principal: string, reply: Reply, e: Entry) {
    if Confirmed(r, reply) then
      && e.status == Submitted && e.request == None && !e.reviewRequired
      && e.acknowledged == Some(Ack(r, principal, reply.receipt))
    else if RefusedForTheRun(reply) || TurnedAway(was, reply) then
      && e.status == Rejected && e.request == None && e.acknowledged == None && e.error.Some?
      && e.reviewRequired && e.rejectionCode == Some(reply.code) && e.rejectedRevision == Some(r.revision)
    else
      && e.request == Some(r) && e.principal == Some(principal) && e.acknowledged == None && e.error.Some?
      && if reply.Unauthenticated? && !was.uncertain then e.status == AuthRequired && !e.uncertain
         else e.status == Unknown && e.uncertain
  }

  /** Every reply the window hears is shown as what it means. A request is given up only when it is confirmed,
      refused for the Run's state, or turned away at its first send; otherwise it is kept, as needing a sign-in
      when that is all that can be wrong, and else as of unknown outcome. */
  lemma RepliesAreShown(s: State, t: Target, reply: Reply, saves: bool)
    requires Good(s) && Hears(s, t, reply)
    ensures var m := s.net[s.window.awaiting[t].send]; var u := Conclude(s, t, reply, saves);
      && t in s.window.entries && t in u.window.entries && t !in u.window.awaiting
      && ShownAs(s.window.entries[t], m.request, m.principal, reply, u.window.entries[t])
  {
    hide Good, Set, CommitsHold, TargetGone, MessageHolds;
    ConcludeFacts(s, t);
    HeardIsHeld(s, t);
    var e := Ending(s, t, reply);
    SetStores(Landed(s, t, e), t, e, saves);
    var f := s.window.awaiting[t];
    assert f.pending.request.value == s.net[f.send].request && f.pending.principal.value == s.net[f.send].principal;
    PendingAsks(s, t);
  }

  /** What is awaited has no acknowledgement. */
  lemma PendingAsks(s: State, t: Target)
    requires Good(s) && t in s.window.awaiting
    ensures s.window.awaiting[t].pending.acknowledged.None? && t in s.window.entries
    ensures s.window.awaiting[t].pending.uncertain == s.window.entries[t].uncertain
  {
    hide Good, EntryHolds, TargetGone;
    GoodIsHere(s, t);
  }

  /** A refusal for the Run's state, once heard, ends the request in the window and, once the write succeeds, in
      storage; and the target is under review with that code and revision. */
  lemma RefusalIsShown(s: State, t: Target, code: Code, saves: bool)
    requires Good(s) && Hears(s, t, Refused(code)) && code in {StaleRevision, TerminalRun, InvalidCommand}
    ensures var u := Conclude(s, t, Refused(code), saves); var m := s.net[s.window.awaiting[t].send];
      && UnderReview(u, t)
      && u.window.entries[t].request == None && u.window.entries[t].status == Rejected
      && u.window.entries[t].rejectionCode == Some(code)
      && u.window.entries[t].rejectedRevision == Some(m.request.revision)
      && (!s.window.blocked && saves ==> t !in u.storage)
      && Gone(u, m.request, m.principal)
  {
    hide Good, Set, Gone;
    var reply := Refused(code);
    RepliesAreShown(s, t, reply, saves);
    HeardIsHeld(s, t);
    RejectionIsFinal(s, t, reply);
    var e := Ending(s, t, reply);
    SetStores(Landed(s, t, e), t, e, saves);
    SameServer(s, Conclude(s, t, reply, saves));
  }

  lemma SameServer(s: State, u: State)
    requires u.server == s.server && u.net == s.net
    ensures forall r, principal :: Gone(u, r, principal) == Gone(s, r, principal)
  {
  }

  // ---- what a press does -----------------------------------------------------------------------

  /** Nothing in the view speaks against the action. */
  ghost predicate Actionable(t: Target, principal: string, v: View) {
    && v.available && !v.terminal && principal != ""
    && (v.input.Some? ==> v.input.value.pending && v.input.value.assigner == principal)
    && (t.input.Some? ==> v.input.Some?)
  }

  /** Nothing that happened to the target speaks against a new action on it. */
  ghost predicate Open(e: Entry, v: View) {
    && !Kept(e) && e.status != Submitting && !e.reviewRequired
    && !(e.rejectionCode == Some(StaleRevision) && e.rejectedRevision == Some(v.revision))
  }

  /** One copy of the request leaves, is waited for, and is in storage. */
  ghost predicate Sends(s: State, u: State, t: Target, r: Request, principal: string) {
    && u.server == s.server && u.nextSend == s.nextSend + 1
    && u.net == s.net[s.nextSend := Message(r, principal, None)]
    && t in u.window.awaiting && u.window.awaiting[t].send == s.nextSend
    && t in u.window.entries && u.window.entries[t].status == Submitting && u.window.entries[t].request == Some(r)
    && t in u.storage && u.storage[t] == Saved(r, principal, None)
  }

  ghost predicate SendsNothing(s: State, u: State) {
    u.server == s.server && u.nextSend == s.nextSend && u.net == s.net && u.window.awaiting == s.window.awaiting
  }

  /** What a press asks for, if it asks for anything new. */
  function Asked(t: Target, v: View, key: string): Request {
    Request(key, t, v.revision, if v.input.Some? then v.input.value.disposition else 0)
  }

  lemma SendSends(s: State, t: Target, e: Entry, r: Request, principal: string, saves: bool)
    requires !s.window.blocked
    ensures var u := Send(s, t, e, r, principal, saves);
      && u.minted == s.minted && u.window.blocked == !saves
      && if saves then Sends(s, u, t, r, principal) else SendsNothing(s, u) && u.storage == s.storage
  {
    hide Persisted, Kept, SavedOf;
    SendWritesFirst(s, t, e, r, principal, saves);
  }

  lemma SetSendsNothing(s: State, t: Target, e: Entry, saves: bool)
    ensures var u := Set(s, t, e, saves); SendsNothing(s, u) && u.minted == s.minted
  {
    hide Persisted;
  }

  lemma NothingAgainst(e: Entry, t: Target, principal: string, v: View)
    requires e.request.None? && e.status != Submitting
    ensures Objection(e, t, principal, v).None? <==> Open(e, v) && Actionable(t, principal, v)
  {
  }

  /** A press makes a new request exactly when the target is open and the view allows the action; the request
      is for what was seen, and leaves once storage holds it. Otherwise no key is made. */
  lemma PressMints(s: State, t: Target, principal: string, v: View, key: string, saves: bool)
    requires key !in s.minted
    ensures var u := Submit(s, t, principal, v, key, saves); var r := Asked(t, v, key);
      && (key in u.minted <==>
            !s.window.blocked && Open(EntryOf(s.window, t), v) && Actionable(t, principal, v))
      && (key in u.minted ==>
            && u.minted == s.minted[key := (r, principal)]
            && if saves then Sends(s, u, t, r, principal) else SendsNothing(s, u) && u.window.blocked)
      && (key !in u.minted ==> u.minted == s.minted)
  {
    hide Set, Send, Objection, Open, Actionable, OriginalHumanOnly;
    var e, r := EntryOf(s.window, t), Asked(t, v, key);
    if s.window.blocked || e.status == Submitting || e.request.Some? {
      if !s.window.blocked { NotOpen(e, v); }
      if !s.window.blocked && e.request.Some? {
        SetSendsNothing(s, t, e.(error := Some(OriginalHumanOnly())), saves);
        SendSends(s, t, e, e.request.value, principal, saves);
      }
    } else {
      NothingAgainst(e, t, principal, v);
      SetSendsNothing(s, t, e.(error := Objection(e, t, principal, v)), saves);
      SendSends(s.(minted := s.minted[key := (r, principal)]), t, e, r, principal, saves);
    }
  }

  lemma NotOpen(e: Entry, v: View)
    requires e.status == Submitting || e.request.Some?
    ensures !Open(e, v)
  {
  }

  /** A retained request is sent again as it is, whatever is shown by now, but only for the Human who made it;
      for anyone else nothing leaves, and the request stays. */
  lemma PressResends(s: State, t: Target, principal: string, v: View, key: string, saves: bool)
    requires Good(s) && !s.window.blocked && t in s.window.entries && t !in s.window.awaiting
    requires s.window.entries[t].request.Some?
    ensures t in s.storage && s.storage[t].receipt.None?
    ensures var u := Submit(s, t, principal, v, key, saves); var saved := s.storage[t];
      && u.minted == s.minted
      && if principal == saved.principal && saves then Sends(s, u, t, saved.request, principal)
         else SendsNothing(s, u) && t in u.storage && u.storage[t] == saved && t in u.window.entries
              && u.window.entries[t].request == Some(saved.request)
              && (principal != saved.principal ==> u.window.entries[t].error.Some?)
  {
    hide Good, Set, Send, OriginalHumanOnly;
    RetainedIsStored(s, t);
    var e := s.window.entries[t];
    if principal == s.storage[t].principal {
      SendSends(s, t, e, e.request.value, principal, saves);
      SendWritesFirst(s, t, e, e.request.value, principal, saves);
      SetStores(s, t, e, saves);
    } else {
      SetSendsNothing(s, t, e.(error := Some(OriginalHumanOnly())), saves);
      SetStores(s, t, e.(error := Some(OriginalHumanOnly())), saves);
    }
  }

  lemma RetainedIsStored(s: State, t: Target)
    requires Good(s) && t in s.window.entries && s.window.entries[t].request.Some?
    ensures var e := s.window.entries[t];
      && Mirrored(s) && t in s.storage && e.principal.Some?
      && s.storage[t] == Saved(e.request.value, e.principal.value, None)
      && (e.status == Submitting <==> t in s.window.awaiting)
  {
    hide Good, TargetGone, NetHolds, MintsHold, CommitsHold, Mirrored;
    GoodIsHere(s, t);
  }

  /** A confirmed submission's receipt is in storage once the write succeeds. */
  lemma ReceiptIsStored(s: State, t: Target, reply: Reply)
    requires Good(s) && Hears(s, t, reply) && !s.window.blocked
    ensures var m := s.net[s.window.awaiting[t].send]; var u := Conclude(s, t, reply, true);
      Confirmed(m.request, reply) ==>
        t in u.storage && u.storage[t] == Saved(m.request, m.principal, Some(reply.receipt))
  {
    hide Good, Set, CommitsHold, TargetGone, MessageHolds;
    ConcludeFacts(s, t);
    HeardIsHeld(s, t);
    var e := Ending(s, t, reply);
    SetStores(Landed(s, t, e), t, e, true);
  }

  /** What a new window shows of a stored record: a pending request as of unknown outcome, for the Human who made
      it, or what was acknowledged. */
  ghost predicate ShownAgain(saved: Saved, e: Entry) {
    && e.draft == "" && e.error == None && !e.reviewRequired && e.rejectionCode == None && e.projection == Settled
    && match saved.receipt
       case None =>
         && e.status == Unknown && e.uncertain && e.acknowledged == None
         && e.request == Some(saved.request) && e.principal == Some(saved.principal)
       case Some(receipt) =>
         && e.status == Submitted && !e.uncertain && e.request == None
         && e.acknowledged == Some(Ack(saved.request, saved.principal, receipt))
  }

  /** A reload shows again what storage keeps, and nothing else; when storage cannot be read the window shows
      nothing, leaves storage as it is, and takes no action. */
  lemma ReloadShowsWhatWasKept(s: State, readable: bool)
    ensures var u := Reload(s, readable);
      && u == s.(window := u.window) && u.window.blocked == !readable
      && u.window.awaiting == map[] && u.window.versions == map[]
      && (forall t :: t in u.window.entries <==> readable && t in s.storage)
      && (forall t :: t in u.window.entries ==> ShownAgain(s.storage[t], u.window.entries[t]))
  {
  }

  // ---- from a refusal to a new action ----------------------------------------------------------

  /** The refusal that put the target under review, and the refresh that is under way. */
  ghost predicate StillUnder(s: State, u: State, t: Target) {
    && UnderReview(s, t) && UnderReview(u, t) && VersionOf(u.window, t) == VersionOf(s.window, t)
    && SameVerdict(s.window.entries[t], u.window.entries[t])
  }

  ghost predicate SameVerdict(e: Entry, f: Entry) {
    f.status == e.status && f.rejectionCode == e.rejectionCode && f.rejectedRevision == e.rejectedRevision
  }

  /** A step that neither starts nor completes a refresh of `t`, nor opens a new window. */
  ghost predicate Bystands(a: Step, t: Target) {
    LeavesReview(a, t) && !(a.StartRefresh? && a.target == t)
  }

  lemma SetKeepsUnder(s: State, v: State, x: Target, e: Entry, saves: bool, t: Target)
    requires UnderReview(s, t) && v.window.entries == s.window.entries && t !in v.window.awaiting
    requires VersionOf(v.window, t) == VersionOf(s.window, t)
    requires x == t ==> e.reviewRequired && !Kept(e) && SameVerdict(s.window.entries[t], e)
    ensures StillUnder(s, Set(v, x, e, saves), t)
  {
    hide Persisted;
  }

  lemma SendKeepsUnder(s: State, x: Target, e: Entry, r: Request, principal: string, saves: bool, t: Target)
    requires UnderReview(s, t) && x != t && !s.window.blocked
    ensures StillUnder(s, Send(s, x, e, r, principal, saves), t)
  {
    hide Send, Set;
    SendWritesFirst(s, x, e, r, principal, saves);
    SetKeepsUnder(s, s, x, e, false, t);
    SetKeepsUnder(s, Sent(s, x, Pending(e, r, principal), r, principal), x, Pending(e, r, principal), true, t);
  }

  lemma PressKeepsUnder(s: State, x: Target, principal: string, v: View, key: string, saves: bool, t: Target)
    requires UnderReview(s, t)
    ensures StillUnder(s, Submit(s, x, principal, v, key, saves), t)
  {
    hide Set, Send, Objection, OriginalHumanOnly;
    var e := EntryOf(s.window, x);
    NoObjection(e, x, principal, v);
    if s.window.blocked || e.status == Submitting {
    } else if e.request.Some? {
      SetKeepsUnder(s, s, x, e.(error := Some(OriginalHumanOnly())), saves, t);
      SendKeepsUnder(s, x, e, e.request.value, principal, saves, t);
    } else {
      var objection := Objection(e, x, principal, v);
      SetKeepsUnder(s, s, x, e.(error := objection), saves, t);
      if objection.None? {
        var minted := s.(minted := s.minted[key := (Asked(x, v, key), principal)]);
        SendKeepsUnder(minted, x, e, Asked(x, v, key), principal, saves, t);
      }
    }
  }

  lemma StepKeepsUnder(s: State, a: Step, t: Target)
    requires UnderReview(s, t) && Enabled(s, a) && Bystands(a, t)
    ensures StillUnder(s, RunCommands.Take(s, a), t)
  {
    hide Set, Submit, Execute, Concluded;
    match a
    case Press(x, principal, view, key, saves) => PressKeepsUnder(s, x, principal, view, key, saves, t);
    case Answer(x, saves) =>
      var reply := s.net[s.window.awaiting[x].send].reply.value;
      SetKeepsUnder(s, Landed(s, x, Ending(s, x, reply)), x, Ending(s, x, reply), saves, t);
    case GiveUp(x, saves) =>
      SetKeepsUnder(s, Landed(s, x, Ending(s, x, Broken)), x, Ending(s, x, Broken), saves, t);
    case StartRefresh(x, saves) =>
      var w := s.window.(versions := s.window.versions[x := VersionOf(s.window, x) + 1]);
      SetKeepsUnder(s, s.(window := w), x, EntryOf(w, x).(projection := Refreshing), saves, t);
    case FinishRefresh(x, version, ok, saves) =>
      var e := EntryOf(s.window, x);
      SetKeepsUnder(s, s, x, e.(projection := Failed), saves, t);
      if x != t { SetKeepsUnder(s, s, x, e.(projection := Settled, reviewRequired := false), saves, t); }
    case _ =>
  }

  lemma {:induction false} WaitingStaysUnder(s: State, steps: seq<Step>, t: Target)
    requires UnderReview(s, t) && Legal(Controls(), s, steps) && forall a :: a in steps ==> Bystands(a, t)
    ensures StillUnder(s, After(Controls(), s, steps), t)
    decreases |steps|
  {
    hide UnderReview, RunCommands.Take, Enabled, Bystands;
    if steps == [] {
      NothingIsStillUnder(s, t);
    } else {
      StepKeepsUnder(s, steps[0], t);
      assert forall a :: a in steps[1..] ==> a in steps;
      WaitingStaysUnder(Controls().next(s, steps[0]), steps[1..], t);
    }
  }

  lemma NothingIsStillUnder(s: State, t: Target)
    requires UnderReview(s, t)
    ensures StillUnder(s, s, t)
  {
  }

  /** The way out of a refusal: refresh, let anything else happen meanwhile, and once the refresh completes a
      press makes a new request as soon as the view allows the action, unless the refusal was for a stale
      revision and the view still shows that revision. */
  lemma NewActionAfterReview(
    s: State, saves: bool, steps: seq<Step>, t: Target, principal: string, v: View, key: string, written: bool)
    requires Good(s) && UnderReview(s, t)
    requires var begun := BeginRefresh(s, t, saves);
      Legal(Controls(), begun, steps) && forall a :: a in steps ==> Bystands(a, t)
    ensures var begun := BeginRefresh(s, t, saves); var waited := After(Controls(), begun, steps);
      var u := EndRefresh(waited, t, VersionOf(begun.window, t), true, written);
      var e := s.window.entries[t];
      key !in u.minted && !u.window.blocked && Actionable(t, principal, v) ==>
        (key in Submit(u, t, principal, v, key, written).minted <==>
         !(e.rejectionCode == Some(StaleRevision) && e.rejectedRevision == Some(v.revision)))
  {
    hide Submit, Actionable, RunCommands.Take, Enabled, Bystands, Persisted, Good, Here;
    NotSubmitting(s, t);
    var begun := BeginRefresh(s, t, saves);
    RefreshBegins(s, t, saves);
    WaitingStaysUnder(begun, steps, t);
    var waited := After(Controls(), begun, steps);
    var u := EndRefresh(waited, t, VersionOf(begun.window, t), true, written);
    RefreshOpens(waited, t, written, v);
    if key !in u.minted {
      PressMints(u, t, principal, v, key, written);
    }
  }

  lemma NotSubmitting(s: State, t: Target)
    requires Good(s) && UnderReview(s, t)
    ensures s.window.entries[t].status != Submitting
  {
    hide Good, TargetGone, NetHolds, MintsHold, CommitsHold;
    GoodIsHere(s, t);
  }

  lemma RefreshBegins(s: State, t: Target, saves: bool)
    requires UnderReview(s, t)
    ensures var u := BeginRefresh(s, t, saves);
      UnderReview(u, t) && SameVerdict(s.window.entries[t], u.window.entries[t])
  {
    hide Persisted;
  }

  lemma RefreshOpens(s: State, t: Target, saves: bool, v: View)
    requires UnderReview(s, t) && s.window.entries[t].status != Submitting
    ensures var u := EndRefresh(s, t, VersionOf(s.window, t), true, saves); var e := s.window.entries[t];
      Open(EntryOf(u.window, t), v) <==>
        !(e.rejectionCode == Some(StaleRevision) && e.rejectedRevision == Some(v.revision))
  {
    hide Persisted;
  }

  // ---- refreshes overtaken ---------------------------------------------------------------------

  /** The submission of `t` ends acknowledged. */
  ghost predicate Acknowledges(s: State, a: Step, t: Target)
    requires Enabled(s, a)
  {
    || (a.Answer? && a.target == t && Ending(s, t, s.net[s.window.awaiting[t].send].reply.value).acknowledged.Some?)
    || (a.GiveUp? && a.target == t && Ending(s, t, Broken).acknowledged.Some?)
  }

  /** Versions of `t` do not fall while the window lasts. */
  ghost predicate NotBefore(s: State, u: State, t: Target) {
    VersionOf(s.window, t) <= VersionOf(u.window, t)
  }

  lemma SetVersions(s: State, t: Target, e: Entry, saves: bool)
    ensures Set(s, t, e, saves).window.versions == s.window.versions
  {
    hide Persisted;
  }

  lemma SubmitVersions(s: State, t: Target, principal: string, v: View, key: string, saves: bool)
    ensures Submit(s, t, principal, v, key, saves).window.versions == s.window.versions
  {
    hide Set, Send, Objection, OriginalHumanOnly;
    var e := EntryOf(s.window, t);
    if !s.window.blocked && e.status != Submitting && e.request.Some? {
      SetVersions(s, t, e.(error := Some(OriginalHumanOnly())), saves);
      SendVersions(s, t, e, e.request.value, principal, saves);
    } else if !s.window.blocked && e.status != Submitting {
      SetVersions(s, t, e.(error := Objection(e, t, principal, v)), saves);
      var minted := s.(minted := s.minted[key := (Asked(t, v, key), principal)]);
      SendVersions(minted, t, e, Asked(t, v, key), principal, saves);
    }
  }

  lemma SendVersions(s: State, t: Target, e: Entry, r: Request, principal: string, saves: bool)
    requires !s.window.blocked
    ensures Send(s, t, e, r, principal, saves).window.versions == s.window.versions
  {
    hide Set, Send;
    SendWritesFirst(s, t, e, r, principal, saves);
    SetVersions(s, t, e, false);
    SetVersions(Sent(s, t, Pending(e, r, principal), r, principal), t, Pending(e, r, principal), true);
  }

  /** Only a refresh that begins and an acknowledgement give the target a new version. */
  lemma StepKeepsVersions(s: State, a: Step, t: Target)
    requires Enabled(s, a) && !a.NewWindow?
    ensures VersionOf(RunCommands.Take(s, a).window, t) ==
      VersionOf(s.window, t) + if (a.StartRefresh? && a.target == t) || Acknowledges(s, a, t) then 1 else 0
  {
    hide Set, Submit, Execute, Concluded;
    match a
    case Press(x, principal, view, key, saves) => SubmitVersions(s, x, principal, view, key, saves);
    case Answer(x, saves) =>
      var e := Ending(s, x, s.net[s.window.awaiting[x].send].reply.value);
      SetVersions(Landed(s, x, e), x, e, saves);
    case GiveUp(x, saves) =>
      SetVersions(Landed(s, x, Ending(s, x, Broken)), x, Ending(s, x, Broken), saves);
    case StartRefresh(x, saves) =>
      var w := s.window.(versions := s.window.versions[x := VersionOf(s.window, x) + 1]);
      SetVersions(s.(window := w), x, EntryOf(w, x).(projection := Refreshing), saves);
    case FinishRefresh(x, version, ok, saves) =>
      var e := EntryOf(s.window, x);
      SetVersions(s, x, e.(projection := Failed), saves);
      SetVersions(s, x, e.(projection := Settled, reviewRequired := false), saves);
    case _ =>
  }

  lemma {:induction false} VersionsNeverFall(s: State, steps: seq<Step>, t: Target)
    requires Legal(Controls(), s, steps) && forall a :: a in steps ==> !a.NewWindow?
    ensures NotBefore(s, After(Controls(), s, steps), t)
    decreases |steps|
  {
    hide RunCommands.Take, Enabled;
    if steps != [] {
      StepKeepsVersions(s, steps[0], t);
      assert forall a :: a in steps[1..] ==> a in steps;
      VersionsNeverFall(Controls().next(s, steps[0]), steps[1..], t);
    }
  }

  /** A refresh begun before a later one, or before an acknowledgement, changes nothing when it ends. */
  lemma OvertakenRefreshChangesNothing(
    s: State, a: Step, steps: seq<Step>, t: Target, version: nat, ok: bool, saves: bool)
    requires version <= VersionOf(s.window, t) && Enabled(s, a)
    requires (a.StartRefresh? && a.target == t) || Acknowledges(s, a, t)
    requires Legal(Controls(), RunCommands.Take(s, a), steps) && forall x :: x in steps ==> !x.NewWindow?
    ensures var u := After(Controls(), RunCommands.Take(s, a), steps); EndRefresh(u, t, version, ok, saves) == u
  {
    hide Set, Submit, Execute, Concluded, BeginRefresh;
    StepKeepsVersions(s, a, t);
    VersionsNeverFall(RunCommands.Take(s, a), steps, t);
  }

  /** A refresh that begins is shown, and the latest shows how it ended. */
  lemma RefreshIsShownAsBegun(s: State, t: Target, saves: bool)
    ensures var u := BeginRefresh(s, t, saves);
      && t in u.window.entries && u.window.entries[t].projection == Refreshing
      && u.window.entries[t] == EntryOf(s.window, t).(projection := Refreshing)
      && VersionOf(u.window, t) == VersionOf(s.window, t) + 1
  {
    hide Persisted;
  }

  lemma LatestRefreshIsShown(s: State, t: Target, ok: bool, saves: bool)
    requires t in s.window.entries
    ensures var u := EndRefresh(s, t, VersionOf(s.window, t), ok, saves); var e := s.window.entries[t];
      && t in u.window.entries
      && u.window.entries[t].projection == (if ok then Settled else Failed)
      && u.window.entries[t].reviewRequired == (e.reviewRequired && !ok) && SameCore(e, u.window.entries[t])
  {
    hide Persisted;
  }

  // ---- what the server decides -----------------------------------------------------------------

  /** A Run and an input in the state the request was made for, and a Human who may ask for it. */
  ghost predicate Acceptable(v: Server, principal: string, r: Request) {
    && r.target.run in v.runs && !v.runs[r.target.run].terminal && v.runs[r.target.run].revision == r.revision
    && (r.target.input.Some? ==>
          && r.target in v.inputs && v.inputs[r.target].disposition == r.disposition
          && v.inputs[r.target].pending && v.inputs[r.target].assigner == principal)
  }

  /** The Run moves by one revision, and ends if it is cancelled; the withdrawn input, or every pending input of
      the cancelled Run, is disposed of; everything else is as before. */
  ghost predicate Executed(v: Server, w: Server, r: Request)
    requires r.target.run in v.runs
  {
    var id, cancels := r.target.run, r.target.input.None?;
    && w.runs.Keys == v.runs.Keys && w.inputs.Keys == v.inputs.Keys
    && w.runs[id].revision == v.runs[id].revision + 1 && w.runs[id].terminal == cancels
    && (forall x :: x in v.runs && x != id ==> w.runs[x] == v.runs[x])
    && forall t :: t in v.inputs ==>
      var was, now := v.inputs[t], w.inputs[t];
      if v.inputs[t].pending && (t == r.target || (cancels && t.run == id)) then
        !now.pending && now.disposition == was.disposition + 1 && now.assigner == was.assigner
      else now == was
  }

  /** The server accepts exactly a request it has committed before, which changes nothing, and one under an
      unused key that the Run and the input still allow, which is carried out once. Any other is refused and
      changes nothing: a key used for something else conflicts, and the rest fails for what is in its way. */
  lemma ExecuteDecides(v: Server, principal: string, r: Request)
    ensures var (w, reply) := Execute(v, principal, r); var slot := Slot(principal, r.key);
      && (reply.Accepted? <==>
            if slot in v.committed then v.committed[slot].request == r else Acceptable(v, principal, r))
      && (slot !in v.committed && reply.Accepted? ==>
            Executed(v, w, r) && w.committed == v.committed[slot := Commit(r, reply.receipt)]
            && Confirms(reply.receipt, r))
      && (slot in v.committed && reply.Accepted? ==> w == v && reply.receipt == v.committed[slot].receipt)
      && (!reply.Accepted? ==> w == v && reply.Refused? && Refuses(v, principal, r, reply.code))
  {
  }

  ghost predicate Refuses(v: Server, principal: string, r: Request, code: Code) {
    var t := r.target;
    var missing := t.run !in v.runs || (t.input.Some? && t !in v.inputs);
    match code
    case NotFound => missing
    case TerminalRun => !missing && v.runs[t.run].terminal
    case StaleRevision =>
      && !missing && !v.runs[t.run].terminal
      && (v.runs[t.run].revision != r.revision || (t.input.Some? && v.inputs[t].disposition != r.disposition))
    case Forbidden =>
      !missing && t.input.Some? && v.inputs[t].pending && v.inputs[t].assigner != principal
    case Conflict =>
      || Slot(principal, r.key) in v.committed
      || (!missing && t.input.Some? && !v.inputs[t].pending && v.inputs[t].disposition == r.disposition)
    case _ => false
  }
}
