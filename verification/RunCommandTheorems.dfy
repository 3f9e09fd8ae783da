/** Exactly once: what every run of a Human's Run controls keeps, whatever is lost, delayed or reloaded. */
module RunCommandTheorems {
  import opened Sequences
  import opened Machines
  import opened RunCommands

  // ---- facts about one request -----------------------------------------------------------------

  /** The server will refuse the request from now on: the Run is over, or has moved past it. */
  ghost predicate Doomed(v: Server, r: Request) {
    r.target.run in v.runs &&
    (|| v.runs[r.target.run].terminal || v.runs[r.target.run].revision > r.revision
     || (r.target.input.Some? && r.target in v.inputs && v.inputs[r.target].disposition > r.disposition))
  }

  /** The request was made from a view of what the server has. */
  ghost predicate Known(v: Server, r: Request) {
    && r.target.run in v.runs && r.revision <= v.runs[r.target.run].revision
    && (r.target.input.Some? ==> r.target in v.inputs && r.disposition <= v.inputs[r.target].disposition)
  }

  ghost predicate Committed(v: Server, principal: string, r: Request) {
    Slot(principal, r.key) in v.committed
  }

  /** No copy of the request is still on its way. */
  ghost predicate Quiet(net: map<nat, Message>, key: string) {
    forall n :: n in net && net[n].request.key == key ==> net[n].reply.Some?
  }

  /** The request has not committed and never can. */
  ghost predicate Gone(s: State, r: Request, principal: string) {
    !Committed(s.server, principal, r) && (Doomed(s.server, r) || Quiet(s.net, r.key))
  }

  // ---- the invariant ---------------------------------------------------------------------------

  ghost predicate MintsHold(s: State) {
    forall k :: k in s.minted ==>
      s.minted[k].0.key == k && Known(s.server, s.minted[k].0) && Sound(s.minted[k].0) && s.minted[k].1 != ""
  }

  ghost predicate Sound(r: Request) {
    && r.key != "" && r.target.run != "" && r.target.input != Some("")
    && Safe(r.revision) && (if r.target.input.Some? then Safe(r.disposition) else r.disposition == 0)
  }

  ghost predicate IsMinted(s: State, r: Request, principal: string) {
    r.key in s.minted && s.minted[r.key] == (r, principal)
  }

  ghost predicate MessageHolds(s: State, m: Message) {
    && IsMinted(s, m.request, m.principal)
    && (m.reply.Some? && m.reply.value.Accepted? ==>
          Committed(s.server, m.principal, m.request)
          && s.server.committed[Slot(m.principal, m.request.key)] == Commit(m.request, m.reply.value.receipt))
    && (m.reply.Some? && m.reply.value.Refused? && m.reply.value.code in DomainCodes ==>
          !Committed(s.server, m.principal, m.request) && Doomed(s.server, m.request))
    && (m.reply.Some? && m.reply.value.Refused? ==> m.reply.value.code in DomainCodes + InitialCodes)
  }

  ghost predicate NetHolds(s: State) {
    forall n :: n in s.net ==> n < s.nextSend && MessageHolds(s, s.net[n])
  }

  ghost predicate CommitsHold(s: State) {
    forall slot :: slot in s.server.committed ==>
      && var c := s.server.committed[slot];
      c.request.key == slot.key && IsMinted(s, c.request, slot.principal) && Confirms(c.receipt, c.request)
  }

  ghost predicate SavedHolds(s: State, t: Target)
    requires t in s.storage
  {
    var saved := s.storage[t];
    && saved.request.target == t && IsMinted(s, saved.request, saved.principal)
    && (saved.receipt.Some? ==>
          Committed(s.server, saved.principal, saved.request)
          && s.server.committed[Slot(saved.principal, saved.request.key)] == Commit(saved.request, saved.receipt.value))
  }

  /** Every key for `x` but the one in storage has not committed and never can. */
  ghost predicate TargetGone(s: State, x: Target) {
    forall k :: k in s.minted && s.minted[k].0.target == x ==> Accounted(s, x, k)
  }

  ghost predicate Accounted(s: State, x: Target, k: string)
    requires k in s.minted
  {
    (x in s.storage && s.storage[x].request.key == k) || Gone(s, s.minted[k].0, s.minted[k].1)
  }

  ghost predicate EntryHolds(s: State, t: Target)
    requires t in s.window.entries
  {
    var e := s.window.entries[t];
    && (e.request.Some? ==>
          && e.principal.Some? && e.acknowledged.None?
          && t in s.storage && s.storage[t] == Saved(e.request.value, e.principal.value, None))
    && (e.acknowledged.Some? ==>
          var a := e.acknowledged.value;
          && t in s.storage && s.storage[t].request == a.request && s.storage[t].principal == a.principal
          && Committed(s.server, a.principal, a.request)
          && s.server.committed[Slot(a.principal, a.request.key)] == Commit(a.request, a.receipt))
    && (e.status == Submitting <==> t in s.window.awaiting)
    && (e.request.Some? && !e.uncertain ==> OnlyAwaited(s, t, e.request.value.key))
    && (e.request.Some? && !e.uncertain && Committed(s.server, e.principal.value, e.request.value) ==> Told(s, t))
    && (e.status == Rejected ==> !Kept(e) && (t in s.storage ==> Gone(s, s.storage[t].request, s.storage[t].principal)))
  }

  /** The awaited send was answered as a committed one may be. */
  ghost predicate Told(s: State, t: Target) {
    && t in s.window.awaiting && s.window.awaiting[t].send in s.net
    && var reply := s.net[s.window.awaiting[t].send].reply;
    reply.Some? && (reply.value.Accepted? || reply.value.Broken?)
  }

  /** A copy still on its way is the one the window waits for. */
  ghost predicate OnlyAwaited(s: State, t: Target, key: string) {
    forall n :: n in s.net && s.net[n].request.key == key && s.net[n].reply.None? ==>
      t in s.window.awaiting && s.window.awaiting[t].send == n
  }

  ghost predicate FlightHolds(s: State, t: Target)
    requires t in s.window.awaiting
  {
    var f := s.window.awaiting[t];
    && t in s.window.entries && f.send in s.net
    && f.pending.request.Some? && f.pending.principal.Some? && f.pending.acknowledged.None?
    && f.pending.request == s.window.entries[t].request && f.pending.principal == s.window.entries[t].principal
    && f.pending.uncertain == s.window.entries[t].uncertain
    && s.net[f.send].request == f.pending.request.value && s.net[f.send].principal == f.pending.principal.value
  }

  /** Unless writing has failed, storage holds exactly what the table asks to be kept. */
  ghost predicate Mirrored(s: State) {
    s.window.blocked || s.storage == Persisted(s.window.entries)
  }

  /** The invariant at target `x`. */
  ghost predicate Here(s: State, x: Target) {
    && (x in s.window.entries ==> EntryHolds(s, x))
    && (x in s.window.awaiting ==> FlightHolds(s, x))
    && (x in s.storage ==> SavedHolds(s, x))
    && TargetGone(s, x)
  }

  ghost predicate Good(s: State) {
    && MintsHold(s) && NetHolds(s) && CommitsHold(s) && Mirrored(s)
    && forall x :: Here(s, x)
  }

  lemma HereIsGood(s: State)
    requires MintsHold(s) && NetHolds(s) && CommitsHold(s) && Mirrored(s)
    requires forall x :: Here(s, x)
    ensures Good(s)
  {
  }

  lemma GoodIsHere(s: State, x: Target)
    requires Good(s)
    ensures MintsHold(s) && NetHolds(s) && CommitsHold(s) && Mirrored(s) && Here(s, x)
  {
  }

  // ---- the server moves on ---------------------------------------------------------------------

  /** What holds of a request at the server stays so. */
  ghost predicate Grows(v: Server, w: Server) {
    && (forall slot :: slot in v.committed ==> slot in w.committed && w.committed[slot] == v.committed[slot])
    && (forall r :: Known(v, r) ==> Known(w, r))
    && (forall r :: Doomed(v, r) ==> Doomed(w, r))
  }

  lemma ExecuteGrows(v: Server, principal: string, r: Request)
    ensures Grows(v, Execute(v, principal, r).0)
    ensures forall slot :: slot in Execute(v, principal, r).0.committed ==>
      slot in v.committed || slot == Slot(principal, r.key)
  {
  }

  /** The server commits a request at most once, confirms it, and never once it is doomed; and when it
      refuses for the state of the Run, the refusal is final. */
  lemma ExecuteAnswers(v: Server, principal: string, r: Request)
    requires Known(v, r)
    ensures var (w, reply) := Execute(v, principal, r); var slot := Slot(principal, r.key);
      && (reply.Accepted? ==> slot in w.committed && w.committed[slot].receipt == reply.receipt)
      && (!reply.Accepted? ==> w == v && reply.Refused? && reply.code in DomainCodes + InitialCodes)
      && (slot !in v.committed && slot in w.committed ==>
            !Doomed(v, r) && w.committed[slot].request == r && Confirms(w.committed[slot].receipt, r))
      && (reply.Refused? && reply.code in DomainCodes ==> slot !in w.committed && Doomed(w, r))
  {
  }

  lemma ServerMoves(s: State, v: Server)
    requires Good(s) && Grows(s.server, v) && v.committed == s.server.committed
    ensures Good(s.(server := v))
  {
    hide Good, Here, Grows, MintsHold, NetHolds, CommitsHold, Mirrored;
    var t := s.(server := v);
    forall x ensures Here(t, x) {
      GoodIsHere(s, x);
      ServerHere(s, v, x);
    }
    GoodIsHere(s, Target("", None));
    ServerTables(s, v);
    HereIsGood(t);
  }

  lemma ServerTables(s: State, v: Server)
    requires MintsHold(s) && NetHolds(s) && CommitsHold(s) && Mirrored(s)
    requires Grows(s.server, v) && v.committed == s.server.committed
    ensures var t := s.(server := v); MintsHold(t) && NetHolds(t) && CommitsHold(t) && Mirrored(t)
  {
    hide Doomed, Known, MessageHolds;
    ServerKeepsFacts(s, v);
  }

  lemma ServerHere(s: State, v: Server, x: Target)
    requires Here(s, x) && Grows(s.server, v) && v.committed == s.server.committed
    ensures Here(s.(server := v), x)
  {
    hide Doomed, Known, Gone, Committed, Quiet, MessageHolds, Grows;
    ServerKeepsFacts(s, v);
  }

  lemma ServerKeepsFacts(s: State, v: Server)
    requires Grows(s.server, v) && v.committed == s.server.committed
    ensures var t := s.(server := v);
      && (forall r, principal :: Gone(s, r, principal) ==> Gone(t, r, principal))
      && (forall r, principal :: Committed(v, principal, r) == Committed(s.server, principal, r))
      && (forall r :: Known(s.server, r) ==> Known(v, r))
      && (forall m :: MessageHolds(s, m) ==> MessageHolds(t, m))
  {
    hide Known;
  }

  // ---- a message is handled --------------------------------------------------------------------

  /** What handling message `n` may do. */
  ghost predicate Handles(s: State, n: nat, w: Server, reply: Reply)
    requires n in s.net
  {
    var m := s.net[n];
    var slot := Slot(m.principal, m.request.key);
    && Grows(s.server, w)
    && (forall x :: x in w.committed ==> x in s.server.committed || x == slot)
    && (slot in w.committed && slot !in s.server.committed ==>
          && !Doomed(s.server, m.request) && (reply.Accepted? || reply.Broken?)
          && w.committed[slot].request == m.request && Confirms(w.committed[slot].receipt, m.request))
    && (reply.Accepted? ==> slot in w.committed && w.committed[slot] == Commit(m.request, reply.receipt))
    && (reply.Refused? ==> reply.code in DomainCodes + InitialCodes)
    && (reply.Refused? && reply.code in DomainCodes ==> slot !in w.committed && Doomed(w, m.request))
  }

  function Answered(s: State, n: nat, w: Server, reply: Reply): State
    requires n in s.net
  {
    s.(server := w, net := s.net[n := s.net[n].(reply := Some(reply))])
  }

  lemma GoneKept(s: State, n: nat, w: Server, reply: Reply, r: Request, principal: string)
    requires NetHolds(s) && n in s.net && s.net[n].reply.None? && Handles(s, n, w, reply)
    requires IsMinted(s, r, principal) && Gone(s, r, principal)
    ensures Gone(Answered(s, n, w, reply), r, principal)
  {
    assert MessageHolds(s, s.net[n]);
  }

  lemma AnsweredMessage(s: State, n: nat, w: Server, reply: Reply, x: nat)
    requires NetHolds(s) && n in s.net && s.net[n].reply.None? && Handles(s, n, w, reply) && x in s.net
    ensures var t := Answered(s, n, w, reply); x < t.nextSend && MessageHolds(t, t.net[x])
  {
    assert MessageHolds(s, s.net[n]) && MessageHolds(s, s.net[x]);
  }

  lemma AnsweredTables(s: State, n: nat, w: Server, reply: Reply)
    requires NetHolds(s) && CommitsHold(s) && MintsHold(s)
    requires n in s.net && s.net[n].reply.None? && Handles(s, n, w, reply)
    ensures var t := Answered(s, n, w, reply); CommitsHold(t) && MintsHold(t)
  {
    hide NetHolds, Known, Doomed, Confirms;
    NetIsHeld(s, n);
    AnsweredMints(s, n, w, reply);
  }

  lemma NetIsHeld(s: State, n: nat)
    requires NetHolds(s) && n in s.net
    ensures IsMinted(s, s.net[n].request, s.net[n].principal)
  {
    assert MessageHolds(s, s.net[n]);
  }

  lemma AnsweredMints(s: State, n: nat, w: Server, reply: Reply)
    requires MintsHold(s) && n in s.net && Grows(s.server, w)
    ensures MintsHold(Answered(s, n, w, reply))
  {
    hide Known, Doomed;
  }

  lemma AnsweredNet(s: State, n: nat, w: Server, reply: Reply)
    requires NetHolds(s) && n in s.net && s.net[n].reply.None? && Handles(s, n, w, reply)
    ensures NetHolds(Answered(s, n, w, reply))
  {
    hide Handles, MessageHolds;
    var t := Answered(s, n, w, reply);
    forall x | x in t.net ensures x < t.nextSend && MessageHolds(t, t.net[x]) {
      AnsweredMessage(s, n, w, reply, x);
    }
  }

  lemma AnsweredTarget(s: State, n: nat, w: Server, reply: Reply, x: Target)
    requires NetHolds(s) && MintsHold(s) && TargetGone(s, x)
    requires n in s.net && s.net[n].reply.None? && Handles(s, n, w, reply)
    ensures TargetGone(Answered(s, n, w, reply), x)
  {
    hide Handles, NetHolds, Gone;
    var t := Answered(s, n, w, reply);
    forall k | k in t.minted && t.minted[k].0.target == x ensures Accounted(t, x, k) {
      if Gone(s, s.minted[k].0, s.minted[k].1) {
        GoneKept(s, n, w, reply, s.minted[k].0, s.minted[k].1);
      }
    }
  }

  lemma AnsweredEntry(s: State, n: nat, w: Server, reply: Reply, x: Target)
    requires NetHolds(s) && n in s.net && s.net[n].reply.None? && Handles(s, n, w, reply)
    requires x in s.storage ==> SavedHolds(s, x)
    requires x in s.window.entries && EntryHolds(s, x)
    ensures EntryHolds(Answered(s, n, w, reply), x)
  {
    var t := Answered(s, n, w, reply);
    var e := s.window.entries[x];
    assert MessageHolds(s, s.net[n]);
    if x in s.storage && Gone(s, s.storage[x].request, s.storage[x].principal) {
      GoneKept(s, n, w, reply, s.storage[x].request, s.storage[x].principal);
    }
    if e.request.Some? && !e.uncertain && Committed(w, e.principal.value, e.request.value) {
      if Committed(s.server, e.principal.value, e.request.value) {
        assert Told(s, x);
      } else {
        assert OnlyAwaited(s, x, e.request.value.key);
      }
    }
  }

  lemma AnsweredHere(s: State, n: nat, w: Server, reply: Reply, x: Target)
    requires NetHolds(s) && MintsHold(s) && Here(s, x)
    requires n in s.net && s.net[n].reply.None? && Handles(s, n, w, reply)
    ensures Here(Answered(s, n, w, reply), x)
  {
    hide NetHolds, MintsHold, EntryHolds, TargetGone, Known, Doomed;
    AnsweredTarget(s, n, w, reply, x);
    if x in s.window.entries { AnsweredEntry(s, n, w, reply, x); }
  }

  lemma AnsweredKeeps(s: State, n: nat, w: Server, reply: Reply)
    requires Good(s) && n in s.net && s.net[n].reply.None? && Handles(s, n, w, reply)
    ensures Good(Answered(s, n, w, reply))
  {
    hide Good, Here, Handles, MintsHold, NetHolds, CommitsHold;
    var t := Answered(s, n, w, reply);
    GoodIsHere(s, s.net[n].request.target);
    AnsweredNet(s, n, w, reply);
    AnsweredTables(s, n, w, reply);
    forall x ensures Here(t, x) {
      GoodIsHere(s, x);
      AnsweredHere(s, n, w, reply, x);
    }
    HereIsGood(t);
  }

  lemma HandleKeeps(s: State, n: nat, how: Handling)
    requires Good(s) && n in s.net && s.net[n].reply.None?
    ensures Good(Handle(s, n, how))
  {
    hide Good, Execute, Handles;
    ExecuteHandles(s, n);
    var (v, reply) := Execute(s.server, s.net[n].principal, s.net[n].request);
    match how
    case Normally => AnsweredKeeps(s, n, v, reply);
    case Unauthorized => AnsweredKeeps(s, n, s.server, Unauthenticated);
    case Forbidding => AnsweredKeeps(s, n, s.server, Refused(Forbidden));
    case FailingBefore => AnsweredKeeps(s, n, s.server, Broken);
    case FailingAfter => AnsweredKeeps(s, n, v, Broken);
  }

  lemma ExecuteHandles(s: State, n: nat)
    requires Good(s) && n in s.net
    ensures var (v, reply) := Execute(s.server, s.net[n].principal, s.net[n].request);
      && Handles(s, n, v, reply) && Handles(s, n, v, Broken)
      && Handles(s, n, s.server, Broken) && Handles(s, n, s.server, Unauthenticated)
      && Handles(s, n, s.server, Refused(Forbidden))
  {
    hide Good, Execute, Doomed, NetHolds;
    var m := s.net[n];
    MessageIsGood(s, n);
    ReplayIsItsOwn(s, m);
    ExecuteGrows(s.server, m.principal, m.request);
    ExecuteAnswers(s.server, m.principal, m.request);
    assert Grows(s.server, s.server);
  }

  lemma MessageIsGood(s: State, n: nat)
    requires Good(s) && n in s.net
    ensures MessageHolds(s, s.net[n]) && Known(s.server, s.net[n].request) && CommitsHold(s)
  {
  }

  /** What is committed under a message's key is its own request. */
  lemma ReplayIsItsOwn(s: State, m: Message)
    requires CommitsHold(s) && IsMinted(s, m.request, m.principal)
    ensures var slot := Slot(m.principal, m.request.key);
      slot in s.server.committed ==> s.server.committed[slot].request == m.request
  {
  }

  // ---- an entry is replaced --------------------------------------------------------------------

  /** The invariant, but for target `t`. */
  ghost predicate Elsewhere(s: State, t: Target) {
    && MintsHold(s) && NetHolds(s) && CommitsHold(s) && Mirrored(s)
    && forall x :: x != t ==> Here(s, x)
  }

  lemma GoodIsElsewhere(s: State, t: Target)
    requires Good(s)
    ensures Elsewhere(s, t) && Here(s, t)
  {
    hide Here, MintsHold, NetHolds, CommitsHold, Mirrored;
  }

  /** Writing the table changes what storage holds about the replaced entry only. */
  lemma SetStores(s: State, t: Target, e: Entry, saves: bool)
    requires Mirrored(s)
    ensures var u := Set(s, t, e, saves);
      && Mirrored(u) && u == s.(window := u.window, storage := u.storage)
      && u.window.entries == s.window.entries[t := e] && u.window.awaiting == s.window.awaiting
      && (forall x :: x != t ==>
            (x in u.storage <==> x in s.storage) && (x in s.storage ==> u.storage[x] == s.storage[x]))
      && (s.window.blocked || !saves ==> u.storage == s.storage)
      && (!s.window.blocked && saves ==> (t in u.storage <==> Kept(e)) && (Kept(e) ==> u.storage[t] == SavedOf(e)))
  {
  }

  /** Server and network are as they were, and keys keep their requests. */
  ghost predicate Onward(s: State, u: State) {
    && u.server == s.server && u.net == s.net && u.nextSend == s.nextSend
    && forall k :: k in s.minted ==> k in u.minted && u.minted[k] == s.minted[k]
  }

  /** What the window and its storage hold about `x` is as it was. */
  ghost predicate SameAt(s: State, u: State, x: Target) {
    && (x in u.window.entries <==> x in s.window.entries)
    && (x in s.window.entries ==> u.window.entries[x] == s.window.entries[x])
    && (x in u.window.awaiting <==> x in s.window.awaiting)
    && (x in s.window.awaiting ==> u.window.awaiting[x] == s.window.awaiting[x])
    && (x in u.storage <==> x in s.storage) && (x in s.storage ==> u.storage[x] == s.storage[x])
  }

  lemma OnwardNet(s: State, u: State)
    requires Onward(s, u) && NetHolds(s)
    ensures NetHolds(u)
  {
    forall n | n in u.net ensures n < u.nextSend && MessageHolds(u, u.net[n]) {
      assert MessageHolds(s, s.net[n]);
    }
  }

  lemma OnwardCommits(s: State, u: State)
    requires Onward(s, u) && CommitsHold(s)
    ensures CommitsHold(u)
  {
  }

  lemma OnwardGone(s: State, u: State)
    requires Onward(s, u)
    ensures forall r, principal :: Gone(u, r, principal) == Gone(s, r, principal)
  {
  }

  lemma OnwardEntry(s: State, u: State, x: Target)
    requires Onward(s, u) && SameAt(s, u, x) && x in s.window.entries && EntryHolds(s, x)
    ensures EntryHolds(u, x)
  {
    OnwardGone(s, u);
    hide Gone;
  }

  /** Nothing changed at `x`, and whatever key was made for it is accounted for. */
  lemma OnwardHere(s: State, u: State, x: Target)
    requires Onward(s, u) && SameAt(s, u, x) && Here(s, x)
    requires forall k :: k in u.minted && u.minted[k].0.target == x && k !in s.minted ==> Accounted(u, x, k)
    ensures Here(u, x)
  {
    hide Gone, EntryHolds;
    OnwardGone(s, u);
    if x in s.window.entries { OnwardEntry(s, u, x); }
  }

  lemma SetKeeps(s: State, t: Target, e: Entry, saves: bool)
    requires Elsewhere(s, t) && Here(Set(s, t, e, saves), t)
    ensures Good(Set(s, t, e, saves))
  {
    hide Set, Here, MintsHold, NetHolds, CommitsHold, Mirrored;
    var u := Set(s, t, e, saves);
    SetStores(s, t, e, saves);
    OnwardNet(s, u);
    OnwardCommits(s, u);
    SameMints(s, u);
    forall x | x != t ensures Here(u, x) {
      OnwardHere(s, u, x);
    }
    HereIsGood(u);
  }

  lemma SameMints(s: State, u: State)
    requires u.server == s.server && u.minted == s.minted
    ensures MintsHold(u) == MintsHold(s)
  {
  }

  ghost predicate SameCore(e: Entry, f: Entry) {
    && e.request == f.request && e.principal == f.principal && e.uncertain == f.uncertain
    && e.acknowledged == f.acknowledged && e.status == f.status
  }

  /** A change that leaves the request, its certainty and its acknowledgement alone. */
  lemma TouchKeeps(s: State, t: Target, e: Entry, saves: bool)
    requires Good(s) && SameCore(e, EntryOf(s.window, t))
    ensures Good(Set(s, t, e, saves))
  {
    hide Good, Elsewhere, Here, Set;
    GoodIsElsewhere(s, t);
    TouchStores(s, t, e, saves);
    SetStores(s, t, e, saves);
    TouchHere(s, t, e, Set(s, t, e, saves));
    SetKeeps(s, t, e, saves);
  }

  lemma TouchStores(s: State, t: Target, e: Entry, saves: bool)
    requires Good(s) && SameCore(e, EntryOf(s.window, t))
    ensures Mirrored(s) && (t in s.window.awaiting ==> t in s.window.entries)
    ensures var u := Set(s, t, e, saves);
      (t in u.storage <==> t in s.storage) && (t in s.storage ==> u.storage[t] == s.storage[t])
  {
    hide Good, Set, TargetGone, NetHolds, MintsHold, CommitsHold;
    GoodIsHere(s, t);
    SetStores(s, t, e, saves);
  }

  /** A touched entry is as good as it was. */
  lemma TouchHere(s: State, t: Target, e: Entry, u: State)
    requires Here(s, t) && SameCore(e, EntryOf(s.window, t)) && (t in s.window.awaiting ==> t in s.window.entries)
    requires u == s.(window := u.window, storage := u.storage)
    requires u.window.entries == s.window.entries[t := e] && u.window.awaiting == s.window.awaiting
    requires (t in u.storage <==> t in s.storage) && (t in s.storage ==> u.storage[t] == s.storage[t])
    ensures Here(u, t)
  {
    assert t in s.window.entries ==> EntryHolds(s, t);
  }

  lemma RefreshKeeps(s: State, versions: map<Target, nat>)
    requires Good(s)
    ensures Good(s.(window := s.window.(versions := versions)))
  {
    hide Good, Here, NetHolds, CommitsHold, MintsHold;
    var u := s.(window := s.window.(versions := versions));
    GoodIsHere(s, Target("", None));
    OnwardNet(s, u);
    OnwardCommits(s, u);
    SameMints(s, u);
    forall x ensures Here(u, x) {
      GoodIsHere(s, x);
      OnwardHere(s, u, x);
    }
    HereIsGood(u);
  }

  // ---- a submission ends -----------------------------------------------------------------------

  /** The reply the window acts on: the awaited one, or none it can tell from a lost one. */
  ghost predicate Hears(s: State, t: Target, reply: Reply) {
    && t in s.window.awaiting && s.window.awaiting[t].send in s.net
    && (reply == Broken || s.net[s.window.awaiting[t].send].reply == Some(reply))
  }

  /** A submission that ends as rejected has not committed and never can. */
  lemma RejectionIsFinal(s: State, t: Target, reply: Reply)
    requires Good(s) && Hears(s, t, reply)
    requires var f := s.window.awaiting[t];
      Concluded(f.pending, s.net[f.send].request, s.net[f.send].principal, reply).status == Rejected
    ensures var m := s.net[s.window.awaiting[t].send]; Gone(s, m.request, m.principal)
  {
    hide Good, TargetGone, CommitsHold;
    ConcludeFacts(s, t);
    var f := s.window.awaiting[t];
    if reply.code !in DomainCodes {
      assert OnlyAwaited(s, t, s.net[f.send].request.key);
    }
  }

  lemma ConcludeElsewhere(s: State, t: Target, e: Entry)
    requires Good(s) && t in s.window.awaiting
    ensures Elsewhere(Landed(s, t, e), t)
  {
    hide Good, Here, NetHolds, CommitsHold, MintsHold;
    var u := Landed(s, t, e);
    GoodIsHere(s, t);
    OnwardNet(s, u);
    OnwardCommits(s, u);
    SameMints(s, u);
    forall x | x != t ensures Here(u, x) {
      GoodIsHere(s, x);
      OnwardHere(s, u, x);
    }
  }

  lemma ConcludeKeeps(s: State, t: Target, reply: Reply, saves: bool)
    requires Good(s) && Hears(s, t, reply)
    ensures Good(Conclude(s, t, reply, saves))
  {
    hide Good, Elsewhere, Here, Set, Landed, Ending;
    var e := Ending(s, t, reply);
    ConcludeElsewhere(s, t, e);
    ConcludeHere(s, t, reply, saves);
    SetKeeps(Landed(s, t, e), t, e, saves);
  }

  lemma ConcludeHere(s: State, t: Target, reply: Reply, saves: bool)
    requires Good(s) && Hears(s, t, reply)
    ensures Here(Conclude(s, t, reply, saves), t)
  {
    hide Good, Here, Set, Concluded, Gone;
    var e, v := Ending(s, t, reply), Landed(s, t, Ending(s, t, reply));
    HeardIsHeld(s, t);
    SetStores(v, t, e, saves);
    if e.status == Rejected { RejectionIsFinal(s, t, reply); }
    EndsHere(s, t, reply, v, Set(v, t, e, saves));
  }

  lemma EndsHere(s: State, t: Target, reply: Reply, v: State, u: State)
    requires Good(s) && Hears(s, t, reply)
    requires v.server == s.server && v.net == s.net && v.minted == s.minted && v.storage == s.storage
    requires u == v.(window := u.window, storage := u.storage)
    requires t !in u.window.awaiting && t in u.window.entries && u.window.entries[t] == Ending(s, t, reply)
    requires var e := Ending(s, t, reply);
      if t in u.storage then u.storage == s.storage || (Kept(e) && u.storage[t] == SavedOf(e)) else !Kept(e)
    requires Ending(s, t, reply).status == Rejected ==>
      var m := s.net[s.window.awaiting[t].send]; Gone(s, m.request, m.principal)
    ensures Here(u, t)
  {
    hide Good;
    ConcludeFacts(s, t);
    var m := s.net[s.window.awaiting[t].send];
    forall k | k in u.minted && u.minted[k].0.target == t ensures Accounted(u, t, k) {
      assert Accounted(s, t, k);
      assert k == m.request.key || Gone(s, s.minted[k].0, s.minted[k].1);
    }
    assert EntryHolds(u, t);
  }

  lemma ConcludeFacts(s: State, t: Target)
    requires Good(s) && t in s.window.awaiting && s.window.awaiting[t].send in s.net
    ensures FlightHolds(s, t) && EntryHolds(s, t) && t in s.storage && SavedHolds(s, t)
    ensures MessageHolds(s, s.net[s.window.awaiting[t].send]) && CommitsHold(s) && TargetGone(s, t)
  {
    hide Good, Gone, MessageHolds, MintsHold, CommitsHold, TargetGone;
    GoodIsHere(s, t);
  }

  // ---- a submission begins ---------------------------------------------------------------------

  /** A fresh key belongs to nothing yet. */
  lemma MintKeeps(s: State, r: Request, principal: string)
    requires Good(s) && r.key !in s.minted && Known(s.server, r) && Sound(r) && principal != ""
    ensures Good(s.(minted := s.minted[r.key := (r, principal)]))
    ensures !Committed(s.server, principal, r) && Quiet(s.net, r.key)
  {
    hide Good, Here, NetHolds, CommitsHold, Gone, Quiet, Known, Sound;
    var u := s.(minted := s.minted[r.key := (r, principal)]);
    GoodIsHere(s, r.target);
    FreshIsNowhere(s, r, principal);
    OnwardNet(s, u);
    OnwardCommits(s, u);
    forall x ensures Here(u, x) {
      GoodIsHere(s, x);
      NobodyHasIt(s, u, r, principal);
      OnwardHere(s, u, x);
    }
    HereIsGood(u);
  }

  lemma FreshIsNowhere(s: State, r: Request, principal: string)
    requires NetHolds(s) && CommitsHold(s) && r.key !in s.minted
    ensures !Committed(s.server, principal, r) && Quiet(s.net, r.key)
  {
    forall n | n in s.net ensures s.net[n].request.key != r.key {
      assert MessageHolds(s, s.net[n]);
    }
  }

  lemma NobodyHasIt(s: State, u: State, r: Request, principal: string)
    requires !Committed(s.server, principal, r) && Quiet(s.net, r.key) && u.server == s.server && u.net == s.net
    ensures Gone(u, r, principal)
  {
  }

  function Sent(s: State, t: Target, pending: Entry, r: Request, principal: string): State {
    s.(net := s.net[s.nextSend := Message(r, principal, None)], nextSend := s.nextSend + 1,
       window := s.window.(awaiting := s.window.awaiting[t := Flight(s.nextSend, pending)]))
  }

  /** A new copy concerns its own request only. */
  lemma SentTouchesItsOwn(s: State, t: Target, pending: Entry, r: Request, principal: string)
    requires Good(s) && IsMinted(s, r, principal) && r.target == t
    ensures var u := Sent(s, t, pending, r, principal);
      && NetHolds(u) && MintsHold(u) && CommitsHold(u) && s.nextSend !in s.net
      && (forall q, p :: IsMinted(s, q, p) && q.target != t ==> q.key != r.key && Gone(u, q, p) == Gone(s, q, p))
  {
    var u := Sent(s, t, pending, r, principal);
    forall n | n in u.net ensures n < u.nextSend && MessageHolds(u, u.net[n]) {
      if n in s.net { assert MessageHolds(s, s.net[n]); }
    }
    forall q, p | IsMinted(s, q, p) && q.target != t ensures q.key != r.key && Gone(u, q, p) == Gone(s, q, p) {
      assert q.key != r.key;
      OtherQuiet(s, t, pending, r, principal, q.key);
    }
  }

  lemma OtherQuiet(s: State, t: Target, pending: Entry, r: Request, principal: string, key: string)
    requires key != r.key && s.nextSend !in s.net
    ensures Quiet(Sent(s, t, pending, r, principal).net, key) == Quiet(s.net, key)
  {
    var net := Sent(s, t, pending, r, principal).net;
    if Quiet(net, key) {
      forall n | n in s.net && s.net[n].request.key == key ensures s.net[n].reply.Some? { assert net[n] == s.net[n]; }
    }
  }

  lemma SentElsewhere(s: State, t: Target, pending: Entry, r: Request, principal: string)
    requires Good(s) && IsMinted(s, r, principal) && r.target == t
    ensures Elsewhere(Sent(s, t, pending, r, principal), t)
  {
    hide Good, Here, NetHolds, MintsHold, CommitsHold;
    var u := Sent(s, t, pending, r, principal);
    GoodIsHere(s, t);
    SentTouchesItsOwn(s, t, pending, r, principal);
    forall x | x != t ensures Here(u, x) {
      GoodIsHere(s, x);
      SentThere(s, t, pending, r, principal, x);
    }
  }

  lemma SentThere(s: State, t: Target, pending: Entry, r: Request, principal: string, x: Target)
    requires Good(s) && IsMinted(s, r, principal) && r.target == t && x != t && Here(s, x)
    ensures Here(Sent(s, t, pending, r, principal), x)
  {
    hide Gone, Good, NetHolds, MintsHold, CommitsHold, EntryHolds;
    SentTouchesItsOwn(s, t, pending, r, principal);
    GoodMints(s);
    if x in s.window.entries { SentEntry(s, t, pending, r, principal, x); }
  }

  lemma GoodMints(s: State)
    requires Good(s)
    ensures forall k :: k in s.minted ==> IsMinted(s, s.minted[k].0, s.minted[k].1)
  {
  }

  lemma SentEntry(s: State, t: Target, pending: Entry, r: Request, principal: string, x: Target)
    requires Good(s) && IsMinted(s, r, principal) && r.target == t && x != t && x in s.window.entries
    ensures EntryHolds(Sent(s, t, pending, r, principal), x)
  {
    hide Gone, Good, NetHolds, MintsHold, CommitsHold;
    GoodIsHere(s, x);
    SentTouchesItsOwn(s, t, pending, r, principal);
  }

  /** A request may be sent for `t`: it is the retained one, or fresh while nothing is retained. */
  ghost predicate MaySend(s: State, t: Target, r: Request, principal: string) {
    var e := EntryOf(s.window, t);
    && !s.window.blocked && e.status != Submitting && IsMinted(s, r, principal) && r.target == t
    && e.acknowledged.None?
    && if e.request.Some? then e.request.value == r && e.principal == Some(principal)
       else !Committed(s.server, principal, r) && Quiet(s.net, r.key)
  }

  function Pending(e: Entry, r: Request, principal: string): Entry {
    e.(request := Some(r), principal := Some(principal), status := Submitting,
       error := None, rejectionCode := None, rejectedRevision := None)
  }

  /** A request is on the network only once storage holds it; otherwise the entry is as before. */
  lemma SendWritesFirst(s: State, t: Target, e: Entry, r: Request, principal: string, saves: bool)
    requires !s.window.blocked
    ensures Send(s, t, e, r, principal, saves) ==
      if saves then Set(Sent(s, t, Pending(e, r, principal), r, principal), t, Pending(e, r, principal), true)
      else Set(s, t, e, false)
    ensures var u := Send(s, t, e, r, principal, saves);
      saves ==> t in u.storage && u.storage[t] == Saved(r, principal, None)
  {
    hide Kept, SavedOf, Persisted, Set;
    var pending := Pending(e, r, principal);
    SavedPending(e, r, principal);
    if saves {
      SendSaves(s, t, e, r, principal);
      SetSaves(Sent(s, t, pending, r, principal), t, pending);
    } else {
      SendFails(s, t, e, r, principal);
    }
  }

  lemma SendSaves(s: State, t: Target, e: Entry, r: Request, principal: string)
    requires !s.window.blocked
    ensures var pending := Pending(e, r, principal);
      Send(s, t, e, r, principal, true) == Set(Sent(s, t, pending, r, principal), t, pending, true)
  {
    hide Persisted;
  }

  lemma SendFails(s: State, t: Target, e: Entry, r: Request, principal: string)
    requires !s.window.blocked
    ensures Send(s, t, e, r, principal, false) == Set(s, t, e, false)
  {
    hide Persisted;
    assert s.window.entries[t := Pending(e, r, principal)][t := e] == s.window.entries[t := e];
  }

  lemma SetSaves(s: State, t: Target, e: Entry)
    requires !s.window.blocked && Kept(e)
    ensures var u := Set(s, t, e, true); t in u.storage && u.storage[t] == SavedOf(e)
  {
    hide SavedOf;
  }

  lemma SavedPending(e: Entry, r: Request, principal: string)
    ensures var pending := Pending(e, r, principal); Kept(pending) && SavedOf(pending) == Saved(r, principal, None)
  {
  }

  lemma SendKeeps(s: State, t: Target, r: Request, principal: string, saves: bool)
    requires Good(s) && MaySend(s, t, r, principal)
    ensures Good(Send(s, t, EntryOf(s.window, t), r, principal, saves))
  {
    hide Good, Set, Sent, Send, Here, Elsewhere;
    var e := EntryOf(s.window, t);
    SendWritesFirst(s, t, e, r, principal, saves);
    if !saves {
      TouchKeeps(s, t, e, false);
    } else {
      SentElsewhere(s, t, Pending(e, r, principal), r, principal);
      SendHere(s, t, r, principal, Pending(e, r, principal));
      SetKeeps(Sent(s, t, Pending(e, r, principal), r, principal), t, Pending(e, r, principal), true);
    }
  }

  lemma SendHere(s: State, t: Target, r: Request, principal: string, pending: Entry)
    requires Good(s) && MaySend(s, t, r, principal)
    requires pending == Pending(EntryOf(s.window, t), r, principal)
    ensures Here(Set(Sent(s, t, pending, r, principal), t, pending, true), t)
  {
    hide Good, Set, NetHolds, MintsHold, CommitsHold, EntryHolds, TargetGone;
    GoodIsHere(s, t);
    MayBeAwaited(s, t, r, principal);
    var v := Sent(s, t, pending, r, principal);
    SetStores(v, t, pending, true);
    SentTarget(s, t, r, principal, pending, Set(v, t, pending, true));
    SentIsAwaited(s, t, r, principal, pending, Set(v, t, pending, true));
  }

  /** Storage and table hold the pending request, and the new copy is on its way. */
  ghost predicate IsSent(s: State, t: Target, r: Request, principal: string, pending: Entry, u: State) {
    var v := Sent(s, t, pending, r, principal);
    && u == v.(window := u.window, storage := u.storage) && u.window.awaiting == v.window.awaiting
    && t in u.window.entries && u.window.entries[t] == pending
    && t in u.storage && u.storage[t] == Saved(r, principal, None)
  }

  lemma MayBeAwaited(s: State, t: Target, r: Request, principal: string)
    requires Here(s, t) && Mirrored(s) && MaySend(s, t, r, principal)
    ensures t !in s.window.awaiting
    ensures t in s.storage ==> s.storage[t].request.key == r.key
  {
    hide TargetGone, Committed, Quiet;
  }

  lemma SentTarget(s: State, t: Target, r: Request, principal: string, pending: Entry, u: State)
    requires Here(s, t) && MintsHold(s) && MaySend(s, t, r, principal) && IsSent(s, t, r, principal, pending, u)
    requires t in s.storage ==> s.storage[t].request.key == r.key
    ensures TargetGone(u, t)
  {
    hide EntryHolds, FlightHolds, SavedHolds, MaySend;
    forall k | k in u.minted && u.minted[k].0.target == t ensures Accounted(u, t, k) {
      if k != r.key {
        assert Accounted(s, t, k);
        StillGone(s, t, r, principal, pending, u, k);
      }
    }
  }

  lemma StillGone(s: State, t: Target, r: Request, principal: string, pending: Entry, u: State, k: string)
    requires IsSent(s, t, r, principal, pending, u) && k in s.minted && k != r.key
    requires Gone(s, s.minted[k].0, s.minted[k].1) && s.minted[k].0.key == k
    ensures Gone(u, s.minted[k].0, s.minted[k].1)
  {
  }

  lemma SentIsAwaited(s: State, t: Target, r: Request, principal: string, pending: Entry, u: State)
    requires Here(s, t) && NetHolds(s) && MaySend(s, t, r, principal) && IsSent(s, t, r, principal, pending, u)
    requires pending == Pending(EntryOf(s.window, t), r, principal)
    ensures EntryHolds(u, t) && FlightHolds(u, t) && SavedHolds(u, t)
  {
    hide TargetGone;
    assert OnlyAwaited(u, t, r.key) || pending.uncertain;
  }

  // ---- reload ----------------------------------------------------------------------------------

  /** A reload recovers exactly what was kept. */
  lemma RecoveryIsExact(saved: map<Target, Saved>)
    ensures Persisted(Recovered(saved)) == saved
  {
    assert forall t :: t in saved ==> Kept(Restored(saved[t])) && SavedOf(Restored(saved[t])) == saved[t];
  }

  lemma ReloadKeeps(s: State, readable: bool)
    requires Good(s)
    ensures Good(Reload(s, readable))
  {
    hide Good, Here, NetHolds, CommitsHold, MintsHold, Recovered, Persisted;
    var u := Reload(s, readable);
    GoodIsHere(s, Target("", None));
    OnwardNet(s, u);
    OnwardCommits(s, u);
    SameMints(s, u);
    RecoveryIsExact(s.storage);
    forall x ensures Here(u, x) {
      GoodIsHere(s, x);
      ReloadHere(s, readable, x);
    }
    HereIsGood(u);
  }

  lemma ReloadHere(s: State, readable: bool, x: Target)
    requires Here(s, x)
    ensures Here(Reload(s, readable), x)
  {
    var u := Reload(s, readable);
    OnwardGone(s, u);
    hide Gone;
  }

  // ---- every run -------------------------------------------------------------------------------

  lemma SubmitKeeps(s: State, t: Target, principal: string, v: View, key: string, saves: bool)
    requires Good(s) && Enabled(s, Press(t, principal, v, key, saves))
    ensures Good(Submit(s, t, principal, v, key, saves))
  {
    hide Good, Set, Send, MaySend, Objection, OriginalHumanOnly;
    var e := EntryOf(s.window, t);
    NoObjection(e, t, principal, v);
    if s.window.blocked || e.status == Submitting {
    } else if e.request.Some? {
      RetainedMaySend(s, t);
      if e.principal != Some(principal) {
        TouchKeeps(s, t, e.(error := Some(OriginalHumanOnly())), saves);
      } else {
        SendKeeps(s, t, e.request.value, principal, saves);
      }
    } else {
      var objection := Objection(e, t, principal, v);
      if objection.Some? {
        TouchKeeps(s, t, e.(error := objection), saves);
      } else {
        var r := Request(key, t, v.revision, if v.input.Some? then v.input.value.disposition else 0);
        FirstSendKeeps(s, t, r, principal, saves);
      }
    }
  }

  lemma NoObjection(e: Entry, t: Target, principal: string, v: View)
    ensures Objection(e, t, principal, v).None? ==>
      && e.acknowledged.None? && !e.reviewRequired && principal != "" && (t.input.Some? ==> v.input.Some?)
  {
  }

  lemma RetainedMaySend(s: State, t: Target)
    requires Good(s) && !s.window.blocked && EntryOf(s.window, t).status != Submitting
    requires EntryOf(s.window, t).request.Some?
    ensures EntryOf(s.window, t).principal.Some?
    ensures MaySend(s, t, EntryOf(s.window, t).request.value, EntryOf(s.window, t).principal.value)
  {
    hide Good;
    GoodIsHere(s, t);
  }

  lemma FirstSendKeeps(s: State, t: Target, r: Request, principal: string, saves: bool)
    requires Good(s) && r.key !in s.minted && Known(s.server, r) && Sound(r) && principal != "" && r.target == t
    requires !s.window.blocked && EntryOf(s.window, t).status != Submitting && !Kept(EntryOf(s.window, t))
    ensures Good(Send(s.(minted := s.minted[r.key := (r, principal)]), t, EntryOf(s.window, t), r, principal, saves))
  {
    hide Good, Send;
    MintKeeps(s, r, principal);
    SendKeeps(s.(minted := s.minted[r.key := (r, principal)]), t, r, principal, saves);
  }

  lemma TakeKeeps(s: State, a: Step)
    requires Good(s) && Enabled(s, a)
    ensures Good(Take(s, a))
  {
    hide Good, Submit, Handle, Conclude, Set, Reload;
    match a
    case Press(t, principal, view, key, saves) => SubmitKeeps(s, t, principal, view, key, saves);
    case Arrive(n, how) => HandleKeeps(s, n, how);
    case Answer(t, saves) => ConcludeKeeps(s, t, s.net[s.window.awaiting[t].send].reply.value, saves);
    case GiveUp(t, saves) => ConcludeKeeps(s, t, Broken, saves);
    case StartRefresh(t, saves) =>
      var versions := s.window.versions[t := VersionOf(s.window, t) + 1];
      RefreshKeeps(s, versions);
      TouchKeeps(s.(window := s.window.(versions := versions)), t,
                 EntryOf(s.window, t).(projection := Refreshing), saves);
    case FinishRefresh(t, version, ok, saves) =>
      var e := EntryOf(s.window, t);
      TouchKeeps(s, t, e.(projection := Settled, reviewRequired := false), saves);
      TouchKeeps(s, t, e.(projection := Failed), saves);
    case NewWindow(readable) => ReloadKeeps(s, readable);
    case _ => ElsewhereKeeps(s, a);
  }

  /** Other commands reach the server. */
  lemma ElsewhereKeeps(s: State, a: Step)
    requires Good(s) && Enabled(s, a) && (a.Create? || a.Advance? || a.Assign? || a.Dispose?)
    ensures Good(Take(s, a))
  {
    hide Good, Grows, Take, Enabled;
    ElsewhereGrows(s, a);
    ServerMoves(s, Take(s, a).server);
  }

  lemma ElsewhereGrows(s: State, a: Step)
    requires Enabled(s, a) && (a.Create? || a.Advance? || a.Assign? || a.Dispose?)
    ensures var v := Take(s, a).server;
      Take(s, a) == s.(server := v) && Grows(s.server, v) && v.committed == s.server.committed
  {
    hide Grows, Submit, Handle, Conclude, BeginRefresh, EndRefresh, Reload;
    var v := s.server;
    match a
    case Create(run) => RunGrows(v, run, Run(1, false));
    case Advance(run, terminal) => RunGrows(v, run, Run(v.runs[run].revision + 1, v.runs[run].terminal || terminal));
    case Assign(t, assigner) => InputGrows(v, t, Input(1, true, assigner));
    case Dispose(t, pending) =>
      InputGrows(v, t, v.inputs[t].(disposition := v.inputs[t].disposition + 1, pending := pending));
  }

  /** Runs and inputs only move on. */
  lemma RunGrows(v: Server, id: string, run: Run)
    requires id in v.runs ==> v.runs[id].revision <= run.revision && (v.runs[id].terminal ==> run.terminal)
    ensures Grows(v, v.(runs := v.runs[id := run]))
  {
  }

  lemma InputGrows(v: Server, t: Target, input: Input)
    requires t in v.inputs ==> v.inputs[t].disposition <= input.disposition
    ensures Grows(v, v.(inputs := v.inputs[t := input]))
  {
  }

  lemma ControlsKeepGood()
    ensures Inductive(Controls(), (s: State) => Good(s))
  {
    forall s: State, a: Step | Good(s) && Controls().enabled(s, a) ensures Good(Controls().next(s, a)) {
      TakeKeeps(s, a);
    }
  }

  lemma EveryRunIsGood(steps: seq<Step>)
    requires Legal(Controls(), Initial, steps)
    ensures Good(After(Controls(), Initial, steps))
  {
    ControlsKeepGood();
    RunKeeps(Controls(), (s: State) => Good(s), Initial, steps);
  }

  /** For each control target the server commits at most one request, over every run of presses, lost or
      late replies, failed authentications, refusals, storage failures and reloads. */
  lemma CommittedAtMostOnce(steps: seq<Step>, a: Slot, b: Slot)
    requires Legal(Controls(), Initial, steps)
    requires var v := After(Controls(), Initial, steps).server;
      a in v.committed && b in v.committed && v.committed[a].request.target == v.committed[b].request.target
    ensures a == b
  {
    hide Good, Legal;
    EveryRunIsGood(steps);
    CommitIsHeld(After(Controls(), Initial, steps), a);
    CommitIsHeld(After(Controls(), Initial, steps), b);
  }

  /** What has committed is the request storage holds for its target. */
  lemma CommitIsHeld(s: State, slot: Slot)
    requires Good(s) && slot in s.server.committed
    ensures var t := s.server.committed[slot].request.target;
      t in s.storage && s.storage[t].request.key == slot.key && s.storage[t].principal == slot.principal
  {
    hide Good, EntryHolds, FlightHolds, NetHolds;
    var t := s.server.committed[slot].request.target;
    GoodIsHere(s, t);
    assert IsMinted(s, s.server.committed[slot].request, slot.principal);
    assert Accounted(s, t, slot.key);
  }

  /** What the window shows is true: an acknowledged action is the one that committed, and a rejected one
      left nothing behind. */
  lemma ShownIsTrue(steps: seq<Step>, t: Target)
    requires Legal(Controls(), Initial, steps) && t in After(Controls(), Initial, steps).window.entries
    ensures var s := After(Controls(), Initial, steps); var e := s.window.entries[t];
      && (e.acknowledged.Some? ==>
            Slot(e.acknowledged.value.principal, e.acknowledged.value.request.key) in s.server.committed
            && e.acknowledged.value.request.target == t
            && Confirms(e.acknowledged.value.receipt, e.acknowledged.value.request))
      && (e.status == Rejected ==>
            forall slot :: slot in s.server.committed ==> s.server.committed[slot].request.target != t)
  {
    hide Good, Legal, Here;
    EveryRunIsGood(steps);
    var s := After(Controls(), Initial, steps);
    GoodIsHere(s, t);
    EntryIsTrue(s, t);
    forall slot | slot in s.server.committed && s.server.committed[slot].request.target == t
      ensures t in s.storage && s.storage[t].request.key == slot.key && s.storage[t].principal == slot.principal
    {
      CommitIsHeld(s, slot);
    }
  }

  lemma EntryIsTrue(s: State, t: Target)
    requires Here(s, t) && CommitsHold(s) && t in s.window.entries
    ensures var e := s.window.entries[t];
      && (e.acknowledged.Some? ==>
            && Slot(e.acknowledged.value.principal, e.acknowledged.value.request.key) in s.server.committed
            && e.acknowledged.value.request.target == t
            && Confirms(e.acknowledged.value.receipt, e.acknowledged.value.request))
      && (e.status == Rejected && t in s.storage ==>
            Slot(s.storage[t].principal, s.storage[t].request.key) !in s.server.committed)
  {
    hide TargetGone;
  }

  lemma NothingIsHeld(s: State, t: Target)
    requires Good(s) && !s.window.blocked && !Kept(EntryOf(s.window, t))
    ensures t !in s.storage
  {
  }

  /** A fresh key goes out only once every earlier request for the target can never commit. */
  lemma FreshKeyOnlyWhenOthersAreGone(
    s: State, t: Target, principal: string, v: View, key: string, saves: bool, k: string)
    requires Good(s) && Enabled(s, Press(t, principal, v, key, saves))
    requires key in Submit(s, t, principal, v, key, saves).minted
    requires k in s.minted && s.minted[k].0.target == t
    ensures Gone(s, s.minted[k].0, s.minted[k].1) && !Held(s, k)
  {
    hide Good, Elsewhere, Persisted, Gone;
    GoodIsElsewhere(s, t);
    SubmitMints(s, t, principal, v, key, saves);
    NothingIsHeld(s, t);
  }

  lemma SubmitMints(s: State, t: Target, principal: string, v: View, key: string, saves: bool)
    requires key !in s.minted && key in Submit(s, t, principal, v, key, saves).minted
    ensures !s.window.blocked && !Kept(EntryOf(s.window, t))
  {
    hide Set, Send;
    var e := EntryOf(s.window, t);
    if e.request.Some? {
      SetMints(s, t, e.(error := Some(OriginalHumanOnly())), saves);
      SendMints(s, t, e, e.request.value, principal, saves);
    } else {
      SetMints(s, t, e.(error := Objection(e, t, principal, v)), saves);
    }
  }

  lemma SetMints(s: State, t: Target, e: Entry, saves: bool)
    ensures Set(s, t, e, saves).minted == s.minted
  {
    hide Persisted;
  }

  lemma SendMints(s: State, t: Target, e: Entry, r: Request, principal: string, saves: bool)
    ensures Send(s, t, e, r, principal, saves).minted == s.minted
  {
    hide Set;
    SetMints(s, t, Pending(e, r, principal), saves);
    SetMints(Set(s, t, Pending(e, r, principal), saves), t, e, saves);
  }

  // ---- and stays so ----------------------------------------------------------------------------

  /** Storage keeps the request with this key. */
  ghost predicate Held(s: State, k: string)
    requires k in s.minted
  {
    var t := s.minted[k].0.target;
    t in s.storage && s.storage[t].request.key == k
  }

  /** Keys keep their requests, and one that storage has let go never comes back. */
  ghost predicate LetsGo(s: State, u: State) {
    forall k :: k in s.minted ==> k in u.minted && u.minted[k] == s.minted[k] && (Held(u, k) ==> Held(s, k))
  }

  /** At `t`, storage holds what it held, nothing, or a key that is new. */
  ghost predicate HoldsNoOther(s: State, u: State, t: Target) {
    t in u.storage ==> (t in s.storage && u.storage[t].request.key == s.storage[t].request.key)
                       || u.storage[t].request.key !in s.minted
  }

  lemma SetLetsGo(s: State, v: State, t: Target, e: Entry, saves: bool)
    requires Mirrored(v) && v.storage == s.storage && HoldsNoOther(s, Set(v, t, e, saves), t)
    requires forall k :: k in s.minted ==> k in v.minted && v.minted[k] == s.minted[k]
    ensures LetsGo(s, Set(v, t, e, saves))
  {
    SetStores(v, t, e, saves);
  }

  lemma TouchLetsGo(s: State, v: State, t: Target, e: Entry, saves: bool)
    requires Good(s) && SameCore(e, EntryOf(s.window, t)) && v == s.(window := v.window)
    requires v.window.entries == s.window.entries && v.window.blocked == s.window.blocked
    ensures LetsGo(s, Set(v, t, e, saves))
  {
    hide Good, TargetGone, NetHolds, MintsHold, CommitsHold;
    GoodIsHere(s, t);
    SetStores(v, t, e, saves);
    SetLetsGo(s, v, t, e, saves);
  }

  lemma ConcludeLetsGo(s: State, t: Target, reply: Reply, saves: bool)
    requires Good(s) && Hears(s, t, reply)
    ensures LetsGo(s, Conclude(s, t, reply, saves))
  {
    hide Good, Set;
    HeardIsHeld(s, t);
    var e := Ending(s, t, reply);
    SetStores(Landed(s, t, e), t, e, saves);
    SetLetsGo(s, Landed(s, t, e), t, e, saves);
  }

  lemma HeardIsHeld(s: State, t: Target)
    requires Good(s) && t in s.window.awaiting
    ensures var f := s.window.awaiting[t];
      && Mirrored(s) && f.send in s.net && f.pending.acknowledged.None? && f.pending.request.Some?
      && f.pending.request.value == s.net[f.send].request
      && t in s.storage && s.storage[t].request.key == s.net[f.send].request.key
  {
    hide Good, TargetGone, NetHolds, MintsHold, CommitsHold;
    GoodIsHere(s, t);
  }

  lemma SendLetsGo(s: State, v: State, t: Target, r: Request, principal: string, saves: bool)
    requires Mirrored(v) && v.storage == s.storage && !v.window.blocked
    requires r.key in s.minted ==> t in s.storage && s.storage[t].request.key == r.key
    requires forall k :: k in s.minted ==> k in v.minted && v.minted[k] == s.minted[k]
    ensures LetsGo(s, Send(v, t, EntryOf(v.window, t), r, principal, saves))
  {
    hide Send, Persisted;
    var e := EntryOf(v.window, t);
    SendWritesFirst(v, t, e, r, principal, saves);
    if saves {
      var w := Sent(v, t, Pending(e, r, principal), r, principal);
      SetStores(w, t, Pending(e, r, principal), true);
      SetLetsGo(s, w, t, Pending(e, r, principal), true);
    } else {
      SetStores(v, t, e, false);
      SetLetsGo(s, v, t, e, false);
    }
  }

  lemma RequestIsHeld(s: State, t: Target)
    requires Good(s)
    ensures Mirrored(s)
    ensures var e := EntryOf(s.window, t);
      e.request.Some? ==> t in s.storage && s.storage[t].request.key == e.request.value.key
  {
    hide Good, TargetGone, NetHolds, MintsHold, CommitsHold;
    GoodIsHere(s, t);
  }

  lemma SubmitLetsGo(s: State, t: Target, principal: string, v: View, key: string, saves: bool)
    requires Good(s) && Enabled(s, Press(t, principal, v, key, saves))
    ensures LetsGo(s, Submit(s, t, principal, v, key, saves))
  {
    hide Good, Set, Send, LetsGo, Objection, OriginalHumanOnly;
    var e := EntryOf(s.window, t);
    RequestIsHeld(s, t);
    SameLetsGo(s, s);
    if s.window.blocked || e.status == Submitting {
    } else if e.request.Some? {
      TouchLetsGo(s, s, t, e.(error := Some(OriginalHumanOnly())), saves);
      SendLetsGo(s, s, t, e.request.value, principal, saves);
    } else {
      var objection := Objection(e, t, principal, v);
      TouchLetsGo(s, s, t, e.(error := objection), saves);
      var r := Request(key, t, v.revision, if v.input.Some? then v.input.value.disposition else 0);
      SendLetsGo(s, s.(minted := s.minted[key := (r, principal)]), t, r, principal, saves);
    }
  }

  lemma SameLetsGo(s: State, u: State)
    requires u.storage == s.storage && u.minted == s.minted
    ensures LetsGo(s, u)
  {
  }

  lemma TakeLetsGo(s: State, a: Step)
    requires Good(s) && Enabled(s, a)
    ensures LetsGo(s, Take(s, a))
  {
    hide Good, LetsGo, Set, Submit, Conclude, Execute;
    SameLetsGo(s, s);
    match a
    case Press(t, principal, view, key, saves) => SubmitLetsGo(s, t, principal, view, key, saves);
    case Answer(t, saves) => ConcludeLetsGo(s, t, s.net[s.window.awaiting[t].send].reply.value, saves);
    case GiveUp(t, saves) => ConcludeLetsGo(s, t, Broken, saves);
    case StartRefresh(t, saves) =>
      var versions := s.window.versions[t := VersionOf(s.window, t) + 1];
      TouchLetsGo(s, s.(window := s.window.(versions := versions)), t,
                  EntryOf(s.window, t).(projection := Refreshing), saves);
    case FinishRefresh(t, version, ok, saves) =>
      var e := EntryOf(s.window, t);
      TouchLetsGo(s, s, t, e.(projection := Settled, reviewRequired := false), saves);
      TouchLetsGo(s, s, t, e.(projection := Failed), saves);
    case _ => SameLetsGo(s, Take(s, a));
  }

  /** A request that storage has let go of never commits, whatever happens later. */
  lemma LetGoNeverCommits(s: State, steps: seq<Step>, k: string)
    requires Good(s) && Legal(Controls(), s, steps) && k in s.minted && !Held(s, k)
    ensures Slot(s.minted[k].1, k) !in After(Controls(), s, steps).server.committed
  {
    ControlsKeepGood();
    hide Good, Take, Enabled, LetsGo;
    forall x: State, a: Step | Good(x) && Controls().enabled(x, a) ensures LetsGo(x, Controls().next(x, a)) {
      TakeLetsGo(x, a);
    }
    LetsGoChains();
    RunKeeps(Controls(), (x: State) => Good(x), s, steps);
    RunRelates(Controls(), (x: State) => Good(x), (x: State, y: State) => LetsGo(x, y), s, steps);
    LetGoIsGone(s, After(Controls(), s, steps), k);
  }

  lemma LetsGoChains()
    ensures forall x :: LetsGo(x, x)
    ensures forall x, y, z :: LetsGo(x, y) && LetsGo(y, z) ==> LetsGo(x, z)
  {
  }

  lemma LetGoIsGone(s: State, t: State, k: string)
    requires LetsGo(s, t) && Good(t) && k in s.minted && !Held(s, k)
    ensures Slot(s.minted[k].1, k) !in t.server.committed
  {
    hide Good, EntryHolds, FlightHolds, SavedHolds, NetHolds, CommitsHold;
    GoodIsHere(t, s.minted[k].0.target);
    assert Accounted(t, s.minted[k].0.target, k) && t.minted[k].0.key == k;
  }

  // ---- review before a new action --------------------------------------------------------------

  /** The last action on `t` was refused and nobody has looked at the Run since. */
  ghost predicate UnderReview(s: State, t: Target) {
    t in s.window.entries && t !in s.window.awaiting
    && s.window.entries[t].reviewRequired && !Kept(s.window.entries[t])
  }

  /** A step that neither completes a refresh of `t` nor opens a new window. */
  ghost predicate LeavesReview(a: Step, t: Target) {
    !a.NewWindow? && !(a.FinishRefresh? && a.target == t && a.ok)
  }

  ghost predicate NothingNew(s: State, u: State, t: Target) {
    && (forall k :: k in s.minted ==> k in u.minted && u.minted[k] == s.minted[k])
    && (forall k :: k in u.minted && u.minted[k].0.target == t ==> k in s.minted)
  }

  lemma SetElsewhereKeepsReview(s: State, x: Target, e: Entry, saves: bool, t: Target)
    requires UnderReview(s, t) && (x == t ==> e.reviewRequired && !Kept(e))
    ensures UnderReview(Set(s, x, e, saves), t) && Set(s, x, e, saves).minted == s.minted
  {
    hide Persisted;
  }

  lemma SendElsewhereKeepsReview(s: State, x: Target, e: Entry, r: Request, principal: string, saves: bool, t: Target)
    requires UnderReview(s, t) && x != t && !s.window.blocked
    ensures UnderReview(Send(s, x, e, r, principal, saves), t) && Send(s, x, e, r, principal, saves).minted == s.minted
  {
    hide Send, Persisted;
    SendWritesFirst(s, x, e, r, principal, saves);
    SendMints(s, x, e, r, principal, saves);
  }

  lemma PressKeepsReview(s: State, x: Target, principal: string, v: View, key: string, saves: bool, t: Target)
    requires UnderReview(s, t) && key !in s.minted
    ensures var u := Submit(s, x, principal, v, key, saves); UnderReview(u, t) && NothingNew(s, u, t)
  {
    hide Set, Send, Objection, OriginalHumanOnly;
    var e := EntryOf(s.window, x);
    NoObjection(e, x, principal, v);
    if s.window.blocked || e.status == Submitting {
    } else if e.request.Some? {
      SetElsewhereKeepsReview(s, x, e.(error := Some(OriginalHumanOnly())), saves, t);
      SendElsewhereKeepsReview(s, x, e, e.request.value, principal, saves, t);
    } else {
      var objection := Objection(e, x, principal, v);
      SetElsewhereKeepsReview(s, x, e.(error := objection), saves, t);
      if objection.None? {
        var r := Request(key, x, v.revision, if v.input.Some? then v.input.value.disposition else 0);
        SendElsewhereKeepsReview(s.(minted := s.minted[key := (r, principal)]), x, e, r, principal, saves, t);
      }
    }
  }

  lemma StepKeepsReview(s: State, a: Step, t: Target)
    requires UnderReview(s, t) && Enabled(s, a) && LeavesReview(a, t)
    ensures UnderReview(Take(s, a), t) && NothingNew(s, Take(s, a), t)
  {
    hide Set, Submit, Execute, Conclude, BeginRefresh, EndRefresh, Reload;
    match a
    case Press(x, principal, view, key, saves) => PressKeepsReview(s, x, principal, view, key, saves, t);
    case Answer(x, saves) => ConcludeKeepsReview(s, x, s.net[s.window.awaiting[x].send].reply.value, saves, t);
    case GiveUp(x, saves) => ConcludeKeepsReview(s, x, Broken, saves, t);
    case StartRefresh(x, saves) => RefreshKeepsReview(s, x, 0, true, saves, t);
    case FinishRefresh(x, version, ok, saves) => RefreshKeepsReview(s, x, version, ok, saves, t);
    case _ =>
  }

  lemma RefreshKeepsReview(s: State, x: Target, version: nat, ok: bool, saves: bool, t: Target)
    requires UnderReview(s, t)
    ensures UnderReview(BeginRefresh(s, x, saves), t) && BeginRefresh(s, x, saves).minted == s.minted
    ensures x != t || !ok ==>
      var u := EndRefresh(s, x, version, ok, saves); UnderReview(u, t) && u.minted == s.minted
  {
    hide Set;
    var w := s.window.(versions := s.window.versions[x := VersionOf(s.window, x) + 1]);
    SetElsewhereKeepsReview(s.(window := w), x, EntryOf(w, x).(projection := Refreshing), saves, t);
    var e := EntryOf(s.window, x);
    SetElsewhereKeepsReview(s, x, e.(projection := Failed), saves, t);
    if x != t { SetElsewhereKeepsReview(s, x, e.(projection := Settled, reviewRequired := false), saves, t); }
  }

  lemma ConcludeKeepsReview(s: State, x: Target, reply: Reply, saves: bool, t: Target)
    requires UnderReview(s, t) && x in s.window.awaiting && s.window.awaiting[x].send in s.net
    ensures var u := Conclude(s, x, reply, saves); UnderReview(u, t) && u.minted == s.minted
  {
    hide Set, Concluded;
    SetElsewhereKeepsReview(Landed(s, x, Ending(s, x, reply)), x, Ending(s, x, reply), saves, t);
  }

  /** After a refusal no new request is made for the target, whatever is pressed, until a refresh of it
      completes or the window is replaced. */
  lemma {:induction false} NoNewRequestBeforeReview(s: State, steps: seq<Step>, t: Target)
    requires UnderReview(s, t) && Legal(Controls(), s, steps) && forall a :: a in steps ==> LeavesReview(a, t)
    ensures UnderReview(After(Controls(), s, steps), t) && NothingNew(s, After(Controls(), s, steps), t)
    decreases |steps|
  {
    hide UnderReview, Take, Enabled, LeavesReview;
    if steps != [] {
      StepKeepsReview(s, steps[0], t);
      assert forall a :: a in steps[1..] ==> a in steps;
      var next := Controls().next(s, steps[0]);
      NoNewRequestBeforeReview(next, steps[1..], t);
    }
  }
}
