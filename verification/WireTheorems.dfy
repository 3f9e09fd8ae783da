/** The monitor accepts exactly the conversations the trace specification allows. */
module WireTheorems {
  import opened Sequences
  import opened WireMonitor

  // ---- history, one message longer -------------------------------------------------------------

  lemma OutstandingAppend(h: seq<Message>, e: Message, i: int, k: Key)
    ensures Outstanding(h + [e], i, k) <==> (Outstanding(h, i, k) && !Answers(e, k)) || (i == |h| && Asks(e, k))
  {
    var l := h + [e];
    assert l[|h|] == e && forall j :: 0 <= j < |h| ==> l[j] == h[j];
    if Outstanding(l, i, k) && i < |h| {
      forall j | i < j < |h| ensures !Answers(h[j], k) { assert !Answers(l[j], k); }
    }
  }

  lemma InitializedAppend(h: seq<Message>, e: Message)
    ensures Initialized(h + [e]) <==> Initialized(h) || Concludes(h, e, Initialize)
  {
    var l := h + [e];
    assert l[..|h|] == h && l[|h|] == e;
    forall j | 0 <= j < |h| ensures l[..j] == h[..j] && l[j] == h[j] {}
  }

  lemma CreatedAppend(h: seq<Message>, e: Message, session: string)
    ensures Created(h + [e], session) <==>
      Created(h, session) || (Concludes(h, e, New) && e.result.value.sessionId == Some(session))
  {
    var l := h + [e];
    assert l[..|h|] == h && l[|h|] == e;
    forall j | 0 <= j < |h| ensures CreatedAt(l, j, session) == CreatedAt(h, j, session) {
      assert l[..j] == h[..j] && l[j] == h[j];
    }
    if Concludes(h, e, New) && e.result.value.sessionId == Some(session) { assert CreatedAt(l, |h|, session); }
    if Created(h, session) {
      var j :| CreatedAt(h, j, session);
      assert CreatedAt(l, j, session);
    }
  }

  lemma AnnouncedAppend(h: seq<Message>, e: Message, session: string, tool: string)
    ensures Announced(h + [e], session, tool) <==>
      Announced(h, session, tool) || AnnouncedAt([e], 0, session, tool)
  {
    var l := h + [e];
    assert l[|h|] == e;
    forall j | 0 <= j < |h| ensures AnnouncedAt(l, j, session, tool) == AnnouncedAt(h, j, session, tool) {
      assert l[j] == h[j];
    }
    assert AnnouncedAt(l, |h|, session, tool) == AnnouncedAt([e], 0, session, tool);
    if Announced(h, session, tool) {
      var j :| AnnouncedAt(h, j, session, tool);
      assert AnnouncedAt(l, j, session, tool);
    }
  }

  lemma CancelledAppend(h: seq<Message>, e: Message, i: int)
    requires 0 <= i < |h|
    ensures Cancelled(h + [e], i) <==>
      Cancelled(h, i) || (IsCall(h[i], Client, Prompt) && CancelAt([e], 0, SessionOf(h[i])))
  {
    var l := h + [e];
    var s := SessionOf(h[i]);
    assert l[|h|] == e && l[i] == h[i];
    forall j | 0 <= j < |h| ensures CancelAt(l, j, s) == CancelAt(h, j, s) { assert l[j] == h[j]; }
    assert CancelAt(l, |h|, s) == CancelAt([e], 0, s);
    if Cancelled(h, i) {
      var j :| j > i && CancelAt(h, j, s);
      assert CancelAt(l, j, s);
    }
  }

  // ---- the tables are the history --------------------------------------------------------------

  ghost predicate PendingIs(h: seq<Message>, i: int, r: Request)
    requires 0 <= i < |h|
  {
    h[i].verb == Method(r.verb) && SessionOf(h[i]) == r.sessionId && ToolOf(h[i]) == r.toolCallId
    && r.cancelled == Cancelled(h, i)
  }

  ghost predicate PendingHolds(h: seq<Message>, pending: map<Key, Request>) {
    && (forall k :: k in pending ==> exists i :: Outstanding(h, i, k))
    && (forall i, k :: Outstanding(h, i, k) ==> k in pending && PendingIs(h, i, pending[k]))
    && (forall i, j, k :: Outstanding(h, i, k) && Outstanding(h, j, k) ==> i == j)
  }

  ghost predicate SessionsHold(h: seq<Message>, sessions: map<string, set<string>>) {
    && (forall s :: s in sessions <==> Created(h, s))
    && (forall s, t :: s in sessions && t in sessions[s] ==> Announced(h, s, t))
    && (forall s, t :: Announced(h, s, t) ==> s in sessions && t in sessions[s])
  }

  ghost predicate Mirrors(h: seq<Message>, m: Monitor) {
    m.events == |h| && (m.initialized <==> Initialized(h)) && PendingHolds(h, m.pending) && SessionsHold(h, m.sessions)
  }

  lemma ActivePromptIsPrompting(h: seq<Message>, m: Monitor, session: string)
    requires PendingHolds(h, m.pending)
    ensures ActivePrompt(m, session) <==> Prompting(h, session)
  {
    if ActivePrompt(m, session) {
      var k :| k in m.pending && k.owner == Client && m.pending[k].verb == Prompt
               && m.pending[k].sessionId == Some(session);
      var i :| Outstanding(h, i, k);
      assert PendingIs(h, i, m.pending[k]) && PromptAt(h, i, session);
    }
    if Prompting(h, session) {
      var i, k :| Outstanding(h, i, k) && PromptAt(h, i, session);
      assert PendingIs(h, i, m.pending[k]);
    }
  }

  lemma PermittedIsNamed(h: seq<Message>, m: Monitor, session: Option<string>, tool: Option<string>)
    requires Mirrors(h, m)
    ensures KnownTool(m, session, tool) <==> MayName(h, session, tool)
    ensures Permitted(m, session, tool) <==> MayName(h, session, tool) && Prompting(h, session.value)
  {
    if session.Some? { ActivePromptIsPrompting(h, m, session.value); }
  }

  /** A request or notification is accepted exactly when it may follow. */
  lemma CallDecides(h: seq<Message>, m: Monitor, e: Message)
    requires Mirrors(h, m) && !IsResponse(e) && !e.id.BadId?
    ensures ObserveCall(m, e).Accepted? <==> CallAllowed(h, e)
  {
    hide Prompting, ActivePrompt, MayName, KnownTool, Permitted, Outstanding, PendingHolds;
    PermittedIsNamed(h, m, SessionOf(e), ToolOf(e));
    PermittedIsNamed(h, m, SessionOf(e), UpdateOf(e).toolCallId);
    if SessionOf(e).Some? { ActivePromptIsPrompting(h, m, SessionOf(e).value); }
    if e.id.Has? { PendingIsOutstanding(h, m.pending, Key(e.side, e.id.id)); }
  }

  lemma PendingIsOutstanding(h: seq<Message>, pending: map<Key, Request>, k: Key)
    requires PendingHolds(h, pending)
    ensures k in pending <==> exists i :: Outstanding(h, i, k)
    ensures forall i :: Outstanding(h, i, k) ==> k in pending && PendingIs(h, i, pending[k])
    ensures forall i, j :: Outstanding(h, i, k) && Outstanding(h, j, k) ==> i == j
  {
    hide Outstanding;
  }

  lemma AnswerDecides(h: seq<Message>, m: Monitor, i: int, e: Message)
    requires Mirrors(h, m) && IsResponse(e) && e.id.Has?
    requires Outstanding(h, i, Key(Other(e.side), e.id.id))
    requires (e.result.Some? <==> e.error.None?)
    ensures ObserveResponse(m, e).Accepted? <==> (e.error.Some? ==> e.error.value) && AnswerFits(h, i, e)
  {
    var k := Key(Other(e.side), e.id.id);
    assert k in m.pending && PendingIs(h, i, m.pending[k]);
    PermittedIsNamed(h, m, SessionOf(h[i]), ToolOf(h[i]));
    hide Permitted, MayName, Prompting, PendingHolds, Cancelled, Outstanding;
  }

  /** A response is accepted exactly when it answers an outstanding request in a way that fits it. */
  lemma ResponseDecides(h: seq<Message>, m: Monitor, e: Message)
    requires Mirrors(h, m) && IsResponse(e) && !e.id.BadId?
    ensures ObserveResponse(m, e).Accepted? <==> ResponseAllowed(h, e)
  {
    if e.id.Has? && (e.result.Some? <==> e.error.None?) {
      var k := Key(Other(e.side), e.id.id);
      if k in m.pending {
        var i :| Outstanding(h, i, k);
        AnswerDecides(h, m, i, e);
        forall j | Outstanding(h, j, k) ensures j == i {}
      } else {
        assert forall i :: !Outstanding(h, i, k);
      }
      hide ObserveResponse, PendingHolds, AnswerFits;
    }
  }

  // ---- a step ----------------------------------------------------------------------------------

  lemma ResponseKeepsPending(h: seq<Message>, pending: map<Key, Request>, e: Message)
    requires PendingHolds(h, pending) && IsResponse(e) && e.id.Has?
    ensures PendingHolds(h + [e], pending - {Key(Other(e.side), e.id.id)})
  {
    var l, key := h + [e], Key(Other(e.side), e.id.id);
    forall i, k ensures Outstanding(l, i, k) <==> Outstanding(h, i, k) && k != key {
      OutstandingAppend(h, e, i, k);
    }
    forall i, k | Outstanding(l, i, k) ensures PendingIs(l, i, pending[k]) {
      CancelledAppend(h, e, i);
      assert PendingIs(h, i, pending[k]) && l[i] == h[i];
    }
    hide Outstanding, Cancelled;
  }

  lemma CallKeepsPending(h: seq<Message>, pending: map<Key, Request>, e: Message)
    requires PendingHolds(h, pending) && e.verb.Method? && !e.id.BadId?
    requires e.id.Has? ==> Key(e.side, e.id.id) !in pending
    ensures var next := if IsCall(e, Client, Cancel) then CancelPrompts(pending, SessionOf(e)) else pending;
      PendingHolds(h + [e],
        if e.id.Has? then next[Key(e.side, e.id.id) := Request(e.verb.name, SessionOf(e), ToolOf(e), false)] else next)
  {
    hide Outstanding, Cancelled;
    var l := h + [e];
    var next := if IsCall(e, Client, Cancel) then CancelPrompts(pending, SessionOf(e)) else pending;
    InRange(h);
    forall i, k ensures Outstanding(l, i, k) <==>
      Outstanding(h, i, k) || (i == |h| && e.id.Has? && k == Key(e.side, e.id.id))
    {
      OutstandingAppend(h, e, i, k);
    }
    forall i, k | Outstanding(h, i, k) ensures k in next && PendingIs(l, i, next[k]) {
      assert PendingIs(h, i, pending[k]) && l[i] == h[i];
      CancelledAppend(h, e, i);
    }
    LastIsNotCancelled(l);
    if e.id.Has? { assert Outstanding(l, |h|, Key(e.side, e.id.id)); }
    forall k | k in next ensures exists i :: Outstanding(l, i, k) {
      var i :| Outstanding(h, i, k);
      assert Outstanding(l, i, k);
    }
    forall i, k | Outstanding(h, i, k) && e.id.Has? ensures k != Key(e.side, e.id.id) {}
  }

  lemma InRange(h: seq<Message>)
    ensures forall i, k :: Outstanding(h, i, k) ==> 0 <= i < |h| && Asks(h[i], k)
  {
  }

  lemma LastIsNotCancelled(l: seq<Message>)
    requires l != []
    ensures !Cancelled(l, |l| - 1)
  {
  }

  lemma SessionsKeep(h: seq<Message>, m: Monitor, e: Message, sessions: map<string, set<string>>)
    requires SessionsHold(h, m.sessions)
    requires forall s :: s in sessions <==>
      s in m.sessions || (Concludes(h, e, New) && e.result.value.sessionId == Some(s))
    requires forall s, t :: (s in sessions && t in sessions[s]) <==>
      (s in m.sessions && t in m.sessions[s]) || AnnouncedAt([e], 0, s, t)
    ensures SessionsHold(h + [e], sessions)
  {
    forall s ensures s in sessions <==> Created(h + [e], s) { CreatedAppend(h, e, s); }
    forall s, t ensures (s in sessions && t in sessions[s]) <==> Announced(h + [e], s, t) {
      AnnouncedAppend(h, e, s, t);
    }
  }

  lemma CallKeeps(h: seq<Message>, m: Monitor, e: Message)
    requires Mirrors(h, m) && !IsResponse(e) && !e.id.BadId? && ObserveCall(m, e).Accepted?
    ensures Mirrors(h + [e], ObserveCall(m, e).monitor.(events := |h| + 1))
  {
    hide PendingHolds, SessionsHold, Initialized, CancelPrompts;
    var next := ObserveCall(m, e).monitor;
    CallKeepsPending(h, m.pending, e);
    InitializedAppend(h, e);
    CallSessions(m, e);
    SessionsKeep(h, m, e, next.sessions);
  }

  lemma CallSessions(m: Monitor, e: Message)
    requires !IsResponse(e) && ObserveCall(m, e).Accepted?
    ensures var next := ObserveCall(m, e).monitor;
      && (forall s :: s in next.sessions <==> s in m.sessions)
      && (forall s, t :: (s in next.sessions && t in next.sessions[s]) <==>
            (s in m.sessions && t in m.sessions[s]) || AnnouncedAt([e], 0, s, t))
  {
    hide CancelPrompts, ActivePrompt;
  }

  lemma ResponseKeeps(h: seq<Message>, m: Monitor, e: Message)
    requires Mirrors(h, m) && IsResponse(e) && !e.id.BadId? && ObserveResponse(m, e).Accepted?
    ensures Mirrors(h + [e], ObserveResponse(m, e).monitor.(events := |h| + 1))
  {
    hide PendingHolds, SessionsHold, Initialized, Outstanding;
    var key := Key(Other(e.side), e.id.id);
    var next := ObserveResponse(m, e).monitor;
    InRange(h);
    PendingIsOutstanding(h, m.pending, key);
    var i :| Outstanding(h, i, key);
    assert PendingIs(h, i, m.pending[key]);
    ResponseKeepsPending(h, m.pending, e);
    InitializedAppend(h, e);
    forall name ensures Concludes(h, e, name) <==> e.side == Provider && e.result.Some? && m.pending[key].verb == name {
      if Concludes(h, e, name) {
        var j :| Outstanding(h, j, Key(Client, e.id.id)) && h[j].verb == Method(name);
        assert j == i;
      }
    }
    SessionsKeep(h, m, e, next.sessions);
  }

  lemma ObserveRefines(h: seq<Message>, m: Monitor, e: Message, limit: nat)
    requires Mirrors(h, m)
    ensures Observe(m, e, limit).Accepted? <==> Allowed(h, e, limit)
    ensures Observe(m, e, limit).Accepted? ==> Mirrors(h + [e], Observe(m, e, limit).monitor)
  {
    var n := m.(events := m.events + 1);
    assert Mirrors(h, m.(events := |h|));
    if !e.id.BadId? && |h| < limit {
      CountingIsApart(m, e);
      if IsResponse(e) {
        ResponseDecides(h, m, e);
        if ObserveResponse(m, e).Accepted? { ResponseKeeps(h, m, e); }
      } else {
        CallDecides(h, m, e);
        if ObserveCall(m, e).Accepted? { CallKeeps(h, m, e); }
      }
    }
  }

  /** Nothing but the limit looks at the number of messages. */
  lemma CountingIsApart(m: Monitor, e: Message)
    ensures var n := m.(events := m.events + 1);
      && ObserveResponse(n, e) == Counted(ObserveResponse(m, e), m.events + 1)
      && ObserveCall(n, e) == Counted(ObserveCall(m, e), m.events + 1)
  {
    var n := m.(events := m.events + 1);
    assert forall s :: ActivePrompt(n, s) == ActivePrompt(m, s);
    hide ActivePrompt;
  }

  function Counted(v: Verdict, events: nat): Verdict {
    match v case Accepted(m) => Accepted(m.(events := events)) case Failed(_) => v
  }

  // ---- whole conversations ---------------------------------------------------------------------

  /** The monitor accepts a conversation exactly when every message may follow those before it; and then its
      tables say what the history says. */
  lemma {:induction false} MonitorRefinesTheSpecification(trace: seq<Message>, limit: nat)
    ensures Watch(Fresh, trace, limit).Accepted? <==> Conforms(trace, limit)
    ensures Watch(Fresh, trace, limit).Accepted? ==> Mirrors(trace, Watch(Fresh, trace, limit).monitor)
    decreases |trace|
  {
    if trace != [] {
      var n := |trace| - 1;
      var h, e := trace[..n], trace[n];
      assert trace == h + [e] && trace[..n] == h;
      MonitorRefinesTheSpecification(h, limit);
      forall j | 0 <= j < n ensures Allowed(trace[..j], trace[j], limit) <==> Allowed(h[..j], h[j], limit) {
        assert trace[..j] == h[..j] && trace[j] == h[j];
      }
      var before := Watch(Fresh, h, limit);
      if before.Accepted? { ObserveRefines(h, before.monitor, e, limit); }
      assert Conforms(trace, limit) <==> Conforms(h, limit) && Allowed(h, e, limit);
    }
  }

  // ---- what an accepted conversation is like ---------------------------------------------------

  lemma PrefixConforms(trace: seq<Message>, limit: nat, n: nat)
    requires Conforms(trace, limit) && n <= |trace|
    ensures Conforms(trace[..n], limit)
  {
    forall j | 0 <= j < n ensures Allowed(trace[..n][..j], trace[..n][j], limit) {
      assert trace[..n][..j] == trace[..j];
    }
  }

  /** Request `i` of the conversation is the one that response `j` answers. */
  ghost predicate IsAnswerTo(trace: seq<Message>, j: int, i: int) {
    0 <= i < j < |trace| && IsResponse(trace[j]) && trace[j].id.Has?
    && Outstanding(trace[..j], i, Key(Other(trace[j].side), trace[j].id.id))
  }

  /** Each response answers exactly one earlier unanswered request of the other side, and no request is
      answered twice. */
  lemma ResponsesPairWithRequests(trace: seq<Message>, limit: nat, j: nat)
    requires Conforms(trace, limit) && j < |trace| && IsResponse(trace[j])
    ensures exists i :: IsAnswerTo(trace, j, i)
    ensures forall i, k :: IsAnswerTo(trace, j, i) && IsAnswerTo(trace, j, k) ==> i == k
    ensures forall i, n :: IsAnswerTo(trace, j, i) && IsAnswerTo(trace, n, i) ==> n == j
  {
    assert Allowed(trace[..j], trace[j], limit);
    PrefixConforms(trace, limit, j);
    MonitorRefinesTheSpecification(trace[..j], limit);
    var k := Key(Other(trace[j].side), trace[j].id.id);
    var i :| Outstanding(trace[..j], i, k);
    assert IsAnswerTo(trace, j, i);
    forall i, n | IsAnswerTo(trace, j, i) && IsAnswerTo(trace, n, i) ensures n == j {
      if n < j { assert Answers(trace[..j][n], k); } else if j < n {
        assert Answers(trace[..n][j], Key(Other(trace[n].side), trace[n].id.id));
      }
    }
  }

  lemma StillPrompting(trace: seq<Message>, i: int, j: int, k: Key, session: string)
    requires Outstanding(trace, i, k) && PromptAt(trace, i, session) && i < j <= |trace|
    ensures Prompting(trace[..j], session)
  {
    var h := trace[..j];
    assert h[i] == trace[i] && forall m :: i < m < |h| ==> h[m] == trace[m];
    assert Outstanding(h, i, k) && PromptAt(h, i, session);
  }

  /** At most one prompt of a session is unanswered at any time. */
  lemma OnePromptPerSession(trace: seq<Message>, limit: nat, i: int, j: int, k: Key, l: Key, session: string)
    requires Conforms(trace, limit) && Outstanding(trace, i, k) && Outstanding(trace, j, l)
    requires PromptAt(trace, i, session) && PromptAt(trace, j, session)
    ensures i == j
  {
    assert Allowed(trace[..i], trace[i], limit) && Allowed(trace[..j], trace[j], limit);
    if i < j {
      StillPrompting(trace, i, j, k, session);
    } else if j < i {
      StillPrompting(trace, j, i, l, session);
    }
  }

  /** A prompt that was cancelled is answered by `cancelled` and nothing else. */
  lemma CancelledPromptsEndCancelled(trace: seq<Message>, limit: nat, i: int, c: int, j: int)
    requires Conforms(trace, limit) && IsAnswerTo(trace, j, i) && i < c < j
    requires IsCall(trace[i], Client, Prompt) && CancelAt(trace, c, SessionOf(trace[i]))
    ensures trace[j].result.Some? && trace[j].result.value.stopReason == Some("cancelled")
  {
    var h := trace[..j];
    assert Allowed(h, trace[j], limit);
    ResponsesPairWithRequests(trace, limit, j);
    assert h[i] == trace[i] && h[c] == trace[c] && CancelAt(h, c, SessionOf(h[i])) && Cancelled(h, i);
    var n :| Outstanding(h, n, Key(Other(trace[j].side), trace[j].id.id)) && AnswerFits(h, n, trace[j]);
    assert IsAnswerTo(trace, j, n);
  }

  /** A session exists only after the connection was initialized. */
  lemma SessionsFollowInitialize(trace: seq<Message>, limit: nat, j: int, session: string)
    requires Conforms(trace, limit) && CreatedAt(trace, j, session)
    ensures Initialized(trace[..j])
  {
    var h := trace[..j];
    var i :| Outstanding(h, i, Key(Client, trace[j].id.id)) && h[i].verb == Method(New);
    assert Allowed(trace[..i], trace[i], limit) && Initialized(trace[..i]);
    var n :| 0 <= n < i && Concludes(trace[..i][..n], trace[..i][n], Initialize);
    assert trace[..i][..n] == h[..n] && trace[..i][n] == h[n];
  }

  /** A tool is announced once, in an existing session with a prompt outstanding. */
  lemma ToolsAreAnnouncedOnce(trace: seq<Message>, limit: nat, i: int, j: int, session: string, tool: string)
    requires Conforms(trace, limit) && AnnouncedAt(trace, i, session, tool) && AnnouncedAt(trace, j, session, tool)
    ensures i == j && Created(trace[..i], session) && Prompting(trace[..i], session)
  {
    assert Allowed(trace[..i], trace[i], limit) && Allowed(trace[..j], trace[j], limit);
    if i < j {
      assert AnnouncedAt(trace[..j], i, session, tool);
    } else if j < i {
      assert AnnouncedAt(trace[..i], j, session, tool);
    }
  }

  /** Every permission asked for names a tool announced before, while its session has a prompt outstanding;
      and the client answers it only while that is still so. */
  lemma PermissionsNameAnnouncedTools(trace: seq<Message>, limit: nat, i: int)
    requires Conforms(trace, limit) && 0 <= i < |trace| && IsCall(trace[i], Provider, Permission)
    ensures SessionOf(trace[i]).Some? && ToolOf(trace[i]).Some?
    ensures var s, t := SessionOf(trace[i]).value, ToolOf(trace[i]).value;
      && Announced(trace[..i], s, t) && Prompting(trace[..i], s)
      && forall j :: IsAnswerTo(trace, j, i) ==> Prompting(trace[..j], s)
  {
    assert Allowed(trace[..i], trace[i], limit);
    forall j | IsAnswerTo(trace, j, i) ensures Prompting(trace[..j], SessionOf(trace[i]).value) {
      var h := trace[..j];
      assert Allowed(h, trace[j], limit);
      ResponsesPairWithRequests(trace, limit, j);
      var n :| Outstanding(h, n, Key(Other(trace[j].side), trace[j].id.id)) && AnswerFits(h, n, trace[j]);
      assert IsAnswerTo(trace, j, n);
      assert h[i] == trace[i];
    }
  }
}
