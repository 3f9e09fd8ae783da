/** What the monitor's constants and failure codes mean, told by the history alone. */
module WireOutcomes {
  import opened Sequences
  import opened WireMonitor
  import opened WireTheorems

  // ---- the turn of a prompt --------------------------------------------------------------------

  /** A prompt may end for these reasons. */
  ghost predicate Ends(reason: Option<string>) {
    || reason == Some("end_turn") || reason == Some("cancelled") || reason == Some("refusal")
    || reason == Some("max_tokens") || reason == Some("max_turn_requests")
  }

  /** Content and tool updates belong to a turn. */
  ghost predicate OfATurn(kind: Option<string>) {
    || kind == Some("user_message_chunk") || kind == Some("agent_message_chunk")
    || kind == Some("agent_thought_chunk") || kind == Some("tool_call") || kind == Some("tool_call_update")
  }

  /** The provider's well-formed result for an outstanding prompt is accepted exactly when the turn may end so:
      for one of five reasons, and as cancelled if it was cancelled. */
  lemma PromptResultDecides(h: seq<Message>, m: Monitor, i: int, e: Message)
    requires Mirrors(h, m) && IsResponse(e) && e.side == Provider && e.id.Has?
    requires Outstanding(h, i, Key(Client, e.id.id)) && h[i].verb == Method("session/prompt")
    requires e.result.Some? && e.error.None? && e.valid
    ensures ObserveResponse(m, e).Accepted? <==>
      Ends(e.result.value.stopReason) && (Cancelled(h, i) ==> e.result.value.stopReason == Some("cancelled"))
  {
    hide Mirrors, Outstanding, Cancelled, ObserveResponse;
    MethodsDiffer();
    AnswerDecides(h, m, i, e);
  }

  lemma MethodsDiffer()
    ensures Prompt != Initialize && Prompt != New && Permission != Prompt && SessionUpdate != Permission
  {
    assert |Initialize| != |Prompt| && |New| != |Prompt| && |Permission| != |Prompt| && |SessionUpdate| != |Permission|;
  }

  /** Every prompt of an accepted conversation that is answered with a result ends for one of these reasons. */
  lemma PromptsEndForAReason(trace: seq<Message>, limit: nat, i: int, j: int)
    requires Conforms(trace, limit) && IsAnswerTo(trace, j, i) && IsCall(trace[i], Client, "session/prompt")
    requires trace[j].result.Some?
    ensures Ends(trace[j].result.value.stopReason)
  {
    var h := trace[..j];
    assert Allowed(h, trace[j], limit);
    ResponsesPairWithRequests(trace, limit, j);
    var n :| Outstanding(h, n, Key(Other(trace[j].side), trace[j].id.id)) && AnswerFits(h, n, trace[j]);
    assert IsAnswerTo(trace, j, n) && h[i] == trace[i] && Asks(h[i], Key(Other(trace[j].side), trace[j].id.id));
  }

  /** A well-formed update of another kind is accepted in any created session; content only while a prompt of the
      session is unanswered. */
  lemma UpdateDecides(h: seq<Message>, m: Monitor, e: Message, session: string)
    requires Mirrors(h, m) && IsCall(e, Provider, "session/update") && SessionOf(e) == Some(session)
    requires e.id.NoId? && e.result.None? && e.error.None? && !e.params.BadParams? && e.valid && Created(h, session)
    requires UpdateOf(e).kind != Some("tool_call") && UpdateOf(e).kind != Some("tool_call_update")
    ensures ObserveCall(m, e).Accepted? <==> (OfATurn(UpdateOf(e).kind) ==> Prompting(h, session))
  {
    hide Mirrors, Prompting, Created, ObserveCall, MayName;
    CallDecides(h, m, e);
    MethodsDiffer();
  }

  lemma ContentComesDuringPrompts(trace: seq<Message>, limit: nat, j: int)
    requires Conforms(trace, limit) && 0 <= j < |trace| && IsCall(trace[j], Provider, "session/update")
    ensures SessionOf(trace[j]).Some? && Created(trace[..j], SessionOf(trace[j]).value)
    ensures OfATurn(UpdateOf(trace[j]).kind) ==> Prompting(trace[..j], SessionOf(trace[j]).value)
  {
    assert Allowed(trace[..j], trace[j], limit);
  }

  /** In an accepted conversation the client uses three session methods: it requests a session or a prompt, and
      notifies of a cancellation. */
  lemma ClientSessionCalls(trace: seq<Message>, limit: nat, j: int)
    requires Conforms(trace, limit) && 0 <= j < |trace| && trace[j].side == Client && trace[j].verb.Method?
    requires "session/" <= trace[j].verb.name
    ensures var name := trace[j].verb.name;
      if trace[j].id.NoId? then name == "session/cancel" else name == "session/new" || name == "session/prompt"
  {
    assert Allowed(trace[..j], trace[j], limit);
    assert |"session/new"| != |"session/cancel"|;
    assert |"session/prompt"| == |"session/cancel"| && "session/prompt"[8] != "session/cancel"[8];
  }

  // ---- why a message fails ---------------------------------------------------------------------

  /** The message is malformed on its own. */
  ghost predicate Malformed(e: Message) {
    || e.id.BadId?
    || (IsResponse(e) && (!e.id.Has? || (e.result.Some? <==> e.error.Some?) || e.error == Some(false)))
    || (!IsResponse(e) && (!e.verb.Method? || e.result.Some? || e.error.Some? || e.params.BadParams?))
  }

  /** The request uses the identifier of one that is unanswered. */
  ghost predicate Reuses(h: seq<Message>, e: Message) {
    !IsResponse(e) && e.id.Has? && exists i :: Outstanding(h, i, Key(e.side, e.id.id))
  }

  /** The call comes at a time, or in a form, the life of a connection has no place for. */
  ghost predicate OutOfPlace(h: seq<Message>, e: Message) {
    e.verb.Method? &&
    if e.side == Client then !ClientAllowed(h, e, e.verb.name) else !ProviderAllowed(h, e, e.verb.name)
  }

  ghost predicate AnswersRequest(h: seq<Message>, i: int, e: Message) {
    IsResponse(e) && e.id.Has? && Outstanding(h, i, Key(Other(e.side), e.id.id))
  }

  /** A permission is answered when its tool may no longer be used. */
  ghost predicate AnswersTooLate(h: seq<Message>, i: int, e: Message)
    requires 0 <= i < |h|
  {
    e.side == Client && h[i].verb == Method("session/request_permission")
    && !(MayName(h, SessionOf(h[i]), ToolOf(h[i])) && Prompting(h, SessionOf(h[i]).value))
  }

  /** The result is not one the request may have. */
  ghost predicate UnfitResult(h: seq<Message>, i: int, e: Message)
    requires 0 <= i < |h|
  {
    || (Cancelled(h, i) && (e.result.None? || e.result.value.stopReason != Some("cancelled")))
    || (e.side == Provider && e.result.Some? &&
        var r := e.result.value;
        || (h[i].verb == Method("initialize") && !r.versioned)
        || (h[i].verb == Method("session/new") &&
            (r.sessionId.None? || r.sessionId == Some("") || Created(h, r.sessionId.value)))
        || (h[i].verb == Method("session/prompt") && !Ends(r.stopReason)))
  }

  /** What each code says about the message. */
  ghost predicate Explains(h: seq<Message>, e: Message, limit: nat, f: Failure) {
    match f
    case EventLimit => limit <= |h|
    case InvalidEnvelope => |h| < limit && (Malformed(e) || Reuses(h, e))
    case UnexpectedResponse =>
      |h| < limit && IsResponse(e) && e.id.Has? && forall i :: !AnswersRequest(h, i, e)
    case InvalidPayload =>
      && |h| < limit && !e.valid
      && (IsResponse(e) ==> e.side == Provider && e.result.Some? && exists i :: AnswersRequest(h, i, e))
    case ProtocolState =>
      && |h| < limit
      && if IsResponse(e) then exists i :: AnswersRequest(h, i, e) && AnswersTooLate(h, i, e) else OutOfPlace(h, e)
    case ProtocolResult => |h| < limit && exists i :: AnswersRequest(h, i, e) && UnfitResult(h, i, e)
  }

  lemma ResponseTellsWhy(h: seq<Message>, m: Monitor, e: Message, limit: nat)
    requires Mirrors(h, m) && IsResponse(e) && !e.id.BadId? && |h| < limit && ObserveResponse(m, e).Failed?
    ensures Explains(h, e, limit, ObserveResponse(m, e).failure)
  {
    hide Mirrors, Outstanding, Cancelled, Created, MayName, Prompting, Permitted, PendingHolds, SessionsHold;
    if e.id.Has? && (e.result.Some? <==> e.error.None?) {
      var k := Key(Other(e.side), e.id.id);
      MirrorsTables(h, m);
      PendingIsOutstanding(h, m.pending, k);
      if k in m.pending {
        var i :| Outstanding(h, i, k);
        InRange(h);
        PermittedIsNamed(h, m, SessionOf(h[i]), ToolOf(h[i]));
        assert AnswersRequest(h, i, e) && PendingIs(h, i, m.pending[k]);
      }
    }
  }

  lemma MirrorsTables(h: seq<Message>, m: Monitor)
    requires Mirrors(h, m)
    ensures PendingHolds(h, m.pending) && SessionsHold(h, m.sessions) && (m.initialized <==> Initialized(h))
    ensures forall s :: s in m.sessions <==> Created(h, s)
    ensures forall s, t :: s in m.sessions && t in m.sessions[s] <==> s in m.sessions && Announced(h, s, t)
  {
  }

  lemma CallTellsWhy(h: seq<Message>, m: Monitor, e: Message, limit: nat)
    requires Mirrors(h, m) && !IsResponse(e) && !e.id.BadId? && |h| < limit && ObserveCall(m, e).Failed?
    ensures Explains(h, e, limit, ObserveCall(m, e).failure)
  {
    hide Mirrors, Outstanding, Created, MayName, Prompting, Permitted, PendingHolds, SessionsHold, ActivePrompt;
    hide KnownTool, CancelPrompts, Announced, Initialized;
    MirrorsTables(h, m);
    PermittedIsNamed(h, m, SessionOf(e), ToolOf(e));
    PermittedIsNamed(h, m, SessionOf(e), UpdateOf(e).toolCallId);
    if SessionOf(e).Some? { ActivePromptIsPrompting(h, m, SessionOf(e).value); }
    if e.id.Has? { PendingIsOutstanding(h, m.pending, Key(e.side, e.id.id)); }
  }

  /** A message fails exactly when it may not follow, and the code says what is wrong with it. */
  lemma FailureTellsWhy(h: seq<Message>, m: Monitor, e: Message, limit: nat)
    requires Mirrors(h, m)
    ensures Observe(m, e, limit).Failed? <==> !Allowed(h, e, limit)
    ensures Observe(m, e, limit).Failed? ==> Explains(h, e, limit, Observe(m, e, limit).failure)
  {
    hide Mirrors, ObserveResponse, ObserveCall, Allowed;
    ObserveRefines(h, m, e, limit);
    MirrorsCount(h, m);
    CountingIsApart(m, e);
    if |h| < limit && !e.id.BadId? {
      if IsResponse(e) {
        if ObserveResponse(m, e).Failed? { ResponseTellsWhy(h, m, e, limit); }
      } else if ObserveCall(m, e).Failed? {
        CallTellsWhy(h, m, e, limit);
      }
    }
  }

  lemma MirrorsCount(h: seq<Message>, m: Monitor)
    requires Mirrors(h, m)
    ensures m.events == |h|
  {
  }

  /** A conversation fails at the first message that may not follow, with the code for it. */
  lemma {:induction false} ConversationFailsAtTheFirst(trace: seq<Message>, limit: nat)
    requires Watch(Fresh, trace, limit).Failed?
    ensures exists j :: FailsAt(trace, limit, j, Watch(Fresh, trace, limit).failure)
    decreases |trace|
  {
    hide Conforms, Explains, Allowed, Mirrors, Observe;
    var n := |trace| - 1;
    var h, e := trace[..n], trace[n];
    var before := Watch(Fresh, h, limit);
    if before.Failed? {
      ConversationFailsAtTheFirst(h, limit);
      var j :| FailsAt(h, limit, j, before.failure);
      assert trace[..j] == h[..j] && trace[j] == h[j];
      assert FailsAt(trace, limit, j, before.failure);
    } else {
      MonitorRefinesTheSpecification(h, limit);
      FailureTellsWhy(h, before.monitor, e, limit);
      assert FailsAt(trace, limit, n, Watch(Fresh, trace, limit).failure);
    }
  }

  ghost predicate FailsAt(trace: seq<Message>, limit: nat, j: int, f: Failure) {
    0 <= j < |trace| && Conforms(trace[..j], limit) && !Allowed(trace[..j], trace[j], limit)
    && Explains(trace[..j], trace[j], limit, f)
  }
}
