/** The monitor as the program keeps it: tables updated in place at each message. */
module Wire {
  import opened Sequences
  import opened WireMonitor

  class Wire {
    const limit: nat
    var pending: map<Key, Request>
    var events: nat
    var initialized: bool
    var sessions: map<string, set<string>>

    ghost function Now(): Monitor
      reads this
    {
      Monitor(pending, events, initialized, sessions)
    }

    constructor (limit: nat)
      ensures this.limit == limit && Now() == Fresh
    {
      this.limit := limit;
      pending, events, initialized, sessions := map[], 0, false, map[];
    }

    /** Watch one message; a failure ends the conversation, so the tables no longer matter then. */
    method Observe(e: Message) returns (failure: Option<Failure>)
      modifies this
      ensures match WireMonitor.Observe(old(Now()), e, limit)
        case Accepted(m) => failure == None && Now() == m
        case Failed(f) => failure == Some(f)
    {
      events := events + 1;
      if events > limit {
        return Some(EventLimit);
      }
      if e.id.BadId? {
        return Some(InvalidEnvelope);
      }
      if IsResponse(e) {
        failure := ObserveResponse(e);
      } else {
        failure := ObserveCall(e);
      }
    }

    method ObserveResponse(e: Message) returns (failure: Option<Failure>)
      modifies this`pending, this`initialized, this`sessions
      ensures match WireMonitor.ObserveResponse(old(Now()), e)
        case Accepted(m) => failure == None && Now() == m
        case Failed(f) => failure == Some(f)
    {
      if !e.id.Has? || (e.result.Some? == e.error.Some?) {
        return Some(InvalidEnvelope);
      }
      var key := Key(Other(e.side), e.id.id);
      if key !in pending {
        return Some(UnexpectedResponse);
      }
      var request := pending[key];
      if e.side == Client && request.verb == Permission {
        var permitted := CheckPermission(request.sessionId, request.toolCallId);
        if !permitted {
          return Some(ProtocolState);
        }
      }
      pending := pending - {key};
      if request.cancelled && (e.result.None? || e.result.value.stopReason != Some("cancelled")) {
        return Some(ProtocolResult);
      }
      if e.error.Some? {
        return if e.error.value then None else Some(InvalidEnvelope);
      }
      if e.side == Provider {
        failure := ObserveResult(request.verb, e);
      } else {
        failure := None;
      }
    }

    method ObserveResult(name: string, e: Message) returns (failure: Option<Failure>)
      requires e.result.Some?
      modifies this`initialized, this`sessions
      ensures match WireMonitor.ObserveResult(old(Now()), name, e)
        case Accepted(m) => failure == None && Now() == m
        case Failed(f) => failure == Some(f)
    {
      var outcome := e.result.value;
      if !e.valid {
        return Some(InvalidPayload);
      }
      if name == Initialize {
        if !outcome.versioned {
          return Some(ProtocolResult);
        }
        initialized := true;
      }
      if name == New {
        if outcome.sessionId.None? || outcome.sessionId.value == "" || outcome.sessionId.value in sessions {
          return Some(ProtocolResult);
        }
        sessions := sessions[outcome.sessionId.value := {}];
      }
      if name == Prompt && (outcome.stopReason.None? || outcome.stopReason.value !in StopReasons) {
        return Some(ProtocolResult);
      }
      return None;
    }

    method ObserveCall(e: Message) returns (failure: Option<Failure>)
      requires !IsResponse(e) && !e.id.BadId?
      modifies this`pending, this`sessions
      ensures match WireMonitor.ObserveCall(old(Now()), e)
        case Accepted(m) => failure == None && Now() == m
        case Failed(f) => failure == Some(f)
    {
      if !e.verb.Method? || e.result.Some? || e.error.Some? {
        return Some(InvalidEnvelope);
      }
      var name := e.verb.name;
      if e.side == Client && IsSessionMethod(name)
         && (name !in ClientSessionMethods || (name == Cancel) == e.id.Has?) {
        return Some(ProtocolState);
      }
      if e.params.BadParams? {
        return Some(InvalidEnvelope);
      }
      if !e.valid {
        return Some(InvalidPayload);
      }
      var may := MayCall(e, name);
      if !may {
        return Some(ProtocolState);
      }
      var unused := e.id.Has? ==> Key(e.side, e.id.id) !in pending;
      if e.side == Provider && name == SessionUpdate && UpdateOf(e).kind == Some("tool_call") {
        var session := SessionOf(e).value;
        sessions := sessions[session := sessions[session] + {UpdateOf(e).toolCallId.value}];
      }
      if e.side == Client && name == Cancel {
        MarkCancelled(SessionOf(e));
      }
      if !unused {
        return Some(InvalidEnvelope);
      }
      if e.id.Has? {
        pending := pending[Key(e.side, e.id.id) := Request(name, SessionOf(e), ToolOf(e), false)];
      }
      return None;
    }

    method MayCall(e: Message, name: string) returns (may: bool)
      ensures may == if e.side == Client then ClientMay(Now(), e, name) else ProviderMay(Now(), e, name)
    {
      var prompting := false;
      if SessionOf(e).Some? {
        prompting := HasActivePrompt(SessionOf(e).value);
      }
      var known := SessionOf(e).Some? && SessionOf(e).value in sessions;
      if e.side == Client {
        return (name == New ==> initialized && e.params.Given? && e.params.ownWorkspace)
            && (name == Initialize ==> e.params.Given? && e.params.versionOne)
            && (name == Prompt || name == Cancel ==> known)
            && (name == Prompt ==> !prompting);
      }
      if name == SessionUpdate {
        var kind, tool := UpdateOf(e).kind, UpdateOf(e).toolCallId;
        if !e.id.NoId? || !known || (kind.Some? && kind.value in TurnUpdates && !prompting) {
          return false;
        }
        var named := tool.Some? && tool.value != "";
        var announced := named && tool.value in sessions[SessionOf(e).value];
        return (kind == Some("tool_call") ==> named && !announced) && (kind == Some("tool_call_update") ==> announced);
      }
      if name == Permission {
        if !e.id.Has? || !e.params.Given? || e.params.toolCall.None? {
          return false;
        }
        may := CheckPermission(SessionOf(e), ToolOf(e));
        return;
      }
      return true;
    }

    method CheckPermission(session: Option<string>, tool: Option<string>) returns (permitted: bool)
      ensures permitted == Permitted(Now(), session, tool)
    {
      if session.None? || session.value !in sessions {
        return false;
      }
      permitted := HasActivePrompt(session.value);
      permitted := permitted && tool.Some? && tool.value != "" && tool.value in sessions[session.value];
    }

    method HasActivePrompt(session: string) returns (found: bool)
      ensures found == ActivePrompt(Now(), session)
    {
      var keys := pending.Keys;
      while keys != {}
        invariant keys <= pending.Keys
        invariant forall k :: k in pending && k !in keys ==>
          !(k.owner == Client && pending[k].verb == Prompt && pending[k].sessionId == Some(session))
        decreases |keys|
      {
        var k :| k in keys;
        if k.owner == Client && pending[k].verb == Prompt && pending[k].sessionId == Some(session) {
          return true;
        }
        keys := keys - {k};
      }
      return false;
    }

    method MarkCancelled(session: Option<string>)
      modifies this`pending
      ensures pending == CancelPrompts(old(pending), session)
    {
      ghost var marked := CancelPrompts(pending, session);
      var keys := pending.Keys;
      while keys != {}
        invariant keys <= pending.Keys == old(pending.Keys)
        invariant forall k :: k in pending ==> pending[k] == if k in keys then old(pending)[k] else marked[k]
        decreases |keys|
      {
        var k :| k in keys;
        if k.owner == Client && pending[k].verb == Prompt && pending[k].sessionId == session {
          pending := pending[k := pending[k].(cancelled := true)];
        }
        keys := keys - {k};
      }
    }
  }
}
