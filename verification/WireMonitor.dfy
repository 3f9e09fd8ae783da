/**
 The conformance monitor of an ACP connection: it watches both directions of a JSON-RPC 2.0 conversation with
 a few tables, and fails at the first message that may not follow what went before.
 */
module WireMonitor {
  import opened Sequences

  datatype Side = Client | Provider

  function Other(s: Side): Side { if s == Client then Provider else Client }

  datatype Id = Text(text: string) | Number(number: int)

  datatype IdField = NoId | BadId | Has(id: Id)

  datatype MethodField = NoMethod | BadMethod | Method(name: string)

  datatype Update = Update(kind: Option<string>, toolCallId: Option<string>)

  /** The parts of a params object the monitor looks at; a field of the wrong type counts as absent. */
  datatype Params =
    | NoParams
    | BadParams
    | Given(sessionId: Option<string>, update: Option<Update>, toolCall: Option<Option<string>>,
            versionOne: bool, ownWorkspace: bool)

  datatype Outcome = Outcome(versioned: bool, sessionId: Option<string>, stopReason: Option<string>)

  /** `error`: present, and whether it is well formed; `valid`: the payload fits the schema of its method. */
  datatype Message = Message(
    side: Side, id: IdField, verb: MethodField, params: Params, result: Option<Outcome>, error: Option<bool>,
    valid: bool)

  /** A request is known by who sent it and its identifier. */
  datatype Key = Key(owner: Side, id: Id)

  datatype Request = Request(verb: string, sessionId: Option<string>, toolCallId: Option<string>, cancelled: bool)

  datatype Monitor = Monitor(
    pending: map<Key, Request>, events: nat, initialized: bool, sessions: map<string, set<string>>)

  datatype Failure = EventLimit | InvalidEnvelope | InvalidPayload | UnexpectedResponse | ProtocolState | ProtocolResult

  datatype Verdict = Accepted(monitor: Monitor) | Failed(failure: Failure)

  const Fresh := Monitor(map[], 0, false, map[])

  const StopReasons := {"end_turn", "cancelled", "refusal", "max_tokens", "max_turn_requests"}
  const ClientSessionMethods := {"session/new", "session/prompt", "session/cancel"}
  const TurnUpdates :=
    {"user_message_chunk", "agent_message_chunk", "agent_thought_chunk", "tool_call", "tool_call_update"}
  const Initialize := "initialize"
  const New := "session/new"
  const Prompt := "session/prompt"
  const Cancel := "session/cancel"
  const SessionUpdate := "session/update"
  const Permission := "session/request_permission"

  predicate IsResponse(e: Message) { e.verb.NoMethod? }

  predicate IsCall(e: Message, side: Side, name: string) { e.side == side && e.verb == Method(name) }

  function SessionOf(e: Message): Option<string> {
    if e.params.Given? then e.params.sessionId else None
  }

  function ToolOf(e: Message): Option<string> {
    if e.params.Given? && e.params.toolCall.Some? then e.params.toolCall.value else None
  }

  function UpdateOf(e: Message): Update {
    if e.params.Given? && e.params.update.Some? then e.params.update.value else Update(None, None)
  }

  predicate IsSessionMethod(name: string) { "session/" <= name }

  // ---- the monitor -----------------------------------------------------------------------------

  predicate ActivePrompt(m: Monitor, session: string) {
    exists k :: k in m.pending && k.owner == Client && m.pending[k].verb == Prompt
                && m.pending[k].sessionId == Some(session)
  }

  predicate KnownTool(m: Monitor, session: Option<string>, tool: Option<string>) {
    && session.Some? && session.value in m.sessions
    && tool.Some? && tool.value != "" && tool.value in m.sessions[session.value]
  }

  predicate Permitted(m: Monitor, session: Option<string>, tool: Option<string>) {
    session.Some? && session.value in m.sessions && ActivePrompt(m, session.value) && KnownTool(m, session, tool)
  }

  function ObserveResult(m: Monitor, name: string, e: Message): Verdict
    requires e.result.Some?
  {
    var outcome := e.result.value;
    if !e.valid then Failed(InvalidPayload)
    else if name == Initialize then
      if outcome.versioned then Accepted(m.(initialized := true)) else Failed(ProtocolResult)
    else if name == New then
      if outcome.sessionId.None? || outcome.sessionId.value == "" || outcome.sessionId.value in m.sessions
      then Failed(ProtocolResult)
      else Accepted(m.(sessions := m.sessions[outcome.sessionId.value := {}]))
    else if name == Prompt && (outcome.stopReason.None? || outcome.stopReason.value !in StopReasons) then
      Failed(ProtocolResult)
    else Accepted(m)
  }

  function ObserveResponse(m: Monitor, e: Message): Verdict {
    if !e.id.Has? || (e.result.Some? == e.error.Some?) then Failed(InvalidEnvelope) else
    var key := Key(Other(e.side), e.id.id);
    if key !in m.pending then Failed(UnexpectedResponse) else
    var request := m.pending[key];
    var rest := m.(pending := m.pending - {key});
    if e.side == Client && request.verb == Permission && !Permitted(m, request.sessionId, request.toolCallId) then
      Failed(ProtocolState)
    else if request.cancelled && (e.result.None? || e.result.value.stopReason != Some("cancelled")) then
      Failed(ProtocolResult)
    else if e.error.Some? then (if e.error.value then Accepted(rest) else Failed(InvalidEnvelope))
    else if e.side == Provider then ObserveResult(rest, request.verb, e)
    else Accepted(rest)
  }

  /** A session method of the client is one of three, and only a cancellation is a notification. */
  predicate SupportedKind(e: Message, name: string) {
    e.side == Client && IsSessionMethod(name) ==> name in ClientSessionMethods && (name == Cancel <==> e.id.NoId?)
  }

  function ClientMay(m: Monitor, e: Message, name: string): bool {
    && (name == New ==> m.initialized && e.params.Given? && e.params.ownWorkspace)
    && (name == Initialize ==> e.params.Given? && e.params.versionOne)
    && (name == Prompt || name == Cancel ==> SessionOf(e).Some? && SessionOf(e).value in m.sessions)
    && (name == Prompt ==> !ActivePrompt(m, SessionOf(e).value))
  }

  function ProviderMay(m: Monitor, e: Message, name: string): bool {
    && (name == SessionUpdate ==>
          && e.id.NoId? && SessionOf(e).Some? && SessionOf(e).value in m.sessions
          && (UpdateOf(e).kind.Some? && UpdateOf(e).kind.value in TurnUpdates ==> ActivePrompt(m, SessionOf(e).value))
          && (UpdateOf(e).kind == Some("tool_call") ==>
                UpdateOf(e).toolCallId.Some? && UpdateOf(e).toolCallId.value != "" &&
                UpdateOf(e).toolCallId.value !in m.sessions[SessionOf(e).value])
          && (UpdateOf(e).kind == Some("tool_call_update") ==> KnownTool(m, SessionOf(e), UpdateOf(e).toolCallId)))
    && (name == Permission ==>
          e.id.Has? && e.params.Given? && e.params.toolCall.Some? && Permitted(m, SessionOf(e), ToolOf(e)))
  }

  function CancelPrompts(pending: map<Key, Request>, session: Option<string>): map<Key, Request> {
    map k | k in pending :: if k.owner == Client && pending[k].verb == Prompt && pending[k].sessionId == session
      then pending[k].(cancelled := true) else pending[k]
  }

  function ObserveCall(m: Monitor, e: Message): Verdict {
    if !e.verb.Method? || e.result.Some? || e.error.Some? then Failed(InvalidEnvelope) else
    var name := e.verb.name;
    if !SupportedKind(e, name) then Failed(ProtocolState)
    else if e.params.BadParams? then Failed(InvalidEnvelope)
    else if !e.valid then Failed(InvalidPayload)
    else if !(if e.side == Client then ClientMay(m, e, name) else ProviderMay(m, e, name)) then Failed(ProtocolState)
    else
      var sessions :=
        if IsCall(e, Provider, SessionUpdate) && UpdateOf(e).kind == Some("tool_call")
        then m.sessions[SessionOf(e).value := m.sessions[SessionOf(e).value] + {UpdateOf(e).toolCallId.value}]
        else m.sessions;
      var pending := if IsCall(e, Client, Cancel) then CancelPrompts(m.pending, SessionOf(e)) else m.pending;
      var next := m.(sessions := sessions, pending := pending);
      if !e.id.Has? then Accepted(next)
      else if Key(e.side, e.id.id) in m.pending then Failed(InvalidEnvelope)
      else Accepted(next.(pending := pending[Key(e.side, e.id.id) := Request(name, SessionOf(e), ToolOf(e), false)]))
  }

  /** One message in either direction. */
  function Observe(m: Monitor, e: Message, limit: nat): Verdict {
    if m.events + 1 > limit then Failed(EventLimit)
    else if e.id.BadId? then Failed(InvalidEnvelope)
    else
      var n := m.(events := m.events + 1);
      if IsResponse(e) then ObserveResponse(n, e) else ObserveCall(n, e)
  }

  function Watch(m: Monitor, trace: seq<Message>, limit: nat): Verdict {
    if trace == [] then Accepted(m) else
    var before := Watch(m, trace[..|trace| - 1], limit);
    if before.Failed? then before else Observe(before.monitor, trace[|trace| - 1], limit)
  }

  // ---- the trace specification -----------------------------------------------------------------

  /** The request `e` makes or answers. */
  predicate Asks(e: Message, k: Key) {
    !IsResponse(e) && e.id == Has(k.id) && e.side == k.owner
  }

  predicate Answers(e: Message, k: Key) {
    IsResponse(e) && e.id == Has(k.id) && e.side == Other(k.owner)
  }

  /** Message `i` is a request nothing in `h` has answered. */
  ghost predicate Outstanding(h: seq<Message>, i: int, k: Key) {
    0 <= i < |h| && Asks(h[i], k) && forall j :: i < j < |h| ==> !Answers(h[j], k)
  }

  /** `e`, coming after `h`, answers an outstanding request of method `name` with a result. */
  ghost predicate Concludes(h: seq<Message>, e: Message, name: string) {
    IsResponse(e) && e.side == Provider && e.result.Some? && e.id.Has? &&
    exists i :: Outstanding(h, i, Key(Client, e.id.id)) && h[i].verb == Method(name)
  }

  ghost predicate Initialized(h: seq<Message>) {
    exists j :: 0 <= j < |h| && Concludes(h[..j], h[j], Initialize)
  }

  ghost predicate CreatedAt(h: seq<Message>, j: int, session: string) {
    0 <= j < |h| && Concludes(h[..j], h[j], New) && h[j].result.value.sessionId == Some(session)
  }

  ghost predicate Created(h: seq<Message>, session: string) {
    exists j :: CreatedAt(h, j, session)
  }

  ghost predicate AnnouncedAt(h: seq<Message>, j: int, session: string, tool: string) {
    0 <= j < |h| && IsCall(h[j], Provider, SessionUpdate) && SessionOf(h[j]) == Some(session)
    && UpdateOf(h[j]) == Update(Some("tool_call"), Some(tool))
  }

  ghost predicate Announced(h: seq<Message>, session: string, tool: string) {
    exists j :: AnnouncedAt(h, j, session, tool)
  }

  ghost predicate PromptAt(h: seq<Message>, i: int, session: string) {
    0 <= i < |h| && IsCall(h[i], Client, Prompt) && SessionOf(h[i]) == Some(session)
  }

  ghost predicate Prompting(h: seq<Message>, session: string) {
    exists i, k :: Outstanding(h, i, k) && PromptAt(h, i, session)
  }

  ghost predicate CancelAt(h: seq<Message>, j: int, session: Option<string>) {
    0 <= j < |h| && IsCall(h[j], Client, Cancel) && SessionOf(h[j]) == session
  }

  /** A cancel of its session came after prompt `i`. */
  ghost predicate Cancelled(h: seq<Message>, i: int) {
    0 <= i < |h| && IsCall(h[i], Client, Prompt) && exists j :: j > i && CancelAt(h, j, SessionOf(h[i]))
  }

  ghost predicate MayName(h: seq<Message>, session: Option<string>, tool: Option<string>) {
    && session.Some? && Created(h, session.value)
    && tool.Some? && tool.value != "" && Announced(h, session.value, tool.value)
  }

  /** A response may follow `h`. */
  ghost predicate ResponseAllowed(h: seq<Message>, e: Message) {
    && e.id.Has? && (e.result.Some? <==> e.error.None?) && (e.error.Some? ==> e.error.value)
    && exists i :: Outstanding(h, i, Key(Other(e.side), e.id.id)) && AnswerFits(h, i, e)
  }

  ghost predicate AnswerFits(h: seq<Message>, i: int, e: Message)
    requires 0 <= i < |h|
  {
    && (e.side == Client && h[i].verb == Method(Permission) ==>
          MayName(h, SessionOf(h[i]), ToolOf(h[i])) && Prompting(h, SessionOf(h[i]).value))
    && (Cancelled(h, i) ==> e.result.Some? && e.result.value.stopReason == Some("cancelled"))
    && (e.side == Provider && e.result.Some? ==>
          && e.valid
          && (h[i].verb == Method(Initialize) ==> e.result.value.versioned)
          && (h[i].verb == Method(New) ==>
                && e.result.value.sessionId.Some? && e.result.value.sessionId.value != ""
                && !Created(h, e.result.value.sessionId.value))
          && (h[i].verb == Method(Prompt) ==>
                e.result.value.stopReason.Some? && e.result.value.stopReason.value in StopReasons))
  }

  /** A request or notification may follow `h`. */
  ghost predicate CallAllowed(h: seq<Message>, e: Message) {
    && e.verb.Method? && e.result.None? && e.error.None? && !e.params.BadParams? && e.valid
    && (e.id.Has? ==> forall i :: !Outstanding(h, i, Key(e.side, e.id.id)))
    && (e.side == Client ==> ClientAllowed(h, e, e.verb.name))
    && (e.side == Provider ==> ProviderAllowed(h, e, e.verb.name))
  }

  ghost predicate ClientAllowed(h: seq<Message>, e: Message, name: string) {
    && (IsSessionMethod(name) ==> name in ClientSessionMethods && (name == Cancel <==> e.id.NoId?))
    && (name == New ==> Initialized(h) && e.params.Given? && e.params.ownWorkspace)
    && (name == Initialize ==> e.params.Given? && e.params.versionOne)
    && (name == Prompt || name == Cancel ==> SessionOf(e).Some? && Created(h, SessionOf(e).value))
    && (name == Prompt ==> !Prompting(h, SessionOf(e).value))
  }

  ghost predicate ProviderAllowed(h: seq<Message>, e: Message, name: string) {
    && (name == SessionUpdate ==>
          && e.id.NoId? && SessionOf(e).Some? && Created(h, SessionOf(e).value)
          && (UpdateOf(e).kind.Some? && UpdateOf(e).kind.value in TurnUpdates ==> Prompting(h, SessionOf(e).value))
          && (UpdateOf(e).kind == Some("tool_call") ==>
                UpdateOf(e).toolCallId.Some? && UpdateOf(e).toolCallId.value != "" &&
                !Announced(h, SessionOf(e).value, UpdateOf(e).toolCallId.value))
          && (UpdateOf(e).kind == Some("tool_call_update") ==> MayName(h, SessionOf(e), UpdateOf(e).toolCallId)))
    && (name == Permission ==>
          && e.id.Has? && e.params.Given? && e.params.toolCall.Some?
          && MayName(h, SessionOf(e), ToolOf(e)) && Prompting(h, SessionOf(e).value))
  }

  ghost predicate Allowed(h: seq<Message>, e: Message, limit: nat) {
    |h| < limit && !e.id.BadId? && if IsResponse(e) then ResponseAllowed(h, e) else CallAllowed(h, e)
  }

  /** Every message is one that may follow those before it. */
  ghost predicate Conforms(trace: seq<Message>, limit: nat) {
    forall j :: 0 <= j < |trace| ==> Allowed(trace[..j], trace[j], limit)
  }
}
