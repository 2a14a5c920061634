/** The named-event decoder: the transport's event-type label picks one of five
    event kinds and the JSON payload is carried unchanged. A payload that
    does not parse, or a label outside the five, yields no event. */
module Protocol {
  import opened JsRuntime

  datatype EventKind = MessageEvent | TaskUpdateEvent | AgentStateEvent | SessionStatusEvent | ErrorEvent

  /** The wire label of each kind. */
  function Label(k: EventKind): string {
    match k
    case MessageEvent => "message"
    case TaskUpdateEvent => "task_update"
    case AgentStateEvent => "agent_state"
    case SessionStatusEvent => "session_status"
    case ErrorEvent => "error"
  }

  /** The kind a label names, if any. */
  function KindOf(eventType: string): (k: Option<EventKind>)
    ensures k.Some? ==> Label(k.value) == eventType
    ensures k.None? ==> forall e: EventKind :: Label(e) != eventType
  {
    if eventType == "message" then Some(MessageEvent)
    else if eventType == "task_update" then Some(TaskUpdateEvent)
    else if eventType == "agent_state" then Some(AgentStateEvent)
    else if eventType == "session_status" then Some(SessionStatusEvent)
    else if eventType == "error" then Some(ErrorEvent)
    else None
  }

  datatype Event<J> = Event(kind: EventKind, data: J)

  /** `parseSSEEvent(eventType, data)`. The payload arrives already run
      through `JSON.parse`: `None` is a payload that did not parse, `Some(j)`
      its value (a JSON `null` included). Every failure is a `None` result,
      never an exception. */
  function ParseEvent<J>(eventType: string, payload: Option<J>): (r: Option<Event<J>>)
    ensures payload.None? ==> r.None?
    ensures KindOf(eventType).None? ==> r.None?
    ensures r.Some? <==> payload.Some? && KindOf(eventType).Some?
    ensures r.Some? ==> Label(r.value.kind) == eventType && r.value.data == payload.value
  {
    match payload
    case None => None
    case Some(j) =>
      match KindOf(eventType)
      case Some(k) => Some(Event(k, j))
      case None => None
  }

  /** The five type guards: each accepts exactly the events whose type
      string is its own label. */
  predicate IsMessage<J>(e: Event<J>): (r: bool)
    ensures r <==> Label(e.kind) == "message"
  { e.kind == MessageEvent }

  predicate IsTaskUpdate<J>(e: Event<J>): (r: bool)
    ensures r <==> Label(e.kind) == "task_update"
  { e.kind == TaskUpdateEvent }

  predicate IsAgentState<J>(e: Event<J>): (r: bool)
    ensures r <==> Label(e.kind) == "agent_state"
  { e.kind == AgentStateEvent }

  predicate IsSessionStatus<J>(e: Event<J>): (r: bool)
    ensures r <==> Label(e.kind) == "session_status"
  { e.kind == SessionStatusEvent }

  predicate IsError<J>(e: Event<J>): (r: bool)
    ensures r <==> Label(e.kind) == "error"
  { e.kind == ErrorEvent }

  /** How many of the five guards accept `e`. */
  function GuardsAccepting<J>(e: Event<J>): nat {
    (if IsMessage(e) then 1 else 0) + (if IsTaskUpdate(e) then 1 else 0)
    + (if IsAgentState(e) then 1 else 0) + (if IsSessionStatus(e) then 1 else 0)
    + (if IsError(e) then 1 else 0)
  }

  /** Exactly one guard accepts any event, and it is the one for its label. */
  lemma ExactlyOneGuard<J>(e: Event<J>)
    ensures GuardsAccepting(e) == 1
    ensures IsMessage(e) <==> Label(e.kind) == "message"
    ensures IsTaskUpdate(e) <==> Label(e.kind) == "task_update"
    ensures IsAgentState(e) <==> Label(e.kind) == "agent_state"
    ensures IsSessionStatus(e) <==> Label(e.kind) == "session_status"
    ensures IsError(e) <==> Label(e.kind) == "error"
  {
  }

  /** Decoding a label that came from encoding a kind recovers that kind. */
  lemma LabelRoundTrip(k: EventKind)
    ensures KindOf(Label(k)) == Some(k)
  {
  }

  /** For every recognised label with a parsed payload, the guard matching
      the label accepts the decoded event. */
  lemma DecodedGuard<J>(eventType: string, j: J)
    requires KindOf(eventType).Some?
    ensures var e := ParseEvent(eventType, Some(j)).value;
      && (eventType == "message" <==> IsMessage(e))
      && (eventType == "task_update" <==> IsTaskUpdate(e))
      && (eventType == "agent_state" <==> IsAgentState(e))
      && (eventType == "session_status" <==> IsSessionStatus(e))
      && (eventType == "error" <==> IsError(e))
  {
  }
}
