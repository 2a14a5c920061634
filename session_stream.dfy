/** The session stream: each frame of the server's event stream is a JSON
    envelope `{type, agent, data, timestamp}` that becomes zero or more store
    actions now, plus at most one action deferred by a timer (the delayed
    idle after a turn ends). The connection holder keeps at most one source
    open and, with the module-wide message counter and the timer queue, is
    the stateful part. */
module SessionStream {
  import opened JsRuntime
  import opened Types
  import opened TeamStore

  /** The string-valued fields the translator reads from `event.data`. A
      field absent from the JSON (or the whole `data` absent, which reads as
      `{}`) is `None`. `approve` is the truthiness of `data.approve`. */
  datatype Data = Data(
    content: Option<string>,
    text: Option<string>,
    to: Option<string>,
    summary: Option<string>,
    tool: Option<string>,
    id: Option<string>,
    subject: Option<string>,
    description: Option<string>,
    status: Option<string>,
    owner: Option<string>,
    message: Option<string>,
    protocolType: Option<string>,
    from: Option<string>,
    reason: Option<string>,
    taskId: Option<string>,
    assignedTo: Option<string>,
    taskSubject: Option<string>,
    requestId: Option<string>,
    approve: bool)

  const NoData: Data := Data(None, None, None, None, None, None, None, None, None,
                             None, None, None, None, None, None, None, None, None, false)

  /** A parsed frame. A frame that is not JSON, or parses to `null`, is
      `None` at the level of the whole frame. */
  datatype Envelope = Envelope(
    eventType: Option<string>,
    agent: Option<string>,
    data: Option<Data>,
    timestamp: Option<string>)

  /** The instant a frame is handled: `Date.now()` and its ISO rendering. */
  datatype Clock = Clock(millis: nat, iso: string)

  /** What one frame does: actions dispatched at once, and actions a timer
      dispatches later. */
  datatype Translation = Translation(now: seq<Action>, later: seq<Action>)

  /** `msg-<millis>-<counter>`. */
  function MessageId(millis: nat, n: nat): string {
    "msg-" + NatToString(millis) + "-" + NatToString(n)
  }

  /** Message ids determine the clock reading and the counter they were
      made from. */
  lemma MessageIdInjective(m1: nat, n1: nat, m2: nat, n2: nat)
    requires MessageId(m1, n1) == MessageId(m2, n2)
    ensures m1 == m2 && n1 == n2
  {
    var a, b, c, d := NatToString(m1), NatToString(n1), NatToString(m2), NatToString(n2);
    assert MessageId(m1, n1) == "msg-" + (a + ['-'] + b);
    assert MessageId(m2, n2) == "msg-" + (c + ['-'] + d);
    assert a + ['-'] + b == MessageId(m1, n1)[4..];
    assert c + ['-'] + d == MessageId(m2, n2)[4..];
    SplitAtSeparator(a, b, c, d, '-');
    NatToStringInjective(m1, m2);
    NatToStringInjective(n1, n2);
  }

  /** `makeMessage` with the counter already incremented to `n`. The
      session id is the one the source was opened for, never empty. */
  function MakeMessage(role: MessageRole, content: string, agentName: Option<string>,
                       sid: string, clock: Clock, n: nat): (m: Message)
    ensures m.id == MessageId(clock.millis, n) && m.sessionId == sid && m.timestamp == clock.iso
    ensures m.role == role && m.content == content && m.agentName == agentName
  {
    Message(MessageId(clock.millis, n), sid, role, agentName, content, clock.iso)
  }

  const Arrow: string := " \U{2192} "
  const SessionComplete: string := "Session complete \U{2014} all agents finished."

  /** A system message. */
  function Say(text: string, who: Option<string>, sid: string, clock: Clock, n: nat): Action {
    AddMessage(MakeMessage(FromSystem, text, who, sid, clock, n))
  }

  /** The actions a stream action may be: none of them clears or rewrites
      the chat, and the only mode it sets is `stopped`. */
  predicate StreamAction(a: Action) {
    a.AddMessage? || a.SetAgentState? || a.UpdateTask? || a == SetMode(Stopped)
  }

  /** What every frame's immediate actions satisfy: stream actions only, at
      most one message, and that message made with counter value `n`. */
  predicate WellMade(acts: seq<Action>, sid: string, clock: Clock, n: nat) {
    && (forall k :: 0 <= k < |acts| ==> StreamAction(acts[k]))
    && (forall k :: 0 <= k < |acts| && acts[k].AddMessage? ==>
          acts[k].message == MakeMessage(acts[k].message.role, acts[k].message.content,
                                         acts[k].message.agentName, sid, clock, n))
    && (forall k, k' :: 0 <= k < k' < |acts| ==> !(acts[k].AddMessage? && acts[k'].AddMessage?))
  }

  /** The `protocol_message` cases, each appending one system message. */
  function OnProtocol(d: Data, agent: Option<string>, sid: string, clock: Clock, n: nat): (acts: seq<Action>)
    ensures WellMade(acts, sid, clock, n)
  {
    var protocolType := Or(d.protocolType, "unknown");
    var from := Or(d.from, Or(agent, "system"));
    if protocolType == "idle_notification" then
      (if from != "" then [SetAgentState(AgentState(from, Idle, None))] else [])
      + [Say(from + " is now idle", agent, sid, clock, n)]
    else if protocolType == "shutdown_request" then
      [Say("Shutdown requested: " + Or(d.reason, ""), None, sid, clock, n)]
    else if protocolType == "task_assignment" then
      [Say("Task #" + Interp(d.taskId) + " assigned to " + Interp(d.assignedTo), agent, sid, clock, n)]
    else if protocolType == "shutdown_approved" then
      [Say(from + " approved shutdown", agent, sid, clock, n)]
    else if protocolType == "task_completed" then
      [Say(from + " completed task #" + Interp(d.taskId) + ": " + Or(d.taskSubject, ""), agent, sid, clock, n)]
    else if protocolType == "plan_approval_request" then
      [Say(from + " requests plan approval (request: " + Or(d.requestId, "") + ")", agent, sid, clock, n)]
    else if protocolType == "plan_approval_response" then
      var approved := if d.approve then "approved" else "rejected";
      [Say("Plan " + approved + " by " + from + " (request: " + Or(d.requestId, "") + ")", agent, sid, clock, n)]
    else []
  }

  /** `event.data || {}`. */
  function DataOf(ev: Envelope): Data {
    if ev.data.Some? then ev.data.value else NoData
  }

  /** The `onmessage` switch for one parsed envelope, with the message
      counter at `counter` before the frame. */
  function OnEnvelope(ev: Envelope, sid: string, clock: Clock, counter: nat): (t: Translation)
    ensures WellMade(t.now, sid, clock, counter + 1)
    ensures |t.later| <= 1
    ensures forall k :: 0 <= k < |t.later| ==> t.later[k].SetAgentState? && t.later[k].state.state == Idle
  {
    var agent := ev.agent;
    var d := DataOf(ev);
    var n := counter + 1;
    var ty := if ev.eventType.Some? then ev.eventType.value else "";
    if ev.eventType.None? then Translation([], [])
    else if ty == "agent_response" then
      var content := Or(d.content, "");
      if content != "" then Translation([AddMessage(MakeMessage(FromAgent, content, agent, sid, clock, n))], [])
      else Translation([], [])
    else if ty == "agent_message" then
      var text := Or(d.text, Or(d.content, ""));
      var to := Or(d.to, "");
      var summary := Or(d.summary, "");
      Translation([Say(Interp(agent) + Arrow + to + ": " + Or(Some(summary), text), agent, sid, clock, n)], [])
    else if ty == "tool_call" then
      Translation([Say(Interp(agent) + " called " + Or(d.tool, ""), agent, sid, clock, n)], [])
    else if ty == "thinking" || ty == "turn_start" then
      if Truthy(agent) then Translation([SetAgentState(AgentState(agent.value, Working, None))], [])
      else Translation([], [])
    else if ty == "turn_end" then
      if Truthy(agent) then Translation([], [SetAgentState(AgentState(agent.value, Idle, None))])
      else Translation([], [])
    else if ty == "task_update" then
      var at := Or(ev.timestamp, clock.iso);
      Translation([UpdateTask(Task(Or(d.id, ""), sid, Or(d.subject, Or(d.description, "")),
                                   Or(d.status, "pending"), d.owner, None, at, at))], [])
    else if ty == "error" then
      Translation([Say("Error: " + Or(d.message, "Unknown error"), agent, sid, clock, n)], [])
    else if ty == "session_end" then
      Translation([Say(SessionComplete, None, sid, clock, n), SetMode(Stopped)], [])
    else if ty == "protocol_message" then
      Translation(OnProtocol(d, agent, sid, clock, n), [])
    else Translation([], [])
  }

  /** A frame as a whole: an unparseable frame does nothing. At most one
      message is made per frame, and every message carries the id built from
      the clock and the incremented counter, the source's session id and the
      clock's timestamp; the only deferred action is an idle status. */
  function Translate(frame: Option<Envelope>, sid: string, clock: Clock, counter: nat): (t: Translation)
    ensures frame.None? ==> t.now == [] && t.later == []
    ensures WellMade(t.now, sid, clock, counter + 1)
    ensures |t.later| <= 1
    ensures forall k :: 0 <= k < |t.later| ==> t.later[k].SetAgentState? && t.later[k].state.state == Idle
  {
    match frame
    case None => Translation([], [])
    case Some(ev) => OnEnvelope(ev, sid, clock, counter)
  }

  /** The counter after a frame: one more for each message made. */
  function Made(t: Translation): nat {
    |MessagesAdded(t.now)|
  }

  /** A list with at most one message appends at most one. */
  lemma {:induction false} AtMostOneMessage(acts: seq<Action>)
    requires forall k, k' :: 0 <= k < k' < |acts| ==> !(acts[k].AddMessage? && acts[k'].AddMessage?)
    ensures |MessagesAdded(acts)| <= 1
    decreases |acts|
  {
    if acts != [] {
      var init := acts[..|acts| - 1];
      AtMostOneMessage(init);
      if acts[|acts| - 1].AddMessage? {
        forall k | 0 <= k < |init| ensures !init[k].AddMessage? {
          assert init[k] == acts[k];
        }
        NoMessages(init);
      }
    }
  }

  lemma {:induction false} NoMessages(acts: seq<Action>)
    requires forall k :: 0 <= k < |acts| ==> !acts[k].AddMessage?
    ensures MessagesAdded(acts) == []
    decreases |acts|
  {
    if acts != [] {
      NoMessages(acts[..|acts| - 1]);
    }
  }

  /** No frame clears or rewrites the chat: it keeps every message and adds
      at most one, and the counter moves by the number added. */
  lemma StreamChatAppendOnly(s: TeamState, frame: Option<Envelope>, sid: string, clock: Clock, counter: nat)
    ensures var t := Translate(frame, sid, clock, counter);
      && ReduceAll(s, t.now).messages == s.messages + MessagesAdded(t.now)
      && Made(t) <= 1
  {
    var t := Translate(frame, sid, clock, counter);
    MessagesAppendOnly(s, t.now);
    AtMostOneMessage(t.now);
  }

  /** `agent_response`: one agent message named after the sender when the
      content is non-empty, otherwise nothing. */
  lemma AgentResponseEffect(s: TeamState, ev: Envelope, sid: string, clock: Clock, counter: nat)
    requires ev.eventType == Some("agent_response")
    ensures var t := Translate(Some(ev), sid, clock, counter); var content := DataOf(ev).content;
      && t.later == []
      && (!Truthy(content) ==> t.now == [])
      && (Truthy(content) ==> ReduceAll(s, t.now) == s.(messages := s.messages
            + [MakeMessage(FromAgent, content.value, ev.agent, sid, clock, counter + 1)]))
  {
    var t := Translate(Some(ev), sid, clock, counter);
    if Truthy(DataOf(ev).content) {
      ReduceAllOne(s, t.now[0]);
    }
  }

  /** `agent_message`: one system line "<agent> → <to>: <summary or text>",
      where the text falls back to the content. */
  lemma AgentMessageEffect(s: TeamState, ev: Envelope, sid: string, clock: Clock, counter: nat)
    requires ev.eventType == Some("agent_message")
    ensures var t := Translate(Some(ev), sid, clock, counter); var d := DataOf(ev);
      var body := if Truthy(d.summary) then d.summary.value
                  else if Truthy(d.text) then d.text.value
                  else Or(d.content, "");
      && t.later == []
      && ReduceAll(s, t.now) == s.(messages := s.messages
           + [MakeMessage(FromSystem, Interp(ev.agent) + Arrow + Or(d.to, "") + ": " + body,
                          ev.agent, sid, clock, counter + 1)])
  {
    ReduceAllOne(s, Translate(Some(ev), sid, clock, counter).now[0]);
  }

  /** `tool_call`: one system line "<agent> called <tool>". */
  lemma ToolCallEffect(s: TeamState, ev: Envelope, sid: string, clock: Clock, counter: nat)
    requires ev.eventType == Some("tool_call")
    ensures var t := Translate(Some(ev), sid, clock, counter);
      && t.later == []
      && ReduceAll(s, t.now) == s.(messages := s.messages
           + [MakeMessage(FromSystem, Interp(ev.agent) + " called " + Or(DataOf(ev).tool, ""),
                          ev.agent, sid, clock, counter + 1)])
  {
    ReduceAllOne(s, Translate(Some(ev), sid, clock, counter).now[0]);
  }

  /** `error`: one system line "Error: <message>", "Unknown error" when the
      message is absent or empty. */
  lemma ErrorEffect(s: TeamState, ev: Envelope, sid: string, clock: Clock, counter: nat)
    requires ev.eventType == Some("error")
    ensures var t := Translate(Some(ev), sid, clock, counter); var m := DataOf(ev).message;
      && t.later == []
      && ReduceAll(s, t.now) == s.(messages := s.messages
           + [MakeMessage(FromSystem, "Error: " + (if Truthy(m) then m.value else "Unknown error"),
                          ev.agent, sid, clock, counter + 1)])
  {
    ReduceAllOne(s, Translate(Some(ev), sid, clock, counter).now[0]);
  }

  /** `thinking` and `turn_start`: the sender becomes working; without a
      sender nothing happens. */
  lemma WorkingEffect(s: TeamState, ev: Envelope, sid: string, clock: Clock, counter: nat)
    requires ev.eventType == Some("thinking") || ev.eventType == Some("turn_start")
    ensures var t := Translate(Some(ev), sid, clock, counter);
      && t.later == []
      && (!Truthy(ev.agent) ==> t.now == [])
      && (Truthy(ev.agent) ==> ReduceAll(s, t.now) == s.(agentStates :=
            s.agentStates[ev.agent.value := AgentState(ev.agent.value, Working, None)]))
  {
    var t := Translate(Some(ev), sid, clock, counter);
    if Truthy(ev.agent) {
      ReduceAllOne(s, t.now[0]);
    }
  }

  /** `turn_end`: nothing now; one deferred idle status for the sender, and
      none without a sender. */
  lemma TurnEndDeferred(ev: Envelope, sid: string, clock: Clock, counter: nat)
    requires ev.eventType == Some("turn_end")
    ensures var t := Translate(Some(ev), sid, clock, counter);
      && t.now == []
      && (Truthy(ev.agent) <==> |t.later| == 1)
      && (Truthy(ev.agent) ==> t.later == [SetAgentState(AgentState(ev.agent.value, Idle, None))])
  {
  }

  /** `task_update`: one upsert of a task built with the documented
      defaults, and nothing else. */
  lemma TaskUpdateEffect(s: TeamState, ev: Envelope, sid: string, clock: Clock, counter: nat)
    requires ev.eventType == Some("task_update")
    ensures var t := Translate(Some(ev), sid, clock, counter); var d := DataOf(ev);
      && t.later == [] && |t.now| == 1 && t.now[0].UpdateTask?
      && var task := t.now[0].task;
      && task.id == (if Truthy(d.id) then d.id.value else "")
      && task.sessionId == sid
      && task.description == (if Truthy(d.subject) then d.subject.value
                              else if Truthy(d.description) then d.description.value else "")
      && task.status == (if Truthy(d.status) then d.status.value else "pending")
      && task.assignedTo == d.owner
      && task.result.None?
      && task.createdAt == (if Truthy(ev.timestamp) then ev.timestamp.value else clock.iso)
      && task.updatedAt == (if Truthy(ev.timestamp) then ev.timestamp.value else clock.iso)
      && ReduceAll(s, t.now) == s.(tasks := Upsert(s.tasks, task, TaskId))
  {
    ReduceAllOne(s, Translate(Some(ev), sid, clock, counter).now[0]);
  }

  /** `session_end`: the completion line, with no agent, then mode stopped. */
  lemma SessionEndEffect(s: TeamState, ev: Envelope, sid: string, clock: Clock, counter: nat)
    requires ev.eventType == Some("session_end")
    ensures var t := Translate(Some(ev), sid, clock, counter);
      && t.later == []
      && ReduceAll(s, t.now) == s.(messages := s.messages
           + [MakeMessage(FromSystem, SessionComplete, None, sid, clock, counter + 1)], mode := Stopped)
  {
    var t := Translate(Some(ev), sid, clock, counter);
    ReduceAllPair(s, t.now[0], t.now[1]);
  }

  /** A second `session_end` leaves the mode stopped and adds one more line. */
  lemma SessionEndTwice(s: TeamState, e1: Envelope, e2: Envelope, sid: string,
                        c1: Clock, c2: Clock, n1: nat, n2: nat)
    requires e1.eventType == Some("session_end") && e2.eventType == Some("session_end")
    ensures var s1 := ReduceAll(s, Translate(Some(e1), sid, c1, n1).now);
      var s2 := ReduceAll(s1, Translate(Some(e2), sid, c2, n2).now);
      && s1.mode == Stopped && s2.mode == Stopped
      && s2 == s1.(messages := s1.messages + [MakeMessage(FromSystem, SessionComplete, None, sid, c2, n2 + 1)])
  {
    SessionEndEffect(s, e1, sid, c1, n1);
    var s1 := ReduceAll(s, Translate(Some(e1), sid, c1, n1).now);
    SessionEndEffect(s1, e2, sid, c2, n2);
  }

  /** The sender of a protocol message: `data.from`, else the envelope's
      agent, else "system". It is never empty. */
  function Sender(ev: Envelope): (from: string)
    ensures from != ""
    ensures Truthy(DataOf(ev).from) ==> from == DataOf(ev).from.value
    ensures !Truthy(DataOf(ev).from) && Truthy(ev.agent) ==> from == ev.agent.value
    ensures !Truthy(DataOf(ev).from) && !Truthy(ev.agent) ==> from == "system"
  {
    Or(DataOf(ev).from, Or(ev.agent, "system"))
  }

  /** The protocol types that append a line without touching any status. */
  const NoticeTypes: seq<string> := ["shutdown_request", "task_assignment", "shutdown_approved",
                                     "task_completed", "plan_approval_request", "plan_approval_response"]

  function ProtocolTypeOf(ev: Envelope): string {
    Or(DataOf(ev).protocolType, "unknown")
  }

  /** `idle_notification`: the sender becomes idle, then one line
      "<sender> is now idle". */
  lemma IdleNotificationEffect(s: TeamState, ev: Envelope, sid: string, clock: Clock, counter: nat)
    requires ev.eventType == Some("protocol_message")
    requires ProtocolTypeOf(ev) == "idle_notification"
    ensures var t := Translate(Some(ev), sid, clock, counter);
      && t.later == []
      && t.now[0].SetAgentState?
      && ReduceAll(s, t.now) == s.(
           agentStates := s.agentStates[Sender(ev) := AgentState(Sender(ev), Idle, None)],
           messages := s.messages + [MakeMessage(FromSystem, Sender(ev) + " is now idle", ev.agent,
                                                 sid, clock, counter + 1)])
  {
    var t := Translate(Some(ev), sid, clock, counter);
    ReduceAllPair(s, t.now[0], t.now[1]);
  }

  /** Every other listed protocol type appends exactly one system line and
      sets no status. The line is made with the next counter, carries the
      envelope's agent (none for a shutdown request) and follows its type's
      template, with `from` the sender. */
  lemma ProtocolNoticeEffect(s: TeamState, ev: Envelope, sid: string, clock: Clock, counter: nat)
    requires ev.eventType == Some("protocol_message")
    requires ProtocolTypeOf(ev) in NoticeTypes
    ensures var t := Translate(Some(ev), sid, clock, counter);
      && t.later == [] && |t.now| == 1 && t.now[0].AddMessage?
      && t.now[0].message.role == FromSystem
      && ReduceAll(s, t.now) == s.(messages := s.messages + [t.now[0].message])
    ensures var m := Translate(Some(ev), sid, clock, counter).now[0].message;
      var pt, d, from := ProtocolTypeOf(ev), DataOf(ev), Sender(ev);
      && m == MakeMessage(FromSystem, m.content, m.agentName, sid, clock, counter + 1)
      && m.agentName == (if pt == "shutdown_request" then None else ev.agent)
      && (pt == "shutdown_request" ==> m.content == "Shutdown requested: " + Or(d.reason, ""))
      && (pt == "task_assignment" ==>
            m.content == "Task #" + Interp(d.taskId) + " assigned to " + Interp(d.assignedTo))
      && (pt == "shutdown_approved" ==> m.content == from + " approved shutdown")
      && (pt == "task_completed" ==>
            m.content == from + " completed task #" + Interp(d.taskId) + ": " + Or(d.taskSubject, ""))
      && (pt == "plan_approval_request" ==>
            m.content == from + " requests plan approval (request: " + Or(d.requestId, "") + ")")
      && (pt == "plan_approval_response" ==>
            m.content == "Plan " + (if d.approve then "approved" else "rejected") + " by " + from
                         + " (request: " + Or(d.requestId, "") + ")")
  {
    ReduceAllOne(s, Translate(Some(ev), sid, clock, counter).now[0]);
  }

  /** The line of a plan-approval response. */
  lemma PlanResponseLine(d: Data, agent: Option<string>, sid: string, clock: Clock, n: nat)
    requires Or(d.protocolType, "unknown") == "plan_approval_response"
    ensures var from := Or(d.from, Or(agent, "system"));
      var word := if d.approve then "approved" else "rejected";
      OnProtocol(d, agent, sid, clock, n)
        == [Say("Plan " + word + " by " + from + " (request: " + Or(d.requestId, "") + ")", agent, sid, clock, n)]
  {
  }

  /** A line opening with "Plan " and a word of eight letters starts with
      that phrase and with no other of the two. */
  lemma PlanWordPrefix(word: string, tail: string)
    requires word == "approved" || word == "rejected"
    ensures StartsWith("Plan " + word + tail, "Plan approved") <==> word == "approved"
    ensures StartsWith("Plan " + word + tail, "Plan rejected") <==> word == "rejected"
  {
    var line := "Plan " + word + tail;
    assert line[..13] == "Plan " + word;
    assert line[5] == word[0];
  }

  /** The plan-approval line says "approved" exactly when `approve` is
      truthy, and "rejected" exactly when it is not. */
  lemma PlanApprovalWording(ev: Envelope, sid: string, clock: Clock, counter: nat)
    requires ev.eventType == Some("protocol_message")
    requires ProtocolTypeOf(ev) == "plan_approval_response"
    ensures var line := Translate(Some(ev), sid, clock, counter).now[0].message.content;
      && (DataOf(ev).approve <==> StartsWith(line, "Plan approved"))
      && (!DataOf(ev).approve <==> StartsWith(line, "Plan rejected"))
  {
    var d := DataOf(ev);
    assert Translate(Some(ev), sid, clock, counter).now == OnProtocol(d, ev.agent, sid, clock, counter + 1);
    PlanResponseLine(d, ev.agent, sid, clock, counter + 1);
    var word := if d.approve then "approved" else "rejected";
    PlanWordPrefix(word, " by " + Sender(ev) + " (request: " + Or(d.requestId, "") + ")");
  }

  /** The event types the switch handles. */
  const HandledTypes: seq<string> := ["agent_response", "agent_message", "tool_call", "thinking",
                                      "turn_start", "turn_end", "task_update", "error",
                                      "session_end", "protocol_message"]

  /** Unparseable frames, frames without a type or with an unhandled one
      (`session_start`, `tool_result`, ...), and protocol messages of an
      unlisted protocol type, do nothing. */
  lemma IgnoredFrames(frame: Option<Envelope>, sid: string, clock: Clock, counter: nat)
    requires || frame.None?
             || frame.value.eventType.None?
             || frame.value.eventType.value !in HandledTypes
             || (frame.value.eventType == Some("protocol_message")
                 && ProtocolTypeOf(frame.value) != "idle_notification"
                 && ProtocolTypeOf(frame.value) !in NoticeTypes)
    ensures Translate(frame, sid, clock, counter) == Translation([], [])
  {
  }

  /** There is no staleness guard on the delayed idle: after turn_start,
      turn_end and a second turn_start, the agent shows working, and once
      the timer of the first turn fires it shows idle although its second
      turn is still under way. */
  lemma NoStalenessGuard(s: TeamState, agent: string, sid: string,
                         c1: Clock, c2: Clock, c3: Clock, n1: nat, n2: nat, n3: nat)
    requires agent != ""
    ensures var start := Envelope(Some("turn_start"), Some(agent), None, None);
      var stop := Envelope(Some("turn_end"), Some(agent), None, None);
      var t1, t2, t3 := Translate(Some(start), sid, c1, n1), Translate(Some(stop), sid, c2, n2),
                        Translate(Some(start), sid, c3, n3);
      var s3 := ReduceAll(ReduceAll(ReduceAll(s, t1.now), t2.now), t3.now);
      var fired := ReduceAll(s3, t1.later + t2.later + t3.later);
      && agent in s3.agentStates && s3.agentStates[agent].state == Working
      && agent in fired.agentStates && fired.agentStates[agent].state == Idle
  {
    var start := Envelope(Some("turn_start"), Some(agent), None, None);
    var stop := Envelope(Some("turn_end"), Some(agent), None, None);
    var t1, t2, t3 := Translate(Some(start), sid, c1, n1), Translate(Some(stop), sid, c2, n2),
                      Translate(Some(start), sid, c3, n3);
    WorkingEffect(s, start, sid, c1, n1);
    var s1 := ReduceAll(s, t1.now);
    TurnEndDeferred(stop, sid, c2, n2);
    assert ReduceAll(s1, t2.now) == s1;
    WorkingEffect(s1, start, sid, c3, n3);
    var s3 := ReduceAll(s1, t3.now);
    assert t1.later + t2.later + t3.later == [SetAgentState(AgentState(agent, Idle, None))];
    ReduceAllOne(s3, SetAgentState(AgentState(agent, Idle, None)));
  }

  /** The hook's argument on the team page: the session id while running,
      nothing otherwise. */
  function StreamArgument(s: TeamState): (arg: Option<string>)
    ensures Truthy(arg) <==> s.mode == Running && Truthy(s.sessionId)
    ensures Truthy(arg) ==> arg == s.sessionId
  {
    if s.mode == Running then s.sessionId else None
  }

  /** After `session_end` the page no longer asks for a stream. */
  lemma SessionEndUnsubscribes(s: TeamState, ev: Envelope, sid: string, clock: Clock, counter: nat)
    requires ev.eventType == Some("session_end")
    ensures StreamArgument(ReduceAll(s, Translate(Some(ev), sid, clock, counter).now)).None?
  {
    SessionEndEffect(s, ev, sid, clock, counter);
  }

  /** `useSessionStream` with the store it dispatches into. Sources are
      numbered in the order they were opened; `sources[h]` is the session id
      source `h` streams, and `closed` the sources closed so far. The timer
      queue holds the deferred idle actions in the order they will fire
      (they all wait the same 2000 ms and nothing cancels them). */
  class StreamHook {
    var arg: Option<string>
    var current: Option<nat>
    var sources: seq<string>
    var closed: set<nat>
    var counter: nat
    var pending: seq<Action>
    var store: TeamState

    /** The held source is open and streams the hook's argument, every
        other source is closed, and only non-empty session ids were ever
        opened. */
    ghost predicate Valid()
      reads this
    {
      && (current.Some? ==> current.value < |sources| && current.value !in closed)
      && (current.Some? ==> arg == Some(sources[current.value]))
      && (forall h :: h in closed ==> h < |sources|)
      && (forall h :: 0 <= h < |sources| && h !in closed ==> current == Some(h))
      && (forall h :: 0 <= h < |sources| ==> sources[h] != "")
    }

    /** The sources that are open. There is at most one: the held one. */
    function OpenSources(): (r: set<nat>)
      reads this
      requires Valid()
      ensures r == if current.Some? then {current.value} else {}
      ensures |r| <= 1
    {
      set h: nat | h < |sources| && h !in closed
    }

    /** The hook mounting with argument `arg0`: its effect connects. The
        message counter is module-wide, so a mount continues from the count
        `counter0` that earlier mounts left (0 when the page first loads). */
    constructor(arg0: Option<string>, s0: TeamState, counter0: nat)
      ensures Valid()
      ensures arg == arg0 && closed == {} && counter == counter0 && pending == [] && store == s0
      ensures Truthy(arg0) ==> current == Some(0) && sources == [arg0.value]
      ensures !Truthy(arg0) ==> current.None? && sources == []
    {
      arg := arg0;
      current := None;
      sources := [];
      closed := {};
      counter := counter0;
      pending := [];
      store := s0;
      new;
      Connect();
    }

    /** `connect`: nothing without a session id; otherwise the held source,
        if any, is closed before the new one is opened and held. */
    method Connect()
      modifies this
      requires Valid()
      ensures Valid()
      ensures arg == old(arg) && counter == old(counter) && pending == old(pending) && store == old(store)
      ensures !Truthy(arg) ==> current == old(current) && sources == old(sources) && closed == old(closed)
      ensures Truthy(arg) ==>
        && sources == old(sources) + [arg.value]
        && current == Some(|old(sources)|)
        && closed == old(closed) + (if old(current).Some? then {old(current).value} else {})
        && OpenSources() == {|old(sources)|}
    {
      if Truthy(arg) {
        if current.Some? {
          closed := closed + {current.value};
        }
        sources := sources + [arg.value];
        current := Some(|sources| - 1);
      }
    }

    /** `disconnect`: the held source, if any, is closed and released; with
        none held it does nothing. */
    method Disconnect()
      modifies this
      requires Valid()
      ensures Valid()
      ensures current.None? && OpenSources() == {}
      ensures sources == old(sources)
      ensures closed == old(closed) + (if old(current).Some? then {old(current).value} else {})
      ensures arg == old(arg) && counter == old(counter) && pending == old(pending) && store == old(store)
    {
      if current.Some? {
        closed := closed + {current.value};
        current := None;
      }
    }

    /** A re-render with a new argument: the effect's cleanup disconnects
        and the effect connects again; the same argument changes nothing. */
    method Render(newArg: Option<string>)
      modifies this
      requires Valid()
      ensures Valid()
      ensures arg == newArg
      ensures newArg == old(arg) ==> current == old(current) && sources == old(sources) && closed == old(closed)
      ensures newArg != old(arg) ==> OpenSources() == (if Truthy(newArg) then {|old(sources)|} else {})
      ensures newArg != old(arg) ==>
        closed == old(closed) + (if old(current).Some? then {old(current).value} else {})
      ensures newArg != old(arg) && Truthy(newArg) ==>
        sources == old(sources) + [newArg.value] && current == Some(|old(sources)|)
      ensures newArg != old(arg) && !Truthy(newArg) ==> sources == old(sources) && current.None?
      ensures counter == old(counter) && pending == old(pending) && store == old(store)
    {
      if newArg != arg {
        Disconnect();
        arg := newArg;
        Connect();
      }
    }

    /** `onmessage` of the held source: the frame's immediate actions reach
        the store, its deferred ones join the timer queue and the counter
        advances by the messages made. Without an open source no frame
        arrives. */
    method Deliver(frame: Option<Envelope>, clock: Clock)
      modifies this
      requires Valid()
      ensures Valid()
      ensures arg == old(arg) && current == old(current) && sources == old(sources) && closed == old(closed)
      ensures old(current).None? ==> counter == old(counter) && pending == old(pending) && store == old(store)
      ensures old(current).Some? ==>
        var t := Translate(frame, sources[current.value], clock, old(counter));
        && store == ReduceAll(old(store), t.now)
        && pending == old(pending) + t.later
        && counter == old(counter) + Made(t)
    {
      if current.Some? {
        var t := Translate(frame, sources[current.value], clock, counter);
        store := ReduceAll(store, t.now);
        pending := pending + t.later;
        counter := counter + Made(t);
      }
    }

    /** The `k` oldest timers fire, whether or not a source is still open. */
    method FireTimers(k: nat)
      modifies this
      requires Valid()
      requires k <= |pending|
      ensures Valid()
      ensures store == ReduceAll(old(store), old(pending)[..k])
      ensures pending == old(pending)[k..]
      ensures arg == old(arg) && current == old(current) && sources == old(sources) && closed == old(closed)
      ensures counter == old(counter)
    {
      store := ReduceAll(store, pending[..k]);
      pending := pending[k..];
    }

    /** Any other part of the page dispatching to the store. */
    method Dispatch(a: Action)
      modifies this
      requires Valid()
      ensures Valid()
      ensures store == Reduce(old(store), a)
      ensures arg == old(arg) && current == old(current) && sources == old(sources) && closed == old(closed)
      ensures counter == old(counter) && pending == old(pending)
    {
      store := Reduce(store, a);
    }

    /** The team page re-rendering: the hook follows the store's mode and
        session id. An unchanged argument keeps the connection; a changed
        one closes the held source and, for a running session, opens and
        holds a source for it. */
    method Follow()
      modifies this
      requires Valid()
      ensures Valid()
      ensures arg == StreamArgument(store)
      ensures OpenSources() != {} ==> Truthy(arg)
      ensures arg == old(arg) ==> current == old(current) && sources == old(sources) && closed == old(closed)
      ensures arg != old(arg) ==>
        closed == old(closed) + (if old(current).Some? then {old(current).value} else {})
      ensures arg != old(arg) && Truthy(arg) ==>
        && sources == old(sources) + [arg.value]
        && current == Some(|old(sources)|)
        && OpenSources() == {|old(sources)|}
      ensures arg != old(arg) && !Truthy(arg) ==> sources == old(sources) && current.None? && OpenSources() == {}
      ensures counter == old(counter) && pending == old(pending) && store == old(store)
    {
      Render(StreamArgument(store));
      if current.Some? {
        assert sources[current.value] != "";
      }
    }
  }
}
