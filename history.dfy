/** The history dialog: the list of past sessions, the transcript of one of
    them, reconnecting the team view to a session that is still running,
    and deleting a session. The server calls are outcomes passed in. */
module History {
  import opened JsRuntime
  import opened Types
  import opened TeamStore
  import SessionStream

  /** One agent of a stored session configuration. */
  datatype ConfigAgent = ConfigAgent(
    name: string,
    role: string,
    model: string,
    provider: string,
    connections: Option<seq<string>>,
    systemPrompt: Option<string>)

  /** A row of the session list. `configAgents` is `config.agents`, absent
      when the stored configuration has none. */
  datatype SessionSummary = SessionSummary(
    id: string,
    status: string,
    createdAt: string,
    agentNames: seq<string>,
    configAgents: Option<seq<ConfigAgent>>)

  /** One stored chat record; `id` is already rendered with `String(...)`. */
  datatype HistoryRecord = HistoryRecord(
    id: string,
    sessionId: Option<string>,
    fromAgent: Option<string>,
    text: Option<string>,
    timestamp: Option<string>)

  datatype View =
    | ListView
    | DetailView(sessionId: string)
    | ConfirmDelete(sessionId: string)
    | ConfirmReconnect(session: SessionSummary)

  /** The agent rebuilt from the configuration entry at position `i`. */
  function ToAgent(ca: ConfigAgent, i: nat): Agent {
    Agent("agent-" + NatToString(i), ca.name,
          Some(if ca.role == "leader" then Leader else Teammate),
          ca.provider, ca.model, Or(ca.systemPrompt, ""),
          if ca.connections.Some? then ca.connections.value else [],
          None)
  }

  function ToAgentsFrom(cas: seq<ConfigAgent>, i: nat): (r: seq<Agent>)
    ensures |r| == |cas|
    ensures forall k :: 0 <= k < |cas| ==> r[k] == ToAgent(cas[k], i + k)
  {
    if cas == [] then [] else [ToAgent(cas[0], i)] + ToAgentsFrom(cas[1..], i + 1)
  }

  /** The roster of a stored configuration: agent `i` gets id `agent-i`, the
      leader role exactly when its stored role is "leader" (every other
      role becomes teammate), an empty prompt and no connections when those
      are missing, and no geometry. */
  function ConfigToAgents(s: SessionSummary): (r: seq<Agent>)
    ensures s.configAgents.None? ==> r == []
    ensures s.configAgents.Some? ==> |r| == |s.configAgents.value|
    ensures s.configAgents.Some? ==> forall k :: 0 <= k < |r| ==>
      var ca := s.configAgents.value[k];
      && r[k].id == "agent-" + NatToString(k)
      && r[k].name == ca.name && r[k].provider == ca.provider && r[k].model == ca.model
      && r[k].role.Some?
      && (r[k].role == Some(Leader) <==> ca.role == "leader")
      && (Truthy(ca.systemPrompt) ==> r[k].systemPrompt == ca.systemPrompt.value)
      && (!Truthy(ca.systemPrompt) ==> r[k].systemPrompt == "")
      && (ca.connections.None? ==> r[k].connections == [])
      && (ca.connections.Some? ==> r[k].connections == ca.connections.value)
      && r[k].geometry.None?
  {
    var cas := if s.configAgents.Some? then s.configAgents.value else [];
    ToAgentsFrom(cas, 0)
  }

  /** The rebuilt agents have pairwise different ids. */
  lemma ConfigAgentIdsDistinct(s: SessionSummary)
    ensures DistinctKeys(ConfigToAgents(s), AgentId)
  {
    var r := ConfigToAgents(s);
    forall i, j | 0 <= i < j < |r| ensures AgentId(r[i]) != AgentId(r[j]) {
      if AgentId(r[i]) == AgentId(r[j]) {
        var a, b := NatToString(i), NatToString(j);
        assert ("agent-" + a)[6..] == a;
        assert ("agent-" + b)[6..] == b;
        NatToStringInjective(i, j);
      }
    }
  }

  /** The dispatches of a reconnect to a live session, in order. */
  function ReconnectActions(s: SessionSummary): (acts: seq<Action>)
    ensures |acts| == 5
    ensures acts[4] == SetMode(Running)
  {
    [SetAgents(ConfigToAgents(s)), SetSessionId(Some(s.id)), SetMessages([]), SetTasks([]), SetMode(Running)]
  }

  /** After reconnecting, the store shows the configured roster, the
      session's id, an empty chat and task list, and is running; the team
      name, statuses and diagram are kept. */
  lemma ReconnectEffect(st: TeamState, s: SessionSummary)
    ensures ReduceAll(st, ReconnectActions(s))
         == st.(agents := ConfigToAgents(s), sessionId := Some(s.id), messages := [], tasks := [], mode := Running)
  {
    var acts := ReconnectActions(s);
    ReduceAllPair(st, acts[0], acts[1]);
    ReduceAllPair(ReduceAll(st, acts[..2]), acts[2], acts[3]);
    assert acts == acts[..2] + acts[2..4] + [acts[4]];
    assert acts[..2] == [acts[0], acts[1]];
    assert acts[2..4] == [acts[2], acts[3]];
    ReduceAllConcat(st, acts[..2], acts[2..4]);
    ReduceAllConcat(st, acts[..2] + acts[2..4], [acts[4]]);
    ReduceAllOne(ReduceAll(st, acts[..2] + acts[2..4]), acts[4]);
  }

  /** Reconnecting to a session with a non-empty id makes the team page
      stream that session. */
  lemma ReconnectStreams(st: TeamState, s: SessionSummary)
    requires s.id != ""
    ensures SessionStream.StreamArgument(ReduceAll(st, ReconnectActions(s))) == Some(s.id)
  {
    ReconnectEffect(st, s);
  }

  /** The list after a session turned out not to be alive: that session's
      status becomes "ended", every other row and the order stay. */
  function MarkEnded(ss: seq<SessionSummary>, id: string): (r: seq<SessionSummary>)
    ensures |r| == |ss|
    ensures forall k :: 0 <= k < |ss| && ss[k].id == id ==> r[k] == ss[k].(status := "ended")
    ensures forall k :: 0 <= k < |ss| && ss[k].id != id ==> r[k] == ss[k]
  {
    if ss == [] then []
    else [if ss[0].id == id then ss[0].(status := "ended") else ss[0]] + MarkEnded(ss[1..], id)
  }

  /** The chat message of a stored record: "user" records are the user's
      and carry no agent name, all others are an agent's under that name;
      missing content and timestamp are empty, a missing session id is the
      one requested. */
  function RecordToMessage(m: HistoryRecord, requested: string): (r: Message)
    ensures r.id == m.id
    ensures r.role == FromUser <==> m.fromAgent == Some("user")
    ensures r.role != FromUser ==> r.role == FromAgent && r.agentName == m.fromAgent
    ensures r.role == FromUser ==> r.agentName.None?
    ensures Truthy(m.sessionId) ==> r.sessionId == m.sessionId.value
    ensures !Truthy(m.sessionId) ==> r.sessionId == requested
    ensures Truthy(m.text) ==> r.content == m.text.value
    ensures !Truthy(m.text) ==> r.content == ""
    ensures Truthy(m.timestamp) ==> r.timestamp == m.timestamp.value
    ensures !Truthy(m.timestamp) ==> r.timestamp == ""
  {
    var isUser := m.fromAgent == Some("user");
    Message(m.id, Or(m.sessionId, requested), if isUser then FromUser else FromAgent,
            if isUser then None else m.fromAgent, Or(m.text, ""), Or(m.timestamp, ""))
  }

  /** The transcript of a session: one message per record, in order. */
  function Transcript(records: seq<HistoryRecord>, requested: string): (r: seq<Message>)
    ensures |r| == |records|
    ensures forall k :: 0 <= k < |records| ==> r[k] == RecordToMessage(records[k], requested)
  {
    Map(records, (m: HistoryRecord) => RecordToMessage(m, requested))
  }

  function HasOtherId(id: string): SessionSummary -> bool {
    (s: SessionSummary) => s.id != id
  }

  /** The list after a successful delete: exactly the sessions with another
      id, in their order. */
  function RemoveSession(ss: seq<SessionSummary>, id: string): (r: seq<SessionSummary>)
    ensures forall k :: 0 <= k < |r| ==> r[k].id != id && r[k] in ss
    ensures forall k :: 0 <= k < |ss| && ss[k].id != id ==> ss[k] in r
  {
    Filter(ss, HasOtherId(id))
  }

  /** Removing distributes over concatenation, so the relative order of the
      kept sessions is the one they had. */
  lemma RemoveSessionConcat(a: seq<SessionSummary>, b: seq<SessionSummary>, id: string)
    ensures RemoveSession(a + b, id) == RemoveSession(a, id) + RemoveSession(b, id)
  {
    FilterConcat(a, b, HasOtherId(id));
  }

  /** With no session of that id, the list is unchanged. */
  lemma {:induction false} RemoveAbsentSession(ss: seq<SessionSummary>, id: string)
    requires forall k :: 0 <= k < |ss| ==> ss[k].id != id
    ensures RemoveSession(ss, id) == ss
  {
    if ss != [] {
      RemoveAbsentSession(ss[1..], id);
      assert HasOtherId(id)(ss[0]);
    }
  }

  /** Removing twice is removing once. */
  lemma RemoveSessionIdempotent(ss: seq<SessionSummary>, id: string)
    ensures RemoveSession(RemoveSession(ss, id), id) == RemoveSession(ss, id)
  {
    RemoveAbsentSession(RemoveSession(ss, id), id);
  }

  /** The dialog's state. `hasTeam` says whether a team store is present
      (the dialog is also shown outside the team page). */
  class HistoryPanel {
    const hasTeam: bool
    var view: View
    var sessions: seq<SessionSummary>
    var messages: seq<Message>
    var deleting: bool

    constructor(hasTeam0: bool)
      ensures hasTeam == hasTeam0 && view == ListView && sessions == [] && messages == [] && !deleting
    {
      hasTeam := hasTeam0;
      view := ListView;
      sessions := [];
      messages := [];
      deleting := false;
    }

    /** Opening the dialog shows the list and loads it; a failed load keeps
        the list it had. */
    method Open(loaded: Option<seq<SessionSummary>>)
      modifies this
      ensures view == ListView
      ensures sessions == if loaded.Some? then loaded.value else old(sessions)
      ensures messages == old(messages) && deleting == old(deleting)
    {
      view := ListView;
      if loaded.Some? {
        sessions := loaded.value;
      }
    }

    /** `loadDetail`: the detail view of the session, with its transcript,
        or an empty one when the request failed. */
    method LoadDetail(id: string, records: Option<seq<HistoryRecord>>)
      modifies this
      ensures view == DetailView(id)
      ensures messages == if records.Some? then Transcript(records.value, id) else []
      ensures sessions == old(sessions) && deleting == old(deleting)
    {
      view := DetailView(id);
      messages := if records.Some? then Transcript(records.value, id) else [];
    }

    /** A click on a row: a running session, with a team store present,
        asks to reconnect; any other click opens the transcript. */
    method SessionClick(s: SessionSummary, records: Option<seq<HistoryRecord>>)
      modifies this
      ensures s.status == "running" && hasTeam ==> view == ConfirmReconnect(s) && messages == old(messages)
      ensures !(s.status == "running" && hasTeam) ==>
        && view == DetailView(s.id)
        && messages == (if records.Some? then Transcript(records.value, s.id) else [])
      ensures sessions == old(sessions) && deleting == old(deleting)
    {
      if s.status == "running" && hasTeam {
        view := ConfirmReconnect(s);
      } else {
        LoadDetail(s.id, records);
      }
    }

    /** `reconnectToSession`: without a team store nothing happens; a session
        the server no longer runs is marked ended and its transcript shown,
        with nothing dispatched; a live one yields the reconnect dispatches. */
    method Reconnect(s: SessionSummary, alive: bool, records: Option<seq<HistoryRecord>>)
      returns (acts: seq<Action>)
      modifies this
      ensures !hasTeam ==> acts == [] && view == old(view) && sessions == old(sessions) && messages == old(messages)
      ensures hasTeam && !alive ==>
        && acts == [] && sessions == MarkEnded(old(sessions), s.id)
        && view == DetailView(s.id)
        && messages == (if records.Some? then Transcript(records.value, s.id) else [])
      ensures hasTeam && alive ==>
        && acts == ReconnectActions(s)
        && view == old(view) && sessions == old(sessions) && messages == old(messages)
      ensures deleting == old(deleting)
    {
      acts := [];
      if !hasTeam {
        return;
      }
      if !alive {
        sessions := MarkEnded(sessions, s.id);
        LoadDetail(s.id, records);
        return;
      }
      acts := ReconnectActions(s);
    }

    /** `confirmDelete` up to its request: ignored while a delete is in
        progress, otherwise marks one as in progress. */
    method BeginDelete() returns (started: bool)
      modifies this
      ensures started <==> !old(deleting)
      ensures deleting
      ensures view == old(view) && sessions == old(sessions) && messages == old(messages)
    {
      if deleting {
        return false;
      }
      deleting := true;
      return true;
    }

    /** The rest of `confirmDelete`: on success the session leaves the list
        and the list is shown; either way the delete is no longer in
        progress. */
    method FinishDelete(id: string, ok: bool)
      modifies this
      ensures !deleting
      ensures ok ==> sessions == RemoveSession(old(sessions), id) && view == ListView
      ensures !ok ==> sessions == old(sessions) && view == old(view)
      ensures messages == old(messages)
    {
      if ok {
        sessions := RemoveSession(sessions, id);
        view := ListView;
      }
      deleting := false;
    }
  }
}
