/** The canvas toolbar's run and stop buttons: run sends the roster, with
    defaults filled in, and the current keys to create a session, then
    records the new session and starts running; stop asks the server to stop
    the current session and then marks the team stopped. The server's answer
    is an input. */
module Toolbar {
  import opened JsRuntime
  import opened Types
  import opened TeamStore
  import SessionStream

  const DefaultPrompt: string := "You are a helpful AI assistant."

  /** One agent of the session-creation request. */
  datatype AgentRequest = AgentRequest(
    name: string,
    role: string,
    provider: string,
    model: string,
    systemPrompt: string,
    connections: seq<string>)

  /** The request body: the agents, an always-empty top-level connection
      list, and the keys. */
  datatype SessionRequest = SessionRequest(
    agents: seq<AgentRequest>,
    connections: seq<seq<string>>,
    apiKeys: map<Provider, string>)

  function RoleName(r: AgentRole): string {
    match r
    case Leader => "leader"
    case Teammate => "teammate"
  }

  /** One agent of the body: a missing role is sent as "teammate" and an
      empty prompt as the default prompt. */
  function ToRequest(a: Agent): (q: AgentRequest)
    ensures q.name == a.name && q.provider == a.provider && q.model == a.model
    ensures q.connections == a.connections
    ensures a.role.None? ==> q.role == "teammate"
    ensures a.role.Some? ==> q.role == RoleName(a.role.value)
    ensures a.systemPrompt != "" ==> q.systemPrompt == a.systemPrompt
    ensures a.systemPrompt == "" ==> q.systemPrompt == DefaultPrompt
  {
    AgentRequest(a.name, if a.role.Some? then RoleName(a.role.value) else "teammate",
                 a.provider, a.model, Or(Some(a.systemPrompt), DefaultPrompt), a.connections)
  }

  /** The body for a roster: one entry per agent, in roster order. */
  function BuildRequest(agents: seq<Agent>, keys: map<Provider, string>): (b: SessionRequest)
    ensures |b.agents| == |agents|
    ensures forall i :: 0 <= i < |agents| ==> b.agents[i] == ToRequest(agents[i])
    ensures b.connections == [] && b.apiKeys == keys
  {
    SessionRequest(Map(agents, ToRequest), [], keys)
  }

  /** What a press of Run does: the request it sends, if any, and the store
      actions that follow. */
  datatype RunResult = RunResult(request: Option<SessionRequest>, acts: seq<Action>)

  /** `handleRun`; `created` is the new session's id when the server
      created it, `None` when the call failed. With an empty roster nothing
      is sent and nothing changes. */
  function HandleRun(s: TeamState, keys: map<Provider, string>, created: Option<string>): (r: RunResult)
    ensures s.agents == [] <==> r.request.None?
    ensures r.request.Some? ==> r.request.value == BuildRequest(s.agents, keys)
    ensures r.request.None? || created.None? ==> r.acts == []
  {
    if |s.agents| == 0 then RunResult(None, [])
    else match created
      case Some(id) => RunResult(Some(BuildRequest(s.agents, keys)), [SetSessionId(Some(id)), SetMode(Running)])
      case None => RunResult(Some(BuildRequest(s.agents, keys)), [])
  }

  /** A successful run records the session id, then runs; nothing else in
      the store moves. A failed run changes nothing. */
  lemma RunEffect(s: TeamState, keys: map<Provider, string>, created: Option<string>)
    requires s.agents != []
    ensures var after := ReduceAll(s, HandleRun(s, keys, created).acts);
      && (created.Some? ==> after == s.(sessionId := Some(created.value), mode := Running))
      && (created.None? ==> after == s)
  {
    if created.Some? {
      ReduceAllPair(s, SetSessionId(Some(created.value)), SetMode(Running));
    }
  }

  /** After a successful run with a non-empty id the team page streams
      exactly that session. */
  lemma RunStreams(s: TeamState, keys: map<Provider, string>, id: string)
    requires s.agents != [] && id != ""
    ensures SessionStream.StreamArgument(ReduceAll(s, HandleRun(s, keys, Some(id)).acts)) == Some(id)
  {
    RunEffect(s, keys, Some(id));
  }

  /** What a press of Stop does: the session it asks to stop, if any, and
      the store actions that follow. */
  datatype StopResult = StopResult(stopped: Option<string>, acts: seq<Action>)

  /** `handleStop`; `ok` is whether the stop call succeeded. Without a
      session id nothing is sent; the mode becomes stopped only after a
      successful call. */
  function HandleStop(s: TeamState, ok: bool): (r: StopResult)
    ensures !Truthy(s.sessionId) ==> r == StopResult(None, [])
    ensures Truthy(s.sessionId) ==> r.stopped == s.sessionId
    ensures r.acts != [] <==> Truthy(s.sessionId) && ok
    ensures r.acts != [] ==> r.acts == [SetMode(Stopped)]
  {
    if !Truthy(s.sessionId) then StopResult(None, [])
    else StopResult(s.sessionId, if ok then [SetMode(Stopped)] else [])
  }

  /** A successful stop leaves the store stopped and otherwise as it was,
      and the page stops streaming. */
  lemma StopEffect(s: TeamState, ok: bool)
    requires Truthy(s.sessionId) && ok
    ensures ReduceAll(s, HandleStop(s, ok).acts) == s.(mode := Stopped)
    ensures SessionStream.StreamArgument(ReduceAll(s, HandleStop(s, ok).acts)).None?
  {
    ReduceAllOne(s, SetMode(Stopped));
  }
}
