/** The canvas hook: every change of the diagram stores the raw elements and
    rebuilds the roster from the parse, joined by id with the previous roster
    so that provider, model and system prompt edits survive; plus the lookup
    of the selected agent and the per-agent configuration update. */
module Roster {
  import opened JsRuntime
  import opened Types
  import opened SceneParser
  import opened TeamStore

  const DefaultProvider: string := "anthropic"
  const DefaultModel: string := "claude-sonnet-4-20250514"

  /** `existing?.field || default`. */
  function Carried(existing: Option<Agent>, field: Agent -> string, default: string): (r: string)
    ensures existing.Some? && field(existing.value) != "" ==> r == field(existing.value)
    ensures (existing.None? || field(existing.value) == "") ==> r == default
  {
    Or(if existing.Some? then Some(field(existing.value)) else None, default)
  }

  function ProviderOf(a: Agent): string { a.provider }
  function ModelOf(a: Agent): string { a.model }
  function SystemPromptOf(a: Agent): string { a.systemPrompt }

  /** The roster entry for one parsed shape. It carries no role. */
  function MergeOne(pa: ParsedAgent, parsed: ParsedTeam, existing: seq<Agent>): Agent {
    var prev := FindById(existing, pa.id, AgentId);
    Agent(pa.id, pa.name, None,
          Carried(prev, ProviderOf, DefaultProvider),
          Carried(prev, ModelOf, DefaultModel),
          Carried(prev, SystemPromptOf, ""),
          Neighbours(parsed, pa.id),
          Some(pa.geometry))
  }

  function MergeAll(pas: seq<ParsedAgent>, parsed: ParsedTeam, existing: seq<Agent>): (r: seq<Agent>)
    ensures |r| == |pas|
    ensures forall i :: 0 <= i < |pas| ==> r[i] == MergeOne(pas[i], parsed, existing)
  {
    if pas == [] then [] else [MergeOne(pas[0], parsed, existing)] + MergeAll(pas[1..], parsed, existing)
  }

  /** The merge in `handleElementsChange`: one agent per parsed shape, in
      order, with its id, name and geometry; provider, model and prompt
      carried over from the previous agent with that id when non-empty,
      otherwise the defaults; connections from the undirected neighbour
      query. Agents whose shape is gone are dropped. */
  function MergeRoster(parsed: ParsedTeam, existing: seq<Agent>): (r: seq<Agent>)
    ensures |r| == |parsed.agents|
    ensures forall i :: 0 <= i < |r| ==>
      var pa, prev := parsed.agents[i], FindById(existing, parsed.agents[i].id, AgentId);
      && r[i].id == pa.id && r[i].name == pa.name && r[i].geometry == Some(pa.geometry)
      && r[i].role.None?
      && r[i].connections == Neighbours(parsed, pa.id)
      && (prev.Some? && prev.value.provider != "" ==> r[i].provider == prev.value.provider)
      && (prev.Some? && prev.value.model != "" ==> r[i].model == prev.value.model)
      && (prev.Some? && prev.value.systemPrompt != "" ==> r[i].systemPrompt == prev.value.systemPrompt)
      && (prev.None? || prev.value.provider == "" ==> r[i].provider == DefaultProvider)
      && (prev.None? || prev.value.model == "" ==> r[i].model == DefaultModel)
      && (prev.None? || prev.value.systemPrompt == "" ==> r[i].systemPrompt == "")
  {
    MergeAll(parsed.agents, parsed, existing)
  }

  /** Re-merging the same parse changes nothing: the carried fields are
      non-empty or already the defaults. */
  lemma MergeRosterStable(parsed: ParsedTeam, existing: seq<Agent>)
    ensures MergeRoster(parsed, MergeRoster(parsed, existing)) == MergeRoster(parsed, existing)
  {
    var once := MergeRoster(parsed, existing);
    var twice := MergeRoster(parsed, once);
    forall i | 0 <= i < |once| ensures twice[i] == once[i] {
      var id := parsed.agents[i].id;
      var j := IndexOfId(once, id, AgentId);
      assert once[i].id == id;
      assert 0 <= j <= i;
      // Agents sharing an id were built from the same lookup in `existing`.
      assert parsed.agents[j].id == id;
      assert once[j] == MergeOne(parsed.agents[j], parsed, existing);
    }
  }

  /** The dispatches of `handleElementsChange`: the raw elements first, then
      the merged roster built against the roster at the time of the change. */
  function ElementsChanged(elements: seq<Element>, s: TeamState): (acts: seq<Action>)
    ensures |acts| == 2 && acts[0].SetExcalidrawElements? && acts[1].SetAgents?
  {
    [SetExcalidrawElements(elements), SetAgents(MergeRoster(ParseScene(elements), s.agents))]
  }

  /** After a change the store holds the new elements and the merged roster,
      and nothing else moved. */
  lemma ElementsChangedEffect(elements: seq<Element>, s: TeamState)
    ensures ReduceAll(s, ElementsChanged(elements, s))
         == s.(excalidrawElements := elements, agents := MergeRoster(ParseScene(elements), s.agents))
  {
    ElementsThenAgents(s, elements, MergeRoster(ParseScene(elements), s.agents));
  }

  /** Every connection of every rebuilt agent names an agent of the new
      roster, provided the parse's connections join parsed agents (which
      `ParseScene` guarantees). */
  lemma MergedConnectionsClosed(p: ParsedTeam, existing: seq<Agent>, i: nat, x: string)
    requires forall c :: c in p.connections ==> c.fromId in AgentIds(p) && c.toId in AgentIds(p)
    requires i < |MergeRoster(p, existing)|
    requires x in MergeRoster(p, existing)[i].connections
    ensures exists j :: 0 <= j < |MergeRoster(p, existing)| && MergeRoster(p, existing)[j].id == x
  {
    var r := MergeRoster(p, existing);
    NeighbourIffJoined(p.connections, p.agents[i].id, x);
    assert x in AgentIds(p);
    var pa :| pa in p.agents && pa.id == x;
    var j :| 0 <= j < |p.agents| && p.agents[j] == pa;
    assert r[j].id == x;
  }

  /** `getSelectedAgent`: nothing when no element is selected, otherwise the
      first agent with the selected id, if any. */
  function SelectedAgent(selected: Option<string>, agents: seq<Agent>): (r: Option<Agent>)
    ensures !Truthy(selected) ==> r.None?
    ensures Truthy(selected) ==>
      (r.None? <==> forall j :: 0 <= j < |agents| ==> agents[j].id != selected.value)
    ensures r.Some? ==> r.value in agents && r.value.id == selected.value
    ensures r.Some? ==> r.value == agents[IndexOfId(agents, selected.value, AgentId)]
  {
    if !Truthy(selected) then None
    else
      var found := FindById(agents, selected.value, AgentId);
      if found.Some? then assert found.value == agents[IndexOfId(agents, selected.value, AgentId)]; found
      else found
  }

  /** A `Partial<Agent>`: the fields an update overrides. */
  datatype AgentUpdate = AgentUpdate(
    id: Option<string>,
    name: Option<string>,
    role: Option<AgentRole>,
    provider: Option<string>,
    model: Option<string>,
    systemPrompt: Option<string>,
    connections: Option<seq<string>>,
    geometry: Option<Geometry>)

  /** `{ ...agent, ...updates }`. */
  function Overridden(a: Agent, u: AgentUpdate): Agent
  {
    Agent(if u.id.Some? then u.id.value else a.id,
          if u.name.Some? then u.name.value else a.name,
          if u.role.Some? then u.role else a.role,
          if u.provider.Some? then u.provider.value else a.provider,
          if u.model.Some? then u.model.value else a.model,
          if u.systemPrompt.Some? then u.systemPrompt.value else a.systemPrompt,
          if u.connections.Some? then u.connections.value else a.connections,
          if u.geometry.Some? then u.geometry else a.geometry)
  }

  /** `updateAgentConfig`: nothing for an unknown id, otherwise one
      `UPDATE_AGENT` with the old agent overridden by the update. */
  function UpdateAgentConfig(agents: seq<Agent>, id: string, u: AgentUpdate): (acts: seq<Action>)
    ensures (forall j :: 0 <= j < |agents| ==> agents[j].id != id) <==> acts == []
    ensures acts != [] ==>
      acts == [UpdateAgent(Overridden(agents[IndexOfId(agents, id, AgentId)], u))]
  {
    match FindById(agents, id, AgentId)
    case None => []
    case Some(a) => [UpdateAgent(Overridden(a, u))]
  }

  /** An update that keeps the id rewrites that agent in place and leaves
      every other agent, and every other part of the store, as it was. */
  lemma UpdateAgentConfigInPlace(s: TeamState, id: string, u: AgentUpdate)
    requires exists j :: 0 <= j < |s.agents| && s.agents[j].id == id
    requires u.id.None?
    ensures var i := IndexOfId(s.agents, id, AgentId);
      var r := ReduceAll(s, UpdateAgentConfig(s.agents, id, u));
      && r == s.(agents := s.agents[i := Overridden(s.agents[i], u)])
  {
    var acts := UpdateAgentConfig(s.agents, id, u);
    assert acts[..0] == [];
  }
}
