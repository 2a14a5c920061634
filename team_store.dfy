/** The team store: one aggregate of everything the client shows (mode,
    roster, chat, tasks, per-agent status, session id, team name and the raw
    diagram elements), changed only by the pure, total transition function
    `Reduce` over twelve kinds of action. What the UI sees is the fold of that
    function over the actions dispatched so far. */
module TeamStore {
  import opened JsRuntime
  import opened Types
  import SceneParser

  datatype TeamState = TeamState(
    mode: TeamMode,
    agents: seq<Agent>,
    messages: seq<Message>,
    tasks: seq<Task>,
    agentStates: map<string, AgentState>,
    sessionId: Option<string>,
    teamName: string,
    excalidrawElements: seq<SceneParser.Element>)

  datatype Action =
    | SetMode(mode: TeamMode)
    | SetAgents(agents: seq<Agent>)
    | UpdateAgent(agent: Agent)
    | AddMessage(message: Message)
    | SetMessages(messages: seq<Message>)
    | UpdateTask(task: Task)
    | SetTasks(tasks: seq<Task>)
    | SetAgentState(state: AgentState)
    | SetSessionId(sessionId: Option<string>)
    | SetTeamName(name: string)
    | SetExcalidrawElements(elements: seq<SceneParser.Element>)
    | Reset

  const InitialState: TeamState :=
    TeamState(Design, [], [], [], map[], None, "Untitled Team", [])

  /** The fields of the aggregate, to say which one an action writes. */
  datatype Field = ModeField | AgentsField | MessagesField | TasksField
                 | AgentStatesField | SessionIdField | TeamNameField | ElementsField

  /** The one field each action other than `Reset` writes. */
  function FieldOf(a: Action): Field
    requires !a.Reset?
  {
    match a
    case SetMode(_) => ModeField
    case SetAgents(_) => AgentsField
    case UpdateAgent(_) => AgentsField
    case AddMessage(_) => MessagesField
    case SetMessages(_) => MessagesField
    case UpdateTask(_) => TasksField
    case SetTasks(_) => TasksField
    case SetAgentState(_) => AgentStatesField
    case SetSessionId(_) => SessionIdField
    case SetTeamName(_) => TeamNameField
    case SetExcalidrawElements(_) => ElementsField
  }

  /** `t` equals `s` in every field except possibly `f`. */
  predicate SameExcept(s: TeamState, t: TeamState, f: Field) {
    && (f != ModeField ==> t.mode == s.mode)
    && (f != AgentsField ==> t.agents == s.agents)
    && (f != MessagesField ==> t.messages == s.messages)
    && (f != TasksField ==> t.tasks == s.tasks)
    && (f != AgentStatesField ==> t.agentStates == s.agentStates)
    && (f != SessionIdField ==> t.sessionId == s.sessionId)
    && (f != TeamNameField ==> t.teamName == s.teamName)
    && (f != ElementsField ==> t.excalidrawElements == s.excalidrawElements)
  }

  /** Insert-or-replace by id: an unseen id is appended at the end; a seen id
      replaces the first element carrying it, leaving every other position
      as it was. */
  function Upsert<T>(xs: seq<T>, x: T, key: T -> string): (r: seq<T>)
    ensures IndexOfId(xs, key(x), key) == -1 ==> r == xs + [x]
    ensures IndexOfId(xs, key(x), key) >= 0 ==>
      && |r| == |xs|
      && r[IndexOfId(xs, key(x), key)] == x
      && forall j :: 0 <= j < |xs| && j != IndexOfId(xs, key(x), key) ==> r[j] == xs[j]
  {
    var i := IndexOfId(xs, key(x), key);
    if i == -1 then xs + [x] else xs[i := x]
  }

  /** `teamReducer`. */
  function Reduce(s: TeamState, a: Action): (r: TeamState)
    ensures a.Reset? ==> r == InitialState
    ensures !a.Reset? ==> SameExcept(s, r, FieldOf(a))
    ensures a.SetMode? ==> r.mode == a.mode
    ensures a.SetAgents? ==> r.agents == a.agents
    ensures a.SetMessages? ==> r.messages == a.messages
    ensures a.SetTasks? ==> r.tasks == a.tasks
    ensures a.SetSessionId? ==> r.sessionId == a.sessionId
    ensures a.SetTeamName? ==> r.teamName == a.name
    ensures a.SetExcalidrawElements? ==> r.excalidrawElements == a.elements
    ensures a.AddMessage? ==> r.messages == s.messages + [a.message]
    ensures a.UpdateTask? ==> r.tasks == Upsert(s.tasks, a.task, TaskId)
    ensures a.UpdateAgent? ==> r.agents == Upsert(s.agents, a.agent, AgentId)
    ensures a.SetAgentState? ==>
      && a.state.agentName in r.agentStates
      && r.agentStates[a.state.agentName] == a.state
      && r.agentStates.Keys == s.agentStates.Keys + {a.state.agentName}
      && forall n :: n in s.agentStates && n != a.state.agentName ==> r.agentStates[n] == s.agentStates[n]
  {
    match a
    case SetMode(m) => s.(mode := m)
    case SetAgents(ags) => s.(agents := ags)
    case UpdateAgent(ag) => s.(agents := Upsert(s.agents, ag, AgentId))
    case AddMessage(m) => s.(messages := s.messages + [m])
    case SetMessages(ms) => s.(messages := ms)
    case UpdateTask(t) => s.(tasks := Upsert(s.tasks, t, TaskId))
    case SetTasks(ts) => s.(tasks := ts)
    case SetAgentState(st) => s.(agentStates := s.agentStates[st.agentName := st])
    case SetSessionId(id) => s.(sessionId := id)
    case SetTeamName(n) => s.(teamName := n)
    case SetExcalidrawElements(els) => s.(excalidrawElements := els)
    case Reset => InitialState
  }

  /** Every action in `acts` writes field `f` and nothing else. */
  predicate OnlyWrites(acts: seq<Action>, f: Field) {
    forall i :: 0 <= i < |acts| ==> !acts[i].Reset? && FieldOf(acts[i]) == f
  }

  /** The state after dispatching `acts` in order: a final RESET leaves the
      initial state, and a run of actions that all write one field `f`
      leaves every other field as it was. */
  function ReduceAll(s: TeamState, acts: seq<Action>): (r: TeamState)
    ensures acts != [] && acts[|acts| - 1].Reset? ==> r == InitialState
    ensures forall f: Field :: OnlyWrites(acts, f) ==> SameExcept(s, r, f)
    decreases |acts|
  {
    if acts == [] then s
    else
      var init, last := acts[..|acts| - 1], acts[|acts| - 1];
      var prev := ReduceAll(s, init);
      assert forall f: Field | OnlyWrites(acts, f) :: SameExcept(s, Reduce(prev, last), f) by {
        forall f: Field | OnlyWrites(acts, f) ensures SameExcept(s, Reduce(prev, last), f) {
          assert OnlyWrites(init, f) by {
            forall i | 0 <= i < |init| ensures !init[i].Reset? && FieldOf(init[i]) == f {
              assert init[i] == acts[i];
            }
          }
          assert !last.Reset? && FieldOf(last) == f;
        }
      }
      Reduce(prev, last)
  }

  lemma {:induction false} ReduceAllConcat(s: TeamState, a: seq<Action>, b: seq<Action>)
    ensures ReduceAll(s, a + b) == ReduceAll(ReduceAll(s, a), b)
    decreases |b|
  {
    if b == [] {
      assert a + b == a;
    } else {
      assert (a + b)[..|a + b| - 1] == a + b[..|b| - 1];
      ReduceAllConcat(s, a, b[..|b| - 1]);
    }
  }

  lemma ReduceAllOne(s: TeamState, a: Action)
    ensures ReduceAll(s, [a]) == Reduce(s, a)
  {
    assert [a][..0] == [];
  }

  lemma ReduceAllPair(s: TeamState, a: Action, b: Action)
    ensures ReduceAll(s, [a, b]) == Reduce(Reduce(s, a), b)
  {
    assert [a, b][..1] == [a];
    assert [a][..0] == [];
    assert ReduceAll(s, [a]) == Reduce(ReduceAll(s, []), a);
    assert ReduceAll(s, [a, b]) == Reduce(ReduceAll(s, [a]), b);
  }

  /** Storing elements and then a roster changes those two fields only. */
  lemma ElementsThenAgents(s: TeamState, els: seq<SceneParser.Element>, ags: seq<Agent>)
    ensures ReduceAll(s, [SetExcalidrawElements(els), SetAgents(ags)])
         == s.(excalidrawElements := els, agents := ags)
  {
    ReduceAllPair(s, SetExcalidrawElements(els), SetAgents(ags));
  }

  /** Setting the same mode twice is setting it once. */
  lemma SetModeIdempotent(s: TeamState, m: TeamMode)
    ensures Reduce(Reduce(s, SetMode(m)), SetMode(m)) == Reduce(s, SetMode(m))
    ensures Reduce(s, SetMode(m)).mode == m
  {
  }

  // ---------------------------------------------------------------------
  // Upsert-by-id: the invariant it keeps and the fold of many.

  /** Upserting keeps the ids of a list distinct. */
  lemma UpsertKeepsKeysDistinct<T>(xs: seq<T>, x: T, key: T -> string)
    requires DistinctKeys(xs, key)
    ensures DistinctKeys(Upsert(xs, x, key), key)
  {
    var r := Upsert(xs, x, key);
    var i := IndexOfId(xs, key(x), key);
    if i >= 0 {
      forall j, k | 0 <= j < k < |r| ensures key(r[j]) != key(r[k]) {
        if j == i {
          assert key(r[k]) == key(xs[k]);
        } else if k == i {
          assert key(r[j]) == key(xs[j]);
        }
      }
    }
  }

  /** The fold of upserts, left to right (`ys` last element last). */
  function UpsertAll<T>(xs: seq<T>, ys: seq<T>, key: T -> string): seq<T>
    decreases |ys|
  {
    if ys == [] then xs else Upsert(UpsertAll(xs, ys[..|ys| - 1], key), ys[|ys| - 1], key)
  }

  /** The ids of `ys` in order of first appearance. */
  function FirstAppearance<T>(ys: seq<T>, key: T -> string): (ids: seq<string>)
    ensures forall i, j :: 0 <= i < j < |ids| ==> ids[i] != ids[j]
    ensures forall id :: id in ids <==> exists y :: y in ys && key(y) == id
    decreases |ys|
  {
    if ys == [] then []
    else
      var init := FirstAppearance(ys[..|ys| - 1], key);
      assert forall y :: y in ys[..|ys| - 1] ==> y in ys;
      assert forall y :: y in ys ==> y in ys[..|ys| - 1] || y == ys[|ys| - 1];
      if key(ys[|ys| - 1]) in init then init else init + [key(ys[|ys| - 1])]
  }

  /** The most recent element of `ys` with this id. */
  function Latest<T>(ys: seq<T>, id: string, key: T -> string): Option<T>
    decreases |ys|
  {
    if ys == [] then None
    else if key(ys[|ys| - 1]) == id then Some(ys[|ys| - 1])
    else Latest(ys[..|ys| - 1], id, key)
  }

  /** Folding upserts over an empty list gives one element per distinct id,
      ordered by first appearance, each the most recent update of its id. */
  lemma {:induction false} UpsertAllFromEmpty<T>(ys: seq<T>, key: T -> string)
    ensures |UpsertAll([], ys, key)| == |FirstAppearance(ys, key)|
    ensures forall i :: 0 <= i < |UpsertAll([], ys, key)| ==>
      && key(UpsertAll([], ys, key)[i]) == FirstAppearance(ys, key)[i]
      && Latest(ys, FirstAppearance(ys, key)[i], key) == Some(UpsertAll([], ys, key)[i])
    decreases |ys|
  {
    if ys != [] {
      var init, x := ys[..|ys| - 1], ys[|ys| - 1];
      UpsertAllFromEmpty(init, key);
      var r0, d0 := UpsertAll([], init, key), FirstAppearance(init, key);
      var r, d := UpsertAll([], ys, key), FirstAppearance(ys, key);
      assert r == Upsert(r0, x, key);
      var i := IndexOfId(r0, key(x), key);
      if key(x) in d0 {
        var i0 :| 0 <= i0 < |d0| && d0[i0] == key(x);
        assert i == i0;
        assert d == d0;
        forall j | 0 <= j < |r| ensures key(r[j]) == d[j] && Latest(ys, d[j], key) == Some(r[j]) {
          if j != i0 {
            assert d0[j] != key(x);
          }
        }
      } else {
        assert i == -1;
        assert d == d0 + [key(x)];
        forall j | 0 <= j < |r| ensures key(r[j]) == d[j] && Latest(ys, d[j], key) == Some(r[j]) {
          if j < |r0| {
            assert d0[j] != key(x);
          }
        }
      }
    }
  }

  // ---------------------------------------------------------------------
  // Folding the reducer.

  /** The tasks carried by a run of `UpdateTask` actions, in order. */
  function TasksIn(acts: seq<Action>): (ts: seq<Task>)
    requires forall k :: 0 <= k < |acts| ==> acts[k].UpdateTask?
    ensures |ts| == |acts|
    decreases |acts|
  {
    if acts == [] then [] else TasksIn(acts[..|acts| - 1]) + [acts[|acts| - 1].task]
  }

  /** A run of task updates upserts each task in turn. */
  lemma {:induction false} TaskUpdatesUpsert(s: TeamState, acts: seq<Action>)
    requires forall k :: 0 <= k < |acts| ==> acts[k].UpdateTask?
    ensures ReduceAll(s, acts).tasks == UpsertAll(s.tasks, TasksIn(acts), TaskId)
    decreases |acts|
  {
    if acts != [] {
      TaskUpdatesUpsert(s, acts[..|acts| - 1]);
      assert TasksIn(acts)[..|acts| - 1] == TasksIn(acts[..|acts| - 1]);
    }
  }

  /** Starting from an empty task list, a run of task updates leaves one task
      per distinct id, in order of first appearance, each as last updated. */
  lemma TaskUpdatesFromEmpty(s: TeamState, acts: seq<Action>)
    requires s.tasks == []
    requires forall k :: 0 <= k < |acts| ==> acts[k].UpdateTask?
    ensures var r := ReduceAll(s, acts).tasks; var ids := FirstAppearance(TasksIn(acts), TaskId);
      && |r| == |ids|
      && forall i :: 0 <= i < |r| ==> r[i].id == ids[i] && Latest(TasksIn(acts), ids[i], TaskId) == Some(r[i])
  {
    TaskUpdatesUpsert(s, acts);
    UpsertAllFromEmpty(TasksIn(acts), TaskId);
  }

  /** The messages appended by `acts`, in order. */
  function MessagesAdded(acts: seq<Action>): seq<Message>
    decreases |acts|
  {
    if acts == [] then []
    else MessagesAdded(acts[..|acts| - 1])
         + (if acts[|acts| - 1].AddMessage? then [acts[|acts| - 1].message] else [])
  }

  /** Only `SET_MESSAGES` and `RESET` can remove or alter what is already in
      the chat. */
  predicate KeepsMessages(a: Action) {
    !a.SetMessages? && !a.Reset?
  }

  /** Without those two, the chat only grows: the old messages stay as a
      prefix and the new ones follow in dispatch order. */
  lemma {:induction false} MessagesAppendOnly(s: TeamState, acts: seq<Action>)
    requires forall k :: 0 <= k < |acts| ==> KeepsMessages(acts[k])
    ensures ReduceAll(s, acts).messages == s.messages + MessagesAdded(acts)
    decreases |acts|
  {
    if acts != [] {
      MessagesAppendOnly(s, acts[..|acts| - 1]);
    }
  }

  /** The most recent status dispatched for a name, if any. */
  function LatestState(acts: seq<Action>, name: string): Option<AgentState>
    decreases |acts|
  {
    if acts == [] then None
    else
      var a := acts[|acts| - 1];
      if a.SetAgentState? && a.state.agentName == name then Some(a.state)
      else LatestState(acts[..|acts| - 1], name)
  }

  /** Agent status is last-write-wins per name: after any run of actions
      without `RESET`, a name's entry is the last status dispatched for it,
      or what it was before when none was. */
  lemma {:induction false} AgentStateLastWriteWins(s: TeamState, acts: seq<Action>, name: string)
    requires forall k :: 0 <= k < |acts| ==> !acts[k].Reset?
    ensures var r := ReduceAll(s, acts).agentStates;
      match LatestState(acts, name)
      case Some(st) => name in r && r[name] == st
      case None => (name in r <==> name in s.agentStates) && (name in r ==> r[name] == s.agentStates[name])
    decreases |acts|
  {
    if acts != [] {
      AgentStateLastWriteWins(s, acts[..|acts| - 1], name);
    }
  }
}
