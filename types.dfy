/** The client's entities: agents, chat messages, tasks, per-agent status,
    the team's mode and the model providers; and the find-by-id lookup that
    every store operation on agents and tasks is built on. */
module Types {
  import opened JsRuntime

  datatype AgentRole = Leader | Teammate

  /** Layout geometry of an agent's shape. It is only ever copied, never
      computed with. */
  datatype Geometry = Geometry(x: real, y: real, width: real, height: real)

  /** `role` is absent on agents built from the canvas, which carry none;
      `provider` is a free string because history records store it as text. */
  datatype Agent = Agent(
    id: string,
    name: string,
    role: Option<AgentRole>,
    provider: string,
    model: string,
    systemPrompt: string,
    connections: seq<string>,
    geometry: Option<Geometry>)

  datatype MessageRole = FromUser | FromAgent | FromSystem

  datatype Message = Message(
    id: string,
    sessionId: string,
    role: MessageRole,
    agentName: Option<string>,
    content: string,
    timestamp: string)

  /** `status` is whatever text the server sent, defaulted to "pending". */
  datatype Task = Task(
    id: string,
    sessionId: string,
    description: string,
    status: string,
    assignedTo: Option<string>,
    result: Option<string>,
    createdAt: string,
    updatedAt: string)

  datatype WorkState = Idle | Working | Blocked

  datatype AgentState = AgentState(agentName: string, state: WorkState, currentTask: Option<string>)

  datatype TeamMode = Design | Running | Stopped

  datatype Provider = Anthropic | OpenAI | Kimi | Ollama

  function AgentId(a: Agent): string { a.id }

  function TaskId(t: Task): string { t.id }

  /** `xs.findIndex((x) => x.id === id)`: the first position whose key is
      `id`, or -1 when there is none. */
  function IndexOfId<T>(xs: seq<T>, id: string, key: T -> string): (i: int)
    ensures -1 <= i < |xs|
    ensures i == -1 <==> forall j :: 0 <= j < |xs| ==> key(xs[j]) != id
    ensures i >= 0 ==> key(xs[i]) == id && forall j :: 0 <= j < i ==> key(xs[j]) != id
  {
    FirstIndex(xs, x => key(x) == id)
  }

  /** `xs.find((x) => x.id === id)`. */
  function FindById<T>(xs: seq<T>, id: string, key: T -> string): (r: Option<T>)
    ensures r.None? <==> forall j :: 0 <= j < |xs| ==> key(xs[j]) != id
    ensures r.Some? ==> key(r.value) == id && r.value == xs[IndexOfId(xs, id, key)]
  {
    var i := IndexOfId(xs, id, key);
    if i == -1 then None else Some(xs[i])
  }

  /** No key occurs twice. */
  ghost predicate DistinctKeys<T>(xs: seq<T>, key: T -> string) {
    forall i, j :: 0 <= i < j < |xs| ==> key(xs[i]) != key(xs[j])
  }
}
