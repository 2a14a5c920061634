# Agent team playground client: a verified model of its state layer

This project models the client-side state layer of a browser front end that
designs a team of AI agents on a diagram canvas, starts a session on a
server, and follows the session's event stream. It covers:

- **The team store** (`TeamStore`): one aggregate holding the mode, the roster,
  the chat, the tasks, the per-agent status, the session id, the team name and
  the raw diagram elements. It changes only through a pure transition function
  over twelve actions. Everything the UI shows is the fold of that function
  over the actions dispatched so far.
- **The stream** (`SessionStream`): each frame of the server's event stream
  becomes store actions now, plus at most one deferred idle status. A
  connection holder keeps at most one source open, carries the module-wide
  message counter (a new mount continues from the count it is given), and
  queues the deferred actions.
- **The named-event decoder** (`Protocol`) and its five type guards.
- **The scene parser** (`SceneParser`): diagram elements become agents and
  connections. It also answers the undirected neighbour query.
- **The roster merge** (`Roster`): each new parse is joined with the previous
  roster by id. This module also covers the selected-agent lookup and the
  per-agent configuration update.
- **The history dialog** (`History`): rebuilding a roster and a transcript
  from stored sessions, reconnecting to a live session, and deleting one.
- **The toolbar** (`Toolbar`): the session-creation request and the run and
  stop buttons.
- **The key store** (`ApiKeys`) and **the key test button** (`KeyInput`).

`JsRuntime` spells out the JavaScript semantics the code relies on:

- `x || d` on optional strings: an absent or empty value falls back to the
  default.
- `${undefined}` renders as "undefined".
- Decimal rendering of counters.
- `trim` over the ECMAScript white-space set.
- `startsWith`, `slice`, `filter`, `find`, `findIndex` and `map`.

`Types` holds the entities and the find-by-id lookup.

Server calls, clocks and timers are inputs:

- A server call's outcome is a parameter: an `Option` id, or a `bool`
  success flag.
- The clock is a `Clock(millis, iso)` given with each frame.
- A timer firing is an explicit method call.

Where the code and the system's written description disagree, the model
follows the code:

- The description asks for a staleness guard on the delayed idle status:
  a "working" status that arrives after a turn ends must not be overwritten
  by that turn's idle timer. The code has no guard. `NoStalenessGuard`
  proves that turn_start, turn_end, turn_start and then the timer leaves
  the agent idle.
- The description says agent names have line breaks and repeated
  white space collapsed. The code only trims.
- The description says the leader role is inferred from a fill colour. The
  code infers no role: merged agents carry none, and only the history
  rebuild sets one, from the stored role string.
- `lib/protocol.ts` is not used by the stream hook, which decodes its own
  envelope. The two are modelled separately.

## Model

| member | source | states |
|---|---|---|
| TeamStore.Reduce | contexts/TeamContext.tsx:49-91 | RESET gives the initial state. Every other action changes only its own field. SET_MODE, SET_AGENTS, SET_MESSAGES, SET_TASKS, SET_SESSION_ID, SET_TEAM_NAME and SET_EXCALIDRAW_ELEMENTS store the value they carry. ADD_MESSAGE appends. UPDATE_TASK and UPDATE_AGENT upsert by id. SET_AGENT_STATE sets exactly that name's entry, adds no other key and leaves all other names as they were |
| TeamStore.Upsert | contexts/TeamContext.tsx:66-72 | An unseen id is appended at the end. A seen id replaces the first element with that id, and length and all other positions are unchanged |
| TeamStore.SetModeIdempotent | contexts/TeamContext.tsx:51-52 | Applying SET_MODE m twice equals applying it once, and the mode is m |
| TeamStore.UpsertKeepsKeysDistinct | contexts/TeamContext.tsx:55-72 | Upserting into a list with distinct ids keeps the ids distinct |
| TeamStore.FirstAppearance | contexts/TeamContext.tsx:66-72 | The ids in order of first appearance have no duplicates, and an id is among them exactly when some element carries it |
| TeamStore.UpsertAllFromEmpty | contexts/TeamContext.tsx:66-72 | Folding upserts over an empty list gives one element per distinct id, ordered by first appearance. Each is the latest update of its id |
| TeamStore.TaskUpdatesUpsert | contexts/TeamContext.tsx:66-72 | A run of UPDATE_TASK actions leaves the task list equal to the fold of upserts of their tasks |
| TeamStore.TaskUpdatesFromEmpty | contexts/TeamContext.tsx:66-72 | From an empty task list, a run of task updates leaves as many tasks as distinct ids, in first-appearance order, each as last updated |
| TeamStore.MessagesAppendOnly | contexts/TeamContext.tsx:62-65 | With no SET_MESSAGES or RESET, the old chat stays as a prefix and the added messages follow in dispatch order |
| TeamStore.AgentStateLastWriteWins | contexts/TeamContext.tsx:75-79 | With no RESET, a name's status is the last one dispatched for it, or its old entry (or its absence) when none was |
| TeamStore.ReduceAll | contexts/TeamContext.tsx:49-91 | A final RESET leaves the initial state. A run of actions that all write one field leaves every other field as it was |
| TeamStore.ReduceAllConcat | contexts/TeamContext.tsx:49-91 | Dispatching a then b equals dispatching b on the state after a |
| TeamStore.ElementsThenAgents | contexts/TeamContext.tsx:53-54 | Storing elements and then a roster changes exactly those two fields |
| SessionStream.MessageIdInjective | hooks/useSessionStream.ts:18 | The id `msg-<millis>-<counter>` determines both numbers, so messages made with different counters have different ids |
| SessionStream.MakeMessage | hooks/useSessionStream.ts:10-25 | The message has the clock-and-counter id, the source's session id, the clock's timestamp, and the given role, content and agent name |
| SessionStream.OnProtocol | hooks/useSessionStream.ts:153-200 | The protocol cases dispatch only stream actions, at most one message, made with the incremented counter |
| SessionStream.OnEnvelope | hooks/useSessionStream.ts:44-205 | The same for every event type. At most one action is deferred, and it is an idle status |
| SessionStream.Translate | hooks/useSessionStream.ts:44-209 | An unparseable frame does nothing. Otherwise the same guarantees as OnEnvelope hold |
| SessionStream.StreamChatAppendOnly | hooks/useSessionStream.ts:51-205 | No frame removes or alters chat messages. Each frame adds at most one, and the counter advances by the number added |
| SessionStream.AgentResponseEffect | hooks/useSessionStream.ts:52-61 | agent_response with non-empty content appends one agent message named after the sender and changes nothing else. With empty or absent content it dispatches nothing |
| SessionStream.AgentMessageEffect | hooks/useSessionStream.ts:63-78 | Appends exactly one system line "<agent> → <to>: <summary, else text, else content>" |
| SessionStream.ToolCallEffect | hooks/useSessionStream.ts:80-92 | Appends exactly one system line "<agent> called <tool>" |
| SessionStream.WorkingEffect | hooks/useSessionStream.ts:94-104 | thinking or turn_start with a sender sets exactly that sender to working. Without a sender it dispatches nothing |
| SessionStream.TurnEndDeferred | hooks/useSessionStream.ts:106-117 | turn_end dispatches nothing now. It defers exactly one idle status for the sender, and none without a sender |
| SessionStream.TaskUpdateEffect | hooks/useSessionStream.ts:119-133 | One task upsert. Defaults: id "", description from subject then description then "", status "pending". assignedTo is the owner, and both times are the envelope timestamp or the clock |
| SessionStream.ErrorEffect | hooks/useSessionStream.ts:135-142 | Appends exactly one line "Error: <message or 'Unknown error'>" |
| SessionStream.SessionEndEffect | hooks/useSessionStream.ts:144-151 | Appends the completion line with no agent name, then sets mode stopped. Nothing else changes |
| SessionStream.SessionEndTwice | hooks/useSessionStream.ts:144-151 | A second session_end leaves the mode stopped and adds one more line |
| SessionStream.Sender | hooks/useSessionStream.ts:155 | The sender is data.from, else the envelope agent, else "system". It is never empty |
| SessionStream.IdleNotificationEffect | hooks/useSessionStream.ts:156-166 | Sets the sender idle, then appends "<sender> is now idle" |
| SessionStream.ProtocolNoticeEffect | hooks/useSessionStream.ts:167-198 | Each other listed protocol type appends exactly one system message, made with the next counter, and sets no status. The message carries the envelope's agent (none for a shutdown request) and its type's text template, e.g. "<from> approved shutdown" or "Task #<task_id> assigned to <assigned_to>" |
| SessionStream.PlanApprovalWording | hooks/useSessionStream.ts:192-197 | The line starts "Plan approved" exactly when approve is truthy, and "Plan rejected" exactly when it is not |
| SessionStream.IgnoredFrames | hooks/useSessionStream.ts:202-208 | Unparseable frames, untyped or unhandled event types, and unlisted protocol types dispatch nothing |
| SessionStream.NoStalenessGuard | hooks/useSessionStream.ts:106-117 | After turn_start, turn_end, turn_start the agent shows working. Once the first timer fires it shows idle |
| SessionStream.StreamArgument | app/team/page.tsx:66 | The hook's argument is non-empty exactly when the store is running with a non-empty session id, and it is then that id |
| SessionStream.SessionEndUnsubscribes | app/team/page.tsx:66 | After session_end the page no longer asks for a stream |
| SessionStream.StreamHook.OpenSources | hooks/useSessionStream.ts:31-40 | At most one source is open, and it is the held one |
| SessionStream.StreamHook.constructor | hooks/useSessionStream.ts:8-40 | Mounting connects: with a non-empty argument exactly one source is open, for that session. The message counter continues from the count earlier mounts left |
| SessionStream.StreamHook.Connect | hooks/useSessionStream.ts:31-40 | Without a session id nothing happens. Otherwise the held source is closed before a new one is opened and held, leaving only the new one open |
| SessionStream.StreamHook.Disconnect | hooks/useSessionStream.ts:216-221 | Closes and releases the held source. With none held it changes nothing |
| SessionStream.StreamHook.Render | hooks/useSessionStream.ts:223-226 | An unchanged argument changes nothing. A new argument closes the held source. For a non-empty argument it then opens and holds exactly one new source for it. For an empty one, no source is added and none is held. Store, counter and timer queue are kept |
| SessionStream.StreamHook.Deliver | hooks/useSessionStream.ts:44-50 | A frame on the held source applies its immediate actions to the store, queues its deferred ones and advances the counter. Without a source nothing arrives |
| SessionStream.StreamHook.FireTimers | hooks/useSessionStream.ts:109-114 | The oldest k deferred actions reach the store in order, whether or not a source is open |
| SessionStream.StreamHook.Dispatch | hooks/useSessionStream.ts:28 | A dispatch applies the transition function to the store and changes nothing else in the hook |
| SessionStream.StreamHook.Follow | app/team/page.tsx:66 | The hook's argument becomes the store's running session id. If it did not change, the connection is kept. If it changed, the held source is closed. For a running session a source for it is then opened and is the only one open. Otherwise none is open |
| Protocol.KindOf | lib/protocol.ts:8-21 | A recognised label names the kind whose label it is. For any other label there is no kind |
| Protocol.ParseEvent | lib/protocol.ts:3-25 | An unparsed payload gives no event, and so does an unknown label. Otherwise the event's label is the given one and its data is the payload unchanged |
| Protocol.IsMessage | lib/protocol.ts:27-29 | Accepts exactly the events whose type string is "message" |
| Protocol.IsTaskUpdate | lib/protocol.ts:31-33 | Accepts exactly the events whose type string is "task_update" |
| Protocol.IsAgentState | lib/protocol.ts:35-37 | Accepts exactly the events whose type string is "agent_state" |
| Protocol.IsSessionStatus | lib/protocol.ts:39-41 | Accepts exactly the events whose type string is "session_status" |
| Protocol.IsError | lib/protocol.ts:43-45 | Accepts exactly the events whose type string is "error" |
| Protocol.ExactlyOneGuard | lib/protocol.ts:27-45 | Exactly one of the five guards accepts any event, namely the one matching its label |
| Protocol.LabelRoundTrip | lib/protocol.ts:8-21 | Decoding the label of a kind gives that kind |
| Protocol.DecodedGuard | lib/protocol.ts:8-21 | For a recognised label, the guard of that label accepts the decoded event |
| SceneParser.ConnectionsOf | lib/parseExcalidraw.ts:51-62 | There are at most as many connections as arrows. Every arrow bound at both ends to agent ids gives its start-to-end connection, and every connection comes from such an arrow |
| SceneParser.ConnectionsOfConcat | lib/parseExcalidraw.ts:51-62 | The connections of a concatenation of arrow lists are the two parts' connections in order, so connections follow arrow order |
| SceneParser.ConnectionsOfOne | lib/parseExcalidraw.ts:51-62 | One arrow gives exactly one connection, start to end, when both ends are bound to agent ids, and none otherwise |
| SceneParser.AgentName | lib/parseExcalidraw.ts:34-39 | The trimmed text of the first text element contained in the shape, or the trimmed "Agent " followed by the first four characters of the id when there is no such text or it is empty |
| SceneParser.AgentNameTrimmed | lib/parseExcalidraw.ts:34-39 | A display name has no leading or trailing white space left: trimming it again changes nothing |
| SceneParser.ParseAgents | lib/parseExcalidraw.ts:32-45 | One parsed agent per shape, in order, with the shape's id, name and geometry |
| SceneParser.ParseLive | lib/parseExcalidraw.ts:24-64 | The agents are the shapes, in order, with the same ids, geometry and names. Connections are at most the arrows, and their endpoints are agent ids |
| SceneParser.ParseScene | lib/parseExcalidraw.ts:20-65 | As many agents as live shapes, with their ids. Every connection endpoint is an agent id |
| SceneParser.AgentsAreLiveShapes | lib/parseExcalidraw.ts:21-45 | Every parsed agent comes from a non-deleted shape element |
| SceneParser.DeletedElementIgnored | lib/parseExcalidraw.ts:21 | A soft-deleted element anywhere in the input changes nothing in the parse |
| SceneParser.NeighboursIn | lib/parseExcalidraw.ts:67-71 | At most one neighbour per connection. The far end of every connection that starts or ends at the id is among them |
| SceneParser.Neighbours | lib/parseExcalidraw.ts:67-71 | The same, over a parse's connections |
| SceneParser.NeighboursInConcat | lib/parseExcalidraw.ts:67-71 | The neighbours over a concatenation of connection lists are the two parts' neighbours in order, so duplicates are kept |
| SceneParser.NeighboursInOne | lib/parseExcalidraw.ts:67-71 | A connection from the id gives its end. A connection only to the id gives its start. Any other connection gives nothing |
| SceneParser.NeighbourIffJoined | lib/parseExcalidraw.ts:67-71 | x is a neighbour of a exactly when some connection joins them, in either direction |
| SceneParser.NeighbourSymmetric | lib/parseExcalidraw.ts:67-71 | The neighbour relation is symmetric |
| SceneParser.NeighboursAreAgents | lib/parseExcalidraw.ts:49-71 | A neighbour in a parsed scene is a parsed agent's id |
| Roster.Carried | hooks/useExcalidraw.ts:27-29 | A previous non-empty value is kept. An absent agent or an empty value gives the default |
| Roster.MergeRoster | hooks/useExcalidraw.ts:21-36 | One agent per parsed shape, in order, with its id, name and geometry and no role. Connections are the neighbours. Provider, model and prompt are carried over when non-empty, else "anthropic", "claude-sonnet-4-20250514" and "" |
| Roster.MergeRosterStable | hooks/useExcalidraw.ts:21-36 | Merging the same parse into a merged roster changes nothing |
| Roster.ElementsChanged | hooks/useExcalidraw.ts:14-39 | Two dispatches: the elements first, then the roster |
| Roster.ElementsChangedEffect | hooks/useExcalidraw.ts:15-38 | After a change the store holds the new elements and the merged roster, and nothing else moved |
| Roster.MergedConnectionsClosed | hooks/useExcalidraw.ts:23 | Every connection of a merged agent names an agent of the new roster |
| Roster.SelectedAgent | hooks/useExcalidraw.ts:43-46 | Nothing is returned when nothing is selected or the id is not in the roster. Otherwise the result is the first agent with that id |
| Roster.UpdateAgentConfig | hooks/useExcalidraw.ts:48-55 | An unknown id dispatches nothing. A known id dispatches one UPDATE_AGENT carrying the first such agent overridden by the update (`Roster.Overridden`: every field the update gives replaces the agent's, the rest are kept) |
| Roster.UpdateAgentConfigInPlace | hooks/useExcalidraw.ts:48-55 | An id-preserving update rewrites that agent in place and leaves all else equal |
| History.ConfigToAgents | components/history/HistoryModal.tsx:104-113 | Agent i gets id agent-i. Its role is leader exactly when the stored role is "leader", else teammate. The prompt defaults to "" and connections to [], and there is no geometry |
| History.ConfigAgentIdsDistinct | components/history/HistoryModal.tsx:105-106 | The rebuilt agents have distinct ids |
| History.ReconnectActions | components/history/HistoryModal.tsx:116-120 | Five dispatches, ending with mode running |
| History.ReconnectEffect | components/history/HistoryModal.tsx:116-120 | The store then has the rebuilt roster, the session id, no messages or tasks, and mode running. All else is kept |
| History.ReconnectStreams | components/history/HistoryModal.tsx:116-120 | After reconnecting, the page streams that session |
| History.MarkEnded | components/history/HistoryModal.tsx:95-97 | Only the sessions with that id become "ended". The others and the order stay |
| History.RecordToMessage | components/history/HistoryModal.tsx:134-141 | "user" gives the user role with no agent name; others give the agent role under that name. Content and timestamp default to "", and the session id to the requested one |
| History.Transcript | components/history/HistoryModal.tsx:132-142 | One message per record, in order |
| History.RemoveSession | components/history/HistoryModal.tsx:155 | Exactly the sessions with another id remain |
| History.RemoveSessionConcat | components/history/HistoryModal.tsx:155 | Removal distributes over concatenation, so the kept sessions keep their order |
| History.RemoveAbsentSession | components/history/HistoryModal.tsx:155 | Removing an id no session has leaves the list unchanged |
| History.RemoveSessionIdempotent | components/history/HistoryModal.tsx:155 | Removing twice equals removing once |
| History.HistoryPanel.constructor | components/history/HistoryModal.tsx:50-54 | The dialog starts on the list view with no sessions, no messages and no delete in progress |
| History.HistoryPanel.Open | components/history/HistoryModal.tsx:56-73 | Shows the list. A successful load replaces it |
| History.HistoryPanel.LoadDetail | components/history/HistoryModal.tsx:126-148 | Shows the detail view with the transcript, or an empty one on failure |
| History.HistoryPanel.SessionClick | components/history/HistoryModal.tsx:75-83 | A running session with a team store asks to reconnect. Any other click opens the transcript |
| History.HistoryPanel.Reconnect | components/history/HistoryModal.tsx:87-124 | With no team store, nothing happens. A dead session is marked ended, its transcript is shown and nothing is dispatched. A live one yields the reconnect dispatches |
| History.HistoryPanel.BeginDelete | components/history/HistoryModal.tsx:150-152 | Ignored while a delete is in progress. Otherwise marks one in progress |
| History.HistoryPanel.FinishDelete | components/history/HistoryModal.tsx:153-161 | On success the session leaves the list and the list view shows. Either way the delete ends |
| Toolbar.ToRequest | components/canvas/CanvasToolbar.tsx:53-60 | Name, provider, model and connections are copied. A missing role becomes "teammate" and an empty prompt becomes the default prompt |
| Toolbar.BuildRequest | components/canvas/CanvasToolbar.tsx:52-63 | One entry per agent, in roster order. Top-level connections are empty and the keys are the current map |
| Toolbar.HandleRun | components/canvas/CanvasToolbar.tsx:48-72 | An empty roster sends nothing. Otherwise the body is sent, and a failed call dispatches nothing |
| Toolbar.RunEffect | components/canvas/CanvasToolbar.tsx:66-71 | Success sets the session id, then mode running, and nothing else. Failure changes nothing |
| Toolbar.RunStreams | components/canvas/CanvasToolbar.tsx:66-68 | After a successful run, the page streams the new session |
| Toolbar.HandleStop | components/canvas/CanvasToolbar.tsx:74-82 | Without a session id nothing is sent. Mode stopped is dispatched only after a successful call |
| Toolbar.StopEffect | components/canvas/CanvasToolbar.tsx:76-78 | A successful stop leaves the store stopped and otherwise unchanged, and ends the stream |
| ApiKeys.EmptyKeysComplete | contexts/ApiKeyContext.tsx:14-19 | The empty map names all four providers, and each has key "" |
| ApiKeys.KeyStore.constructor | contexts/ApiKeyContext.tsx:24 | Starts from the empty map |
| ApiKeys.KeyStore.GetKey | contexts/ApiKeyContext.tsx:30-33 | Returns the stored key, or "" |
| ApiKeys.KeyStore.HasKey | contexts/ApiKeyContext.tsx:35-38 | Holds exactly when the key is non-empty |
| ApiKeys.KeyStore.SetKey | contexts/ApiKeyContext.tsx:26-28 | Only p's entry changes, and reading p afterwards gives k |
| ApiKeys.KeyStore.ClearKeys | contexts/ApiKeyContext.tsx:40-42 | Every key becomes "" and no provider has a key |
| KeyInput.TestKey | components/settings/ApiKeyInput.tsx:28-59 | An empty key is not tested. Anthropic passes exactly with the "sk-ant-" prefix, OpenAI exactly with "sk-", and Kimi always. Ollama passes exactly when reachable. Only a passed format check schedules the return to idle |
| KeyInput.AnthropicKeyPassesOpenAI | components/settings/ApiKeyInput.tsx:34-41 | A key that passes the Anthropic check passes the OpenAI check |
| KeyInput.KeyTester.constructor | components/settings/ApiKeyInput.tsx:26 | The test status starts idle, with no reset timer pending |
| KeyInput.KeyTester.HandleTest | components/settings/ApiKeyInput.tsx:28-59 | The status becomes the test's outcome, and one idle timer is queued exactly when the outcome schedules one |
| KeyInput.KeyTester.FireTimer | components/settings/ApiKeyInput.tsx:58 | A pending timer returns the status to idle |

## Left out

- The HTTP client (`lib/api.ts`), including `checkSession`: each call's outcome is a parameter of the handler that makes it.
- Authentication (`contexts/AuthContext.tsx`, `utils/supabase.ts`, the login page): access tokens only ride along on server calls.
- SessionStream.StreamHook.constructor: the counter is an argument, because the module-wide counter outlives one hook.
- SessionStream.TaskUpdateEffect: the two `new Date().toISOString()` reads for `createdAt` and `updatedAt` are modelled as one per-frame clock reading, so without an envelope timestamp the two times are equal, where the code's two reads may fall on different milliseconds.
- The real event source, `JSON.parse`, `Date.now()`, `toISOString()` and `setTimeout`:
  - A frame is an already-parsed `Option<Envelope>`.
  - The clock is an input per frame.
  - The 2000 ms and 3000 ms delays are explicit timer-firing methods.
  - Automatic reconnection of the browser's event source is not modelled.
- JSON values other than strings:
  - `data.task_id` and `data.assigned_to` may be numbers; they are modelled by their string rendering.
  - `data.approve` is modelled by its truthiness.
  - A non-object truthy `data` yields absent fields, as `{}` does.
  - An `agent` that is JSON `null` would render "null"; it is modelled as absent.
- Strings are sequences of characters, not UTF-16 code units, so `slice(0, 4)` on astral characters differs.
- Geometry: `x`, `y`, `width` and `height` travel together as one opaque value, and are absent on agents that never had a shape.
- `Roster.SelectedAgent`: the `selectedElementId` state and its setter are not modelled; the selected id is a parameter.
- Closing the history dialog after a reconnect, the `loading` and `reconnecting` flags, and the toolbar's file import and export are presentation only.
- `History.HistoryPanel` handlers run to completion, except the delete, which is split in two to show the in-progress guard.
- `KeyInput.KeyTester.HandleTest`: the outer `catch` in the key test is not modelled, because `startsWith` cannot throw. The intermediate "testing" status is overwritten at once, because the Ollama probe's wait is not modelled.
- The reducer's `default` branch is not modelled, because every action of the typed union has its own case.
- Rendering components, form-state code (`AgentProperties.tsx`, `ChatInput.tsx`) and the rest of the team page are not part of this model.
