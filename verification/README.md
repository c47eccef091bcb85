# A model of xoxo's agents, views, stores and text tools, with proofs

The project states in Dafny what the hardest parts of xoxo do and proves it. One module per
file; `dafny verify dfyconfig.toml` checks everything.

**Agents and their two views.** `AgentRunner` is the runner: it takes commands, asks the
model, calls tools, feeds the results back, writes every step to a parent-linked log and
publishes most of them. Its methods are proved against functions on `RunnerState`, and
`AgentLog`, `Turns`, `ToolOutcomes`, `Snapshots`, `LiveView` and `StreamGrammar` prove what holds of
those functions over all runs, said of what goes in and what comes out.
`CompletionStream` is the provider's stream, `TuiApp` the app that follows the bus or
restores a log. The main result is `LiveView.LiveIsRestoredExactly`. A run is a function of the
commands that arrive and of the replies the provider will give; a turn that needs more
replies waits, so scripts of every length cover every point at which a run can stand
between two replies, and `AgentLog.Kept` covers every single step.

**Trees of agents.** `ContextLifecycle` takes each section of the spawner that holds one lock
as one step, and lets any number of tasks and agents take steps in any order; roots may be
opened or restored at any time. `ContextSafety`, `ContextShutdown` and `ContextOnce` prove
what every interleaving keeps, and exactly where it breaks. `Mailbox` is one agent's mailbox
from spawning or restoring to cleanup.

**Vector stores.** `BruteForceStore`, `HnswStore` and `InstantDistanceStore` are three
implementations of `VectorStore`; `Ranking` and `Cosine` hold the ordering and the geometry.

**Text tools.** `RenameSymbol` with `RenameEffect`, the noise strippers (`Lexing` is the theory they share: a
lexer that masks its input and is stable under its own masking), `ReadFile`, `ShellCommand`
and `WordWrap`.

**Drawing.** `ConversationPane` is the conversation as blocks, its cache and the times at
which the cached copy is as good as a fresh one; `ConversationLines` paints the blocks.

Where a promise turned out to hold only under a condition, the condition is part of an
if-and-only-if, and a lemma gives an input for which it fails (in `Witnesses`,
`ContextWitnesses` and `Mailbox`):

- The live view differs from the restored one when the starting log ends in a tool event (a
  crash in the middle of a tool call leaves such a log) and the first message is a user's:
  restoring takes it for tool results and hides it (history.rs:63-72).
- It also differs when a completion does not stop and yet calls no tool: the runner then logs
  an empty user message that restoring shows (runner.rs:45-59). Both places that assemble
  completions rule that out.
- Strippers copy bytes as characters, so outside ASCII they are idempotent only where the
  bytes lie in comments.
- A cached draw can be stale after a system message, which switches the active chat without
  moving the version on (sync.rs:15 and 38-39), and while a tool call is open and no turn
  runs, because its dot pulses with the clock and the key then leaves the clock out.
- An outcome without a start is not drawn: `has_matching_tool_start` looks the id up among
  the outcomes, where every outcome's own id is (history.rs:162-167 and 229-242).
- Restoring a root while its own final cleanup is under way registers a handle on a context
  that is then shut down and removed (spawner.rs:199-260 and 440-454).
- Restoring a root that is running takes the first agent's handle out of the registry
  (spawner.rs:229): the context is shut down twice, a child being spawned can lose it, and the
  first agent can end because its mailbox closes.
- Dead nodes of the graph store take up places in the search's answer, so it can come out
  short, although hnsw.rs:6-10 says that they never affect correctness.
- For a zero query the graph store and the batch store answer with what they find, and the
  reference store with nothing.

## Model

| member | source | states |
|---|---|---|
| LiveView.LiveIsRestoredExactly | crates/lib/xoxo-tui/src/app/history.rs:42-86 | with replies from the agent, the messages and tool calls an app shows that followed a run live, mixed with any other chats' events, equal those restored from the run's log exactly when every round that went on had called a tool and the first message does not look like tool results |
| LiveView.LiveIsRestored | crates/lib/xoxo-tui/src/app/history.rs:42-86 | whoever the replies are from: unless the first message looks like tool results, the two views are equal exactly when every round that went on had called a tool |
| LiveView.LiveIsRestoredUnderFinishRule | crates/lib/xoxo-tui/src/app/sync.rs:12-79 | with the finish rule kept, the two views are equal exactly when the first user message does not follow a log that ends in a tool event |
| LiveView.FreshChatAgrees | crates/lib/xoxo-core/src/llm/rig_stream.rs:243-247 | for a chat begun from nothing whose completions come off the provider's driver, the two views are always equal |
| LiveView.GrownRestores | crates/lib/xoxo-tui/src/app/history.rs:42-86 | a log that grew restores to what it restored to before, followed by the new entries minus each user message that directly follows a tool entry |
| LiveView.RestoredExactly | crates/lib/xoxo-tui/src/app/history.rs:42-86 | a restored chat shows exactly the log entries that are active, on the active branch, and a tool event, an agent's message, or a user's that does not answer a tool entry, each as what it is and in order |
| LiveView.LoadedShows | crates/lib/xoxo-tui/src/app/sync.rs:101-126 | a loaded chat is shown as stored, with nothing left of what was shown before, of any chat, and under a new version |
| LiveView.ResetShowsNothing | crates/lib/xoxo-tui/src/app/sync.rs:128-144 | a new chat starts from nothing but the model's name |
| LiveView.TellsRun | crates/lib/xoxo-core/src/agents/runner.rs:19-70 | a run's log shows what the run published, in order, and besides only one empty message for each round that went on without calling a tool |
| LiveView.MistakenRun | crates/lib/xoxo-tui/src/app/history.rs:63-72 | when the first message is taken for tool results, restoring loses just that message: the rest is what the run published, in order |
| AgentLog.RunKeeps | crates/lib/xoxo-core/src/agents/runner.rs:19-94 | induction over runs: what every log write, publication, tool call, request and handover keeps holds after every run |
| AgentLog.LogIsChain | crates/lib/xoxo-core/src/agents/runner.rs:308-388 | in every state the log is the starting log plus a chain: each parent is the previous entry, ids never repeat, the active head is the last id, stored snapshots are prefixes of one another |
| AgentLog.ToolsComeInPairs | crates/lib/xoxo-core/src/agents/runner.rs:214-306 | all a run logs keeps each tool start directly followed by its outcome, under ascending ids |
| AgentLog.OneOutcomeEach | crates/lib/xoxo-core/src/agents/runner.rs:214-306 | a start has exactly one outcome, the next entry, with its id and name, and each outcome has its start just before it |
| AgentLog.ContextGrows | crates/lib/xoxo-core/src/agents/runner.rs:34-60 | within a turn the request after the j-th reply is the one before it, then that reply's message, then the rendered results of the calls that reply made, run in the state the turn had then come to |
| AgentLog.ResultsAreLines | crates/lib/xoxo-core/src/agents/runner.rs:268-303 | the results fed back are one line for each call, in order, each beginning with its tool's name and parted by newlines |
| ToolOutcomes.DispatchRecords | crates/lib/xoxo-core/src/agents/runner.rs:214-306 | each call of a dispatch runs its tool on its own arguments, or null, once its start is logged; on success its line is name, colon and value and the log has the preview, on an error both have the same text, an unknown name is such an error; the result is the lines joined by newlines |
| ToolOutcomes.RunRecords | crates/lib/xoxo-core/src/agents/runner.rs:214-306 | so every tool start any run logs is followed by what the tool then answered |
| AgentLog.RequestsAreContexts | crates/lib/xoxo-core/src/agents/runner.rs:170-192 | every request is the system prompt and the user and agent messages of the log at the length it had when asked, in order, and those lengths never decrease |
| AgentLog.StubAnswers | crates/lib/xoxo-core/src/agents/runner.rs:170-212 | without a provider a turn is answered by what the user said last, or ready |
| Snapshots.SnapshotsStored | crates/lib/xoxo-core/src/agents/runner.rs:370-388 | after any run storage holds one snapshot for each length the log came to have and could be saved at, in order, each with just that much of the log; the last used chat is the tree's root once it could be recorded |
| Snapshots.FailuresPublished | crates/lib/xoxo-core/src/agents/runner.rs:370-388 | each failure to save or to record is published with its text, in order, and nothing else is published as an error |
| Snapshots.StoredIsLive | crates/lib/xoxo-tui/src/app/history.rs:42-86 | if a run logged anything and could save at the end, the last snapshot is its final chat, and what restores from it equals the live view exactly under the conditions of LiveIsRestoredExactly |
| AgentLog.HandsOverAtEnd | crates/lib/xoxo-core/src/agents/runner.rs:72-91 | the handoff is sent once, when the run ends and not before, with the final log and the summary; a run ends only by a shutdown or a closed inbox |
| AgentLog.SummaryIsLast | crates/lib/xoxo-core/src/agents/runner.rs:73-83 | the handoff's summary is the content of the last agent message, and missing exactly if there is none |
| AgentRunner.AgentRunner.RunLoop | crates/lib/xoxo-core/src/agents/runner.rs:19-94 | the command loop ends in the state the run specification gives, waiting, awaiting a reply or ended |
| AgentRunner.AgentRunner.TakeTurn | crates/lib/xoxo-core/src/agents/runner.rs:23-61 | one turn: message, completion rounds, tool results fed back, until a completion stops or a reply is awaited |
| Turns.TurnUsesReplies | crates/lib/xoxo-core/src/agents/runner.rs:34-61 | a turn asks for replies one by one until one stops, and is then finished; it waits when they run out |
| Turns.TurnWithoutProvider | crates/lib/xoxo-core/src/agents/runner.rs:96-168 | without a provider a turn is finished after one request |
| Turns.ReplyLogged | crates/lib/xoxo-core/src/agents/runner.rs:36-44 | a reply is logged with what it cost and then published |
| Turns.ReplyPublished | crates/lib/xoxo-core/src/agents/runner.rs:96-168 | errors apart, a reply publishes its fragments and then its message |
| Turns.TurnsOpened | crates/lib/xoxo-core/src/agents/runner.rs:19-33 | every message sent before a shutdown opens one turn, in order; a run that waits for a reply is in the turn of one of them |
| Turns.SubmissionsIgnored | crates/lib/xoxo-core/src/agents/runner.rs:19-33 | commands that only the interface means are passed over |
| AgentRunner.AgentRunner.CompleteOnce | crates/lib/xoxo-core/src/agents/runner.rs:96-168 | the completion loop publishes the fragments before a failure; a failure wins over a final item, a later final item over an earlier one |
| AgentRunner.AgentRunner.DispatchToolCalls | crates/lib/xoxo-core/src/agents/runner.rs:214-306 | the tool loop leaves the state and the rendered result lines of calling each tool in order |
| AgentRunner.AgentRunner.PushMessageEvent | crates/lib/xoxo-core/src/agents/runner.rs:339-368 | logs a message under a fresh id, moves the head and persists |
| AgentRunner.AgentRunner.PushToolCallEvent | crates/lib/xoxo-core/src/agents/runner.rs:308-337 | the same for a tool event |
| AgentRunner.AgentRunner.PersistHistorySnapshot | crates/lib/xoxo-core/src/agents/runner.rs:370-388 | stores the snapshot and the last used id, and publishes an error for each that fails |
| CompletionStream.StreamDriver.Poll | crates/lib/xoxo-core/src/llm/rig_stream.rs:136-183 | each poll hands out the next pending item, passing over silent chunks, and nothing after the closing item |
| CompletionStream.OneClosingItem | crates/lib/xoxo-core/src/llm/rig_stream.rs:133-183 | a driver gives the visible fragments and then exactly one closing item, final or failure |
| CompletionStream.FragmentsAreSaid | crates/lib/xoxo-core/src/llm/rig_stream.rs:185-207 | before anything goes wrong a driver gives one fragment for each chunk that says something, in order: text as text, reasoning as thinking, and nothing else |
| CompletionStream.AssembledIs | crates/lib/xoxo-core/src/llm/rig_stream.rs:209-260 | the closing response has the text parts joined by newlines and the calls with their arguments, each in order |
| CompletionStream.ShownIs | crates/lib/xoxo-core/src/agents/runner.rs:112-150 | what is published of a stream is every fragment before its first failure, in order |
| CompletionStream.AnswerIs | crates/lib/xoxo-core/src/agents/runner.rs:112-168 | the answer to a stream is its first failure's text if it fails, else its last final response, else a complaint that there is none |
| CompletionStream.CompletionOfDriver | crates/lib/xoxo-core/src/llm/rig_stream.rs:209-247 | read off a driver, the response is the assembled one unless the provider broke off; either way it is from the agent and stops exactly if it calls no tool |
| TuiApp.App.HandleBusEvent | crates/lib/xoxo-tui/src/app/sync.rs:12-79 | the app's whole state after a bus event |
| TuiApp.App.SyncChatSummary | crates/lib/xoxo-tui/src/app/sync.rs:81-99 | the app's whole state after a summary sync |
| TuiApp.App.LoadChatSession | crates/lib/xoxo-tui/src/app/sync.rs:101-126 | a stored chat replaces what was shown even if recording it as last used then fails; without storage, on a storage failure or for a missing chat nothing changes |
| TuiApp.App.ResetForNewChat | crates/lib/xoxo-tui/src/app/sync.rs:128-144 | the app's whole state after starting a new chat |
| TuiApp.App.constructor | crates/lib/xoxo-tui/src/app.rs:138-198 | a new app shows the restored chat, nothing in flight and no turn in progress |
| TuiApp.ChatsApart | crates/lib/xoxo-tui/src/app/sync.rs:12-79 | whatever the interleaving, what is shown and buffered for a chat depends on that chat's own events alone |
| TuiApp.TurnIsLastTold | crates/lib/xoxo-tui/src/app/sync.rs:22-37 | whether a turn is in progress, and how the last one ended, is what was last told of turns, by whatever chat |
| TuiApp.ActiveIsLastHeard | crates/lib/xoxo-tui/src/app/sync.rs:12-15 | the active chat is the root of whoever was heard last |
| TuiApp.EventsLeaveAlone | crates/lib/xoxo-tui/src/app/sync.rs:12-79 | bus events leave alone what was typed, summed up or scrolled to |
| TuiApp.SyncShows | crates/lib/xoxo-tui/src/app/sync.rs:81-99 | a sync shows the summary it is given and what follows from it, and changes nothing else |
| StreamGrammar.RunFollowsGrammar | crates/lib/xoxo-core/src/agents/runner.rs:19-70 | errors aside, a run publishes (Message Started (Delta* Message (ToolStarted ToolDone)+)* Delta* Message Finished)* Shutdown?, each ToolDone for its ToolStarted |
| StreamGrammar.BuffersHoldDeltas | crates/lib/xoxo-tui/src/app/sync.rs:22-71 | each in-flight buffer is the deltas since the last agent message or start of a turn |
| StreamGrammar.ThoughtsPrecedeMessage | crates/lib/xoxo-tui/src/app/sync.rs:41-53 | non-empty thinking becomes one entry directly before its agent message, and both buffers are emptied |
| StreamGrammar.NothingInFlightWhenIdle | crates/lib/xoxo-tui/src/app/sync.rs:22-78 | once a run is idle or over, nothing is in flight in an app that followed it |
| ContextSafety.ServedExactly | crates/lib/xoxo-core/src/agents/spawner.rs:106-455 | over every interleaving of lock sections: whatever sections those at work still take, every registered handle is served (its tree has a context, the one its agent holds, not shut down), exactly if nobody about to register, root or child, ever has looked for the context while an agent of that tree is between finding its subtree empty and removing the context, or has found none |
| ContextSafety.BehaviorSound | crates/lib/xoxo-core/src/agents/spawner.rs:106-455 | every lock section by every task and agent keeps the registry, the contexts and everything in flight consistent, up to and at the first such overlap |
| ContextSafety.OverlapBreaks | crates/lib/xoxo-core/src/agents/spawner.rs:199-296 | from any state with such an overlap, finishing what is begun leaves a registered handle without its context |
| ContextSafety.RegisteredIsServed | crates/lib/xoxo-core/src/agents/spawner.rs:106-133 | in every interleaving, while nothing overlaps an ending, a registered handle's tree has a context, the one its agent holds, and it is not shut down |
| ContextSafety.ContextStays | crates/lib/xoxo-core/src/agents/spawner.rs:271-296 | while any handle of a tree stays registered, not only the same one, the tree's context is not replaced |
| ContextShutdown.ShutAsOftenAsEmptied | crates/lib/xoxo-core/src/agents/spawner.rs:440-454 | in every interleaving, overlaps and doubles included, a context is shut down once for each time an agent holding it found its subtree empty, sooner or later |
| ContextOnce.OnceExactly | crates/lib/xoxo-core/src/agents/spawner.rs:106-455 | over every interleaving: whoever of those with a context in hand still registers, and however the agents then leave, no context is shut down twice and none with no agent left is not, exactly if nothing ever overlaps an ending and no chat ever has two agents, at work or about to register |
| ContextOnce.ChildrenFollow | crates/lib/xoxo-core/src/agents/spawner.rs:271-296 | a spawning overlaps an ending, or finds no context, only after a root was opened beside its own agent or in its tree's ending |
| ContextShutdown.ShutExactlyOnce | crates/lib/xoxo-core/src/agents/spawner.rs:440-454 | while nothing overlapped an ending and no chat had two agents at work, a context that was given out and has no agent left was shut down exactly once and is out of the map |
| ContextWitnesses.RestoreRacesCleanup | crates/lib/xoxo-core/src/agents/spawner.rs:199-260 | an interleaving from the empty spawner on: a root restored during its own final cleanup is registered, and then its context is shut down and removed |
| ContextWitnesses.DoubleRestoreShutsTwice | crates/lib/xoxo-core/src/agents/spawner.rs:199-260 | another: a root restored while its agent is at work has its context shut down twice |
| ContextWitnesses.ChildLosesContext | crates/lib/xoxo-core/src/agents/spawner.rs:271-296 | another: after such a restore the first agent's cleanup takes the second's handle with it, and a child the second is spawning is registered with a context that is then shut down and removed |
| ContextLifecycle.AgentSpawner.EnsureRootExecutionContext | crates/lib/xoxo-core/src/agents/spawner.rs:106-133 | undisturbed, a tree gets the context it has, or a new one that is stored |
| ContextLifecycle.AgentSpawner.StoreContext | crates/lib/xoxo-core/src/agents/spawner.rs:128-132 | whoever stores first wins, and every caller gets what is stored |
| ContextLifecycle.AgentSpawner.RegisterHandle | crates/lib/xoxo-core/src/agents/spawner.rs:296 | files the handle in the shared registry, the step the interleavings take as one |
| ContextLifecycle.AgentSpawner.RemoveAndTest | crates/lib/xoxo-core/src/agents/spawner.rs:440-444 | removes the handle and says whether the tree has no handle left, under one lock |
| ContextLifecycle.AgentSpawner.CleanupAfterRunner | crates/lib/xoxo-core/src/agents/spawner.rs:427-455 | undisturbed, the last handle of a tree takes the tree's context with it |
| HandleRegistry.Registry.Insert | crates/lib/xoxo-core/src/agents/handles.rs:36-38 | files the handle under its chat id and returns the one it replaces |
| HandleRegistry.Registry.Remove | crates/lib/xoxo-core/src/agents/handles.rs:44-46 | removes and returns the handle |
| Mailbox.LocalAgentHandle.Send | crates/lib/xoxo-core/src/agents/handles.rs:92-105 | user messages to a subagent are refused; otherwise the command is queued, or the handle is closed |
| Mailbox.LocalAgentHandle.RequestShutdown | crates/lib/xoxo-core/src/agents/handles.rs:107-117 | queues a shutdown, or the handle is closed |
| Mailbox.FirstInFirstOut | crates/lib/xoxo-core/src/agents/handles.rs:92-117 | nothing that got into a mailbox is lost or overtaken |
| Mailbox.SentIsTaken | crates/lib/xoxo-core/src/agents/handles.rs:92-117 | what a client sends while the mailbox is open gets in behind what is there, and is the next thing taken once that was |
| Mailbox.TakenShutdownEnds | crates/lib/xoxo-core/src/agents/runner.rs:19-33 | a runner that takes a shutdown publishes it and ends |
| Mailbox.ClosedRefuses | crates/lib/xoxo-core/src/agents/handles.rs:92-117 | to a closed mailbox nothing is sent, and its sender is told |
| Mailbox.NeverOverfull | crates/lib/xoxo-core/src/agents/spawner.rs:151 | a mailbox takes a command while it holds fewer than 64, and never holds more |
| Mailbox.SubagentTakesOne | crates/lib/xoxo-core/src/agents/spawner.rs:327-336 | a subagent takes up at most one user message in its life, its spawner's, and exactly one once that was delivered and the mailbox is drained |
| Mailbox.HandoffAfterShutdown | crates/lib/xoxo-core/src/agents/spawner.rs:262-269 | a subagent's handoff comes once and only after it took a shutdown, with its final log and last agent message; until it ends its handle stays registered |
| Mailbox.SeesClosedExactly | crates/lib/xoxo-core/src/agents/spawner.rs:227-269 | a runner can find its mailbox closed exactly if it waits with nothing queued or to come and its handle was displaced, by another opening of its root or that one's cleanup |
| Mailbox.NeverSeesClosed | crates/lib/xoxo-core/src/agents/spawner.rs:427-443 | so a subagent's never does: its registered handle keeps a sender until cleanup |
| Mailbox.DisplacedEnds | crates/lib/xoxo-core/src/agents/spawner.rs:199-260 | a restored root whose handle another opening replaces can end without ever taking a shutdown |
| StoreAgreement.PutThrough | crates/agents/agentix/src/indexing/stores/hnsw.rs:74-161 | put through the same upserts and invalidations, failed ones included, all three stores hold the same contents, the ones the operations describe |
| HnswStore.Hnsw.Upsert | crates/agents/agentix/src/indexing/stores/hnsw.rs:75-97 | the store's contents and dimensions as specified; the side tables stay inverse, every point is in the graph, and the graph only grows |
| HnswStore.Hnsw.InvalidateByPath | crates/agents/agentix/src/indexing/stores/hnsw.rs:141-156 | exactly the entries of that path go, in whatever order the map lists them, and the graph is unchanged |
| HnswStore.Hnsw.NearestTo | crates/agents/agentix/src/indexing/stores/hnsw.rs:103-139 | the answer, or the dimension error, for what the graph search returns |
| HnswStore.NearestIsLivePart | crates/agents/agentix/src/indexing/stores/hnsw.rs:117-138 | the answer is ranked and holds exactly the live ones of the points found, one hit fewer for each dead point |
| HnswStore.NearestAtMost | crates/agents/agentix/src/indexing/stores/hnsw.rs:117-138 | whatever the search comes up with, the answer is the best of its live hits, ranked, and no more than asked for |
| HnswStore.ReferencePrefix | crates/agents/agentix/src/indexing/stores/hnsw.rs:103-139 | with an exact search, dead points or not, the scores are the first ones of the reference store's, as many as live points were found |
| HnswStore.SameScoresExactly | crates/agents/agentix/src/indexing/stores/hnsw.rs:103-139 | with an exact search, the scores are the reference store's exactly if no dead point was found or every live one was; so dead nodes do affect answers, against hnsw.rs:6-10 |
| HnswStore.ZeroQueryExactly | crates/agents/agentix/src/indexing/stores/hnsw.rs:103-139 | for a zero query, which the reference store answers with nothing, exactly if every point found was dead |
| HnswStore.SameHitsAbove | crates/agents/agentix/src/indexing/stores/hnsw.rs:120-137 | the hits that score above the last one answered are those of the reference store, records and all |
| InstantDistanceStore.InstantDistance.Rebuild | crates/agents/agentix/src/indexing/stores/instant_distance.rs:72-92 | whatever order the map lists its entries in, the index holds each entry's id and vector once and nothing else |
| InstantDistanceStore.InstantDistance.Upsert | crates/agents/agentix/src/indexing/stores/instant_distance.rs:96-104 | the store's contents and dimensions as specified, and the index agrees with them |
| InstantDistanceStore.InstantDistance.NearestTo | crates/agents/agentix/src/indexing/stores/instant_distance.rs:110-143 | every position the search returns has an entry, so the lookup cannot fail; the first k hits are returned |
| InstantDistanceStore.SameScoresExactly | crates/agents/agentix/src/indexing/stores/instant_distance.rs:124-142 | for a search that answers nearest first and leaves out nothing nearer, the answer is ranked, and its scores are the reference store's exactly if the query is not zero, or nothing is asked for or stored |
| InstantDistanceStore.SameHitsAbove | crates/agents/agentix/src/indexing/stores/instant_distance.rs:124-142 | and the hits that score above the last are those of the reference store, records and all |
| InstantDistanceStore.InstantDistance.InvalidateByPath | crates/agents/agentix/src/indexing/stores/instant_distance.rs:145-161 | exactly the entries of that path go, and the index agrees with the rest |
| BruteForceStore.BruteForce.Upsert | crates/agents/agentix/src/indexing/stores/brute_force.rs:52-61 | replaces the entry with that id in place or appends; ids stay distinct and the contents are as specified |
| BruteForceStore.BruteForce.InvalidateByPath | crates/agents/agentix/src/indexing/stores/brute_force.rs:105-108 | exactly the entries of that path go |
| BruteForceStore.BruteForce.LookupById | crates/agents/agentix/src/indexing/stores/brute_force.rs:63-67 | the record stored under that id |
| BruteForceStore.BruteForce.NearestTo | crates/agents/agentix/src/indexing/stores/brute_force.rs:69-103 | the answer, or the dimension error; nothing for a zero query or k of zero |
| BruteForceStore.NearestIsStableTop | crates/agents/agentix/src/indexing/stores/brute_force.rs:84-102 | the answer has as many hits as asked for or there are, best first, nothing left out scores higher, and equal scores keep their order |
| Ranking.RankIsStableSort | crates/agents/agentix/src/indexing/stores/brute_force.rs:96-100 | any ranked sequence that keeps the hits of each score in order is the one the stores compute |
| VectorStore.AfterSound | crates/agents/agentix/src/indexing/stores/brute_force.rs:33-44 | after any operations, entries are filed under their ids and share the dimensions fixed by the first upsert |
| VectorStore.UpsertFinds | crates/agents/agentix/src/indexing/stores/brute_force.rs:33-61 | a vector that fits, or the first, can be put in and its record is then found; any other is refused with both lengths and changes nothing; other ids are as before |
| VectorStore.InvalidateLoses | crates/agents/agentix/src/indexing/stores/brute_force.rs:105-108 | invalidating a path loses just what was filed for it |
| Cosine.CauchySchwarz | crates/agents/agentix/src/indexing/stores/brute_force.rs:119-129 | the square of the dot product is at most the product of the squared norms, for vectors of any lengths |
| Cosine.DotGrows | crates/agents/agentix/src/indexing/stores/brute_force.rs:119-129 | one more component adds one more product |
| Cosine.ScoreIs | crates/agents/agentix/src/indexing/stores/instant_distance.rs:23-37 | score times both norms is the dot product, with a zero where lengths differ or a norm is missing; the distance is what is missing to 1 |
| Cosine.ScoreBounds | crates/agents/agentix/src/indexing/stores/instant_distance.rs:23-33 | scores lie in [-1, 1], distances in [0, 2], and for vectors of one length the score is 1 minus the distance |
| Cosine.MultipleScoresOne | crates/agents/agentix/src/indexing/stores/brute_force.rs:115-129 | a query that is a positive multiple of a stored vector scores 1 |
| RenameSymbol.RoundTripExactly | crates/agents/nerd-ast/src/tools/rename_symbol.rs:81-137 | renaming there and back over the same tree with its positions moved restores the text exactly when no identifier leaf was already spelled like the new name, or the names are the same |
| RenameSymbol.CollectIdentifierRanges | crates/agents/nerd-ast/src/tools/rename_symbol.rs:139-156 | the walk appends the ranges of all identifier-like leaves that spell the symbol, in document order |
| RenameSymbol.SortRangesSorts | crates/agents/nerd-ast/src/tools/rename_symbol.rs:121 | the sorted ranges are in order and the same ranges as often |
| RenameSymbol.OccurrencesSpread | crates/agents/nerd-ast/src/tools/rename_symbol.rs:113-122 | from any well-formed tree, the ranges after sort and dedup are strictly ordered, disjoint, inside the text and as long as the symbol |
| RenameSymbol.Splice | crates/agents/nerd-ast/src/tools/rename_symbol.rs:124-127 | splicing from the last range to the first in place is the one-pass rewrite from left to right |
| RenameSymbol.BytesOutsideKept | crates/agents/nerd-ast/src/tools/rename_symbol.rs:124-127 | bytes no range touches are found unchanged at their new place |
| RenameSymbol.RangeReplaced | crates/agents/nerd-ast/src/tools/rename_symbol.rs:124-127 | each range holds the replacement at its new place |
| RenameSymbol.RenameSymbolInContent | crates/agents/nerd-ast/src/tools/rename_symbol.rs:81-137 | the whole operation, with its refusals in the source's order |
| RenameEffect.RenamedRenames | crates/agents/nerd-ast/src/tools/rename_symbol.rs:81-137 | when it succeeds: the occurrences are the places of the leaves of identifier kinds that spell the symbol, each once; the k-th holds the replacement, and each byte between two stands, k times the difference in length further on; the length, the number of occurrences and the number of definitions are as counted |
| RenameEffect.RefusedExactly | crates/agents/nerd-ast/src/tools/rename_symbol.rs:88-108 | when it succeeds, and each refusal exactly when it is the first that applies |
| RenameEffect.RenamedBack | crates/agents/nerd-ast/src/tools/rename_symbol.rs:81-137 | two applications, there and back over the moved tree, restore the text exactly when no leaf was spelled like the new name already, or the names are the same |
| RenameEffect.IdentifierKinds | crates/agents/nerd-ast/src/tools/rename_symbol.rs:158-164 | the identifier kinds are the three named ones and those that end in _identifier or _name |
| RenameSymbol.MovedTreeFits | crates/agents/nerd-ast/src/tools/rename_symbol.rs:81-137 | the tree with its positions moved is well formed over the renamed text, so a second rename applies |
| DartStripper.StripDartNoise | crates/agents/nerd/src/coding/noise_stripper/dart.rs:17-113 | the loop computes the lexer's masking of the input: one output character per byte and newlines at the same indices |
| DartStripper.RegionKept | crates/agents/nerd/src/coding/noise_stripper/dart.rs:82-111 | whatever the text: each of the eight kinds of comment or string ends at the first delimiter no backslash hides, or at the end of the text; comments are blanked up to there, strings copied, comment markers inside them too |
| DartStripper.CutIntoRegions | crates/agents/nerd/src/coding/noise_stripper/dart.rs:17-113 | the output for a whole text is what a cut of it from left to right into code and regions says: the first region that opens at a byte of code runs to its end, code and delimiters stay, comments are blanked, strings copied |
| DartStripper.SecondPass | crates/agents/nerd/src/coding/noise_stripper/dart.rs:17-186 | the lexer meets the same state at every index of its own output, and a second pass changes nothing exactly when every byte outside ASCII lies in a comment |
| CFamilyStripper.StripCFamilyNoise | crates/agents/nerd/src/coding/noise_stripper/c_family.rs:17-116 | as for Dart |
| CFamilyStripper.RegionKept | crates/agents/nerd/src/coding/noise_stripper/c_family.rs:25-113 | as for Dart, with raw strings ended by a parenthesis and a quote |
| CFamilyStripper.CutIntoRegions | crates/agents/nerd/src/coding/noise_stripper/c_family.rs:17-116 | as for Dart |
| CFamilyStripper.SecondPass | crates/agents/nerd/src/coding/noise_stripper/c_family.rs:17-146 | as for Dart |
| CSharpStripper.StripCSharpNoise | crates/agents/nerd/src/coding/noise_stripper/c_sharp.rs:17-115 | as for Dart |
| CSharpStripper.RegionKept | crates/agents/nerd/src/coding/noise_stripper/c_sharp.rs:25-112 | as for Dart, with verbatim strings, which a doubled quote does not end |
| CSharpStripper.CutIntoRegions | crates/agents/nerd/src/coding/noise_stripper/c_sharp.rs:17-115 | as for Dart |
| CSharpStripper.SecondPass | crates/agents/nerd/src/coding/noise_stripper/c_sharp.rs:17-145 | as for Dart |
| ElixirStripper.StripElixirNoise | crates/agents/nerd/src/coding/noise_stripper/elixir.rs:17-100 | as for Dart |
| ElixirStripper.RegionKept | crates/agents/nerd/src/coding/noise_stripper/elixir.rs:25-97 | as for Dart, with heredocs and three-byte lookahead |
| ElixirStripper.CutIntoRegions | crates/agents/nerd/src/coding/noise_stripper/elixir.rs:17-100 | as for Dart |
| ElixirStripper.SecondPass | crates/agents/nerd/src/coding/noise_stripper/elixir.rs:17-135 | as for Dart |
| LexerSteps.OneExtent | crates/agents/nerd/src/coding/noise_stripper/c_sharp.rs:73-84 | where a region ends is determined, so there is one such cut |
| LexerSteps.StripMasked | crates/agents/nerd/src/coding/noise_stripper/dart.rs:17-113 | any lexer that takes openings whole in code and reads each region as its kind does masks a text as the cut into code and regions says |
| Lexing.SameTrace | crates/agents/nerd/src/coding/noise_stripper/dart.rs:21-113 | whatever its lookahead, a lexer that is stable under its own masking is in the same place at every index of its output as on the input |
| Lexing.ShapeKept | crates/agents/nerd/src/coding/noise_stripper/c_family.rs:17-140 | one output character for each byte, and newlines at the same indices and nowhere else |
| Lexing.IdempotentExactly | crates/agents/nerd/src/coding/noise_stripper/elixir.rs:17-100 | stripping twice is stripping once exactly when every byte outside ASCII was blanked |
| LexerSteps.PushWithEscape | crates/agents/nerd/src/coding/noise_stripper/c_family.rs:118-140 | the shared helper takes one token, even where a trailing backslash ends the text |
| LexerSteps.PushUntil | crates/agents/nerd/src/coding/noise_stripper/dart.rs:138-162 | the same for longer delimiters, whose index can end one past the text |
| LexerSteps.PushRawUntil | crates/agents/nerd/src/coding/noise_stripper/dart.rs:164-180 | the same for raw strings |
| FortranStripper.StripFortranNoise | crates/agents/nerd/src/coding/noise_stripper/fortran.rs:12-29 | the outer loop strips each line by itself and keeps the newlines |
| FortranStripper.StripFortranLine | crates/agents/nerd/src/coding/noise_stripper/fortran.rs:31-81 | the inner loop blanks a fixed-form comment line, or masks what follows an exclamation mark outside quotes |
| FortranStripper.FixedFormBlanked | crates/agents/nerd/src/coding/noise_stripper/fortran.rs:31-41 | in a fixed-form comment line the mark stays, and each character after it becomes a blank, tabs excepted |
| FortranStripper.OtherLinesLexed | crates/agents/nerd/src/coding/noise_stripper/fortran.rs:43-81 | any other line is what a cut into code, comments and strings says |
| FortranStripper.RegionKept | crates/agents/nerd/src/coding/noise_stripper/fortran.rs:44-78 | within a line, comments are blanked to its end and strings copied to the first quote that is not doubled |
| FortranStripper.CutIntoRegions | crates/agents/nerd/src/coding/noise_stripper/fortran.rs:44-81 | the same for a line |
| FortranStripper.StripDistributes | crates/agents/nerd/src/coding/noise_stripper/fortran.rs:12-29 | stripping distributes over texts joined by a newline |
| FortranStripper.FortranIdempotentExactly | crates/agents/nerd/src/coding/noise_stripper/fortran.rs:12-105 | stripping twice is stripping once exactly when every byte outside ASCII lies in a comment of its line |
| ReadFile.RangeSelects | crates/agents/nerd/src/tools/read_file.rs:209-268 | a range checked against the raw text selects exactly those lines of the text, stripped or not, cut at the end of the file |
| ReadFile.RangeRefused | crates/agents/nerd/src/tools/read_file.rs:219-254 | any other request is refused: one without exactly two parts, with a part that does not parse, or naming no line |
| ReadFile.ReadsWhole | crates/agents/nerd/src/tools/read_file.rs:196-216 | without a range the whole text is read, stripped or not, with the number of its lines; a missing or unreadable file is refused whatever was asked |
| ReadFile.ParsesExactly | crates/agents/nerd/src/tools/read_file.rs:228-246 | a number in a range is digits, with or without a plus sign, and fits a machine word |
| TextLines.LinesAre | crates/agents/nerd/src/tools/read_file.rs:256-263 | lines are what a text falls into at newlines, without them and a carriage return before them, and an empty last one does not count |
| ReadFile.FortranRangeSelects | crates/agents/nerd/src/tools/read_file.rs:209-268 | the same for Fortran, whose stripping may shorten lines |
| ReadFile.LexedRangeSelects | crates/agents/nerd/src/tools/read_file.rs:209-268 | and for every language whose comments a lexer strips, which keeps each line where it was |
| ReadFile.FortranLinesStripped | crates/agents/nerd/src/tools/read_file.rs:211-268 | each line of a stripped Fortran text is the stripped form of the same raw line |
| ShellCommand.BuildCurlCommand | crates/agents/nerd/src/tools/http.rs:160-188 | the loop's command, read by the shell's rules, gives curl -si --max-time, the time limit, -X, the method, -H and name, colon, value for each header in order, --data-raw and the body if there is one, and the url last; unless a value holds a NUL, and then nothing |
| ShellCommand.CurlArguments | crates/agents/nerd/src/tools/http.rs:160-188 | the same of the words printed, position by position |
| ShellCommand.CurlCommandReads | crates/agents/nerd/src/tools/http.rs:153-188 | tokenizing the printed command by the shell's rules (IEEE Std 1003.1-2017, XCU sections 2.2.1, 2.2.2 and 2.3) gives exactly the intended arguments, and does so exactly when no value holds a NUL; the time limit reads back as its number |
| ShellCommand.QuotedInside | crates/agents/nerd/src/tools/http.rs:153-155 | inside the quotes any NUL-free value is read back as it is |
| ShellCommand.ParseMethod | crates/agents/nerd/src/tools/http.rs:245-256 | accepts exactly the allowed methods, in upper case; DELETE, and only it, gets its own refusal, and anything else is unsupported |
| WordWrap.WrapInputText | crates/lib/xoxo-tui/src/ui/input.rs:131-142 | the outer loop computes the page the specification gives |
| WordWrap.AppendWrappedCharacter | crates/lib/xoxo-tui/src/ui/input.rs:144-169 | one character: kept, dropped at a break, or moved on with the last word |
| WordWrap.WrapCurrentLine | crates/lib/xoxo-tui/src/ui/input.rs:171-180 | the line is cut at its last gap, or whole |
| WordWrap.LastWordBoundary | crates/lib/xoxo-tui/src/ui/input.rs:182-198 | the last run of whitespace of the line |
| WordWrap.WrapBreaksWell | crates/lib/xoxo-tui/src/ui/input.rs:131-180 | prompt and input are the lines joined by dropped whitespace, in order; a word is split only where it fills its line, and no break comes early |
| WordWrap.EveryLineFitsExactly | crates/lib/xoxo-tui/src/ui/input.rs:144-169 | with a prompt that fits, every line fits exactly when every character that is not whitespace fits by itself |
| WordWrap.FittingTextUntouched | crates/lib/xoxo-tui/src/ui/input.rs:131-142 | a text that fits stays on one line |
| ConversationPane.DrawIsFreshExactly | crates/lib/xoxo-tui/src/ui/history.rs:23-47 | over any redraws, bus events, syncs, loads and resets, a draw equals a fresh build, block by block, exactly when the cache misses or the active chat's buffers are those the copy was made with and whatever pulses looks as it did (equal blocks paint alike; two unequal ones might too) |
| ConversationLines.LinesAreFresh | crates/lib/xoxo-tui/src/ui/history.rs:23-47 | so however blocks are painted, the collapsed lines of such a draw are those of a fresh build |
| ConversationLines.BuildLinesUncached | crates/lib/xoxo-tui/src/ui/history.rs:49-126 | the builder's lines are the painted blocks of the fresh build, collapsed |
| ConversationLines.CollapseBlankLines | crates/lib/xoxo-tui/src/ui/history.rs:253-270 | the loop keeps the lines that are not blank lines directly after a blank line |
| ConversationLines.CollapseKeeps | crates/lib/xoxo-tui/src/ui/history.rs:253-270 | no two blank lines are left together, every other line stays, in order, and the pane starts and ends as blank as it did |
| ConversationLines.CollapsedAlready | crates/lib/xoxo-tui/src/ui/history.rs:253-270 | collapsing changes nothing exactly where no blank lines are together, so it is idempotent |
| ConversationPane.DrawIsFresh | crates/lib/xoxo-tui/src/app.rs:204-225 | so it always does when no system message came and no tool call is open while no turn runs |
| ConversationPane.HandledBumps | crates/lib/xoxo-tui/src/app/sync.rs:18-40 | every bus event moves the version on except a system message, which changes nothing but the active chat |
| ConversationPane.ConversationCache.BuildConversationLines | crates/lib/xoxo-tui/src/ui/history.rs:23-47 | returns the kept copy on an equal key, else builds and keeps |
| ConversationPane.BuildConversationUncached | crates/lib/xoxo-tui/src/ui/history.rs:49-126 | the builder's loop computes the blocks of the fresh build |
| ConversationPane.EntriesDrawn | crates/lib/xoxo-tui/src/ui/history.rs:49-126 | below the banner and above what is in flight the history is drawn entry by entry, each as what it is: an agent's message as Markdown, any other as plain text, a tool call by its name and arguments |
| ConversationPane.FreshSpaced | crates/lib/xoxo-tui/src/ui/history.rs:158-160 | everything drawn has a blank before it, but the banner and an outcome under its start |
| ConversationPane.PulseRepeats | crates/lib/xoxo-tui/src/ui/history.rs:135-146 | the pulse brightens for three phases and dims for three |
| ConversationPane.BuildToolOutcomeLookup | crates/lib/xoxo-tui/src/ui/tool_lines.rs:81-101 | the lookup holds the last outcome with each id |
| ConversationPane.OutcomeDrawnPerStart | crates/lib/xoxo-tui/src/ui/history.rs:162-182 | in the whole pane an outcome is drawn once for every start with its id if it is the last with that id, and otherwise never |
| ConversationPane.OutcomeUnderStart | crates/lib/xoxo-tui/src/ui/history.rs:205-242 | the block before each drawn outcome is the start with its id, marked by how it came out |
| ToolDisplay.OutcomesDrawnOnce | crates/lib/xoxo-tui/src/ui/history.rs:219-242 | whatever a run did, from a new chat or a resumed one, an app draws every tool outcome of its log exactly once, whether it followed the run live, mixed with other chats, or restored the log |
| ToolDisplay.RunKeepsWell | crates/lib/xoxo-core/src/agents/runner.rs:214-306 | a run leaves a chat as it needs to find it, tool entries in pairs and all on the active branch, so the next run can take it up |
| Witnesses.FirstMessageHidden | crates/lib/xoxo-tui/src/app/history.rs:63-72 | a log torn in the middle of a tool call hides whatever the user says next |
| Witnesses.EmptyRoundShows | crates/lib/xoxo-core/src/agents/runner.rs:45-59 | a reply that neither stops nor calls a tool logs a message the live view does not have |
| Witnesses.StaleAfterSystemMessage | crates/lib/xoxo-tui/src/app/sync.rs:12-40 | a draw, then a system message for another chat: the next draw still shows the first chat's text |
| Witnesses.StaleWhileToolOpen | crates/lib/xoxo-tui/src/ui/history.rs:23-47 | a started tool, no turn, a draw: 200 milliseconds later the dot should have changed |
| Witnesses.OrphanNotDrawn | crates/lib/xoxo-tui/src/ui/history.rs:219-242 | an outcome whose start the app did not see is not drawn |
| Witnesses.AccentGrows | crates/agents/nerd/src/coding/noise_stripper/dart.rs:17-113 | an accented letter in code grows on a second pass |
| Witnesses.DeadPointHides | crates/agents/agentix/src/indexing/stores/hnsw.rs:117-138 | one chunk put in twice: an exact search for one answer gives none |
| Witnesses.ZeroQueryAnswered | crates/agents/agentix/src/indexing/stores/instant_distance.rs:124-142 | a zero query has an answer here and none in the reference store |

## Left out

- AgentRunner: a run is modelled up to the next reply of the provider; the order in which the executor interleaves it with other tasks enters only through the arbitrary merging of bus events in LiveView and of lock sections in ContextLifecycle.
- AgentRunner: fresh UUIDs are a counter above every id in the log, for messages and tool calls alike; a tool's answer and each storage failure are arbitrary functions of how long the log is.
- AgentRunner: the tool definitions sent with a request, observability contents, `tool_call_kind` (always generic here), chat titles, timestamps and agent blueprints are not modelled.
- CompletionStream: how the provider client folds chunks into its final choice is a parameter, as are token counts; the other backend's assembly (`llm/facade/service.rs:262-266`) obeys the same finish rule and is not modelled separately.
- TuiApp: how token sums and cost are derived from a chat is a parameter; the daemon's own error events are just events of another path.
- TuiApp.View: `version` is a natural number, so the wrap after 2^64 changes is not modelled; bus lag and dropped events are not modelled.
- ContextLifecycle: `persisted_chats`, storage writes and the inside of an execution context (its bash session) are not modelled; a context is an id that is made, stored, given out and shut down.
- ContextLifecycle.Allowed: assumes that a child gets an id nobody has and is spawned by a running agent of its tree, which waits until it is registered, and that no root has the id of a child; tool resolution that fails after a context was made leaves the entry in the map, which `GiveUp` allows and the results about shutdown do not count.
- Mailbox: `send` returns once there is room, so waiting for room is the caller's precondition; messages left in the queue when a runner ends count as queued for ever; whether clients still hold a displaced handle is left open, so that a mailbox can close means that it may.
- HnswStore: the graph search is a parameter that meets `SearchSound`, or `SearchExact` where said; its approximation quality is not modelled, and where answers are compared the distance to a zero vector is taken to be 1.
- InstantDistanceStore: the index search is a parameter that meets `NearestFirst` where the answer is compared; the search width of 200 only bounds how far that can hold.
- Cosine: reals instead of 32-bit floats, so rounding, overflow and NaN are not modelled; square roots are any function that gives square roots.
- RenameSymbol: parsing and the structure inspectors are parameters; trees have ordered, disjoint children inside their parents. Text is bytes, so that ranges fall on character boundaries is the parser's promise. `patch_symbol` is left out.
- Lexing: the strippers' output string is a sequence of code points below 256, read as UTF-8 only for a second pass; the strippers not listed and the choice by file extension are left out.
- ReadFile: the file system is a parameter; the summary in place of the contents and the file hash are left out.
- ShellCommand: header order is any sequence, as a hash map gives it; upper-casing is a parameter; reading curl's output and running the command are left out. The tokenizer refuses what would start an operator, an expansion or a comment.
- WordWrap: widths and whitespace are parameters per character, widths add up, and positions count characters instead of bytes.
- ConversationPane: how a formatter paints a block is a parameter of `ConversationLines`, so Markdown and syntax highlighting are left out, as is the always empty list of finished turns (no turn event ever enters the history); a draw reads the clock once.
- Configuration, the command line, slash commands, MCP and the remaining tools: external, or they would only add easy members.
