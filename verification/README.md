# pi-ahp, modelled and proved in Dafny

pi-ahp is an Agent Host Protocol host: it orders actions, replays them to reconnecting clients, drives one agent turn at
a time per chat, and rebuilds conversations from an append-only entry log. This project states what its core promises and
proves it, for all inputs and over all runs. `dafny verify dfyconfig.toml` checks everything.

## What is modelled

- **Ordered log, replay, snapshots** (`Sequencer`, `StateStore`, `Host`, `Reconnects`, `ClientActions`,
  `RegistryRouters`). Actions are routed, reduced, numbered, retained in a bounded buffer and broadcast; clients subscribe,
  lose connections and reconnect. The protocol's reducers are a parameter, so every result holds for all of them.
- **The turn machine** (`EventMapper`, `MapperTraces`, `ChatDriver`). The mapper turns a three-level event stream into a
  two-level action stream; the driver runs prompts, cancellations, quiescence and the queue.
- **History and paging** (`History`, `LiveReplay`, `LiveEqualsRebuilt`, `TurnPaging`, `LiveTruncation`). Rebuilding turns
  from entries, the agreement of the live view with the rebuilt one, paging, and truncation of rebuilt and live turns.
- **Serialisation and shared resources** (`SessionOperations`, `SessionLifecycle`, `WatchPool`, `ChangesetRefresh`,
  `GitChanges`, `SessionCatalogue`, `TerminalOutput`, `ClientWorkarounds`).

## How

Each component has a specification module (`…Spec`) of datatypes, functions and a state machine, with the lemmas about it,
and beside it the component in its own form: a class with the same fields, or a method with the same loop, each method
proved to be the step of the same name. In a state machine one step is one stretch of code between two awaits; a pending
promise is an explicit program counter, and settles when an adversary says so. Main results quantify over every sequence
of steps from the initial state.

Some conventions: turn, part, session and chat ids that the code builds as strings are structured values, except in
`ClientWorkarounds`, where URIs are strings and their parsing is modelled; entry ids are unique; base64url is any code
that decoding undoes, that yields one path segment and does not shorten; paths in the catalogue are numbers, by their
place in the order of strings; terminal text is counted in UTF-16 code units.

## What the code does not promise, exactly

Where a promise fails, the condition under which it holds is stated and proved to be exact, or a run shows the failure.

- Two user messages with no assistant message between them are one live turn but two rebuilt ones; the turn counts agree
  if and only if an assistant message separates every two user messages (`SameTurnCountIffSeparated`).
- An error only the stream reported is shown live but not after a rebuild. The two views always agree up to that text, and
  are equal if and only if no turn's last assistant message is such a failure (`LiveEqualsRebuiltIff`).
- A delta is sent in the kind of its chunk, not of its part; deltas match their part if and only if the chunks of its
  block keep one kind (`DeltasKeepKindIff`, `MixedBlockSendsWrongDelta`).
- The clear-all prefix rebuilds to no turns if and only if nothing that opens a turn precedes the first user entry
  (`ClearAll`).
- A `fetchTurns` without a cursor is accepted and clears the chat's cursor while older turns remain (`FetchExactIff`).
- A replay after a channel was deleted and created anew leaves the client with the old entry's state
  (`ReplayOfReplacedChannelIsStale`).
- A router that calls `apply` twice, or calls it and then returns false, causes two envelopes; at most one envelope is
  emitted if and only if routers keep to their contract (`AtMostOneOutcomeIff`). The registry's own routers always do
  (`OneEnvelopeOnEveryRun`).
- A turn started after quiescence is complete would never end once the driver resumes (`StartWhileQuiescedSticks`). The
  registry's validator refuses such a turn while a deletion is pending, so the results assume it.
- `parseGitChanges` gives a record the counts of the last record naming its result path, so it inverts the printer if and
  only if those agree (`ParseUndoesPrintIff`).
- `inbound` undoes `outbound` on a chat URI if and only if its id is one segment, and on a session URI if and only if the
  URI is canonical (`InboundUndoesOutboundIff`).
- With several outstanding creations of one session the disposal guard lets only drafts through if and only if no success
  answers a creation that a newer one, still being created, has overtaken (`GuardIsSafeIff`; `TwoCreationsDefeatTheGuard`
  is a run where one does).

Facts about the library's chat reducer that the code's comments and tests state are taken as its definition here: a delta
to an unknown part does nothing, loaded turns are prepended, a truncation keeps through the named turn, a queued start
removes its queue entry, the end of a turn cancels calls still running, the latest usage report wins, and an error part is
appended. Facts about pi that the agreement of live and rebuilt views assumes: content blocks are streamed in index order,
in full or not at all; an assistant message ends with a terminal stop reason; tool call ids are unique in a turn and each
call has at most one result; a compaction follows its turn's user message; `finish` has no override; the client
names every run's turn anew.

## Model

| member | source | states |
|---|---|---|
| `Protocol.ReduceAllConcat` | src/pi/event-mapper.ts:19-26 | Reducing a stream of actions in pieces is reducing it whole. |
| `MapperTraces.TraceIsWellFormed` | src/pi/event-mapper.ts:196-239 | For every sequence of events and finish calls: turn starts and terminals alternate, every turn-scoped action names the open turn, deltas hit a part already created in that turn, keyed part ids are never reused across messages and injected turns, and the last turn is closed exactly when finish was called. |
| `MapperTraces.SilentAfterFinish` | src/pi/event-mapper.ts:592-600 | Once finished, the mapper says nothing more, whatever arrives. |
| `MapperTraces.PartTextIsWhatWasStreamed` | src/pi/event-mapper.ts:407-462 | A part whose block keeps one kind ends with exactly the text streamed for its message and content index, and exists exactly when that text is not empty. |
| `MapperTraces.SpokenAsStreamed` | src/pi/event-mapper.ts:398-462 | On every call sequence the actions that put text into a part are, in order and in kind, the non-empty chunks of its message and content index, the first of them creating the part; the content a block ends with only when nothing came before it. |
| `MapperTraces.DeltasKeepKindIff` | src/pi/event-mapper.ts:426-461 | Every delta of a part is of the kind the part was created with exactly when the chunks that count for its block are all of one kind. |
| `MapperTraces.MixedBlockSendsWrongDelta` | src/pi/event-mapper.ts:426-461 | Text and then thinking in one content block sends a reasoning delta to a text part. |
| `MapperTraces.StreamedThenEnded` | src/pi/event-mapper.ts:398-413 | A block streamed as deltas has the deltas' text; the end content counts only when every delta was empty. |
| `MapperTraces.InjectedMessageTracks` | src/pi/event-mapper.ts:297-342 | A user message in mid-run closes the open turn and opens a fresh one that no earlier part id can collide with. |
| `EventMapper.TurnMapper.Handle` | src/pi/event-mapper.ts:195-239 | One event updates the mapper's fields and emits exactly the specified actions. |
| `EventMapper.TurnMapper.SetActivity` | src/pi/event-mapper.ts:259-272 | An activity is emitted only when it changes. |
| `EventMapper.TurnMapper.OnMessageStart` | src/pi/event-mapper.ts:243-257 | A message start splits the turn, or advances the ordinal and forgets the parts of the last message, or does nothing. |
| `EventMapper.TurnMapper.OnMessageEnd` | src/pi/event-mapper.ts:274-295 | The end of an assistant message settles the provisional outcome and reports usage. |
| `EventMapper.TurnMapper.AppendChunk` | src/pi/event-mapper.ts:419-462 | Text lands in a part created on first use. |
| `EventMapper.TurnMapper.OnDelta` | src/pi/event-mapper.ts:366-396 | Dispatch over the streamed deltas, including a provisional streaming error. |
| `EventMapper.TurnMapper.OnToolCallStart` | src/pi/event-mapper.ts:466-486 | A call is announced once its id is known. |
| `EventMapper.TurnMapper.OnToolCallReady` | src/pi/event-mapper.ts:522-546 | A call becomes live when its arguments are complete. |
| `EventMapper.TurnMapper.Finish` | src/pi/event-mapper.ts:592-600 | The turn ends once, with an optional override of its outcome. |
| `HistorySpec.TruncationCommutes` | src/pi/history.ts:134-148 | For every anchored turn i the anchor is a non-user entry, and the entries up to and including it rebuild to exactly turns 0..i. |
| `HistorySpec.TruncatedChatMatchesBranch` | src/pi/history.ts:139-142 | A fully loaded chat truncated at an anchored turn shows what the remaining branch rebuilds to. |
| `HistorySpec.TurnIdsDistinct` | src/pi/history.ts:199-213 | Turn ids are pairwise distinct and derived from entries. |
| `HistorySpec.UnanchoredTurnsAreUnanswered` | src/pi/history.ts:144-146 | A turn without an anchor is a bare question: no parts, no usage, complete. |
| `HistorySpec.ClearAll` | src/pi/history.ts:151-152 | The clear-all anchor is the first user entry, and the entries before it rebuild to no turn exactly when no assistant, shell or compaction entry is among them. |
| `HistorySpec.ClearAllAbsent` | src/pi/history.ts:215-218 | Without a user entry there is no clear-all anchor. |
| `HistorySpec.NoTurnsIff` | src/pi/history.ts:215-356 | A branch rebuilds to no turn exactly when it holds no entry that opens one. |
| `HistorySpec.HistoryGrows` | src/pi/history.ts:161-356 | Appending entries keeps every earlier turn id and every turn but the last. |
| `HistorySpec.AnchorsHold` | src/pi/history.ts:169-197 | At every prefix of the branch the anchors recorded so far each rebuild to their turn and all before it. |
| `History.RebuildHistory` | src/pi/history.ts:161-356 | The one-pass rebuild returns the specified turns and anchors. |
| `History.CloseTurn` | src/pi/history.ts:169-197 | Closing a turn settles running calls, records its anchor and its outcome. |
| `History.AddBlocks` | src/pi/history.ts:266-296 | The loop over content blocks numbers parts by block position and remembers where each call sits. |
| `LiveReplay.LiveAgreesWithRebuilt` | src/pi/event-mapper.ts:297-312 | A chat that lived through any conversation of well-formed runs shows the same turns, turn by turn with the same messages, parts, call outcomes, usage and states, as the history rebuilt from what those runs persisted; only the text of the error that ends a turn can differ, and then the live view shows what the stream reported and the rebuilt one the text for an unknown error. |
| `LiveReplay.RunAgrees` | src/pi/history.ts:161-356 | One run, continued from any agreeing state, keeps the live and the rebuilt view in that agreement. |
| `LiveReplay.AssistantAgrees` | src/pi/history.ts:261-309 | An assistant message streamed block by block leaves the same parts as its stored blocks and the same outcome as its stored stop reason, up to an error text only the stream carried. |
| `LiveReplay.ToolResultAgrees` | src/pi/history.ts:311-334 | A tool's end and its stored result complete the same call with the same success, or neither does. |
| `LiveReplay.UserAgrees` | src/pi/event-mapper.ts:314-342 | A user message in mid-run opens a turn on both sides when an assistant message came before it. |
| `LiveEqualsRebuilt.LiveEqualsRebuiltIff` | src/pi/event-mapper.ts:284-291 | Over every conversation of well-formed runs the two views are equal exactly when no turn's last assistant message is a failure whose stored message has no error text while the stream reported one other than the default. |
| `LiveEqualsRebuilt.RunEqualsRebuiltIff` | src/pi/event-mapper.ts:274-342 | On every run, separated or not, the two views are equal exactly when an assistant message separates every two user messages and no turn's last assistant message is such a failure. |
| `LiveEqualsRebuilt.SameTurnCountIffSeparated` | src/pi/event-mapper.ts:311-318 | On any run the live view has at most as many turns as the rebuilt one, and as many exactly when an assistant message separates every two user messages. |
| `LiveEqualsRebuilt.UnreportedFailureAgreesIff` | src/pi/event-mapper.ts:284-291 | In particular, after an answer whose error only the stream reported, the two views agree exactly when the reported text is the default one. |
| `TurnPaging.InitialWindowIsPaged` | src/pi/turn-paging.ts:31-36 | Hydration shows a tail of the branch whose cursor is present exactly when older turns remain. |
| `TurnPaging.FetchLoadsOnePage` | src/pi/session-history.ts:79-99 | A fetch with the current cursor prepends exactly the next older page and moves the cursor. |
| `TurnPaging.FetchExactIff` | src/pi/session-history.ts:79-99 | An accepted fetch keeps paging exact exactly when it names the current cursor; without a cursor it is accepted and loses the older turns. |
| `TurnPaging.PagesReassemble` | src/pi/turn-paging.ts:46-68 | Repeated fetches reassemble the whole history with no gap or duplicate, and the cursor disappears exactly at the beginning. |
| `TurnPaging.HydrationThenPaging` | src/pi/turn-paging.ts:31-68 | Hydration and then paging shows exactly the rebuilt history. |
| `TurnPaging.GrowthContinues` | src/pi/turn-paging.ts:38-45 | Entries appended meanwhile cannot shift paging. |
| `TurnPaging.LoadTruncationTarget` | src/pi/session-history.ts:50-77 | The loop terminates with the named turn as the oldest loaded, or refuses. |
| `TurnPaging.LoadReachesEveryTurn` | src/pi/session-history.ts:50-77 | Exactly the turns of the chat's whole history can be loaded, paged away or shown, in a chat begun here or hydrated, live turns included; the chat then shows everything from the named turn on, or what it showed before when that was more. |
| `TurnPaging.TruncateKeepsWindow` | src/pi/session-history.ts:65-76 | Truncating at a turn that is shown, rebuilt or live, leaves the chat showing the same turns up to it, still correctly paged. |
| `LiveTruncation.LiveTruncationCommutes` | src/pi/session-history.ts:32-48 | For every turn that happened live, in a chat begun here or hydrated and partly paged away: either an entry is known and truncating shows the chat's own turns up to that one, while the entries kept by navigating there rebuild to the same turns up to error texts only the stream told; or none is known, and the turn was asked and never answered. |
| `LiveTruncation.ConversationRecords` | src/pi/session-registry.ts:628-636 | Over any conversation, what is recorded for each turn as it closes, injected turns included, is an entry whose prefix of the branch rebuilds to exactly the turns up to it; nothing is recorded only for unanswered turns. |
| `LiveTruncation.RunAnchored` | src/pi/chat-driver.ts:346-362 | The same for one run from any agreeing state, an injected message closing the open turn before its own entry is persisted. |
| `LiveTruncation.NotedKeeps` | src/pi/session-registry.ts:629-635 | A turn that closes now is kept by the current leaf, or nothing followed its user entry. |
| `LiveTruncation.ConversationDistinct` | src/pi/event-mapper.ts:323-324 | When every run has its own client-chosen id, no two turns of the conversation share one. |
| `TurnPaging.TruncationEndToEnd` | src/pi/session-history.ts:32-48 | Load a turn anchored by its rebuilt id, navigate to the anchor, reduce: the chat, whatever has happened live behind its hydrated window, shows its own turns up to the named one, paged over what the remaining entries rebuild to; turns from before the window are the rebuilt ones. |
| `ChatDriverSpec.AtMostOnePrompt` | src/pi/chat-driver.ts:282-319 | On every interleaving of starts, cancellations, quiescence and resumption at most one backend.prompt is outstanding. |
| `ChatDriverSpec.PromptsAreAllowed` | src/pi/chat-driver.ts:445-489 | A step calls backend.prompt only for the current run, never for a cancelled one, never while quiesced, and only when every earlier cancellation's abort and turn operation have settled. |
| `ChatDriverSpec.StepKeeps` | src/pi/chat-driver.ts:144-489 | Every step keeps the ownership of prompting operations, the chaining of cancellations and the barrier. |
| `ChatDriverSpec.AllEarlierDone` | src/pi/chat-driver.ts:476-489 | When a cancellation has been called every earlier one is done. |
| `ChatDriverSpec.QueueDiscipline` | src/pi/chat-driver.ts:401-443 | On every run each queued message is started at most once, is then queued no more, and none waits while there is no run, no cancellation and no quiescence. |
| `ChatDriverSpec.StepQueue` | src/pi/chat-driver.ts:416-474 | Only the current head is started, as a fresh run, when no earlier run, barrier or quiescence is in force. |
| `ChatDriverSpec.NothingStranded` | src/pi/chat-driver.ts:164-177 | Whenever the driver accepts work, also after a failed disposal, its run has an operation under way and queued messages wait only behind it or behind an unsettled cancellation. |
| `ChatDriverSpec.StepNotStuck` | src/pi/chat-driver.ts:144-172 | Each step keeps a way forward for the run in force, if no turn is admitted after quiescence is complete. |
| `ChatDriverSpec.NewRunIsLiveIff` | src/pi/chat-driver.ts:285-301 | A new run's operation is under way exactly when the driver is not quiesced or a cancellation or the quiescence gate still holds it back. |
| `ChatDriverSpec.StartWhileQuiescedSticks` | src/pi/chat-driver.ts:288-301 | Why that condition is needed: a turn started after quiescence is complete stays in force for ever once the driver resumes. |
| `ChatDriver.ChatDriver.StartTurn` | src/pi/chat-driver.ts:278-280 | A client's start begins a run and its operation. |
| `ChatDriver.ChatDriver.RunPrompt` | src/pi/chat-driver.ts:282-319 | The operation runs up to its first await. |
| `ChatDriver.ChatDriver.CheckThenModel` | src/pi/chat-driver.ts:288-300 | The first check after the barrier, then model selection. |
| `ChatDriver.ChatDriver.CheckThenPrompt` | src/pi/chat-driver.ts:300-304 | The last check before backend.prompt. |
| `ChatDriver.ChatDriver.SettlePrompt` | src/pi/chat-driver.ts:321-328 | A settled prompt ends its run, is kept for later while quiesced, or is ignored when its run is over. |
| `ChatDriver.ChatDriver.FinishTurn` | src/pi/chat-driver.ts:401-414 | Ending a turn clears the run and looks at the queue. |
| `ChatDriver.ChatDriver.ConsumeNextQueuedMessage` | src/pi/chat-driver.ts:416-443 | The head of the queue starts, whether or not its message names a model, unless something is in force. |
| `ChatDriver.ChatDriver.CancelTurn` | src/pi/chat-driver.ts:445-474 | A matching cancellation ends the run at once and chains behind earlier ones. |
| `ChatDriver.ChatDriver.SettleCancellation` | src/pi/chat-driver.ts:461-472 | Only the newest cancellation releases the barrier. |
| `ChatDriver.ChatDriver.Quiesce` | src/pi/chat-driver.ts:144-150 | Quiescence stops new work and installs the gate. |
| `ChatDriver.ChatDriver.QuiesceAborted` | src/pi/chat-driver.ts:151-155 | After the backend's abort the quiesced run is cancelled and the gate released. |
| `ChatDriver.ChatDriver.Resume` | src/pi/chat-driver.ts:164-172 | Resumption settles a kept result or looks at the queue. |
| `SequencerSpec.EmitKeeps` | src/core/sequencer.ts:34-45 | Numbers have no gaps and the buffer is always the log's newest part, as long as fits. |
| `SequencerSpec.CanReplayIff` | src/core/sequencer.ts:52-64 | A gap can be replayed exactly when it is no longer than the buffer's capacity. |
| `SequencerSpec.ReplayIsComplete` | src/core/sequencer.ts:66-74 | A replay that is allowed omits nothing of the subscribed channels. |
| `SequencerSpec.ReplayOmitsEvicted` | src/core/sequencer.ts:69-70 | A replay that is not allowed silently omits the first missing envelope. |
| `Sequencer.Sequencer.Next` | src/core/sequencer.ts:34-37 | Allocates the next number. |
| `Sequencer.Sequencer.Retain` | src/core/sequencer.ts:39-45 | Pushes, and shifts the oldest out at capacity. |
| `Sequencer.Sequencer.CanReplayFrom` | src/core/sequencer.ts:52-64 | Decides by the oldest retained number. |
| `Sequencer.Sequencer.ReplayFrom` | src/core/sequencer.ts:66-74 | Filters the buffer in order. |
| `StateStore.StateStore.Create` | src/core/state-store.ts:111-123 | Registers a channel, replacing any entry, and refuses an unknown kind. |
| `StateStore.StateStore.Delete` | src/core/state-store.ts:125-127 | Removes a channel and says whether it was there. |
| `StateStore.StateStore.Apply` | src/core/state-store.ts:141-155 | Reduces into an existing channel and nothing else. |
| `StateStore.StateStore.TakeSnapshot` | src/core/state-store.ts:157-161 | The state at a given number. |
| `HostSpec.RunsAreOrdered` | src/core/host.ts:915-955 | In every reachable host: gapless numbers, a buffer that is a suffix of the log, each channel's state the reduction of its accepted actions, strictly increasing numbers on every connection. |
| `HostSpec.StepKeeps` | src/core/host.ts:915-955 | Every step keeps that, and delivers to each working subscriber exactly its channels' envelopes since it subscribed. |
| `HostSpec.MirrorFollows` | src/core/host.ts:944-955 | A mirror right at t is right up to the last number that arrived, whatever prefix of the stream arrived, and holds the host's state once all of it has. |
| `HostSpec.ReplayConverges` | src/core/host.ts:678-682 | A client right at lastSeen whose gap can be replayed holds the host's state after the replay. |
| `HostSpec.ReplayCoversHandshake` | src/core/host.ts:666-682 | Whatever was sent on the new connection before the reply is in the replay. |
| `HostSpec.SnapshotThenFollow` | src/core/host.ts:729-739 | Snapshot, then the accepted envelopes after its number: the subscriber holds the host's state after every run that keeps entry, subscription and connection. |
| `HostSpec.ReconnectConverges` | src/core/host.ts:657-694 | After any loss of a suffix, any run and a reconnect, replay or snapshots bring the client to the host's state on every channel whose entry was not replaced. |
| `ReconnectsSpec.ReconnectsConverge` | src/core/host.ts:657-694 | However often a subscriber loses its connection, wherever in its stream each loss falls and whichever reply each reconnect gets, its mirror of a channel whose entry is not replaced is the host's state after every reconnect, stays right up to the last number it has seen, and is the host's state whenever all that was sent has arrived. |
| `ReconnectsSpec.ReplyIsRight` | src/core/host.ts:678-693 | Replay or snapshots, a mirror that was right is afterwards the host's state and in step with the new connection. |
| `ReconnectsSpec.FollowsInStep` | src/core/host.ts:944-955 | A mirror in step with a working connection is right after any part of what was sent has arrived, even when the connection subscribed later than the last number the mirror has seen. |
| `ReconnectsSpec.EpisodeConverges` | src/core/host.ts:657-694 | One stay, loss, absence and return takes a client that is up to date to one that is. |
| `HostSpec.ReplayOfReplacedChannelIsStale` | src/core/host.ts:679-682 | The exclusion is needed: a channel deleted and created anew leaves a replaying client with the old state, for all reducers and states. |
| `HostSpec.AbsorbIsReduced` | src/core/sequencer.ts:66-70 | Skipping by number and reducing exactly the newer envelopes of a channel come to the same. |
| `Host.AhpHost.CreateChannel` | src/core/state-store.ts:118-123 | A new entry is born at the present length of the log. |
| `Host.AhpHost.DeleteChannel` | src/core/host.ts:333-347 | The channel and every subscription to it go. |
| `Host.AhpHost.Broadcast` | src/core/host.ts:944-955 | Every subscriber but the broken ones receives; a broken one stops nobody. |
| `Host.AhpHost.Commit` | src/core/host.ts:915-927 | Reduce, number, retain and broadcast in one step. |
| `Host.AhpHost.RejectAction` | src/core/host.ts:929-940 | A rejection is numbered and echoed but not reduced. |
| `Host.AhpHost.DispatchServerAction` | src/core/host.ts:902-913 | Actions for unknown channels are dropped. |
| `Host.AhpHost.AddSubscription` | src/core/host.ts:741-745 | A subscription is added once. |
| `Host.AhpHost.TrySubscribe` | src/core/host.ts:729-739 | Subscribe and snapshot in one step, or neither. |
| `Host.AhpHost.BindClient` | src/core/host.ts:696-705 | Other connections of the same client are closed. |
| `Host.AhpHost.ReconnectSubscribe` | src/core/host.ts:667-676 | Only existing channels and the root are subscribed to again. |
| `Host.AhpHost.ReconnectReply` | src/core/host.ts:678-693 | Replay when the client is known and its gap is buffered, snapshots otherwise. |
| `ClientActionsSpec.OutcomesOnEveryRun` | src/core/host.ts:749-767 | On every run outcomes on one channel appear in arrival order, nothing is said twice or forgotten, and an action whose routers keep to their contract has at most one envelope. |
| `RegistryRoutersSpec.OneEnvelopeOnEveryRun` | src/pi/session-registry.ts:278-341 | On every run an action that goes through the registry's own routers never has two envelopes, and once dealt with has exactly one unless its target does not exist. |
| `RegistryRoutersSpec.OneEnvelopeEach` | src/pi/session-registry.ts:278-341 | Whatever the registry's routers find and whichever of their awaits fail, an action gets exactly one envelope, and none exactly when nobody is there. |
| `RegistryRoutersSpec.RegistryKeepsContract` | src/pi/session-registry.ts:278-341 | Every behaviour of the registry's two routers keeps the routers' contract. |
| `RegistryRoutersSpec.FlagOutcome` | src/pi/session-registry.ts:286-341 | A read or archived flag is applied once, whether its session is loaded, being deleted or cold; it is rejected exactly when its file or flags cannot be read, and ignored exactly when there is no such session. |
| `RegistryRoutersSpec.TruncationOutcome` | src/pi/session-registry.ts:871-892 | A valid truncation of a loaded chat is committed exactly when pi has moved to the anchor, and rejected otherwise. |
| `RegistryRouters.RouteMetadataAction` | src/pi/session-registry.ts:286-303 | The metadata router hands back, applies at once, or defers behind the session's pending operations. |
| `RegistryRouters.UpdateColdMetadata` | src/pi/session-registry.ts:305-341 | The cold update calls apply at most once, or fails. |
| `RegistryRouters.RouteTruncationAction` | src/pi/session-registry.ts:278-283 | The truncation router declines, or its promise applies exactly once or rejects. |
| `RegistryRouters.TruncateBeforeCommit` | src/pi/session-registry.ts:871-892 | Apply is called exactly when every check and await before it has passed. |
| `ClientActionsSpec.StepKeeps` | src/core/host.ts:749-767 | Every step keeps order and conservation of outcomes. |
| `ClientActions.ValidateClientAction` | src/core/host.ts:835-872 | Absent targets are ignored, the first failing check refuses. |
| `ClientActions.RunClientActionEffects` | src/core/host.ts:874-884 | All effects run, or the first that throws refuses. |
| `ClientActions.ApplyClientAction` | src/core/host.ts:824-833 | An apply commits or rejects. |
| `ClientActions.RunApplies` | src/core/host.ts:783-787 | The calls a router makes of apply, in order. |
| `ClientActions.RouteTruncation` | src/core/host.ts:795-820 | A truncation router's calls commit once; its failure rejects only before that. |
| `ClientActions.RouteOrdinarily` | src/core/host.ts:794-822 | Validation, effects, and then the truncation router or the commit. |
| `ClientActions.RouteClientAction` | src/core/host.ts:769-822 | The optional router first, ordinary routing when there is none or it hands the action back. |
| `ClientActions.Dispatcher.DispatchClientAction` | src/core/host.ts:749-767 | An action is routed at once or behind what is pending on its channel. |
| `SerialLanes.SerialExecution` | src/pi/session-operations.ts:3-23 | On every run operations of one id never overlap, start in submission order, wait only for their own lane, and the tail map holds exactly the lanes with unfinished work. |
| `SerialLanes.LaneProgresses` | src/pi/session-operations.ts:8-14 | The first unfinished operation of a lane can always go on, or waits for its own promise alone, rejections included. |
| `SerialLanes.LanesAreIndependent` | src/pi/session-operations.ts:16-22 | A step on one lane leaves every other lane alone. |
| `SerialLanes.StartIsNext` | src/pi/session-operations.ts:9-10 | When an operation may start, everything submitted before it on its lane has finished. |
| `SessionOperations.SessionOperations.Submit` | src/pi/session-operations.ts:8-14 | Runs at once on an idle lane, and behind the tail otherwise. |
| `SessionOperations.SessionOperations.Track` | src/pi/session-operations.ts:16-22 | The new work becomes its lane's tail. |
| `SessionOperations.SessionOperations.Cleanup` | src/pi/session-operations.ts:17-19 | The tail goes only if it is still this work. |
| `SessionLifecycleSpec.DeletionFence` | src/pi/session-registry.ts:477-498 | From the installation of the gate until it is cleared no creation or hydration registers a session, queued or begun earlier or not; the session stays present unless the deletion commits, and then stays gone. |
| `SessionLifecycleSpec.HydrateAnswers` | src/pi/session-hydrator.ts:79-114 | On every run a hydrate request says its channel is there only while the session is registered; under the gate every request answers exactly whether the session registered when the gate was installed is still not deleted. |
| `SessionLifecycleSpec.GateFences` | src/pi/session-registry.ts:388-400 | No step registers a session while the gate is installed. |
| `SessionLifecycleSpec.DisposalOutcome` | src/pi/session-registry.ts:500-591 | Success removes the session from registry, chat index, baselines and store; failure leaves all of them with the driver accepting work; a driver is quiesced only while a deletion is at work. |
| `SessionLifecycleSpec.GateIsNotStuck` | src/pi/session-registry.ts:487-497 | While the gate is installed the deletion, or what is before it in the lane, can take its next step. |
| `SessionLifecycleSpec.DeletionEnds` | src/pi/session-registry.ts:487-591 | A deletion in the lane settles within as many steps of the lane as the jobs up to it can take, at most three for each and one more, however many requests come meanwhile. |
| `SessionLifecycleSpec.StepKeeps` | src/pi/session-hydrator.ts:116-151 | Every step keeps the session wholly present or wholly absent and at most one deletion per id. |
| `SessionRegistry.SessionRegistry.RefusesCreation` | src/pi/session-registry.ts:388-401 | The check made before and again inside the lane. |
| `SessionRegistry.SessionRegistry.RefusesHydration` | src/pi/session-hydrator.ts:117-151 | The check made before and again after file work. |
| `SessionRegistry.SessionRegistry.Track` | src/pi/session-registry.ts:412-432 | A session enters all maps and the store together. |
| `SessionRegistry.SessionRegistry.CreateOnce` | src/pi/session-registry.ts:397-438 | The queued creation registers or refuses. |
| `SessionRegistry.SessionRegistry.FinishHydration` | src/pi/session-hydrator.ts:146-215 | A materialization registers only if its checks still pass. |
| `SessionRegistry.SessionRegistry.Dispose` | src/pi/session-registry.ts:477-498 | The gate is installed at once, and a second request joins the first. |
| `SessionRegistry.SessionRegistry.FailDisposal` | src/pi/session-registry.ts:549-556 | A failed deletion resumes the driver and changes nothing else. |
| `SessionRegistry.SessionRegistry.Forget` | src/pi/session-registry.ts:575-588 | A committed deletion removes the session everywhere. |
| `SessionRegistry.SessionRegistry.FinishDisposal` | src/pi/session-registry.ts:558-591 | The end of a committed deletion. |
| `SessionRegistry.SessionRegistry.ClearGate` | src/pi/session-registry.ts:490-496 | The gate goes once the deletion has settled. |
| `WatchPoolSpec.OneSourcePerRoot` | src/pi/parcel-watch-pool.ts:34-134 | On every run a root has at most one native source, and every opened source is closed exactly once, when its last subscriber leaves, never before. |
| `WatchPoolSpec.OpensAfterClose` | src/pi/parcel-watch-pool.ts:73-77 | A native open is called only when no source of that root is open or still closing. |
| `WatchPoolSpec.ChangesReachExactly` | src/pi/parcel-watch-pool.ts:79-88 | A change reaches each active subscriber of its source and nobody else, and each has every change since it joined. |
| `WatchPoolSpec.StepKeeps` | src/pi/parcel-watch-pool.ts:34-134 | Every step keeps reference counts equal to the subscribers and the lifecycle of entries. |
| `WatchPoolSpec.OnlyNative` | src/pi/parcel-watch-pool.ts:73-77 | Why: the entry that waits is current, and what it waits for has closed. |
| `WatchPool.ParcelWatchPool.CreateEntry` | src/pi/parcel-watch-pool.ts:73-104 | A new entry waits for the close in progress, if any. |
| `WatchPool.ParcelWatchPool.Acquire` | src/pi/parcel-watch-pool.ts:34-39 | Joining counts the subscriber unless the source has failed. |
| `WatchPool.ParcelWatchPool.Release` | src/pi/parcel-watch-pool.ts:120-134 | The last reference closes the source and makes room. |
| `WatchPool.ParcelWatchPool.Close` | src/pi/parcel-watch-pool.ts:63-69 | A subscriber leaves once. |
| `WatchPool.ParcelWatchPool.OnChange` | src/pi/parcel-watch-pool.ts:79-88 | The loop delivers to every active subscriber. |
| `ChangesetRefreshSpec.NoLostRefresh` | src/pi/changeset-service.ts:381-407 | In every reachable state a pending request with interest, not suspended and not disposed has a running loop or an armed timer. |
| `ChangesetRefreshSpec.ChangeIsFollowedByRefresh` | src/pi/changeset-service.ts:431-434 | A change observed at any moment is followed by a refresh that starts after it within five of the service's own steps, unless interest is lost or the session is suspended or disposed first. |
| `ChangesetRefreshSpec.UnseenComesNearer` | src/pi/changeset-service.ts:389-395 | Each own step starts the next refresh or brings it nearer, and nothing else puts it off. |
| `ChangesetRefreshSpec.UnseenIsNotStuck` | src/pi/changeset-service.ts:402-407 | An own step is always possible meanwhile. |
| `ChangesetRefreshSpec.ObservedChangeIsUnseen` | src/pi/changeset-service.ts:514-524 | A reported change counts as seen only by a later refresh. |
| `ChangesetRefreshSpec.StepKeeps` | src/pi/changeset-service.ts:209-231 | Every step keeps the loop-or-timer invariant. |
| `ChangesetRefresh.SessionEntry.RequestRefresh` | src/pi/changeset-service.ts:381-400 | A request clears the timer and starts the loop unless it runs. |
| `ChangesetRefresh.SessionEntry.RefreshLoop` | src/pi/changeset-service.ts:402-407 | The loop's condition and the start of a refresh. |
| `ChangesetRefresh.SessionEntry.ScheduleRefresh` | src/pi/changeset-service.ts:514-524 | A report arms the timer unless loop or timer is there. |
| `ChangesetRefresh.SessionEntry.Cleanup` | src/pi/changeset-service.ts:389-395 | A request that came after the loop's last check is consumed. |
| `ChangesetRefresh.SessionEntry.SubscriberChanged` | src/pi/changeset-service.ts:288-309 | Interest requests, its loss withdraws. |
| `ChangesetRefresh.SessionEntry.Suspend` | src/pi/changeset-service.ts:209-223 | Suspension withdraws the request and the timer. |
| `ChangesetRefresh.SessionEntry.Resume` | src/pi/changeset-service.ts:225-231 | Resumption requests again if there is interest. |
| `GitChangesSpec.ParseUndoesPrintIff` | src/pi/git-changes.ts:187-281 | Parsing undoes printing, in order, with each record's paths and blob ids as its status and modes say and with its counts, exactly when regular records naming the same result path carry the counts of the last record naming it; it never fails on printed input. |
| `GitChangesSpec.ParseUndoesPrint` | src/pi/git-changes.ts:187-281 | In particular for every list of records with distinct result paths, paths with tabs and leading colons included. |
| `GitChangesSpec.RawComesBack` | src/pi/git-changes.ts:199-247 | One raw record, renames included, comes back as its change, or is passed over when its modes are irregular. |
| `GitChangesSpec.ChangeIsMeaning` | src/pi/git-changes.ts:199-247 | What the parser makes of a record's fields is what the record means: nothing unless both sides are regular or absent; otherwise the path of each side that exists and the blob of each regular side with a known id. |
| `GitChangesSpec.NumstatComesBack` | src/pi/git-changes.ts:249-273 | One numstat record comes back under its result path. |
| `GitChangesSpec.NumberOfCount` | src/pi/git-changes.ts:179-185 | Counts up to the safe-integer bound come back from their digits, and a dash as no count. |
| `GitChangesSpec.LastCountsKept` | src/pi/git-changes.ts:265-273 | The counts kept for a path are those of the last record naming it. |
| `GitChangesSpec.CountsJoined` | src/pi/git-changes.ts:276-280 | Joining counts gives every change its own exactly when the kept counts are its own. |
| `GitChanges.ParseGitChanges` | src/pi/git-changes.ts:188-281 | The parser returns the specified changes or the specified failure. |
| `GitChanges.CollectRecords` | src/pi/git-changes.ts:196-274 | The loop over segments. |
| `GitChanges.JoinCounts` | src/pi/git-changes.ts:276-280 | The loop over changes. |
| `SessionCatalogueSpec.PagingIsExact` | src/pi/session-catalogue.ts:252-320 | While entries are only deleted between pages, following cursors visits nothing twice, ends within one request more than there are entries, and has then visited every surviving entry, the cursor's own deletion included. |
| `SessionCatalogueSpec.UnchangedCatalogueIsReassembled` | src/pi/session-catalogue.ts:252-320 | Over an unchanging catalogue the pages put together are the catalogue. |
| `SessionCatalogueSpec.CatalogueIsSorted` | src/pi/session-catalogue.ts:258-279 | What is listed is sorted, with one entry per path: the live session's when there is one and otherwise the file's, of several the last, and nothing else. |
| `SessionCatalogueSpec.ListedPagingIsExact` | src/pi/session-catalogue.ts:252-320 | Paging is exact over what each request lists from its own files and live sessions, as long as nothing is listed later that was not listed before. |
| `SessionCatalogueSpec.PathIsListedIff` | src/pi/session-catalogue.ts:258-279 | A path is listed exactly when a file or a live session has it. |
| `SessionCatalogueSpec.StartSplits` | src/pi/session-catalogue.ts:281-298 | A page starts just after the cursor's place, whether or not its entry is still there. |
| `SessionCatalogueSpec.PageIs` | src/pi/session-catalogue.ts:300-319 | A page is a stretch from just after its cursor, and returns a cursor exactly when entries follow. |
| `SessionCatalogueSpec.FollowingEnds` | src/pi/session-catalogue.ts:314-319 | Every page but the last visits something new. |
| `SessionCatalogueSpec.ReturnedIsVisited` | src/pi/session-catalogue.ts:300-312 | What is returned is what is visited, less entries without a summary. |
| `SessionCatalogue.List` | src/pi/session-catalogue.ts:252-320 | One page of what is on disk and live, or the refusal of a cursor. |
| `SessionCatalogue.Collect` | src/pi/session-catalogue.ts:258-276 | Files first, then live state over them. |
| `SessionCatalogue.FindStart` | src/pi/session-catalogue.ts:281-298 | The searches that place the page. |
| `TerminalOutputSpec.OutputIsConserved` | src/host/terminal-service.ts:279-299 | On every run published and then pending output is all that was received since the last clear, and the retained content is the last million code units of what was published since. |
| `TerminalOutputSpec.EndPublishesEverything` | src/host/terminal-service.ts:307-340 | Exit and disposal publish everything received; a shutdown drops what was pending. |
| `TerminalOutputSpec.TrimKeepsLast` | src/core/state-store.ts:47-73 | Trimming keeps exactly the last code units up to the bound. |
| `TerminalOutputSpec.TrimLeavesShort` | src/core/state-store.ts:52-72 | Content within the bound is left part for part. |
| `TerminalOutputSpec.StepKeeps` | src/host/terminal-service.ts:279-305 | Every step keeps conservation, and whatever is pending has a timer and is less than a full batch. |
| `TerminalService.ReduceTerminal` | src/core/state-store.ts:47-73 | The loop from the newest part backwards returns the specified content. |
| `TerminalService.TerminalEntry.OnData` | src/host/terminal-service.ts:279-290 | Data is batched, and flushed at the threshold. |
| `TerminalService.TerminalEntry.FlushPendingData` | src/host/terminal-service.ts:292-299 | What is pending is published once. |
| `TerminalService.TerminalEntry.DiscardPendingData` | src/host/terminal-service.ts:301-305 | What is pending is dropped. |
| `TerminalService.TerminalEntry.OnCleared` | src/host/terminal-service.ts:271-275 | A clear forgets retained and pending output. |
| `TerminalService.TerminalEntry.OnExit` | src/host/terminal-service.ts:307-318 | An exit flushes first, and happens once. |
| `TerminalService.TerminalEntry.Remove` | src/host/terminal-service.ts:320-340 | Removal flushes or discards. |
| `UriDialects.InboundUndoesOutboundIff` | src/core/client-workarounds.ts:310-342 | For every URI: inbound undoes outbound exactly when a chat's id is one segment and a session is in its canonical form. |
| `UriDialects.HostUrisRoundTrip` | src/core/client-workarounds.ts:323-342 | The session and chat URIs the host mints come back as they were. |
| `UriDialects.ChatRoundTripIff` | src/core/client-workarounds.ts:317-342 | A chat comes back exactly when its id is a single segment. |
| `SessionDisposalGuardSpec.LetsThroughIff` | src/core/client-workarounds.ts:102-195 | With distinct outstanding request ids and one outstanding creation per session, on every run the disposals let through are exactly those of drafts created on this connection, not imported, answered with success, undisturbed since, taken away by no successful disposal, and with every disposal since let through followed by a failed one. |
| `SessionDisposalGuardSpec.OnlyDraftsAreDisposed` | src/core/client-workarounds.ts:102-195 | In particular a disposal is let through only for a session created on this connection, not imported, answered with success, and untouched, unremoved and not created anew since. |
| `SessionDisposalGuardSpec.GuardIsSafeIff` | src/core/client-workarounds.ts:102-195 | With any number of creations outstanding, only drafts are let through at every point of a run exactly when no success ever answers a creation that a newer creation of the session, still tracked as being created, has overtaken. |
| `SessionDisposalGuardSpec.TwoCreationsDefeatTheGuard` | src/core/client-workarounds.ts:127-131 | A run that fails the condition: two outstanding creations answered oldest first let the disposal of an imported session through. |
| `SessionDisposalGuardSpec.StepKeeps` | src/core/client-workarounds.ts:110-195 | Every message keeps what the tracked states mean in terms of what was seen. |
| `SessionDisposalGuard.VscodeSessionDisposalGuard.MarkMaterialized` | src/core/client-workarounds.ts:189-194 | A materialising action protects its session. |
| `SessionDisposalGuard.VscodeSessionDisposalGuard.OnCreateSession` | src/core/client-workarounds.ts:123-131 | A creation is tracked as pending. |
| `SessionDisposalGuard.VscodeSessionDisposalGuard.OnDisposeSession` | src/core/client-workarounds.ts:132-139 | A disposal is refused unless the session is a known draft. |
| `SessionDisposalGuard.VscodeSessionDisposalGuard.ApplyResponse` | src/core/client-workarounds.ts:167-187 | An answer settles the session its request named. |

## Left out

- Transport, JSON-RPC framing, parameter validation of requests, CLI, settings files and tunnels: plumbing around the modelled core.
- The pi SDK, model discovery, project trust, images, webhooks, `git`, PTYs, native watchers and files: they settle, fail or return as the environment decides.
- Display strings, activity wording, timestamps, tool inputs, tool result content and MIME types: little proof content; activities are kept only as far as their changes matter.
- Steering messages and truncation in the driver: `#steer`, `#reconcileSteering` and `truncate` change neither the run nor the queue. The truncation itself is covered by `TurnPaging`, `LiveTruncation` and `ClientActions`.
- TurnPaging.TruncationEndToEnd: for turns the branch knows by the same id; live turns are in `LiveTruncation`.
- LiveTruncation.LiveTruncationCommutes: one branch, grown by runs whose prompts settle; anchors of cancelled turns, and those recorded before an earlier truncation, are not followed.
- Direct state replacement of a chat (`#renameChat`) changes state outside the action log, so the convergence results do not cover it.
- ChatDriverSpec.AtMostOnePrompt: assumes, as the host's validator ensures, that a client start is accepted only with no run active, that the backend does not call back into the driver synchronously, and that one quiescence ends before the next begins.
- ChatDriverSpec.NothingStranded: assumes that no turn is admitted between completed quiescence and resumption, which the registry's validator ensures; that a host-started turn never coincides with the protocol's active turn during lazy backend attachment is not claimed.
- SerialLanes.SerialExecution: an operation that re-enters its own id in its synchronous prefix, which would run at once inside itself, is excluded.
- ClientActionsSpec.OutcomesOnEveryRun: what validators, effects and routers find and do is fixed per action in advance; that they read the state left by earlier actions is not modelled.
- RegistryRoutersSpec.OneEnvelopeOnEveryRun: what the registry's routers find, and which awaits fail, is any choice of the environment, fixed per action; that the action's own apply fails part way is not modelled, nor the summary notification after a cold update.
- HostSpec.SnapshotThenFollow: observers that dispatch further actions from inside a commit appear as later commits, which is the order in which they are numbered and sent.
- WatchPoolSpec.ChangesReachExactly: a subscriber is taken to have its change listener from the moment its acquire returns; error reports to subscribers and their pending copies are not modelled.
- SessionLifecycleSpec.DisposalOutcome: identities with canonical URIs only; a session opened under a provider-alias URI and the fallback lookups for it are not modelled; whether a durable file exists, and whether deleting it succeeds, is the environment's choice at each step.
- ChangesetRefreshSpec.ChangeIsFollowedByRefresh: what a refresh publishes, the probe and the watcher's own lifetime are the environment's; a refresh may still end early when inspection fails.
- GitChangesSpec.ParseUndoesPrint: the stream is already decoded; the refusal of bytes that are not UTF-8 and the resolution of paths to files are not modelled.
- SessionCatalogueSpec.PagingIsExact: entries touched or added between pages are not covered, only deletions; the cursor's encoding is an opaque value that is either recognised or not.
- TerminalOutputSpec.OutputIsConserved: the library's appending reducer is any function that puts new text at the end.
- Classes hold their collaborators' state as sequences and maps of values; aliasing between shared JavaScript objects is not modelled.
