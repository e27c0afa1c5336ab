# Verified models of the session core

This project models the parts of the system where a fast, streamed or concurrent form has to agree with a simple one, and
proves that it does. Everything is Dafny; `dafny verify dfyconfig.toml` checks the whole project.

**Turn streaming.** The ACP bridge turns a live `session/update` stream into item notifications and a stored item list
(`TurnStream`), and the same stream can be translated in one go (`SessionTranslator`). `StreamingCheck` is the
repository's own lifecycle check, proved to accept exactly the well-bracketed notification logs; `TurnConformance` proves
that every session of the live emitter passes it. `TurnLifecycle` proves order, closure and last-completion properties
of one turn, `StreamAgreement` that emitter and translator agree and on which events they do not, and `Replay` that
cutting a replay into turns loses nothing exactly when no tool update reaches back over a cut. Where a condition is
stated over a machine's state, a further lemma gives it over the events alone.

**Chat view.** `Projection` folds notifications into a keyed list; `LiveView` proves when the list shown live is the list
shown after a refresh, `SessionView` that over any number of turns both list the same rows, and when a later turn takes over
an earlier one's; `ChatReconciliation` proves that editing the child list in place equals rebuilding it.

**Wire codecs.** `WebSocketFrames` proves the client's masked frames readable by a reader written from RFC 6455;
`WebSocketReceive` proves the buffered receive loop independent of how the bytes are chunked and complete for fragmented
messages with interleaved control frames. `Utf8Tail` proves the cut of terminal output.

**Ownership protocols.** `ActiveTurns` (turn starts, interrupts, steers and event pumps racing for a turn), `AmpTranslator` (every
tool opened is closed), `AcpRequests` (callers sharing one pipe and one reader) and `ConnectionPool` (dials, timers, backoff)
are state machines whose steps are the stretches between two awaits or inside one lock; the theorems hold over every
run, that is every interleaving.

**Workspace.** `TabLifecycle`, `TabObjects` and `WorkspaceTabs` model the tab registry, revision-guarded snapshots and
unread accounting.

## How to read it

An object whose methods update fields is a class whose methods are proved to compute a function of the old state
(`TurnStreamEmitter.Ingest` computes `Ingested`, `Pool.OnClose` computes `PeerClosed`); the theorems are lemmas about these
functions and about runs of them. Where a wished-for property fails, a lemma gives the input and another lemma gives the
exact condition under which it holds.

Places where the code differs from what its comments or its design promise, each with its lemma:

- `send_request_streaming` says no notification after the response reaches the callback. One that is dispatched between
  the response and the removal of the subscriber does: `AcpRequests.NotificationAfterTheResponse`,
  `AcpRequests.SubscriberHearsItsWindow`.
- The reader wakes outstanding requests "so callers don't hang forever". A request that registers after that waits for
  ever unless its write fails, and every later request behind it: `AcpRequests.RegisteredWaitersAreReleased`,
  `AcpRequests.RequestAfterTheEndBlocksThePipe`.
- Refreshed reasoning text is empty, because `summary: []` is truthy: `LiveView.LiveEqualsRefreshed`,
  `LiveView.ThoughtIsLostOnRefresh`.
- Text ids restart in every turn, so a second turn's first answer takes over the first turn's row:
  `SessionView.SecondAnswerTakesTheRow`, `SessionView.SessionRowsAgree`.
- Replayed turn ids can repeat: `Replay.TurnIdsDistinct`, `Replay.RepeatedTurnId`.
- A call announced in one replayed turn and updated in the next is stored twice: `Replay.CrossingUpdateStoresTwice`,
  `Replay.RebuiltMeansOnePass`.
- An idle snapshot whose status is a bare string ends a live turn: `TabLifecycle.IdleSnapshotEndsATurn`.
- "Delayed/duplicate terminal events cannot finish a newer turn or double-count" (web/workspace-tabs.js:17). A late terminal
  of a turn that broke off ends a local turn begun since, a terminal without id ends any, and one without id after one with
  an id counts a second unread: `TabLifecycle.LateTerminalEndsNewerTurn`, `TabLifecycle.NamelessTerminalEndsNamedTurn`,
  `TabLifecycle.SecondTerminal`; exactly when: `TabLifecycle.TerminalEndsTheNewestTurn`.
- A tab closed while its thread is being created leaves `active` naming no registered tab:
  `WorkspaceTabs.ClosedTabMaterializes`, `WorkspaceTabs.MaterializeKeepsExactlyWhen`.
- A dial whose `initialize` fails leaves its transport open, the retry replaces it, and `dropConnection` then closes only
  the new one: `ConnectionPool.FailedInitializeLeaks`, `ConnectionPool.OrphansComeFromReplacement`.
- An interrupt that guessed a turn id before it was published would complete the turn before it started:
  `ActiveTurns.GuessedInterruptCompletesTooEarly`.
- A steer reads the turn's entry before it writes and does not look again, so its item can follow the turn's ordinary
  completion: `ActiveTurns.SteerSpeaksAfterTheTurn`, `ActiveTurns.LateItemsExactly`.

## Model

| member | source | states |
|---|---|---|
| AcpItems.IdTextInjective | daemon/crates/acp-bridge/src/translator.rs:375-380 | the five id prefixes never collide: equal wire ids come from equal identifiers |
| AcpItems.RenderedCall | daemon/crates/acp-bridge/src/translator.rs:526-664 | a rendered call keeps its id, is never a text item, and its status is terminal exactly when the call's is |
| AcpItems.OutputOnlyGrows | daemon/crates/acp-bridge/src/translator.rs:137-164 | merging an update only extends a command's aggregated output |
| StreamingCheck.Check | daemon/crates/bridge-conformance/src/streaming.rs:28-73 | the loop reports the walk's findings and then exactly one finding for every item left open, in any map order |
| StreamingCheck.AcceptedMeansWellBracketed | daemon/crates/bridge-conformance/src/streaming.rs:28-246 | nothing is reported if and only if every delta follows the latest start of its id and kind, every completion follows a start and repeats the joined deltas, and every start is completed |
| StreamingCheck.FrameReported | daemon/crates/bridge-conformance/src/streaming.rs:99-246 | whatever was reported before, one frame adds a finding exactly when it is out of order with respect to all frames before it |
| TurnStream.TurnStreamEmitter.Ingest | daemon/crates/acp-bridge/src/streaming.rs:118-168 | the object's fields and the sent log after one event are the specification's step |
| TurnStream.TurnStreamEmitter.Finish | daemon/crates/acp-bridge/src/streaming.rs:172-188 | closing the open run and draining calls in any order is the specification's finish |
| TurnStream.TurnStreamEmitter.HandleText | daemon/crates/acp-bridge/src/streaming.rs:211-275 | opens, extends or switches the text run as specified |
| TurnStream.TurnStreamEmitter.HandleToolCallUpdate | daemon/crates/acp-bridge/src/streaming.rs:320-349 | an update merges in place, announces an unknown call first and completes on a terminal status |
| TurnLifecycle.RunConsistent | daemon/crates/acp-bridge/src/streaming.rs:118-370 | in every reachable state the index finds the last item of each id, every call's item is its current rendering, and stored ids come from closed runs and announced calls |
| TurnLifecycle.RunStartsInOrder | daemon/crates/acp-bridge/src/streaming.rs:118-370 | in every reachable state the stored ids followed by the open run's id are the started ids in the order sent |
| TurnLifecycle.FinishChangesNoItem | daemon/crates/acp-bridge/src/streaming.rs:172-188 | whatever the drain order, finish rewrites no item and sends only the owed completions |
| TurnLifecycle.EveryStartCompleted | daemon/crates/acp-bridge/src/streaming.rs:172-188 | after finish every start is followed by a completion for its id |
| TurnLifecycle.StoredItemIsLastCompleted | daemon/crates/acp-bridge/src/streaming.rs:172-349 | the item stored last under an id is its last completed payload, except exactly for a call that left its terminal status again |
| TurnLifecycle.EveryStoredItemIsLastCompleted | daemon/crates/acp-bridge/src/streaming.rs:172-370 | with single announcements and no reopened call every stored item is its last completed payload |
| TurnLifecycle.StoredIdsDistinct | daemon/crates/acp-bridge/src/streaming.rs:301-318 | stored ids are distinct if and only if no event announces a known call again |
| TurnLifecycle.AnnouncesAgainMeans | daemon/crates/acp-bridge/src/streaming.rs:301-349 | over the events alone: an announcement repeats if and only if an earlier announcement or update names its call |
| TurnConformance.EverySessionAccepted | daemon/crates/acp-bridge/src/streaming.rs:118-370 | for any number of turns with arbitrary events the concatenated log passes the lifecycle check and is well bracketed |
| SessionTranslator.SessionUpdateTranslator.Ingest | daemon/crates/acp-bridge/src/translator.rs:185-257 | the object's fields after one event are the specification's step |
| SessionTranslator.SessionUpdateTranslator.Finish | daemon/crates/acp-bridge/src/translator.rs:259-266 | the result is the flushed items, the plan and the commands |
| SessionTranslator.RunIndexed | daemon/crates/acp-bridge/src/translator.rs:185-380 | in every reachable state the index finds the last item of each id, every item is indexed, every call's item is its current rendering, and nothing is buffered outside a run |
| SessionTranslator.TranslatesToSomething | daemon/crates/acp-bridge/src/translator.rs:185-380 | a stream leaves an item if and only if one of its events brings words, an image or a call with an id |
| StreamAgreement.EmitterAgreesWithTranslator | daemon/crates/acp-bridge/src/translator.rs:185-380 | on all streams of plain events, orphan updates and repeated announcements included, both machines finish with the same items, ids, order, plan and commands |
| StreamAgreement.NoWiderClass | daemon/crates/acp-bridge/src/streaming.rs:211-275 | for every event outside that class there is a stream of it and plain events on which the stored items differ |
| StreamAgreement.EmptyWordsSplit | daemon/crates/acp-bridge/src/translator.rs:268-287 | an empty chunk of the other kind splits a run in the translator and not in the emitter |
| Replay.BuildTurnsFromReplay | daemon/crates/acp-bridge/src/handlers.rs:805-907 | the loops over the frame list build exactly the preface, the windows and the last segment, skipping empty ones |
| Replay.TurnIdsDistinct | daemon/crates/acp-bridge/src/handlers.rs:844-906 | turn ids repeat if and only if the last segment is stored and the number of turns before it is the position of a stored earlier window |
| Replay.StoredMeans | daemon/crates/acp-bridge/src/handlers.rs:844-906 | the parts of that condition over the events and cuts alone: what is stored between two cuts, and how many turns come before the last segment |
| Replay.RepeatedTurnId | daemon/crates/acp-bridge/src/handlers.rs:844-906 | three user chunks, the first empty, give two turns one id |
| Replay.StoredWindowsHaveDistinctIds | daemon/crates/acp-bridge/src/handlers.rs:844-906 | turn ids are distinct when every user segment but the last is stored |
| Replay.RebuiltIsSplit | daemon/crates/acp-bridge/src/handlers.rs:805-907 | the turns' items, flattened, are those of translating piece by piece |
| Replay.EachCrossingStoresOneMore | daemon/crates/acp-bridge/src/handlers.rs:805-907 | translating piece by piece stores one item more for each update that reaches back over a cut, and no other difference in number |
| Replay.RebuiltMeansOnePass | daemon/crates/acp-bridge/src/handlers.rs:805-907 | up to text-id counters the flattened turns equal the one-pass translation if and only if no update reaches back over a cut |
| Replay.CrossesCutMeans | daemon/crates/acp-bridge/src/handlers.rs:805-907 | over the events alone: an update reaches back over a cut if and only if earlier events name its call and a user chunk follows each of them |
| Replay.CrossingUpdateStoresTwice | daemon/crates/acp-bridge/src/handlers.rs:805-907 | a call announced, a user chunk and an update of the call: two items in one pass, three in the turns |
| Projection.ThreadProjection.ApplyItem | web/projection.js:53-72 | the map and the order after one item are the specification's, keyed registry included |
| Projection.ThreadProjection.ApplyNotification | web/projection.js:83-109 | the same for one notification, with the returned flag |
| Projection.ThreadProjection.SeedFromThread | web/projection.js:74-81 | the same for seeding from a thread |
| Projection.NotificationKeepsKeyed | web/projection.js:83-109 | order and map stay one-to-one under every notification |
| Projection.RenderListIsOrder | web/projection.js:123-125 | the render list is the messages in order, one per id, nothing filtered away |
| Projection.ServerCopyReplacesLocal | web/projection.js:22-29 | the server's copy of a user message removes every optimistic copy of it and touches nothing else |
| LiveView.LiveEqualsRefreshed | web/projection.js:30-109 | for every emitter run with single announcements and no reopened call, live list and refreshed list show the same ids, roles, kinds and texts in order if and only if no reasoning item was stored |
| LiveView.LiveShowsItems | web/projection.js:53-109 | the live list shows exactly the stored items, a reasoning item with its own stored text |
| LiveView.RefreshedShowsItems | web/projection.js:30-81 | the seeded list shows exactly the stored items as their faces |
| LiveView.ThoughtIsLostOnRefresh | web/projection.js:30-109 | a turn of one thought is shown with its text live and without after a refresh |
| SessionView.SessionRowsAgree | web/projection.js:53-125 | over any number of turns with arbitrary events, live list and refreshed list show the same ids in the same order, those stored, each where it first occurred; there is one row per stored item if and only if no id is stored twice |
| SessionView.SessionEqualsReloaded | web/projection.js:30-125 | over any number of turns that share no stored id and leave no call reopened, streamed and refreshed list show the same ids, roles, kinds and texts if and only if no reasoning item was stored |
| SessionView.SecondAnswerTakesTheRow | daemon/crates/acp-bridge/src/streaming.rs:211-230 | two turns that answer with one chunk each share one row, with the second text after a refresh, and live with both texts if they collapse into the second |
| ChatReconciliation.PlanChatReconciliation | web/chat-controller.js:388-398 | the plan is one placement per message and then the removal of exactly the unclaimed keys |
| ChatReconciliation.ChatLog.Render | web/chat-controller.js:285-306 | editing the child list in place yields the rendered view, which for distinct ids is the settled one |
| ChatReconciliation.RenderPlacesMessages | web/chat-controller.js:285-306 | from any consistent registry and child list: exactly the messages' rows in message order and then the chrome, each of its kind, reused exactly when id and kind match, and a consistent registry again |
| ChatReconciliation.RenderEqualsRebuild | web/chat-controller.js:285-306 | the edited list shows, row by row, what building it from nothing shows |
| ChatReconciliation.ProjectionIdsDistinct | web/projection.js:123-125 | the projection's render list always has the distinct ids the theorem asks for |
| WebSocketFrames.SendFrame | web/transport.js:305-319 | the array filled byte by byte is header, mask and masked payload |
| WebSocketFrames.SentFrameIsRead | web/transport.js:305-319 | a reader after RFC 6455 sections 5.2 and 5.3 recovers FIN, opcode, payload and the untouched rest of the stream, and the length is in minimal form |
| WebSocketFrames.XorInvolution | web/transport.js:317-317 | masking twice with the same key byte is the identity |
| WebSocketReceive.BufferedIo.Need | web/transport.js:187-198 | succeeds if and only if the stream has that many bytes left, and changes no byte of it |
| WebSocketReceive.BufferedIo.Take | web/transport.js:200-204 | removes exactly the first bytes of the stream |
| WebSocketReceive.NextFrame | web/transport.js:328-336 | cuts the frame the whole remaining stream begins with, however it is chunked |
| WebSocketReceive.ReceiveLoop | web/transport.js:324-347 | what is delivered and answered is a function of the bytes alone |
| WebSocketReceive.WireIsCut | web/transport.js:328-336 | the loop cuts exactly the frame that was written, in any of the three length forms, below 2^53 |
| WebSocketReceive.LoopDeliversMessages | web/transport.js:324-347 | for all frames and all chunkings the lines are the non-empty messages before the first close in order and the pongs echo the pings in order |
| WebSocketReceive.FragmentsRegroup | web/transport.js:340-344 | every sequence of data frames is the fragments of some messages and at most one unfinished one, so the theorem covers all of them |
| Utf8Tail.BoundaryIsValidSuffix | daemon/crates/acp-bridge/src/acp_client.rs:730-733 | in a valid string the one-byte boundary test holds exactly where the rest is valid UTF-8 |
| Utf8Tail.TruncateUtf8Tail | daemon/crates/acp-bridge/src/acp_client.rs:722-736 | the loop ends; the result is the longest valid suffix within the limit, at most three bytes short of it, and the flag says whether anything was dropped |
| ActiveTurns.ActiveTurnTable.Reserve | daemon/crates/amp-bridge/src/bridge.rs:1113-1134 | succeeds exactly on a free thread and changes only its entry |
| ActiveTurns.ActiveTurnTable.Attach | daemon/crates/amp-bridge/src/bridge.rs:1136-1151 | succeeds exactly when the turn still holds its thread |
| ActiveTurns.ActiveTurnTable.RemoveIfMatches | daemon/crates/amp-bridge/src/bridge.rs:1153-1167 | removes exactly the matching entry; entries of other turns stay |
| ActiveTurns.ActiveTurnTable.TakeForInterrupt | daemon/crates/amp-bridge/src/bridge.rs:1025-1048 | the four answers of an interrupt; only a taken turn leaves the table |
| ActiveTurns.AtMostOneCompletion | daemon/crates/amp-bridge/src/bridge.rs:861-1298 | in every interleaving, guessed interrupts included, a turn gets at most one `TurnStarted` and at most one `TurnCompleted` |
| ActiveTurns.OnlyItsOwnStepTakesATurn | daemon/crates/amp-bridge/src/bridge.rs:1153-1167 | an entry leaves the table only by a step of its own turn, so an old pump never removes a newer turn |
| ActiveTurns.CompletionTookItsTurn | daemon/crates/amp-bridge/src/bridge.rs:1020-1298 | every completion of a run comes from an earlier step that took the turn: an interrupt that found it attached, or its pump ending while it held it, and then with the status of that end |
| ActiveTurns.RequestsReadTheTable | daemon/crates/amp-bridge/src/bridge.rs:979-1048 | an interrupt that owes its completion took the turn, and a steer that owes its item read it, at an earlier step of the run while it was attached |
| ActiveTurns.AttachCannotFail | daemon/crates/amp-bridge/src/bridge.rs:900-912 | when interrupts and steers name published turns, the reservation never disappears before the launch |
| ActiveTurns.OneLaunchPerThread | daemon/crates/amp-bridge/src/bridge.rs:861-912 | at most one turn of a thread is between its reservation and its `TurnStarted` |
| ActiveTurns.QuiescenceIsBalanced | daemon/crates/amp-bridge/src/bridge.rs:861-1298 | at rest every turn that started completed exactly once, none completed unstarted, and every thread is free |
| ActiveTurns.TurnStartedComesFirst | daemon/crates/amp-bridge/src/bridge.rs:933-978 | everything said about a turn follows its one `TurnStarted` |
| ActiveTurns.OnlyInterruptedOrSteeredTurnsSpeakLate | daemon/crates/amp-bridge/src/bridge.rs:979-1298 | in every run an item after a turn's completion follows an interrupt's completion or is a steer's |
| ActiveTurns.LateItemsExactly | daemon/crates/amp-bridge/src/bridge.rs:933-1298 | a completed turn gets a further item in some continuation if and only if its start call is past the attach, its pump still runs or a steer that read the entry has yet to write; without such a steer it was completed by an interrupt only |
| ActiveTurns.SteerSpeaksAfterTheTurn | daemon/crates/amp-bridge/src/bridge.rs:979-1018 | a run with published ids in which a steer's item follows the turn's ordinary completion |
| ActiveTurns.GuessedInterruptCompletesTooEarly | daemon/crates/amp-bridge/src/bridge.rs:1020-1090 | a run in which an unpublished id is interrupted completes a turn before it starts |
| AmpTranslator.AmpTurnTranslator.Translate | daemon/crates/amp-bridge/src/bridge.rs:1333-1340 | fields, notifications, completed items and flags of one envelope are the specification's, the drain in any map order |
| AmpTranslator.PendingToolsAreTheOpenOnes | daemon/crates/amp-bridge/src/bridge.rs:1342-1612 | over any envelopes a tool is pending if and only if the log starts it and does not start or complete it since |
| AmpTranslator.ItemsAreTheCompletions | daemon/crates/amp-bridge/src/bridge.rs:1342-1612 | the stored items are the initial ones followed by every completed item in the order sent |
| AmpTranslator.CompletionsRepeatTheirStart | daemon/crates/amp-bridge/src/bridge.rs:1512-1612 | the completion of an open tool repeats the name, arguments and parent of the start it closes |
| AmpTranslator.EachResultCompletesItsTool | daemon/crates/amp-bridge/src/bridge.rs:1512-1573 | an envelope of tool results sends one completion per result, in order, under its tool's id, with its output, failed exactly when it is an error |
| AmpTranslator.DrainedToolsFail | daemon/crates/amp-bridge/src/bridge.rs:1588-1610 | whatever the turn's result closes itself is completed as failed |
| AmpTranslator.ResultClosesEveryTool | daemon/crates/amp-bridge/src/bridge.rs:1575-1612 | after a result nothing is pending and no tool is open in the log |
| AmpTranslator.EveryTurnAccepted | daemon/crates/amp-bridge/src/bridge.rs:1342-1612 | any turn's log passes the lifecycle check, even with repeated ids |
| AcpRequests.Inner.DispatchResponse | daemon/crates/acp-bridge/src/acp_client.rs:83-96 | wakes exactly the waiter of the id and forgets it, as the state machine's response step does to the shared fields |
| AcpRequests.Inner.Drain | daemon/crates/acp-bridge/src/acp_client.rs:382-392 | wakes every waiter, each once per id, and leaves none, as the machine's stop step does |
| AcpRequests.OneRequestOutstanding | daemon/crates/acp-bridge/src/acp_client.rs:222-307 | in every interleaving at most one id is outstanding and it is the lock holder's |
| AcpRequests.ResponseIsOwn | daemon/crates/acp-bridge/src/acp_client.rs:82-107 | a response a caller got bears its own id, which no other numbered call has |
| AcpRequests.NothingLeftBehind | daemon/crates/acp-bridge/src/acp_client.rs:271-291 | while nobody holds the lock there is no waiter and no subscriber, on failed writes too |
| AcpRequests.OneListener | daemon/crates/acp-bridge/src/acp_client.rs:258-291 | at no point of any run's history have two calls a subscriber installed |
| AcpRequests.SubscriberHearsItsWindow | daemon/crates/acp-bridge/src/acp_client.rs:193-307 | a subscriber receives in order exactly what was forwarded from its installation to its removal; no note reaches two calls, so none a later request; and it hears nothing late if and only if no note is forwarded between its response and its removal |
| AcpRequests.NotificationAfterTheResponse | daemon/crates/acp-bridge/src/acp_client.rs:193-197 | a run in which a caller writes its request, is answered, and then still gets a notification |
| AcpRequests.BufferHoldsTheRest | daemon/crates/acp-bridge/src/acp_client.rs:98-107 | the fallback buffer and the note in flight are what was forwarded since the last reset, after at most one straggler |
| AcpRequests.RegisteredWaitersAreReleased | daemon/crates/acp-bridge/src/acp_client.rs:343-392 | whatever follows the reader's end, a waiting caller is released if and only if it had registered before |
| AcpRequests.RequestAfterTheEndBlocksThePipe | daemon/crates/acp-bridge/src/acp_client.rs:228-307 | a request begun after the reader's end waits for ever and keeps the lock, whatever follows |
| ConnectionPool.Pool.DialDevice | web/connections.js:64-77 | a new attempt, a fresh soft timer in place of the old one, only for a registered record of a live pool |
| ConnectionPool.Pool.ConnectDevice | web/connections.js:35-62 | makes or reuses the record, clears its retry timer and dials |
| ConnectionPool.Pool.ScheduleReconnect | web/connections.js:129-138 | arms one retry and doubles the backoff up to its cap, unless one is armed |
| ConnectionPool.Pool.ReconnectDevice | web/connections.js:140-156 | gives up attempt, timers and transport before the new dial |
| ConnectionPool.Pool.DropConnection | web/connections.js:164-179 | gives up everything the record owns and forgets it |
| ConnectionPool.Pool.DestroyAll | web/connections.js:181-185 | drops every registered device, in any key order |
| ConnectionPool.Pool.OnTransport | web/connections.js:94-98 | a stale transport is closed, a current one stored with its rpc |
| ConnectionPool.Pool.OnFailure | web/connections.js:109-126 | the three outcomes of a failed dial |
| ConnectionPool.Pool.OnInitialized | web/connections.js:98-104 | a current dial becomes connected, disarms its soft timer and resets the backoff |
| ConnectionPool.Pool.OnClose | web/connections.js:88-92 | a current dial's close marks the record offline and schedules a retry |
| ConnectionPool.Pool.OnTimer | web/connections.js:70-74 | what a soft and a retry timer do when they fire |
| ConnectionPool.RunSound | web/connections.js:35-185 | in every state of every run timers, records, dials and table fit together, backoff stays between 1 s and 30 s |
| ConnectionPool.OneTimerOfAKind | web/connections.js:69-138 | a record has at most one retry and at most one soft timer armed |
| ConnectionPool.TimersDieWithTheirRecord | web/connections.js:164-185 | no timer outlives its record's drop and none at all outlives destroy |
| ConnectionPool.RememberedRetryIsArmed | web/connections.js:129-138 | a record remembers a retry timer if and only if one is armed, so the early return never blocks a reconnect |
| ConnectionPool.StaleDialStaysInert | web/connections.js:88-126 | a dial that was stale once never again changes a record or a timer, and a transport it still delivers is not kept open |
| ConnectionPool.OneCurrentDial | web/connections.js:64-66 | no record ever has two current dials |
| ConnectionPool.NoRecordIsStranded | web/connections.js:64-138 | in no run is a connecting or offline record left without a dial under way or a retry armed |
| ConnectionPool.OrphansComeFromReplacement | web/connections.js:94-97 | a step orphans a transport if and only if it replaces an open one, and only the peer ends an orphan |
| ConnectionPool.NoTransportLeaks | web/connections.js:94-185 | in runs without such replacement every open transport is held by a registered record, so drop and destroy leave none open |
| ConnectionPool.FailedInitializeLeaks | web/connections.js:98-126 | a run with a failed `initialize` after which a dropped device keeps an open transport |
| TabObjects.TabObject.ApplyStatus | web/workspace-tabs.js:129-171 | the fields assigned one by one are the specification's status step |
| TabObjects.TabObject.FinishTurn | web/workspace-tabs.js:173-200 | the same for a terminal |
| TabObjects.TabObject.Notify | web/workspace-tabs.js:235-282 | the same for one notification, with the revision it hands out; without a new revision the four facts stay, a repeated failure excepted, and unread moves only as a turn's flag allows |
| TabLifecycle.IdleSnapshotEndsATurn | web/workspace-tabs.js:407-434 | an idle snapshot with a fresh baseline ends a live turn if and only if its status is a bare string |
| TabLifecycle.ChangedFactsAreTouched | web/workspace-tabs.js:235-282 | a notification that changes turn, waiting, error or turn id gives the tab a new revision, a repeated failure excepted, which never does |
| TabLifecycle.TerminalEndsTheNewestTurn | web/workspace-tabs.js:173-200 | from any state, after any start and any messages that neither start nor end a turn: a terminal ends the newest turn if and only if no known id says it is another's and its id is not the last one recorded as ended |
| TabLifecycle.LateTerminalIsIgnored | web/workspace-tabs.js:173-200 | an older turn's late terminal spares the newest turn if and only if that one has its id or the older one's end was the last recorded |
| TabLifecycle.LateTerminalEndsNewerTurn | web/workspace-tabs.js:173-200 | a run in which the late terminal of a turn that broke off ends the local turn begun since and counts it unread |
| TabLifecycle.NamelessTerminalEndsNamedTurn | web/workspace-tabs.js:173-200 | a run in which a terminal without an id ends a turn that has one |
| TabLifecycle.NamelessStart | web/workspace-tabs.js:241-254 | a live tab takes a start without an id if and only if its turn id was never assigned |
| TabLifecycle.SecondTerminal | web/workspace-tabs.js:173-200 | of two terminals in a row the second counts again if and only if the first ended a turn with an id and the second does not name it |
| TabLifecycle.StartOpensCount | web/workspace-tabs.js:241-253 | an accepted start, local or from the server, leaves unread as it is and lets the new turn be counted |
| WorkspaceTabs.Workspace.Select | web/workspace-tabs.js:289-305 | shows a registered tab and clears its unread, and does nothing for an unknown key |
| WorkspaceTabs.Workspace.OpenThreadTab | web/workspace-tabs.js:307-323 | opens or reuses the thread's one tab and selects it |
| WorkspaceTabs.Workspace.NewTab | web/workspace-tabs.js:325-337 | reuses the ephemeral tab or makes one under a fresh key |
| WorkspaceTabs.Workspace.Close | web/workspace-tabs.js:339-362 | removes the tab and, if it was active, moves to its neighbour |
| WorkspaceTabs.Workspace.SyncSnapshots | web/workspace-tabs.js:416-434 | the loop applies to each tab exactly the snapshot its baseline allows |
| WorkspaceTabs.Workspace.MaterializeTab | web/workspace-tabs.js:396-405 | turns the tab into its thread's durable one and makes that key active, registered or not |
| WorkspaceTabs.Workspace.ReconcileReadStatus | web/workspace-tabs.js:407-414 | applies a read status only on an untouched tab |
| WorkspaceTabs.Workspace.ForgetDevice | web/workspace-tabs.js:436-442 | removes exactly the device's tabs, in order, and clears `active` with its tab |
| WorkspaceTabs.Workspace.Notify | web/workspace-tabs.js:235-282 | a notification reaches exactly the tab of its device and thread |
| WorkspaceTabs.StepKeepsRegistry | web/workspace-tabs.js:289-442 | every operation keeps keys and identities distinct, at most one ephemeral tab, and `active` null or registered |
| WorkspaceTabs.MaterializeKeepsExactlyWhen | web/workspace-tabs.js:396-405 | materializing keeps that invariant if and only if exactly one of these holds: the tab is registered, another tab has the thread |
| WorkspaceTabs.ClosedTabMaterializes | web/workspace-tabs.js:396-405 | a run that creates a tab, closes it and materializes it, after which `active` names no tab |
| WorkspaceTabs.OneTabPerThread | web/workspace-tabs.js:307-323 | no device and thread has two durable tabs |
| WorkspaceTabs.OpenLandsOnItsThread | web/workspace-tabs.js:307-323 | with colon-free device ids opening a thread makes that thread's tab the active one |
| WorkspaceTabs.RunKeeps | web/workspace-tabs.js:50-53 | in every run the registry stays sound, revisions stay at or below the counter and unread stays within 0 to 99 |
| WorkspaceTabs.StaleListIsHarmless | web/workspace-tabs.js:416-434 | a list reply whose baseline predates any touch of the tab leaves its whole lifecycle as it is |
| WorkspaceTabs.StaleReadIsHarmless | web/workspace-tabs.js:407-414 | the same for a read reply and the revision it remembers |
| WorkspaceTabs.NoIdleListEndsATurn | web/workspace-tabs.js:416-434 | no list of structured idle, live or unloaded statuses ends a live turn, whatever its baseline |
| WorkspaceTabs.TurnIsCountedByItsFlag | web/workspace-tabs.js:122-282 | over any run of items, statuses, errors, snapshots and duplicates within a turn nobody looks at, unread has risen once if the flag says so and not at all otherwise |
| WorkspaceTabs.TurnIsCountedOnce | web/workspace-tabs.js:173-282 | from an accepted start to its first accepted terminal unread rises exactly once, capped at 99, unless the tab is on screen at the end and nothing was counted before |
| WorkspaceTabs.CloseMovesToTheNextTab | web/workspace-tabs.js:339-362 | closing removes one tab, keeps the order of the others, and moves from the active one to the tab that takes its place, else to the last |

## Left out

- JSON parsing, base64, image files, UUIDs and wall clocks: events arrive classified, fresh ids and clock readings are inputs, one reading per event; the text of a unified diff is one opaque string.
- StreamingCheck.Check: the per-target relaxation filter that runs on its findings afterwards is a data table and is not modelled.
- StreamAgreement.EmitterAgreesWithTranslator: event by event both machines read one clock value; two readings of one event can differ in the bridge.
- Projection.ThreadProjection.ApplyItem: the duplicate-collapsing comparison of streamed and final text is a parameter, so the proofs hold for any such comparison; placeholders in user input and base64 output chunks arrive decoded.
- ChatReconciliation.ChatLog.Render: a DOM node is its element identity, kind and drawn content; markdown, animation, scrolling, focus and the composer are not modelled, and trimming of white space is a parameter.
- WebSocketReceive.ReceiveLoop: UTF-8 decoding is a parameter, sending a pong is assumed to succeed, and the HTTP upgrade before the loop is not modelled.
- ActiveTurns.QuiescenceIsBalanced: assumes that interrupts and steers name only turns whose `TurnStarted` was sent, as a client that learns ids from the server does.
- SessionView.SessionEqualsReloaded: compares texts for sessions whose stored ids are distinct; for rows that a later turn takes over, their ids and order are compared (`SessionRowsAgree`), their texts in one example only.
- TabLifecycle.TerminalEndsTheNewestTurn: a local turn's id arrives before the messages that come between, or not at all.
- TabObjects: the registry of WorkspaceTabs keeps the lifecycles as values; sharing of one tab object between lists is not modelled.
- ActiveTurns: transcripts, previews, thread logs and the items inside a `TurnCompleted` are not modelled; status notifications accompany the events shown, and the start and completion of one item are one event.
- AmpTranslator.EveryTurnAccepted: one turn at a time; late items of an interrupted turn that interleave with the next turn's are covered by ActiveTurns only as to their order.
- AcpRequests.SubscriberHearsItsWindow: assumes the subscriber's receiving end stays alive; a send to a dropped one takes the subscriber lock a second time while holding it.
- AcpRequests: callers that are cancelled while they wait, `kill`, and requests the agent makes of the client are not modelled.
- ConnectionPool: jitter and delays are not modelled, a timer may fire at any moment; metrics, tokens, incoming lines, thread loading and status marks set from outside the pool are left out.
- WorkspaceTabs: drafts, history, persistence, repainting, activity timestamps and the mock fields are not modelled; white-space tidying of the activity line is a parameter; navigation runs its callback at once.
- Process spawning, pipes, QUIC and wasm, the filesystem, git and shell probing: foreign effects, present only as steps that may succeed or fail.
- `web/markdown.js`, allowlist tables, prerequisites, scenario scripts and constant-answer handlers: data, regular expressions or one-branch code.
- The ACP client pool: its capacity check and its insertion are separated by an await, so the code alone keeps no bound.
- The other bridges, the session replay ring and the core thread index.
