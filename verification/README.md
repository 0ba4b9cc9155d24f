# Hot Sheet web client: verified core

A Dafny model of the parts of the Hot Sheet web client whose correctness is hard to see: the
live-change stack (a distributed protocol between server, worker and page), the write-behind
preference store, the boolean search compiler, the choice scanner, focus-loss autosave, the crop
lens and the conversation transcript. `dafny verify dfyconfig.toml` checks the whole project.

State that the source updates in place is a class here; each of its methods is proved equal to a
function on the state, and the laws are proved about every sequence of such steps. Promises, timers,
sockets and the network are steps the environment may take in any order.

| file | what it models |
|---|---|
| `Deliveries`, `DeliveryQueue` | pages and resyncs, contiguity of a stream, the worker's one-in-flight coalescing queue |
| `EventLog`, `ChangeTransport` | the server's event ring, the long-poll replies read from it, and the transport that turns them and socket events into one stream |
| `StreamProtocol`, `StreamParties`, `StreamSafety`, `StreamHandover`, `StreamRestarts`, `StreamRejection` | host, worker, channels and transport as one machine; the host and runtime as classes; what every run keeps; what the consumer is given; when the worker is restarted or given up; what a rejected consumer call does |
| `PollMux`, `PollMuxSafety`, `PollMuxOutcomes`, `PollMuxTurns`, `PollMuxLife` | the shared long poll, its fallback to four direct slots, what each poll is answered, fairness and termination |
| `SocketMux`, `SocketMuxSafety`, `SocketMuxEffects` | per-project socket facades on one bridge socket, and what each event does to them |
| `DesktopStorage`, `StorageHistory` | the write-behind cache and the bridge's guarded writes; which value a setting has after any run |
| `SearchLexer`, `SearchWords`, `SearchParser`, `SearchEvaluation` | lexer, what a bare word is, recursive-descent parser, evaluator and term collection |
| `ChoiceLines`, `ChoiceScanner`, `ChoiceIds`, `ChoiceDocument`, `ChoiceLaws` | lines with offsets, list and lettered scanners, choice ids, the tiled document, which lines start a choice or open a group |
| `Autosave` | overlapping schedule, flush, save and cancel |
| `GalleryCrop`, `GalleryLaws` | annotations through a crop, exact scaling and rounding; the lens in pixels, and merging told by ids |
| `Transcript`, `TranscriptReceipts`, `Timeline`, `MessageOrder`, `SelectionGaps` | turns and receipt numbers, what order they follow, the sorted timeline, the displayed order, gaps of saved selections |

## What the code does not do

Some laws one might expect are false of the code. The model keeps the code and proves when they hold.

- A timed-out poll replies with the cursor read after the wait, so an event recorded in between is
  skipped: what the transport hands on is one stream if and only if no timed-out reply raced a record
  (`AfterWaitFollows`, `RaceSkipsAnEvent`, `OneStreamUnlessRaced`).
- After a server restart cursors start again while the host keeps the larger one: events of the new
  run pass exactly when their cursor exceeds the old one (`PassedOnExactly`, `RestartLosesAnEvent`).
- A consumer call that rejects stops its project for good, fallback included: deliveries go on if and
  only if none rejected (`RejectionHappens`, `RejectionIsForGood`, `WorkDrainsUnlessRejected`,
  `FallbackStartsUnlessRejected`).
- The socket multiplexer joins client and project with a NUL: a frame's key names the facade's own
  client and project if and only if the client has no NUL and the project none before its last
  character (`RoutesExactlyWhenPlain`).
- `flush` of the autosave can answer true while the newest draft is not saved
  (`SecondWaiterHearsTheOldSave`, `FlushAfterRefusalAnswersTrue`). Answering with nothing queued, called
  idle or after waiting for a save, it means that the newest draft is saved if and only if the last
  save sent was accepted (`FlushWithNothingRunning`, `FlushThatWaited`); recovery holds the newest draft
  exactly until the server confirms it (`RecoveryHoldsTheLatestValue`).
- A mark outside a crop survives every edit if and only if no visible mark has its id
  (`HiddenMarksSurviveEveryEdit`); restoring an unedited view needs no unique ids at all.
- A box too thin for the original's coordinates can move further than a point does
  (`ThinBoxMovesFurther`); `BoxEdgesComeBack` says exactly which do, and `EveryBoxComesBack` how far.

## Model

| member | source | states |
|---|---|---|
| `DeliveryQueue.ChangeStreamDeliveryQueue.constructor` | clients/web/src/change-stream-worker-protocol.ts:133-146 | an empty queue, sequence numbers from 1, the given bound |
| `DeliveryQueue.ChangeStreamDeliveryQueue.PushDelivery` | clients/web/src/change-stream-worker-protocol.ts:148-162 | a push coalesces, counts, collapses past the bound and sends when nothing is in flight |
| `DeliveryQueue.ChangeStreamDeliveryQueue.Acknowledge` | clients/web/src/change-stream-worker-protocol.ts:165-169 | only the delivery in flight can be acknowledged, and then the next is sent |
| `DeliveryQueue.ChangeStreamDeliveryQueue.CollapseBacklog` | clients/web/src/change-stream-worker-protocol.ts:171-184 | the backlog becomes one overflow page with the newest cursor and any force flag |
| `DeliveryQueue.ChangeStreamDeliveryQueue.FlushNext` | clients/web/src/change-stream-worker-protocol.ts:186-194 | the oldest queued delivery is sent under the next number when nothing is in flight |
| `DeliveryQueue.PushKeepsWellFormed` | clients/web/src/change-stream-worker-protocol.ts:148-162 | a push keeps the counter true and bounded, no two queued pages adjacent, one delivery in flight, pages within the bound |
| `DeliveryQueue.AckKeepsWellFormed` | clients/web/src/change-stream-worker-protocol.ts:165-169 | stale or repeated acks change nothing; the right one sends exactly the next delivery |
| `DeliveryQueue.EveryRunIsWellFormed` | clients/web/src/change-stream-worker-protocol.ts:133-195 | over every push and ack sequence: counter equals queued events and stays in bound, numbers are 1, 2, 3, …, only the newest unacked, no page over the bound |
| `DeliveryQueue.EveryRunRefinesTheStream` | clients/web/src/change-stream-worker-protocol.ts:148-194 | sent then queued is the pushed stream cut into consecutive groups; a delivery holds its group's events once, in order, but for those up to the last push that took the backlog past the bound, and says overflow exactly when such a push swallowed some or a push of the group said so; no force flag lost, newest cursor kept |
| `DeliveryQueue.UncrowdedRunKeepsEveryEvent` | clients/web/src/change-stream-worker-protocol.ts:148-194 | when no push takes the backlog past the bound, sent and queued hold every pushed event in order and say overflow exactly if a push did |
| `DeliveryQueue.CollapsedSummary` | clients/web/src/change-stream-worker-protocol.ts:171-184 | the collapsed page stands for everything the backlog stood for, swallowed by the push that crowded it |
| `DeliveryQueue.EnqueueKeepsChain` | clients/web/src/change-stream-worker-protocol.ts:148-184 | coalescing and collapsing keep a contiguous stream contiguous |
| `Deliveries.JoinedFollows` | clients/web/src/change-stream-worker-protocol.ts:150-158 | two adjacent pages joined continue the stream from where the first did |
| `EventLog.EventRing.Record` | crates/hotsheet-server/src/events.rs:524-533 | the ring stays the newest events without a hole, up to its capacity |
| `EventLog.EventRing.Since` | crates/hotsheet-server/src/events.rs:535-548 | exactly the retained events past `since`, overflow exactly when one past it was dropped |
| `EventLog.EventRing.Backlog` | crates/hotsheet-server/src/routes/store_scoped.rs:452-455 | the page read off the ring is settled by the number of events recorded and the caller's cursor |
| `EventLog.EventRing.AnswerAtOnce` | crates/hotsheet-server/src/routes/store_scoped.rs:449-463 | a poll is answered at once if and only if an event past its cursor was recorded, with the whole backlog |
| `EventLog.BacklogFollows` | crates/hotsheet-server/src/events.rs:535-548 | a backlog continues the stream if and only if the caller is not ahead of the log |
| `EventLog.AfterWaitFollows` | crates/hotsheet-server/src/routes/store_scoped.rs:474-498 | a reply after the wait continues the stream if and only if the caller is not ahead of the log and no timed-out wait raced a record |
| `ChangeTransport.ProjectChangeTransport.constructor` | clients/web/src/project-change-poll.ts:244-246 | the cursor and the reconnect flag a stream starts or is taken over with |
| `ChangeTransport.ProjectChangeTransport.OnHandshake` | clients/web/src/project-change-poll.ts:258-266 | a poll without a cursor resyncs at the server's cursor, and after an outage forces an empty page |
| `ChangeTransport.ProjectChangeTransport.OnPage` | clients/web/src/project-change-poll.ts:383-389 | a replayed page moves the cursor and is handed on |
| `ChangeTransport.ProjectChangeTransport.OnSocketEvent` | clients/web/src/project-change-poll.ts:301-314 | the next event is handed on, an older one ignored, a later one is a gap that gives the socket up |
| `ChangeTransport.ProjectChangeTransport.OnPollFailed` | clients/web/src/project-change-poll.ts:393-396 | a failed poll forgets the cursor |
| `ChangeTransport.ReplyFollows` | crates/hotsheet-server/src/routes/store_scoped.rs:449-498 | a reply to a poll within one server run is a page of the stream if and only if its wait did not time out and race a record |
| `ChangeTransport.StepKeeps` | clients/web/src/project-change-poll.ts:152-403 | every poll step, failure, socket event and lost socket keeps the cursor at the end of what was handed on |
| `ChangeTransport.OneStreamUnlessRaced` | clients/web/src/project-change-poll.ts:152-403 | over every run what is handed on is one stream without a hole from the resume cursor, if and only if no timed-out reply raced a record |
| `ChangeTransport.RaceSkipsAnEvent` | crates/hotsheet-server/src/routes/store_scoped.rs:474-498 | a run of four steps in which a timed-out reply skips an event and the stream has a hole |
| `ChangeTransport.LiveEventsAreHandedOn` | clients/web/src/project-change-poll.ts:301-315 | a socket that says recorded events in order has each handed on at once, alone, with the cursor keeping up |
| `ChangeTransport.OtherSocketEvents` | clients/web/src/project-change-poll.ts:301-311 | an announcement is handed on at the cursor; a repeated event or one past a gap changes nothing |
| `ChangeTransport.OnePollCatchesUp` | clients/web/src/project-change-poll.ts:383-389 | one poll brings the cursor to the newest event with one page, which lacks an event past the old cursor exactly when the log dropped one, and then says overflow |
| `ChangeTransport.HandshakeTells` | clients/web/src/project-change-poll.ts:257-266 | a poll without a cursor resyncs as initial or reconnect, after an outage with a forced refresh, and clears the reconnect flag |
| `ChangeTransport.OutageForcesARefresh` | clients/web/src/project-change-poll.ts:256-275 | after a failed poll, whatever was recorded meanwhile, the next poll that succeeds makes the consumer reload at a cursor covering it |
| `StreamParties.ChangeStreamWorkerHost.constructor` | clients/web/src/change-stream-worker-host.ts:78-85 | worker mode, no worker yet, generations from 1, no crash |
| `StreamParties.ChangeStreamWorkerHost.StartProject` | clients/web/src/change-stream-worker-host.ts:239-253 | a new consumer under a new generation, opened in the worker, launched for it, or on the main thread |
| `StreamParties.ChangeStreamWorkerHost.StopProject` | clients/web/src/change-stream-worker-host.ts:254-260 | the project is forgotten and its generation closed in the worker |
| `StreamParties.ChangeStreamWorkerHost.OnBatch` | clients/web/src/change-stream-worker-host.ts:158-165 | a batch of the current generation is chained behind earlier ones; any other is dropped |
| `StreamParties.ChangeStreamWorkerHost.BeginDelivery` | clients/web/src/change-stream-worker-host.ts:165-178 | a chained delivery of the current generation reaches the consumer without the events already applied |
| `StreamParties.ChangeStreamWorkerHost.FinishDelivery` | clients/web/src/change-stream-worker-host.ts:178-181 | the cursor becomes the maximum, and the delivery is acked only while its generation is current |
| `StreamParties.ChangeStreamWorkerHost.Crashed` | clients/web/src/change-stream-worker-host.ts:185-200 | crashes outside the window are forgotten; few enough arm a restart, too many fall back |
| `StreamParties.ChangeStreamWorkerHost.LaunchWorker` | clients/web/src/change-stream-worker-host.ts:202-235 | every project is opened from its applied cursor, a restart under a new generation; no worker means fallback |
| `StreamParties.ChangeStreamWorkerHost.StopWorker` | clients/web/src/change-stream-worker-host.ts:111-116 | the worker and every message on its way are gone, the hosted projects untouched |
| `StreamParties.ChangeStreamWorkerHost.FallBackToMainThread` | clients/web/src/change-stream-worker-host.ts:126-138 | the worker is stopped for good and every project gets a generation nothing on the way carries |
| `StreamParties.ChangeStreamWorkerHost.RejectDelivery` | clients/web/src/change-stream-worker-host.ts:165-182 | a consumer call that rejects keeps its delivery unfinished and unacknowledged |
| `StreamParties.Unapplied` | clients/web/src/change-stream-worker-host.ts:171-176 | the filter keeps exactly the events past the applied cursor |
| `StreamParties.ChangeStreamWorkerRuntime.OpenProject` | clients/web/src/change-stream-worker-runtime.ts:116-126 | a newer generation replaces the subscription with an empty queue; an older or equal one is ignored |
| `StreamParties.ChangeStreamWorkerRuntime.CloseProject` | clients/web/src/change-stream-worker-runtime.ts:109-114 | only the named generation is closed |
| `StreamParties.ChangeStreamWorkerRuntime.AckProject` | clients/web/src/change-stream-worker-runtime.ts:179-182 | an ack reaches the queue of its own generation only; other projects are untouched |
| `StreamParties.ChangeStreamWorkerRuntime.PushFrom` | clients/web/src/change-stream-worker-runtime.ts:152-163 | a transport's page or resync goes through the project's own queue under its generation |
| `StreamProtocol.NewEventStamps` | clients/web/src/change-stream-worker-host.ts:171-176 | dropping applied events leaves exactly the later part of an increasing page |
| `StreamProtocol.PassedOnExactly` | clients/web/src/change-stream-worker-host.ts:171-178 | an event is passed on if and only if it is past the applied cursor |
| `StreamProtocol.RestartLosesAnEvent` | clients/web/src/change-stream-worker-host.ts:171-178 | the first event after a server restart is dropped by a host that applied five before |
| `StreamProtocol.TellMore` | clients/web/src/change-stream-worker-host.ts:165-182 | one more call that starts where the consumer stood keeps the record gap-free and in order |
| `StreamSafety.StepKeeps` | clients/web/src/change-stream-worker-host.ts:126-260 | every step of any project, crash, restart, fallback, start or stop keeps the protocol's invariant |
| `StreamSafety.EveryRunKeepsTheInvariant` | clients/web/src/change-stream-worker-host.ts:126-260 | the invariant holds in every reachable state of any number of projects |
| `StreamSafety.ExactlyOnce` | clients/web/src/change-stream-worker-host.ts:126-235 | over every run the consumer gets recorded events in strictly increasing order, each at most once, and every event up to the applied cursor was handed over or covered by a reconcile |
| `StreamSafety.NoProjectIsStranded` | clients/web/src/change-stream-worker-host.ts:185-260 | in worker mode every hosted project is served, being opened, or a restart is armed; queued deliveries always have exactly one delivery or ack under way |
| `StreamHandover.KeptInOrder` | clients/web/src/change-stream-worker-host.ts:171-176 | what the filter keeps are exactly the events without a cursor or past the applied one, in order |
| `StreamHandover.BegunBatchIsHandedOver` | clients/web/src/change-stream-worker-host.ts:165-178 | a begun batch of the current generation makes one consumer call with its own cursor, overflow and force flags and exactly its new events in order, or a reconcile for a resync; any other makes none |
| `StreamHandover.MainThreadHandsOver` | clients/web/src/change-stream-worker-host.ts:126-138 | on the main thread pages are handed over as read and a handshake reconciles |
| `StreamHandover.EveryRunIsCalm` | clients/web/src/change-stream-worker-host.ts:126-260 | over every run nothing on its way to the consumer says overflow unless a page read from the transport did or a push went past the bound |
| `StreamHandover.LiveEventsAreHandedOver` | clients/web/src/change-stream-worker-host.ts:126-235 | over every run without such an overflow, every event up to the applied cursor and past the last reconcile was itself handed to the consumer |
| `StreamRestarts.RemembersTheWindow` | clients/web/src/change-stream-worker-host.ts:185-190 | with time moving forward the crashes remembered are exactly those in the window of the last one |
| `StreamRestarts.FallsBackExactlyAfterTooManyCrashes` | clients/web/src/change-stream-worker-host.ts:185-200 | over every run a crash makes the host give up exactly when more than the allowed crashes lie in the window; any other crash arms a restart |
| `StreamRestarts.WorkerModeEndsOnlyBy` | clients/web/src/change-stream-worker-host.ts:126-235 | worker mode ends only by too many crashes, a worker that cannot be made, or one given up on |
| `StreamRestarts.RestartResumesFromTheAppliedCursor` | clients/web/src/change-stream-worker-host.ts:202-235 | a restart opens every hosted project once, under a generation nothing before it carries, from its applied cursor |
| `StreamRestarts.OpenedWhereAsked` | clients/web/src/change-stream-worker-runtime.ts:116-126 | the worker opens it with an empty queue and a transport at that cursor |
| `StreamRestarts.MainThreadResumesFromTheAppliedCursor` | clients/web/src/change-stream-worker-host.ts:126-138 | after fallback the main-thread stream starts at the applied cursor |
| `StreamRestarts.WorkerFollowsWhatIsHosted` | clients/web/src/change-stream-worker-host.ts:202-260 | over every run, once it has read what is on its way, the worker follows exactly each hosted project's current generation |
| `StreamRejection.RejectionIsForGood` | clients/web/src/change-stream-worker-host.ts:126-182 | after a consumer call rejected, through crashes, restarts and fallback, the project's consumer is never called again and its cursor never moves until it is started anew |
| `StreamRejection.RejectionHappens` | clients/web/src/change-stream-worker-host.ts:165-182 | a run of six steps from the start in which the first consumer call rejects |
| `StreamRejection.WorkDrainsUnlessRejected` | clients/web/src/change-stream-worker-host.ts:165-182 | the deliveries of a project can all be applied if and only if none of its consumer calls rejected |
| `StreamRejection.FallbackStartsUnlessRejected` | clients/web/src/change-stream-worker-host.ts:126-138 | after fallback the main-thread stream can take over if and only if no consumer call rejected |
| `PollMux.ChangePollMultiplexer.constructor` | clients/web/src/change-poll-mux.ts:102-125 | nothing pending, in flight or running, in shared or direct mode |
| `PollMux.ChangePollMultiplexer.PollFor` | clients/web/src/change-poll-mux.ts:146-189 | a poll supersedes the pending one of its key and joins the queue; a flush is armed or slots are filled |
| `PollMux.ChangePollMultiplexer.OnAbort` | clients/web/src/change-poll-mux.ts:163-176 | a pending poll is rejected; the shared request is renewed if it carried it |
| `PollMux.ChangePollMultiplexer.SettleEntry` | clients/web/src/change-poll-mux.ts:192-197 | the entry leaves the pending polls with its outcome |
| `PollMux.ChangePollMultiplexer.OnTimer` | clients/web/src/change-poll-mux.ts:199-226 | the flush keeps a request with the same members, else replaces it, else goes direct when too many |
| `PollMux.ChangePollMultiplexer.OnAnswer` | clients/web/src/change-poll-mux.ts:242-312 | only the current request's answer counts; it settles, fails or falls back, and re-arms for what is left |
| `PollMux.ChangePollMultiplexer.ApplyResults` | clients/web/src/change-poll-mux.ts:287-310 | each result settles the entry its request carried for that key, if it still waits |
| `PollMux.ChangePollMultiplexer.FailMembers` | clients/web/src/change-poll-mux.ts:315-323 | every member that still waits is rejected |
| `PollMux.ChangePollMultiplexer.GoDirectMode` | clients/web/src/change-poll-mux.ts:326-335 | the shared request and timer are dropped and slots are filled |
| `PollMux.ChangePollMultiplexer.DrainSlots` | clients/web/src/change-poll-mux.ts:360-376 | one walk gives free slots to the polls that waited longest |
| `PollMux.ChangePollMultiplexer.OnDirectDone` | clients/web/src/change-poll-mux.ts:377-401 | a direct reply settles its poll, or rotates it to the back when its long poll is not over |
| `PollMuxSafety.StepKeeps` | clients/web/src/change-poll-mux.ts:146-401 | every call and completion keeps the invariant, and direct mode is never left |
| `PollMuxSafety.EveryRunKeepsTheInvariant` | clients/web/src/change-poll-mux.ts:146-401 | the invariant holds over every run; direct mode is absorbing |
| `PollMuxSafety.NoPollIsStranded` | clients/web/src/change-poll-mux.ts:146-401 | each poll is waiting or settled, never both, never twice; a flush is armed or the request in flight carries every waiting poll; at most four direct polls and none waits beside a free slot |
| `PollMuxSafety.AnswersSettleTheirOwn` | clients/web/src/change-poll-mux.ts:287-310 | an answer settles only the entries its request carried, never a newer poll of the key; a replaced request's answer does nothing |
| `PollMuxOutcomes.AnswerSettlesEveryResult` | clients/web/src/change-poll-mux.ts:287-310 | every poll the current request carried that still waits and has a result is settled with the first such result; every other poll waits on |
| `PollMuxOutcomes.FailureRejectsEveryMember` | clients/web/src/change-poll-mux.ts:315-323 | an unusable answer rejects every waiting poll its request carried, and no other |
| `PollMuxOutcomes.DirectReplyEndsItsPoll` | clients/web/src/change-poll-mux.ts:377-401 | a direct reply ends its poll with exactly its page or a failure; only a page with nothing new that took half its time, with time left to the deadline, sends it to the back instead |
| `PollMuxOutcomes.StartedWithItsTime` | clients/web/src/change-poll-mux.ts:346-376 | a waiting poll given a slot is allowed a second, or less when its deadline is nearer |
| `PollMuxOutcomes.PollSupersedesOnlyItsOwn` | clients/web/src/change-poll-mux.ts:146-189 | a new poll joins at the back and rejects the older poll of its project, no other |
| `PollMuxOutcomes.AbortRejectsOnlyItsOwn` | clients/web/src/change-poll-mux.ts:163-176 | an abort rejects its own poll and leaves every other one |
| `PollMuxOutcomes.FlushCarriesEveryPendingPoll` | clients/web/src/change-poll-mux.ts:199-226 | a flush keeps a request that carries just the pending polls, else sends one that carries them all, else goes direct when they are too many |
| `PollMuxOutcomes.UnsupportedGoesDirect` | clients/web/src/change-poll-mux.ts:242-286 | an unsupported answer turns to direct polls and settles nobody |
| `PollMuxTurns.BoundedBypass` | clients/web/src/change-poll-mux.ts:360-401 | whatever arrives, aborts or rotates, a waiting poll is started or gone before more slots were handed out than polls stood ahead of it |
| `PollMuxTurns.BudgetBound` | clients/web/src/change-poll-mux.ts:346-358 | halving the remaining time, capped at a second a turn, ends within ceil(r/500) + 8 turns |
| `PollMuxLife.StepLife` | clients/web/src/change-poll-mux.ts:146-401 | in shared and direct mode every step keeps a poll's starts within what its remaining time allows |
| `PollMuxLife.ContinuationEnds` | clients/web/src/change-poll-mux.ts:146-384 | over every run with a clock that never goes back, a poll made with r ms to its deadline is started at most ceil(r/500) + 8 times in all, whether it finds a free slot, waits or is first shared |
| `SocketMux.ChangeWebSocketMultiplexer.constructor` | clients/web/src/change-ws-mux.ts:140-153 | no facade, no bridge, subscriptions from 1 |
| `SocketMux.ChangeWebSocketMultiplexer.OpenSocket` | clients/web/src/change-ws-mux.ts:159-169 | the old facade of the key is closed; the new one gets a fresh subscription and a carrier |
| `SocketMux.ChangeWebSocketMultiplexer.CloseSocket` | clients/web/src/change-ws-mux.ts:132-136 | the facade is removed and ended |
| `SocketMux.ChangeWebSocketMultiplexer.RemoveSocket` | clients/web/src/change-ws-mux.ts:171-180 | only the current facade of a key is removed; the last one closes the bridge |
| `SocketMux.ChangeWebSocketMultiplexer.SendCommand` | clients/web/src/change-ws-mux.ts:182-192 | commands go out only over an open bridge |
| `SocketMux.ChangeWebSocketMultiplexer.ConnectBridge` | clients/web/src/change-ws-mux.ts:194-205 | a bridge is made when there is none and a project needs it; failure falls back |
| `SocketMux.ChangeWebSocketMultiplexer.BridgeOpened` | clients/web/src/change-ws-mux.ts:209-214 | the current bridge's opening subscribes every current facade |
| `SocketMux.ChangeWebSocketMultiplexer.BridgeMessage` | clients/web/src/change-ws-mux.ts:215-235 | a malformed frame falls back; any other reaches at most the facade of its key and subscription |
| `SocketMux.ChangeWebSocketMultiplexer.BridgeClosed` | clients/web/src/change-ws-mux.ts:239-249 | losing a working bridge ends every facade; losing one that never worked falls back |
| `SocketMux.ChangeWebSocketMultiplexer.FallBackToDirect` | clients/web/src/change-ws-mux.ts:252-262 | facades end if the bridge ever worked, else each takes a direct socket |
| `SocketMux.ChangeWebSocketMultiplexer.EndAll` | clients/web/src/change-ws-mux.ts:245-247 | every current facade is ended and forgotten, others untouched |
| `SocketMuxSafety.StepKeeps` | clients/web/src/change-ws-mux.ts:81-263 | every open, close, bridge event, timeout and direct event keeps the invariant |
| `SocketMuxSafety.EveryRunKeepsTheInvariant` | clients/web/src/change-ws-mux.ts:81-263 | the invariant holds in every reachable state |
| `SocketMuxSafety.FacadesSpeakInOrder` | clients/web/src/change-ws-mux.ts:94-109 | a facade opens at most once, closes at most once, and says nothing but errors after its close |
| `SocketMuxSafety.MessagesFollowTheOpen` | clients/web/src/change-ws-mux.ts:94-103 | every message comes after the open event |
| `SocketMuxSafety.NoFacadeIsStranded` | clients/web/src/change-ws-mux.ts:159-263 | a facade that is not closed is current and has a direct socket or a bridge that, once open, was last told to subscribe it |
| `SocketMuxSafety.OneCarrierPerFacade` | clients/web/src/change-ws-mux.ts:111-130 | all messages of a facade came over one bridge connection or all over its direct socket |
| `SocketMuxSafety.FrameReachesOnlyItsFacade` | clients/web/src/change-ws-mux.ts:215-235 | a frame changes no facade but the current one with its key and subscription, and an event adds exactly its data there |
| `SocketMuxEffects.FrameEffect` | clients/web/src/change-ws-mux.ts:215-235 | a subscribed frame opens the connecting facade it is for, an event adds its data to an open one, a closed frame closes it once; in any other state, and for every other facade, nothing changes |
| `SocketMuxEffects.DirectEffect` | clients/web/src/change-ws-mux.ts:94-136 | a direct socket's open, message, error and close act on its own facade from the fitting state; a facade without one hears none |
| `SocketMuxEffects.FallBackEffect` | clients/web/src/change-ws-mux.ts:252-262 | falling back closes and forgets the facades of a bridge that worked, and sends those of one that never did to direct sockets |
| `SocketMuxEffects.BridgeLossEffect` | clients/web/src/change-ws-mux.ts:207-249 | a malformed frame or a late opening of the current bridge falls back; its close ends every facade if it worked, else falls back; another bridge's events do nothing |
| `SocketMuxEffects.CloseEffect` | clients/web/src/change-ws-mux.ts:132-180 | closing closes a facade once and forgets it if it was current; no other facade changes |
| `SocketMuxEffects.OpenEffect` | clients/web/src/change-ws-mux.ts:159-169 | opening makes one facade, current for its key under the next subscription, after closing the old one |
| `SocketMuxEffects.BridgeKnowsExactlyTheCurrent` | clients/web/src/change-ws-mux.ts:171-214 | over every run an open bridge was last told to subscribe exactly the current facades, and to unsubscribe every other it was told of |
| `SocketMuxSafety.FacadesKeepTheirIdentity` | clients/web/src/change-ws-mux.ts:159-180 | no step changes a facade's client, project or subscription or takes back an event; direct mode is absorbing |
| `SocketMuxSafety.SubscriptionsAreNeverReused` | clients/web/src/change-ws-mux.ts:159-163 | over every run and any continuation subscription numbers stay distinct and fixed |
| `SocketMuxSafety.RoutesExactlyWhenPlain` | clients/web/src/change-ws-mux.ts:155-157 | the joined key names one client and project if and only if no other split of it is a valid frame |
| `DesktopStorage.StorageClient.constructor` | clients/web/src/desktop-storage.ts:21-31 | snapshot values and tombstones win over local ones; unknown tracked keys are queued |
| `DesktopStorage.StorageClient.QueueMutation` | clients/web/src/desktop-storage.ts:91-91 | the newest mutation of a key replaces the pending one under a new revision |
| `DesktopStorage.StorageClient.Set` | clients/web/src/desktop-storage.ts:88-94 | the value is local at once and queued when the key is tracked |
| `DesktopStorage.StorageClient.Remove` | clients/web/src/desktop-storage.ts:95-101 | removal is local at once and queued as a tombstone |
| `DesktopStorage.StorageClient.ClearAll` | clients/web/src/desktop-storage.ts:102-110 | everything is cleared and a tombstone is queued for each tracked key |
| `DesktopStorage.StorageClient.OnSaved` | clients/web/src/desktop-storage.ts:47-48 | a success reply retires its own mutation only |
| `DesktopStorage.StorageBridge.OnPut` | clients/web/src/desktop-storage-bridge.ts:76-80 | a request waits behind the earlier ones of its key |
| `DesktopStorage.StorageBridge.OnTurn` | clients/web/src/desktop-storage-bridge.ts:81-83 | a revision not above the committed one is answered without a write |
| `DesktopStorage.StorageBridge.OnRenamed` | clients/web/src/desktop-storage-bridge.ts:92-96 | the record and its revision are committed even when the reply then fails |
| `DesktopStorage.StorageBridge.OnWriteFailed` | clients/web/src/desktop-storage-bridge.ts:80-98 | a failed write changes no record and lets the next one go |
| `DesktopStorage.CommitKeeps` | clients/web/src/desktop-storage-bridge.ts:81-97 | a commit keeps the invariant and never replaces a newer record by an older one |
| `DesktopStorage.StepKeeps` | clients/web/src/desktop-storage.ts:36-137 | every step of page, network and bridge keeps the invariant |
| `DesktopStorage.CacheAgreesWithStore` | clients/web/src/desktop-storage.ts:21-137 | under any reordering, repetition or loss of requests every tracked key without a pending mutation has equal durable and local value |
| `DesktopStorage.NativeCloseLosesNothing` | clients/web/src/desktop-storage.ts:125-137 | `flushForNativeClose` returns normally only when every tracked key's local value is durable |
| `StorageHistory.StartsWith` | clients/web/src/desktop-storage.ts:21-31 | a page starts with the bridge's record of a key if there is one, else with what the browser kept |
| `StorageHistory.LocalIsTheLastValue` | clients/web/src/desktop-storage.ts:88-110 | over every run a key's local value is that of its last set, remove or clear, or the one it started with |
| `StorageHistory.DurableIsTheLastValue` | clients/web/src/desktop-storage.ts:21-110 | over every run the durable value of a tracked key with nothing pending is that last value |
| `StorageHistory.NativeCloseSavesTheLastValues` | clients/web/src/desktop-storage.ts:125-137 | a native close that returns leaves the last value of every tracked key durable |
| `StorageHistory.SavingCanBeCompleted` | clients/web/src/desktop-storage.ts:36-69 | from any state, whatever was lost, failed or reordered, there is a continuation after which nothing is pending |
| `StorageHistory.ReplyRetiresItsMutation` | clients/web/src/desktop-storage.ts:36-49 | a success reply retires exactly the mutation it saved; a newer one of the key stays |
| `StorageHistory.FailedSaveBarsOnlyItsKey` | clients/web/src/desktop-storage.ts:50-69 | a failed save keeps its mutation and bars only its own key from the rest of the flush |
| `StorageHistory.FlushEndsWhen` | clients/web/src/desktop-storage.ts:50-69 | a flush ends exactly when every pending key has failed in it, and a waiting close hears whether any did |
| `StorageHistory.NativeCloseDecides` | clients/web/src/desktop-storage.ts:125-137 | a native close returns when nothing is left, flushes again while a flush without failures left something, and else throws |
| `SearchLexer.LexSearchExpression` | clients/web/src/advanced-search.ts:44-98 | the index loop terminates on every string and gives the lexemes of the specification |
| `SearchLexer.LexQuoted` | clients/web/src/advanced-search.ts:62-80 | escapes are undone up to the closing quote; an unclosed quote keeps its mark |
| `SearchLexer.LexWord` | clients/web/src/advanced-search.ts:81-95 | a bare word ends at a space or parenthesis outside quotes |
| `SearchWords.BareWordReadsBack` | clients/web/src/advanced-search.ts:81-95 | a word of plain characters and quotations inside it is lexed to itself, quotes included, before a space, a parenthesis or the end |
| `SearchWords.KeywordsInAnyCase` | clients/web/src/advanced-search.ts:81-95 | exactly `and`, `or` and `not` in any mix of capitals are operators; every other word is a term |
| `SearchWords.UnclosedQuotationReadsBack` | clients/web/src/advanced-search.ts:62-80 | a quotation never closed is one term to the end, its opening quote included |
| `SearchWords.DelimitersReadBack` | clients/web/src/advanced-search.ts:44-61 | white space separates and parentheses stand alone |
| `SearchParser.Parser.Primary` | clients/web/src/advanced-search.ts:104-119 | a term, or a parenthesized query, or failure |
| `SearchParser.Parser.Not` | clients/web/src/advanced-search.ts:120-127 | any number of `not` before a primary |
| `SearchParser.Parser.And` | clients/web/src/advanced-search.ts:128-138 | conjunctions, explicit or by adjacency, to the left |
| `SearchParser.Parser.Or` | clients/web/src/advanced-search.ts:139-148 | disjunctions to the left |
| `SearchParser.ParseSearchExpression` | clients/web/src/advanced-search.ts:100-152 | a tree if and only if the whole query is consumed |
| `SearchParser.OrSound` | clients/web/src/advanced-search.ts:139-148 | what was consumed derives the tree returned |
| `SearchParser.OrComplete` | clients/web/src/advanced-search.ts:139-148 | a derivable prefix is parsed with its own tree |
| `SearchParser.ParsesExactlyTheGrammar` | clients/web/src/advanced-search.ts:100-152 | a tree is returned if and only if the grammar derives it from the whole lexeme list |
| `SearchParser.GrammarIsUnambiguous` | clients/web/src/advanced-search.ts:100-152 | a lexeme list derives at most one tree |
| `SearchParser.EscapedReadsBack` | clients/web/src/advanced-search.ts:62-80 | any term, quoted and escaped, is lexed back to itself |
| `SearchParser.PrintReadsBack` | clients/web/src/advanced-search.ts:44-98 | a printed tree is lexed back to its own lexemes, before any following text |
| `SearchParser.PrintedQueryParsesBack` | clients/web/src/advanced-search.ts:44-152 | printing any tree, then lexing and parsing, returns it, whatever characters its terms hold |
| `SearchEvaluation.CollectsAllUnlessColliding` | clients/web/src/advanced-search.ts:185-200 | all structured terms are collected if and only if no two different ones share a raw text |
| `SearchEvaluation.CollectedTermsSuffice` | clients/web/src/advanced-search.ts:185-243 | when no two terms of the query collide, two resolvers that agree on the collected terms give the same match for every ticket |
| `SearchEvaluation.OrMeansOr` | clients/web/src/advanced-search.ts:202-228 | a query with `or` between a disjunction and a conjunction matches exactly when one of them does |
| `SearchEvaluation.AndMeansAnd` | clients/web/src/advanced-search.ts:202-228 | a conjunction followed by an operand, with `and` or nothing between, matches exactly when both do |
| `SearchEvaluation.NotMeansNot` | clients/web/src/advanced-search.ts:202-228 | `not` before an operand matches exactly when the operand does not, and parentheses change nothing |
| `SearchEvaluation.TermMeansItself` | clients/web/src/advanced-search.ts:202-214 | a term asks its resolver if it is structured and one is given, and else is matched as plain text |
| `SearchEvaluation.QueryMeansItsLexemes` | clients/web/src/advanced-search.ts:235-243 | a query matches as its lexemes mean; one that does not parse is matched as plain text |
| `ChoiceLines.SourceLines` | clients/web/src/feedback-choice-lines.ts:12-21 | lines end to end over the whole source with exact offsets and texts |
| `ChoiceLines.LinesAreUnique` | clients/web/src/feedback-choice-lines.ts:12-21 | a source has exactly one such cut into lines |
| `ChoiceScanner.ScanList` | clients/web/src/feedback-choices.ts:116-151 | the list loop gives the items, continuations and end of the specification |
| `ChoiceScanner.ListIsWellScanned` | clients/web/src/feedback-choices.ts:110-151 | choices start at items of one marker kind and share out the lines from the first item on |
| `ChoiceScanner.FenceEnd` | clients/web/src/feedback-choices.ts:154-161 | the closing fence line or the last line |
| `ChoiceScanner.ProbeUnits` | clients/web/src/feedback-choices.ts:199-228 | the probe over following paragraphs: how far the block reaches and the next header |
| `ChoiceScanner.ProbeReaches` | clients/web/src/feedback-choices.ts:199-228 | when a next header is found only blank lines lie between it and the block's reach |
| `ChoiceScanner.ScanBlock` | clients/web/src/feedback-choices.ts:178-239 | one lettered block with its own paragraph, kept paragraphs and the bare-header rule |
| `ChoiceScanner.ScanLettered` | clients/web/src/feedback-choices.ts:169-241 | the run of blocks, terminating |
| `ChoiceScanner.LetteredIsWellScanned` | clients/web/src/feedback-choices.ts:163-241 | ordinals are exactly 1 to n in one style, and the choices share out the run's lines |
| `ChoiceScanner.EveryLineHasOneChoice` | clients/web/src/feedback-choices.ts:116-241 | every line of a group that is not blank belongs to exactly one choice |
| `ChoiceScanner.ScanGroup` | clients/web/src/feedback-choices.ts:244-251 | a list after a header, or lettered blocks, of which a headerless run needs two |
| `ChoiceScanner.GroupIsWellScanned` | clients/web/src/feedback-choices.ts:244-251 | a group starts where it was looked for, ends inside the note and shares out its lines |
| `ChoiceLaws.ListStartsAtItsItems` | clients/web/src/feedback-choices.ts:110-151 | a list starts a choice at every item not indented under the item above, and nowhere else; it ends only where nothing follows that belongs to it |
| `ChoiceLaws.LetteredTakesEveryHeader` | clients/web/src/feedback-choices.ts:163-241 | a lettered run goes on exactly as long as the first run-ending line after each block is the next header of its style |
| `ChoiceLaws.LastBlockReach` | clients/web/src/feedback-choices.ts:178-239 | how far the last block reaches: its paragraph and the indented ones that follow at once, or the first paragraph after a bare header |
| `ChoiceDocument.OpensSound` | clients/web/src/feedback-choices.ts:275-281 | a group opened at a line lies from there on and its choices share out its lines |
| `ChoiceLaws.OpensExactly` | clients/web/src/feedback-choices.ts:244-281 | exactly which lines open a group: a choice header before a list or a first lettered header, or a first lettered header whose run has a second block |
| `ChoiceIds.ChoiceIdsAreUnique` | clients/web/src/feedback-choices.ts:59-61 | ids of different groups or choices differ |
| `ChoiceDocument.RegionBetween` | clients/web/src/feedback-choices.ts:77-81 | the text between two offsets without surrounding newlines, at its exact offset |
| `ChoiceDocument.ParseFeedbackChoices` | clients/web/src/feedback-choices.ts:259-310 | the document of the note's lines, and it tiles the source |
| `ChoiceDocument.DocumentTilesItsSource` | clients/web/src/feedback-choices.ts:259-310 | regions and groups alternate without overlap; each group is the first to open after the one before, outside fences; none exists exactly when no line opens one |
| `ChoiceDocument.GroupLinesAreUnique` | clients/web/src/feedback-choices.ts:253-310 | the note settles which lines its groups take |
| `ChoiceDocument.PiecesGiveBackTheSource` | clients/web/src/feedback-choices.ts:259-310 | regions padded with newlines to their offsets, and the groups' texts, concatenate to the source |
| `ChoiceDocument.IdsTellChoicesApart` | clients/web/src/feedback-choices.ts:295-302 | no two choices of a document share an id, across groups |
| `Autosave.FocusLossAutosave.constructor` | clients/web/src/debounced-autosave.ts:93-99 | nothing queued, sent or held |
| `Autosave.FocusLossAutosave.OnSchedule` | clients/web/src/debounced-autosave.ts:130-136 | the draft is queued and held for recovery, told of the save under way, and a timer runs |
| `Autosave.FocusLossAutosave.Persist` | clients/web/src/debounced-autosave.ts:101-105 | the queued draft is copied locally |
| `Autosave.FocusLossAutosave.FlushPass` | clients/web/src/debounced-autosave.ts:106-120 | waits for a running save, answers true when nothing is queued, else copies and sends the draft |
| `Autosave.FocusLossAutosave.OnFlush` | clients/web/src/debounced-autosave.ts:106-120 | a new flush call runs one pass |
| `Autosave.FocusLossAutosave.OnResume` | clients/web/src/debounced-autosave.ts:107-110 | a waiting call reports the old save, or flushes again when a draft is queued |
| `Autosave.FocusLossAutosave.OnSettled` | clients/web/src/debounced-autosave.ts:121-128 | recovery is dropped only on success and only if it is still that save's own |
| `Autosave.FocusLossAutosave.OnCancel` | clients/web/src/debounced-autosave.ts:143-150 | draft, recovery and predecessor are dropped; a running save goes on |
| `Autosave.FocusLossAutosave.CaptureRecovery` | clients/web/src/debounced-autosave.ts:138-142 | captures the held draft, nothing when none is held, an error when it cannot be captured |
| `Autosave.EveryRunKeepsTheInvariant` | clients/web/src/debounced-autosave.ts:89-155 | the invariant holds over every interleaving |
| `Autosave.RecoveryHoldsTheLatestValue` | clients/web/src/debounced-autosave.ts:89-155 | what recovery holds is the value scheduled last since the last cancel, exactly while no save of it is confirmed |
| `Autosave.NewDraftHearsOfTheRunningSave` | clients/web/src/debounced-autosave.ts:130-136 | a scheduled draft is recorded as given, queued and held, and told of a running save exactly when its draft was not cancelled |
| `Autosave.SavesFollowTheSchedule` | clients/web/src/debounced-autosave.ts:106-128 | at most one save runs, and saved values are a subsequence of scheduled ones |
| `Autosave.LatestValueIsSomewhere` | clients/web/src/debounced-autosave.ts:89-155 | the latest value is queued, being sent, confirmed or held |
| `Autosave.AnswersReportTheirSave` | clients/web/src/debounced-autosave.ts:106-128 | a flush that answers about a save reports that save's outcome |
| `Autosave.NewestIsSavedExactly` | clients/web/src/debounced-autosave.ts:106-128 | the newest draft is on the server if and only if nothing is queued and the last save sent was accepted |
| `Autosave.FlushWithNothingRunning` | clients/web/src/debounced-autosave.ts:106-128 | with no save running a flush owns the newest draft's save if one is queued; otherwise it answers true, and the newest draft is saved if and only if the last save sent was accepted |
| `Autosave.FlushThatWaited` | clients/web/src/debounced-autosave.ts:107-110 | a flush that waited answers its save's own result when nothing is queued, and true means saved if and only if the last save sent was accepted; with a draft queued it owns that draft's save or waits again |
| `Autosave.TwoWaitersReached` | clients/web/src/debounced-autosave.ts:106-136 | a run of six steps in which two flush calls wait for one save while a newer draft is queued |
| `Autosave.SecondWaiterHearsTheOldSave` | clients/web/src/debounced-autosave.ts:107-110 | two waiters on one save: the second answers true while the newer draft is still being sent |
| `Autosave.FlushAfterRefusalAnswersTrue` | clients/web/src/debounced-autosave.ts:111-111 | after a refused save a flush answers true and the draft is only in recovery |
| `GalleryCrop.InsideIsInFrame` | clients/web/src/gallery-crop.ts:79-82 | a crop inside the image maps into the original's coordinates |
| `GalleryCrop.ThereAndBack` | clients/web/src/gallery-crop.ts:92-135 | a shown coordinate mapped back and forward moves by at most W/(2w) + 1/2 |
| `GalleryCrop.EditedPointsComeBack` | clients/web/src/gallery-crop.ts:125-176 | every point of an edited mark returns within that bound |
| `GalleryCrop.BoxEdgesComeBack` | clients/web/src/gallery-crop.ts:137-143 | both edges of a box return within that bound if and only if they round to different original coordinates, or the unit box stored instead still ends, or at the far edge of the image starts, near enough |
| `GalleryCrop.EveryBoxComesBack` | clients/web/src/gallery-crop.ts:137-143 | both edges of every box return within 3W/(2w) + 1/2 |
| `GalleryCrop.EditedBoxesComeBack` | clients/web/src/gallery-crop.ts:125-176 | on each axis both edges of an edited rectangle or strike return within the bound of a point if and only if that condition holds, and always within the wider one |
| `GalleryCrop.ThinBoxMovesFurther` | clients/web/src/gallery-crop.ts:137-143 | in a crop of the last pixel of a thousand a box drawn at 9900 is shown again at 9000, outside the bound of a point |
| `GalleryCrop.MergeBack` | clients/web/src/gallery-crop.ts:92-122 | the merge loops give kept, edited, deleted and added marks in order |
| `GalleryCrop.UneditedViewRestoresTheOriginal` | clients/web/src/gallery-crop.ts:72-122 | restoring an unedited projection returns the original list, for any ids and any crop |
| `GalleryCrop.HiddenMarksSurviveEveryEdit` | clients/web/src/gallery-crop.ts:111-119 | a mark survives every edit of the view if and only if no shown mark has its id |
| `GalleryCrop.UniqueIdsHide` | clients/web/src/gallery-crop.ts:72-90 | with unique ids every mark outside the crop is such a mark |
| `GalleryCrop.RestoredIds` | clients/web/src/gallery-crop.ts:111-121 | which ids there are after a merge: hidden ones, shown ones still displayed, new ones |
| `GalleryCrop.LensKeepsMarksInTheImage` | clients/web/src/gallery-crop.ts:125-176 | all boxes and all shape points stay within 0..10000, boxes with width and height at least 1 |
| `GalleryLaws.LensKeepsPixels` | clients/web/src/gallery-crop.ts:79-111 | before rounding a coordinate and its image in the view are the same pixel of the original, both ways |
| `GalleryLaws.ShownAtItsPixel` | clients/web/src/gallery-crop.ts:79-90 | a point is shown within half a unit of the view of its own pixel when that lies in the crop, else on the edge it lies beyond |
| `GalleryLaws.StoredAtItsPixel` | clients/web/src/gallery-crop.ts:103-111 | a point drawn in the view is stored within half a unit of the original of its own pixel |
| `GalleryLaws.VisibleExactly` | clients/web/src/gallery-crop.ts:83-87 | a mark is shown exactly when its box overlaps the crop on both axes, compared in whole numbers |
| `GalleryLaws.LensMovesOnly` | clients/web/src/gallery-crop.ts:125-176 | showing and restoring change where a mark is and nothing else, and its box is the least one around its points |
| `GalleryLaws.ShownInOrder` | clients/web/src/gallery-crop.ts:83-90 | the marks shown are the visible ones, each once, in their order |
| `GalleryLaws.RestoredInOrder` | clients/web/src/gallery-crop.ts:111-122 | the ids after a merge, in order: the original ones less those shown and no longer displayed, then the new ones |
| `GalleryLaws.EditsAreStored` | clients/web/src/gallery-crop.ts:111-122 | a new mark is stored; an original mark displayed as it was shown stays as it is, and one displayed otherwise is stored as displayed |
| `Transcript.NormalizeConversationSequence` | clients/web/src/ai-conversation.ts:112-133 | one counter numbers what lacks a number, in order, except the assistant waiting for text |
| `Transcript.NormalizeNumbers` | clients/web/src/ai-conversation.ts:112-133 | numbering keeps all numbers distinct and below the counter |
| `Transcript.ReopenedIsWellNumbered` | clients/web/src/ai-conversation.ts:112-119 | a reopened conversation without a counter is in order when no number occurs twice |
| `Transcript.EveryRunIsWellNumbered` | clients/web/src/ai-conversation.ts:188-211 | from any such conversation, over every run, assigned numbers are distinct and below the next one |
| `Transcript.EventNumbers` | clients/web/src/ai-conversation.ts:302-409 | every turn event keeps numbers distinct and below the counter |
| `Transcript.ActivityNumbers` | clients/web/src/ai-conversation.ts:510-530 | so does activity, through the limit of fifty |
| `Transcript.TranscriptOnlyGrows` | clients/web/src/ai-conversation.ts:188-409 | over every run no message goes, no number changes and no text received is lost |
| `Transcript.StaleEventsLeaveNoTrace` | clients/web/src/ai-conversation.ts:181-185 | dropping from a run every event that was stale when it came leaves the same messages, numbers and active turn |
| `Transcript.TextIsItsTurnsOutputs` | clients/web/src/ai-conversation.ts:302-409 | over every run after a turn began, with any later turns of other ids, its assistant message holds exactly that turn's outputs up to its end or the next turn's start, or the filler, with the turn's status and the sum of its tokens, and is numbered from its first output on, not before |
| `TranscriptReceipts.LaterNumbersAreHigher` | clients/web/src/ai-conversation.ts:112-409 | over every run what is numbered later than some moment gets a number at or above that moment's next one, and what had one keeps it |
| `TranscriptReceipts.OtherMessagesStay` | clients/web/src/ai-conversation.ts:302-409 | over every run a message of the user or of a turn that is over is never written to again |
| `TranscriptReceipts.QuestionStays` | clients/web/src/ai-conversation.ts:188-211 | what the user said stays as said, numbered at once |
| `TranscriptReceipts.ActivityIsTheNewestFifty` | clients/web/src/ai-conversation.ts:510-530 | over every run the activity kept is the newest fifty items, a repeated one ignored |
| `Timeline.ConversationTimeline` | clients/web/src/ai-conversation.ts:136-172 | entries, sort and grouping as specified |
| `Timeline.TimelineIsASortedPermutation` | clients/web/src/ai-conversation.ts:136-172 | every record once, strictly ascending by number then position, no two activity groups adjacent |
| `Timeline.AscendingIsUnique` | clients/web/src/ai-conversation.ts:160-160 | there is only one such order, so the sort used does not matter |
| `Timeline.NumbersPlaceRecords` | clients/web/src/ai-conversation.ts:140-160 | a numbered message or activity is placed by its number; one without comes after all numbered ones, in list order |
| `MessageOrder.TranscriptOrderIsArranged` | clients/web/src/conversation-selection.ts:32-34 | the displayed order is by number, unnumbered messages last, ties in array order |
| `MessageOrder.SelectingCommutesWithOrdering` | clients/web/src/conversation-selection.ts:32-38 | selecting and ordering commute, ordering an ordered selection changes nothing, and ordering loses no message |
| `SelectionGaps.ConversationSelectionGaps` | clients/web/src/conversation-selection.ts:90-110 | the loop over the messages in displayed order gives the gaps of the specification |
| `SelectionGaps.GapsCountWhatIsBetween` | clients/web/src/conversation-selection.ts:84-110 | a gap is the number of messages displayed between two selected ones, what they hid included, and is absent when zero |
| `SelectionGaps.GapsCompose` | clients/web/src/conversation-selection.ts:84-110 | gaps of a sub-selection of a reopened selection, saved in array or displayed order, equal the gaps taken from the full conversation |

## Left out

- Message parsers, the `ready` handshake, its timer and the client-build relay of the worker protocol: a mismatch or missing `ready` is the step that gives up on the worker.
- Within the worker protocol the transport is a contract: a page continues the stream from the replay cursor or says it overflowed, a resync reports a server cursor no older than any before, all within one server run. `OneStreamUnlessRaced` says when the transport meets it; the socket's opening, retry delays and time limits are left open there, and it takes whatever events a socket says in any order.
- One message channel per project instead of one shared channel: only the order within a project matters to the protocol. A launch or fallback takes one generation number per project slot rather than per hosted project.
- The host's `dispose`, and a consumer call that rejects on the main thread after fallback.
- Worker `error` messages and the backoff delays before a restart.
- Web locks shared between tabs for direct polls, request bodies and statuses of the poll multiplexer: a reply is a page or a refusal, an answer is unsupported, unusable or a list of results.
- Listeners of a socket facade that call back into the multiplexer while it is dispatching; socket objects are values in a list, so aliasing is not modelled. The client-build announcement is not part of the model.
- Desktop storage with several clients or a bridge that restarts: revisions are those of one client. The order in which a flush takes pending keys, the keepalive size limit and which keys a closing page already sent do not matter to the laws and are left open. Key length counts characters, not UTF-16 units.
- How a search term is recognized as structured and how a plain term matches a ticket are parameters, as are locale dates.
- The regular expressions that classify lines of a note are parameters: the results hold for any classifiers. The Markdown text of a choice's details and replies inside groups are not part of the model.
- `createDebouncedAutosave`, the input coalescers and the delays of timers.
- Crop coordinates are exact rationals instead of floating point, marks hold whole coordinates, a crop has a positive size, and comparing marks as JSON text is comparing their fields.
- Progress text, timing (which the source also advances for events of another turn), cost, files and errors of a conversation; the filler text of an empty turn is a parameter.
- User interface, HTTP plumbing, image sniffing, freehand smoothing, command reordering and board pagination: easy or outside the model.
- ChoiceDocument.RegionBetween: an all-newline gap gives an empty region at its end, as in the source, so its offset is only fixed for the code's own choice.
