# The live media pipeline, proved

A Dafny model of how atomrust gets camera frames to RTSP clients, and of the session, connection and
shutdown protocols around that path. Between two bounded buffers (a lossy broadcast ring behind the
camera, a FIFO of 1024 messages in front of each client) sits a hand-written concurrent state machine,
and the change log (README.md:114-117) promises that stalled clients cannot exhaust memory, that
sessions survive lag and resync on keyframes, and that streams start on a keyframe. This project states
those promises, and the protocols they rest on, as theorems about every run.

`select!` and the scheduler are free choice: a run is any list of events, one event is what one
concurrent activity does between two await points, and an event that is not possible changes nothing.
Code that updates state in place is modelled by classes whose methods are proved equal to the step
functions (`StreamSession.StreamingLoop`, `BroadcastRing.Ring`, `ConnectionWorker.Writer`,
`TaskManager.Manager`, `Managers.Manager`, `Timestamps.H264State`); the theorems are about the step
functions and their runs.

| module | what it models |
|---|---|
| `Wrappers`, `Sequences`, `Media` | optional values and results; facts about sequences; frames, messages, 16-bit sequence numbers, the contract assumed of the muxer |
| `StreamSession`, `StreamTheorems` | one session's streaming loop, and its promises over whole runs |
| `PlayProtocol`, `StrandedPlay` | the PLAY handshake between `Session::play` and the loop; what a stranded call blocks |
| `BroadcastRing` | the ring between camera and sessions |
| `Connection`, `ConnectionWorker` | the bounded queue and the batching writer of one connection |
| `Pipeline`, `PipelineTheorems` | camera, sessions and connections as one system, message by message |
| `PipelineRecovery` | recovery after drops inside that system |
| `Lifecycle`, `LeftoverBound`, `PlayInPipeline` | PLAY and TEARDOWN inside that system |
| `ControlChannel` | control messages, requests and stops in that system: what was sent is what is handled |
| `TaskManager` | the token-counting shutdown protocol |
| `Registry`, `RegistryLimits`, `Managers` | session and connection maps against the life of their workers, and exactly where they fall short |
| `Timestamps` | presentation timestamp repair |
| `Transport` | transport negotiation in SETUP |

Where the code falls short of what one would expect, proved, with the exact condition:

- After TEARDOWN has returned, up to 1088 leftover messages can still reach the wire, not 1024: 1024
  queued and 64 in the batch being written. More than 1024 can if and only if the connection's worker is
  in the middle of a batch (filling or flushing it) and more than 1024 are left over
  (`Lifecycle.TeardownLeftoverIff`). `LeftoverBound.MoreThanTheQueue` is a run that puts 1088 on the wire.
- A `play` call waits for ever exactly when the loop ends before it has replied
  (`PlayProtocol.PlayReturnsIff`); a muxer failure while its request is queued is enough
  (`PlayProtocol.PlayCanHang`). From then on no `teardown` of that session and no `SessionManager::stop`
  completes, and neither the connection's `Task::stop` nor any `TaskManager::stop` returns
  (`StrandedPlay.BlocksForever`).
- A worker's entry is inserted after the worker has started. In a run with fresh ids the entry can then
  never be removed, short of draining the map or reusing the id, exactly if at its insertion the worker's
  stopped message has been processed, or the worker was never started, or the manager's own worker has
  ended; in every other case something that can still happen removes it (`RegistryLimits.LateEntry`).
- If ids have been fresh so far and a session id is drawn once more, some continuation leaves a registered
  session running without its entry exactly if the new session is started and another session of that id
  is registered and running, or is still to be inserted, with its stopped message still to come and
  nothing under the id (`RegistryLimits.Collision`). A collision with a session that has ended does no harm.

## Model

| member | source | states |
|---|---|---|
| Media.AdvanceIsModular | src/session/mod.rs:250-257 | sequence numbers count modulo 2^16 (section 5.1 of RFC 3550) |
| StreamSession.StreamingLoop.OnPacket | src/session/mod.rs:239-310 | receiving a frame: keyframe gate, muxing, stream-state reply before the muxing error is looked at, and what the push loop got accepted; RTP and RTCP on their own channels |
| StreamSession.StreamingLoop.PushAll | src/session/mod.rs:291-309 | the push loop: exactly the messages before the first refusal are accepted; Full counts a dropped frame and closes the gate, the session goes on; Closed ends the session and changes nothing else; without refusal nothing changes |
| StreamSession.StreamingLoop.OnLagged | src/session/mod.rs:226-232 | lag loses exactly the skipped frames and closes the gate |
| StreamSession.StreamingLoop.OnControl | src/session/mod.rs:313-323 | Play starts playing and closes the gate; StreamState sets the request flag |
| StreamSession.StreamingLoop.OnExit | src/session/mod.rs:233-236 | every way out stops the loop and changes nothing else |
| StreamSession.StreamingLoop.HandleAll | src/session/mod.rs:184-336 | the whole loop is the run of the single-session machine, with the fate of every frame |
| StreamSession.AcceptedCount | src/session/mod.rs:291-309 | how many messages of a frame get through: all before the first refusal, none after |
| StreamSession.Stopped | src/session/mod.rs:184-336 | once out of the loop nothing more happens to any frame |
| StreamTheorems.Gate | src/session/mod.rs:175-180 | in every run: Ready implies waiting for a keyframe, `dropped_frames` is 0 or 1 and 1 only while waiting, Playing exactly if a Play was handled, nothing offered before |
| StreamTheorems.SurvivesIff | src/session/mod.rs:184-336 | a session survives lag, full queues, discarded frames and control messages: its loop runs if and only if no event was fatal (source or control broken, stop, muxer failure, closed connection) |
| StreamTheorems.FateOfPacket | src/session/mod.rs:239-310 | what each fate of a frame means, in terms of the gate, the muxer, the mode and the queue's answers |
| StreamTheorems.SkippedIsLag | src/session/mod.rs:226-232 | frames have the fate Skipped exactly as often as the lag reports say |
| StreamTheorems.FatesPartition | src/session/mod.rs:223-310 | every frame has exactly one of seven fates |
| StreamTheorems.PlayingForever | src/session/mod.rs:315-318 | Playing never returns to Ready |
| StreamTheorems.FrameNumbered | src/session/mod.rs:252-252 | the RTP messages of a frame are numbered consecutively, so that many numbers are consumed |
| StreamTheorems.StepOffers | src/session/mod.rs:226-252 | what one event offers to the queue and how far it moves the counter: lagged and discarded frames consume no numbers |
| StreamTheorems.OffersNumbered | src/session/mod.rs:250-309 | all messages a session ever offers are numbered without a gap |
| StreamTheorems.PlayingNumbering | src/session/mod.rs:250-309 | and from a playing state on, starting at the muxer's counter |
| StreamTheorems.GapAccounting | src/session/mod.rs:291-309 | between consecutive accepted RTP messages the numbers skipped are exactly the RTP messages refused in between, modulo 2^16 |
| StreamTheorems.RecoveryPoint | src/session/mod.rs:239-248 | in calm conditions a playing session discards the frames up to a keyframe and delivers every later one whole |
| StreamTheorems.BoundedRecovery | src/session/mod.rs:239-309 | with a keyframe among any G frames, fewer than G frames are discarded before every frame is delivered whole, for a machine whose queue takes each frame whole |
| StreamTheorems.ReplyDue | src/session/mod.rs:239-265 | a reply still owed means every frame received meanwhile was a non-key frame discarded while Playing |
| StreamTheorems.ReplyReports | src/session/mod.rs:252-265 | a reply is given with a frame and reports where the muxer's counter stands once it is done with it, also when it failed |
| PlayProtocol.Reachable | src/session/mod.rs:93-124 | over every run a request is in exactly one place (queued, held by the loop, answered) and every sample agrees with the count of muxed RTP messages |
| PlayProtocol.SampledAfterSubscribing | src/session/mod.rs:105-114 | what `play` returns was sampled during that call, after it subscribed |
| PlayProtocol.CallsCounted | src/session/mod.rs:101-106 | the number that tells one call's samples from another's is the count of calls begun |
| PlayProtocol.OnlyMessagesControl | src/session/mod.rs:313-323 | the loop starts playing, or comes to owe a reply, only by handling the oldest control message, and then the message that says so |
| PlayProtocol.BeginsIff | src/session/mod.rs:345-351 | a call begins exactly without a range, or with one that has no end and starts now or no later than zero; any other is refused and changes nothing |
| PlayProtocol.BrokenControl | src/session/mod.rs:107-120 | without a loop to talk to a call fails, at its request or at its Play; otherwise its message is queued |
| PlayProtocol.RtpInfo | src/session/mod.rs:252-265 | the first RTP message generated after a call's Play carries the reported number advanced by the RTP messages muxed between sampling and Play (section 12.33 of RFC 2326) |
| PlayProtocol.StrandedForever | src/session/mod.rs:111-114 | a waiting call without reply stays waiting once the loop is gone, because the session keeps a sender itself |
| PlayProtocol.Rescue | src/session/mod.rs:105-121 | any other waiting call has a schedule on which it receives its reply |
| PlayProtocol.PlayReturnsIff | src/session/mod.rs:111-114 | a waiting call can return if and only if the loop runs or its reply is there |
| PlayProtocol.LoopGone | src/session/mod.rs:107-120 | once the loop is gone its end of the control channel can be dropped, and not before; then a call fails at its next message, and no Play is queued |
| PlayProtocol.PlayCanHang | src/session/mod.rs:252-273 | a muxer failure on a frame received while the request is still queued ends the loop and strands the call |
| StrandedPlay.BlocksForever | src/session/session_manager.rs:88-120 | while a stranded `play` holds the session's mutex and its connection's context, for ever: no teardown of the session completes, the connection's `Task::stop` and every `TaskManager::stop` do not return |
| StrandedPlay.CanBlock | src/session/mod.rs:252-273 | a muxer failure brings a fresh system there |
| StrandedPlay.IdleBlocksNothing | src/session/session_manager.rs:106-113 | with no call in progress a teardown that comes or waits gets the mutex and completes, and the connection's worker can end |
| StrandedPlay.OneAtATime | src/session/session_manager.rs:88-113 | the calls of a session, plays and teardowns, exclude each other in every run |
| StrandedPlay.DoneForGood | src/session/session_manager.rs:106-113 | a teardown that has completed stays completed |
| BroadcastRing.SameLap | src/libcam/libcam.rs:97-102 | positions less than a lap apart never share a slot |
| BroadcastRing.PlaceIsRemainder | src/libcam/libcam.rs:97-102 | the slot of a position is its remainder by the capacity |
| BroadcastRing.Ring.Send | src/libcam/libcam.rs:255-255 | sending never waits, overwrites only the oldest slot, and appends to the log |
| BroadcastRing.Ring.Recv | src/session/mod.rs:223-237 | a receiver gets the log entry at its cursor and moves to the next, or is told the exact number of frames it was lapped by and moves to the oldest one still there, or has read everything |
| BroadcastRing.ReceivesInOrder | src/source/mod.rs:105-112 | receiving over and over, with sends in between: each frame at most once and in order, as in the log, and the frames got and those reported lost make up all that the cursor has passed |
| BroadcastRing.CatchesUp | src/libcam/libcam.rs:97-102 | with nothing sent meanwhile a receiver gets exactly the frames from the oldest unread one still in the ring |
| PipelineTheorems.ReadsTheRing | src/session/mod.rs:223-237 | a session's cursor in the pipeline moves as that receiver's |
| Connection.ConnStepKeeps | src/net/connection.rs:104-192 | every action of the worker keeps: queue at most 1024, batch 1 to 64, wire then batch then queue is what was accepted in order, responses in request order |
| Connection.AcceptKeeps | src/net/connection.rs:33-37 | and so does every `try_send` of a session |
| Connection.Drains | src/net/connection.rs:107-121 | nothing gets stuck: a worker whose writes succeed puts every accepted message on the wire |
| Connection.EndCloses | src/net/connection.rs:122-203 | wherever a worker is it can end (end of stream, failed write, failed response), and then its queue is closed |
| Connection.ClosedForGood | src/net/connection.rs:194-203 | and stays closed, whatever anybody tries |
| Connection.BatchComplete | src/net/connection.rs:114-119 | a batch is flushed only when it is full or nothing is waiting |
| ConnectionWorker.RunRefines | src/net/connection.rs:104-164 | in every interleaving of sessions and worker the connection is a reference machine that sends message by message, run on the same arrivals; between batches the wire is what that machine has sent |
| Connection.BatchingRefines | src/net/connection.rs:104-164 | each action of the batching worker is at most one step of a reference that sends message by message |
| Connection.AcceptRefines | src/net/connection.rs:33-37 | until it is closed the queue takes a message exactly when the reference has room |
| ConnectionWorker.PerformKeeps | src/net/connection.rs:104-192 | the invariant over any interleaving of sessions and worker |
| ConnectionWorker.Writer.TrySend | src/net/connection.rs:55-55 | Closed exactly if the receiving end is gone, Full exactly if 1024 messages wait, or accepted at the end of the queue |
| ConnectionWorker.Writer.Collect | src/net/connection.rs:112-119 | feeding a batch: 1 to 64 messages; it stops at a feed that fails, or short of 64 only if the queue was found empty, whatever arrives meanwhile |
| ConnectionWorker.Writer.Abandon | src/net/connection.rs:122-139 | a failed or timed-out write, while feeding or at the flush, ends the connection with part of the batch sent; it counts as a disconnect unless the error is some other one |
| ConnectionWorker.Writer.Write | src/net/connection.rs:120-139 | the flush of a complete batch as one, or the end of the connection |
| ConnectionWorker.Writer.SendBatch | src/net/connection.rs:107-140 | one turn, with sessions pushing during feeds and flush: at the moment the batch is complete it holds 1 to 64 messages, fewer than 64 only with an empty queue or after a failed feed; then it is flushed as one; the turn is a run of the worker's actions and keeps the invariant |
| ConnectionWorker.Writer.Answer | src/net/connection.rs:142-164 | one request, with sessions pushing while its handler runs: its response is the next thing on the wire, or the connection ends; only a reset counts as a disconnect |
| ConnectionWorker.Writer.Deliver | src/net/connection.rs:120-120 | the flush, with sessions pushing meanwhile, as a run of the worker's actions |
| Pipeline.SessStepKeeps | src/session/mod.rs:184-336 | every step of a session, a single `try_send` at a time, keeps: it simulates the single-session machine, each offered frame is a keyframe or follows one delivered whole, and its accepted messages are what its fates tell |
| Pipeline.SessStepAccepts | src/session/mod.rs:291-309 | a session touches its connection only by getting its own messages accepted, one at a time |
| Pipeline.OthersAccepted | src/net/connection.rs:33-35 | messages of other sessions on the same queue leave a session's account intact |
| Pipeline.SysStepKeeps | src/session/mod.rs:166-343 | every step of the system keeps all of these for all sessions and connections |
| Pipeline.Invariant | src/session/mod.rs:166-343 | hence they hold in every run |
| PipelineTheorems.EndToEnd | src/session/mod.rs:223-309 | if a message of a non-key frame is on the wire, every message of the preceding source frame is on the wire before it |
| PipelineTheorems.ChainsToKeyframe | src/session/mod.rs:239-248 | every message on the wire chains back without a gap, through frames entirely on the wire before it, to a keyframe |
| PipelineTheorems.EarlierFramesFirst | src/session/mod.rs:291-309 | a frame delivered whole is accepted in full before any message of a later frame |
| PipelineTheorems.WireIsPrefix | src/net/connection.rs:107-121 | the wire carries a prefix of what the queue accepted, in order |
| PipelineTheorems.WireOrder | src/net/connection.rs:104-164 | in every run: that prefix, in flushes of 1 to 64 messages or one response, responses in request order (section 10.12 of RFC 2326) |
| PipelineTheorems.ResponseFirst | src/session/mod.rs:117-120 | a message accepted while a connection is inside the handler of a request, as media started by that request's own Play, is on the wire only behind the response |
| PipelineTheorems.MemoryBounded | src/net/connection.rs:30-39 | in every run a connection holds at most 1024 queued and 64 unflushed messages |
| PipelineTheorems.FrameConservation | src/session/mod.rs:223-310 | the frames the camera has sent since a session subscribed are those with one of seven fates, the one being pushed, and those unread |
| PipelineTheorems.StartsAtSubscription | src/source/mod.rs:105-112 | a session starts behind exactly the frames sent before it subscribed |
| PipelineTheorems.LogIsCamera | src/libcam/libcam.rs:255-255 | the log is what the camera has sent, in order |
| PipelineTheorems.FatesAreTrue | src/session/mod.rs:291-309 | a message was accepted if and only if its frame's fate says so |
| PipelineTheorems.SentExactly | src/session/mod.rs:291-309 | the messages told by fates are the first ones of each offered frame, and no others |
| PipelineTheorems.SentAreOffers | src/session/mod.rs:291-309 | accepted messages are the accepted offers, in order |
| PipelineTheorems.AcceptedIsOffers | src/session/mod.rs:291-309 | in any state, what a connection accepted from a session is what the single-session machine delivers on that session's own trace so far |
| PipelineTheorems.SessionGaps | src/session/mod.rs:291-309 | in any state of any run, between two consecutive RTP messages accepted from a session the numbers skipped are exactly the RTP messages refused in between, modulo 2^16 |
| PipelineTheorems.StepLocal | src/source/mod.rs:105-112 | a step of one connection or its sessions leaves every other connection's part as it was |
| PipelineTheorems.Isolation | src/source/mod.rs:105-112 | one connection's part of any run is the run with all other connections' events erased |
| PipelineRecovery.RecoversInPipeline | src/session/mod.rs:239-309 | in the pipeline: if a playing session receives each frame before it is overwritten, its queue has room at each push, and any G frames hold a keyframe, fewer than G frames are discarded and every later one is whole, whatever other clients do |
| Lifecycle.FinishPushing | src/session/mod.rs:291-309 | a push never blocks: a session gets back to its `select!` by its own steps, whatever the queue's state |
| Lifecycle.SessionSurvives | src/session/mod.rs:184-336 | in any run a session's loop has ended if and only if one of its turns was fatal; it was stopped only if somebody asked, and met a closed queue only if its connection is gone |
| Lifecycle.LeavesIff | src/session/mod.rs:216-334 | at its `select!` a session leaves when the source or the control channel breaks, and on the stop signal if and only if it was asked to stop; it is not released before |
| Lifecycle.ClosedEndsSession | src/session/mod.rs:304-306 | a session pushing to a connection that is gone ends with its next message, and releases its context |
| Lifecycle.DisconnectEndsSession | src/session/mod.rs:304-306 | from any state of a session that is pushing, the end of its connection takes it along |
| Lifecycle.PlayAnswered | src/session/mod.rs:105-115 | while the connection is blocked in a handler the session alone, whatever is in its control channel, gives the stream-state reply, given one unread keyframe, or any unread frame while Ready with no Play ahead, and whatever the muxer makes of it |
| PlayInPipeline.PlayAnnounced | src/session/mod.rs:105-123 | the first RTP message a connection accepts from a session after a PLAY's Play carries the reported number plus the RTP messages muxed between report and Play and those refused since, and is on the wire behind the response (sections 10.5 and 12.33 of RFC 2326) |
| PlayInPipeline.NumberAfterPlay | src/session/mod.rs:252-265 | the same number in the single-session machine |
| PlayInPipeline.CounterSinceReply | src/session/mod.rs:254-265 | from a reply on, the muxer's counter is the reported number plus the RTP messages muxed since |
| Lifecycle.TeardownCompletes | src/session/mod.rs:126-130 | once the stop message is sent the session's own steps let `teardown` return, even if the queue is full |
| Lifecycle.TeardownFinality | src/session/session_manager.rs:106-113 | after `teardown` returns, no continuation accepts another message of that session (section 10.7 of RFC 2326) |
| Lifecycle.TeardownLeftover | src/session/session_manager.rs:106-113 | after `teardown` at most the messages due reach the wire: none once the worker has ended, else those accepted and not sent; at most 1088, and more than 1024 only in the middle of a batch |
| Lifecycle.TeardownDrains | src/net/connection.rs:107-121 | and all of them can: a worker whose writes succeed sends exactly that many |
| Lifecycle.TeardownLeftoverIff | src/session/session_manager.rs:106-113 | more than 1024 can reach the wire if and only if the worker is filling or flushing a batch and more than 1024 are left over |
| Lifecycle.EndedForever | src/net/connection.rs:194-203 | the wire of a connection whose worker has ended never grows again |
| ControlChannel.ControlInOrder | src/session/mod.rs:313-329 | control messages are handled in the order in which they were sent, each once |
| ControlChannel.ControlSinceSubscription | src/session/mod.rs:313-323 | in any run the messages a session has handled and those it has queued are exactly those sent to it since it subscribed, in that order |
| ControlChannel.AskedIff | src/session/mod.rs:126-130 | a session has been asked to stop if and only if its stop message was sent while it existed |
| ControlChannel.RepliesAreAskedFor | src/session/mod.rs:252-265 | a session gives no more stream-state replies than it was sent requests, and the one it owes has a request of its own too |
| LeftoverBound.MoreThanTheQueue | src/net/connection.rs:112-120 | filling or flushing a batch: a run with the session torn down after a frame of 1089 RTP messages, and a continuation that puts 1088 of them on the wire |
| TaskManager.Reachable | src/runtime/task_manager.rs:43-86 | over every interleaving: subscribing happens under the lock and before any broadcast, no broadcast precedes dropping the apex token, no live context has missed a signal, a returned `stop` saw all tokens gone |
| TaskManager.SafeShutdown | src/runtime/task_manager.rs:67-86 | when `stop` has returned, every context ever handed out is dropped, now and for ever |
| TaskManager.NoLateStart | src/runtime/task_manager.rs:43-64 | once the apex token is gone no spawn that has not passed the lock ever starts a task |
| TaskManager.TaskStopped | src/runtime/task_manager.rs:109-116 | `Task::stop` that has returned left its context dropped for ever |
| TaskManager.TaskStopCompletes | src/runtime/task_manager.rs:109-116 | without any broadcast, from any reachable state a `Task::stop` call in progress can be brought to its return by its own steps and a worker that leaves once it has noticed |
| TaskManager.WaitReturnsIff | src/runtime/task_manager.rs:127-134 | `wait_for_stop` returns exactly on its own message, which it takes, on a dropped handle, or on a pending broadcast, of which it takes one |
| TaskManager.CallPhases | src/runtime/task_manager.rs:109-116 | a `Task::stop` call begins where there is none, queues its message only where there is room, and returns only from its wait |
| TaskManager.DroppedHandleStops | src/runtime/task_manager.rs:89-92 | dropping a task's handle makes its next wait return |
| TaskManager.NoLostSignal | src/runtime/task_manager.rs:127-134 | after the broadcast every live context has consumed a signal or its next wait returns at once, even after several broadcasts |
| TaskManager.RemainingNeverGrows | src/runtime/task_manager.rs:67-86 | without the apex token no step adds live or unaware contexts |
| TaskManager.EveryWorkerHelps | src/runtime/task_manager.rs:127-134 | every live context's own next step, noticing the signal or leaving after it, makes that count smaller |
| TaskManager.PhaseRun | src/runtime/task_manager.rs:127-134 | over any run after the broadcast each turn of a worker takes it from unaware to aware to gone, and no other step takes it back |
| TaskManager.FairShutdown | src/runtime/task_manager.rs:67-86 | after the broadcast, under any schedule in which every worker still there at the end has had two turns of its own, none is there, no token is left and a waiting `stop` returns |
| TaskManager.StopCompletes | src/runtime/task_manager.rs:67-86 | from any reachable state any `stop` call can be brought to its return by workers that reach their wait and leave only after noticing the signal |
| TaskManager.Manager.SpawnTask | src/runtime/task_manager.rs:43-64 | the critical section of `spawn` is clone, subscribe, start, or nothing but an empty handle; it keeps the invariant |
| TaskManager.Manager.BeginStop | src/runtime/task_manager.rs:67-81 | `stop` drops the apex token, then broadcasts; it keeps the invariant |
| TaskManager.Manager.BeginTaskStop | src/runtime/task_manager.rs:109-110 | `Task::stop` borrows the handle until it returns |
| TaskManager.Manager.SendTaskStop | src/runtime/task_manager.rs:110-112 | its message is queued if the context lives, the send waits while the channel is full and fails without a context; then it waits for the hold |
| TaskManager.Manager.FinishTaskStop | src/runtime/task_manager.rs:113-116 | it returns with the hold taken, once that is released |
| TaskManager.Manager.Notice | src/runtime/task_manager.rs:127-134 | `wait_for_stop` returns on a pending broadcast, lagged or not |
| TaskManager.Manager.NoticeOwn | src/runtime/task_manager.rs:127-134 | and on its own channel, for a queued message or a dropped handle |
| Registry.Reachable | src/session/session_manager.rs:63-149 | with fresh ids the registry invariant holds over every interleaving of starts, inserts, exits and stopped messages |
| Registry.RegistrySound | src/session/session_manager.rs:63-86 | from registration until its stopped message is processed or the map drained, an id maps to its own worker; an entry whose worker is gone has that message to come, or never will: the worker never ran or the entry was inserted late |
| Registry.EntryIff | src/session/session_manager.rs:127-141 | exactly which entries are there while the map is not drained and the id not reused: those of workers with a message to come, never started, or inserted late; that of a processed worker exactly if late |
| Registry.NeverRemovesAnother | src/net/connection_manager.rs:82-106 | a stopped message removes its sender's entry or a dead leftover, never that of a worker still to be heard of |
| Registry.ProcessedInOrder | src/session/session_manager.rs:127-141 | stopped messages are processed in the order in which they were sent, each once |
| Registry.StopEmpties | src/session/session_manager.rs:54-61 | after a manager's stop the map is empty and no stopped message is processed any more; it is not drained before its worker has ended |
| Registry.ManagesUntilStopped | src/session/session_manager.rs:54-61 | in any run a manager processes messages until its worker has ended, and its map has been drained if and only if a drain came after that |
| RegistryLimits.LateEntry | src/session/session_manager.rs:69-81 | an entry can never be removed again, short of draining the map or reusing the id, if and only if at its insertion the manager's worker has ended, the stopped message was processed, or the worker never ran |
| Registry.LateEntryStays | src/net/connection_manager.rs:65-74 | a leaked entry stays until the map is drained, unless its id is drawn again |
| RegistryLimits.Collision | src/session/session_manager.rs:78-85 | after fresh ids, one more draw of an id can leave a registered running session without its entry if and only if the new one is started and the id belongs to a registered running session, or to one with a message to come that is still to be inserted under an empty id |
| RegistryLimits.Harm | src/session/session_manager.rs:78-85 | and how: the one of the two without entry sends its stopped message, which removes the other's |
| RegistryLimits.TakesEntryAlong | src/session/session_manager.rs:127-141 | a worker whose message is to come can leave and take the entry under its id along, whose ever it is |
| Registry.WorkOff | src/session/session_manager.rs:127-141 | the manager can work off its whole inbox, and what it has processed is gone from the map |
| Registry.IdsBelow | src/net/connection.rs:221-232 | ids drawn so far are below the count of starts |
| Registry.CountedIsFresh | src/net/connection_manager.rs:63-75 | within the 64-bit range generated ids are pairwise distinct, so all of the above holds of connections |
| Managers.Manager.Register | src/session/session_manager.rs:78-85 | inserting: refuses an id that is present (sessions) or overwrites (connections) |
| Managers.Manager.Find | src/session/session_manager.rs:88-120 | `play` and `teardown` find a worker exactly if the id is in the map, and it has that id |
| Managers.Manager.OnStopped | src/session/session_manager.rs:127-141 | the sender's id is removed and no other |
| Managers.Manager.Stop | src/session/session_manager.rs:54-61 | after the worker has ended, every registered worker is stopped and the map is empty |
| Managers.ConnectionIdGenerator.Generate | src/net/connection.rs:228-232 | ids count up from zero |
| Managers.SpawnConnection | src/net/connection_manager.rs:63-75 | a spawn draws the next id, starts (or not, if the task manager is stopping), inserts, and keeps the run counted and so the registry sound |
| Timestamps.H264State.constructor | src/libcam/libcam.rs:188-198 | the frame duration is the whole microseconds of one frame at the configured rate, 0 counting as 1 |
| Timestamps.H264State.OnFrame | src/libcam/libcam.rs:223-244 | each frame after a successful analysis gets the repaired timestamp of the whole history; earlier ones are dropped; the stream is announced at most once, if its description can be built |
| Timestamps.Advances | src/libcam/libcam.rs:236-244 | timestamps start at zero, strictly increase, never fall behind the sensor |
| Timestamps.Increasing | src/libcam/libcam.rs:236-244 | strictly, between any two frames |
| Timestamps.Explained | src/libcam/libcam.rs:236-244 | every timestamp is a sensor timestamp carried on at the nominal frame rate |
| Timestamps.ExactIff | src/libcam/libcam.rs:236-244 | they are the sensor's own throughout if and only if those strictly increase |
| Timestamps.DriftDecays | src/libcam/libcam.rs:236-244 | over frames at least a frame duration apart the drift never grows, and shrinks by the excess until it is gone |
| Timestamps.FitsInt64 | src/libcam/libcam.rs:236-244 | for sensor timestamps within a span of the first, no 64-bit operation of n + 1 frames overflows if and only if the latest timestamp possible fits |
| Transport.ResolvedTarget | src/session/setup.rs:80-112 | a supported candidate resolves to TCP on the channels it named or 0 and 1, to nothing without a lower protocol, and never to UDP; what it said is kept |
| Transport.SupportedIff | src/session/transport.rs:15-52 | supported is what names neither UDP nor any parameter of UDP, multicast, recording or the server's choice |
| Transport.FromCandidates | src/session/setup.rs:20-57 | exactly when SETUP succeeds and with what: the first candidate that names neither UDP nor multicast, destination, append, ttl, layers, ports, ssrc or a mode other than PLAY, its TCP target and all streams; each error exactly in its case |
| Transport.ChannelChoice | src/session/setup.rs:98-103 | the channels are the first pair or single one named, a single one with the next for RTCP (section 12.39 of RFC 2326), which is 0 after 255, or 0 and 1 |
| Transport.UdpTarget | src/session/setup.rs:85-96 | where a UDP candidate would be sent |

## Left out

- The muxer (a submodule): taken by contract, one frame to a finite list of RTP and RTCP messages, RTP numbered consecutively, or an error. RTP timestamps and payloads are not part of this model.
- Reinitialising the muxer on a source reset (src/session/mod.rs:187-215): nothing sends on that channel; only its closing is kept, as an exit.
- tokio's channels, locks and `select!`: taken by contract. Ring capacity is a parameter, because tokio may round it up. Sends into a broadcast channel nobody listens to are counted too, which no receiver can see.
- Sockets, codecs, timers: a failed or timed-out write is a free choice that ends the connection after any number of the batch's messages.
- Partial writes during a batch: `feed` also writes once the codec's buffer is full (src/net/connection.rs:113-116). Here a batch reaches the wire at its flush or at a failure; the order of messages is the same.
- Requests carrying interleaved data, which the connection ignores (src/net/connection.rs:165-167), and the building of responses (src/app/handler.rs): a request is its number, a handler a period in which the worker does nothing else.
- Whether a connection ended as Disconnected or Closed: kept only as the writer's `disconnected` flag, since both messages are handled alike.
- How session ids are drawn: freshness is a hypothesis of the registry theorems, and `RegistryLimits.Collision` says exactly when it is needed.
- The source manager and its SDP cache, MQTT, statistics, detection, configuration: the same shapes again, or plumbing.
- Dropping a future half-way (cancellation of `play`, `stop` or `spawn`): calls run to their await points.
- Overflow of `usize` cursors and of the frame counter of the ring, 64 bits wide: unbounded here. `dropped_frames` is proved to be at most 1, so it needs no such care.
- TaskManager.StopCompletes: a completing schedule; what a fair one does is `TaskManager.FairShutdown`. That every worker gets to its wait is an assumption, and not one a connection inside a stranded `play` meets.
- Transport.ChannelChoice: at channel 255 the source's addition wraps only without overflow checks; with them it panics.
- Transport: the accessors and `with_parameter` of the RTSP library (a submodule) are taken to be the first parameter of a kind and appending one.
