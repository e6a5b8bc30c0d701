# Goblins runtime: a verified model of its bounded state machines

Goblins runs sandboxes under per-goblin supervisor processes. This project models the code
that moves frames, file descriptors, events and leases between those processes, and proves
what that code guarantees in every run: over every interleaving of its steps, every short
read and write, and every failure of the system calls beneath it.

| file | what it models |
|---|---|
| `Bytes`, `HeaderText`, `Framing`, `Codec`, `FrameDecoder` | Content-Length framing (Language Server Protocol 3.17, Base Protocol, Header Part): the incremental decoder, its one-shot meaning, the encoders |
| `Nesting`, `References` | the JSON nesting scan (RFC 8259 sections 4, 5 and 7) and the `$fd` reference walk |
| `ChannelSpec`, `ChannelStream`, `Channel` | the framed descriptor channel: one call, whole runs over a kernel stream, and the object |
| `Lease` | resource leases: shared and exclusive locks, and cleanup by the last holder |
| `ScopeDocker`, `ScopeServer`, `ScopeSession`, `ScopeClientSteps`, `ScopeServerSteps`, `ScopeRuns`, `ScopeBatches`, `ScopeClient` | scope membership: the Docker engine's accounting, the server loop, clients against it over FIFO streams, transactions split over frames, the client's receive loops |
| `RelaySpec`, `RelayRuns`, `Relay` | the sandbox relay and its gate |
| `TerminalSpec`, `TerminalRuns`, `Terminal`, `Terminals` | the PTY terminal, and the set of terminals served in turn |
| `Results`, `EngineModel`, `Engine`, `WorkerSession` | the worker's bounded output, the engine that joins all producers in one 16-slot queue, and both together |
| `Seccomp`, `CivilDate` | the BPF program builder and the civil-date arithmetic |

Components that the source updates in place have two forms here. A function on values says
what one step does for any behaviour of its environment (a `...Spec` module, or the
functions at the head of a module), and the run theorems are about those functions. A class
with the source's fields and loops is proved to compute exactly that function. The engine is
modelled as a class only. Every method keeps its invariant `Valid`; `HandedOut` and
`ClosedBeforeStop` say what that means for everything handed out, and `RunScript` drives it
through any script of commands, polls and worker steps, and ties the answers to that script.
The relay and the terminals inside the engine are the ones modelled in their own modules,
lent a queue as full as the engine's.

System calls, the policy, the JSON parser and clocks are parameters: scripts of kernel
answers, oracle records (`Env`, `Foreign`, `Round`, `TickEnv`), or uninterpreted functions.
Histories that the theorems need (what was sent, queued, read or emitted so far) are ghost
fields or record fields that no step reads to decide anything.

## What turned out different

- **Replies can be taken for another request's answer, in three cases.** Successes never are.
  `RepliesMatch` says exactly when an error is, for every client. First, when duplicating
  the PID namespace fails after `Joined` has been queued
  (`libs/supervisor/src/scope_process.rs:284-294`), the member also gets an error and is closed;
  a client that has heard `Joined` takes that error for the answer to its next request
  (`LateJoinIsMistaken`). Second, an exchange begun after `begin_leave` can take `Left`
  (`LeftIsTakenRun`); from then on the client is behind by one answer and each exchange takes
  the error of the one before (`SlippedErrorIsMistaken`). Third, a repeated `begin_leave` is
  answered by an error that a later exchange takes (`RepeatedLeaveIsMistaken`).
- **A server start can leave input buffered on a detached terminal.** `Terminals::started`
  sets `detached` itself and does not clear the PTY input buffer
  (`libs/supervisor/src/terminals.rs:70-80`). The next tick or attach clears it before anything is
  written, so no input reaches the PTY after a detach. `InputIsFromTheConsumer`: a detached
  terminal has input buffered exactly when such a start, with no tick or attach since, found
  some; `MarkingKeepsInput` shows it is real.
- **The resources directory can stay behind.** Only a lease's drop tries the exclusive lock
  (`libs/runtime/src/lease.rs:128-146`). `GoneIffDropping`: when no lock is shared any more, the
  directory goes exactly if a drop is under way then. It stays when the last lock goes another
  way: a raw copy closed last (`RawCopyLeavesDirectory`), a lease that dies in a message
  (`AbandonLeavesDirectory`), or one whose adoption is refused
  (`RefusedAdoptionLeavesDirectory`, `libs/runtime/src/lease.rs:108-126`).
- **`queue` accepts bodies that `receive` refuses.** It does not check nesting, so a body nested
  deeper than 32 closes the peer (`DeepBodyIsIllegal`); `DeepArraysAreRefused` shows it on 33
  nested arrays. `LegalIffReadable` is the exact condition: a frame that can be sent is legal if
  and only if the receiver reads its body within the nesting limit and its references are a bijection
  onto its descriptors. While that holds of every frame an honest peer is never refused
  (`HonestIsAccepted`).

## Model

| member | source | states |
|---|---|---|
| Framing.ChunksArePush | libs/jsonrpc/src/lib.rs:197-262 | any split of a byte string into pushes gives the same body, the same total consumed and the same acceptance as one push |
| Framing.PushSplit | libs/jsonrpc/src/lib.rs:197-262 | cutting the input of a push anywhere changes nothing |
| Framing.PushMeans | libs/jsonrpc/src/lib.rs:197-262 | from every pending state the decoder decides exactly as the one-shot reading of all bytes so far: header end at the first blank line, limits, body |
| Framing.VerdictIsStable | libs/jsonrpc/src/lib.rs:207-261 | a verdict once reached does not depend on later bytes |
| Framing.PushKeepsSound | libs/jsonrpc/src/lib.rs:189-193 | while a frame is pending `remaining` is positive, all bytes are kept, and a whole frame consumes no more than was given |
| Framing.WithinRemaining | libs/jsonrpc/src/lib.rs:189-193 | a chunk no longer than `remaining` never reaches past the current frame |
| FrameDecoder.Decoder.PushBytes | libs/jsonrpc/src/lib.rs:197-262 | the loop computes the functional decoder before its deadline; the first byte starts the deadline, and an expired decoder refuses without change |
| Codec.PlainFrame | libs/jsonrpc/src/lib.rs:145-153 | an encoded frame decodes to its own body whatever follows; its header fits 256 bytes and has no early terminator |
| Codec.CountedFrame | libs/runtime/src/channel.rs:141-147 | a frame with a descriptor count decodes to its own body and count |
| Codec.RoundTrip | libs/jsonrpc/src/lib.rs:145-261 | decoding the concatenated encodings of any list of nonempty bodies within the limit, with a fresh decoder each, returns that list and leaves nothing |
| Nesting.TooDeep | libs/jsonrpc/src/lib.rs:74-99 | the loop refuses exactly when the step-by-step scan does |
| Nesting.ScanIsExact | libs/jsonrpc/src/lib.rs:74-99 | for every JSON value and its text, the scan refuses exactly when containers nest deeper than 32, and otherwise ends at depth 0 outside a string |
| Nesting.NestedIsDeep | libs/jsonrpc/src/lib.rs:74-99 | for every n, n nested arrays are a JSON value of depth n whose text has 2n bytes |
| References.AcceptedIsBijection | libs/runtime/src/channel.rs:71-100 | a message is accepted with `count` descriptors exactly when its `$fd` references are a bijection onto 0..count |
| ChannelSpec.QueueKeepsBudget | libs/runtime/src/channel.rs:126-162 | queued byte and descriptor counts stay equal to the sums over pending frames, caps hold, and a refused frame changes nothing |
| ChannelSpec.EmptyNeverBlocks | libs/runtime/src/channel.rs:126-162 | an empty open channel never answers that it would block, and takes a frame exactly when it is valid |
| ChannelSpec.FlushKeepsBudget | libs/runtime/src/channel.rs:188-252 | every pattern of short and failed writes keeps the counts exact, or closes the channel |
| ChannelSpec.ReceiveKeepsBudget | libs/runtime/src/channel.rs:292-383 | receiving keeps the output counts exact |
| ChannelStream.FlushMoves | libs/runtime/src/channel.rs:188-252 | a flush moves a front part of the waiting bytes, each with its descriptors, and all others still wait |
| ChannelStream.ReceiveFollows | libs/runtime/src/channel.rs:262-383 | for every stream and every pattern of short reads, the channel's buffers and deliveries are those the stream read so far means; an error closes it |
| ChannelStream.DeliveredIsPrefix | libs/runtime/src/channel.rs:126-383 | in every run of two channels, the frames delivered are a prefix of those queued, each with its body and exactly its own descriptors |
| ChannelStream.DrainedDeliversAll | libs/runtime/src/channel.rs:126-383 | when both ends are open and nothing waits, every queued frame has been delivered |
| ChannelStream.AnyPeer | libs/runtime/src/channel.rs:262-383 | for every possible peer stream and in every state, the frames delivered are a front part of what the stream read so far means; all of them when the channel is open with nothing undecoded, and then the stream is legal; without a timeout, a failed read or the end of the stream only an illegal stream closes the channel; a closed channel owns no descriptor |
| ChannelStream.HonestIsAccepted | libs/runtime/src/channel.rs:126-383 | an honest peer is never refused: if every queued body reads back within the nesting limit, no deadline passes and no read fails, the receiver stays open while the sender is, under every pattern of short writes and reads |
| ChannelStream.DeepBodyIsIllegal | libs/runtime/src/channel.rs:262-291 | a body the nesting scan refuses can be queued on an empty open channel, and every receiver refuses its frame |
| ChannelStream.LegalIffReadable | libs/runtime/src/channel.rs:262-291 | the frame of a payload that can be sent is legal if and only if the receiver's parser reads its body within the nesting limit, with references that are a bijection onto its descriptors |
| ChannelStream.DeepArraysAreRefused | libs/runtime/src/channel.rs:126-162 | 33 nested arrays are queued on a fresh channel, and whatever its parser, a receiver that has decoded all of their frame has closed |
| ChannelStream.MeaningOfFrames | libs/runtime/src/channel.rs:262-291 | the frames of a stream cut it into consecutive pieces; each frame's descriptors came with its first byte and no other, and its references are a bijection onto them |
| Channel.Channel.Queue | libs/runtime/src/channel.rs:126-162 | the method computes the specified step; a refusal gives the caller every descriptor back |
| Channel.Channel.Flush | libs/runtime/src/channel.rs:188-252 | the send loop computes the specified flush and keeps the budgets |
| Channel.Channel.Decode | libs/runtime/src/channel.rs:262-291 | one decoding attempt on the buffered input |
| Channel.Channel.Receive | libs/runtime/src/channel.rs:292-383 | the read loop computes the specified receive |
| Channel.Channel.Close | libs/runtime/src/channel.rs:163-180 | a closed channel owns no descriptor and no bytes |
| Lease.HeldDirectoriesExist | libs/runtime/src/lease.rs:83-146 | for every interleaving of share, transfer and drop, the directory exists while a lease on it is held or in flight, or a raw lock copy is open |
| Lease.GoneIffDropping | libs/runtime/src/lease.rs:128-146 | at any moment when no lock is shared on the directory and nobody is left to share one, it will be gone once every drop has finished exactly if it is gone already or a drop is under way then |
| Lease.LastDropRemoves | libs/runtime/src/lease.rs:128-146 | when the last holder is dropped with no raw copy left, the directory is gone once all drops finish, however they interleave |
| Lease.RawCopyLeavesDirectory | libs/runtime/src/lease.rs:92-94 | a run in which a raw copy closed last leaves the directory behind |
| Lease.AbandonLeavesDirectory | libs/runtime/src/lease.rs:101-107 | a run in which the last lease dies in a message and leaves the directory behind |
| Lease.RefusedAdoptionLeavesDirectory | libs/runtime/src/lease.rs:108-126 | a run in which the last lease is refused by its receiver and leaves the directory behind |
| ScopeDocker.ApplyKeeps | libs/supervisor/src/scope_docker.rs:155-280 | a transaction, succeeding or failing anywhere, keeps granted destinations distinct and not nested, keeps earlier grants and leases, counts one user exactly on a successful attach, and changes nothing on a conflict |
| ScopeDocker.CheckAllAgrees | libs/supervisor/src/scope_docker.rs:181-186 | a checked transaction agrees with everything granted and with itself |
| ScopeDocker.BindKeeps | libs/supervisor/src/scope_docker.rs:281-318 | binding cut short at any point adds only wanted grants and keeps destinations disjoint |
| ScopeDocker.DetachKeeps | libs/supervisor/src/scope_docker.rs:319-331 | one user less; the engine and everything it kept go with the last |
| ScopeDocker.Docker.ApplyTransaction | libs/supervisor/src/scope_docker.rs:155-280 | the method computes the specified transaction and keeps the invariant |
| ScopeDocker.Docker.CheckTransaction | libs/supervisor/src/scope_docker.rs:181-186 | the loop accepts exactly a transaction whose every grant agrees with those before it |
| ScopeDocker.Docker.DetachUser | libs/supervisor/src/scope_docker.rs:319-331 | the user count never underflows |
| ScopeServer.RespondKeeps | libs/supervisor/src/scope_process.rs:260-445 | any request with any failure keeps the member's flags consistent, moves the user count exactly with its Docker flag, and closes the member exactly when a request other than a Docker one failed |
| ScopeServer.JoinKeeps | libs/supervisor/src/scope_process.rs:278-295 | a member that joins is compatible with the scope it joins |
| ScopeServer.SweepKeeps | libs/supervisor/src/scope_process.rs:446-454 | sweeping gives back the Docker use of exactly the members it forgets |
| ScopeServer.NextKeeps | libs/supervisor/src/scope_process.rs:220-478 | every step of the server keeps the invariant on which its unwraps and its user count rely |
| ScopeServer.Accounting | libs/supervisor/src/scope_process.rs:276-454 | in every reachable state: users are the attached members, the engine exists exactly while there is one, it exists only in a scope with Docker, nothing is kept without it, destinations never overlap, and a joined member has its scope |
| ScopeServer.ScopeProcess.ServeMember | libs/supervisor/src/scope_process.rs:260-445 | serving one frame computes the specified response and replies |
| ScopeServer.ScopeProcess.SweepMembers | libs/supervisor/src/scope_process.rs:446-454 | the two loops compute the specified sweep |
| ScopeServer.ScopeProcess.AcknowledgeLeavers | libs/supervisor/src/scope_process.rs:183-198 | `Left` goes once to every open leaver, and only channels that took everything are closed |
| ScopeServer.ScopeProcess.AcknowledgeIfMembersRemain | libs/supervisor/src/scope_process.rs:199-204 | leavers are released only while an active member remains |
| ScopeServer.ScopeProcess.FinishStop | libs/supervisor/src/scope_process.rs:205-211 | every member is cleaned up, then the scope dropped, then leavers acknowledged |
| ScopeServer.ScopeProcess.CheckIdle | libs/supervisor/src/scope_process.rs:456-465 | idle is reported only without active members, at most once for each number of members added |
| ScopeServer.ScopeProcess.OpenDirectories | libs/supervisor/src/scope_process.rs:304-328 | the loop accepts exactly distinct names and collects all of them |
| ScopeRuns.RepliesMatch | libs/supervisor/src/scope_client.rs:119-164 | in every run, for every client and with exchanges cancelled and streams cut anywhere: a taken success answers the request asked and is of the kind expected; a taken `Left` never is an answer, and only an exchange begun after `begin_leave` takes it; a taken error answers another request exactly if the Join failed late, the client was behind by one answer, or had begun to leave twice |
| ScopeRuns.LeaveIsReleased | libs/supervisor/src/scope_client.rs:336-375 | `finish_leave` succeeds only after that member's `Left`, queued when its payloads were gone and its Docker use given back, while another member was active or the scope dropped; the member keeps neither ever after |
| ScopeServerSteps.ReplyShape | libs/supervisor/src/scope_process.rs:269-445 | a request is answered by the success it expects or by an error, by both exactly when a Join fails late and the channel takes the report, and the Leave of an active member by nothing yet; a failed request goes unanswered only when the channel does not take the report |
| ScopeRuns.StepKeeps | libs/supervisor/src/scope_process.rs:220-478 | every step of server, streams and clients keeps the matching of replies |
| ScopeRuns.LateJoinIsMistaken | libs/supervisor/src/scope_process.rs:284-294 | a run in which the error of a late Join failure is taken for another request's answer |
| ScopeRuns.SlippedErrorIsMistaken | libs/supervisor/src/scope_client.rs:330-335 | a run in which an exchange begun after `begin_leave` takes `Left` and the next one takes its error, without a late Join failure |
| ScopeRuns.RepeatedLeaveIsMistaken | libs/supervisor/src/scope_client.rs:330-335 | a run in which an exchange takes the error that answers a repeated `begin_leave` |
| ScopeRuns.FewUnread | libs/supervisor/src/scope_process.rs:260-445 | in every run the channel of an open member holds at most three frames its client has not heard |
| ScopeRuns.ReportFits | libs/runtime/src/channel.rs:126-162 | in every run, whatever the sizes of the frames within the channel's limits, if errors and `Left` are at most 1 MiB then the channel of an open member has room for one more error, in frames and in bytes, also if nothing its client has not heard has been written yet |
| ScopeBatches.DockerIsOneTransaction | libs/supervisor/src/scope_client.rs:287-321 | for any number of frames, any steps of the server between them and any outcome of each, with this member's channel closing or the server stopping at any time: if the member is lost or a frame before the last fails, the server is as if none had been sent, apart from the transaction a lost member had begun; otherwise it is as if the whole transaction had come in one frame where the last one did |
| ScopeBatches.OthersCommute | libs/supervisor/src/scope_process.rs:342-400 | every other step between two frames, closing and stopping included, goes as if no transaction were begun |
| ScopeBatches.BatchesCover | libs/supervisor/src/scope_client.rs:296-303 | the batches concatenate to the parts and each fits one frame's descriptors |
| ScopeClient.StorageAnswersNames | libs/supervisor/src/scope_client.rs:221-245 | a storage reply passes the client's check of its names |
| ScopeClient.Connection.Exchange | libs/supervisor/src/scope_client.rs:119-164 | refused while a reply is owed; otherwise the first frame settles it, and an interrupted exchange still owes its reply |
| ScopeClient.Connection.FinishLeave | libs/supervisor/src/scope_client.rs:336-375 | succeeds exactly when the frames are the owed reply, if any, and then `Left` |
| RelayRuns.TracesAreWellFormed | libs/supervisor/src/relay.rs:39-156 | for every connection and schedule: opened once, at most two calls with at most one unanswered, only `initialize` before one succeeded, closed at most once, then nothing; the event queue stays within 16 |
| RelayRuns.DrainedHasClosedAll | libs/supervisor/src/relay.rs:96-114 | when the relay is drained, every connection opened has had its closure |
| RelayRuns.QueuedIsUnsent | libs/supervisor/src/relay.rs:158-196 | `queued` is the number of unsent bytes and within 2 MiB, what was written is the front part of what was queued, and input stays within its cap |
| RelayRuns.TurnKeeps | libs/supervisor/src/relay.rs:167-288 | a turn yields a call only when none is unanswered, at most twice, and only `initialize` before initialization, through the gate at libs/runtime/src/sandbox.rs:84-145 |
| RelayRuns.StepKeeps | libs/supervisor/src/relay.rs:38-156 | every step of any schedule keeps the invariant |
| Relay.Relay.Open | libs/supervisor/src/relay.rs:39-69 | opens with event capacity, within eight connections |
| Relay.Relay.Send | libs/supervisor/src/relay.rs:71-90 | a reply completes exactly the waiting call it names |
| Relay.Relay.End | libs/supervisor/src/relay.rs:96-110 | every connection closes at once and its closure follows as there is room |
| Relay.Relay.Tick | libs/supervisor/src/relay.rs:123-155 | the retain loop over peers computes the specified round |
| Relay.Peer.FlushOnce | libs/supervisor/src/relay.rs:167-196 | one write of the front message; the counter never underflows on reachable peers |
| Relay.Peer.ReadOnce | libs/supervisor/src/relay.rs:197-288 | one read and at most one checked call |
| TerminalRuns.OutputIsContiguous | libs/supervisor/src/terminal.rs:282-386 | in every run the retained buffer is at most 65536 bytes and the newest part of the PTY's output; each consumer gets its handshake and then one contiguous piece; pieces never overlap or go back |
| TerminalRuns.FirstConsumerGetsEverything | libs/supervisor/src/terminal.rs:306-386 | a terminal neither launched detached nor marked by a server start before its first attachment gives a first consumer that stays until completion every PTY byte |
| TerminalRuns.CompleteMeansDelivered | libs/supervisor/src/terminal.rs:357-380 | completion is announced only when the consumer has had all output since it attached |
| TerminalRuns.InputIsFromTheConsumer | libs/supervisor/src/terminal.rs:214-281 | without a consumer no input is buffered; with a detached one some is exactly when a server start that no tick or attach has followed found some; bytes written to the PTY are bytes that attachment sent before detaching, in order, a prefix when no PTY write failed |
| TerminalRuns.MarkingKeepsInput | libs/supervisor/src/terminals.rs:70-80 | a run showing that window |
| TerminalRuns.StepKeeps | libs/supervisor/src/terminal.rs:226-386 | every step keeps the invariant behind these |
| Terminal.Terminal.RefreshPeer | libs/supervisor/src/terminal.rs:249-281 | reads from the consumer within the cap, discards after a detach, lets a closed one go |
| Terminal.Terminal.AttachPeer | libs/supervisor/src/terminal.rs:226-248 | one consumer at a time, none after completion |
| Terminal.Terminal.DetachPeer | libs/supervisor/src/terminal.rs:214-225 | a detach empties the PTY input buffer |
| Terminal.Terminal.AcceptWaiting | libs/supervisor/src/terminal.rs:284-310 | the accept loop answers at most four connections |
| Terminal.Terminal.ReadMaster | libs/supervisor/src/terminal.rs:311-355 | lossless backpressure while attached or before the first consumer, a bounded tail otherwise |
| Terminal.Terminal.Tick | libs/supervisor/src/terminal.rs:282-386 | a tick computes the specified step |
| Terminals.EverybodyIsServed | libs/supervisor/src/terminals.rs:195-238 | in every run, between two visits of one terminal every other that was there all along is visited, and the event queue stays within 16 |
| Terminals.TickIsInTurn | libs/supervisor/src/terminals.rs:202-212 | a round visits the terminals in cyclic order from the cursor, also when it stops early or removes some |
| Terminals.RemovedIsSettled | libs/supervisor/src/terminals.rs:213-236 | an exposed terminal is removed only when interrupted, left detached, or fully delivered |
| Terminals.Serve | libs/supervisor/src/terminals.rs:213-236 | an exposed terminal that stays has had its current status reported |
| Terminals.TerminalSet.TickAll | libs/supervisor/src/terminals.rs:195-238 | the service loop computes the specified round |
| Results.Results.Send | libs/supervisor/src/results.rs:44-67 | everything sent stays in order across channel and held events; cancellation holds at most two; an event is lost exactly when the receiver is gone |
| Results.Results.FinishHeld | libs/supervisor/src/results.rs:71-83 | held events leave in order, all of them while there is a receiver |
| Results.WorkerLife | libs/supervisor/src/results.rs:35-88 | whatever the receiver's pace and whenever cancellation is seen, what the receiver gets is a front part of the events sent and the final one, in order; all of it if it stays |
| Engine.Engine.HandedOut | libs/supervisor/src/engine.rs:181-224 | of a reachable engine: what it has handed out holds the worker's results but `Stopped` in the order sent, each once, all of them when nothing is left inside; `Stopped` at most once and after everything of the worker and the relay; once `Stopped` is out or the engine released, no job, prepared directory or capability |
| Engine.Engine.ClosedBeforeStop | libs/supervisor/src/engine.rs:206-224 | once `Stopped` is out, every connection whose opening was handed out has had its closure handed out before it |
| Engine.RunScript | libs/supervisor/src/engine.rs:851-916 | for every interleaving of send, poll and worker steps no assertion fails, and the answers follow the script: they hold what the worker sent up to its stop or end, in order and each once; a poll that starts a round and finds nothing has handed out all of it, and `Stopped` too unless the engine has jobs, work or closures left; after every step the queue is within 16, a release is made only by a poll that finds nothing, and once `Stopped` is handed out or the engine released there is no job, prepared directory or capability |
| WorkerSession.RunSession | libs/supervisor/src/results.rs:44-88 | a worker's bounded output and the engine together, at any pace and among any other steps: what `poll` hands out of the worker is a front part of what it sent, in order; all of it if the receiver stays and the session ends with a round that finds nothing; `Stopped` at most once |
| Engine.Engine.Report | libs/supervisor/src/engine.rs:181-187 | called only with room in the queue |
| Engine.Engine.FinishStop | libs/supervisor/src/engine.rs:206-224 | `Stopped` is queued exactly when a stop is pending, there is room, no host job runs, none of its results is queued, the relay is drained, and deferred work and cached exports are empty |
| Engine.Engine.ReleaseResources | libs/supervisor/src/engine.rs:190-205 | prepared directories go at once, the publication as soon as no job or job result needs it |
| Engine.Engine.PreserveExports | libs/supervisor/src/engine.rs:234-242 | every export accepted before a stop is materialized with the capability of that moment |
| Engine.Engine.HandleResult | libs/supervisor/src/engine.rs:274-332 | a result is queued last in its step, or kept exactly when it is `Started` and two slots are not free; a stop closes the sandbox and waits |
| Engine.Engine.ObserveDisconnect | libs/supervisor/src/engine.rs:338-357 | a worker that has ended without a final result gets one failure, before the closures, and one pending stop; the sandbox is closed either way |
| Engine.Engine.CollectDeferred | libs/supervisor/src/engine.rs:243-263 | outcomes and then deferred commands leave from the front, in order, and only with room for what they may report; a refused one stays at the front |
| Engine.Engine.OpenPeer | libs/supervisor/src/engine.rs:375-389 | a connection is accepted only with room and while the sandbox runs, and is the relay's own opening step on a queue as full as the engine's |
| Engine.Engine.TickRelay | libs/supervisor/src/engine.rs:390-397 | the relay's own round on a queue as full as the engine's; a drained relay emits nothing after `Stopped` |
| Engine.Engine.FinishHostJobs | libs/supervisor/src/engine.rs:632-654 | with room, exactly the exited jobs leave, each with its result |
| Engine.Engine.ReceiveInit | libs/supervisor/src/engine.rs:445-488 | init's messages are reported in order, at most 256 and only with room, and none after the channel is lost |
| Engine.Engine.Dispatch | libs/supervisor/src/engine.rs:675-849 | commands sent at once report nothing; any other reports only with room; a refused one fails the goblin closed; an export answers with the preserved result |
| Engine.Engine.PrepareHostJob | libs/supervisor/src/engine.rs:796-809 | a directory is pinned only with the capability |
| Engine.Engine.RunHostJob | libs/supervisor/src/engine.rs:563-629 | a job starts only from a prepared directory and with the capability |
| Engine.Engine.Send | libs/supervisor/src/engine.rs:852-880 | a stop takes effect at once; a cancellation withdraws queued work or is passed on at once |
| Engine.Engine.Poll | libs/supervisor/src/engine.rs:881-916 | hands out the oldest event; collects only at the start of a round, and a round that starts with nothing to hand out has emptied the worker's channel; never takes back a release |
| Engine.Engine.TryRelease | libs/supervisor/src/engine.rs:897-914 | the engine is released exactly when the lifecycle is over and nothing is left |
| EngineModel.OutcomesAreLate | libs/runtime/src/supervisor/outbound.rs:47-67 | withdrawn requests leave outcomes that are neither results of the worker nor a stop |
| Seccomp.ProgramIsPolicy | libs/supervisor/src/seccomp.rs:11-67 | for every deny list, check list, architecture, system call and flag word, the built program always returns, and returns what the plain policy says |
| Seccomp.Filter | libs/supervisor/src/seccomp.rs:25-49 | the payload filter is the policy's instance for its deny list and namespace flags |
| Seccomp.DockerFilter | libs/supervisor/src/seccomp.rs:50-67 | the Docker filter is the instance for cgroup namespaces |
| CivilDate.DateIsInverse | libs/supervisor/src/devshell.rs:856-868 | for every number of seconds the date is valid and counting its days from 1970-01-01 gives back the number of whole days |
| CivilDate.EveryDateIsReached | libs/supervisor/src/devshell.rs:856-868 | every valid Gregorian date is the date of its own day count |
| CivilDate.Consecutive | libs/supervisor/src/devshell.rs:856-868 | consecutive days give consecutive dates |
| CivilDate.CountIsInjective | libs/supervisor/src/devshell.rs:856-868 | two valid dates with the same day count are the same |
| CivilDate.TextReadsBack | libs/supervisor/src/devshell.rs:867-868 | the printed form determines the date |

## Left out

- System calls and process control (bwrap, pasta, `/proc` scans, `kill_member`, Docker start-up): steps that succeed or fail; cleanup of a member is one step that leaves nothing registered.
- The worker, session and handoff code: the worker is a FIFO of results whose stop, if any, comes last, and which publishes its capability only before that.
- serde encoding and the JSON grammar: bodies are byte strings, the parser is an uninterpreted function, and a small value type serves the reference walk and the nesting scan.
- The policy part of `libs/runtime/src/sandbox.rs` after the method list (parameter parsing and capability checks) is an uninterpreted predicate; names and order of the checks before it are modelled.
- Wall-clock deadlines: a timeout is an oracle at the point where the source looks at the clock.
- Integer width: counters are unbounded (`added` and the relay's `next` are 64 bits in the source); `Content-Length` and the descriptor count are limited as `usize` is.
- Server log, GC, snapshots, Nix evaluation and the user interfaces: file system work and text.
- `write_filter` of the BPF builder: the instruction bytes written to a memfd are not modelled, only the instructions.
- Lease: the steps of concurrent holders are a state machine on values, because they interleave; directory removal is one step and directory names are not reused.
- ScopeSession: a reply is lost only with its channel: an error report fits an open channel of a client that follows the protocol (`ReportFits`), if errors and `Left` are at most 1 MiB; how long the text of an error gets is not part of this model.
- Engine.RunScript: payloads of events other than worker results and relay events are carried but not tracked; the log of diagnostic records is a counter.
- EngineModel: merging of queued resizes and the limits on signals and records are oracles.
- Terminals: `resize` is modelled only by the report it may make.
- Results.Results.Send: every wait on a receiver that stays ends, because it goes on taking.
