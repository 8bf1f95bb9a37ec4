# pod-harness: a verified model

A Dafny model of the parts of pod-harness in which something can go wrong between steps: threads that share
a claimed unit of work, a decoder fed in pieces, a download over connections that drop, a pipeline that runs
chunk by chunk and reports as it goes, a log a crash may tear, and the boot of a pod. The proofs speak of every
input, every run and every interleaving; foreign code (pod-control, HTTP servers, stage bodies, handlers, child
processes, the clock) is an environment that may do anything the code allows for. `dafny verify dfyconfig.toml`
checks the whole project.

## How it is laid out

| files | what they model |
|---|---|
| `worker_loop.dfy`, `worker_safety.dfy`, `worker_traces.dfy`, `worker_reports.dfy`, `worker_stops.dfy` | the worker's main loop with a beat, a prepare and an execute thread per claim, one action per lock section, remote call or shared access; what holds in every run, what the steps taken tell of a claim, what its message says, and what stops it |
| `bits.dfy`, `frames.dfy`, `octets.dfy`, `messages.dfy`, `websocket.dfy` | the ComfyUI client's WebSocket: framing, the same octet by octet, the meaning of a stream of frames, the decoder and `recv` |
| `fetch.dfy`, `fetch_proofs.dfy` | the resumable download |
| `stages.dfy`, `runner.dfy` | stages, one call of a stage, wiring, plain and chunked runs |
| `events.dfy`, `status.dfy`, `agreement.dfy`, `paging.dfy` | the event log, its snapshot, the reporter, their agreement with a run, and clients that page through the log |
| `run_shape.dfy`, `chunk_order.dfy`, `outcomes.dfy`, `wiring_proofs.dfy`, `resume.dfy`, `execute_job.dfy`, `announced.dfy` | what holds of runs: what is executed and what a status means, bracketing, no reducing over a hole, what ok is worth, wiring and planning, resuming, publish and evict, and what announcing a chunk as done is worth |
| `chunks.dfy` | the chunk planner |
| `registry.dfy` | the job registry |
| `input_cache.dfy` | the byte-budgeted cache of inputs |
| `serve.dfy`, `serve_safety.dfy` | the supervised process of the app, and `finish` |
| `single_flight.dfy`, `store_uploader.dfy` | one download per path, and uploads back to the store |
| `env_file.dfy`, `env_file_proofs.dfy` | the workload's env file |

Where the code works step by step on an object, so does the model: a class with its fields, methods with
loops, each tied by its contract to a function of the old state; the theorems are about those functions.
What several threads do to shared state is a state machine over their steps, and the theorems are about every
run of it. Where Python raises, the model returns a value that says so.

## What the proofs found

Each lemma named here gives a concrete run or an exact condition, and beside it stands what does hold.

- A writer that dies between a record and its newline leaves a line that is read; the next append spoils
  it, and its number is used again. A client that has paged past that number never sees the event that bears it
  (`Paging.NumberIsReused`). Pages are faithful if and only if that never happens to an event the client
  already has (`Paging.PagesAreFaithful`). `events.py:45-47` says that a crash truncates at most the last line.
- A chunked run does its chunk-scoped stages first wherever they stand, while wiring is checked in list order:
  a pipeline can pass wiring, skip a stage on every chunk, make none of its outputs and be ok
  (`WiringProofs.WiringMissesTheOrder`). Wiring carries over if and only if the needs are met with the
  chunk-scoped stages first (`WiringProofs.ChunkedWiring`).
- A plan says of a stage that it would run even when it says that the only stage before it with the input would
  not (`WiringProofs.PlanCountsOnTheSkipped`). It is right exactly when each stage it lists finds its needs among
  what was given and what the stages it lists before make (`WiringProofs.PlanIsRight`).
- The reporter binds a stage's progress before it counts the stage, so progress events carry the index before
  (`Agreement.ProgressStepsBack`, and for every history `Agreement.IndexIsBehind`).
- Leaving a chunk evicts files that were never sent: an upload passes over archives, keys and env files without
  raising, so a raw source `a.tar.gz` is afterwards in neither place (`ExecuteJob.ArchiveIsLost`). Nothing is lost
  exactly when a publish raised or all that is passed over was in the store before
  (`ExecuteJob.LeavingLosesNothing`).
- Leaving a chunk publishes the raw tree below the corpus root but evicts the one below a sibling named
  `corpus`; with a corpus root of another name files are lost (`ExecuteJob.OtherNamesLoseFiles`, and for the whole leave
  `OtherNamesLose`).
- The exit hook never raises, not even when a publish fails (`ExecuteJob.Hooks.Leave`), so the runner announces
  the chunk as done all the same (`Announcing.FailedPublishIsAnnounced`), which `framework.py:406-408` says means
  published. It does exactly when every file was sent or in the store before (`Announcing.AnnouncedMeansSent`).
- A `capacity` of one does not keep two handlers from running: the beat thread may drop a task that is being
  dispatched, which is then no longer counted (`WorkerSafety.TwoExecuteAtCapacityOne`). That is the only way, short
  of a handler that refuses to stop (`WorkerTraces.CapacityButForDrops`).
- Were a task id handed out again in one run, the worker would leave with a claim never ended
  (`WorkerSafety.ReusedIdIsForgotten`).
- A drain before the first start returns and the process starts all the same (`ServeSafety.EarlyDrainIsLost`).
  After a stop a process is started exactly when the first start had not begun by then and succeeds later
  (`ServeSafety.StartsAfterAStop`); what starts after one that came too early ends only by itself, by a `finish`
  or by a call already under way, never by a later drain (`ServeSafety.OnlyAnEndingKills`).
- The last fragment of a binary message is taken for the end of a text message (`Messages.BinaryTakenForText`;
  `Messages.DeliversMessages` is an if and only if).
- A key that is not an identifier is never recognised on the line it was written to, and every set adds one
  more (`EnvFileProofs.SomeKeysTwice` is an if and only if), unless its line binds another key that is set
  with it (`EnvFileProofs.MixedUpKeys`, `TwiceOnlyIfAllBind`, `TwiceIfAllBind`).
- An exception out of an upload, as when the file is gone by the time its size is logged, ends the uploader's
  thread, which nothing starts again (`StoreUploads.TheThreadDies`). Exactly then what is queued is never handed
  over (`StoreUploads.NeverHandedOver`).
- A server that ignores ranges and drops every stream keeps the download going for ever, with no size given or the
  right one of two bytes or more (`FetchProofs.IgnoringRangesNeverEnds` is an if and only if), and with no size, total or digest a stream that just ends is taken
  for the whole (`FetchProofs.UnknownTotalMayBeShort`).
- The worker's log says that after a lost lease nothing is reported (`loop.py:295`). A handler that returns after
  its last look at the stop reason is reported as done all the same (`WorkerTraces.LostButReported`).
  `WorkerTraces.LostLease` says exactly when something is said of such a claim: its start was neither accepted
  nor refused as lost, its handler returned or failed otherwise than by stopping, its prepare thread or the
  stopping loop gave it back, or the loop gave up on it; a stop is reported only when it overtook the loss.

## Model

| member | source | states |
|---|---|---|
| `WorkerSafety.AtMostOneEnding` | src/pod_harness/worker/loop.py:537-583 | in every interleaving of the main loop and the beat, prepare and execute threads at most one done or release is sent for a claim |
| `WorkerSafety.EndingsAreRight` | src/pod_harness/worker/loop.py:537-568 | only a release is sent of what never started, and a failure of a task whose app runs it itself is never reported as done |
| `WorkerSafety.CleanExit` | src/pod_harness/worker/loop.py:173-214 | `run` returns only with no task held, when draining, broken or done with its one; every claim is then closed and its beat told to end, with exactly one message unless pod-control cancelled it or took it, or its sender is stuck in a broken worker |
| `WorkerSafety.CapacityHolds` | src/pod_harness/worker/loop.py:398-408 | the tasks held never have more than `capacity` started among them |
| `WorkerSafety.ClaimsStayWithinSlots` | src/pod_harness/worker/loop.py:193-202 | held tasks never exceed capacity plus prefetch against a server that returns no more than asked, and `--once` claims one at most |
| `WorkerSafety.AtMostCapacityExecute` | src/pod_harness/worker/loop.py:398-430 | of the tasks that have not both been taken or cancelled by pod-control and ended here, no more than `capacity` execute at once until a handler refuses to stop |
| `WorkerReports.ReportsAreTrue` | src/pod_harness/worker/loop.py:457-568 | a success is reported only if the handler returned one, a failure only with the retryability the handler gave it or as a retryable one the loop gave up on, a cancellation only of a handler that stopped or was given up after a cancel or a loss; given back is only what was refused, not accepted, not started, or failed and is its app's to run |
| `WorkerReports.CausesAreActions` | src/pod_harness/worker/loop.py:457-535 | what such a report goes back to is an action of that handler, start or prepare thread, or of the main loop |
| `WorkerStops.StopsAreTrue` | src/pod_harness/worker/loop.py:289-312 | a claim is stopped only for a reason that was given: pod-control said so, its time ran out, or its handler withdrew unasked; and with a message on its way no beat follows |
| `WorkerStops.StopsAreHeard` | src/pod_harness/worker/loop.py:289-312 | whoever hears of a stop has it written before doing anything else, and the beat thread has noted when, and dropped what has not started, before its next call |
| `WorkerStops.OverIsOver` | src/pod_harness/worker/loop.py:314-408 | a beat thread told to end calls no more; a task closed or stopped when its prepare thread looks is never ready; one closed when the dispatch looks is never started |
| `WorkerStops.LooksAfterFetching` | src/pod_harness/worker/loop.py:327-338 | after fetching models the prepare thread looks whether the task is closed, then whether it is stopped, and only then makes it ready |
| `WorkerStops.DrainsWhenTold` | src/pod_harness/worker/loop.py:180-186 | the worker drains if and only if the local state or the answer to a claim has said so |
| `WorkerStops.AsksForAllSlots` | src/pod_harness/worker/loop.py:193-202 | a claim asks for exactly the free slots, or for the one |
| `WorkerStops.HeldIdsDiffer` | src/pod_harness/worker/loop.py:255-275 | whatever pod-control hands out, no two tasks held have one id |
| `WorkerStops.WatchesTheLiving` | src/pod_harness/worker/loop.py:410-414 | watched are exactly the tasks held that have started and not ended |
| `WorkerStops.OneLook` | src/pod_harness/worker/loop.py:415-421 | a look at a task stops it if its time is up, notes a stop, and then asks whether it is overdue |
| `WorkerStops.GivingUpBreaks` | src/pod_harness/worker/loop.py:421-430 | a worker that gives up on a handler is broken, whoever's report came first |
| `WorkerStops.LeavesWhenDone` | src/pod_harness/worker/loop.py:184-204 | with nothing held the loop leaves once it drains, is broken or is done with its one |
| `WorkerTraces.CapacityButForDrops` | src/pod_harness/worker/loop.py:398-408 | more than `capacity` execute only by tasks that their own beat thread's drop took out of those held |
| `WorkerTraces.OutByItsOwnDrop` | src/pod_harness/worker/loop.py:570-583 | with distinct ids and the worker not broken, a claim whose handler runs is no longer held if and only if its own beat thread dropped it |
| `WorkerTraces.LostLease` | src/pod_harness/worker/loop.py:490-535 | once the lease is lost, something is said of a claim, and only once, if and only if it was before or a thread wins the lock with an outcome of the handler, a start not accepted, a release or the giving up |
| `WorkerTraces.SaidOnlyWhenCaused` | src/pod_harness/worker/loop.py:314-339 | of a claim whose lease is lost and that no thread is ending, nothing more is said until it is refused, its start is not accepted, its handler returns or fails, or the loop gives up on it or gives it back |
| `WorkerTraces.LostButReported` | src/pod_harness/worker/loop.py:497-535 | a run in which a handler is reported as done with its lease lost and the worker not broken |
| `WorkerSafety.NothingStartsOnceStopping` | src/pod_harness/worker/loop.py:180-204 | once draining or broken, no task is ever started again and, a reply in hand apart, none is claimed |
| `WorkerSafety.TwoExecuteAtCapacityOne` | src/pod_harness/worker/loop.py:570-583 | a run with capacity one in which two handlers execute: a drop raced a dispatch |
| `WorkerSafety.ReusedIdIsForgotten` | src/pod_harness/worker/loop.py:577-583 | a run in which an id is handed out twice and the worker leaves with the second claim never ended |
| `Frames.ParseLayout` | src/pod_harness/comfy.py:108-134 | every layout of a frame (sections 5.2 and 5.3 of RFC 6455), whatever its length field, reserved bits and mask, decodes to that frame and its length, with anything behind it |
| `Frames.ParseSound` | src/pod_harness/comfy.py:108-134 | and nothing else decodes: what is decoded is the layout of the frame returned |
| `Frames.ParseMore` | src/pod_harness/comfy.py:108-134 | more bytes behind a whole frame do not change it |
| `Frames.ParsePartial` | src/pod_harness/comfy.py:108-134 | a frame cut anywhere decodes to nothing |
| `Octets.DecodedIsOnTheWire` | src/pod_harness/comfy.py:108-134 | what decodes is exactly what stands octet by octet in the buffer: the bits and the opcode of the first, the length in network byte order, and each octet of the payload under the octet of the key whose turn it is |
| `WebSocket.Client.Decode` | src/pod_harness/comfy.py:108-134 | the decoder's branches compute that decoding |
| `WebSocket.Client.NextFrame` | src/pod_harness/comfy.py:108-134 | a frame is taken from the buffer with exactly its bytes, octet by octet; without a whole frame the buffer is untouched |
| `WebSocket.Client.Send` | src/pod_harness/comfy.py:136-146 | what is sent is, octet by octet, one final frame in the shortest form, with a key and each octet of the payload under its turn of the key |
| `WebSocket.PongOctet` | src/pod_harness/comfy.py:158-160 | a ping is answered with the octet of a final pong |
| `Messages.OpcodesMean` | src/pod_harness/comfy.py:153-167 | opcodes 0 and 1 carry text on, 8 ends, 9 asks for a pong, and every other is passed over |
| `Messages.StreamDelivers` | src/pod_harness/comfy.py:148-177 | a stream of laid out frames with a cut one at its end causes what its frames mean, one after the other |
| `Messages.BinaryTakenForText` | src/pod_harness/comfy.py:161-166 | whatever its payloads and layout, a binary message in two fragments with a text behind it is delivered as two texts |
| `Messages.DeliversMessages` | src/pod_harness/comfy.py:158-166 | the client delivers exactly the messages of a well-formed stream (section 5.4 of RFC 6455) and a pong per ping, if and only if no fragmented binary message is completed in it |
| `WebSocket.Client.Recv` | src/pod_harness/comfy.py:148-177 | whatever pieces the socket yields, a call loses, repeats and reorders nothing of the stream, however it goes on; each ping taken is answered with its payload; it says closed only at a close frame, None only without a whole frame left and at the first read that times out, and ends at the first end of the stream |
| `WebSocket.CallsConserve` | src/pod_harness/comfy.py:148-177 | any number of calls conserve the stream |
| `WebSocket.SessionDelivers` | src/pod_harness/comfy.py:148-177 | over any split into reads and timed-out calls, exactly the stream's messages are delivered, under the same if and only if |
| `WebSocket.ClosedSessionDelivers` | src/pod_harness/comfy.py:156-157 | the same for a session ended by a close frame |
| `Fetch.Download.Finish` | src/pod_harness/fetch.py:105-117 | the part becomes the file only with the size and digest wanted, and is thrown away otherwise |
| `Fetch.Download.HttpDownload` | src/pod_harness/fetch.py:120-211 | the retry loop leaves the outcome, the part and the file that its passes on values come to |
| `FetchProofs.DownloadIsWhole` | src/pod_harness/fetch.py:134-211 | the part stays a beginning of the server's content through every mix of 206, 200, 416, errors and drops, and a return that knows the total, the size or a collision-free digest leaves the content |
| `FetchProofs.UnknownTotalMayBeShort` | src/pod_harness/fetch.py:184-211 | with none of them known, for every content but the empty one there is an honest server of which the download is done and short |
| `FetchProofs.DownloadEnds` | src/pod_harness/fetch.py:134-211 | against a server that honours ranges, without deadline and with the right size or none, the loop ends within 2 (n + 1) (retries + 1) requests for n bytes, however connections drop |
| `FetchProofs.GivesUpOnlyWhenDry` | src/pod_harness/fetch.py:164-207 | the loop gives up for want of a connection, or cut off, only after retries + 1 answers in a row that brought no byte |
| `FetchProofs.DownloadSucceeds` | src/pod_harness/fetch.py:134-211 | from an honest server that honours ranges, tells the total and answers without error, over connections that bring a byte at least once in retries + 1 answers, the content asked for is delivered, whatever beginning of it, or, with a size known, longer file was there |
| `FetchProofs.DownloadStartsOver` | src/pod_harness/fetch.py:155-163 | a part of other content that the server has nothing behind is thrown away, and the content delivered |
| `FetchProofs.EndsSayWhy` | src/pod_harness/fetch.py:134-211 | the link was refused if and only if the last answer was 401 or 403, the total is wrong if and only if it contradicts the size, time ran out if and only if the deadline passed; what fails the check of the whole is thrown away |
| `FetchProofs.NothingIsFetchedAgain` | src/pod_harness/fetch.py:134-211 | against a server that honours ranges the part only grows, unless a check of the whole fails |
| `FetchProofs.SameRun` | src/pod_harness/fetch.py:136-211 | watching a run for longer does not change one that has ended |
| `FetchProofs.IgnoringRangesNeverEnds` | src/pod_harness/fetch.py:170-174 | for every content but the empty one, a server that ignores ranges and drops every stream keeps the loop going for ever if and only if no size is given, or one that is neither one byte nor that of the part it found |
| `Chunks.GroupItems` | src/pod_harness/chunks.py:92-94 | each group once and whole, its items in order, the groups in the order of their first items, nothing added or lost |
| `Chunks.GroupingIsUnique` | src/pod_harness/chunks.py:92-94 | no other grouping has these properties |
| `Chunks.Pack` | src/pod_harness/chunks.py:96-109 | the groups in order, more than one in a chunk only when they fit the budget, and no chunk that could have taken the first group of the next |
| `Chunks.Plan` | src/pod_harness/chunks.py:92-109 | both together, for any items |
| `Chunks.PlanConserves` | src/pod_harness/chunks.py:92-109 | every item is in the plan once, no group is in two chunks, and a chunk of several groups is within the budget |
| `Chunks.PlanTells` | src/pod_harness/chunks.py:100-109 | a chunk tells its place and the bytes of its items |
| `Chunks.NextFitIsUnique` | src/pod_harness/chunks.py:100-109 | no other division of the groups has the properties of the packing |
| `Chunks.PlanIsUnique` | src/pod_harness/chunks.py:92-109 | so the items and the budget leave one plan only |
| `Chunks.AtMostTwiceTheBest` | src/pod_harness/chunks.py:100-109 | at most 2m - 1 chunks whenever the groups can be divided into m parts that fit |
| `Runners.Runner.Wiring` | src/pod_harness/framework.py:319-351 | wiring is ok if and only if every need is given or made earlier and no artifact is made twice |
| `Runners.Runner.Collisions` | src/pod_harness/framework.py:342-346 | the producers are counted right: a collision if and only if some artifact is listed twice |
| `Runners.Runner.Plan` | src/pod_harness/framework.py:353-365 | a stage would run if and only if its needs are present or declared by a stage before it |
| `Runners.Runner.Execute` | src/pod_harness/framework.py:470-539 | the runner's loops, hooks and reports do exactly what a run on values does: artifacts, result and every act in order |
| `RunShape.RowsAreDue` | src/pod_harness/framework.py:486-539 | a run executes the stages asked for, on the chunks there are, each once and in order, up to the first required one that goes wrong when stopping is asked for, and none after it; each row says what its call came to |
| `RunShape.NothingIsLeftOut` | src/pod_harness/framework.py:428-432 | without stopping, or with all stages optional, a run that returns has executed everything |
| `RunShape.PlannedParts` | src/pod_harness/framework.py:486 | the stages of the name asked for, or all, in their order |
| `RunShape.WhenChunksAreEntered` | src/pod_harness/framework.py:498-503 | chunks are entered if and only if a chunk-scoped stage is to run and there are two or more |
| `RunShape.HooksRaise` | src/pod_harness/framework.py:381-411 | a hook that raises ends the run: on entering before any stage and without the exit hook, on leaving after what the chunk did, unannounced |
| `RunShape.RaisedIsNoResult` | src/pod_harness/framework.py:378-445 | a chunked run has no result if and only if an exception came out of a chunk or of a job-scoped stage |
| `RunShape.LackingIsSkipped` | src/pod_harness/framework.py:132-214 | with the default check a stage is skipped if and only if an input is absent, None or empty |
| `RunShape.LackingIsFailed` | src/pod_harness/framework.py:218-252 | with the default verification a stage that returned is failed if an output is absent, None or empty, and ok otherwise |
| `RunShape.StatusMeans` | src/pod_harness/framework.py:234-252 | what each status says of the check, the work and the verification |
| `RunShape.CallsLeave` | src/pod_harness/framework.py:234-252 | a call leaves what the last code it came to left, and reports all progress on the way |
| `Outcomes.OkMeansProduced` | src/pod_harness/framework.py:218-252 | no stage reports success and produces nothing: in any verified run, whatever is recorded as ok has all it declared, present and non-empty, at the end |
| `Outcomes.UnverifiedIsNotOk` | src/pod_harness/framework.py:246-247 | a run without verification is ok only when all of its stages were skipped |
| `ChunkOrder.EveryEnteredChunkIsLeft` | src/pod_harness/framework.py:378-411 | chunks are entered in order, each left and announced before the next and before the job's stages, whatever raises; one stays resident only when its own enter hook, the last call made, raised |
| `ChunkOrder.NothingReducesOverAHole` | src/pod_harness/framework.py:395-441 | stopping on failure, a job-scoped stage starts only when no required chunk stage went wrong; the run is aborted exactly when one did, and is then not ok and records the rest as skipped |
| `WiringProofs.WiringIsSound` | src/pod_harness/framework.py:209-252 | a wired pipeline of required stages with default checks that lose no artifact skips nothing in a verified, stopping run, and if ok has every declared output, plain, or chunked when the needs are met with the chunk-scoped stages first |
| `WiringProofs.ChunkedWiring` | src/pod_harness/framework.py:498-503 | a wired, chunked pipeline of required stages skips nothing, whatever tame stages and hooks do, if and only if every need is met with the chunk-scoped stages first |
| `WiringProofs.WiringIsExact` | src/pod_harness/framework.py:331-341 | for stages that do just what they declare, wiring reports no unmet need if and only if nothing is skipped |
| `WiringProofs.PlanLeavesNothingOut` | src/pod_harness/framework.py:358-363 | for stages that do just what they declare, every stage that runs is one the plan says would |
| `WiringProofs.PlanIsRight` | src/pod_harness/framework.py:358-363 | for stages that do just what they declare, exactly the stages run that the plan says would, if and only if each of those finds its needs in what was given and what the earlier ones of those make |
| `WiringProofs.PlanCountsOnTheSkipped` | src/pod_harness/framework.py:358-363 | but not the other way: the plan counts on the outputs of a stage it says would not run |
| `WiringProofs.WiringMissesTheOrder` | src/pod_harness/framework.py:498-503 | a wired, ok, chunked run in which a stage is skipped on every chunk and its output is missing |
| `Events.EventLog.NextNumber` | src/pod_harness/events.py:191-204 | one more than the number of the last readable record |
| `Events.EventLog.Emit` | src/pod_harness/events.py:167-189 | the record goes behind whatever the file ends in, and the snapshot takes the event in |
| `Events.EventLog.Page` | src/pod_harness/events.py:336-355 | the first records after a number, at most as many as asked for and at least one if there is one |
| `Reporting.EventReporter.StageStart` | src/pod_harness/status.py:93-98 | counts and reports the start; the snapshot stays the fold of all that was reported |
| `Reporting.EventReporter.Progress` | src/pod_harness/status.py:132-149 | reports movement within a stage under the index bound before it was counted |
| `Reporting.EventReporter.StageDone` | src/pod_harness/status.py:100-109 | reports the stage's status as it is |
| `Agreement.SnapshotAgrees` | src/pod_harness/events.py:206-266 | after any finished run with distinct, non-empty stage names and chunk keys, the grid has the status of every execution and nothing else, the failures are exactly the failed and unverified ones, the job is done if and only if the result is ok, and the count is that of the executions |
| `Agreement.FailuresAreRows` | src/pod_harness/events.py:403-412 | what a summary lists as failed is what the results have, chunk by chunk |
| `Agreement.LateProgressChangesNoEnding` | src/pod_harness/events.py:241-244 | no progress event, however late, changes the ending of a stage, a cell or the job |
| `Agreement.EventsAreSeen` | src/pod_harness/events.py:232-263 | every event is seen at once at its stage and in its cell, unless it is progress and an ending is there; all else stays |
| `Agreement.EventsBearTheirChunk` | src/pod_harness/status.py:78-131 | every event of a stage bears the chunk that started last and is not done, a chunk's its key, the job's none |
| `Agreement.JobStateIsLastWord` | src/pod_harness/events.py:206-229 | the job's state is the last word on it, a failed stage's included |
| `Agreement.ProgressStepsBack` | src/pod_harness/status.py:132-143 | during a stage's progress the snapshot's index is that of the stage before |
| `Agreement.IndexIsBehind` | src/pod_harness/status.py:93-149 | after any acts the snapshot's index is the reporter's count, less one if and only if the last thing reported is progress |
| `Paging.NumbersIncrease` | src/pod_harness/events.py:179-204 | over every history of appends cut at any byte and restarts, the numbers of readable events strictly increase |
| `Paging.PagesAreFaithful` | src/pod_harness/events.py:336-355 | pages of any size, also taken during an append, always begin what can be read, each event once and in order, if and only if no append joins bytes to a last event without newline that the client has |
| `Paging.EmptyPageMeansAll` | src/pod_harness/events.py:336-355 | under that condition an empty page means, and only then, that everything was delivered |
| `Paging.NumberIsReused` | src/pod_harness/events.py:191-204 | a history in which an event's number is given to another that the client never sees |
| `Resume.Trim` | src/pod_harness/resume.py:48-96 | each mode: nothing skipped, everything before the named stage or an error for an unknown name, or the leading stages that pass |
| `Resume.Apply` | src/pod_harness/resume.py:99-109 | the stages without the skipped names |
| `Resume.LongestVerifiedPrefix` | src/pod_harness/resume.py:72-96 | auto mode skips exactly the longest prefix that is recorded as finished and still verifies |
| `Resume.ApplyLeavesTheRest` | src/pod_harness/resume.py:105-109 | what is left is the remaining suffix if and only if no later stage bears a skipped name |
| `Resume.TrimmedStaysWired` | src/pod_harness/execute_job.py:280-290 | a wired pipeline with distinct names trimmed by default verification is the remaining suffix and still wired for the same context |
| `Resume.ResumedRunIsWhole` | src/pod_harness/execute_job.py:280-290 | a resumed run that is ok has every output of the whole pipeline, the skipped stages' included |
| `ExecuteJob.Hooks.Leave` | src/pod_harness/execute_job.py:192-238 | the trees are published in order up to the first that raises; the directories go only if none did; without a mount or a corpus root nothing changes |
| `ExecuteJob.HeldAfter` | src/pod_harness/storage.py:258-284 | at the end the store holds a file if and only if it did before, or no earlier tree raised and the upload came to it and does not pass it over |
| `ExecuteJob.LeavingLosesNothing` | src/pod_harness/execute_job.py:214-235 | with a corpus root named `corpus`, no file is lost if and only if a publish raised or every file the uploads pass over was held before |
| `ExecuteJob.PassedOverAre` | src/pod_harness/storage.py:57-58 | what an upload passes over is exactly what has one of the seven patterns in its path |
| `ExecuteJob.PassedOverIsLost` | src/pod_harness/storage.py:258-284 | raw sources that are all passed over are afterwards nowhere |
| `ExecuteJob.ArchiveIsLost` | src/pod_harness/storage.py:57-58 | a raw source whose name an upload passes over is afterwards neither on disk nor in the store |
| `ExecuteJob.OtherNamesLoseFiles` | src/pod_harness/execute_job.py:230-235 | with another name, a file of a sibling `corpus` is lost unless a publish raised or the store has its name |
| `ExecuteJob.OtherNamesLose` | src/pod_harness/execute_job.py:214-235 | with another name the whole leave loses nothing if and only if a publish raised, or each file of the sibling has the size of its namesake that was sent or held, and the derived files the uploads pass over were held |
| `Announcing.AnnouncedMeansSent` | src/pod_harness/framework.py:399-409 | a chunk that was entered is announced, and then the store holds its trees if and only if each file was sent or held before; where a raise leaves a file behind, if and only if no publish raised and no unheld file was passed over |
| `Announcing.FailedPublishIsAnnounced` | src/pod_harness/execute_job.py:214-223 | a publish fails before it sends anything, and the chunk is announced as done with nothing in the store |
| `Registry.SqliteRegistry.Insert` | src/pod_harness/registry.py:186-193 | a row goes in if and only if its id and its key are new, and nothing else changes |
| `Registry.SqliteRegistry.ByKey` | src/pod_harness/registry.py:206-209 | the job with that key, or none if there is none |
| `Registry.SqliteRegistry.Assign` | src/pod_harness/registry.py:211-231 | succeeds if and only if the job is there and queued, and changes only that job |
| `Registry.SqliteRegistry.SetState` | src/pod_harness/registry.py:233-256 | succeeds if and only if the state is known and is the present one or allowed from it; each refusal has its own error and changes nothing |
| `Registry.SqliteRegistry.Create` | src/pod_harness/registry.py:177-199 | a key that is taken gives its job and changes nothing; a new one makes one queued job |
| `Registry.OneKeyOneJob` | src/pod_harness/registry.py:177-199 | over every interleaving of the transactions of any number of creates, calls with one key that return, return one job, and it has that key |
| `Registry.CallsEnd` | src/pod_harness/registry.py:177-199 | a create makes at most two looks and one insert, and begins with a look if it has a key |
| `Registry.CallsReturnTheJob` | src/pod_harness/registry.py:177-199 | a create whose key is taken, at first or by another meanwhile, returns that job; it raises only for an id, and makes a queued job only with its key free |
| `Registry.StatesAreNamed` | src/pod_harness/registry.py:51 | each state has its name and no other name is one |
| `Registry.RunnersAreNamed` | src/pod_harness/registry.py:211-231 | a successful assign names the runner, and nothing else does |
| `Registry.MovesAreAllowed` | src/pod_harness/registry.py:56-63 | some event brings a job to a state if and only if it is the one it has or one of the ten edges leads there |
| `Registry.EndingsAreFinal` | src/pod_harness/registry.py:60-62 | a done or cancelled job never changes again |
| `Registry.NeverAssignedTwice` | src/pod_harness/registry.py:211-231 | two successful assigns of one job have between them its failure and then its re-queueing |
| `InputCaching.InputCache.Get` | src/pod_harness/worker/loop.py:103-113 | a hit gives the file's bytes and makes it the latest used |
| `InputCaching.InputCache.Put` | src/pod_harness/worker/loop.py:115-129 | the cache becomes the latest entries, the new one first, as many as fit; a file over the budget changes nothing |
| `InputCaching.FitIsLongest` | src/pod_harness/worker/loop.py:123-129 | what is kept fits, is the most recent part, and no longer one fits |
| `InputCaching.LatestFirst` | src/pod_harness/worker/loop.py:103-129 | after any history the entries stand by their last hit or put, so what goes is the least recently used |
| `InputCaching.KeptWhileItFits` | src/pod_harness/worker/loop.py:115-129 | a hit loses nothing, and a put nothing while it all fits |
| `InputCaching.CacheIsSound` | src/pod_harness/worker/loop.py:88-129 | after any history the total is within the budget and every entry is what was last accepted for its key |
| `InputCaching.HitsAreLastPut` | src/pod_harness/worker/loop.py:103-129 | a hit is exactly the last accepted bytes, and a put that is accepted is a hit next |
| `ServeSafety.RestartedOnce` | src/pod_harness/boot/serve.py:50-75 | at most two processes are ever started; the app has failed only after both exited non-zero, and is done only after the last exited zero |
| `ServeSafety.StartsAfterAStop` | src/pod_harness/boot/serve.py:77-83 | a process is started after a stop has had the lock if and only if the first start had not begun by then and succeeds later |
| `ServeSafety.NothingStartsAfterAStop` | src/pod_harness/boot/serve.py:77-83 | once a stop has had the lock and the first start is over, no process is started any more |
| `ServeSafety.NothingOutlivesAStop` | src/pod_harness/boot/serve.py:77-83 | when a stop that had the lock after the first start has killed, and ever after, no process is alive, whatever was asked before, given that a kill kills |
| `ServeSafety.OnlyAnEndingKills` | src/pod_harness/boot/serve.py:77-92 | after a stop that came before the process was up, what runs ends only by itself, by a `finish`, by a plain stop, or by a drain already past its look at the flags |
| `ServeSafety.FirstEndingWins` | src/pod_harness/boot/core.py:466-507 | across exits, drains, stops and endings from elsewhere the first ending stays the result, and done is sent at most once, with it |
| `ServeSafety.SentBeforeStopping` | src/pod_harness/boot/core.py:489-507 | the first ending has been sent, once, when its `finish` goes on to stop the process, and when the pod is finished |
| `ServeSafety.EndingsGoThrough` | src/pod_harness/boot/core.py:476-507 | until the pod is finished whoever ends it is between winning and setting it finished; any other `finish` that is through has found it ended; a first start that failed ends it |
| `ServeSafety.FinishedIsQuiet` | src/pod_harness/boot/core.py:499-507 | a finished pod has had its stop and its kill, and no process is alive unless that came before the first start was over |
| `ServeSafety.ExitsAreAnswered` | src/pod_harness/boot/serve.py:50-75 | a process that exits non-zero is restarted or ends the pod, one that exits zero ends it or was drained, unless a stop came first |
| `ServeSafety.DrainEndsNothing` | src/pod_harness/boot/serve.py:85-92 | once a drain has stopped the process only someone else can end the pod |
| `ServeSafety.TheLockIsNeverStuck` | src/pod_harness/boot/serve.py:38-75 | a supervisor that holds the lock through `finish` and its `stop` can always go on |
| `ServeSafety.EarlyDrainIsLost` | src/pod_harness/boot/serve.py:40-92 | a drain that returned before the first start does not keep the process from starting |
| `SingleFlight.OneFlightPerPath` | src/pod_harness/boot/models.py:295-319 | for any number of callers at most one download of a path is under way |
| `SingleFlight.JoinsWhatIsUnderWay` | src/pod_harness/boot/models.py:304-319 | who asks for a path joins a flight of it if and only if one is not over, and else starts the next |
| `SingleFlight.WaitersShareTheOutcome` | src/pod_harness/boot/models.py:304-319 | whoever returns has the outcome of the one download of its flight, of its own path |
| `SingleFlight.NobodyWaitsInVain` | src/pod_harness/boot/models.py:310-319 | every flight not yet over has a leader that can take its next step |
| `StoreUploads.HandedOnce` | src/pod_harness/boot/models.py:204-277 | each path is handed to the upload at most once, however often and whenever it is added |
| `StoreUploads.NothingIsForgotten` | src/pod_harness/boot/models.py:204-245 | while the thread lives, what was added is settled, in hand or queued |
| `StoreUploads.TheThreadDies` | src/pod_harness/boot/models.py:262-277 | a run in which an upload raises behind its record and a path added later stays queued |
| `StoreUploads.NeverHandedOver` | src/pod_harness/boot/models.py:229-245 | in any run, a queued path is never handed over, whatever comes, if and only if the thread has ended or the exception that ends it is on its way out |
| `StoreUploads.NothingAfterAnException` | src/pod_harness/boot/models.py:229-245 | after an exception out of an upload nothing is ever handed over again |
| `EnvFile.File.ReadEnvFile` | src/pod_harness/boot/core.py:111-124 | the bindings of the lines in order; a missing file has none |
| `EnvFile.File.SetEnvLines` | src/pod_harness/boot/core.py:138-161 | the loops leave the upserted text, and an empty mapping leaves the file alone |
| `EnvFileProofs.LinesBind` | src/pod_harness/boot/core.py:100 | a line binds its identifier to what follows the equals sign, indented or not, exported or not |
| `EnvFileProofs.CommentsBindNothing` | src/pod_harness/boot/core.py:118-119 | a comment binds nothing |
| `EnvFileProofs.ValuesAreUnquoted` | src/pod_harness/boot/core.py:104-108 | a value is what is left without the white space around it and one pair of equal quotes |
| `EnvFileProofs.LineEndings` | src/pod_harness/boot/core.py:115-117 | a line ends with a newline, a carriage return, or the two together |
| `EnvFileProofs.SetThenRead` | src/pod_harness/boot/core.py:104-161 | for identifier keys and values of one line, each mapped key is then bound once, to its value unquoted, at its first place or behind everything in the mapping's order; every other line and binding is as it was |
| `EnvFileProofs.SetTwiceIsOnce` | src/pod_harness/boot/core.py:138-161 | applying a mapping twice leaves the very text applying it once does |
| `EnvFileProofs.SomeKeysTwice` | src/pod_harness/boot/core.py:147-158 | for keys and values of one line this holds if and only if all keys are identifiers, given that no line written for another binds a key of the mapping |
| `EnvFileProofs.TwiceOnlyIfAllBind` | src/pod_harness/boot/core.py:147-158 | for any keys and values of one line, setting twice is setting once only if every line written binds a key of the mapping |
| `EnvFileProofs.TwiceIfAllBind` | src/pod_harness/boot/core.py:147-158 | and it is if they do and no identifier still missing from the file comes after a key that is none |
| `EnvFileProofs.OneKeyTwice` | src/pod_harness/boot/core.py:147-158 | for one key it holds if and only if the key is an identifier |
| `EnvFileProofs.MixedUpKeys` | src/pod_harness/boot/core.py:147-158 | a mapping with a key that is no identifier but whose line binds the other key: setting it twice is once |

## Left out

- Transport: TLS, certificate pinning, the WebSocket handshake, boto3, FastAPI routes, subprocess, git, pip and nvidia-smi calls are steps of the environment.
- Texts: JSON, SQL and log wording are datatypes; a torn piece of a JSON record, alone or joined to other bytes, is taken to be unparsable.
- Time: timeouts, stall limits, backoff and throttling are choices of the environment; the cache has a logical clock that strictly increases.
- SHA-256 is a function the caller gives; a digest settles the content only where it has no collision.
- Threads: the worker, `finish` with its supervisor, single flights and uploads are state machines over their steps rather than classes, because their steps interleave.
- WorkerSafety.CleanExit: assumes that no task id is handed out twice in one run, which ReusedIdIsForgotten shows it needs; it says nothing of the final `join` of the threads.
- WorkerTraces.LostLease: says what is won under the run's lock, of which each is sent next; the log lines and the report list are left out.
- WorkerSafety.CapacityHolds: the snapshot that `_watch` takes under the worker's lock is one read of all tasks; the stop reason and the time it was seen are read together.
- WorkerSafety.EndingsAreRight: does not model `closed` on the list of reports, which `_drop` may append to as well; messages are counted, not entries.
- WebSocket.Client.Recv: decoding of the collected bytes as UTF-8 is not part of this model; texts are bytes.
- Fetch.Download.HttpDownload: the loop is watched for a given number of passes; links are resumed by the same URL only, and aria2c is not part of this model.
- Agreement.SnapshotAgrees: the timings, errors and verification details carried by events, the mirror to S3 and a second job's record in the registry are not part of this model; telemetry that cannot be written is a no-op and is left out.
- Events.EventLog.Emit: a crash between the append and the snapshot leaves the snapshot one event behind, which is not modelled.
- Runners.Runner.Execute: the printed banner is left out; a hook that is absent is one that does nothing.
- ExecuteJob.Hooks.Leave: files and directories are maps from names to contents; the enter hook, which swallows every exception, only fetches. What else may happen to disk and store during a run is left open (`Announcing.Places`).
- EnvFileProofs.TwiceIfAllBind: when an identifier missing from the file comes after a key that is none, twice may or may not be once, by the texts of the lines.
- Registry.SqliteRegistry.Create: times, deadlines, costs and stage records of a row are left out, and so is `record_stage`.
- ServeSafety.NothingOutlivesAStop: a process that survives SIGKILL is not modelled, nor is the workload's own stop, which takes no lock; after the handler of SIGTERM the pod may go on in the model, where the code exits. The model begins with the app's process set up; a `finish`, drain or signal before that has nothing to stop and is left out.
- SingleFlight.WaitersShareTheOutcome: what `except Exception` lets through (KeyboardInterrupt, SystemExit) is not modelled; it would leave the waiters with no error.
- StoreUploads.HandedOnce: waiting for the pod to be ready and the attempts within one upload are one step.
- EnvFile.File.SetEnvLines: `apply_env` and file permissions are left out; the temporary file and its rename are one step.
- Spec parsing, resource sizing, sidecars, kits, GPU checks and the image scripts: input and output, or easy members.
