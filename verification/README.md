# Narad's cluster layer, modelled and proved

Narad is a clustered log broker. This project models the hardest parts of its `internal/cluster` package in Dafny and
proves what they promise: over every run, every interleaving and every input, not for examples.

The parts and their modules:

- **Produce dispatcher** (`DispatchModel`, `DispatchInvariant`, `DispatchMoves`, `DispatchSteps`, `DispatchRead`,
  `DispatchRun`, `DispatchSafety`, `DispatchFifo`, `DispatchOrder`, `DispatchOrderRun`, `DispatchRescan`,
  `DispatchEarlyStop`, `DispatchStopExact`, `DispatchLateRun`, `DispatchOutcomes`, `DispatchFinish`, `DispatchAway`,
  `DispatchPace`, `DispatchFolds`, `DispatchLaunch`, `SeqMarks`, `Dispatcher`, `DispatchRound`). The loop that reads
  accepted records from the WAL, holds, skips, reroutes and commits them per partition, and moves its checkpoint.
  `DispatchModel` computes what each operation does to the state; every method of `Dispatcher.Loop` does it in place and
  is proved to do what the function of its name says; `DispatchOutcomes`, `DispatchFinish` and `DispatchPace` say what
  these functions come to, of the records and of what was read; `DispatchRound` ties a round of the loop to the runs the
  theorems are about; the other modules prove what is kept: each seq in exactly one place, nothing lost across crashes,
  order per partition, records at their own partition unless moved for a reason, bounds, and exactly when a rescan's
  early stop is the full rescan.
- **Partition moves** (`MoveFlip`, `MoveProtocol`, `Handoff`, `PartitionCopy`, `CopyRuns`, `ReclaimGuard`). The flip of
  a partition's owner against a leader log with late, lost and unknown outcomes; the freeze and fence before it; the
  staged copy over whole sessions; the guard before a local copy is reclaimed.
- **Fan-out** (`FanoutSlab`, `FanoutLane`, `FanoutPass`, `FanoutProgress`, `Reconciler`). Bucketing and retrying a slab,
  narrowing a lane to a refused record, a pass over all lanes, the at-least-once cursor, and which cursors run.
- **Ack coalescing** (`AckCoalescer`), **the unshipped check** (`UnshippedCheck`, `SingleFlight`) and **the
  version-keyed caches** (`RouteTables`, `VersionedCache`).

Concurrent code is a state machine: a `State`, the `Event`s that may happen in any order, `Next`, an invariant, and
theorems over every `Run`. Where the source changes things in place the model is a class whose methods are proved
against the functions the machine is made of. Clocks, timers, replies, fetches and store reads are inputs: parameters,
event fields, or functions such as `answers: nat -> Answer`, over all of whose values the theorems quantify. Integers
are unbounded; the source's 64-bit counters do not wrap in the model.

`dafny verify dfyconfig.toml` checks the project.

## Where code and comments differ

The model follows the code.

- The rescan's early stop. `internal/cluster/produce_dispatch.go:379-390` says what the stop leaves out would only be
  skipped again. That holds for every counted destination (`DispatchEarlyStop.StopsDone`) but not for an uncounted one
  with a single skipped record left. `DispatchLateRun.EarlyStopDiffers` is a run whose last state shows it, and
  `DispatchStopExact.EarlyStopExact` says exactly when stop and full rescan agree, for every WAL whose records carry
  topic ids. The record is not lost: it stays skipped, at or past the checkpoint (`DispatchSafety.NothingLost`).
- `Finalize`. `internal/cluster/partition_mover.go:319-332` asks for two consecutive quiet passes; the code stops after
  the first pass that copies nothing and sees the previous listing's high watermark. That is enough:
  `CopyRuns.DrainEnds` proves it for a log that goes on growing.
- A failed fetch in `pass`. Bytes appended before the failure stay in the file past the cursor, and resuming the session
  appends after them: `CopyRuns.GapSession` shows a session whose file ends up wrong, `PartitionCopy.RightAfter` says
  exactly when a segment is right, and `CopyRuns.GapStays` that no resumed pass repairs it unless the segment is listed
  below its cursor.
- Skipped reconcile ticks. `internal/cluster/fanout_runner.go:77-84` and
  `internal/persistence/metastore/version.go:75-79` take a version seen again to mean that another pass has nothing to
  do. A change whose version has not advanced yet, and a worker that has closed its channel but not yet told the gate,
  both escape a skipped tick until a later one (`Reconciler.SkipMissesChange`, `Reconciler.SkipMisses`);
  `Reconciler.SkipExact` is the exact condition.
- The freeze of a move. A flip proposed in time may win after the freeze has run out, or after the source has restarted
  and forgotten it; `Handoff.FlipLate` shows what is left behind then, and `Handoff.FlipExact` that nothing is if and
  only if neither happened.
- Lane marks. `internal/cluster/fanout_remote_state.go:432-445` ties the marks to one lane count; at-least-once holds
  for lane counts that change (`FanoutProgress.NotedTrue`).

## Main results

- Dispatcher: `DispatchSafety.NothingLost`, `DispatchSafety.OnePlace`, `DispatchOrderRun.LaunchInOrder`,
  `DispatchAway.AwayOnlyMoved`, `DispatchAway.LaunchCarries`, `DispatchOutcomes.PlaceExact`,
  `DispatchFinish.FailureExact`, `DispatchPace.ReadReaches`, `DispatchStopExact.EarlyStopExact`, `DispatchRound.Step`.
- Moves: `MoveProtocol.FlipSafe`, `MoveProtocol.ProposalsConfirmed`, `Handoff.FlipExact`, `CopyRuns.DrainEnds`, `CopyRuns.PassRight`,
  `PartitionCopy.RightAfter`, `ReclaimGuard.OwnerReclaimGuard`.
- Fan-out: `FanoutSlab.EachOnce`, `FanoutSlab.SlabOrder`, `FanoutLane.Lane.Ship`, `FanoutPass.ShipPass`,
  `FanoutProgress.AtLeastOnce`, `FanoutProgress.NotResent`, `Reconciler.OneWriter`, `Reconciler.CursorsJustified`,
  `Reconciler.SkipExact`.
- Acks, checks and caches: `AckCoalescer.NothingStranded`, `AckCoalescer.AnswersTrue`, `AckCoalescer.LeaveInOrder`,
  `UnshippedCheck.CleanReport`,
  `SingleFlight.FreshReport`, `VersionedCache.CacheIsRebuild`, `VersionedCache.AnswerIsCurrent`.

Members that only set a field, build an object or carry one step of a proof have no row below.

## Model

| member | source | states |
|---|---|---|
| `DispatchSafety.NothingLost` | internal/cluster/produce_dispatch.go:727-746 | At every point of every run, through crashes: an accepted record has been delivered, or a leader or owner confirmed its topic or incarnation gone, or it is on disk at or past every checkpoint a restart can find, so a crash now replays it. |
| `DispatchSafety.LedgerTrue` | internal/cluster/produce_commit.go:299-406 | What the model counts as committed is exactly what some finished commit of the run delivered; what it counts as discarded, some leader or owner confirmed gone. |
| `DispatchSafety.AcceptedStays` | internal/cluster/produce_dispatch.go:107-149 | No step of a run loses or alters a record once accepted into the WAL. |
| `DispatchSafety.RunOK` | internal/cluster/produce_commit.go:56-476 | The exact-place invariant and the sizes hold in every state of every run. |
| `DispatchSafety.OnePlace` | internal/cluster/produce_dispatch.go:154-246 | A seq lies between checkpoint and read frontier if and only if it is done, skipped, in a queue or in a job; and it is in exactly one of these. |
| `DispatchSafety.RunBounded` | internal/cluster/produce_dispatch.go:361-373 | In every state of every run frontier minus checkpoint is at most 16 times the larger of batchSize and 1, marks has exactly that many entries, and two destination caps fit half the hold limit if and only if batchSize is at least 4. |
| `DispatchSafety.CapsFit` | internal/cluster/produce_dispatch.go:361-373 | For every window: twice perDestCap is at most half of holdLimit if and only if batchSize is at least 4. |
| `DispatchOrderRun.LaunchInOrder` | internal/cluster/produce_commit.go:150-200 | In every run without reroutes and without incarnations replaced under a queue, a commit starts with a batch that ascends in seq and is all of that partition, and every earlier WAL record of the partition was delivered or confirmed gone. |
| `DispatchAway.AwayOnlyMoved` | internal/cluster/produce_dispatch.go:543-608 | In every state of every run, crashes included: a record in memory is queued or in a commit at its own partition, or an earlier step of the run moved it to where it is, and the reason is one of these: a read was told its owner does not resolve, or found it failing past the grace with a commit under way or no retry due; a launch found the owner unresolved; a commit failed past the grace. In each case that partition was the sibling named. |
| `DispatchAway.LaunchCarries` | internal/cluster/produce_commit.go:150-221 | Every launch of every run whose owner resolves: the records of another incarnation go back to the WAL, and one commit carries, from the front of the rest, a single record to a failing partition, all of them to one owned here, and to another node a maximal prefix that fits one frame (one record when even that does not). |
| `DispatchOrderRun.FifoRun` | internal/cluster/produce_dispatch.go:391-671 | The order invariant (queues ascend; what is queued is past what is in flight; what is skipped is past everything in memory) holds in every state of such a run. |
| `DispatchOrderRun.FifoNext` | internal/cluster/produce_dispatch.go:391-671 | Every step of such a run keeps the order invariant, crashes and probes included. |
| `DispatchOrderRun.FrontSettled` | internal/cluster/produce_commit.go:71-100 | For a ready partition, every record before the front of its queue is committed or discarded. |
| `DispatchOrderRun.LaunchSends` | internal/cluster/produce_commit.go:150-221 | A launch that drops no replaced record sends a prefix of the queue. |
| `DispatchOrder.FifoRead` | internal/cluster/produce_dispatch.go:391-507 | A read or rescan that reroutes nothing keeps every partition in order, with any answers, read failures and stops. |
| `DispatchOrder.FifoLaunch` | internal/cluster/produce_commit.go:150-255 | Starting a commit keeps the order. |
| `DispatchOrder.FifoFinish` | internal/cluster/produce_commit.go:299-433 | A finished commit keeps the order on success, failure, probe, mismatch and discard. |
| `DispatchOrder.FifoMarkSlow` | internal/cluster/produce_commit.go:56-66 | A commit turning slow keeps the order: what queued behind it returns to the WAL. |
| `DispatchEarlyStop.StopsDone` | internal/cluster/produce_dispatch.go:427-489 | A rescan that stops at pending 0 has finished with every destination it counted: none of its records is left skipped, or it is blocked for this read, and reading its records still ahead would leave the whole state unchanged. |
| `DispatchStopExact.EarlyStopExact` | internal/cluster/produce_dispatch.go:375-507 | On every state that meets the invariant, whatever reading fails and wherever: when no frame the full rescan reaches, at or past one where nothing counted is pending, is the only record left of a destination with an earlier firstSkipped, or fails while a new record could be read, then a rescan that stops early and reads on ends, under all answers, where the full one ends (apart from the note of what this read blocked); and if and only if, where what waits can be kept back, as in every WAL whose records carry topic ids. |
| `DispatchStopExact.KeepableExact` | internal/cluster/produce_commit.go:614-644 | What can be kept back, exactly: some answer leaves the first record a rescan meets of a destination in the WAL if and only if it carries a topic id, or its destination holds records, or has others left and an earlier firstSkipped. |
| `DispatchStopExact.LeftOutShows` | internal/cluster/produce_dispatch.go:375-507 | Where the stop leaves out a frame and what waits below it can be kept back, answers that confirm and resolve nothing make the two rescans end in different states. |
| `DispatchEarlyStop.StopRefines` | internal/cluster/produce_dispatch.go:375-507 | For one set of answers and read failures: where the stop leaves out nothing, the two rescans end in the same state. |
| `DispatchLateRun.EarlyStopDiffers` | internal/cluster/produce_dispatch.go:375-390 | A run from a fresh node ends in a state where the rescan asked for leaves a record in the WAL that the full rescan would settle. |
| `DispatchLateRun.LateRun` | internal/cluster/produce_dispatch.go:391-507 | That run, event by event: accepts, a read, a rescan cut short by a read failure, launches, a commit. |
| `DispatchLateRun.LateMisses` | internal/cluster/produce_dispatch.go:379-390 | Its last state is one the exact condition rules out. |
| `DispatchRescan.StopExact` | internal/cluster/produce_dispatch.go:427-489 | With pending 0, reading a skipped record still ahead changes no mark under any answer if and only if it is not the only one its uncounted, unblocked destination has left. |
| `DispatchRescan.CountedDone` | internal/cluster/produce_dispatch.go:427-489 | At pending 0 a counted destination has nothing skipped or is blocked, and reading any of its records again changes nothing. |
| `DispatchRescan.StuckVisit` | internal/cluster/produce_dispatch.go:463-478 | Reading a record of a blocked or out-of-range destination again changes only the note that this read skipped it. |
| `DispatchRun.NextKeeps` | internal/cluster/produce_dispatcher.go:324-337 | Every step of the loop, and a crash with a restart from any checkpoint on disk, keeps the run invariant and every accepted record. |
| `DispatchRun.NextSettles` | internal/cluster/produce_commit.go:299-406 | A step adds to the committed exactly what a successful commit carried, and to the discarded only what was confirmed gone. |
| `DispatchRun.ReadOnDisk` | internal/cluster/produce_dispatch.go:391-507 | Compaction behind the checkpoint is invisible: a read of what is left on disk does exactly what a read of the whole WAL does, with the failures at frames that are left. |
| `DispatchRun.RescanStartRead` | internal/cluster/produce_dispatch.go:512-524 | A rescan starts among what was read. |
| `DispatchRun.RescanHasStart` | internal/cluster/produce_dispatch.go:512-524 | While anything is skipped a rescan has a start: the skipped count is never orphaned from the destinations. |
| `DispatchRun.CheckpointKeeps` | internal/cluster/produce_dispatch.go:727-746 | Moving, storing (or failing to store) and compacting the checkpoint keeps the invariant and settles nothing. |
| `DispatchRun.ResizeWithin` | internal/cluster/produce_dispatch.go:695-707 | A resized window stays between 1 and the larger of batchSize and 1. |
| `DispatchRead.ReadKeeps` | internal/cluster/produce_dispatch.go:391-507 | A read keeps the exact-place invariant from any start, moves the frontier no further than the look-ahead and what is durable, and discards only what was confirmed gone. |
| `DispatchRead.ScanKeeps` | internal/cluster/produce_dispatch.go:427-489 | The replay of any stretch of the WAL keeps the invariant at every stop. |
| `DispatchRead.PlaceKeeps` | internal/cluster/produce_dispatch.go:543-608 | Whatever is answered about a record, place puts it in exactly one place and keeps every count. |
| `DispatchRead.RaiseKeeps` | internal/cluster/produce_dispatch.go:495-504 | Raising firstSkipped to where an interrupted rescan stopped keeps it a lower bound. |
| `DispatchSteps.LaunchKeeps` | internal/cluster/produce_commit.go:71-282 | Taking a destination off the ready list and starting, discarding, rerouting or releasing its queue keeps the invariant, whatever is answered. |
| `DispatchSteps.FinishKeeps` | internal/cluster/produce_commit.go:299-476 | A finished commit keeps the invariant whatever its outcome. |
| `DispatchSteps.MarkSlowKeeps` | internal/cluster/produce_commit.go:56-66 | A commit turning slow keeps the invariant and the slow counts. |
| `DispatchSteps.RetryKeeps` | internal/cluster/produce_commit.go:71-78 | A destination whose retry falls due rejoins the ready list once. |
| `DispatchSteps.SweepKeeps` | internal/cluster/produce_dispatch.go:339-353 | Forgetting an idle destination keeps the invariant. |
| `DispatchSteps.KeepProbeKeeps` | internal/cluster/produce_commit.go:421-433 | Keeping one record as a probe and returning the rest to the WAL keeps the invariant. |
| `DispatchSteps.ReleaseAllKeeps` | internal/cluster/produce_commit.go:436-445 | Returning a batch and its queue to the WAL keeps the invariant. |
| `DispatchSteps.HoldAllKeeps` | internal/cluster/produce_commit.go:449-462 | Holding a batch for another partition keeps the invariant. |
| `DispatchSteps.MoveQueueKeeps` | internal/cluster/produce_commit.go:465-470 | Moving a queue to a sibling partition keeps the invariant. |
| `DispatchMoves.PopDoneKeeps` | internal/cluster/produce_dispatch.go:135-149 | The checkpoint moves over done seqs only, to the first that is not done. |
| `DispatchMoves.SendBatchKeeps` | internal/cluster/produce_commit.go:167-200 | A batch moves from its queue to exactly one new job. |
| `DispatchModel.Place` | internal/cluster/produce_dispatch.go:543-608 | Placing a record settles it only as discarded, and only when its topic, or the incarnation it names, was confirmed gone. |
| `DispatchModel.StartCommit` | internal/cluster/produce_commit.go:150-200 | Starting a commit settles nothing, except a queue whose topic was confirmed deleted. |
| `DispatchModel.Finish` | internal/cluster/produce_commit.go:299-406 | A finished commit settles as committed exactly its batch when it succeeded, and as discarded only records flagged gone. |
| `DispatchOutcomes.PlaceExact` | internal/cluster/produce_dispatch.go:543-608 | Where a record just read goes, for every state and answer, in terms of what was read: it waits, is settled as gone, joins the sibling named, joins its own queue, or waits for room; every other queue and mark stays. |
| `DispatchAway.AwayExact` | internal/cluster/produce_dispatch.go:543-608 | A record just read joins another partition's queue if and only if it is live and unblocked, that partition is the sibling named, and its owner does not resolve, or fails past the grace while a commit is under way or no retry is due. |
| `DispatchOutcomes.HealthyKeepsOwn` | internal/cluster/produce_dispatch.go:543-608 | A live record of a partition that resolves, does not fail, is not slow and has room is the last in its own queue, whatever sibling is named, and the queue stays within its cap. |
| `DispatchOutcomes.StartExact` | internal/cluster/produce_commit.go:150-221 | What starting a commit comes to when the owner resolves: exactly the records of another incarnation return to the WAL, and the new job holds a full batch of the others, from the front, or there is none if none is left. |
| `DispatchOutcomes.BatchFits` | internal/cluster/produce_commit.go:212-221 | A remote batch fits one frame and is maximal, and carries one record when even the first does not fit. |
| `DispatchOutcomes.UnresolvedExact` | internal/cluster/produce_commit.go:228-255 | What it comes to when the owner does not resolve: the queue is settled as gone, is behind the sibling's queue in order, or is one waiting probe with the rest in the WAL; no job starts. |
| `DispatchFinish.SuccessExact` | internal/cluster/produce_commit.go:299-330 | A commit that succeeds: exactly its records are delivered and done, its slot is free, no queue changes, its destination is neither failing nor unresolved and off the waiting set if it was, and what it left in the WAL is asked for if it was sick or its queue has drained. |
| `DispatchFinish.FailureExact` | internal/cluster/produce_commit.go:331-405 | A commit that fails: exactly the flagged records are settled, by index; of the others and the queue behind them, each outcome is told by queue, mark and health: left in the WAL, checked again, moved to the sibling in order, or one probe kept while the destination waits. |
| `DispatchFinish.PickExact` | internal/cluster/produce_commit.go:331-345 | The records flagged are those at the flagged indices, a missing flag being unset; the others keep their order. |
| `DispatchFinish.SlowExact` | internal/cluster/produce_commit.go:56-66 | A commit that turns slow frees its fan-out, its records count as slow, and exactly what queued behind it returns to the WAL. |
| `DispatchFinish.Afterwards` | internal/cluster/produce_commit.go:411-417 | After a commit, a destination with records is ready, a healthy one whose queue has drained is asked for, an empty one is forgotten; its records stay. |
| `DispatchFinish.AsksExactly` | internal/cluster/produce_dispatch.go:528-537 | A rescan asked for starts at the destination's first skipped record, or at an earlier start asked for already. |
| `DispatchPace.ScanPace` | internal/cluster/produce_dispatch.go:427-489 | A scan reads every record up to where it stops; it stops at the end of what is durable, at the look-ahead or the hold limit, at a failure, or when a rescan has nothing counted left; and it never takes what is held past the limit. |
| `DispatchPace.ReadReaches` | internal/cluster/produce_dispatch.go:391-507 | A plain read gets past every durable record unless, at it or before it, the look-ahead ends, reading fails, or the hold limit is reached. |
| `DispatchPace.BeginExact` | internal/cluster/produce_dispatch.go:391-425 | A read takes the rescan request, is numbered, and a rescan notes exactly the destinations whose records left it covers. |
| `DispatchPace.EndExact` | internal/cluster/produce_dispatch.go:490-504 | A rescan cut short at a record raises to it the firstSkipped of exactly the destinations it covered and did not block; no other read does. |
| `DispatchPace.ReadHolds` | internal/cluster/produce_dispatch.go:391-507 | No read or rescan brings what is held, slow commits apart, past the hold limit; each ends by resizing the window to what it saw. |
| `DispatchPace.ResizeExact` | internal/cluster/produce_dispatch.go:695-707 | The window grows at once to 64 records for each destination seen, within its bounds; it shrinks to them only after a whole window was read, and starts counting anew. |
| `DispatchPace.ClampFits` | internal/cluster/produce_dispatch.go:361-373 | The window is the target where base window and batch size allow it, and the nearer bound otherwise. |
| `DispatchPace.LimitsExact` | internal/cluster/produce_dispatch.go:361-373 | The destination cap is the largest of a quarter of the window, a quarter of the batch size up to the base window, and one; the hold limit a window or four caps, within the batch size. |
| `DispatchPace.SkipFirst` | internal/cluster/produce_dispatch.go:640-659 | firstSkipped after a record is left: that record if it is the only one or the first a rescan from before them all comes to, the lower of the two otherwise. |
| `DispatchPace.ReleaseFirst` | internal/cluster/produce_dispatch.go:663-671 | A record returned to the WAL lowers its own partition's firstSkipped to it if need be, and no other's. |
| `DispatchPace.DropsAsk` | internal/cluster/produce_commit.go:261-282 | Every record of a replaced incarnation taken out of a queue is asked for again. |
| `DispatchPace.SendAsks` | internal/cluster/produce_commit.go:167-200 | A commit asks for what its destination left in the WAL if and only if it is healthy, something is left and its queue is less than half full. |
| `DispatchPace.RetryExact` | internal/cluster/produce_commit.go:71-78 | A destination whose retry falls due waits no more, and is ready if and only if it was, or has records and no commit. |
| `DispatchPace.SweepExact` | internal/cluster/produce_dispatch.go:339-353 | The sweep forgets a destination if and only if it has nothing held, skipped, ready or in flight, and changes nothing else. |
| `DispatchPace.CheckpointExact` | internal/cluster/produce_dispatch.go:727-746 | A checkpoint attempt moves over exactly the done seqs at the front; what is stored follows if it could be written; it compacts unless the stored one stood still and was compacted already. |
| `DispatchRound.Step` | internal/cluster/produce_dispatcher.go:324-337 | One round of the loop on the state it updates in place is a stretch of a run: finished commits, slow marks, one read of what is on disk, due retries, launches, the checkpoint and the sweep, in that order, lead the node to exactly where the loop is. |
| `DispatchRound.RoundLosesNothing` | internal/cluster/produce_dispatcher.go:324-337 | After any run that goes on with such rounds, every accepted record is delivered, confirmed gone, or on disk at or past every checkpoint a restart can find. |
| `DispatchRound.LaunchLeads` | internal/cluster/produce_commit.go:71-100 | A whole pass over the ready list is a sequence of launch events of the run. |
| `DispatchRound.RunsOn` | internal/cluster/produce_dispatcher.go:324-337 | A run continued by a stretch is a run, so every theorem about runs speaks of the loop. |
| `DispatchRound.FinishJobs` | internal/cluster/produce_commit.go:299-406 | A commit that ends, however it ends, leaves every other commit in flight as it was. |
| `DispatchRound.DiskInv` | internal/cluster/produce_dispatch.go:727-746 | What compaction has left on disk meets the invariant as the whole WAL does. |
| `DispatchRound.Start` | internal/cluster/produce_dispatcher.go:471-488 | A new loop is where a fresh node of a run is. |
| `DispatchLaunch.StartCompacted` | internal/cluster/produce_commit.go:71-100 | A commit started while the ready list is not yet compacted is one started with it compacted; what it adds goes behind. |
| `SeqMarks.MarkSlice.ExtendTo` | internal/cluster/produce_dispatch.go:127-132 | Appends a seq; the seqs before it are holes and done. |
| `SeqMarks.MarkSlice.PopDone` | internal/cluster/produce_dispatch.go:135-149 | Drops the done prefix, says how many, leaves every other mark. |
| `Dispatcher.Loop.Enqueue` | internal/cluster/produce_dispatch.go:681-690 | A destination joins the ready list at most once, and not while in flight or waiting. The new state is the model function's of the old. |
| `Dispatcher.Loop.RequestRescan` | internal/cluster/produce_dispatch.go:528-537 | The next rescan starts no later than the destination needs. The new state is the model function's of the old. |
| `Dispatcher.Loop.Skip` | internal/cluster/produce_dispatch.go:640-659 | A record that cannot be held now stays skipped; firstSkipped is a lower bound of what is. The new state is the model function's of the old. |
| `Dispatcher.Loop.Release` | internal/cluster/produce_dispatch.go:663-671 | A held record becomes a skipped one of its origin, and firstSkipped drops to it if need be. The new state is the model function's of the old. |
| `Dispatcher.Loop.Place` | internal/cluster/produce_dispatch.go:543-608 | Skips, discards, reroutes or holds a record, in the branch order of the source. The new state is the model function's of the old. |
| `Dispatcher.Loop.RerouteTarget` | internal/cluster/produce_reroute.go:48-72 | The first sibling past the partition, circularly, that resolves and neither fails nor hangs; never the partition itself; none only if no sibling does. |
| `Dispatcher.Loop.ReleaseAll` | internal/cluster/produce_commit.go:436-445 | Returns a failed batch and everything queued behind it. The new state is the model function's of the old. |
| `Dispatcher.Loop.HoldAll` | internal/cluster/produce_commit.go:449-462 | Holds a batch for a destination and readies it. The new state is the model function's of the old. |
| `Dispatcher.Loop.MoveQueue` | internal/cluster/produce_commit.go:465-470 | Moves a whole queue. The new state is the model function's of the old. |
| `Dispatcher.Loop.KeepProbe` | internal/cluster/produce_commit.go:421-433 | Keeps the first record, returns the rest. The new state is the model function's of the old. |
| `Dispatcher.Loop.MarkSlow` | internal/cluster/produce_commit.go:56-66 | Stops charging a slow commit to the fan-out and returns its queue, once. The new state is the model function's of the old. |
| `Dispatcher.Loop.DropReplaced` | internal/cluster/produce_commit.go:261-282 | Returns to the WAL exactly the queued records of another incarnation. The new state is the model function's of the old. |
| `Dispatcher.Loop.RemoteBatchLen` | internal/cluster/produce_commit.go:212-221 | How many records one remote commit carries. |
| `Dispatcher.Loop.SendBatch` | internal/cluster/produce_commit.go:167-200 | Starts a job for a prefix of the queue. The new state is the model function's of the old. |
| `Dispatcher.Loop.UnresolvedAtLaunch` | internal/cluster/produce_commit.go:228-255 | Discards, reroutes or releases a queue whose owner no longer resolves. The new state is the model function's of the old. |
| `Dispatcher.Loop.DiscardAll` | internal/cluster/produce_commit.go:228-255 | Discards a queue whose topic was confirmed deleted. The new state is the model function's of the old. |
| `Dispatcher.Loop.StartCommit` | internal/cluster/produce_commit.go:150-200 | Sends a queue, or a probe of a failing destination. The new state is the model function's of the old. |
| `Dispatcher.Loop.Launch` | internal/cluster/produce_commit.go:71-100 | Walks the ready list, starting what does not linger while there is fan-out, and compacts it as it goes. The new state is the model function's of the old. |
| `Dispatcher.Loop.AfterCommit` | internal/cluster/produce_commit.go:411-417 | Readies the destination or asks for a rescan. The new state is the model function's of the old. |
| `Dispatcher.Loop.DiscardFlagged` | internal/cluster/produce_commit.go:331-345 | Discards the flagged records of a failed commit; the others come back in order. The new state is the model function's of the old. |
| `Dispatcher.Loop.Finish` | internal/cluster/produce_commit.go:299-406 | Merges a finished commit, all outcomes. The new state is the model function's of the old. |
| `Dispatcher.Loop.FinishFailed` | internal/cluster/produce_commit.go:346-405 | A failed commit: all discarded, cancelled, mismatch, reroute or probe, in that order. The new state is the model function's of the old. |
| `Dispatcher.Loop.AdvanceCheckpoint` | internal/cluster/produce_dispatch.go:727-746 | Moves to the first undone seq, stores, then compacts behind what was stored, as far as the WAL lets it; ok only if stored. The new state is the model function's of the old. |
| `Dispatcher.Loop.Sweep` | internal/cluster/produce_dispatch.go:339-353 | Drops a destination exactly when it holds, skips and flies nothing and is not ready. The new state is the model function's of the old. |
| `Dispatcher.Loop.LowestSkipped` | internal/cluster/produce_dispatch.go:512-524 | The lowest firstSkipped, if any destination has skipped records. |
| `Dispatcher.Loop.CountPending` | internal/cluster/produce_dispatch.go:414-425 | Marks and counts the destinations a rescan can finish. The new state is the model function's of the old. |
| `Dispatcher.Loop.Visit` | internal/cluster/produce_dispatch.go:448-478 | The replay callback on one record; keeps the scan invariant. The new state is the model function's of the old. |
| `Dispatcher.Loop.Replay` | internal/cluster/produce_dispatch.go:427-479 | The replay callback and its stops. The new state is the model function's of the old. |
| `Dispatcher.Loop.RaiseFirstSkipped` | internal/cluster/produce_dispatch.go:495-504 | Raises firstSkipped of the destinations an interrupted rescan left. The new state is the model function's of the old. |
| `Dispatcher.Loop.ResizeWindow` | internal/cluster/produce_dispatch.go:695-707 | Resizes the window. |
| `Dispatcher.Loop.RescanStart` | internal/cluster/produce_dispatch.go:512-524 | Where a rescan starts; found exactly when asked for or something is skipped. |
| `Dispatcher.Loop.Read` | internal/cluster/produce_dispatch.go:391-507 | A whole read: rescans exactly when something is skipped and a rescan is due or the backstop ticks. The new state is the model function's of the old. |
| `Dispatcher.Turns` | internal/cluster/produce_reroute.go:48-72 | The search meets every other partition. |
| `MoveProtocol.FlipSafe` | internal/cluster/move_flip.go:346-587 | In every run in which an unknown proposal enters the log within the settle window or never, with or without an expected incarnation and with topics missing from the local replica: whenever this node owns the partition in the incarnation it installed, the installed copy is at the partition's path. |
| `MoveProtocol.MovedBackForGood` | internal/cluster/move_flip.go:462-587 | From the moment an install was moved back until the next install, no proposal of the worker enters the log, and none in the log can win for the incarnation installed. |
| `MoveProtocol.ProposalsConfirmed` | internal/cluster/move_flip.go:534-587 | In every run each proposal is of an install just made, or of one that, when the worker last asked, its source confirmed at the same high watermark and in time, or whose source was dead under a force-promote. |
| `MoveProtocol.AsksAndProposes` | internal/cluster/move_flip.go:462-529 | With nothing decided and the install not given up, the worker proposes if and only if the install may be flipped. |
| `MoveProtocol.WinsExact` | internal/persistence/metastore/fsm_apply_move.go:59-91 | A logged flip wins if and only if the partition is still the source's and moving here, and then it is owned here and moving nowhere; it finds the flip made already if and only if it is; otherwise it comes to nothing, and only a win changes the assignment. |
| `MoveProtocol.CommittedThen` | internal/persistence/metastore/fsm_apply_move.go:59-91 | In every run, a flip whose reply may be success was applied at a step after which this node owned the partition and it was moving nowhere. |
| `MoveProtocol.WindowAtReturnUnsafe` | internal/cluster/move_flip.go:462-529 | Measuring the settle window when the leader read returns, not when it starts, would be unsafe: at the end of a run it moves the install back and the proposal in the log wins without it. |
| `MoveProtocol.WindowRun` | internal/cluster/move_flip.go:462-529 | That run: an unknown proposal enters the log after the read's fence, within the window. |
| `Handoff.FlipCarries` | internal/cluster/move_runner.go:549-621 | In every run of freezes, restarts, commits and flips: from the fence on, while the freeze it confirmed has not ended, the copy has exactly the records the source has committed. |
| `Handoff.FlipExact` | internal/cluster/move_runner.go:549-621 | Over all runs, a flip that wins a time d after the source last confirmed the freeze always carries every committed record if and only if d is less than the freeze's length and the source has not restarted since; a freeze of no length lets no flip through. |
| `Handoff.FlipInTime` | internal/cluster/move_runner.go:549-621 | From the fence on, not only at the flip: within that time and without a restart the copy has every committed record. |
| `Handoff.FlipLate` | internal/broker/messaging/partition_move_pause.go:65-93 | For every time at or past the freeze's length, and for every time after a restart of the source, a run whose flip leaves a committed record behind. |
| `Handoff.TokenSuffices` | internal/cluster/move_runner.go:549-621 | After a drain, the fence succeeds if and only if the source still confirms the token: a confirmed token makes the two high watermarks equal. |
| `Handoff.RearmMatches` | internal/cluster/move_runner.go:549-621 | A source that confirms the freeze to a worker past its fence is at the high watermark the copy has. |
| `Handoff.RunSound` | internal/broker/messaging/partition_move_pause.go:65-93 | The invariant of freeze and copy holds in every state of every run. |
| `MoveProtocol.RunSound` | internal/cluster/move_runner.go:440-532 | The protocol invariant holds in every state of every run. |
| `MoveProtocol.NextSound` | internal/cluster/move_runner.go:672-932 | Every step keeps it: proposals late, lost or committed by a later leader, replies lost, reassignments, deletions and recreations. |
| `MoveFlip.Worker.ProposeFlip` | internal/cluster/move_flip.go:428-437 | A proposal stays unknown exactly when its reply neither commits nor settles it. |
| `MoveFlip.Worker.ResolvePending` | internal/cluster/move_flip.go:462-529 | What a worker does with a pending install, each an if and only if of what it read: flipped when this node owns the partition of the incarnation expected; moved back for good when the flip is past winning and the settle window over; moved back to start again when a leader still has the move open, the window is over and the install can never be flipped as it is; proposed again when nothing is decided and it may be: its incarnation holds, and its source is dead under a force-promote or has just confirmed, in time, the high watermark it has; and waited for otherwise. |
| `MoveFlip.DecisionRight` | internal/cluster/move_flip.go:462-529 | The same of the decision function the protocol uses, for all reads, installs, windows and clocks. |
| `MoveFlip.VerdictExact` | internal/cluster/move_flip.go:346-425 | The verdict is won, lost, or open by a leader, if and only if topic record, owner, target and who answered say so. |
| `MoveFlip.FlippableExact` | internal/cluster/move_flip.go:534-587 | Whether a pending install may be flipped as it is, now or never, if and only if incarnation, source and re-armed high watermark say so; a force-promote sticks. |
| `CopyRuns.DrainEnds` | internal/cluster/partition_mover.go:333-417 | Over a log that goes on growing, read one pass after the other: once a pass copies nothing and sees the watermark the pass before saw, every byte the records below it take is staged, byte for byte. |
| `CopyRuns.PassRight` | internal/cluster/partition_mover.go:163-250 | After a pass without an error every staged segment is the source's up to its cursor if and only if the source kept, of each listed segment, the bytes below the lower of the cursor and the size now listed; it may have replaced the rest. |
| `CopyRuns.RunRight` | internal/cluster/partition_mover.go:163-250 | Over any number of such passes against any sources the copy stays right. |
| `PartitionCopy.RightAfter` | internal/cluster/partition_mover.go:182-250 | For every source, segment, cursor and file: the staged segment is right after a pass over it if and only if the source kept what was staged, and it is listed below the cursor, or its file did not reach past the cursor and no fetch fails after one that succeeded (a segment begun at 0 excepted). |
| `CopyRuns.GapStays` | internal/cluster/partition_mover.go:163-250 | A file a failed fetch left past its cursor stays as far past it or farther over any passes against any sources, and is right about no content, until a pass lists the segment below its cursor. |
| `CopyRuns.GapSession` | internal/cluster/partition_mover.go:163-250 | One session: a fetch that fails after one that succeeded, then a pass without an error, ends with cursor 3 of the bytes 1, 2, 3 and the file 1, 2, 2, 3. |
| `CopyRuns.DrainCovers` | internal/cluster/partition_mover.go:333-417 | A pass that listed its segments after the previous pass read the same watermark stages every byte below it. |
| `CopyRuns.GrowsSteady` | internal/cluster/partition_mover.go:163-250 | A log that only grows keeps what was staged of it. |
| `CopyRuns.FinalizeStill` | internal/cluster/partition_mover.go:333-417 | Finalize against a source that stands still and serves: done after two passes, at the source's high watermark, every listed segment staged byte for byte with its cursor at the end. |
| `CopyRuns.StillIsQuiet` | internal/cluster/partition_mover.go:333-417 | A source that stands still and serves what it lists is drained in two passes. |
| `CopyRuns.ResyncRight` | internal/cluster/partition_mover.go:616-632 | After recovery cut a staged file, the resynced cursor is right if and only if no bytes are left past it. |
| `PartitionCopy.GapKept` | internal/cluster/partition_mover.go:182-250 | A file past its cursor is no nearer to it after a pass that does not list the segment below the cursor. |
| `PartitionCopy.Session.CatchUp` | internal/cluster/partition_mover.go:272-312 | At most maxRounds + 1 passes (2 when maxRounds is not positive), whatever the source lists, holds or answers; which pass failed, what was copied, and that converged means the last pass copied no more than the lag allowed. |
| `PartitionCopy.Session.Finalize` | internal/cluster/partition_mover.go:333-417 | Over any sources: ends at the first pass, and no earlier, that copies nothing and sees the watermark of the pass before, or not at all before an error or the caller's stop. |
| `PartitionCopy.Session.Pass` | internal/cluster/partition_mover.go:163-250 | One pass in place: each listed segment in turn until a fetch fails; the watermark is that of the listing. |
| `PartitionCopy.Session.CopySegment` | internal/cluster/partition_mover.go:182-250 | One segment in place, from any file and cursor: cut when listed shorter, then fetched chunk by chunk; count and error in terms of what the source serves, cursor moved only without an error. |
| `PartitionCopy.Session.ResyncCopied` | internal/cluster/partition_mover.go:616-632 | Cursors drop to the staged file sizes; lost files lose their cursor. |
| `PartitionCopy.PromoteNeverDrops` | internal/cluster/partition_mover.go:462-479 | Over any listings and session resets with a source watermark that never drops, the position a force-promote uses never drops. |
| `PartitionCopy.ResetKeepsFloor` | internal/cluster/partition_mover.go:462-479 | After a session reset a force-promote never promotes below where it would have before it, whatever the source lists afterwards, lower watermarks included. |
| `PartitionCopy.PromoteExact` | internal/cluster/partition_mover.go:462-479 | Between resets it promotes at the last listing's watermark, or at the floor where that is higher. |
| `PartitionCopy.ChunkExact` | internal/cluster/partition_mover.go:210-230 | A fetch brings the least of a chunk, what is listed and what the source gives, and nothing only when one of these is nothing. |
| `PartitionCopy.EmptyStaged` | internal/cluster/partition_mover.go:195-209 | A segment listed empty is staged as an empty file. |
| `ReclaimGuard.OwnerReclaimGuard` | internal/cluster/move_sweep_guard.go:108-181 | For all listings: the local copy is not set aside if and only if no non-empty segment was written within the retention, or the owner covers it; the vouched position is the lower of the owner's and the marker's; and the reason given is the true one, for a segment the first not covered, which the owner does not list or lists shorter. |
| `ReclaimGuard.LiveRecords` | internal/cluster/move_sweep_guard.go:191-198 | True exactly when some non-empty segment was written within the retention, or there is none. |
| `ReclaimGuard.ListOwner` | internal/cluster/move_sweep_guard.go:127-134 | The owner's sizes by base, and whether it holds records. |
| `ReclaimGuard.ReclaimCovered` | internal/cluster/move_sweep_guard.go:108-181 | A covered copy with unexpired records: the marker names this node, each non-empty segment below the vouched position written within the retention is listed, and each followed by one at or below that position is no longer than the owner's last entry for it. |
| `ReclaimGuard.ListedExact` | internal/cluster/move_sweep_guard.go:127-134 | The size listed at a base is that of the owner's last entry there. |
| `FanoutSlab.EachOnce` | internal/cluster/fanout_cursor.go:391-440 | Over any pattern of failures each record of the slab is committed exactly once or still pending. |
| `FanoutSlab.SlabOrder` | internal/cluster/fanout_cursor.go:391-440 | Every child partition receives its records in slab order over all passes. |
| `FanoutSlab.CommitSlab` | internal/cluster/fanout_cursor.go:391-406 | Done exactly when one of the passes made leaves nothing; each pass works on what the one before left, and what it counts committed was committed. |
| `FanoutSlab.CommitBatchOnce` | internal/cluster/fanout_cursor.go:413-440 | One pass: the records of the partitions that failed come back, those and in slab order; everything comes back when the link is gone or a pick is out of range. |
| `FanoutSlab.BucketByChildPartition` | internal/cluster/fanout_cursor.go:480-522 | Each touched partition gets one bucket, holding exactly its records in slab order; the buckets tile the shared array; fails exactly on an out-of-range pick. |
| `FanoutSlab.CountPicks` | internal/cluster/fanout_cursor.go:481-495 | The counts are the sizes of the partitions' subsequences. |
| `FanoutSlab.LayOut` | internal/cluster/fanout_cursor.go:497-508 | Each touched partition starts where the ones before it end. |
| `FanoutSlab.Fill` | internal/cluster/fanout_cursor.go:509-520 | The counting-sort fill writes each partition's subsequence at its start. |
| `FanoutSlab.TiledCells` | internal/cluster/fanout_cursor.go:480-522 | No cell of the shared array is missed or shared. |
| `FanoutSlab.CommitBuckets` | internal/cluster/fanout_cursor.go:529-558 | Says exactly which partitions failed, or that none did. |
| `FanoutSlab.PendingRecords` | internal/cluster/fanout_cursor.go:565-585 | Exactly the records of failed partitions, in slab order. |
| `FanoutLane.Lane.Ship` | internal/cluster/fanout_remote.go:1017-1176 | Against a target that takes a chunk exactly when it holds no refused record, and names none, the first refused one, or an index outside a longer chunk: after finitely many requests the lane has shipped, in order and once, exactly the records before the first bad one, and is empty or blocked on that record. |
| `FanoutLane.Lane.Step` | internal/cluster/fanout_remote.go:1511-1638 | One request ships the next records, none bad, or comes nearer to the end: fewer records, fewer raw records, or a smaller chunk, unless it refuses a single record and names another. |
| `FanoutLane.Lane.ShipSome` | internal/cluster/fanout_remote.go:1017-1176 | Against every such target, also one that names records it was not sent, for any number of requests: what was shipped is in order, once and not bad, and a blocked lane is blocked on a bad record. |
| `FanoutLane.Lane.Apply` | internal/cluster/fanout_remote.go:1511-1638 | Whatever the answer: a commit ships exactly the request; anything else ships nothing and splits it, at the record named into those before, it alone and those after, or in halves, turns a record sent raw to base64, or blocks on a single record. What was planned behind it stays planned. |
| `FanoutLane.Lane.Act` | internal/cluster/fanout_remote.go:1511-1638 | For an answer fair to a target, the record it blocks on is one the target refuses in every form. |
| `FanoutLane.Repeats` | internal/cluster/fanout_remote.go:1533-1573 | The one answer left out: a target that refuses a single record and names another gets the same request again, however often. |
| `FanoutLane.Lane.Narrow` | internal/cluster/fanout_remote.go:1643-1652 | Replaces the chunk just refused by the non-empty sizes given; entries stay positive. |
| `FanoutLane.Lane.NarrowAt` | internal/cluster/fanout_remote.go:1533-1573 | A named record splits its chunk in three: those before it, it alone, those after it, in that order. |
| `FanoutLane.Lane.Halve` | internal/cluster/fanout_remote.go:1546-1573 | A chunk refused without an index is halved. |
| `FanoutLane.ConsumedSum` | internal/cluster/fanout_remote.go:1643-1668 | What a request takes off the plan is its number of records, or all of the plan. |
| `FanoutLane.Lane.RefuseOne` | internal/cluster/fanout_remote.go:1669-1677 | A record refused raw is tried once in base64; otherwise the lane blocks on it. |
| `FanoutLane.Lane.Skip` | internal/cluster/fanout_remote.go:1699-1717 | Drops the blocked record an admin skipped. |
| `FanoutProgress.AtLeastOnce` | internal/cluster/fanout_cursor.go:133-217 | Over any passes, lane counts, re-reads of any length, pauses, trims and restarts: the cursor has passed only records the target took, an admin skipped, or that were counted dropped; a re-read leaves out only the first two. |
| `FanoutPass.ShipPass` | internal/cluster/fanout_remote.go:707-804 | One pass over a slab is a pass of that system: the lanes, run by the lane code with any answers, retries and skips, ship a prefix each of what was not done and mark its last record; the cursor's marks are exactly what the system notes, and nothing is left if and only if everything sent was shipped. |
| `FanoutPass.RunLane` | internal/cluster/fanout_remote.go:1017-1176 | Whatever requests a lane makes, whatever answers it gets, from a target that changes its mind too, through blocks, retries and skips, and wherever it is left: it has dealt with a prefix of its records, and its mark is the last one's. |
| `FanoutPass.ShipLanes` | internal/cluster/fanout_remote.go:743-774 | Over all lanes: with a record those of its lane before it are shipped, marks are the last shipped of each lane, and what comes back is exactly the rest. |
| `FanoutPass.ShippedByLane` | internal/cluster/fanout_remote.go:743-774 | What the lanes shipped is by lane a prefix of what the pass sends. |
| `FanoutPass.ReadSends` | internal/cluster/fanout_remote.go:718-726 | What is left of a read after leaving out the done records is what the pass sends. |
| `FanoutProgress.LedgerTrue` | internal/cluster/fanout_remote.go:707-804 | A record counts as accepted exactly when a pass shipped it, as dropped only when the cursor passed it after retention removed it. |
| `FanoutProgress.NotedTrue` | internal/cluster/fanout_remote_state.go:466-477 | What a pass notes is true even when the lane count changed before it. |
| `FanoutProgress.NotResent` | internal/cluster/fanout_remote_state.go:441-485 | In every run, while the lane count stays, nothing restarts and no slab that ends before it finishes, a record a pass shipped is sent by no later pass. |
| `FanoutProgress.PassBehind` | internal/cluster/fanout_remote_state.go:462-485 | What a pass shipped, or what was behind the cursor or its marks under that lane count, is behind them afterwards if and only if the pass did not finish a slab that ends before it. |
| `FanoutProgress.NextSound` | internal/cluster/fanout_cursor.go:133-217 | Every step keeps the marks true. |
| `FanoutProgress.RemainingExact` | internal/cluster/fanout_remote_state.go:446-460 | unshipped keeps exactly the records not done. |
| `FanoutProgress.Cursor.Unshipped` | internal/cluster/fanout_remote_state.go:446-460 | The records of a slab not done, in order. |
| `FanoutProgress.Cursor.NoteProgress` | internal/cluster/fanout_remote_state.go:466-477 | Marks under one lane count only rise; a new count replaces them. |
| `AckCoalescer.NothingStranded` | internal/cluster/ack_coalescer.go:107-174 | Under every interleaving inflight is between 0 and the limit, a non-empty queue means every slot is busy, and an unsent batch is in the queue with at most the batch maximum. |
| `AckCoalescer.AnswersTrue` | internal/cluster/ack_coalescer.go:184-291 | In every run: an ack answered not-sent was on no RPC; one answered with a reply was told, at its own place among the records an RPC carried, that record's status, the status of a reply for all, or an error for an error or a reply of another length; it was on one RPC only, unless the owner refused the whole batch as unsupported. |
| `AckCoalescer.CarriedOnce` | internal/cluster/ack_coalescer.go:155-174 | No RPC of a run carries an ack twice. |
| `AckCoalescer.LeaveInOrder` | internal/cluster/ack_coalescer.go:138-174 | In every run a batch never leaves before one queued ahead of it. |
| `AckCoalescer.ArrivalExact` | internal/cluster/ack_coalescer.go:107-149 | An ack leaves alone in a free slot if there is one, and is otherwise the last record of the last queued batch; no other ack changes. |
| `AckCoalescer.ReturnExact` | internal/cluster/ack_coalescer.go:184-235 | A reply answers the ack an RPC carried alone with what it says, and releases a batch's callers; no other ack changes. |
| `AckCoalescer.ReleaseExact` | internal/cluster/ack_coalescer.go:155-174 | A slot given up goes to the batch queued first, whose RPC carries exactly the acks whose callers have not left; or it is free. |
| `AckCoalescer.CollectExact` | internal/cluster/ack_coalescer.go:246-282 | A caller gets what its batch's RPC says of its own record, or sends it again outside the slots, the latter if and only if the owner refused the batch. |
| `AckCoalescer.LeaveExact` | internal/cluster/ack_coalescer.go:283-291 | A caller is told its record was not sent only while the batch has not left, which then leaves without it. |
| `AckCoalescer.Frozen` | internal/cluster/ack_coalescer.go:155-198 | No step changes a batch that has left: its records, who had left it, its RPC; nor what an RPC carries. |
| `AckCoalescer.RunSound` | internal/cluster/ack_coalescer.go:107-291 | The invariant holds in every state of every run. |
| `AckCoalescer.NextSound` | internal/cluster/ack_coalescer.go:107-291 | Every step keeps it: arrivals, replies, slot passing, timeouts, cancellations, resends. |
| `AckCoalescer.Spread` | internal/cluster/ack_coalescer.go:201-235 | Every caller that had not left gets the status the reply holds at its record's place among those sent, the status of a reply for all, or an error for an error or a reply of another length; one that left gets nothing. |
| `AckCoalescer.Owner.ForwardAck` | internal/cluster/ack_coalescer.go:107-123 | Leaves at once in a free slot, joins the queue otherwise. |
| `AckCoalescer.Owner.JoinQueueTail` | internal/cluster/ack_coalescer.go:138-149 | Joins the last batch with room, or a new one behind it. |
| `AckCoalescer.Owner.ReleaseAckSlot` | internal/cluster/ack_coalescer.go:155-174 | Frees a slot or passes it to the head batch, whose RPC carries exactly the live acks. |
| `AckCoalescer.Owner.LiveItems` | internal/cluster/ack_coalescer.go:155-174 | The acks whose callers have not left, in order. |
| `AckCoalescer.Owner.LeaveBatch` | internal/cluster/ack_coalescer.go:283-291 | Leaves exactly when the batch has not been sent. |
| `UnshippedCheck.CleanReport` | internal/cluster/remote_links.go:1023-1104 | From the report alone: when it is clean for the stubs, every record any member had accepted when the check began (committed since, before, or in its backlog) is on every stub's remote child when the check ends. |
| `UnshippedCheck.CleanMeansShipped` | internal/cluster/remote_links.go:1023-1104 | When the backlogs are read first and the lag second, each reading at any moment of its phase, clean readings mean every record accepted when the check began, committed by then or in a backlog, is on the child at the end. |
| `UnshippedCheck.CommittedByMid` | internal/cluster/remote_links.go:1061-1073 | Once every backlog was read empty, what was accepted at the start is committed. |
| `UnshippedCheck.LagFirstMisses` | internal/cluster/remote_links.go:1023-1031 | In the other order a clean report can be wrong: a history shows it. |
| `UnshippedCheck.UnshippedNow` | internal/cluster/remote_links.go:1032-1104 | The report is clean for a set of stubs if and only if every member answered without backlog or cap, every owner could be asked, and each stub is a child with exactly one caught-up report per partition; and what it says otherwise is so: who answered what, and as each child's lag the number of records between cursor and high watermark. |
| `UnshippedCheck.LagCounts` | internal/cluster/remote_links.go:1080-1095 | A child's lag is the number of records below the high watermark and not below the cursor, over the cells reported once. |
| `UnshippedCheck.CollectBacklogs` | internal/cluster/remote_links.go:1061-1073 | Each member that answered has its count, each that did not is named, and so is each whose scan was capped; all are empty exactly when every member answered that it has none. |
| `UnshippedCheck.CountLag` | internal/cluster/remote_links.go:1080-1095 | Each child's lag is the sum over the cells reported once. |
| `UnshippedCheck.WholeChildren` | internal/cluster/remote_links.go:1096-1102 | A child is whole exactly when every partition has one report and every owner could be asked. |
| `UnshippedCheck.LagZero` | internal/cluster/remote_links.go:1091-1095 | The lag is zero exactly when no cell reported once is behind. |
| `SingleFlight.FreshReport` | internal/cluster/remote_links.go:967-1021 | In every run, the report a caller gets is of an ended check of its own parent that started after the caller arrived, when none ran; a caller waits out at most one other check, and is never throttled after waiting. |
| `SingleFlight.StartedThen` | internal/cluster/remote_links.go:990-1014 | Every check started at the moment it says, when no check of its parent was running. |
| `SingleFlight.ArrivedThen` | internal/cluster/remote_links.go:967-971 | A caller's arrival is the moment it took its sequence number. |
| `SingleFlight.RunSound` | internal/cluster/remote_links.go:1178-1217 | The invariant holds in every state of every run, for checks and member scans alike. |
| `SingleFlight.NextSound` | internal/cluster/remote_links.go:967-1021 | Every step keeps it, callers that give up included. |
| `SingleFlight.Flights.StartOrJoin` | internal/cluster/remote_links.go:972-994 | The critical section, exactly: a caller joins the check of its key that runs; with none it is refused if and only if it is throttled and has not waited; else it starts one, with the next number, now. |
| `SingleFlight.RefusedThen` | internal/cluster/remote_links.go:972-994 | In every run a refused caller was throttled, had waited out no check, and none of its key ran then. |
| `SingleFlight.LooksFinds` | internal/cluster/remote_links.go:972-994 | And conversely: a caller that looks waits for the check that runs, is refused exactly then, or has started one. |
| `VersionedCache.CacheIsRebuild` | internal/cluster/produce_targets.go:58-159 | In every run of any number of callers against a store whose data changes before its version: a cached table whose versions are the current ones, no advance outstanding, is the table built from the current assignments and members. |
| `VersionedCache.AnswerIsCurrent` | internal/cluster/route_cache.go:35-88 | Every answer, cached or rebuilt, was current at a moment of its call: both versions were, and if nothing was outstanding it is that moment's table. |
| `VersionedCache.HitServes` | internal/cluster/produce_targets.go:58-100 | Undisturbed, a call that finds a table of the current versions answers with it, lists nothing and leaves it cached. |
| `VersionedCache.MissBuilds` | internal/cluster/route_cache.go:35-128 | Undisturbed, any other call answers with the table of the assignments and members as they are and caches it; where nothing is assigned there are no routes and no targets, and nothing is cached. |
| `VersionedCache.FailureTells` | internal/cluster/route_cache.go:35-88 | A listing that fails gives no answer, and routes are then not cached. |
| `VersionedCache.RunSound` | internal/cluster/route_cache.go:35-88 | What every caller holds fits the store, in every state of every run. |
| `VersionedCache.NextSound` | internal/cluster/produce_targets.go:58-159 | Every step keeps it: changes, late advances, failed listings, re-reads. |
| `VersionedCache.PointThen` | internal/cluster/produce_targets.go:73-81 | The last version read of an answer happened during its call. |
| `RouteTables.BuildTargets` | internal/cluster/produce_targets.go:96-152 | Builds the target table. |
| `RouteTables.TargetsAt` | internal/cluster/produce_targets.go:127-152 | Each assigned partition, from the assignment that counts: local if and only if this node owns it or has no name, unknown if and only if no member has the owner's id, unavailable if and only if the last such member is dead or has no address, and else at that address. |
| `RouteTables.TargetsFrom` | internal/cluster/produce_targets.go:127-152 | Only assigned partitions are in the table. |
| `RouteTables.LocalOnly` | internal/cluster/produce_targets.go:101-125 | A table whose partitions are all local does not depend on the members, so not reading them is sound. |
| `RouteTables.BuildRoutes` | internal/cluster/route_cache.go:90-128 | Builds the route table. |
| `RouteTables.RoutesMean` | internal/cluster/route_cache.go:90-128 | Every assignment's route once, in partition order, split by owner; partitions is the least number above every index; byPartition holds exactly the partitions present. |
| `RouteTables.ListedAt` | internal/cluster/route_cache.go:90-128 | A route says its assignment's partition and owner, alive if and only if the last member of that id is not dead, and that member's address, or none. |
| `RouteTables.ByPartCounts` | internal/cluster/route_cache.go:90-128 | A partition assigned more than once has the last assignment's route. |
| `RouteTables.SortedSorts` | internal/cluster/route_cache.go:138-142 | Sorting puts the same routes in partition order. |
| `RouteTables.SortRoutes` | internal/cluster/route_cache.go:138-142 | Sorts by partition. |
| `Reconciler.OneWriter` | internal/cluster/fanout_runner.go:366-413 | Over every run of ticks, metadata changes and cursor exits, no two live cursors share an offset file. |
| `Reconciler.CursorsJustified` | internal/cluster/fanout_runner.go:338-413 | In every state of every run, a cursor is for a partition this node owned and a child attached to it, as the metadata said at moments before, and starts at the offset recorded for that attachment of that partition, or at the tail if none was. |
| `Reconciler.DesiredExact` | internal/cluster/fanout_runner.go:338-364 | The cursors wanted are exactly those of attached children of known parents, for each partition this node owns, with the recorded anchor. |
| `Reconciler.SkipsBounded` | internal/cluster/fanout_runner.go:95-130 | In every run, at most 29 ticks in a row are skipped. |
| `Reconciler.SkippedMeans` | internal/cluster/fanout_runner.go:107-114 | A tick is skipped if and only if the last pass settled, the version stands, no exit was heard of, less than 30 seconds went by and no sweep is due. |
| `Reconciler.SkipExact` | internal/cluster/fanout_runner.go:95-130 | At every skipped tick of every run: a full pass would do nothing if and only if no worker stands between closing its channel and telling the gate, and the cursors are as the metadata asks; with no version advance outstanding they are exactly the ones asked for. |
| `Reconciler.SkipMisses` | internal/cluster/fanout_runner.go:407-412 | A run reaches a skipped tick in that window: a stopped cursor stays unreplaced for that tick. |
| `Reconciler.SkipMissesChange` | internal/cluster/fanout_runner.go:107-114 | A run reaches a skipped tick after a change whose version has not advanced: a cursor of a deleted topic stays. |
| `Reconciler.StoppedIsReaped` | internal/cluster/fanout_runner.go:107-130 | A tick is never skipped while a worker that told the gate it stopped waits to be reaped. |
| `Reconciler.RunSound` | internal/cluster/fanout_runner.go:302-424 | The invariant holds in every state of every run. |
| `Reconciler.NextSound` | internal/cluster/fanout_runner.go:302-424 | Every step keeps it: failed listings, unreadable owners, replicas behind, exits during a pass. |
| `Reconciler.PassApart` | internal/cluster/fanout_runner.go:374-413 | A pass leaves the live cursors on distinct files, whatever still drains. |
| `Reconciler.PassSettles` | internal/cluster/fanout_runner.go:374-417 | A pass that leaves nothing draining ends with exactly the desired cursors. |
| `Reconciler.IdlePass` | internal/cluster/fanout_runner.go:374-413 | For all workers and all desired cursors: a pass does nothing if and only if no cursor has stopped, those not desired are cancelled, and those desired and missing wait for a file that is busy. |
| `Reconciler.CandidatesApart` | internal/cluster/fanout_runner.go:338-364 | The desired cursors write distinct files. |
| `Reconciler.Runner.Apply` | internal/cluster/fanout_runner.go:374-416 | One pass: reap, cancel, spawn unless a draining cursor has the file. |
| `Reconciler.Runner.StopOthers` | internal/cluster/fanout_runner.go:374-392 | Reaps the stopped, cancels the undesired, says which still drain. |
| `Reconciler.Runner.FileBusy` | internal/cluster/fanout_runner.go:534-541 | True exactly when a draining cursor shares the file. |
| `Reconciler.Runner.Skip` | internal/cluster/fanout_runner.go:107-114 | Skips exactly when nothing exited, the last pass settled, the version stands and no pass is forced or overdue. |

## Left out

- Linger, latency averages and wake-up times (`lingerUntil`, `noteLatency`, `nextWake`): which destinations linger, when
  a retry falls due and when a commit counts as slow are inputs.
- Liveness: no theorem says a retry or a rescan happens in time.
- The dispatcher's memo caches (deleted topics, incarnations, per-read reroutes, `topicInfo`): what they answer is an input, different for every record and moment.
- The bytes of WAL records, frames and RPCs; a record is its seq, topic, partition, incarnation and size.
- Dispatcher.Loop.Launch: the reroute memo could let a queue move back and forth within one launch, so the loop is driven by a finite list of turns; every such list is covered.
- DispatchStopExact.EarlyStopExact: the only-if half is for records that can be kept back (`DispatchStopExact.KeepableExact`). A record without a topic id whose destination holds nothing is placed or settled at once; which of these can still bring a rescan to its stop depends on the room left for each and on the siblings a reroute may fill.
- MoveProtocol.FlipSafe: stands on the source's own assumption that an unknown proposal enters the log within the settle window or never.
- Fsyncs, renames, staging clean-up, sidecar files and `finalizeStaged`'s verification: a path holds a copy or it does not.
- CopyRuns.DrainEnds: the log only grows and its source serves what it lists; retries of a failed fetch inside one pass are not modelled.
- Handoff.FlipInTime: every source gives out tokens; one that does not, and a forced promotion, are not modelled. Clocks run at one rate.
- FanoutPass.ShipPass: the lanes run one after the other; they share nothing but the answers they get, of which nothing is assumed. A lane left in mid-request and one whose link was dissolved are a lane left earlier.
- FanoutLane.Lane.Ship: a refusal of a single record that names another one repeats the same request forever (`FanoutLane.Repeats`); only that answer is excluded, and `FanoutLane.Lane.ShipSome` takes it too. Verdicts that ship nothing and leave the plan alone (retry, gate, stall, uncompressed, smaller chunks) and the verdict that blocks outright are not steps of it; `FanoutPass.RunLane` allows them anywhere.
- The lanes' gate, throttling, held-bytes budget and `checkTarget`: they decide when a request is sent, not what it ships.
- FanoutSlab.CommitSlab: when the caller's context ends is a number of passes; commits of one bucket inside `commitBucket` are its single outcome.
- SingleFlight.FreshReport: whether a caller is throttled is an input of its step; the wall-clock interval is not modelled.
- Member scans' slot limit (`scanSlots`): it delays a scan, it does not share it.
- VersionedCache.CacheIsRebuild: one topic; the caches of different topics share only the members' version, which is in the model.
- RouteTables.SortRoutes: a stable sort; the source's sort is not stable, which matters only for two assignments of one partition.
- Reconciler.Runner.Apply: reads which workers have stopped at one moment; a worker that stops during the pass stops before or after it.
- Orphaned cursor files (`sweepOrphanCursorFiles`, `cleanUpStoppedCursor`): file removal is not modelled.
- Raft, the metastore, the WAL, storage and the `sink` and `messaging` packages are not part of this model; what they answer is an input.
- The CLI, HTTP handlers, attach, pause and resume requests, metrics and logs.
