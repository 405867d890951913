# VarveDB: verified models of the cluster and processing-engine core

This project models the parts of VarveDB whose correctness spans several operations or a whole
run, and proves what they promise:

- **The cluster file index**: an in-memory projection of one ordered log, with rollup snapshots that
  let the log be discarded (`IndexModel`, `IndexReplay`, `IndexReading`, `IndexWatermarks`,
  `IndexQuery`, `FileIndex`), and the protocol by which tasks of many nodes, several on one index,
  append to, roll up and prune that log in object storage (`CommittedLog`, `IndexMerge`,
  `InterruptedReset`, `SharedLog`), with what holds over all its runs (`SharedLogRuns`), what each of
  its conditions is for (`SharedLogLimits`) and runs that fail without them (`SharedLogScenes`,
  `SharedLogFailures`).
- **The trigger scheduler**: a transition system of the smallest steps (`SchedulerModel`) with an
  invariant over all its runs (`SchedulerPlaces`, `SchedulerSlots`, `SchedulerOrder`,
  `SchedulerRuns`); the event loop's own data and why each of its actions is a step
  (`SchedulerLoop`, `SchedulerTraces`); the loop itself, updated in place, each method a run of
  steps recorded in a ghost trace (`EventLoop`); how failing invocations end (`SchedulerFates`); and
  the callers who wait for it (`SchedulerClients`).
- **The compactor**: choosing merges (`MergeSelection`), merging pass after pass (`MergePasses`), the
  queue of inputs to delete (`PendingDeletions`) and the protocol between compactor and owner that
  must never delete a live file (`DeletionSafety`, `RecordedMerges`, `ForwardReplicas`, `MergeRuns`).
- **The line-protocol chunker** (`WriteChunks`, `WriteStream`), **the plugin caches** (`CacheModel`,
  `CacheTimes`, `CacheStores`), **the catalog repositories** (`CatalogModel`, `TokenModel`,
  `Repositories`) and **request routing** (`TriggerRoutes`).

State that the source updates in place is a class whose methods are proved against specification
functions; what is promised over whole runs is proved about those functions.

Where the code does not keep a promise for every input, a lemma shows a concrete failure and another
states exactly when the promise holds:

- The poller and the publisher of a node share one index (init.rs:129-147), and a reset or a merge
  of it is not tied to what the other task has done meanwhile. A reset with a snapshot the index is
  already past makes it skip an entry for good (`ResetSkipsEntry`); a reset nobody interrupts is
  harmless exactly if the index is not ahead of the snapshot (`ResetInvIff`, `ResetBackSkips`). An
  entry applied between its two halves can bring a removed file back (`InterruptedResetRevives`); it
  is harmless exactly if, table by table, it is undisturbed by the snapshot (`InterruptedResetIff`,
  `HarmlessInterruptions`). Merging the startup load brings a removed file back or keeps one
  (`MergeRevives`, `MergeKeepsRemoved`); it is harmless exactly if the indexes are mergeable
  (`MergeInvIff`, and off the log `StartsIffNotRemoved`). The comment at log.rs:183-184 says a
  reader ahead of the snapshot is unaffected; the model follows the code, which resets it.
- An append to the shared log from below the snapshot is lost. `append` (log.rs:248-295) retries
  until its object is free, and after a full prune it is free below the snapshot as well. See
  `AppendReplayedIff` and `StaleAppendReachable`.
- Storing a rollup captured before another was stored and pruned takes entries from every fresh node
  (`StaleRollupReachable`), exactly if an entry above it is missing (`PutSnapshotCompleteIff`). One
  failed delete of a prune leaves a hole readers do not notice (`HoleReachable`); a sync is complete
  exactly if none is missing above where it applies (`SyncCompleteIff`, `PruneCompleteIff`).
- The owner's compaction handler swaps files in memory before it writes the durable record. If that
  write fails, the retried notice looks like a redelivery and is acknowledged although nothing is
  durable, so inputs the durable index still lists are deleted. See `FailedRecordLoses` and,
  wherever it happens, `ResentLoses`; with a restart in between it is safe (`RepairedRunsAreSafe`).
  The comment at rpc/server.rs:121-123 says the durable record exists in that branch; the model
  follows the code.
- A merge's output path depends on its inputs alone (compactor.rs:593-604), so merging the same
  files twice writes, and has recorded, the same path. If that path has meanwhile been merged away
  and queued, it is deleted while live, although every record is written: after a restart with an
  older index (`OldReplicaLoses`) or when a notice that timed out is handled late
  (`LateNoticeLoses`). A notice is harmless exactly if its output is not queued and no input of it
  is the output of a notice given up on (`NoticeSafeIff`, `QueuedOutputLoses`, `OutstandingLoses`),
  both of which the compactor could check from what it keeps.
- `Repository::insert` with a new id under a name another id holds evicts that id's name. See
  `InsertInStepIff`, `StolenNamePanics` and `TheftPanics`.

The end of the scheduler loop acknowledges shutdown waiters even while auto-disables are pending
(`StopAll`, `EndAcksAbandoned`), which no caller can observe: whoever is told is told in time
(`ToldOnlyWhenQuiet`, `NobodyWaitsAtEnd`).

## Conventions

Ids, counters and sizes (`u64`, `usize`, typed ids) are `nat`; times are `int`. Hash maps iterate in
any order: loops over them pick an arbitrary remaining key. Object-store requests, RPC replies,
cancel tokens and clocks are arguments or nondeterministic choices. A Python object is a `nat`.

## Model

| member | source | states |
|---|---|---|
| IndexReplay.RollupExact | influxdb3_cluster/src/file_index.rs:342-449 | for any log with increasing sequences and any cut, restoring the snapshot of the prefix into an empty index and applying the suffix shows the same files with `added_at`, watermarks, time watermarks and position as replaying the whole log |
| IndexReplay.RereadStretch | influxdb3_cluster/src/file_index.rs:163-167 | re-applying any stretch of the log already applied changes nothing |
| IndexReplay.RereadNoOp | influxdb3_cluster/src/file_index.rs:163-167 | entries at or below the position are ignored |
| IndexReplay.ReplaySameView | influxdb3_cluster/src/file_index.rs:163-219 | indexes that show the same keep showing the same under any log |
| IndexReplay.ReplayConcat | influxdb3_cluster/src/file_index.rs:163-219 | replaying a log in two parts is replaying it in one |
| IndexReplay.RestoreExact | influxdb3_cluster/src/file_index.rs:408-449 | restoring a snapshot of a well-formed index into an empty one reproduces everything a reader can ask of it |
| IndexReplay.ApplyWellFormed | influxdb3_cluster/src/file_index.rs:163-219 | applying an entry keeps paths unique per table, `added_at` within the position, time watermarks above every live file, and never lowers position or watermarks |
| IndexReplay.ReplayWellFormed | influxdb3_cluster/src/file_index.rs:163-219 | the same over every log |
| IndexReplay.RestoreWellFormed | influxdb3_cluster/src/file_index.rs:380-449 | the same for restoring or merging a snapshot of a well-formed index into another |
| IndexReading.IndexReadsLog | influxdb3_cluster/src/file_index.rs:169-198 | after any increasing log a path is live exactly if some delta adds it and no later delta removes it (an add in the same delta wins), and its record and `added_at` are those of the earliest add since the last removal |
| IndexReading.FoldLive | influxdb3_cluster/src/file_index.rs:169-198 | liveness of a path read off the history of deltas, both directions |
| IndexReading.FoldRecords | influxdb3_cluster/src/file_index.rs:169-198 | the record kept for a path read off the history of deltas, both directions |
| IndexReading.ReplayFolds | influxdb3_cluster/src/file_index.rs:163-219 | the files of one table are a fold of the history of its deltas |
| IndexQuery.SortOrders | influxdb3_cluster/src/file_index.rs:278-288 | sorting by (`added_at`, path) rearranges and orders |
| IndexQuery.OrderUnique | influxdb3_cluster/src/file_index.rs:278-288 | only one arrangement of the same distinct files is in that order |
| IndexQuery.ReplicasAgree | influxdb3_cluster/src/file_index.rs:259-289 | replicas that show the same answer a query with the same files in the same order, however their maps iterate |
| IndexQuery.TableChunks | influxdb3_cluster/src/lib.rs:240-287 | local chunks first, then every peer file with its position as chunk order; too many files is an error with the total |
| IndexQuery.LaterPublicationWins | influxdb3_cluster/src/lib.rs:270-284 | among the peer files of an answer a later publication has a strictly higher chunk order |
| IndexWatermarks.WatermarksReadLog | influxdb3_cluster/src/file_index.rs:200-219 | after any increasing log a node has a published watermark exactly if some delta is about it, the greatest snapshot sequence of those deltas; and a time watermark exactly if a file of it was ever added, the greatest max time of those files |
| IndexWatermarks.HighestTimeIs | influxdb3_cluster/src/file_index.rs:205-215 | the time a delta raises the watermark to bounds every file it adds and is reached by one; none without files |
| FileIndexes.FileIndex.ApplyEntry | influxdb3_cluster/src/file_index.rs:163-219 | the in-place loop over deltas computes the `Apply` that `IndexReadsLog` and `WatermarksReadLog` read off the log; an entry at or below the position changes nothing, a later one moves the position to it |
| FileIndexes.FileIndex.Restored | influxdb3_cluster/src/file_index.rs:408-449 | restoring in place leaves exactly the merge of index and snapshot |
| FileIndexes.FileIndex.Reset | influxdb3_cluster/src/file_index.rs:393-402 | resetting in place forgets what was held |
| FileIndexes.FileIndex.ToSnapshot | influxdb3_cluster/src/file_index.rs:342-374 | the snapshot lists every table in its own order and every watermark |
| FileIndexes.FileIndex.MergeFrom | influxdb3_cluster/src/file_index.rs:380-382 | merging is restoring a snapshot of the other index |
| FileIndexes.FileIndex.FilesFiltered | influxdb3_cluster/src/file_index.rs:259-289 | a file is answered exactly if it is live in the queried database and table at a node other than the excluded one, does not end before the lower bound and does not start after the upper; in (`added_at`, path) order |
| IndexQuery.AnswerMeans | influxdb3_cluster/src/file_index.rs:259-289 | what an answer holds and how it is ordered, with every condition on database, table, node, time bounds, position and path written out |
| ParquetFiles.OverlapsIff | influxdb3_write/src/lib.rs:841-849 | a file passes the time filter exactly if it neither ends before the lower bound nor starts after the upper; for bounds the right way round, exactly if some time of it lies within them |
| ParquetFiles.PathLessIff | influxdb3_cluster/src/file_index.rs:278-282 | the tie-breaking order on paths is lexicographic: decided at the first difference, or by which path ends first |
| SharedLogRuns.CarefulRunsAreExact | influxdb3_cluster/src/file_index/log.rs:112-417 | over every interleaving of the requests and index changes that loads, merges, syncs, appends, rollups and prunes are made of, by any number of tasks on shared or separate indexes: each index is the exact replay of the committed log up to its position, none falls back except between the two halves of a reset, and a fresh node loses nothing, provided every append is made above the snapshot, every rollup is stored while all it does not cover is in the log, prunes stay below the snapshot and delete oldest first, an index is reset only if not ahead of the fetched snapshot and not touched halfway, and only mergeable indexes are merged |
| SharedLogRuns.StepInv | influxdb3_cluster/src/file_index/log.rs:112-417 | each such step keeps the store without holes above the snapshot, every index exact, and everything a task holds (a listing, a snapshot, an entry) continuing its index |
| SharedLogRuns.FreshLoadExact | influxdb3_cluster/src/file_index/log.rs:112-142 | a node starting now ends at the replay of the whole committed log |
| SharedLogLimits.SyncCompleteIff | influxdb3_cluster/src/file_index/log.rs:148-213 | from any exact position over any store of committed entries, a sync applies every committed entry exactly if none is missing above the position it applies its listing to, and then ends at the replay of the whole log |
| SharedLogLimits.FreshCompleteIff | influxdb3_cluster/src/file_index/log.rs:112-142 | a fresh node applies every committed entry exactly if none is missing above the stored snapshot |
| SharedLogLimits.SyncReachesEndIff | influxdb3_cluster/src/file_index/log.rs:148-179 | in every reachable state an undisturbed sync is complete exactly if it is at the end or some log object lies ahead |
| SharedLogLimits.AppendReplayedIff | influxdb3_cluster/src/file_index/log.rs:248-295 | an append that finds its object free is replayed by fresh nodes exactly if it is made above the snapshot |
| SharedLogLimits.CarelessAppendLost | influxdb3_cluster/src/file_index/log.rs:248-295 | an append made from below the snapshot is visible to no fresh node |
| SharedLogLimits.PutSnapshotCompleteIff | influxdb3_cluster/src/file_index/log.rs:321-350 | after storing a captured rollup a fresh node applies every committed entry exactly if every entry above the captured position is in the log |
| SharedLogLimits.StaleRollupLoses | influxdb3_cluster/src/file_index/log.rs:321-350 | otherwise entries are lost to fresh nodes, who do not even reach the end if the last entry is pruned |
| SharedLogLimits.PruneCompleteIff | influxdb3_cluster/src/file_index/log.rs:360-393 | after deleting any part of what a prune may delete, a sync of any index is complete exactly if no entry is missing above where it applies |
| SharedLogLimits.HoleLosesFile | influxdb3_cluster/src/file_index/log.rs:360-393 | a hole behind the next surviving entry goes unnoticed and hides a live file only the missing entry added |
| SharedLogLimits.ApplyCompleteIff | influxdb3_cluster/src/file_index/log.rs:148-179 | applying a stretch of the log to an exact index skips no entry exactly if it starts no later than the position, and is then exact |
| SharedLogLimits.ResetInvIff | influxdb3_cluster/src/file_index/log.rs:185-213 | in every reachable state a reset of a shared index keeps all of this exactly if the index is not ahead of the fetched snapshot |
| SharedLogLimits.ResetBackSkips | influxdb3_cluster/src/file_index/log.rs:185-213 | and in every other case the tasks can go on so that the index ends past entries the snapshot does not cover and that were never applied to it, every step but the reset careful if the entry after the old position is in the log or there is none |
| SharedLogLimits.PrunedNext | influxdb3_cluster/src/file_index/log.rs:148-179 | where it is pruned instead the index is below the stored snapshot, and a reader sees nothing or sees that entries are missing |
| SharedLogLimits.InterruptedResetIff | influxdb3_cluster/src/file_index.rs:393-402 | in every reachable state an entry applied between the two halves of a reset leaves the index exact exactly if it is undisturbed by the snapshot, and is never later than the one after it |
| InterruptedReset.InterruptedExactIff | influxdb3_cluster/src/file_index.rs:393-449 | for any committed entry and snapshot: up to the entry after the snapshot, exact exactly if undisturbed; a later one takes the index past entries it lacks |
| InterruptedReset.EarlierEntryIff | influxdb3_cluster/src/file_index.rs:393-449 | an entry the snapshot covers does no harm exactly if every table starts with what the entry leaves there alone |
| InterruptedReset.NextEntryIff | influxdb3_cluster/src/file_index.rs:393-449 | the entry after the snapshot does no harm exactly if, per table, it leaves nothing there alone and removes none of its files, or removes and adds again every one |
| InterruptedReset.FoldBeside | influxdb3_cluster/src/file_index.rs:169-198 | a table after any deltas is what they left of its files followed by what they make of an empty table, less those paths |
| SharedLogLimits.MergeInvIff | influxdb3_cluster/src/file_index/log.rs:412-417 | in every reachable state merging a load keeps all of this, and leaves the index exact, exactly if the two indexes are mergeable |
| IndexMerge.MergeExactIff | influxdb3_cluster/src/file_index.rs:380-449 | merging one exact index into another gives the exact index of the further position exactly if, per table, the one behind is where the one ahead starts, or the one ahead has lost no path of the one behind |
| IndexMerge.StartsIffNotRemoved | influxdb3_cluster/src/file_index.rs:169-198 | read off the log: a table starts its later self exactly if no entry between removes a file it holds |
| CommittedLog.ReplayStretch | influxdb3_cluster/src/file_index.rs:163-219 | an exact index stays exact under any stretch of the log that starts no later than its position |
| CommittedLog.ReplayTakes | influxdb3_cluster/src/file_index.rs:163-167 | the position a replay reaches and the entries it takes in are those that change the index |
| CommittedLog.AboveExact | influxdb3_cluster/src/file_index/log.rs:216-242 | replaying the surviving objects above an exact position is exact if none is missing |
| CommittedLog.TakenOfAbove | influxdb3_cluster/src/file_index/log.rs:216-242 | of surviving objects a replay takes in exactly those above its starting position |
| SharedLogFailures.ResetSkipsEntry | influxdb3_cluster/src/init.rs:129-147 | a run from an empty store, careful until the poller resets the index the publisher has moved past its snapshot: the publisher's own entry then takes the index past one it lacks, for good |
| SharedLogFailures.InterruptedResetRevives | influxdb3_cluster/src/file_index.rs:393-402 | a run in which an append is applied between the two halves of a reset and the file it removed comes back |
| SharedLogFailures.HarmlessInterruptions | influxdb3_cluster/src/file_index.rs:393-402 | of three entries applied between the halves of one reset two are undisturbed and that one is not |
| SharedLogFailures.MergeRevives | influxdb3_cluster/src/file_index/log.rs:412-417 | a run in which the load merged at startup brings back a file the shared index has seen removed |
| SharedLogFailures.MergeKeepsRemoved | influxdb3_cluster/src/file_index/log.rs:412-417 | a run in which merging a load that is ahead leaves a removed file, whose removal is then ignored |
| SharedLogFailures.StaleAppendReachable | influxdb3_cluster/src/file_index/log.rs:248-295 | a run after which a node that was behind syncs to nothing new and is about to create its entry below the snapshot |
| SharedLogFailures.StaleRollupReachable | influxdb3_cluster/src/file_index/log.rs:279-350 | a run in which a publisher captures a rollup after its append, another node rolls up and prunes, the older rollup is stored over the newer one, and a live file is gone for every fresh node |
| SharedLogFailures.HoleReachable | influxdb3_cluster/src/file_index/log.rs:360-393 | a run in which one failed delete of a prune leaves a reader at the end of the log without a live file |
| SharedLog.Sync | influxdb3_cluster/src/file_index/log.rs:148-213 | the listing is applied to the index as it is, or, exactly if its first entry is more than one past the position and there is a snapshot, to that snapshot alone; and a recovery from a snapshot that covers what the listing does not is exact whatever the index held |
| SchedulerRuns.Reachable | influxdb3_processing_engine/src/scheduler.rs:619-1029 | every reachable state satisfies the invariant: places, slots, permits, order and serial runtimes |
| SchedulerRuns.SlotAccounting | influxdb3_processing_engine/src/scheduler.rs:741-1029 | `in_flight` is running work plus delayed retries plus pending auto-disables, within `max_concurrency`, and a runtime with any of them has its state |
| SchedulerRuns.Conservation | influxdb3_processing_engine/src/scheduler.rs:829-1012 | each invocation is in exactly one place; a request is answered exactly once, when it leaves or starts an auto-disable; no invocation is submitted more often than the policy allows |
| SchedulerRuns.OutstandingBounded | influxdb3_processing_engine/src/scheduler.rs:378-410 | outstanding invocations are the queue size less the free permits, so never more than the queue size |
| SchedulerRuns.AdmissionOrder | influxdb3_processing_engine/src/scheduler.rs:701-761 | first attempts are submitted in admission order, skipping no one |
| SchedulerRuns.SerialRuntime | influxdb3_processing_engine/src/scheduler.rs:741-1012 | with one slot all attempts of an invocation are submitted in a row |
| SchedulerRuns.ShutdownFinal | influxdb3_processing_engine/src/scheduler.rs:704-739 | a shutdown is acknowledged only when the runtime has nothing queued, running, delayed or auto-disabling, and in every continuation it submits nothing and its state never comes back |
| SchedulerRuns.GoneForever | influxdb3_processing_engine/src/scheduler.rs:687-702 | a cancelled runtime without a state takes no part in any later step |
| SchedulerSlots.NeverSaturates | influxdb3_processing_engine/src/scheduler.rs:1014-1018 | releasing a slot never finds the counter at zero or the state gone |
| SchedulerSlots.StepSlots | influxdb3_processing_engine/src/scheduler.rs:741-1029 | every step keeps counters and permits exact |
| SchedulerPlaces.StepPlaces | influxdb3_processing_engine/src/scheduler.rs:687-1029 | every step keeps queues and records in agreement |
| SchedulerOrder.StepOrder | influxdb3_processing_engine/src/scheduler.rs:741-1012 | every step keeps submissions in admission order and attempts numbered |
| SchedulerLoop.SimTake | influxdb3_processing_engine/src/scheduler.rs:741-756 | taking the head of a queue into a slot, on the loop's own data, is the corresponding step of the model and keeps the two in agreement; the other `Sim` lemmas of the module say so of every other action of the loop, its clients and its tokens |
| SchedulerTraces.LoopFacts | influxdb3_processing_engine/src/scheduler.rs:585-596 | what every reachable state says of the loop's own maps: live work has a state, stopped states are cancelled and empty, queues hold their own runtime's jobs |
| SchedulerTraces.NotYetStopped | influxdb3_processing_engine/src/scheduler.rs:1020-1029 | a runtime with slots in use has work running, delayed or auto-disabling |
| SchedulerTraces.EndOfLoop | influxdb3_processing_engine/src/scheduler.rs:655-671 | with nothing queued, running or delayed every accepted request has its one answer, and a runtime is quiet exactly if it has no pending auto-disable |
| SchedulerFates.RetriesExhausted | influxdb3_processing_engine/src/scheduler.rs:858-931 | over every run: an invocation that has left a runtime not cancelled, and of which no attempt ended well, was submitted exactly `max_attempts` times if the runtime retries (once if that is less), and once if it logs; it is not one that disables |
| SchedulerFates.FirstAttemptOnly | influxdb3_processing_engine/src/scheduler.rs:858-931 | over every run: only an invocation of a retrying runtime is submitted more than once, never more than `max_attempts` times; only those wait for a retry, and only those of disabling runtimes for an auto-disable |
| SchedulerClients.ToldOnlyWhenQuiet | influxdb3_processing_engine/src/scheduler.rs:440-454 | over every history of handles, calls and loop steps, and every continuation: a caller still waiting is told its runtime has stopped only when nothing of it is queued or in flight, and nothing of it is submitted afterwards |
| SchedulerClients.NobodyWaitsAtEnd | influxdb3_processing_engine/src/scheduler.rs:619-671 | the loop ends only once every handle is dropped, and a waiting caller borrows one, so no one waits for the acknowledgements sent then |
| SchedulerClients.EndAcksAbandoned | influxdb3_processing_engine/src/scheduler.rs:655-671 | a history whose end acknowledges a waiter while an auto-disable of its runtime is pending: its caller has given up |
| EventLoop.SchedulerRuntime.constructor | influxdb3_processing_engine/src/scheduler.rs:598-617 | an empty loop, at the start of every run |
| EventLoop.SchedulerRuntime.DrainCancelled | influxdb3_processing_engine/src/scheduler.rs:578-582 | empties the queue of a cancelled runtime, answering each request in it and giving back each permit, and nothing else |
| EventLoop.SchedulerRuntime.StopTaking | influxdb3_processing_engine/src/scheduler.rs:715-718 | the same, and the runtime stops taking work |
| EventLoop.SchedulerRuntime.NextWorker | influxdb3_processing_engine/src/scheduler.rs:763-767 | workers take turns |
| EventLoop.SchedulerRuntime.SubmitWorker | influxdb3_processing_engine/src/scheduler.rs:769-792 | the job runs on the worker whose turn it is, under a fresh work id, and the turn passes on |
| EventLoop.SchedulerRuntime.Enqueue | influxdb3_processing_engine/src/scheduler.rs:687-702 | at the back of the queue of its state, opened if need be, or answered with its permit given back if the token had fired, before the call or between its two reads |
| EventLoop.SchedulerRuntime.ShutdownTrigger | influxdb3_processing_engine/src/scheduler.rs:704-719 | acknowledged at once without a state, else its queue is answered and dropped with the permits given back, and it is stopped and waited for |
| EventLoop.SchedulerRuntime.HandleWorkerResult | influxdb3_processing_engine/src/scheduler.rs:804-818 | stale reports and reports of other workers change nothing; any other report has the effect stated of `HandleAttemptResult` |
| EventLoop.SchedulerRuntime.HandleAttemptResult | influxdb3_processing_engine/src/scheduler.rs:842-931 | in the book of every invocation: an error of a runtime not cancelled starts an auto-disable exactly if it disables, waits for one more attempt exactly if it retries and attempts are left, and everything else ends; attempt and answers change accordingly, no other record changes |
| EventLoop.SchedulerRuntime.HandleAttemptError | influxdb3_processing_engine/src/scheduler.rs:884-931 | the same for an error of a runtime not cancelled; it never ends the work as finished |
| EventLoop.SchedulerRuntime.Handle | influxdb3_processing_engine/src/scheduler.rs:619-685 | what each wake-up leaves in the loop's own data: the invocation queued last or answered, its retry or auto-disable pending with permit and slot kept, the job running again on the same attempt, the waiter waiting or acknowledged, the runtime cancelled and drained |
| EventLoop.SchedulerRuntime.DetachRunningForRuntime | influxdb3_processing_engine/src/scheduler.rs:820-840 | ends all running work of one runtime and nothing else |
| EventLoop.SchedulerRuntime.DetachCancelledRuntimes | influxdb3_processing_engine/src/scheduler.rs:721-739 | the runtimes found cancelled, among them all that were cancelled before, are drained, stopped and run nothing; the others are untouched |
| EventLoop.SchedulerRuntime.FillSlots | influxdb3_processing_engine/src/scheduler.rs:748-755 | jobs leave the front of the queue in order until the slots or the queue are used up |
| EventLoop.SchedulerRuntime.DispatchReady | influxdb3_processing_engine/src/scheduler.rs:741-761 | afterwards every queue is empty or its runtime has `max_concurrency` in flight, those cancelled before are drained and stopped, nothing of one cancelled before was started, and the workers took turns, whichever tokens fire meanwhile |
| EventLoop.SchedulerRuntime.RemoveStoppedStates | influxdb3_processing_engine/src/scheduler.rs:1020-1029 | exactly the stopped states go and all their waiters are acknowledged |
| EventLoop.SchedulerRuntime.HandleRetryDelay | influxdb3_processing_engine/src/scheduler.rs:993-1012 | a timer always has its job; it is resubmitted in its slot, or dropped and answered if cancelled |
| EventLoop.SchedulerRuntime.HandleAutoDisableResult | influxdb3_processing_engine/src/scheduler.rs:946-971 | success cancels the runtime, answers and drops its queue and stops it; the slot and the permit of the invocation are given back in every case |
| EventLoop.SchedulerRuntime.Register | influxdb3_processing_engine/src/scheduler.rs:355-376 | a new runtime with every permit free |
| EventLoop.SchedulerRuntime.Send | influxdb3_processing_engine/src/scheduler.rs:378-410 | sent exactly with one permit taken, or refused with permits and inbox as they were |
| EventLoop.SchedulerRuntime.Turn | influxdb3_processing_engine/src/scheduler.rs:619-653 | the wake-up is handled as `Handle` states, at a point of the trace within the turn; after it nothing cancelled before is queued or running, and its state is gone unless a retry delay or auto-disable is pending; every queue is empty or its runtime full, and no stopped state is left |
| EventLoop.SchedulerRuntime.StopAll | influxdb3_processing_engine/src/scheduler.rs:655-671 | every accepted request is answered exactly once, every waiter acknowledged, and an acknowledged runtime is quiet exactly if it has no pending auto-disable |
| MergeSelection.PackFewest | influxdb3_cluster/src/compactor.rs:224-244 | greedy packing uses no more groups than any cut of the files into runs that are single files or hold at most `max_inputs` files and the target size |
| MergeSelection.PackWithinLimits | influxdb3_cluster/src/compactor.rs:224-244 | its groups concatenate to the files, and each is a single file or within both limits |
| MergeSelection.EligibleOfConcat | influxdb3_cluster/src/compactor.rs:214-221 | eligibility is decided file by file, by chunk time and size, and keeps order and multiplicity |
| MergeSelection.PackCuts | influxdb3_cluster/src/compactor.rs:224-244 | packing gives such a cut: its groups concatenate to the files and each fits |
| MergeSelection.PackLoop | influxdb3_cluster/src/compactor.rs:224-244 | the loop with its running group and size computes the greedy packing, longest fitting prefix first |
| MergeSelection.SelectMerges | influxdb3_cluster/src/compactor.rs:207-255 | the groups of at least two, in order; none if fewer than two files are eligible |
| MergeSelection.ChosenWithinLimits | influxdb3_cluster/src/compactor.rs:214-252 | chosen groups hold 2 to `max_inputs` cold, small files of the table and at most the target size |
| MergeSelection.ChosenAreRuns | influxdb3_cluster/src/compactor.rs:222-252 | chosen groups are disjoint runs of the files in time order |
| MergeSelection.ChosenSavesMost | influxdb3_cluster/src/compactor.rs:224-252 | no cut of the eligible files in time order into single files and runs within both limits leaves fewer files |
| MergeSelection.SortByTimeCorrect | influxdb3_cluster/src/compactor.rs:222 | the sort rearranges, orders by (chunk time, min time) and is stable |
| MergeSelection.SortedByChunkTime | influxdb3_cluster/src/compactor.rs:222 | the order is by chunk time, then by min time |
| MergeSelection.StableSortUnique | influxdb3_cluster/src/compactor.rs:222 | there is only one such arrangement |
| MergeSelection.BoundsTight | influxdb3_cluster/src/compactor.rs:166-191 | the merged bounds hold for every input and are each reached by one |
| MergeSelection.MergedCovers | influxdb3_cluster/src/compactor.rs:546-554 | the merged file is found by every time filter that finds an input, spans no more than the inputs and stays cold |
| MergePasses.RecordLeaves | influxdb3_cluster/src/rpc/server.rs:91-184 | after a recorded merge the table lists the merged file and every file but the inputs |
| MergePasses.PassShrinks | influxdb3_cluster/src/compactor.rs:413-446 | a pass removes at least one file for every merge it records and keeps paths distinct |
| MergePasses.MergingEnds | influxdb3_cluster/src/compactor.rs:390-446 | with nothing new coming in, any number of passes records at most as many merges as files disappear |
| PendingDeletions.DueOrWaiting | influxdb3_cluster/src/compactor.rs:804-813 | the split at `now` keeps every entry on the side its due time says |
| PendingDeletions.InputDeleter.Load | influxdb3_cluster/src/compactor.rs:711-746 | the stored queue is added, or nothing on any failure |
| PendingDeletions.InputDeleter.Save | influxdb3_cluster/src/compactor.rs:756-776 | the stored queue is overwritten, or left as it was on failure |
| PendingDeletions.InputDeleter.Schedule | influxdb3_cluster/src/compactor.rs:778-791 | one entry per input, due after the grace period, then stored |
| PendingDeletions.InputDeleter.TakeDue | influxdb3_cluster/src/compactor.rs:804-813 | exactly the due entries leave the queue, in order |
| PendingDeletions.InputDeleter.ReclaimDue | influxdb3_cluster/src/compactor.rs:803-838 | an object goes exactly if some entry of it is due and it can be deleted, an entry stays exactly if it is due later, and the shorter queue is stored exactly if something was due and the write succeeds |
| RecordedMerges.RepairedRunsAreSafe | influxdb3_cluster/src/compactor.rs:413-838 | over every run of one compactor and any number of owners, with restarts of any of them, failed reads, writes, deletes, lost replies and notices handled late, and whatever mixture of past records the compactor's replica shows at each merge: if an owner that failed to write a record restarts before its next notice, no merge has an output queued for deletion and none an input whose own notice was given up on, then every queued or stored deletion is of a path whose replacement was acknowledged at least the grace period before it is due, nothing is deleted earlier, and no deleted path is in any owner's index, in memory or durable |
| RecordedMerges.RecordedRunsAreSafe | influxdb3_cluster/src/compactor.rs:413-838 | the same over every run that passes the two checks in which every record is written |
| RecordedMerges.DeletedStaysDead | influxdb3_cluster/src/compactor.rs:803-838 | and a deleted path stays deleted and in no index until it is the output of a merge again |
| RecordedMerges.RepairedIsCareful | influxdb3_cluster/src/rpc/server.rs:91-184 | in such runs every owner that has not just failed a record has in memory exactly what is durable, so every notice meets it in step |
| DeletionSafety.NoticeSafeIff | influxdb3_cluster/src/compactor.rs:593-604 | in every state such runs reach, sending a notice keeps all that safety rests on exactly if its output is not queued and, when acknowledged, no input of it is outstanding |
| DeletionSafety.QueuedOutputLoses | influxdb3_cluster/src/compactor.rs:803-838 | wherever the output is queued, time, at most a restart, and one pass delete it while its owner serves it |
| DeletionSafety.OutstandingLoses | influxdb3_cluster/src/rpc/server.rs:91-184 | wherever an acknowledged input is outstanding, its late notice brings it back and it is deleted while its owner serves it |
| MergeRuns.OldReplicaLoses | influxdb3_cluster/src/file_index/log.rs:412-417 | a run in which every record is written, a restarted compactor starts from an older index and merges a pair again, and a live file is deleted |
| MergeRuns.LateNoticeLoses | influxdb3_cluster/src/rpc/client.rs:27-59 | a run in which every record is written and the index never goes back, a notice that timed out is handled after its output was merged away, and a live file is deleted |
| MergeRuns.RewrittenReturns | influxdb3_cluster/src/compactor.rs:593-604 | a run in which a deleted path safely comes back, its inputs having escaped deletion and been merged again |
| MergeRuns.MergedInputIsDeleted | influxdb3_cluster/src/compactor.rs:778-838 | a run in which both inputs of a recorded merge are deleted after the grace period and nothing serves them |
| MergeRuns.FailedRecordLoses | influxdb3_cluster/src/rpc/server.rs:124-174 | one failed write of the record followed by the retried notice deletes a durable file |
| ForwardReplicas.ForwardRunsAreSafe | influxdb3_cluster/src/compactor.rs:413-446 | neither check is needed if each notice is about files of one record of its owner no older than the last notice's and none is handled late |
| ForwardReplicas.DeletedNeverReturns | influxdb3_cluster/src/compactor.rs:803-838 | and then a deleted path never comes back at all |
| ForwardReplicas.OutputNotGone | influxdb3_cluster/src/compactor.rs:593-604 | the output path of files such a replica shows never left the durable index |
| DeletionSafety.CarefulRunsAreSafe | influxdb3_cluster/src/compactor.rs:413-838 | the inner form of the safety theorem: it suffices that each notice meets the owner's memory in step with its durable index about that notice and passes the two checks |
| DeletionSafety.StepInv | influxdb3_cluster/src/compactor.rs:390-838 | every such step keeps owners, acknowledgements, queues and outstanding notices consistent |
| DeletionSafety.AppliedOk | influxdb3_cluster/src/rpc/server.rs:91-184 | handling a notice brings no removed path back but its output, whether or not the record is written |
| RecordedMerges.ResentLoses | influxdb3_cluster/src/rpc/server.rs:111-174 | the restart is needed: wherever a record of a merge of a durable input fails, a second notice before it is acknowledged and the input is deleted while durable |
| DeletionSafety.AckDurableIff | influxdb3_cluster/src/rpc/server.rs:91-184 | when the owner answers that a merge is recorded, the replacement is durable exactly if its memory was in step with its durable index about the notice |
| DeletionSafety.OutOfStepLoses | influxdb3_cluster/src/rpc/server.rs:111-131 | an owner whose memory dropped an input its durable index still has acknowledges the merge, and the input is deleted while durable |
| WriteChunks.EndIsSettled | influxdb3_commands/src/write.rs:364-382 | once a window is full nothing that arrives later changes where the chunk ends |
| WriteChunks.NextChunkEnd | influxdb3_commands/src/write.rs:364-382 | an end is always found in non-empty input except while no newline has arrived and more may come |
| WriteChunks.OneShotChunks | influxdb3_commands/src/write.rs:359-382 | one-shot splitting breaks only at lines, keeps each chunk within the limit or to a single line, leaves no room for the next line and loses nothing |
| WriteChunks.ChunkingUnique | influxdb3_commands/src/write.rs:359-382 | there is only one splitting with these properties |
| WriteChunks.ChunkingConcat | influxdb3_commands/src/write.rs:359-382 | the chunks concatenate to the input |
| WriteChunks.SentIsWhole | influxdb3_commands/src/write.rs:385-415 | chunk, byte and line counts add up to those of the whole input |
| WriteChunks.LinesAreCounted | influxdb3_commands/src/write.rs:385-415 | the line count is the number of places where a line ends, the last one with or without a newline |
| WriteStream.AheadIsConcat | influxdb3_commands/src/write.rs:336-345 | what arrives is the concatenation of the fragments, wherever the input kept the stream waiting |
| WriteStream.WriteChunkStream.constructor | influxdb3_commands/src/write.rs:277-284 | everything is still to be emitted |
| WriteStream.WriteChunkStream.Coalesce | influxdb3_commands/src/write.rs:292-305 | the buffer becomes one piece |
| WriteStream.WriteChunkStream.TryEmit | influxdb3_commands/src/write.rs:315-334 | a chunk is emitted only where no later input could move its end |
| WriteStream.WriteChunkStream.PollNext | influxdb3_commands/src/write.rs:311-356 | a chunk is the head of what is left; the end comes only with nothing left and an empty buffer; a failure only if the input fails; it waits or fails only with less than the limit or no complete line in the buffer |
| WriteStream.WriteChunkStream.SendAll | influxdb3_commands/src/write.rs:286-382 | without a failure the chunks are the one-shot splitting of all data however fragmented, and bytes, lines and chunks are counted right; with one they begin the splitting of every continuation, and what is unsent is less than the limit or no complete line |
| CacheModel.SameAnswers | influxdb3_py_api/src/cache.rs:153-232 | every history of puts, gets, deletes, cleanups and drops under a clock that does not go back gets the answers of a plain map with expiry times |
| CacheTimes.GetShowsLastPut | influxdb3_py_api/src/cache.rs:31-40 | over every history under a clock that does not go back, a get answers `v` exactly if an earlier put gave the key `v`, no accepted put, delete or drop touched the key since, and it is before `at + n` for a put at `at` with a time to live of `n`; without one it never ends, or after 30 minutes in a test namespace |
| CacheTimes.PutKeeps | influxdb3_py_api/src/cache.rs:72-91 | an accepted put files the value with its expiration, or the default one of a test namespace, and changes no other key |
| CacheTimes.RemovalsRemove | influxdb3_py_api/src/cache.rs:215-231 | a delete takes away its key, a drop the keys of the trigger or of the database's triggers, and nothing else |
| CacheTimes.CleanupForgetsExpired | influxdb3_py_api/src/cache.rs:155-183 | once the interval has passed a cleanup forgets exactly what expired before now and drops exactly the caches left empty; earlier it does nothing |
| CacheModel.CleanedExactly | influxdb3_py_api/src/cache.rs:116-128 | a cleanup removes exactly the entries that expired before now and keeps entries and expirations in agreement |
| CacheModel.CleanedShowsSame | influxdb3_py_api/src/cache.rs:116-128 | no later lookup can tell whether a cleanup ran |
| CacheModel.AskedShowsSame | influxdb3_py_api/src/cache.rs:95-104 | removing an expired entry when it is asked for changes no later lookup |
| CacheModel.InsertedAgrees | influxdb3_py_api/src/cache.rs:72-91 | inserting or overwriting keeps every key filed under its expiration and no other |
| CacheModel.RemovedAgrees | influxdb3_py_api/src/cache.rs:106-114 | removing keeps them in agreement |
| CacheModel.StepRefines | influxdb3_py_api/src/cache.rs:153-232 | each operation of the store refines the plain map and answers alike |
| CacheStores.ExpiringCache.Insert | influxdb3_py_api/src/cache.rs:72-91 | in place, with no lookup of a filed key failing |
| CacheStores.ExpiringCache.Get | influxdb3_py_api/src/cache.rs:95-104 | the value unless expired, which removes it |
| CacheStores.ExpiringCache.Remove | influxdb3_py_api/src/cache.rs:106-114 | gone from both indexes; says whether it was there |
| CacheStores.ExpiringCache.Cleanup | influxdb3_py_api/src/cache.rs:116-128 | the loop over expired times removes what a cleanup removes |
| CacheStores.CacheStore.Put | influxdb3_py_api/src/cache.rs:185-207 | the key then holds the value, expiring after the time to live, or never, or in a test namespace after 30 minutes; no other key changes; an invalid time to live changes nothing |
| CacheStores.CacheStore.Get | influxdb3_py_api/src/cache.rs:209-213 | the value `GetShowsLastPut` describes, or nothing |
| CacheStores.CacheStore.Delete | influxdb3_py_api/src/cache.rs:215-221 | removed from its namespace only |
| CacheStores.CacheStore.Cleanup | influxdb3_py_api/src/cache.rs:164-183 | when due, every cache is cleaned and empty ones dropped |
| CacheStores.CacheStore.DropTriggerCache | influxdb3_py_api/src/cache.rs:222-226 | one namespace goes |
| CacheStores.CacheStore.DropAllTriggerCachesForDb | influxdb3_py_api/src/cache.rs:228-231 | all trigger namespaces of a database go |
| CatalogModel.InsertInStepIff | influxdb3_catalog/src/repository.rs:250-273 | an insert keeps ids, names and resources in bijection exactly if it is not a new id under a name another id holds |
| CatalogModel.StolenNamePanics | influxdb3_catalog/src/repository.rs:227-236 | after such an insert the next look at the former owner of the name panics |
| CatalogModel.TheftPanics | influxdb3_catalog/src/repository.rs:227-310 | two inserts under one name and an update of the first do panic |
| CatalogModel.UpdateInStep | influxdb3_catalog/src/repository.rs:280-310 | an update succeeds exactly if the id is there and no other resource has the name; otherwise it changes nothing |
| CatalogModel.NameFindsHolder | influxdb3_catalog/src/repository.rs:172-185 | a name leads to exactly the resource that holds it |
| CatalogModel.InsertLeaves | influxdb3_catalog/src/repository.rs:250-273 | an insert is refused exactly if its id and its name are both there; else the id has the resource and the next id is past it |
| CatalogModel.UpdateLeaves | influxdb3_catalog/src/repository.rs:280-310 | not found, name taken or done, exactly as ids and names say; done leaves the id with the new resource and nothing else changed |
| CatalogModel.ModifyLeaves | influxdb3_catalog/src/repository.rs:144-156 | a change writes back exactly what it made of the resource, a failed change nothing |
| CatalogModel.RemovalsLeave | influxdb3_catalog/src/repository.rs:312-315 | a removed resource's name leads nowhere, all other names where they led; a clear leaves no resource and no name; the next id stays |
| CatalogModel.RemoveInStep | influxdb3_catalog/src/repository.rs:312-315 | removing drops exactly that id from both maps |
| CatalogModel.StepInStep | influxdb3_catalog/src/repository.rs:124-315 | every other operation keeps the bijection, trips no check and changes nothing when it fails, and the next id never goes back |
| CatalogModel.HistoryInStep | influxdb3_catalog/src/repository.rs:124-315 | over every history that steals no name the bijection holds and no check trips |
| CatalogModel.NeverReused | influxdb3_catalog/src/repository.rs:120-162 | over every history, with removals and clears and stolen names: the ids handed out are pairwise distinct, and the next one was never handed out or inserted before |
| CatalogModel.PairMirrored | influxdb3_catalog/src/repository.rs:262-263 | what inserting into a two-way map evicts |
| Repositories.Repository.IdExists | influxdb3_catalog/src/repository.rs:227-236 | says whether the id is there, or that the maps disagree |
| Repositories.Repository.Insert | influxdb3_catalog/src/repository.rs:250-273 | done: the id has the resource, its name leads there, and the bijection holds unless a name is stolen; else nothing changes |
| Repositories.Repository.Update | influxdb3_catalog/src/repository.rs:280-310 | done: exactly the id's resource is replaced and its name leads there; else nothing changes |
| Repositories.Repository.ModifyById | influxdb3_catalog/src/repository.rs:144-156 | done: exactly the id's resource is replaced by what the change made of it, and its name leads there; else nothing changes |
| Repositories.Repository.Remove | influxdb3_catalog/src/repository.rs:312-315 | gone from both maps |
| Repositories.Repository.Clear | influxdb3_catalog/src/repository.rs:124-127 | no resource and no name is left; the next id and what is known of used ids are kept |
| Repositories.Repository.GetAndIncrementNextId | influxdb3_catalog/src/repository.rs:158-162 | an id never inserted or handed out before, or nothing where the ids run out and the source panics |
| TokenModel.HashLookupExact | influxdb3_catalog/src/catalog.rs:238-293 | over every history with fresh names and hashes and unchanged hashes on update, a hash finds a token exactly if a token holds it |
| TokenModel.HashFindsHolder | influxdb3_catalog/src/catalog.rs:238-244 | and then it finds that token |
| TokenModel.AddInStepIff | influxdb3_catalog/src/catalog.rs:246-252 | an accepted token keeps the maps in step exactly if it takes no other token's name or hash; a refused one changes nothing |
| TokenModel.AdminUpdateInStep | influxdb3_catalog/src/catalog.rs:254-278 | rehashing succeeds exactly if the token is there and no other holds the hash; otherwise it changes nothing |
| TokenModel.DeleteLeaves | influxdb3_catalog/src/catalog.rs:280-288 | answers the id of the token with that name, if there is one; then exactly that token is gone, its name leads nowhere, its hash finds nothing and every other hash finds what it found before |
| TokenModel.AddLeaves | influxdb3_catalog/src/catalog.rs:246-252 | an added token is there; its hash finds it, a former hash of its id nothing, every other hash what it found before |
| TokenModel.RehashLeaves | influxdb3_catalog/src/catalog.rs:254-278 | hash taken, missing or done, exactly as the tokens say; done: the token keeps its name, has the hash and the time and id of the update, and lookups follow |
| TokenModel.ReplaceLeaves | influxdb3_catalog/src/catalog.rs:290-293 | done exactly if the id is there and no other token has the name; then exactly that record is replaced |
| TokenModel.UpdateInStepIff | influxdb3_catalog/src/catalog.rs:290-293 | replacing a record keeps the maps in step exactly if it keeps the hash |
| TokenModel.DeleteInStep | influxdb3_catalog/src/catalog.rs:280-288 | deleting drops the token from both |
| Repositories.TokenRepository.GetByHash | influxdb3_catalog/src/catalog.rs:238-244 | the holder of the hash |
| Repositories.TokenRepository.Add | influxdb3_catalog/src/catalog.rs:246-252 | the hash is filed only after the repository accepted the token |
| Repositories.TokenRepository.UpdateAdminHash | influxdb3_catalog/src/catalog.rs:254-278 | in place, with the effect stated by `RehashLeaves` |
| Repositories.TokenRepository.Delete | influxdb3_catalog/src/catalog.rs:280-288 | answers an id exactly if a token has the name, that token's; then resources are the old ones without it, the name leads nowhere, its hash finds nothing and every other hash what it found before |
| Repositories.TokenRepository.Replace | influxdb3_catalog/src/catalog.rs:290-293 | the record only |
| TriggerRoutes.RequestsFindLastHolder | influxdb3_processing_engine/src/lib.rs:231-336 | over every history a request leads to a trigger exactly if that trigger was the last to be given the path and has kept its route since, and the second lookup never fails |
| TriggerRoutes.RouteIsLastGiven | influxdb3_processing_engine/src/lib.rs:231-285 | over every history a trigger has a route exactly if that is the last it was given and neither it nor its database was removed since |
| TriggerRoutes.PathHistory | influxdb3_processing_engine/src/lib.rs:231-285 | every path leads to a trigger whose current route is a request route for that very path |
| TriggerRoutes.TriggerRegistry.InsertRoute | influxdb3_processing_engine/src/lib.rs:243-247 | the replaced route's path goes if it still led there |
| TriggerRoutes.TriggerRegistry.AddWalTrigger | influxdb3_processing_engine/src/lib.rs:267-280 | in place |
| TriggerRoutes.TriggerRegistry.AddRequestTrigger | influxdb3_processing_engine/src/lib.rs:282-285 | the path leads to the new trigger |
| TriggerRoutes.TriggerRegistry.RemoveOne | influxdb3_processing_engine/src/lib.rs:249-253 | the route and its path go |
| TriggerRoutes.TriggerRegistry.RemoveAllForDb | influxdb3_processing_engine/src/lib.rs:255-265 | all routes of the database go, one by one, with the paths that led to them |
| TriggerRoutes.TriggerRegistry.RequestInvocation | influxdb3_processing_engine/src/lib.rs:322-336 | not found exactly if the path is unknown |

## Left out

- The index's nested node / database / table maps are one map keyed by all three, so which empty
  tables remain as keys is not modelled.
- Listing the log and reading the listed objects is one request; a deletion of one of them in between
  is an error in the source, after which the sync starts over. Rollups are taken at any time rather
  than after a number of entries, and a load is an index restored from the snapshot with a sync of
  its own.
- MergePasses.PassShrinks: the pass selects from the owner's current list. The compactor selects from
  a replica of it that may lag, so a group may name a file the owner has replaced since.
- Integer widths: `u64` sums of file sizes, sequence numbers and ids do not overflow in the model.
- `max_file_id`, `published_watermark` and the listing helpers of the file index: single lookups.
- The peer-buffer time skip of the cluster write buffer: it rests on what buffers hold.
- Retry delays and worker transport: a delay ends or is cancelled at any time, a report may come at
  any time or never; the backoff arithmetic, the registry from trigger keys to runtimes and the
  configuration constructor would only add easy members.
- A cancel token may fire before any of its reads and between the phases of the loop; what the loop
  does between two reads of a token does not depend on it, so firing in between is not a case of its
  own.
- A client without a free permit asks again instead of waiting in line, so the order in which waiting
  clients get permits is not modelled.
- What an HTTP response contains: a request has one answer event, and an invocation dropped with the
  input channel itself when the loop ends is not followed further.
- `WorkerProgressed` reports change nothing and are only a case of the loop.
- `wal_invocations`, `is_compactable` and `select_targets`: filters without state.
- Parquet reading and merging: a merge yields a file with some size and row count or fails. Nothing
  is claimed about which duplicate row wins after compaction.
- Deletion safety is stated for one compactor, under these assumptions: a path starts with its
  owner's prefix; output paths are determined by the set of input paths, differ for different sets
  and from ingest paths; ingest never reuses a path; the clock does not go back. An owner's own
  retention is not modelled.
- An owner handles one notice at a time: the swap in memory and the write of its record, which may
  fail, are one step.
- The owner's table of persisted files and its counters are a set of paths in the protocol and a
  sequence in `MergePasses`; they are not a class.
- Lowering the next id by `set_next_id`, and `get_mut_by_id`: documented bypasses of the repository.
- Each call of the cache store reads the clock once; the boolean answers of `delete` and
  `drop_trigger_cache` depend on whether a cleanup ran and are stated of the store, not of the plain
  map.
- Durations given as floating-point seconds are either a whole number of nanoseconds or invalid.
