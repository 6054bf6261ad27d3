# Log store: a verified model

The system ingests log events from Kafka into Parquet files, keeps a manifest of the files in
SQLite, compacts and tiers the files in the background, and answers SQL over a deduplicated `logs`
view. This project models its four stateful parts and proves what they guarantee in every
interleaving of their steps.

* **Files and views.** `Dedup`, `Query`, `Compaction`, `Buckets` and `Catalog` hold the window query, time pruning,
  the chunk splitter, file metadata, the trigger statistic and the manifest. `Lifecycle` is the
  storage protocol as micro-steps (flush: write, insert; compaction: list, read, write, swap,
  unlink; tiering: list, read, upload, set_cold, unlink; sweeping: list, unlink, delete row; query:
  list, read), with task-local lists that may be stale. `LifecycleSafety` holds its invariant,
  `LifecycleTheorems`, `SweptRows` and `Retrigger` what follows, `LifecycleEffects` what each step does to
  files and rows, and `Node` the tasks as imperative programs that take exactly these steps. `Retention` is the 64-bit arithmetic of the cutoffs.
* **Kafka consumer.** `Batching` is the buffer, `Consumer` the protocol of one partition,
  `ConsumerTheorems` its guarantees, `ConsumerSteps` what each step decides, `PartitionStore` the event loop's handlers over the four maps.
  `SplitResult` takes the handling of a flush result apart into its critical sections and says when a
  revocation between them matters.
* **End to end.** `Delivery` puts the broker's logs, all consumers, flush tasks, the storage
  protocol, crashes and restarts together; `DeliverySteps` says what each step does,
  `DeliveryTheorems` when a message is in the view exactly once, and when it is lost; `BrokerOffsets` when the committed offset goes backward.
* **Queries' helpers.** `Jobs` is the asynchronous job queue, `ColdCaching` the LRU cache in front
  of the object store, `ColdQueries` a query that fetches its cold files through it.

The history fields of the protocol states (`origin`, `expired`, `received`, `batches`, `answered`,
`dropped` and so on) record what happened; no step reads them to decide what to do.

## What was found

* Delivery is not at-least-once, although README.md:30 and server/src/consumer.rs:171 say so. The
  commit test (server/src/consumer.rs:305) only looks for a larger offset, so a later batch can be committed while an earlier
  one of its partition is still being flushed. `DeliveryTheorems.OutOfOrderCommitLoses` builds the
  run, in which no flush fails and the process then stops; `ConsumerTheorems.CommitSafeIff` gives the exact condition, and
  `DeliveryTheorems.ExactlyOnce` shows that it suffices for exactly-once delivery across crashes;
  `DeliveryTheorems.CrashLosesIff` says of any reachable state what a crash would lose.
* The commit test is meant to guard against backward commits (server/src/consumer.rs:22-25). A
  revocation forgets the last committed offset, so the late result of a flush from before it can
  move the broker's offset back (`BrokerOffsets.GoesBackIff`, `BrokerOffsets.LateResultGoesBack`).
* The handling of a flush result takes the lock separately to check, to record and to resume
  (server/src/consumer.rs:297, 316, 320), and the rebalance callback runs on another thread. A
  revocation between the submission of an offset and its record leaves the offset on record for the
  next assignment, which then submits nothing up to it (`SplitResult.MissedIsNotAtomic`,
  `SplitResult.MissedHoldsBack`, `SplitResult.RedeliveryIsNotCommitted`). Anywhere else it amounts to
  a revocation before or after the result (`SplitResult.SplitIsAtomic`).
* A failed flush can leave a partition paused for good: nothing buffered, nothing awaited, and no
  retry (`ConsumerTheorems.StuckIff`, `ConsumerTheorems.OneFailureSticks`).
* The comment at crates/manifest/src/lib.rs:276 says the duplicate density is too low with several
  partitions. It can be too high (`Buckets.TwoPartitionsOverestimate`; `Buckets.DensityExact` says
  exactly when), and a compaction does not change that: where there are more keys than offsets the
  density is positive afterwards too (`Buckets.DensityAfterCompaction`), though with P partitions
  never above 1 - 1/P (`Buckets.CompactedDensityBound`).
* A compaction swap can bring rows back that the sweeper removed between listing and swap
  (`SweptRows.SweptRowComesBack`). The view is unchanged exactly when every row that was read is
  still covered (`LifecycleTheorems.SwapPreservesView`); only rows with a copy in a file that was
  listed as expired can come back (`LifecycleTheorems.OnlyExpiredRowsComeBack`).
* A very long retention deletes everything: the nanosecond arithmetic wraps, and with
  `HOT_RETENTION_DAYS=999999` the cutoff lies 184 years in the future
  (`Retention.KeepForeverSweepsAll`; `Retention.SweepCutoffExactIff` says exactly when the cutoff
  is right).
* With a byte limit of zero a paused partition stays paused until it is revoked
  (`ConsumerTheorems.ZeroByteLimitNeverResumes`).
* The per-client queue cap holds exactly when a client never has two submissions under way
  (`Jobs.CapHoldsIff`), because the check and the insert take the lock separately.
* A job's Cancelled state is overwritten by Running once and then restored
  (`Jobs.CancelledIsOverwrittenOnce`); cancellation is final all the same.
* A query fetches all its cold files before it reads any, and a fetch can delete a file that an
  earlier fetch of the same query, or of another, returned. A file stays exactly when it fits into
  the cache together with all files served since (`ColdQueries.FileStaysIff`), and those of an
  uninterrupted query stay exactly when there is only one or they fit together
  (`ColdQueries.QueryFilesStayIff`; `ColdQueries.QueryLosesItsFile` is a run).
* Services that differ only in `/` against `_` share cache files (`ColdCaching.TierNamesCollideIff`).
  Two objects of one name that fit into the cache together are then read for each other, without any
  failure (`ColdCaching.CollisionServesWrongBytes`), and even with the same contents a failed write of
  the one truncates the other; the cache agrees with the object store over all runs exactly when there
  are no two such objects (`ColdCaching.AgreementIff`). With services free of `/` there are none
  (`ColdCaching.TieredAgreesWithStore`).
* The bytes of entries that the count cap drops stay counted, and the capacity shrinks by them for
  good, though never below zero (`ColdCaching.DroppedBytesStay`; `ColdQueries.CapDropsBytes` is a run).
* The comment at server/src/consumer.rs:406 says in-flight flush tasks commit their own offsets
  after shutdown. They only send a result to a channel whose receiver is gone; the model has no such commit.

## Model

| member | source | states |
|---|---|---|
| Dedup.RowNumberOneIsDedup | server/src/main.rs:202-208 | `ROW_NUMBER() ... = 1` keeps exactly one row of every key, one with the least timestamp, however ties are broken |
| Dedup.EveryDedupIsARowNumbering | server/src/main.rs:202-208 | every result that the relation `IsDedup` allows is produced by some tie-break, so the relation is no looser than the query |
| Dedup.ViewsAgree | server/src/main.rs:202-208 | two runs of the view over the same rows agree on keys and timestamps, and entirely when equal keys mean equal events |
| Dedup.CompactionPreservesView | server/src/compact.rs:120-139 | dedup(dedup(A) ++ B) is a dedup of A ++ B, and shows the same keys and timestamps |
| Query.ScanKeepsWindow | server/src/main.rs:145-148 | files pruned by min_ts/max_ts hold no row of the window |
| Query.ScanIs | server/src/main.rs:145-148 | what is read is the rows of exactly the files that have a row not before and a row not after the window, so nothing of a file wholly on one side of it |
| Query.PrunedIff | server/src/main.rs:145-148 | with exact metadata a file with rows is pruned if and only if all its rows are before the window or all are after it |
| Query.PruningRefinesFullScan | server/src/main.rs:145-208 | within the window the pruned view has every row of the full view; it has others exactly when a key has an earlier copy before the window; under replay consistency they are equal |
| Compaction.SplitByIpcSize | server/src/compact.rs:180-201 | the chunks concatenate to the input, each fits the target or is one batch, no chunk could take the next batch, and no other such split has fewer chunks |
| Compaction.SizeConcat | server/src/compact.rs:180-201 | the size that counts against the target is the sum of the in-memory sizes of the batches |
| Compaction.GreedyIsMinimal | server/src/compact.rs:180-201 | a split whose chunks could not take the next batch has the least number of chunks |
| Compaction.ChunkCountBound | server/src/compact.rs:180-201 | two adjacent chunks exceed the target together, so half the chunk count times (target + 1) is at most the total size |
| Compaction.BatchMinMax | server/src/compact.rs:321-326 | the minimum and maximum of a column are attained bounds; there are none exactly for an empty batch |
| Compaction.ColMinMax | server/src/compact.rs:308-329 | the loop over batches computes the exact range of the column, or (i64::MAX, i64::MIN) for no rows |
| Compaction.WriteChunk | server/src/compact.rs:215-257 | the metadata counts the chunk's rows and holds exact timestamp and offset ranges |
| Compaction.CompactedFilesMetadata | server/src/compact.rs:124-152 | the files of one compaction cover consecutive time ranges, and their record counts add up to the number of distinct keys read |
| Buckets.HotBucketStats | crates/manifest/src/lib.rs:248-293 | every bucket with an active hot row gets exactly one statistic and no other bucket does; it counts all of that bucket's active hot files and their records, and its density is the share of the records above the offset span |
| Buckets.GroupByBucket | crates/manifest/src/lib.rs:251-258 | the grouping: each bucket once, with each of its active hot rows once |
| Buckets.BucketsToCompact | server/src/compact.rs:61-70 | of the buckets with an active hot row exactly those are compacted that have as many active hot files as the threshold or whose statistic reaches the ratio, each once |
| Buckets.DensityExact | crates/manifest/src/lib.rs:276-283 | the density is in [0,1], and a positive one is at most the true duplicate fraction if and only if there are no more keys than offsets |
| Buckets.DensityIsSound | crates/manifest/src/lib.rs:276-283 | with one partition the density never exceeds the true fraction, and is zero when no key repeats |
| Buckets.DensityEqualsIff | crates/manifest/src/lib.rs:276-283 | with one partition the density is the true duplicate fraction if and only if no key repeats or every offset of the span occurs |
| Buckets.DensityAfterCompaction | server/src/compact.rs:120-159 | compaction keeps the offset span and leaves one record per key, so the density afterwards is positive if and only if there are more keys than offsets |
| Buckets.CompactedDensityBound | crates/manifest/src/lib.rs:276-283 | over compacted files of P partitions the density is at most 1 - 1/P, by a pigeonhole on partitions and offsets |
| Buckets.TwoPartitionsOverestimate | crates/manifest/src/lib.rs:276-283 | two partitions with one event each at one offset: no duplicate, nothing a compaction would change, density one half, and the default ratio is reached |
| Retrigger.StatIsSound | crates/manifest/src/lib.rs:276-283 | in every reachable state, the density of a bucket of one partition is at most the share of duplicates in its active hot files |
| Retrigger.CompactionSilencesTrigger | server/src/compact.rs:61-70 | in any reachable state, if nothing else entered a one-partition bucket since the listing, the density of its statistic right after the swap is exactly zero |
| Catalog.Manifest.CommitFlush | crates/manifest/src/lib.rs:92-113 | inserts one active hot row under a new id, or refuses a taken path and changes nothing |
| Catalog.Manifest.PromoteToCold | crates/manifest/src/lib.rs:135-143 | tier and path of the row change together; an unknown id is no error; a taken path is refused |
| Catalog.Manifest.SwapCompacted | crates/manifest/src/lib.rs:215-245 | all inserts and all supersedings happen, or nothing does |
| Catalog.SwapExact | crates/manifest/src/lib.rs:215-245 | the swap succeeds if and only if all new paths are new and different; then the table is described row by row and ids are never reused |
| Catalog.Manifest.DeleteFile | crates/manifest/src/lib.rs:379-384 | removes exactly the row with that id |
| LifecycleSafety.StepKeepsGood | server/src/tier.rs:72-107 | every step of every task keeps the storage invariant, whatever stale lists the other tasks hold |
| LifecycleSafety.FreshPathsAreNew | crates/manifest/src/lib.rs:63 | files written under fresh names are never refused by the UNIQUE constraint |
| LifecycleSafety.UriIsFree | server/src/tier.rs:84-101 | no other row can hold the URI that tiering records, so set_cold is never refused |
| LifecycleEffects.TieredIff | crates/manifest/src/lib.rs:116-133 | in any reachable state a file is listed for tiering if and only if it is active and hot and all events registered in it are earlier than the cutoff |
| LifecycleEffects.SweptIff | crates/manifest/src/lib.rs:328-350 | in any reachable state a file is listed as expired if and only if it is active and all events registered in it are earlier than the cutoff of its tier |
| LifecycleEffects.DiscardedIff | crates/manifest/src/lib.rs:355-376 | in any reachable state a superseded row is listed for removal if and only if the time of its swap was recorded and is before the grace cutoff |
| LifecycleEffects.CompactedAre | server/src/compact.rs:99-108 | a compaction lists at least two files: exactly the active hot ones that were registered under the service and hour of the bucket |
| LifecycleEffects.SwapStaysInBucket | server/src/compact.rs:145-159 | whatever happened since the listing, the rows a swap inserts are in the bucket under which every listed file was registered |
| LifecycleEffects.FilesAfterStep | server/src/sweeper.rs:95-116 | in any reachable state a step deletes exactly the file it is to delete, local or cold, and writes the one it is to write; all other paths keep what they hold, and no step changes what a path holds |
| LifecycleEffects.RowsAfterStep | crates/manifest/src/lib.rs:92-245 | in any reachable state each statement goes through and changes the manifest in exactly one way: a new active hot row per registered file, superseded rows with the time of the swap, a promoted row, a deleted row |
| LifecycleTheorems.NoDanglingLiveRow | server/src/tier.rs:87-107 | after every schedule an active row that was not itself listed as expired points to an existing local or cold file holding exactly what was registered; one that was listed holds only events older than the cutoff of its own tier |
| LifecycleTheorems.NoEarlyLoss | server/src/sweeper.rs:62-118 | after every schedule a flushed event of whose key no file was ever listed as expired has an active, readable copy of its key that is no later; under replay consistency it is the event itself |
| LifecycleTheorems.RecentIsRetained | server/src/sweeper.rs:47-57 | no file with a copy of a key is listed as expired while none of its copies is older than a cutoff that was used |
| LifecycleTheorems.StepKeepsNoLoss | server/src/compact.rs:154-166 | every single step, swap and row deletions included, keeps all retained events held |
| LifecycleTheorems.ViewKeepsEarliest | server/src/main.rs:196-208 | after every schedule the view shows a key of which no file was listed as expired exactly once, with the earliest timestamp ever flushed for it |
| LifecycleTheorems.SwapPreservesView | server/src/compact.rs:99-159 | in any reachable state the view after a swap is the view of the rows before plus the rows read; it is the same view if and only if those are still covered, as they are while the listed files are active, moved to cold or not |
| LifecycleTheorems.OnlyExpiredRowsComeBack | server/src/compact.rs:99-159 | in any reachable state a row that was read and is no longer covered has a copy in a file that was listed as expired; under replay consistency a swap of files whose events no cutoff in use has passed leaves the view unchanged |
| SweptRows.SweptRowComesBack | server/src/sweeper.rs:91-117 | for any two events of one service and hour a run of list, read, sweep, write and swap, its files labelled as flush_events labels them, after which the view shows the swept row again |
| LifecycleTheorems.ViewIsDetermined | server/src/main.rs:196-208 | the view does not depend on the order in which the active files are listed and united |
| LifecycleTheorems.QueryReadsSnapshot | server/src/main.rs:133-194 | a query that reads all its files saw exactly what those active files held that met the window when it listed them, although other tasks ran in between, and nothing of a file wholly on one side of it; its view refines the full scan at that moment |
| Node.Node.FlushEvents | server/src/flush.rs:12-59 | exact metadata, under the service of the first event and the hour of the earliest; write before register; takes the protocol's two steps, or none when the write fails |
| Node.Node.TierFile | server/src/tier.rs:72-107 | upload, then set_cold, then unlink, as protocol steps; where it stops, the object store, the manifest and the disk hold exactly the steps that succeeded |
| Node.Node.RecordAndUnlink | server/src/tier.rs:94-107 | the row is changed exactly when the statement is accepted, and the local copy is removed only after that |
| Node.Node.SweepFile | server/src/sweeper.rs:95-116 | the row is deleted after the file, and only if the file was: the object from the object store for the cold tier, the local file for the hot one, and nothing else |
| Node.Node.SweepExpired | server/src/sweeper.rs:91-117 | over a whole listing exactly the rows whose files were deleted go, and from the disk and the object store exactly their files; all other tasks stay |
| Node.SweptFilesAre | server/src/sweeper.rs:91-117 | the rows and paths meant by that: those of the listed files whose deletion succeeds, by tier |
| Node.Node.DiscardFile | server/src/sweeper.rs:131-145 | a superseded row goes even if its file could not be deleted; of the files at most its own local one goes |
| Node.Node.ReadAll | server/src/compact.rs:113-118 | reads all listed files exactly, or stops at the first that is missing |
| Node.Node.UnlinkAll | server/src/compact.rs:161-166 | removes exactly the listed files whose deletion succeeds |
| Node.Node.WriteAndSwap | server/src/compact.rs:145-166 | the written files are a split of the compacted rows with sound metadata under the service and hour given, and are on disk; succeeds exactly when the swap does; every other file stays, but for the listed ones that are unlinked after a successful swap |
| Node.Node.CompactBucket | server/src/compact.rs:93-176 | a bucket with at least two files, all present, and some row is rewritten and swapped in one transaction, into files of the same bucket; any other is left alone; no file is lost but listed ones after a successful swap; all of it by protocol steps |
| Retention.SweepCutoffExactIff | server/src/sweeper.rs:47-54 | until 2262 the wrapped cutoff is now minus retention if and only if that fits 64 bits of nanoseconds, and otherwise it is too late |
| Retention.ExpiredIff | server/src/sweeper.rs:52-57 | with exact cutoffs a file with events is listed as expired if and only if it is active and all of them are older than the retention of its tier |
| Retention.KeepForeverSweepsAll | server/src/main.rs:794-803 | a retention of 999,999 days makes every file of past events expire |
| Retention.GraceCutoffExactIff | server/src/sweeper.rs:55 | the grace cutoff is exact if and only if it fits 64 bits |
| Retention.PastGraceIff | crates/manifest/src/lib.rs:355-376 | with an exact cutoff a row is listed for removal if and only if it was superseded, at a recorded time, more than the grace period ago |
| Retention.TierCutoffExactIff | server/src/tier.rs:36-51 | tiering's saturating cutoff is right if and only if the threshold fits 64 bits of nanoseconds |
| Retention.ToTierIff | server/src/tier.rs:36-54 | with a threshold that fits, a file with events is listed for tiering if and only if it is active and hot and all of them are older than the threshold |
| Batching.PushConserves | crates/batch-buffer/src/lib.rs:64-75 | a push keeps all events or hands all over, in order, the latter exactly when the byte, record or age limit is reached; what stays is below the size limits |
| Batching.PollConserves | crates/batch-buffer/src/lib.rs:79-85 | a poll hands everything over, in order, if and only if something is buffered and started at least the age limit ago; otherwise the buffer is as it was |
| Batching.BatchBuffer.PushEvent | crates/batch-buffer/src/lib.rs:64-75 | the method does to the buffer what the specification function says |
| Batching.BatchBuffer.PollAge | crates/batch-buffer/src/lib.rs:79-85 | hands all events over exactly when there are some and the batch started at least the age limit ago; leaves the buffer alone otherwise |
| Batching.BatchBuffer.Drain | crates/batch-buffer/src/lib.rs:88-92 | returns all events and leaves the empty buffer |
| Consumer.StepKeepsInv | server/src/consumer.rs:216-426 | every step of a partition keeps conservation, order, commit and wake-up invariants |
| ConsumerTheorems.FifoConservation | server/src/consumer.rs:230-261 | batches in hand-over order followed by the buffer are the received events; each batch commits its last offset plus one; through pushes, polls, revocation and shutdown |
| ConsumerSteps.HandsOverIff | server/src/consumer.rs:230-290 | in any reachable state a step hands a batch over if and only if bytes, count or age are reached by a message, age by a tick, or the partition is revoked or drained; the batch is everything gathered, and earlier batches keep their events |
| ConsumerSteps.PausesIff | server/src/consumer.rs:248-322 | in any reachable state: when a message or a tick pauses the partition (no permit, or above four fifths) and when a good result resumes it (below two fifths), in terms of the bytes of the buffered events |
| ConsumerSteps.SubmitsIff | server/src/consumer.rs:298-316 | in any reachable state a step submits an offset if and only if it handles a good result with an offset beyond the last one submitted since the revocation |
| ConsumerTheorems.CommitFrontier | server/src/consumer.rs:294-317 | a committed offset is that of a durable batch, and every event received below it in that assignment was handed over in that batch or an earlier one |
| ConsumerTheorems.CommitSafeIff | server/src/consumer.rs:294-317 | all events below a batch's offset are durable if and only if all batches handed over earlier in the assignment are |
| ConsumerTheorems.InOrderAcksAreSafe | server/src/consumer.rs:294-317 | without failures, handling an assignment's results in hand-over order makes every commit safe |
| ConsumerTheorems.CommitsAdvance | server/src/consumer.rs:298-316 | between revocations the submitted offsets strictly increase, in any completion order and through shutdown |
| ConsumerTheorems.NoLostWakeup | server/src/consumer.rs:248-260 | a paused partition has buffered events, a result to come, or a failed flush since the pause (positive byte limit) |
| ConsumerTheorems.AgePollResumes | server/src/consumer.rs:294-380 | without failures and new messages, an age-triggered poll and the completion of all flushes, in any order, resume the partition |
| ConsumerTheorems.BackpressureBound | server/src/consumer.rs:248-260 | in every run a partition's buffer is below the byte and record limits, and at most 80 percent full unless the partition is paused |
| ConsumerTheorems.ZeroByteLimitNeverResumes | crates/batch-buffer/src/lib.rs:95-97 | with a byte limit of zero, from any reachable paused state every schedule without a revocation leaves the partition paused; one message suffices to pause it |
| ConsumerTheorems.StuckIff | server/src/consumer.rs:294-322 | in any reachable paused state no schedule of ticks, flush completions and results resumes the partition if and only if the byte limit is zero, or nothing is buffered and no result that may be good is to come |
| ConsumerTheorems.OneFailureSticks | server/src/consumer.rs:294-322 | under any limits one message and one failed flush reach such a state |
| SplitResult.UndisturbedIsAck | server/src/consumer.rs:294-322 | check, submit, record and resume in a row are the acknowledgement step, from any state |
| SplitResult.SplitIsAtomic | server/src/consumer.rs:294-322 | with flushes finishing and revocations coming between the sections: between results every run is a run of the one-step protocol but for the record of commits, and in that too unless the last revocation came between a submission and its record |
| SplitResult.MissedIsNotAtomic | server/src/consumer.rs:308-316 | in that one case, from any reachable state: the partition is as revoked, but for the stale offset on record, and no run of the one-step protocol reaches it |
| SplitResult.MissedHoldsBack | server/src/consumer.rs:298-316 | until the next revocation nothing up to the stale offset is submitted, in any continuation |
| SplitResult.SplitCommitsAdvance | server/src/consumer.rs:298-316 | whatever comes between the sections, submitted offsets increase between revocations |
| SplitResult.SplitNoLostWakeup | server/src/consumer.rs:296-321 | whatever comes between the sections, a paused partition has one of the three causes to wake up, or is about to be resumed (positive byte limit) |
| SplitResult.RedeliveryIsNotCommitted | server/src/consumer.rs:97-123 | under any limits a run in which a message delivered again is flushed and acknowledged, and nothing is submitted |
| PartitionStore.Store.OnMessage | server/src/consumer.rs:230-290 | the handler performs the protocol's receive step on its partition, touches no other, and returns the pause decision and the batch |
| PartitionStore.Store.OnFlushResult | server/src/consumer.rs:294-322 | performs the acknowledgement step and returns the offset to commit and the resume decision |
| PartitionStore.Store.PollPartition | server/src/consumer.rs:343-380 | performs the age-poll step; hands over what was buffered exactly when it is old enough, and pauses exactly when it does so while no permit is free |
| PartitionStore.Store.RevokePartition | server/src/consumer.rs:111-123 | all four entries of the partition go, and exactly what was buffered is returned for flushing |
| PartitionStore.Store.Revoke | server/src/consumer.rs:97-125 | the same for a list of partitions, in order, leaving the others as they were |
| PartitionStore.Store.AllUnflushedAre | server/src/consumer.rs:97-125 | what a revocation returns: one batch for each listed partition with something buffered, in the order of the list |
| PartitionStore.Store.DrainPartition | server/src/consumer.rs:389-397 | performs the shutdown drain of one partition: what was buffered is handed over and nothing stays |
| PartitionStore.Store.CommitDrained | server/src/consumer.rs:408-422 | submits the shutdown offset exactly when it is larger than the last one |
| Delivery.EveryRunSound | server/src/consumer.rs:216-426 | every run of the whole system keeps: only messages of the log in the files, no gaps within an assignment, durable batches in the manifest |
| Delivery.InsertRegisters | server/src/flush.rs:37-49 | the insert of a written batch always goes through and adds exactly its events to what has been flushed |
| Delivery.BackgroundAddsNothing | server/src/compact.rs:154-159 | no background step adds an event that was not flushed before |
| Delivery.BelowCommitFlushed | server/src/consumer.rs:298-316 | when the earlier batches of the assignment are durable, every decodable message below the batch's offset has been flushed |
| DeliverySteps.FeedAfterStep | server/src/consumer.rs:216-322 | in any reachable world: an assignment resumes at the broker's offset, every fetched message that decodes is received under the key of where it is stored, the broker's offset moves exactly with a good result beyond the last submitted one, and a crash loses all but that offset and the files |
| DeliveryTheorems.ExactlyOnce | server/src/consumer.rs:171-172 | for any crashes, restarts and replays, if offsets are submitted only with all earlier batches of the assignment durable, every decodable message below the broker's offset, unless a file holding it was listed as expired, is in the view exactly once, and the view holds only messages |
| DeliveryTheorems.OrderlyExactlyOnce | server/src/consumer.rs:294-317 | the same when no flush fails and results are handled in hand-over order |
| DeliveryTheorems.OutOfOrderCommitLoses | server/src/consumer.rs:298-316 | under any limits there is a run in which no flush fails and the process stops, after which a message below the committed offset is never flushed, however the run continues |
| DeliveryTheorems.LostForever | server/src/consumer.rs:298-316 | a message below the broker's offset that nothing carries any more stays lost in every continuation |
| DeliveryTheorems.CrashLosesIff | server/src/consumer.rs:298-316 | in any reachable state a decodable message below the broker's offset is lost for good by a crash now if and only if it has not been flushed |
| BrokerOffsets.GoesBackIff | server/src/consumer.rs:22-25 | in any reachable state a step moves the broker's offset backward if and only if it handles the good result of an older assignment's batch, with an offset below the broker's but above what was committed since the revocation |
| BrokerOffsets.LateResultGoesBack | server/src/consumer.rs:97-139 | a run in which the broker goes from 2 back to 1 |
| DeliveryTheorems.ReplaysAgree | server/src/consumer.rs:226-228 | replay consistency follows from the key being where Kafka stored the message |
| Jobs.JobStore.AdmitSubmission | server/src/main.rs:371-391 | passes exactly when the client's queued jobs are fewer than the cap |
| Jobs.JobStore.Submit | server/src/main.rs:371-398 | without interference, the job is queued exactly when the client is below the cap |
| Jobs.JobStore.CountQueued | server/src/main.rs:373-375 | counts the client's queued jobs |
| Jobs.JobStore.DeleteJob | server/src/main.rs:514-543 | the answer and the entry afterwards, for every state and for an unknown job; all other entries stay |
| Jobs.JobStore.WriteBack | server/src/main.rs:438-444 | the result goes into the entry as it is, unless the state is Cancelled; client, token and all other entries stay |
| Jobs.JobStore.SetRunning | server/src/main.rs:413-418 | the state becomes Running whatever it was; client, token and all other entries stay |
| Jobs.CancellationIsFinal | server/src/main.rs:401-445 | after a 204 the job is never Complete or Failed and is Cancelled once its worker is done; nothing else cancels a job |
| Jobs.OutcomeIsReturned | server/src/main.rs:420-444 | over every run a job that no DELETE cancelled ends with exactly what its query returned, and no job shows an outcome its query did not return |
| Jobs.QueryReturnsOnce | server/src/main.rs:421-437 | what a query has returned is not replaced by a later step |
| Jobs.JobAfterStep | server/src/main.rs:393-444 | in any reachable state, what a step makes of an entry: the client stays, the token is set only by the DELETE that cancels, the state moves only by the job's own worker and that DELETE, and a new entry is queued for the client whose check passed |
| Jobs.OutcomesAreFinal | server/src/main.rs:514-543 | Complete and Failed are never changed by later steps |
| Jobs.DeleteAnswers | server/src/main.rs:514-543 | 404 exactly for unknown jobs; 409 changes nothing and means an outcome or an earlier 204; 204 leaves Cancelled |
| Jobs.CancelledWorkerEnds | server/src/main.rs:401-445 | a cancelled job's worker can always step, each step brings it closer to its end, and no one else moves it |
| Jobs.CancelledIsOverwrittenOnce | server/src/main.rs:413-418 | a run in which Cancelled becomes Running and then Cancelled again |
| Jobs.RunningJobsHoldPermits | server/src/main.rs:405-411 | held and available permits add up to the limit in every run, and every running job holds one |
| Jobs.QueueBound | server/src/main.rs:371-398 | with at most M submissions of a client under way, its queued jobs plus submissions past the check never exceed cap - 1 + M |
| Jobs.CapHoldsIff | server/src/main.rs:371-398 | the queue cap holds in every run if and only if M is one; the bound is reached for every cap and M |
| ColdCaching.ColdCache.GetOrFetch | server/src/cold_cache.rs:36-82 | hit, invalid URI, failed fetch, failed write and served miss, each with the whole state afterwards |
| ColdCaching.OutcomeIff | server/src/cold_cache.rs:36-82 | which request is answered how: an unindexed URI outside the bucket is invalid, one without a reachable object fails to fetch; these and hits touch neither the disk nor the byte count |
| ColdCaching.RoomIsMade | server/src/cold_cache.rs:59-70 | eviction drops the oldest entries and their files, as few as needed, and subtracts exactly their bytes, so the saturating subtraction never saturates |
| ColdCaching.ByteBound | server/src/cold_cache.rs:57-78 | over every run the indexed bytes are current_bytes less what the count cap dropped, and they leave room for the latter within the limit unless there is a single entry |
| ColdCaching.DroppedBytesStay | server/src/cold_cache.rs:30 | over every run and every continuation the bytes dropped by the count cap never shrink and never exceed the limit, and the indexed bytes stay below what is left of it, or there is a single entry |
| ColdQueries.CapDropsFirst | server/src/cold_cache.rs:77-78 | one file more than the count cap, all fitting: the first one's bytes stay counted and its file stays on disk although its entry is gone |
| ColdQueries.CapDropsBytes | server/src/cold_cache.rs:30 | a cache of tiered objects and a run in which that happens |
| ColdCaching.EvictsLeastRecentlyUsed | server/src/cold_cache.rs:37-78 | over every run, what leaves the index was last used before everything that stays |
| ColdCaching.AgreesWithStore | server/src/cold_cache.rs:36-82 | when no two requested objects of one name fit together: over every run each indexed file holds its own object, and a returned path is valid and right at return |
| ColdCaching.RepeatIsHit | server/src/cold_cache.rs:37-40 | what was just served is the most recently used entry: asking again is a hit with the same path and changes nothing |
| ColdCaching.AgreementIff | server/src/cold_cache.rs:72-89 | all returned paths of all runs are right if and only if no two different objects that share a name fit into the limit together; a failed write leaves at most a prefix of the object, and no object is empty |
| ColdCaching.CollisionServesWrongBytes | server/src/cold_cache.rs:37-39 | two objects of one name that fit together, fetched one after the other: the next hit on the first returns the bytes of the second, so it is right if and only if they are the same |
| ColdCaching.TieredAgreesWithStore | server/src/tier.rs:84-85 | for the URIs that tiering records, with services free of `/`, every indexed file and every returned path is right over every run |
| ColdQueries.NextFetchKeepsIff | server/src/cold_cache.rs:59-75 | from any reachable cache the file served last survives the fetch of another, with its own bytes, if and only if the two fit into the limit less what the count cap has dropped |
| ColdQueries.QueryFilesStayIff | server/src/main.rs:176-211 | from any reachable cache a query whose fetches no other interrupts finds all cold files it fetched, each with its own bytes, if and only if there is at most one or they fit into the limit less what the count cap has dropped |
| ColdQueries.TieredQueryFilesStayIff | server/src/main.rs:176-211 | the same for different tiered URIs of services free of `/`, without a condition on names |
| ColdQueries.FileStaysIff | server/src/main.rs:180-187 | from any reachable cache, for any interleaving of fetches by any queries: a served file is still there with its own bytes if and only if nothing else was served since, or it and the different files served since fit into the limit less what the count cap has dropped |
| ColdQueries.LastUsesAre | server/src/cold_cache.rs:37-40 | the files served since, in order of last use: exactly those served, each once |
| ColdQueries.QueryLosesItsFile | server/src/main.rs:180-187 | a cache of tiered objects and a query whose second fetch deletes the file of the first |
| ColdCaching.TierNamesCollideIff | server/src/tier.rs:84-85 | two tiered URIs share a cache name if and only if bucket hour and file name are equal and the services are equal up to `/` and `_`; so never for services without `/` |

## Left out

- User SQL and the row limit: the model stops at the `logs` view.
- DataFusion, Parquet, SQLite, rdkafka and object_store internals: SQL is a relation on rows, files are written whole or not, Kafka delivers a partition in order from a resume offset.
- Event encoding: an event's size is an abstract number, and a message decodes or not.
- The hour format of `time_bucket`: an opaque parameter of the flush; its absence of `_` and `/` is a hypothesis of the name theorem.
- Overflow of the byte counters (`usize`, `u64`) and rounding of the `f32` occupancy: counters are unbounded and the water marks are compared by cross-multiplication.
- Fresh UUIDs: taken as an assumption, through a counter.
- Clocks: now is a parameter; the protocol's listing steps take arbitrary cutoffs, which covers every value the arithmetic of `Retention` can give. Builds with overflow checks stop the task where the model wraps.
- HTTP ingest (server/src/main.rs:610): it takes keys from the caller, so replay consistency cannot be expected of it; the storage theorems cover it as a flush, the delivery theorems do not.
- Other consumers of the group: the broker's offset changes only by this process's commits.
- Revocation in the middle of handling a flush result: one step in `PartitionStore`, `Delivery` and `BrokerOffsets`; `SplitResult` has the separate sections, for one partition and without the broker.
- LifecycleTheorems.QueryReadsSnapshot: reads cold objects straight from the object store; what the cache in between adds is `ColdCaching.AgreesWithStore` at the fetch and `ColdQueries.FileStaysIff` until the read.
- ColdQueries.FileStaysIff: the writes to the cache succeed, no other requested object shares the file's name, and no more files are served since than the index holds.
- ColdCaching.AgreementIff: says nothing about empty objects; no Parquet file is empty.
- Node.Node.CompactBucket: the programs run one task at a time; the interleavings with other tasks are those of `Lifecycle`, whose steps the programs take.
- Absence of orphans: a cold object or a written file that no row names is possible in the code, and only live rows are claimed.
- Single-service, single-hour files: the code labels a mixed batch by its first event, and nothing is claimed about the contents of a bucket.
- Object-store path encoding: keys are used as they are.
- Worker panics and process crashes inside the job queue: jobs live in memory only.
- The lru crate: its index is a sequence in order of use.
- HTTP routing, JSON, the frontend, metrics, logging and deployment files: no hard property.
