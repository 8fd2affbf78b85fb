# Verified model of LexonArchiveBuilder's block copy, tree assessment, mail chunking and archive journal

LexonArchiveBuilder keeps archives as graphs of content-addressed blocks. This project models four
of its parts in Dafny and proves what they promise.

**Rooted block copy.** A copy walks the blocks reachable from a set of requested roots and writes
them to a destination store. `CopyProtocol` is the multi-worker copy as a transition system: every
critical section, every store call and every load of the stop flag is one step, and waiting on a
condition variable is not being enabled. `WorkQueue`, `WriteQueue` and `FailureTracker` hold the
queues and the tracker as classes proved against the functions the protocol is built from.
`Ledger` keeps the books that all workers share (each visited block is accounted for exactly once),
`Destination` what writes do to the destination and what predictable stores make of it, `Frontier`
what is still to be traversed, and `Outcome` what an uninterrupted copy amounts to, without reference
to how it was carried out.
`CopyReport` says what a report tells about the source, the destination and the blocks' fates.
`CopyControl`, `CopyAccounts`, `CopyFront` and `CopyPredicted` show that every step keeps the
invariants, `CopyProgress` that the copy neither gets stuck nor goes on for ever, and `CopyTheorem`
draws the conclusions. `CopyProbe` is about batch support, `CopyHalts` about failed checkpoints,
`CopyWitness` has runs that show what is not promised, and `CopyConfluence` says exactly when all
schedules agree. `WriteLine`, `SingleLine` and `SingleWorker` do the same for the single-worker
loop, as a class whose methods have the source's loops, and connect the two implementations: both end with the same destination and the same report.

**Tree quality.** `TreeQuality` is the depth-first classification of branch entries as a class;
`BoundedHeap` is the bounded heap, `CorpusSample` and `ExactNeighbors` the sampling and the exact
neighbour search built on it.

**Mail.** `EmailChunks` cuts bodies into sentences and packs them into chunks, `CanonicalCbor` gives
CBOR values their canonical form (length-first key order of section 4.2.3 of RFC 8949), and
`EmailArtifacts` follows a chunk reference from indexing to resolution and back.

**Archive synchronization.** `WorkflowJournal` has the journal's mutators and its validation,
`DirectoryWalk` the walk over a snapshot directory, and `SnapshotAcquisition` fresh and resumed
acquisitions.

`BlockGraph`, `Tallies`, `Sorting`, `Lexicographic`, `Multiples`, `Texts` and `Options` are shared
vocabulary. Requested roots, source blocks, store answers, interrupts and schedules are arbitrary
throughout; main results hold for all of them.

## Findings

- `record_published_root` and `record_root_history_entry` store the id before they look at the time.
  A call refused for an empty time therefore leaves an unpaired id, which validation rejects, exactly
  when no time had been recorded before (`RefusedRootUnpairs`, `RefusedHistoryUnpairs`, with concrete
  calls in `RefusedCallInvalidates` and `RefusedHistoryInvalidates`).
- A fresh acquisition sets the stage back whenever mailbox admission was already past and no
  acquisition is on record. The journal stays valid if and only if no checkpoint is from beyond
  admission and nothing says that the workflow has ended (`FinishingKeepsValid`; a journal that loses
  its validity is in `AcquiringCanInvalidate`). A resumed acquisition never sets anything back
  (`ResumingNeverRegresses`).
- A checkpoint of the multi-worker copy does not vouch for all accepted writes: when a shutdown clears
  the queue, a checkpoint that is already due still runs (`CheckpointCanMissWrites`). It sees all of
  them if and only if the queue was empty whenever it was cleared (`CheckpointIsWholeIff`).
- A batch call that fails with an ordinary error marks every job of the batch as failed, with the
  message of the call. So what becomes of a block can depend on which jobs meet in a batch
  (`UnorderlySchedulesDiffer`). For a predictable store the outcome of an uninterrupted copy is the
  same for all schedules, worker counts and limits if and only if the store does not take batches or
  has no write error for a reachable block that the copy wants to write (`ConfluentIffOrderly`).
- Taken by itself, the tracker's method for failures of the whole store counts one as progress even
  when no root was requested and nothing is reported (`RecordStoreFailure`). No copy comes to that:
  without a root no block is visited and no checkpoint becomes due, and in every run the report's
  count equals the counter (`FailedBlockCountIsProgress`).

## Model

| member | source | states |
|---|---|---|
| `WorkQueue.StepsKeepEnd` | crates/lexonarchivebuilder-indexer/src/block_copy.rs:1299-1358 | termination detection is exact: without a stop the work queue reports its end if and only if nothing is queued and no worker holds an item, and every step keeps that |
| `WorkQueue.ThreadedWorkQueue.TryPop` | crates/lexonarchivebuilder-indexer/src/block_copy.rs:1299-1324 | one pass of `pop` hands out the oldest item, ends, or waits, with the whole new state |
| `WorkQueue.ThreadedWorkQueue.PushChildren` | crates/lexonarchivebuilder-indexer/src/block_copy.rs:1326-1344 | children are appended in order with the root they were reached from, unless stopped or shut down |
| `WorkQueue.ThreadedWorkQueue.Finish` | crates/lexonarchivebuilder-indexer/src/block_copy.rs:1346-1358 | dropping the work-item guard releases the item and shuts the queue down when it was the last work |
| `WorkQueue.ThreadedWorkQueue.Shutdown` | crates/lexonarchivebuilder-indexer/src/block_copy.rs:1360-1368 | a shutdown request only sets the flag |
| `WriteQueue.InitialIsCoherent` | crates/lexonarchivebuilder-indexer/src/block_copy.rs:1371-1393 | a new write queue satisfies the queue invariant: exact counters, both limits, the checkpoint barrier, conservation of jobs |
| `WriteQueue.EnqueueKeepsCoherent` | crates/lexonarchivebuilder-indexer/src/block_copy.rs:1399-1452 | accepting a job keeps the count limit, the byte budget unless one job is alone in flight, and checkpoints plus pending equal to attempts divided by the interval |
| `WriteQueue.TakeKeepsCoherent` | crates/lexonarchivebuilder-indexer/src/block_copy.rs:1484-1513 | taking a batch keeps the invariant; the byte counters stay exact, so no subtraction saturates |
| `WriteQueue.CompleteKeepsCoherent` | crates/lexonarchivebuilder-indexer/src/block_copy.rs:1535-1543 | completing a batch never subtracts more than is active, and keeps the invariant |
| `WriteQueue.CheckpointKeepsCoherent` | crates/lexonarchivebuilder-indexer/src/block_copy.rs:1515-1519 | a checkpoint starts only with an empty queue and no active write, and keeps the invariant |
| `WriteQueue.ClosingKeepsCoherent` | crates/lexonarchivebuilder-indexer/src/block_copy.rs:1545-1592 | finishing or failing a checkpoint, finishing production and shutting down keep the invariant; what is cleared is accounted for as discarded |
| `WriteQueue.CheckpointSeesAllWrites` | crates/lexonarchivebuilder-indexer/src/block_copy.rs:1515-1519 | while a checkpoint runs nothing is queued or being written, and the accepted jobs are exactly those released and those discarded by a shutdown: all writes have completed if and only if none was discarded |
| `WriteQueue.CheckpointsAreCounted` | crates/lexonarchivebuilder-indexer/src/block_copy.rs:1515-1519 | a blind copy with an interval starts a checkpoint, or has it pending, each time so many writes have been accepted; any other copy never does |
| `WriteQueue.LimitsHold` | crates/lexonarchivebuilder-indexer/src/block_copy.rs:1399-1452 | queued and active jobs never exceed the limit, and queued and active bytes exceed a positive budget only when exactly one job is in flight |
| `WriteQueue.FirstInFirstOut` | crates/lexonarchivebuilder-indexer/src/block_copy.rs:1484-1513 | jobs are taken in the order in which they were accepted |
| `WriteQueue.BatchIsLongestFit` | crates/lexonarchivebuilder-indexer/src/block_copy.rs:1464-1513 | a batch is the longest prefix of the queue within the target length and the byte budget, and never empty |
| `WriteQueue.TakeKeepsOneBatch` | crates/lexonarchivebuilder-indexer/src/block_copy.rs:1464-1483 | unless batches are known to be unsupported, at most one batch is active |
| `WriteQueue.PopBatch` | crates/lexonarchivebuilder-indexer/src/block_copy.rs:1484-1507 | the loop that pops a batch stops at the target length, the end of the queue or the byte budget |
| `WriteQueue.ThreadedWriteQueue.TryEnqueue` | crates/lexonarchivebuilder-indexer/src/block_copy.rs:1399-1452 | one pass of `enqueue` accepts, refuses or waits, with the whole new state |
| `WriteQueue.ThreadedWriteQueue.ChooseTarget` | crates/lexonarchivebuilder-indexer/src/block_copy.rs:1471-1483 | how many jobs the next batch may hold; two queued jobs of an unprobed store start a probe |
| `WriteQueue.ThreadedWriteQueue.TryNextAction` | crates/lexonarchivebuilder-indexer/src/block_copy.rs:1454-1533 | one pass of `next_action` takes a batch, starts a checkpoint, ends or waits, with the whole new state |
| `WriteQueue.ThreadedWriteQueue.CompleteWriteBatch` | crates/lexonarchivebuilder-indexer/src/block_copy.rs:1535-1543 | the counters give back exactly what the batch held |
| `WriteQueue.ThreadedWriteQueue.FinishRunningCheckpoint` | crates/lexonarchivebuilder-indexer/src/block_copy.rs:1545-1552 | ends a checkpoint and keeps the invariant |
| `WriteQueue.ThreadedWriteQueue.FailRunningCheckpoint` | crates/lexonarchivebuilder-indexer/src/block_copy.rs:1554-1565 | a failed checkpoint shuts the queue down and discards what is queued |
| `WriteQueue.ThreadedWriteQueue.FinishProducers` | crates/lexonarchivebuilder-indexer/src/block_copy.rs:1567-1579 | marks production as finished and, after a stop, discards what is queued |
| `WriteQueue.ThreadedWriteQueue.RequestShutdown` | crates/lexonarchivebuilder-indexer/src/block_copy.rs:1581-1591 | shuts down and discards what is queued |
| `FailureTracker.SameLogSameReport` | crates/lexonarchivebuilder-indexer/src/block_copy.rs:1610-1726 | the reported multiset of failures is a function of what the tracker was told |
| `FailureTracker.ReportedSubjects` | crates/lexonarchivebuilder-indexer/src/block_copy.rs:1692-1698 | the distinct subjects of the reported failures are the failed ids if and only if every failed block has a root |
| `FailureTracker.OrderIrrelevant` | crates/lexonarchivebuilder-indexer/src/block_copy.rs:1622-1664 | any order of the same note, remember and record events leads to the same log, hence the same report |
| `FailureTracker.ClosedIsLeast` | crates/lexonarchivebuilder-indexer/src/block_copy.rs:1700-1725 | `block_roots` is exactly the attribution relation, and the least relation that holds the noted pairs and is closed under the discovered children |
| `FailureTracker.CopyFailureTracker.AssociateRootWithKnownSubgraph` | crates/lexonarchivebuilder-indexer/src/block_copy.rs:1700-1725 | propagation of a root over the known subgraph terminates on cyclic graphs and adds the root exactly along paths |
| `FailureTracker.CopyFailureTracker.NoteBlockRoot` | crates/lexonarchivebuilder-indexer/src/block_copy.rs:1622-1624 | noting a root keeps the association closed and least, and the failure list the join of association and templates |
| `FailureTracker.CopyFailureTracker.RememberChildren` | crates/lexonarchivebuilder-indexer/src/block_copy.rs:1626-1637 | remembering children pushes every root of the block to them; nothing is ever missing from the report, and nothing superfluous gets in unless a block is remembered again without some earlier child |
| `FailureTracker.CopyFailureTracker.Record` | crates/lexonarchivebuilder-indexer/src/block_copy.rs:1639-1664 | recording a failure adds one failure per root of the block, and counts the block once |
| `FailureTracker.CopyFailureTracker.RecordStoreFailure` | crates/lexonarchivebuilder-indexer/src/block_copy.rs:1666-1682 | of the tracker's method alone: a failure of the whole store is reported once per requested root; the progress counter stays equal to the distinct failed ids if and only if some root was requested or the store had failed before |
| `FailureTracker.FailureOfEachRoot` | crates/lexonarchivebuilder-indexer/src/block_copy.rs:1666-1682 | a failure of the whole store names each requested root as often as it was requested, and nothing else |
| `FailureTracker.CopyFailureTracker.ReportIsExplained` | crates/lexonarchivebuilder-indexer/src/block_copy.rs:1684-1690 | the reported failures are exactly one per root that reaches a failed block and per failure recorded there |
| `FailureTracker.CopyFailureTracker.CounterIsOfFailedIds` | crates/lexonarchivebuilder-indexer/src/block_copy.rs:1692-1698 | the progress counter is the number of distinct failed ids |
| `Ledger.VisitKeepsBooks` | crates/lexonarchivebuilder-indexer/src/block_copy.rs:882-891 | entering a block into the visited set keeps the books: each visited block is in exactly one place |
| `Ledger.FailReadKeepsBooks` | crates/lexonarchivebuilder-indexer/src/block_copy.rs:981-1019 | a failed read ends the block with one recorded failure |
| `Ledger.DecodeKeepsBooks` | crates/lexonarchivebuilder-indexer/src/block_copy.rs:2176-2234 | decoding records exactly one failure, with its message, for a block that cannot be decoded and none otherwise, and remembers the children once; an undecodable block goes on to be written |
| `Ledger.SkipKeepsBooks` | crates/lexonarchivebuilder-indexer/src/block_copy.rs:929-935 | a block found in the destination is counted as skipped, once |
| `Ledger.FailCheckKeepsBooks` | crates/lexonarchivebuilder-indexer/src/block_copy.rs:947-957 | a failed look-up ends the block with one recorded failure |
| `Ledger.AcceptKeepsBooks` | crates/lexonarchivebuilder-indexer/src/block_copy.rs:936-946 | an accepted write leaves its traversal worker and waits, and is not yet counted in blind mode |
| `Ledger.CountAttemptKeepsBooks` | crates/lexonarchivebuilder-indexer/src/block_copy.rs:961-976 | every accepted blind write is counted once |
| `Ledger.AnswerKeepsBooks` | crates/lexonarchivebuilder-indexer/src/block_copy.rs:1885-1962 | whatever the store answers, answered jobs leave the waiting ones |
| `Ledger.SettleOkKeepsBooks` | crates/lexonarchivebuilder-indexer/src/block_copy.rs:1089-1104 | recording a success gives the block its fate and the counter one more |
| `Ledger.SettleErrKeepsBooks` | crates/lexonarchivebuilder-indexer/src/block_copy.rs:1104-1116 | recording an error gives the block its fate and one failure |
| `Ledger.DiscardKeepsBooks` | crates/lexonarchivebuilder-indexer/src/block_copy.rs:290-296 | discarded jobs are accounted for |
| `Ledger.FailStoreKeepsBooks` | crates/lexonarchivebuilder-indexer/src/block_copy.rs:1136-1150 | a failed checkpoint touches no block's account |
| `Destination.UnwrittenIsInitial` | crates/lexonarchivebuilder-indexer/src/block_copy.rs:924-936 | for any store, a block no write has answered for is in the destination exactly as it was at the start, so the look-up decides on the initial destination |
| `Destination.LandKeepsFaithful` | crates/lexonarchivebuilder-indexer/src/block_copy.rs:1940-1962 | for any store, a write puts the source's bytes in, or leaves a present block according to the store's policy, even if its batch then fails as a whole |
| `Destination.SettleKeepsFaithful` | crates/lexonarchivebuilder-indexer/src/block_copy.rs:1089-1116 | a write reported as good has landed; for an orderly store the recorded fate is the one its answers determine |
| `Destination.DiscardKeepsFaithful` | crates/lexonarchivebuilder-indexer/src/block_copy.rs:1554-1591 | discarding leaves the destination alone |
| `Frontier.VisitKeepsCovers` | crates/lexonarchivebuilder-indexer/src/block_copy.rs:882-891 | a block visited for the first time is expanded, a known one needs no expansion |
| `Frontier.SpreadKeepsCovers` | crates/lexonarchivebuilder-indexer/src/block_copy.rs:2339-2347 | queueing every child of a block expands it |
| `Frontier.NothingPending` | crates/lexonarchivebuilder-indexer/src/block_copy.rs:863-979 | with nothing pending the visited set is the set of blocks reachable from the roots |
| `Frontier.AttributionIsReachability` | crates/lexonarchivebuilder-indexer/src/block_copy.rs:872-917 | a block is attributed to a root if and only if the root was requested and reaches it, although only the first root to arrive queues the children |
| `Outcome.ConservedAtEnd` | crates/lexonarchivebuilder-indexer/src/block_copy.rs:257-276 | visited = copied + skipped + read-failed + check-failed + write-failed with disjoint classes; in blind mode attempted = visited - read-failed |
| `Outcome.EndIsComplete` | crates/lexonarchivebuilder-indexer/src/block_copy.rs:863-979 | an uninterrupted copy visits exactly the reachable blocks, reads each once, gives each one fate and attributes every failure exactly |
| `Outcome.EndIsExact` | crates/lexonarchivebuilder-indexer/src/block_copy.rs:863-979 | for an orderly store the destination, the counters and the failures are those of the reference result |
| `Outcome.ExactIsUnique` | crates/lexonarchivebuilder-indexer/src/block_copy.rs:516-861 | two exact outcomes agree on destination, visited set, fates and report, whatever the limits and checkpoint intervals |
| `Outcome.FailureFreeIsDelivered` | crates/lexonarchivebuilder-indexer/src/block_copy.rs:330-347 | a complete copy that no look-up misled (the store looks up truly, or nothing is looked up) and that reports no failure has put every reachable block into the destination, with the source's bytes wherever it was absent, and left every other id unchanged |
| `Outcome.FailureFreeIff` | crates/lexonarchivebuilder-indexer/src/block_copy.rs:893-977 | a complete copy reports no failure if and only if every reachable block was read, decoded to children, and skipped or written |
| `CopyReport.ReachableIsLeast` | crates/lexonarchivebuilder-indexer/src/block_copy.rs:531-560 | what an uninterrupted copy visits is the least set that holds the roots and the children of every block in it that can be read and decoded |
| `CopyReport.FailuresAreReported` | crates/lexonarchivebuilder-indexer/src/block_copy.rs:2170-2231 | a complete copy reports each failure exactly once for each requested root that reaches its block, with the operation that failed and its message: an absent or unreadable block, a block that cannot be decoded, a failed look-up, a failed write; and nothing else |
| `CopyReport.ReportTells` | crates/lexonarchivebuilder-indexer/src/block_copy.rs:696-721 | the figures of the report: copied and skipped count the blocks with that fate when the destination is read first, attempted counts the blocks that could be read in blind mode, and the failed blocks are counted once each |
| `CopyReport.ReportIsForetold` | crates/lexonarchivebuilder-indexer/src/block_copy.rs:835-860 | into an orderly store the same figures follow from the reachable set, the destination before the copy and the error maps |
| `Outcome.FailedCountMatchesProgress` | crates/lexonarchivebuilder-indexer/src/block_copy.rs:2053-2059 | at any moment the report's count of failed blocks equals the progress counter |
| `CopyControl.StepKeepsControl` | crates/lexonarchivebuilder-indexer/src/block_copy.rs:863-1592 | every step of every thread keeps the queue invariants, the program counters' bookkeeping and the conditions under which queues close |
| `CopyControl.CheckpointRunsAlone` | crates/lexonarchivebuilder-indexer/src/block_copy.rs:1515-1519 | while a checkpoint runs the queue is empty and no write is active; no two checkpoints run together |
| `CopyControl.UnsupportedIsPermanent` | crates/lexonarchivebuilder-indexer/src/block_copy.rs:224-233 | once batches are known to be unsupported that never changes |
| `CopyProgress.SomeThreadCanMove` | crates/lexonarchivebuilder-indexer/src/block_copy.rs:1299-1533 | deadlock freedom: in every reachable state that is not final a worker, a writer or the caller can move, for every limit, during checkpoints and after failures |
| `CopyProgress.StepDecreases` | crates/lexonarchivebuilder-indexer/src/block_copy.rs:863-1592 | every step lowers a measure computed from the source graph |
| `CopyProgress.EveryScheduleEnds` | crates/lexonarchivebuilder-indexer/src/block_copy.rs:724-861 | every schedule is bounded in advance and, where it stops, is final or can go on |
| `CopyAccounts.StepKeepsAccounts` | crates/lexonarchivebuilder-indexer/src/block_copy.rs:863-1592 | every step of every thread keeps the books, with every job genuine |
| `CopyFront.StepKeepsFrontal` | crates/lexonarchivebuilder-indexer/src/block_copy.rs:872-917 | every step keeps the frontier: nothing unreachable is ever met, and without a stop nothing reachable is missed |
| `CopyFront.FinalFront` | crates/lexonarchivebuilder-indexer/src/block_copy.rs:1299-1358 | when all workers have returned without a stop nothing is pending |
| `CopyPredicted.StepKeepsPredicted` | crates/lexonarchivebuilder-indexer/src/block_copy.rs:863-1592 | whatever the store answers, every step keeps the account of the destination: only landed blocks differ from before, and what was answered well has landed; for an orderly store all fates are as predicted |
| `CopyPredicted.OrderlyTakesBatches` | crates/lexonarchivebuilder-indexer/src/block_copy.rs:1885-1938 | a store that takes every reachable block that wants to be written never fails a batch of this copy |
| `CopyTheorem.StepKeepsIntact` | crates/lexonarchivebuilder-indexer/src/block_copy.rs:1118-1151 | blocks are given up, and the store as a whole reported, only on account of a stop |
| `CopyTheorem.EveryRunIsSound` | crates/lexonarchivebuilder-indexer/src/block_copy.rs:724-861 | all invariants hold in every state that any schedule with any store answers reaches |
| `CopyTheorem.UninterruptedRunIsComplete` | crates/lexonarchivebuilder-indexer/src/block_copy.rs:724-861 | for every schedule and all stores, an uninterrupted multi-worker copy is complete |
| `CopyTheorem.UninterruptedRunIsExact` | crates/lexonarchivebuilder-indexer/src/block_copy.rs:724-861 | for every schedule and orderly stores, its result is the reference result |
| `CopyTheorem.UninterruptedRunReports` | crates/lexonarchivebuilder-indexer/src/block_copy.rs:724-861 | every uninterrupted multi-worker run reports exactly the failures and figures described above |
| `CopyTheorem.SchedulesAgree` | crates/lexonarchivebuilder-indexer/src/block_copy.rs:724-861 | confluence: for an orderly store any two schedules, with any numbers of workers, limits and checkpoint intervals, agree on destination, fates and report |
| `CopyTheorem.EveryRunKeepsDestination` | crates/lexonarchivebuilder-indexer/src/block_copy.rs:724-861 | in every run, stopped or not, and for any store: only landed blocks differ from before, each is visited and reachable and holds the source's bytes or, if the store does not overwrite, its old ones; a block counted as written has landed |
| `CopyTheorem.FailureFreeRunDelivers` | crates/lexonarchivebuilder-indexer/src/block_copy.rs:863-979 | an uninterrupted run without failures, over a store that looks up truly or in blind mode, has every reachable block in the destination, with source bytes wherever it was absent, and every other id unchanged |
| `CopyConfluence.ConfluentIffOrderly` | crates/lexonarchivebuilder-indexer/src/block_copy.rs:1884-1938 | for a predictable store all uninterrupted runs of a copy, with any schedules, worker counts, limits and intervals, have the same destination, fates and report if and only if the store does not take batches or fails no reachable block that the copy wants to write |
| `CopyConfluence.RefusedWith` | crates/lexonarchivebuilder-indexer/src/block_copy.rs:1925-1937 | with room for everything there is, for every message, an uninterrupted run in which every block that a batch-taking store fails is reported with that message |
| `CopyHalts.CheckpointFailuresAreReported` | crates/lexonarchivebuilder-indexer/src/block_copy.rs:1136-1150 | at the end of every run, stopped or not, the store as a whole is reported exactly once per requested root for each checkpoint that failed, with its message |
| `CopyProbe.StepSettles` | crates/lexonarchivebuilder-indexer/src/block_copy.rs:1885-1938 | the capability settles exactly when a batch call is answered; for a store with fixed batch support it settles on the truth and is never changed again |
| `CopyProbe.RunSettles` | crates/lexonarchivebuilder-indexer/src/block_copy.rs:203-241 | the same over runs of any length from any state |
| `CopyProbe.StepKeepsProbesFirst` | crates/lexonarchivebuilder-indexer/src/block_copy.rs:1464-1483 | while the capability is open nothing has been written or reported as failed |
| `CopyProbe.ProbeIsRight` | crates/lexonarchivebuilder-indexer/src/block_copy.rs:203-241 | in every run the capability is settled if and only if some batch call has been answered, and then, for a store with fixed batch support, it is the truth; before that nothing is written |
| `CopyWitness.CheckpointIsWholeIff` | crates/lexonarchivebuilder-indexer/src/block_copy.rs:1515-1519 | in every run a checkpoint's action finds every accepted write completed if and only if the write queue was empty whenever it was cleared |
| `CopyWitness.CheckpointCanMissWrites` | crates/lexonarchivebuilder-indexer/src/block_copy.rs:1581-1592 | a run in which an interrupt clears an accepted write and the checkpoint it made due still runs |
| `CopyWitness.UnorderlySchedulesDiffer` | crates/lexonarchivebuilder-indexer/src/block_copy.rs:1925-1937 | for a predictable store that is not orderly, two uninterrupted runs of one copy that end with different fates |
| `CopyTheorem.FailedBlockCountIsProgress` | crates/lexonarchivebuilder-indexer/src/block_copy.rs:2053-2059 | in every schedule, stopped or not, failed_block_count is the progress counter |
| `CopyTheorem.StoppedRunAccountsForAll` | crates/lexonarchivebuilder-indexer/src/block_copy.rs:724-861 | even after a stop every visited block has exactly one fate when the threads are done, and only reachable blocks were visited |
| `SingleLine.ExecuteKeepsInFlight` | crates/lexonarchivebuilder-indexer/src/block_copy.rs:1867-1883 | a publication that makes its writes stays counted |
| `SingleLine.TakeOutKeepsInFlight` | crates/lexonarchivebuilder-indexer/src/block_copy.rs:2026-2036 | a finished publication holds no more jobs and bytes than are in flight, so the subtractions do not saturate |
| `SingleLine.SubmitKeepsInFlight` | crates/lexonarchivebuilder-indexer/src/block_copy.rs:1851-1864 | submitting the buffer once it fits keeps the count limit, and the byte budget unless one job is alone in flight |
| `SingleLine.PushKeepsInFlight` | crates/lexonarchivebuilder-indexer/src/block_copy.rs:1768-1792 | a buffered job keeps the buffer publishable: within the count limit, and above the byte budget only alone |
| `SingleLine.SomethingPending` | crates/lexonarchivebuilder-indexer/src/block_copy.rs:1981-1984 | the capacity wait always has a publication to wait for |
| `SingleLine.LineExecutes` | crates/lexonarchivebuilder-indexer/src/block_copy.rs:1885-1962 | making a publication's writes keeps the books |
| `SingleLine.LineRecords` | crates/lexonarchivebuilder-indexer/src/block_copy.rs:2026-2051 | recording one completion keeps the books |
| `SingleLine.LineDiscards` | crates/lexonarchivebuilder-indexer/src/block_copy.rs:290-296 | dropping the buffer keeps the books |
| `SingleLine.LinePasses` | crates/lexonarchivebuilder-indexer/src/block_copy.rs:577-628 | a block in hand becomes a waiting job, counted as attempted in blind mode |
| `SingleWorker.SingleWorkerCopy.PublishOneByOne` | crates/lexonarchivebuilder-indexer/src/block_copy.rs:1940-1962 | one completion per job, in job order; for any store exactly the blocks of the good answers land, and the destination stays accounted for |
| `SingleWorker.SingleWorkerCopy.PublishBatch` | crates/lexonarchivebuilder-indexer/src/block_copy.rs:1885-1938 | on every path one completion per job in job order; any publication settles the capability, on the truth if batch support is fixed, and a settled truth is never taken back |
| `SingleWorker.SingleWorkerCopy.Execute` | crates/lexonarchivebuilder-indexer/src/block_copy.rs:1867-1883 | a publication makes progress on its own without disturbing the others |
| `SingleWorker.SingleWorkerCopy.NextCompletions` | crates/lexonarchivebuilder-indexer/src/block_copy.rs:1980-1984 | the next completed publication, after any others made progress |
| `SingleWorker.SingleWorkerCopy.RecordWriteCompletions` | crates/lexonarchivebuilder-indexer/src/block_copy.rs:2026-2051 | completions become counts or failures; the counters drop by exactly what completed |
| `SingleWorker.SingleWorkerCopy.WaitForWriteCapacity` | crates/lexonarchivebuilder-indexer/src/block_copy.rs:1964-1993 | the wait ends, its `expect` cannot fire, and afterwards the publication fits |
| `SingleWorker.SingleWorkerCopy.FlushPendingWrites` | crates/lexonarchivebuilder-indexer/src/block_copy.rs:1995-2011 | afterwards nothing is in flight and both counters are zero |
| `SingleWorker.SingleWorkerCopy.FlushBufferedWrites` | crates/lexonarchivebuilder-indexer/src/block_copy.rs:1814-1865 | the whole buffer is published once it fits, and is empty afterwards |
| `SingleWorker.SingleWorkerCopy.TargetLen` | crates/lexonarchivebuilder-indexer/src/block_copy.rs:1738-1747 | between one and the limit by capability |
| `SingleWorker.SingleWorkerCopy.BufferJob` | crates/lexonarchivebuilder-indexer/src/block_copy.rs:1750-1812 | buffering a job keeps the books and the limits; the buffer is published exactly when it holds the target number of jobs or the byte budget is reached, and before that when the job does not fit any more |
| `SingleWorker.SingleWorkerCopy.CheckpointAction` | crates/lexonarchivebuilder-indexer/src/block_copy.rs:661-668 | the checkpoint action is reached only with nothing buffered or in flight, which the SAFETY comment relies on |
| `SingleWorker.SingleWorkerCopy.RunCheckpointIfDue` | crates/lexonarchivebuilder-indexer/src/block_copy.rs:630-675 | a due checkpoint drains all writes first; a failure of it or a stop ends the copy, and the failure is recorded with its message for each requested root |
| `SingleWorker.SingleWorkerCopy.ReadAndDecode` | crates/lexonarchivebuilder-indexer/src/block_copy.rs:2146-2234 | what reading and decoding do to the shared state and the tracker: an absent, unreadable or undecodable block is recorded once, with its message |
| `SingleWorker.SingleWorkerCopy.Handle` | crates/lexonarchivebuilder-indexer/src/block_copy.rs:575-626 | a block that was read is skipped, failed or buffered |
| `SingleWorker.SingleWorkerCopy.CopyNext` | crates/lexonarchivebuilder-indexer/src/block_copy.rs:553-681 | one round keeps everything, and the number of checkpoints equals attempts divided by the interval |
| `SingleWorker.SingleWorkerCopy.CopyRootedBlocks` | crates/lexonarchivebuilder-indexer/src/block_copy.rs:516-722 | the loop ends with nothing buffered or in flight and the destination accounted for; the capability is settled as soon as a write was answered; unless halted the copy is complete, delivers everything if it reports no failure, and is exact for orderly stores; failed_block_count is the progress counter; its report is the one `CopyReport` describes, with a failure of the store exactly for a checkpoint that failed |
| `SingleWorker.AgreesWithEverySchedule` | crates/lexonarchivebuilder-indexer/src/block_copy.rs:516-861 | the single-worker copy and every uninterrupted schedule of the multi-worker copy, with any limits, leave the same destination, fates and report |
| `TreeQuality.TreeTraversal.TraverseBlock` | crates/lexonarchivebuilder-indexer/src/quality.rs:893-963 | walking a block finishes it, keeps the ancestry, and every entry met finds a block or a problem; it fails only for an interrupt or for something reachable that cannot be looked up or accepted; termination over any stored graph |
| `TreeQuality.TreeTraversal.HandleChildEntry` | crates/lexonarchivebuilder-indexer/src/quality.rs:965-1039 | every entry is classified: it closes a cycle, is shared, leads nowhere, or finds the block it is responsible for |
| `TreeQuality.TreeTraversal.Assess` | crates/lexonarchivebuilder-indexer/src/quality.rs:534-582 | the walk succeeds if and only if the root is stored, no interrupt is noticed and all that can be reached can be looked up and accepted; then it is complete |
| `TreeQuality.VisitsTheReachable` | crates/lexonarchivebuilder-indexer/src/quality.rs:902-907 | exactly the stored blocks reachable from the root are visited, each once |
| `TreeQuality.ReportsCyclesExactly` | crates/lexonarchivebuilder-indexer/src/quality.rs:975-989 | CycleDetected is reported if and only if the reachable stored graph has a directed cycle |
| `TreeQuality.ReportsMissingExactly` | crates/lexonarchivebuilder-indexer/src/quality.rs:1008-1022 | MissingChildBlock is reported for exactly the entries of reachable blocks whose child is not stored |
| `TreeQuality.TreeIffNothingStructural` | crates/lexonarchivebuilder-indexer/src/quality.rs:975-1022 | no cycle, shared or missing finding if and only if the reachable blocks form a tree; then there is no cycle |
| `TreeQuality.ComparesEveryTreeEntry` | crates/lexonarchivebuilder-indexer/src/quality.rs:911-946 | on a tree the level and embedding findings are made for exactly the offending entries |
| `TreeQuality.CountsEveryEntryOnce` | crates/lexonarchivebuilder-indexer/src/quality.rs:951-957 | edge_count = (block_count - 1) + cycle + shared + missing findings, and equals the number of entries of all reachable blocks |
| `BoundedHeap.PushBounded` | crates/lexonarchivebuilder-indexer/src/quality.rs:1824-1836 | after one more offer the heap still holds the best of everything offered |
| `CorpusSample.SampleOrder` | crates/lexonarchivebuilder-indexer/src/quality.rs:344-372 | the order of sample candidates is a strict weak order |
| `CorpusSample.KeyLessIff` | crates/lexonarchivebuilder-indexer/src/quality.rs:344-372 | keys are compared by their first differing byte, a prefix first |
| `CorpusSample.SampleLessIs` | crates/lexonarchivebuilder-indexer/src/quality.rs:344-372 | smaller keys come first, then smaller neighbour ids, then smaller leaf ids |
| `CorpusSample.IdDeterminesEntry` | crates/lexonarchivebuilder-indexer/src/quality.rs:1921-1934 | among entries whose digests do not collide, a neighbour id determines its leaf and its embedding, since a leaf accepts embeddings of one length only |
| `CorpusSample.IdSeesContent` | crates/lexonarchivebuilder-indexer/src/quality.rs:1919-1932 | entries of one leaf that differ in just one of embedding, media type, body or metadata have different neighbour ids, for metadata as texts give it |
| `CorpusSample.GenuineNeverTie` | crates/lexonarchivebuilder-indexer/src/quality.rs:344-372 | although embeddings are not compared, different entries of leaves never tie |
| `CorpusSample.SampleIsDetermined` | crates/lexonarchivebuilder-indexer/src/quality.rs:1824-1836 | for every sample size and any two orders of the same entries the sample is the same; it holds the entries with the smallest keys, and each key is that of the entry's neighbour id and the seed |
| `CorpusSample.DistinctiveExists` | crates/lexonarchivebuilder-indexer/src/quality.rs:1921-1934 | for every finite set of entries, and however keys and embeddings are coded, some coding of ids and digests meets the assumption of the three preceding rows |
| `CorpusSample.TwoLeavesExample` | crates/lexonarchivebuilder-indexer/src/quality.rs:1921-1934 | any entries of two different leaves are accepted candidates, and different ones, under some such coding |
| `CorpusSample.SampleCollector.CollectCorpusEntries` | crates/lexonarchivebuilder-indexer/src/quality.rs:1800-1822 | one pass over a leaf offers its entries in order, leaves out those without magnitude, and ends the assessment for an embedding that the leaf's specification does not accept |
| `ExactNeighbors.BetterIsTotal` | crates/lexonarchivebuilder-indexer/src/quality.rs:397-410 | the order of neighbour candidates has no ties: higher scores first, then smaller leaf ids, then smaller neighbour ids |
| `ExactNeighbors.FillScores` | crates/lexonarchivebuilder-indexer/src/quality.rs:1580-1595 | every cell of the row-major score table holds the score of its entry and query; it fails exactly for an interrupt or a pair that cannot be compared |
| `ExactNeighbors.OfferToAll` | crates/lexonarchivebuilder-indexer/src/quality.rs:1597-1616 | every query but the entry's own is offered the entry's candidate |
| `ExactNeighbors.ScoreExactBatch` | crates/lexonarchivebuilder-indexer/src/quality.rs:1571-1619 | after a batch every query holds its ten best of everything offered so far, in terms of scores, leaf ids and neighbour ids; it fails exactly for an interrupt or a pair that cannot be compared |
| `ExactNeighbors.NeighborSearch.ScoreLeaf` | crates/lexonarchivebuilder-indexer/src/quality.rs:1554-1566 | a leaf is offered as a whole whatever the batch size; entries without magnitude are left out; it succeeds if and only if no interrupt is noticed and every entry is well-formed and can be scored |
| `ExactNeighbors.NeighborSearch.CollectFromBlock` | crates/lexonarchivebuilder-indexer/src/quality.rs:1534-1569 | the visited-guarded traversal handles each block once and terminates on cyclic graphs |
| `ExactNeighbors.NeighborSearch.CollectExactNeighbors` | crates/lexonarchivebuilder-indexer/src/quality.rs:1524-1532 | the search succeeds if and only if no interrupt is noticed and all that can be reached can be looked up and scored; then each reachable block was handled once and every query holds its ten best: nothing left out scores higher than anything kept, and among equal scores the smaller leaf ids and neighbour ids are kept |
| `ExactNeighbors.ExploredAll` | crates/lexonarchivebuilder-indexer/src/quality.rs:1534-1552 | the blocks handled are exactly the reachable ones |
| `ExactNeighbors.NeighborsAreDetermined` | crates/lexonarchivebuilder-indexer/src/quality.rs:1524-1619 | the heap of a query is the ten best of the reachable corpus, whatever the traversal order or batch size |
| `ExactNeighbors.OffersAre` | crates/lexonarchivebuilder-indexer/src/quality.rs:1597-1606 | a query is offered exactly the entries with another neighbour id |
| `ExactNeighbors.CorpusIs` | crates/lexonarchivebuilder-indexer/src/quality.rs:1534-1606 | the corpus of a query: the entries of the blocks that have a magnitude and another neighbour id, each with its leaf and its similarity to the query |
| `EmailChunks.SentenceUnits` | crates/lexonarchivebuilder-indexer/src/mailbox.rs:380-404 | one pass over the characters yields the normalized non-blank sentences; every one is tidy |
| `EmailChunks.SentencesStep` | crates/lexonarchivebuilder-indexer/src/mailbox.rs:391-399 | a sentence is complete as soon as it ends, not before |
| `EmailChunks.SentencesEndOnce` | crates/lexonarchivebuilder-indexer/src/mailbox.rs:380-404 | every sentence but the last ends as one, and none ends any earlier |
| `EmailChunks.NormalizeKeepsSolid` | crates/lexonarchivebuilder-indexer/src/mailbox.rs:640-642 | normalizing keeps all characters that are not white space, in order |
| `EmailChunks.WordIsNormal` | crates/lexonarchivebuilder-indexer/src/mailbox.rs:640-642 | a text without white space is left as it is |
| `EmailChunks.NormalizeSplits` | crates/lexonarchivebuilder-indexer/src/mailbox.rs:640-642 | white space between two texts becomes a single space, and at their ends it goes |
| `EmailChunks.NormalIffTidy` | crates/lexonarchivebuilder-indexer/src/mailbox.rs:640-642 | normalizing leaves exactly the texts alone whose white space is single spaces between words, and always gives one |
| `EmailChunks.UnitsStep` | crates/lexonarchivebuilder-indexer/src/mailbox.rs:378-404 | the first sentence becomes a unit, normalized, unless it is blank |
| `EmailChunks.TidySentenceIsChunk` | crates/lexonarchivebuilder-indexer/src/mailbox.rs:341-404 | a body that is one tidy sentence is its own only unit and chunk |
| `EmailChunks.ChunkEmailCore` | crates/lexonarchivebuilder-indexer/src/mailbox.rs:347-378 | one pass yields the greedy packing of the sentences |
| `EmailChunks.PackIsPartition` | crates/lexonarchivebuilder-indexer/src/mailbox.rs:353-375 | greedy packing is an order-preserving partition of the sentences that obeys the bound |
| `EmailChunks.PackIsOptimal` | crates/lexonarchivebuilder-indexer/src/mailbox.rs:353-375 | no order-preserving partition that obeys the bound uses fewer chunks |
| `EmailChunks.ChunksAreLossless` | crates/lexonarchivebuilder-indexer/src/mailbox.rs:347-404 | the chunks hold all characters of the body that are not white space, in order |
| `EmailChunks.ChunksAreBounded` | crates/lexonarchivebuilder-indexer/src/mailbox.rs:347-378 | a chunk has at most 1000 characters or is a single sentence; a body of white space gives one empty chunk |
| `CanonicalCbor.KeyOrder` | crates/lexonarchivebuilder-indexer/src/mailbox.rs:591-598 | comparing encoded keys by length and then bytes is a strict total order on encodings |
| `CanonicalCbor.KeyOrderIs` | crates/lexonarchivebuilder-indexer/src/mailbox.rs:591-598 | shorter encodings come first; among encodings of one length the first differing byte decides |
| `CanonicalCbor.AcceptedIff` | crates/lexonarchivebuilder-indexer/src/mailbox.rs:558-589 | a value is accepted if and only if everything in it is supported and no two canonical keys coincide at any level |
| `CanonicalCbor.RefusedFor` | crates/lexonarchivebuilder-indexer/src/mailbox.rs:558-589 | a value is refused as duplicate only for a clash of keys, and as unsupported only for something unsupported in it |
| `CanonicalCbor.ResultIsCanonical` | crates/lexonarchivebuilder-indexer/src/mailbox.rs:575-583 | the result has strictly increasing keys in every map at every depth |
| `CanonicalCbor.CanonicalIsFixed` | crates/lexonarchivebuilder-indexer/src/mailbox.rs:558-589 | a canonical value is left as it is |
| `CanonicalCbor.Idempotent` | crates/lexonarchivebuilder-indexer/src/mailbox.rs:558-589 | canonicalizing twice is canonicalizing once |
| `CanonicalCbor.OrderIsIrrelevant` | crates/lexonarchivebuilder-indexer/src/mailbox.rs:575-583 | permuting map entries at any depth changes neither acceptance nor the result |
| `CanonicalCbor.OnlyReorders` | crates/lexonarchivebuilder-indexer/src/mailbox.rs:558-589 | the result differs from the value at most in the order of map entries |
| `CanonicalCbor.SameFormIffSameValue` | crates/lexonarchivebuilder-indexer/src/mailbox.rs:558-589 | two accepted values have the same canonical form if and only if they differ at most in the order of map entries |
| `EmailArtifacts.RenderSucceeds` | crates/lexonarchivebuilder-indexer/src/mailbox.rs:490-548 | an e-mail artifact always has a canonical form |
| `EmailArtifacts.ArtifactSays` | crates/lexonarchivebuilder-indexer/src/mailbox.rs:490-548 | the artifact has the ten fields with the values of the message: version, mailbox, index, headers in order, subject, sender, recipients, date, id and body, with null for what is missing |
| `EmailArtifacts.StoredAs` | crates/lexonarchivebuilder-indexer/src/mailbox.rs:490-548 | under which type and media type the artifact is stored, and that it decodes to the rendered value |
| `EmailArtifacts.BodyRoundTrip` | crates/lexonarchivebuilder-indexer/src/resolver.rs:312-359 | the body read back from a rendered artifact is the artifact's body |
| `EmailArtifacts.ExpandMessage` | crates/lexonarchivebuilder-indexer/src/mailbox.rs:143-175 | one artifact is stored per message and one reference emitted per chunk, and nothing if the store refuses the artifact |
| `EmailArtifacts.ExpandMailbox` | crates/lexonarchivebuilder-indexer/src/mailbox.rs:118-178 | indexing a mailbox stores its bytes as an artifact, emits the references of all messages in order and loses nothing stored; it fails exactly if there is no message, one cannot be parsed, or the store refuses a block |
| `EmailArtifacts.EmittedResolves` | crates/lexonarchivebuilder-indexer/src/resolver.rs:225-258 | every emitted (artifact, chunk_index) resolves to the chunk it was emitted for |
| `EmailArtifacts.EmittedOnly` | crates/lexonarchivebuilder-indexer/src/mailbox.rs:152-175 | nothing else is emitted |
| `EmailArtifacts.ResolutionIs` | crates/lexonarchivebuilder-indexer/src/resolver.rs:225-358 | when a reference resolves to a chunk, and what it is refused for otherwise |
| `EmailArtifacts.EmailChunkResolver.ResolveEmailChunk` | crates/lexonarchivebuilder-indexer/src/resolver.rs:225-258 | the cache is transparent, whatever other threads put into it meanwhile |
| `DirectoryWalk.CollectSnapshotEntries` | crates/lexonarchivebuilder-archive-sync/src/snapshot.rs:371-442 | the explicit-stack walk terminates and yields the recursive sorted pre-order listing; it fails exactly if it meets a path at which something goes wrong |
| `DirectoryWalk.ListsExactlyTheFiles` | crates/lexonarchivebuilder-archive-sync/src/snapshot.rs:388-437 | exactly the regular files are listed, under their own paths; symbolic links are not followed |
| `DirectoryWalk.ListingIncreases` | crates/lexonarchivebuilder-archive-sync/src/snapshot.rs:412-415 | the listing is strictly increasing component by component, so no file is listed twice |
| `DirectoryWalk.PathLessIff` | crates/lexonarchivebuilder-archive-sync/src/snapshot.rs:412-415 | paths are compared by their first differing component, a prefix first |
| `Lexicographic.TextLessIff` | crates/lexonarchivebuilder-archive-sync/src/snapshot.rs:412-415 | components are compared by their first differing character, a prefix first |
| `DirectoryWalk.SameFilesSameListing` | crates/lexonarchivebuilder-archive-sync/src/snapshot.rs:371-442 | the listing depends only on which files there are |
| `DirectoryWalk.ReadOrderIsIrrelevant` | crates/lexonarchivebuilder-archive-sync/src/snapshot.rs:449-465 | neither the listing nor the snapshot id depends on the order in which directories are read |
| `WorkflowJournal.ApplyKeepsSound` | crates/lexonarchivebuilder-archive-sync/src/lib.rs:502-672 | no mutator can break validation's inventory, checkpoint, subordinate or naming clauses |
| `WorkflowJournal.ApplyKeepsCorrespondence` | crates/lexonarchivebuilder-archive-sync/src/lib.rs:506-546 | checkpoints and completed items stay in one-to-one correspondence |
| `WorkflowJournal.ApplyGrows` | crates/lexonarchivebuilder-archive-sync/src/lib.rs:502-672 | checkpoints are append-only and completed items stay completed |
| `WorkflowJournal.RunsKeepSound` | crates/lexonarchivebuilder-archive-sync/src/lib.rs:502-672 | after any sequence of mutators validation succeeds if and only if the audit fields are paired and the stage conditions hold |
| `WorkflowJournal.NewIsSound` | crates/lexonarchivebuilder-archive-sync/src/lib.rs:282-302 | a journal that `new` hands out is empty, with the given stage, generation, source and configuration, and starts the invariant |
| `WorkflowJournal.CompletedStays` | crates/lexonarchivebuilder-archive-sync/src/lib.rs:135-146 | a completed item never becomes pending again |
| `WorkflowJournal.SecondCheckpointIsIdle` | crates/lexonarchivebuilder-archive-sync/src/lib.rs:516-546 | checkpointing an item a second time changes nothing |
| `WorkflowJournal.RefusedRootUnpairs` | crates/lexonarchivebuilder-archive-sync/src/lib.rs:560-574 | a published root refused for its time unpairs the audit fields exactly when its id is given and no time was recorded before |
| `WorkflowJournal.RefusedHistoryUnpairs` | crates/lexonarchivebuilder-archive-sync/src/lib.rs:576-590 | the same for a root history entry |
| `WorkflowJournal.RefusedCallInvalidates` | crates/lexonarchivebuilder-archive-sync/src/lib.rs:560-574 | a concrete refused call that makes every valid journal without a published root invalid |
| `WorkflowJournal.RefusedHistoryInvalidates` | crates/lexonarchivebuilder-archive-sync/src/lib.rs:576-590 | the same for a root history entry |
| `WorkflowJournal.AcceptedKeepsPaired` | crates/lexonarchivebuilder-archive-sync/src/lib.rs:548-663 | an accepted mutator keeps the audit fields paired |
| `WorkflowJournal.JournalCell.QueueWork` | crates/lexonarchivebuilder-archive-sync/src/lib.rs:506-513 | queues the item unless it is completed |
| `WorkflowJournal.JournalCell.RecordCheckpoint` | crates/lexonarchivebuilder-archive-sync/src/lib.rs:516-546 | completes the item, and appends a checkpoint and advances the stage only the first time |
| `WorkflowJournal.JournalCell.RecordPublishedRoot` | crates/lexonarchivebuilder-archive-sync/src/lib.rs:560-574 | stores the id before the time is checked |
| `WorkflowJournal.JournalCell.UpsertSubordinate` | crates/lexonarchivebuilder-archive-sync/src/lib.rs:603-637 | updates the entry with the same implementation and location, or appends one |
| `WorkflowJournal.JournalCell.Validate` | crates/lexonarchivebuilder-archive-sync/src/lib.rs:303-448 | accepts exactly the valid journals, rejects others for a clause that is violated, and a sound one only for an unpaired audit field or for its progress |
| `WorkflowJournal.SoundIff` | crates/lexonarchivebuilder-archive-sync/src/lib.rs:304-402 | what a sound journal is, field by field |
| `Texts.TrimCuts` | crates/lexonarchivebuilder-archive-sync/src/lib.rs:1012-1017 | trimming cuts off the white space at both ends and nothing else; what is left of a blank text is empty |
| `Texts.SpacesAre` | crates/lexonarchivebuilder-archive-sync/src/lib.rs:1012-1017 | white space is the 25 characters with the Unicode property White_Space |
| `WorkflowJournal.ValidIff` | crates/lexonarchivebuilder-archive-sync/src/lib.rs:390-448 | what validation asks beyond that: pairs, stage and checkpoints, outcome and stage, stage order |
| `WorkflowJournal.StagesInOrder` | crates/lexonarchivebuilder-archive-sync/src/lib.rs:449-500 | which pending work and which missing audit fields each later stage rules out |
| `WorkflowJournal.StagesRuleOutNoMore` | crates/lexonarchivebuilder-archive-sync/src/lib.rs:449-500 | work that is pending before its stage is over rules nothing out, and a failure may be recorded at any time |
| `WorkflowJournal.CheckpointsComeInOrder` | crates/lexonarchivebuilder-archive-sync/src/lib.rs:419-438 | which checkpoints a stage admits, in the order of the workflow |
| `WorkflowJournal.CheckpointAdvances` | crates/lexonarchivebuilder-archive-sync/src/lib.rs:516-546 | an accepted checkpoint takes the journal to the later of the two stages in the order of the workflow |
| `WorkflowJournal.JournalCell.ValidateCheckpoints` | crates/lexonarchivebuilder-archive-sync/src/lib.rs:403-438 | the single pass over the checkpoints decides duplicates, membership and the stage bound |
| `SnapshotAcquisition.RepetitionIsIdle` | crates/lexonarchivebuilder-archive-sync/src/snapshot.rs:264-301 | repeating a successful acquisition leaves the journal identical |
| `SnapshotAcquisition.SecondCallIsIdle` | crates/lexonarchivebuilder-archive-sync/src/snapshot.rs:240-369 | after a successful call every further call for the same source with a given time succeeds, reports the same snapshot as reused, and changes neither journal nor store |
| `SnapshotAcquisition.ResumingTwiceIsResumingOnce` | crates/lexonarchivebuilder-archive-sync/src/snapshot.rs:264-301 | resuming twice is resuming once |
| `SnapshotAcquisition.ResumingNeverRegresses` | crates/lexonarchivebuilder-archive-sync/src/snapshot.rs:264-301 | resuming takes back no stage, checkpoint or completed item, and queues exactly the mailboxes that are not completed, only while mailboxes are being admitted |
| `SnapshotAcquisition.FinishingKeepsSound` | crates/lexonarchivebuilder-archive-sync/src/snapshot.rs:312-361 | a fresh acquisition keeps the journal sound, takes nothing completed back, and sets the stage back exactly when admission was past |
| `SnapshotAcquisition.FinishingKeepsValid` | crates/lexonarchivebuilder-archive-sync/src/snapshot.rs:312-361 | the journal is valid after a fresh acquisition if and only if its audit fields are paired, no checkpoint is from beyond admission, and nothing says that the workflow has ended |
| `SnapshotAcquisition.AcquiringCanInvalidate` | crates/lexonarchivebuilder-archive-sync/src/snapshot.rs:312-361 | a valid journal, made from a new one by an accepted checkpoint, that a fresh acquisition invalidates |
| `SnapshotAcquisition.AcquiredIsOnRecord` | crates/lexonarchivebuilder-archive-sync/src/snapshot.rs:337-369 | what a successful call reports is on record in journal and store and is about the requested source; nothing stored is lost |
| `SnapshotAcquisition.FreshAcquisitionLists` | crates/lexonarchivebuilder-archive-sync/src/snapshot.rs:312-361 | a fresh acquisition stores a manifest with one entry for each regular file, in path order, with joined path, content address and length, and queues exactly the mailboxes among them that are not completed |
| `SnapshotAcquisition.JoinPathIs` | crates/lexonarchivebuilder-archive-sync/src/snapshot.rs:630-646 | the components of a path are joined by slashes |
| `Texts.DecimalIsRight` | crates/lexonarchivebuilder-archive-sync/src/snapshot.rs:337-352 | the recorded entry count is written in digits without leading zeros |
| `SnapshotAcquisition.ReadOrderDoesNotMatter` | crates/lexonarchivebuilder-archive-sync/src/snapshot.rs:312-361 | the whole acquisition is the same in whatever order the file system lists directories |
| `SnapshotAcquisition.QueueManifest` | crates/lexonarchivebuilder-archive-sync/src/snapshot.rs:353-360 | queues every mailbox of the manifest |
| `SnapshotAcquisition.AcquireSourceSnapshot` | crates/lexonarchivebuilder-archive-sync/src/snapshot.rs:240-369 | fresh, resumed and refused acquisitions: when a call succeeds, what it reports, and what becomes of journal and store |

## Left out

- Networking, TLS, HTTP/3, the block gateway, embedding clients, command line, heartbeats, progress messages and report rendering: plumbing without hard properties.
- Store backends, block serialization and hashing: stores are maps with arbitrary answers, decoding is a function from a block to its children or a failure, encoders and addresses are parameters.
- Panics, mutex poisoning and the choice of a Tokio runtime: a panic is not distinguished from a stop request.
- Condition variables: waiting is modelled as not being enabled, so lost wake-ups of `notify_all` are not represented.
- `CopyProtocol.Event`: the choice of target length and the batch call of a writer happen at separate steps, but a batch call and the store to the capability flag are one step, as are a source read and the recording of its failure.
- `SingleWorker.SingleWorkerCopy.Execute`: futures in `FuturesUnordered` make their writes at once at an arbitrary later point, not store call by store call; single writes of different publications do not interleave.
- `SingleWorker.SingleWorkerCopy.CopyRootedBlocks`: `progress` is taken as given only through the tracker's counter; other progress counters mirror the metrics.
- `CopyConfluence.ConfluentIffOrderly`: only for stores whose write errors are fixed per block; the message of a failed batch call is the store's own and not fixed. What stores with arbitrary answers make of different schedules is not compared.
- Child extraction from decoded blocks: the children of a block are given.
- Metrics, depth, per-parent child lists and the other figures of the quality traversal: floating-point numerics and simple accumulators.
- `TreeQuality.TreeTraversal.HandleChildEntry`: a store is taken to return the block that was asked for, so the identity of a loaded child is its entry's child. Which blocks' metrics or entries are refused is a parameter.
- `CorpusSample.IdDeterminesEntry`: among the entries of one corpus the digests are taken not to collide, and block ids to be coded with one length and differently; the decoding of embeddings is a parameter.
- `ExactNeighbors.FillScores`: scores are real numbers; rounding and NaN are not represented, nor is the overflow check of the table size; which embeddings can be compared is a parameter.
- `BoundedHeap.PushBounded`: a binary heap is a multiset with a worst member; its array layout is the standard library's.
- `CanonicalCbor.AcceptedIff`: two keys coincide when they are encoded alike; that the encoder is injective is assumed only in `EmailArtifacts`, as part of a lossless codec.
- Parsing of messages, MIME bodies, quoted replies and mbox separators: `EmailArtifacts` starts from normalized messages.
- `DirectoryWalk.CollectSnapshotEntries`: the directory is a finite tree fixed during the walk; names are Unicode texts.
- `SnapshotAcquisition.AcquireSourceSnapshot`: rsync, the file system and the store fare as a parameter says; all their errors are one error; legacy and malformed manifest blocks count as missing; stored payloads are not represented, only manifests.
- `EmailArtifacts.ExpandMailbox`: reading the file and the check of its path are left out; parsed messages are given.
- `WorkflowJournal.JournalCell.Validate`: error values name the violated clause, not the field within it; loading and saving the journal file are not modelled.
- Preservation of all of validation by every mutator: not intended by the source, since `set_stage` is unguarded; `RunsKeepSound` says exactly which clauses are at stake.
