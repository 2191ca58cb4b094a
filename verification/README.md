# Verified model of the discovery engine

This project models the parts of the NEAT-AI discovery library whose correctness is not visible
from reading one function, and proves what they promise:

- **Streaming recording sessions** (`StreamingProtocol` and the modules named `Streaming…`,
  `RecordingSessions`, `RecordBatches`): a concurrent protocol over a global session map,
  per-session locks, a lock-free tombstone and a `.tmp`/final file pair. It is a machine of
  threads that take one source statement at a time. Which call starts, what the disk answers, how
  old a session is, in which order a hash map is read and which session id is drawn are choices of
  the environment, so the theorems hold for every interleaving. The imperative session object is
  proved to do the same as its micro-steps taken in a row.
- **Candidate dispatch and merge** (`ModuleDetection`, `DiscoveryDispatch`, `PerTargetCap`,
  `CandidateAggregation`, `DispatchConservation`, `DispatchGuarantees`, `CandidateFates`): parallel
  detection, the merge loop with budgets, floors, a per-target cap, quality skipping and a rejection
  breakdown.
- **Clustering, deduplication and diversity** (`ImprovementSplit`, `CandidateClustering`,
  `OperationSignature`, `Deduplication`, `CandidateDiversity`, `Grouping`).
- **Calibration arithmetic** (`Calibration`, `CalibrationTracking`): the scaled, compensated
  computation against its plain specification over the reals.
- **Orphan sweep** (`DiscoveryCleanup`, `OrphanSweep`): check-then-delete racing with sessions and
  with other cleaners.
- **Interning, reachability and the allocation counter** (`Interning`, `InternedSynapses`,
  `Reachability`, `AllocationTracking`).

Conventions. Floats are reals with explicit infinities and NaN (`Floats`); rounding is not
modelled. A hash map is read in an order chosen by the environment and returned as a ghost
sequence, and the results are proved not to depend on it. `sort_by` with `total_cmp` is the stable
`Sequences.SortDesc`. The replies of the file system, the system allocator and the writer are
parameters or environment choices. The calibration limit `F64_MAX` is any value from 2^64 up, so
that the theorems hold for the limit of `f64` in particular.

Where the code and its documentation disagree, the model follows the code, and a lemma shows the
disagreement:

- An append to an empty session may be acknowledged and then discarded by a finish
  (`StreamingLimits.EmptyFinishDiscardsAcknowledgedRecords`); `StreamingRecordKeeping` says exactly
  when that happens, and that callers whose appends and finishes do not overlap are safe.
- A finish retried after a failed flush publishes a file that was never completed
  (`StreamingLimits.RetryAfterFailedFlushPublishesIncompleteFile`).
- Two overlapping finishes of one session can move the file of another session
  (`StreamingLimits.OverlappingFinishTakesAnotherSessionsFile`); `StreamingOwnership` gives the
  exact condition over all runs.
- A directory created after a scan began can be removed when its path is used again, and only if
  it was created after the sweeper's age check (`OrphanSweep.PathReuseDefeatsTheAgeFloor`,
  `OrphanSweep.SweepersRemoveOnlyAbandoned`).
- A 32-bit rejection counter wraps around, and candidates then leave the account
  (`DispatchConservation.DispatchConservesExactlyWithoutOverflow`).
- Near parameters need not share a bucket (`OperationSignature.SameBucketExactlyWithoutEdge`).
- Runs are split by absolute value but sorted by signed value
  (`ImprovementSplit.RunsAreSimilarExactlyWhenNothingRises`).
- The interning index does not panic beyond 2^32 strings, it wraps around
  (`Interning.BijectiveExactlyWithinU32`); interned lookups then may find synapses that do not exist
  (`InternedSynapses.LookupsAgreeExactlyWhenClosed`).
- A calibration key reads back only for some module names
  (`CalibrationTracking.KeyRoundTripsExactly`).
- Reranking keeps the best candidate first only if its gain is not negative
  (`CandidateDiversity.BestIsSafeExactlyWhenNotNegative`).
- Similarity compares sets of operation types, not multisets
  (`CandidateDiversity.RepeatedOperationIsFullySimilar`).

`dafny verify dfyconfig.toml` checks the whole project.

## Model

| member | source | states |
|---|---|---|
| StreamingGuarantees.RecordsWrittenIsAcknowledged | src/streaming.rs:349-424 | in every reachable state, whenever a session's lock is free, records_written is the total of the acknowledged counts, and all those records reached the file |
| StreamingGuarantees.FailedWriteIsNotCounted | src/streaming.rs:399-412 | any write may fail after any number of records; the append then returns an error, and only the file has those records |
| StreamingGuarantees.FinishReturnsAcknowledgedTotal | src/streaming.rs:439-500 | a finish that returned Ok returned exactly the acknowledged total, which never grows again in any continuation |
| StreamingGuarantees.SealedSessionsAcknowledgeNothing | src/streaming.rs:446-500 | once a finish attempt has found records, no positive count is acknowledged any more, through failed renames and retries |
| StreamingGuarantees.AtMostOneLateBatch | src/streaming.rs:414-423 | at most one batch per session is ever added after the tombstone was set |
| StreamingGuarantees.TombstoneStopsAppends | src/streaming.rs:111-118 | once the tombstone is set and nobody is past the final check, no continuation adds a batch or acknowledges more than was counted |
| StreamingCancellation.DeadSessionsTakeNoMore | src/streaming.rs:349-424 | over every run, once the thread whose cancel or sweep took a session out of the map has left the marking step, every check an append to it makes fails, nobody finds it in the map again, and the acknowledged total stays within the records counted by then plus the one batch already past its last check |
| StreamingCancellation.DoomedIsMarkedNext | src/streaming.rs:505-514 | the step of that thread that follows sets the tombstone, in a cancel as in a sweep |
| StreamingCancellation.StaleSessionsAreEvicted | src/streaming.rs:237-261 | a sweep lets go of the map lock only after taking out every session it found stale |
| StreamingCancellation.EvictedWasFoundStale | src/streaming.rs:237-261 | and it takes out no session that it has not found stale |
| StreamingCancellation.SweepExaminesEverySession | src/streaming.rs:237-250 | a sweep is done with its scan only after it has turned to every session that was in the map when it began, and probed each whose lock was free |
| StreamingCancellation.StartSweepsFirst | src/streaming.rs:285-287 | a start call creates its session only after it has swept |
| StreamingGuarantees.RunGrowsHistory | src/streaming.rs:349-500 | over any run, what was acknowledged, sealed, published and returned for a session is never taken back |
| StreamingInvariants.NextOk | src/streaming.rs:233-516 | every micro-step of every thread keeps the protocol invariant and what the other threads rely on |
| StreamingFileGuarantees.UnfinishedSessionsOwnTheirFiles | src/streaming.rs:167-224 | with non-overlapping finishes, a live unfinished session's temporary file exists and is its own, so no two of them share a path |
| StreamingFileGuarantees.StartCreatesExactly | src/streaming.rs:285-330 | a start creates its session, empty and not yet in the map, if and only if the creature has a neuron that is not an input, no file is at the temporary name and the system creates one; otherwise it changes nothing |
| StreamingFileGuarantees.StartOnOccupiedPathLeavesNothing | src/streaming.rs:279-330 | along every run, no step of a start call whose temporary file exists throughout, the sweep it makes first included, creates or registers a session or touches that file |
| StreamingFileGuarantees.SealedRecordingIsKept | src/streaming.rs:197-224 | once finalisation began with records, the recording stays at its temporary name until it is renamed, whatever is dropped or retried; from then on the final name holds the file of a session published there |
| StreamingFileGuarantees.RenameMovesOwnFile | src/streaming.rs:474-485 | the rename moves the finishing session's own file to its final name and touches no other file |
| StreamingFileGuarantees.PublishedRecording | src/streaming.rs:458-500 | after a successful finish the final name holds the file of a session published at that path, and the file is complete exactly when the one flush did not fail |
| StreamingFileGuarantees.PublishedUntilReplaced | src/streaming.rs:474-485 | what a finish publishes is its own session's file, and it stays at the final name in every continuation until a later publish at that path |
| StreamingOwnership.OwnershipHoldsExactlyWithoutHijack | src/streaming.rs:439-500 | over every run, with any overlap of calls, each session still to be published owns its temporary file in every state if and only if no finish renames, by path, the file of another such session |
| StreamingOwnership.UnfinishedOwnWithoutHijack | src/streaming.rs:197-224 | without such a rename every live session not marked finished, or about to be, owns its existing temporary file |
| StreamingOwnership.DisciplinedRunsDoNotHijack | src/streaming.rs:439-485 | finish calls that do not overlap never make such a rename |
| StreamingRecordKeeping.LossNeedsAnOvertakenFinish | src/streaming.rs:331-452 | over every run without such a rename, acknowledged records are lost only after a cancel or sweep of the session, or after a finish that saw no records and, later, an append that added some |
| StreamingRecordKeeping.SerialCallersLoseNothing | src/streaming.rs:331-452 | if no append to a session overlaps a finish of it, no two finishes of one session overlap, and it is neither cancelled nor swept, its acknowledged records are in every state published or in its own file |
| StreamingRecordKeeping.LostExactlyWhenOvertaken | src/streaming.rs:197-224 | once all calls have returned, a session neither cancelled nor swept has lost its acknowledged records if and only if a finish that saw none was overtaken by an append and its file could be deleted |
| StreamingRecordKeeping.UnprovokedDoomsNobody | src/streaming.rs:233-277 | in a run without cancel calls in which no session is found stale, no session is cancelled or swept |
| StreamingRecordKeeping.FailedFinishCanBeRetried | src/streaming.rs:426-491 | over every run, a live session with records that is not published stays in the map for a retry, unless it is cancelled, swept, or a finish once found it empty |
| StreamingProgress.LockHoldersNeverWait | src/streaming.rs:134-146 | the holder of the map lock or of any session lock never waits for a lock |
| StreamingProgress.BlockedByOneRunningThread | src/streaming.rs:237-277 | a call that cannot move waits for one thread that can, and for writer I/O only of its own session |
| StreamingProgress.NoDeadlock | src/streaming.rs:439-500 | while a call is in progress, some call in progress can step |
| StreamingProgress.EveryStepAdvancesItsCall | src/streaming.rs:233-516 | every step of a call strictly decreases a measure, so each call returns after finitely many of its own steps |
| StreamingProgress.CallCanComplete | src/streaming.rs:233-516 | from every reachable state every call can run to its return without any new call and without a step inside the writer I/O of a session it is not waiting for |
| StreamingLimits.EmptyFinishDiscardsAcknowledgedRecords | src/streaming.rs:446-452 | from a fresh process, for every creature, path and batch with records, a run with nothing cancelled or swept leads to acknowledged records whose session and file are gone |
| StreamingLimits.RetryAfterFailedFlushPublishesIncompleteFile | src/streaming.rs:461-471 | from a fresh process a run leads to a finish that, retried after a failed flush, returned Ok and published a file that was never flushed |
| StreamingLimits.OverlappingFinishTakesAnotherSessionsFile | src/streaming.rs:474-485 | from a fresh process a run with two overlapping finishes moves the file of a new live session to the final name |
| RecordBatches.RecordCountMeaning | src/streaming.rs:369-405 | a batch counts its measurements of known non-input neurons plus its inputs |
| RecordBatches.AllRecordsLength | src/streaming.rs:366-412 | the records of all batches are as many as their counts together |
| RecordBatches.BatchRecordsMean | src/streaming.rs:369-405 | the records of a batch are, in order and one to one, its measurements whose first neuron of that name exists and is not an input, each with its own name and values, and then every input with its own number and value, all under the batch's observation |
| RecordBatches.AllRecordsMean | src/streaming.rs:366-412 | the records of several batches are those of each, in order |
| RecordBatches.UnrecordedMeans | src/streaming.rs:369-385 | exactly the other measurements have no record |
| RecordingSessions.BuildBatch | src/streaming.rs:367-403 | the loop builds exactly the records of the batch, described place by place: names, values, observation and order |
| RecordingSessions.RecordingSession.Append | src/streaming.rs:349-424 | what reaches the file, the count and the result, for every outcome of the writer and of both tombstone checks; after a success the file has grown by exactly the records of every batch |
| RecordingSessions.WrittenMeans | src/streaming.rs:366-412 | writing succeeds if and only if no batch with records meets a missing writer or a failing write, and has then written the records of all batches |
| RecordingSessions.WrittenStops | src/streaming.rs:366-412 | when a write fails, the file has the records of the batches before the failing one and the part of that batch that was written |
| RecordingSessions.RecordingSession.Finish | src/streaming.rs:446-491 | the call succeeds exactly when there are records, the rename works and a writer still open can be flushed; without records nothing changes, any other failure keeps the file for a retry, and success reports records_written |
| RecordingSessions.RetriesReportTheSameTotal | src/streaming.rs:426-491 | after any appends and finish attempts one of which found records, a retry never flushes: it succeeds exactly when its rename does and reports the total at the first of them |
| RecordingSessions.DropDeletesOnlyUnsealed | src/streaming.rs:197-224 | after any appends and finish attempts, dropping the session deletes its file if and only if no attempt ever found records |
| RecordingSessions.DropStepAgrees | src/streaming.rs:197-224 | the micro-step that runs the destructor removes the temporary file exactly when the drop deletes and the disk allows it |
| RecordingSessions.SuccessWritesEverything | src/streaming.rs:366-423 | an append that succeeds wrote every record of every batch and returns their number |
| RecordingSessions.WritingStepsAgree | src/streaming.rs:366-412 | the micro-steps of an append write, count and fail exactly as the operation does |
| RecordingSessions.FinishStepsAgree | src/streaming.rs:446-491 | the micro-steps of a finish leave the fields and the result of the operation |
| ModuleDetection.EntriesAreTheirModules | src/analysis/discovery_dispatch.rs:663-742 | in every interleaving each entry is its own module's: gated exactly by its history, skipped for time only when the time is up, otherwise what its closure produced |
| ModuleDetection.DetectionStartsInTime | src/analysis/discovery_dispatch.rs:691-708 | a detection is begun only while the host has not asked to stop and the deadline lies ahead; a worker that finds otherwise tells the others |
| ModuleDetection.ScheduleDoesNotMatter | src/analysis/discovery_dispatch.rs:645-742 | without deadline or cancellation, entries and merge result are the same for every schedule |
| ModuleDetection.TimeoutStopsNewModules | src/analysis/discovery_dispatch.rs:691-708 | once one worker has found the time up, no module that has not started is ever run |
| PerTargetCap.ApplyPerTargetCap | src/analysis/discovery_dispatch.rs:83-117 | the sort and the counting retain keep what the cap's specification keeps, and return the number dropped |
| PerTargetCap.CapIsTopK | src/analysis/discovery_dispatch.rs:66-117 | exactly min(cap, count) of each target stay, best first; everything dropped is outranked by cap kept candidates of its target; candidates without operations all stay |
| PerTargetCap.CapDropsTheExcess | src/analysis/discovery_dispatch.rs:83-117 | the number dropped is the sum over the targets of max(0, count - cap) |
| PerTargetCap.CapByLastOperation | src/analysis/discovery_dispatch.rs:83-117 | for every neuron, of the candidates whose last operation is a synapse operation ending there or a neuron operation on it, exactly min(cap, count) stay, none with less gain than one that is dropped; none is dropped while there are at most cap, or when the cap is zero |
| Floats.TotalLeMeans | src/analysis/discovery_dispatch.rs:94-97 | the order sorted by: negative NaNs, minus infinity, the numbers by value, infinity, positive NaNs |
| Sequences.SortIsStable | src/analysis/discovery_dispatch.rs:94-97 | sorting by gain keeps the order of candidates with equal gains |
| DiscoveryDispatch.RunDiscoveryModule | src/analysis/discovery_dispatch.rs:453-527 | the whole new synapse result of screening and merging one module |
| DiscoveryDispatch.MergeEntry | src/analysis/discovery_dispatch.rs:868-970 | the new synapse result and the soft failures of one entry, with its budget |
| DiscoveryDispatch.MergeDiscoveryModuleResults | src/analysis/discovery_dispatch.rs:805-995 | lists, breakdown, statistics, soft failures and skip flag after the loop are those of the fold over the entries |
| DispatchConservation.ProducedIsAddedOrDropped | src/analysis/discovery_dispatch.rs:812-995 | without a combined limit, every candidate the modules produced is on the list or among the recorded drops, quality skips included |
| DispatchConservation.DispatchConservesExactlyWithoutOverflow | src/analysis/discovery_dispatch.rs:812-995 | the growth of the list and of the candidate counts never exceeds what was produced, and equals it if and only if no 32-bit counter runs over, whether it wraps or a single drop saturates |
| DispatchConservation.CounterWrapsAround | src/analysis/discovery_dispatch.rs:812-995 | every counter ends at its start plus its drops, each capped at 2^32 - 1, modulo 2^32 |
| DispatchConservation.DispatchConserves | src/analysis/discovery_dispatch.rs:812-995 | conservation holds whenever the counts so far and all candidates together fit in 32 bits |
| DispatchConservation.RunIsRecorded | src/analysis/discovery_dispatch.rs:812-995 | the final breakdown is the initial one with exactly the drops of the run recorded in order |
| DispatchConservation.ScreeningDropsTheRest | src/analysis/discovery_dispatch.rs:872-930 | screening one module keeps or drops every candidate |
| DispatchConservation.FullCounterLosesCount | src/analysis/discovery_dispatch.rs:850-861 | the merge loop, started with the non-finite counter at its 32-bit maximum on one module with one NaN gain, wraps that counter and falls short |
| DispatchGuarantees.SoftFailuresMatchTheBreakdown | src/analysis/discovery_dispatch.rs:812-955 | over the whole loop the logged soft failures are exactly the candidates counted as truncated, below the floor or capped, and each module has its statistics row |
| DispatchGuarantees.QualitySkipIsPrefix | src/analysis/discovery_dispatch.rs:845-985 | merging with quality skipping equals merging, without skipping, the shortest nonempty prefix that reaches the minimum, or all modules |
| DispatchGuarantees.ZeroBudgetsRunModules | src/analysis/discovery_dispatch.rs:453-527 | with zero budgets that plain fold has the lists and candidate counts of calling run_discovery_module in order |
| DispatchGuarantees.SkippingRunsModules | src/analysis/discovery_dispatch.rs:805-995 | with zero budgets the merge loop, skipping included, is run_discovery_module on the first modules |
| DispatchGuarantees.RunDiscoveryModules | src/analysis/discovery_dispatch.rs:453-527 | calling run_discovery_module for each module in order gives the fold the loop is compared with |
| DispatchGuarantees.NonFiniteCandidatesDoNotInterfere | src/analysis/discovery_dispatch.rs:805-995 | removing all non-finite candidates beforehand changes no list, skip point, soft failure or other counter, the module suppressions included |
| DispatchGuarantees.ListGrowsByAdditions | src/analysis/candidate_aggregation.rs:303-412 | without a limit and without skipping the final list is the initial one plus exactly the modules' additions |
| DispatchGuarantees.LoopGrowsByAdditions | src/analysis/discovery_dispatch.rs:845-985 | without a limit the merge loop, skipping included, adds exactly the additions of the modules before the skip |
| DispatchGuarantees.AddedHasOrigin | src/analysis/candidate_aggregation.rs:345-375 | everything added is a finite candidate above the floor with its operations intact, its gain positive and discounted exactly once |
| CandidateFates.ScreenedMeans | src/analysis/discovery_dispatch.rs:872-930 | the cap is applied to exactly the candidates with finite parameters and gain, among the first of them that the budget admits, whose gain is 0.00001 or more |
| CandidateFates.AdditionsMean | src/analysis/candidate_aggregation.rs:303-377 | a merge adds, in order, exactly the candidates with finite parameters and a finite positive gain, above 0.00002, 0.00005 or 0.0001 for two, three or more operations, with a half, a fifth or a tenth of that gain |
| CandidateFates.MergedLists | src/analysis/candidate_aggregation.rs:377-412 | without an addition no list changes; otherwise the additions are appended, stably sorted unless runs are diversified, and all three lists go through the truncation when a limit is set |
| CandidateFates.RejectionsOfEntry | src/analysis/discovery_dispatch.rs:812-955 | in a turn of the loop the drops recorded under each reason are the candidates it applies to: bad parameters, bad gain, beyond the budget, below 0.00001, over the cap, too small once discounted, or all of a skipped module |
| CandidateFates.CountersShowTheRejections | src/analysis/discovery_dispatch.rs:812-995 | over the whole loop every counter rises by those candidates if and only if they fit in 32 bits with what it showed before |
| CandidateFates.TurnIsLogged | src/analysis/discovery_dispatch.rs:812-985 | a turn logs one statistics row with what the module produced and, unless it is skipped, one soft failure with the sound candidates that screening dropped |
| CandidateFates.QualityMeans | src/analysis/discovery_dispatch.rs:973-985 | further modules are skipped once 15 candidates on the list have a gain of 0.01 or more |
| CandidateAggregation.SynapseResult.MergeCoordinated | src/analysis/candidate_aggregation.rs:303-412 | lists, metadata and breakdown after the in-place merge, with every early return |
| CandidateAggregation.SynapseResult.RetainAndRecord | src/analysis/candidate_aggregation.rs:155-180 | exactly the candidates to keep stay, each as often as before and in order, and only that reason's counter moves, by the number of the others while 32 bits hold it |
| CandidateAggregation.DiscountAll | src/analysis/candidate_aggregation.rs:353-357 | the loop discounts exactly the multi-operation candidates |
| CandidateAggregation.MergeConserves | src/analysis/candidate_aggregation.rs:303-412 | one merge adds or counts every candidate it was given |
| CandidateAggregation.MergeAddsExactly | src/analysis/candidate_aggregation.rs:379-393 | without a limit the merged list is the old one plus the additions, and a sorted list stays sorted |
| CandidateAggregation.AdditionsAreSound | src/analysis/candidate_aggregation.rs:303-377 | each addition has an origin with the same operations, a finite positive gain and one discount |
| ImprovementSplit.SplitByImprovementSimilarity | src/analysis/candidate_clustering.rs:163-192 | the walk over the group returns its greedy runs |
| ImprovementSplit.RunLengthMeans | src/analysis/candidate_clustering.rs:175-186 | a run is the longest prefix with no member too far below its first |
| ImprovementSplit.TooFarInImprovements | src/analysis/candidate_clustering.rs:172-186 | a member is too far below the first of its run if and only if it is not infinite and the first is infinite or of more than five times its size and of the smallest size that counts, 2^-23 |
| ImprovementSplit.RunsJoin | src/analysis/candidate_clustering.rs:163-192 | the runs are nonempty and concatenate back to the group |
| ImprovementSplit.RunsAreFewest | src/analysis/candidate_clustering.rs:163-192 | no split into contiguous similar parts has fewer parts than the runs, for any group |
| ImprovementSplit.RunsAreSimilarExactlyWhenNothingRises | src/analysis/candidate_clustering.rs:158-192 | for a group sorted best first, every pair of every run is within ratio five if and only if no later magnitude exceeds five times an earlier one |
| ImprovementSplit.NonNegativeRunsAreOptimal | src/analysis/candidate_clustering.rs:158-192 | for non-negative improvements the runs are a smallest similar split |
| ImprovementSplit.NegativeImprovementJoinsARun | src/analysis/candidate_clustering.rs:172-186 | a group of zero and minus one gives a run that is not similar |
| CandidateClustering.ClusterCandidates | src/analysis/candidate_clustering.rs:100-156 | the clusters of every group in the hash map's order, sorted by representative |
| CandidateClustering.OrderDoesNotMatter | src/analysis/candidate_clustering.rs:106-148 | the hash map's order never changes which clusters result |
| CandidateClustering.ClustersAreSound | src/analysis/candidate_clustering.rs:114-147 | every cluster reports at least two candidates of one target and source type, the best of them as representative |
| CandidateClustering.ClustersAreTheLargeRuns | src/analysis/candidate_clustering.rs:100-156 | the clusters are, one to one, the runs with at least two members of the groups by target and neuron type, each with its first member's source, target and improvement, its size, and its members' sources in order |
| CandidateClustering.GroupedByTargetAndType | src/analysis/candidate_clustering.rs:106-113 | two candidates are in one group if and only if target and neuron type are equal |
| CandidateClustering.RunsPartitionTheCandidates | src/analysis/candidate_clustering.rs:106-134 | every candidate is in exactly one run |
| OperationSignature.SameBucketIsNear | src/analysis/candidate_clustering.rs:388-394 | values in one bucket differ by less than 0.1, and by at most 0.05 outside the zero bucket |
| OperationSignature.SameBucketExactlyWithoutEdge | src/analysis/candidate_clustering.rs:383-394 | two values share a bucket if and only if no bucket edge lies between them |
| OperationSignature.NearValuesInDifferentBuckets | src/analysis/candidate_clustering.rs:383-394 | 0.049 and 0.051 are within the tolerance and in different buckets |
| OperationSignature.NearValuesInNeighbouringBuckets | src/analysis/candidate_clustering.rs:388-394 | values within the tolerance are at most two steps apart |
| OperationSignature.SameSignatureExactly | src/analysis/candidate_clustering.rs:322-381 | two candidates have one signature if and only if their operations match one to one, in any order, in kind and neurons, with parameters that no bucket edge separates |
| OperationSignature.SameSignatureMatchesOneToOne | src/analysis/candidate_clustering.rs:322-381 | candidates with one signature have operations that match one to one in kind and neurons, with near parameters |
| Deduplication.Deduplicate | src/analysis/candidate_clustering.rs:262-313 | the survivors, the counts removed plus kept equal to the original, and the conflict count, zero for at most one candidate |
| Deduplication.KeepBest | src/analysis/candidate_clustering.rs:286-301 | reading the groups in any order keeps the best of each and counts the rest as removed |
| Deduplication.SurvivorsAreQuotient | src/analysis/candidate_clustering.rs:262-306 | survivors have pairwise different signatures, one for each class, each with the greatest gain of its class, best first |
| Deduplication.SurvivorIsFirst | src/analysis/candidate_clustering.rs:286-301 | of several candidates with the greatest gain of their class the first survives |
| Deduplication.SurvivorsDoNotDependOnOrder | src/analysis/candidate_clustering.rs:279-301 | the hash map's order never changes which candidates survive |
| Deduplication.DeduplicationIsIdempotent | src/analysis/candidate_clustering.rs:262-313 | deduplicating the survivors again keeps every one of them |
| Deduplication.CountNeuronConflicts | src/analysis/candidate_clustering.rs:401-425 | the count is the number of neurons that some operation removes and some operation modifies |
| Deduplication.ConflictedMeans | src/analysis/candidate_clustering.rs:432-452 | a neuron is in conflict exactly when one operation removes it and another changes its squash, sets its bias or adds a neuron of that name |
| CandidateDiversity.AffectedNeurons | src/analysis/candidate_diversity.rs:160-190 | the loop collects exactly the neurons some operation touches |
| CandidateDiversity.NeuronsAreMentioned | src/analysis/candidate_diversity.rs:160-190 | the neurons of a candidate are both ends of its synapse operations and the neuron of any other operation |
| CandidateDiversity.TypesAreKinds | src/analysis/candidate_diversity.rs:142-157 | operation types tell apart exactly the seven kinds of operation |
| CandidateDiversity.JaccardMeans | src/analysis/candidate_diversity.rs:193-216 | the Jaccard index is symmetric, in [0,1], and 1 exactly for equal sets |
| CandidateDiversity.JaccardIsTheFraction | src/analysis/candidate_diversity.rs:193-216 | the index times the size of the union is the size of the intersection; zero for disjoint sets, one for two empty ones |
| CandidateDiversity.JaccardGrows | src/analysis/candidate_diversity.rs:193-216 | for unions of one size it grows with the intersection |
| CandidateDiversity.SimilarityMeans | src/analysis/candidate_diversity.rs:58-79 | similarity is symmetric, in [0,1], and 1 exactly when operation types and neurons coincide |
| CandidateDiversity.SimilarityIsWeighted | src/analysis/candidate_diversity.rs:58-79 | neurons weigh 0.7 and operation types 0.3, each by the share they have in common; 0.7 for the same neurons and disjoint types, 0.3 for the same types and disjoint neurons |
| CandidateDiversity.RepeatedOperationIsFullySimilar | src/analysis/candidate_diversity.rs:55-66 | repeating an operation does not lower the similarity |
| CandidateDiversity.MaxSimilarityMeans | src/analysis/candidate_diversity.rs:109-114 | the inner loop's maximum is attained and bounds every similarity |
| CandidateDiversity.EffectiveMeans | src/analysis/candidate_diversity.rs:103-120 | the first keeps its gain; any other has its gain times one less the penalty times the greatest similarity to a candidate ranked above |
| CandidateDiversity.RerankWithDiversity | src/analysis/candidate_diversity.rs:87-139 | scores, index sort and slot taking give the specified reranking, with the early return |
| CandidateDiversity.RerankPermutes | src/analysis/candidate_diversity.rs:87-139 | reranking loses and invents no candidate |
| CandidateDiversity.RerankIsOrdered | src/analysis/candidate_diversity.rs:106-138 | the result lists the places of the gain order, each once, by effective score, and equal scores in gain order |
| CandidateDiversity.BestStaysFirst | src/analysis/candidate_diversity.rs:103-124 | for finite gains not all negative and a penalty up to one, or no negative gain and any penalty, the best candidate stays first |
| CandidateDiversity.NegativeBestIsOvertaken | src/analysis/candidate_diversity.rs:116-119 | every candidate with a negative gain is overtaken by a worse one with the same operations |
| CandidateDiversity.BestIsSafeExactlyWhenNotNegative | src/analysis/candidate_diversity.rs:103-124 | a greatest gain keeps its candidate first in every list if and only if it is not negative |
| Calibration.CompensatedAdd | src/discovery_history.rs:226-231 | one compensated addition adds the value less the compensation, without overflow |
| Calibration.SaturatingFiniteProduct | src/discovery_history.rs:234-241 | the product, or the finite limit of its sign |
| Calibration.CalibrationErrors | src/discovery_history.rs:195-223 | mean absolute error and bias are the plain means over the reals, clamped; no intermediate value overflows |
| Calibration.ScaledSumsStayBounded | src/discovery_history.rs:205-216 | after every i observations the scaled bias is at most the scaled error in size, and that at most 2i |
| Calibration.AccumulateErrors | src/discovery_history.rs:205-216 | the compensated loop computes exactly those two sums |
| Calibration.BiasWithinError | src/discovery_history.rs:195-223 | the reported bias never exceeds the reported error |
| Calibration.ErrorsMean | src/discovery_history.rs:195-223 | the error times the number of observations is the sum of the distances between predicted and actual value, the bias times it the sum of the overestimates; a mean beyond the finite values is the limit of its sign |
| Calibration.CollectRatios | src/discovery_history.rs:251-271 | exactly the usable ratios are collected: finite quotients, and the maximum for a prediction near zero |
| Calibration.ScaledMean | src/discovery_history.rs:277-285 | the scaled mean is at most one and scales back to the mean of the ratios |
| Calibration.ComputeCalibrationFactor | src/discovery_history.rs:246-294 | the factor is the mean usable ratio clamped to [0.1, 10], or 1 when none is usable |
| Calibration.FactorMeans | src/discovery_history.rs:246-294 | the factor is the mean of actual per predicted value over the observations whose quotient is finite, ten where the prediction is within 1e-10 of zero, held between 0.1 and 10; one when there are none |
| CalibrationTracking.CalibrationTracker.RecordPrediction | src/discovery_history.rs:125-148 | a finite observation is appended to its bucket, a non-finite one changes nothing |
| CalibrationTracking.CalibrationTracker.CalibrationFactorFor | src/discovery_history.rs:154-163 | the factor of the bucket, or 1 when there is none |
| CalibrationTracking.CalibrationTracker.CalibrationSummary | src/discovery_history.rs:169-191 | one entry per bucket with its metrics, most samples first |
| CalibrationTracking.SummaryReportsBuckets | src/discovery_history.rs:169-191 | each line reports its own bucket: the names in the key, the number of samples, error, bias and factor |
| CalibrationTracking.KeyRoundTripsExactly | src/discovery_history.rs:46-53 | a key reads back as it was built if and only if the module name followed by a colon holds no separator |
| CalibrationTracking.KeysCanCollide | src/discovery_history.rs:46-48 | two different pairs can have the same key |
| CalibrationTracking.BucketHoldsOwnObservations | src/discovery_history.rs:125-148 | after any calls, a bucket of a clean name holds exactly its own finite observations in order |
| CalibrationTracking.OwnObservationsMean | src/discovery_history.rs:125-148 | these are the predicted and actual values of the calls with finite values, one for one and in order |
| CalibrationTracking.FactorIsOfOwnObservations | src/discovery_history.rs:154-163 | so its factor depends on nothing else |
| DiscoveryCleanup.IsDirectoryOrphaned | src/discovery_cleanup.rs:272-286 | orphaned exactly when both lock names are reported absent |
| DiscoveryCleanup.RemoveDiscoveryDir | src/discovery_cleanup.rs:178-254 | the outcome follows from the replies stage by stage, with or without the re-check |
| DiscoveryCleanup.SweepEntry | src/discovery_cleanup.rs:394-480 | the guards of one entry lead to the outcome its replies determine |
| DiscoveryCleanup.RemovedOnlyBehindEveryGuard | src/discovery_cleanup.rs:394-480 | an entry is removed if and only if every guard saw what it demands; an unreadable lock counts as held |
| DiscoveryCleanup.SkippedMeans | src/discovery_cleanup.rs:394-445 | skipped if and only if the type could be read and it is a link, not a directory, or locked or unreadable under either lock name |
| DiscoveryCleanup.ClaimedMeans | src/discovery_cleanup.rs:178-298 | claimed if and only if it was modified since the scan began, or has a lock at the second look |
| DiscoveryCleanup.AlreadyGoneMeans | src/discovery_cleanup.rs:178-254 | already gone if and only if, past those guards, it is not found at its path or when it is to be removed |
| DiscoveryCleanup.FailedMeans | src/discovery_cleanup.rs:178-298 | failed if and only if an entry, type, age, path, metadata or removal reply is an error other than these, or the path is no directory any more |
| DiscoveryCleanup.OutcomesOfCleanup | src/discovery_cleanup.rs:178-254 | what the replies lead to in the cleanup of one directory, with the second look at the locks or, for its owner, without |
| DiscoveryCleanup.CleanOrphanedDiscoveryDirsSince | src/discovery_cleanup.rs:354-503 | the loop's counts are the tally of the entries and add up to their number |
| DiscoveryCleanup.TallyIsComplete | src/discovery_cleanup.rs:394-480 | each outcome is counted exactly as often as it occurs |
| OrphanSweep.SweepersRemoveOnlyAbandoned | src/discovery_cleanup.rs:178-298 | in every interleaving, what a sweeper removes was created since its age floor only if it was created after the sweeper's age check, and exactly then if the floor had passed by that check; any lock in it was written after the sweeper last looked |
| OrphanSweep.FreshPathsAreNeverSwept | src/discovery_cleanup.rs:288-298 | at a path not created a second time, nothing created since the scan began is removed |
| OrphanSweep.EveryEntryIsAccounted | src/discovery_cleanup.rs:354-503 | no directory is removed twice, and each actor's entries equal removed, already gone, claimed, failed and skipped together |
| OrphanSweep.EntryEndsAsReplied | src/discovery_cleanup.rs:178-298 | whatever the others do meanwhile, each entry ends as its own replies decide: a sweeper's as in the sweep of a single entry, an owner's without any look at locks or age |
| OrphanSweep.PathReuseDefeatsTheAgeFloor | src/discovery_cleanup.rs:338-353 | a run in which a directory created after the scan began is removed |
| OrphanSweep.StepKeepsInv | src/discovery_cleanup.rs:178-298 | every step of every actor keeps the sweep invariant |
| Interning.NeuronIndex.Intern | src/intern.rs:95-109 | an interned string keeps its index, a new one gets the truncated length |
| Interning.NeuronIndex.Clear | src/intern.rs:139-142 | both halves are empty afterwards |
| Interning.ReachableIsConsistent | src/intern.rs:95-109 | in every reachable index the strings are distinct and each maps to its place modulo 2^32 |
| Interning.BijectiveExactlyWithinU32 | src/intern.rs:88-124 | the index is a bijection onto 0..len if and only if it holds at most 2^32 strings |
| Interning.IdsNeverChange | src/intern.rs:95-109 | interning more strings never changes an index handed out |
| Interning.OneTooManyWrapsAround | src/intern.rs:88-109 | the string after 2^32 others shares index 0 with the first |
| InternedSynapses.BuildExistingSynapsesInterned | benches/neuron_interning.rs:87-105 | the builder's index holds all names and its set the interned ends of exactly the synapses |
| InternedSynapses.BuildSynapseWeightsInterned | benches/neuron_interning.rs:117-142 | the builder's map holds the interned weights, the last synapse between two neurons winning |
| InternedSynapses.LookupSynapsesInterned | benches/neuron_interning.rs:150-164 | the filter counts the queries whose ends are known and paired |
| InternedSynapses.NamesInOrder | benches/neuron_interning.rs:60-105 | the names are interned in this order: the inputs by number, the neurons, then both ends of each synapse |
| InternedSynapses.LookupCounts | benches/neuron_interning.rs:63-80 | the string lookup counts the queries that some synapse leads from the first to the second neuron of |
| InternedSynapses.SynapseWeightsMean | benches/neuron_interning.rs:108-142 | the weight between two neurons is that of the last synapse that leads from one to the other |
| InternedSynapses.InternedLookupAddsFalseHits | benches/neuron_interning.rs:145-164 | for every creature of any size and every queries, the interned lookup counts what the string lookup counts plus the queries whose ends share their ids with a synapse's without being one |
| InternedSynapses.AliasesAreCongruent | src/intern.rs:95-109 | two names share an id if and only if their places differ by a multiple of 2^32 |
| InternedSynapses.LookupsAgreeExactlyWhenClosed | benches/neuron_interning.rs:145-164 | both lookups count the same for all queries if and only if replacing an end of a synapse by a name with its id always gives a synapse |
| InternedSynapses.OneTooManyGivesAFalseHit | src/intern.rs:95-109 | with one neuron more than 2^32 a query finds a synapse that does not exist |
| InternedSynapses.InternedLookupAgrees | benches/neuron_interning.rs:145-164 | for every creature of at most 2^32 names and every queries, both lookups count the same |
| InternedSynapses.WeightsAgreeExactlyWhenClosed | benches/neuron_interning.rs:108-142 | for every creature of any size both weight maps answer every query alike if and only if, in addition, synapses with the same ids share their final weight |
| InternedSynapses.InternedWeightsAgree | benches/neuron_interning.rs:108-142 | for every creature of at most 2^32 names and every query both weight maps hold the same weight or none |
| Reachability.Search | benches/bfs_allocation.rs:91-117 | the worklist terminates on every graph and reports exactly the outputs reachable by one or more edges |
| Reachability.ConnectedOutputs | benches/bfs_allocation.rs:123-152 | the result is sorted, without duplicates, and exact |
| Reachability.LeMeans | benches/bfs_allocation.rs:123-152 | the order of the result is the lexicographic one: prefixes first, otherwise by the first difference |
| Reachability.SearchesAgree | benches/bfs_allocation.rs:91-152 | two results with that contract are equal, so the owned and borrowed variants agree |
| AllocationTracking.CounterIsAccounted | src/tracking_alloc.rs:54-98 | in every interleaving the counter is the bytes added and not yet subtracted, modulo the word; never negative, and the live bytes when no call is in flight |
| AllocationTracking.SubtractionNeverUnderflows | src/tracking_alloc.rs:74-98 | while those bytes fit in a word, no subtraction takes the counter below zero |
| AllocationTracking.StepAccounts | src/tracking_alloc.rs:54-98 | only counter updates change what is accounted for, each by its own amount |
| AllocationTracking.TrackingAlloc.Alloc | src/tracking_alloc.rs:56-63 | a successful allocation adds its size, a failed one nothing |
| AllocationTracking.TrackingAlloc.Dealloc | src/tracking_alloc.rs:74-79 | a deallocation subtracts the size |
| AllocationTracking.TrackingAlloc.Realloc | src/tracking_alloc.rs:81-98 | a successful reallocation applies the size difference, a failed one nothing |

## Left out

- Rounding of `f32` and `f64`: values are reals, so claims at the last digit are not made; a result between the largest finite value and the IEEE overflow threshold counts as infinite.
- The sign of a NaN produced by an operation is fixed to positive, and a NaN diversity penalty is not modelled.
- The Parquet writer, GPU, FFI and JSON code: the writer is an append-only sequence whose write, flush and rename may fail.
- `truncate_combined_synapse_candidate_sets` is any function of the lists; conservation is stated without a combined limit.
- The historical columns of the module statistics and the outcome tracker's own arithmetic are not part of this model; the gate is a boolean per module and soft failures are logged in order.
- `apply_final_coordinated_gain_floor`, the remove-neuron gain, compensation and bias-fold arithmetic, and the conversion of neurons to coordinated replacements.
- `compute_internal_correlation` needs a square root: it is any function of a run.
- Errors of creating the recording file other than an existing file leave no file behind in the model.
- Other processes deleting session files, and `cleanup_discovery_dir` acting on a live session's directory.
- `remove_dir_all` is one step: a removal that fails half-way leaves the directory in place in the model.
- Reading a directory entry, its type and the path checks may answer anything in the sweep machine, so only the later checks are relied on.
- Underflow of small quotients in the calibration arithmetic, and counts beyond 2^53 converted to `f64`.
- StreamingFileGuarantees.UnfinishedSessionsOwnTheirFiles: assumes that finish calls for one session do not overlap; StreamingOwnership.OwnershipHoldsExactlyWithoutHijack drops the assumption.
- CandidateDiversity.BestStaysFirst: needs finite gains and a positive penalty; with a penalty of zero the code returns the list unsorted.
- OrphanSweep.SweepersRemoveOnlyAbandoned: the clock never runs backwards and no modification time lies in the future.
- Neuron discovery history (attempts, successes, Bayesian score) and the small counters and classifiers: true but light.
- Logging, watchdog beats, phase timers and environment-driven settings.
