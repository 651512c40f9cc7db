# EventCore, modelled and verified

EventCore is a multi-stream event-sourcing library.  This project states in Dafny what its
parts do and proves what they are for.

- **Executor, cache and store** (`Streams`, `Writes`, `Replay`, `Pipeline`, `Snapshots`,
  `MemoryStore`, `Execute`, `Reconstruct`, `CachedExecute`, `Serializability`, `Liveness`).  A command reads
  streams breadth-first, each at its own moment, while others commit.  `FullReplay` is the
  reference: the whole store read at once.  A *trace* is what an executor really read.  Traces
  stay faithful as the store grows, and a trace that passes the version check is the full
  replay, which gives serializability for any interleaving, with and without the snapshot
  cache.  Attempts that are left alone do what the command does alone, conflicts are retried, and
  no error is reported that nothing gave rise to.
- **Transactional projections** (`Delivery`, `ProjectionTables`, `ProjectionRunner`).  The read
  model and its progress row change in one transaction.  `Exact` says that each selected event
  up to the progress was handled by exactly one commit, in order, and that the model is what
  the applied ones produce; every run keeps it under failures, lost acknowledgements, other
  leaders and resets.
- **Checkpoint projections** (`LegacyProjection`).  Effects outside a transaction, a checkpoint
  after each: nothing at or below a checkpoint is lost, and only the last event can repeat.
- **File store** (`Sorting`, `TransactionGraph`, `FileIndex`, `FileStore`, `LostNumbers`,
  `FileCursor`, `Forks`, `ReplicaHistory`, `Reconcile`).  Immutable transactions merged by union;
  the index extended in place is the rebuilt one except for the order of its streams, and for each
  stream it is said exactly when that order is right; the cursor neither skips nor repeats; what
  reported forks mean; what a reconcile pass leaves behind.  `LostNumbers` are two lives of a
  store whose ingestion log was not persisted in full.
- **Provenance checker** (`ProvenanceGraph`, `Provenance`), **locked PostgreSQL append**
  (`StringOrder`, `LockedAppend`) and the **glob translation** (`Glob`).

Where the source works in place the model does too: the pipelines, the stores, the runner's
loops and the index are classes and methods, each proved against a specification function or
predicate.  Map iteration orders, scheduling, failures and projector verdicts are arbitrary.

`dafny verify dfyconfig.toml` checks the project.

## Where the code does less than its words

- `eventcore-fs/src/merge.rs:30-34` and `:320-324` say that a single writer never forks and that
  same-base siblings are always concurrent.  Bases are recorded for streams that were only read
  too, so both fail: `ReplicaHistory.ReadOnlyRegistrationForks` is a history that shows it,
  `SingleWriterForkIff` is the exact condition, and what the words mean holds for writers.
- `reconcile` (`eventcore-fs/src/lib.rs:577-606`) keeps a replica's transactions one chain exactly
  if it resolves no fork, or one fork whose heads stand above everything the replica wrote
  (`Reconcile.ReconcileForks`).  `Reconcile.TwoForksInOnePass` is a history of two appends and a
  union after which one pass leaves the replica failing its identity check.
- `eventcore-fs/src/index.rs:150-156` promises that checkpoints stay valid across a reopen.  An
  append whose log entry could not be persisted (`eventcore-fs/src/lib.rs:339-345`) reports a
  failure, yet its events are stored and readers see them under numbers that a reopen hands out
  again.  `LostNumbers.FailedPersistThenAppend` is the ordinary case, one failure followed by a
  success; `LostNumbers.FailedPersistThenUnion` shows a number going to another event.
  `FileStore.ReopenFrom` has the exact condition: nothing was persisted beyond a number that was
  lost, and the events without a number, in the canonical order of the directory to be opened,
  begin with those that lost theirs, in the order of their numbers.  After appends alone, the last
  of them unpersisted, it holds (`HandsOutAgain`).
- After a merge transaction a stream in memory is the rebuilt one exactly if it was before and, in
  case the merge wrote it, no transaction that sorts after the merge did
  (`FileStore.FileEventStore.WriteMergeTransaction`).  `Reconcile.MergeMovesOnRebuild` is a history
  in which a proper reconcile breaks it: the replica keeps one chain, yet a reopen moves the merge
  before an event that readers of the stream saw earlier.
- A checkpoint projection relies on a reader to which nothing turns up at or below a position it
  has returned.  The reader's trait (`eventcore-types/src/projection.rs:619-669`) does not promise
  it, and the PostgreSQL reader (`eventcore-postgres/src/lib.rs:576-630`) pages by event ids, which
  are drawn before their transaction commits.  `LegacyProjection.CoveredIffNothingLate` is the
  exact condition for a checkpoint to stay true: no selected event commits at or below it later.
- `eventcore-postgres/src/lib.rs:520-528` says that sorted locking avoids deadlock.  The locks are
  hashes of stream ids; `LockedAppend.DeadlockFreeIff` is the exact condition on the hash.
- `eventcore/src/execute_pipeline.rs:295-309` panics after a commit at the last number its attempt
  counter holds.  It takes the largest retry setting (`Execute.ExecuteCommand`), and
  `Pipeline.LastAttemptPanics` drives the machine there.
- `eventcore-postgres/src/projections/source.rs:276-327` copies a range such as `[z-a]`, which the
  glob matcher takes for the empty class, into a regular expression that PostgreSQL refuses;
  `Glob.ReversedRangeIsRefused` is that input, and `Glob.TranslationPreservesMeaning` says that there
  is no other way to an ill-formed expression.
- `docs/manual/08-reference/04-glossary.md:11-12` says that a `previous(...)` source requires an
  independent seed.  The walk (`eventcore/src/model.rs:880-931`) asks for a seed only where a source
  leads back to the path it is on, and takes one that is made from the carried value itself, so the
  verdict depends on which field it meets first, hence on names (`ProvenanceGraph.TheNamesDecide`).
  `Provenance.CheckReferences` says exactly what is accepted and
  `ProvenanceGraph.AcceptedUnderAnyNames` exactly what is accepted under any names.

## Model

| member | source | states |
|---|---|---|
| Serializability.Serializable | eventcore/src/execute_pipeline.rs:125-368 | after any interleaving of plain and cached executions, each stream opened, each event delivered, each checkpoint caught up on and each save its own step, the store is what running the committed commands one at a time, alone, in commit order gives; no session commits twice, one that reports success committed, and one that committed reported success, or saw the store fail, or panicked |
| Serializability.ExactlyTheSuccessesCommit | eventcore/src/lib.rs:655-747 | if no acknowledgement of an append is lost, a session has one commit exactly if it reported success or panicked at its last possible attempt |
| Serializability.PanicsOnlyOnLastAttempt | eventcore/src/execute_pipeline.rs:125-224 | no execution reaches an arm of its shell that is called unreachable, cached reconstructions never find an expected queue entry missing, and the only panic follows a commit at the last attempt number, with the largest retry setting |
| Serializability.StoredSnapshotsStayFaithful | eventcore/src/lib.rs:699-714 | at every moment of every run every stored snapshot is a faithful record of some earlier complete replay of the store |
| Serializability.VersionVectorsNeverRegress | eventcore-memory/src/lib.rs:249-267 | over a whole run, stale and racing saves included, a stored version vector never loses a stream or goes down |
| Serializability.StepKeepsInv | eventcore/src/lib.rs:655-747 | every enabled step of every session, appends that land with their acknowledgement lost included, keeps: the store equals the serial run of the log, all snapshots are faithful, all sessions' knowledge is faithful, commits and outcomes agree |
| Serializability.SessionMonotone | eventcore/src/execute_pipeline.rs:225-285 | what a session holds in memory survives everybody's appends |
| Serializability.FoldEndedKeeps | eventcore/src/lib.rs:843-960 | when a tail or a stream has been folded event by event, the cached session goes on from a faithful partial replay: the advanced checkpoint and everything after it read anew |
| Liveness.NewPlainSessionFinishes | eventcore/src/lib.rs:631-684 | from every reachable system, a new plain execution that is left alone reaches an outcome: success with its commit if the command run alone accepts, its refusal otherwise |
| Liveness.RetryingPlainSessionFinishes | eventcore/src/execute_pipeline.rs:355-364 | so does one that wakes up after a conflict |
| Liveness.LoadingSessionFinishes | eventcore/src/lib.rs:687-747 | so does a cached execution that is about to load, whatever faithful snapshot is stored |
| Liveness.RetryingCachedSessionFinishes | eventcore/src/lib.rs:725-740 | so does a cached one that wakes up after a conflict |
| Liveness.ConflictIsRetried | eventcore/src/execute_pipeline.rs:311-349 | in every reachable system a conflict means that a version has moved; it changes nothing, and the session can wake for its next attempt while retries are left and reports `ConcurrencyError` otherwise |
| Pipeline.CheckedWritesRunAlone | eventcore-memory/src/lib.rs:175-234 | writes from a complete, possibly stale trace that pass the version check are exactly what the command, run alone on the present store, appends |
| Pipeline.RunAloneDoes | eventcore/src/lib.rs:562-580 | run alone, a command is accepted exactly if its logic accepts the replayed state and every event goes to a stream that was read; then each stream gains exactly its own events, in order |
| Pipeline.RefusedBecause | eventcore-types/src/store.rs:88-112 | a refusal is the logic's own error, or names the stream of the first event that goes to none that was read |
| Replay.FaithfulMonotone | eventcore/src/execute_pipeline.rs:227-285 | a read trace faithful to a store stays faithful, with the same reconstructed state and queue, in every store that extends it |
| Replay.CurrentTraceIsFullReplay | eventcore/src/execute_pipeline.rs:149-210 | a complete trace whose versions are current reconstructed the state and version vector of a full breadth-first replay |
| Replay.CurrentIffVersionsMatch | eventcore-memory/src/lib.rs:184-208 | a trace is current exactly when its version map passes the store's check |
| Replay.FaithfulShape | eventcore/src/execute_pipeline.rs:242-285 | a faithful trace visits each stream once, and scheduled ids are the visited ones plus a duplicate-free queue |
| Replay.FoldAppliesInTurn | eventcore/src/execute_pipeline.rs:227-241 | folding passes through one state per event, each made from the one before by the command's `apply` |
| Replay.ScheduleFollowsNames | eventcore/src/execute_pipeline.rs:266-273 | scheduling puts on the queue exactly the ids named for the first time, in the order in which they were named, and nothing else |
| Replay.CompleteIsClosure | eventcore/src/execute_pipeline.rs:149-285 | a complete trace has read exactly the declared streams and those that the states after its streams called for, each once, in the order in which they were first named |
| Replay.FullReplayIsClosure | eventcore/src/execute_pipeline.rs:149-285 | the reference replay reads every such stream to its end: its versions are their lengths and its state is the fold of their events in that order |
| Pipeline.ScheduledIsVisitedPlusQueue | eventcore/src/execute_pipeline.rs:149-285 | in both reading phases the scheduled set is the disjoint union of the visited set and the duplicate-free queue |
| Pipeline.EndTracks | eventcore/src/execute_pipeline.rs:242-285 | ending a stream after any prefix of it records that prefix's length and leaves the machine faithful to the store |
| Pipeline.EventTracks | eventcore/src/execute_pipeline.rs:227-241 | folding the next streamed event keeps the machine a faithful partial replay |
| Pipeline.EndIsCurrent | eventcore/src/execute_pipeline.rs:242-285 | if every stream was read to its present end, the next step reads on, or yields writes that will pass the check, or gives up exactly when the command run alone refuses |
| Pipeline.LastAttemptPanics | eventcore/src/execute_pipeline.rs:295-309 | with the largest retry setting there are results, all of them conflicts, that bring the machine to the last attempt number, where a committed append panics |
| Pipeline.ExecutePipeline.Step | eventcore/src/execute_pipeline.rs:125-224 | the in-place machine makes exactly the transition of the specification function, panics included |
| Pipeline.ExecutePipeline.Resume | eventcore/src/execute_pipeline.rs:227-368 | likewise for every result in every phase, right or wrong |
| Pipeline.ExecutePipeline.StepFromInit | eventcore/src/execute_pipeline.rs:128-148 | queues the declared streams without duplicates and goes on to the first read |
| Pipeline.ExecutePipeline.ResumeStream | eventcore/src/execute_pipeline.rs:227-291 | folds an event, or finishes the stream and schedules newly discovered ids once; what that puts on the queue is `Replay.ScheduleFollowsNames` |
| Execute.ExecuteCommand | eventcore/src/lib.rs:631-684 | for every retry setting, attempt by attempt and with the surroundings of each: an attempt commits exactly what the command run alone would, or meets a conflict with its own writes, or gives up because the command refuses on a complete reading or an access failed; one that is left alone does what the command does alone; all but the last met a conflict; after a commit at attempt n the result is success with n, after a conflict at the last retry `ConcurrencyError`, otherwise the error itself; there is no result exactly after a commit at the last representable attempt; the store is changed by the last attempt only |
| Execute.PumpEvents | eventcore/src/lib.rs:1037-1066 | pushes an opened stream event by event while others commit; the machine stays faithful and strictly fewer streams remain |
| Execute.TryAppend | eventcore/src/lib.rs:673-677 | an append attempt commits, meets a conflict that the store has with its writes, which is retried while retries are left and reported as `ConcurrencyError` after the last one, or gives up on a failed access; a commit is what the command run alone does, anything else leaves the store as found |
| Execute.RetriesUntilLeftAlone | eventcore/src/lib.rs:631-684 | if the first n attempts conflict, n within the retries, and the next one is left alone, then exactly n+1 attempts are made, and the result is success with n+1 if the command run alone accepts and a failure if it refuses |
| Execute.ConflictsExhaustRetries | eventcore/src/lib.rs:741-743 | if every attempt conflicts, retries plus one attempts are made and the result is `ConcurrencyError` with the retry setting |
| Execute.ConflictsAreNotReported | eventcore/src/execute_pipeline.rs:311-353 | a version conflict is never reported as an error of the store, unless the command itself answered with such an error |
| Execute.NextReadIsNew | eventcore/src/execute_pipeline.rs:149-185 | each stream taken off the queue is a new member of the finite universe, so reading ends |
| CachedExecute.ExecuteWithSnapshot | eventcore/src/lib.rs:687-747 | the cached executor makes the plain executor's claims attempt by attempt, retries and their reports included, with rivals saving snapshots of the same command in between; it leaves a snapshot that is faithful and covers the one it found, and after an undisturbed run the stored one is up to date unless the threshold was not met or it does not cover the old one |
| CachedExecute.HandleAndAppend | eventcore/src/lib.rs:716-746 | a success from reconstructed state did what the command run alone does to the store found at the append, a conflict is one with the writes decided on, and who gives up was refused by the command or met a failed access; on an undisturbed store the attempt ends as that run does |
| CachedExecute.SaveReplacement | eventcore/src/lib.rs:706-714 | whatever rivals saved meanwhile, a saved replacement is faithful and never replaces a vector it does not cover |
| CachedExecute.RivalSaves | eventcore/src/lib.rs:699-714 | any number of other executors that reconstruct and save leave a faithful snapshot that covers the one before |
| CachedExecute.FullReplayIsCurrent | eventcore/src/lib.rs:962-994 | the version map of a full replay matches the store it replays |
| Writes.BuildStreamWrites | eventcore/src/lib.rs:562-580 | registers every version, in any map order, then appends every event: the writes hold exactly these versions and events; or reports the first event whose stream has none |
| Writes.FirstUndeclared | eventcore-types/src/store.rs:88-112 | names the stream of the first event without an expected version, exactly when there is one |
| MemoryStore.InMemoryEventStore.AppendEvents | eventcore-memory/src/lib.rs:175-234 | stores the whole batch exactly when every expected version is current; otherwise changes nothing and reports a stream that moved |
| MemoryStore.InMemoryEventStore.FindConflict | eventcore-memory/src/lib.rs:184-208 | finds a conflict exactly when some expected version differs |
| MemoryStore.InMemoryEventStore.ReadStreamAfter | eventcore-memory/src/lib.rs:140-173 | returns precisely the events after the given version |
| MemoryStore.InMemoryEventStore.SaveSnapshot | eventcore-memory/src/lib.rs:249-267 | replaces a stored snapshot by one that covers it, stores a first one, and keeps a stored one that the new one does not cover |
| Streams.AppendAllPerStream | eventcore-memory/src/lib.rs:209-233 | a batch lands on each stream as exactly its own events, in order, at the end |
| Streams.OnStreamIsFiltered | eventcore-memory/src/lib.rs:209-233 | a stream's own events are a selection of the batch in its order: each event of the stream, and no other |
| Snapshots.FaithfulSnapshotMonotone | eventcore/src/lib.rs:756-839 | a faithful snapshot stays faithful as the store grows |
| Reconstruct.ReconstructCommandSnapshot | eventcore/src/lib.rs:756-874 | with a faithful snapshot the result stands for a complete read of the growing store; replacements are faithful and appear by the threshold rule; on an undisturbed store state and versions equal the full replay, and a stored snapshot is replaced exactly if one of its streams has grown; it fails only with an access |
| Reconstruct.FaithfulSnapshotIsValid | eventcore/src/lib.rs:876-919 | a faithful snapshot always passes the replay-order check |
| Reconstruct.SnapshotReplayOrderIsValid | eventcore/src/lib.rs:876-919 | the loop decides exactly whether the checkpoints retrace a complete legal discovery with the snapshot's versions last |
| Reconstruct.DiscoveryBeforeCheckpoint | eventcore/src/lib.rs:921-945 | rebuilds the discovery queue as it was before a checkpoint's stream |
| Reconstruct.FaithfulOrder | eventcore/src/lib.rs:880-910 | the checkpoints of a faithful trace lead through exactly its discovery |
| Reconstruct.ReplayRemainingStreams | eventcore/src/lib.rs:962-994 | replays everything still queued while others commit; what is in memory stands for the extended trace |
| Reconstruct.ApplyCommandStream | eventcore/src/lib.rs:996-1024 | folds the events of a stream after a base version and counts them |
| Reconstruct.CatchUp | eventcore/src/lib.rs:776-839 | walks the checkpoints in order to the first whose stream has grown and goes on from there; the result stands for a complete read, and on an undisturbed store the snapshot stands as it is, with no replacement, exactly if none has grown |
| Reconstruct.AdvancedRepresents | eventcore/src/lib.rs:800-835 | queue, visited set, versions and checkpoints prepared for a tail are those of the trace that ends in it |
| Delivery.ProjectionSource.ReadEnvelopes | eventcore-types/src/projection_delivery.rs:305-326 | a page is the first `limit` selected events of the range, in order |
| Delivery.ProjectionSource.HighWatermark | eventcore-types/src/projection_delivery.rs:294-302 | reports the greatest committed position, and nothing may appear at or below it afterwards |
| Delivery.SelectedExactly | eventcore-types/src/projection_delivery.rs:305-326 | the selected range holds each selected position once, ascending, and nothing else |
| ProjectionTables.ExactlyOnce | eventcore-postgres/src/projections/runner.rs:235-409 | in an exact destination the commits so far handled each selected event up to the durable progress exactly once, in delivery order |
| ProjectionTables.ExactAdvances | eventcore-postgres/src/projections/runner.rs:272-293 | committing the next selected event together with the progress row keeps the destination exact |
| ProjectionTables.ExactGrown | eventcore-types/src/projection_delivery.rs:277-284 | new events never disturb what was projected |
| ProjectionTables.SettledModelIsReplay | eventcore-postgres/src/projections/runner.rs:79-150 | without skips the model is the plain replay of the selected events up to a settled position, whatever retries, crashes or leaders led to it |
| ProjectionTables.ReplayAppliesInTurn | eventcore-postgres/src/projections/runner.rs:272-293 | that replay passes through one model per event, each made from the one before by the projector's effect, from the initial model |
| ProjectionTables.ReplayEqualsFirstRun | eventcore-postgres/src/projections/reset.rs:44-80 | a replay after a reset builds the model a first run builds |
| ProjectionRunner.ProcessEnvelope | eventcore-postgres/src/projections/runner.rs:235-364 | every result but a stop or an error means the position is durably handled; counts are the run's own commits; every error is explained: an access failed, or the projector decided so, exhaustion after retries plus one applications; if no access fails and nobody interferes, the first application that succeeds or is not to be retried decides the result, with the number of tries |
| ProjectionRunner.Attempt | eventcore-postgres/src/projections/runner.rs:271-363 | what each verdict of the projector leads to, and that failed applications leave nothing behind; a retry within the limit reopens and tries again unless an access failed or somebody else handled the position |
| ProjectionRunner.RetriesUntilApplied | eventcore-postgres/src/projections/runner.rs:309-363 | so k failed applications, k within the retries, each answered by retry, and then a good one make a processed event after k+1 tries |
| ProjectionRunner.ProjectionLeader.SkipPosition | eventcore-postgres/src/projections/runner.rs:366-409 | a skip moves only the progress row, once |
| ProjectionRunner.ProjectionLeader.AdvanceAndCommit | eventcore-postgres/src/projections/runner.rs:274-291 | a lost acknowledgement means committed or not, nothing between; other failures change nothing |
| ProjectionRunner.ProjectionLeader.OpenIfPending | eventcore-postgres/src/projections/runner.rs:427-458 | re-reads the progress row in the same transaction and proceeds only if the position is still ahead of it |
| ProjectionRunner.ProcessPage | eventcore-postgres/src/projections/runner.rs:184-195 | handles a page in order up to its end or to a stop, with exact counts |
| ProjectionRunner.DrainCycle | eventcore-postgres/src/projections/runner.rs:152-198 | caught up means every event committed when the cycle began is at or below the frontier and every selected one up to it is handled; every error is explained by a failed access or a decision of the projector |
| ProjectionRunner.RunWithLeader | eventcore-postgres/src/projections/runner.rs:79-150 | the destination is exact before, during and after; progress never goes back; outcomes and counts are true, errors are explained, a halt was decided by the projector, and a cancelled run had drained; a calm batch run finishes |
| ProjectionRunner.LoadValidatedProgress | eventcore-postgres/src/projections/runner.rs:200-233 | loads the position of a matching progress row and refuses foreign identities |
| ProjectionRunner.ResetWithLeader | eventcore-postgres/src/projections/reset.rs:82-139 | a committed reset leaves the initial model and no progress; a refused one changes nothing; a lost acknowledgement is one of the two |
| ProjectionRunner.Execute | eventcore-postgres/src/projections/store.rs:100-126 | one leader at a time; the lock ends with the run however it ends; a busy lock changes nothing; a batch run that finishes has handled everything committed when its last cycle began; every other error is explained by a failed access or a decision of the projector; a reset reports that it was one and leaves the initial model without progress |
| ProjectionRunner.Lifetime | eventcore-postgres/src/projections/runner.rs:62-77 | over any sequence of runs, crashes, takeovers and resets the destination stays exact, and without resets nothing handled is taken back |
| LegacyProjection.Run | eventcore/src/projection.rs:352-403 | a durable checkpoint implies that every selected event up to it was applied or skipped; checkpoints never decrease; each event is tried at most retries plus one times per run; a batch run without failures that no crash cuts short, with or without a checkpoint store, reads the page after its checkpoint, applies exactly that page in order and ends well |
| LegacyProjection.Lifetime | eventcore/src/projection_pipeline.rs:163-521 | the same over any number of runs, crashes and failed saves; if no save ever failed, only the last handled event lies above the checkpoint |
| LegacyProjection.CoveredIffNothingLate | eventcore-types/src/projection.rs:619-669 | if events commit wherever they like, a checkpoint stays true exactly if no selected one commits at or below it |
| LegacyProjection.ProjectionPipeline.Step | eventcore/src/projection_pipeline.rs:163-341 | every transition of the machine, with what each verdict does to history, phase and retries; it panics exactly in a phase that waits or is over |
| LegacyProjection.ProjectionPipeline.Resume | eventcore/src/projection_pipeline.rs:344-521 | takes any result in any phase: panics exactly on a kind the phase does not take, otherwise makes the source's transition; failed saves are ignored; polls fail only after the allowed consecutive failures |
| LegacyProjection.HandledIsGood | eventcore/src/projection_pipeline.rs:214-266 | handling the next event keeps durable safety: after a crash the next event handled is the unsaved one or, if all were saved, a later one |
| LegacyProjection.ReadPage | eventcore/src/projection_pipeline.rs:175-195 | the page is the first thousand, or all if there are fewer, of the selected events committed after the checkpoint |
| LegacyProjection.EmptyPageMeansNone | eventcore/src/projection_pipeline.rs:175-195 | a page is empty only if nothing selected is committed after the checkpoint |
| TransactionGraph.TransactionDepth | eventcore-fs/src/index.rs:67-89 | the memoised recursion computes the true depth and leaves only true depths in the memo |
| TransactionGraph.DepthIsLongestChain | eventcore-fs/src/index.rs:65-89 | the depth is the length of the longest chain of present ancestors |
| TransactionGraph.Linearize | eventcore-fs/src/index.rs:99-113 | the result holds every transaction once, sorted by depth and then by the recorded tie-breakers, for any iteration order of the map |
| TransactionGraph.CanonicalIsUnique | eventcore-fs/src/index.rs:91-98 | replicas that hold the same files compute the same order |
| TransactionGraph.OrderBreaksTies | eventcore-fs/src/index.rs:99-113 | earlier means less deep, or as deep and created earlier, or then of a smaller replica, or then of a smaller id |
| TransactionGraph.ParentsComeFirst | eventcore-fs/src/index.rs:91-98 | every present parent precedes its child |
| TransactionGraph.ComputeTips | eventcore-fs/src/index.rs:116-130 | the tips are the transactions nobody names as a parent, ascending |
| TransactionGraph.NewHeadIsDeepest | eventcore-fs/src/lib.rs:261-261 | a child of all tips is strictly deeper than every other transaction and becomes the only tip |
| TransactionGraph.NewHeadIsLast | eventcore-fs/src/lib.rs:319-345 | so appending it to the canonical order is the canonical order of the larger set |
| FileIndex.IndexEvents | eventcore-fs/src/index.rs:147-182 | one walk in canonical order groups streams and sorts the view; old numbers are kept, and the events without one get consecutive numbers above the largest, in canonical order |
| FileStore.FileEventStore.Open | eventcore-fs/src/index.rs:232-264 | opening builds the index of the directory, streams in canonical order, and persists numbers for events that had none |
| FileStore.FileEventStore.AppendEvents | eventcore-fs/src/lib.rs:228-348 | after an append, also one that follows merges, the index is that of a rebuild of the enlarged directory and log, and each stream is as right or wrong as before; the file has all tips as parents, the expected versions as bases and contiguous versions; refusals change nothing |
| FileIndex.IndexIsDetermined | eventcore-fs/src/index.rs:132-195 | files and log determine the whole index, so incremental equals rebuilt |
| FileIndex.OfIsFiltered | eventcore-fs/src/index.rs:156-172 | a stream of the index is the selection of the walked events that belong to it, in their order |
| FileIndex.FlatIsInOrder | eventcore-fs/src/index.rs:143-160 | the walk takes the transactions one after another, each with its events in order |
| FileIndex.UnloggedIsFiltered | eventcore-fs/src/index.rs:160-178 | the events that get new numbers are exactly those without one, in the order of the walk |
| FileStore.BuildEnvelopes | eventcore-fs/src/index.rs:201-230 | each event's recorded version is its stream's head plus its place in the batch |
| FileStore.BuiltVersions | eventcore-fs/src/index.rs:197-230 | the recorded versions are the events' places in their streams |
| FileIndex.ViewGrowsIffLogDoes | eventcore-fs/src/index.rs:150-156 | the ingestion view of a larger directory extends the old one at its end, whatever a merge brought in and whatever order the streams are in, exactly if the log extends the old one |
| FileIndex.ViewIsLog | eventcore-fs/src/index.rs:180-182 | readers see every event once, in the order and under the numbers of the log |
| FileStore.MergeAndReopen | eventcore-fs/src/index.rs:232-264 | after a union of files and a reopen the cursor view is the old one with the new events at its end, and the streams are those of a rebuild again |
| FileStore.ReopenFrom | eventcore-fs/src/lib.rs:339-345 | if any subsequence of the handed out numbers was persisted, a union and a reopen extend the view exactly if nothing moves: what was persisted is a first part of the log, and the canonical order of the events without a number begins with the lost ones in order; after appends alone, persisted up to some moment, the view is the same |
| FileStore.LogGrowsIff | eventcore-fs/src/index.rs:147-182 | the condition, on the logs |
| FileStore.HandsOutNext | eventcore-fs/src/lib.rs:320-345 | an append adds to the log what a reopen from an earlier log would hand out again |
| FileStore.PersistedHandsOutAgain | eventcore-fs/src/ingestion.rs:58-99 | from a log that was persisted in full a reopen hands out nothing new |
| LostNumbers.FailedPersistThenAppend | eventcore-fs/src/lib.rs:339-345 | a concrete life: of two appends only the second persists its entry, and after the reopen the first event stands behind the second under a new number |
| LostNumbers.FailedPersistThenUnion | eventcore-fs/src/lib.rs:339-345 | a concrete life: an unpersisted append, a union with a file that sorts before it, a reopen; the number now belongs to the other event |
| FileStore.FileEventStore.WriteMergeTransaction | eventcore-fs/src/lib.rs:653-750 | in any state of the index: headers, tips, log and view are those of a rebuild, and a stream is exactly if it was before and, in case the merge wrote it, no transaction that sorts after the merge in the new canonical order did |
| FileIndex.MergedStreamMatchesIff | eventcore-fs/src/lib.rs:729-741 | taking a transaction in last agrees with a rebuild, which takes it at its canonical place, on exactly the streams that agreed before and that, if it wrote them, none that sorts after it wrote |
| FileIndex.InsertedInOrder | eventcore-fs/src/index.rs:91-113 | a transaction that nothing refers to takes one place in the canonical order and leaves the others in theirs |
| FileIndex.IngestionLog.constructor | eventcore-fs/src/ingestion.rs:58-85 | loading the log gives each event its number and the next number above all of them |
| FileIndex.IngestionLog.Allocate | eventcore-fs/src/ingestion.rs:94-99 | allocates the next number once and records it |
| FileCursor.ReadEvents | eventcore-fs/src/lib.rs:449-505 | a page is the first wanted entries after the cursor, as many as there are up to the limit, in view order |
| FileCursor.NeverSkipsNorRepeats | eventcore-fs/src/lib.rs:473-501 | across growth and paged reads, what was delivered is exactly the wanted part of the view up to the cursor |
| FileCursor.DrainedReaderSawEverything | eventcore-fs/src/lib.rs:473-501 | a reader that drains was delivered every wanted event exactly once, in view order |
| FileCursor.StoreViewsAreLegal | eventcore-fs/src/ingestion.rs:1-18 | the views of a store over any sequence of appends, merge transactions, unions and reopens, with a reader polling in between, are a legal reading |
| FileCursor.DrainedReaderSawTheDirectory | eventcore-fs/src/lib.rs:449-505 | after any such life a drained reader was delivered every wanted event of the directory, each exactly once, and no other |
| FileCursor.PositionFromSeq | eventcore-fs/src/ingestion.rs:48-52 | eight big-endian bytes of the number, eight zero bytes |
| FileCursor.DigitsGiveNumber | eventcore-fs/src/ingestion.rs:48-52 | the digits are bytes, and reading them back gives the number |
| FileCursor.PositionsFollowSequence | eventcore-fs/src/ingestion.rs:44-52 | position order is number order, and no event has the nil position |
| Forks.IsAncestor | eventcore-fs/src/merge.rs:208-228 | the stack walk decides reachability through parent links |
| Forks.ForkIsResolved | eventcore-fs/src/merge.rs:232-238 | decides whether some transaction descends from every head |
| Forks.CheckReplicaCollisions | eventcore-fs/src/merge.rs:272-301 | reports a conflict exactly when two transactions of one replica are unrelated |
| Forks.DetectForks | eventcore-fs/src/merge.rs:303-346 | reports every unresolved group of two or more claimants of a base once, in the order of stream and base, and nothing else |
| Forks.TipIsUnresolved | eventcore-fs/src/merge.rs:230-238 | a group that contains a tip is never resolved |
| Forks.MergeKeepsChainIff | eventcore-fs/src/lib.rs:653-699 | a merge transaction keeps its replica's transactions one chain exactly when every earlier one is below a head it joins |
| Forks.TwoMergesCollide | eventcore-fs/src/lib.rs:577-606 | two merge transactions of one replica below heads that were there before leave its transactions no chain |
| ReplicaHistory.AncestorsAreSeen | eventcore-fs/src/lib.rs:261-261 | in every history of appends and unions a transaction's ancestors are exactly what its replica had indexed |
| ReplicaHistory.AppendIsLegal | eventcore-fs/src/lib.rs:228-348 | what `append_events` leaves behind is a step of such a history, and the replica's directory is its view |
| ReplicaHistory.NoCollisions | eventcore-fs/src/merge.rs:265-301 | such histories never trip the replica-identity check |
| ReplicaHistory.MergeIsGenuine | eventcore-fs/src/lib.rs:662-741 | what `write_merge_transaction` leaves behind is a step of a genuine history, in which transactions have any parents that their writer held |
| ReplicaHistory.AncestorsWereSeen | eventcore-fs/src/lib.rs:662-741 | in every genuine history, of appends, merges and unions, a transaction's ancestors are among what its replica had indexed |
| ReplicaHistory.BaseExceedsWriters | eventcore-fs/src/lib.rs:262-265 | in every genuine history a recorded base exceeds that of everything its writer had indexed that wrote the stream, ancestors above all |
| ReplicaHistory.ForkWritersAreConcurrent | eventcore-fs/src/merge.rs:320-334 | in every genuine history members of a reported fork that wrote its stream are pairwise concurrent |
| ReplicaHistory.DivergenceIsReported | eventcore-fs/src/merge.rs:303-346 | two replicas of a genuine history that share what they know go offline, append and merge any number of times and unite: if some transaction of each since then wrote a stream, a fork at the shared head is reported |
| ReplicaHistory.FirstWritersFork | eventcore-fs/src/merge.rs:303-346 | that fork has the first writers of both replicas in it |
| ReplicaHistory.ForkIffUnseen | eventcore-fs/src/merge.rs:230-238 | a fork is reported exactly on a base that several transactions claim and that no transaction was written after having indexed them all |
| ReplicaHistory.SingleWriterForkIff | eventcore-fs/src/merge.rs:30-34 | in a genuine history whose newest transaction is an append of a replica that knew everything, a fork is reported exactly on bases it registers and somebody registered before, so single-writer histories can fork |
| ReplicaHistory.WritersOnlyNoForks | eventcore-fs/src/merge.rs:30-34 | no such fork is reported if every transaction writes every stream it registers |
| ReplicaHistory.ReadOnlyRegistrationForks | eventcore-fs/src/lib.rs:262-265 | a concrete single-writer history that is reported as a fork because both transactions only read a stream |
| ReplicaHistory.HeadIsWritten | eventcore-fs/src/index.rs:47-49 | the stream head in the index is the number of events the files hold for it |
| Reconcile.ReconcileForks | eventcore-fs/src/lib.rs:577-606 | every reported fork is put to the resolver, once, in order; each settled one gets a new merge transaction with its heads as parents and the resolver's events; the report counts the settled forks, which is the number of transactions added, and lists the streams of the others; the replica's transactions stay one chain exactly if none was settled, or one whose heads stand above all it wrote; the view only grows and no stream becomes right; a genuine history stays one |
| Reconcile.ReportTells | eventcore-fs/src/lib.rs:583-606 | the report counts exactly the forks that the resolver settles and lists the streams of exactly the others, in order |
| Reconcile.MergesAreCounted | eventcore-fs/src/lib.rs:583-606 | as many transactions are added as forks were settled |
| Reconcile.SettledForksAreResolved | eventcore-fs/src/merge.rs:230-238 | each settled fork is resolved from then on in every larger history |
| Reconcile.TwoForksInOnePass | eventcore-fs/src/lib.rs:577-606 | a concrete legal history with two reported forks of which any two merges by the uniting replica break its identity check |
| Reconcile.MergeMovesOnRebuild | eventcore-fs/src/lib.rs:729-741 | a concrete legal history in which merging the heads of a reported fork keeps the identity check but leaves the stream in memory unlike the rebuilt one |
| Provenance.CheckReferences | eventcore/src/model.rs:632-776 | accepts exactly the models whose names are sound, whose fields all have an accepted assumption or producers that read known fields, and whose every cycle is carried over by a seeded temporal source into the field that the walk by name discovers first; acceptance gives an order of provenance; the status says whether an assumption was needed; the reported diagnostics are exactly the real defects |
| Provenance.CheckerEvaluation.IsComplete | eventcore/src/model.rs:797-936 | the memoised walk discovers what the plain depth-first walk discovers and finishes all of it; without an error what is finished is an order of provenance, and errors name real defects |
| Provenance.CheckerEvaluation.CheckSource | eventcore/src/model.rs:880-927 | one source: unknown, closing a real cycle into its first discovered field as ordinary or unseeded, carried over with a seed, or established |
| Provenance.CheckerEvaluation.CheckAssumptions | eventcore/src/model.rs:826-857 | accepted exactly when some boundary of the field is allowed |
| Provenance.BuildGraph | eventcore/src/model.rs:656-697 | groups descriptors and raises an error exactly for duplicate names or unknown targets, under the name of the offender |
| Provenance.RegisteredInOrder | eventcore/src/model.rs:668-678 | a target's recipes and assumption names are exactly those registered for it, in their order |
| Provenance.LastRegistrationHolds | eventcore/src/model.rs:668-671 | a field is modeled exactly if it is registered, with the root flag of its last registration |
| Provenance.SourceCloses | eventcore/src/model.rs:905-925 | a source found on the path really closes a cycle of producers, and the cycle was entered at the field it names |
| ProvenanceGraph.WitnessGrounds | eventcore/src/model.rs:797-936 | without temporal sources an order of provenance gives ranks that ground every field |
| ProvenanceGraph.GroundedIsSourced | eventcore/src/model.rs:797-936 | a model whose fields can all be ranked above what they read is accepted, whatever the names |
| ProvenanceGraph.FinishedIsSafe | eventcore/src/model.rs:880-931 | a walk that finishes every field in an order of provenance has entered every cycle where it is carried over |
| ProvenanceGraph.AcceptedUnderAnyNames | eventcore/src/model.rs:704-716 | a model is accepted whatever order its fields are visited in if and only if every source that closes a cycle is temporal and seeded |
| ProvenanceGraph.TheNamesDecide | eventcore/src/model.rs:704-716 | `a` made from the previous `b`, and `b` made from `a`, are accepted exactly when the name of `b` comes first |
| Provenance.JustifiedRefutes | eventcore/src/model.rs:797-936 | a diagnostic that names a real defect rules acceptance out |
| Provenance.DefectsAreTold | eventcore/src/model.rs:797-936 | a finished walk has reported every defect: each unknown source, each missing producer, each refused assumption and each cycle entered the wrong way |
| LockedAppend.RefinesAtomicAppend | eventcore-postgres/src/lib.rs:334-413 | whatever the lock hash, concurrent locked appends amount to atomic compare-and-appends in commit order |
| LockedAppend.CheckRefusesIff | eventcore-postgres/src/lib.rs:544-573 | a check refuses exactly if the present length of the next stream differs from the expected version, and then names the stream and both numbers; otherwise it goes on to the next stream |
| LockedAppend.RefusedHadConflict | eventcore-postgres/src/lib.rs:559-573 | in every run a refused batch had, at some moment, a stream of another length than it expected, and the refusal names it |
| LockedAppend.MatchingBatchCommits | eventcore-postgres/src/lib.rs:334-413 | in every run a batch whose versions match all the while is never refused, and is committed exactly when it has taken a lock and a check for each stream and one more step |
| LockedAppend.AloneIsDecided | eventcore-postgres/src/lib.rs:334-413 | with every other transaction finished, a batch can be carried through: to its commit if its versions match, to a refusal that names a differing stream otherwise |
| LockedAppend.CommitKeepsInv | eventcore-postgres/src/lib.rs:520-528 | no checked stream has moved by the time of the commit |
| LockedAppend.DeadlockFreeIff | eventcore-postgres/src/lib.rs:529-542 | locking in stream order never deadlocks exactly when streams that share a lock key have no stream with another key between them |
| LockedAppend.DistinctKeysAreInRuns | eventcore-postgres/src/lib.rs:529-542 | distinct lock keys meet that condition |
| LockedAppend.CollisionDeadlocks | eventcore-postgres/src/lib.rs:529-542 | three streams whose outer two share a key let two appends block each other |
| StringOrder.SortNames | eventcore-postgres/src/lib.rs:533-534 | the declared streams in string order, each once |
| StringOrder.FirstDifferenceDecides | eventcore-postgres/src/lib.rs:533-534 | a string comes before its continuations, and otherwise the first difference decides |
| Glob.GlobToAnchoredRegex | eventcore-postgres/src/projections/source.rs:276-327 | the character loop produces the anchored translation of every glob |
| Glob.TranslationPreservesMeaning | eventcore-postgres/src/projections/source.rs:276-327 | for literals, wildcards and simple brackets the text parses exactly if no range runs downwards, and then to an expression that accepts exactly the stream ids the glob accepts |
| Glob.ReversedRangeIsRefused | eventcore-postgres/src/projections/source.rs:276-327 | `[z-a]` is translated into text that is no regular expression |
| Glob.UnclosedBracketMeansItself | eventcore-postgres/src/projections/source.rs:276-327 | a bracket that is never closed and the plain text after it become an expression that accepts exactly that text |
| Glob.PiecesAreReadBack | eventcore-postgres/src/projections/source.rs:282-322 | the produced text parses back to one piece per glob element, or not at all if a range runs downwards |
| Glob.PiecesAcceptTheSame | eventcore-postgres/src/projections/source.rs:284-285 | the pieces accept what the glob elements accept |

## Left out

- Snapshot serialization: a snapshot holds its state directly, as the round trip that
  `eventcore-types/src/command.rs:228` asks for permits; (de)serialization errors are not modelled.
- Event decoding in the executor and the file store: payloads are opaque and always decode; a read
  failure is one undifferentiated store failure.
- Backoff, jitter, sleeping times, metrics hooks and tracing; a sleep is a step at which others may act.
- Commands that share a snapshot id share their logic, as `eventcore-types/src/command.rs:214-218` asks.
- Integer widths of versions, positions and local sequence numbers, except the attempt counters and the
  byte encoding of positions.
- Reconstruct.CatchUp: the reads that a checkpoint saves are not counted, only what the result stands for.
- A command names streams from a finite universe, which is what makes discovery end.
- Empty batches on the PostgreSQL and SQLite backends return before the version check;
  `LockedAppend` models non-empty ones, `FileStore` and `MemoryStore` model both.
- SQL text, pools, migrations and the delivery-frontier tables: a transaction commits atomically, an
  advisory lock is exclusive, and the source keeps the contract of its trait.
- ProjectionRunner.RunWithLeader: a continuous run ends at the idle wait at which its cancellation is
  observed, whichever that is.  A run that is never cancelled is not a run of the model, but at each of
  its idle waits it is where the run that is cancelled there ends.
- ProjectionRunner.Lifetime: other leaders may commit while a run holds the lock, which is more than the
  lock allows; a reset by somebody else during a run is excluded by the lock.
- LegacyProjection.Run: nothing commits at or below a page already read, which the reader's trait does
  not promise; `Context` of the projector is not modelled; the run reads one page of a thousand events
  per poll, and a batch run stops after one page.
- TransactionGraph.Linearize: `created_at` strings are compared as numbers in the same order, and headers
  are acyclic (`rank` is the order of creation).
- FileStore.FileEventStore.Open: files are never deleted or edited, event ids are fresh, the log names
  only events that are present, and writing files succeeds; a log that was not persisted is in
  `FileStore.ReopenFrom`, without the failure that the append then reports; fsck, fsync, renames and replica identity files are not modelled.
- Reconcile.ReconcileForks: the resolver is a function of the fork, because the branch events it is shown
  are read from files that never change; reading them and writing the merge files succeeds.
- ReplicaHistory.AncestorsAreSeen: histories of appends and unions only, and `NoCollisions` and
  `ForkIffUnseen` with it; a merge transaction has a fork's heads alone as parents, so its ancestors need
  not be all that its writer had indexed.
- FileCursor.ReadEvents: an event that does not decode takes a place in a page and is dropped in the source;
  here all decode.
- Forks.DetectForks: stream names in headers are always valid, and dangling parents are only absent edges;
  `detect_dangling_in` and `status` are easy members.
- Provenance.CheckReferences: messages, traces, locations, warnings and the order of the reported
  diagnostics are not modelled.
- Provenance.BuildGraph: duplicate names and registrations are checked in separate loops, and sources and
  their temporal flags are one list of pairs.
- Glob.TranslationPreservesMeaning: brackets with `]` or `-` as ordinary members, named classes
  and the recursive `**` of file globs have another meaning in one of the two notations.
- LockedAppend.RefinesAtomicAppend: chunked inserts and the version trigger are one commit step.
- SQLite's append, prefix filters with `LIKE`, the derive macros, typed builders, the demo bank, benches and
  test helpers add only easier members or none.
