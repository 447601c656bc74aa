# Bulk actions: a verified model of the execution protocol

A bulk action updates or deletes many entities of one account. A planner cuts the target set into
batches; any number of workers execute batches, each behind a token-bucket gate, with a shared
de-duplication ledger, shared counters and a guarded final transition. This project models that
protocol in Dafny and proves what it keeps, over every interleaving, redelivery, crash and outside
write. `dafny verify dfyconfig.toml` checks all of it.

## How the model is built

| module | what it is |
|---|---|
| `Domain` | statuses, outcomes, entity rows, configurations, planned batches |
| `TokenBucket` | the Lua token bucket in exact integers (units of 1/60000 token), as a class and as functions |
| `Planning` | keyset walk, explicit-id chunks, batch-size clamp |
| `Dedup`, `KeyOrder`, `LedgerLocks` | key normalisation, claims against sequential first occurrence; the sorted insertion order; the ledger insert row by row with its waits |
| `Handlers`, `BatchRunner`, `Scope`, `Effects` | the two action handlers and the batch pipeline; what an action can reach, and what it does to the rows |
| `BatchedMeaning`, `DedupOrder` | what a set of batches means as a whole |
| `Store`, `InPlace` | the control-plane transactions, as functions on tables and as methods that update the tables in place |
| `Protocol` | the state machine: planners, jobs with a program counter each, cancellers, outside writers |
| `Lifecycle`, `OnePass`, `Closing`, `Finishing`, `Finalisation`, `Reopening`, `AccountingGuard`, `BatchSizes`, `Replanning`, `StableRuns`, `Passes`, `Walking`, `Alone`, `LogBook`, `DedupRuns`, `OwnClaims`, `Throughput`, `RowThroughput` | theorems over all runs of the state machine |
| `Counterexamples`, `LostEntity`, `Overrun` | concrete runs that show why the run conditions are needed |
| `ReadModels`, `Sums` | stats breakdowns and log paging; sums over finite maps |

One protocol step is one `session_scope` block, or one decision between two blocks. An event that
is not possible leaves the state unchanged, which is also what a rolled-back transaction does; a
job or a planner may disappear between any two steps; a delivery may happen for any index at any
moment and any number of times, which covers duplicate, deferred and retried jobs.

### Assumptions

- **Atomic blocks.** Each `session_scope` block is one atomic step of `Protocol`. The status reads
  at app/workers/tasks.py:69-85 and 280-287 take no row lock, so this is a real assumption there.
  For the ledger insert it is not assumed: `LedgerLocks` splits the insert into single rows with
  waits and proves that each transaction claims what it would have claimed had the insert been
  atomic at its commit.
- **One accounting per batch**, named `AccountedOnce`, wherever a theorem lists it. The code does
  not enforce it: `_mark_batch_failed` has no status guard, and an exception in the block after a
  committed batch reaches the same handler. `Counterexamples.DoubleAccountingClosesEarly` is a run
  that breaks it, and `AccountingGuard.OnceExactlyWhenGuarded` gives the exact test on the batch row
  that would enforce it.
- **One planning pass**, `plansOpened <= 1`, where a theorem lists it (`Regular` is this together
  with the previous one). For explicit ids, and for page reads that see one target set,
  `StableRuns` does without it.
- **Clock.** Where a theorem says so, no caller's clock is behind the stored timestamp; key expiry
  happens on the same clock.
  `TokenBucket.ClockSkewBreaksBound` shows the rate bound false without it, and
  `TokenBucket.WindowBoundAnyClock` is the bound that holds for every clock.
- **Fixed limit.** An account's limit does not change during a run.

### Where the code differs from its documentation

- README.md:571 says an action with a batch that fails every retry still finalises, and README.md:564
  that redelivery is harmless. Both hold only with a finalise block that runs late enough: batch
  jobs are enqueued before `mark_started`, so workers that finish first leave the action in
  `processing` for ever (`Counterexamples.FastWorkersStrandTheAction`,
  `Finalisation.StrandedForever`). `Finalisation.FinishesExactlyWhen` is the exact condition.
- README.md:566 says re-planning converges. It does for explicit ids; for a filter it does when the
  page reads see the same target set (`Replanning.ReplanningConverges`), which one pass without
  outside writers always does (`Alone.AloneIsStable`). Otherwise it can complete an action over a
  leftover batch (`Counterexamples.ChangedTargetLeavesOldRows`), or, with no outside writer at all,
  leave a target in no batch (`LostEntity.ReplanningLosesAnEntity`).
  `Passes.PassConvergesExactlyWhen` is the exact condition for one pass.
- README.md:504-507 reads the bucket as "no account exceeds its limit per minute". The bound the
  script keeps is the limit plus the refill of the window (`TokenBucket.WindowBound`); a full bucket
  spends both within one minute (`TokenBucket.FreshMinuteAdmitsTwice`), and
  `TokenBucket.MinuteKeepsLimitExactlyWhen` says when a minute does stay within the limit.
- app/services/batch_runner.py:6 lists a cancellation check as the first stage of the batch
  pipeline. `run_batch` has none and app/services/progress.py:132-137 has no caller; only pre-flight
  looks at the action's status, which is what `Lifecycle.CancellationBoundary` is about.
- app/services/rate_limiter.py:5-8 says the limit caps real throughput. It caps planned counts
  (`Throughput.ThroughputBound`). Rows that another writer adds inside a planned range run on the
  batch's admission (`Overrun.OutsideRowsOverrunTheLimit`); the rows themselves are within the bound
  as long as no commit loads more than was planned (`RowThroughput.RowBoundWhenNothingExtra`), which
  needs an outside writer to fail (`RowThroughput.RowBound`).
- app/services/bulk_action_service.py:266-270 pages the log by id. Ids are drawn inside the batch
  transaction, so a reader of a running action can pass rows that become visible later
  (`ReadModels.LateRowsAreLost`); `ReadModels.PagesCompleteExactlyWhen` is the exact condition.

One comment that looks wrong is right: app/services/dedup.py:17-19 says a key may have been claimed by
an earlier attempt of the same batch. An attempt that rolls back leaves no claim, but one that commits
and is then marked failed by a late exception does, and its redelivery loses to it
(`OwnClaims.BatchLosesToItsOwnClaim`).

## Model

| member | source | states |
|---|---|---|
| `TokenBucket.Bucket.Consume` | app/services/rate_limiter.py:95-122 | the in-place call: new stored state, verdict, remaining tokens and wait, on the early exit for nothing asked, the unsatisfiable request, the admission and the denial |
| `TokenBucket.Bucket.Peek` | app/services/rate_limiter.py:141-150 | peek reports exactly the threshold at which a call at that time would be admitted |
| `TokenBucket.TokensStayInRange` | app/services/rate_limiter.py:50-63 | tokens stay between 0 and capacity over every sequence of requests and key expiries and every clock |
| `TokenBucket.Conservation` | app/services/rate_limiter.py:50-65 | over requests of every size and key expiries, tokens left plus tokens given never exceed tokens at the start plus refill for forward clock movement |
| `TokenBucket.WindowBoundAnyClock` | app/services/rate_limiter.py:50-65 | any window of requests of every size, with key expiries, admits at most the limit plus the refill for its forward clock movement, whatever the clocks do |
| `TokenBucket.WindowBound` | app/services/rate_limiter.py:36-67 | under a monotone clock any window of d ms, anywhere in any run, for every sequence of requests, admits at most limit + limit * d / 60000 |
| `TokenBucket.ClockSkewBreaksBound` | app/services/rate_limiter.py:50-63 | three calls with one late clock admit twice the limit at one instant, so the window bound needs the clock assumption |
| `TokenBucket.MinuteKeepsLimitExactlyWhen` | README.md:504-507 | the minute from t on stays within the limit, whatever is asked for, if and only if the bucket holds less than one token at t |
| `TokenBucket.FreshMinuteAdmitsTwice` | README.md:480-482 | a fresh bucket admits twice its limit within sixty seconds, so the per-minute promise fails on a full bucket |
| `TokenBucket.DenialsAndExpiryInvisible` | app/services/rate_limiter.py:56-65 | from any state, a run and the run of its admitted requests alone lead to buckets no later call can tell apart, denials and key expiries dropped, and both admit exactly what those requests ask for |
| `TokenBucket.DeferralSuffices` | app/services/rate_limiter.py:60-81 | a denied satisfiable request is admitted after the wait it was told, at most 60050 ms, if nobody else consumes; and no wait more than 50 ms shorter is enough |
| `Planning.EffectiveBatchSize` | app/services/batching.py:46-55 | size is between 1 and the platform maximum, never above the account limit; an admissible request is kept, a missing or zero one is the default clamped, one too large is cut to the bound |
| `Planning.Page` | app/services/batching.py:112-117 | ORDER BY id LIMIT n: the n smallest ids in order, all of them when fewer than n come back |
| `Planning.PlanFromFilter` | app/services/batching.py:106-132 | the keyset loop terminates and yields a walk over whatever sets its page reads saw |
| `Planning.WalkAscends` | app/services/batching.py:108-132 | under any concurrent change the ranges are disjoint and strictly ascending, none empty or oversized |
| `Planning.WalkCovers` | app/services/batching.py:108-132 | an id in the target set at every page read lies in exactly one planned range |
| `Planning.WalkOfConstant` | app/services/batching.py:108-132 | when all reads see one set, the loop yields the declarative keyset plan of that set |
| `Planning.KeysetPlanCovers` | app/services/batching.py:108-132 | the plan of an unchanging set owns each id exactly once and its counts add up to the set's size |
| `Planning.PlanFromIds` | app/services/batching.py:149-160 | the chunking loop yields the chunk plan of the distinct ids in first-occurrence order |
| `Planning.ChunksPartition` | app/services/batching.py:149-160 | chunks partition the distinct ids: each in exactly one, nothing else in any, sorted, sizes bounded, counts adding up |
| `Planning.ChunksFull` | app/services/batching.py:152-153 | every chunk but the last holds exactly batch_size ids |
| `Planning.DistinctKeepsOrder` | app/services/batching.py:150 | de-duplicating the ids keeps first occurrences in their order |
| `Dedup.NormaliseIsCanonical` | app/services/dedup.py:39-42 | a key is non-empty, trimmed and lower-case |
| `Dedup.KeyOfTrimmed` | app/services/dedup.py:41-42 | a text with no white space at its ends has a key of its own length, letter for letter itself with capitals made small |
| `Dedup.SameKeyExactlyWhen` | app/services/dedup.py:34-38 | two such texts share a key iff they agree letter by letter up to case |
| `Dedup.HasCore` | app/services/dedup.py:41 | every text is white space, such a core and white space, and its key is its core's |
| `Dedup.NoKeyExactlyWhen` | app/services/dedup.py:39-42 | only a missing value and a blank text have no key |
| `Dedup.NumbersDiffer` | app/services/dedup.py:41 | different numbers have different keys |
| `Dedup.NormaliseIdempotent` | app/services/dedup.py:33-42 | normalising a key gives the same key |
| `Dedup.PaddingIgnored` | app/services/dedup.py:36-41 | surrounding white space never changes a key |
| `Dedup.FirstAppend` | app/services/dedup.py:94-105 | de-duplicating two lists in turn with the seen keys carried over is de-duplicating their concatenation |
| `Dedup.FirstCounts` | app/services/dedup.py:94-105 | there is exactly one winner per key not seen before |
| `Dedup.GroupByKey` | app/services/dedup.py:62-72 | the grouping loop: keys in first-occurrence order, each with its rows in order, keyless rows apart |
| `Dedup.HeadsAreFirst` | app/services/dedup.py:97-105 | picking the head of every claimed group in dictionary order is sequential first-occurrence de-duplication |
| `Dedup.PartitionDuplicates` | app/services/dedup.py:55-109 | the whole split of a batch against the ledger, and that every key of the batch is in the ledger afterwards |
| `Dedup.SplitIsPermutation` | app/services/dedup.py:94-109 | unique rows and duplicates together are a permutation of the loaded rows |
| `LedgerLocks.WaitForGraphAcyclic` | app/services/dedup.py:77-92 | no chain of waits over ledger keys closes into a cycle, in any reachable state of any number of transactions |
| `LedgerLocks.Progress` | app/services/dedup.py:77-92 | while any transaction is in flight, some transaction can insert its next key or commit |
| `LedgerLocks.ClaimsAreSerial` | app/services/dedup.py:84-92 | the i-th transaction to commit claims exactly its keys that no earlier commit carried, and rolled-back ones leave no claim |
| `KeyOrder.BatchKeysSorted` | app/services/dedup.py:84-88 | sorting the grouped keys of a batch gives a strictly sorted list of exactly its keys, which is the order every transaction inserts in |
| `Handlers.EntityStore.ExecuteUpdate` | app/domain/actions/bulk_update.py:101-157 | the update loop in place, said row by row: a loaded row that lacks a new value and is in the table gets exactly the updated fields (and its time stamp) and is reported updated, one that has them is left alone and reported so, one that is gone is a failure, and no other row changes |
| `Handlers.EntityStore.ExecuteDelete` | app/domain/actions/bulk_delete.py:92-136 | hard or soft delete in place, said row by row: a loaded row in the table is removed, or kept with its values and marked with the time, and reported deleted; one that is gone is a failure; no other row changes |
| `Handlers.UpdateMeans` | app/domain/actions/bulk_update.py:112-157 | the same for the update statement and its reports as functions, which batches and runs are built from |
| `Handlers.DeleteMeans` | app/domain/actions/bulk_delete.py:99-136 | the same for delete |
| `Handlers.HandlerTotal` | app/domain/actions/bulk_update.py:112-157 | a handler names every row it was given exactly once, whatever the table holds |
| `BatchRunner.LoadRowsFacts` | app/services/batch_runner.py:72-77 | loading returns exactly the batch's selected rows, each once, in id order |
| `Scope.LoadsExactly` | app/services/batch_runner.py:58-70 | a row is loaded iff it is the account's, not a soft-deleted one the action does not ask for, and named by the batch (filter or not) or inside its range and matching the filter |
| `Scope.TargetsExactly` | app/domain/filters.py:102-118 | the target set of a filter is the account's matching rows without the soft-deleted ones, unless the action asks for those or the entity has none |
| `Scope.NothingOutOfScopeLoaded` | app/services/batch_runner.py:51-53 | no batch loads a row of another account, or a soft-deleted row it did not ask for |
| `Scope.OutOfScopeUntouched` | app/services/batch_runner.py:58-70 | over every run without outside writes, from any state, such a row stays exactly as it was |
| `BatchRunner.ExplicitLoadsAtMostItsIds` | app/services/batch_runner.py:58-64 | an explicit batch never loads more rows than the ids it names |
| `BatchRunner.SplitBatchPermutes` | app/services/batch_runner.py:113-129 | with or without de-duplication, rows passed on plus duplicates are a permutation of the loaded rows |
| `BatchRunner.OutcomesTotal` | app/services/batch_runner.py:96-140 | a batch emits exactly max(entity_count, loaded) outcomes, naming every loaded row exactly once, the rest being the anonymous drift records |
| `BatchRunner.SkippedReasons` | app/services/batch_runner.py:101-129 | duplicates are skipped with the reason of their key field, and every anonymous outcome is an entity that left the target set |
| `Effects.UpdateBatchMeans` | app/domain/actions/bulk_update.py:112-157 | one batch of an update: rows handed to the handler carry the new values and are otherwise the same, with the report that fits, and no other row changes |
| `Effects.DeleteBatchMeans` | app/domain/actions/bulk_delete.py:99-136 | one batch of a delete: rows handed to the handler are gone, or kept and marked, reported deleted, and no other row changes |
| `Effects.SecondRunChangesNothing` | app/domain/actions/bulk_update.py:110-123 | the same update batch run again writes nothing and reports only no_change |
| `BatchedMeaning.TouchesOnlyOwned` | app/services/batch_runner.py:58-70 | a batch changes no row outside its ids or range |
| `BatchedMeaning.FindsOriginalRows` | app/services/batch_runner.py:58-77 | with disjoint batches, one that has not run yet still loads what it would have loaded at the start |
| `BatchedMeaning.AnyOrderIsOneStatement` | app/services/batching.py:106-132 | for any table, filter and batch size, running each planned range batch once in any order leaves the table one statement over the target set leaves, statement times aside |
| `BatchedMeaning.AnyOrderOfIdsIsOneStatement` | app/services/batching.py:149-160 | the same for explicit ids, with repeated, unknown and foreign ids included |
| `DedupOrder.RunIsSequential` | app/services/dedup.py:94-105 | batches run in any order de-duplicate the concatenation of their loads: which keyed rows win, that keyless rows pass, that the rest is skipped, and the ledger at the end |
| `DedupOrder.CountsDoNotDependOnOrder` | app/services/dedup.py:33-42 | every complete order passes as many rows as there are distinct keys and keyless rows in the target set, and skips the rest |
| `Store.InsertBatchesKeeps` | app/workers/tasks.py:95-100 | inserting batch rows adds exactly the missing indices and leaves existing rows alone |
| `Store.InsertBatchesAppend` | app/workers/tasks.py:136-140 | flushing in groups is inserting once |
| `InPlace.Database.OpenPlan` | app/workers/tasks.py:68-85 | any action that is not terminal becomes planning, and nothing else changes |
| `InPlace.Database.InsertBatches` | app/workers/tasks.py:91-100 | the insert loop skips conflicting indices |
| `InPlace.Database.ClosePlan` | app/workers/tasks.py:147-168 | totals assigned in any status; empty plans complete only from planning, others start only if they still may |
| `InPlace.Database.MarkStarted` | app/services/progress.py:37-52 | moves only queued, scheduled or planning actions to processing |
| `InPlace.Database.FinalizeIfComplete` | app/services/progress.py:81-115 | closes exactly a processing action whose batches have all reported, and returns the status only then |
| `InPlace.Database.FailAction` | app/services/progress.py:118-129 | a non-terminal action becomes failed, a terminal one stays |
| `InPlace.Database.Cancel` | app/services/bulk_action_service.py:312-339 | any non-terminal action becomes cancelled, a terminal one stays, and the answer says which |
| `InPlace.Database.Preflight` | app/workers/tasks.py:193-229 | goes on only for an existing, uncompleted batch of an action not cancelled; marks the batch of a cancelled action |
| `InPlace.Database.RecordAttempt` | app/workers/tasks.py:261-271 | any batch not completed becomes processing with one more attempt |
| `InPlace.Database.RecordBatchCompletion` | app/services/progress.py:55-78 | adds a batch's counts to the counters and one to the completed batches |
| `InPlace.Database.Apply` | app/services/batch_runner.py:112-140 | de-duplication followed by the handler, on ledger and entity table in place |
| `InPlace.Database.RunBatch` | app/services/batch_runner.py:80-140 | the pipeline with drift first: outcomes, claims and entity writes of one batch |
| `InPlace.Database.ExecuteBatch` | app/workers/tasks.py:275-292 | the execute transaction: entities, claims, logs, batch row and counters together, or nothing if already completed |
| `InPlace.Database.MarkBatchFailed` | app/workers/tasks.py:336-376 | every planned entity logged as failed and counted, with no status guard |
| `InPlace.Database.Flush` | app/workers/tasks.py:91-100 | one flush extends what has been inserted by what was pending |
| `InPlace.Database.PlanLoop` | app/workers/tasks.py:109-140 | the planner's loop with its groups of 100 inserts exactly the plan and counts its totals |
| `InPlace.Database.PlanBulkAction` | app/workers/tasks.py:63-176 | an uninterrupted pass, other writers acting between its page reads, inserts the keyset walk over what it saw (or the chunks of the ids) and closes with its totals, or does nothing to a terminal action |
| `InPlace.Database.ProcessBatch` | app/workers/tasks.py:184-333 | one delivery from pre-flight to finalise, with its error paths: which deliveries start; a started one is deferred exactly if the bucket holds less than its planned count, with the tables as they were and the bucket's wait, and otherwise runs after the bucket has paid; and the delivery is a run of the account's state machine, gate included |
| `Protocol.StepKeepsWork` | app/workers/tasks.py:95-100 | no step ever removes a batch row or changes the work it stands for |
| `Protocol.OthersAreQuiet` | app/workers/tasks.py:273-292 | only an execute commit or a mark-failed commit moves counters, logs or claims, and only an execute commit or an outside writer moves entities |
| `Protocol.CountersAlwaysAgree` | app/services/progress.py:55-78 | in every reachable state each counter is the number of log rows of its status, processed is their sum, and completed batches is the number of accounting commits |
| `Protocol.AlwaysFaithful` | app/workers/tasks.py:228-229 | what a job carries from pre-flight stays true of its batch row, and no commit reports fewer entities than were planned |
| `Lifecycle.TerminalIsAbsorbing` | app/models/enums.py:22-38 | over all interleavings a terminal status never changes |
| `Lifecycle.ClosesOnce` | app/services/progress.py:107-115 | exactly one step of a run closes an action that ends closed |
| `Lifecycle.CancellationBoundary` | app/services/bulk_action_service.py:312-339 | after a cancel the status and the log stay, no new job passes pre-flight, and the jobs already past it have a bounded number of commits left |
| `Lifecycle.CancelTakesHold` | app/services/bulk_action_service.py:326-335 | cancelling an action in any open status cancels it and changes nothing else, and from there the boundary holds, counted from the state before |
| `Lifecycle.CancelLeavesOnlyOldJobs` | app/services/bulk_action_service.py:312-319 | after it, every effective step belongs to a job that was past pre-flight before the cancel |
| `Lifecycle.PlanningFailureCloses` | app/workers/tasks.py:141-145 | a planning failure puts an open action in failed for good and keeps batches and logs |
| `Lifecycle.DeliveryStartsExactly` | app/workers/tasks.py:193-229 | a delivery starts a job iff its batch exists, is not completed and the action is not cancelled, and the job knows the planned count |
| `Lifecycle.OnlyOldJobsWork` | app/workers/tasks.py:193-229 | every later step that changes counters, logs, claims or entities belongs to a job past pre-flight when the cancel committed, or to an outside writer |
| `OnePass.AlwaysPassOk` | app/workers/tasks.py:109-168 | with one pass, batch rows are a prefix of what was planned, and totals match the table once the action is under way |
| `Closing.AlwaysRowsOk` | app/services/batch_runner.py:145-165 | with one accounting per batch, an executed row is completed with counts adding up to what it emitted, a given-up row counts its planned entities as failed, unaccounted rows are blank, and row counts sum to the counters |
| `Finishing.Pigeonhole` | app/services/progress.py:89-97 | the count test `completed_batches >= total_batches` means every batch was accounted, exactly |
| `Finishing.EmittedIsLogged` | app/services/batch_runner.py:142-165 | the log has as many rows as the accounting commits emitted |
| `LogBook.LogIsBook` | app/services/batch_runner.py:142-143 | the log is, entry by entry and in commit order, what the accounting commits emitted: a batch run's outcomes on the table and ledger of that moment, or one anonymous failure per planned entity, each row under its own batch |
| `LogBook.EveryLoadIsLogged` | app/services/batch_runner.py:92-143 | every row any commit loaded is named in the log |
| `LogBook.NoEntityLoggedTwice` | app/domain/actions/base.py:26-34 | no entity is named in two log rows, over all interleavings, redeliveries, crashes and outside writers, with one accounting per batch (and one pass for a filter) |
| `Walking.NoEntityOwnedTwice` | app/services/batching.py:106-132 | no entity is owned by two batch rows of a run: one pass of a filter under arbitrary outside writes, any number of passes for explicit ids |
| `Finishing.FinishedMeans` | app/services/progress.py:81-115 | a finished action has accounted every batch, processed at least its total (equal iff no commit found more than planned), row counts summing to the counters, and is `completed` iff no log row failed |
| `StableRuns.FinishedMeansOverPasses` | app/services/progress.py:81-115 | the same over any number of passes whose page reads see one target set |
| `StableRuns.ExplicitFinishedMeans` | app/services/batching.py:149-160 | the same for explicit ids with no condition on passes, and processed equals total equals the number of distinct ids |
| `Finishing.FinishedRowsAreFinal` | app/workers/tasks.py:261-271 | if no failed batch is re-opened, every row of a finished action is completed or failed |
| `Reopening.RowsAreFinalExactlyWhen` | app/workers/tasks.py:261-271 | and only then: re-opening a failed batch is exactly what leaves a finished action with a row that is neither |
| `AccountingGuard.OnceExactlyWhenGuarded` | app/workers/tasks.py:336-355 | a run accounts each batch at most once if and only if every accounting commit found its row neither completed nor failed and without counts |
| `BatchSizes.AlwaysSized` | app/services/batching.py:111-132 | no run ever plans an empty batch or one above the batch size |
| `BatchSizes.DeferredBatchIsAdmitted` | app/workers/tasks.py:231-255 | with the clamp, the gate never raises for any batch of any run, and a deferred batch is admitted after its wait if nobody else consumes |
| `Finalisation.FinishesExactlyWhen` | app/workers/tasks.py:294-332 | a started action that is not cancelled or failed in the end is finished iff some finalise block ran after both mark_started and the last accounting; otherwise it is processing |
| `Finalisation.StrandedForever` | app/workers/tasks.py:193-211 | once everything is completed and the action still reads processing, no delivery or outside write ever finishes it |
| `Counterexamples.FastWorkersStrandTheAction` | app/workers/tasks.py:101-107 | a failure-free run whose only batch finishes before mark_started ends in that state and stays there |
| `Counterexamples.DoubleAccountingClosesEarly` | app/workers/tasks.py:294-332 | a run where a late exception accounts one batch twice closes the action with another batch untouched |
| `Counterexamples.ReopenedBatchStaysOpen` | app/workers/tasks.py:261-271 | a run with one pass and one accounting ends finished with a batch row in processing, re-opened by a redelivery |
| `LostEntity.ReplanningLosesAnEntity` | app/workers/tasks.py:95-100 | with no outside writer, a pass that dies after its first flush, one deletion and a second pass leave a target that no batch owns and nothing but another pass reaches |
| `Counterexamples.ChangedTargetLeavesOldRows` | app/workers/tasks.py:147-166 | a crashed pass, a vanished target and a second pass end in a completed action with a batch row that never ran |
| `Replanning.ReplanningConverges` | app/workers/tasks.py:91-154 | over any crashed, repeated or overlapping passes whose page reads see one target set from where the walk has got to: all rows are rows of the clean plan, and once totals are written the table and the totals are exactly it |
| `Passes.PassConvergesExactlyWhen` | app/workers/tasks.py:81-168 | one pass from open to close, with workers and outside writers acting between its pages: totals are those of what it yielded, and the batch table is exactly that iff every earlier row is already a row of it |
| `Replanning.ExplicitIdsExact` | app/services/batching.py:149-160 | once totals are written and every batch is accounted once, processed equals the total equals the number of distinct ids, whatever other writers do |
| `Alone.AloneIsStable` | app/workers/tasks.py:109-140 | with no outside writer, the page reads of one pass see the target set of the start from where the walk is, however far the workers have got |
| `Alone.RunIsSomeOrder` | app/workers/tasks.py:275-292 | with no outside writer, at every moment, entities, ledger and loaded rows are those of executing the committed batches of the start plan one after the other |
| `Alone.TableIsCommittedWork` | app/services/bulk_action_service.py:312-319 | at every moment, cancelled runs included, the table is what one statement over the targets of the committed batches leaves |
| `Alone.CompletedIsOneStatement` | app/workers/tasks.py:63-333 | a completed action with no outside writer and no de-duplication has left the table of one update or delete over its target set at the start |
| `Effects.CompletedUpdateMeans` | app/domain/actions/bulk_update.py:131-140 | after a completed update without outside writes every target of the start is there with the new values, and account, deletion mark and all other fields as they were |
| `Effects.CompletedDeleteMeans` | app/domain/actions/bulk_delete.py:101-119 | after a completed delete every target of the start is gone, or kept with its values and marked |
| `Effects.NothingLeftToDelete` | app/domain/actions/bulk_delete.py:101-119 | a completed delete by filter leaves its own target set empty |
| `Effects.OthersUntouched` | app/services/batch_runner.py:58-70 | over every run without outside writes, however often planned or run twice, an entity outside the target set of the start is exactly as it was |
| `Alone.CompletedLogsEachTargetOnce` | app/domain/actions/base.py:26-34 | every target of a completed action with no outside writer is named in exactly one log row |
| `Alone.CompletedPassesOncePerKey` | app/services/dedup.py:94-105 | with de-duplication it has handed its handlers one row per distinct key of that target set and every keyless row |
| `DedupRuns.HandlersSeeFirstOccurrences` | app/services/batch_runner.py:112-129 | in every reachable state the keyed rows handed to handlers are the first occurrences in commit order of all loaded rows, keyless rows all pass, and the ledger holds the keys of committed batches only |
| `OwnClaims.OwnClaimsOnlyAfterExecution` | app/services/dedup.py:94-105 | an execute commit meets claims of its own batch only if that batch has already committed an execute block |
| `OwnClaims.NeverWithOneAccounting` | app/workers/tasks.py:280-292 | and never in a run that accounts each batch once |
| `OwnClaims.BatchLosesToItsOwnClaim` | app/workers/tasks.py:294-333 | a run in which a committed batch is marked failed by a late exception, redelivered, executed again, and skips its row as a duplicate of itself |
| `Throughput.StepKeepsPaid` | app/workers/tasks.py:231-292 | the planned counts of execute commits plus admissions not yet spent never exceed what was admitted |
| `Throughput.EveryCommitIsAdmitted` | app/workers/tasks.py:231-292 | every execute commit follows a bucket admission of the same job for the same batch |
| `Throughput.NoAdmissionServesTwice` | app/workers/tasks.py:231-292 | no admission serves two execute commits |
| `Throughput.ThroughputBound` | app/services/rate_limiter.py:36-67 | over all actions and workers of an account, key expiries included, the planned entity counts of all execute commits by time t add up to at most limit + limit * (t - t0) / 60000, t0 the first bucket call |
| `RowThroughput.OwnWorkShrinks` | app/services/batch_runner.py:65-70 | executing a range batch never adds a row to the action's own target set |
| `RowThroughput.ReportedIsCharged` | app/services/batch_runner.py:96-110 | execute commits report exactly what the gate was charged for iff none of them loaded more rows than its batch was planned with |
| `RowThroughput.RowBoundWhenNothingExtra` | app/services/rate_limiter.py:5-8 | the account's bound on the entities themselves, on every run whose commits pass that test |
| `RowThroughput.RowBound` | app/services/rate_limiter.py:5-8 | the same bound with no test on every run in which nobody else writes the table of an action that works by filter, over any number of passes, redeliveries and double runs |
| `Overrun.OutsideRowsOverrunTheLimit` | app/workers/tasks.py:236-239 | one admission for two planned entities deletes three, one added by another writer, and the account is over its rate |
| `Throughput.NothingBeforeFirstCall` | app/workers/tasks.py:231-239 | before the account's first bucket call nothing has been executed |
| `ReadModels.Breakdowns` | app/services/bulk_action_service.py:208-214 | the stats loop turns the grouped rows into the two reason breakdowns |
| `ReadModels.BreakdownsMatchCounters` | app/services/bulk_action_service.py:191-214 | in every reachable state the breakdowns sum to the action's failure and skip counters |
| `ReadModels.PagesCompleteExactlyWhen` | app/services/bulk_action_service.py:280-295 | while rows become visible in any order, following next_cursor to its end returns the matching rows of the last read, each once and in order, iff none became visible at or below a cursor already handed out |
| `ReadModels.AppendedIsComplete` | app/services/bulk_action_service.py:280-295 | a log whose new rows always have larger ids is read completely |
| `ReadModels.LateRowsAreLost` | app/models/bulk_action.py:139 | with two overlapping batches, two rows that become visible behind the cursor are never returned |
| `ReadModels.ReadAllPages` | app/services/bulk_action_service.py:273-295 | the client's loop over a growing log: every page but the last is full, nothing is repeated or out of order, and what a finished loop has missed is exactly what came late |

## Left out

- HTTP routes, SSE streaming, progress publishing, schemas, error rendering, health checks, logging: I/O and presentation.
- Submission, idempotency keys, registries, configuration validation, scheduling: not part of the execution protocol. `HasColumns` states the one fact taken from validation, that updated fields are columns.
- Filters: the filter language is an abstract predicate on one row, scoped to the account; a filter that fails to compile is a planning failure or an execute error at any moment.
- The queue: delivery is arbitrary (any index, any time, any number of times). Retry counts, back-off, job-id dropping and the deferral delay are not modelled, so liveness is not either; an error with retries left and one without are separate events that may happen at any point.
- A deleted action row or a deleted account: the branches that return `missing` are not modelled.
- Other bulk actions on the same table are the same as other outside writers: `OutsideWrite` may replace the whole entity table between any two steps, but not within one execute block.
- PostgreSQL locks on action, batch and entity rows; only the ledger insert is modelled at the grain of rows.
- Floating point in the Lua script and in `peek`; amounts are exact integers.
- Lowering an account's limit after submission, which voids the clamp.
- Dedup.NormaliseIsCanonical: models ASCII case and ASCII white space; Unicode case folding and Unicode spaces are left out.
- Outcome messages and details, error texts, started and finished timestamps, percentages and throughput of the stats view: display values.
- LogReason values that no code emits (`validation_failed`, `action_cancelled`), and the `unspecified` bucket of the breakdowns, since every outcome carries a reason.
- Finishing.FinishedMeans: needs one planning pass and one accounting per batch; the code enforces neither. `StableRuns` drops the first where page reads are stable.
- Replanning.ReplanningConverges: for a filter it needs page reads that see one target set beyond the walk, and an unchanged batch size; with a changed target set old rows are kept while totals are overwritten.
- Throughput.ThroughputBound: needs a clock that is never behind the stored timestamp and a fixed limit; it is about planned counts, and `RowThroughput` says when it is about rows.
- InPlace.Database.PlanBulkAction: one uninterrupted pass, its pages read before its rows go out; interruption, overlap and reads between flushes are steps of `Protocol`.
- InPlace.Database.ProcessBatch: one delivery with nobody interfering; interleavings are steps of `Protocol`.
- DedupOrder.RunIsSequential: needs disjoint batches and no outside writer; `DedupRuns.HandlersSeeFirstOccurrences` is the statement for every run.
- LedgerLocks.Progress: rules out deadlock over ledger keys, not starvation.
