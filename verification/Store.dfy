/**
 The control-plane tables of one bulk action and the transactions over them: lifecycle and
 counters (app/services/progress.py), the transaction blocks of the two background tasks
 (app/workers/tasks.py), and cancellation (app/services/bulk_action_service.py).

 Each transaction is a function on values here, which the protocol is built from; module
 InPlace has the same transactions as methods that update the tables in place.
 */
module Store {
  import opened Domain
  import opened Dedup
  import opened BatchRunner

  datatype ActionRow = ActionRow(
    status: ActionStatus,
    totalEntities: nat, totalBatches: nat,
    processed: nat, success: nat, failure: nat, skipped: nat,
    completedBatches: nat)

  datatype BatchRow = BatchRow(
    work: PlannedBatch, status: BatchStatus,
    success: nat, failure: nat, skipped: nat, attempts: nat)

  datatype LogRow = LogRow(batch: nat, outcome: Outcome)

  datatype Db = Db(
    action: ActionRow,
    batches: map<nat, BatchRow>,
    logs: seq<LogRow>,
    ledger: set<Key>,
    entities: Table)

  // ----- Lifecycle -----------------------------------------------------------------------

  function OpenPlan(a: ActionRow): ActionRow {
    if a.status.Terminal() then a else a.(status := ActionStatus.Planning)
  }

  function MarkStarted(a: ActionRow): ActionRow {
    if a.status in {Queued, Scheduled, ActionStatus.Planning} then a.(status := Processing) else a
  }

  // Totals are assigned, never added to; the status only moves if it still may.
  function ClosePlan(a: ActionRow, entities: nat, batches: nat): ActionRow {
    var b := a.(totalEntities := entities, totalBatches := batches);
    if batches != 0 then MarkStarted(b)
    else if b.status == ActionStatus.Planning then b.(status := Completed) else b
  }

  predicate MayFinalize(a: ActionRow) {
    a.status == Processing && a.completedBatches >= a.totalBatches
  }

  function FinalizeIfComplete(a: ActionRow): ActionRow {
    if MayFinalize(a) then a.(status := if a.failure > 0 then CompletedWithErrors else Completed) else a
  }

  function FailAction(a: ActionRow): ActionRow {
    if a.status.Terminal() then a else a.(status := ActionFailed)
  }

  function CancelAction(a: ActionRow): ActionRow {
    if a.status.Terminal() then a else a.(status := ActionCancelled)
  }

  function Counters(a: ActionRow): (nat, nat, nat, nat, nat) {
    (a.processed, a.success, a.failure, a.skipped, a.completedBatches)
  }

  // One batch's counts, added in place.
  function RecordCompletion(a: ActionRow, os: seq<Outcome>): ActionRow {
    a.(processed := a.processed + |os|,
       success := a.success + Count(os, Success),
       failure := a.failure + Count(os, Failed),
       skipped := a.skipped + Count(os, Skipped),
       completedBatches := a.completedBatches + 1)
  }

  // ----- Batches -------------------------------------------------------------------------

  // Batch rows go out in groups of this many.
  const FLUSH_EVERY := 100

  function NewRow(b: PlannedBatch): BatchRow {
    BatchRow(b, BatchPending, 0, 0, 0, 0)
  }

  // INSERT ... ON CONFLICT (bulk_action_id, batch_index) DO NOTHING.
  function InsertBatches(m: map<nat, BatchRow>, first: nat, rows: seq<PlannedBatch>): map<nat, BatchRow> {
    if rows == [] then m
    else
      var n := |rows| - 1;
      var m' := InsertBatches(m, first, rows[..n]);
      if first + n in m' then m' else m'[first + n := NewRow(rows[n])]
  }

  predicate SameWork(before: map<nat, BatchRow>, after: map<nat, BatchRow>) {
    forall i :: i in before ==> i in after && after[i].work == before[i].work
  }

  predicate CancelsBatch(db: Db, i: nat) {
    i in db.batches && db.batches[i].status != BatchCompleted && db.action.status == ActionCancelled
  }

  // Pre-flight goes on only for a batch that exists, is not completed, and is not cancelled.
  predicate PassesPreflight(db: Db, i: nat) {
    i in db.batches && db.batches[i].status != BatchCompleted && db.action.status != ActionCancelled
  }

  function Preflight(db: Db, i: nat): Db {
    if CancelsBatch(db, i) then db.(batches := db.batches[i := db.batches[i].(status := BatchCancelled)]) else db
  }

  function RecordAttempt(db: Db, i: nat): Db {
    if i in db.batches && db.batches[i].status != BatchCompleted then
      db.(batches := db.batches[i := db.batches[i].(status := BatchProcessing, attempts := db.batches[i].attempts + 1)])
    else db
  }

  function Tagged(i: nat, os: seq<Outcome>): seq<LogRow> {
    seq(|os|, k requires 0 <= k < |os| => LogRow(i, os[k]))
  }

  function Counted(row: BatchRow, os: seq<Outcome>): BatchRow {
    row.(status := BatchCompleted,
         success := Count(os, Success), failure := Count(os, Failed), skipped := Count(os, Skipped))
  }

  predicate WouldExecute(db: Db, i: nat) {
    i in db.batches && db.batches[i].status != BatchCompleted
  }

  // The execute transaction: entity writes, claims, logs, batch row and counters together.
  function ExecuteBatch(cfg: Config, db: Db, i: nat, now: int): Db {
    if !WouldExecute(db, i) then db
    else
      var e := RunBatch(cfg, db.entities, db.ledger, db.batches[i].work, now);
      Db(RecordCompletion(db.action, e.outcomes),
         db.batches[i := Counted(db.batches[i], e.outcomes)],
         db.logs + Tagged(i, e.outcomes),
         e.ledger,
         e.entities)
  }

  const BATCH_ERROR := Outcome(None, Failed, BatchError)

  function Lost(count: nat): seq<Outcome> {
    seq(count, _ => BATCH_ERROR)
  }

  // Retries exhausted.  No guard on the batch's status.
  function MarkBatchFailed(db: Db, i: nat, count: nat): Db {
    if i !in db.batches then db
    else
      db.(action := RecordCompletion(db.action, Lost(count)),
          batches := db.batches[i := db.batches[i].(status := BatchFailed, failure := count)],
          logs := db.logs + Tagged(i, Lost(count)))
  }

  function Submitted(entities: Table, scheduled: bool): Db {
    Db(ActionRow(if scheduled then Scheduled else Queued, 0, 0, 0, 0, 0, 0, 0), map[], [], {}, entities)
  }

  // ----- Facts about the tables ----------------------------------------------------------

  function CountLogs(logs: seq<LogRow>, st: LogStatus): nat {
    if logs == [] then 0
    else CountLogs(logs[..|logs| - 1], st) + (if logs[|logs| - 1].outcome.status == st then 1 else 0)
  }

  lemma {:induction false} CountLogsAppend(logs: seq<LogRow>, i: nat, os: seq<Outcome>, st: LogStatus)
    ensures CountLogs(logs + Tagged(i, os), st) == CountLogs(logs, st) + Count(os, st)
  {
    if os == [] {
      assert logs + Tagged(i, os) == logs;
    } else {
      var n := |os| - 1;
      CountLogsAppend(logs, i, os[..n], st);
      var all := logs + Tagged(i, os);
      assert all[..|all| - 1] == logs + Tagged(i, os[..n]);
    }
  }

  lemma {:induction false} CountLost(count: nat)
    ensures Count(Lost(count), Failed) == count && Count(Lost(count), Success) == 0 && Count(Lost(count), Skipped) == 0
  {
    if count > 0 {
      CountLost(count - 1);
      assert Lost(count)[..count - 1] == Lost(count - 1);
    }
  }

  lemma {:induction false} InsertBatchesKeeps(m: map<nat, BatchRow>, first: nat, rows: seq<PlannedBatch>)
    ensures var m' := InsertBatches(m, first, rows);
            (forall i :: i in m' <==> i in m || first <= i < first + |rows|)
            && (forall i :: i in m ==> m'[i] == m[i])
            && (forall i :: i in m' && i !in m ==> first <= i < first + |rows| && m'[i] == NewRow(rows[i - first]))
  {
    if rows != [] {
      InsertBatchesKeeps(m, first, rows[..|rows| - 1]);
    }
  }

  /** Flushing in groups is inserting once: consecutive inserts compose. */
  lemma {:induction false} InsertBatchesAppend(m: map<nat, BatchRow>, first: nat, xs: seq<PlannedBatch>,
                                               ys: seq<PlannedBatch>)
    ensures InsertBatches(m, first, xs + ys) == InsertBatches(InsertBatches(m, first, xs), first + |xs|, ys)
  {
    if ys == [] {
      assert xs + ys == xs;
    } else {
      var n := |ys| - 1;
      InsertBatchesAppend(m, first, xs, ys[..n]);
      assert (xs + ys)[..|xs + ys| - 1] == xs + ys[..n];
    }
  }
}
