/**
 Accountings against batch rows: with one accounting per batch, each row shows its accounting and
 the rows add up to the action's counters.

 One accounting per batch (`AccountedOnce`) is a condition on runs because the code does not enforce
 it: an exception in the block after a committed batch, or a redelivery of a failed batch, breaks it.
 */
module Closing {
  import opened Domain
  import opened Store
  import opened BatchRunner
  import opened Protocol
  import opened Sums
  import opened OnePass

  // ----- One accounting per batch --------------------------------------------------------

  predicate AccountedOnce(acc: seq<Accounting>) {
    forall i, j :: 0 <= i < j < |acc| ==> acc[i].index != acc[j].index
  }

  function Indices(acc: seq<Accounting>): set<nat> {
    set k | 0 <= k < |acc| :: acc[k].index
  }

  lemma IndicesSnoc(acc: seq<Accounting>, a: Accounting)
    ensures Indices(acc + [a]) == Indices(acc) + {a.index}
  {
    var acc' := acc + [a];
    forall i ensures i in Indices(acc') <==> i in Indices(acc) + {a.index} {
      if i in Indices(acc) {
        var k :| 0 <= k < |acc| && acc[k].index == i;
        assert acc'[k].index == i;
      }
      assert acc'[|acc|] == a;
      if i in Indices(acc') {
        var k :| 0 <= k < |acc'| && acc'[k].index == i;
        if k < |acc| { assert acc[k].index == i; }
      }
    }
  }

  lemma FreshIndex(acc: seq<Accounting>, a: Accounting)
    requires AccountedOnce(acc + [a])
    ensures AccountedOnce(acc) && a.index !in Indices(acc)
  {
    var acc' := acc + [a];
    assert acc'[|acc|] == a;
    forall i, j | 0 <= i < j < |acc| ensures acc[i].index != acc[j].index {
      assert acc'[i] == acc[i] && acc'[j] == acc[j];
    }
    forall k | 0 <= k < |acc| ensures acc[k].index != a.index {
      assert acc'[k] == acc[k];
    }
  }

  lemma {:induction false} IndexCount(acc: seq<Accounting>)
    requires AccountedOnce(acc)
    ensures |Indices(acc)| == |acc|
  {
    if acc != [] {
      var n := |acc| - 1;
      assert acc == acc[..n] + [acc[n]];
      FreshIndex(acc[..n], acc[n]);
      IndexCount(acc[..n]);
      IndicesSnoc(acc[..n], acc[n]);
    }
  }

  // The new last accounting of a step that accounts.
  lemma AccountingStep(cfg: Config, s: State, e: Event)
    requires cfg.batchSize >= 1 && (Executes(s, e) || MarksFailed(s, e))
    ensures var acc, acc' := s.past.accountings, Step(cfg, s, e).past.accountings;
            |acc'| == |acc| + 1 && acc' == acc + [acc'[|acc|]]
            && acc'[|acc|].index == s.jobs[e.j].index && acc'[|acc|].executed == e.Execute?
  {}

  // ----- Batch rows against accountings --------------------------------------------------

  // A row whose batch has not been accounted.
  predicate Blank(row: BatchRow) {
    row.success == 0 && row.failure == 0 && row.skipped == 0
    && row.status != BatchCompleted && row.status != BatchFailed
  }

  predicate Reflects(row: BatchRow, a: Accounting) {
    if a.executed then row.status == BatchCompleted && row.success + row.failure + row.skipped == a.emitted
    else row.status != BatchCompleted && row.success == 0 && row.skipped == 0 && row.failure == row.work.entityCount
  }

  function Successes(m: map<nat, BatchRow>): map<nat, nat> { map i | i in m :: m[i].success }
  function Failures(m: map<nat, BatchRow>): map<nat, nat> { map i | i in m :: m[i].failure }
  function Skippeds(m: map<nat, BatchRow>): map<nat, nat> { map i | i in m :: m[i].skipped }

  ghost predicate SumsMatch(db: Db) {
    && Sum(Successes(db.batches)) == db.action.success
    && Sum(Failures(db.batches)) == db.action.failure
    && Sum(Skippeds(db.batches)) == db.action.skipped
  }

  ghost predicate RowsOk(s: State) {
    var m, acc := s.db.batches, s.past.accountings;
    && (forall k :: 0 <= k < |acc| ==> acc[k].index in m && Reflects(m[acc[k].index], acc[k]))
    && (forall i :: i in m && i !in Indices(acc) ==> Blank(m[i]))
    && SumsMatch(s.db)
  }

  lemma SetRow(m: map<nat, BatchRow>, i: nat, row: BatchRow)
    requires i in m ==> Blank(m[i])
    ensures var m' := m[i := row];
            Sum(Successes(m')) == Sum(Successes(m)) + row.success
            && Sum(Failures(m')) == Sum(Failures(m)) + row.failure
            && Sum(Skippeds(m')) == Sum(Skippeds(m)) + row.skipped
  {
    assert Sum(Successes(m[i := row])) == Sum(Successes(m)) + row.success by {
      SumSet(Successes(m), i, row.success);
      assert Successes(m[i := row]) == Successes(m)[i := row.success];
    }
    assert Sum(Failures(m[i := row])) == Sum(Failures(m)) + row.failure by {
      SumSet(Failures(m), i, row.failure);
      assert Failures(m[i := row]) == Failures(m)[i := row.failure];
    }
    SumSet(Skippeds(m), i, row.skipped);
    assert Skippeds(m[i := row]) == Skippeds(m)[i := row.skipped];
  }

  // Changing only a row's status or attempts changes no sum.
  lemma TouchRow(m: map<nat, BatchRow>, i: nat, row: BatchRow)
    requires i in m && row.success == m[i].success && row.failure == m[i].failure && row.skipped == m[i].skipped
    ensures Successes(m[i := row]) == Successes(m) && Failures(m[i := row]) == Failures(m)
            && Skippeds(m[i := row]) == Skippeds(m)
  {}

  lemma {:induction false} InsertBlankRows(m: map<nat, BatchRow>, first: nat, rows: seq<PlannedBatch>)
    ensures var m' := InsertBatches(m, first, rows);
            Sum(Successes(m')) == Sum(Successes(m)) && Sum(Failures(m')) == Sum(Failures(m))
                && Sum(Skippeds(m')) == Sum(Skippeds(m))
  {
    if rows != [] {
      var n := |rows| - 1;
      InsertBlankRows(m, first, rows[..n]);
      var mid := InsertBatches(m, first, rows[..n]);
      if first + n !in mid {
        SetRow(mid, first + n, NewRow(rows[n]));
      }
    }
  }

  lemma AccountKeepsRows(s: State, s': State, i: nat, row: BatchRow, a: Accounting)
    requires RowsOk(s) && i in s.db.batches && i !in Indices(s.past.accountings)
    requires s'.db.batches == s.db.batches[i := row] && s'.past.accountings == s.past.accountings + [a]
    requires a.index == i && Reflects(row, a)
    requires s'.db.action.success == s.db.action.success + row.success
    requires s'.db.action.failure == s.db.action.failure + row.failure
    requires s'.db.action.skipped == s.db.action.skipped + row.skipped
    ensures RowsOk(s')
  {
    SetRow(s.db.batches, i, row);
    IndicesSnoc(s.past.accountings, a);
    var acc, acc' := s.past.accountings, s'.past.accountings;
    forall k | 0 <= k < |acc'|
      ensures acc'[k].index in s'.db.batches && Reflects(s'.db.batches[acc'[k].index], acc'[k])
    {
      if k < |acc| {
        assert acc'[k] == acc[k] && acc[k].index in Indices(acc);
      }
    }
  }

  lemma ExecuteKeepsRows(cfg: Config, s: State, j: nat, now: int)
    requires RowsOk(s) && At(s, j, Attempted) && WouldExecute(s.db, s.jobs[j].index)
    requires s.jobs[j].index !in Indices(s.past.accountings)
    ensures RowsOk(StepExecute(cfg, s, j, now))
  {
    var i := s.jobs[j].index;
    var s' := StepExecute(cfg, s, j, now);
    CountsAddUp(RunBatch(cfg, s.db.entities, s.db.ledger, s.db.batches[i].work, now).outcomes);
    AccountKeepsRows(s, s', i, s'.db.batches[i], s'.past.accountings[|s.past.accountings|]);
  }

  lemma MarkFailedKeepsRows(s: State, j: nat)
    requires RowsOk(s) && Faithful(s) && At(s, j, AtMarkFailed) && s.jobs[j].index in s.db.batches
    requires s.jobs[j].index !in Indices(s.past.accountings)
    ensures RowsOk(StepMarkFailed(s, j))
  {
    var i := s.jobs[j].index;
    var s' := StepMarkFailed(s, j);
    CountLost(s.jobs[j].entityCount);
    AccountKeepsRows(s, s', i, s'.db.batches[i], s'.past.accountings[|s.past.accountings|]);
  }

  lemma TouchKeepsRows(s: State, s': State, i: nat, status: BatchStatus, attempts: nat)
    requires RowsOk(s) && SameAccounts(s, s') && i in s.db.batches && s.db.batches[i].status != BatchCompleted
    requires s'.db.batches == s.db.batches[i := s.db.batches[i].(status := status, attempts := attempts)]
    requires status != BatchCompleted && status != BatchFailed
    ensures RowsOk(s')
  {
    TouchRow(s.db.batches, i, s.db.batches[i].(status := status, attempts := attempts));
  }

  lemma NewRowsKeepRows(s: State, s': State)
    requires RowsOk(s) && SameAccounts(s, s') && SumsMatch(s'.db)
    requires forall i :: i in s.db.batches ==> i in s'.db.batches && s'.db.batches[i] == s.db.batches[i]
    requires forall i :: i in s'.db.batches && i !in s.db.batches ==> Blank(s'.db.batches[i])
    ensures RowsOk(s')
  {}

  lemma FlushKeepsRows(s: State, s': State, first: nat, rows: seq<PlannedBatch>, m: map<nat, BatchRow>)
    requires RowsOk(s) && SameAccounts(s, s') && m == InsertBatches(s.db.batches, first, rows) && s'.db.batches == m
    ensures RowsOk(s')
  {
    assert SumsMatch(s'.db) by {
      InsertBlankRows(s.db.batches, first, rows);
    }
    assert forall i :: i in m && i !in s.db.batches ==> Blank(m[i]) by {
      InsertBatchesKeeps(s.db.batches, first, rows);
    }
    InsertBatchesKeeps(s.db.batches, first, rows);
    NewRowsKeepRows(s, s');
  }

  // Events that leave both batch rows and accounts alone.
  predicate LeavesRows(s: State, e: Event) {
    !Executes(s, e) && !MarksFailed(s, e) && !e.PlanFlush? && !e.Deliver? && !e.Attempt?
  }

  lemma LeavesRowsStep(cfg: Config, s: State, e: Event)
    requires cfg.batchSize >= 1 && LeavesRows(s, e)
    ensures Step(cfg, s, e).db.batches == s.db.batches && SameAccounts(s, Step(cfg, s, e))
  {}

  lemma PlanFlushKeepsRows(s: State, p: nat)
    requires RowsOk(s)
    ensures RowsOk(StepPlanFlush(s, p))
  {
    if p in s.planners && CanFlush(s.planners[p]) {
      var s' := StepPlanFlush(s, p);
      FlushKeepsRows(s, s', FirstPending(s.planners[p]), s.planners[p].pending, s'.db.batches);
    }
  }

  lemma DeliverKeepsRows(s: State, j: nat, i: nat)
    requires RowsOk(s)
    ensures RowsOk(StepDeliver(s, j, i))
  {
    if j !in s.jobs && CancelsBatch(s.db, i) {
      TouchKeepsRows(s, StepDeliver(s, j, i), i, BatchCancelled, s.db.batches[i].attempts);
    }
  }

  lemma AttemptKeepsRows(s: State, j: nat)
    requires RowsOk(s)
    ensures RowsOk(StepAttempt(s, j))
  {
    if At(s, j, Admitted) && WouldExecute(s.db, s.jobs[j].index) {
      var i := s.jobs[j].index;
      TouchKeepsRows(s, StepAttempt(s, j), i, BatchProcessing, s.db.batches[i].attempts + 1);
    }
  }

  lemma AccountsFreshIndex(cfg: Config, s: State, e: Event)
    requires cfg.batchSize >= 1 && (Executes(s, e) || MarksFailed(s, e))
             && AccountedOnce(Step(cfg, s, e).past.accountings)
    ensures s.jobs[e.j].index !in Indices(s.past.accountings)
  {
    AccountingStep(cfg, s, e);
    FreshIndex(s.past.accountings, Step(cfg, s, e).past.accountings[|s.past.accountings|]);
  }

  lemma StepKeepsRows(cfg: Config, s: State, e: Event)
    requires cfg.batchSize >= 1 && RowsOk(s) && Faithful(s) && AccountedOnce(Step(cfg, s, e).past.accountings)
    ensures RowsOk(Step(cfg, s, e))
  {
    if Executes(s, e) || MarksFailed(s, e) {
      AccountsFreshIndex(cfg, s, e);
      if Executes(s, e) {
        ExecuteKeepsRows(cfg, s, e.j, e.now);
      } else {
        MarkFailedKeepsRows(s, e.j);
      }
    } else if e.PlanFlush? {
      PlanFlushKeepsRows(s, e.p);
    } else if e.Deliver? {
      DeliverKeepsRows(s, e.j, e.index);
    } else if e.Attempt? {
      AttemptKeepsRows(s, e.j);
    } else {
      LeavesRowsStep(cfg, s, e);
    }
  }

  lemma {:induction false} AlwaysRowsOk(cfg: Config, entities: Table, scheduled: bool, es: seq<Event>)
    requires cfg.batchSize >= 1 && AccountedOnce(Run(cfg, Init(entities, scheduled), es).past.accountings)
    ensures RowsOk(Run(cfg, Init(entities, scheduled), es))
  {
    if es != [] {
      var n := |es| - 1;
      var before := Run(cfg, Init(entities, scheduled), es[..n]);
      OnceBefore(cfg, before, es[n]);
      AlwaysRowsOk(cfg, entities, scheduled, es[..n]);
      AlwaysFaithful(cfg, entities, scheduled, es[..n]);
      StepKeepsRows(cfg, before, es[n]);
    }
  }

  lemma OnceBefore(cfg: Config, s: State, e: Event)
    requires cfg.batchSize >= 1 && AccountedOnce(Step(cfg, s, e).past.accountings)
    ensures AccountedOnce(s.past.accountings)
  {
    PassesOnlyGrow(cfg, s, e);
    var acc, acc' := s.past.accountings, Step(cfg, s, e).past.accountings;
    forall i, j | 0 <= i < j < |acc| ensures acc[i].index != acc[j].index {
      assert acc[i] == acc'[i] && acc[j] == acc'[j];
    }
  }
}
