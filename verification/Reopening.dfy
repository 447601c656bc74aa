/**
 A failed batch can be re-opened: the record-attempt block moves any batch that is not completed
 back to `processing`.  Under one accounting per batch that is the only thing that keeps the rows
 of a finished action from being final.
 */
module Reopening {
  import opened Domain
  import opened Store
  import opened Protocol
  import opened Closing
  import opened Finishing
  import Finalisation

  predicate Final(row: BatchRow) {
    row.status == BatchCompleted || row.status == BatchFailed
  }

  // Accounted, and yet neither completed nor failed.
  predicate Reopened(s: State, i: nat) {
    i in s.db.batches && i in Indices(s.past.accountings) && !Final(s.db.batches[i])
  }

  lemma QuietStepMakesNothingFinal(cfg: Config, s: State, e: Event, i: nat)
    requires cfg.batchSize >= 1 && !Executes(s, e) && !MarksFailed(s, e) && i in s.db.batches && !Final(s.db.batches[i])
    ensures i in Step(cfg, s, e).db.batches && !Final(Step(cfg, s, e).db.batches[i])
  {
    if LeavesRows(s, e) {
      LeavesRowsStep(cfg, s, e);
    } else if e.PlanFlush? && e.p in s.planners {
      InsertBatchesKeeps(s.db.batches, FirstPending(s.planners[e.p]), s.planners[e.p].pending);
    }
  }

  lemma OtherRowsUntouched(cfg: Config, s: State, e: Event, i: nat)
    requires cfg.batchSize >= 1 && (Executes(s, e) || MarksFailed(s, e)) && i in s.db.batches && i != s.jobs[e.j].index
    ensures i in Step(cfg, s, e).db.batches && Step(cfg, s, e).db.batches[i] == s.db.batches[i]
  {}

  lemma ReopenedStep(cfg: Config, s: State, e: Event, i: nat)
    requires cfg.batchSize >= 1 && Reopened(s, i) && AccountedOnce(Step(cfg, s, e).past.accountings)
    ensures Reopened(Step(cfg, s, e), i)
  {
    if Executes(s, e) || MarksFailed(s, e) {
      AccountsFreshIndex(cfg, s, e);
      OtherRowsUntouched(cfg, s, e, i);
      AccountingStep(cfg, s, e);
      IndicesSnoc(s.past.accountings, Step(cfg, s, e).past.accountings[|s.past.accountings|]);
    } else {
      OthersAreQuiet(cfg, s, e);
      QuietStepMakesNothingFinal(cfg, s, e, i);
    }
  }

  lemma {:induction false} ReopenedForever(cfg: Config, s: State, es: seq<Event>, k: nat, i: nat)
    requires cfg.batchSize >= 1 && k <= |es| && Reopened(Run(cfg, s, es[..k]), i)
    requires AccountedOnce(Run(cfg, s, es).past.accountings)
    ensures Reopened(Run(cfg, s, es), i)
    decreases |es|
  {
    if k == |es| {
      assert es[..k] == es;
    } else {
      var n := |es| - 1;
      assert es[..n][..k] == es[..k];
      OnceBefore(cfg, Run(cfg, s, es[..n]), es[n]);
      ReopenedForever(cfg, s, es[..n], k, i);
      ReopenedStep(cfg, Run(cfg, s, es[..n]), es[n], i);
    }
  }

  lemma ReopensMeans(cfg: Config, s: State, e: Event)
    requires cfg.batchSize >= 1 && RowsOk(s) && Reopens(s, e)
    ensures Reopened(Step(cfg, s, e), s.jobs[e.j].index)
  {
    assert !Blank(s.db.batches[s.jobs[e.j].index]);
  }

  /** In a finished action of a run with one planning pass and one accounting per batch, every
      batch row reads `completed` or `failed` if and only if no redelivered job recorded an attempt
      on a failed batch. */
  lemma RowsAreFinalExactlyWhen(cfg: Config, entities: Table, scheduled: bool, es: seq<Event>)
    requires cfg.batchSize >= 1
    requires var s := Run(cfg, Init(entities, scheduled), es); Regular(s) && s.db.action.status.Finished()
    ensures var s0 := Init(entities, scheduled); var m := Run(cfg, s0, es).db.batches;
            (forall i :: i in m ==> Final(m[i])) <==> NeverReopens(cfg, s0, es)
  {
    var s0 := Init(entities, scheduled);
    if NeverReopens(cfg, s0, es) {
      FinishedRowsAreFinal(cfg, entities, scheduled, es);
    } else {
      var k :| 0 <= k < |es| && Reopens(Run(cfg, s0, es[..k]), es[k]);
      RowsOkAt(cfg, entities, scheduled, es, k);
      var before := Run(cfg, s0, es[..k]);
      ReopenedFrom(cfg, s0, es, k, before, before.jobs[es[k].j].index);
    }
  }

  lemma RowsOkAt(cfg: Config, entities: Table, scheduled: bool, es: seq<Event>, k: nat)
    requires cfg.batchSize >= 1 && Regular(Run(cfg, Init(entities, scheduled), es)) && k <= |es|
    ensures RowsOk(Run(cfg, Init(entities, scheduled), es[..k]))
  {
    Finalisation.RegularPrefix(cfg, Init(entities, scheduled), es, k);
    AlwaysRowsOk(cfg, entities, scheduled, es[..k]);
  }

  lemma ReopenedFrom(cfg: Config, s: State, es: seq<Event>, k: nat, before: State, i: nat)
    requires cfg.batchSize >= 1 && k < |es| && AccountedOnce(Run(cfg, s, es).past.accountings)
    requires before == Run(cfg, s, es[..k]) && RowsOk(before) && Reopens(before, es[k])
             && i == before.jobs[es[k].j].index
    ensures Reopened(Run(cfg, s, es), i)
  {
    ReopensMeans(cfg, before, es[k]);
    assert es[..k + 1][..k] == es[..k];
    ReopenedForever(cfg, s, es, k + 1, i);
  }
}
