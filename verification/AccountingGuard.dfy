/**
 One accounting per batch, as a guard on the batch row.  The execute and mark-failed transactions
 test at most `completed`; this module shows which test would have been enough, and that a run
 accounts every batch at most once exactly when all its accounting commits pass that test.
 */
module AccountingGuard {
  import opened Domain
  import opened Protocol
  import opened Closing
  import opened BatchSizes

  // ----- The guard -----------------------------------------------------------------------

  // Not completed, not failed, and no counts on it: readable from the row before the commit.
  predicate Guarded(s: State, e: Event) {
    Executes(s, e) || MarksFailed(s, e) ==> Blank(s.db.batches[s.jobs[e.j].index])
  }

  predicate GuardedRun(cfg: Config, s: State, es: seq<Event>)
    requires cfg.batchSize >= 1
  {
    forall k :: 0 <= k < |es| ==> Guarded(Run(cfg, s, es[..k]), es[k])
  }

  lemma BlankIsUnaccounted(s: State, i: nat, size: nat)
    requires RowsOk(s) && AllSized(s, size) && i in s.db.batches
    ensures Blank(s.db.batches[i]) <==> i !in Indices(s.past.accountings)
  {
    var acc := s.past.accountings;
    if i in Indices(acc) {
      var k :| 0 <= k < |acc| && acc[k].index == i;
      assert Reflects(s.db.batches[i], acc[k]);
    }
  }

  lemma OnceSnoc(acc: seq<Accounting>, a: Accounting)
    requires AccountedOnce(acc) && a.index !in Indices(acc)
    ensures AccountedOnce(acc + [a])
  {
    forall i | 0 <= i < |acc| ensures acc[i].index != a.index {
      assert acc[i].index in Indices(acc);
    }
  }

  lemma AccountsOnceStep(cfg: Config, s: State, e: Event)
    requires cfg.batchSize >= 1 && RowsOk(s) && AllSized(s, cfg.batchSize) && AccountedOnce(s.past.accountings)
    ensures AccountedOnce(Step(cfg, s, e).past.accountings) <==> Guarded(s, e)
  {
    if Executes(s, e) || MarksFailed(s, e) {
      var acc, acc' := s.past.accountings, Step(cfg, s, e).past.accountings;
      AccountingStep(cfg, s, e);
      BlankIsUnaccounted(s, s.jobs[e.j].index, cfg.batchSize);
      if Guarded(s, e) {
        OnceSnoc(acc, acc'[|acc|]);
      } else if AccountedOnce(acc') {
        FreshIndex(acc, acc'[|acc|]);
      }
    } else {
      OthersAreQuiet(cfg, s, e);
    }
  }

  lemma GuardedInit(cfg: Config, s: State, es: seq<Event>, n: nat)
    requires cfg.batchSize >= 1 && n + 1 == |es| && GuardedRun(cfg, s, es)
    ensures GuardedRun(cfg, s, es[..n]) && Guarded(Run(cfg, s, es[..n]), es[n])
  {
    forall k | 0 <= k < n ensures Guarded(Run(cfg, s, es[..n][..k]), es[..n][k]) {
      assert es[..n][..k] == es[..k] && es[..n][k] == es[k];
    }
  }

  lemma GuardedSnoc(cfg: Config, s: State, es: seq<Event>, n: nat)
    requires cfg.batchSize >= 1 && n + 1 == |es| && GuardedRun(cfg, s, es[..n]) && Guarded(Run(cfg, s, es[..n]), es[n])
    ensures GuardedRun(cfg, s, es)
  {
    forall k | 0 <= k < |es| ensures Guarded(Run(cfg, s, es[..k]), es[k]) {
      if k < n {
        assert es[..n][..k] == es[..k] && es[..n][k] == es[k];
      }
    }
  }

  /** Over every run: each batch is accounted at most once if and only if every accounting commit
      found its batch row neither completed nor failed and without counts. */
  lemma {:induction false} OnceExactlyWhenGuarded(cfg: Config, entities: Table, scheduled: bool, es: seq<Event>)
    requires cfg.batchSize >= 1
    ensures AccountedOnce(Run(cfg, Init(entities, scheduled), es).past.accountings)
            <==> GuardedRun(cfg, Init(entities, scheduled), es)
  {
    if es != [] {
      var n, s0 := |es| - 1, Init(entities, scheduled);
      var before := Run(cfg, s0, es[..n]);
      OnceExactlyWhenGuarded(cfg, entities, scheduled, es[..n]);
      if GuardedRun(cfg, s0, es) {
        GuardedInit(cfg, s0, es, n);
      } else if GuardedRun(cfg, s0, es[..n]) && Guarded(before, es[n]) {
        GuardedSnoc(cfg, s0, es, n);
      }
      if AccountedOnce(before.past.accountings) {
        AlwaysRowsOk(cfg, entities, scheduled, es[..n]);
        AlwaysSized(cfg, entities, scheduled, es[..n]);
        AccountsOnceStep(cfg, before, es[n]);
      } else if AccountedOnce(Step(cfg, before, es[n]).past.accountings) {
        OnceBefore(cfg, before, es[n]);
      }
    }
  }
}
