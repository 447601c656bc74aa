/** What a finished action guarantees, with one planning pass and one accounting per batch. */
module Finishing {
  import opened Domain
  import opened Store
  import opened Protocol
  import opened Sums
  import opened OnePass
  import opened Closing
  import Lifecycle
  import Planning

  predicate AllAccounted(s: State) {
    forall i :: i in s.db.batches ==> i in Indices(s.past.accountings)
  }

  // ----- Counting batches ----------------------------------------------------------------

  lemma {:induction false} PrefixSize(n: nat, keys: set<nat>)
    requires forall i :: i in keys <==> 0 <= i < n
    ensures |keys| == n
  {
    if n == 0 {
      assert keys == {};
    } else {
      PrefixSize(n - 1, keys - {n - 1});
    }
  }

  /** With as many accountings as batches and none repeated, every batch has been accounted. */
  lemma Pigeonhole(s: State)
    requires Faithful(s) && AccountedOnce(s.past.accountings) && Prefix(s.db.batches, s.db.action.totalBatches)
    ensures |s.past.accountings| <= s.db.action.totalBatches
    ensures |s.past.accountings| == s.db.action.totalBatches <==> AllAccounted(s)
  {
    var acc, keys := s.past.accountings, s.db.batches.Keys;
    IndexCount(acc);
    PrefixSize(s.db.action.totalBatches, keys);
    assert Indices(acc) <= keys;
    Planning.SubsetCardinality(Indices(acc), keys);
    if AllAccounted(s) {
      assert Indices(acc) == keys;
    }
  }

  // ----- Counting entities ---------------------------------------------------------------

  function SumCounts(acc: seq<Accounting>): nat {
    if acc == [] then 0 else SumCounts(acc[..|acc| - 1]) + acc[|acc| - 1].entityCount
  }

  function SumEmitted(acc: seq<Accounting>): nat {
    if acc == [] then 0 else SumEmitted(acc[..|acc| - 1]) + acc[|acc| - 1].emitted
  }

  // No commit reported more entities than its batch was planned with.
  predicate Exact(acc: seq<Accounting>) {
    forall k :: 0 <= k < |acc| ==> acc[k].emitted == acc[k].entityCount
  }

  lemma {:induction false} EmittedCoversCounts(acc: seq<Accounting>)
    requires forall k :: 0 <= k < |acc| ==> acc[k].emitted >= acc[k].entityCount
    ensures SumEmitted(acc) >= SumCounts(acc)
    ensures SumEmitted(acc) == SumCounts(acc) <==> Exact(acc)
  {
    if acc != [] {
      var n := |acc| - 1;
      EmittedCoversCounts(acc[..n]);
      assert Exact(acc) <==> Exact(acc[..n]) && acc[n].emitted == acc[n].entityCount by {
        assert acc == acc[..n] + [acc[n]];
      }
    }
  }

  lemma StepKeepsEmitted(cfg: Config, s: State, e: Event)
    requires cfg.batchSize >= 1 && SumEmitted(s.past.accountings) == |s.db.logs|
    ensures SumEmitted(Step(cfg, s, e).past.accountings) == |Step(cfg, s, e).db.logs|
  {
    if Executes(s, e) || MarksFailed(s, e) {
      AccountingStep(cfg, s, e);
      var acc' := Step(cfg, s, e).past.accountings;
      assert acc'[..|acc'| - 1] == s.past.accountings;
    } else {
      OthersAreQuiet(cfg, s, e);
    }
  }

  lemma {:induction false} EmittedIsLogged(cfg: Config, entities: Table, scheduled: bool, es: seq<Event>)
    requires cfg.batchSize >= 1
    ensures var s := Run(cfg, Init(entities, scheduled), es); SumEmitted(s.past.accountings) == |s.db.logs|
  {
    if es != [] {
      EmittedIsLogged(cfg, entities, scheduled, es[..|es| - 1]);
      StepKeepsEmitted(cfg, Run(cfg, Init(entities, scheduled), es[..|es| - 1]), es[|es| - 1]);
    }
  }

  function Restrict(m: map<nat, nat>, ks: set<nat>): map<nat, nat> {
    map k | k in m && k in ks :: m[k]
  }

  lemma {:induction false} CountsOfAccounted(m: map<nat, nat>, acc: seq<Accounting>)
    requires AccountedOnce(acc) && forall k :: 0 <= k < |acc| ==>
               acc[k].index in m && m[acc[k].index] == acc[k].entityCount
    ensures SumCounts(acc) == Sum(Restrict(m, Indices(acc)))
  {
    if acc == [] {
      assert Restrict(m, Indices(acc)).Keys == {};
    } else {
      var n := |acc| - 1;
      var init, a := acc[..n], acc[n];
      assert acc == init + [a];
      FreshIndex(init, a);
      CountsOfAccounted(m, init);
      IndicesSnoc(init, a);
      RestrictGrows(m, Indices(init), a.index);
    }
  }

  lemma RestrictGrows(m: map<nat, nat>, ks: set<nat>, i: nat)
    requires i in m && i !in ks
    ensures Sum(Restrict(m, ks + {i})) == Sum(Restrict(m, ks)) + m[i]
  {
    var r := Restrict(m, ks);
    SumSet(r, i, m[i]);
    assert Restrict(m, ks + {i}) == r[i := m[i]];
  }

  lemma CountsOfAll(s: State)
    requires Faithful(s) && AccountedOnce(s.past.accountings) && AllAccounted(s)
    ensures SumCounts(s.past.accountings) == Sum(Planned(s.db.batches))
  {
    var m := Planned(s.db.batches);
    CountsOfAccounted(m, s.past.accountings);
    assert Restrict(m, Indices(s.past.accountings)) == m;
  }

  // ----- Finished actions ----------------------------------------------------------------

  ghost predicate VerdictOk(a: ActionRow) {
    (a.status == Completed ==> a.failure == 0) && (a.status == CompletedWithErrors ==> a.failure > 0)
  }

  lemma FinishedIsAllAccounted(s: State)
    requires Faithful(s) && CountersAgree(s) && PassOk(s) && AccountedOnce(s.past.accountings)
    requires s.db.action.status.Finished()
    ensures AllAccounted(s) && |s.past.accountings| == s.db.action.totalBatches
  {
    Pigeonhole(s);
  }

  lemma StepKeepsVerdict(cfg: Config, s: State, e: Event)
    requires cfg.batchSize >= 1 && Faithful(s) && CountersAgree(s) && PassOk(s) && VerdictOk(s.db.action)
    requires AccountedOnce(s.past.accountings) && AccountedOnce(Step(cfg, s, e).past.accountings)
    requires SumEmitted(s.past.accountings) == |s.db.logs|
    ensures VerdictOk(Step(cfg, s, e).db.action)
  {
    var s' := Step(cfg, s, e);
    if s.db.action.status.Finished() {
      Lifecycle.TerminalStep(cfg, s, e);
      FinishedIsAllAccounted(s);
      if Executes(s, e) || MarksFailed(s, e) {
        AccountingStep(cfg, s, e);
        FreshIndex(s.past.accountings, s'.past.accountings[|s.past.accountings|]);
        assert false;
      } else {
        OthersAreQuiet(cfg, s, e);
      }
    } else if s'.db.action.status.Finished() && !e.Finalise? {
      EmptyPlanClose(cfg, s, e);
    }
  }

  // The only other way to finish is a planner that found nothing; then nothing was accounted.
  lemma EmptyPlanClose(cfg: Config, s: State, e: Event)
    requires cfg.batchSize >= 1 && Faithful(s) && CountersAgree(s) && PassOk(s)
    requires SumEmitted(s.past.accountings) == |s.db.logs|
    requires !s.db.action.status.Finished() && Step(cfg, s, e).db.action.status.Finished() && !e.Finalise?
    ensures Step(cfg, s, e).db.action.status == Completed && Step(cfg, s, e).db.action.failure == 0
    ensures !Step(cfg, s, e).past.started
  {
    assert e.PlanClose? && e.p in s.planners;
    assert PlannerOk(s.db.batches, s.planners[e.p]);
    assert s.past.accountings == [] && s.db.logs == [];
  }

  // The run conditions of this module: one planning pass, one accounting per batch.
  predicate Regular(s: State) {
    s.past.plansOpened <= 1 && AccountedOnce(s.past.accountings)
  }

  lemma RegularBefore(cfg: Config, s: State, e: Event)
    requires cfg.batchSize >= 1 && Regular(Step(cfg, s, e))
    ensures Regular(s)
  {
    PassesOnlyGrow(cfg, s, e);
    OnceBefore(cfg, s, e);
  }

  ghost predicate Sound(s: State) {
    && Faithful(s) && CountersAgree(s) && PassOk(s) && RowsOk(s) && VerdictOk(s.db.action)
    && SumEmitted(s.past.accountings) == |s.db.logs|
  }

  lemma {:induction false} AlwaysSound(cfg: Config, entities: Table, scheduled: bool, es: seq<Event>)
    requires cfg.batchSize >= 1 && Regular(Run(cfg, Init(entities, scheduled), es))
    ensures Sound(Run(cfg, Init(entities, scheduled), es))
  {
    AlwaysFaithful(cfg, entities, scheduled, es);
    CountersAlwaysAgree(cfg, entities, scheduled, es);
    AlwaysPassOk(cfg, entities, scheduled, es);
    AlwaysRowsOk(cfg, entities, scheduled, es);
    EmittedIsLogged(cfg, entities, scheduled, es);
    if es != [] {
      var n := |es| - 1;
      var before := Run(cfg, Init(entities, scheduled), es[..n]);
      RegularBefore(cfg, before, es[n]);
      AlwaysSound(cfg, entities, scheduled, es[..n]);
      StepKeepsVerdict(cfg, before, es[n]);
    }
  }

  // All that a finished action stands for.
  ghost predicate Concluded(s: State) {
    var a := s.db.action;
    && AllAccounted(s) && a.completedBatches == a.totalBatches == |s.db.batches|
    && a.processed >= a.totalEntities
    && (a.processed == a.totalEntities <==> Exact(s.past.accountings))
    && SumsMatch(s.db)
    && (a.status == Completed <==> CountLogs(s.db.logs, Failed) == 0)
  }

  /** What "completed" means.  In any run with one planning pass and one accounting per batch, over
      all interleavings, redeliveries, crashes and outside writers: a finished action has accounted
      every batch exactly once, processed at least what was planned (and exactly that if and only if
      no commit found more rows than its batch was planned with), batch-row counts that add up
      to the action's counters, and status `completed` exactly when no log row is a failure. */
  lemma FinishedMeans(cfg: Config, entities: Table, scheduled: bool, es: seq<Event>)
    requires cfg.batchSize >= 1
    requires var s := Run(cfg, Init(entities, scheduled), es); Regular(s) && s.db.action.status.Finished()
    ensures Concluded(Run(cfg, Init(entities, scheduled), es))
  {
    var s := Run(cfg, Init(entities, scheduled), es);
    AlwaysSound(cfg, entities, scheduled, es);
    FinishedIsAllAccounted(s);
    CountsOfAll(s);
    EmittedCoversCounts(s.past.accountings);
    PrefixSize(s.db.action.totalBatches, s.db.batches.Keys);
  }

  // ----- Batch row statuses --------------------------------------------------------------

  // A redelivered job for a failed batch that gets as far as recording an attempt.
  predicate Reopens(s: State, e: Event) {
    e.Attempt? && At(s, e.j, Admitted) && s.jobs[e.j].index in s.db.batches
    && s.db.batches[s.jobs[e.j].index].status == BatchFailed
  }

  predicate NeverReopens(cfg: Config, s: State, es: seq<Event>)
    requires cfg.batchSize >= 1
  {
    forall k :: 0 <= k < |es| ==> !Reopens(Run(cfg, s, es[..k]), es[k])
  }

  ghost predicate FailuresShow(s: State) {
    forall k :: 0 <= k < |s.past.accountings| && !s.past.accountings[k].executed ==>
      var i := s.past.accountings[k].index;
      i in s.db.batches && (s.db.batches[i].status == BatchFailed || s.db.action.status == ActionCancelled)
  }

  lemma StepKeepsFailures(cfg: Config, s: State, e: Event)
    requires cfg.batchSize >= 1 && FailuresShow(s) && Faithful(s) && !Reopens(s, e)
    requires AccountedOnce(Step(cfg, s, e).past.accountings)
    ensures FailuresShow(Step(cfg, s, e))
  {
    var s' := Step(cfg, s, e);
    if s.db.action.status == ActionCancelled {
      Lifecycle.TerminalStep(cfg, s, e);
    }
    StepKeepsWork(cfg, s, e);
    if Executes(s, e) || MarksFailed(s, e) {
      AccountingStep(cfg, s, e);
      AccountsFreshIndex(cfg, s, e);
    } else {
      OthersAreQuiet(cfg, s, e);
      FailedStaysFailed(cfg, s, e);
    }
    KeepsFailures(s, s');
  }

  lemma FailedStaysFailed(cfg: Config, s: State, e: Event)
    requires cfg.batchSize >= 1 && !Reopens(s, e) && !Executes(s, e)
    ensures var s' := Step(cfg, s, e);
            forall i :: i in s.db.batches && s.db.batches[i].status == BatchFailed ==>
              i in s'.db.batches && (s'.db.batches[i].status == BatchFailed || s'.db.action.status == ActionCancelled)
  {
    if e.PlanFlush? && e.p in s.planners {
      InsertBatchesKeeps(s.db.batches, FirstPending(s.planners[e.p]), s.planners[e.p].pending);
    }
  }

  lemma KeepsFailures(s: State, s': State)
    requires FailuresShow(s) && s.past.accountings <= s'.past.accountings
    requires s.db.action.status == ActionCancelled ==> s'.db.action.status == ActionCancelled
    requires forall k :: |s.past.accountings| <= k < |s'.past.accountings| && !s'.past.accountings[k].executed ==>
               s'.past.accountings[k].index in s'.db.batches
                   && s'.db.batches[s'.past.accountings[k].index].status == BatchFailed
    requires forall i :: i in s.db.batches ==> i in s'.db.batches
    requires forall i :: (i in Indices(s.past.accountings) && i in s.db.batches
                          && s.db.batches[i].status == BatchFailed) ==>
               s'.db.batches[i].status == BatchFailed || s'.db.action.status == ActionCancelled
    ensures FailuresShow(s')
  {
    forall k | 0 <= k < |s'.past.accountings| && !s'.past.accountings[k].executed
      ensures var i := s'.past.accountings[k].index;
              i in s'.db.batches && (s'.db.batches[i].status == BatchFailed || s'.db.action.status == ActionCancelled)
    {
      if k < |s.past.accountings| {
        assert s.past.accountings[k] == s'.past.accountings[k];
        assert s.past.accountings[k].index in Indices(s.past.accountings);
      }
    }
  }

  lemma {:induction false} AlwaysFailuresShow(cfg: Config, entities: Table, scheduled: bool, es: seq<Event>)
    requires cfg.batchSize >= 1 && AccountedOnce(Run(cfg, Init(entities, scheduled), es).past.accountings)
    requires NeverReopens(cfg, Init(entities, scheduled), es)
    ensures FailuresShow(Run(cfg, Init(entities, scheduled), es))
  {
    if es != [] {
      var n, s0 := |es| - 1, Init(entities, scheduled);
      var before := Run(cfg, s0, es[..n]);
      OnceBefore(cfg, before, es[n]);
      forall k | 0 <= k < n ensures !Reopens(Run(cfg, s0, es[..n][..k]), es[..n][k]) {
        assert es[..n][..k] == es[..k];
      }
      AlwaysFailuresShow(cfg, entities, scheduled, es[..n]);
      AlwaysFaithful(cfg, entities, scheduled, es[..n]);
      StepKeepsFailures(cfg, before, es[n]);
    }
  }

  /** If moreover no failed batch is re-opened by a redelivery, every batch row of a finished
      action reads `completed` or `failed`. */
  lemma FinishedRowsAreFinal(cfg: Config, entities: Table, scheduled: bool, es: seq<Event>)
    requires cfg.batchSize >= 1
    requires var s := Run(cfg, Init(entities, scheduled), es); Regular(s) && s.db.action.status.Finished()
    requires NeverReopens(cfg, Init(entities, scheduled), es)
    ensures var s := Run(cfg, Init(entities, scheduled), es);
            forall i :: i in s.db.batches ==>
                  s.db.batches[i].status == BatchCompleted || s.db.batches[i].status == BatchFailed
  {
    var s := Run(cfg, Init(entities, scheduled), es);
    FinishedMeans(cfg, entities, scheduled, es);
    AlwaysFailuresShow(cfg, entities, scheduled, es);
    AlwaysRowsOk(cfg, entities, scheduled, es);
    forall i | i in s.db.batches
      ensures s.db.batches[i].status == BatchCompleted || s.db.batches[i].status == BatchFailed
    {
      assert i in Indices(s.past.accountings);
      var k :| 0 <= k < |s.past.accountings| && s.past.accountings[k].index == i;
      assert Reflects(s.db.batches[i], s.past.accountings[k]);
    }
  }
}
