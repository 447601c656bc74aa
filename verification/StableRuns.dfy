/**
 What "completed" means over any number of planning passes, crashed and overlapping ones included:
 always for explicitly named entities, and for a filter while its page reads see one target set.
 */
module StableRuns {
  import opened Domain
  import opened Store
  import opened Protocol
  import opened OnePass
  import opened Closing
  import opened Finishing
  import opened Replanning
  import Lifecycle
  import Planning

  ghost predicate Complete(plan: seq<PlannedBatch>, s: State) {
    && VerdictOk(s.db.action)
    && (s.db.action.status.Finished() ==> s.db.action.completedBatches >= |plan|)
  }

  // The two ways of finishing.
  lemma HowItFinishes(cfg: Config, s: State, e: Event)
    requires cfg.batchSize >= 1 && !s.db.action.status.Finished() && Step(cfg, s, e).db.action.status.Finished()
    ensures var a, a' := s.db.action, Step(cfg, s, e).db.action;
            (MayFinalize(a) && a' == FinalizeIfComplete(a))
            || (a'.status == Completed && a'.totalBatches == 0 && a'.failure == a.failure)
  {}

  lemma FollowsIsPrefix(cfg: Config, target: set<Id>, plan: seq<PlannedBatch>, s: State)
    requires Follows(cfg, target, plan, s) && Totalled(s.db.action)
    ensures Prefix(s.db.batches, |plan|) && s.db.action.totalBatches == |plan|
  {}

  lemma AllDone(cfg: Config, target: set<Id>, plan: seq<PlannedBatch>, s: State)
    requires Follows(cfg, target, plan, s) && Faithful(s) && CountersAgree(s) && AccountedOnce(s.past.accountings)
    requires Complete(plan, s) && s.db.action.status.Finished()
    ensures AllAccounted(s) && |s.past.accountings| == |plan| == s.db.action.totalBatches
  {
    FollowsIsPrefix(cfg, target, plan, s);
    Pigeonhole(s);
  }

  lemma NothingMoreToAccount(cfg: Config, s: State, e: Event)
    requires cfg.batchSize >= 1 && Faithful(s) && AllAccounted(s)
    requires AccountedOnce(Step(cfg, s, e).past.accountings)
    ensures Counters(Step(cfg, s, e).db.action) == Counters(s.db.action)
  {
    if Executes(s, e) || MarksFailed(s, e) {
      AccountsFreshIndex(cfg, s, e);
      assert false;
    } else {
      OthersAreQuiet(cfg, s, e);
    }
  }

  lemma NoPlanNoFailure(s: State)
    requires Faithful(s) && CountersAgree(s) && Prefix(s.db.batches, 0) && SumEmitted(s.past.accountings) == |s.db.logs|
    ensures s.db.action.failure == 0
  {
    assert s.past.accountings == [];
  }

  lemma StepKeepsComplete(cfg: Config, target: set<Id>, plan: seq<PlannedBatch>, s: State, e: Event)
    requires cfg.batchSize >= 1 && Complete(plan, s)
    requires Follows(cfg, target, plan, s) && Follows(cfg, target, plan, Step(cfg, s, e))
    requires Faithful(s) && CountersAgree(s) && SumEmitted(s.past.accountings) == |s.db.logs|
    requires AccountedOnce(s.past.accountings) && AccountedOnce(Step(cfg, s, e).past.accountings)
    requires Faithful(Step(cfg, s, e)) && CountersAgree(Step(cfg, s, e))
    requires SumEmitted(Step(cfg, s, e).past.accountings) == |Step(cfg, s, e).db.logs|
    ensures Complete(plan, Step(cfg, s, e))
  {
    var s' := Step(cfg, s, e);
    if s.db.action.status.Finished() {
      AllDone(cfg, target, plan, s);
      Lifecycle.TerminalStep(cfg, s, e);
      NothingMoreToAccount(cfg, s, e);
    } else if s'.db.action.status.Finished() {
      HowItFinishes(cfg, s, e);
      FollowsIsPrefix(cfg, target, plan, s');
      if MayFinalize(s.db.action) {
        FollowsIsPrefix(cfg, target, plan, s);
      }
      if |plan| == 0 {
        NoPlanNoFailure(s');
      }
    }
  }

  lemma {:induction false} AlwaysComplete(cfg: Config, target: set<Id>, entities: Table, scheduled: bool,
                                          es: seq<Event>)
    requires cfg.batchSize >= 1 && StableRun(cfg, target, Init(entities, scheduled), es)
    requires AccountedOnce(Run(cfg, Init(entities, scheduled), es).past.accountings)
    ensures Complete(CleanPlan(cfg, target), Run(cfg, Init(entities, scheduled), es))
  {
    if es != [] {
      var n, s0 := |es| - 1, Init(entities, scheduled);
      var before := Run(cfg, s0, es[..n]);
      OnceBefore(cfg, before, es[n]);
      StablePrefix(cfg, target, s0, es, n);
      AlwaysComplete(cfg, target, entities, scheduled, es[..n]);
      AlwaysTracked(cfg, target, entities, scheduled, es[..n]);
      AlwaysTracked(cfg, target, entities, scheduled, es);
      StepKeepsComplete(cfg, target, CleanPlan(cfg, target), before, es[n]);
    }
  }

  lemma AlwaysTracked(cfg: Config, target: set<Id>, entities: Table, scheduled: bool, es: seq<Event>)
    requires cfg.batchSize >= 1 && StableRun(cfg, target, Init(entities, scheduled), es)
    ensures var s := Run(cfg, Init(entities, scheduled), es);
            Follows(cfg, target, CleanPlan(cfg, target), s) && Faithful(s) && CountersAgree(s)
            && SumEmitted(s.past.accountings) == |s.db.logs|
  {
    AlwaysFollows(cfg, target, entities, scheduled, es);
    AlwaysFaithful(cfg, entities, scheduled, es);
    CountersAlwaysAgree(cfg, entities, scheduled, es);
    EmittedIsLogged(cfg, entities, scheduled, es);
  }

  lemma TrackedMeans(cfg: Config, target: set<Id>, plan: seq<PlannedBatch>, s: State)
    requires Follows(cfg, target, plan, s) && Faithful(s) && CountersAgree(s) && AccountedOnce(s.past.accountings)
    requires Complete(plan, s) && s.db.action.status.Finished() && SumsMatch(s.db)
    requires SumEmitted(s.past.accountings) == |s.db.logs|
    ensures Concluded(s)
  {
    AllDone(cfg, target, plan, s);
    FollowsIsPrefix(cfg, target, plan, s);
    assert SumCounts(s.past.accountings) == s.db.action.totalEntities by {
      CountsOfAll(s);
      SumOfPlan(s.db.batches, plan);
    }
    EmittedCoversCounts(s.past.accountings);
    PrefixSize(|plan|, s.db.batches.Keys);
  }

  /** The guarantee of `FinishedMeans` without the single pass: a finished action has accounted every
      batch, has processed at least its total, and reads `completed` exactly when nothing failed,
      however often it was planned, as long as page reads of a filter see one target set. */
  lemma FinishedMeansOverPasses(cfg: Config, target: set<Id>, entities: Table, scheduled: bool, es: seq<Event>)
    requires cfg.batchSize >= 1 && StableRun(cfg, target, Init(entities, scheduled), es)
    requires var s := Run(cfg, Init(entities, scheduled), es);
             AccountedOnce(s.past.accountings) && s.db.action.status.Finished()
    ensures Concluded(Run(cfg, Init(entities, scheduled), es))
  {
    AlwaysTracked(cfg, target, entities, scheduled, es);
    AlwaysComplete(cfg, target, entities, scheduled, es);
    AlwaysRowsOk(cfg, entities, scheduled, es);
    TrackedMeans(cfg, target, CleanPlan(cfg, target), Run(cfg, Init(entities, scheduled), es));
  }

  /** For explicitly named entities nothing else is needed, and the totals are exact. */
  lemma ExplicitFinishedMeans(cfg: Config, ids: seq<Id>, entities: Table, scheduled: bool, es: seq<Event>)
    requires cfg.batchSize >= 1 && cfg.explicitIds == Some(ids)
    requires var s := Run(cfg, Init(entities, scheduled), es);
             AccountedOnce(s.past.accountings) && s.db.action.status.Finished()
    ensures var s := Run(cfg, Init(entities, scheduled), es);
            Concluded(s) && s.db.action.processed == s.db.action.totalEntities == |Planning.ToSet(ids)|
  {
    ExplicitRunsAreStable(cfg, Init(entities, scheduled), es);
    FinishedMeansOverPasses(cfg, {}, entities, scheduled, es);
    ExplicitIdsExact(cfg, entities, scheduled, es, ids);
  }
}
