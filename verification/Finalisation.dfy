/**
 When an action finishes.  Workers close the action, not the planner, and a worker can only close
 it once the planner has moved it to `processing`; so finishing depends on a finalise block
 running late enough.
 */
module Finalisation {
  import opened Domain
  import opened Store
  import opened Protocol
  import opened Finishing
  import Lifecycle

  predicate Broken(st: ActionStatus) {
    st == ActionCancelled || st == ActionFailed
  }

  // A run that does not end cancelled or failed was neither at any moment.
  lemma {:induction false} NeverBroken(cfg: Config, s: State, es: seq<Event>, k: nat)
    requires cfg.batchSize >= 1 && k <= |es| && !Broken(Run(cfg, s, es).db.action.status)
    ensures !Broken(Run(cfg, s, es[..k]).db.action.status)
    decreases |es|
  {
    if k == |es| {
      assert es[..k] == es;
    } else {
      var n := |es| - 1;
      var before := Run(cfg, s, es[..n]);
      if before.db.action.status.Terminal() {
        Lifecycle.TerminalStep(cfg, before, es[n]);
      }
      NeverBroken(cfg, s, es[..n], k);
      assert es[..n][..k] == es[..k];
    }
  }

  // A finalise block that runs after mark_started and after the last batch was accounted.
  predicate Effective(s: State, e: Event) {
    Finalises(s, e) && s.past.started && AllAccounted(s)
  }

  ghost predicate EffectiveAt(cfg: Config, s0: State, es: seq<Event>, k: int)
    requires cfg.batchSize >= 1
  {
    0 <= k < |es| && Effective(Run(cfg, s0, es[..k]), es[k])
  }

  lemma EffectiveFinishes(cfg: Config, s: State, e: Event)
    requires cfg.batchSize >= 1 && Sound(s) && Regular(s) && Effective(s, e) && !Broken(s.db.action.status)
    ensures Step(cfg, s, e).db.action.status.Finished()
  {
    assert Step(cfg, s, e).db.action == FinalizeIfComplete(s.db.action);
    ReadyToFinalise(s);
  }

  lemma ReadyToFinalise(s: State)
    requires Sound(s) && Regular(s) && s.past.started && AllAccounted(s) && !Broken(s.db.action.status)
    ensures MayFinalize(s.db.action) || s.db.action.status.Finished()
  {
    if s.db.action.status == Processing {
      Pigeonhole(s);
    }
  }

  lemma FinishingIsEffective(cfg: Config, s: State, e: Event)
    requires cfg.batchSize >= 1 && Sound(s) && Regular(s)
    requires !s.db.action.status.Finished() && Step(cfg, s, e).db.action.status.Finished()
    requires Step(cfg, s, e).past.started
    ensures Effective(s, e)
  {
    if !e.Finalise? {
      EmptyPlanClose(cfg, s, e);
    } else {
      assert MayFinalize(s.db.action);
      Pigeonhole(s);
    }
  }

  lemma StartedBeforeFinished(cfg: Config, s: State, e: Event)
    requires cfg.batchSize >= 1 && s.db.action.status.Finished() && Step(cfg, s, e).past.started
    ensures s.past.started
  {}

  lemma {:induction false} RegularPrefix(cfg: Config, s: State, es: seq<Event>, k: nat)
    requires cfg.batchSize >= 1 && k <= |es| && Regular(Run(cfg, s, es))
    ensures Regular(Run(cfg, s, es[..k]))
    decreases |es|
  {
    if k == |es| {
      assert es[..k] == es;
    } else {
      var n := |es| - 1;
      RegularBefore(cfg, Run(cfg, s, es[..n]), es[n]);
      RegularPrefix(cfg, s, es[..n], k);
      assert es[..n][..k] == es[..k];
    }
  }

  lemma {:induction false} FinishedStays(cfg: Config, s: State, es: seq<Event>, k: nat)
    requires cfg.batchSize >= 1 && k <= |es| && Run(cfg, s, es[..k]).db.action.status.Finished()
    ensures Run(cfg, s, es).db.action.status.Finished()
    decreases |es|
  {
    if k == |es| {
      assert es[..k] == es;
    } else {
      var n := |es| - 1;
      assert es[..n][..k] == es[..k];
      FinishedStays(cfg, s, es[..n], k);
      Lifecycle.TerminalStep(cfg, Run(cfg, s, es[..n]), es[n]);
    }
  }

  lemma {:induction false} FinishedHasCause(cfg: Config, entities: Table, scheduled: bool, es: seq<Event>)
    requires cfg.batchSize >= 1
    requires var s := Run(cfg, Init(entities, scheduled), es);
             Regular(s) && s.past.started && s.db.action.status.Finished()
    ensures exists k :: EffectiveAt(cfg, Init(entities, scheduled), es, k)
  {
    var n, s0 := |es| - 1, Init(entities, scheduled);
    var before := Run(cfg, s0, es[..n]);
    RegularBefore(cfg, before, es[n]);
    if before.db.action.status.Finished() {
      StartedBeforeFinished(cfg, before, es[n]);
      FinishedHasCause(cfg, entities, scheduled, es[..n]);
      var k :| EffectiveAt(cfg, s0, es[..n], k);
      assert es[..n][..k] == es[..k];
      assert EffectiveAt(cfg, s0, es, k);
    } else {
      AlwaysSound(cfg, entities, scheduled, es[..n]);
      FinishingIsEffective(cfg, before, es[n]);
      assert EffectiveAt(cfg, s0, es, n);
    }
  }

  /** Conditional finalisation.  In a run with one planning pass and one accounting per batch that
      does not end cancelled or failed, once mark_started has committed: the action is finished
      exactly when some finalise block ran after both that commit and the last batch's accounting
      commit; otherwise it is still `processing`. */
  lemma FinishesExactlyWhen(cfg: Config, entities: Table, scheduled: bool, es: seq<Event>)
    requires cfg.batchSize >= 1
    requires var s := Run(cfg, Init(entities, scheduled), es);
             Regular(s) && s.past.started && !Broken(s.db.action.status)
    ensures var st := Run(cfg, Init(entities, scheduled), es).db.action.status;
            (st.Finished() <==> exists k :: EffectiveAt(cfg, Init(entities, scheduled), es, k))
            && (!st.Finished() ==> st == Processing)
  {
    var s0 := Init(entities, scheduled);
    var s := Run(cfg, s0, es);
    AlwaysSound(cfg, entities, scheduled, es);
    if s.db.action.status.Finished() {
      FinishedHasCause(cfg, entities, scheduled, es);
    }
    if k :| EffectiveAt(cfg, s0, es, k) {
      CauseFinishes(cfg, entities, scheduled, es, k);
    }
  }

  lemma CauseFinishes(cfg: Config, entities: Table, scheduled: bool, es: seq<Event>, k: nat)
    requires cfg.batchSize >= 1 && Regular(Run(cfg, Init(entities, scheduled), es))
    requires !Broken(Run(cfg, Init(entities, scheduled), es).db.action.status)
    requires EffectiveAt(cfg, Init(entities, scheduled), es, k)
    ensures Run(cfg, Init(entities, scheduled), es).db.action.status.Finished()
  {
    var s0 := Init(entities, scheduled);
    RegularPrefix(cfg, s0, es, k);
    AlwaysSound(cfg, entities, scheduled, es[..k]);
    NeverBroken(cfg, s0, es, k);
    EffectiveFinishes(cfg, Run(cfg, s0, es[..k]), es[k]);
    assert es[..k + 1][..k] == es[..k];
    FinishedStays(cfg, s0, es, k + 1);
  }

  // ----- The stranded state --------------------------------------------------------------

  // Everything is done, nothing is in flight, and the action still reads `processing`.
  predicate Stranded(s: State) {
    && s.db.action.status == Processing
    && s.jobs.Keys == {} && s.planners.Keys == {}
    && forall i :: i in s.db.batches ==> s.db.batches[i].status == BatchCompleted
  }

  lemma StrandedStep(cfg: Config, s: State, e: Event)
    requires cfg.batchSize >= 1 && Stranded(s) && !e.PlanOpen? && !e.Cancel?
    ensures Stranded(Step(cfg, s, e))
  {
    var s' := Step(cfg, s, e);
    assert forall p :: p !in s.planners.Keys;
    assert forall j :: j !in s.jobs.Keys;
    match e {
      case PlanCrash(p) => assert s'.planners.Keys == {};
      case JobCrash(j) => assert s'.jobs.Keys == {};
      case OutsideWrite(_) =>
      case Deliver(_, _) =>
      case _ =>
    }
  }

  /** No delivery, however often repeated, and no outside write ever finishes a stranded action:
      only a new planning pass or a cancel can move it. */
  lemma {:induction false} StrandedForever(cfg: Config, s: State, es: seq<Event>)
    requires cfg.batchSize >= 1 && Stranded(s)
    requires forall k :: 0 <= k < |es| ==> !es[k].PlanOpen? && !es[k].Cancel?
    ensures Stranded(Run(cfg, s, es))
  {
    if es != [] {
      var n := |es| - 1;
      StrandedForever(cfg, s, es[..n]);
      StrandedStep(cfg, Run(cfg, s, es[..n]), es[n]);
    }
  }
}
