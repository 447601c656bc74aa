/**
 Lifecycle safety over all interleavings: terminal statuses are absorbing, an action closes at most
 once, and what a cancellation stops and keeps.
 */
module Lifecycle {
  import opened Domain
  import opened Store
  import opened Protocol
  import opened Sums

  lemma TerminalStep(cfg: Config, s: State, e: Event)
    requires cfg.batchSize >= 1 && s.db.action.status.Terminal()
    ensures Step(cfg, s, e).db.action.status == s.db.action.status
  {}

  /** Once terminal, always that status: no re-planner, worker, canceller or failure moves it. */
  lemma {:induction false} TerminalIsAbsorbing(cfg: Config, s: State, es: seq<Event>)
    requires cfg.batchSize >= 1 && s.db.action.status.Terminal()
    ensures Run(cfg, s, es).db.action.status == s.db.action.status
  {
    if es != [] {
      var n := |es| - 1;
      TerminalIsAbsorbing(cfg, s, es[..n]);
      TerminalStep(cfg, Run(cfg, s, es[..n]), es[n]);
    }
  }

  // How many steps of a run take the action from open to closed.
  function Closings(cfg: Config, s: State, es: seq<Event>): nat
    requires cfg.batchSize >= 1
  {
    if es == [] then 0
    else
      var n := |es| - 1;
      var before := Run(cfg, s, es[..n]);
      var after := Step(cfg, before, es[n]);
      Closings(cfg, s, es[..n])
      + (if !before.db.action.status.Terminal() && after.db.action.status.Terminal() then 1 else 0)
  }

  /** Exactly one step closes an action that ends closed, and none closes one that ends open. */
  lemma {:induction false} ClosesOnce(cfg: Config, s: State, es: seq<Event>)
    requires cfg.batchSize >= 1 && !s.db.action.status.Terminal()
    ensures Closings(cfg, s, es) == if Run(cfg, s, es).db.action.status.Terminal() then 1 else 0
  {
    if es != [] {
      var n := |es| - 1;
      ClosesOnce(cfg, s, es[..n]);
      var before := Run(cfg, s, es[..n]);
      if before.db.action.status.Terminal() {
        TerminalStep(cfg, before, es[n]);
      }
    }
  }

  // ----- Cancellation --------------------------------------------------------------------

  // How many more accounting commits a job can make from where it is.
  function Weight(pc: Pc): nat {
    match pc
    case AtGate => 2 case Admitted => 2 case Attempted => 2
    case AtFinalise => 1 case AtMarkFailed => 1
    case AtLastFinalise => 0
  }

  function Weights(jobs: map<nat, Job>): map<nat, nat> {
    map j | j in jobs :: Weight(jobs[j].pc)
  }

  lemma MoveWeights(jobs: map<nat, Job>, j: nat, pc: Pc)
    requires j in jobs
    ensures Sum(Weights(jobs[j := jobs[j].(pc := pc)])) == Sum(Weights(jobs)) - Weight(jobs[j].pc) + Weight(pc)
  {
    SumSet(Weights(jobs), j, Weight(pc));
    assert Weights(jobs[j := jobs[j].(pc := pc)]) == Weights(jobs)[j := Weight(pc)];
  }

  lemma DropWeights(jobs: map<nat, Job>, j: nat)
    ensures Sum(Weights(jobs - {j})) <= Sum(Weights(jobs))
  {
    SumDrop(Weights(jobs), j);
    assert Weights(jobs - {j}) == Weights(jobs) - {j};
  }

  // Jobs after `s` are jobs of `s`, still for the same batch.
  predicate OnlyOldJobs(s: State, s': State) {
    forall j :: j in s'.jobs ==> j in s.jobs && s'.jobs[j].index == s.jobs[j].index
  }

  // With the action cancelled, delivery starts nothing.
  lemma CancelledStep(cfg: Config, s: State, e: Event)
    requires cfg.batchSize >= 1 && s.db.action.status == ActionCancelled
    ensures OnlyOldJobs(s, Step(cfg, s, e))
    ensures s.db.logs <= Step(cfg, s, e).db.logs
  {}

  lemma CancelledStepSpends(cfg: Config, s: State, e: Event)
    requires cfg.batchSize >= 1 && s.db.action.status == ActionCancelled
    ensures Budget(Step(cfg, s, e)) <= Budget(s)
  {
    match e {
      case Gate(j, admitted) => GateSpends(s, j, admitted);
      case Attempt(j) => AttemptSpends(s, j);
      case Execute(j, now) => ExecuteSpends(cfg, s, j, now);
      case ExecuteError(j, lastTry) => ErrorSpends(s, j, Attempted, lastTry);
      case Finalise(j) => DropWeights(s.jobs, j);
      case FinaliseError(j, lastTry) => ErrorSpends(s, j, AtFinalise, lastTry);
      case MarkFailed(j) => MarkFailedSpends(s, j);
      case JobCrash(j) => DropWeights(s.jobs, j);
      case _ =>
    }
  }

  // Accounting commits made so far and still possible.
  ghost function Budget(s: State): nat {
    |s.past.accountings| + Sum(Weights(s.jobs))
  }

  lemma GateSpends(s: State, j: nat, admitted: bool)
    ensures Budget(StepGate(s, j, admitted)) <= Budget(s)
  {
    if At(s, j, AtGate) {
      MoveWeights(s.jobs, j, Admitted);
      DropWeights(s.jobs, j);
    }
  }

  lemma AttemptSpends(s: State, j: nat)
    ensures Budget(StepAttempt(s, j)) <= Budget(s)
  {
    if At(s, j, Admitted) {
      MoveWeights(s.jobs, j, Attempted);
    }
  }

  lemma ExecuteSpends(cfg: Config, s: State, j: nat, now: int)
    ensures Budget(StepExecute(cfg, s, j, now)) <= Budget(s)
  {
    if At(s, j, Attempted) {
      var s' := StepExecute(cfg, s, j, now);
      if WouldExecute(s.db, s.jobs[j].index) {
        assert |s'.past.accountings| == |s.past.accountings| + 1 && s'.jobs == Move(s, j, AtFinalise);
        MoveWeights(s.jobs, j, AtFinalise);
      } else {
        DropWeights(s.jobs, j);
      }
    }
  }

  lemma ErrorSpends(s: State, j: nat, pc: Pc, lastTry: bool)
    requires pc == Attempted || pc == AtFinalise
    ensures Budget(StepError(s, j, pc, lastTry)) <= Budget(s)
  {
    if At(s, j, pc) {
      MoveWeights(s.jobs, j, AtMarkFailed);
      DropWeights(s.jobs, j);
    }
  }

  lemma MarkFailedSpends(s: State, j: nat)
    ensures Budget(StepMarkFailed(s, j)) <= Budget(s)
  {
    if At(s, j, AtMarkFailed) {
      MoveWeights(s.jobs, j, AtLastFinalise);
    }
  }

  /** After a cancel commits: the status stays, earlier log rows are kept, no new job gets past
      pre-flight, and the jobs already past it can make at most two more accounting commits each
      (its batch's work, and a failure report if the step after that work breaks). */
  lemma {:induction false} CancellationBoundary(cfg: Config, s: State, es: seq<Event>)
    requires cfg.batchSize >= 1 && s.db.action.status == ActionCancelled
    ensures var s' := Run(cfg, s, es);
            s'.db.action.status == ActionCancelled && OnlyOldJobs(s, s') && s.db.logs <= s'.db.logs
            && Budget(s') <= Budget(s)
  {
    if es != [] {
      var n := |es| - 1;
      CancellationBoundary(cfg, s, es[..n]);
      var mid := Run(cfg, s, es[..n]);
      TerminalStep(cfg, mid, es[n]);
      CancelledStep(cfg, mid, es[n]);
      CancelledStepSpends(cfg, mid, es[n]);
    }
  }

  predicate ActsFor(e: Event, j: nat) {
    (e.Execute? || e.MarkFailed?) && e.j == j
  }

  /** Every step after the cancel that changes counters, logs, ledger or (other writers aside)
      entities belongs to a job that was already past pre-flight when the cancel committed. */
  lemma OnlyOldJobsWork(cfg: Config, s: State, es: seq<Event>, k: nat)
    requires cfg.batchSize >= 1 && s.db.action.status == ActionCancelled && k < |es|
    ensures var before, after := Run(cfg, s, es[..k]), Run(cfg, s, es[..k + 1]);
            (SameAccounts(before, after) && (!es[k].OutsideWrite? ==> after.db.entities == before.db.entities))
            || exists j :: j in s.jobs && ActsFor(es[k], j)
  {
    assert es[..k + 1][..k] == es[..k];
    CancellationBoundary(cfg, s, es[..k]);
    var before := Run(cfg, s, es[..k]);
    if Executes(before, es[k]) || MarksFailed(before, es[k]) {
      assert es[k].j in s.jobs && ActsFor(es[k], es[k].j);
    } else {
      OthersAreQuiet(cfg, before, es[k]);
    }
  }

  /** Cancelling an open action, whatever it is doing, cancels it and changes nothing else; and from
      there everything `CancellationBoundary` says holds, counted from the state before the cancel. */
  lemma CancelTakesHold(cfg: Config, s: State, es: seq<Event>)
    requires cfg.batchSize >= 1 && !s.db.action.status.Terminal()
    ensures Step(cfg, s, Cancel) == s.(db := s.db.(action := s.db.action.(status := ActionCancelled)))
    ensures var s' := Run(cfg, Step(cfg, s, Cancel), es);
            s'.db.action.status == ActionCancelled && OnlyOldJobs(s, s') && s.db.logs <= s'.db.logs
            && Budget(s') <= Budget(s)
  {
    CancellationBoundary(cfg, Step(cfg, s, Cancel), es);
  }

  /** And every later step that changes counters, logs, ledger or (other writers aside) entities
      belongs to a job that was past pre-flight before the cancel. */
  lemma CancelLeavesOnlyOldJobs(cfg: Config, s: State, es: seq<Event>, k: nat)
    requires cfg.batchSize >= 1 && !s.db.action.status.Terminal() && k < |es|
    ensures var c := Step(cfg, s, Cancel);
            var before, after := Run(cfg, c, es[..k]), Run(cfg, c, es[..k + 1]);
            (SameAccounts(before, after) && (!es[k].OutsideWrite? ==> after.db.entities == before.db.entities))
            || exists j :: j in s.jobs && ActsFor(es[k], j)
  {
    OnlyOldJobsWork(cfg, Step(cfg, s, Cancel), es, k);
  }

  /** A planning failure puts an open action in `failed` for good, leaves a closed one as it is, and
      ends the pass. */
  lemma PlanningFailureCloses(cfg: Config, s: State, p: nat, es: seq<Event>)
    requires cfg.batchSize >= 1 && p in s.planners
    ensures var f := Step(cfg, s, PlanFail(p));
            p !in f.planners && f.db.batches == s.db.batches && f.db.logs == s.db.logs
            && f.db.action == if s.db.action.status.Terminal() then s.db.action
                              else s.db.action.(status := ActionFailed)
    ensures !s.db.action.status.Terminal() ==> Run(cfg, Step(cfg, s, PlanFail(p)), es).db.action.status == ActionFailed
  {
    TerminalIsAbsorbing(cfg, Step(cfg, s, PlanFail(p)), es);
  }

  /** A delivery starts a job exactly for a batch that exists, is not completed and belongs to an
      action that is not cancelled; the job knows the batch and its planned count. */
  lemma DeliveryStartsExactly(cfg: Config, s: State, j: nat, i: nat)
    requires cfg.batchSize >= 1 && j !in s.jobs
    ensures var e := Step(cfg, s, Deliver(j, i));
            var starts := i in s.db.batches && s.db.batches[i].status != BatchCompleted
                && s.db.action.status != ActionCancelled;
            (j in e.jobs <==> starts)
            && (starts ==> e.db == s.db && e.jobs[j] == Job(i, s.db.batches[i].work.entityCount, AtGate))
  {}
}
