/**
 The gate charges what was planned; a batch runs on what it loads.  The account's bound holds for
 the rows themselves exactly as long as no commit loads more rows than its batch was planned with:
 always for explicitly named entities, and for a filter as long as nobody else writes the table,
 because an action's own work only ever shrinks its target set.
 */
module RowThroughput {
  import opened Domain
  import opened Dedup
  import opened BatchRunner
  import opened BatchedMeaning
  import opened Store
  import opened Protocol
  import opened Sums
  import opened Finishing
  import opened Replanning
  import opened TokenBucket
  import opened Throughput
  import Planning

  // ----- Planned against loaded ----------------------------------------------------------

  // Whatever happens next, the batch loads at most what it was planned with.
  predicate Fits(cfg: Config, t: Table, b: PlannedBatch) {
    if cfg.explicitIds.Some? then b.ids != [] && b.entityCount == |b.ids|
    else b.ids == [] && |SelectedIds(cfg, t, b)| <= b.entityCount
  }

  lemma FitsLoads(cfg: Config, t: Table, b: PlannedBatch)
    requires Fits(cfg, t, b)
    ensures |LoadRows(cfg, t, b)| <= b.entityCount
  {
    if cfg.explicitIds.Some? {
      ExplicitLoadsAtMostItsIds(cfg, t, b);
    } else {
      LoadRowsFacts(cfg, t, b);
    }
  }

  lemma ShrinkFits(cfg: Config, t: Table, t': Table, b: PlannedBatch)
    requires Fits(cfg, t, b) && (cfg.explicitIds.None? ==> TargetSet(cfg, t') <= TargetSet(cfg, t))
    ensures Fits(cfg, t', b)
  {
    if cfg.explicitIds.None? {
      forall id | id in SelectedIds(cfg, t', b) ensures id in SelectedIds(cfg, t, b) {
        assert id in TargetSet(cfg, t');
      }
      Planning.SubsetCardinality(SelectedIds(cfg, t', b), SelectedIds(cfg, t, b));
    }
  }

  /** Executing a range batch never adds a row to the action's own target set. */
  lemma OwnWorkShrinks(cfg: Config, t: Table, ledger: set<Key>, b: PlannedBatch, now: int)
    requires b.ids == []
    ensures TargetSet(cfg, RunBatch(cfg, t, ledger, b, now).entities) <= TargetSet(cfg, t)
  {
    var t' := RunBatch(cfg, t, ledger, b, now).entities;
    forall id | id in TargetSet(cfg, t') ensures id in TargetSet(cfg, t) {
      if id !in SelectedIds(cfg, t, b) {
        TouchesOnlySelected(cfg, t, ledger, b, now, id);
      }
    }
  }

  lemma RangeFits(cfg: Config, t: Table, last: Option<Id>, ids: seq<Id>)
    requires cfg.explicitIds.None? && ids == Planning.Page(Planning.Beyond(TargetSet(cfg, t), last), cfg.batchSize)
    requires ids != []
    ensures Fits(cfg, t, Planning.RangeOf(ids))
  {
    var s, b := Planning.Beyond(TargetSet(cfg, t), last), Planning.RangeOf(ids);
    Planning.PageSplits(s, ids, cfg.batchSize);
    assert ids[0] in ids && ids[0] in s;
    forall id | id in SelectedIds(cfg, t, b) ensures id in Planning.ToSet(ids) {
      assert id in TargetSet(cfg, t) && id in s;
    }
    SetOfSeqSmaller(ids);
    Planning.SubsetCardinality(SelectedIds(cfg, t, b), Planning.ToSet(ids));
  }

  // ----- Over runs -----------------------------------------------------------------------

  predicate PendingFits(cfg: Config, t: Table, rows: seq<PlannedBatch>) {
    forall k :: 0 <= k < |rows| ==> Fits(cfg, t, rows[k])
  }

  predicate AllFit(cfg: Config, s: State) {
    && (forall i :: i in s.db.batches ==> Fits(cfg, s.db.entities, s.db.batches[i].work))
    && (forall p :: p in s.planners ==> PendingFits(cfg, s.db.entities, s.planners[p].pending))
  }

  lemma PageFits(cfg: Config, t: Table, pl: Planner)
    requires cfg.batchSize >= 1 && PendingFits(cfg, t, pl.pending)
    ensures PendingFits(cfg, t, ReadPage(cfg, t, pl).pending)
  {
    match cfg.explicitIds {
      case Some(named) =>
        var ids := Planning.Distinct(named);
        var plan := Planning.ChunkPlan(ids, cfg.batchSize);
        Planning.ChunksPartition(ids, cfg.batchSize);
        assert pl.totalBatches < |plan| ==> Planning.ChunkShape(plan[pl.totalBatches], cfg.batchSize);
      case None =>
        var ids := Planning.Page(Planning.Beyond(TargetSet(cfg, t), pl.last), cfg.batchSize);
        if ids != [] {
          RangeFits(cfg, t, pl.last, ids);
        }
    }
  }

  lemma PageStepFits(cfg: Config, s: State, p: nat)
    requires cfg.batchSize >= 1 && AllFit(cfg, s)
    ensures AllFit(cfg, StepPlanPage(cfg, s, p))
  {
    if p in s.planners {
      PageFits(cfg, s.db.entities, s.planners[p]);
    }
  }

  lemma FlushFits(cfg: Config, s: State, p: nat)
    requires AllFit(cfg, s)
    ensures AllFit(cfg, StepPlanFlush(s, p))
  {
    if p in s.planners {
      var pl := s.planners[p];
      InsertBatchesKeeps(s.db.batches, FirstPending(pl), pl.pending);
      assert PendingFits(cfg, s.db.entities, pl.pending);
    }
  }

  lemma TableStepFits(cfg: Config, s: State, s': State)
    requires AllFit(cfg, s)
             && (cfg.explicitIds.None? ==> TargetSet(cfg, s'.db.entities) <= TargetSet(cfg, s.db.entities))
    requires forall i :: i in s'.db.batches ==> i in s.db.batches && s'.db.batches[i].work == s.db.batches[i].work
    requires forall p :: p in s'.planners ==> p in s.planners && s'.planners[p] == s.planners[p]
    ensures AllFit(cfg, s')
  {
    var t, t' := s.db.entities, s'.db.entities;
    forall i | i in s'.db.batches ensures Fits(cfg, t', s'.db.batches[i].work) {
      ShrinkFits(cfg, t, t', s.db.batches[i].work);
    }
    forall p | p in s'.planners ensures PendingFits(cfg, t', s'.planners[p].pending) {
      assert PendingFits(cfg, t, s.planners[p].pending);
      forall k | 0 <= k < |s.planners[p].pending| ensures Fits(cfg, t', s.planners[p].pending[k]) {
        ShrinkFits(cfg, t, t', s.planners[p].pending[k]);
      }
    }
  }

  lemma OtherStepFits(cfg: Config, s: State, e: Event)
    requires cfg.batchSize >= 1 && AllFit(cfg, s) && (e.OutsideWrite? ==> cfg.explicitIds.Some?)
    requires !(e.PlanOpen? || e.PlanPage? || e.PlanFlush? || e.PlanClose?)
    ensures AllFit(cfg, Step(cfg, s, e))
  {
    var s' := Step(cfg, s, e);
    SameRows(cfg, s, e);
    OtherStepLeavesPlanners(cfg, s, e);
    if Executes(s, e) {
      var b := s.db.batches[s.jobs[e.j].index].work;
      if cfg.explicitIds.None? {
        OwnWorkShrinks(cfg, s.db.entities, s.db.ledger, b, e.now);
      }
    } else if !MarksFailed(s, e) {
      OthersAreQuiet(cfg, s, e);
    }
    TableStepFits(cfg, s, s');
  }

  lemma StepFits(cfg: Config, s: State, e: Event)
    requires cfg.batchSize >= 1 && AllFit(cfg, s) && (e.OutsideWrite? ==> cfg.explicitIds.Some?)
    ensures AllFit(cfg, Step(cfg, s, e))
  {
    match e {
      case PlanOpen(_) =>
      case PlanPage(p) => PageStepFits(cfg, s, p);
      case PlanFlush(p) => FlushFits(cfg, s, p);
      case PlanClose(_) =>
      case _ => OtherStepFits(cfg, s, e);
    }
  }

  lemma StepExact(cfg: Config, s: State, e: Event)
    requires cfg.batchSize >= 1 && AllFit(cfg, s) && Exact(s.past.accountings)
    ensures Exact(Step(cfg, s, e).past.accountings)
  {
    if Executes(s, e) {
      var b := s.db.batches[s.jobs[e.j].index].work;
      FitsLoads(cfg, s.db.entities, b);
      OutcomesTotal(cfg, s.db.entities, s.db.ledger, b);
      ExecuteExact(cfg, s, e.j, e.now);
    } else if !MarksFailed(s, e) {
      OthersAreQuiet(cfg, s, e);
    }
  }

  lemma ExecuteExact(cfg: Config, s: State, j: nat, now: int)
    requires At(s, j, Attempted) && WouldExecute(s.db, s.jobs[j].index) && Exact(s.past.accountings)
    requires var b := s.db.batches[s.jobs[j].index].work;
             |BatchOutcomes(cfg, s.db.entities, s.db.ledger, b, LoadRows(cfg, s.db.entities, b))| == b.entityCount
    ensures Exact(StepExecute(cfg, s, j, now).past.accountings)
  {}

  // ----- The account ---------------------------------------------------------------------

  // Entities reported by execute commits: the rows they loaded, and what had left the target set.
  function Reported(acc: seq<Accounting>): nat {
    if acc == [] then 0
    else Reported(acc[..|acc| - 1]) + (if acc[|acc| - 1].executed then acc[|acc| - 1].emitted else 0)
  }

  // No execute commit loaded more rows than its batch was planned with.
  predicate NothingExtra(acc: seq<Accounting>) {
    forall k :: 0 <= k < |acc| && acc[k].executed ==> acc[k].emitted == acc[k].entityCount
  }

  /** The execute commits reported exactly what the gate was charged for if and only if none of them
      loaded more rows than its batch was planned with. */
  lemma {:induction false} ReportedIsCharged(acc: seq<Accounting>)
    requires forall k :: 0 <= k < |acc| ==> acc[k].emitted >= acc[k].entityCount
    ensures Reported(acc) >= Executed(acc)
    ensures Reported(acc) == Executed(acc) <==> NothingExtra(acc)
  {
    if acc != [] {
      var n := |acc| - 1;
      ReportedIsCharged(acc[..n]);
      assert NothingExtra(acc)
          <==> NothingExtra(acc[..n]) && (acc[n].executed ==> acc[n].emitted == acc[n].entityCount) by {
        assert acc == acc[..n] + [acc[n]];
      }
    }
  }

  function ReportedBy(actions: map<nat, State>): map<nat, nat> {
    map a | a in actions :: Reported(actions[a].past.accountings)
  }

  predicate NothingExtraIn(actions: map<nat, State>) {
    forall a :: a in actions ==> NothingExtra(actions[a].past.accountings)
  }

  lemma ReportedWithinAdmitted(actions: map<nat, State>)
    requires AllPaid(actions) && NothingExtraIn(actions)
    ensures Sum(ReportedBy(actions)) == Sum(ExecutedBy(actions))
  {
    forall a | a in actions ensures ReportedBy(actions)[a] == ExecutedBy(actions)[a] {
      assert Faithful(actions[a]);
      ReportedIsCharged(actions[a].past.accountings);
    }
    assert ReportedBy(actions) == ExecutedBy(actions);
  }

  /** The account's bound on the entities themselves, as long as no commit loads more rows than its
      batch was planned with. */
  lemma RowBoundWhenNothingExtra(cfgs: nat -> Config, limit: int, x: Account, es: seq<AccountEvent>, y: Account, t: int)
    requires Sized(cfgs) && limit > 0 && JustSubmitted(limit, x) && ClockMonotone(cfgs, limit, x, es)
    requires y == Turns(cfgs, limit, x, es) && y.first.Some? && y.clock <= t
    requires NothingExtraIn(y.actions)
    ensures WithinRate(limit, Sum(ReportedBy(y.actions)), t - y.first.value)
  {
    AlwaysAccountOk(cfgs, limit, x, es);
    OkIsWithinRate(limit, y, t);
    ReportedWithinAdmitted(y.actions);
  }

  ghost predicate ActionsFit(cfgs: nat -> Config, actions: map<nat, State>) {
    forall a :: a in actions ==> AllFit(cfgs(a), actions[a]) && Exact(actions[a].past.accountings)
  }

  // Nobody else writes the table of an action that works by filter.
  predicate LeavesFiltersAlone(cfgs: nat -> Config, e: AccountEvent) {
    e.Other? && e.event.OutsideWrite? ==> cfgs(e.action).explicitIds.Some?
  }

  lemma OneStepFits(cfgs: nat -> Config, actions: map<nat, State>, a: nat, e: Event)
    requires Sized(cfgs) && ActionsFit(cfgs, actions) && a in actions
    requires e.OutsideWrite? ==> cfgs(a).explicitIds.Some?
    ensures ActionsFit(cfgs, actions[a := Step(cfgs(a), actions[a], e)])
  {
    StepFits(cfgs(a), actions[a], e);
    StepExact(cfgs(a), actions[a], e);
  }

  // What a turn does to the actions.
  lemma TurnSteps(cfgs: nat -> Config, limit: int, x: Account, e: AccountEvent) returns (ev: Event)
    requires Sized(cfgs)
    ensures var y := Turn(cfgs, limit, x, e);
            y.actions == x.actions
            || (!e.KeyExpires? && e.action in x.actions
                && y.actions == x.actions[e.action := Step(cfgs(e.action), x.actions[e.action], ev)])
    ensures ev.OutsideWrite? ==> e.Other? && e.event.OutsideWrite?
  {
    match e {
      case KeyExpires(_) => ev := Cancel;
      case Other(a, event) => ev := event;
      case GateAt(a, j, now) =>
        ev := Cancel;
        if a in x.actions && At(x.actions[a], j, AtGate) {
          var call := Call(now, x.actions[a].jobs[j].entityCount);
          ev := if call.amount > limit && call.amount > 0 then JobCrash(j) else Gate(j, Allows(limit, x.bucket, call));
        }
    }
  }

  lemma TurnFits(cfgs: nat -> Config, limit: int, x: Account, e: AccountEvent)
    requires Sized(cfgs) && ActionsFit(cfgs, x.actions) && LeavesFiltersAlone(cfgs, e)
    ensures ActionsFit(cfgs, Turn(cfgs, limit, x, e).actions)
  {
    var ev := TurnSteps(cfgs, limit, x, e);
    if Turn(cfgs, limit, x, e).actions != x.actions {
      OneStepFits(cfgs, x.actions, e.action, ev);
    }
  }

  lemma {:induction false} AlwaysActionsFit(cfgs: nat -> Config, limit: int, x: Account, es: seq<AccountEvent>)
    requires Sized(cfgs) && ActionsFit(cfgs, x.actions)
    requires forall k :: 0 <= k < |es| ==> LeavesFiltersAlone(cfgs, es[k])
    ensures ActionsFit(cfgs, Turns(cfgs, limit, x, es).actions)
  {
    if es != [] {
      var n := |es| - 1;
      AlwaysActionsFit(cfgs, limit, x, es[..n]);
      TurnFits(cfgs, limit, Turns(cfgs, limit, x, es[..n]), es[n]);
    }
  }

  // Nothing planned yet.
  predicate Unplanned(x: Account) {
    forall a :: a in x.actions ==>
      x.actions[a].planners == map[] && x.actions[a].db.batches == map[] && x.actions[a].past.accountings == []
  }

  /** The account's bound on the entities themselves, over every run in which nobody else writes the
      table of an action that works by filter: over any number of planning passes, redeliveries and
      double runs, and whatever other writers do to explicitly named entities. */
  lemma RowBound(cfgs: nat -> Config, limit: int, x: Account, es: seq<AccountEvent>, y: Account, t: int)
    requires Sized(cfgs) && limit > 0 && JustSubmitted(limit, x) && Unplanned(x) && ClockMonotone(cfgs, limit, x, es)
    requires forall k :: 0 <= k < |es| ==> LeavesFiltersAlone(cfgs, es[k])
    requires y == Turns(cfgs, limit, x, es) && y.first.Some? && y.clock <= t
    ensures WithinRate(limit, Sum(ReportedBy(y.actions)), t - y.first.value)
  {
    assert ActionsFit(cfgs, x.actions);
    AlwaysActionsFit(cfgs, limit, x, es);
    forall a | a in y.actions ensures NothingExtra(y.actions[a].past.accountings) {
      assert Exact(y.actions[a].past.accountings);
    }
    RowBoundWhenNothingExtra(cfgs, limit, x, es, y, t);
  }
}
