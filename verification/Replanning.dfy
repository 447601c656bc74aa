/**
 Re-planning converges: over any number of planner passes, each of which may crash at any point
 and overlap the others and the workers, the batch rows are the rows of one clean pass, and the
 totals are its totals.  Always for explicitly named entities; for a filter when every page read
 sees the same target set.
 */
module Replanning {
  import opened Domain
  import opened Store
  import opened BatchRunner
  import opened Protocol
  import opened Sums
  import opened OnePass
  import opened Closing
  import opened Finishing
  import opened Planning
  import Dedup

  // The plan one clean pass makes.
  function CleanPlan(cfg: Config, target: set<Id>): seq<PlannedBatch>
    requires cfg.batchSize >= 1
  {
    match cfg.explicitIds
    case Some(ids) => ChunkPlan(Distinct(ids), cfg.batchSize)
    case None => KeysetPlan(target, None, cfg.batchSize)
  }

  // A page read of a filter walk sees `target` from where the walk has got to.
  predicate ReadsTarget(cfg: Config, target: set<Id>, s: State, e: Event) {
    e.PlanPage? && cfg.explicitIds.None? && e.p in s.planners ==>
      var last := s.planners[e.p].last;
      Beyond(TargetSet(cfg, s.db.entities), last) == Beyond(target, last)
  }

  predicate StableRun(cfg: Config, target: set<Id>, s: State, es: seq<Event>)
    requires cfg.batchSize >= 1
  {
    forall k :: 0 <= k < |es| ==> ReadsTarget(cfg, target, Run(cfg, s, es[..k]), es[k])
  }

  // Where a planner is in the plan.
  ghost predicate OnPlan(cfg: Config, target: set<Id>, plan: seq<PlannedBatch>, pl: Planner) {
    && |pl.pending| <= pl.totalBatches <= |plan|
    && pl.pending == plan[pl.totalBatches - |pl.pending|..pl.totalBatches]
    && pl.totalEntities == TotalEntities(plan[..pl.totalBatches])
    && (pl.exhausted ==> pl.totalBatches == |plan|)
    && (cfg.explicitIds.None? && !pl.exhausted ==>
          KeysetPlan(target, pl.last, cfg.batchSize) == plan[pl.totalBatches..])
  }

  predicate RowsFollow(m: map<nat, BatchRow>, plan: seq<PlannedBatch>) {
    forall i :: i in m ==> i < |plan| && m[i].work == plan[i]
  }

  predicate HasRows(m: map<nat, BatchRow>, n: nat) {
    forall i: nat :: i < n ==> i in m
  }

  predicate TotalsFollow(db: Db, plan: seq<PlannedBatch>) {
    db.action.totalEntities == TotalEntities(plan) && db.action.totalBatches == |plan| && HasRows(db.batches, |plan|)
  }

  // Some planning pass has written its totals.
  predicate Totalled(a: ActionRow) {
    Underway(a.status) || a.totalBatches > 0
  }

  ghost predicate Follows(cfg: Config, target: set<Id>, plan: seq<PlannedBatch>, s: State) {
    && RowsFollow(s.db.batches, plan)
    && (forall p :: p in s.planners ==>
          OnPlan(cfg, target, plan, s.planners[p])
          && HasRows(s.db.batches, s.planners[p].totalBatches - |s.planners[p].pending|))
    && (Totalled(s.db.action) ==> TotalsFollow(s.db, plan))
  }

  // Adding the next batch of the plan keeps a planner on it.
  lemma AddStaysOnPlan(cfg: Config, target: set<Id>, plan: seq<PlannedBatch>, pl: Planner, last: Option<Id>,
                       exhausted: bool)
    requires OnPlan(cfg, target, plan, pl) && pl.totalBatches < |plan|
    requires exhausted ==> pl.totalBatches + 1 == |plan|
    requires cfg.explicitIds.None? && !exhausted ==>
               KeysetPlan(target, last, cfg.batchSize) == plan[pl.totalBatches + 1..]
    ensures OnPlan(cfg, target, plan, AddPage(pl, plan[pl.totalBatches], last, exhausted))
  {
    SliceGrows(plan, pl.totalBatches - |pl.pending|, pl.totalBatches);
  }

  lemma SliceGrows(plan: seq<PlannedBatch>, first: nat, k: nat)
    requires first <= k < |plan|
    ensures plan[first..k + 1] == plan[first..k] + [plan[k]]
    ensures TotalEntities(plan[..k + 1]) == TotalEntities(plan[..k]) + plan[k].entityCount
  {
    assert plan[..k + 1][..k] == plan[..k];
  }

  lemma HeadOfPlan(target: set<Id>, last: Option<Id>, size: nat, plan: seq<PlannedBatch>, k: nat)
    requires k <= |plan| && KeysetPlan(target, last, size) == plan[k..] && Page(Beyond(target, last), size) != []
    ensures var ids := Page(Beyond(target, last), size);
            k < |plan| && plan[k] == RangeOf(ids)
            && if |ids| < size then |plan| == k + 1 else KeysetPlan(target, Some(ids[|ids| - 1]), size) == plan[k + 1..]
  {
    var ids := Page(Beyond(target, last), size);
    var rest := KeysetPlan(target, last, size);
    assert rest[0] == RangeOf(ids) && plan[k..][0] == plan[k];
    assert rest[1..] == plan[k + 1..];
    assert |ids| >= size ==> rest[1..] == KeysetPlan(target, Some(ids[|ids| - 1]), size);
  }

  lemma FilterPage(cfg: Config, target: set<Id>, plan: seq<PlannedBatch>, pl: Planner, ids: seq<Id>)
    requires cfg.explicitIds.None? && OnPlan(cfg, target, plan, pl) && !pl.exhausted
    requires ids == Page(Beyond(target, pl.last), cfg.batchSize) && ids != []
    ensures OnPlan(cfg, target, plan, AddPage(pl, RangeOf(ids), Some(ids[|ids| - 1]), |ids| < cfg.batchSize))
  {
    HeadOfPlan(target, pl.last, cfg.batchSize, plan, pl.totalBatches);
    AddStaysOnPlan(cfg, target, plan, pl, Some(ids[|ids| - 1]), |ids| < cfg.batchSize);
  }

  lemma FilterEnd(cfg: Config, target: set<Id>, plan: seq<PlannedBatch>, pl: Planner)
    requires cfg.explicitIds.None? && OnPlan(cfg, target, plan, pl) && !pl.exhausted
    requires Page(Beyond(target, pl.last), cfg.batchSize) == []
    ensures OnPlan(cfg, target, plan, pl.(exhausted := true))
  {
    assert |plan[pl.totalBatches..]| == 0;
  }

  lemma PageStaysOnPlan(cfg: Config, target: set<Id>, plan: seq<PlannedBatch>, t: Table, pl: Planner)
    requires cfg.batchSize >= 1 && plan == CleanPlan(cfg, target) && OnPlan(cfg, target, plan, pl) && !pl.exhausted
    requires cfg.explicitIds.None? ==> Beyond(TargetSet(cfg, t), pl.last) == Beyond(target, pl.last)
    ensures OnPlan(cfg, target, plan, ReadPage(cfg, t, pl))
  {
    if cfg.explicitIds.Some? {
      if pl.totalBatches < |plan| {
        AddStaysOnPlan(cfg, target, plan, pl, pl.last, false);
      }
    } else {
      var ids := Page(Beyond(target, pl.last), cfg.batchSize);
      if ids == [] {
        FilterEnd(cfg, target, plan, pl);
      } else {
        FilterPage(cfg, target, plan, pl, ids);
      }
    }
  }

  lemma PageKeepsFirst(cfg: Config, t: Table, pl: Planner)
    requires cfg.batchSize >= 1
    ensures var pl' := ReadPage(cfg, t, pl); pl'.totalBatches - |pl'.pending| == pl.totalBatches - |pl.pending|
  {}

  lemma {:induction false} InsertFollows(m: map<nat, BatchRow>, first: nat, rows: seq<PlannedBatch>,
                                         plan: seq<PlannedBatch>)
    requires RowsFollow(m, plan) && HasRows(m, first) && first + |rows| <= |plan| && rows == plan[first..first + |rows|]
    ensures RowsFollow(InsertBatches(m, first, rows), plan) && HasRows(InsertBatches(m, first, rows), first + |rows|)
  {
    InsertBatchesKeeps(m, first, rows);
  }

  // Only planner q may have changed.
  lemma KeepFollows(cfg: Config, target: set<Id>, plan: seq<PlannedBatch>, s: State, s': State, q: nat)
    requires Follows(cfg, target, plan, s)
    requires forall p :: p in s'.planners && p != q ==> p in s.planners && s'.planners[p] == s.planners[p]
    requires q in s'.planners ==>
               OnPlan(cfg, target, plan, s'.planners[q])
               && HasRows(s'.db.batches, s'.planners[q].totalBatches - |s'.planners[q].pending|)
    requires forall i :: i in s.db.batches ==> i in s'.db.batches
    requires RowsFollow(s'.db.batches, plan)
    requires Totalled(s'.db.action) ==> TotalsFollow(s'.db, plan)
    ensures Follows(cfg, target, plan, s')
  {}

  lemma ReplaceFollows(cfg: Config, target: set<Id>, plan: seq<PlannedBatch>, s: State, p: nat, pl': Planner)
    requires Follows(cfg, target, plan, s) && p in s.planners && OnPlan(cfg, target, plan, pl')
    requires pl'.totalBatches - |pl'.pending| == s.planners[p].totalBatches - |s.planners[p].pending|
    ensures Follows(cfg, target, plan, s.(planners := s.planners[p := pl']))
  {
    KeepFollows(cfg, target, plan, s, s.(planners := s.planners[p := pl']), p);
  }

  lemma PageFollows(cfg: Config, target: set<Id>, plan: seq<PlannedBatch>, s: State, p: nat)
    requires cfg.batchSize >= 1 && plan == CleanPlan(cfg, target) && Follows(cfg, target, plan, s)
    requires ReadsTarget(cfg, target, s, PlanPage(p))
    ensures Follows(cfg, target, plan, StepPlanPage(cfg, s, p))
  {
    if p in s.planners && !s.planners[p].exhausted {
      PageStaysOnPlan(cfg, target, plan, s.db.entities, s.planners[p]);
      PageKeepsFirst(cfg, s.db.entities, s.planners[p]);
      ReplaceFollows(cfg, target, plan, s, p, ReadPage(cfg, s.db.entities, s.planners[p]));
    }
  }

  lemma FlushFollows(cfg: Config, target: set<Id>, plan: seq<PlannedBatch>, s: State, p: nat)
    requires Follows(cfg, target, plan, s)
    ensures Follows(cfg, target, plan, StepPlanFlush(s, p))
  {
    if p in s.planners && CanFlush(s.planners[p]) {
      var pl, s' := s.planners[p], StepPlanFlush(s, p);
      InsertFollows(s.db.batches, FirstPending(pl), pl.pending, plan);
      assert forall i :: i in s.db.batches ==> i in s'.db.batches by {
        InsertBatchesKeeps(s.db.batches, FirstPending(pl), pl.pending);
      }
      KeepFollows(cfg, target, plan, s, s', p);
    }
  }

  lemma CloseFollows(cfg: Config, target: set<Id>, plan: seq<PlannedBatch>, s: State, p: nat)
    requires Follows(cfg, target, plan, s)
    ensures Follows(cfg, target, plan, StepPlanClose(s, p))
  {
    if p in s.planners && s.planners[p].exhausted && s.planners[p].pending == [] {
      assert plan[..|plan|] == plan;
      KeepFollows(cfg, target, plan, s, StepPlanClose(s, p), p);
    }
  }

  const START := Planner(None, 0, 0, [], false)

  lemma StartsOnPlan(cfg: Config, target: set<Id>, plan: seq<PlannedBatch>)
    requires cfg.explicitIds.None? ==> KeysetPlan(target, None, cfg.batchSize) == plan
    ensures OnPlan(cfg, target, plan, START)
  {
    assert plan[..0] == [];
    assert plan[0..] == plan;
  }

  lemma OpenFollows(cfg: Config, target: set<Id>, plan: seq<PlannedBatch>, s: State, p: nat)
    requires OnPlan(cfg, target, plan, START) && Follows(cfg, target, plan, s)
    ensures Follows(cfg, target, plan, StepPlanOpen(s, p))
  {
    if !(p in s.planners || s.db.action.status.Terminal()) {
      var s' := StepPlanOpen(s, p);
      assert s'.planners[p] == START && HasRows(s'.db.batches, 0);
      KeepFollows(cfg, target, plan, s, s', p);
    }
  }

  lemma OtherStepFollows(cfg: Config, target: set<Id>, plan: seq<PlannedBatch>, s: State, e: Event)
    requires cfg.batchSize >= 1 && Follows(cfg, target, plan, s)
    requires !(e.PlanOpen? || e.PlanPage? || e.PlanFlush? || e.PlanClose?)
    ensures Follows(cfg, target, plan, Step(cfg, s, e))
  {
    var s' := Step(cfg, s, e);
    SameRows(cfg, s, e);
    assert RowsFollow(s'.db.batches, plan);
    var q: nat := if e.PlanFail? || e.PlanCrash? then e.p else 0;
    OtherStepLeavesPlanners(cfg, s, e);
    if q in s'.planners { assert s'.planners[q] == s.planners[q]; }
    KeepFollows(cfg, target, plan, s, s', q);
  }

  lemma SameRows(cfg: Config, s: State, e: Event)
    requires cfg.batchSize >= 1 && !e.PlanFlush?
    ensures var m, m' := s.db.batches, Step(cfg, s, e).db.batches;
            forall i :: (i in m <==> i in m') && (i in m ==> m'[i].work == m[i].work)
  {
    OnlyFlushAdds(cfg, s, e);
    StepKeepsWork(cfg, s, e);
    assert forall i :: i in s.db.batches <==> i in s.db.batches.Keys;
  }

  lemma OtherStepLeavesPlanners(cfg: Config, s: State, e: Event)
    requires cfg.batchSize >= 1 && !(e.PlanOpen? || e.PlanPage? || e.PlanFlush? || e.PlanClose?)
    ensures var s' := Step(cfg, s, e);
            (forall p :: p in s'.planners ==> p in s.planners && s'.planners[p] == s.planners[p])
            && (Underway(s'.db.action.status) ==> Underway(s.db.action.status))
            && s'.db.action.totalEntities == s.db.action.totalEntities
                && s'.db.action.totalBatches == s.db.action.totalBatches
  {}

  lemma StepFollows(cfg: Config, target: set<Id>, plan: seq<PlannedBatch>, s: State, e: Event)
    requires cfg.batchSize >= 1 && plan == CleanPlan(cfg, target) && Follows(cfg, target, plan, s)
    requires ReadsTarget(cfg, target, s, e)
    ensures Follows(cfg, target, plan, Step(cfg, s, e))
  {
    match e {
      case PlanOpen(p) =>
        StartsOnPlan(cfg, target, plan);
        OpenFollows(cfg, target, plan, s, p);
      case PlanPage(p) => PageFollows(cfg, target, plan, s, p);
      case PlanFlush(p) => FlushFollows(cfg, target, plan, s, p);
      case PlanClose(p) => CloseFollows(cfg, target, plan, s, p);
      case _ => OtherStepFollows(cfg, target, plan, s, e);
    }
  }

  lemma StablePrefix(cfg: Config, target: set<Id>, s: State, es: seq<Event>, n: nat)
    requires cfg.batchSize >= 1 && StableRun(cfg, target, s, es) && n <= |es|
    ensures StableRun(cfg, target, s, es[..n])
  {
    forall k | 0 <= k < n ensures ReadsTarget(cfg, target, Run(cfg, s, es[..n][..k]), es[..n][k]) {
      assert es[..n][..k] == es[..k];
    }
  }

  lemma {:induction false} AlwaysFollows(cfg: Config, target: set<Id>, entities: Table, scheduled: bool, es: seq<Event>)
    requires cfg.batchSize >= 1 && StableRun(cfg, target, Init(entities, scheduled), es)
    ensures Follows(cfg, target, CleanPlan(cfg, target), Run(cfg, Init(entities, scheduled), es))
  {
    if es != [] {
      var n, s0 := |es| - 1, Init(entities, scheduled);
      var before := Run(cfg, s0, es[..n]);
      StablePrefix(cfg, target, s0, es, n);
      AlwaysFollows(cfg, target, entities, scheduled, es[..n]);
      StepFollows(cfg, target, CleanPlan(cfg, target), before, es[n]);
    }
  }

  /** However many passes ran, crashed or overlapped: every batch row is a row of the clean plan,
      and once a pass has closed the table holds exactly that plan and the totals are its totals. */
  lemma ReplanningConverges(cfg: Config, target: set<Id>, entities: Table, scheduled: bool, es: seq<Event>)
    requires cfg.batchSize >= 1 && StableRun(cfg, target, Init(entities, scheduled), es)
    ensures var db, plan := Run(cfg, Init(entities, scheduled), es).db, CleanPlan(cfg, target);
            RowsFollow(db.batches, plan)
            && (Totalled(db.action) ==>
                  Prefix(db.batches, |plan|) && db.action.totalBatches == |plan|
                      && db.action.totalEntities == TotalEntities(plan))
  {
    AlwaysFollows(cfg, target, entities, scheduled, es);
  }

  lemma ExplicitRunsAreStable(cfg: Config, s: State, es: seq<Event>)
    requires cfg.batchSize >= 1 && cfg.explicitIds.Some?
    ensures StableRun(cfg, {}, s, es)
  {}

  // ----- Explicit ids are counted exactly ------------------------------------------------

  lemma DropLast(m: map<nat, BatchRow>, plan: seq<PlannedBatch>, n: nat)
    requires |plan| == n + 1 && Prefix(m, n + 1) && RowsFollow(m, plan)
    ensures Prefix(m - {n}, n) && RowsFollow(m - {n}, plan[..n])
    ensures n in m && Planned(m)[n] == plan[n].entityCount && Planned(m) - {n} == Planned(m - {n})
  {
    var rest := m - {n};
    forall i ensures i in rest <==> 0 <= i < n {}
    forall i | i in rest ensures i < n && rest[i].work == plan[..n][i] {
      assert rest[i] == m[i];
    }
  }

  lemma {:induction false} SumOfPlan(m: map<nat, BatchRow>, plan: seq<PlannedBatch>)
    requires Prefix(m, |plan|) && RowsFollow(m, plan)
    ensures Sum(Planned(m)) == TotalEntities(plan)
  {
    if plan == [] {
      assert Planned(m).Keys == {};
    } else {
      var n := |plan| - 1;
      DropLast(m, plan, n);
      SumRemove(Planned(m), n);
      SumOfPlan(m - {n}, plan[..n]);
    }
  }

  lemma StepKeepsExact(cfg: Config, s: State, e: Event, ids: seq<Id>)
    requires cfg.batchSize >= 1 && cfg.explicitIds == Some(ids) && Exact(s.past.accountings)
    requires RowsFollow(s.db.batches, ChunkPlan(Distinct(ids), cfg.batchSize))
    ensures Exact(Step(cfg, s, e).past.accountings)
  {
    if Executes(s, e) {
      ExecuteKeepsExact(cfg, s, e.j, e.now, ids);
    } else if !MarksFailed(s, e) {
      OthersAreQuiet(cfg, s, e);
    }
  }

  lemma ExecuteKeepsExact(cfg: Config, s: State, j: nat, now: int, ids: seq<Id>)
    requires cfg.batchSize >= 1 && cfg.explicitIds == Some(ids) && Exact(s.past.accountings)
    requires RowsFollow(s.db.batches, ChunkPlan(Distinct(ids), cfg.batchSize))
    requires At(s, j, Attempted) && WouldExecute(s.db, s.jobs[j].index)
    ensures Exact(StepExecute(cfg, s, j, now).past.accountings)
  {
    var i := s.jobs[j].index;
    ExplicitBatchExact(cfg, s.db.entities, s.db.ledger, ids, s.db.batches[i].work, i);
  }

  // Explicit batches never load more rows than they name.
  lemma ExplicitBatchExact(cfg: Config, t: Table, ledger: set<Dedup.Key>, ids: seq<Id>, work: PlannedBatch, i: nat)
    requires cfg.batchSize >= 1
    requires var plan := ChunkPlan(Distinct(ids), cfg.batchSize); i < |plan| && work == plan[i]
    ensures |BatchOutcomes(cfg, t, ledger, work, LoadRows(cfg, t, work))| == work.entityCount
  {
    ChunksPartition(Distinct(ids), cfg.batchSize);
    assert ChunkShape(work, cfg.batchSize);
    ExplicitLoadsAtMostItsIds(cfg, t, work);
    OutcomesTotal(cfg, t, ledger, work);
  }

  lemma {:induction false} AlwaysExact(cfg: Config, entities: Table, scheduled: bool, es: seq<Event>, ids: seq<Id>)
    requires cfg.batchSize >= 1 && cfg.explicitIds == Some(ids)
    ensures Exact(Run(cfg, Init(entities, scheduled), es).past.accountings)
  {
    if es != [] {
      var n := |es| - 1;
      AlwaysExact(cfg, entities, scheduled, es[..n], ids);
      ExplicitRunsAreStable(cfg, Init(entities, scheduled), es[..n]);
      AlwaysFollows(cfg, {}, entities, scheduled, es[..n]);
      StepKeepsExact(cfg, Run(cfg, Init(entities, scheduled), es[..n]), es[n], ids);
    }
  }

  /** Explicitly named entities are counted exactly, whatever other writers do to the table and
      however often the action is re-planned: once a pass has written its totals and every batch is
      accounted (once each), processed
      equals the total equals the number of distinct ids the client named. */
  lemma ExplicitIdsExact(cfg: Config, entities: Table, scheduled: bool, es: seq<Event>, ids: seq<Id>)
    requires cfg.batchSize >= 1 && cfg.explicitIds == Some(ids)
    requires var s := Run(cfg, Init(entities, scheduled), es);
             AccountedOnce(s.past.accountings) && AllAccounted(s) && Totalled(s.db.action)
    ensures var a := Run(cfg, Init(entities, scheduled), es).db.action;
            a.processed == a.totalEntities == |ToSet(ids)|
  {
    var s, plan := Run(cfg, Init(entities, scheduled), es), ChunkPlan(Distinct(ids), cfg.batchSize);
    ExplicitRunsAreStable(cfg, Init(entities, scheduled), es);
    ReplanningConverges(cfg, {}, entities, scheduled, es);
    AlwaysExact(cfg, entities, scheduled, es, ids);
    AlwaysFaithful(cfg, entities, scheduled, es);
    CountersAlwaysAgree(cfg, entities, scheduled, es);
    EmittedIsLogged(cfg, entities, scheduled, es);
    EmittedCoversCounts(s.past.accountings);
    CountsOfAll(s);
    SumOfPlan(s.db.batches, plan);
    PlanTotal(ids, cfg.batchSize);
  }

  lemma PlanTotal(ids: seq<Id>, size: nat)
    requires size >= 1
    ensures TotalEntities(ChunkPlan(Distinct(ids), size)) == |ToSet(ids)|
  {
    ChunksPartition(Distinct(ids), size);
    DistinctCardinality(Distinct(ids));
    assert ToSet(Distinct(ids)) == ToSet(ids);
  }
}
