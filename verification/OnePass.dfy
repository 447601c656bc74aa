/**
 One planning pass: what the planner, the batch table and the totals have to do with each other
 while a single `plan_bulk_action` runs against any number of workers, crashes and a canceller.
 */
module OnePass {
  import opened Domain
  import opened Store
  import opened Protocol
  import opened Sums
  import Planning

  function Planned(m: map<nat, BatchRow>): map<nat, nat> {
    map i | i in m :: m[i].work.entityCount
  }

  ghost predicate Prefix(m: map<nat, BatchRow>, n: nat) {
    forall i :: i in m <==> 0 <= i < n
  }

  lemma {:induction false} InsertGrowsPrefix(m: map<nat, BatchRow>, first: nat, rows: seq<PlannedBatch>)
    requires Prefix(m, first)
    ensures var m' := InsertBatches(m, first, rows);
            Prefix(m', first + |rows|) && Sum(Planned(m')) == Sum(Planned(m)) + Planning.TotalEntities(rows)
  {
    if rows != [] {
      var n := |rows| - 1;
      InsertGrowsPrefix(m, first, rows[..n]);
      var mid := InsertBatches(m, first, rows[..n]);
      SumSet(Planned(mid), first + n, rows[n].entityCount);
      assert Planned(mid[first + n := NewRow(rows[n])]) == Planned(mid)[first + n := rows[n].entityCount];
    }
  }

  // What a planner in flight has put in the table and what it still holds.
  ghost predicate PlannerOk(m: map<nat, BatchRow>, pl: Planner) {
    && |pl.pending| <= pl.totalBatches
    && Prefix(m, pl.totalBatches - |pl.pending|)
    && Sum(Planned(m)) + Planning.TotalEntities(pl.pending) == pl.totalEntities
  }

  ghost predicate TotalsMatch(db: Db) {
    Prefix(db.batches, db.action.totalBatches) && db.action.totalEntities == Sum(Planned(db.batches))
  }

  predicate Underway(st: ActionStatus) {
    st == Processing || st.Finished()
  }

  ghost predicate PassOk(s: State) {
    && (forall p, q :: p in s.planners && q in s.planners ==> p == q)
    && (s.past.plansOpened == 0 ==> s.planners.Keys == {} && s.db.batches.Keys == {} && !Underway(s.db.action.status))
    && (forall p :: p in s.planners ==> PlannerOk(s.db.batches, s.planners[p]) && !Underway(s.db.action.status))
    && (Underway(s.db.action.status) ==> TotalsMatch(s.db))
    && (s.db.action.status.Finished() ==> s.db.action.completedBatches >= s.db.action.totalBatches)
    && (s.past.started ==> Underway(s.db.action.status) || s.db.action.status == ActionCancelled)
    && (s.db.action.status == Processing ==> s.past.started)
  }

  lemma SameRowsSamePlan(m: map<nat, BatchRow>, m': map<nat, BatchRow>)
    requires m.Keys == m'.Keys && SameWork(m, m')
    ensures Planned(m) == Planned(m')
    ensures forall n :: Prefix(m, n) <==> Prefix(m', n)
  {
    assert forall i :: i in m <==> i in m.Keys;
    assert forall i :: i in m' <==> i in m'.Keys;
  }

  lemma OnlyFlushAdds(cfg: Config, s: State, e: Event)
    requires cfg.batchSize >= 1 && !e.PlanFlush?
    ensures Step(cfg, s, e).db.batches.Keys == s.db.batches.Keys
  {}

  lemma PageKeepsPlanner(cfg: Config, t: Table, m: map<nat, BatchRow>, pl: Planner)
    requires cfg.batchSize >= 1 && PlannerOk(m, pl)
    ensures PlannerOk(m, ReadPage(cfg, t, pl))
  {
    var pl' := ReadPage(cfg, t, pl);
    if pl'.pending != pl.pending {
      var b := pl'.pending[|pl.pending|];
      assert pl'.pending == pl.pending + [b];
      Planning.TotalEntitiesAppend(pl.pending, [b]);
      Planning.TotalOfOne(b);
    }
  }

  lemma OpenKeepsPass(s: State, p: nat)
    requires PassOk(s) && StepPlanOpen(s, p).past.plansOpened <= 1
    ensures PassOk(StepPlanOpen(s, p))
  {
    assert Planned(s.db.batches).Keys == s.db.batches.Keys;
  }

  lemma PageKeepsPass(cfg: Config, s: State, p: nat)
    requires cfg.batchSize >= 1 && PassOk(s)
    ensures PassOk(StepPlanPage(cfg, s, p))
  {
    if p in s.planners {
      PageKeepsPlanner(cfg, s.db.entities, s.db.batches, s.planners[p]);
    }
  }

  lemma FlushKeepsPass(s: State, p: nat)
    requires PassOk(s)
    ensures PassOk(StepPlanFlush(s, p))
  {
    if p in s.planners {
      var pl := s.planners[p];
      InsertGrowsPrefix(s.db.batches, FirstPending(pl), pl.pending);
    }
  }

  lemma CloseKeepsPass(s: State, p: nat)
    requires PassOk(s)
    ensures PassOk(StepPlanClose(s, p))
  {}

  lemma LeaveKeepsPass(s: State, p: nat)
    requires PassOk(s)
    ensures PassOk(StepPlanFail(s, p)) && PassOk(s.(planners := s.planners - {p}))
  {}

  lemma PlannerStepKeepsPass(cfg: Config, s: State, e: Event)
    requires cfg.batchSize >= 1 && PassOk(s) && Step(cfg, s, e).past.plansOpened <= 1 && PlannerEvent(e)
    ensures PassOk(Step(cfg, s, e))
  {
    match e {
      case PlanOpen(p) => OpenKeepsPass(s, p);
      case PlanPage(p) => PageKeepsPass(cfg, s, p);
      case PlanFlush(p) => FlushKeepsPass(s, p);
      case PlanClose(p) => CloseKeepsPass(s, p);
      case PlanFail(p) => LeaveKeepsPass(s, p);
      case PlanCrash(p) => LeaveKeepsPass(s, p);
    }
  }

  lemma OtherStepKeepsPass(cfg: Config, s: State, e: Event)
    requires cfg.batchSize >= 1 && PassOk(s)
    requires !PlannerEvent(e)
    ensures PassOk(Step(cfg, s, e))
  {
    OnlyFlushAdds(cfg, s, e);
    StepKeepsWork(cfg, s, e);
    JobStepFrame(cfg, s, e);
    KeepsPass(s, Step(cfg, s, e));
  }

  predicate PlannerEvent(e: Event) {
    e.PlanOpen? || e.PlanPage? || e.PlanFlush? || e.PlanClose? || e.PlanFail? || e.PlanCrash?
  }

  // What workers, cancellers and outside writers may do to the action row and to the planners.
  ghost predicate PassFrame(s: State, s': State) {
    var a, a' := s.db.action, s'.db.action;
    && s'.planners == s.planners && s'.past.plansOpened == s.past.plansOpened && s'.past.started == s.past.started
    && a'.totalEntities == a.totalEntities && a'.totalBatches == a.totalBatches
        && a'.completedBatches >= a.completedBatches
    && (a'.status == a.status || a'.status == ActionCancelled
        || (a.status == Processing && a'.status.Finished() && a.completedBatches >= a.totalBatches))
    && (a'.status == ActionCancelled ==> !a.status.Finished())
  }

  lemma JobStepFrame(cfg: Config, s: State, e: Event)
    requires cfg.batchSize >= 1 && !PlannerEvent(e)
    ensures PassFrame(s, Step(cfg, s, e))
  {}

  lemma KeepsPass(s: State, s': State)
    requires PassOk(s) && PassFrame(s, s') && s.db.batches.Keys == s'.db.batches.Keys
             && SameWork(s.db.batches, s'.db.batches)
    ensures PassOk(s')
  {
    SameRowsSamePlan(s.db.batches, s'.db.batches);
  }

  lemma StepKeepsPass(cfg: Config, s: State, e: Event)
    requires cfg.batchSize >= 1 && PassOk(s) && Step(cfg, s, e).past.plansOpened <= 1
    ensures PassOk(Step(cfg, s, e))
  {
    if PlannerEvent(e) {
      PlannerStepKeepsPass(cfg, s, e);
    } else {
      OtherStepKeepsPass(cfg, s, e);
    }
  }

  lemma PassesOnlyGrow(cfg: Config, s: State, e: Event)
    requires cfg.batchSize >= 1
    ensures s.past.plansOpened <= Step(cfg, s, e).past.plansOpened
    ensures s.past.accountings <= Step(cfg, s, e).past.accountings
  {}

  lemma {:induction false} AlwaysPassOk(cfg: Config, entities: Table, scheduled: bool, es: seq<Event>)
    requires cfg.batchSize >= 1 && Run(cfg, Init(entities, scheduled), es).past.plansOpened <= 1
    ensures PassOk(Run(cfg, Init(entities, scheduled), es))
  {
    if es != [] {
      var n := |es| - 1;
      var before := Run(cfg, Init(entities, scheduled), es[..n]);
      PassesOnlyGrow(cfg, before, es[n]);
      AlwaysPassOk(cfg, entities, scheduled, es[..n]);
      StepKeepsPass(cfg, before, es[n]);
    }
  }
}
