/**
 One planning pass from open to close, in the middle of everything else: workers, cancellers and
 outside writers act between any two of its transactions, and earlier passes may have left rows.
 */
module Passes {
  import opened Domain
  import opened Store
  import opened Protocol
  import opened OnePass
  import opened Replanning
  import Planning

  // The batch one page read yields, if it yields one.
  function NextOf(cfg: Config, t: Table, pl: Planner): seq<PlannedBatch>
    requires cfg.batchSize >= 1
  {
    var pl' := ReadPage(cfg, t, pl);
    if |pl'.pending| == |pl.pending| then [] else [pl'.pending[|pl.pending|]]
  }

  // What the pass yields at this step.
  function Yield(cfg: Config, s: State, e: Event, p: nat): seq<PlannedBatch>
    requires cfg.batchSize >= 1
  {
    if e != PlanPage(p) || p !in s.planners || s.planners[p].exhausted || CanFlush(s.planners[p]) then []
    else NextOf(cfg, s.db.entities, s.planners[p])
  }

  function Yielded(cfg: Config, s: State, es: seq<Event>, p: nat): seq<PlannedBatch>
    requires cfg.batchSize >= 1
  {
    if es == [] then []
    else
      var n := |es| - 1;
      Yielded(cfg, s, es[..n], p) + Yield(cfg, Run(cfg, s, es[..n]), es[n], p)
  }

  // The rows there before the pass, and the first `flushed` batches of the pass where there was none.
  ghost predicate RowsOfPass(m0: map<nat, BatchRow>, m: map<nat, BatchRow>, plan: seq<PlannedBatch>, flushed: nat) {
    && flushed <= |plan|
    && (forall i :: i in m <==> i in m0 || 0 <= i < flushed)
    && (forall i :: i in m ==> m[i].work == if i in m0 then m0[i].work else plan[i])
  }

  // The pass has yielded `plan` and has flushed its first `flushed` batches.
  ghost predicate OnPass(plan: seq<PlannedBatch>, flushed: nat, pl: Planner) {
    && pl.totalBatches == |plan| && pl.totalEntities == Planning.TotalEntities(plan)
    && flushed + |pl.pending| == |plan| && forall k :: flushed <= k < |plan| ==> plan[k] == pl.pending[k - flushed]
  }

  ghost predicate Passing(m0: map<nat, BatchRow>, plan: seq<PlannedBatch>, flushed: nat, s: State, p: nat) {
    && p in s.planners && (forall q :: q in s.planners ==> q == p)
    && OnPass(plan, flushed, s.planners[p]) && RowsOfPass(m0, s.db.batches, plan, flushed)
  }

  lemma ReadOnPass(cfg: Config, t: Table, plan: seq<PlannedBatch>, flushed: nat, pl: Planner)
    requires cfg.batchSize >= 1 && OnPass(plan, flushed, pl)
    ensures OnPass(plan + NextOf(cfg, t, pl), flushed, ReadPage(cfg, t, pl))
  {
    var pl' := ReadPage(cfg, t, pl);
    assert plan + [] == plan;
    if |pl'.pending| != |pl.pending| {
      var b := pl'.pending[|pl.pending|];
      assert pl'.pending == pl.pending + [b];
      Planning.TotalEntitiesAppend(plan, [b]);
      Planning.TotalOfOne(b);
    }
  }

  lemma LongerPlan(m0: map<nat, BatchRow>, m: map<nat, BatchRow>, plan: seq<PlannedBatch>, more: seq<PlannedBatch>,
                   flushed: nat)
    requires RowsOfPass(m0, m, plan, flushed)
    ensures RowsOfPass(m0, m, plan + more, flushed)
  {}

  lemma PagePasses(cfg: Config, m0: map<nat, BatchRow>, plan: seq<PlannedBatch>, flushed: nat, s: State, p: nat)
    requires cfg.batchSize >= 1 && Passing(m0, plan, flushed, s, p)
    ensures Passing(m0, plan + Yield(cfg, s, PlanPage(p), p), flushed, StepPlanPage(cfg, s, p), p)
  {
    assert plan + [] == plan;
    if !s.planners[p].exhausted && !CanFlush(s.planners[p]) {
      ReadOnPass(cfg, s.db.entities, plan, flushed, s.planners[p]);
      LongerPlan(m0, s.db.batches, plan, NextOf(cfg, s.db.entities, s.planners[p]), flushed);
    }
  }

  lemma FlushedRows(m0: map<nat, BatchRow>, m: map<nat, BatchRow>, plan: seq<PlannedBatch>, flushed: nat,
                    rows: seq<PlannedBatch>)
    requires RowsOfPass(m0, m, plan, flushed) && flushed + |rows| == |plan|
    requires forall k :: flushed <= k < |plan| ==> plan[k] == rows[k - flushed]
    ensures RowsOfPass(m0, InsertBatches(m, flushed, rows), plan, |plan|)
  {
    InsertBatchesKeeps(m, flushed, rows);
    var m' := InsertBatches(m, flushed, rows);
    forall i | i in m' ensures m'[i].work == if i in m0 then m0[i].work else plan[i] {
      if i !in m {
        assert plan[i] == rows[i - flushed];
      }
    }
  }

  lemma FlushPasses(m0: map<nat, BatchRow>, plan: seq<PlannedBatch>, flushed: nat, s: State, p: nat)
    returns (flushed': nat)
    requires Passing(m0, plan, flushed, s, p)
    ensures Passing(m0, plan, flushed', StepPlanFlush(s, p), p)
  {
    var pl := s.planners[p];
    flushed' := flushed;
    if CanFlush(pl) {
      flushed' := |plan|;
      FlushedRows(m0, s.db.batches, plan, flushed, pl.pending);
    }
  }

  // Between open and close: no pass begins, fails, crashes or closes.
  predicate Between(e: Event) {
    !e.PlanOpen? && !e.PlanFail? && !e.PlanCrash? && !e.PlanClose?
  }

  lemma OtherPasses(cfg: Config, m0: map<nat, BatchRow>, plan: seq<PlannedBatch>, flushed: nat, s: State, e: Event,
                    p: nat)
    requires cfg.batchSize >= 1 && Passing(m0, plan, flushed, s, p) && !PlannerEvent(e)
    ensures Passing(m0, plan, flushed, Step(cfg, s, e), p)
  {
    SameRows(cfg, s, e);
    JobStepFrame(cfg, s, e);
  }

  lemma StepPasses(cfg: Config, m0: map<nat, BatchRow>, plan: seq<PlannedBatch>, flushed: nat, s: State, e: Event,
                   p: nat)
    returns (flushed': nat)
    requires cfg.batchSize >= 1 && Passing(m0, plan, flushed, s, p) && Between(e)
    ensures Passing(m0, plan + Yield(cfg, s, e, p), flushed', Step(cfg, s, e), p)
  {
    assert plan + [] == plan;
    flushed' := flushed;
    match e {
      case PlanPage(q) => if q == p { PagePasses(cfg, m0, plan, flushed, s, p); }
      case PlanFlush(q) => if q == p { flushed' := FlushPasses(m0, plan, flushed, s, p); }
      case _ => OtherPasses(cfg, m0, plan, flushed, s, e, p);
    }
  }

  lemma {:induction false} RunPasses(cfg: Config, m0: map<nat, BatchRow>, s: State, es: seq<Event>, p: nat)
    returns (flushed: nat)
    requires cfg.batchSize >= 1 && Passing(m0, [], 0, s, p) && forall k :: 0 <= k < |es| ==> Between(es[k])
    ensures Passing(m0, Yielded(cfg, s, es, p), flushed, Run(cfg, s, es), p)
  {
    flushed := 0;
    if es != [] {
      var n := |es| - 1;
      flushed := RunPasses(cfg, m0, s, es[..n], p);
      flushed := StepPasses(cfg, m0, Yielded(cfg, s, es[..n], p), flushed, Run(cfg, s, es[..n]), es[n], p);
    }
  }

  // A pass by planner p from `s`, with `es` between its first and its last transaction.
  predicate IsPass(cfg: Config, s: State, es: seq<Event>, p: nat)
    requires cfg.batchSize >= 1
  {
    && s.planners == map[] && !s.db.action.status.Terminal()
    && (forall k :: 0 <= k < |es| ==> Between(es[k]))
    && var end := Run(cfg, StepPlanOpen(s, p), es);
       p in end.planners && end.planners[p].exhausted && end.planners[p].pending == []
  }

  // The state its last transaction leaves.
  function Passed(cfg: Config, s: State, es: seq<Event>, p: nat): State
    requires cfg.batchSize >= 1
  {
    StepPlanClose(Run(cfg, StepPlanOpen(s, p), es), p)
  }

  lemma RowsOfPassConverge(m0: map<nat, BatchRow>, m: map<nat, BatchRow>, plan: seq<PlannedBatch>)
    requires RowsOfPass(m0, m, plan, |plan|)
    ensures RowsFollow(m, plan) && Prefix(m, |plan|) <==> RowsFollow(m0, plan)
  {
    if RowsFollow(m, plan) {
      forall i | i in m0 ensures i < |plan| && m0[i].work == plan[i] {
        assert i in m;
      }
    }
  }

  /** What one pass leaves, whatever other writers do to the table between its pages and whatever
      workers do to the rows: its totals are those of what it yielded; and the batch table is exactly
      what it yielded if and only if every row that was there before is a row of it, because a
      conflicting insert keeps the old row. */
  lemma PassConvergesExactlyWhen(cfg: Config, s: State, es: seq<Event>, p: nat)
    requires cfg.batchSize >= 1 && IsPass(cfg, s, es, p)
    ensures var plan, db := Yielded(cfg, StepPlanOpen(s, p), es, p), Passed(cfg, s, es, p).db;
            db.action.totalBatches == |plan| && db.action.totalEntities == Planning.TotalEntities(plan)
            && (RowsFollow(db.batches, plan) && Prefix(db.batches, |plan|) <==> RowsFollow(s.db.batches, plan))
  {
    var begun, m0 := StepPlanOpen(s, p), s.db.batches;
    assert Passing(m0, [], 0, begun, p);
    var flushed := RunPasses(cfg, m0, begun, es, p);
    PassCloses(m0, Yielded(cfg, begun, es, p), flushed, Run(cfg, begun, es), p);
  }

  lemma PassCloses(m0: map<nat, BatchRow>, plan: seq<PlannedBatch>, flushed: nat, s: State, p: nat)
    requires Passing(m0, plan, flushed, s, p) && s.planners[p].exhausted && s.planners[p].pending == []
    ensures var db := StepPlanClose(s, p).db;
            db.action.totalBatches == |plan| && db.action.totalEntities == Planning.TotalEntities(plan)
            && (RowsFollow(db.batches, plan) && Prefix(db.batches, |plan|) <==> RowsFollow(m0, plan))
  {
    RowsOfPassConverge(m0, s.db.batches, plan);
  }
}
