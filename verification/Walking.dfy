/**
 The keyset walk inside a protocol run: with one planning pass, whatever other writers do between
 page reads, batch rows own disjoint ranges and the walk is always beyond all of them.
 */
module Walking {
  import opened Domain
  import opened Store
  import opened Protocol
  import opened OnePass
  import opened Replanning
  import Planning

  // A range batch that ends at or before `last`.
  predicate Behind(b: PlannedBatch, last: Option<Id>) {
    b.ids == [] && b.lo <= b.hi && last.Some? && b.hi <= last.value
  }

  predicate RowsAscend(m: map<nat, BatchRow>) {
    && (forall i :: i in m ==> m[i].work.ids == [] && m[i].work.lo <= m[i].work.hi)
    && (forall i, j :: i in m && j in m && i < j ==> m[i].work.hi < m[j].work.lo)
  }

  // A planner has passed its rows, then what it still holds, and is now at `last`.
  predicate HasPassed(m: map<nat, BatchRow>, pl: Planner) {
    && Planning.Ascending(pl.pending)
    && (forall i :: i in m ==> Behind(m[i].work, pl.last))
    && (forall k :: 0 <= k < |pl.pending| ==> Behind(pl.pending[k], pl.last))
    && (forall i, k :: i in m && 0 <= k < |pl.pending| ==> m[i].work.hi < pl.pending[k].lo)
  }

  predicate Walks(s: State) {
    RowsAscend(s.db.batches) && forall p :: p in s.planners ==> HasPassed(s.db.batches, s.planners[p])
  }

  lemma FilterPageAhead(cfg: Config, t: Table, m: map<nat, BatchRow>, pl: Planner)
    requires cfg.batchSize >= 1 && cfg.explicitIds.None? && HasPassed(m, pl)
    ensures HasPassed(m, ReadPage(cfg, t, pl))
    ensures var last := ReadPage(cfg, t, pl).last; pl.last.Some? ==> last.Some? && pl.last.value <= last.value
  {
    var ids := Planning.Page(Planning.Beyond(TargetSet(cfg, t), pl.last), cfg.batchSize);
    if ids != [] {
      var b := Planning.RangeOf(ids);
      assert ids[0] in ids && ids[|ids| - 1] in ids;
      if pl.pending != [] {
        assert Behind(pl.pending[|pl.pending| - 1], pl.last);
      }
      Planning.AscendingSnoc(pl.pending, b);
    }
  }

  lemma PageWalks(cfg: Config, s: State, p: nat)
    requires cfg.batchSize >= 1 && cfg.explicitIds.None? && Walks(s)
    ensures Walks(StepPlanPage(cfg, s, p))
  {
    if p in s.planners {
      FilterPageAhead(cfg, s.db.entities, s.db.batches, s.planners[p]);
    }
  }

  lemma FlushWalks(s: State, p: nat)
    requires Walks(s) && PassOk(s)
    ensures Walks(StepPlanFlush(s, p))
  {
    if p in s.planners && CanFlush(s.planners[p]) {
      var pl, m' := s.planners[p], StepPlanFlush(s, p).db.batches;
      assert Flushed(s.db.batches, m', FirstPending(pl), pl.pending) by {
        assert PlannerOk(s.db.batches, pl);
        InsertBatchesKeeps(s.db.batches, FirstPending(pl), pl.pending);
      }
      FlushedAscend(s.db.batches, m', FirstPending(pl), pl);
      forall q | q in StepPlanFlush(s, p).planners
        ensures q == p
      {
        assert q in s.planners;
      }
    }
  }

  // After a flush, rows below `first` are the old ones and the others are what was pending.
  predicate Flushed(m: map<nat, BatchRow>, m': map<nat, BatchRow>, first: nat, rows: seq<PlannedBatch>) {
    forall i :: i in m' ==>
      if i < first then i in m && m'[i].work == m[i].work
      else i - first < |rows| && m'[i].work == rows[i - first]
  }

  lemma FlushedAscend(m: map<nat, BatchRow>, m': map<nat, BatchRow>, first: nat, pl: Planner)
    requires HasPassed(m, pl) && RowsAscend(m) && Flushed(m, m', first, pl.pending)
    ensures RowsAscend(m') && HasPassed(m', pl.(pending := []))
  {
    forall i | i in m' ensures Behind(m'[i].work, pl.last) {
      if i < first {
        assert Behind(m[i].work, pl.last);
      } else {
        assert Behind(pl.pending[i - first], pl.last);
      }
    }
    forall i, j | i in m' && j in m' && i < j ensures m'[i].work.hi < m'[j].work.lo {
      if i < first <= j {
        assert m[i].work.hi < pl.pending[j - first].lo;
      } else if j < first {
        assert m[i].work.hi < m[j].work.lo;
      } else {
        assert pl.pending[i - first].hi < pl.pending[j - first].lo;
      }
    }
  }

  lemma SameWorkWalks(s: State, s': State)
    requires Walks(s) && (forall p :: p in s'.planners ==> p in s.planners && s'.planners[p] == s.planners[p])
    requires forall i :: i in s'.db.batches ==> i in s.db.batches && s'.db.batches[i].work == s.db.batches[i].work
    ensures Walks(s')
  {
    forall p | p in s'.planners ensures HasPassed(s'.db.batches, s'.planners[p]) {
      assert HasPassed(s.db.batches, s.planners[p]);
    }
  }

  lemma OpenWalks(s: State, p: nat)
    requires Walks(s) && PassOk(s) && StepPlanOpen(s, p).past.plansOpened <= 1
    ensures Walks(StepPlanOpen(s, p))
  {
    assert forall i :: i in s.db.batches ==> i in s.db.batches.Keys;
  }

  lemma StepWalks(cfg: Config, s: State, e: Event)
    requires cfg.batchSize >= 1 && cfg.explicitIds.None? && Walks(s) && PassOk(s)
    requires Step(cfg, s, e).past.plansOpened <= 1
    ensures Walks(Step(cfg, s, e))
  {
    match e {
      case PlanOpen(p) => OpenWalks(s, p);
      case PlanPage(p) => PageWalks(cfg, s, p);
      case PlanFlush(p) => FlushWalks(s, p);
      case PlanClose(p) => SameWorkWalks(s, StepPlanClose(s, p));
      case _ =>
        SameRows(cfg, s, e);
        OtherStepLeavesPlanners(cfg, s, e);
        SameWorkWalks(s, Step(cfg, s, e));
    }
  }

  lemma {:induction false} AlwaysWalks(cfg: Config, entities: Table, scheduled: bool, es: seq<Event>)
    requires cfg.batchSize >= 1 && cfg.explicitIds.None?
    requires Run(cfg, Init(entities, scheduled), es).past.plansOpened <= 1
    ensures Walks(Run(cfg, Init(entities, scheduled), es))
  {
    if es != [] {
      var n := |es| - 1;
      var before := Run(cfg, Init(entities, scheduled), es[..n]);
      PassesOnlyGrow(cfg, before, es[n]);
      AlwaysWalks(cfg, entities, scheduled, es[..n]);
      AlwaysPassOk(cfg, entities, scheduled, es[..n]);
      StepWalks(cfg, before, es[n]);
    }
  }

  // ----- Disjoint rows -------------------------------------------------------------------

  ghost predicate RowsDisjoint(m: map<nat, BatchRow>) {
    forall i, j, id :: i in m && j in m && i != j && m[i].work.Owns(id) ==> !m[j].work.Owns(id)
  }

  lemma AscendingRowsDisjoint(m: map<nat, BatchRow>)
    requires RowsAscend(m)
    ensures RowsDisjoint(m)
  {
    forall i, j, id | i in m && j in m && i != j && m[i].work.Owns(id) ensures !m[j].work.Owns(id) {
      assert if i < j then m[i].work.hi < m[j].work.lo else m[j].work.hi < m[i].work.lo;
    }
  }

  lemma ExplicitRowsDisjoint(ids: seq<Id>, size: nat, m: map<nat, BatchRow>)
    requires size >= 1 && RowsFollow(m, Planning.ChunkPlan(Planning.Distinct(ids), size))
    ensures RowsDisjoint(m)
  {
    var ds := Planning.Distinct(ids);
    var plan := Planning.ChunkPlan(ds, size);
    Planning.ChunksPartition(ds, size);
    forall i, j, id | i in m && j in m && i != j && m[i].work.Owns(id) ensures !m[j].work.Owns(id) {
      assert plan[i].Owns(id) && id in ds;
      var k :| Planning.SoleOwner(plan, k, id);
    }
  }

  /** No entity is owned by two batches: for explicit ids over any number of passes, for a filter
      with one pass, whatever other writers do meanwhile. */
  lemma NoEntityOwnedTwice(cfg: Config, entities: Table, scheduled: bool, es: seq<Event>)
    requires cfg.batchSize >= 1
    requires cfg.explicitIds.None? ==> Run(cfg, Init(entities, scheduled), es).past.plansOpened <= 1
    ensures RowsDisjoint(Run(cfg, Init(entities, scheduled), es).db.batches)
  {
    var s := Run(cfg, Init(entities, scheduled), es);
    match cfg.explicitIds {
      case None =>
        AlwaysWalks(cfg, entities, scheduled, es);
        AscendingRowsDisjoint(s.db.batches);
      case Some(ids) =>
        ExplicitRunsAreStable(cfg, Init(entities, scheduled), es);
        ReplanningConverges(cfg, {}, entities, scheduled, es);
        ExplicitRowsDisjoint(ids, cfg.batchSize, s.db.batches);
    }
  }
}
