/**
 What a whole bulk action means: running its planned batches, each once and in any order, is the
 same as one statement over the target set.
 */
module BatchedMeaning {
  import opened Domain
  import opened Dedup
  import opened Handlers
  import opened BatchRunner
  import opened Planning

  datatype World = World(t: Table, ledger: set<Key>)

  ghost predicate Disjoint(plan: seq<PlannedBatch>) {
    forall i, j, id :: 0 <= i < |plan| && 0 <= j < |plan| && i != j && plan[i].Owns(id) ==> !plan[j].Owns(id)
  }

  // An execution order: each batch at most once.
  predicate IsOrder(plan: seq<PlannedBatch>, order: seq<nat>) {
    && (forall i :: 0 <= i < |order| ==> order[i] < |plan|)
    && (forall i, j :: 0 <= i < j < |order| ==> order[i] != order[j])
  }

  // Each batch exactly once.
  predicate IsComplete(plan: seq<PlannedBatch>, order: seq<nat>) {
    IsOrder(plan, order) && forall k: nat :: k < |plan| ==> k in order
  }

  // `clock(k)` is the statement time at which batch k runs.
  function RunAll(cfg: Config, plan: seq<PlannedBatch>, w: World, order: seq<nat>, clock: nat -> int): World
    requires IsOrder(plan, order)
  {
    if order == [] then w
    else
      var n := |order| - 1;
      var before := RunAll(cfg, plan, w, order[..n], clock);
      var e := RunBatch(cfg, before.t, before.ledger, plan[order[n]], clock(order[n]));
      World(e.entities, e.ledger)
  }

  // ----- A batch only touches what it owns -----------------------------------------------

  predicate SameAt(a: Table, b: Table, id: Id) {
    (id in a <==> id in b) && (id in a ==> a[id] == b[id])
  }

  lemma {:induction false} WritesOnlyLoaded(cfg: Config, rows: seq<Loaded>, id: Id)
    requires id in ToWrite(cfg, rows)
    ensures exists r :: r in rows && r.id == id && NeedsWrite(cfg, r.row)
  {
    var n := |rows| - 1;
    if id in ToWrite(cfg, rows[..n]) {
      WritesOnlyLoaded(cfg, rows[..n], id);
      var r :| r in rows[..n] && r.id == id && NeedsWrite(cfg, r.row);
      assert r in rows;
    } else {
      assert rows[n] in rows;
    }
  }

  lemma {:induction false} WritesAllThatNeedIt(cfg: Config, rows: seq<Loaded>, r: Loaded)
    requires r in rows && NeedsWrite(cfg, r.row)
    ensures r.id in ToWrite(cfg, rows)
  {
    var n := |rows| - 1;
    if r != rows[n] {
      assert r in rows[..n];
      WritesAllThatNeedIt(cfg, rows[..n], r);
    }
  }

  lemma UniqueRowsAreLoaded(cfg: Config, ledger: set<Key>, rows: seq<Loaded>, r: Loaded)
    requires r in SplitBatch(cfg, ledger, rows).unique
    ensures r in rows
  {
    var p := SplitBatch(cfg, ledger, rows);
    SplitBatchPermutes(cfg, ledger, rows);
    assert r in p.unique + Rows(p.duplicates);
    assert r in multiset(p.unique + Rows(p.duplicates));
  }

  lemma TouchesOnlySelected(cfg: Config, t: Table, ledger: set<Key>, b: PlannedBatch, now: int, id: Id)
    requires id !in SelectedIds(cfg, t, b)
    ensures SameAt(RunBatch(cfg, t, ledger, b, now).entities, t, id)
  {
    var rows := LoadRows(cfg, t, b);
    var unique := SplitBatch(cfg, ledger, rows).unique;
    if id in ToWrite(cfg, unique) {
      WritesOnlyLoaded(cfg, unique, id);
      var r :| r in unique && r.id == id && NeedsWrite(cfg, r.row);
      UniqueRowsAreLoaded(cfg, ledger, rows, r);
      LoadRowsFacts(cfg, t, b);
      assert false;
    }
  }

  lemma TouchesOnlyOwned(cfg: Config, t: Table, ledger: set<Key>, b: PlannedBatch, now: int, id: Id)
    requires !b.Owns(id)
    ensures SameAt(RunBatch(cfg, t, ledger, b, now).entities, t, id)
  {
    TouchesOnlySelected(cfg, t, ledger, b, now, id);
  }

  lemma {:induction false} Undisturbed(cfg: Config, plan: seq<PlannedBatch>, w: World, order: seq<nat>,
                                       clock: nat -> int, id: Id)
    requires IsOrder(plan, order) && forall i :: 0 <= i < |order| ==> !plan[order[i]].Owns(id)
    ensures SameAt(RunAll(cfg, plan, w, order, clock).t, w.t, id)
  {
    if order != [] {
      var n := |order| - 1;
      Undisturbed(cfg, plan, w, order[..n], clock, id);
      var before := RunAll(cfg, plan, w, order[..n], clock);
      TouchesOnlyOwned(cfg, before.t, before.ledger, plan[order[n]], clock(order[n]), id);
    }
  }

  // So a batch that has not run yet still finds what it would have found at the start.
  lemma FindsOriginalRows(cfg: Config, plan: seq<PlannedBatch>, w: World, order: seq<nat>, clock: nat -> int, k: nat)
    requires Disjoint(plan) && IsOrder(plan, order) && k < |plan| && k !in order
    ensures forall id :: plan[k].Owns(id) ==> SameAt(RunAll(cfg, plan, w, order, clock).t, w.t, id)
    ensures SelectedIds(cfg, RunAll(cfg, plan, w, order, clock).t, plan[k]) == SelectedIds(cfg, w.t, plan[k])
    ensures LoadRows(cfg, RunAll(cfg, plan, w, order, clock).t, plan[k]) == LoadRows(cfg, w.t, plan[k])
  {
    var t := RunAll(cfg, plan, w, order, clock).t;
    forall id | plan[k].Owns(id) ensures SameAt(t, w.t, id) {
      forall i | 0 <= i < |order| ensures !plan[order[i]].Owns(id) {
        assert order[i] in order;
      }
      Undisturbed(cfg, plan, w, order, clock, id);
    }
    SameLoads(cfg, t, w.t, plan[k]);
  }

  lemma SameLoads(cfg: Config, t: Table, u: Table, b: PlannedBatch)
    requires forall id :: b.Owns(id) ==> SameAt(t, u, id)
    ensures SelectedIds(cfg, t, b) == SelectedIds(cfg, u, b)
    ensures LoadRows(cfg, t, b) == LoadRows(cfg, u, b)
  {
    assert forall id :: id in SelectedIds(cfg, t, b) ==> b.Owns(id);
    assert forall id :: id in SelectedIds(cfg, u, b) ==> b.Owns(id);
    assert SelectedIds(cfg, t, b) == SelectedIds(cfg, u, b);
    var ids := Planning.Sorted(SelectedIds(cfg, t, b));
    Planning.SortedIsAll(SelectedIds(cfg, t, b));
    forall i | 0 <= i < |ids| ensures LoadRows(cfg, t, b)[i] == LoadRows(cfg, u, b)[i] {
      assert ids[i] in ids && b.Owns(ids[i]);
    }
  }

  // ----- Any order is one statement ------------------------------------------------------

  // A row without its two statement timestamps.
  datatype Content = Content(account: int, values: Columns, deleted: bool)

  function Erase(row: EntityRow): Content {
    Content(row.account, row.values, row.deletedAt.Some?)
  }

  function View(t: Table, id: Id): Option<Content> {
    if id in t then Some(Erase(t[id])) else None
  }

  // What one statement over `hit` leaves at `id`.
  function Expect(cfg: Config, t: Table, hit: set<Id>, id: Id): Option<Content> {
    if id !in t then None
    else if id !in hit then Some(Erase(t[id]))
    else
      var e := Effect(cfg, t[id], 0);
      if e.None? then None else Some(Erase(e.value))
  }

  lemma StatementMeetsExpect(cfg: Config, t: Table, hit: set<Id>, now: int, id: Id)
    ensures View(ApplyTo(cfg, t, hit, now), id) == Expect(cfg, t, hit, id)
  {}

  // The updated fields are columns of the entity, as submission-time validation guarantees.
  predicate HasColumns(cfg: Config, t: Table) {
    cfg.kind.Update? ==> forall id :: id in t ==> cfg.kind.updates.Keys <= t[id].values.Keys
  }

  lemma NoOpChangesNothing(cfg: Config, row: EntityRow)
    requires !NeedsWrite(cfg, row) && cfg.kind.updates.Keys <= row.values.Keys
    ensures Effect(cfg, row, 0).Some? && Erase(Effect(cfg, row, 0).value) == Erase(row)
  {
    assert row.values + cfg.kind.updates == row.values;
  }

  lemma BatchMeetsExpect(cfg: Config, t: Table, ledger: set<Key>, b: PlannedBatch, now: int, id: Id)
    requires !Deduplicates(cfg) && (cfg.kind.Update? && id in t ==> cfg.kind.updates.Keys <= t[id].values.Keys)
    ensures View(RunBatch(cfg, t, ledger, b, now).entities, id) == Expect(cfg, t, SelectedIds(cfg, t, b), id)
  {
    var rows := LoadRows(cfg, t, b);
    LoadRowsFacts(cfg, t, b);
    var ids := ToWrite(cfg, rows);
    if id in ids {
      WritesOnlyLoaded(cfg, rows, id);
    }
    if id in SelectedIds(cfg, t, b) {
      var r := Loaded(id, t[id]);
      assert r in rows;
      if NeedsWrite(cfg, t[id]) {
        WritesAllThatNeedIt(cfg, rows, r);
        assert id in Hit(cfg, t, ids);
      } else {
        NoOpChangesNothing(cfg, t[id]);
      }
    }
  }

  // The targets of the batches that have run.
  function Covered(cfg: Config, plan: seq<PlannedBatch>, t: Table, order: seq<nat>): set<Id>
    requires IsOrder(plan, order)
  {
    if order == [] then {}
    else
      var n := |order| - 1;
      Covered(cfg, plan, t, order[..n]) + SelectedIds(cfg, t, plan[order[n]])
  }

  lemma {:induction false} CoveredIsOwned(cfg: Config, plan: seq<PlannedBatch>, t: Table, order: seq<nat>, id: Id)
    requires IsOrder(plan, order)
    ensures id in Covered(cfg, plan, t, order) <==>
            exists i :: 0 <= i < |order| && id in SelectedIds(cfg, t, plan[order[i]])
  {
    if order != [] {
      var n := |order| - 1;
      CoveredIsOwned(cfg, plan, t, order[..n], id);
      if id in Covered(cfg, plan, t, order[..n]) {
        var i :| 0 <= i < n && id in SelectedIds(cfg, t, plan[order[..n][i]]);
        assert order[i] == order[..n][i];
      }
      if i :| 0 <= i < |order| && id in SelectedIds(cfg, t, plan[order[i]]) {
        if i < n { assert order[..n][i] == order[i]; }
      }
    }
  }

  lemma {:induction false} RunMeetsExpect(cfg: Config, plan: seq<PlannedBatch>, w: World, order: seq<nat>,
                                          clock: nat -> int, id: Id)
    requires Disjoint(plan) && IsOrder(plan, order) && !Deduplicates(cfg) && HasColumns(cfg, w.t)
    ensures View(RunAll(cfg, plan, w, order, clock).t, id) == Expect(cfg, w.t, Covered(cfg, plan, w.t, order), id)
  {
    if order != [] {
      var n := |order| - 1;
      var init, k := order[..n], order[n];
      RunMeetsExpect(cfg, plan, w, init, clock, id);
      var before := RunAll(cfg, plan, w, init, clock);
      FindsOriginalRows(cfg, plan, w, init, clock, k);
      if plan[k].Owns(id) {
        CoveredIsOwned(cfg, plan, w.t, init, id);
        forall i | 0 <= i < n ensures id !in SelectedIds(cfg, w.t, plan[init[i]]) {
          assert init[i] == order[i] && !plan[init[i]].Owns(id);
        }
        assert SameAt(before.t, w.t, id);
        BatchMeetsExpect(cfg, before.t, before.ledger, plan[k], clock(k), id);
      } else {
        TouchesOnlyOwned(cfg, before.t, before.ledger, plan[k], clock(k), id);
      }
    }
  }

  // Every id some batch of the plan would select in `t`.
  ghost predicate IsPlanTarget(cfg: Config, plan: seq<PlannedBatch>, t: Table, target: set<Id>) {
    forall id :: id in target <==> exists k :: 0 <= k < |plan| && id in SelectedIds(cfg, t, plan[k])
  }

  lemma CompleteCoversTarget(cfg: Config, plan: seq<PlannedBatch>, t: Table, order: seq<nat>, target: set<Id>)
    requires IsComplete(plan, order) && IsPlanTarget(cfg, plan, t, target)
    ensures Covered(cfg, plan, t, order) == target
  {
    forall id ensures id in Covered(cfg, plan, t, order) <==> id in target {
      CoveredIsOwned(cfg, plan, t, order, id);
      if id in target {
        var k :| 0 <= k < |plan| && id in SelectedIds(cfg, t, plan[k]);
        assert k in order;
        var i :| 0 <= i < |order| && order[i] == k;
        assert id in SelectedIds(cfg, t, plan[order[i]]);
      }
    }
  }

  lemma AnyOrder(cfg: Config, plan: seq<PlannedBatch>, w: World, order: seq<nat>, clock: nat -> int, target: set<Id>,
                 now: int, id: Id)
    requires Disjoint(plan) && IsComplete(plan, order) && IsPlanTarget(cfg, plan, w.t, target)
    requires !Deduplicates(cfg) && HasColumns(cfg, w.t)
    ensures View(RunAll(cfg, plan, w, order, clock).t, id) == View(ApplyTo(cfg, w.t, target, now), id)
  {
    RunMeetsExpect(cfg, plan, w, order, clock, id);
    CompleteCoversTarget(cfg, plan, w.t, order, target);
    StatementMeetsExpect(cfg, w.t, target, now, id);
  }

  function FilterPlan(cfg: Config, t: Table): seq<PlannedBatch> {
    KeysetPlan(TargetSet(cfg, t), None, cfg.batchSize)
  }

  lemma FilterPlanFits(cfg: Config, t: Table)
    requires cfg.batchSize >= 1
    ensures Disjoint(FilterPlan(cfg, t)) && IsPlanTarget(cfg, FilterPlan(cfg, t), t, TargetSet(cfg, t))
  {
    var target, plan := TargetSet(cfg, t), FilterPlan(cfg, t);
    KeysetPlanCovers(target, None, cfg.batchSize);
    assert Beyond(target, None) == target;
    assert Ascending(plan);
    forall i, j, id | 0 <= i < |plan| && 0 <= j < |plan| && i != j && plan[i].Owns(id) ensures !plan[j].Owns(id) {
      assert if i < j then plan[i].hi < plan[j].lo else plan[j].hi < plan[i].lo;
    }
    forall id ensures id in target <==> exists k :: 0 <= k < |plan| && id in SelectedIds(cfg, t, plan[k]) {
      if id in target {
        assert OwnedOnce(plan, id);
        var k :| SoleOwner(plan, k, id);
        assert id in SelectedIds(cfg, t, plan[k]);
      }
    }
  }

  /** For any table, filter and batch size, running each planned range batch once, in any order
      and at any times, leaves the same table as one statement over the whole target set. */
  lemma AnyOrderIsOneStatement(cfg: Config, t: Table, order: seq<nat>, clock: nat -> int, now: int, id: Id)
    requires cfg.batchSize >= 1 && !Deduplicates(cfg) && HasColumns(cfg, t)
    requires IsComplete(FilterPlan(cfg, t), order)
    ensures View(RunAll(cfg, FilterPlan(cfg, t), World(t, {}), order, clock).t, id)
            == View(ApplyTo(cfg, t, TargetSet(cfg, t), now), id)
  {
    FilterPlanFits(cfg, t);
    AnyOrder(cfg, FilterPlan(cfg, t), World(t, {}), order, clock, TargetSet(cfg, t), now, id);
  }

  function IdPlan(cfg: Config, ids: seq<Id>): seq<PlannedBatch>
    requires cfg.batchSize >= 1
  {
    ChunkPlan(Distinct(ids), cfg.batchSize)
  }

  function NamedTargets(cfg: Config, t: Table, ids: seq<Id>): set<Id> {
    set id | id in t && id in ids && Live(cfg, t[id])
  }

  lemma IdPlanFits(cfg: Config, t: Table, ids: seq<Id>)
    requires cfg.batchSize >= 1
    ensures Disjoint(IdPlan(cfg, ids)) && IsPlanTarget(cfg, IdPlan(cfg, ids), t, NamedTargets(cfg, t, ids))
  {
    var plan, ds := IdPlan(cfg, ids), Distinct(ids);
    ChunksPartition(ds, cfg.batchSize);
    forall i, j, id | 0 <= i < |plan| && 0 <= j < |plan| && i != j && plan[i].Owns(id) ensures !plan[j].Owns(id) {
      assert id in ds;
      var k :| SoleOwner(plan, k, id);
    }
    forall id
      ensures id in NamedTargets(cfg, t, ids) <==> exists k :: 0 <= k < |plan| && id in SelectedIds(cfg, t, plan[k])
    {
      if id in NamedTargets(cfg, t, ids) {
        assert id in ds;
        var k :| SoleOwner(plan, k, id);
        assert ChunkShape(plan[k], cfg.batchSize);
        assert id in SelectedIds(cfg, t, plan[k]);
      }
      if k :| 0 <= k < |plan| && id in SelectedIds(cfg, t, plan[k]) {
        assert plan[k].Owns(id);
      }
    }
  }

  /** The same for explicitly named entities: ids of other accounts, deleted or unknown ids and
      repeated ids included. */
  lemma AnyOrderOfIdsIsOneStatement(cfg: Config, t: Table, ids: seq<Id>, order: seq<nat>, clock: nat -> int, now: int,
                                    id: Id)
    requires cfg.batchSize >= 1 && !Deduplicates(cfg) && HasColumns(cfg, t)
    requires IsComplete(IdPlan(cfg, ids), order)
    ensures View(RunAll(cfg, IdPlan(cfg, ids), World(t, {}), order, clock).t, id)
            == View(ApplyTo(cfg, t, NamedTargets(cfg, t, ids), now), id)
  {
    IdPlanFits(cfg, t, ids);
    AnyOrder(cfg, IdPlan(cfg, ids), World(t, {}), order, clock, NamedTargets(cfg, t, ids), now, id);
  }
}
