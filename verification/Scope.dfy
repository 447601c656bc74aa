/**
 What an action can reach: the account's own rows, not deleted ones unless it asks for them, and for
 a filter the rows that match it.  Stated on columns, for pages, loads and whole runs.
 */
module Scope {
  import opened Domain
  import Dedup
  import opened BatchRunner
  import opened BatchedMeaning
  import opened Protocol
  import opened Alone

  // Hidden from an action whose entity has a soft-delete column.
  predicate Hidden(cfg: Config, row: EntityRow) {
    cfg.entity.softDelete && !cfg.includeDeleted && row.deletedAt.Some?
  }

  predicate OutOfScope(cfg: Config, row: EntityRow) {
    row.account != cfg.account || Hidden(cfg, row)
  }

  /** The target set of a filter: the account's rows that match it, without the hidden ones. */
  lemma TargetsExactly(cfg: Config, t: Table, id: Id)
    ensures id in TargetSet(cfg, t) <==>
            id in t && t[id].account == cfg.account && cfg.filter(t[id]) && !Hidden(cfg, t[id])
  {}

  // Named by an explicit batch, or inside a range and matching the filter.
  predicate AskedFor(cfg: Config, b: PlannedBatch, id: Id, row: EntityRow) {
    if b.ids != [] then id in b.ids else b.lo <= id <= b.hi && cfg.filter(row)
  }

  /** A batch loads exactly the rows it asks for that are the account's and not hidden; an explicit
      batch takes them whether or not they match the filter. */
  lemma LoadsExactly(cfg: Config, t: Table, b: PlannedBatch, id: Id, row: EntityRow)
    ensures Loaded(id, row) in LoadRows(cfg, t, b) <==>
            id in t && t[id] == row && row.account == cfg.account && !Hidden(cfg, row) && AskedFor(cfg, b, id, row)
  {
    LoadRowsFacts(cfg, t, b);
  }

  /** So nothing of another account and nothing deleted is ever loaded. */
  lemma NothingOutOfScopeLoaded(cfg: Config, t: Table, b: PlannedBatch, r: Loaded)
    requires r in LoadRows(cfg, t, b)
    ensures r.row.account == cfg.account
    ensures cfg.entity.softDelete && !cfg.includeDeleted ==> r.row.deletedAt.None?
  {
    LoadsExactly(cfg, t, b, r.id, r.row);
  }

  lemma RunLeavesOutOfScope(cfg: Config, t: Table, ledger: set<Dedup.Key>, b: PlannedBatch, now: int, id: Id)
    requires id in t && OutOfScope(cfg, t[id])
    ensures SameAt(RunBatch(cfg, t, ledger, b, now).entities, t, id)
  {
    var r := Loaded(id, t[id]);
    LoadsExactly(cfg, t, b, id, t[id]);
    LoadRowsFacts(cfg, t, b);
    assert r !in LoadRows(cfg, t, b);
    TouchesOnlySelected(cfg, t, ledger, b, now, id);
  }

  /** No step of any job, planner or canceller changes a row that is out of scope at that moment. */
  lemma StepLeavesOutOfScope(cfg: Config, s: State, e: Event, id: Id)
    requires cfg.batchSize >= 1 && !e.OutsideWrite?
    requires id in s.db.entities && OutOfScope(cfg, s.db.entities[id])
    ensures SameAt(Step(cfg, s, e).db.entities, s.db.entities, id)
  {
    if Executes(s, e) {
      var b := s.db.batches[s.jobs[e.j].index].work;
      RunLeavesOutOfScope(cfg, s.db.entities, s.db.ledger, b, e.now, id);
    } else if !MarksFailed(s, e) {
      OthersAreQuiet(cfg, s, e);
    }
  }

  /** Over every run without outside writes, from any state, a row of another account and a deleted
      row stay exactly as they were. */
  lemma {:induction false} OutOfScopeUntouched(cfg: Config, s: State, es: seq<Event>, id: Id)
    requires cfg.batchSize >= 1 && NoOutsideWrite(es)
    requires id in s.db.entities && OutOfScope(cfg, s.db.entities[id])
    ensures SameAt(Run(cfg, s, es).db.entities, s.db.entities, id)
  {
    if es != [] {
      var n := |es| - 1;
      OutOfScopeUntouched(cfg, s, es[..n], id);
      StepLeavesOutOfScope(cfg, Run(cfg, s, es[..n]), es[n], id);
    }
  }
}
