/**
 The two action handlers: bulk update (app/domain/actions/bulk_update.py) and bulk delete
 (app/domain/actions/bulk_delete.py).  A handler receives loaded rows, writes the entity table
 with one statement, and reports one outcome per row.
 */
module Handlers {
  import opened Domain

  // ----- What happens to one row ---------------------------------------------------------

  predicate Holds(updates: Columns, row: EntityRow) {
    forall k :: k in updates ==> Get(row, k) == updates[k]
  }

  function Stamp(cfg: Config, row: EntityRow, now: int): EntityRow {
    if cfg.entity.stamped then row.(updatedAt := now) else row
  }

  predicate Removes(cfg: Config) {
    cfg.kind.Delete? && (cfg.kind.hard || !cfg.entity.softDelete)
  }

  // None: the row is gone.
  function Effect(cfg: Config, row: EntityRow, now: int): Option<EntityRow> {
    if Removes(cfg) then None
    else match cfg.kind
      case Update(updates) => Some(Stamp(cfg, row.(values := row.values + updates), now))
      case Delete(_) => Some(Stamp(cfg, row.(deletedAt := Some(now)), now))
  }

  // Rows an update would not change are not written at all.
  predicate NeedsWrite(cfg: Config, row: EntityRow) {
    cfg.kind.Update? ==> !Holds(cfg.kind.updates, row)
  }

  // One statement over the rows in `hit`.
  function ApplyTo(cfg: Config, t: Table, hit: set<Id>, now: int): Table {
    map id | id in t && (id in hit ==> Effect(cfg, t[id], now).Some?) ::
      if id in hit then Effect(cfg, t[id], now).value else t[id]
  }

  // The ids the statement's RETURNING clause reports.
  function Hit(cfg: Config, t: Table, ids: seq<Id>): set<Id> {
    set id | id in ids && id in t && t[id].account == cfg.account
  }

  // ----- What a handler call does --------------------------------------------------------

  function ToWrite(cfg: Config, rows: seq<Loaded>): seq<Id> {
    if rows == [] then []
    else
      var n := |rows| - 1;
      ToWrite(cfg, rows[..n]) + (if NeedsWrite(cfg, rows[n].row) then [rows[n].id] else [])
  }

  function NoChanges(cfg: Config, rows: seq<Loaded>): seq<Outcome> {
    if rows == [] then []
    else
      var n := |rows| - 1;
      NoChanges(cfg, rows[..n])
      + (if NeedsWrite(cfg, rows[n].row) then [] else [Outcome(Some(rows[n].id), Skipped, NoChange)])
  }

  function Report(cfg: Config, hit: set<Id>, id: Id): Outcome {
    if id in hit then Outcome(Some(id), Success, if cfg.kind.Update? then Updated else Deleted)
    else Outcome(Some(id), Failed, EntityNotFound)
  }

  function Reports(cfg: Config, hit: set<Id>, ids: seq<Id>): seq<Outcome> {
    seq(|ids|, i requires 0 <= i < |ids| => Report(cfg, hit, ids[i]))
  }

  function HandlerTable(cfg: Config, t: Table, rows: seq<Loaded>, now: int): Table {
    ApplyTo(cfg, t, Hit(cfg, t, ToWrite(cfg, rows)), now)
  }

  function HandlerOutcomes(cfg: Config, t: Table, rows: seq<Loaded>): seq<Outcome> {
    NoChanges(cfg, rows) + Reports(cfg, Hit(cfg, t, ToWrite(cfg, rows)), ToWrite(cfg, rows))
  }

  // ----- What it means, row by row ---------------------------------------------------------

  // Every updated field already reads as its new value.
  predicate Carries(updates: Columns, row: EntityRow) {
    forall f :: f in updates ==> Get(row, f) == updates[f]
  }

  predicate StampedAt(stamped: bool, before: EntityRow, after: EntityRow, now: int) {
    after.updatedAt == if stamped then now else before.updatedAt
  }

  // The updated fields hold the new values; every other field, the account and the deletion mark stay.
  predicate RowUpdated(updates: Columns, stamped: bool, before: EntityRow, after: EntityRow, now: int) {
    && after.values.Keys == before.values.Keys + updates.Keys
    && (forall f :: f in updates ==> after.values[f] == updates[f])
    && (forall f :: f in before.values && f !in updates ==> after.values[f] == before.values[f])
    && after.account == before.account && after.deletedAt == before.deletedAt
    && StampedAt(stamped, before, after, now)
  }

  // Only the deletion mark is set.
  predicate RowMarked(stamped: bool, before: EntityRow, after: EntityRow, now: int) {
    && after.values == before.values && after.account == before.account && after.deletedAt == Some(now)
    && StampedAt(stamped, before, after, now)
  }

  predicate Among(rows: seq<Loaded>, id: Id) {
    exists r :: r in rows && r.id == id
  }

  predicate Needing(updates: Columns, rows: seq<Loaded>, id: Id) {
    exists r :: r in rows && r.id == id && !Carries(updates, r.row)
  }

  // In the table, and the account's own.
  predicate Reachable(cfg: Config, t: Table, id: Id) {
    id in t && t[id].account == cfg.account
  }

  predicate UpdateReported(cfg: Config, updates: Columns, t: Table, r: Loaded, os: seq<Outcome>) {
    if Carries(updates, r.row) then Outcome(Some(r.id), Skipped, NoChange) in os
    else if Reachable(cfg, t, r.id) then Outcome(Some(r.id), Success, Updated) in os
    else Outcome(Some(r.id), Failed, EntityNotFound) in os
  }

  // An update of the loaded rows, without saying how it is computed.
  ghost predicate UpdateDone(cfg: Config, updates: Columns, t: Table, t': Table, rows: seq<Loaded>, os: seq<Outcome>,
                             now: int) {
    && t'.Keys == t.Keys
    && (forall id :: id in t ==>
          if Needing(updates, rows, id) && t[id].account == cfg.account
          then RowUpdated(updates, cfg.entity.stamped, t[id], t'[id], now)
          else t'[id] == t[id])
    && (forall r :: r in rows ==> UpdateReported(cfg, updates, t, r, os))
    && |os| == |rows|
  }

  ghost predicate DeleteDone(cfg: Config, hard: bool, t: Table, t': Table, rows: seq<Loaded>, os: seq<Outcome>,
                             now: int) {
    && (forall id :: id in t' ==> id in t)
    && (forall id :: id in t ==>
          if Among(rows, id) && t[id].account == cfg.account
          then if hard || !cfg.entity.softDelete then id !in t'
               else id in t' && RowMarked(cfg.entity.stamped, t[id], t'[id], now)
          else id in t' && t'[id] == t[id])
    && (forall r :: r in rows ==>
          if Reachable(cfg, t, r.id) then Outcome(Some(r.id), Success, Deleted) in os
          else Outcome(Some(r.id), Failed, EntityNotFound) in os)
    && |os| == |rows|
  }

  lemma {:induction false} WrittenExactly(cfg: Config, updates: Columns, rows: seq<Loaded>, id: Id)
    requires cfg.kind == Update(updates)
    ensures id in ToWrite(cfg, rows) <==> Needing(updates, rows, id)
  {
    if rows != [] {
      var n := |rows| - 1;
      WrittenExactly(cfg, updates, rows[..n], id);
      assert rows == rows[..n] + [rows[n]];
      assert NeedsWrite(cfg, rows[n].row) <==> !Carries(updates, rows[n].row);
      if Needing(updates, rows[..n], id) {
        var r :| r in rows[..n] && r.id == id && !Carries(updates, r.row);
        assert r in rows;
      }
    }
  }

  lemma {:induction false} SkippedExactly(cfg: Config, updates: Columns, rows: seq<Loaded>, r: Loaded)
    requires cfg.kind == Update(updates) && r in rows && Carries(updates, r.row)
    ensures Outcome(Some(r.id), Skipped, NoChange) in NoChanges(cfg, rows)
  {
    var n := |rows| - 1;
    assert NeedsWrite(cfg, r.row) <==> !Carries(updates, r.row);
    if r != rows[n] {
      assert r in rows[..n];
      SkippedExactly(cfg, updates, rows[..n], r);
    }
  }

  lemma ReportedExactly(cfg: Config, t: Table, ids: seq<Id>, id: Id)
    requires id in ids
    ensures var done := Outcome(Some(id), Success, if cfg.kind.Update? then Updated else Deleted);
            (if Reachable(cfg, t, id) then done else Outcome(Some(id), Failed, EntityNotFound))
            in Reports(cfg, Hit(cfg, t, ids), ids)
  {
    var i :| 0 <= i < |ids| && ids[i] == id;
    assert Reports(cfg, Hit(cfg, t, ids), ids)[i] == Report(cfg, Hit(cfg, t, ids), id);
  }

  lemma UpdateMeans(cfg: Config, updates: Columns, t: Table, rows: seq<Loaded>, now: int)
    requires cfg.kind == Update(updates)
    ensures UpdateDone(cfg, updates, t, HandlerTable(cfg, t, rows, now), rows, HandlerOutcomes(cfg, t, rows), now)
  {
    var ids, t', os := ToWrite(cfg, rows), HandlerTable(cfg, t, rows, now), HandlerOutcomes(cfg, t, rows);
    forall id | id in t
      ensures if Needing(updates, rows, id) && t[id].account == cfg.account
              then RowUpdated(updates, cfg.entity.stamped, t[id], t'[id], now)
              else t'[id] == t[id]
    {
      WrittenExactly(cfg, updates, rows, id);
    }
    forall r | r in rows ensures UpdateReported(cfg, updates, t, r, os) {
      if Carries(updates, r.row) {
        SkippedExactly(cfg, updates, rows, r);
      } else {
        WrittenExactly(cfg, updates, rows, r.id);
        ReportedExactly(cfg, t, ids, r.id);
      }
    }
    HandlerTotal(cfg, t, rows);
  }

  lemma DeleteMeans(cfg: Config, hard: bool, t: Table, rows: seq<Loaded>, now: int)
    requires cfg.kind == Delete(hard)
    ensures DeleteDone(cfg, hard, t, HandlerTable(cfg, t, rows, now), rows, HandlerOutcomes(cfg, t, rows), now)
  {
    var ids, t', os := ToWrite(cfg, rows), HandlerTable(cfg, t, rows, now), HandlerOutcomes(cfg, t, rows);
    DeleteWritesAll(cfg, rows);
    forall id ensures id in ids <==> Among(rows, id) {
      AmongRowIds(rows, id);
    }
    forall r | r in rows
      ensures if Reachable(cfg, t, r.id) then Outcome(Some(r.id), Success, Deleted) in os
              else Outcome(Some(r.id), Failed, EntityNotFound) in os
    {
      AmongRowIds(rows, r.id);
      ReportedExactly(cfg, t, ids, r.id);
    }
    HandlerTotal(cfg, t, rows);
  }

  lemma AmongRowIds(rows: seq<Loaded>, id: Id)
    ensures id in RowIds(rows) <==> Among(rows, id)
  {
    if id in RowIds(rows) {
      var i :| 0 <= i < |rows| && RowIds(rows)[i] == id;
      assert rows[i] in rows;
    }
    if Among(rows, id) {
      var r :| r in rows && r.id == id;
      var i :| 0 <= i < |rows| && rows[i] == r;
      assert RowIds(rows)[i] == id;
    }
  }

  class EntityStore {
    var rows: Table

    constructor (t: Table)
      ensures rows == t
    {
      rows := t;
    }

    method ExecuteUpdate(cfg: Config, loaded: seq<Loaded>, now: int) returns (outcomes: seq<Outcome>)
      requires cfg.kind.Update?
      modifies this
      ensures rows == HandlerTable(cfg, old(rows), loaded, now)
      ensures outcomes == HandlerOutcomes(cfg, old(rows), loaded)
      ensures UpdateDone(cfg, cfg.kind.updates, old(rows), rows, loaded, outcomes, now)
    {
      outcomes := [];
      var toWrite: seq<Id> := [];
      for i := 0 to |loaded|
        invariant rows == old(rows)
        invariant outcomes == NoChanges(cfg, loaded[..i]) && toWrite == ToWrite(cfg, loaded[..i])
      {
        assert loaded[..i + 1][..i] == loaded[..i] && loaded[..i + 1][i] == loaded[i];
        if Holds(cfg.kind.updates, loaded[i].row) {
          outcomes := outcomes + [Outcome(Some(loaded[i].id), Skipped, NoChange)];
        } else {
          toWrite := toWrite + [loaded[i].id];
        }
      }
      assert loaded[..|loaded|] == loaded;
      if toWrite == [] {
        assert rows == ApplyTo(cfg, rows, {}, now);
        UpdateMeans(cfg, cfg.kind.updates, old(rows), loaded, now);
        return;
      }
      var updated := Hit(cfg, rows, toWrite);
      rows := ApplyTo(cfg, rows, updated, now);
      ghost var skips := outcomes;
      for i := 0 to |toWrite|
        invariant rows == HandlerTable(cfg, old(rows), loaded, now)
        invariant outcomes == skips + Reports(cfg, updated, toWrite[..i])
      {
        if toWrite[i] in updated {
          outcomes := outcomes + [Outcome(Some(toWrite[i]), Success, Updated)];
        } else {
          outcomes := outcomes + [Outcome(Some(toWrite[i]), Failed, EntityNotFound)];
        }
        assert Reports(cfg, updated, toWrite[..i + 1])
            == Reports(cfg, updated, toWrite[..i]) + [Report(cfg, updated, toWrite[i])];
      }
      assert toWrite[..|toWrite|] == toWrite;
      UpdateMeans(cfg, cfg.kind.updates, old(rows), loaded, now);
    }

    method ExecuteDelete(cfg: Config, loaded: seq<Loaded>, now: int) returns (outcomes: seq<Outcome>)
      requires cfg.kind.Delete?
      modifies this
      ensures rows == HandlerTable(cfg, old(rows), loaded, now)
      ensures outcomes == HandlerOutcomes(cfg, old(rows), loaded)
      ensures DeleteDone(cfg, cfg.kind.hard, old(rows), rows, loaded, outcomes, now)
    {
      outcomes := [];
      DeleteWritesAll(cfg, loaded);
      var ids := seq(|loaded|, i requires 0 <= i < |loaded| => loaded[i].id);
      if loaded == [] {
        assert rows == ApplyTo(cfg, rows, {}, now);
        DeleteMeans(cfg, cfg.kind.hard, old(rows), loaded, now);
        return;
      }
      var affected := Hit(cfg, rows, ids);
      rows := ApplyTo(cfg, rows, affected, now);
      for i := 0 to |ids|
        invariant rows == HandlerTable(cfg, old(rows), loaded, now)
        invariant outcomes == Reports(cfg, affected, ids[..i])
      {
        if ids[i] in affected {
          outcomes := outcomes + [Outcome(Some(ids[i]), Success, Deleted)];
        } else {
          outcomes := outcomes + [Outcome(Some(ids[i]), Failed, EntityNotFound)];
        }
        assert Reports(cfg, affected, ids[..i + 1])
            == Reports(cfg, affected, ids[..i]) + [Report(cfg, affected, ids[i])];
      }
      assert ids[..|ids|] == ids;
      DeleteMeans(cfg, cfg.kind.hard, old(rows), loaded, now);
    }
  }

  lemma {:induction false} DeleteWritesAll(cfg: Config, rows: seq<Loaded>)
    requires cfg.kind.Delete?
    ensures ToWrite(cfg, rows) == RowIds(rows) && NoChanges(cfg, rows) == []
  {
    if rows != [] {
      DeleteWritesAll(cfg, rows[..|rows| - 1]);
    }
  }

  // ----- One outcome per row -------------------------------------------------------------

  function RowIds(rows: seq<Loaded>): seq<Id> {
    seq(|rows|, i requires 0 <= i < |rows| => rows[i].id)
  }

  function Present(ids: seq<Id>): seq<Option<Id>> {
    seq(|ids|, i requires 0 <= i < |ids| => Some(ids[i]))
  }

  function Named(os: seq<Outcome>): seq<Option<Id>> {
    seq(|os|, i requires 0 <= i < |os| => os[i].entityId)
  }

  lemma NamedAppend(xs: seq<Outcome>, ys: seq<Outcome>)
    ensures Named(xs + ys) == Named(xs) + Named(ys)
  {}

  lemma PresentSnoc(ids: seq<Id>, id: Id)
    ensures Present(ids + [id]) == Present(ids) + [Some(id)]
  {}

  lemma {:induction false} SplitNames(cfg: Config, rows: seq<Loaded>)
    ensures multiset(Named(NoChanges(cfg, rows))) + multiset(Present(ToWrite(cfg, rows)))
            == multiset(Present(RowIds(rows)))
  {
    if rows != [] {
      var n := |rows| - 1;
      var init, last := rows[..n], rows[n];
      SplitNames(cfg, init);
      assert RowIds(rows) == RowIds(init) + [last.id];
      PresentSnoc(RowIds(init), last.id);
      if NeedsWrite(cfg, last.row) {
        assert NoChanges(cfg, rows) == NoChanges(cfg, init);
        assert ToWrite(cfg, rows) == ToWrite(cfg, init) + [last.id];
        PresentSnoc(ToWrite(cfg, init), last.id);
      } else {
        assert ToWrite(cfg, rows) == ToWrite(cfg, init);
        NamedAppend(NoChanges(cfg, init), [Outcome(Some(last.id), Skipped, NoChange)]);
        assert Named([Outcome(Some(last.id), Skipped, NoChange)]) == [Some(last.id)];
      }
    }
  }

  /** A handler names every row it was given exactly once, whatever state the table is in. */
  lemma HandlerTotal(cfg: Config, t: Table, rows: seq<Loaded>)
    ensures multiset(Named(HandlerOutcomes(cfg, t, rows))) == multiset(Present(RowIds(rows)))
    ensures |HandlerOutcomes(cfg, t, rows)| == |rows|
  {
    var ids := ToWrite(cfg, rows);
    var reports := Reports(cfg, Hit(cfg, t, ids), ids);
    SplitNames(cfg, rows);
    NamedAppend(NoChanges(cfg, rows), reports);
    assert Named(reports) == Present(ids);
    assert |multiset(Named(HandlerOutcomes(cfg, t, rows)))| == |multiset(Present(RowIds(rows)))|;
  }
}
