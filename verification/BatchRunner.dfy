/**
 Execution of one batch (app/services/batch_runner.py): re-resolve the batch against the live
 table, report drift, de-duplicate, run the handler.
 */
module BatchRunner {
  import opened Domain
  import opened Dedup
  import opened Handlers
  import Planning

  // ----- Loading -------------------------------------------------------------------------

  function SelectedIds(cfg: Config, t: Table, b: PlannedBatch): set<Id> {
    set id | id in t && Selected(cfg, b, id, t[id])
  }

  // Loaded rows come back in id order.
  function LoadRows(cfg: Config, t: Table, b: PlannedBatch): seq<Loaded> {
    var ids := Planning.Sorted(SelectedIds(cfg, t, b));
    Planning.SortedIsAll(SelectedIds(cfg, t, b));
    seq(|ids|, i requires 0 <= i < |ids| => assert ids[i] in SelectedIds(cfg, t, b); Loaded(ids[i], t[ids[i]]))
  }

  lemma LoadRowsFacts(cfg: Config, t: Table, b: PlannedBatch)
    ensures var rows := LoadRows(cfg, t, b);
            |rows| == |SelectedIds(cfg, t, b)|
            && (forall r :: r in rows <==> r.id in SelectedIds(cfg, t, b) && r.row == t[r.id])
            && Planning.Increasing(RowIds(rows))
  {
    var s := SelectedIds(cfg, t, b);
    var ids, rows := Planning.Sorted(s), LoadRows(cfg, t, b);
    Planning.SortedIsAll(s);
    forall r: Loaded | r.id in s && r.row == t[r.id] ensures r in rows {
      assert r.id in ids;
      var i :| 0 <= i < |ids| && ids[i] == r.id;
      assert rows[i] == r;
    }
    assert RowIds(rows) == ids;
  }

  /** An explicit batch never loads more rows than it names, whatever other writers did. */
  lemma ExplicitLoadsAtMostItsIds(cfg: Config, t: Table, b: PlannedBatch)
    requires b.ids != [] && b.entityCount == |b.ids|
    ensures |LoadRows(cfg, t, b)| <= b.entityCount
  {
    LoadRowsFacts(cfg, t, b);
    Planning.SubsetCardinality(SelectedIds(cfg, t, b), Planning.ToSet(b.ids));
    SetOfSeqSmaller(b.ids);
  }

  lemma {:induction false} SetOfSeqSmaller(ids: seq<Id>)
    ensures |Planning.ToSet(ids)| <= |ids|
  {
    if ids != [] {
      var n := |ids| - 1;
      SetOfSeqSmaller(ids[..n]);
      assert Planning.ToSet(ids) == Planning.ToSet(ids[..n]) + {ids[n]};
    }
  }

  // ----- The pipeline --------------------------------------------------------------------

  const VANISHED := Outcome(None, Skipped, LeftTargetSet)

  // Entities counted at plan time and no longer there; nobody knows which ones they were.
  function Drift(planned: nat, loaded: nat): seq<Outcome> {
    if planned > loaded then seq(planned - loaded, _ => VANISHED) else []
  }

  function DuplicateReason(field: string): LogReason {
    if field == "email" then DuplicateEmail else DuplicateKey
  }

  function Skips(field: string, ds: seq<Duplicate>): seq<Outcome> {
    seq(|ds|, i requires 0 <= i < |ds| => Outcome(Some(ds[i].row.id), Skipped, DuplicateReason(field)))
  }

  predicate Deduplicates(cfg: Config) {
    cfg.dedupField.Some? && cfg.dedupField.value != ""
  }

  // With de-duplication off nothing is keyed.
  function Keying(cfg: Config): KeyFn {
    if Deduplicates(cfg) then ByField(cfg.dedupField.value) else (r: Loaded) => None
  }

  function SplitBatch(cfg: Config, ledger: set<Key>, rows: seq<Loaded>): Partition {
    if Deduplicates(cfg) then Split(Keying(cfg), ledger, rows) else Partition(rows, [])
  }

  datatype BatchEffect = BatchEffect(outcomes: seq<Outcome>, ledger: set<Key>, entities: Table)

  function RunBatch(cfg: Config, t: Table, ledger: set<Key>, b: PlannedBatch, now: int): BatchEffect {
    var rows := LoadRows(cfg, t, b);
    var p := SplitBatch(cfg, ledger, rows);
    BatchEffect(
      BatchOutcomes(cfg, t, ledger, b, rows),
      if Deduplicates(cfg) then ledger + KeySet(Keying(cfg), rows) else ledger,
      HandlerTable(cfg, t, p.unique, now))
  }

  function BatchOutcomes(cfg: Config, t: Table, ledger: set<Key>, b: PlannedBatch, rows: seq<Loaded>): seq<Outcome> {
    var p := SplitBatch(cfg, ledger, rows);
    Drift(b.entityCount, |rows|)
    + Skips(if cfg.dedupField.Some? then cfg.dedupField.value else "", p.duplicates)
    + HandlerOutcomes(cfg, t, p.unique)
  }

  // ----- Outcome totality ----------------------------------------------------------------

  lemma SkipNames(field: string, ds: seq<Duplicate>)
    ensures Named(Skips(field, ds)) == Present(RowIds(Rows(ds)))
  {}

  lemma RemoveAt(ys: seq<Loaded>, k: nat)
    requires k < |ys|
    ensures var rest := ys[..k] + ys[k + 1..];
            multiset(ys) == multiset(rest) + multiset{ys[k]}
            && multiset(Present(RowIds(ys))) == multiset(Present(RowIds(rest))) + multiset{Some(ys[k].id)}
  {
    var front, back := ys[..k], ys[k + 1..];
    assert ys == front + [ys[k]] + back;
    assert Present(RowIds(ys)) == Present(RowIds(front)) + [Some(ys[k].id)] + Present(RowIds(back));
    PresentAppend(front, back);
  }

  lemma {:induction false} PresentPermutes(xs: seq<Loaded>, ys: seq<Loaded>)
    requires multiset(xs) == multiset(ys)
    ensures multiset(Present(RowIds(xs))) == multiset(Present(RowIds(ys)))
  {
    if xs == [] {
      assert |multiset(ys)| == 0;
    } else {
      assert xs[0] in multiset(ys);
      var k :| 0 <= k < |ys| && ys[k] == xs[0];
      RemoveAt(xs, 0);
      RemoveAt(ys, k);
      var xrest, yrest := xs[..0] + xs[1..], ys[..k] + ys[k + 1..];
      assert multiset(xrest) == multiset(xs) - multiset{xs[0]} == multiset(yrest);
      PresentPermutes(xrest, yrest);
    }
  }

  lemma PresentAppend(xs: seq<Loaded>, ys: seq<Loaded>)
    ensures Present(RowIds(xs + ys)) == Present(RowIds(xs)) + Present(RowIds(ys))
  {}

  lemma SplitBatchPermutes(cfg: Config, ledger: set<Key>, rows: seq<Loaded>)
    ensures var p := SplitBatch(cfg, ledger, rows);
            multiset(p.unique + Rows(p.duplicates)) == multiset(rows)
  {
    if Deduplicates(cfg) {
      SplitIsPermutation(Keying(cfg), ledger, rows);
    } else {
      assert Rows([]) == [];
    }
  }

  /** A batch emits exactly max(entity_count, loaded rows) outcomes: every loaded row is named in
      exactly one of them, and the rest are the anonymous drift records. */
  lemma OutcomesTotal(cfg: Config, t: Table, ledger: set<Key>, b: PlannedBatch)
    ensures var rows := LoadRows(cfg, t, b);
            var os := BatchOutcomes(cfg, t, ledger, b, rows);
            multiset(Named(os)) == multiset(Present(RowIds(rows))) + multiset(Named(Drift(b.entityCount, |rows|)))
            && |os| == Planning.Max(b.entityCount, |rows|)
  {
    var rows := LoadRows(cfg, t, b);
    var p := SplitBatch(cfg, ledger, rows);
    var field := if cfg.dedupField.Some? then cfg.dedupField.value else "";
    HandlerTotal(cfg, t, p.unique);
    SplitBatchPermutes(cfg, ledger, rows);
    PartsTotal(rows, p, Drift(b.entityCount, |rows|), field, HandlerOutcomes(cfg, t, p.unique));
  }

  /** What a batch says about the rows its handler does not see: a duplicate is skipped, with the
      reason its key field calls for, and whatever names no row is an entity that has left the
      target set. */
  lemma SkippedReasons(cfg: Config, t: Table, ledger: set<Key>, b: PlannedBatch)
    ensures var rows := LoadRows(cfg, t, b);
            var os := BatchOutcomes(cfg, t, ledger, b, rows);
            (forall d :: d in SplitBatch(cfg, ledger, rows).duplicates ==>
               Outcome(Some(d.row.id), Skipped, if cfg.dedupField == Some("email") then DuplicateEmail
                   else DuplicateKey) in os)
            && (forall o :: o in os && o.entityId.None? ==> o.status == Skipped && o.reason == LeftTargetSet)
  {
    var rows := LoadRows(cfg, t, b);
    var p := SplitBatch(cfg, ledger, rows);
    var field := if cfg.dedupField.Some? then cfg.dedupField.value else "";
    var drift, skips, handled := Drift(b.entityCount, |rows|), Skips(field, p.duplicates),
        HandlerOutcomes(cfg, t, p.unique);
    forall d | d in p.duplicates ensures Outcome(Some(d.row.id), Skipped, DuplicateReason(field)) in skips {
      SkipOf(field, p.duplicates, d);
    }
    HandlersNameAll(cfg, t, p.unique);
    assert forall o :: o in BatchOutcomes(cfg, t, ledger, b, rows) <==> o in drift || o in skips || o in handled;
    assert forall o :: o in skips ==> o.entityId.Some?;
  }

  lemma SkipOf(field: string, ds: seq<Duplicate>, d: Duplicate)
    requires d in ds
    ensures Outcome(Some(d.row.id), Skipped, DuplicateReason(field)) in Skips(field, ds)
  {
    var k :| 0 <= k < |ds| && ds[k] == d;
    assert Skips(field, ds)[k] == Outcome(Some(d.row.id), Skipped, DuplicateReason(field));
  }

  lemma HandlersNameAll(cfg: Config, t: Table, rows: seq<Loaded>)
    ensures forall o :: o in HandlerOutcomes(cfg, t, rows) ==> o.entityId.Some?
  {
    HandlerTotal(cfg, t, rows);
    forall o | o in HandlerOutcomes(cfg, t, rows) ensures o.entityId.Some? {
      var os := HandlerOutcomes(cfg, t, rows);
      var k :| 0 <= k < |os| && os[k] == o;
      assert Named(os)[k] == o.entityId;
      assert o.entityId in multiset(Named(os));
      assert o.entityId in Present(RowIds(rows));
    }
  }

  // The three parts of a batch's outcomes name what they are about, and together every row once.
  lemma PartsTotal(rows: seq<Loaded>, p: Partition, drift: seq<Outcome>, field: string, handled: seq<Outcome>)
    requires multiset(p.unique + Rows(p.duplicates)) == multiset(rows)
    requires multiset(Named(handled)) == multiset(Present(RowIds(p.unique)))
    ensures var os := drift + Skips(field, p.duplicates) + handled;
            multiset(Named(os)) == multiset(Present(RowIds(rows))) + multiset(Named(drift))
            && |os| == |drift| + |rows|
  {
    var skips := Skips(field, p.duplicates);
    var os := drift + skips + handled;
    NamedAppend(drift + skips, handled);
    NamedAppend(drift, skips);
    SkipNames(field, p.duplicates);
    PresentPermutes(p.unique + Rows(p.duplicates), rows);
    PresentAppend(p.unique, Rows(p.duplicates));
    assert |Named(os)| == |multiset(Named(os))|;
  }
}
