/**
 With de-duplication on, which entity wins a key depends on the order in which batches commit;
 how many win and how many are skipped does not.
 */
module DedupOrder {
  import opened Domain
  import opened Dedup
  import opened Handlers
  import opened BatchRunner
  import opened BatchedMeaning
  import opened DedupRuns
  import Planning

  // All rows the batches load, in commit order.
  function Loads(cfg: Config, plan: seq<PlannedBatch>, t: Table, order: seq<nat>): seq<Loaded>
    requires IsOrder(plan, order)
  {
    if order == [] then []
    else
      var n := |order| - 1;
      Loads(cfg, plan, t, order[..n]) + LoadRows(cfg, t, plan[order[n]])
  }

  // Rows handed to the handler and rows logged as duplicates, over a whole run.
  datatype Sifted = Sifted(passed: seq<Loaded>, skipped: seq<Loaded>)

  function Sift(cfg: Config, plan: seq<PlannedBatch>, w: World, order: seq<nat>, clock: nat -> int): Sifted
    requires IsOrder(plan, order)
  {
    if order == [] then Sifted([], [])
    else
      var n := |order| - 1;
      var before := RunAll(cfg, plan, w, order[..n], clock);
      var p := SplitBatch(cfg, before.ledger, LoadRows(cfg, before.t, plan[order[n]]));
      var prior := Sift(cfg, plan, w, order[..n], clock);
      Sifted(prior.passed + p.unique, prior.skipped + Rows(p.duplicates))
  }

  lemma RunStep(cfg: Config, plan: seq<PlannedBatch>, t: Table, order: seq<nat>, clock: nat -> int)
    requires Disjoint(plan) && IsOrder(plan, order) && order != [] && Deduplicates(cfg)
    ensures var n, w := |order| - 1, World(t, {});
            var before, rows := RunAll(cfg, plan, w, order[..n], clock), LoadRows(cfg, t, plan[order[n]]);
            var p, prior := Split(Keying(cfg), before.ledger, rows), Sift(cfg, plan, w, order[..n], clock);
            RunAll(cfg, plan, w, order, clock).ledger == before.ledger + KeySet(Keying(cfg), rows)
            && Sift(cfg, plan, w, order, clock) == Sifted(prior.passed + p.unique, prior.skipped + Rows(p.duplicates))
  {
    var n := |order| - 1;
    FindsOriginalRows(cfg, plan, World(t, {}), order[..n], clock, order[n]);
  }

  // Passed and skipped rows are what sequential de-duplication makes of `rows`.
  ghost predicate IsSifted(kf: KeyFn, rows: seq<Loaded>, x: Sifted) {
    && Keyed(kf, x.passed) == First(kf, {}, rows)
    && Missing(kf, x.passed) == Missing(kf, rows)
    && multiset(x.passed) + multiset(x.skipped) == multiset(rows)
  }

  // One more batch, seen from the concatenation.
  lemma SequentialStep(kf: KeyFn, before: seq<Loaded>, rows: seq<Loaded>, x: Sifted)
    requires IsSifted(kf, before, x)
    ensures var p := Split(kf, KeySet(kf, before), rows);
            KeySet(kf, before + rows) == KeySet(kf, before) + KeySet(kf, rows)
            && IsSifted(kf, before + rows, Sifted(x.passed + p.unique, x.skipped + Rows(p.duplicates)))
  {
    KeySetAppend(kf, before, rows);
    BatchPasses(kf, before, x.passed, rows);
    SplitIsPermutation(kf, KeySet(kf, before), rows);
  }

  /** A run over batches de-duplicates the concatenation of what the batches load: the keyed rows
      passed on are its first occurrences in order, all its keyless rows pass, the rest is skipped,
      and the ledger ends with its keys. */
  lemma {:induction false} RunIsSequential(cfg: Config, plan: seq<PlannedBatch>, t: Table, order: seq<nat>,
                                           clock: nat -> int)
    requires Disjoint(plan) && IsOrder(plan, order) && Deduplicates(cfg)
    ensures var rows := Loads(cfg, plan, t, order);
            RunAll(cfg, plan, World(t, {}), order, clock).ledger == KeySet(Keying(cfg), rows)
            && IsSifted(Keying(cfg), rows, Sift(cfg, plan, World(t, {}), order, clock))
  {
    if order != [] {
      var n := |order| - 1;
      RunIsSequential(cfg, plan, t, order[..n], clock);
      RunStep(cfg, plan, t, order, clock);
      SequentialStep(Keying(cfg), Loads(cfg, plan, t, order[..n]), LoadRows(cfg, t, plan[order[n]]),
                     Sift(cfg, plan, World(t, {}), order[..n], clock));
    }
  }

  // ----- Sizes are determined by the target set ------------------------------------------

  function TargetRows(t: Table, target: set<Id>): set<Loaded>
    requires target <= t.Keys
  {
    set id | id in target :: Loaded(id, t[id])
  }

  predicate NoRowTwice(rows: seq<Loaded>) {
    forall i, j :: 0 <= i < j < |rows| ==> rows[i] != rows[j]
  }

  function RowSet(rows: seq<Loaded>): set<Loaded> { set r | r in rows }

  function Keyless(kf: KeyFn, rows: set<Loaded>): set<Loaded> { set r | r in rows && kf(r).None? }

  function KeysIn(kf: KeyFn, rows: set<Loaded>): set<Key> { set r | r in rows && kf(r).Some? :: kf(r).value }

  lemma {:induction false} SizesFromSet(kf: KeyFn, rows: seq<Loaded>)
    requires NoRowTwice(rows)
    ensures |rows| == |RowSet(rows)| && |Missing(kf, rows)| == |Keyless(kf, RowSet(rows))|
  {
    if rows != [] {
      var n := |rows| - 1;
      var init, last := rows[..n], rows[n];
      SizesFromSet(kf, init);
      assert RowSet(rows) == RowSet(init) + {last};
      assert last !in init;
      if kf(last).None? {
        assert Keyless(kf, RowSet(rows)) == Keyless(kf, RowSet(init)) + {last};
      } else {
        assert Keyless(kf, RowSet(rows)) == Keyless(kf, RowSet(init));
      }
    }
  }

  lemma {:induction false} LoadsFacts(cfg: Config, plan: seq<PlannedBatch>, t: Table, order: seq<nat>)
    requires Disjoint(plan) && IsOrder(plan, order)
    ensures var rows := Loads(cfg, plan, t, order);
            NoRowTwice(rows)
            && Covered(cfg, plan, t, order) <= t.Keys
            && RowSet(rows) == TargetRows(t, Covered(cfg, plan, t, order))
  {
    if order != [] {
      var n := |order| - 1;
      var init, k := order[..n], order[n];
      LoadsFacts(cfg, plan, t, init);
      LoadRowsFacts(cfg, t, plan[k]);
      var before, rows := Loads(cfg, plan, t, init), LoadRows(cfg, t, plan[k]);
      LoadedOnce(rows);
      var covered, added := Covered(cfg, plan, t, init), SelectedIds(cfg, t, plan[k]);
      NothingCoveredTwice(cfg, plan, t, order);
      assert RowSet(rows) == TargetRows(t, added);
      AppendTargets(t, before, rows, covered, added);
    }
  }

  lemma AppendTargets(t: Table, before: seq<Loaded>, rows: seq<Loaded>, covered: set<Id>, added: set<Id>)
    requires covered <= t.Keys && added <= t.Keys && covered !! added && NoRowTwice(before) && NoRowTwice(rows)
    requires RowSet(before) == TargetRows(t, covered) && RowSet(rows) == TargetRows(t, added)
    ensures NoRowTwice(before + rows) && RowSet(before + rows) == TargetRows(t, covered + added)
  {
    forall r | r in before ensures r !in rows {
      assert r in RowSet(before);
      assert r in rows ==> r in RowSet(rows);
    }
    NoRowTwiceAppend(before, rows);
    RowSetAppend(before, rows);
  }

  lemma NothingCoveredTwice(cfg: Config, plan: seq<PlannedBatch>, t: Table, order: seq<nat>)
    requires Disjoint(plan) && IsOrder(plan, order) && order != []
    ensures var n := |order| - 1; Covered(cfg, plan, t, order[..n]) !! SelectedIds(cfg, t, plan[order[n]])
  {
    var n := |order| - 1;
    forall id | id in Covered(cfg, plan, t, order[..n]) ensures id !in SelectedIds(cfg, t, plan[order[n]]) {
      CoveredIsOwned(cfg, plan, t, order[..n], id);
      var i :| 0 <= i < n && id in SelectedIds(cfg, t, plan[order[..n][i]]);
      assert order[..n][i] == order[i];
    }
  }

  lemma LoadedOnce(rows: seq<Loaded>)
    requires Planning.Increasing(RowIds(rows))
    ensures NoRowTwice(rows)
  {
    forall i, j | 0 <= i < j < |rows| ensures rows[i] != rows[j] {
      assert RowIds(rows)[i] < RowIds(rows)[j];
    }
  }

  lemma NoRowTwiceAppend(xs: seq<Loaded>, ys: seq<Loaded>)
    requires NoRowTwice(xs) && NoRowTwice(ys) && forall r :: r in xs ==> r !in ys
    ensures NoRowTwice(xs + ys)
  {
    var zs := xs + ys;
    forall i, j | 0 <= i < j < |zs| ensures zs[i] != zs[j] {
      if i < |xs| <= j {
        assert xs[i] in xs && ys[j - |xs|] in ys;
      }
    }
  }

  lemma RowSetAppend(xs: seq<Loaded>, ys: seq<Loaded>)
    ensures RowSet(xs + ys) == RowSet(xs) + RowSet(ys)
  {}

  /** Any complete order of the planned batches hands over one row per distinct key of the target
      set plus all rows without a key, and skips the rest. */
  lemma CountsDoNotDependOnOrder(cfg: Config, t: Table, order: seq<nat>, clock: nat -> int)
    requires cfg.batchSize >= 1 && Deduplicates(cfg) && IsComplete(FilterPlan(cfg, t), order)
    ensures var x := Sift(cfg, FilterPlan(cfg, t), World(t, {}), order, clock);
            var targets := TargetRows(t, TargetSet(cfg, t));
            |x.passed| == |KeysIn(Keying(cfg), targets)| + |Keyless(Keying(cfg), targets)|
            && |x.passed| + |x.skipped| == |targets|
  {
    var plan, kf := FilterPlan(cfg, t), Keying(cfg);
    FilterPlanFits(cfg, t);
    RunIsSequential(cfg, plan, t, order, clock);
    LoadsFacts(cfg, plan, t, order);
    CompleteCoversTarget(cfg, plan, t, order, TargetSet(cfg, t));
    var rows := Loads(cfg, plan, t, order);
    SizesFromSet(kf, rows);
    FirstCounts(kf, {}, rows);
    assert KeySet(kf, rows) - {} == KeySet(kf, rows);
    KeySetIsKeysIn(kf, rows);
    var x := Sift(cfg, plan, World(t, {}), order, clock);
    KeyedOrMissing(kf, x.passed);
    assert |multiset(x.passed) + multiset(x.skipped)| == |multiset(rows)|;
  }

  lemma KeySetIsKeysIn(kf: KeyFn, rows: seq<Loaded>)
    ensures KeySet(kf, rows) == KeysIn(kf, RowSet(rows))
  {
    forall r | r in rows ensures r in RowSet(rows) {}
  }
}
