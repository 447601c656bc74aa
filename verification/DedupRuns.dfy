/**
 De-duplication over whole protocol runs: whatever is interleaved, redelivered, rolled back,
 run twice or cancelled, the handlers receive the first occurrences.
 */
module DedupRuns {
  import opened Domain
  import opened Dedup
  import opened BatchRunner
  import opened Store
  import opened Protocol

  function Keyed(kf: KeyFn, rows: seq<Loaded>): seq<Loaded> {
    if rows == [] then []
    else
      var n := |rows| - 1;
      Keyed(kf, rows[..n]) + (if kf(rows[n]).Some? then [rows[n]] else [])
  }

  lemma {:induction false} KeyedAppend(kf: KeyFn, xs: seq<Loaded>, ys: seq<Loaded>)
    ensures Keyed(kf, xs + ys) == Keyed(kf, xs) + Keyed(kf, ys)
  {
    if ys == [] {
      assert xs + ys == xs;
    } else {
      var n := |ys| - 1;
      KeyedAppend(kf, xs, ys[..n]);
      assert (xs + ys)[..|xs + ys| - 1] == xs + ys[..n];
    }
  }

  lemma {:induction false} KeyedOrMissing(kf: KeyFn, rows: seq<Loaded>)
    ensures |Keyed(kf, rows)| + |Missing(kf, rows)| == |rows|
  {
    if rows != [] {
      KeyedOrMissing(kf, rows[..|rows| - 1]);
    }
  }

  lemma {:induction false} KeyedOfKeyed(kf: KeyFn, rows: seq<Loaded>)
    requires forall i :: 0 <= i < |rows| ==> kf(rows[i]).Some?
    ensures Keyed(kf, rows) == rows && Missing(kf, rows) == []
  {
    if rows != [] {
      var n := |rows| - 1;
      KeyedOfKeyed(kf, rows[..n]);
      assert rows == rows[..n] + [rows[n]];
      assert Missing(kf, rows) == [] + [];
    }
  }

  lemma {:induction false} MissingOfMissing(kf: KeyFn, rows: seq<Loaded>)
    requires forall i :: 0 <= i < |rows| ==> kf(rows[i]).None?
    ensures Missing(kf, rows) == rows && Keyed(kf, rows) == []
  {
    if rows != [] {
      var n := |rows| - 1;
      MissingOfMissing(kf, rows[..n]);
      assert rows == rows[..n] + [rows[n]];
      assert Keyed(kf, rows) == [] + [];
    }
  }

  lemma {:induction false} SplitKinds(kf: KeyFn, seen: set<Key>, rows: seq<Loaded>)
    ensures forall i :: 0 <= i < |First(kf, seen, rows)| ==> kf(First(kf, seen, rows)[i]).Some?
    ensures forall i :: 0 <= i < |Missing(kf, rows)| ==> kf(Missing(kf, rows)[i]).None?
  {
    if rows != [] {
      SplitKinds(kf, seen, rows[..|rows| - 1]);
    }
  }

  // The rows handed to handlers so far against the rows loaded by commits so far.
  ghost predicate FirstOccurrencesPassed(cfg: Config, s: State) {
    var kf := Keying(cfg);
    && s.db.ledger == KeySet(kf, s.past.loaded)
    && Keyed(kf, s.past.passed) == First(kf, {}, s.past.loaded)
    && Missing(kf, s.past.passed) == Missing(kf, s.past.loaded)
  }

  lemma KeyedOfSplit(kf: KeyFn, seen: set<Key>, rows: seq<Loaded>)
    ensures var unique := Split(kf, seen, rows).unique;
            Keyed(kf, unique) == First(kf, seen, rows) && Missing(kf, unique) == Missing(kf, rows)
  {
    var m, f := Missing(kf, rows), First(kf, seen, rows);
    SplitKinds(kf, seen, rows);
    KeyedAppend(kf, m, f);
    MissingAppend(kf, m, f);
    KeyedOfKeyed(kf, f);
    MissingOfMissing(kf, m);
    assert [] + f == f && m + [] == m;
  }

  lemma BatchPasses(kf: KeyFn, loaded: seq<Loaded>, passed: seq<Loaded>, rows: seq<Loaded>)
    requires Keyed(kf, passed) == First(kf, {}, loaded) && Missing(kf, passed) == Missing(kf, loaded)
    ensures var unique := Split(kf, KeySet(kf, loaded), rows).unique;
            Keyed(kf, passed + unique) == First(kf, {}, loaded + rows)
            && Missing(kf, passed + unique) == Missing(kf, loaded + rows)
  {
    var unique := Split(kf, KeySet(kf, loaded), rows).unique;
    KeyedOfSplit(kf, KeySet(kf, loaded), rows);
    KeyedAppend(kf, passed, unique);
    MissingAppend(kf, passed, unique);
    MissingAppend(kf, loaded, rows);
    FirstAppend(kf, {}, loaded, rows);
    assert {} + KeySet(kf, loaded) == KeySet(kf, loaded);
  }

  lemma ExecutePasses(cfg: Config, s: State, j: nat, now: int)
    requires Deduplicates(cfg) && FirstOccurrencesPassed(cfg, s)
    requires At(s, j, Attempted) && WouldExecute(s.db, s.jobs[j].index)
    ensures FirstOccurrencesPassed(cfg, StepExecute(cfg, s, j, now))
  {
    var rows := LoadRows(cfg, s.db.entities, s.db.batches[s.jobs[j].index].work);
    KeySetAppend(Keying(cfg), s.past.loaded, rows);
    BatchPasses(Keying(cfg), s.past.loaded, s.past.passed, rows);
  }

  lemma QuietPasses(cfg: Config, s: State, s': State)
    requires FirstOccurrencesPassed(cfg, s)
    requires s'.db.ledger == s.db.ledger && s'.past.loaded == s.past.loaded && s'.past.passed == s.past.passed
    ensures FirstOccurrencesPassed(cfg, s')
  {}

  lemma MarkFailedPasses(cfg: Config, s: State, j: nat)
    requires FirstOccurrencesPassed(cfg, s)
    ensures FirstOccurrencesPassed(cfg, StepMarkFailed(s, j))
  {
    QuietPasses(cfg, s, StepMarkFailed(s, j));
  }

  lemma StepPasses(cfg: Config, s: State, e: Event)
    requires cfg.batchSize >= 1 && Deduplicates(cfg) && FirstOccurrencesPassed(cfg, s)
    ensures FirstOccurrencesPassed(cfg, Step(cfg, s, e))
  {
    if Executes(s, e) {
      ExecutePasses(cfg, s, e.j, e.now);
    } else if MarksFailed(s, e) {
      MarkFailedPasses(cfg, s, e.j);
    } else {
      OthersAreQuiet(cfg, s, e);
      QuietPasses(cfg, s, Step(cfg, s, e));
    }
  }

  /** In every reachable state: the keyed rows passed to handlers are exactly the first occurrences
      in the commit-order concatenation of the loaded rows, rows without a key all pass, and the
      ledger holds exactly the keys of committed batches, so an aborted attempt leaves no claim. */
  lemma {:induction false} HandlersSeeFirstOccurrences(cfg: Config, entities: Table, scheduled: bool, es: seq<Event>)
    requires cfg.batchSize >= 1 && Deduplicates(cfg)
    ensures FirstOccurrencesPassed(cfg, Run(cfg, Init(entities, scheduled), es))
  {
    if es != [] {
      var n := |es| - 1;
      HandlersSeeFirstOccurrences(cfg, entities, scheduled, es[..n]);
      StepPasses(cfg, Run(cfg, Init(entities, scheduled), es[..n]), es[n]);
    }
  }
}
