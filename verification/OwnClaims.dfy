/**
 Can a batch lose a key to itself?  Not on a retry after a rollback, because the claims roll back
 too; but a batch whose work has committed can be marked failed by a late exception, delivered again
 and executed again, and then every key it claimed the first time is taken.
 */
module OwnClaims {
  import opened Domain
  import opened Dedup
  import opened Handlers
  import opened BatchRunner
  import opened Store
  import opened Protocol
  import opened Closing
  import opened Counterexamples
  import OnePass
  import Planning

  // ----- Who claimed what ------------------------------------------------------------------

  // Keys that this step's commit is the first to put into the ledger.
  function ClaimedBy(cfg: Config, s: State, e: Event, i: nat): set<Key>
    requires cfg.batchSize >= 1
  {
    if Executes(s, e) && s.jobs[e.j].index == i then Step(cfg, s, e).db.ledger - s.db.ledger else {}
  }

  // All keys that execute commits of batch i have claimed in a run.
  function ClaimsOf(cfg: Config, s: State, es: seq<Event>, i: nat): set<Key>
    requires cfg.batchSize >= 1
  {
    if es == [] then {}
    else
      var n := |es| - 1;
      ClaimsOf(cfg, s, es[..n], i) + ClaimedBy(cfg, Run(cfg, s, es[..n]), es[n], i)
  }

  predicate HasExecuted(acc: seq<Accounting>, i: nat) {
    exists k :: 0 <= k < |acc| && acc[k].executed && acc[k].index == i
  }

  lemma ExecutedStays(cfg: Config, s: State, e: Event, i: nat)
    requires cfg.batchSize >= 1 && HasExecuted(s.past.accountings, i)
    ensures HasExecuted(Step(cfg, s, e).past.accountings, i)
  {
    OnePass.PassesOnlyGrow(cfg, s, e);
    var acc, acc' := s.past.accountings, Step(cfg, s, e).past.accountings;
    var k :| 0 <= k < |acc| && acc[k].executed && acc[k].index == i;
    assert acc'[k] == acc[k];
  }

  lemma ExecutedNow(cfg: Config, s: State, e: Event)
    requires cfg.batchSize >= 1 && Executes(s, e)
    ensures HasExecuted(Step(cfg, s, e).past.accountings, s.jobs[e.j].index)
  {
    AccountingStep(cfg, s, e);
    var acc' := Step(cfg, s, e).past.accountings;
    assert acc'[|s.past.accountings|].executed;
  }

  lemma {:induction false} ClaimsNeedExecution(cfg: Config, s: State, es: seq<Event>, i: nat)
    requires cfg.batchSize >= 1 && ClaimsOf(cfg, s, es, i) != {}
    ensures HasExecuted(Run(cfg, s, es).past.accountings, i)
  {
    var n := |es| - 1;
    var before := Run(cfg, s, es[..n]);
    if ClaimsOf(cfg, s, es[..n], i) != {} {
      ClaimsNeedExecution(cfg, s, es[..n], i);
      ExecutedStays(cfg, before, es[n], i);
    } else {
      ExecutedNow(cfg, before, es[n]);
    }
  }

  ghost predicate SomeoneClaimed(cfg: Config, s: State, es: seq<Event>, key: Key)
    requires cfg.batchSize >= 1
  {
    exists i: nat :: key in ClaimsOf(cfg, s, es, i)
  }

  /** Every key of the ledger was claimed by the commits of some batch. */
  lemma {:induction false} LedgerIsClaimed(cfg: Config, s: State, es: seq<Event>, key: Key)
    requires cfg.batchSize >= 1 && s.db.ledger == {} && key in Run(cfg, s, es).db.ledger
    ensures SomeoneClaimed(cfg, s, es, key)
  {
    if es != [] {
      var n := |es| - 1;
      var before := Run(cfg, s, es[..n]);
      if key in before.db.ledger {
        LedgerIsClaimed(cfg, s, es[..n], key);
        var i: nat :| key in ClaimsOf(cfg, s, es[..n], i);
        assert key in ClaimsOf(cfg, s, es, i);
      } else {
        NewKeyNeedsExecute(cfg, before, es[n], key);
        assert key in ClaimsOf(cfg, s, es, before.jobs[es[n].j].index);
      }
    }
  }

  lemma NewKeyNeedsExecute(cfg: Config, s: State, e: Event, key: Key)
    requires cfg.batchSize >= 1 && key in Step(cfg, s, e).db.ledger && key !in s.db.ledger
    ensures Executes(s, e)
  {
    if !Executes(s, e) && !MarksFailed(s, e) {
      OthersAreQuiet(cfg, s, e);
    }
  }

  // ----- Meeting one's own claims ----------------------------------------------------------

  // The commit of event `e`, after `es`, loads a row whose key its own batch has claimed before.
  predicate MeetsOwnClaims(cfg: Config, s: State, es: seq<Event>, e: Event)
    requires cfg.batchSize >= 1
  {
    var now := Run(cfg, s, es);
    Executes(now, e)
    && var i := now.jobs[e.j].index;
       KeySet(Keying(cfg), LoadRows(cfg, now.db.entities, now.db.batches[i].work)) * ClaimsOf(cfg, s, es, i) != {}
  }

  /** An execute commit meets claims of its own batch only if that batch has an executed accounting
      already.  So no retry after a rollback does. */
  lemma OwnClaimsOnlyAfterExecution(cfg: Config, s: State, es: seq<Event>, e: Event)
    requires cfg.batchSize >= 1 && MeetsOwnClaims(cfg, s, es, e)
    ensures var now := Run(cfg, s, es); HasExecuted(now.past.accountings, now.jobs[e.j].index)
  {
    ClaimsNeedExecution(cfg, s, es, Run(cfg, s, es).jobs[e.j].index);
  }

  /** And with one accounting per batch, none ever does. */
  lemma NeverWithOneAccounting(cfg: Config, s: State, es: seq<Event>, e: Event)
    requires cfg.batchSize >= 1 && AccountedOnce(Step(cfg, Run(cfg, s, es), e).past.accountings)
    ensures !MeetsOwnClaims(cfg, s, es, e)
  {
    if MeetsOwnClaims(cfg, s, es, e) {
      OwnClaimsOnlyAfterExecution(cfg, s, es, e);
      var now := Run(cfg, s, es);
      ExecutedIsIndexed(now.past.accountings, now.jobs[e.j].index);
      AccountsFreshIndex(cfg, now, e);
    }
  }

  lemma ExecutedIsIndexed(acc: seq<Accounting>, i: nat)
    requires HasExecuted(acc, i)
    ensures i in Indices(acc)
  {}

  /** A batch that finds all its keys taken hands no keyed row to its handler. */
  lemma {:induction false} AllTakenNonePass(kf: KeyFn, ledger: set<Key>, rows: seq<Loaded>)
    requires KeySet(kf, rows) <= ledger
    ensures First(kf, ledger, rows) == []
  {
    if rows != [] {
      var n := |rows| - 1;
      KeySetSnoc(kf, rows);
      AllTakenNonePass(kf, ledger, rows[..n]);
    }
  }

  // ----- A run -----------------------------------------------------------------------------

  const KEYED :=
    Config(Descriptor(false, false), 1, Update(map["name" := Text("x")]), (r: EntityRow) => true, Some([7]),
        Some("email"), 1, false)
  const ADA := EntityRow(1, map["email" := Text("a")], None, 0)
  const NAMED_ADA := EntityRow(1, map["email" := Text("a")] + map["name" := Text("x")], None, 0)

  lemma KeyIsA(row: EntityRow)
    requires row == ADA || row == NAMED_ADA
    ensures Keying(KEYED)(Loaded(7, row)) == Some("a")
  {
    assert Get(row, "email") == Text("a");
    assert StripLeft("a") == "a" && StripRight("a") == "a" && Lower("a") == "a";
  }

  // One row, one key: it wins on an empty ledger and loses once its key is taken.
  lemma SplitOne(kf: KeyFn, r: Loaded, key: Key)
    requires kf(r) == Some(key)
    ensures KeySet(kf, [r]) == {key}
    ensures Split(kf, {}, [r]).unique == [r]
    ensures Split(kf, {key}, [r]).unique == [] && Rows(Split(kf, {key}, [r]).duplicates) == [r]
  {
    assert [r][..0] == [] && Missing(kf, []) == [] && First(kf, {}, []) == [];
    assert Missing(kf, [r]) == [] + [];
    assert First(kf, {}, [r]) == [] + [r];
    assert forall x :: x in [r] <==> x == r;
    AllTakenNonePass(kf, {key}, [r]);
    LosesAlone(kf, {key}, r);
  }

  lemma LosesAlone(kf: KeyFn, ledger: set<Key>, r: Loaded)
    requires Split(kf, ledger, [r]).unique == []
    ensures Rows(Split(kf, ledger, [r]).duplicates) == [r]
  {
    var xs := Rows(Split(kf, ledger, [r]).duplicates);
    SplitIsPermutation(kf, ledger, [r]);
    assert multiset(xs) == multiset([r]);
    assert |xs| == |multiset(xs)| == 1;
    assert xs[0] in multiset(xs);
  }

  lemma SelectsAda(t: Table, row: EntityRow)
    requires t == map[7 := row] && row.account == 1
    ensures SelectedIds(KEYED, t, Single(7)) == {7}
  {}

  lemma LoadsAda(t: Table, row: EntityRow)
    requires t == map[7 := row] && row.account == 1
    ensures LoadRows(KEYED, t, Single(7)) == [Loaded(7, row)]
  {
    SelectsAda(t, row);
    LoadRowsFacts(KEYED, t, Single(7));
    var rows := LoadRows(KEYED, t, Single(7));
    assert |rows| == 1 && rows[0] in rows;
    assert rows == [rows[0]];
  }

  lemma UpdatesAda(t: Table)
    requires t == map[7 := ADA]
    ensures HandlerTable(KEYED, t, [Loaded(7, ADA)], 0) == map[7 := NAMED_ADA]
  {
    var r := Loaded(7, ADA);
    assert [r][..0] == [];
    assert Get(ADA, "name") == Null && "name" in KEYED.kind.updates;
    assert NeedsWrite(KEYED, ADA);
    assert ToWrite(KEYED, [r]) == [] + [7];
    assert Hit(KEYED, t, [7]) == {7};
  }

  lemma AllPass(cfg: Config, t: Table, ledger: set<Key>, b: PlannedBatch, now: int, rows: seq<Loaded>)
    requires Deduplicates(cfg) && LoadRows(cfg, t, b) == rows && Split(Keying(cfg), ledger, rows).unique == rows
    ensures var e := RunBatch(cfg, t, ledger, b, now);
            e.ledger == ledger + KeySet(Keying(cfg), rows) && e.entities == HandlerTable(cfg, t, rows, now)
            && |e.outcomes| == Planning.Max(b.entityCount, |rows|)
  {
    OutcomesTotal(cfg, t, ledger, b);
  }

  lemma NonePass(cfg: Config, t: Table, ledger: set<Key>, b: PlannedBatch, rows: seq<Loaded>)
    requires Deduplicates(cfg) && b.entityCount == |rows|
    requires Split(Keying(cfg), ledger, rows).unique == []
    ensures SplitBatch(cfg, ledger, rows).unique == []
    ensures BatchOutcomes(cfg, t, ledger, b, rows)
            == Skips(cfg.dedupField.value, SplitBatch(cfg, ledger, rows).duplicates)
  {
    var skips := Skips(cfg.dedupField.value, SplitBatch(cfg, ledger, rows).duplicates);
    assert Drift(b.entityCount, |rows|) == [] && HandlerOutcomes(cfg, t, []) == [];
    assert [] + skips + [] == skips;
  }

  lemma FirstTimeWins(t: Table, ledger: set<Key>)
    requires t == map[7 := ADA] && ledger == {}
    ensures var e := RunBatch(KEYED, t, ledger, Single(7), 0);
            e.ledger == {"a"} && e.entities == map[7 := NAMED_ADA] && |e.outcomes| == 1
  {
    var r := Loaded(7, ADA);
    LoadsAda(t, ADA);
    KeyIsA(ADA);
    SplitOne(Keying(KEYED), r, "a");
    AllPass(KEYED, t, ledger, Single(7), 0, [r]);
    UpdatesAda(t);
  }

  lemma SecondTimeLoses()
    ensures var t, rows := map[7 := NAMED_ADA], [Loaded(7, NAMED_ADA)];
            BatchOutcomes(KEYED, t, {"a"}, Single(7), rows) == [Outcome(Some(7), Skipped, DuplicateEmail)]
            && SplitBatch(KEYED, {"a"}, rows).unique == []
  {
    var r := Loaded(7, NAMED_ADA);
    KeyIsA(NAMED_ADA);
    SplitOne(Keying(KEYED), r, "a");
    NonePass(KEYED, map[7 := NAMED_ADA], {"a"}, Single(7), [r]);
    OneSkip(Split(Keying(KEYED), {"a"}, [r]).duplicates, r);
  }

  lemma OneSkip(ds: seq<Duplicate>, r: Loaded)
    requires Rows(ds) == [r]
    ensures Skips("email", ds) == [Outcome(Some(r.id), Skipped, DuplicateEmail)]
  {
    assert |ds| == 1 && Rows(ds)[0] == ds[0].row;
  }

  // ----- Planning it -----------------------------------------------------------------------

  function Planned1(st: ActionStatus, totals: nat, rows: map<nat, BatchRow>, pls: map<nat, Planner>,
                    started: bool): State {
    State(Db(ActionRow(st, totals, totals, 0, 0, 0, 0, 0), rows, [], {}, map[7 := ADA]), pls, map[],
          History([], 1, started, 0, [], []))
  }

  const START := Planner(None, 0, 0, [], false)
  const READ := Planner(None, 1, 1, [Single(7)], false)
  const READ_ALL := Planner(None, 1, 1, [Single(7)], true)
  const FLUSHED := Planner(None, 1, 1, [], true)
  const PENDING_ROWS := map[0 := NewRow(Single(7))]

  lemma ReadsChunkOnce()
    ensures ReadPage(KEYED, map[7 := ADA], START) == READ && ReadPage(KEYED, map[7 := ADA], READ) == READ_ALL
  {
    DistinctOneTwo();
    PlanOfOne(7);
    assert [] + [Single(7)] == [Single(7)];
  }

  lemma PlanSteps()
    ensures Step(KEYED, Init(map[7 := ADA], false), PlanOpen(0))
            == Planned1(ActionStatus.Planning, 0, map[], map[0 := START], false)
    ensures Step(KEYED, Planned1(ActionStatus.Planning, 0, map[], map[0 := START], false), PlanPage(0))
            == Planned1(ActionStatus.Planning, 0, map[], map[0 := READ], false)
    ensures Step(KEYED, Planned1(ActionStatus.Planning, 0, map[], map[0 := READ], false), PlanPage(0))
            == Planned1(ActionStatus.Planning, 0, map[], map[0 := READ_ALL], false)
  {
    ReadsChunkOnce();
    assert map[0 := START][0 := READ] == map[0 := READ] && map[0 := READ][0 := READ_ALL] == map[0 := READ_ALL];
  }

  lemma FlushStep()
    ensures Step(KEYED, Planned1(ActionStatus.Planning, 0, map[], map[0 := READ_ALL], false), PlanFlush(0))
            == Planned1(ActionStatus.Planning, 0, PENDING_ROWS, map[0 := FLUSHED], false)
  {
    assert InsertBatches(map[], 0, [Single(7)]) == PENDING_ROWS by {
      assert [Single(7)][..0] == [] && InsertBatches(map[], 0, []) == map[];
    }
    assert map[0 := READ_ALL][0 := FLUSHED] == map[0 := FLUSHED];
  }

  lemma CloseStep()
    ensures Step(KEYED, Planned1(ActionStatus.Planning, 0, PENDING_ROWS, map[0 := FLUSHED], false), PlanClose(0))
            == Planned1(Processing, 1, PENDING_ROWS, map[], true)
  {
    assert map[0 := FLUSHED] - {0} == map[];
  }

  lemma PlansKeyed()
    ensures Run(KEYED, Init(map[7 := ADA], false), PLAN_ONE + [PlanClose(0)])
            == Planned1(Processing, 1, PENDING_ROWS, map[], true)
  {
    var s0 := Init(map[7 := ADA], false);
    RunAppend(KEYED, s0, PLAN_ONE, [PlanClose(0)]);
    RunAppend(KEYED, s0, [PlanOpen(0), PlanPage(0)], [PlanPage(0), PlanFlush(0)]);
    Run2(KEYED, s0, PlanOpen(0), PlanPage(0));
    PlanSteps();
    Run2(KEYED, Planned1(ActionStatus.Planning, 0, map[], map[0 := READ], false), PlanPage(0), PlanFlush(0));
    FlushStep();
    Run1(KEYED, Planned1(ActionStatus.Planning, 0, PENDING_ROWS, map[0 := FLUSHED], false), PlanClose(0));
    CloseStep();
  }

  // ----- Executing it twice ----------------------------------------------------------------

  // Batch 0 is the only row, stands for entity 7, and nobody has cancelled.
  predicate OneRow(s: State, st: BatchStatus) {
    && 0 in s.db.batches && s.db.batches[0].work == Single(7) && s.db.batches[0].status == st
    && s.db.action.status != ActionCancelled
  }

  predicate JobAt(s: State, j: nat, pc: Pc) {
    At(s, j, pc) && s.jobs[j] == Job(0, 1, pc)
  }

  // The tables that de-duplication is about.
  predicate Holding(s: State, ledger: set<Key>, row: EntityRow, acc: seq<Accounting>) {
    s.db.ledger == ledger && s.db.entities == map[7 := row] && s.past.accountings == acc
  }

  const RAN := Accounting(0, 1, 1, true)
  const GAVE_UP := Accounting(0, 1, 1, false)

  lemma Starts(s: State, j: nat, st: BatchStatus, ledger: set<Key>, row: EntityRow, acc: seq<Accounting>)
    requires OneRow(s, st) && st != BatchCompleted && Holding(s, ledger, row, acc) && j !in s.jobs
    ensures var e := Run(KEYED, s, [Deliver(j, 0), Gate(j, true)]);
            JobAt(e, j, Admitted) && OneRow(e, st) && Holding(e, ledger, row, acc) && e.past.passed == s.past.passed
  {
    Run2(KEYED, s, Deliver(j, 0), Gate(j, true));
  }

  lemma TriesKeyed(s: State, j: nat, st: BatchStatus, ledger: set<Key>, row: EntityRow, acc: seq<Accounting>)
    requires OneRow(s, st) && st != BatchCompleted && Holding(s, ledger, row, acc) && JobAt(s, j, Admitted)
    ensures var e := Step(KEYED, s, Attempt(j));
            JobAt(e, j, Attempted) && OneRow(e, BatchProcessing) && Holding(e, ledger, row, acc)
  {}

  // What an execute commit leaves, given what its batch did.
  ghost predicate Committed(cfg: Config, s: State, e: State, j: nat, x: BatchEffect, passed: seq<Loaded>)
    requires j in s.jobs && s.jobs[j].index in s.db.batches
  {
    var i := s.jobs[j].index;
    && e.db.ledger == x.ledger && e.db.entities == x.entities && e.db.action.status == s.db.action.status
    && e.db.batches == s.db.batches[i := Counted(s.db.batches[i], x.outcomes)]
    && e.db.logs == s.db.logs + Tagged(i, x.outcomes)
    && e.jobs == s.jobs[j := s.jobs[j].(pc := AtFinalise)]
    && e.past.accountings == s.past.accountings + [Accounting(i, s.db.batches[i].work.entityCount, |x.outcomes|, true)]
    && e.past.passed == s.past.passed + passed
  }

  lemma ExecuteCommits(cfg: Config, s: State, j: nat, now: int)
    requires cfg.batchSize >= 1 && At(s, j, Attempted) && WouldExecute(s.db, s.jobs[j].index)
    ensures var work := s.db.batches[s.jobs[j].index].work;
            Committed(cfg, s, Step(cfg, s, Execute(j, now)), j, RunBatch(cfg, s.db.entities, s.db.ledger, work, now),
                      SplitBatch(cfg, s.db.ledger, LoadRows(cfg, s.db.entities, work)).unique)
  {}

  lemma WorksKeyed(s: State, e: State, x: BatchEffect, passed: seq<Loaded>)
    requires OneRow(s, BatchProcessing) && JobAt(s, 0, Attempted) && Holding(s, {}, ADA, [])
    requires Committed(KEYED, s, e, 0, x, passed)
    requires x.ledger == {"a"} && x.entities == map[7 := NAMED_ADA] && |x.outcomes| == 1
    ensures JobAt(e, 0, AtFinalise) && OneRow(e, BatchCompleted) && Holding(e, {"a"}, NAMED_ADA, [RAN])
  {
    assert [] + [RAN] == [RAN];
  }

  lemma WorksOnce(s: State)
    requires OneRow(s, BatchProcessing) && JobAt(s, 0, Attempted) && Holding(s, {}, ADA, [])
    ensures var e := Step(KEYED, s, Execute(0, 0));
            JobAt(e, 0, AtFinalise) && OneRow(e, BatchCompleted) && Holding(e, {"a"}, NAMED_ADA, [RAN])
  {
    ExecuteCommits(KEYED, s, 0, 0);
    FirstTimeWins(s.db.entities, s.db.ledger);
    WorksKeyed(s, Step(KEYED, s, Execute(0, 0)), RunBatch(KEYED, s.db.entities, s.db.ledger, Single(7), 0),
               SplitBatch(KEYED, s.db.ledger, LoadRows(KEYED, s.db.entities, Single(7))).unique);
  }

  lemma Breaks(s: State)
    requires OneRow(s, BatchCompleted) && JobAt(s, 0, AtFinalise) && Holding(s, {"a"}, NAMED_ADA, [RAN])
    ensures var e := Run(KEYED, s, [FinaliseError(0, true), MarkFailed(0)]);
            JobAt(e, 0, AtLastFinalise) && OneRow(e, BatchFailed) && Holding(e, {"a"}, NAMED_ADA, [RAN, GAVE_UP])
            && (1 !in s.jobs ==> 1 !in e.jobs)
  {
    Run2(KEYED, s, FinaliseError(0, true), MarkFailed(0));
    assert [RAN] + [GAVE_UP] == [RAN, GAVE_UP];
  }

  const FIRST_TRY := [Deliver(0, 0), Gate(0, true)] + [Attempt(0), Execute(0, 0)]
  const LATE_FAULT := [FinaliseError(0, true), MarkFailed(0)]
  const SECOND_TRY := [Deliver(1, 0), Gate(1, true)] + [Attempt(1)]

  lemma FirstTry()
    ensures var e := Run(KEYED, Planned1(Processing, 1, PENDING_ROWS, map[], true), FIRST_TRY);
            JobAt(e, 0, AtFinalise) && OneRow(e, BatchCompleted) && Holding(e, {"a"}, NAMED_ADA, [RAN]) && 1 !in e.jobs
  {
    var s := Planned1(Processing, 1, PENDING_ROWS, map[], true);
    RunAppend(KEYED, s, [Deliver(0, 0), Gate(0, true)], [Attempt(0), Execute(0, 0)]);
    Starts(s, 0, BatchPending, {}, ADA, []);
    OnlyJob(s, Deliver(0, 0), Gate(0, true));
    var admitted := Run(KEYED, s, [Deliver(0, 0), Gate(0, true)]);
    OnlyJob(admitted, Attempt(0), Execute(0, 0));
    Run2(KEYED, admitted, Attempt(0), Execute(0, 0));
    TriesKeyed(admitted, 0, BatchPending, {}, ADA, []);
    WorksOnce(Step(KEYED, admitted, Attempt(0)));
  }

  // Events of job 0 start no job 1.
  lemma OnlyJob(s: State, e: Event, f: Event)
    requires 1 !in s.jobs && (e == Deliver(0, 0) || e == Attempt(0)) && (f == Gate(0, true) || f == Execute(0, 0))
    ensures 1 !in Run(KEYED, s, [e, f]).jobs
  {
    Run2(KEYED, s, e, f);
    NotJobOne(s, e);
    NotJobOne(Step(KEYED, s, e), f);
  }

  lemma NotJobOne(s: State, e: Event)
    requires 1 !in s.jobs && (e.Deliver? || e.Gate? || e.Attempt? || e.Execute?) && e.j == 0
    ensures 1 !in Step(KEYED, s, e).jobs
  {}

  lemma SecondTry(s: State)
    requires OneRow(s, BatchFailed) && Holding(s, {"a"}, NAMED_ADA, [RAN, GAVE_UP]) && 1 !in s.jobs
    ensures var e := Run(KEYED, s, SECOND_TRY);
            JobAt(e, 1, Attempted) && OneRow(e, BatchProcessing) && Holding(e, {"a"}, NAMED_ADA, [RAN, GAVE_UP])
  {
    RunAppend(KEYED, s, [Deliver(1, 0), Gate(1, true)], [Attempt(1)]);
    Starts(s, 1, BatchFailed, {"a"}, NAMED_ADA, [RAN, GAVE_UP]);
    var admitted := Run(KEYED, s, [Deliver(1, 0), Gate(1, true)]);
    Run1(KEYED, admitted, Attempt(1));
    TriesKeyed(admitted, 1, BatchFailed, {"a"}, NAMED_ADA, [RAN, GAVE_UP]);
  }

  const SELF_LOSING_RUN := PLAN_ONE + [PlanClose(0)] + FIRST_TRY + LATE_FAULT + SECOND_TRY

  lemma RunsTwice()
    ensures var e := Run(KEYED, Init(map[7 := ADA], false), SELF_LOSING_RUN);
            JobAt(e, 1, Attempted) && OneRow(e, BatchProcessing) && Holding(e, {"a"}, NAMED_ADA, [RAN, GAVE_UP])
  {
    var s0 := Init(map[7 := ADA], false);
    var planned := PLAN_ONE + [PlanClose(0)];
    RunAppend(KEYED, s0, planned + FIRST_TRY + LATE_FAULT, SECOND_TRY);
    RunAppend(KEYED, s0, planned + FIRST_TRY, LATE_FAULT);
    RunAppend(KEYED, s0, planned, FIRST_TRY);
    PlansKeyed();
    FirstTry();
    Breaks(Run(KEYED, Run(KEYED, s0, planned), FIRST_TRY));
    SecondTry(Run(KEYED, s0, planned + FIRST_TRY + LATE_FAULT));
  }

  lemma SkipsItself(s: State, e: State, x: BatchEffect)
    requires JobAt(s, 1, Attempted) && OneRow(s, BatchProcessing) && Committed(KEYED, s, e, 1, x, [])
    requires x.outcomes == [Outcome(Some(7), Skipped, DuplicateEmail)]
    ensures e.past.passed == s.past.passed
    ensures e.db.logs == s.db.logs + [LogRow(0, Outcome(Some(7), Skipped, DuplicateEmail))]
  {
    var skip := Outcome(Some(7), Skipped, DuplicateEmail);
    assert Tagged(0, [skip]) == [LogRow(0, skip)];
    assert s.past.passed + [] == s.past.passed;
  }

  lemma LosesToItself(s: State)
    requires JobAt(s, 1, Attempted) && OneRow(s, BatchProcessing) && Holding(s, {"a"}, NAMED_ADA, [RAN, GAVE_UP])
    ensures Executes(s, Execute(1, 0)) && KeySet(Keying(KEYED), LoadRows(KEYED, s.db.entities, Single(7))) == {"a"}
    ensures var after := Step(KEYED, s, Execute(1, 0));
            after.past.passed == s.past.passed
            && after.db.logs == s.db.logs + [LogRow(0, Outcome(Some(7), Skipped, DuplicateEmail))]
  {
    LoadsAda(s.db.entities, NAMED_ADA);
    KeyIsA(NAMED_ADA);
    SplitOne(Keying(KEYED), Loaded(7, NAMED_ADA), "a");
    SecondTimeLoses();
    ExecuteCommits(KEYED, s, 1, 0);
    SkipsItself(s, Step(KEYED, s, Execute(1, 0)), RunBatch(KEYED, s.db.entities, s.db.ledger, Single(7), 0));
  }

  lemma ClaimIsItsOwn(es: seq<Event>)
    requires var e := Run(KEYED, Init(map[7 := ADA], false), es);
             e.db.ledger == {"a"} && e.past.accountings == [RAN, GAVE_UP]
    ensures "a" in ClaimsOf(KEYED, Init(map[7 := ADA], false), es, 0)
  {
    var s0 := Init(map[7 := ADA], false);
    LedgerIsClaimed(KEYED, s0, es, "a");
    var i: nat :| "a" in ClaimsOf(KEYED, s0, es, i);
    ClaimsNeedExecution(KEYED, s0, es, i);
    assert forall k :: 0 <= k < |[RAN, GAVE_UP]| ==> [RAN, GAVE_UP][k].index == 0;
  }

  /** A batch of one row commits, claims its key and is then marked failed by the block after it.
      Redelivered, it passes both `completed` guards, runs again, and skips its row as a duplicate of
      itself. */
  lemma BatchLosesToItsOwnClaim()
    ensures var s0 := Init(map[7 := ADA], false);
            var s := Run(KEYED, s0, SELF_LOSING_RUN);
            var after := Step(KEYED, s, Execute(1, 0));
            MeetsOwnClaims(KEYED, s0, SELF_LOSING_RUN, Execute(1, 0))
            && after.past.passed == s.past.passed
            && after.db.logs == s.db.logs + [LogRow(0, Outcome(Some(7), Skipped, DuplicateEmail))]
  {
    var s := Run(KEYED, Init(map[7 := ADA], false), SELF_LOSING_RUN);
    RunsTwice();
    LosesToItself(s);
    ClaimIsItsOwn(SELF_LOSING_RUN);
    assert "a" in KeySet(Keying(KEYED), LoadRows(KEYED, s.db.entities, Single(7)));
  }
}
