/**
 The run conditions of the theorems about whole runs are needed: concrete runs, with batch size
 one, in which a condition fails and the guarantee with it.
 */
module Counterexamples {
  import opened Domain
  import opened Handlers
  import opened BatchRunner
  import opened Store
  import opened Protocol
  import opened Closing
  import opened Finishing
  import opened Finalisation
  import Planning

  function Naming(ids: seq<Id>): Config {
    Config(Descriptor(true, true), 1, Update(map[]), (r: EntityRow) => true, Some(ids), None, 1, false)
  }

  function Single(id: Id): PlannedBatch { PlannedBatch([id], id, id, 1) }

  lemma ChunkOfOne(id: Id)
    ensures Planning.ChunkOf([id]) == Single(id)
  {
    Planning.ChunkOfShape([id], 1);
    var c := Planning.ChunkOf([id]);
    assert c.Owns(c.ids[0]);
    assert c.ids == [id];
  }

  lemma PlanOfOne(id: Id)
    ensures Planning.ChunkPlan([id], 1) == [Single(id)]
  {
    ChunkOfOne(id);
    assert [id][..1] == [id] && [id][1..] == [];
  }

  lemma PlanOfTwo(a: Id, b: Id)
    ensures Planning.ChunkPlan([a, b], 1) == [Single(a), Single(b)]
  {
    ChunkOfOne(a);
    PlanOfOne(b);
    assert [a, b][..1] == [a] && [a, b][1..] == [b];
  }

  lemma DistinctOneTwo()
    ensures Planning.Distinct([7]) == [7] && Planning.Distinct([7, 8]) == [7, 8]
  {
    assert [7][..0] == [] && [7, 8][..1] == [7];
    assert Planning.Distinct([]) == [];
    assert Planning.Distinct([7]) == [] + [7];
  }

  // On an empty table a batch of one reports its entity as gone.
  lemma RunsEmpty(ids: seq<Id>, b: PlannedBatch, now: int)
    requires b.entityCount == 1
    ensures RunBatch(Naming(ids), map[], {}, b, now) == BatchEffect([VANISHED], {}, map[])
  {
    var cfg := Naming(ids);
    assert SelectedIds(cfg, map[], b) == {};
    assert LoadRows(cfg, map[], b) == [];
    assert Drift(1, 0) == [VANISHED];
    assert HandlerOutcomes(cfg, map[], []) == [];
    assert HandlerTable(cfg, map[], [], now) == map[];
  }

  lemma Seen(ids: seq<Id>, b: PlannedBatch)
    requires b.entityCount == 1
    ensures LoadRows(Naming(ids), map[], b) == [] && SplitBatch(Naming(ids), {}, []).unique == []
    ensures BatchOutcomes(Naming(ids), map[], {}, b, []) == [VANISHED]
  {
    RunsEmpty(ids, b, 0);
    assert SelectedIds(Naming(ids), map[], b) == {};
  }

  lemma CountVanished()
    ensures Count([VANISHED], Success) == 0 && Count([VANISHED], Failed) == 0 && Count([VANISHED], Skipped) == 1
  {
    assert [VANISHED][..0] == [];
  }

  // ----- Runs in pieces ------------------------------------------------------------------

  function At0(a: ActionRow, rows: map<nat, BatchRow>, logs: seq<LogRow>, pls: map<nat, Planner>, jobs: map<nat, Job>,
               h: History): State {
    State(Db(a, rows, logs, {}, map[]), pls, jobs, h)
  }

  function Fresh(st: ActionStatus): ActionRow { ActionRow(st, 0, 0, 0, 0, 0, 0, 0) }

  function Past(acc: seq<Accounting>, started: bool, admitted: nat): History {
    History(acc, 1, started, admitted, [], [])
  }

  // After the planner has opened and read k of its one-entity chunks.
  function Reading(plan: seq<PlannedBatch>, k: nat): State
    requires k <= |plan|
  {
    At0(Fresh(ActionStatus.Planning), map[], [], map[0 := Planner(None, k, k, plan[..k], false)], map[],
        Past([], false, 0))
  }

  lemma Opens(ids: seq<Id>, plan: seq<PlannedBatch>)
    ensures Step(Naming(ids), Init(map[], false), PlanOpen(0)) == Reading(plan, 0)
  {
    assert plan[..0] == [];
  }

  lemma ReadsChunk(ids: seq<Id>, plan: seq<PlannedBatch>, k: nat)
    requires plan == Planning.ChunkPlan(Planning.Distinct(ids), 1) && k < |plan| && plan[k].entityCount == 1
    ensures ReadPage(Naming(ids), map[], Planner(None, k, k, plan[..k], false))
            == Planner(None, k + 1, k + 1, plan[..k + 1], false)
  {
    var pl := Planner(None, k, k, plan[..k], false);
    assert plan[..k] + [plan[k]] == plan[..k + 1];
    assert ReadPage(Naming(ids), map[], pl) == AddPage(pl, plan[k], None, false);
  }

  lemma ReadsOne(ids: seq<Id>, plan: seq<PlannedBatch>, k: nat)
    requires plan == Planning.ChunkPlan(Planning.Distinct(ids), 1) && k < |plan| < 100 && plan[k].entityCount == 1
    ensures Step(Naming(ids), Reading(plan, k), PlanPage(0)) == Reading(plan, k + 1)
  {
    ReadsChunk(ids, plan, k);
    var pl, pl' := Planner(None, k, k, plan[..k], false), Planner(None, k + 1, k + 1, plan[..k + 1], false);
    assert map[0 := pl][0 := pl'] == map[0 := pl'];
  }

  lemma ReadsLast(ids: seq<Id>, plan: seq<PlannedBatch>)
    requires plan == Planning.ChunkPlan(Planning.Distinct(ids), 1) && 0 < |plan| < 100
    ensures var n, h := |plan|, Past([], false, 0);
            var s := Step(Naming(ids), Reading(plan, n), PlanPage(0));
            Step(Naming(ids), s, PlanFlush(0)) ==
            At0(Fresh(ActionStatus.Planning), InsertBatches(map[], 0, plan), [],
                map[0 := Planner(None, n, n, [], true)], map[], h)
  {
    assert plan[..|plan|] == plan;
  }

  const PENDING7 := NewRow(Single(7))
  const TRIED7 := BatchRow(Single(7), BatchProcessing, 0, 0, 0, 1)
  const DONE7 := BatchRow(Single(7), BatchCompleted, 0, 0, 1, 1)
  const ACC7 := Accounting(0, 1, 1, true)
  const LOG7 := LogRow(0, VANISHED)

  // One worker takes batch 0 from delivery to a committed execute block.
  function Working(a: ActionRow, m: map<nat, BatchRow>, row: BatchRow, pls: map<nat, Planner>, started: bool,
                   admitted: nat, pc: Pc): State {
    At0(a, m[0 := row], [], pls, map[0 := Job(0, 1, pc)], Past([], started, admitted))
  }

  lemma WorkerStarts(ids: seq<Id>, a: ActionRow, m: map<nat, BatchRow>, pls: map<nat, Planner>, started: bool)
    requires a.status != ActionCancelled && 0 in m && m[0] == PENDING7
    ensures var s := At0(a, m, [], pls, map[], Past([], started, 0));
            Run(Naming(ids), s, [Deliver(0, 0), Gate(0, true)]) == Working(a, m, PENDING7, pls, started, 1, Admitted)
  {
    var s := At0(a, m, [], pls, map[], Past([], started, 0));
    Run2(Naming(ids), s, Deliver(0, 0), Gate(0, true));
    assert m[0 := PENDING7] == m;
    assert Step(Naming(ids), s, Deliver(0, 0)) == Working(a, m, PENDING7, pls, started, 0, AtGate);
    assert Past([], started, 0).(admitted := 1) == Past([], started, 1);
  }

  function Worked(a: ActionRow, m: map<nat, BatchRow>, pls: map<nat, Planner>, started: bool): State {
    At0(a.(processed := a.processed + 1, skipped := a.skipped + 1, completedBatches := a.completedBatches + 1),
        m[0 := DONE7], [LOG7], pls, map[0 := Job(0, 1, AtFinalise)], Past([ACC7], started, 1))
  }

  lemma WorkerTries(ids: seq<Id>, a: ActionRow, m: map<nat, BatchRow>, pls: map<nat, Planner>, started: bool)
    ensures Step(Naming(ids), Working(a, m, PENDING7, pls, started, 1, Admitted), Attempt(0))
            == Working(a, m, TRIED7, pls, started, 1, Attempted)
  {
    assert m[0 := PENDING7][0 := TRIED7] == m[0 := TRIED7];
  }

  lemma WorkerCommits(ids: seq<Id>, a: ActionRow, m: map<nat, BatchRow>, pls: map<nat, Planner>, started: bool)
    ensures StepExecute(Naming(ids), Working(a, m, TRIED7, pls, started, 1, Attempted), 0, 0)
            == Worked(a, m, pls, started)
  {
    var t := Working(a, m, TRIED7, pls, started, 1, Attempted);
    ExecutesEmpty(ids, a, m);
    assert m[0 := TRIED7][0 := DONE7] == m[0 := DONE7];
    assert ExecutedPast(Naming(ids), t, 0) == Past([ACC7], started, 1) by {
      Seen(ids, Single(7));
    }
  }

  lemma WorkerExecutes(ids: seq<Id>, a: ActionRow, m: map<nat, BatchRow>, pls: map<nat, Planner>, started: bool)
    ensures Run(Naming(ids), Working(a, m, PENDING7, pls, started, 1, Admitted), [Attempt(0), Execute(0, 0)])
            == Worked(a, m, pls, started)
  {
    Run2(Naming(ids), Working(a, m, PENDING7, pls, started, 1, Admitted), Attempt(0), Execute(0, 0));
    WorkerTries(ids, a, m, pls, started);
    WorkerCommits(ids, a, m, pls, started);
  }

  lemma ExecutesEmpty(ids: seq<Id>, a: ActionRow, m: map<nat, BatchRow>)
    ensures ExecuteBatch(Naming(ids), Db(a, m[0 := TRIED7], [], {}, map[]), 0, 0) ==
            Db(a.(processed := a.processed + 1, skipped := a.skipped + 1, completedBatches := a.completedBatches + 1),
               m[0 := TRIED7][0 := DONE7], [LOG7], {}, map[])
  {
    RunsEmpty(ids, Single(7), 0);
    CountVanished();
    assert [] + Tagged(0, [VANISHED]) == [LOG7];
  }

  const WORK := [Deliver(0, 0), Gate(0, true), Attempt(0), Execute(0, 0)]

  lemma Works(ids: seq<Id>, a: ActionRow, m: map<nat, BatchRow>, pls: map<nat, Planner>, started: bool)
    requires a.status != ActionCancelled && 0 in m && m[0] == PENDING7
    ensures Run(Naming(ids), At0(a, m, [], pls, map[], Past([], started, 0)), WORK) == Worked(a, m, pls, started)
  {
    var s := At0(a, m, [], pls, map[], Past([], started, 0));
    assert WORK == [Deliver(0, 0), Gate(0, true)] + [Attempt(0), Execute(0, 0)];
    RunAppend(Naming(ids), s, [Deliver(0, 0), Gate(0, true)], [Attempt(0), Execute(0, 0)]);
    WorkerStarts(ids, a, m, pls, started);
    WorkerExecutes(ids, a, m, pls, started);
  }

  // ----- The stranded action -------------------------------------------------------------

  const PLAN_ONE := [PlanOpen(0), PlanPage(0)] + [PlanPage(0), PlanFlush(0)]
  const DONE_PLANNER := Planner(None, 1, 1, [], true)

  lemma PlansOne()
    ensures Run(Naming([7]), Init(map[], false), PLAN_ONE) ==
            At0(Fresh(ActionStatus.Planning), map[0 := PENDING7], [], map[0 := DONE_PLANNER], map[], Past([], false, 0))
  {
    var cfg, s0, plan := Naming([7]), Init(map[], false), [Single(7)];
    DistinctOneTwo();
    PlanOfOne(7);
    RunAppend(cfg, s0, [PlanOpen(0), PlanPage(0)], [PlanPage(0), PlanFlush(0)]);
    ReadsFirst([7], plan);
    Run2(cfg, Reading(plan, 1), PlanPage(0), PlanFlush(0));
    ReadsLast([7], plan);
    assert InsertBatches(map[], 0, []) == map[];
    assert InsertBatches(map[], 0, plan) == map[0 := PENDING7];
  }

  const STRANDING_RUN := PLAN_ONE + WORK + [Finalise(0), PlanClose(0)]

  lemma StrandingRunEnds()
    ensures Run(Naming([7]), Init(map[], false), STRANDING_RUN) ==
            At0(ActionRow(Processing, 1, 1, 1, 0, 0, 1, 1), map[0 := DONE7], [LOG7], map[], map[],
                Past([ACC7], true, 1))
  {
    var cfg, s0 := Naming([7]), Init(map[], false);
    PlansOne();
    var planned := Run(cfg, s0, PLAN_ONE);
    RunAppend(cfg, s0, PLAN_ONE + WORK, [Finalise(0), PlanClose(0)]);
    RunAppend(cfg, s0, PLAN_ONE, WORK);
    Works([7], planned.db.action, planned.db.batches, planned.planners, false);
    var worked := Run(cfg, planned, WORK);
    assert planned.db.batches[0 := DONE7] == map[0 := DONE7];
    Run2(cfg, worked, Finalise(0), PlanClose(0));
    assert worked.jobs - {0} == map[];
    assert worked.planners - {0} == map[];
  }

  lemma StrandingEndIsStranded(s: State)
    requires s == At0(ActionRow(Processing, 1, 1, 1, 0, 0, 1, 1), map[0 := DONE7], [LOG7], map[], map[],
             Past([ACC7], true, 1))
    ensures Regular(s) && AllAccounted(s) && Stranded(s)
  {
    assert s.past.accountings[0].index == 0;
    assert s.jobs.Keys == {} && s.planners.Keys == {};
  }

  /** A batch that finishes before the planner commits mark_started strands its action: nothing
      failed, nothing crashed, nothing was cancelled, and the action never finishes. */
  lemma FastWorkersStrandTheAction(more: seq<Event>)
    requires forall k :: 0 <= k < |more| ==> !more[k].PlanOpen? && !more[k].Cancel?
    ensures var s := Run(Naming([7]), Init(map[], false), STRANDING_RUN);
            Regular(s) && AllAccounted(s) && Stranded(s)
            && Run(Naming([7]), s, more).db.action.status == Processing
  {
    StrandingRunEnds();
    var s := Run(Naming([7]), Init(map[], false), STRANDING_RUN);
    StrandingEndIsStranded(s);
    StrandedForever(Naming([7]), s, more);
  }

  // ----- The re-opened batch -------------------------------------------------------------

  const PLANNED_ONE := At0(ActionRow(Processing, 1, 1, 0, 0, 0, 0, 0), map[0 := PENDING7], [], map[], map[],
      Past([], true, 0))

  lemma PlansAndCloses()
    ensures Run(Naming([7]), Init(map[], false), PLAN_ONE + [PlanClose(0)]) == PLANNED_ONE
  {
    var s := At0(Fresh(ActionStatus.Planning), map[0 := PENDING7], [], map[0 := DONE_PLANNER], map[],
        Past([], false, 0));
    PlansOne();
    RunAppend(Naming([7]), Init(map[], false), PLAN_ONE, [PlanClose(0)]);
    Run1(Naming([7]), s, PlanClose(0));
    assert s.planners - {0} == map[];
  }

  const LOST7 := LogRow(0, BATCH_ERROR)
  const GIVEN_UP := Accounting(0, 1, 1, false)

  // Batch 0 as row `row`, with job j at `pc`, `admitted` gate decisions so far.
  function Struggling(row: BatchRow, j: nat, pc: Pc, admitted: nat): State {
    At0(ActionRow(Processing, 1, 1, 0, 0, 0, 0, 0), map[0 := row], [], map[], map[j := Job(0, 1, pc)],
        Past([], true, admitted))
  }

  lemma TriesAndErrs()
    ensures Run(Naming([7]), PLANNED_ONE, [Deliver(0, 0), Gate(0, true)] + [Attempt(0), ExecuteError(0, true)])
            == Struggling(TRIED7, 0, AtMarkFailed, 1)
  {
    var cfg := Naming([7]);
    RunAppend(cfg, PLANNED_ONE, [Deliver(0, 0), Gate(0, true)], [Attempt(0), ExecuteError(0, true)]);
    Run2(cfg, PLANNED_ONE, Deliver(0, 0), Gate(0, true));
    assert Run(cfg, PLANNED_ONE, [Deliver(0, 0), Gate(0, true)]) == Struggling(PENDING7, 0, Admitted, 1);
    Run2(cfg, Struggling(PENDING7, 0, Admitted, 1), Attempt(0), ExecuteError(0, true));
    assert Step(cfg, Struggling(PENDING7, 0, Admitted, 1), Attempt(0)) == Struggling(TRIED7, 0, Attempted, 1);
  }

  const GAVE_UP7 := BatchRow(Single(7), BatchFailed, 0, 1, 0, 1)

  function GivenUp(st: ActionStatus, row: BatchRow, jobs: map<nat, Job>, admitted: nat): State {
    At0(ActionRow(st, 1, 1, 1, 0, 1, 0, 1), map[0 := row], [LOST7], map[], jobs, Past([GIVEN_UP], true, admitted))
  }

  lemma GivesUp()
    ensures Run(Naming([7]), Struggling(TRIED7, 0, AtMarkFailed, 1), [MarkFailed(0), Finalise(0)])
            == GivenUp(CompletedWithErrors, GAVE_UP7, map[], 1)
  {
    var cfg, s := Naming([7]), Struggling(TRIED7, 0, AtMarkFailed, 1);
    Run2(cfg, s, MarkFailed(0), Finalise(0));
    CountLost(1);
    assert [] + Tagged(0, Lost(1)) == [LOST7];
    assert map[0 := TRIED7][0 := GAVE_UP7] == map[0 := GAVE_UP7];
    var failed := Step(cfg, s, MarkFailed(0));
    assert failed == GivenUp(Processing, GAVE_UP7, map[0 := Job(0, 1, AtLastFinalise)], 1);
    assert failed.jobs - {0} == map[];
  }

  const REOPENED7 := BatchRow(Single(7), BatchProcessing, 0, 1, 0, 2)

  lemma IsTriedAgain()
    ensures Run(Naming([7]), GivenUp(CompletedWithErrors, GAVE_UP7, map[], 1),
            [Deliver(1, 0), Gate(1, true)] + [Attempt(1)])
            == GivenUp(CompletedWithErrors, REOPENED7, map[1 := Job(0, 1, Attempted)], 2)
  {
    var cfg, s := Naming([7]), GivenUp(CompletedWithErrors, GAVE_UP7, map[], 1);
    var again := GivenUp(CompletedWithErrors, GAVE_UP7, map[1 := Job(0, 1, Admitted)], 2);
    RunAppend(cfg, s, [Deliver(1, 0), Gate(1, true)], [Attempt(1)]);
    Run2(cfg, s, Deliver(1, 0), Gate(1, true));
    assert Run(cfg, s, [Deliver(1, 0), Gate(1, true)]) == again;
    Run1(cfg, again, Attempt(1));
    assert map[0 := GAVE_UP7][0 := REOPENED7] == map[0 := REOPENED7];
  }

  const REOPENING_RUN :=
    (PLAN_ONE + [PlanClose(0)])
    + ([Deliver(0, 0), Gate(0, true)] + [Attempt(0), ExecuteError(0, true)])
    + [MarkFailed(0), Finalise(0)]
    + ([Deliver(1, 0), Gate(1, true)] + [Attempt(1)])

  /** A batch is given up and its action finishes; then its job is delivered once more and records an
      attempt.  One pass, one accounting, a finished action, and a batch row that reads `processing`. */
  lemma ReopenedBatchStaysOpen()
    ensures var s := Run(Naming([7]), Init(map[], false), REOPENING_RUN);
            Regular(s) && s.db.action.status == CompletedWithErrors
            && 0 in s.db.batches && s.db.batches[0].status == BatchProcessing
  {
    var cfg, s0 := Naming([7]), Init(map[], false);
    var planned := PLAN_ONE + [PlanClose(0)];
    var tried := [Deliver(0, 0), Gate(0, true)] + [Attempt(0), ExecuteError(0, true)];
    var again := [Deliver(1, 0), Gate(1, true)] + [Attempt(1)];
    PlansAndCloses();
    TriesAndErrs();
    GivesUp();
    IsTriedAgain();
    RunAppend(cfg, s0, planned + tried + [MarkFailed(0), Finalise(0)], again);
    RunAppend(cfg, s0, planned + tried, [MarkFailed(0), Finalise(0)]);
    RunAppend(cfg, s0, planned, tried);
  }

  // ----- Double accounting ---------------------------------------------------------------

  const TWO := map[0 := PENDING7, 1 := NewRow(Single(8))]

  lemma InsertTwo()
    ensures InsertBatches(map[], 0, [Single(7), Single(8)]) == TWO
  {
    assert [Single(7), Single(8)][..1] == [Single(7)] && [Single(7)][..0] == [];
    assert InsertBatches(map[], 0, []) == map[];
    assert InsertBatches(map[], 0, [Single(7)]) == map[0 := PENDING7];
  }

  const READ_TWO := [PlanOpen(0), PlanPage(0)] + [PlanPage(0)]
  const PLAN_TWO := READ_TWO + [PlanPage(0), PlanFlush(0)] + [PlanClose(0)]

  lemma ReadsFirst(ids: seq<Id>, plan: seq<PlannedBatch>)
    requires plan == Planning.ChunkPlan(Planning.Distinct(ids), 1) && 0 < |plan| < 100 && plan[0].entityCount == 1
    ensures Run(Naming(ids), Init(map[], false), [PlanOpen(0), PlanPage(0)]) == Reading(plan, 1)
  {
    Run2(Naming(ids), Init(map[], false), PlanOpen(0), PlanPage(0));
    Opens(ids, plan);
    ReadsOne(ids, plan, 0);
  }

  lemma ReadsTwo()
    ensures Run(Naming([7, 8]), Init(map[], false), READ_TWO) == Reading([Single(7), Single(8)], 2)
  {
    var cfg, s0, plan := Naming([7, 8]), Init(map[], false), [Single(7), Single(8)];
    DistinctOneTwo();
    PlanOfTwo(7, 8);
    ReadsFirst([7, 8], plan);
    ReadsOne([7, 8], plan, 1);
    RunAppend(cfg, s0, [PlanOpen(0), PlanPage(0)], [PlanPage(0)]);
    Run1(cfg, Reading(plan, 1), PlanPage(0));
  }

  lemma PlansTwo()
    ensures Run(Naming([7, 8]), Init(map[], false), PLAN_TWO) ==
            At0(ActionRow(Processing, 2, 2, 0, 0, 0, 0, 0), TWO, [], map[], map[], Past([], true, 0))
  {
    var cfg, s0, plan := Naming([7, 8]), Init(map[], false), [Single(7), Single(8)];
    ReadsTwo();
    RunAppend(cfg, s0, READ_TWO + [PlanPage(0), PlanFlush(0)], [PlanClose(0)]);
    RunAppend(cfg, s0, READ_TWO, [PlanPage(0), PlanFlush(0)]);
    FlushesTwo();
    ClosesTwo(FLUSHED_TWO);
  }

  const FLUSHED_TWO :=
    At0(Fresh(ActionStatus.Planning), TWO, [], map[0 := Planner(None, 2, 2, [], true)], map[], Past([], false, 0))

  lemma FlushesTwo()
    ensures Run(Naming([7, 8]), Reading([Single(7), Single(8)], 2), [PlanPage(0), PlanFlush(0)]) == FLUSHED_TWO
  {
    var cfg, plan := Naming([7, 8]), [Single(7), Single(8)];
    Run2(cfg, Reading(plan, 2), PlanPage(0), PlanFlush(0));
    DistinctOneTwo();
    PlanOfTwo(7, 8);
    ReadsLast([7, 8], plan);
    InsertTwo();
  }

  lemma ClosesTwo(s: State)
    requires s == FLUSHED_TWO
    ensures Run(Naming([7, 8]), s, [PlanClose(0)]) ==
            At0(ActionRow(Processing, 2, 2, 0, 0, 0, 0, 0), TWO, [], map[], map[], Past([], true, 0))
  {
    Run1(Naming([7, 8]), s, PlanClose(0));
    assert s.planners - {0} == map[];
  }

  const DOUBLE_RUN := PLAN_TWO + WORK + [FinaliseError(0, true), MarkFailed(0)] + [Finalise(0)]

  lemma DoubleRunEnds()
    ensures Run(Naming([7, 8]), Init(map[], false), DOUBLE_RUN) ==
            At0(ActionRow(CompletedWithErrors, 2, 2, 2, 0, 1, 1, 2),
                TWO[0 := DONE7.(status := BatchFailed, failure := 1)],
                [LOG7, LogRow(0, BATCH_ERROR)], map[], map[], Past([ACC7, Accounting(0, 1, 1, false)], true, 1))
  {
    var cfg, s0 := Naming([7, 8]), Init(map[], false);
    PlansTwo();
    var planned := Run(cfg, s0, PLAN_TWO);
    RunAppend(cfg, s0, PLAN_TWO + WORK + [FinaliseError(0, true), MarkFailed(0)], [Finalise(0)]);
    RunAppend(cfg, s0, PLAN_TWO + WORK, [FinaliseError(0, true), MarkFailed(0)]);
    RunAppend(cfg, s0, PLAN_TWO, WORK);
    Works([7, 8], planned.db.action, TWO, map[], true);
    var worked := Run(cfg, planned, WORK);
    FailsAgain(worked);
    var failed := Run(cfg, worked, [FinaliseError(0, true), MarkFailed(0)]);
    Run1(cfg, failed, Finalise(0));
    assert failed.jobs - {0} == map[];
  }

  lemma FailsAgain(s: State)
    requires s == At0(ActionRow(Processing, 2, 2, 1, 0, 0, 1, 1), TWO[0 := DONE7], [LOG7], map[],
             map[0 := Job(0, 1, AtFinalise)], Past([ACC7], true, 1))
    ensures Run(Naming([7, 8]), s, [FinaliseError(0, true), MarkFailed(0)]) ==
            At0(ActionRow(Processing, 2, 2, 2, 0, 1, 1, 2), TWO[0 := DONE7.(status := BatchFailed, failure := 1)],
                [LOG7, LogRow(0, BATCH_ERROR)], map[], map[0 := Job(0, 1, AtLastFinalise)],
                Past([ACC7, Accounting(0, 1, 1, false)], true, 1))
  {
    Run2(Naming([7, 8]), s, FinaliseError(0, true), MarkFailed(0));
    CountLost(1);
    assert [LOG7] + Tagged(0, Lost(1)) == [LOG7, LogRow(0, BATCH_ERROR)];
    assert [ACC7] + [Accounting(0, 1, 1, false)] == [ACC7, Accounting(0, 1, 1, false)];
  }

  /** Without one accounting per batch the finishing guarantee fails: if the block after a committed
      batch raises on the last try, the batch is accounted a second time, as failed, and the action
      closes with another batch that no worker ever touched. */
  lemma DoubleAccountingClosesEarly()
    ensures var s := Run(Naming([7, 8]), Init(map[], false), DOUBLE_RUN);
            s.past.plansOpened == 1 && !AccountedOnce(s.past.accountings)
            && s.db.action.status == CompletedWithErrors
            && !AllAccounted(s) && 1 in s.db.batches && s.db.batches[1].status == BatchPending
  {
    DoubleRunEnds();
    var acc := Run(Naming([7, 8]), Init(map[], false), DOUBLE_RUN).past.accountings;
    assert acc[0].index == 0 && acc[1].index == 0;
    assert 1 !in Indices(acc);
  }

  // ----- Re-planning after a change ------------------------------------------------------

  const EVERYTHING := Config(Descriptor(true, true), 1, Update(map[]), (r: EntityRow) => true, None, None, 1, false)
  const ROW := EntityRow(1, map[], None, 0)
  const SEVEN: PlannedBatch := PlannedBatch([], 7, 7, 1)

  function Table7(pls: map<nat, Planner>, m: map<nat, BatchRow>): State {
    State(Db(Fresh(ActionStatus.Planning), m, [], {}, map[7 := ROW]), pls, map[], Past([], false, 0))
  }

  lemma TargetsOfOne()
    ensures TargetSet(EVERYTHING, map[7 := ROW]) == {7}
  {
    assert Live(EVERYTHING, ROW) && EVERYTHING.filter(ROW);
  }

  lemma PagesOfOne()
    ensures Planning.Page(Planning.Beyond({7}, None), 1) == [7]
    ensures Planning.Page(Planning.Beyond({7}, Some(7)), 1) == []
  {
    assert Planning.Beyond({7}, None) == {7};
    var p := Planning.Page({7}, 1);
    assert |p| == 1 && p[0] in p;
    assert Planning.Beyond({7}, Some(7)) == {};
  }

  lemma ReadsSeven()
    ensures ReadPage(EVERYTHING, map[7 := ROW], Planner(None, 0, 0, [], false))
            == Planner(Some(7), 1, 1, [SEVEN], false)
    ensures ReadPage(EVERYTHING, map[7 := ROW], Planner(Some(7), 1, 1, [SEVEN], false))
            == Planner(Some(7), 1, 1, [SEVEN], true)
  {
    TargetsOfOne();
    PagesOfOne();
  }

  const FIRST_PASS := [PlanOpen(0), PlanPage(0)] + [PlanPage(0), PlanFlush(0)]

  lemma FirstPassReads()
    ensures Run(EVERYTHING, Init(map[7 := ROW], false), [PlanOpen(0), PlanPage(0)])
            == Table7(map[0 := Planner(Some(7), 1, 1, [SEVEN], false)], map[])
  {
    Run2(EVERYTHING, Init(map[7 := ROW], false), PlanOpen(0), PlanPage(0));
    ReadsSeven();
    var begun := Step(EVERYTHING, Init(map[7 := ROW], false), PlanOpen(0));
    assert begun == Table7(map[0 := Planner(None, 0, 0, [], false)], map[]);
    assert begun.planners[0 := Planner(Some(7), 1, 1, [SEVEN], false)]
        == map[0 := Planner(Some(7), 1, 1, [SEVEN], false)];
  }

  lemma FirstPassFlushes()
    ensures Run(EVERYTHING, Table7(map[0 := Planner(Some(7), 1, 1, [SEVEN], false)], map[]),
            [PlanPage(0), PlanFlush(0)])
            == Table7(map[0 := Planner(Some(7), 1, 1, [], true)], map[0 := NewRow(SEVEN)])
  {
    var s := Table7(map[0 := Planner(Some(7), 1, 1, [SEVEN], false)], map[]);
    Run2(EVERYTHING, s, PlanPage(0), PlanFlush(0));
    ReadsSeven();
    var seen := Step(EVERYTHING, s, PlanPage(0));
    assert seen == Table7(map[0 := Planner(Some(7), 1, 1, [SEVEN], true)], map[]);
    assert InsertBatches(map[], 0, [SEVEN]) == map[0 := NewRow(SEVEN)] by {
      assert [SEVEN][..0] == [] && InsertBatches(map[], 0, []) == map[];
    }
    assert seen.planners[0 := Planner(Some(7), 1, 1, [], true)] == map[0 := Planner(Some(7), 1, 1, [], true)];
  }

  // The pass dies before it closes, and the only target disappears.
  const INTERRUPTION := [PlanCrash(0), OutsideWrite(map[])]

  function Emptied(st: ActionStatus, pls: map<nat, Planner>, passes: nat): State {
    State(Db(Fresh(st), map[0 := NewRow(SEVEN)], [], {}, map[]), pls, map[], History([], passes, false, 0, [], []))
  }

  lemma Interrupted()
    ensures Run(EVERYTHING, Table7(map[0 := Planner(Some(7), 1, 1, [], true)], map[0 := NewRow(SEVEN)]), INTERRUPTION)
            == Emptied(ActionStatus.Planning, map[], 1)
  {
    var s := Table7(map[0 := Planner(Some(7), 1, 1, [], true)], map[0 := NewRow(SEVEN)]);
    Run2(EVERYTHING, s, PlanCrash(0), OutsideWrite(map[]));
    assert s.planners - {0} == map[];
  }

  const SECOND_PASS := [PlanOpen(1), PlanPage(1)] + [PlanClose(1)]

  lemma SecondPassReads()
    ensures Run(EVERYTHING, Emptied(ActionStatus.Planning, map[], 1), [PlanOpen(1), PlanPage(1)])
            == Emptied(ActionStatus.Planning, map[1 := Planner(None, 0, 0, [], true)], 2)
  {
    var s := Emptied(ActionStatus.Planning, map[], 1);
    Run2(EVERYTHING, s, PlanOpen(1), PlanPage(1));
    assert Step(EVERYTHING, s, PlanOpen(1))
        == Emptied(ActionStatus.Planning, map[1 := Planner(None, 0, 0, [], false)], 2);
    assert TargetSet(EVERYTHING, map[]) == {};
    assert Planning.Beyond({}, None) == {};
  }

  lemma SecondPassCloses()
    ensures Run(EVERYTHING, Emptied(ActionStatus.Planning, map[1 := Planner(None, 0, 0, [], true)], 2), [PlanClose(1)])
            == Emptied(Completed, map[], 2)
  {
    var s := Emptied(ActionStatus.Planning, map[1 := Planner(None, 0, 0, [], true)], 2);
    Run1(EVERYTHING, s, PlanClose(1));
    assert s.planners - {1} == map[];
  }

  const CHANGED_RUN := FIRST_PASS + INTERRUPTION + SECOND_PASS

  /** Without an unchanged target set, re-planning does not converge: a pass that crashed left a row,
      the second pass finds nothing and completes the action, and that row's batch never ran. */
  lemma ChangedTargetLeavesOldRows()
    ensures var s := Run(EVERYTHING, Init(map[7 := ROW], false), CHANGED_RUN);
            s.db.action.status == Completed && s.db.action.totalBatches == 0
            && 0 in s.db.batches && s.db.batches[0].status == BatchPending
            && AccountedOnce(s.past.accountings) && !AllAccounted(s)
  {
    var s0 := Init(map[7 := ROW], false);
    RunAppend(EVERYTHING, s0, FIRST_PASS + INTERRUPTION, SECOND_PASS);
    RunAppend(EVERYTHING, s0, FIRST_PASS, INTERRUPTION);
    RunAppend(EVERYTHING, s0, [PlanOpen(0), PlanPage(0)], [PlanPage(0), PlanFlush(0)]);
    FirstPassReads();
    FirstPassFlushes();
    Interrupted();
    RunAppend(EVERYTHING, Emptied(ActionStatus.Planning, map[], 1), [PlanOpen(1), PlanPage(1)], [PlanClose(1)]);
    SecondPassReads();
    SecondPassCloses();
    assert 0 !in Indices([]);
  }
}
