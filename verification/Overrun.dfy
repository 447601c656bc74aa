/**
 The gate charges the planned count: a row that another writer adds inside a planned range runs on
 the batch's admission.  One account, limit two, a delete of everything: two entities are planned and
 admitted, three are deleted, in the same millisecond.
 */
module Overrun {
  import opened Domain
  import opened BatchRunner
  import opened Store
  import opened Protocol
  import opened Sums
  import opened TokenBucket
  import opened Throughput
  import opened RowThroughput
  import opened Counterexamples
  import Planning

  const CLEAR := Config(Descriptor(false, false), 1, Delete(true), (r: EntityRow) => true, None, None, 2, false)
  const BEFORE: Table := map[7 := ROW, 9 := ROW]
  const AFTER: Table := map[7 := ROW, 8 := ROW, 9 := ROW]
  const RANGE := PlannedBatch([], 7, 9, 2)

  // ----- Planning two ----------------------------------------------------------------------

  lemma TwoTargets()
    ensures TargetSet(CLEAR, BEFORE) == {7, 9}
  {}

  lemma PageOfTwo(s: set<Id>)
    requires s == {7, 9}
    ensures Planning.Page(s, 2) == [7, 9]
  {
    var p := Planning.Page(s, 2);
    assert |s| == 2;
    assert p[0] in p && p[1] in p;
  }

  lemma ReadsRange()
    ensures ReadPage(CLEAR, BEFORE, Planner(None, 0, 0, [], false)) == Planner(Some(9), 2, 1, [RANGE], false)
    ensures ReadPage(CLEAR, BEFORE, Planner(Some(9), 2, 1, [RANGE], false)) == Planner(Some(9), 2, 1, [RANGE], true)
  {
    TwoTargets();
    assert Planning.Beyond({7, 9}, None) == {7, 9};
    PageOfTwo({7, 9});
    assert Planning.Beyond({7, 9}, Some(9)) == {};
  }

  function Clearing(st: ActionStatus, totals: nat, rows: map<nat, BatchRow>, t: Table, pls: map<nat, Planner>,
                    jobs: map<nat, Job>, started: bool, admitted: nat): State {
    State(Db(ActionRow(st, 2 * totals, totals, 0, 0, 0, 0, 0), rows, [], {}, t), pls, jobs,
          History([], 1, started, admitted, [], []))
  }

  const PLANNING := ActionStatus.Planning

  lemma Opens2()
    ensures Step(CLEAR, Init(BEFORE, false), PlanOpen(0))
            == Clearing(PLANNING, 0, map[], BEFORE, map[0 := Planner(None, 0, 0, [], false)], map[], false, 0)
  {}

  lemma Reads2(pl: Planner, pl': Planner)
    requires ReadPage(CLEAR, BEFORE, pl) == pl' && !pl.exhausted && !CanFlush(pl)
    ensures Step(CLEAR, Clearing(PLANNING, 0, map[], BEFORE, map[0 := pl], map[], false, 0), PlanPage(0))
            == Clearing(PLANNING, 0, map[], BEFORE, map[0 := pl'], map[], false, 0)
  {
    assert map[0 := pl][0 := pl'] == map[0 := pl'];
  }

  lemma Flushes2()
    ensures Step(CLEAR, Clearing(PLANNING, 0, map[], BEFORE, map[0 := Planner(Some(9), 2, 1, [RANGE], true)], map[],
            false, 0),
                 PlanFlush(0))
            == Clearing(PLANNING, 0, map[0 := NewRow(RANGE)], BEFORE, map[0 := Planner(Some(9), 2, 1, [], true)],
                map[], false, 0)
  {
    assert InsertBatches(map[], 0, [RANGE]) == map[0 := NewRow(RANGE)] by {
      assert [RANGE][..0] == [] && InsertBatches(map[], 0, []) == map[];
    }
    assert map[0 := Planner(Some(9), 2, 1, [RANGE], true)][0 := Planner(Some(9), 2, 1, [], true)]
        == map[0 := Planner(Some(9), 2, 1, [], true)];
  }

  lemma Closes2()
    ensures Step(CLEAR, Clearing(PLANNING, 0, map[0 := NewRow(RANGE)], BEFORE,
            map[0 := Planner(Some(9), 2, 1, [], true)],
                                 map[], false, 0), PlanClose(0))
            == Clearing(Processing, 1, map[0 := NewRow(RANGE)], BEFORE, map[], map[], true, 0)
  {
    assert map[0 := Planner(Some(9), 2, 1, [], true)] - {0} == map[];
  }

  const PLAN2 := [PlanOpen(0), PlanPage(0)] + [PlanPage(0), PlanFlush(0)] + [PlanClose(0)]

  lemma Plans2()
    ensures Run(CLEAR, Init(BEFORE, false), PLAN2)
            == Clearing(Processing, 1, map[0 := NewRow(RANGE)], BEFORE, map[], map[], true, 0)
  {
    var s0 := Init(BEFORE, false);
    var empty, one, all := Planner(None, 0, 0, [], false), Planner(Some(9), 2, 1, [RANGE], false),
        Planner(Some(9), 2, 1, [RANGE], true);
    RunAppend(CLEAR, s0, [PlanOpen(0), PlanPage(0)] + [PlanPage(0), PlanFlush(0)], [PlanClose(0)]);
    RunAppend(CLEAR, s0, [PlanOpen(0), PlanPage(0)], [PlanPage(0), PlanFlush(0)]);
    ReadsRange();
    Run2(CLEAR, s0, PlanOpen(0), PlanPage(0));
    Opens2();
    Reads2(empty, one);
    var read := Clearing(PLANNING, 0, map[], BEFORE, map[0 := one], map[], false, 0);
    Run2(CLEAR, read, PlanPage(0), PlanFlush(0));
    Reads2(one, all);
    Flushes2();
    var flushed := Clearing(PLANNING, 0, map[0 := NewRow(RANGE)], BEFORE, map[0 := Planner(Some(9), 2, 1, [], true)],
        map[], false, 0);
    Run1(CLEAR, flushed, PlanClose(0));
    Closes2();
  }

  // ----- Another writer, and a delivery ----------------------------------------------------

  const ADDED := [OutsideWrite(AFTER), Deliver(0, 0)]

  function AtTheGate(pc: Pc, row: BatchRow, admitted: nat): State {
    Clearing(Processing, 1, map[0 := row], AFTER, map[], map[0 := Job(0, 2, pc)], true, admitted)
  }

  lemma Adds()
    ensures Run(CLEAR, Clearing(Processing, 1, map[0 := NewRow(RANGE)], BEFORE, map[], map[], true, 0), ADDED)
            == AtTheGate(AtGate, NewRow(RANGE), 0)
  {
    Run2(CLEAR, Clearing(Processing, 1, map[0 := NewRow(RANGE)], BEFORE, map[], map[], true, 0), OutsideWrite(AFTER),
        Deliver(0, 0));
  }

  lemma Admits()
    ensures Step(CLEAR, AtTheGate(AtGate, NewRow(RANGE), 0), Gate(0, true)) == AtTheGate(Admitted, NewRow(RANGE), 2)
  {
    assert map[0 := Job(0, 2, AtGate)][0 := Job(0, 2, Admitted)] == map[0 := Job(0, 2, Admitted)];
  }

  const DELETED := [Attempt(0), Execute(0, 0)]

  lemma LoadsThree(t: Table)
    requires t == AFTER
    ensures |LoadRows(CLEAR, t, RANGE)| == 3
  {
    SelectsThree(t);
    LoadRowsFacts(CLEAR, t, RANGE);
    Planning.SubsetCardinality({7, 8, 9}, SelectedIds(CLEAR, t, RANGE));
  }

  lemma SelectsThree(t: Table)
    requires t == AFTER
    ensures SelectedIds(CLEAR, t, RANGE) == {7, 8, 9}
  {
    forall id ensures id in SelectedIds(CLEAR, t, RANGE) <==> id in {7, 8, 9} {
      assert id in t ==> t[id] == ROW;
      assert Live(CLEAR, ROW) && CLEAR.filter(ROW);
    }
  }

  lemma DeletesThree(s: State, e: State)
    requires At(s, 0, Attempted) && s.jobs[0].index == 0 && WouldExecute(s.db, 0) && s.db.batches[0].work == RANGE
    requires s.db.entities == AFTER && s.past.accountings == [] && e == StepExecute(CLEAR, s, 0, 0)
    ensures e.past.accountings == [Accounting(0, 2, 3, true)] && |e.past.loaded| == |s.past.loaded| + 3
    ensures |e.db.logs| == |s.db.logs| + 3 && e.past.admitted == s.past.admitted
  {
    LoadsThree(s.db.entities);
    OutcomesTotal(CLEAR, s.db.entities, s.db.ledger, RANGE);
  }

  lemma Overruns()
    ensures var e := Run(CLEAR, AtTheGate(Admitted, NewRow(RANGE), 2), DELETED);
            e.past.accountings == [Accounting(0, 2, 3, true)] && |e.past.loaded| == 3 && |e.db.logs| == 3
            && e.past.admitted == 2
  {
    var s := AtTheGate(Admitted, NewRow(RANGE), 2);
    var tried := AtTheGate(Attempted, BatchRow(RANGE, BatchProcessing, 0, 0, 0, 1), 2);
    Tries2();
    DeletedRun(s, tried, StepExecute(CLEAR, tried, 0, 0));
    DeletesThree(tried, StepExecute(CLEAR, tried, 0, 0));
  }

  lemma DeletedRun(s: State, tried: State, done: State)
    requires tried == Step(CLEAR, s, Attempt(0)) && done == StepExecute(CLEAR, tried, 0, 0)
    ensures Run(CLEAR, s, DELETED) == done
  {
    Run2(CLEAR, s, Attempt(0), Execute(0, 0));
  }

  lemma Tries2()
    ensures Step(CLEAR, AtTheGate(Admitted, NewRow(RANGE), 2), Attempt(0))
            == AtTheGate(Attempted, BatchRow(RANGE, BatchProcessing, 0, 0, 0, 1), 2)
  {
    var tried := BatchRow(RANGE, BatchProcessing, 0, 0, 0, 1);
    assert map[0 := NewRow(RANGE)][0 := tried] == map[0 := tried];
    assert map[0 := Job(0, 2, Admitted)][0 := Job(0, 2, Attempted)] == map[0 := Job(0, 2, Attempted)];
  }

  // ----- The account -----------------------------------------------------------------------

  lemma GateOpens()
    ensures var x := Account(Absent, None, 0, map[0 := AtTheGate(AtGate, NewRow(RANGE), 0)]);
            Turns(Only(CLEAR), 2, x, [GateAt(0, 0, 0)])
            == Account(Stored(0, 0), Some(0), 0, map[0 := AtTheGate(Admitted, NewRow(RANGE), 2)])
  {
    var x := Account(Absent, None, 0, map[0 := AtTheGate(AtGate, NewRow(RANGE), 0)]);
    assert [GateAt(0, 0, 0)][..0] == [];
    Admits();
    assert map[0 := AtTheGate(AtGate, NewRow(RANGE), 0)][0 := AtTheGate(Admitted, NewRow(RANGE), 2)]
        == map[0 := AtTheGate(Admitted, NewRow(RANGE), 2)];
    assert Allows(2, Absent, Call(0, 2)) && Next(2, Absent, Call(0, 2)) == Stored(0, 0);
  }

  const OVERRUN := Others(PLAN2 + ADDED) + [GateAt(0, 0, 0)] + Others(DELETED)

  lemma SumOfOne(n: nat)
    ensures Sum(map[0 := n]) == n
  {
    SumSet(map[], 0, n);
    assert map[][0 := n] == map[0 := n];
  }

  /** One admission for two entities, three of them deleted: with no time passed since the first
      bucket call, the account is over its rate, and by the number of rows another writer added. */
  lemma OutsideRowsOverrunTheLimit()
    ensures var y := Turns(Only(CLEAR), 2, Account(Absent, None, 0, map[0 := Init(BEFORE, false)]), OVERRUN);
            y.first == Some(0) && y.clock == 0
            && Sum(ExecutedBy(y.actions)) == 2 && Sum(ReportedBy(y.actions)) == 3 && !WithinRate(2, 3, 0)
            && 0 in y.actions && |y.actions[0].past.loaded| == 3
  {
    var x := Account(Absent, None, 0, map[0 := Init(BEFORE, false)]);
    var cfgs := Only(CLEAR);
    TurnsAppend(cfgs, 2, x, Others(PLAN2 + ADDED) + [GateAt(0, 0, 0)], Others(DELETED));
    TurnsAppend(cfgs, 2, x, Others(PLAN2 + ADDED), [GateAt(0, 0, 0)]);
    OthersRun(CLEAR, 2, x, PLAN2 + ADDED);
    RunAppend(CLEAR, Init(BEFORE, false), PLAN2, ADDED);
    Plans2();
    Adds();
    GateOpens();
    var admitted := Account(Stored(0, 0), Some(0), 0, map[0 := AtTheGate(Admitted, NewRow(RANGE), 2)]);
    OthersRun(CLEAR, 2, admitted, DELETED);
    Overruns();
    CountsOfOverrun(Run(CLEAR, AtTheGate(Admitted, NewRow(RANGE), 2), DELETED));
  }

  lemma CountsOfOverrun(s: State)
    requires s.past.accountings == [Accounting(0, 2, 3, true)]
    ensures Sum(ExecutedBy(map[0 := s])) == 2 && Sum(ReportedBy(map[0 := s])) == 3
  {
    var acc := s.past.accountings;
    assert acc[..0] == [] && Executed([]) == 0 && Reported([]) == 0;
    assert ExecutedBy(map[0 := s]) == map[0 := 2] && ReportedBy(map[0 := s]) == map[0 := 3];
    SumOfOne(2);
    SumOfOne(3);
  }
}
