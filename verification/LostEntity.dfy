/**
 Re-planning without any outside writer can lose entities.  A hard delete of 101 rows, one per
 batch: the first pass dies after its first flush of 100 batches; a worker deletes the first row;
 the second pass then numbers the remaining rows 0 to 99, every insert conflicts with an old row, and
 the last entity belongs to no batch.  Nothing but another pass can ever reach it.
 */
module LostEntity {
  import opened Domain
  import Dedup
  import opened BatchRunner
  import opened Store
  import opened Protocol
  import opened BatchedMeaning
  import opened Alone
  import opened OnePass
  import opened Replanning
  import opened Counterexamples
  import Planning

  const PURGE := Config(Descriptor(false, false), 1, Delete(true), (r: EntityRow) => true, None, None, 1, false)
  const TOP: Id := 100

  predicate Listed(lo: Id, id: Id) {
    lo <= id <= TOP
  }

  // The rows with ids from `lo` to TOP.
  function From(lo: Id): Table {
    map id: Id | lo <= id <= TOP && Listed(lo, id) :: ROW
  }

  function One(id: Id): PlannedBatch {
    PlannedBatch([], id, id, 1)
  }

  function Ones(lo: Id, n: nat): seq<PlannedBatch> {
    seq(n, i requires 0 <= i < n => One(lo + i))
  }

  // ----- Reading pages -------------------------------------------------------------------

  lemma TargetsFrom(lo: Id)
    ensures forall id :: id in TargetSet(PURGE, From(lo)) <==> lo <= id <= TOP
  {}

  // The least element, and nothing else, is the page of one.
  lemma LeastIsPage(s: set<Id>, least: Id)
    requires least in s && forall x :: x in s ==> least <= x
    ensures Planning.Page(s, 1) == [least]
  {
    var p := Planning.Page(s, 1);
    Planning.SubsetCardinality({least}, s);
    assert |p| == 1 && p[0] in p && p[0] in s;
    assert p == [p[0]];
  }

  lemma NextPage(lo: Id, last: Option<Id>, next: Id)
    requires next == (if last.Some? then last.value + 1 else lo) && lo <= next <= TOP
    ensures Planning.Page(Planning.Beyond(TargetSet(PURGE, From(lo)), last), 1) == [next]
  {
    TargetsFrom(lo);
    LeastIsPage(Planning.Beyond(TargetSet(PURGE, From(lo)), last), next);
  }

  lemma NoMorePages(lo: Id)
    ensures Planning.Page(Planning.Beyond(TargetSet(PURGE, From(lo)), Some(TOP)), 1) == []
  {
    TargetsFrom(lo);
    assert Planning.Beyond(TargetSet(PURGE, From(lo)), Some(TOP)) == {};
  }

  // A planner that has read n pages from `lo` on and flushed none.
  function Reader(lo: Id, n: nat): Planner {
    Planner(if n == 0 then None else Some(lo + n - 1), n, n, Ones(lo, n), false)
  }

  lemma ReadsNext(lo: Id, n: nat)
    requires lo + n <= TOP
    ensures ReadPage(PURGE, From(lo), Reader(lo, n)) == Reader(lo, n + 1)
  {
    NextPage(lo, Reader(lo, n).last, lo + n);
    assert Ones(lo, n) + [One(lo + n)] == Ones(lo, n + 1);
  }

  function Pages(p: nat, n: nat): seq<Event> {
    seq(n, i => PlanPage(p))
  }

  lemma {:induction false} ReadsMany(s: State, p: nat, lo: Id, n: nat)
    requires s.db.entities == From(lo) && p in s.planners && s.planners[p] == Reader(lo, 0)
    requires n <= FLUSH_EVERY && lo + n <= TOP + 1
    ensures Run(PURGE, s, Pages(p, n)) == s.(planners := s.planners[p := Reader(lo, n)])
  {
    if n == 0 {
      assert s.planners[p := Reader(lo, 0)] == s.planners;
    } else {
      ReadsMany(s, p, lo, n - 1);
      assert Pages(p, n)[..n - 1] == Pages(p, n - 1);
      ReadsNext(lo, n - 1);
      OneMorePage(s, p, lo, n - 1);
    }
  }

  lemma OneMorePage(s: State, p: nat, lo: Id, n: nat)
    requires s.db.entities == From(lo) && n < FLUSH_EVERY && lo + n <= TOP
    requires ReadPage(PURGE, From(lo), Reader(lo, n)) == Reader(lo, n + 1)
    ensures StepPlanPage(PURGE, s.(planners := s.planners[p := Reader(lo, n)]), p)
            == s.(planners := s.planners[p := Reader(lo, n + 1)])
  {
    assert s.planners[p := Reader(lo, n)][p := Reader(lo, n + 1)] == s.planners[p := Reader(lo, n + 1)];
  }

  // ----- The first pass ------------------------------------------------------------------

  const FIRST := [PlanOpen(0)] + Pages(0, 100) + [PlanFlush(0), PlanCrash(0)]

  // Between the passes: one row per id from 0 to 99, nobody planning, `lo` the first id left.
  ghost predicate Halfway(s: State, lo: Id) {
    && s.db.entities == From(lo) && s.db.action.status == ActionStatus.Planning && s.planners == map[]
    && Prefix(s.db.batches, 100)
    && (forall i :: i in s.db.batches ==> s.db.batches[i].work == One(i))
  }

  lemma OpensAndReads(s: State, p: nat, lo: Id)
    requires s.planners == map[] && !s.db.action.status.Terminal() && s.db.entities == From(lo) && 0 <= lo <= 1
    ensures var e := Run(PURGE, s, [PlanOpen(p)] + Pages(p, 100));
            e == StepPlanOpen(s, p).(planners := map[p := Reader(lo, 100)])
  {
    var begun := StepPlanOpen(s, p);
    assert Run(PURGE, s, [PlanOpen(p)] + Pages(p, 100)) == Run(PURGE, begun, Pages(p, 100)) by {
      RunAppend(PURGE, s, [PlanOpen(p)], Pages(p, 100));
      Run1(PURGE, s, PlanOpen(p));
    }
    ReadsAlone(begun, p, lo, 100);
  }

  lemma ReadsAlone(s: State, p: nat, lo: Id, n: nat)
    requires s.planners == map[p := Planner(None, 0, 0, [], false)] && s.db.entities == From(lo)
    requires n <= FLUSH_EVERY && lo + n <= TOP + 1
    ensures Run(PURGE, s, Pages(p, n)) == s.(planners := map[p := Reader(lo, n)])
  {
    assert Ones(lo, 0) == [];
    ReadsMany(s, p, lo, n);
    assert s.planners[p := Reader(lo, n)] == map[p := Reader(lo, n)];
  }

  lemma FirstPass()
    ensures var s := Run(PURGE, Init(From(0), false), FIRST);
            Halfway(s, 0) && s.jobs == map[] && s.db.batches[0].status == BatchPending
  {
    var s0 := Init(From(0), false);
    OpensAndReads(s0, 0, 0);
    RunAppend(PURGE, s0, [PlanOpen(0)] + Pages(0, 100), [PlanFlush(0), PlanCrash(0)]);
    FlushesAndDies(StepPlanOpen(s0, 0).(planners := map[0 := Reader(0, 100)]));
  }

  lemma FlushesAndDies(s: State)
    requires s.planners == map[0 := Reader(0, 100)] && s.db.batches == map[] && s.jobs == map[]
    requires s.db.entities == From(0) && s.db.action.status == ActionStatus.Planning
    ensures var e := Run(PURGE, s, [PlanFlush(0), PlanCrash(0)]);
            Halfway(e, 0) && e.jobs == map[] && e.db.batches[0].status == BatchPending
  {
    Run2(PURGE, s, PlanFlush(0), PlanCrash(0));
    InsertBatchesKeeps(map[], 0, Ones(0, 100));
    assert FirstPending(Reader(0, 100)) == 0;
    assert StepPlanFlush(s, 0).planners - {0} == map[];
  }

  // ----- A worker deletes the first row --------------------------------------------------

  const WORKER := [Deliver(0, 0), Gate(0, true)] + [Attempt(0), Execute(0, 0)]

  lemma DeletesFirst(ledger: set<Dedup.Key>, now: int)
    ensures RunBatch(PURGE, From(0), ledger, One(0), now).entities == From(1)
  {
    var t := RunBatch(PURGE, From(0), ledger, One(0), now).entities;
    BatchMeetsExpect(PURGE, From(0), ledger, One(0), now, 0);
    assert 0 in SelectedIds(PURGE, From(0), One(0));
    assert View(t, 0) == None;
    forall id ensures (id in t <==> id in From(1)) && (id in t ==> t[id] == ROW) {
      if id != 0 {
        TouchesOnlyOwned(PURGE, From(0), ledger, One(0), now, id);
        assert SameAt(t, From(0), id);
        assert Listed(0, id) <==> Listed(1, id);
      }
    }
  }

  lemma WorkerDelivers(s: State)
    requires Halfway(s, 0) && s.jobs == map[]
    ensures var e := Run(PURGE, s, [Deliver(0, 0), Gate(0, true)]);
            PassesPreflight(s.db, 0) ==>
              At(e, 0, Admitted) && e.jobs[0].index == 0 && e.db == s.db && e.planners == s.planners
  {
    Run2(PURGE, s, Deliver(0, 0), Gate(0, true));
  }

  lemma WorkerDeletes(s: State, tried: State, done: State)
    requires Halfway(s, 0) && At(s, 0, Admitted) && s.jobs[0].index == 0 && s.db.batches[0].status == BatchPending
    requires tried == StepAttempt(s, 0) && done == StepExecute(PURGE, tried, 0, 0)
    ensures Halfway(done, 1)
  {
    Tries(s);
    Deletes(tried);
  }

  lemma Tries(s: State)
    requires Halfway(s, 0) && At(s, 0, Admitted) && s.jobs[0].index == 0 && s.db.batches[0].status == BatchPending
    ensures var e := StepAttempt(s, 0);
            Halfway(e, 0) && At(e, 0, Attempted) && e.jobs[0].index == 0 && WouldExecute(e.db, 0)
  {}

  lemma Deletes(s: State)
    requires Halfway(s, 0) && At(s, 0, Attempted) && s.jobs[0].index == 0 && WouldExecute(s.db, 0)
    ensures Halfway(StepExecute(PURGE, s, 0, 0), 1)
  {
    var s' := StepExecute(PURGE, s, 0, 0);
    assert s'.db.entities == From(1) by {
      assert s.db.batches[0].work == One(0);
      DeletesFirst(s.db.ledger, 0);
    }
    assert forall i :: i in s'.db.batches <==> i in s.db.batches;
    assert forall i :: i in s.db.batches ==> s'.db.batches[i].work == s.db.batches[i].work;
  }

  // ----- The second pass -----------------------------------------------------------------

  const SECOND := ([PlanOpen(1)] + Pages(1, 100)) + ([PlanFlush(1), PlanPage(1)] + [PlanClose(1)])

  // After the second pass: everything planned, as far as the action row can tell.
  ghost predicate Overlooked(s: State) {
    && s.db.action.status == Processing && s.db.action.totalBatches == 100 == s.db.action.totalEntities
    && s.planners == map[] && Prefix(s.db.batches, 100)
    && (forall i :: i in s.db.batches ==> !s.db.batches[i].work.Owns(TOP))
    && TOP in TargetSet(PURGE, s.db.entities)
  }

  lemma SecondFlush(s: State)
    requires s.planners == map[1 := Reader(1, 100)] && s.db.entities == From(1) && Prefix(s.db.batches, 100)
    ensures Run(PURGE, s, [PlanFlush(1), PlanPage(1)])
            == s.(planners := map[1 := Planner(Some(TOP), 100, 100, [], true)])
  {
    var flushed := s.(planners := map[1 := Planner(Some(TOP), 100, 100, [], false)]);
    Run2(PURGE, s, PlanFlush(1), PlanPage(1));
    FlushDoesNothing(s);
    FindsNothingMore(flushed);
  }

  // Every index is taken.
  lemma FlushDoesNothing(s: State)
    requires s.planners == map[1 := Reader(1, 100)] && Prefix(s.db.batches, 100)
    ensures StepPlanFlush(s, 1) == s.(planners := map[1 := Planner(Some(TOP), 100, 100, [], false)])
  {
    InsertBatchesKeeps(s.db.batches, 0, Ones(1, 100));
    assert FirstPending(Reader(1, 100)) == 0;
    assert InsertBatches(s.db.batches, 0, Ones(1, 100)) == s.db.batches;
    assert s.planners[1 := Planner(Some(TOP), 100, 100, [], false)]
        == map[1 := Planner(Some(TOP), 100, 100, [], false)];
  }

  lemma FindsNothingMore(s: State)
    requires s.planners == map[1 := Planner(Some(TOP), 100, 100, [], false)] && s.db.entities == From(1)
    ensures StepPlanPage(PURGE, s, 1) == s.(planners := map[1 := Planner(Some(TOP), 100, 100, [], true)])
  {
    NoMorePages(1);
    assert s.planners[1 := Planner(Some(TOP), 100, 100, [], true)] == map[1 := Planner(Some(TOP), 100, 100, [], true)];
  }

  lemma SecondClose(s: State)
    requires s.planners == map[1 := Planner(Some(TOP), 100, 100, [], true)]
             && s.db.action.status == ActionStatus.Planning
    requires s.db.entities == From(1) && Prefix(s.db.batches, 100)
    requires forall i :: i in s.db.batches ==> s.db.batches[i].work == One(i)
    ensures Overlooked(Run(PURGE, s, [PlanClose(1)]))
  {
    Run1(PURGE, s, PlanClose(1));
    assert s.planners - {1} == map[];
    TargetsFrom(1);
  }

  lemma SecondPass(s: State)
    requires Halfway(s, 1)
    ensures Overlooked(Run(PURGE, s, SECOND))
  {
    OpensAndReads(s, 1, 1);
    var reading := [PlanOpen(1)] + Pages(1, 100);
    RunAppend(PURGE, s, reading, [PlanFlush(1), PlanPage(1)] + [PlanClose(1)]);
    var read := StepPlanOpen(s, 1).(planners := map[1 := Reader(1, 100)]);
    RunAppend(PURGE, read, [PlanFlush(1), PlanPage(1)], [PlanClose(1)]);
    SecondFlush(read);
    SecondClose(read.(planners := map[1 := Planner(Some(TOP), 100, 100, [], true)]));
  }

  // ----- The whole run -------------------------------------------------------------------

  const LOSING_RUN := FIRST + WORKER + SECOND

  // As long as nobody plans again and nobody else writes, an unowned entity stays as it is.
  lemma {:induction false} NobodyReachesIt(cfg: Config, s: State, es: seq<Event>, id: Id)
    requires cfg.batchSize >= 1 && s.planners == map[] && NoOutsideWrite(es)
    requires forall k :: 0 <= k < |es| ==> !es[k].PlanOpen?
    requires forall i :: i in s.db.batches ==> !s.db.batches[i].work.Owns(id)
    ensures var s' := Run(cfg, s, es);
            s'.planners == map[] && SameAt(s'.db.entities, s.db.entities, id)
            && forall i :: i in s'.db.batches ==> !s'.db.batches[i].work.Owns(id)
  {
    if es != [] {
      var n := |es| - 1;
      NobodyReachesIt(cfg, s, es[..n], id);
      NobodyReachesItStep(cfg, Run(cfg, s, es[..n]), es[n], id);
    }
  }

  lemma NobodyReachesItStep(cfg: Config, s: State, e: Event, id: Id)
    requires cfg.batchSize >= 1 && s.planners == map[] && !e.OutsideWrite? && !e.PlanOpen?
    requires forall i :: i in s.db.batches ==> !s.db.batches[i].work.Owns(id)
    ensures var s' := Step(cfg, s, e);
            s'.planners == map[] && SameAt(s'.db.entities, s.db.entities, id)
            && forall i :: i in s'.db.batches ==> !s'.db.batches[i].work.Owns(id)
  {
    if Executes(s, e) {
      var b := s.db.batches[s.jobs[e.j].index].work;
      TouchesOnlyOwned(cfg, s.db.entities, s.db.ledger, b, e.now, id);
    } else if !MarksFailed(s, e) {
      OthersAreQuiet(cfg, s, e);
    }
    if e.PlanFlush? {
      assert Step(cfg, s, e) == s;
    } else {
      SameRows(cfg, s, e);
    }
    if e.PlanPage? || e.PlanClose? {
      assert Step(cfg, s, e) == s;
    } else if !e.PlanFlush? {
      OtherStepLeavesPlanners(cfg, s, e);
      assert Step(cfg, s, e).planners == map[];
    }
  }

  /** Nobody else writes, the action counts 100 entities in 100 batches and reads `processing`; and
      one target is in no batch.  It is still there after every continuation that does not plan
      again, so also when the action finishes. */
  lemma ReplanningLosesAnEntity(more: seq<Event>)
    requires NoOutsideWrite(more) && forall k :: 0 <= k < |more| ==> !more[k].PlanOpen?
    ensures var s := Run(PURGE, Init(From(0), false), LOSING_RUN);
            NoOutsideWrite(LOSING_RUN) && Overlooked(s)
            && TOP in Run(PURGE, s, more).db.entities
  {
    LosingRunOverlooks();
    StaysOverlooked(Run(PURGE, Init(From(0), false), LOSING_RUN), more);
    NobodyElseWrites();
  }

  lemma StaysOverlooked(s: State, more: seq<Event>)
    requires Overlooked(s) && NoOutsideWrite(more) && forall k :: 0 <= k < |more| ==> !more[k].PlanOpen?
    ensures TOP in Run(PURGE, s, more).db.entities
  {
    NobodyReachesIt(PURGE, s, more, TOP);
  }

  lemma NobodyElseWrites()
    ensures NoOutsideWrite(LOSING_RUN)
  {}

  lemma LosingRunOverlooks()
    ensures Overlooked(Run(PURGE, Init(From(0), false), LOSING_RUN))
  {
    var s0 := Init(From(0), false);
    RunAppend(PURGE, s0, FIRST + WORKER, SECOND);
    RunAppend(PURGE, s0, FIRST, WORKER);
    FirstPass();
    Works0(Run(PURGE, s0, FIRST));
    SecondPass(Run(PURGE, Run(PURGE, s0, FIRST), WORKER));
  }

  lemma Works0(s: State)
    requires Halfway(s, 0) && s.jobs == map[] && s.db.batches[0].status == BatchPending
    ensures Halfway(Run(PURGE, s, WORKER), 1)
  {
    RunAppend(PURGE, s, [Deliver(0, 0), Gate(0, true)], [Attempt(0), Execute(0, 0)]);
    WorkerDelivers(s);
    var mid := Run(PURGE, s, [Deliver(0, 0), Gate(0, true)]);
    var tried := StepAttempt(mid, 0);
    var done := StepExecute(PURGE, tried, 0, 0);
    WorkerDeletes(mid, tried, done);
    TwoSteps(mid, tried, done);
  }

  lemma TwoSteps(s: State, tried: State, done: State)
    requires tried == StepAttempt(s, 0) && done == StepExecute(PURGE, tried, 0, 0)
    ensures Run(PURGE, s, [Attempt(0), Execute(0, 0)]) == done
  {
    Run2(PURGE, s, Attempt(0), Execute(0, 0));
  }
}
