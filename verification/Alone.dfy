/**
 Runs in which nobody but the action itself writes the entity table.  The workers of a delete, or
 of an update that moves rows out of its own filter, do change the target set while the planner is
 still walking; but only behind the walk.  So the plan is the plan of the table at the start, and
 the table is at every moment what one statement over the executed batches would have left.
 */
module Alone {
  import opened Domain
  import opened Dedup
  import opened BatchRunner
  import opened Store
  import opened Protocol
  import opened OnePass
  import opened Closing
  import opened Finishing
  import opened Replanning
  import opened Walking
  import opened BatchedMeaning
  import opened DedupOrder
  import opened DedupRuns
  import opened LogBook
  import BatchSizes
  import Sums
  import Handlers
  import Planning

  predicate NoOutsideWrite(es: seq<Event>) {
    forall k :: 0 <= k < |es| ==> !es[k].OutsideWrite?
  }

  // ----- The walk is not disturbed -------------------------------------------------------

  predicate SeesTarget(cfg: Config, t0: Table, t: Table, last: Option<Id>) {
    Planning.Beyond(TargetSet(cfg, t), last) == Planning.Beyond(TargetSet(cfg, t0), last)
  }

  ghost predicate StillTarget(cfg: Config, t0: Table, s: State) {
    && (s.past.plansOpened == 0 ==> s.db.entities == t0)
    && forall p :: p in s.planners ==> SeesTarget(cfg, t0, s.db.entities, s.planners[p].last)
  }

  lemma FurtherOn(cfg: Config, t0: Table, t: Table, last: Option<Id>, next: Option<Id>)
    requires SeesTarget(cfg, t0, t, last) && (last.Some? ==> next.Some? && last.value <= next.value)
    ensures SeesTarget(cfg, t0, t, next)
  {
    var a, b := TargetSet(cfg, t), TargetSet(cfg, t0);
    forall x ensures x in Planning.Beyond(a, next) <==> x in Planning.Beyond(b, next) {
      assert x in Planning.Beyond(a, last) <==> x in Planning.Beyond(b, last);
    }
  }

  lemma ExecutesBehind(cfg: Config, t: Table, ledger: set<Key>, b: PlannedBatch, now: int, last: Option<Id>)
    requires Behind(b, last)
    ensures SeesTarget(cfg, t, RunBatch(cfg, t, ledger, b, now).entities, last)
  {
    var t' := RunBatch(cfg, t, ledger, b, now).entities;
    forall x ensures x in Planning.Beyond(TargetSet(cfg, t'), last) <==> x in Planning.Beyond(TargetSet(cfg, t), last) {
      if x > last.value {
        TouchesOnlyOwned(cfg, t, ledger, b, now, x);
      }
    }
  }

  lemma ExecuteStillTarget(cfg: Config, t0: Table, s: State, j: nat, now: int)
    requires StillTarget(cfg, t0, s) && Walks(s) && PassOk(s)
    requires At(s, j, Attempted) && WouldExecute(s.db, s.jobs[j].index)
    ensures StillTarget(cfg, t0, StepExecute(cfg, s, j, now))
  {
    var b := s.db.batches[s.jobs[j].index].work;
    assert s.jobs[j].index in s.db.batches.Keys;
    forall p | p in s.planners
      ensures SeesTarget(cfg, t0, StepExecute(cfg, s, j, now).db.entities, s.planners[p].last)
    {
      assert HasPassed(s.db.batches, s.planners[p]);
      ExecutesBehind(cfg, s.db.entities, s.db.ledger, b, now, s.planners[p].last);
    }
  }

  lemma PageStillTarget(cfg: Config, t0: Table, s: State, p: nat)
    requires cfg.batchSize >= 1 && cfg.explicitIds.None? && StillTarget(cfg, t0, s) && Walks(s)
    ensures StillTarget(cfg, t0, StepPlanPage(cfg, s, p))
  {
    if p in s.planners {
      var pl := s.planners[p];
      FilterPageAhead(cfg, s.db.entities, s.db.batches, pl);
      FurtherOn(cfg, t0, s.db.entities, pl.last, ReadPage(cfg, s.db.entities, pl).last);
    }
  }

  lemma StepStillTarget(cfg: Config, t0: Table, s: State, e: Event)
    requires cfg.batchSize >= 1 && cfg.explicitIds.None? && StillTarget(cfg, t0, s) && Walks(s) && PassOk(s)
    requires !e.OutsideWrite? && Step(cfg, s, e).past.plansOpened <= 1
    ensures StillTarget(cfg, t0, Step(cfg, s, e))
  {
    if Executes(s, e) {
      ExecuteStillTarget(cfg, t0, s, e.j, e.now);
    } else {
      if !MarksFailed(s, e) {
        OthersAreQuiet(cfg, s, e);
      }
      match e {
        case PlanOpen(_) =>
        case PlanPage(p) => PageStillTarget(cfg, t0, s, p);
        case PlanFlush(_) =>
        case PlanClose(_) =>
        case _ =>
          OtherStepLeavesPlanners(cfg, s, e);
          PassesOnlyGrow(cfg, s, e);
      }
    }
  }

  lemma {:induction false} AlwaysStillTarget(cfg: Config, t0: Table, scheduled: bool, es: seq<Event>)
    requires cfg.batchSize >= 1 && cfg.explicitIds.None? && NoOutsideWrite(es)
    requires Run(cfg, Init(t0, scheduled), es).past.plansOpened <= 1
    ensures StillTarget(cfg, t0, Run(cfg, Init(t0, scheduled), es))
  {
    if es != [] {
      var n := |es| - 1;
      var before := Run(cfg, Init(t0, scheduled), es[..n]);
      PassesOnlyGrow(cfg, before, es[n]);
      AlwaysStillTarget(cfg, t0, scheduled, es[..n]);
      AlwaysWalks(cfg, t0, scheduled, es[..n]);
      AlwaysPassOk(cfg, t0, scheduled, es[..n]);
      StepStillTarget(cfg, t0, before, es[n]);
    }
  }

  /** Without an outside writer the page reads of one pass see the target set of the table at the
      start, however far the workers have got: the hypothesis of `ReplanningConverges`. */
  lemma {:induction false} AloneIsStable(cfg: Config, t0: Table, scheduled: bool, es: seq<Event>)
    requires cfg.batchSize >= 1 && NoOutsideWrite(es)
    requires cfg.explicitIds.None? ==> Run(cfg, Init(t0, scheduled), es).past.plansOpened <= 1
    ensures StableRun(cfg, TargetSet(cfg, t0), Init(t0, scheduled), es)
  {
    if es != [] && cfg.explicitIds.None? {
      var n, s0 := |es| - 1, Init(t0, scheduled);
      PassesOnlyGrow(cfg, Run(cfg, s0, es[..n]), es[n]);
      AloneIsStable(cfg, t0, scheduled, es[..n]);
      AlwaysStillTarget(cfg, t0, scheduled, es[..n]);
      StableSnoc(cfg, TargetSet(cfg, t0), s0, es, n);
    }
  }

  lemma StableSnoc(cfg: Config, target: set<Id>, s: State, es: seq<Event>, n: nat)
    requires cfg.batchSize >= 1 && n + 1 == |es| && StableRun(cfg, target, s, es[..n])
    requires ReadsTarget(cfg, target, Run(cfg, s, es[..n]), es[n])
    ensures StableRun(cfg, target, s, es)
  {
    forall k | 0 <= k < |es| ensures ReadsTarget(cfg, target, Run(cfg, s, es[..k]), es[k]) {
      if k < n {
        assert es[..n][..k] == es[..k] && es[..n][k] == es[k];
      }
    }
  }

  // The plan of the table at the start.
  function StartPlan(cfg: Config, t0: Table): seq<PlannedBatch>
    requires cfg.batchSize >= 1
  {
    CleanPlan(cfg, TargetSet(cfg, t0))
  }

  // Everything the action is about.
  function Targets(cfg: Config, t0: Table): set<Id> {
    match cfg.explicitIds
    case None => TargetSet(cfg, t0)
    case Some(ids) => NamedTargets(cfg, t0, ids)
  }

  lemma StartPlanFits(cfg: Config, t0: Table)
    requires cfg.batchSize >= 1
    ensures Disjoint(StartPlan(cfg, t0)) && Targets(cfg, t0) <= t0.Keys
    ensures IsPlanTarget(cfg, StartPlan(cfg, t0), t0, Targets(cfg, t0))
  {
    match cfg.explicitIds {
      case None => FilterPlanFits(cfg, t0);
      case Some(ids) => IdPlanFits(cfg, t0, ids);
    }
  }

  // ----- The run is an execution order of the plan ---------------------------------------

  // The batches whose work has been committed, in commit order.
  function Order(acc: seq<Accounting>): seq<nat> {
    if acc == [] then []
    else
      var n := |acc| - 1;
      Order(acc[..n]) + (if acc[n].executed then [acc[n].index] else [])
  }

  lemma {:induction false} OrderIsOfIndices(acc: seq<Accounting>, i: nat)
    requires i in Order(acc)
    ensures i in Indices(acc)
  {
    var n := |acc| - 1;
    assert acc == acc[..n] + [acc[n]];
    IndicesSnoc(acc[..n], acc[n]);
    if i in Order(acc[..n]) {
      OrderIsOfIndices(acc[..n], i);
    }
  }

  lemma {:induction false} OrderFits(acc: seq<Accounting>, plan: seq<PlannedBatch>)
    requires AccountedOnce(acc) && forall k :: 0 <= k < |acc| ==> acc[k].index < |plan|
    ensures IsOrder(plan, Order(acc))
  {
    if acc != [] {
      var n := |acc| - 1;
      assert acc == acc[..n] + [acc[n]];
      FreshIndex(acc[..n], acc[n]);
      OrderFits(acc[..n], plan);
      forall i | 0 <= i < |Order(acc[..n])| ensures Order(acc[..n])[i] != acc[n].index {
        OrderIsOfIndices(acc[..n], Order(acc[..n])[i]);
      }
    }
  }

  // Batches at times that no order reads may be given any clock.
  lemma {:induction false} ClockOfOthers(cfg: Config, plan: seq<PlannedBatch>, w: World, order: seq<nat>,
                                         c: nat -> int, d: nat -> int)
    requires IsOrder(plan, order) && forall i :: 0 <= i < |order| ==> c(order[i]) == d(order[i])
    ensures RunAll(cfg, plan, w, order, c) == RunAll(cfg, plan, w, order, d)
  {
    if order != [] {
      ClockOfOthers(cfg, plan, w, order[..|order| - 1], c, d);
    }
  }

  // Entities, ledger and loaded rows are those of executing the committed batches in turn.
  ghost predicate IsRunOf(cfg: Config, plan: seq<PlannedBatch>, t0: Table, s: State, clock: nat -> int)
    requires IsOrder(plan, Order(s.past.accountings))
  {
    var order := Order(s.past.accountings);
    && World(s.db.entities, s.db.ledger) == RunAll(cfg, plan, World(t0, {}), order, clock)
    && s.past.loaded == Loads(cfg, plan, t0, order)
  }

  ghost predicate Ordered(plan: seq<PlannedBatch>, s: State) {
    RowsFollow(s.db.batches, plan) && AccountedOnce(s.past.accountings) && IsOrder(plan, Order(s.past.accountings))
  }

  lemma FaithfulIsOrdered(plan: seq<PlannedBatch>, s: State)
    requires Faithful(s) && RowsFollow(s.db.batches, plan) && AccountedOnce(s.past.accountings)
    ensures Ordered(plan, s)
  {
    OrderFits(s.past.accountings, plan);
  }

  lemma ExecuteIsRunOf(cfg: Config, plan: seq<PlannedBatch>, t0: Table, s: State, j: nat, now: int, clock: nat -> int)
    returns (clock': nat -> int)
    requires cfg.batchSize >= 1 && Disjoint(plan) && Ordered(plan, s) && IsRunOf(cfg, plan, t0, s, clock)
    requires At(s, j, Attempted) && WouldExecute(s.db, s.jobs[j].index)
    requires Ordered(plan, StepExecute(cfg, s, j, now))
    ensures IsRunOf(cfg, plan, t0, StepExecute(cfg, s, j, now), clock')
  {
    var i, s' := s.jobs[j].index, StepExecute(cfg, s, j, now);
    clock' := (k: nat) => if k == i then now else clock(k);
    var acc, acc' := s.past.accountings, s'.past.accountings;
    var order, order' := Order(acc), Order(acc');
    assert acc'[..|acc|] == acc;
    assert order' == order + [i] && order'[..|order|] == order;
    forall k | 0 <= k < |order| ensures order[k] != i {
      assert order'[k] == order[k] && order'[|order|] == i;
    }
    ClockOfOthers(cfg, plan, World(t0, {}), order, clock, clock');
    FindsOriginalRows(cfg, plan, World(t0, {}), order, clock, i);
  }

  lemma QuietOrder(cfg: Config, s: State, e: Event)
    requires cfg.batchSize >= 1 && !Executes(s, e)
    ensures Order(Step(cfg, s, e).past.accountings) == Order(s.past.accountings)
    ensures !e.OutsideWrite? ==> Step(cfg, s, e).db.entities == s.db.entities
    ensures Step(cfg, s, e).db.ledger == s.db.ledger && Step(cfg, s, e).past.loaded == s.past.loaded
  {
    if MarksFailed(s, e) {
      AccountingStep(cfg, s, e);
      var acc, acc' := s.past.accountings, Step(cfg, s, e).past.accountings;
      assert acc'[..|acc|] == acc;
    } else {
      OthersAreQuiet(cfg, s, e);
    }
  }

  /** Every run without an outside writer, at every moment, is an execution of the committed batches
      of the start plan in some order: whatever is known of those holds of the protocol. */
  lemma {:induction false} RunIsSomeOrder(cfg: Config, t0: Table, scheduled: bool, es: seq<Event>)
    returns (clock: nat -> int)
    requires cfg.batchSize >= 1 && NoOutsideWrite(es)
    requires var s := Run(cfg, Init(t0, scheduled), es);
             AccountedOnce(s.past.accountings) && (cfg.explicitIds.None? ==> s.past.plansOpened <= 1)
    ensures var s, plan := Run(cfg, Init(t0, scheduled), es), StartPlan(cfg, t0);
            Ordered(plan, s) && IsRunOf(cfg, plan, t0, s, clock)
  {
    var s0, plan := Init(t0, scheduled), StartPlan(cfg, t0);
    RunIsOrdered(cfg, t0, scheduled, es);
    if es == [] {
      clock := (k: nat) => 0;
    } else {
      var n := |es| - 1;
      var before := Run(cfg, s0, es[..n]);
      PassesOnlyGrow(cfg, before, es[n]);
      OnceBefore(cfg, before, es[n]);
      RunIsOrdered(cfg, t0, scheduled, es[..n]);
      clock := RunIsSomeOrder(cfg, t0, scheduled, es[..n]);
      StartPlanFits(cfg, t0);
      clock := StepIsRunOf(cfg, plan, t0, before, es[n], clock);
    }
  }

  lemma StepIsRunOf(cfg: Config, plan: seq<PlannedBatch>, t0: Table, s: State, e: Event, clock: nat -> int)
    returns (clock': nat -> int)
    requires cfg.batchSize >= 1 && Disjoint(plan) && Ordered(plan, s) && IsRunOf(cfg, plan, t0, s, clock)
    requires !e.OutsideWrite? && Ordered(plan, Step(cfg, s, e))
    ensures IsRunOf(cfg, plan, t0, Step(cfg, s, e), clock')
  {
    if Executes(s, e) {
      clock' := ExecuteIsRunOf(cfg, plan, t0, s, e.j, e.now, clock);
    } else {
      clock' := clock;
      QuietOrder(cfg, s, e);
    }
  }

  lemma RunIsOrdered(cfg: Config, t0: Table, scheduled: bool, es: seq<Event>)
    requires cfg.batchSize >= 1 && NoOutsideWrite(es)
    requires var s := Run(cfg, Init(t0, scheduled), es);
             AccountedOnce(s.past.accountings) && (cfg.explicitIds.None? ==> s.past.plansOpened <= 1)
    ensures Ordered(StartPlan(cfg, t0), Run(cfg, Init(t0, scheduled), es))
  {
    var s := Run(cfg, Init(t0, scheduled), es);
    AloneIsStable(cfg, t0, scheduled, es);
    AlwaysFaithful(cfg, t0, scheduled, es);
    ReplanningConverges(cfg, TargetSet(cfg, t0), t0, scheduled, es);
    FaithfulIsOrdered(StartPlan(cfg, t0), s);
  }

  // ----- The table -----------------------------------------------------------------------

  /** At every moment, cancelled and failed runs included, and with de-duplication off: the table is
      what one statement over the targets of the committed batches leaves. */
  lemma TableIsCommittedWork(cfg: Config, t0: Table, scheduled: bool, es: seq<Event>, id: Id)
    requires cfg.batchSize >= 1 && NoOutsideWrite(es) && !Deduplicates(cfg) && HasColumns(cfg, t0)
    requires var s := Run(cfg, Init(t0, scheduled), es);
             AccountedOnce(s.past.accountings) && (cfg.explicitIds.None? ==> s.past.plansOpened <= 1)
    ensures var s, plan := Run(cfg, Init(t0, scheduled), es), StartPlan(cfg, t0);
            IsOrder(plan, Order(s.past.accountings))
            && View(s.db.entities, id) == Expect(cfg, t0, Covered(cfg, plan, t0, Order(s.past.accountings)), id)
  {
    var s, plan := Run(cfg, Init(t0, scheduled), es), StartPlan(cfg, t0);
    var clock := RunIsSomeOrder(cfg, t0, scheduled, es);
    StartPlanFits(cfg, t0);
    RunMeetsExpect(cfg, plan, World(t0, {}), Order(s.past.accountings), clock, id);
  }

  lemma {:induction false} OrderHasExecuted(acc: seq<Accounting>, k: nat)
    requires k < |acc| && acc[k].executed
    ensures acc[k].index in Order(acc)
  {
    var n := |acc| - 1;
    if k < n {
      OrderHasExecuted(acc[..n], k);
    }
  }

  // An action without a failed log row has no batch that was given up.
  lemma NoFailureNoLostBatch(s: State, k: nat)
    requires RowsOk(s) && s.db.action.failure == 0 && k < |s.past.accountings| && Faithful(s)
    requires forall i :: i in s.db.batches ==> s.db.batches[i].work.entityCount >= 1
    ensures s.past.accountings[k].executed
  {
    var a := s.past.accountings[k];
    assert Reflects(s.db.batches[a.index], a);
    EntryBelowSum(Failures(s.db.batches), a.index);
  }

  lemma EntryBelowSum(m: map<nat, nat>, i: nat)
    requires i in m
    ensures m[i] <= Sums.Sum(m)
  {
    Sums.SumRemove(m, i);
  }

  lemma CompletedIsComplete(cfg: Config, t0: Table, scheduled: bool, es: seq<Event>)
    requires cfg.batchSize >= 1 && NoOutsideWrite(es)
    requires var s := Run(cfg, Init(t0, scheduled), es); Regular(s) && s.db.action.status == Completed
    ensures IsComplete(StartPlan(cfg, t0), Order(Run(cfg, Init(t0, scheduled), es).past.accountings))
  {
    var s, plan := Run(cfg, Init(t0, scheduled), es), StartPlan(cfg, t0);
    RunIsOrdered(cfg, t0, scheduled, es);
    AloneIsStable(cfg, t0, scheduled, es);
    ReplanningConverges(cfg, TargetSet(cfg, t0), t0, scheduled, es);
    AlwaysSound(cfg, t0, scheduled, es);
    FinishedIsAllAccounted(s);
    BatchSizes.AlwaysSized(cfg, t0, scheduled, es);
    forall i: nat | i < |plan| ensures i in Order(s.past.accountings) {
      assert i in s.db.batches && i in Indices(s.past.accountings);
      var k :| 0 <= k < |s.past.accountings| && s.past.accountings[k].index == i;
      NoFailureNoLostBatch(s, k);
      OrderHasExecuted(s.past.accountings, k);
    }
  }

  /** The whole protocol as one statement.  With one planning pass, one accounting per batch and no
      outside writer, and de-duplication off: an action that reads `completed` has left the table
      that one update or delete over its target set at the start would have left, whatever was
      interleaved, redelivered, retried or crashed on the way. */
  lemma CompletedIsOneStatement(cfg: Config, t0: Table, scheduled: bool, es: seq<Event>, now: int, id: Id)
    requires cfg.batchSize >= 1 && NoOutsideWrite(es) && !Deduplicates(cfg) && HasColumns(cfg, t0)
    requires var s := Run(cfg, Init(t0, scheduled), es); Regular(s) && s.db.action.status == Completed
    ensures View(Run(cfg, Init(t0, scheduled), es).db.entities, id)
            == View(Handlers.ApplyTo(cfg, t0, Targets(cfg, t0), now), id)
  {
    var s := Run(cfg, Init(t0, scheduled), es);
    var order := Order(s.past.accountings);
    var clock := RunIsSomeOrder(cfg, t0, scheduled, es);
    CompletedIsComplete(cfg, t0, scheduled, es);
    match cfg.explicitIds {
      case None => AnyOrderIsOneStatement(cfg, t0, order, clock, now, id);
      case Some(ids) => AnyOrderOfIdsIsOneStatement(cfg, t0, ids, order, clock, now, id);
    }
  }

  /** The same for de-duplication: a completed action has handed its handlers one row per distinct
      key of the target set at the start, and every row of it without a key. */
  lemma CompletedPassesOncePerKey(cfg: Config, t0: Table, scheduled: bool, es: seq<Event>)
    requires cfg.batchSize >= 1 && NoOutsideWrite(es) && Deduplicates(cfg)
    requires var s := Run(cfg, Init(t0, scheduled), es); Regular(s) && s.db.action.status == Completed
    ensures var targets := TargetRows(t0, Targets(cfg, t0));
            |Run(cfg, Init(t0, scheduled), es).past.passed|
            == |KeysIn(Keying(cfg), targets)| + |Keyless(Keying(cfg), targets)|
  {
    var s, plan := Run(cfg, Init(t0, scheduled), es), StartPlan(cfg, t0);
    var clock := RunIsSomeOrder(cfg, t0, scheduled, es);
    CompletedIsComplete(cfg, t0, scheduled, es);
    StartPlanFits(cfg, t0);
    HandlersSeeFirstOccurrences(cfg, t0, scheduled, es);
    PassedOfLoads(cfg, plan, t0, Order(s.past.accountings), s.past.passed);
  }

  lemma PassedOfLoads(cfg: Config, plan: seq<PlannedBatch>, t0: Table, order: seq<nat>, passed: seq<Loaded>)
    requires cfg.batchSize >= 1 && plan == StartPlan(cfg, t0) && IsComplete(plan, order)
    requires var rows, kf := Loads(cfg, plan, t0, order), Keying(cfg);
             Keyed(kf, passed) == First(kf, {}, rows) && Missing(kf, passed) == Missing(kf, rows)
    ensures var targets := TargetRows(t0, Targets(cfg, t0));
            |passed| == |KeysIn(Keying(cfg), targets)| + |Keyless(Keying(cfg), targets)|
  {
    var rows, kf := Loads(cfg, plan, t0, order), Keying(cfg);
    StartPlanFits(cfg, t0);
    LoadsFacts(cfg, plan, t0, order);
    CompleteCoversTarget(cfg, plan, t0, order, Targets(cfg, t0));
    SizesFromSet(kf, rows);
    FirstCounts(kf, {}, rows);
    assert KeySet(kf, rows) - {} == KeySet(kf, rows);
    KeySetIsKeysIn(kf, rows);
    KeyedOrMissing(kf, passed);
  }

  // Exactly one log row names the entity.
  ghost predicate NamedExactlyOnce(logs: seq<LogRow>, id: Id) {
    exists a :: OnlyRowNaming(logs, a, id)
  }

  predicate OnlyRowNaming(logs: seq<LogRow>, a: int, id: Id) {
    && 0 <= a < |logs| && logs[a].outcome.entityId == Some(id)
    && forall b :: 0 <= b < |logs| && logs[b].outcome.entityId == Some(id) ==> b == a
  }

  /** Exactly one log row per target: a completed action without an outside writer has named every
      entity of its target set at the start in exactly one row of its log. */
  lemma CompletedLogsEachTargetOnce(cfg: Config, t0: Table, scheduled: bool, es: seq<Event>, id: Id)
    requires cfg.batchSize >= 1 && NoOutsideWrite(es)
    requires var s := Run(cfg, Init(t0, scheduled), es); Regular(s) && s.db.action.status == Completed
    requires id in Targets(cfg, t0)
    ensures NamedExactlyOnce(Run(cfg, Init(t0, scheduled), es).db.logs, id)
  {
    var s, plan := Run(cfg, Init(t0, scheduled), es), StartPlan(cfg, t0);
    var clock := RunIsSomeOrder(cfg, t0, scheduled, es);
    CompletedIsComplete(cfg, t0, scheduled, es);
    EveryLoadIsLogged(cfg, t0, scheduled, es);
    TargetIsLoaded(cfg, t0, Order(s.past.accountings), id);
    assert NamedIn(s.db.logs, id);
    var a :| 0 <= a < |s.db.logs| && s.db.logs[a].outcome.entityId == Some(id);
    NoEntityLoggedTwice(cfg, t0, scheduled, es);
    assert OnlyRowNaming(s.db.logs, a, id);
  }

  lemma TargetIsLoaded(cfg: Config, t0: Table, order: seq<nat>, id: Id)
    requires cfg.batchSize >= 1 && IsComplete(StartPlan(cfg, t0), order) && id in Targets(cfg, t0)
    ensures id in t0 && Loaded(id, t0[id]) in Loads(cfg, StartPlan(cfg, t0), t0, order)
  {
    var plan := StartPlan(cfg, t0);
    StartPlanFits(cfg, t0);
    LoadsFacts(cfg, plan, t0, order);
    CompleteCoversTarget(cfg, plan, t0, order, Targets(cfg, t0));
    assert Loaded(id, t0[id]) in TargetRows(t0, Targets(cfg, t0));
    assert Loaded(id, t0[id]) in RowSet(Loads(cfg, plan, t0, order));
  }
}
