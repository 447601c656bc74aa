/**
 The bulk-action execution protocol as a state machine.

 One step is one transaction block, or one decision outside a block, of the planner
 (`plan_bulk_action`), of a batch job (`process_batch`) or of a canceller.  Any number of planner
 and batch jobs are in flight, each with its own program counter; jobs may be delivered any number
 of times, for any index, at any moment; any job may die between two steps, and other writers may
 replace the entity table at any moment.  An event that is not possible in a state leaves the
 state as it is, which is also what a transaction that rolls back does.
 */
module Protocol {
  import opened Domain
  import opened BatchRunner
  import opened Store
  import Planning

  // Local variables of a planner between its transactions.
  datatype Planner = Planner(
    last: Option<Id>, totalEntities: nat, totalBatches: nat,
    pending: seq<PlannedBatch>, exhausted: bool)

  datatype Pc = AtGate | Admitted | Attempted | AtFinalise | AtMarkFailed | AtLastFinalise

  // A batch job past pre-flight, with what it read there.
  datatype Job = Job(index: nat, entityCount: nat, pc: Pc)

  // One commit that moved the counters.
  datatype Accounting = Accounting(index: nat, entityCount: nat, emitted: nat, executed: bool)

  // What happened so far; no step reads it.
  datatype History = History(
    accountings: seq<Accounting>,
    plansOpened: nat,
    started: bool,
    admitted: nat,
    loaded: seq<Loaded>,
    passed: seq<Loaded>)

  datatype State = State(db: Db, planners: map<nat, Planner>, jobs: map<nat, Job>, past: History)

  datatype Event =
    | PlanOpen(p: nat) | PlanPage(p: nat) | PlanFlush(p: nat) | PlanClose(p: nat)
    | PlanFail(p: nat) | PlanCrash(p: nat)
    | Deliver(j: nat, index: nat) | Gate(j: nat, admitted: bool) | Attempt(j: nat)
    | Execute(j: nat, now: int) | ExecuteError(j: nat, lastTry: bool)
    | Finalise(j: nat) | FinaliseError(j: nat, lastTry: bool)
    | MarkFailed(j: nat) | JobCrash(j: nat)
    | Cancel | OutsideWrite(entities: Table)

  function Init(entities: Table, scheduled: bool): State {
    State(Submitted(entities, scheduled), map[], map[], History([], 0, false, 0, [], []))
  }

  // ----- Planner steps -------------------------------------------------------------------

  function AddPage(pl: Planner, b: PlannedBatch, last: Option<Id>, exhausted: bool): Planner {
    Planner(last, pl.totalEntities + b.entityCount, pl.totalBatches + 1, pl.pending + [b], exhausted)
  }

  // The next thing the planning generator yields, read from the table as it is now.
  function ReadPage(cfg: Config, t: Table, pl: Planner): Planner
    requires cfg.batchSize >= 1
  {
    match cfg.explicitIds
    case Some(ids) =>
      var plan := Planning.ChunkPlan(Planning.Distinct(ids), cfg.batchSize);
      if pl.totalBatches < |plan| then AddPage(pl, plan[pl.totalBatches], pl.last, false)
      else pl.(exhausted := true)
    case None =>
      var ids := Planning.Page(Planning.Beyond(TargetSet(cfg, t), pl.last), cfg.batchSize);
      if ids == [] then pl.(exhausted := true)
      else AddPage(pl, Planning.RangeOf(ids), Some(ids[|ids| - 1]), |ids| < cfg.batchSize)
  }

  predicate CanFlush(pl: Planner) {
    |pl.pending| >= FLUSH_EVERY || (pl.exhausted && pl.pending != [])
  }

  function FirstPending(pl: Planner): nat {
    if |pl.pending| <= pl.totalBatches then pl.totalBatches - |pl.pending| else 0
  }

  function StepPlanOpen(s: State, p: nat): State {
    if p in s.planners || s.db.action.status.Terminal() then s
    else
      s.(db := s.db.(action := OpenPlan(s.db.action)),
         planners := s.planners[p := Planner(None, 0, 0, [], false)],
         past := s.past.(plansOpened := s.past.plansOpened + 1))
  }

  function StepPlanPage(cfg: Config, s: State, p: nat): State
    requires cfg.batchSize >= 1
  {
    if p !in s.planners || s.planners[p].exhausted || CanFlush(s.planners[p]) then s
    else s.(planners := s.planners[p := ReadPage(cfg, s.db.entities, s.planners[p])])
  }

  function StepPlanFlush(s: State, p: nat): State {
    if p !in s.planners || !CanFlush(s.planners[p]) then s
    else
      var pl := s.planners[p];
      s.(db := s.db.(batches := InsertBatches(s.db.batches, FirstPending(pl), pl.pending)),
         planners := s.planners[p := pl.(pending := [])])
  }

  function StepPlanClose(s: State, p: nat): State {
    if p !in s.planners || !s.planners[p].exhausted || s.planners[p].pending != [] then s
    else
      var pl := s.planners[p];
      var a := ClosePlan(s.db.action, pl.totalEntities, pl.totalBatches);
      s.(db := s.db.(action := a),
         planners := s.planners - {p},
         past := s.past.(started := s.past.started || (a.status == Processing && s.db.action.status != Processing)))
  }

  function StepPlanFail(s: State, p: nat): State {
    if p !in s.planners then s
    else s.(db := s.db.(action := FailAction(s.db.action)), planners := s.planners - {p})
  }

  // ----- Batch job steps -----------------------------------------------------------------

  predicate At(s: State, j: nat, pc: Pc) {
    j in s.jobs && s.jobs[j].pc == pc
  }

  function Move(s: State, j: nat, pc: Pc): map<nat, Job>
    requires j in s.jobs
  {
    s.jobs[j := s.jobs[j].(pc := pc)]
  }

  function StepDeliver(s: State, j: nat, i: nat): State {
    if j in s.jobs then s
    else if PassesPreflight(s.db, i) then
      s.(jobs := s.jobs[j := Job(i, s.db.batches[i].work.entityCount, AtGate)])
    else s.(db := Preflight(s.db, i))
  }

  // A denied job re-schedules a fresh one; that is a later delivery.
  function StepGate(s: State, j: nat, admitted: bool): State {
    if !At(s, j, AtGate) then s
    else if admitted then
      s.(jobs := Move(s, j, Admitted), past := s.past.(admitted := s.past.admitted + s.jobs[j].entityCount))
    else s.(jobs := s.jobs - {j})
  }

  function StepAttempt(s: State, j: nat): State {
    if !At(s, j, Admitted) then s
    else s.(db := RecordAttempt(s.db, s.jobs[j].index), jobs := Move(s, j, Attempted))
  }

  // Does this event commit an execute block?
  predicate Executes(s: State, e: Event) {
    e.Execute? && At(s, e.j, Attempted) && WouldExecute(s.db, s.jobs[e.j].index)
  }

  predicate MarksFailed(s: State, e: Event) {
    e.MarkFailed? && At(s, e.j, AtMarkFailed) && s.jobs[e.j].index in s.db.batches
  }

  function ExecutedPast(cfg: Config, s: State, i: nat): History
    requires i in s.db.batches
  {
    var work := s.db.batches[i].work;
    var rows := LoadRows(cfg, s.db.entities, work);
    s.past.(
      accountings := s.past.accountings
        + [Accounting(i, work.entityCount, |BatchOutcomes(cfg, s.db.entities, s.db.ledger, work, rows)|, true)],
      loaded := s.past.loaded + rows,
      passed := s.past.passed + SplitBatch(cfg, s.db.ledger, rows).unique)
  }

  function StepExecute(cfg: Config, s: State, j: nat, now: int): State {
    if !At(s, j, Attempted) then s
    else if !WouldExecute(s.db, s.jobs[j].index) then s.(jobs := s.jobs - {j})
    else
      var i := s.jobs[j].index;
      s.(db := ExecuteBatch(cfg, s.db, i, now), jobs := Move(s, j, AtFinalise), past := ExecutedPast(cfg, s, i))
  }

  // The work transaction rolled back; either the queue retries, or this was the last try.
  function StepError(s: State, j: nat, pc: Pc, lastTry: bool): State {
    if !At(s, j, pc) then s
    else if lastTry then s.(jobs := Move(s, j, AtMarkFailed))
    else s.(jobs := s.jobs - {j})
  }

  function StepMarkFailed(s: State, j: nat): State {
    if !At(s, j, AtMarkFailed) || s.jobs[j].index !in s.db.batches then s
    else
      var job := s.jobs[j];
      s.(db := MarkBatchFailed(s.db, job.index, job.entityCount),
         jobs := Move(s, j, AtLastFinalise),
         past := s.past.(accountings := s.past.accountings
                   + [Accounting(job.index, job.entityCount, job.entityCount, false)]))
  }

  predicate Finalises(s: State, e: Event) {
    e.Finalise? && (At(s, e.j, AtFinalise) || At(s, e.j, AtLastFinalise))
  }

  function StepFinalise(s: State, j: nat): State {
    if !(At(s, j, AtFinalise) || At(s, j, AtLastFinalise)) then s
    else s.(db := s.db.(action := FinalizeIfComplete(s.db.action)), jobs := s.jobs - {j})
  }

  // ----- Runs ----------------------------------------------------------------------------

  function Step(cfg: Config, s: State, e: Event): State
    requires cfg.batchSize >= 1
  {
    match e
    case PlanOpen(p) => StepPlanOpen(s, p)
    case PlanPage(p) => StepPlanPage(cfg, s, p)
    case PlanFlush(p) => StepPlanFlush(s, p)
    case PlanClose(p) => StepPlanClose(s, p)
    case PlanFail(p) => StepPlanFail(s, p)
    case PlanCrash(p) => s.(planners := s.planners - {p})
    case Deliver(j, i) => StepDeliver(s, j, i)
    case Gate(j, admitted) => StepGate(s, j, admitted)
    case Attempt(j) => StepAttempt(s, j)
    case Execute(j, now) => StepExecute(cfg, s, j, now)
    case ExecuteError(j, lastTry) => StepError(s, j, Attempted, lastTry)
    case Finalise(j) => StepFinalise(s, j)
    case FinaliseError(j, lastTry) => StepError(s, j, AtFinalise, lastTry)
    case MarkFailed(j) => StepMarkFailed(s, j)
    case JobCrash(j) => s.(jobs := s.jobs - {j})
    case Cancel => s.(db := s.db.(action := CancelAction(s.db.action)))
    case OutsideWrite(t) => s.(db := s.db.(entities := t))
  }

  function Run(cfg: Config, s: State, es: seq<Event>): State
    requires cfg.batchSize >= 1
  {
    if es == [] then s else Step(cfg, Run(cfg, s, es[..|es| - 1]), es[|es| - 1])
  }

  lemma {:induction false} RunAppend(cfg: Config, s: State, xs: seq<Event>, ys: seq<Event>)
    requires cfg.batchSize >= 1
    ensures Run(cfg, s, xs + ys) == Run(cfg, Run(cfg, s, xs), ys)
  {
    if ys == [] {
      assert xs + ys == xs;
    } else {
      var n := |ys| - 1;
      RunAppend(cfg, s, xs, ys[..n]);
      assert (xs + ys)[..|xs + ys| - 1] == xs + ys[..n];
    }
  }

  lemma Run1(cfg: Config, s: State, e: Event)
    requires cfg.batchSize >= 1
    ensures Run(cfg, s, [e]) == Step(cfg, s, e)
  {
    assert [e][..0] == [];
  }

  lemma Run2(cfg: Config, s: State, e: Event, f: Event)
    requires cfg.batchSize >= 1
    ensures Run(cfg, s, [e, f]) == Step(cfg, Step(cfg, s, e), f)
  {
    assert [e, f][..1] == [e];
    Run1(cfg, s, e);
  }

  // ----- Every reachable state -----------------------------------------------------------

  /** Batch rows are never removed and never change what they stand for. */
  lemma StepKeepsWork(cfg: Config, s: State, e: Event)
    requires cfg.batchSize >= 1
    ensures SameWork(s.db.batches, Step(cfg, s, e).db.batches)
  {
    if e.PlanFlush? && e.p in s.planners {
      var pl := s.planners[e.p];
      InsertBatchesKeeps(s.db.batches, FirstPending(pl), pl.pending);
    }
  }

  // Each action counter equals the number of log rows of its status.
  predicate CountersAgree(s: State) {
    var a, logs := s.db.action, s.db.logs;
    && a.success == CountLogs(logs, Success)
    && a.failure == CountLogs(logs, Failed)
    && a.skipped == CountLogs(logs, Skipped)
    && a.processed == |logs|
    && a.processed == a.success + a.failure + a.skipped
    && a.completedBatches == |s.past.accountings|
  }

  lemma RecordKeepsCounters(db: Db, i: nat, os: seq<Outcome>)
    ensures var a, logs := RecordCompletion(db.action, os), db.logs + Tagged(i, os);
            a.success - CountLogs(logs, Success) == db.action.success - CountLogs(db.logs, Success)
            && a.failure - CountLogs(logs, Failed) == db.action.failure - CountLogs(db.logs, Failed)
            && a.skipped - CountLogs(logs, Skipped) == db.action.skipped - CountLogs(db.logs, Skipped)
            && a.processed - |logs| == db.action.processed - |db.logs|
            && a.processed - (a.success + a.failure + a.skipped)
               == db.action.processed - (db.action.success + db.action.failure + db.action.skipped)
  {
    CountLogsAppend(db.logs, i, os, Success);
    CountLogsAppend(db.logs, i, os, Failed);
    CountLogsAppend(db.logs, i, os, Skipped);
    CountsAddUp(os);
  }

  predicate SameAccounts(s: State, s': State) {
    && Counters(s.db.action) == Counters(s'.db.action)
    && s.db.logs == s'.db.logs && s.db.ledger == s'.db.ledger
    && s.past.accountings == s'.past.accountings
    && s.past.loaded == s'.past.loaded && s.past.passed == s'.past.passed
  }

  lemma IdleExecute(cfg: Config, s: State, j: nat, now: int)
    requires !(At(s, j, Attempted) && WouldExecute(s.db, s.jobs[j].index))
    ensures StepExecute(cfg, s, j, now).db == s.db && StepExecute(cfg, s, j, now).past == s.past
  {}

  lemma IdleMarkFailed(s: State, j: nat)
    requires !(At(s, j, AtMarkFailed) && s.jobs[j].index in s.db.batches)
    ensures StepMarkFailed(s, j) == s
  {}

  /** Only two kinds of commit move counters, write logs or claim keys. */
  lemma OthersAreQuiet(cfg: Config, s: State, e: Event)
    requires cfg.batchSize >= 1 && !Executes(s, e) && !MarksFailed(s, e)
    ensures SameAccounts(s, Step(cfg, s, e))
    ensures !e.OutsideWrite? ==> Step(cfg, s, e).db.entities == s.db.entities
  {
    match e {
      case Execute(j, now) => IdleExecute(cfg, s, j, now);
      case MarkFailed(j) => IdleMarkFailed(s, j);
      case _ =>
    }
  }

  lemma ExecuteKeepsCounters(cfg: Config, s: State, j: nat, now: int)
    requires CountersAgree(s) && At(s, j, Attempted) && WouldExecute(s.db, s.jobs[j].index)
    ensures CountersAgree(StepExecute(cfg, s, j, now))
  {
    var i := s.jobs[j].index;
    RecordKeepsCounters(s.db, i, RunBatch(cfg, s.db.entities, s.db.ledger, s.db.batches[i].work, now).outcomes);
  }

  lemma MarkFailedKeepsCounters(s: State, j: nat)
    requires CountersAgree(s)
    ensures CountersAgree(StepMarkFailed(s, j))
  {
    if j in s.jobs {
      RecordKeepsCounters(s.db, s.jobs[j].index, Lost(s.jobs[j].entityCount));
    }
  }

  lemma StepKeepsCounters(cfg: Config, s: State, e: Event)
    requires cfg.batchSize >= 1 && CountersAgree(s)
    ensures CountersAgree(Step(cfg, s, e))
  {
    if Executes(s, e) {
      ExecuteKeepsCounters(cfg, s, e.j, e.now);
    } else if MarksFailed(s, e) {
      MarkFailedKeepsCounters(s, e.j);
    } else {
      OthersAreQuiet(cfg, s, e);
    }
  }

  /** The counters agree with the log in every reachable state, whatever is redelivered, retried,
      run twice, cancelled or re-planned. */
  lemma {:induction false} CountersAlwaysAgree(cfg: Config, entities: Table, scheduled: bool, es: seq<Event>)
    requires cfg.batchSize >= 1
    ensures CountersAgree(Run(cfg, Init(entities, scheduled), es))
  {
    if es != [] {
      var init := es[..|es| - 1];
      CountersAlwaysAgree(cfg, entities, scheduled, init);
      StepKeepsCounters(cfg, Run(cfg, Init(entities, scheduled), init), es[|es| - 1]);
    }
  }

  // What jobs and accountings know about batch rows is true.
  predicate Faithful(s: State) {
    && (forall j :: j in s.jobs ==>
          s.jobs[j].index in s.db.batches && s.jobs[j].entityCount == s.db.batches[s.jobs[j].index].work.entityCount)
    && (forall k :: 0 <= k < |s.past.accountings| ==>
          var a := s.past.accountings[k];
          a.index in s.db.batches && a.entityCount == s.db.batches[a.index].work.entityCount
              && a.emitted >= a.entityCount)
  }

  // Jobs keep the batch they were delivered for; a new job has just read its batch.
  predicate JobsFollow(s: State, s': State) {
    forall j :: j in s'.jobs ==>
      if j in s.jobs then s'.jobs[j].index == s.jobs[j].index && s'.jobs[j].entityCount == s.jobs[j].entityCount
      else s'.jobs[j].index in s.db.batches && s'.jobs[j].entityCount == s.db.batches[s'.jobs[j].index].work.entityCount
  }

  lemma DeliverJobsFollow(s: State, j: nat, i: nat)
    ensures JobsFollow(s, StepDeliver(s, j, i))
  {}

  lemma StepJobsFollow(cfg: Config, s: State, e: Event)
    requires cfg.batchSize >= 1 && !e.Execute?
    ensures JobsFollow(s, Step(cfg, s, e))
  {
    if e.Deliver? {
      DeliverJobsFollow(s, e.j, e.index);
    }
  }

  lemma KeepsFaithful(s: State, s': State)
    requires Faithful(s) && SameWork(s.db.batches, s'.db.batches) && JobsFollow(s, s')
    requires s'.past.accountings == s.past.accountings
             || exists a :: s'.past.accountings == s.past.accountings + [a]
                  && a.index in s.db.batches && a.entityCount == s.db.batches[a.index].work.entityCount
                      && a.emitted >= a.entityCount
    ensures Faithful(s')
  {}

  lemma ExecuteKeepsFaithful(cfg: Config, s: State, j: nat, now: int)
    requires Faithful(s) && At(s, j, Attempted) && WouldExecute(s.db, s.jobs[j].index)
    ensures Faithful(StepExecute(cfg, s, j, now))
  {
    var i := s.jobs[j].index;
    var s' := StepExecute(cfg, s, j, now);
    OutcomesTotal(cfg, s.db.entities, s.db.ledger, s.db.batches[i].work);
    assert s'.past.accountings == s.past.accountings + [s'.past.accountings[|s.past.accountings|]];
    KeepsFaithful(s, s');
  }

  lemma StepKeepsFaithful(cfg: Config, s: State, e: Event)
    requires cfg.batchSize >= 1 && Faithful(s)
    ensures Faithful(Step(cfg, s, e))
  {
    if Executes(s, e) {
      ExecuteKeepsFaithful(cfg, s, e.j, e.now);
    } else {
      StepKeepsWork(cfg, s, e);
      if !e.Execute? {
        StepJobsFollow(cfg, s, e);
      }
      if MarksFailed(s, e) {
        var job := s.jobs[e.j];
        assert Step(cfg, s, e).past.accountings
            == s.past.accountings + [Accounting(job.index, job.entityCount, job.entityCount, false)];
      } else {
        OthersAreQuiet(cfg, s, e);
      }
      KeepsFaithful(s, Step(cfg, s, e));
    }
  }

  lemma {:induction false} AlwaysFaithful(cfg: Config, entities: Table, scheduled: bool, es: seq<Event>)
    requires cfg.batchSize >= 1
    ensures Faithful(Run(cfg, Init(entities, scheduled), es))
  {
    if es != [] {
      var init := es[..|es| - 1];
      AlwaysFaithful(cfg, entities, scheduled, init);
      StepKeepsFaithful(cfg, Run(cfg, Init(entities, scheduled), init), es[|es| - 1]);
    }
  }
}
