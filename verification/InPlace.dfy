/**
 The transactions of module Store as the program runs them: one object whose tables are updated
 in place, statement by statement.  Every method is proved to compute the function of the same
 name, and the planner's loop is proved to flush exactly its plan.
 */
module InPlace {
  import opened Domain
  import opened Dedup
  import opened Handlers
  import opened BatchRunner
  import opened Store
  import P = Protocol
  import S = Store
  import T = Throughput
  import TokenBucket
  import Planning

  class Database {
    var action: ActionRow
    var batches: map<nat, BatchRow>
    var logs: seq<LogRow>
    var ledger: set<Key>
    const store: EntityStore

    constructor (entities: Table, scheduled: bool)
      ensures fresh(store)
      ensures Contents() == Submitted(entities, scheduled)
    {
      action := ActionRow(if scheduled then Scheduled else Queued, 0, 0, 0, 0, 0, 0, 0);
      batches, logs, ledger := map[], [], {};
      store := new EntityStore(entities);
    }

    ghost function Contents(): Db
      reads this, store
    {
      Db(action, batches, logs, ledger, store.rows)
    }

    method OpenPlan() returns (go: bool)
      modifies this
      ensures Contents() == old(Contents()).(action := S.OpenPlan(old(action)))
      ensures action == if go then old(action).(status := ActionStatus.Planning) else old(action)
      ensures go == !old(action).status.Terminal()
      ensures old(action).status.Terminal() ==> action.status == old(action).status
      ensures Counters(action) == Counters(old(action))
    {
      go := !action.status.Terminal();
      if go {
        action := action.(status := ActionStatus.Planning);
      }
    }

    method InsertBatches(first: nat, rows: seq<PlannedBatch>)
      modifies this`batches
      ensures batches == S.InsertBatches(old(batches), first, rows)
    {
      for i := 0 to |rows|
        invariant batches == S.InsertBatches(old(batches), first, rows[..i])
      {
        assert rows[..i + 1][..i] == rows[..i];
        if first + i !in batches {
          batches := batches[first + i := NewRow(rows[i])];
        }
      }
      assert rows[..|rows|] == rows;
    }

    method ClosePlan(totalEntities: nat, totalBatches: nat)
      modifies this`action
      ensures action == S.ClosePlan(old(action), totalEntities, totalBatches)
      ensures action.totalEntities == totalEntities && action.totalBatches == totalBatches
      ensures action.status ==
              if totalBatches == 0 then (if old(action).status == ActionStatus.Planning then Completed
                  else old(action).status)
              else if Waiting(old(action).status) then Processing else old(action).status
      ensures old(action).status.Terminal() ==> action.status == old(action).status
      ensures Counters(action) == Counters(old(action))
    {
      action := action.(totalEntities := totalEntities, totalBatches := totalBatches);
      if totalBatches == 0 {
        if action.status == ActionStatus.Planning {
          action := action.(status := Completed);
        }
      } else {
        MarkStarted();
      }
    }

    method MarkStarted()
      modifies this`action
      ensures action == S.MarkStarted(old(action))
      ensures action == if Waiting(old(action).status) then old(action).(status := Processing) else old(action)
      ensures old(action).status.Terminal() ==> action.status == old(action).status
      ensures Counters(action) == Counters(old(action))
    {
      if action.status in {Queued, Scheduled, ActionStatus.Planning} {
        action := action.(status := Processing);
      }
    }

    method FinalizeIfComplete() returns (closed: Option<ActionStatus>)
      modifies this`action
      ensures action == S.FinalizeIfComplete(old(action))
      ensures closed == if MayFinalize(old(action)) then Some(action.status) else None
      ensures closed.Some? <==>
                old(action).status == Processing && old(action).completedBatches >= old(action).totalBatches
      ensures action == if closed.Some? then old(action).(status := closed.value) else old(action)
      ensures closed.Some? ==> action.status.Finished() && (action.status == Completed <==> action.failure == 0)
      ensures old(action).status.Terminal() ==> action.status == old(action).status
      ensures Counters(action) == Counters(old(action))
    {
      if !(action.completedBatches >= action.totalBatches && action.status == Processing) {
        return None;
      }
      var status := if action.failure > 0 then CompletedWithErrors else Completed;
      action := action.(status := status);
      return Some(status);
    }

    method FailAction()
      modifies this`action
      ensures action == S.FailAction(old(action))
      ensures action == if old(action).status.Terminal() then old(action) else old(action).(status := ActionFailed)
      ensures old(action).status.Terminal() ==> action.status == old(action).status
      ensures Counters(action) == Counters(old(action))
    {
      if !action.status.Terminal() {
        action := action.(status := ActionFailed);
      }
    }

    method Cancel() returns (ok: bool)
      modifies this`action
      ensures action == CancelAction(old(action)) && ok == !old(action).status.Terminal()
      ensures action == if ok then old(action).(status := ActionCancelled) else old(action)
      ensures old(action).status.Terminal() ==> action.status == old(action).status
      ensures Counters(action) == Counters(old(action))
    {
      ok := !action.status.Terminal();
      if ok {
        action := action.(status := ActionCancelled);
      }
    }

    method Preflight(i: nat) returns (go: bool)
      modifies this`batches
      ensures Contents() == S.Preflight(old(Contents()), i)
      ensures go == PassesPreflight(old(Contents()), i)
      ensures go <==> i in old(batches) && old(batches[i].status) != BatchCompleted && action.status != ActionCancelled
      ensures batches == if i in old(batches) && old(batches[i].status) != BatchCompleted
              && action.status == ActionCancelled
                         then old(batches)[i := old(batches[i]).(status := BatchCancelled)] else old(batches)
    {
      if i !in batches || batches[i].status == BatchCompleted {
        return false;
      }
      if action.status == ActionCancelled {
        batches := batches[i := batches[i].(status := BatchCancelled)];
        return false;
      }
      return true;
    }

    method RecordAttempt(i: nat)
      modifies this`batches
      ensures Contents() == S.RecordAttempt(old(Contents()), i)
      ensures batches == if i in old(batches) && old(batches[i].status) != BatchCompleted
                         then old(batches)[i := old(batches[i]).(status := BatchProcessing,
                                                                 attempts := old(batches[i].attempts) + 1)]
                         else old(batches)
    {
      if i in batches && batches[i].status != BatchCompleted {
        batches := batches[i := batches[i].(status := BatchProcessing, attempts := batches[i].attempts + 1)];
      }
    }

    method RecordBatchCompletion(os: seq<Outcome>)
      modifies this`action
      ensures action == RecordCompletion(old(action), os)
      ensures action.processed == old(action.processed) + |os|
              && action.completedBatches == old(action.completedBatches) + 1
      ensures action.status == old(action.status) && action.totalBatches == old(action.totalBatches)
      ensures action.success + action.failure + action.skipped
              == old(action.success) + old(action.failure) + old(action.skipped) + |os|
    {
      CountsAddUp(os);
      var s, f, k := 0, 0, 0;
      for i := 0 to |os|
        invariant s == Count(os[..i], Success) && f == Count(os[..i], Failed) && k == Count(os[..i], Skipped)
      {
        assert os[..i + 1][..i] == os[..i];
        match os[i].status {
          case Success => s := s + 1;
          case Failed => f := f + 1;
          case Skipped => k := k + 1;
        }
      }
      assert os[..|os|] == os;
      action := action.(processed := action.processed + |os|,
                        success := action.success + s, failure := action.failure + f, skipped := action.skipped + k,
                        completedBatches := action.completedBatches + 1);
    }

    // De-duplicate, then run the handler on what is left.
    method Apply(cfg: Config, rows: seq<Loaded>, now: int) returns (outcomes: seq<Outcome>)
      modifies this`ledger, store
      ensures var p := SplitBatch(cfg, old(ledger), rows);
              outcomes == Skips(if cfg.dedupField.Some? then cfg.dedupField.value else "", p.duplicates)
                          + HandlerOutcomes(cfg, old(store.rows), p.unique)
              && store.rows == HandlerTable(cfg, old(store.rows), p.unique, now)
      ensures ledger == if Deduplicates(cfg) then old(ledger) + KeySet(Keying(cfg), rows) else old(ledger)
    {
      var p := Partition(rows, []);
      if Deduplicates(cfg) && rows != [] {
        p, ledger := PartitionDuplicates(Keying(cfg), ledger, rows);
      }
      assert p == SplitBatch(cfg, old(ledger), rows);
      assert rows == [] ==> KeySet(Keying(cfg), rows) == {};
      outcomes := Skips(if cfg.dedupField.Some? then cfg.dedupField.value else "", p.duplicates);
      var handled;
      if cfg.kind.Update? {
        handled := store.ExecuteUpdate(cfg, p.unique, now);
      } else {
        handled := store.ExecuteDelete(cfg, p.unique, now);
      }
      outcomes := outcomes + handled;
    }

    method RunBatch(cfg: Config, work: PlannedBatch, now: int) returns (outcomes: seq<Outcome>)
      modifies this`ledger, store
      ensures BatchEffect(outcomes, ledger, store.rows)
              == BatchRunner.RunBatch(cfg, old(store.rows), old(ledger), work, now)
    {
      var rows := LoadRows(cfg, store.rows, work);
      var drift := Drift(work.entityCount, |rows|);
      var rest := Apply(cfg, rows, now);
      outcomes := drift + rest;
      AssemblesOutcomes(cfg, old(store.rows), old(ledger), work, rows, outcomes);
    }

    method ExecuteBatch(cfg: Config, i: nat, now: int) returns (ran: bool)
      modifies this, store
      ensures Contents() == S.ExecuteBatch(cfg, old(Contents()), i, now)
      ensures ran <==> i in old(batches) && old(batches[i].status) != BatchCompleted
      ensures !ran ==> Contents() == old(Contents())
      ensures ran ==>
                i in batches && batches[i].status == BatchCompleted && batches.Keys == old(batches).Keys
                && (forall k :: k in batches && k != i ==> batches[k] == old(batches)[k])
                && old(logs) <= logs && action.processed == old(action.processed) + |logs| - |old(logs)|
                && action.completedBatches == old(action.completedBatches) + 1 && action.status == old(action.status)
    {
      if i !in batches || batches[i].status == BatchCompleted {
        return false;
      }
      var outcomes := RunBatch(cfg, batches[i].work, now);
      logs := logs + Tagged(i, outcomes);
      batches := batches[i := Counted(batches[i], outcomes)];
      RecordBatchCompletion(outcomes);
      ran := true;
    }

    method MarkBatchFailed(i: nat, count: nat)
      modifies this
      ensures Contents() == S.MarkBatchFailed(old(Contents()), i, count)
      ensures SameWork(old(batches), batches) && action.status == old(action).status
      ensures ledger == old(ledger) && store.rows == old(store.rows)
      ensures i in batches ==> batches[i].status == BatchFailed && batches[i].failure == count
      ensures |logs| == |old(logs)| + (if i in batches then count else 0) && old(logs) <= logs
      ensures forall k :: |old(logs)| <= k < |logs| ==> logs[k] == LogRow(i, Outcome(None, Failed, BatchError))
      ensures i in batches ==>
                action.processed == old(action).processed + count && action.failure == old(action).failure + count
    {
      if i !in batches {
        return;
      }
      CountLost(count);
      batches := batches[i := batches[i].(status := BatchFailed, failure := count)];
      logs := logs + Tagged(i, Lost(count));
      RecordBatchCompletion(Lost(count));
    }

    // Flush what is pending after the first `done` batches of the plan.
    method Flush(done: nat, pending: seq<PlannedBatch>, ghost flushed: seq<PlannedBatch>,
                 ghost start: map<nat, BatchRow>)
      requires |flushed| == done && batches == S.InsertBatches(start, 0, flushed)
      modifies this`batches
      ensures batches == S.InsertBatches(start, 0, flushed + pending)
    {
      S.InsertBatchesAppend(start, 0, flushed, pending);
      if pending == [] {
        assert flushed + pending == flushed;
        return;
      }
      InsertBatches(done, pending);
    }

    method PlanLoop(plan: seq<PlannedBatch>) returns (totalEntities: nat, totalBatches: nat)
      modifies this`batches
      ensures batches == S.InsertBatches(old(batches), 0, plan)
      ensures totalEntities == Planning.TotalEntities(plan) && totalBatches == |plan|
    {
      totalEntities, totalBatches := 0, 0;
      var pending: seq<PlannedBatch> := [];
      ghost var flushed: seq<PlannedBatch> := [];
      for i := 0 to |plan|
        invariant totalBatches == i && totalEntities == Planning.TotalEntities(plan[..i])
        invariant flushed + pending == plan[..i]
        invariant batches == S.InsertBatches(old(batches), 0, flushed)
      {
        assert plan[..i + 1] == plan[..i] + [plan[i]];
        assert plan[..i + 1][..i] == plan[..i];
        assert flushed + (pending + [plan[i]]) == plan[..i + 1];
        pending := pending + [plan[i]];
        totalEntities := totalEntities + plan[i].entityCount;
        totalBatches := totalBatches + 1;
        if |pending| >= FLUSH_EVERY {
          Flush(totalBatches - |pending|, pending, flushed, old(batches));
          flushed, pending := flushed + pending, [];
          assert flushed + pending == flushed;
        }
      }
      assert plan[..|plan|] == plan;
      Flush(totalBatches - |pending|, pending, flushed, old(batches));
    }

    /** One uninterrupted planner pass: the pages read while other writers act (read number k sees
        the target set `seen(k)`), the rows sent out in groups.  Its effect is that of inserting the
        whole plan and closing with its totals, and the plan is the keyset walk over what was seen,
        or the chunks of the named ids. */
    method PlanBulkAction(cfg: Config, seen: nat -> set<Id>)
      returns (go: bool, ghost plan: seq<PlannedBatch>, ghost pages: nat)
      requires cfg.batchSize >= 1 && forall k: nat, x :: x in seen(k) ==> IsId(x)
      modifies this
      ensures go == !old(action).status.Terminal()
      ensures go ==> match cfg.explicitIds
                     case None => Planning.IsWalk(seen, plan, pages, cfg.batchSize)
                     case Some(ids) => plan == Planning.ChunkPlan(Planning.Distinct(ids), cfg.batchSize)
      ensures Contents() == old(Contents()).(
                action := if go then S.ClosePlan(S.OpenPlan(old(action)), Planning.TotalEntities(plan), |plan|)
                    else old(action),
                batches := if go then S.InsertBatches(old(batches), 0, plan) else old(batches))
    {
      plan, pages := [], 0;
      go := OpenPlan();
      if go {
        var batchesToRun;
        match cfg.explicitIds {
          case None =>
            var read;
            batchesToRun, read := Planning.PlanFromFilter(seen, cfg.batchSize);
            pages := read;
          case Some(ids) =>
            batchesToRun := Planning.PlanFromIds(ids, cfg.batchSize);
        }
        plan := batchesToRun;
        var totalEntities, totalBatches := PlanLoop(batchesToRun);
        ClosePlan(totalEntities, totalBatches);
      }
    }

    // Retries exhausted: account the batch as failed, then try to finish the action.
    method GiveUp(cfg: Config, i: nat, count: nat, ghost s: P.State)
      requires cfg.batchSize >= 1 && Contents() == s.db && i in batches
      requires P.At(s, 0, P.AtMarkFailed) && s.jobs[0].index == i && s.jobs[0].entityCount == count
      modifies this
      ensures Contents() == AfterGivingUp(cfg, s).db
    {
      MarkBatchFailed(i, count);
      var closed := FinalizeIfComplete();
    }

    // The work transaction and the block after it, either of which may raise.
    method Work(cfg: Config, i: nat, stamp: int, fault: Fault, lastTry: bool, ghost s: P.State)
      requires cfg.batchSize >= 1 && Contents() == s.db && WouldExecute(s.db, i)
      requires P.At(s, 0, P.Attempted) && s.jobs[0].index == i
      modifies this, store
      ensures Contents() == AfterWorkEvents(cfg, s, fault, lastTry, stamp).db
    {
      WorkDb(cfg, s, i, stamp, fault, lastTry);
      if fault != InWork {
        var ran := ExecuteBatch(cfg, i, stamp);
        if fault == NoFault {
          var closed := FinalizeIfComplete();
        }
      }
    }

    // A job past the gate.
    method WorkOrGiveUp(cfg: Config, i: nat, count: nat, stamp: int, fault: Fault, lastTry: bool, ghost s: P.State)
      requires cfg.batchSize >= 1 && Contents() == s.db && WouldExecute(s.db, i)
      requires P.At(s, 0, P.Admitted) && s.jobs[0].index == i && s.jobs[0].entityCount == count
      modifies this, store
      ensures Contents() == AfterTail(cfg, s, fault, lastTry, stamp).db
    {
      ghost var tried := P.Step(cfg, s, P.Attempt(0));
      RecordAttempt(i);
      Work(cfg, i, stamp, fault, lastTry, tried);
      if fault != NoFault && lastTry {
        ghost var worked := AfterWorkEvents(cfg, tried, fault, lastTry, stamp);
        FaultLeads(cfg, tried, i, count, fault, stamp);
        GiveUp(cfg, i, count, worked);
      }
    }

    // A job past pre-flight.
    method PassGate(cfg: Config, i: nat, bucket: TokenBucket.Bucket, limit: int, now: int, stamp: int,
                    fault: Fault, lastTry: bool, ghost s: P.State)
      returns (result: JobResult)
      requires cfg.batchSize >= 1 && Contents() == s.db && WouldExecute(s.db, i)
      requires P.At(s, 0, P.AtGate) && s.jobs[0] == P.Job(i, batches[i].work.entityCount, P.AtGate)
      modifies this, store, bucket
      ensures Answered(old(batches[i].work.entityCount), limit, TokenBucket.Level(limit, old(bucket.stored), now),
                       now, fault, lastTry, result, old(bucket.stored), bucket.stored)
      ensures result.Refused? || result.Deferred? ==> Contents() == old(Contents())
      ensures var g := T.GateTurned(cfg, limit, T.Account(old(bucket.stored), None, 0, map[0 := s]), 0, 0, now);
              0 in g.actions && bucket.stored == g.bucket
              && Contents() == AfterTail(cfg, g.actions[0], fault, lastTry, stamp).db
    {
      var entityCount := batches[i].work.entityCount;
      ghost var g := T.GateTurned(cfg, limit, T.Account(bucket.stored, None, 0, map[0 := s]), 0, 0, now);
      GateCases(cfg, limit, bucket.stored, s, now);
      var decision := bucket.Consume(limit, now, entityCount);
      if decision.Unsatisfiable? {
        NothingLater(cfg, g.actions[0], fault, lastTry, stamp);
        return Refused;
      }
      if !decision.allowed {
        NothingLater(cfg, g.actions[0], fault, lastTry, stamp);
        return Deferred(decision.retryAfterMs);
      }
      WorkOrGiveUp(cfg, i, entityCount, stamp, fault, lastTry, g.actions[0]);
      result := Ran(fault, lastTry);
    }

    /** One delivery of a batch job from its first statement to its last, with nobody interfering:
        pre-flight, gate, attempt, work, finalise, and the error paths of the last two.

        It starts exactly for a batch that exists, is not completed and belongs to an action that is
        not cancelled.  A started job is refused, deferred or run as `Answered` says: deferred exactly
        if the bucket holds less than the batch's planned count, and then the tables are as they
        were; run otherwise, after the bucket has paid the planned count.  And the whole delivery is a
        run of the account's state machine, gate included. */
    method ProcessBatch(cfg: Config, i: nat, bucket: TokenBucket.Bucket, limit: int, now: int, stamp: int,
                        fault: Fault, lastTry: bool)
      returns (result: JobResult)
      requires cfg.batchSize >= 1
      modifies this, store, bucket
      ensures var passed := i in old(batches) && old(batches[i].status) != BatchCompleted
                            && old(action.status) != ActionCancelled;
              if !passed then result == NotStarted && bucket.stored == old(bucket.stored)
              else Answered(old(batches[i].work.entityCount), limit,
                            TokenBucket.Level(limit, old(bucket.stored), now),
                            now, fault, lastTry, result, old(bucket.stored), bucket.stored)
      ensures result.Refused? || result.Deferred? ==> Contents() == old(Contents())
      ensures var y := T.Turns(T.Only(cfg), limit, Lone(old(bucket.stored), old(Contents())),
                               JobTurns(i, now, fault, lastTry, stamp));
              0 in y.actions && Contents() == y.actions[0].db && bucket.stored == y.bucket
    {
      ghost var delivered := P.Step(cfg, Idle(Contents()), P.Deliver(0, i));
      JobTurnsEnd(cfg, limit, bucket.stored, Contents(), i, now, fault, lastTry, stamp);
      var go := Preflight(i);
      if !go {
        NothingLater(cfg, delivered, fault, lastTry, stamp);
        return NotStarted;
      }
      result := PassGate(cfg, i, bucket, limit, now, stamp, fault, lastTry, delivered);
    }
  }

  // ----- One job, event by event ---------------------------------------------------------

  // The statuses that mark_started moves on from.
  predicate Waiting(st: ActionStatus) {
    st == Queued || st == Scheduled || st == ActionStatus.Planning
  }

  // What raises, if anything.
  datatype Fault = NoFault | InWork | AfterWork

  datatype JobResult = NotStarted | Refused | Deferred(retryAfterMs: int) | Done | Retried | GaveUp

  function PlannedCount(db: Db, i: nat): nat {
    if i in db.batches then db.batches[i].work.entityCount else 0
  }

  // What becomes of a job past pre-flight that asks for n entities of a bucket holding `level`.
  predicate Answered(n: nat, limit: int, level: int, now: int, fault: Fault, lastTry: bool, result: JobResult,
                     before: TokenBucket.Stored, after: TokenBucket.Stored) {
    if n == 0 then result == Ran(fault, lastTry) && after == before
    else if n > limit then result == Refused && after == before
    else if level < TokenBucket.UNIT * n then
      result.Deferred? && result.retryAfterMs == (TokenBucket.UNIT * n - level) / limit + 50
      && after == TokenBucket.Stored(level, now)
    else result == Ran(fault, lastTry) && after == TokenBucket.Stored(level - TokenBucket.UNIT * n, now)
  }

  function Ran(fault: Fault, lastTry: bool): JobResult {
    if fault == NoFault then Done else if lastTry then GaveUp else Retried
  }

  // No planner and no other job in flight.
  function Idle(db: Db): P.State {
    P.State(db, map[], map[], P.History([], 0, false, 0, [], []))
  }

  function WorkEvents(fault: Fault, lastTry: bool, stamp: int): seq<P.Event> {
    match fault
    case NoFault => [P.Execute(0, stamp), P.Finalise(0)]
    case InWork => [P.ExecuteError(0, lastTry)]
    case AfterWork => [P.Execute(0, stamp), P.FinaliseError(0, lastTry)]
  }

  // After the gate: the attempt, the work, and on the last try its failure report.
  function TailEvents(fault: Fault, lastTry: bool, stamp: int): seq<P.Event> {
    [P.Attempt(0)] + WorkEvents(fault, lastTry, stamp)
    + if fault != NoFault && lastTry then [P.MarkFailed(0), P.Finalise(0)] else []
  }

  // The events of one delivery; what the gate decides is up to the account.
  function JobTurns(i: nat, now: int, fault: Fault, lastTry: bool, stamp: int): seq<T.AccountEvent> {
    T.Others([P.Deliver(0, i)]) + [T.GateAt(0, 0, now)] + T.Others(TailEvents(fault, lastTry, stamp))
  }

  // An account with this one action and nothing in flight.
  function Lone(b: TokenBucket.Stored, db: Db): T.Account {
    T.Account(b, None, 0, map[0 := Idle(db)])
  }

  // The same, step by step.
  function AfterWorkEvents(cfg: Config, s: P.State, fault: Fault, lastTry: bool, stamp: int): P.State
    requires cfg.batchSize >= 1
  {
    match fault
    case NoFault => P.Step(cfg, P.Step(cfg, s, P.Execute(0, stamp)), P.Finalise(0))
    case InWork => P.Step(cfg, s, P.ExecuteError(0, lastTry))
    case AfterWork => P.Step(cfg, P.Step(cfg, s, P.Execute(0, stamp)), P.FinaliseError(0, lastTry))
  }

  function AfterGivingUp(cfg: Config, s: P.State): P.State
    requires cfg.batchSize >= 1
  {
    P.Step(cfg, P.Step(cfg, s, P.MarkFailed(0)), P.Finalise(0))
  }

  function AfterTail(cfg: Config, s: P.State, fault: Fault, lastTry: bool, stamp: int): P.State
    requires cfg.batchSize >= 1
  {
    var worked := AfterWorkEvents(cfg, P.Step(cfg, s, P.Attempt(0)), fault, lastTry, stamp);
    if fault != NoFault && lastTry then AfterGivingUp(cfg, worked) else worked
  }

  lemma ExecutedDb(cfg: Config, s: P.State, i: nat, stamp: int)
    requires cfg.batchSize >= 1 && WouldExecute(s.db, i) && P.At(s, 0, P.Attempted) && s.jobs[0].index == i
    ensures var e := P.Step(cfg, s, P.Execute(0, stamp));
            e.db == S.ExecuteBatch(cfg, s.db, i, stamp) && P.At(e, 0, P.AtFinalise)
  {}

  lemma WorkDb(cfg: Config, s: P.State, i: nat, stamp: int, fault: Fault, lastTry: bool)
    requires cfg.batchSize >= 1 && WouldExecute(s.db, i) && P.At(s, 0, P.Attempted) && s.jobs[0].index == i
    ensures var done := S.ExecuteBatch(cfg, s.db, i, stamp);
            AfterWorkEvents(cfg, s, fault, lastTry, stamp).db
            == match fault
               case NoFault => done.(action := S.FinalizeIfComplete(done.action))
               case InWork => s.db
               case AfterWork => done
  {
    if fault != InWork {
      ExecutedDb(cfg, s, i, stamp);
      var e := P.Step(cfg, s, P.Execute(0, stamp));
      FinalisedDb(cfg, e);
      FaultedDb(cfg, e, lastTry);
    }
  }

  lemma FinalisedDb(cfg: Config, s: P.State)
    requires cfg.batchSize >= 1 && P.At(s, 0, P.AtFinalise)
    ensures P.Step(cfg, s, P.Finalise(0)).db == s.db.(action := S.FinalizeIfComplete(s.db.action))
  {}

  lemma FaultedDb(cfg: Config, s: P.State, lastTry: bool)
    requires cfg.batchSize >= 1
    ensures P.Step(cfg, s, P.FinaliseError(0, lastTry)).db == s.db
  {}

  // After a fault on the last try the job stands before its failure report.
  lemma FaultLeads(cfg: Config, s: P.State, i: nat, count: nat, fault: Fault, stamp: int)
    requires cfg.batchSize >= 1 && fault != NoFault && WouldExecute(s.db, i)
    requires P.At(s, 0, P.Attempted) && s.jobs[0].index == i && s.jobs[0].entityCount == count
    ensures var e := AfterWorkEvents(cfg, s, fault, true, stamp);
            P.At(e, 0, P.AtMarkFailed) && e.jobs[0].index == i && e.jobs[0].entityCount == count && i in e.db.batches
  {}

  lemma WorkRun(cfg: Config, s: P.State, fault: Fault, lastTry: bool, stamp: int)
    requires cfg.batchSize >= 1
    ensures P.Run(cfg, s, WorkEvents(fault, lastTry, stamp)) == AfterWorkEvents(cfg, s, fault, lastTry, stamp)
  {
    match fault {
      case NoFault => P.Run2(cfg, s, P.Execute(0, stamp), P.Finalise(0));
      case InWork => P.Run1(cfg, s, P.ExecuteError(0, lastTry));
      case AfterWork => P.Run2(cfg, s, P.Execute(0, stamp), P.FinaliseError(0, lastTry));
    }
  }

  lemma TailRun(cfg: Config, s: P.State, fault: Fault, lastTry: bool, stamp: int)
    requires cfg.batchSize >= 1
    ensures P.Run(cfg, s, TailEvents(fault, lastTry, stamp)) == AfterTail(cfg, s, fault, lastTry, stamp)
  {
    var work := WorkEvents(fault, lastTry, stamp);
    var rest := if fault != NoFault && lastTry then [P.MarkFailed(0), P.Finalise(0)] else [];
    P.RunAppend(cfg, s, [P.Attempt(0)] + work, rest);
    P.RunAppend(cfg, s, [P.Attempt(0)], work);
    P.Run1(cfg, s, P.Attempt(0));
    WorkRun(cfg, P.Step(cfg, s, P.Attempt(0)), fault, lastTry, stamp);
    if rest != [] {
      P.Run2(cfg, P.Run(cfg, s, [P.Attempt(0)] + work), P.MarkFailed(0), P.Finalise(0));
    }
  }

  // The account's gate, case by case.
  lemma GateCases(cfg: Config, limit: int, b: TokenBucket.Stored, s: P.State, now: int)
    requires cfg.batchSize >= 1 && P.At(s, 0, P.AtGate)
    ensures var n, g := s.jobs[0].entityCount, T.GateTurned(cfg, limit, T.Account(b, None, 0, map[0 := s]), 0, 0, now);
            var call := TokenBucket.Call(now, n);
            0 in g.actions && g.bucket == TokenBucket.Next(limit, b, call) && g.actions[0].db == s.db
            && if (n > 0 && n > limit) || !TokenBucket.Allows(limit, b, call) then 0 !in g.actions[0].jobs
               else P.At(g.actions[0], 0, P.Admitted) && g.actions[0].jobs[0].index == s.jobs[0].index
                    && g.actions[0].jobs[0].entityCount == n
  {}

  lemma GateKeepsOne(cfg: Config, limit: int, x: T.Account, now: int)
    requires cfg.batchSize >= 1 && x.actions.Keys == {0}
    ensures T.GateTurned(cfg, limit, x, 0, 0, now).actions.Keys == {0}
  {}

  lemma JobTurnsEnd(cfg: Config, limit: int, b: TokenBucket.Stored, db: Db, i: nat, now: int, fault: Fault,
                    lastTry: bool, stamp: int)
    requires cfg.batchSize >= 1
    ensures var x := T.Account(b, None, 0, map[0 := P.Step(cfg, Idle(db), P.Deliver(0, i))]);
            var g := T.GateTurned(cfg, limit, x, 0, 0, now);
            var y := T.Turns(T.Only(cfg), limit, Lone(b, db), JobTurns(i, now, fault, lastTry, stamp));
            g.actions.Keys == {0} && y.bucket == g.bucket
            && y.actions == map[0 := AfterTail(cfg, g.actions[0], fault, lastTry, stamp)]
  {
    var cfgs, tail := T.Only(cfg), TailEvents(fault, lastTry, stamp);
    var lone := Lone(b, db);
    var x := T.Account(b, None, 0, map[0 := P.Step(cfg, Idle(db), P.Deliver(0, i))]);
    var g := T.GateTurned(cfg, limit, x, 0, 0, now);
    T.TurnsAppend(cfgs, limit, lone, T.Others([P.Deliver(0, i)]) + [T.GateAt(0, 0, now)], T.Others(tail));
    T.TurnsAppend(cfgs, limit, lone, T.Others([P.Deliver(0, i)]), [T.GateAt(0, 0, now)]);
    T.OthersRun(cfg, limit, lone, [P.Deliver(0, i)]);
    P.Run1(cfg, Idle(db), P.Deliver(0, i));
    assert [T.GateAt(0, 0, now)][..0] == [];
    GateKeepsOne(cfg, limit, x, now);
    T.OthersRun(cfg, limit, g, tail);
    TailRun(cfg, g.actions[0], fault, lastTry, stamp);
  }

  // Where there is no job 0, the later events are not possible.
  lemma NothingLater(cfg: Config, s: P.State, fault: Fault, lastTry: bool, stamp: int)
    requires cfg.batchSize >= 1 && 0 !in s.jobs
    ensures AfterTail(cfg, s, fault, lastTry, stamp).db == s.db
  {}

  lemma AssemblesOutcomes(cfg: Config, t: Table, ledger: set<Key>, work: PlannedBatch, rows: seq<Loaded>,
                          os: seq<Outcome>)
    requires var p := SplitBatch(cfg, ledger, rows);
             os == Drift(work.entityCount, |rows|)
                   + (Skips(if cfg.dedupField.Some? then cfg.dedupField.value else "", p.duplicates)
                      + HandlerOutcomes(cfg, t, p.unique))
    ensures os == BatchOutcomes(cfg, t, ledger, work, rows)
  {
    var p := SplitBatch(cfg, ledger, rows);
    Associates(Drift(work.entityCount, |rows|),
               Skips(if cfg.dedupField.Some? then cfg.dedupField.value else "", p.duplicates),
               HandlerOutcomes(cfg, t, p.unique));
  }

  lemma Associates<T>(xs: seq<T>, ys: seq<T>, zs: seq<T>)
    ensures xs + (ys + zs) == xs + ys + zs
  {}
}
