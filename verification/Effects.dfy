/**
 What updates and deletes do to the rows, said on the rows: by one batch, by a batch that is run
 again, and by a whole action.
 */
module Effects {
  import opened Domain
  import opened Dedup
  import opened Handlers
  import opened BatchRunner
  import opened BatchedMeaning
  import opened Protocol
  import opened Finishing
  import opened RowThroughput
  import opened Replanning
  import opened Alone
  import opened Scope
  import Planning

  // ----- One batch -------------------------------------------------------------------------

  predicate Handed(cfg: Config, ledger: set<Key>, rows: seq<Loaded>, id: Id) {
    Among(SplitBatch(cfg, ledger, rows).unique, id)
  }

  lemma HandedIsLoaded(cfg: Config, t: Table, ledger: set<Key>, b: PlannedBatch, r: Loaded)
    requires r in SplitBatch(cfg, ledger, LoadRows(cfg, t, b)).unique
    ensures r.id in t && r.row == t[r.id] && t[r.id].account == cfg.account
  {
    UniqueRowsAreLoaded(cfg, ledger, LoadRows(cfg, t, b), r);
    LoadsExactly(cfg, t, b, r.id, r.row);
  }

  /** A batch of an update: every row handed to the handler carries the new values afterwards and is
      otherwise the same (only its time stamp moves, and only if it was written), it is reported as
      updated or as already so, and no other row changes. */
  lemma UpdateBatchMeans(cfg: Config, updates: Columns, t: Table, ledger: set<Key>, b: PlannedBatch, now: int)
    requires cfg.kind == Update(updates)
    ensures var e, rows := RunBatch(cfg, t, ledger, b, now), LoadRows(cfg, t, b);
            e.entities.Keys == t.Keys
            && (forall id :: id in t ==>
                  if Handed(cfg, ledger, rows, id) && !Carries(updates, t[id])
                  then RowUpdated(updates, cfg.entity.stamped, t[id], e.entities[id], now)
                       && Outcome(Some(id), Success, Updated) in e.outcomes
                  else e.entities[id] == t[id])
            && (forall id :: id in t && Handed(cfg, ledger, rows, id) && Carries(updates, t[id]) ==>
                  Outcome(Some(id), Skipped, NoChange) in e.outcomes)
  {
    var rows := LoadRows(cfg, t, b);
    var unique := SplitBatch(cfg, ledger, rows).unique;
    var e := RunBatch(cfg, t, ledger, b, now);
    var handled := HandlerOutcomes(cfg, t, unique);
    UpdateMeans(cfg, updates, t, unique, now);
    assert forall o :: o in handled ==> o in e.outcomes;
    forall id | id in t
      ensures Needing(updates, unique, id) <==> Among(unique, id) && !Carries(updates, t[id])
      ensures Among(unique, id) ==>
                t[id].account == cfg.account && UpdateReported(cfg, updates, t, Loaded(id, t[id]), handled)
    {
      if Among(unique, id) {
        var r :| r in unique && r.id == id;
        HandedIsLoaded(cfg, t, ledger, b, r);
      }
      if Needing(updates, unique, id) {
        var r :| r in unique && r.id == id && !Carries(updates, r.row);
        HandedIsLoaded(cfg, t, ledger, b, r);
      }
    }
  }

  /** A batch of a delete: every row handed to the handler is gone, or for a soft delete kept with its
      values and marked; it is reported as deleted; and no other row changes. */
  lemma DeleteBatchMeans(cfg: Config, hard: bool, t: Table, ledger: set<Key>, b: PlannedBatch, now: int)
    requires cfg.kind == Delete(hard)
    ensures var e, rows := RunBatch(cfg, t, ledger, b, now), LoadRows(cfg, t, b);
            (forall id :: id in e.entities ==> id in t)
            && (forall id :: id in t ==>
                  if Handed(cfg, ledger, rows, id)
                  then Outcome(Some(id), Success, Deleted) in e.outcomes
                       && if hard || !cfg.entity.softDelete then id !in e.entities
                          else id in e.entities && RowMarked(cfg.entity.stamped, t[id], e.entities[id], now)
                  else id in e.entities && e.entities[id] == t[id])
  {
    var rows := LoadRows(cfg, t, b);
    var unique := SplitBatch(cfg, ledger, rows).unique;
    var e := RunBatch(cfg, t, ledger, b, now);
    var handled := HandlerOutcomes(cfg, t, unique);
    DeleteMeans(cfg, hard, t, unique, now);
    assert forall o :: o in handled ==> o in e.outcomes;
    forall id | id in t && Among(unique, id)
      ensures t[id].account == cfg.account && Outcome(Some(id), Success, Deleted) in handled
    {
      var r :| r in unique && r.id == id;
      HandedIsLoaded(cfg, t, ledger, b, r);
    }
  }

  // ----- The same batch again --------------------------------------------------------------

  lemma AllHanded(cfg: Config, ledger: set<Key>, rows: seq<Loaded>, r: Loaded)
    requires !Deduplicates(cfg) && r in rows
    ensures Handed(cfg, ledger, rows, r.id)
  {}

  lemma LoadedCarries(cfg: Config, updates: Columns, t: Table, ledger: set<Key>, b: PlannedBatch, now: int, r: Loaded)
    requires cfg.kind == Update(updates) && !Deduplicates(cfg)
    requires r in LoadRows(cfg, RunBatch(cfg, t, ledger, b, now).entities, b)
    ensures Carries(updates, r.row)
  {
    var t' := RunBatch(cfg, t, ledger, b, now).entities;
    UpdateBatchMeans(cfg, updates, t, ledger, b, now);
    LoadsExactly(cfg, t', b, r.id, r.row);
    if t'[r.id] == t[r.id] {
      LoadsExactly(cfg, t, b, r.id, r.row);
      AllHanded(cfg, ledger, LoadRows(cfg, t, b), r);
    }
  }

  /** Running an update's batch a second time writes nothing and reports every row as already so. */
  lemma SecondRunChangesNothing(cfg: Config, updates: Columns, t: Table, ledger: set<Key>, b: PlannedBatch, now: int,
                                again: set<Key>, later: int)
    requires cfg.kind == Update(updates) && !Deduplicates(cfg)
    ensures var t' := RunBatch(cfg, t, ledger, b, now).entities;
            var e := RunBatch(cfg, t', again, b, later);
            e.entities == t' && forall o :: o in e.outcomes ==> o == VANISHED || o.reason == NoChange
  {
    var t' := RunBatch(cfg, t, ledger, b, now).entities;
    var rows := LoadRows(cfg, t', b);
    forall r | r in rows ensures Carries(updates, r.row) {
      LoadedCarries(cfg, updates, t, ledger, b, now, r);
    }
    CarryingRunWritesNothing(cfg, updates, t', again, b, later);
    NothingToWrite(cfg, updates, rows);
    assert HandlerOutcomes(cfg, t', rows) == NoChanges(cfg, rows) + [];
    OnlyNoChanges(cfg, rows);
  }

  lemma CarryingRunWritesNothing(cfg: Config, updates: Columns, t: Table, ledger: set<Key>, b: PlannedBatch, now: int)
    requires cfg.kind == Update(updates) && forall r :: r in LoadRows(cfg, t, b) ==> Carries(updates, r.row)
    ensures RunBatch(cfg, t, ledger, b, now).entities == t
  {
    var rows := LoadRows(cfg, t, b);
    UpdateBatchMeans(cfg, updates, t, ledger, b, now);
    forall id | id in t && Handed(cfg, ledger, rows, id) ensures Carries(updates, t[id]) {
      var r :| r in SplitBatch(cfg, ledger, rows).unique && r.id == id;
      UniqueRowsAreLoaded(cfg, ledger, rows, r);
      HandedIsLoaded(cfg, t, ledger, b, r);
    }
  }

  lemma {:induction false} NothingToWrite(cfg: Config, updates: Columns, rows: seq<Loaded>)
    requires cfg.kind == Update(updates) && forall r :: r in rows ==> Carries(updates, r.row)
    ensures ToWrite(cfg, rows) == []
  {
    if rows != [] {
      var n := |rows| - 1;
      assert rows[n] in rows;
      NothingToWrite(cfg, updates, rows[..n]);
      assert NeedsWrite(cfg, rows[n].row) <==> !Carries(updates, rows[n].row);
    }
  }

  lemma {:induction false} OnlyNoChanges(cfg: Config, rows: seq<Loaded>)
    ensures forall o :: o in NoChanges(cfg, rows) ==> o.reason == NoChange
  {
    if rows != [] {
      OnlyNoChanges(cfg, rows[..|rows| - 1]);
    }
  }

  // ----- A whole action --------------------------------------------------------------------

  // An update moves no row between accounts, marks none, removes none and touches no other field.
  ghost predicate UpdateFrame(updates: Columns, t0: Table, t: Table) {
    && t.Keys == t0.Keys
    && forall id :: id in t0 ==>
         && t[id].account == t0[id].account && t[id].deletedAt == t0[id].deletedAt
         && (forall f :: f !in updates ==>
               (f in t[id].values <==> f in t0[id].values)
               && (f in t[id].values ==> t[id].values[f] == t0[id].values[f]))
  }

  lemma UpdateKeepsFrame(cfg: Config, updates: Columns, t0: Table, s: State, e: Event)
    requires cfg.batchSize >= 1 && cfg.kind == Update(updates) && !e.OutsideWrite?
    requires UpdateFrame(updates, t0, s.db.entities)
    ensures UpdateFrame(updates, t0, Step(cfg, s, e).db.entities)
  {
    if Executes(s, e) {
      UpdateBatchMeans(cfg, updates, s.db.entities, s.db.ledger, s.db.batches[s.jobs[e.j].index].work, e.now);
    } else if !MarksFailed(s, e) {
      OthersAreQuiet(cfg, s, e);
    }
  }

  /** In every run without outside writes, at every moment. */
  lemma {:induction false} UpdatesStayInFrame(cfg: Config, updates: Columns, s: State, es: seq<Event>)
    requires cfg.batchSize >= 1 && cfg.kind == Update(updates) && NoOutsideWrite(es)
    ensures UpdateFrame(updates, s.db.entities, Run(cfg, s, es).db.entities)
  {
    if es != [] {
      var n := |es| - 1;
      UpdatesStayInFrame(cfg, updates, s, es[..n]);
      UpdateKeepsFrame(cfg, updates, s.db.entities, Run(cfg, s, es[..n]), es[n]);
    }
  }

  lemma UpdatedView(cfg: Config, updates: Columns, t0: Table, now: int, id: Id)
    requires cfg.kind == Update(updates) && id in Targets(cfg, t0) && Targets(cfg, t0) <= t0.Keys
    ensures var v := View(ApplyTo(cfg, t0, Targets(cfg, t0), now), id);
            v.Some? && v.value.values.Keys == t0[id].values.Keys + updates.Keys
            && forall f :: f in updates ==> v.value.values[f] == updates[f]
  {}

  /** A completed update: every target of the table at the start is there, with the new values in the
      updated fields and everything else (account, deletion mark, other fields) as it was. */
  lemma CompletedUpdateMeans(cfg: Config, updates: Columns, t0: Table, scheduled: bool, es: seq<Event>, id: Id)
    requires cfg.batchSize >= 1 && cfg.kind == Update(updates) && !Deduplicates(cfg) && HasColumns(cfg, t0)
    requires NoOutsideWrite(es) && id in Targets(cfg, t0)
    requires var s := Run(cfg, Init(t0, scheduled), es); Regular(s) && s.db.action.status == Completed
    ensures var t := Run(cfg, Init(t0, scheduled), es).db.entities;
            UpdateFrame(updates, t0, t) && id in t
            && forall f :: f in updates ==> f in t[id].values && t[id].values[f] == updates[f]
  {
    StartPlanFits(cfg, t0);
    UpdatesStayInFrame(cfg, updates, Init(t0, scheduled), es);
    CompletedIsOneStatement(cfg, t0, scheduled, es, 0, id);
    UpdatedView(cfg, updates, t0, 0, id);
  }

  lemma DeletedView(cfg: Config, hard: bool, t0: Table, now: int, id: Id)
    requires cfg.kind == Delete(hard) && id in Targets(cfg, t0) && Targets(cfg, t0) <= t0.Keys
    ensures var v := View(ApplyTo(cfg, t0, Targets(cfg, t0), now), id);
            if hard || !cfg.entity.softDelete then v == None
            else v == Some(Content(t0[id].account, t0[id].values, true))
  {}

  /** A completed delete: every target of the table at the start is gone, or for a soft delete kept
      with its account and values, and marked. */
  lemma CompletedDeleteMeans(cfg: Config, hard: bool, t0: Table, scheduled: bool, es: seq<Event>, id: Id)
    requires cfg.batchSize >= 1 && cfg.kind == Delete(hard) && !Deduplicates(cfg)
    requires NoOutsideWrite(es) && id in Targets(cfg, t0)
    requires var s := Run(cfg, Init(t0, scheduled), es); Regular(s) && s.db.action.status == Completed
    ensures var t := Run(cfg, Init(t0, scheduled), es).db.entities;
            if hard || !cfg.entity.softDelete then id !in t
            else id in t && t[id].account == t0[id].account && t[id].values == t0[id].values && t[id].deletedAt.Some?
  {
    StartPlanFits(cfg, t0);
    CompletedIsOneStatement(cfg, t0, scheduled, es, 0, id);
    DeletedView(cfg, hard, t0, 0, id);
  }

  // ----- What is not a target --------------------------------------------------------------

  lemma ExecuteSparesOthers(cfg: Config, t0: Table, s: State, e: Event, id: Id)
    requires cfg.batchSize >= 1 && Executes(s, e) && SameAt(s.db.entities, t0, id) && id !in Targets(cfg, t0)
    requires AllFit(cfg, s)
    requires cfg.explicitIds.Some? ==> s.db.batches[s.jobs[e.j].index].work.Owns(id) ==> id in cfg.explicitIds.value
    ensures SameAt(Step(cfg, s, e).db.entities, t0, id)
  {
    var b := s.db.batches[s.jobs[e.j].index].work;
    assert Fits(cfg, s.db.entities, b);
    assert id !in SelectedIds(cfg, s.db.entities, b);
    TouchesOnlySelected(cfg, s.db.entities, s.db.ledger, b, e.now, id);
  }

  lemma {:induction false} AlwaysFit(cfg: Config, t0: Table, scheduled: bool, es: seq<Event>)
    requires cfg.batchSize >= 1 && NoOutsideWrite(es)
    ensures AllFit(cfg, Run(cfg, Init(t0, scheduled), es))
  {
    if es != [] {
      var n := |es| - 1;
      AlwaysFit(cfg, t0, scheduled, es[..n]);
      StepFits(cfg, Run(cfg, Init(t0, scheduled), es[..n]), es[n]);
    }
  }

  lemma OwnsOnlyNamed(cfg: Config, t0: Table, scheduled: bool, es: seq<Event>, ids: seq<Id>, i: nat, id: Id)
    requires cfg.batchSize >= 1 && cfg.explicitIds == Some(ids)
    requires var m := Run(cfg, Init(t0, scheduled), es).db.batches; i in m && m[i].work.Owns(id)
    ensures id in ids
  {
    ExplicitRunsAreStable(cfg, Init(t0, scheduled), es);
    ReplanningConverges(cfg, {}, t0, scheduled, es);
    Planning.ChunksPartition(Planning.Distinct(ids), cfg.batchSize);
    var plan := Planning.ChunkPlan(Planning.Distinct(ids), cfg.batchSize);
    assert plan[i].Owns(id);
  }

  /** Over every run without outside writes, however often planned, redelivered or run twice: an
      entity that is not a target of the table at the start is exactly as it was. */
  lemma {:induction false} OthersUntouched(cfg: Config, t0: Table, scheduled: bool, es: seq<Event>, id: Id)
    requires cfg.batchSize >= 1 && NoOutsideWrite(es) && id !in Targets(cfg, t0)
    ensures SameAt(Run(cfg, Init(t0, scheduled), es).db.entities, t0, id)
  {
    if es != [] {
      var n, s0 := |es| - 1, Init(t0, scheduled);
      var before, e := Run(cfg, s0, es[..n]), es[n];
      OthersUntouched(cfg, t0, scheduled, es[..n], id);
      if Executes(before, e) {
        AlwaysFit(cfg, t0, scheduled, es[..n]);
        var i := before.jobs[e.j].index;
        if cfg.explicitIds.Some? && before.db.batches[i].work.Owns(id) {
          OwnsOnlyNamed(cfg, t0, scheduled, es[..n], cfg.explicitIds.value, i, id);
        }
        ExecuteSparesOthers(cfg, t0, before, e, id);
      } else if !MarksFailed(before, e) {
        OthersAreQuiet(cfg, before, e);
      }
    }
  }

  lemma NotLeftToDelete(cfg: Config, hard: bool, t0: Table, scheduled: bool, es: seq<Event>, id: Id)
    requires cfg.batchSize >= 1 && cfg.kind == Delete(hard) && !Deduplicates(cfg) && cfg.explicitIds.None?
    requires NoOutsideWrite(es) && (!hard && cfg.entity.softDelete ==> !cfg.includeDeleted)
    requires var s := Run(cfg, Init(t0, scheduled), es); Regular(s) && s.db.action.status == Completed
    ensures id !in TargetSet(cfg, Run(cfg, Init(t0, scheduled), es).db.entities)
  {
    TargetsExactly(cfg, Run(cfg, Init(t0, scheduled), es).db.entities, id);
    TargetsExactly(cfg, t0, id);
    if id in Targets(cfg, t0) {
      CompletedDeleteMeans(cfg, hard, t0, scheduled, es, id);
    } else {
      OthersUntouched(cfg, t0, scheduled, es, id);
    }
  }

  /** A completed delete by filter leaves nothing for the filter to find (unless the action asks for
      deleted rows, which a soft delete leaves in place). */
  lemma NothingLeftToDelete(cfg: Config, hard: bool, t0: Table, scheduled: bool, es: seq<Event>)
    requires cfg.batchSize >= 1 && cfg.kind == Delete(hard) && !Deduplicates(cfg) && cfg.explicitIds.None?
    requires NoOutsideWrite(es) && (!hard && cfg.entity.softDelete ==> !cfg.includeDeleted)
    requires var s := Run(cfg, Init(t0, scheduled), es); Regular(s) && s.db.action.status == Completed
    ensures TargetSet(cfg, Run(cfg, Init(t0, scheduled), es).db.entities) == {}
  {
    forall id ensures id !in TargetSet(cfg, Run(cfg, Init(t0, scheduled), es).db.entities) {
      NotLeftToDelete(cfg, hard, t0, scheduled, es, id);
    }
  }
}
