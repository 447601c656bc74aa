/**
 No batch is ever empty and none is ever larger than the batch size, so a batch sized by the clamp
 can always be admitted by the account's bucket.
 */
module BatchSizes {
  import opened Domain
  import opened Store
  import opened Protocol
  import opened Replanning
  import opened TokenBucket
  import Planning

  predicate Sizes(rows: seq<PlannedBatch>, size: nat) {
    forall k :: 0 <= k < |rows| ==> 1 <= rows[k].entityCount <= size
  }

  predicate AllSized(s: State, size: nat) {
    && (forall i :: i in s.db.batches ==> 1 <= s.db.batches[i].work.entityCount <= size)
    && (forall p :: p in s.planners ==> Sizes(s.planners[p].pending, size))
  }

  lemma PageSized(cfg: Config, t: Table, pl: Planner)
    requires cfg.batchSize >= 1 && Sizes(pl.pending, cfg.batchSize)
    ensures Sizes(ReadPage(cfg, t, pl).pending, cfg.batchSize)
  {
    if cfg.explicitIds.Some? {
      var ids := Planning.Distinct(cfg.explicitIds.value);
      Planning.ChunksPartition(ids, cfg.batchSize);
      var plan := Planning.ChunkPlan(ids, cfg.batchSize);
      assert pl.totalBatches < |plan| ==> Planning.ChunkShape(plan[pl.totalBatches], cfg.batchSize);
    }
  }

  lemma PageStepSized(cfg: Config, s: State, p: nat)
    requires cfg.batchSize >= 1 && AllSized(s, cfg.batchSize)
    ensures AllSized(StepPlanPage(cfg, s, p), cfg.batchSize)
  {
    if p in s.planners {
      PageSized(cfg, s.db.entities, s.planners[p]);
    }
  }

  lemma FlushSized(s: State, p: nat, size: nat)
    requires AllSized(s, size)
    ensures AllSized(StepPlanFlush(s, p), size)
  {
    if p in s.planners {
      var pl := s.planners[p];
      InsertBatchesKeeps(s.db.batches, FirstPending(pl), pl.pending);
    }
  }

  lemma StepSized(cfg: Config, s: State, e: Event)
    requires cfg.batchSize >= 1 && AllSized(s, cfg.batchSize)
    ensures AllSized(Step(cfg, s, e), cfg.batchSize)
  {
    match e {
      case PlanOpen(_) =>
      case PlanPage(p) => PageStepSized(cfg, s, p);
      case PlanFlush(p) => FlushSized(s, p, cfg.batchSize);
      case PlanClose(_) =>
      case _ =>
        SameRows(cfg, s, e);
        OtherStepLeavesPlanners(cfg, s, e);
    }
  }

  /** Neither the keyset walk nor the chunking ever plans an empty or an oversized batch. */
  lemma {:induction false} AlwaysSized(cfg: Config, entities: Table, scheduled: bool, es: seq<Event>)
    requires cfg.batchSize >= 1
    ensures AllSized(Run(cfg, Init(entities, scheduled), es), cfg.batchSize)
  {
    if es != [] {
      var n := |es| - 1;
      AlwaysSized(cfg, entities, scheduled, es[..n]);
      StepSized(cfg, Run(cfg, Init(entities, scheduled), es[..n]), es[n]);
    }
  }

  // The gate never raises, and after one wait of at most 60050 ms it opens.
  ghost predicate Admissible(limit: int, n: nat, b: Stored, now: int)
    requires limit >= 1
  {
    var wait := RetryAfterMs(limit, UNIT * n - Level(limit, b, now));
    0 < n <= limit
    && (!Allows(limit, b, Call(now, n)) ==>
          50 <= wait <= 60050
          && forall later :: later >= now + wait ==> Allows(limit, Next(limit, b, Call(now, n)), Call(later, n)))
  }

  /** With the batch size clamped to the account's limit, every batch of every run is admissible:
      asking for its tokens is never an error, and a denied batch is admitted once it has waited as
      told, if nobody else consumes meanwhile. */
  lemma DeferredBatchIsAdmitted(cfg: Config, requested: Option<int>, limit: int, entities: Table, scheduled: bool,
                                es: seq<Event>, i: nat, b: Stored, now: int)
    requires limit >= 1 && cfg.batchSize == Planning.EffectiveBatchSize(requested, limit)
    requires i in Run(cfg, Init(entities, scheduled), es).db.batches
    requires InRange(limit, b) && (b.Stored? ==> b.ts <= now)
    ensures Admissible(limit, Run(cfg, Init(entities, scheduled), es).db.batches[i].work.entityCount, b, now)
  {
    AlwaysSized(cfg, entities, scheduled, es);
    var n := Run(cfg, Init(entities, scheduled), es).db.batches[i].work.entityCount;
    WaitAdmits(limit, n, b, now);
  }

  lemma WaitAdmits(limit: int, n: nat, b: Stored, now: int)
    requires limit >= 1 && 0 < n <= limit && InRange(limit, b) && (b.Stored? ==> b.ts <= now)
    ensures Admissible(limit, n, b, now)
  {
    if !Allows(limit, b, Call(now, n)) {
      DeferralSuffices(limit, b, now, n);
    }
  }
}
