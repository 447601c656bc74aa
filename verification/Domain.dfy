/**
 Vocabulary shared by the planner, the workers and the read models: statuses and reason codes
 (app/models/enums.py), outcomes (app/domain/actions/base.py) and entity rows.
 */
module Domain {

  datatype Option<+T> = None | Some(value: T)

  ghost function Pick<T>(s: set<T>): (x: T)
    requires s != {}
    ensures x in s
  {
    var x :| x in s; x
  }

  // Primary keys are 128-bit UUIDs, ordered as unsigned integers.
  const ID_SPACE: int := 0x1_0000_0000_0000_0000_0000_0000_0000_0000
  type Id = int

  predicate IsId(n: Id) {
    0 <= n < ID_SPACE
  }

  datatype ActionStatus =
    | Scheduled | Queued | Planning | Processing
    | Completed | CompletedWithErrors | ActionFailed | ActionCancelled
  {
    predicate Terminal() {
      Completed? || CompletedWithErrors? || ActionFailed? || ActionCancelled?
    }

    predicate Finished() {
      Completed? || CompletedWithErrors?
    }
  }

  datatype BatchStatus = BatchPending | BatchProcessing | BatchCompleted | BatchFailed | BatchCancelled

  datatype LogStatus = Success | Failed | Skipped

  datatype LogReason =
    | Updated | Deleted | DuplicateEmail | DuplicateKey | EntityNotFound
    | LeftTargetSet | NoChange | BatchError

  // One per entity; becomes exactly one log row.
  datatype Outcome = Outcome(entityId: Option<Id>, status: LogStatus, reason: LogReason)

  datatype Value = Null | Text(text: string) | Number(number: int)

  type Columns = map<string, Value>

  // `updatedAt` and `deletedAt` carry the statement time that wrote them.
  datatype EntityRow = EntityRow(account: int, values: Columns, deletedAt: Option<int>, updatedAt: int)

  type Table = map<Id, EntityRow>

  // A row as a handler sees it.
  datatype Loaded = Loaded(id: Id, row: EntityRow)

  function Get(row: EntityRow, field: string): Value {
    if field in row.values then row.values[field] else Null
  }

  datatype ActionKind = Update(updates: Columns) | Delete(hard: bool)

  // `softDelete`: the entity has a soft-delete column.  `stamped`: it has an updated_at column.
  datatype Descriptor = Descriptor(softDelete: bool, stamped: bool)

  datatype Config = Config(
    entity: Descriptor,
    account: int,
    kind: ActionKind,
    filter: EntityRow -> bool,
    explicitIds: Option<seq<Id>>,
    dedupField: Option<string>,
    batchSize: nat,
    includeDeleted: bool)

  /** One unit of work: the ids named by the client, or (`ids == []`) an inclusive id range. */
  datatype PlannedBatch = PlannedBatch(ids: seq<Id>, lo: Id, hi: Id, entityCount: nat)
  {
    predicate Owns(id: Id) {
      if ids != [] then id in ids else lo <= id <= hi
    }
  }

  function Live(cfg: Config, row: EntityRow): bool {
    row.account == cfg.account && (cfg.entity.softDelete && !cfg.includeDeleted ==> row.deletedAt.None?)
  }

  // The WHERE clause of a batch: explicit batches do not re-apply a filter.
  predicate Selected(cfg: Config, b: PlannedBatch, id: Id, row: EntityRow) {
    b.Owns(id) && Live(cfg, row) && (b.ids == [] ==> cfg.filter(row))
  }

  // The target set a filter walk enumerates.
  function TargetSet(cfg: Config, t: Table): set<Id> {
    set id | id in t && Live(cfg, t[id]) && cfg.filter(t[id])
  }

  // ----- Counting outcomes ---------------------------------------------------------------

  function Count(os: seq<Outcome>, st: LogStatus): nat {
    if os == [] then 0
    else Count(os[..|os| - 1], st) + (if os[|os| - 1].status == st then 1 else 0)
  }

  lemma {:induction false} CountAppend(xs: seq<Outcome>, ys: seq<Outcome>, st: LogStatus)
    ensures Count(xs + ys, st) == Count(xs, st) + Count(ys, st)
  {
    if ys == [] {
      assert xs + ys == xs;
    } else {
      var n := |ys| - 1;
      CountAppend(xs, ys[..n], st);
      assert (xs + ys)[..|xs + ys| - 1] == xs + ys[..n];
    }
  }

  /** Every outcome is counted once: the three counts add up to the number of outcomes. */
  lemma {:induction false} CountsAddUp(os: seq<Outcome>)
    ensures Count(os, Success) + Count(os, Failed) + Count(os, Skipped) == |os|
  {
    if os != [] {
      CountsAddUp(os[..|os| - 1]);
    }
  }
}
