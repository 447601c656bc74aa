/**
 The log as a book of accountings: it is, entry by entry, what the accounting commits emitted; it
 names every row they loaded; and with one accounting per batch it never names an entity twice.
 */
module LogBook {
  import opened Domain
  import opened Dedup
  import opened Handlers
  import opened BatchRunner
  import opened Store
  import opened Protocol
  import opened Closing
  import opened Walking
  import Planning

  // ----- What was logged -----------------------------------------------------------------

  // `os` is what executing `work` emits on some table and ledger.
  ghost predicate EmittedBy(cfg: Config, work: PlannedBatch, os: seq<Outcome>) {
    exists t, ledger :: IsEmission(cfg, t, ledger, work, os)
  }

  predicate IsEmission(cfg: Config, t: Table, ledger: set<Key>, work: PlannedBatch, os: seq<Outcome>) {
    os == BatchOutcomes(cfg, t, ledger, work, LoadRows(cfg, t, work))
  }

  // The outcomes of one accounting: those of a batch run, or one anonymous failure per planned entity.
  ghost predicate Explains(cfg: Config, work: PlannedBatch, a: Accounting, os: seq<Outcome>) {
    |os| == a.emitted && if a.executed then EmittedBy(cfg, work, os) else os == Lost(work.entityCount)
  }

  // The accountings' outcomes, one after the other, each under its own batch.
  function Written(acc: seq<Accounting>, book: seq<seq<Outcome>>): seq<LogRow>
    requires |acc| == |book|
  {
    if acc == [] then []
    else
      var n := |acc| - 1;
      Written(acc[..n], book[..n]) + Tagged(acc[n].index, book[n])
  }

  ghost predicate Explained(cfg: Config, m: map<nat, BatchRow>, a: Accounting, os: seq<Outcome>) {
    a.index in m && Explains(cfg, m[a.index].work, a, os)
  }

  ghost predicate IsBook(cfg: Config, m: map<nat, BatchRow>, acc: seq<Accounting>, logs: seq<LogRow>,
                         book: seq<seq<Outcome>>) {
    && |book| == |acc|
    && (forall k :: 0 <= k < |acc| ==> Explained(cfg, m, acc[k], book[k]))
    && logs == Written(acc, book)
  }

  lemma BookSnoc(cfg: Config, m: map<nat, BatchRow>, acc: seq<Accounting>, logs: seq<LogRow>,
                 book: seq<seq<Outcome>>, a: Accounting, os: seq<Outcome>)
    requires IsBook(cfg, m, acc, logs, book) && Explained(cfg, m, a, os)
    ensures IsBook(cfg, m, acc + [a], logs + Tagged(a.index, os), book + [os])
  {
    assert (acc + [a])[..|acc|] == acc && (book + [os])[..|book|] == book;
  }

  lemma BookKept(cfg: Config, m: map<nat, BatchRow>, m': map<nat, BatchRow>, acc: seq<Accounting>,
                 logs: seq<LogRow>, book: seq<seq<Outcome>>)
    requires IsBook(cfg, m, acc, logs, book) && SameWork(m, m')
    ensures IsBook(cfg, m', acc, logs, book)
  {
    forall k | 0 <= k < |acc| ensures Explained(cfg, m', acc[k], book[k]) {
      assert Explained(cfg, m, acc[k], book[k]);
    }
  }

  // What the commit of this step emits, on the table and ledger as they are just before it.
  function Entry(cfg: Config, s: State, e: Event): seq<seq<Outcome>> {
    if Executes(s, e) then
      var work := s.db.batches[s.jobs[e.j].index].work;
      [BatchOutcomes(cfg, s.db.entities, s.db.ledger, work, LoadRows(cfg, s.db.entities, work))]
    else if MarksFailed(s, e) then [Lost(s.jobs[e.j].entityCount)]
    else []
  }

  function BookOf(cfg: Config, s: State, es: seq<Event>): seq<seq<Outcome>>
    requires cfg.batchSize >= 1
  {
    if es == [] then []
    else
      var n := |es| - 1;
      BookOf(cfg, s, es[..n]) + Entry(cfg, Run(cfg, s, es[..n]), es[n])
  }

  ghost predicate Booked(cfg: Config, s: State, book: seq<seq<Outcome>>) {
    IsBook(cfg, s.db.batches, s.past.accountings, s.db.logs, book)
  }

  lemma ExecuteBooks(cfg: Config, s: State, j: nat, now: int, book: seq<seq<Outcome>>)
    requires Booked(cfg, s, book) && At(s, j, Attempted) && WouldExecute(s.db, s.jobs[j].index)
    ensures Booked(cfg, StepExecute(cfg, s, j, now), book + Entry(cfg, s, Execute(j, now)))
  {
    var i, s' := s.jobs[j].index, StepExecute(cfg, s, j, now);
    var work := s.db.batches[i].work;
    var os := BatchOutcomes(cfg, s.db.entities, s.db.ledger, work, LoadRows(cfg, s.db.entities, work));
    assert IsEmission(cfg, s.db.entities, s.db.ledger, work, os);
    BookSnoc(cfg, s.db.batches, s.past.accountings, s.db.logs, book, Accounting(i, work.entityCount, |os|, true), os);
    BookKept(cfg, s.db.batches, s'.db.batches, s'.past.accountings, s'.db.logs, book + [os]);
  }

  lemma MarkFailedBooks(cfg: Config, s: State, j: nat, book: seq<seq<Outcome>>)
    requires Booked(cfg, s, book) && Faithful(s) && At(s, j, AtMarkFailed)
    ensures Booked(cfg, StepMarkFailed(s, j), book + [Lost(s.jobs[j].entityCount)])
  {
    var job, s' := s.jobs[j], StepMarkFailed(s, j);
    var a := Accounting(job.index, job.entityCount, job.entityCount, false);
    BookSnoc(cfg, s.db.batches, s.past.accountings, s.db.logs, book, a, Lost(job.entityCount));
    BookKept(cfg, s.db.batches, s'.db.batches, s'.past.accountings, s'.db.logs, book + [Lost(job.entityCount)]);
  }

  lemma QuietBooks(cfg: Config, s: State, s': State, book: seq<seq<Outcome>>)
    requires Booked(cfg, s, book) && SameWork(s.db.batches, s'.db.batches)
    requires s'.past.accountings == s.past.accountings && s'.db.logs == s.db.logs
    ensures Booked(cfg, s', book)
  {
    BookKept(cfg, s.db.batches, s'.db.batches, s.past.accountings, s.db.logs, book);
  }

  lemma StepBooks(cfg: Config, s: State, e: Event, book: seq<seq<Outcome>>)
    requires cfg.batchSize >= 1 && Booked(cfg, s, book) && Faithful(s)
    ensures Booked(cfg, Step(cfg, s, e), book + Entry(cfg, s, e))
  {
    if Executes(s, e) {
      ExecuteBooks(cfg, s, e.j, e.now, book);
    } else if MarksFailed(s, e) {
      MarkFailedBooks(cfg, s, e.j, book);
    } else {
      OthersAreQuiet(cfg, s, e);
      StepKeepsWork(cfg, s, e);
      QuietBooks(cfg, s, Step(cfg, s, e), book);
      assert book + [] == book;
    }
  }

  /** In every reachable state the log is exactly what the accounting commits emitted, in commit
      order: for an executed batch what its run emits on the table and ledger of that moment, for a
      given-up batch one anonymous failure per planned entity, each row under its own batch and
      nothing else. */
  lemma {:induction false} LogIsBook(cfg: Config, entities: Table, scheduled: bool, es: seq<Event>)
    requires cfg.batchSize >= 1
    ensures Booked(cfg, Run(cfg, Init(entities, scheduled), es), BookOf(cfg, Init(entities, scheduled), es))
  {
    if es != [] {
      var n, s0 := |es| - 1, Init(entities, scheduled);
      LogIsBook(cfg, entities, scheduled, es[..n]);
      AlwaysFaithful(cfg, entities, scheduled, es[..n]);
      StepBooks(cfg, Run(cfg, s0, es[..n]), es[n], BookOf(cfg, s0, es[..n]));
    }
  }

  // ----- Every loaded row is logged ------------------------------------------------------

  predicate NamedIn(logs: seq<LogRow>, id: Id) {
    exists a :: 0 <= a < |logs| && logs[a].outcome.entityId == Some(id)
  }

  predicate LoadedAreLogged(s: State) {
    forall r :: r in s.past.loaded ==> NamedIn(s.db.logs, r.id)
  }

  lemma MoreLogs(logs: seq<LogRow>, more: seq<LogRow>, id: Id)
    requires NamedIn(logs, id)
    ensures NamedIn(logs + more, id)
  {
    var a :| 0 <= a < |logs| && logs[a].outcome.entityId == Some(id);
    assert (logs + more)[a] == logs[a];
  }

  lemma EmissionNamesLoaded(cfg: Config, t: Table, ledger: set<Key>, work: PlannedBatch, logs: seq<LogRow>, i: nat,
                            r: Loaded)
    requires r in LoadRows(cfg, t, work)
    ensures NamedIn(logs + Tagged(i, BatchOutcomes(cfg, t, ledger, work, LoadRows(cfg, t, work))), r.id)
  {
    var rows := LoadRows(cfg, t, work);
    var os := BatchOutcomes(cfg, t, ledger, work, rows);
    OutcomesTotal(cfg, t, ledger, work);
    var k :| 0 <= k < |rows| && rows[k] == r;
    assert Present(RowIds(rows))[k] == Some(r.id);
    assert Some(r.id) in multiset(Present(RowIds(rows)));
    assert Some(r.id) in multiset(Named(os));
    var x :| 0 <= x < |Named(os)| && Named(os)[x] == Some(r.id);
    assert (logs + Tagged(i, os))[|logs| + x].outcome == os[x];
  }

  lemma ExecuteLogsLoaded(cfg: Config, s: State, j: nat, now: int)
    requires LoadedAreLogged(s) && At(s, j, Attempted) && WouldExecute(s.db, s.jobs[j].index)
    ensures LoadedAreLogged(StepExecute(cfg, s, j, now))
  {
    var i, s' := s.jobs[j].index, StepExecute(cfg, s, j, now);
    var work := s.db.batches[i].work;
    var rows := LoadRows(cfg, s.db.entities, work);
    var os := BatchOutcomes(cfg, s.db.entities, s.db.ledger, work, rows);
    assert s'.db.logs == s.db.logs + Tagged(i, os) && s'.past.loaded == s.past.loaded + rows;
    forall r | r in s'.past.loaded ensures NamedIn(s'.db.logs, r.id) {
      if r in s.past.loaded {
        MoreLogs(s.db.logs, Tagged(i, os), r.id);
      } else {
        EmissionNamesLoaded(cfg, s.db.entities, s.db.ledger, work, s.db.logs, i, r);
      }
    }
  }

  lemma StepLogsLoaded(cfg: Config, s: State, e: Event)
    requires cfg.batchSize >= 1 && LoadedAreLogged(s)
    ensures LoadedAreLogged(Step(cfg, s, e))
  {
    if Executes(s, e) {
      ExecuteLogsLoaded(cfg, s, e.j, e.now);
    } else if MarksFailed(s, e) {
      var job := s.jobs[e.j];
      forall r | r in s.past.loaded ensures NamedIn(Step(cfg, s, e).db.logs, r.id) {
        MoreLogs(s.db.logs, Tagged(job.index, Lost(job.entityCount)), r.id);
      }
    } else {
      OthersAreQuiet(cfg, s, e);
    }
  }

  /** In every reachable state, every row that any commit loaded is named in the log. */
  lemma {:induction false} EveryLoadIsLogged(cfg: Config, entities: Table, scheduled: bool, es: seq<Event>)
    requires cfg.batchSize >= 1
    ensures LoadedAreLogged(Run(cfg, Init(entities, scheduled), es))
  {
    if es != [] {
      var n := |es| - 1;
      EveryLoadIsLogged(cfg, entities, scheduled, es[..n]);
      StepLogsLoaded(cfg, Run(cfg, Init(entities, scheduled), es[..n]), es[n]);
    }
  }

  // ----- No entity is logged twice -------------------------------------------------------

  predicate NamedOnce(os: seq<Outcome>) {
    forall a, b :: 0 <= a < b < |os| && os[a].entityId.Some? ==> os[a].entityId != os[b].entityId
  }

  predicate NamesOnlyOwned(work: PlannedBatch, os: seq<Outcome>) {
    forall a :: 0 <= a < |os| && os[a].entityId.Some? ==> work.Owns(os[a].entityId.value)
  }

  lemma {:induction false} TwiceInSequence(xs: seq<Option<Id>>, x: Option<Id>, a: nat, b: nat)
    requires a < b < |xs| && xs[a] == x == xs[b]
    ensures multiset(xs)[x] >= 2
  {
    var n := |xs| - 1;
    assert xs == xs[..n] + [xs[n]];
    if b < n {
      TwiceInSequence(xs[..n], x, a, b);
    } else {
      assert xs[..n][a] == x;
      assert x in multiset(xs[..n]);
    }
  }

  lemma {:induction false} PresentOnce(ids: seq<Id>, id: Id)
    requires Planning.Increasing(ids)
    ensures multiset(Present(ids))[Some(id)] <= 1
    ensures id !in ids ==> multiset(Present(ids))[Some(id)] == 0
  {
    if ids != [] {
      var n := |ids| - 1;
      PresentOnce(ids[..n], id);
      assert ids == ids[..n] + [ids[n]];
      PresentSnoc(ids[..n], ids[n]);
      if id == ids[n] {
        assert id !in ids[..n];
      }
    }
  }

  lemma AnonymousDrift(planned: nat, loaded: nat, id: Id)
    ensures multiset(Named(Drift(planned, loaded)))[Some(id)] == 0
  {
    assert Some(id) !in Named(Drift(planned, loaded));
  }

  lemma EmissionCounts(cfg: Config, t: Table, ledger: set<Key>, work: PlannedBatch, os: seq<Outcome>, id: Id)
    requires IsEmission(cfg, t, ledger, work, os)
    ensures multiset(Named(os))[Some(id)] <= 1
    ensures Some(id) in Named(os) ==> work.Owns(id)
  {
    var rows := LoadRows(cfg, t, work);
    OutcomesTotal(cfg, t, ledger, work);
    LoadRowsFacts(cfg, t, work);
    PresentOnce(RowIds(rows), id);
    AnonymousDrift(work.entityCount, |rows|, id);
    if Some(id) in Named(os) {
      assert Some(id) in multiset(Named(os));
      assert id in RowIds(rows);
      var k :| 0 <= k < |rows| && RowIds(rows)[k] == id;
      assert rows[k] in rows;
    }
  }

  lemma EmissionNames(cfg: Config, work: PlannedBatch, a: Accounting, os: seq<Outcome>)
    requires Explains(cfg, work, a, os)
    ensures NamedOnce(os) && NamesOnlyOwned(work, os)
  {
    if a.executed {
      var t, ledger :| IsEmission(cfg, t, ledger, work, os);
      var names := Named(os);
      forall x | 0 <= x < |os| && os[x].entityId.Some? ensures work.Owns(os[x].entityId.value) {
        assert names[x] == os[x].entityId;
        EmissionCounts(cfg, t, ledger, work, os, os[x].entityId.value);
      }
      forall x, y | 0 <= x < y < |os| && os[x].entityId.Some? ensures os[x].entityId != os[y].entityId {
        assert names[x] == os[x].entityId && names[y] == os[y].entityId;
        EmissionCounts(cfg, t, ledger, work, os, os[x].entityId.value);
        if names[x] == names[y] {
          TwiceInSequence(names, names[x], x, y);
        }
      }
    }
  }

  predicate LoggedOnce(logs: seq<LogRow>) {
    forall a, b :: 0 <= a < b < |logs| && logs[a].outcome.entityId.Some? ==>
      logs[a].outcome.entityId != logs[b].outcome.entityId
  }

  // Every named row belongs to an accounted batch that owns the entity.
  predicate LoggedByOwner(m: map<nat, BatchRow>, acc: seq<Accounting>, logs: seq<LogRow>) {
    forall a :: 0 <= a < |logs| && logs[a].outcome.entityId.Some? ==>
      logs[a].batch in m && logs[a].batch in Indices(acc) && m[logs[a].batch].work.Owns(logs[a].outcome.entityId.value)
  }

  lemma {:induction false} BookNamesOnce(cfg: Config, m: map<nat, BatchRow>, acc: seq<Accounting>,
                                         logs: seq<LogRow>, book: seq<seq<Outcome>>)
    requires IsBook(cfg, m, acc, logs, book) && AccountedOnce(acc) && RowsDisjoint(m)
    ensures LoggedOnce(logs) && LoggedByOwner(m, acc, logs)
  {
    if acc != [] {
      var n := |acc| - 1;
      var a, os := acc[n], book[n];
      var init := Written(acc[..n], book[..n]);
      assert acc == acc[..n] + [a];
      FreshIndex(acc[..n], a);
      assert IsBook(cfg, m, acc[..n], init, book[..n]);
      BookNamesOnce(cfg, m, acc[..n], init, book[..n]);
      assert Explained(cfg, m, a, os);
      EmissionNames(cfg, m[a.index].work, a, os);
      IndicesSnoc(acc[..n], a);
      AppendNames(m, acc[..n], init, a, os);
    }
  }

  lemma AppendNames(m: map<nat, BatchRow>, acc: seq<Accounting>, logs: seq<LogRow>, a: Accounting, os: seq<Outcome>)
    requires LoggedOnce(logs) && LoggedByOwner(m, acc, logs) && RowsDisjoint(m)
    requires a.index in m && a.index !in Indices(acc) && Indices(acc + [a]) == Indices(acc) + {a.index}
    requires NamedOnce(os) && NamesOnlyOwned(m[a.index].work, os)
    ensures LoggedOnce(logs + Tagged(a.index, os)) && LoggedByOwner(m, acc + [a], logs + Tagged(a.index, os))
  {
    var all, n := logs + Tagged(a.index, os), |logs|;
    forall x, y | 0 <= x < y < |all| && all[x].outcome.entityId.Some?
      ensures all[x].outcome.entityId != all[y].outcome.entityId
    {
      if x >= n {
        assert os[x - n] == all[x].outcome && os[y - n] == all[y].outcome;
      } else if y >= n {
        assert os[y - n] == all[y].outcome;
        assert m[logs[x].batch].work.Owns(logs[x].outcome.entityId.value);
      }
    }
  }

  /** No entity is named in two log rows: with one accounting per batch (and, for a filter, one
      planning pass), over all interleavings, redeliveries, crashes and outside writers. */
  lemma NoEntityLoggedTwice(cfg: Config, entities: Table, scheduled: bool, es: seq<Event>)
    requires cfg.batchSize >= 1
    requires var s := Run(cfg, Init(entities, scheduled), es);
             AccountedOnce(s.past.accountings) && (cfg.explicitIds.None? ==> s.past.plansOpened <= 1)
    ensures LoggedOnce(Run(cfg, Init(entities, scheduled), es).db.logs)
  {
    var s := Run(cfg, Init(entities, scheduled), es);
    LogIsBook(cfg, entities, scheduled, es);
    NoEntityOwnedTwice(cfg, entities, scheduled, es);
    BookNamesOnce(cfg, s.db.batches, s.past.accountings, s.db.logs, BookOf(cfg, Init(entities, scheduled), es));
  }
}
