/** The read models over the log (app/services/bulk_action_service.py): stats and log paging. */
module ReadModels {
  import opened Domain
  import opened Store
  import opened Protocol

  // ----- Stats ---------------------------------------------------------------------------

  function CountReason(logs: seq<LogRow>, st: LogStatus, r: LogReason): nat {
    if logs == [] then 0
    else
      var last := logs[|logs| - 1].outcome;
      CountReason(logs[..|logs| - 1], st, r) + (if last.status == st && last.reason == r then 1 else 0)
  }

  // One row of SELECT status, reason_code, count(*) ... GROUP BY status, reason_code.
  datatype Group = Group(status: LogStatus, reason: LogReason, n: nat)

  ghost predicate IsGroupBy(gs: seq<Group>, logs: seq<LogRow>) {
    && (forall i :: 0 <= i < |gs| ==>
          gs[i].status != Success && gs[i].n == CountReason(logs, gs[i].status, gs[i].reason) > 0)
    && (forall i, j :: 0 <= i < j < |gs| ==> gs[i].status != gs[j].status || gs[i].reason != gs[j].reason)
    && (forall st, r :: st != Success && CountReason(logs, st, r) > 0 ==> HasGroup(gs, st, r))
  }

  ghost predicate HasGroup(gs: seq<Group>, st: LogStatus, r: LogReason) {
    exists i :: 0 <= i < |gs| && gs[i].status == st && gs[i].reason == r
  }

  ghost predicate IsBreakdown(m: map<LogReason, nat>, logs: seq<LogRow>, st: LogStatus) {
    forall r :: (r in m <==> CountReason(logs, st, r) > 0) && (r in m ==> m[r] == CountReason(logs, st, r))
  }

  method Breakdowns(gs: seq<Group>, ghost logs: seq<LogRow>)
    returns (failures: map<LogReason, nat>, skips: map<LogReason, nat>)
    requires IsGroupBy(gs, logs)
    ensures IsBreakdown(failures, logs, Failed) && IsBreakdown(skips, logs, Skipped)
  {
    failures, skips := map[], map[];
    for i := 0 to |gs|
      invariant forall r :: r in failures <==> HasGroup(gs[..i], Failed, r)
      invariant forall r :: r in skips <==> HasGroup(gs[..i], Skipped, r)
      invariant forall r :: r in failures ==> failures[r] == CountReason(logs, Failed, r)
      invariant forall r :: r in skips ==> skips[r] == CountReason(logs, Skipped, r)
    {
      HasGroupSnoc(gs, i);
      if gs[i].status == Failed {
        failures := failures[gs[i].reason := gs[i].n];
      } else {
        skips := skips[gs[i].reason := gs[i].n];
      }
    }
    assert gs[..|gs|] == gs;
  }

  lemma HasGroupSnoc(gs: seq<Group>, i: nat)
    requires i < |gs|
    ensures forall st, r ::
              HasGroup(gs[..i + 1], st, r) <==> HasGroup(gs[..i], st, r) || (gs[i].status == st && gs[i].reason == r)
  {
    forall st, r
      ensures HasGroup(gs[..i + 1], st, r) <==> HasGroup(gs[..i], st, r) || (gs[i].status == st && gs[i].reason == r)
    {
      if HasGroup(gs[..i], st, r) {
        var k :| 0 <= k < i && gs[..i][k].status == st && gs[..i][k].reason == r;
        assert gs[..i + 1][k] == gs[..i][k];
      }
      assert gs[..i + 1][i] == gs[i];
      if HasGroup(gs[..i + 1], st, r) {
        var k :| 0 <= k < i + 1 && gs[..i + 1][k].status == st && gs[..i + 1][k].reason == r;
        if k < i { assert gs[..i][k] == gs[..i + 1][k]; }
      }
    }
  }

  function Entry(m: map<LogReason, nat>, r: LogReason): nat { if r in m then m[r] else 0 }

  // The sum of a breakdown's values, reason by reason.
  function TotalOf(m: map<LogReason, nat>): nat {
    Entry(m, Updated) + Entry(m, Deleted) + Entry(m, DuplicateEmail) + Entry(m, DuplicateKey)
    + Entry(m, EntityNotFound) + Entry(m, LeftTargetSet) + Entry(m, NoChange) + Entry(m, BatchError)
  }

  lemma {:induction false} ReasonsAddUp(logs: seq<LogRow>, st: LogStatus)
    ensures CountReason(logs, st, Updated) + CountReason(logs, st, Deleted) + CountReason(logs, st, DuplicateEmail)
            + CountReason(logs, st, DuplicateKey) + CountReason(logs, st, EntityNotFound)
                + CountReason(logs, st, LeftTargetSet)
            + CountReason(logs, st, NoChange) + CountReason(logs, st, BatchError) == CountLogs(logs, st)
  {
    if logs != [] {
      ReasonsAddUp(logs[..|logs| - 1], st);
    }
  }

  /** In every reachable state the breakdowns add up to the action's own counters. */
  lemma BreakdownsMatchCounters(cfg: Config, entities: Table, scheduled: bool, es: seq<Event>,
                                failures: map<LogReason, nat>, skips: map<LogReason, nat>)
    requires cfg.batchSize >= 1
    requires var logs := Run(cfg, Init(entities, scheduled), es).db.logs;
             IsBreakdown(failures, logs, Failed) && IsBreakdown(skips, logs, Skipped)
    ensures var a := Run(cfg, Init(entities, scheduled), es).db.action;
            TotalOf(failures) == a.failure && TotalOf(skips) == a.skipped
  {
    var s := Run(cfg, Init(entities, scheduled), es);
    CountersAlwaysAgree(cfg, entities, scheduled, es);
    BreakdownTotal(failures, s.db.logs, Failed);
    BreakdownTotal(skips, s.db.logs, Skipped);
  }

  lemma BreakdownTotal(m: map<LogReason, nat>, logs: seq<LogRow>, st: LogStatus)
    requires IsBreakdown(m, logs, st)
    ensures TotalOf(m) == CountLogs(logs, st)
  {
    ReasonsAddUp(logs, st);
    assert forall r :: Entry(m, r) == CountReason(logs, st, r);
  }

  // ----- Paging --------------------------------------------------------------------------

  datatype Stored = Stored(id: int, row: LogRow)

  type Match = Stored -> bool

  predicate IdsIncrease(rows: seq<Stored>) {
    forall i, j :: 0 <= i < j < |rows| ==> rows[i].id < rows[j].id
  }

  predicate Beyond(r: Stored, cursor: Option<int>) {
    cursor.Some? ==> r.id > cursor.value
  }

  // WHERE ... AND id > cursor ORDER BY id.
  function Matching(rows: seq<Stored>, match_: Match, cursor: Option<int>): seq<Stored> {
    if rows == [] then []
    else
      var n := |rows| - 1;
      Matching(rows[..n], match_, cursor) + (if match_(rows[n]) && Beyond(rows[n], cursor) then [rows[n]] else [])
  }

  datatype LogPage = LogPage(items: seq<Stored>, next: Option<int>, hasMore: bool)

  function ListLogs(rows: seq<Stored>, match_: Match, cursor: Option<int>, limit: nat): LogPage {
    var found := Matching(rows, match_, cursor);
    var hasMore := |found| > limit;
    var items := if hasMore then found[..limit] else found;
    LogPage(items, if items != [] && hasMore then Some(items[|items| - 1].id) else None, hasMore)
  }

  // In id order, beyond the cursor, and not beyond `top`.
  predicate Between(m: seq<Stored>, cursor: Option<int>, top: int) {
    IdsIncrease(m) && forall i :: 0 <= i < |m| ==> Beyond(m[i], cursor) && m[i].id <= top
  }

  lemma BetweenSnoc(m: seq<Stored>, cursor: Option<int>, top: int, r: Stored)
    requires Between(m, cursor, top) && top < r.id && Beyond(r, cursor)
    ensures Between(m + [r], cursor, r.id)
  {}

  lemma {:induction false} MatchingFacts(rows: seq<Stored>, match_: Match, cursor: Option<int>, top: int)
    requires IdsIncrease(rows) && (rows != [] ==> rows[|rows| - 1].id <= top)
    ensures Between(Matching(rows, match_, cursor), cursor, top)
  {
    if rows != [] {
      var n := |rows| - 1;
      var m, r := Matching(rows[..n], match_, cursor), rows[n];
      MatchingFacts(rows[..n], match_, cursor, r.id - 1);
      if match_(r) && Beyond(r, cursor) {
        BetweenSnoc(m, cursor, r.id - 1, r);
      } else {
        assert m + [] == m;
      }
    }
  }

  lemma {:induction false} NothingBeyond(rows: seq<Stored>, match_: Match, top: int)
    requires forall i :: 0 <= i < |rows| ==> rows[i].id <= top
    ensures Matching(rows, match_, Some(top)) == []
  {
    if rows != [] {
      NothingBeyond(rows[..|rows| - 1], match_, top);
    }
  }

  lemma {:induction false} MatchingMembers(rows: seq<Stored>, match_: Match, cursor: Option<int>, r: Stored)
    ensures r in Matching(rows, match_, cursor) <==> r in rows && match_(r) && Beyond(r, cursor)
  {
    if rows != [] {
      var n := |rows| - 1;
      MatchingMembers(rows[..n], match_, cursor, r);
      assert rows == rows[..n] + [rows[n]];
    }
  }

  // Read number k sees `log(k)`.  Rows become visible in any order, wherever their ids put them.
  ghost predicate Grows(log: nat -> seq<Stored>) {
    && (forall k: nat :: IdsIncrease(log(k)))
    && (forall k: nat, r :: r in log(k) ==> r in log(k + 1))
  }

  lemma {:induction false} SeenLater(log: nat -> seq<Stored>, j: nat, k: nat, r: Stored)
    requires Grows(log) && j <= k && r in log(j)
    ensures r in log(k)
    decreases k
  {
    if j < k {
      SeenLater(log, j, k - 1, r);
      assert r in log(k - 1 + 1);
    }
  }

  // The cursor of read number k: none at first, then what the page before handed out.
  function CursorAt(log: nat -> seq<Stored>, match_: Match, limit: nat, k: nat): Option<int>
    decreases k, 0
  {
    if k == 0 then None else PageRead(log, match_, limit, k - 1).next
  }

  function PageRead(log: nat -> seq<Stored>, match_: Match, limit: nat, k: nat): LogPage
    decreases k, 1
  {
    ListLogs(log(k), match_, CursorAt(log, match_, limit, k), limit)
  }

  // What the first n pages returned.
  function RowsRead(log: nat -> seq<Stored>, match_: Match, limit: nat, n: nat): seq<Stored> {
    if n == 0 then [] else RowsRead(log, match_, limit, n - 1) + PageRead(log, match_, limit, n - 1).items
  }

  // Each of the first n pages handed out a cursor.
  predicate GoesOn(log: nat -> seq<Stored>, match_: Match, limit: nat, n: nat) {
    forall k: nat :: k < n ==> PageRead(log, match_, limit, k).next.Some?
  }

  // A matching row of the log at read `end` that was not there when the page that handed out
  // cursor j was read, and now lies at or below that cursor.
  predicate LateFor(log: nat -> seq<Stored>, match_: Match, limit: nat, end: nat, j: nat, r: Stored) {
    && j > 0 && r in log(end) && match_(r) && !Beyond(r, CursorAt(log, match_, limit, j)) && r !in log(j - 1)
  }

  ghost predicate NothingLate(log: nat -> seq<Stored>, match_: Match, limit: nat, end: nat, n: nat) {
    forall j: nat, r :: j <= n ==> !LateFor(log, match_, limit, end, j, r)
  }

  // In id order, none beyond the cursor of read n, all matching and all seen by the read before.
  ghost predicate ReadInOrder(log: nat -> seq<Stored>, match_: Match, limit: nat, n: nat) {
    var all := RowsRead(log, match_, limit, n);
    && IdsIncrease(all)
    && forall r :: r in all ==> n > 0 && r in log(n - 1) && match_(r) && !Beyond(r, CursorAt(log, match_, limit, n))
  }

  // The matches beyond one cursor and not beyond the next.
  predicate IsSlice(items: seq<Stored>, rows: seq<Stored>, match_: Match, cursor: Option<int>, next: Option<int>) {
    IdsIncrease(items)
    && (forall r :: r in items ==> r in rows && match_(r) && Beyond(r, cursor) && !Beyond(r, next))
    && (forall r :: r in rows && match_(r) && Beyond(r, cursor) && !Beyond(r, next) ==> r in items)
  }

  // A page that hands out a cursor is full and is the slice up to it; the last page is all the rest.
  lemma PageFacts(rows: seq<Stored>, match_: Match, cursor: Option<int>, limit: nat)
    requires IdsIncrease(rows) && limit >= 1
    ensures var page := ListLogs(rows, match_, cursor, limit);
            if page.next.None? then page.items == Matching(rows, match_, cursor)
            else |page.items| == limit && IsSlice(page.items, rows, match_, cursor, page.next)
                 && (cursor.Some? ==> cursor.value < page.next.value)
    ensures IdsIncrease(Matching(rows, match_, cursor))
  {
    var found := Matching(rows, match_, cursor);
    MatchingFacts(rows, match_, cursor, if rows == [] then 0 else rows[|rows| - 1].id);
    forall r ensures r in found <==> r in rows && match_(r) && Beyond(r, cursor) {
      MatchingMembers(rows, match_, cursor, r);
    }
    if |found| > limit {
      PrefixIsSlice(found, rows, match_, cursor, limit);
      assert found[limit - 1] in found;
    }
  }

  lemma PrefixIsSlice(found: seq<Stored>, rows: seq<Stored>, match_: Match, cursor: Option<int>, n: nat)
    requires IdsIncrease(found) && 0 < n < |found|
    requires forall r :: r in found <==> r in rows && match_(r) && Beyond(r, cursor)
    ensures IsSlice(found[..n], rows, match_, cursor, Some(found[n - 1].id))
  {
    var top := found[n - 1].id;
    forall r | r in found[..n] ensures r in found && r.id <= top {
      var i :| 0 <= i < n && found[i] == r;
    }
    forall r | r in found && r.id <= top ensures r in found[..n] {
      var i :| 0 <= i < |found| && found[i] == r;
      assert found[..n][i] == r;
    }
  }

  lemma AppendInOrder(xs: seq<Stored>, ys: seq<Stored>, cut: Option<int>)
    requires IdsIncrease(xs) && IdsIncrease(ys)
    requires (forall r :: r in xs ==> !Beyond(r, cut)) && (forall r :: r in ys ==> Beyond(r, cut))
    ensures IdsIncrease(xs + ys)
  {
    forall i, j | 0 <= i < |xs| && 0 <= j < |ys| ensures xs[i].id < ys[j].id {
      assert xs[i] in xs && ys[j] in ys;
    }
  }

  lemma {:induction false} ReadsInOrder(log: nat -> seq<Stored>, match_: Match, limit: nat, n: nat)
    requires Grows(log) && limit >= 1 && GoesOn(log, match_, limit, n)
    ensures ReadInOrder(log, match_, limit, n)
  {
    if n > 0 {
      var m := n - 1;
      ReadsInOrder(log, match_, limit, m);
      var before, page := RowsRead(log, match_, limit, m), PageRead(log, match_, limit, m);
      var cursor := CursorAt(log, match_, limit, m);
      PageFacts(log(m), match_, cursor, limit);
      forall r | r in before ensures r in log(m) {
        SeenLater(log, m - 1, m, r);
      }
      SliceFollows(before, page.items, log(m), match_, cursor, page.next);
    }
  }

  lemma {:induction false} FullPages(log: nat -> seq<Stored>, match_: Match, limit: nat, n: nat)
    requires Grows(log) && limit >= 1 && GoesOn(log, match_, limit, n)
    ensures |RowsRead(log, match_, limit, n)| == n * limit
  {
    if n > 0 {
      FullPages(log, match_, limit, n - 1);
      PageFacts(log(n - 1), match_, CursorAt(log, match_, limit, n - 1), limit);
      assert n * limit == (n - 1) * limit + limit;
    }
  }

  lemma SliceFollows(before: seq<Stored>, items: seq<Stored>, rows: seq<Stored>, match_: Match,
                     cursor: Option<int>, next: Option<int>)
    requires IdsIncrease(before) && IsSlice(items, rows, match_, cursor, next)
    requires forall r :: r in before ==> r in rows && match_(r) && !Beyond(r, cursor)
    requires next.Some? && (cursor.Some? ==> cursor.value < next.value)
    ensures IdsIncrease(before + items)
    ensures forall r :: r in before + items ==> r in rows && match_(r) && !Beyond(r, next)
  {
    AppendInOrder(before, items, cursor);
  }

  // Every matching row of read `end` that is not beyond the cursor of read n has been returned.
  ghost predicate AllRead(log: nat -> seq<Stored>, match_: Match, limit: nat, end: nat, n: nat) {
    forall r :: r in log(end) && match_(r) && n > 0 && !Beyond(r, CursorAt(log, match_, limit, n)) ==>
      r in RowsRead(log, match_, limit, n)
  }

  lemma OnePageMore(log: nat -> seq<Stored>, match_: Match, limit: nat, end: nat, m: nat)
    requires Grows(log) && limit >= 1 && m < end && GoesOn(log, match_, limit, m + 1)
    requires AllRead(log, match_, limit, end, m) <==> NothingLate(log, match_, limit, end, m)
    ensures AllRead(log, match_, limit, end, m + 1) <==> NothingLate(log, match_, limit, end, m + 1)
  {
    ReadsInOrder(log, match_, limit, m);
    ReadsInOrder(log, match_, limit, m + 1);
    PageFacts(log(m), match_, CursorAt(log, match_, limit, m), limit);
    if AllRead(log, match_, limit, end, m + 1) {
      AllReadBefore(log, match_, limit, end, m);
      forall j: nat, r | j <= m + 1 ensures !LateFor(log, match_, limit, end, j, r) {
        if j <= m {
          assert !LateFor(log, match_, limit, end, j, r);
        }
      }
    }
    if NothingLate(log, match_, limit, end, m + 1) {
      NothingLateReads(log, match_, limit, end, m);
    }
  }

  lemma AllReadBefore(log: nat -> seq<Stored>, match_: Match, limit: nat, end: nat, m: nat)
    requires Grows(log) && limit >= 1 && GoesOn(log, match_, limit, m + 1)
    requires AllRead(log, match_, limit, end, m + 1)
    ensures AllRead(log, match_, limit, end, m)
  {
    var cursor, page := CursorAt(log, match_, limit, m), PageRead(log, match_, limit, m);
    PageFacts(log(m), match_, cursor, limit);
    forall r | r in log(end) && match_(r) && m > 0 && !Beyond(r, cursor) ensures r in RowsRead(log, match_, limit, m) {
      assert r in RowsRead(log, match_, limit, m + 1);
      assert r !in page.items;
    }
  }

  lemma NothingLateReads(log: nat -> seq<Stored>, match_: Match, limit: nat, end: nat, m: nat)
    requires Grows(log) && limit >= 1 && GoesOn(log, match_, limit, m + 1)
    requires NothingLate(log, match_, limit, end, m + 1) && AllRead(log, match_, limit, end, m)
    ensures AllRead(log, match_, limit, end, m + 1)
  {
    var cursor, page := CursorAt(log, match_, limit, m), PageRead(log, match_, limit, m);
    PageFacts(log(m), match_, cursor, limit);
    forall r | r in log(end) && match_(r) && !Beyond(r, page.next) ensures r in RowsRead(log, match_, limit, m + 1) {
      assert !LateFor(log, match_, limit, end, m + 1, r);
      if Beyond(r, cursor) {
        assert r in page.items;
      }
    }
  }

  lemma {:induction false} AllReadExactlyWhen(log: nat -> seq<Stored>, match_: Match, limit: nat, end: nat, n: nat)
    requires Grows(log) && limit >= 1 && n <= end && GoesOn(log, match_, limit, n)
    ensures AllRead(log, match_, limit, end, n) <==> NothingLate(log, match_, limit, end, n)
  {
    if n > 0 {
      AllReadExactlyWhen(log, match_, limit, end, n - 1);
      OnePageMore(log, match_, limit, end, n - 1);
    }
  }

  lemma LastIsTop(xs: seq<Stored>, r: Stored)
    requires IdsIncrease(xs) && r in xs
    ensures r.id <= xs[|xs| - 1].id
    ensures r.id == xs[|xs| - 1].id ==> r == xs[|xs| - 1]
    ensures r in xs[..|xs| - 1] <==> r != xs[|xs| - 1]
  {
    var n := |xs| - 1;
    var i :| 0 <= i <= n && xs[i] == r;
    if i < n {
      assert xs[..n][i] == r;
    }
    assert forall k :: 0 <= k < n ==> xs[..n][k] == xs[k];
  }

  lemma {:induction false} SameMembersSameOrder(xs: seq<Stored>, ys: seq<Stored>)
    requires IdsIncrease(xs) && IdsIncrease(ys) && forall r :: r in xs <==> r in ys
    ensures xs == ys
  {
    assert ys != [] ==> ys[0] in ys;
    if xs != [] {
      var n, m := |xs| - 1, |ys| - 1;
      assert xs[n] in xs && ys[m] in ys;
      LastIsTop(xs, ys[m]);
      LastIsTop(ys, xs[n]);
      assert xs[n] == ys[m];
      forall r ensures r in xs[..n] <==> r in ys[..m] {
        if r in xs {
          LastIsTop(xs, r);
          LastIsTop(ys, r);
        }
      }
      SameMembersSameOrder(xs[..n], ys[..m]);
      assert xs == xs[..n] + [xs[n]] && ys == ys[..m] + [ys[m]];
    }
  }

  /** Following next_cursor to the end while rows become visible in any order: the pages concatenate
      to the matching rows the last read saw, each once and in order, if and only if no matching row
      became visible at or below a cursor already handed out. */
  lemma PagesCompleteExactlyWhen(log: nat -> seq<Stored>, match_: Match, limit: nat, n: nat)
    requires Grows(log) && limit >= 1 && GoesOn(log, match_, limit, n) && PageRead(log, match_, limit, n).next.None?
    ensures RowsRead(log, match_, limit, n + 1) == Matching(log(n), match_, None)
            <==> NothingLate(log, match_, limit, n, n)
    ensures IdsIncrease(RowsRead(log, match_, limit, n + 1))
    ensures forall r :: r in RowsRead(log, match_, limit, n + 1) ==> r in Matching(log(n), match_, None)
  {
    var before, m := RowsRead(log, match_, limit, n), Matching(log(n), match_, None);
    var page, cursor := PageRead(log, match_, limit, n), CursorAt(log, match_, limit, n);
    ReadsInOrder(log, match_, limit, n);
    PageFacts(log(n), match_, cursor, limit);
    PageFacts(log(n), match_, None, limit);
    AllReadExactlyWhen(log, match_, limit, n, n);
    var all := before + page.items;
    forall r
      ensures r in m <==> r in log(n) && match_(r)
      ensures r in page.items <==> r in log(n) && match_(r) && Beyond(r, cursor)
      ensures r in before ==> r in log(n) && match_(r) && !Beyond(r, cursor)
    {
      MatchingMembers(log(n), match_, None, r);
      MatchingMembers(log(n), match_, cursor, r);
      if r in before {
        SeenLater(log, n - 1, n, r);
      }
    }
    AppendInOrder(before, page.items, cursor);
    if AllRead(log, match_, limit, n, n) {
      SameMembersSameOrder(all, m);
    }
    if all == m {
      forall r | r in log(n) && match_(r) && n > 0 && !Beyond(r, cursor) ensures r in before {
        assert r in all;
      }
    }
  }

  /** In particular, an append-only log is read completely. */
  lemma AppendedIsComplete(log: nat -> seq<Stored>, match_: Match, limit: nat, n: nat)
    requires Grows(log) && limit >= 1 && GoesOn(log, match_, limit, n) && PageRead(log, match_, limit, n).next.None?
    requires forall k: nat, r :: k < n && r in log(n) && r !in log(k) ==> forall q :: q in log(k) ==> q.id < r.id
    ensures RowsRead(log, match_, limit, n + 1) == Matching(log(n), match_, None)
  {
    PagesCompleteExactlyWhen(log, match_, limit, n);
    forall j: nat, r | j <= n ensures !LateFor(log, match_, limit, n, j, r) {
      if LateFor(log, match_, limit, n, j, r) {
        NoneLateAppended(log, match_, limit, n, j, r);
      }
    }
  }

  lemma NoneLateAppended(log: nat -> seq<Stored>, match_: Match, limit: nat, n: nat, j: nat, r: Stored)
    requires Grows(log) && limit >= 1 && GoesOn(log, match_, limit, n) && 0 < j <= n
    requires r in log(n) && r !in log(j - 1) && forall q :: q in log(j - 1) ==> q.id < r.id
    ensures Beyond(r, CursorAt(log, match_, limit, j))
  {
    var page := PageRead(log, match_, limit, j - 1);
    PageFacts(log(j - 1), match_, CursorAt(log, match_, limit, j - 1), limit);
    var last := page.items[limit - 1];
    assert last in page.items && last in log(j - 1) && page.next == Some(last.id);
  }

  // Where the client's loop is after `pages` reads.
  ghost predicate Reading(log: nat -> seq<Stored>, match_: Match, limit: nat, pages: nat, all: seq<Stored>,
                          cursor: Option<int>, done: bool) {
    && all == RowsRead(log, match_, limit, pages) && cursor == CursorAt(log, match_, limit, pages)
    && (if done then pages > 0 && GoesOn(log, match_, limit, pages - 1) && cursor.None?
        else GoesOn(log, match_, limit, pages))
  }

  lemma NextRead(log: nat -> seq<Stored>, match_: Match, limit: nat, pages: nat, all: seq<Stored>, cursor: Option<int>)
    requires Reading(log, match_, limit, pages, all, cursor, false)
    ensures var page := ListLogs(log(pages), match_, cursor, limit);
            Reading(log, match_, limit, pages + 1, all + page.items, page.next, page.next.None?)
  {}

  // What the caller may conclude.
  ghost predicate Returned(log: nat -> seq<Stored>, match_: Match, limit: nat, pages: nat, all: seq<Stored>,
                           done: bool) {
    && all == RowsRead(log, match_, limit, pages) && IdsIncrease(all)
    && if !done then |all| == pages * limit
       else pages > 0 && (forall r :: r in all ==> r in Matching(log(pages - 1), match_, None))
            && (all == Matching(log(pages - 1), match_, None)
                <==> NothingLate(log, match_, limit, pages - 1, pages - 1))
  }

  lemma ReadingEnds(log: nat -> seq<Stored>, match_: Match, limit: nat, pages: nat, all: seq<Stored>,
                    cursor: Option<int>, done: bool)
    requires limit >= 1 && Grows(log) && Reading(log, match_, limit, pages, all, cursor, done)
    ensures Returned(log, match_, limit, pages, all, done)
  {
    if done {
      PagesCompleteExactlyWhen(log, match_, limit, pages - 1);
    } else {
      ReadsInOrder(log, match_, limit, pages);
      FullPages(log, match_, limit, pages);
    }
  }

  /** The client's loop, for at most `budget` reads: every page but the last is full, nothing is
      returned twice or out of order, and a finished loop has returned all that the last read could
      have seen exactly if nothing came late. */
  method ReadAllPages(log: nat -> seq<Stored>, match_: Match, limit: nat, budget: nat)
    returns (all: seq<Stored>, pages: nat, done: bool)
    requires limit >= 1 && Grows(log)
    ensures Returned(log, match_, limit, pages, all, done) && (if done then pages <= budget else pages == budget)
  {
    all, pages, done := [], 0, false;
    var cursor: Option<int> := None;
    while !done && pages < budget
      invariant pages <= budget && Reading(log, match_, limit, pages, all, cursor, done)
      decreases if done then 0 else 1 + budget - pages
    {
      var page := ListLogs(log(pages), match_, cursor, limit);
      NextRead(log, match_, limit, pages, all, cursor);
      all := all + page.items;
      done := page.next.None?;
      cursor := page.next;
      pages := pages + 1;
    }
    ReadingEnds(log, match_, limit, pages, all, cursor, done);
  }

  // ----- A row that is never returned ----------------------------------------------------

  function Numbered(id: int): Stored {
    Stored(id, LogRow(0, Outcome(None, Failed, BatchError)))
  }

  // Ids 1 and 2 are drawn by a batch that commits after the one that drew 3 and 4.
  function Overlapping(): nat -> seq<Stored> {
    (k: nat) =>
      if k == 0 then [Numbered(3), Numbered(4)] else [Numbered(1), Numbered(2), Numbered(3), Numbered(4)]
  }

  function Anything(): Match {
    (r: Stored) => true
  }

  lemma {:induction false} MatchesAll(rows: seq<Stored>)
    ensures Matching(rows, Anything(), None) == rows
  {
    if rows != [] {
      MatchesAll(rows[..|rows| - 1]);
    }
  }

  lemma OverlappingGrows()
    ensures Grows(Overlapping())
  {
    var early, late := [Numbered(3), Numbered(4)], [Numbered(1), Numbered(2), Numbered(3), Numbered(4)];
    assert early[0] == late[2] && early[1] == late[3];
    forall k: nat ensures IdsIncrease(Overlapping()(k)) {}
    forall k: nat, r | r in Overlapping()(k) ensures r in Overlapping()(k + 1) {
      assert r in early ==> r == late[2] || r == late[3];
    }
  }

  lemma SecondPage()
    ensures ListLogs(Overlapping()(1), Anything(), Some(3), 1) == LogPage([Numbered(4)], None, false)
  {
    var rows := Overlapping()(1);
    var m := Anything();
    assert rows[..3][..2][..1][..0] == [];
    assert rows[..3] == [Numbered(1), Numbered(2), Numbered(3)] && rows[..3][..2] == [Numbered(1), Numbered(2)];
    NothingBeyond(rows[..3], m, 3);
    assert Matching(rows, m, Some(3)) == [] + [Numbered(4)];
  }

  /** Two overlapping batches and one reader: log ids are drawn inside the batches' transactions, so
      the rows of the one that drew first can appear second, behind the reader's cursor.  Two rows
      are never returned. */
  lemma LateRowsAreLost()
    ensures var log, m := Overlapping(), Anything();
            Grows(log) && GoesOn(log, m, 1, 1) && PageRead(log, m, 1, 1).next.None?
            && RowsRead(log, m, 1, 2) == [Numbered(3), Numbered(4)]
            && Matching(log(1), m, None) == [Numbered(1), Numbered(2), Numbered(3), Numbered(4)]
  {
    OverlappingGrows();
    FirstPage();
    SecondPage();
    TwoPages(Overlapping(), Anything());
    MatchesAll(Overlapping()(1));
  }

  lemma TwoPages(log: nat -> seq<Stored>, m: Match)
    requires ListLogs(log(0), m, None, 1) == LogPage([Numbered(3)], Some(3), true)
    requires ListLogs(log(1), m, Some(3), 1) == LogPage([Numbered(4)], None, false)
    ensures GoesOn(log, m, 1, 1) && PageRead(log, m, 1, 1).next.None?
    ensures RowsRead(log, m, 1, 2) == [Numbered(3), Numbered(4)]
  {
    assert PageRead(log, m, 1, 0) == ListLogs(log(0), m, None, 1);
    assert CursorAt(log, m, 1, 1) == Some(3);
    assert RowsRead(log, m, 1, 1) == [] + [Numbered(3)];
    assert RowsRead(log, m, 1, 2) == [Numbered(3)] + [Numbered(4)];
  }

  lemma FirstPage()
    ensures ListLogs(Overlapping()(0), Anything(), None, 1) == LogPage([Numbered(3)], Some(3), true)
  {
    MatchesAll(Overlapping()(0));
  }
}
