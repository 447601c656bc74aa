/**
 Batch planning (app/services/batching.py): the keyset walk over a target set, the chunking of
 explicit ids, and the clamp that keeps every batch admissible by the rate limiter.
 */
module Planning {
  import opened Domain

  const DEFAULT_BATCH_SIZE := 1000
  const MAX_BATCH_SIZE := 10000

  function Min(a: int, b: int): int { if a <= b then a else b }
  function Max(a: int, b: int): int { if a >= b then a else b }

  /** Both clamps at once: never empty, never above the platform maximum, and never larger than
      what the account's bucket can hold; an admissible request is left alone. */
  function EffectiveBatchSize(requested: Option<int>, limit: int): (size: int)
    ensures 1 <= size <= MAX_BATCH_SIZE
    ensures limit >= 1 ==> size <= limit
    ensures requested.None? || requested == Some(0) ==> size == Max(1, Min(DEFAULT_BATCH_SIZE, limit))
    ensures forall n :: requested == Some(n) && n > Min(limit, MAX_BATCH_SIZE) && n != 0 ==>
              size == Max(1, Min(limit, MAX_BATCH_SIZE))
    ensures forall n :: requested == Some(n) && 1 <= n <= Min(limit, MAX_BATCH_SIZE) ==> size == n
  {
    var size := if requested.None? || requested.value == 0 then DEFAULT_BATCH_SIZE else requested.value;
    var bounded := Max(1, Min(size, MAX_BATCH_SIZE));
    Max(1, Min(bounded, limit))
  }

  // ----- Reading a page ------------------------------------------------------------------

  predicate Increasing(s: seq<Id>) {
    forall i, j :: 0 <= i < j < |s| ==> s[i] < s[j]
  }

  predicate IsLeast(m: Id, s: set<Id>) {
    m in s && forall x :: x in s ==> m <= x
  }

  lemma {:induction false} LeastExists(s: set<Id>)
    requires s != {}
    ensures exists m :: IsLeast(m, s)
  {
    var x := Pick(s);
    if s == {x} {
      assert IsLeast(x, s);
    } else {
      LeastExists(s - {x});
      var m :| IsLeast(m, s - {x});
      var least := if x <= m then x else m;
      forall y | y in s ensures least <= y {
        assert y == x || y in s - {x};
      }
      assert IsLeast(least, s);
    }
  }

  function Least(s: set<Id>): (m: Id)
    requires s != {}
    ensures IsLeast(m, s)
  {
    LeastExists(s);
    var m :| IsLeast(m, s);
    m
  }

  /** ORDER BY id LIMIT n: the n smallest ids, in order. */
  function Page(s: set<Id>, n: nat): (page: seq<Id>)
    ensures Increasing(page) && |page| == Min(n, |s|)
    ensures forall x :: x in page ==> x in s
    ensures forall x, y :: x in s && x !in page && y in page ==> y < x
    ensures |page| < n ==> forall x :: x in s ==> x in page
    decreases n
  {
    if n == 0 || s == {} then []
    else
      var m := Least(s);
      var rest := Page(s - {m}, n - 1);
      assert forall i :: 0 <= i < |rest| ==> rest[i] in rest && rest[i] in s - {m};
      [m] + rest
  }

  function Sorted(s: set<Id>): seq<Id> {
    Page(s, |s|)
  }

  lemma SortedIsAll(s: set<Id>)
    ensures Increasing(Sorted(s)) && |Sorted(s)| == |s|
    ensures forall x :: x in Sorted(s) <==> x in s
  {
    var p := Sorted(s);
    var elems := set x | x in p;
    IncreasingCardinality(p);
    if exists x :: x in s && x !in p {
      var x :| x in s && x !in p;
      assert elems <= s - {x};
      SubsetCardinality(elems, s - {x});
      assert false;
    }
  }

  lemma {:induction false} IncreasingCardinality(p: seq<Id>)
    requires Increasing(p)
    ensures |set x | x in p| == |p|
  {
    if p != [] {
      var n := |p| - 1;
      IncreasingCardinality(p[..n]);
      assert (set x | x in p) == (set x | x in p[..n]) + {p[n]};
    }
  }

  lemma {:induction false} SubsetCardinality<T>(a: set<T>, b: set<T>)
    requires a <= b
    ensures |a| <= |b|
    ensures |a| == |b| ==> a == b
  {
    if a != {} {
      var x :| x in a;
      SubsetCardinality(a - {x}, b - {x});
    }
  }

  // `WHERE id > last`, or no bound on the first page.
  function Beyond(s: set<Id>, last: Option<Id>): set<Id> {
    set x | x in s && (last.Some? ==> x > last.value)
  }

  function RangeOf(page: seq<Id>): PlannedBatch
    requires page != []
  {
    PlannedBatch([], page[0], page[|page| - 1], |page|)
  }

  // A page leaves no gap behind it, and a short page leaves nothing beyond it.
  lemma PageCovers(s: set<Id>, last: Option<Id>, size: nat, id: Id)
    requires id in s && (last.Some? ==> id > last.value)
    ensures var ids := Page(Beyond(s, last), size);
            (ids != [] && id <= ids[|ids| - 1] ==> ids[0] <= id)
            && (|ids| < size ==> ids != [] && id <= ids[|ids| - 1])
  {
    var b := Beyond(s, last);
    var ids := Page(b, size);
    assert id in b;
    if id in ids {
      var k :| 0 <= k < |ids| && ids[k] == id;
    } else if ids != [] {
      assert ids[|ids| - 1] in ids;
    }
  }

  // ----- The keyset walk -----------------------------------------------------------------

  // Ranges in order and disjoint: each starts after the previous one ends.
  predicate Ascending(plan: seq<PlannedBatch>) {
    && (forall i :: 0 <= i < |plan| ==> plan[i].ids == [] && plan[i].lo <= plan[i].hi)
    && (forall i, j :: 0 <= i < j < |plan| ==> plan[i].hi < plan[j].lo)
  }

  ghost predicate SoleOwner(plan: seq<PlannedBatch>, k: int, id: Id) {
    0 <= k < |plan| && plan[k].Owns(id) && forall j :: 0 <= j < |plan| && j != k ==> !plan[j].Owns(id)
  }

  ghost predicate OwnedOnce(plan: seq<PlannedBatch>, id: Id) {
    exists k :: SoleOwner(plan, k, id)
  }

  ghost predicate AlwaysTargeted(seen: nat -> set<Id>, pages: nat, id: Id) {
    forall k: nat :: k < pages ==> id in seen(k)
  }

  function LastBefore(plan: seq<PlannedBatch>, k: nat): Option<Id>
    requires k <= |plan|
  {
    if k == 0 then None else Some(plan[k - 1].hi)
  }

  // Page read number k sees the target set `seen(k)`; nothing relates one read to the next.
  function PageAt(seen: nat -> set<Id>, plan: seq<PlannedBatch>, k: nat, size: nat): seq<Id>
    requires k <= |plan|
  {
    Page(Beyond(seen(k), LastBefore(plan, k)), size)
  }

  ghost predicate IsWalkPrefix(seen: nat -> set<Id>, plan: seq<PlannedBatch>, size: nat) {
    forall k: nat {:trigger PageAt(seen, plan, k, size)} :: k < |plan| ==>
      PageAt(seen, plan, k, size) != [] && plan[k] == RangeOf(PageAt(seen, plan, k, size))
  }

  // The walk stops at a short page, or after a page that came back empty.
  ghost predicate IsWalk(seen: nat -> set<Id>, plan: seq<PlannedBatch>, pages: nat, size: nat) {
    && IsWalkPrefix(seen, plan, size)
    && (forall k: nat :: k < |plan| - 1 ==> plan[k].entityCount == size)
    && if pages == |plan| then plan != [] && plan[|plan| - 1].entityCount < size
       else pages == |plan| + 1 && PageAt(seen, plan, |plan|, size) == []
  }

  lemma WalkGrows(seen: nat -> set<Id>, plan: seq<PlannedBatch>, ids: seq<Id>, size: nat)
    requires IsWalkPrefix(seen, plan, size) && ids != [] && ids == PageAt(seen, plan, |plan|, size)
    ensures IsWalkPrefix(seen, plan + [RangeOf(ids)], size)
  {
    var next := plan + [RangeOf(ids)];
    forall k: nat | k < |next|
      ensures PageAt(seen, next, k, size) != [] && next[k] == RangeOf(PageAt(seen, next, k, size))
    {
      assert LastBefore(next, k) == LastBefore(plan, k);
      assert PageAt(seen, next, k, size) == PageAt(seen, plan, k, size);
    }
  }

  lemma WalkShrinks(seen: nat -> set<Id>, plan: seq<PlannedBatch>, size: nat)
    requires IsWalkPrefix(seen, plan, size) && plan != []
    ensures IsWalkPrefix(seen, plan[..|plan| - 1], size)
  {
    var init := plan[..|plan| - 1];
    forall k: nat | k < |init|
      ensures PageAt(seen, init, k, size) != [] && init[k] == RangeOf(PageAt(seen, init, k, size))
    {
      assert LastBefore(init, k) == LastBefore(plan, k);
      assert PageAt(seen, init, k, size) == PageAt(seen, plan, k, size);
    }
  }

  lemma RangeFacts(seen: nat -> set<Id>, plan: seq<PlannedBatch>, k: nat, size: nat)
    requires IsWalkPrefix(seen, plan, size) && k < |plan|
    ensures plan[k].ids == [] && plan[k].lo <= plan[k].hi && (k > 0 ==> plan[k - 1].hi < plan[k].lo)
    ensures 1 <= plan[k].entityCount <= size
  {
    var ids := PageAt(seen, plan, k, size);
    assert ids[0] in ids && ids[0] in Beyond(seen(k), LastBefore(plan, k));
  }

  /** The walk terminates, because `last` strictly increases in a finite id space, and what it
      yields is a walk over the sets it saw. */
  method PlanFromFilter(seen: nat -> set<Id>, size: nat) returns (plan: seq<PlannedBatch>, pages: nat)
    requires size >= 1
    requires forall k: nat, x :: x in seen(k) ==> IsId(x)
    ensures IsWalk(seen, plan, pages, size)
  {
    plan := [];
    pages := 0;
    var last: Option<Id> := None;
    while true
      invariant pages == |plan| && last == LastBefore(plan, |plan|)
      invariant last.Some? ==> IsId(last.value)
      invariant IsWalkPrefix(seen, plan, size)
      invariant forall k: nat :: k < |plan| ==> plan[k].entityCount == size
      decreases if last.None? then ID_SPACE else ID_SPACE - 1 - last.value
    {
      var ids := Page(Beyond(seen(pages), last), size);
      pages := pages + 1;
      if ids == [] {
        return;
      }
      assert ids[|ids| - 1] in ids && ids[|ids| - 1] in Beyond(seen(pages - 1), last);
      assert ids[|ids| - 1] in seen(pages - 1) && IsId(ids[|ids| - 1]);
      WalkGrows(seen, plan, ids, size);
      plan := plan + [RangeOf(ids)];
      last := Some(ids[|ids| - 1]);
      if |ids| < size {
        return;
      }
    }
  }

  /** Whatever rows appear or vanish between reads, the ranges are disjoint and ascending. */
  lemma {:induction false} WalkAscends(seen: nat -> set<Id>, plan: seq<PlannedBatch>, size: nat)
    requires IsWalkPrefix(seen, plan, size)
    ensures Ascending(plan)
    ensures forall k :: 0 <= k < |plan| ==> 1 <= plan[k].entityCount <= size
  {
    if plan != [] {
      var n := |plan| - 1;
      var init := plan[..n];
      WalkShrinks(seen, plan, size);
      WalkAscends(seen, init, size);
      RangeFacts(seen, plan, n, size);
      AscendingSnoc(init, plan[n]);
      assert plan == init + [plan[n]];
    }
  }

  lemma AscendingSnoc(init: seq<PlannedBatch>, b: PlannedBatch)
    requires Ascending(init) && b.ids == [] && b.lo <= b.hi
    requires init != [] ==> init[|init| - 1].hi < b.lo
    ensures Ascending(init + [b])
  {
    var plan := init + [b];
    forall i | 0 <= i < |init| ensures plan[i].hi < b.lo {
      if i < |init| - 1 {
        assert init[i].hi < init[|init| - 1].lo;
      }
    }
  }

  /** Coverage under concurrent change: an id in the target set at every page read lies in
      exactly one planned range. */
  lemma WalkCovers(seen: nat -> set<Id>, plan: seq<PlannedBatch>, pages: nat, size: nat, id: Id)
    requires size >= 1 && IsWalk(seen, plan, pages, size) && AlwaysTargeted(seen, pages, id)
    ensures OwnedOnce(plan, id)
  {
    WalkAscends(seen, plan, size);
    if pages == |plan| {
      var n := |plan| - 1;
      assert id in seen(n) && PageAt(seen, plan, n, size) != [];
      if n > 0 ==> id > plan[n - 1].hi {
        PageCovers(seen(n), LastBefore(plan, n), size, id);
      }
    } else {
      assert id in seen(|plan|);
      if plan != [] ==> id > plan[|plan| - 1].hi {
        PageCovers(seen(|plan|), LastBefore(plan, |plan|), size, id);
        assert false;
      }
    }
    var k := CoveredBelow(seen, plan, |plan| - 1, size, id);
    OwnerIsUnique(plan, k, id);
  }

  lemma {:induction false} CoveredBelow(seen: nat -> set<Id>, plan: seq<PlannedBatch>, n: int, size: nat, id: Id)
    returns (k: nat)
    requires IsWalkPrefix(seen, plan, size) && 0 <= n < |plan| && id <= plan[n].hi
    requires Ascending(plan) && forall i: nat :: i <= n ==> id in seen(i)
    ensures k <= n && plan[k].Owns(id)
  {
    if n > 0 && id <= plan[n - 1].hi {
      k := CoveredBelow(seen, plan, n - 1, size, id);
    } else {
      k := n;
      assert id in seen(n) && PageAt(seen, plan, n, size) != [];
      PageCovers(seen(n), LastBefore(plan, n), size, id);
    }
  }

  // The k-th batch of a walk that always sees `t`, and where the walk goes on.
  lemma WalkHead(t: set<Id>, seen: nat -> set<Id>, plan: seq<PlannedBatch>, size: nat, k: nat)
    requires IsWalkPrefix(seen, plan, size) && k < |plan| && seen(k) == t
    ensures var ids := Page(Beyond(t, LastBefore(plan, k)), size);
            ids != [] && plan[k] == RangeOf(ids) && LastBefore(plan, k + 1) == Some(ids[|ids| - 1])
            && plan[k].entityCount == |ids|
    ensures plan[k..] == [plan[k]] + plan[k + 1..]
  {
    assert PageAt(seen, plan, k, size) == Page(Beyond(t, LastBefore(plan, k)), size);
  }

  // A short page ends the walk.
  lemma ShortPageEnds(t: set<Id>, last: Option<Id>, size: nat)
    requires var ids := Page(Beyond(t, last), size); ids != [] && |ids| < size
    ensures KeysetPlan(t, last, size) == [RangeOf(Page(Beyond(t, last), size))]
  {}

  /** When every read sees the same set, the walk is the plan of that set. */
  lemma {:induction false} WalkOfConstant(t: set<Id>, seen: nat -> set<Id>, plan: seq<PlannedBatch>, pages: nat,
                                          size: nat, k: nat)
    requires IsWalk(seen, plan, pages, size) && (forall i: nat :: seen(i) == t) && k <= |plan|
    requires k < |plan| || pages == |plan| + 1
    ensures plan[k..] == KeysetPlan(t, LastBefore(plan, k), size)
    decreases |plan| - k
  {
    assert seen(k) == t;
    if k < |plan| {
      WalkHead(t, seen, plan, size, k);
      if k < |plan| - 1 || pages == |plan| + 1 {
        WalkOfConstant(t, seen, plan, pages, size, k + 1);
        PlanContinues(t, LastBefore(plan, k), size);
      } else {
        ShortPageEnds(t, LastBefore(plan, k), size);
        assert plan[k + 1..] == [];
      }
    }
  }

  // A full page or a short one, the plan goes on with what is beyond it.
  lemma PlanContinues(t: set<Id>, last: Option<Id>, size: nat)
    requires Page(Beyond(t, last), size) != []
    ensures var ids := Page(Beyond(t, last), size);
            KeysetPlan(t, last, size) == [RangeOf(ids)] + KeysetPlan(t, Some(ids[|ids| - 1]), size)
  {
    var ids := Page(Beyond(t, last), size);
    var hi := ids[|ids| - 1];
    if |ids| < size {
      PageSplits(Beyond(t, last), ids, size);
      assert hi in ids && hi in Beyond(t, last);
      forall x | x in Beyond(t, last) ensures x !in Beyond(t, Some(hi)) {
        assert x in ids;
      }
      assert Beyond(t, Some(hi)) <= Beyond(t, last);
      assert Beyond(t, Some(hi)) == {};
    }
  }

  lemma OwnerIsUnique(plan: seq<PlannedBatch>, k: int, id: Id)
    requires Ascending(plan) && 0 <= k < |plan| && plan[k].Owns(id)
    ensures OwnedOnce(plan, id)
  {
    forall j | 0 <= j < |plan| && j != k ensures !plan[j].Owns(id) {
      if j < k {
        assert plan[j].hi < plan[k].lo;
      } else {
        assert plan[k].hi < plan[j].lo;
      }
    }
    assert SoleOwner(plan, k, id);
  }

  /** The plan of a target set that does not change, from the page after `last` on. */
  function KeysetPlan(target: set<Id>, last: Option<Id>, size: nat): (plan: seq<PlannedBatch>)
    decreases |Beyond(target, last)|
  {
    var ids := Page(Beyond(target, last), size);
    if ids == [] then []
    else
      var hi := ids[|ids| - 1];
      assert hi in ids && hi in Beyond(target, last) && hi !in Beyond(target, Some(hi));
      SubsetCardinality(Beyond(target, Some(hi)), Beyond(target, last) - {hi});
      [RangeOf(ids)] + (if |ids| < size then [] else KeysetPlan(target, Some(hi), size))
  }

  function TotalEntities(plan: seq<PlannedBatch>): nat {
    if plan == [] then 0
    else TotalEntities(plan[..|plan| - 1]) + plan[|plan| - 1].entityCount
  }

  lemma {:induction false} TotalEntitiesAppend(xs: seq<PlannedBatch>, ys: seq<PlannedBatch>)
    ensures TotalEntities(xs + ys) == TotalEntities(xs) + TotalEntities(ys)
  {
    if ys == [] {
      assert xs + ys == xs;
    } else {
      var n := |ys| - 1;
      TotalEntitiesAppend(xs, ys[..n]);
      assert (xs + ys)[..|xs + ys| - 1] == xs + ys[..n];
    }
  }

  lemma TotalOfOne(b: PlannedBatch)
    ensures TotalEntities([b]) == b.entityCount
  {
    assert [b][..0] == [];
    assert TotalEntities([]) == 0;
  }

  ghost predicate CoversBeyond(plan: seq<PlannedBatch>, s: set<Id>, last: Option<Id>) {
    && Ascending(plan)
    && (last.Some? ==> forall k :: 0 <= k < |plan| ==> last.value < plan[k].lo)
    && (forall id :: id in s ==> OwnedOnce(plan, id))
    && TotalEntities(plan) == |s|
  }

  /** On an unchanging target set the plan counts every target exactly once, owns every target
      exactly once, and its ranges ascend. */
  lemma {:induction false} KeysetPlanCovers(target: set<Id>, last: Option<Id>, size: nat)
    requires size >= 1
    ensures CoversBeyond(KeysetPlan(target, last, size), Beyond(target, last), last)
    decreases |Beyond(target, last)|
  {
    var s := Beyond(target, last);
    var ids := Page(s, size);
    if ids != [] {
      var hi := ids[|ids| - 1];
      var more := Beyond(target, Some(hi));
      assert |more| < |s| by {
        assert hi in ids && hi in s && hi !in more;
        SubsetCardinality(more, s - {hi});
      }
      PageSplits(s, ids, size);
      RemainderIsBeyond(target, last, ids);
      KeysetPlanCovers(target, Some(hi), size);
      CoverHead(s, ids, KeysetPlan(target, Some(hi), size), more, last);
      PlanContinues(target, last, size);
    }
  }

  lemma RemainderIsBeyond(target: set<Id>, last: Option<Id>, ids: seq<Id>)
    requires ids != [] && (forall x :: x in ids ==> x in Beyond(target, last))
    requires forall x :: x in Beyond(target, last) ==> (x in ids <==> ids[0] <= x <= ids[|ids| - 1])
    requires forall x :: x in Beyond(target, last) && x !in ids ==> x > ids[|ids| - 1]
    ensures Beyond(target, Some(ids[|ids| - 1])) == Beyond(target, last) - (set x | x in ids)
  {
    var hi := ids[|ids| - 1];
    assert hi in ids && hi in Beyond(target, last);
    forall x ensures x in Beyond(target, Some(hi)) <==> x in Beyond(target, last) - (set y | y in ids) {
      if x in target && x > hi { assert x in Beyond(target, last); }
    }
  }

  lemma CoverHead(s: set<Id>, ids: seq<Id>, tail: seq<PlannedBatch>, more: set<Id>, last: Option<Id>)
    requires ids != [] && Increasing(ids) && (forall x :: x in ids ==> x in s)
    requires forall x :: x in s && last.Some? ==> x > last.value
    requires forall x :: x in s ==> (x in ids <==> ids[0] <= x <= ids[|ids| - 1])
    requires more == s - (set x | x in ids) && |s| == |ids| + |more|
    requires CoversBeyond(tail, more, Some(ids[|ids| - 1]))
    ensures CoversBeyond([RangeOf(ids)] + tail, s, last)
  {
    var head := [RangeOf(ids)];
    CoverCons(s, ids, head, tail, more);
    TotalEntitiesAppend(head, tail);
    TotalOfOne(RangeOf(ids));
    assert ids[0] in ids && ids[0] in s;
  }

  lemma PageSplits(s: set<Id>, ids: seq<Id>, size: nat)
    requires ids == Page(s, size) && ids != []
    ensures |s| == |ids| + |s - (set x | x in ids)|
    ensures forall x :: x in s ==> (x in ids <==> ids[0] <= x <= ids[|ids| - 1])
    ensures forall x :: x in s && x !in ids ==> x > ids[|ids| - 1]
  {
    assert ids[|ids| - 1] in ids;
    forall x | x in s && x in ids ensures ids[0] <= x <= ids[|ids| - 1] {
      InsideIncreasing(ids, x);
    }
    RemainderSize(s, ids);
  }

  lemma InsideIncreasing(ids: seq<Id>, x: Id)
    requires Increasing(ids) && x in ids
    ensures ids[0] <= x <= ids[|ids| - 1]
  {
    var k :| 0 <= k < |ids| && ids[k] == x;
  }

  lemma RemainderSize(s: set<Id>, ids: seq<Id>)
    requires Increasing(ids) && forall x :: x in ids ==> x in s
    ensures |s| == |ids| + |s - (set x | x in ids)|
  {
    var elems := set x | x in ids;
    IncreasingCardinality(ids);
    assert s == elems + (s - elems);
  }

  lemma CoverCons(s: set<Id>, ids: seq<Id>, head: seq<PlannedBatch>, tail: seq<PlannedBatch>, more: set<Id>)
    requires ids != [] && Increasing(ids) && head == [RangeOf(ids)] && Ascending(tail)
    requires forall k :: 0 <= k < |tail| ==> ids[|ids| - 1] < tail[k].lo
    requires forall x :: x in s ==> (x in ids <==> ids[0] <= x <= ids[|ids| - 1])
    requires more == s - (set x | x in ids)
    requires forall id :: id in more ==> OwnedOnce(tail, id)
    ensures Ascending(head + tail)
    ensures forall id :: id in s ==> OwnedOnce(head + tail, id)
  {
    var plan := head + tail;
    assert Ascending(plan);
    forall id | id in s ensures OwnedOnce(plan, id) {
      if id in ids {
        assert plan[0].Owns(id);
        OwnerIsUnique(plan, 0, id);
      } else {
        assert id in more;
        var k :| SoleOwner(tail, k, id);
        assert plan[k + 1] == tail[k];
        OwnerIsUnique(plan, k + 1, id);
      }
    }
  }

  // ----- Explicit ids --------------------------------------------------------------------

  // First occurrences, in order (dict.fromkeys).
  function Distinct(ids: seq<Id>): (ds: seq<Id>)
    ensures forall x :: x in ds <==> x in ids
    ensures forall i, j :: 0 <= i < j < |ds| ==> ds[i] != ds[j]
  {
    if ids == [] then []
    else
      var n := |ids| - 1;
      var ds := Distinct(ids[..n]);
      assert ids == ids[..n] + [ids[n]];
      if ids[n] in ds then ds else ds + [ids[n]]
  }

  predicate AllDistinct(s: seq<Id>) {
    forall i, j :: 0 <= i < j < |s| ==> s[i] != s[j]
  }

  function ToSet(s: seq<Id>): set<Id> { set x | x in s }

  lemma {:induction false} DistinctCardinality(s: seq<Id>)
    requires AllDistinct(s)
    ensures |ToSet(s)| == |s|
  {
    if s != [] {
      var n := |s| - 1;
      DistinctCardinality(s[..n]);
      assert ToSet(s) == ToSet(s[..n]) + {s[n]};
    }
  }

  function ChunkOf(ids: seq<Id>): PlannedBatch
    requires ids != []
  {
    var chunk := Sorted(ToSet(ids));
    assert ids[0] in ToSet(ids);
    SortedIsAll(ToSet(ids));
    PlannedBatch(chunk, chunk[0], chunk[|chunk| - 1], |chunk|)
  }

  /** The explicit-id plan, one chunk after another. */
  function ChunkPlan(ordered: seq<Id>, size: nat): seq<PlannedBatch>
    requires size >= 1
    decreases |ordered|
  {
    if ordered == [] then []
    else
      var n := Min(size, |ordered|);
      [ChunkOf(ordered[..n])] + ChunkPlan(ordered[n..], size)
  }

  lemma ChunkStep(ordered: seq<Id>, start: nat, stop: nat, size: nat)
    requires size >= 1 && start < |ordered| && stop == Min(start + size, |ordered|)
    ensures ChunkPlan(ordered[start..], size) == [ChunkOf(ordered[start..stop])] + ChunkPlan(ordered[stop..], size)
  {
    var rest, n := ordered[start..], stop - start;
    assert n == Min(size, |rest|) && rest != [];
    assert rest[..n] == ordered[start..stop] && rest[n..] == ordered[stop..];
  }

  lemma NextChunk(ordered: seq<Id>, plan: seq<PlannedBatch>, start: nat, stop: nat, size: nat)
    requires size >= 1 && start < |ordered| && stop == Min(start + size, |ordered|)
    ensures plan + ChunkPlan(ordered[start..], size)
            == plan + [ChunkOf(ordered[start..stop])] + ChunkPlan(ordered[stop..], size)
  {
    ChunkStep(ordered, start, stop, size);
  }

  method PlanFromIds(ids: seq<Id>, size: nat) returns (plan: seq<PlannedBatch>)
    requires size >= 1
    ensures plan == ChunkPlan(Distinct(ids), size)
  {
    var ordered := Distinct(ids);
    plan := [];
    var start := 0;
    while start < |ordered|
      invariant 0 <= start <= |ordered|
      invariant plan + ChunkPlan(ordered[start..], size) == ChunkPlan(ordered, size)
    {
      var stop := Min(start + size, |ordered|);
      NextChunk(ordered, plan, start, stop, size);
      plan := plan + [ChunkOf(ordered[start..stop])];
      start := stop;
    }
    assert ordered[start..] == [];
    assert plan + [] == plan;
  }

  // Every chunk but the last is full.
  predicate FullButLast(plan: seq<PlannedBatch>, size: nat) {
    forall k :: 0 <= k < |plan| - 1 ==> plan[k].entityCount == size
  }

  /** No chunk is cut short but the last. */
  lemma {:induction false} ChunksFull(ordered: seq<Id>, size: nat)
    requires size >= 1 && AllDistinct(ordered)
    ensures FullButLast(ChunkPlan(ordered, size), size)
    decreases |ordered|
  {
    if |ordered| > size {
      ChunksFull(ordered[size..], size);
      ChunkOfShape(ordered[..size], size);
    }
  }

  // Where an id first stands.
  predicate FirstAt(ids: seq<Id>, i: nat) {
    i < |ids| && ids[i] !in ids[..i]
  }

  /** De-duplicating a list keeps its first occurrences in their order. */
  lemma {:induction false} DistinctKeepsOrder(ids: seq<Id>, i: nat, j: nat)
    requires i < j && FirstAt(ids, i) && FirstAt(ids, j)
    ensures exists a, b :: 0 <= a < b < |Distinct(ids)| && Distinct(ids)[a] == ids[i] && Distinct(ids)[b] == ids[j]
  {
    var n := |ids| - 1;
    var ds := Distinct(ids[..n]);
    assert ds <= Distinct(ids);
    if j < n {
      assert ids[..n][..i] == ids[..i] && ids[..n][..j] == ids[..j];
      DistinctKeepsOrder(ids[..n], i, j);
      var a, b :| 0 <= a < b < |ds| && ds[a] == ids[..n][i] && ds[b] == ids[..n][j];
      assert Distinct(ids)[a] == ds[a] && Distinct(ids)[b] == ds[b];
    } else {
      assert ids[..n][i] == ids[i] && ids[i] in ids[..n] && ids[i] in ds;
      var a :| 0 <= a < |ds| && ds[a] == ids[i];
      assert Distinct(ids) == ds + [ids[n]];
      assert Distinct(ids)[a] == ds[a] && Distinct(ids)[|ds|] == ids[j];
    }
  }

  ghost predicate Partitions(plan: seq<PlannedBatch>, ids: seq<Id>, size: nat) {
    && (forall id :: id in ids ==> OwnedOnce(plan, id))
    && (forall k, id :: 0 <= k < |plan| && plan[k].Owns(id) ==> id in ids)
    && (forall k :: 0 <= k < |plan| ==> ChunkShape(plan[k], size))
    && TotalEntities(plan) == |ids|
  }

  /** Chunks partition the distinct ids: each id is in exactly one chunk, nothing else is in any,
      no chunk is empty or oversized, and the counts add up to the number of distinct ids. */
  lemma {:induction false} ChunksPartition(ordered: seq<Id>, size: nat)
    requires size >= 1 && AllDistinct(ordered)
    ensures Partitions(ChunkPlan(ordered, size), ordered, size)
    decreases |ordered|
  {
    if ordered != [] {
      var n := Min(size, |ordered|);
      ChunksPartition(ordered[n..], size);
      ChunkOfShape(ordered[..n], size);
      PartitionCons(ordered, n, ChunkOf(ordered[..n]), ChunkPlan(ordered[n..], size), size);
    }
  }

  lemma PartitionCons(ordered: seq<Id>, n: nat, c: PlannedBatch, tail: seq<PlannedBatch>, size: nat)
    requires n <= |ordered| && AllDistinct(ordered)
    requires ChunkShape(c, size) && c.entityCount == n
    requires forall id :: c.Owns(id) <==> id in ordered[..n]
    requires Partitions(tail, ordered[n..], size)
    ensures Partitions([c] + tail, ordered, size)
  {
    var head, rest := ordered[..n], ordered[n..];
    var plan := [c] + tail;
    assert ordered == head + rest;
    TotalEntitiesAppend([c], tail);
    TotalOfOne(c);
    forall id | id in ordered ensures OwnedOnce(plan, id) {
      if id in head {
        var i :| 0 <= i < n && ordered[i] == id;
        assert id !in rest;
        assert SoleOwner(plan, 0, id);
      } else {
        assert id in rest;
        var k :| SoleOwner(tail, k, id);
        assert SoleOwner(plan, k + 1, id);
      }
    }
    forall k, id | 0 <= k < |plan| && plan[k].Owns(id) ensures id in ordered {
      if k > 0 {
        assert tail[k - 1].Owns(id);
      }
    }
  }

  predicate ChunkShape(c: PlannedBatch, size: nat) {
    c.ids != [] && Increasing(c.ids) && c.entityCount == |c.ids| <= size
  }

  lemma ChunkOfShape(ids: seq<Id>, size: nat)
    requires ids != [] && |ids| <= size && AllDistinct(ids)
    ensures ChunkShape(ChunkOf(ids), size) && ChunkOf(ids).entityCount == |ids|
    ensures forall id :: ChunkOf(ids).Owns(id) <==> id in ids
  {
    SortedIsAll(ToSet(ids));
    DistinctCardinality(ids);
    assert ids[0] in ToSet(ids);
  }
}
