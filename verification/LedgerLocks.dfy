/**
 The ledger insert at the grain of single rows (app/services/dedup.py, lines 77-92).

 PostgreSQL inserts one key after another.  A key already committed is a conflict and is skipped;
 a key inserted by a transaction still in flight makes the inserter wait for that transaction to
 commit or roll back.  Any number of transactions interleave, and any of them may roll back at
 any point.  Two results: the waits never form a cycle, because every transaction inserts its
 keys in sorted order; and what each transaction claims is what it would have claimed had its
 whole insert happened atomically at its commit.
 */
module LedgerLocks {
  import opened Dedup
  import opened KeyOrder
  import Planning

  // ----- Transactions --------------------------------------------------------------------

  // `keys[..next]` have been inserted or found taken; `claimed` are the ones inserted.
  datatype Txn = Txn(keys: seq<Key>, next: nat, claimed: set<Key>)

  function KeysOf(x: Txn): set<Key> { KeySetOf(x.keys) }

  datatype Commit = Commit(keys: set<Key>, claimed: set<Key>)

  datatype State = State(committed: set<Key>, live: map<nat, Txn>, log: seq<Commit>)

  // A transaction begins with the keys it has grouped, in the order it met them.
  datatype Event = Begin(t: nat, keyed: seq<Key>) | Insert(t: nat) | CommitTxn(t: nat) | Rollback(t: nat)

  predicate HeldByOther(s: State, t: nat, k: Key) {
    exists u :: u in s.live && u != t && k in s.live[u].claimed
  }

  // Steps that are not possible leave the state alone; a blocked insert is one of them.
  function Step(s: State, e: Event): State {
    match e
    case Begin(t, keyed) =>
      if t !in s.live then s.(live := s.live[t := Txn(SortKeys(keyed), 0, {})]) else s
    case Insert(t) =>
      if t !in s.live || s.live[t].next >= |s.live[t].keys| then s
      else
        var x := s.live[t];
        var k := x.keys[x.next];
        if k in s.committed then s.(live := s.live[t := x.(next := x.next + 1)])
        else if HeldByOther(s, t, k) then s
        else s.(live := s.live[t := x.(next := x.next + 1, claimed := x.claimed + {k})])
    case CommitTxn(t) =>
      if t !in s.live || s.live[t].next != |s.live[t].keys| then s
      else
        var x := s.live[t];
        State(s.committed + x.claimed, s.live - {t}, s.log + [Commit(KeysOf(x), x.claimed)])
    case Rollback(t) => s.(live := s.live - {t})
  }

  const INIT := State({}, map[], [])

  function Run(es: seq<Event>): State {
    if es == [] then INIT else Step(Run(es[..|es| - 1]), es[|es| - 1])
  }

  // ----- The invariant -------------------------------------------------------------------

  predicate TxnOk(committed: set<Key>, x: Txn) {
    && x.next <= |x.keys| && StrictlySorted(x.keys)
    && (forall k :: k in x.claimed ==> k in x.keys[..x.next] && k !in committed)
    && (forall k :: k in x.keys[..x.next] ==> k in x.claimed || k in committed)
  }

  predicate Ok(s: State) {
    && (forall t :: t in s.live ==> TxnOk(s.committed, s.live[t]))
    && (forall t, u, k :: t in s.live && u in s.live && t != u && k in s.live[t].claimed ==> k !in s.live[u].claimed)
  }

  lemma StepKeepsOk(s: State, e: Event)
    requires Ok(s)
    ensures Ok(Step(s, e))
  {
    var s' := Step(s, e);
    match e {
      case Begin(t, keyed) => SortKeysSorts(keyed);
      case Insert(t) =>
        if t in s.live && s.live[t].next < |s.live[t].keys| {
          var x := s.live[t];
          assert x.keys[..x.next + 1] == x.keys[..x.next] + [x.keys[x.next]];
          if s' != s {
            assert TxnOk(s.committed, s'.live[t]);
          }
        }
      case CommitTxn(t) =>
        if s' != s {
          var x := s.live[t];
          forall u | u in s'.live ensures TxnOk(s'.committed, s'.live[u]) {
            assert TxnOk(s.committed, s.live[u]);
            assert forall k :: k in s.live[u].claimed ==> k !in x.claimed;
          }
        }
      case Rollback(t) =>
    }
  }

  lemma {:induction false} AlwaysOk(es: seq<Event>)
    ensures Ok(Run(es))
  {
    if es != [] {
      AlwaysOk(es[..|es| - 1]);
      StepKeepsOk(Run(es[..|es| - 1]), es[|es| - 1]);
    }
  }

  // ----- No deadlock ---------------------------------------------------------------------

  predicate Waiting(s: State, t: nat) {
    t in s.live && s.live[t].next < |s.live[t].keys|
    && s.live[t].keys[s.live[t].next] !in s.committed
    && HeldByOther(s, t, s.live[t].keys[s.live[t].next])
  }

  function WantedKey(s: State, t: nat): Key
    requires Waiting(s, t)
  {
    s.live[t].keys[s.live[t].next]
  }

  predicate WaitsFor(s: State, t: nat, u: nat) {
    Waiting(s, t) && u in s.live && u != t && WantedKey(s, t) in s.live[u].claimed
  }

  lemma WantedKeysIncrease(s: State, t: nat, u: nat)
    requires Ok(s) && WaitsFor(s, t, u) && Waiting(s, u)
    ensures Less(WantedKey(s, t), WantedKey(s, u))
  {
    var x := s.live[u];
    assert TxnOk(s.committed, x);
    var k := WantedKey(s, t);
    assert k in x.keys[..x.next];
    var i :| 0 <= i < x.next && x.keys[i] == k;
  }

  predicate WaitPath(s: State, p: seq<nat>) {
    |p| >= 2 && forall i :: 0 <= i < |p| - 1 ==> WaitsFor(s, p[i], p[i + 1])
  }

  lemma {:induction false} PathIncreases(s: State, p: seq<nat>)
    requires Ok(s) && WaitPath(s, p) && Waiting(s, p[|p| - 1])
    ensures Waiting(s, p[0]) && Less(WantedKey(s, p[0]), WantedKey(s, p[|p| - 1]))
  {
    var n := |p| - 1;
    assert WaitsFor(s, p[n - 1], p[n]);
    WantedKeysIncrease(s, p[n - 1], p[n]);
    if n > 1 {
      PathIncreases(s, p[..n]);
      LessTransitive(WantedKey(s, p[0]), WantedKey(s, p[n - 1]), WantedKey(s, p[n]));
    }
  }

  /** In every reachable state the wait-for graph has no cycle. */
  lemma WaitForGraphAcyclic(es: seq<Event>, p: seq<nat>)
    requires WaitPath(Run(es), p)
    ensures p[0] != p[|p| - 1]
  {
    var s := Run(es);
    AlwaysOk(es);
    assert WaitsFor(s, p[0], p[1]);
    if p[0] == p[|p| - 1] {
      PathIncreases(s, p);
      LessIrreflexive(WantedKey(s, p[0]));
    }
  }

  ghost function HigherWaiters(s: State, t: nat): set<nat>
    requires Waiting(s, t)
  {
    set u | u in s.live && Waiting(s, u) && Less(WantedKey(s, t), WantedKey(s, u))
  }

  /** As long as any transaction is in flight, some transaction can insert or commit. */
  lemma Progress(es: seq<Event>, t: nat) returns (u: nat)
    requires t in Run(es).live
    ensures u in Run(es).live
    ensures Step(Run(es), Insert(u)) != Run(es) || Step(Run(es), CommitTxn(u)) != Run(es)
  {
    AlwaysOk(es);
    var s := Run(es);
    u := SomeoneCanProceed(s, t);
    var x := s.live[u];
    if x.next < |x.keys| {
      assert Step(s, Insert(u)).live[u].next == x.next + 1;
    } else {
      assert u !in Step(s, CommitTxn(u)).live;
    }
  }

  lemma {:induction false} SomeoneCanProceed(s: State, t: nat) returns (u: nat)
    requires Ok(s) && t in s.live
    ensures u in s.live && !Waiting(s, u)
    decreases if Waiting(s, t) then 1 else 0, if Waiting(s, t) then |HigherWaiters(s, t)| else 0
  {
    if !Waiting(s, t) {
      u := t;
    } else {
      var v :| v in s.live && v != t && WantedKey(s, t) in s.live[v].claimed;
      if Waiting(s, v) {
        assert WaitsFor(s, t, v);
        WantedKeysIncrease(s, t, v);
        FewerAbove(s, t, v);
      }
      u := SomeoneCanProceed(s, v);
    }
  }

  lemma FewerAbove(s: State, t: nat, v: nat)
    requires Waiting(s, t) && Waiting(s, v) && Less(WantedKey(s, t), WantedKey(s, v))
    ensures |HigherWaiters(s, v)| < |HigherWaiters(s, t)|
  {
    var above, all := HigherWaiters(s, v), HigherWaiters(s, t);
    LessIrreflexive(WantedKey(s, v));
    forall u | u in above ensures u in all {
      LessTransitive(WantedKey(s, t), WantedKey(s, v), WantedKey(s, u));
    }
    assert v in all && v !in above;
    assert above <= all - {v};
    Planning.SubsetCardinality(above, all - {v});
  }

  // ----- Claims are atomic at commit -----------------------------------------------------

  // The keys of the first n commits.
  function Before(log: seq<Commit>, n: nat): set<Key>
    requires n <= |log|
  {
    if n == 0 then {} else Before(log, n - 1) + log[n - 1].keys
  }

  ghost predicate Serial(s: State) {
    && s.committed == Before(s.log, |s.log|)
    && forall i :: 0 <= i < |s.log| ==> s.log[i].claimed == s.log[i].keys - Before(s.log, i)
  }

  lemma {:induction false} BeforePrefix(log: seq<Commit>, c: Commit, n: nat)
    requires n <= |log|
    ensures Before(log + [c], n) == Before(log, n)
  {
    if n > 0 { BeforePrefix(log, c, n - 1); }
  }

  lemma CommitClaims(committed: set<Key>, x: Txn)
    requires TxnOk(committed, x) && x.next == |x.keys|
    ensures x.claimed == KeysOf(x) - committed
  {
    assert x.keys[..x.next] == x.keys;
  }

  lemma SerialSnoc(s: State, c: Commit, live: map<nat, Txn>)
    requires Serial(s) && c.claimed == c.keys - s.committed
    ensures Serial(State(s.committed + c.claimed, live, s.log + [c]))
  {
    var n, log := |s.log|, s.log + [c];
    BeforePrefix(s.log, c, n);
    assert s.committed + c.claimed == Before(log, n + 1);
    forall i | 0 <= i < n + 1 ensures log[i].claimed == log[i].keys - Before(log, i) {
      BeforePrefix(s.log, c, i);
    }
  }

  lemma StepKeepsSerial(s: State, e: Event)
    requires Ok(s) && Serial(s)
    ensures Serial(Step(s, e))
  {
    if e.CommitTxn? && Step(s, e) != s {
      var x := s.live[e.t];
      CommitClaims(s.committed, x);
      SerialSnoc(s, Commit(KeysOf(x), x.claimed), s.live - {e.t});
    }
  }

  /** Whatever the interleaving and whoever rolls back: the i-th transaction to commit claims
      exactly its keys that no earlier committed transaction carried, and the ledger holds exactly
      the keys of the committed transactions.  A rolled-back transaction leaves no claim. */
  lemma {:induction false} ClaimsAreSerial(es: seq<Event>)
    ensures Serial(Run(es))
  {
    if es != [] {
      var init := es[..|es| - 1];
      ClaimsAreSerial(init);
      AlwaysOk(init);
      StepKeepsSerial(Run(init), es[|es| - 1]);
    }
  }
}
