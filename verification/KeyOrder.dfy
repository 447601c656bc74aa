/** The order in which every transaction inserts its keys: `sorted(keyed)` of app/services/dedup.py. */
module KeyOrder {
  import opened Domain
  import opened Dedup

  predicate Less(a: Key, b: Key) {
    if b == "" then false
    else if a == "" then true
    else a[0] < b[0] || (a[0] == b[0] && Less(a[1..], b[1..]))
  }

  lemma {:induction false} LessIrreflexive(a: Key)
    ensures !Less(a, a)
  {
    if a != "" { LessIrreflexive(a[1..]); }
  }

  lemma {:induction false} LessTransitive(a: Key, b: Key, c: Key)
    requires Less(a, b) && Less(b, c)
    ensures Less(a, c)
  {
    if a != "" && a[0] == b[0] == c[0] {
      LessTransitive(a[1..], b[1..], c[1..]);
    }
  }

  predicate StrictlySorted(ks: seq<Key>) {
    forall i, j :: 0 <= i < j < |ks| ==> Less(ks[i], ks[j])
  }

  lemma {:induction false} LessTotal(a: Key, b: Key)
    ensures a == b || Less(a, b) || Less(b, a)
  {
    if a != "" && b != "" && a[0] == b[0] {
      LessTotal(a[1..], b[1..]);
    }
  }

  function InsertKey(k: Key, ks: seq<Key>): seq<Key> {
    if ks == [] then [k]
    else if k == ks[0] then ks
    else if Less(k, ks[0]) then [k] + ks
    else [ks[0]] + InsertKey(k, ks[1..])
  }

  /** sorted(keyed): the dictionary's keys, whatever order they were met in. */
  function SortKeys(ks: seq<Key>): seq<Key> {
    if ks == [] then [] else InsertKey(ks[0], SortKeys(ks[1..]))
  }

  function KeySetOf(ks: seq<Key>): set<Key> { set k | k in ks }

  lemma SortedCons(k: Key, ks: seq<Key>)
    requires StrictlySorted(ks) && (ks != [] ==> Less(k, ks[0]))
    ensures StrictlySorted([k] + ks)
  {
    forall j | 0 <= j < |ks| ensures Less(k, ks[j]) {
      if j > 0 {
        LessTransitive(k, ks[0], ks[j]);
      }
    }
  }

  lemma SetOfCons(k: Key, ks: seq<Key>)
    ensures KeySetOf([k] + ks) == KeySetOf(ks) + KeySetOf([k])
  {
    assert forall x :: x in [k] + ks <==> x in [k] || x in ks;
  }

  lemma {:induction false} InsertKeySorts(k: Key, ks: seq<Key>)
    requires StrictlySorted(ks)
    ensures var r := InsertKey(k, ks);
            StrictlySorted(r) && KeySetOf(r) == KeySetOf(ks) + KeySetOf([k]) && r != []
            && (r[0] == k || (ks != [] && r[0] == ks[0]))
  {
    if ks != [] {
      assert ks == [ks[0]] + ks[1..];
      if k == ks[0] {
        assert k in ks;
      } else if Less(k, ks[0]) {
        SortedCons(k, ks);
        SetOfCons(k, ks);
      } else {
        LessTotal(k, ks[0]);
        InsertKeySorts(k, ks[1..]);
        SortedCons(ks[0], InsertKey(k, ks[1..]));
        SetOfCons(ks[0], ks[1..]);
        SetOfCons(ks[0], InsertKey(k, ks[1..]));
      }
    }
  }

  /** Sorting the grouped keys gives every transaction the same insertion order. */
  lemma {:induction false} SortKeysSorts(ks: seq<Key>)
    ensures StrictlySorted(SortKeys(ks)) && KeySetOf(SortKeys(ks)) == KeySetOf(ks)
  {
    if ks != [] {
      SortKeysSorts(ks[1..]);
      InsertKeySorts(ks[0], SortKeys(ks[1..]));
      assert ks == [ks[0]] + ks[1..];
      SetOfCons(ks[0], ks[1..]);
    }
  }

  /** The rows a transaction inserts for a batch are strictly sorted and are the batch's keys. */
  lemma BatchKeysSorted(kf: KeyFn, rows: seq<Loaded>)
    ensures var ks := SortKeys(Keys(kf, rows));
            StrictlySorted(ks) && KeySetOf(ks) == KeySet(kf, rows)
  {
    KeysFacts(kf, rows);
    SortKeysSorts(Keys(kf, rows));
  }
}
