/**
 De-duplication inside a bulk action (app/services/dedup.py).

 The reference is plain sequential first-occurrence de-duplication (`First`).  The code groups a
 batch by key, claims the keys in a ledger shared by all batches and splits each group; it is
 proved to agree with the reference, batch by batch and across batches.
 */
module Dedup {
  import opened Domain

  type Key = string

  // ----- Canonical keys ------------------------------------------------------------------

  // ASCII white space: tab to carriage return, the four separators, and the blank.
  predicate Space(c: char) {
    9 <= c as int <= 13 || 28 <= c as int <= 31 || c == ' '
  }

  function LowerChar(c: char): char {
    if 'A' <= c <= 'Z' then (c as int + 32) as char else c
  }

  function StripLeft(s: string): string {
    if s != "" && Space(s[0]) then StripLeft(s[1..]) else s
  }

  function StripRight(s: string): string {
    if s != "" && Space(s[|s| - 1]) then StripRight(s[..|s| - 1]) else s
  }

  function Lower(s: string): string {
    seq(|s|, i requires 0 <= i < |s| => LowerChar(s[i]))
  }

  function Digits(n: nat): string {
    var d := [(n % 10 + 48) as char];
    if n < 10 then d else Digits(n / 10) + d
  }

  function Render(v: Value): string {
    match v
    case Null => "None"
    case Text(t) => t
    case Number(n) => if n < 0 then "-" + Digits(-n) else Digits(n)
  }

  function Normalise(v: Value): Option<Key> {
    if v.Null? then None
    else
      var text := Lower(StripRight(StripLeft(Render(v))));
      if text == "" then None else Some(text)
  }

  predicate Trimmed(s: string) {
    s != "" ==> !Space(s[0]) && !Space(s[|s| - 1])
  }

  lemma {:induction false} StripRightKeepsHead(s: string)
    ensures var r := StripRight(s);
            |r| <= |s| && r == s[..|r|] && (r != "" ==> !Space(r[|r| - 1]))
  {
    if s != "" && Space(s[|s| - 1]) {
      StripRightKeepsHead(s[..|s| - 1]);
    }
  }

  lemma {:induction false} StripLeftTrims(s: string)
    ensures var r := StripLeft(s); r != "" ==> !Space(r[0])
  {
    if s != "" && Space(s[0]) {
      StripLeftTrims(s[1..]);
    }
  }

  lemma NormaliseIsCanonical(v: Value)
    ensures Normalise(v).Some? ==>
              var k := Normalise(v).value; k != "" && Trimmed(k) && Lower(k) == k
  {
    var l := StripLeft(Render(v));
    StripLeftTrims(Render(v));
    StripRightKeepsHead(l);
    var r := StripRight(l);
    assert forall c :: LowerChar(LowerChar(c)) == LowerChar(c) && (Space(LowerChar(c)) <==> Space(c));
    assert Lower(Lower(r)) == Lower(r);
  }

  /** A key is its own canonical form, so normalising twice changes nothing. */
  lemma NormaliseIdempotent(v: Value)
    requires Normalise(v).Some?
    ensures Normalise(Text(Normalise(v).value)) == Normalise(v)
  {
    NormaliseIsCanonical(v);
    var k := Normalise(v).value;
    assert StripLeft(k) == k && StripRight(k) == k;
  }

  lemma {:induction false} StripLeftPadding(pad: string, s: string)
    requires forall i :: 0 <= i < |pad| ==> Space(pad[i])
    ensures StripLeft(pad + s) == StripLeft(s)
  {
    if pad == "" {
      assert pad + s == s;
    } else {
      assert (pad + s)[1..] == pad[1..] + s;
      StripLeftPadding(pad[1..], s);
    }
  }

  lemma {:induction false} StripRightPadding(s: string, pad: string)
    requires forall i :: 0 <= i < |pad| ==> Space(pad[i])
    ensures StripRight(s + pad) == StripRight(s)
  {
    if pad == "" {
      assert s + pad == s;
    } else {
      var n := |pad| - 1;
      assert (s + pad)[..|s + pad| - 1] == s + pad[..n];
      StripRightPadding(s, pad[..n]);
    }
  }

  lemma {:induction false} StripLeftBeforePadding(s: string, pad: string)
    requires forall i :: 0 <= i < |pad| ==> Space(pad[i])
    ensures StripRight(StripLeft(s + pad)) == StripRight(StripLeft(s))
  {
    if s == "" {
      assert s + pad == pad + "" && StripLeft("") == "";
      StripLeftPadding(pad, "");
    } else if Space(s[0]) {
      assert (s + pad)[1..] == s[1..] + pad;
      StripLeftBeforePadding(s[1..], pad);
    } else {
      StripRightPadding(s, pad);
    }
  }

  /** Surrounding white space never matters. */
  lemma PaddingIgnored(left: string, s: string, right: string)
    requires forall i :: 0 <= i < |left| ==> Space(left[i])
    requires forall i :: 0 <= i < |right| ==> Space(right[i])
    ensures Normalise(Text(left + s + right)) == Normalise(Text(s))
  {
    assert left + s + right == left + (s + right);
    StripLeftPadding(left, s + right);
    StripLeftBeforePadding(s, right);
  }

  // ----- Which values share a key ---------------------------------------------------------

  predicate Blank(s: string) {
    forall i :: 0 <= i < |s| ==> Space(s[i])
  }

  // The same letter up to ASCII case.
  predicate SameLetter(a: char, b: char) {
    a == b
    || ('A' <= a <= 'Z' && b as int == a as int + 32)
    || ('A' <= b <= 'Z' && a as int == b as int + 32)
  }

  predicate SameUpToCase(a: string, b: string) {
    |a| == |b| && forall i :: 0 <= i < |a| ==> SameLetter(a[i], b[i])
  }

  lemma TrimmedStays(s: string)
    requires Trimmed(s)
    ensures StripRight(StripLeft(s)) == s
  {}

  /** A text with no white space at either end has a key of its own length, letter for letter its own
      characters with capitals made small. */
  lemma KeyOfTrimmed(s: string)
    requires s != "" && Trimmed(s)
    ensures Normalise(Text(s)).Some?
    ensures var k := Normalise(Text(s)).value;
            |k| == |s|
            && forall i :: 0 <= i < |s| ==> if 'A' <= s[i] <= 'Z' then k[i] as int == s[i] as int + 32 else k[i] == s[i]
  {
    TrimmedStays(s);
    assert Lower(s) != "";
  }

  /** Two trimmed texts share a key if and only if they agree letter by letter up to case. */
  lemma SameKeyExactlyWhen(a: string, b: string)
    requires a != "" && b != "" && Trimmed(a) && Trimmed(b)
    ensures Normalise(Text(a)) == Normalise(Text(b)) <==> SameUpToCase(a, b)
  {
    KeyOfTrimmed(a);
    KeyOfTrimmed(b);
    var j, k := Normalise(Text(a)).value, Normalise(Text(b)).value;
    if SameUpToCase(a, b) {
      forall i | 0 <= i < |a| ensures j[i] == k[i] {
        assert SameLetter(a[i], b[i]);
      }
      assert j == k;
    }
    if j == k {
      forall i | 0 <= i < |a| ensures SameLetter(a[i], b[i]) {
        assert j[i] == k[i];
      }
    }
  }

  lemma {:induction false} StripsBlank(s: string)
    requires Blank(s)
    ensures StripLeft(s) == ""
  {
    if s != "" {
      StripsBlank(s[1..]);
    }
  }

  lemma {:induction false} StripLeftSplits(s: string) returns (pad: string)
    ensures s == pad + StripLeft(s) && Blank(pad)
  {
    pad := "";
    if s != "" && Space(s[0]) {
      var rest := StripLeftSplits(s[1..]);
      pad := [s[0]] + rest;
      assert s == [s[0]] + s[1..];
    }
  }

  lemma {:induction false} StripRightSplits(s: string) returns (pad: string)
    ensures s == StripRight(s) + pad && Blank(pad)
  {
    pad := "";
    if s != "" && Space(s[|s| - 1]) {
      var m := |s| - 1;
      var rest := StripRightSplits(s[..m]);
      pad := rest + [s[m]];
      assert s == s[..m] + [s[m]];
    }
  }

  lemma CoreIsTrimmed(s: string)
    ensures Trimmed(StripRight(StripLeft(s)))
  {
    StripLeftTrims(s);
    StripRightKeepsHead(StripLeft(s));
  }

  lemma CoreSplits(s: string) returns (left: string, core: string, right: string)
    ensures s == left + core + right && Blank(left) && Blank(right) && core == StripRight(StripLeft(s))
  {
    left := StripLeftSplits(s);
    right := StripRightSplits(StripLeft(s));
    core := StripRight(StripLeft(s));
    Associates(left, core, right);
  }

  lemma Associates(a: string, b: string, c: string)
    ensures a + (b + c) == a + b + c
  {}

  lemma BlankExactlyWhen(left: string, core: string, right: string)
    requires Blank(left) && Blank(right) && Trimmed(core)
    ensures Blank(left + core + right) <==> core == ""
  {
    var s := left + core + right;
    if core != "" {
      assert s[|left|] == core[0];
    }
  }

  /** Every text is blanks, a trimmed core, and blanks; and its key is its core's. */
  lemma HasCore(s: string) returns (left: string, core: string, right: string)
    ensures s == left + core + right && Blank(left) && Blank(right) && Trimmed(core)
    ensures Normalise(Text(s)) == Normalise(Text(core))
    ensures core == "" <==> Blank(s)
  {
    left, core, right := CoreSplits(s);
    CoreIsTrimmed(s);
    PaddingIgnored(left, core, right);
    BlankExactlyWhen(left, core, right);
  }

  /** Only a missing value and a blank text have no key. */
  lemma NoKeyExactlyWhen(v: Value)
    ensures Normalise(v).None? <==> v.Null? || (v.Text? && Blank(v.text))
  {
    match v {
      case Null =>
      case Text(s) =>
        var _, core, _ := HasCore(s);
        if core == "" {
          assert StripRight(StripLeft("")) == "" && Lower("") == "";
        } else {
          KeyOfTrimmed(core);
        }
      case Number(n) =>
        NumberKey(n);
    }
  }

  // ----- Numbers ---------------------------------------------------------------------------

  function Digit(c: char): int { c as int - 48 }

  predicate IsDigit(c: char) { '0' <= c <= '9' }

  function ValueOf(s: string): int {
    if s == "" then 0 else 10 * ValueOf(s[..|s| - 1]) + Digit(s[|s| - 1])
  }

  lemma {:induction false} DigitsFacts(n: nat)
    ensures var d := Digits(n);
            d != "" && (forall i :: 0 <= i < |d| ==> IsDigit(d[i])) && ValueOf(d) == n
  {
    var last := [(n % 10 + 48) as char];
    if n < 10 {
      assert last[..0] == "";
    } else {
      DigitsFacts(n / 10);
      var d := Digits(n / 10) + last;
      assert d[..|d| - 1] == Digits(n / 10);
    }
  }

  lemma NumberKey(n: int)
    ensures Normalise(Number(n)) == Some(Render(Number(n)))
  {
    var s := Render(Number(n));
    DigitsFacts(if n < 0 then -n else n);
    assert forall i :: 0 <= i < |s| ==> IsDigit(s[i]) || s[i] == '-';
    TrimmedStays(s);
    assert Lower(s) == s;
  }

  // A number can be read back from what it is rendered as.
  function Read(s: string): int {
    if s != "" && s[0] == '-' then -ValueOf(s[1..]) else ValueOf(s)
  }

  lemma ReadsSign(d: string)
    requires d != "" && IsDigit(d[0])
    ensures Read(d) == ValueOf(d) && Read("-" + d) == -ValueOf(d)
  {
    assert ("-" + d)[1..] == d;
  }

  lemma ReadsBack(n: int)
    ensures Read(Render(Number(n))) == n
  {
    var m := if n < 0 then -n else n;
    DigitsFacts(m);
    ReadsSign(Digits(m));
  }

  /** Different numbers have different keys. */
  lemma NumbersDiffer(a: int, b: int)
    requires a != b
    ensures Normalise(Number(a)).Some? && Normalise(Number(a)) != Normalise(Number(b))
  {
    NumberKey(a);
    NumberKey(b);
    ReadsBack(a);
    ReadsBack(b);
  }

  // ----- The reference -------------------------------------------------------------------

  // How a row is keyed.  Everything below holds for any keying.
  type KeyFn = Loaded -> Option<Key>

  function ByField(field: string): KeyFn {
    (r: Loaded) => Normalise(Get(r.row, field))
  }

  function KeySet(kf: KeyFn, rows: seq<Loaded>): set<Key> {
    set r | r in rows && kf(r).Some? :: kf(r).value
  }

  // Rows without a key: they always pass.
  function Missing(kf: KeyFn, rows: seq<Loaded>): seq<Loaded> {
    if rows == [] then []
    else
      var n := |rows| - 1;
      Missing(kf, rows[..n]) + (if kf(rows[n]).None? then [rows[n]] else [])
  }

  /** Sequential de-duplication: a keyed row wins when its key is not in `seen` and no earlier row
      of the list carries it. */
  function First(kf: KeyFn, seen: set<Key>, rows: seq<Loaded>): seq<Loaded> {
    if rows == [] then []
    else
      var n := |rows| - 1;
      var key := kf(rows[n]);
      First(kf, seen, rows[..n])
      + (if key.Some? && key.value !in seen && key.value !in KeySet(kf, rows[..n]) then [rows[n]] else [])
  }

  lemma KeySetAppend(kf: KeyFn, xs: seq<Loaded>, ys: seq<Loaded>)
    ensures KeySet(kf, xs + ys) == KeySet(kf, xs) + KeySet(kf, ys)
  {
    assert forall r :: r in xs + ys <==> r in xs || r in ys;
  }

  lemma {:induction false} MissingAppend(kf: KeyFn, xs: seq<Loaded>, ys: seq<Loaded>)
    ensures Missing(kf, xs + ys) == Missing(kf, xs) + Missing(kf, ys)
  {
    if ys == [] {
      assert xs + ys == xs;
    } else {
      var n := |ys| - 1;
      MissingAppend(kf, xs, ys[..n]);
      assert (xs + ys)[..|xs + ys| - 1] == xs + ys[..n];
    }
  }

  /** De-duplicating two lists one after the other, carrying the keys seen, is de-duplicating
      their concatenation. */
  lemma {:induction false} FirstAppend(kf: KeyFn, seen: set<Key>, xs: seq<Loaded>, ys: seq<Loaded>)
    ensures First(kf, seen, xs + ys) == First(kf, seen, xs) + First(kf, seen + KeySet(kf, xs), ys)
  {
    if ys == [] {
      assert xs + ys == xs;
    } else {
      var n := |ys| - 1;
      FirstAppend(kf, seen, xs, ys[..n]);
      assert (xs + ys)[..|xs + ys| - 1] == xs + ys[..n];
      KeySetAppend(kf, xs, ys[..n]);
    }
  }

  lemma KeySetSnoc(kf: KeyFn, rows: seq<Loaded>)
    requires rows != []
    ensures var n := |rows| - 1; var key := kf(rows[n]);
            KeySet(kf, rows) == KeySet(kf, rows[..n]) + (if key.Some? then {key.value} else {})
  {
    var n := |rows| - 1;
    assert rows == rows[..n] + [rows[n]];
    KeySetAppend(kf, rows[..n], [rows[n]]);
    assert forall r :: r in [rows[n]] <==> r == rows[n];
  }

  lemma FirstSnoc(kf: KeyFn, seen: set<Key>, init: seq<Loaded>, last: Loaded)
    ensures First(kf, seen, init + [last]) ==
            First(kf, seen, init)
            + (if kf(last).Some? && kf(last).value !in seen + KeySet(kf, init) then [last] else [])
  {
    assert (init + [last])[..|init|] == init;
  }

  /** One winner for every key not seen before. */
  lemma {:induction false} FirstCounts(kf: KeyFn, seen: set<Key>, rows: seq<Loaded>)
    ensures |First(kf, seen, rows)| == |KeySet(kf, rows) - seen|
  {
    if rows != [] {
      var n := |rows| - 1;
      FirstCounts(kf, seen, rows[..n]);
      KeySetSnoc(kf, rows);
      NewKeyCounts(KeySet(kf, rows[..n]), KeySet(kf, rows), seen, kf(rows[n]));
    }
  }

  lemma NewKeyCounts(before: set<Key>, after: set<Key>, seen: set<Key>, key: Option<Key>)
    requires after == before + (if key.Some? then {key.value} else {})
    ensures |after - seen|
            == |before - seen| + (if key.Some? && key.value !in seen && key.value !in before then 1 else 0)
  {
    if key.Some? && key.value !in seen && key.value !in before {
      assert after - seen == (before - seen) + {key.value};
    } else {
      assert after - seen == before - seen;
    }
  }

  // ----- Grouping, as the code does it ---------------------------------------------------

  // Distinct keys in order of first occurrence: the insertion order of the dictionary.
  function Keys(kf: KeyFn, rows: seq<Loaded>): seq<Key> {
    if rows == [] then []
    else
      var n := |rows| - 1;
      var ks := Keys(kf, rows[..n]);
      var key := kf(rows[n]);
      if key.Some? && key.value !in ks then ks + [key.value] else ks
  }

  function Group(kf: KeyFn, rows: seq<Loaded>, k: Key): seq<Loaded> {
    if rows == [] then []
    else
      var n := |rows| - 1;
      Group(kf, rows[..n], k) + (if kf(rows[n]) == Some(k) then [rows[n]] else [])
  }

  datatype Duplicate = Duplicate(row: Loaded, key: Key)

  function Tag(rows: seq<Loaded>, k: Key): seq<Duplicate> {
    seq(|rows|, i requires 0 <= i < |rows| => Duplicate(rows[i], k))
  }

  // Everything in the group that is not processed.
  function Losers(kf: KeyFn, ledger: set<Key>, rows: seq<Loaded>, k: Key): seq<Loaded> {
    var g := Group(kf, rows, k);
    if k !in ledger && g != [] then g[1..] else g
  }

  function Duplicates(kf: KeyFn, ledger: set<Key>, rows: seq<Loaded>, ks: seq<Key>): seq<Duplicate> {
    if ks == [] then []
    else
      var n := |ks| - 1;
      Duplicates(kf, ledger, rows, ks[..n]) + Tag(Losers(kf, ledger, rows, ks[n]), ks[n])
  }

  function Heads(kf: KeyFn, ledger: set<Key>, rows: seq<Loaded>, ks: seq<Key>): seq<Loaded> {
    if ks == [] then []
    else
      var n := |ks| - 1;
      var g := Group(kf, rows, ks[n]);
      Heads(kf, ledger, rows, ks[..n]) + (if ks[n] !in ledger && g != [] then [g[0]] else [])
  }

  datatype Partition = Partition(unique: seq<Loaded>, duplicates: seq<Duplicate>)

  /** What a batch's rows split into, given the keys other commits have already claimed. */
  function Split(kf: KeyFn, ledger: set<Key>, rows: seq<Loaded>): Partition {
    Partition(Missing(kf, rows) + First(kf, ledger, rows),
              Duplicates(kf, ledger, rows, Keys(kf, rows)))
  }

  predicate NoRepeats(ks: seq<Key>) {
    forall i, j :: 0 <= i < j < |ks| ==> ks[i] != ks[j]
  }

  lemma {:induction false} KeysFacts(kf: KeyFn, rows: seq<Loaded>)
    ensures var ks := Keys(kf, rows);
            NoRepeats(ks) && (forall k :: k in ks <==> k in KeySet(kf, rows))
            && (forall k :: Group(kf, rows, k) != [] <==> k in ks)
  {
    if rows != [] {
      var n := |rows| - 1;
      KeysFacts(kf, rows[..n]);
      KeySetSnoc(kf, rows);
    }
  }

  // A new row at the end never changes the head of an existing group.
  lemma {:induction false} HeadsKept(kf: KeyFn, ledger: set<Key>, rows: seq<Loaded>, ks: seq<Key>)
    requires rows != []
    requires forall k :: k in ks ==> Group(kf, rows[..|rows| - 1], k) != []
    ensures Heads(kf, ledger, rows, ks) == Heads(kf, ledger, rows[..|rows| - 1], ks)
  {
    if ks != [] {
      var m := |ks| - 1;
      assert forall k :: k in ks[..m] ==> k in ks;
      HeadsKept(kf, ledger, rows, ks[..m]);
      assert ks[m] in ks;
    }
  }

  /** Picking the head of every claimed group, in dictionary order, is first-occurrence. */
  lemma {:induction false} HeadsAreFirst(kf: KeyFn, ledger: set<Key>, rows: seq<Loaded>)
    ensures Heads(kf, ledger, rows, Keys(kf, rows)) == First(kf, ledger, rows)
  {
    if rows != [] {
      var n := |rows| - 1;
      var init := rows[..n];
      HeadsAreFirst(kf, ledger, init);
      KeysFacts(kf, init);
      var ks := Keys(kf, init);
      HeadsKept(kf, ledger, rows, ks);
      var key := kf(rows[n]);
      if key.Some? && key.value !in ks {
        assert (ks + [key.value])[..|ks|] == ks;
        assert Group(kf, init, key.value) == [];
      }
    }
  }

  method GroupByKey(kf: KeyFn, rows: seq<Loaded>)
    returns (keyed: map<Key, seq<Loaded>>, order: seq<Key>, missing: seq<Loaded>)
    ensures order == Keys(kf, rows) && missing == Missing(kf, rows)
    ensures forall k :: k in keyed <==> k in order
    ensures forall k :: k in keyed ==> keyed[k] == Group(kf, rows, k)
  {
    keyed, order, missing := map[], [], [];
    for i := 0 to |rows|
      invariant order == Keys(kf, rows[..i]) && missing == Missing(kf, rows[..i])
      invariant forall k :: k in keyed <==> k in order
      invariant forall k :: k in keyed ==> keyed[k] == Group(kf, rows[..i], k)
    {
      assert rows[..i + 1][..i] == rows[..i] && rows[..i + 1][i] == rows[i];
      KeysFacts(kf, rows[..i]);
      match kf(rows[i]) {
        case None => missing := missing + [rows[i]];
        case Some(k) =>
          if k in keyed {
            keyed := keyed[k := keyed[k] + [rows[i]]];
          } else {
            keyed := keyed[k := [rows[i]]];
            order := order + [k];
          }
      }
    }
    assert rows[..|rows|] == rows;
  }

  method SplitGroups(kf: KeyFn, ghost ledger: set<Key>, ghost rows: seq<Loaded>, claimed: set<Key>,
                     keyed: map<Key, seq<Loaded>>, order: seq<Key>)
    returns (winners: seq<Loaded>, duplicates: seq<Duplicate>)
    requires forall k :: k in order ==> k in keyed && keyed[k] != [] && keyed[k] == Group(kf, rows, k)
    requires forall k :: k in order ==> (k in claimed <==> k !in ledger)
    ensures winners == Heads(kf, ledger, rows, order)
    ensures duplicates == Duplicates(kf, ledger, rows, order)
  {
    winners, duplicates := [], [];
    for i := 0 to |order|
      invariant winners == Heads(kf, ledger, rows, order[..i])
      invariant duplicates == Duplicates(kf, ledger, rows, order[..i])
    {
      assert order[..i + 1][..i] == order[..i] && order[..i + 1][i] == order[i];
      var k := order[i];
      var group := keyed[k];
      if k in claimed {
        winners := winners + [group[0]];
        duplicates := duplicates + Tag(group[1..], k);
      } else {
        duplicates := duplicates + Tag(group, k);
      }
    }
    assert order[..|order|] == order;
  }

  /** A batch against the ledger: INSERT ... ON CONFLICT DO NOTHING RETURNING gives exactly the
      keys nobody has committed, and afterwards every key of the batch is in the ledger. */
  method PartitionDuplicates(kf: KeyFn, ledger: set<Key>, rows: seq<Loaded>)
    returns (p: Partition, claimedLedger: set<Key>)
    ensures p == Split(kf, ledger, rows)
    ensures claimedLedger == ledger + KeySet(kf, rows)
  {
    var keyed, order, missing := GroupByKey(kf, rows);
    KeysFacts(kf, rows);
    assert keyed.Keys == KeySet(kf, rows);
    var claimed := keyed.Keys - ledger;
    claimedLedger := ledger + keyed.Keys;
    var winners, duplicates := SplitGroups(kf, ledger, rows, claimed, keyed, order);
    HeadsAreFirst(kf, ledger, rows);
    p := Partition(missing + winners, duplicates);
  }

  // ----- Nothing is lost, nothing is invented --------------------------------------------

  function Rows(ds: seq<Duplicate>): seq<Loaded> {
    seq(|ds|, i requires 0 <= i < |ds| => ds[i].row)
  }

  lemma RowsAppend(xs: seq<Duplicate>, ys: seq<Duplicate>)
    ensures Rows(xs + ys) == Rows(xs) + Rows(ys)
  {}

  lemma RowsOfTag(rows: seq<Loaded>, k: Key)
    ensures Rows(Tag(rows, k)) == rows
  {}

  function LoserBag(kf: KeyFn, ledger: set<Key>, rows: seq<Loaded>, ks: seq<Key>): multiset<Loaded> {
    if ks == [] then multiset{}
    else LoserBag(kf, ledger, rows, ks[..|ks| - 1]) + multiset(Losers(kf, ledger, rows, ks[|ks| - 1]))
  }

  lemma {:induction false} BagOfDuplicates(kf: KeyFn, ledger: set<Key>, rows: seq<Loaded>, ks: seq<Key>)
    ensures multiset(Rows(Duplicates(kf, ledger, rows, ks))) == LoserBag(kf, ledger, rows, ks)
  {
    if ks != [] {
      var n := |ks| - 1;
      BagOfDuplicates(kf, ledger, rows, ks[..n]);
      var l := Losers(kf, ledger, rows, ks[n]);
      RowsAppend(Duplicates(kf, ledger, rows, ks[..n]), Tag(l, ks[n]));
      RowsOfTag(l, ks[n]);
    }
  }

  // A new last row joins its own group's losers unless it is the one that wins the key.
  predicate Loses(kf: KeyFn, ledger: set<Key>, init: seq<Loaded>, last: Loaded) {
    kf(last).Some? && (kf(last).value in ledger || Group(kf, init, kf(last).value) != [])
  }

  lemma LosersStep(kf: KeyFn, ledger: set<Key>, init: seq<Loaded>, last: Loaded, k: Key)
    ensures multiset(Losers(kf, ledger, init + [last], k)) ==
            multiset(Losers(kf, ledger, init, k))
            + (if kf(last) == Some(k) && Loses(kf, ledger, init, last) then multiset{last} else multiset{})
  {
    assert (init + [last])[..|init|] == init;
    var g := Group(kf, init, k);
    if kf(last) == Some(k) && k !in ledger && g != [] {
      assert (g + [last])[1..] == g[1..] + [last];
    } else if kf(last) == Some(k) {
      assert g == [] ==> [last][1..] == [] && g + [last] == [last];
    } else {
      assert g + [] == g;
    }
  }

  lemma {:induction false} LoserBagStep(kf: KeyFn, ledger: set<Key>, init: seq<Loaded>, last: Loaded, ks: seq<Key>)
    requires NoRepeats(ks)
    ensures LoserBag(kf, ledger, init + [last], ks) ==
            LoserBag(kf, ledger, init, ks)
            + (if kf(last).Some? && kf(last).value in ks
                && Loses(kf, ledger, init, last) then multiset{last} else multiset{})
  {
    if ks != [] {
      var n := |ks| - 1;
      assert ks == ks[..n] + [ks[n]];
      assert ks[n] !in ks[..n];
      LoserBagStep(kf, ledger, init, last, ks[..n]);
      LosersStep(kf, ledger, init, last, ks[n]);
    }
  }

  lemma {:induction false} BagPermutation(kf: KeyFn, ledger: set<Key>, rows: seq<Loaded>)
    ensures multiset(Missing(kf, rows)) + multiset(First(kf, ledger, rows))
            + LoserBag(kf, ledger, rows, Keys(kf, rows)) == multiset(rows)
  {
    if rows != [] {
      var n := |rows| - 1;
      var init, last := rows[..n], rows[n];
      assert rows == init + [last];
      BagPermutation(kf, ledger, init);
      KeysFacts(kf, init);
      FirstSnoc(kf, ledger, init, last);
      AllLosersStep(kf, ledger, init, last);
    }
  }

  lemma AllLosersStep(kf: KeyFn, ledger: set<Key>, init: seq<Loaded>, last: Loaded)
    ensures LoserBag(kf, ledger, init + [last], Keys(kf, init + [last])) ==
            LoserBag(kf, ledger, init, Keys(kf, init))
            + (if Loses(kf, ledger, init, last) then multiset{last} else multiset{})
  {
    var ks := Keys(kf, init);
    KeysFacts(kf, init);
    assert (init + [last])[..|init|] == init;
    LoserBagStep(kf, ledger, init, last, ks);
    if kf(last).Some? && kf(last).value !in ks {
      var k := kf(last).value;
      assert (ks + [k])[..|ks|] == ks;
      LosersStep(kf, ledger, init, last, k);
      assert Losers(kf, ledger, init, k) == [];
    }
  }

  /** Unique rows and duplicate rows together are a permutation of the loaded rows. */
  lemma SplitIsPermutation(kf: KeyFn, ledger: set<Key>, rows: seq<Loaded>)
    ensures var p := Split(kf, ledger, rows);
            multiset(p.unique) + multiset(Rows(p.duplicates)) == multiset(rows)
  {
    BagPermutation(kf, ledger, rows);
    BagOfDuplicates(kf, ledger, rows, Keys(kf, rows));
  }
}
