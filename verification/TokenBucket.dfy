/**
 The per-account token bucket of app/services/rate_limiter.py.

 Token amounts are kept in units of 1/60000 token.  In that unit a limit of `limit` per minute
 refills exactly `limit` units per millisecond, one requested entity costs 60000 units, and the
 bucket holds 60000 * limit units, so the Lua script's arithmetic is exact integer arithmetic.
 */
module TokenBucket {

  const UNIT := 60000
  // Milliseconds an idle key lives: the time to refill completely, plus a minute.
  const TTL := 120000

  // What Redis holds under the bucket's key; Absent models a missing or expired key.
  datatype Stored = Absent | Stored(tokens: int, ts: int)

  datatype Call = Call(now: int, amount: int)

  datatype Decision =
    | Decision(allowed: bool, retryAfterMs: int, remaining: int)
    | Unsatisfiable

  function Min(a: int, b: int): int {
    if a <= b then a else b
  }

  function Capacity(limit: int): int {
    UNIT * limit
  }

  /** Units available at time `now`, which is what both the script and `peek` compute. */
  function Level(limit: int, b: Stored, now: int): int {
    match b
    case Absent => Capacity(limit)
    case Stored(tokens, ts) =>
      Min(Capacity(limit), tokens + limit * (if now > ts then now - ts else 0))
  }

  predicate Allows(limit: int, b: Stored, c: Call) {
    c.amount <= 0 || (c.amount <= limit && Level(limit, b, c.now) >= UNIT * c.amount)
  }

  // The two early exits of `consume` never reach the script, so they leave the key alone.
  function Next(limit: int, b: Stored, c: Call): Stored {
    if c.amount <= 0 || c.amount > limit then b
    else if Allows(limit, b, c) then Stored(Level(limit, b, c.now) - UNIT * c.amount, c.now)
    else Stored(Level(limit, b, c.now), c.now)
  }

  function Taken(limit: int, b: Stored, c: Call): nat {
    if c.amount > 0 && Allows(limit, b, c) then c.amount else 0
  }

  // The wait the caller is told to make: whole milliseconds, rounded down, plus 50.
  function RetryAfterMs(limit: int, missing: int): int
    requires limit > 0
  {
    missing / limit + 50
  }

  /** The bucket as it is used: two fields under one key, updated in place by every call. */
  class Bucket {
    var stored: Stored

    constructor ()
      ensures stored == Absent
    {
      stored := Absent;
    }

    method Consume(limit: int, now: int, amount: int) returns (d: Decision)
      modifies this
      ensures stored == Next(limit, old(stored), Call(now, amount))
      ensures d.Unsatisfiable? <==> amount > 0 && amount > limit
      ensures d.Decision? ==> d.allowed == Allows(limit, old(stored), Call(now, amount))
      ensures d.Decision? && amount > 0 ==> stored == Stored(d.remaining, now)
      ensures d.Decision? && amount <= 0 ==> d.remaining == Capacity(limit)
      ensures d.Decision? && d.allowed ==> d.retryAfterMs == 50
      ensures d.Decision? && !d.allowed ==>
                d.retryAfterMs == RetryAfterMs(limit, UNIT * amount - Level(limit, old(stored), now))
    {
      if amount <= 0 {
        return Decision(true, 50, Capacity(limit));
      }
      if amount > limit {
        return Unsatisfiable;
      }
      var capacity := Capacity(limit);
      var tokens, ts := capacity, now;
      if stored.Stored? {
        tokens, ts := stored.tokens, stored.ts;
      }
      var elapsed := if now > ts then now - ts else 0;
      tokens := Min(capacity, tokens + limit * elapsed);
      var allowed, missing := false, 0;
      if tokens >= UNIT * amount {
        tokens := tokens - UNIT * amount;
        allowed := true;
      } else {
        missing := UNIT * amount - tokens;
      }
      stored := Stored(tokens, now);
      assert missing == 0 ==> missing / limit == 0;
      d := Decision(allowed, missing / limit + 50, tokens);
    }

    method Peek(limit: int, now: int) returns (units: int)
      ensures units == Level(limit, stored, now)
      ensures forall amount :: 0 < amount <= limit ==>
                (Allows(limit, stored, Call(now, amount)) <==> UNIT * amount <= units)
    {
      match stored {
        case Absent => units := Capacity(limit);
        case Stored(tokens, ts) =>
          units := Min(Capacity(limit), tokens + limit * (if now > ts then now - ts else 0));
      }
    }
  }

  // ----- Runs ----------------------------------------------------------------------------

  // Redis drops the key once it has been idle for its time to live.
  datatype BucketEvent = Request(call: Call) | Expire(now: int)

  function Ask(now: int, amount: int): BucketEvent {
    Request(Call(now, amount))
  }

  function TimeOf(e: BucketEvent): int {
    match e case Request(c) => c.now case Expire(now) => now
  }

  function React(limit: int, b: Stored, e: BucketEvent): Stored {
    match e
    case Request(c) => Next(limit, b, c)
    case Expire(now) => if b.Stored? && now >= b.ts + TTL then Absent else b
  }

  function Gained(limit: int, b: Stored, e: BucketEvent): nat {
    match e case Request(c) => Taken(limit, b, c) case Expire(_) => 0
  }

  function After(limit: int, b: Stored, es: seq<BucketEvent>): Stored {
    if es == [] then b
    else
      var n := |es| - 1;
      React(limit, After(limit, b, es[..n]), es[n])
  }

  function Admitted(limit: int, b: Stored, es: seq<BucketEvent>): nat {
    if es == [] then 0
    else
      var n := |es| - 1;
      Admitted(limit, b, es[..n]) + Gained(limit, After(limit, b, es[..n]), es[n])
  }

  predicate InRange(limit: int, b: Stored) {
    b.Stored? ==> 0 <= b.tokens <= Capacity(limit)
  }

  function Ahead(from: int, to: int): nat {
    if to > from then to - from else 0
  }

  // How far the clock moved forward between consecutive events, ignoring backward steps.
  function Forward(from: int, es: seq<BucketEvent>): nat {
    if es == [] then 0
    else
      var n := |es| - 1;
      Forward(from, es[..n]) + Ahead(if n == 0 then from else TimeOf(es[n - 1]), TimeOf(es[n]))
  }

  predicate ClockNeverGoesBack(es: seq<BucketEvent>) {
    forall i, j :: 0 <= i < j < |es| ==> TimeOf(es[i]) <= TimeOf(es[j])
  }

  lemma {:induction false} TokensStayInRange(limit: int, b: Stored, es: seq<BucketEvent>)
    requires limit > 0 && InRange(limit, b)
    ensures InRange(limit, After(limit, b, es))
  {
    if es != [] {
      var n := |es| - 1;
      TokensStayInRange(limit, b, es[..n]);
      if es[n].Request? {
        NextInRange(limit, After(limit, b, es[..n]), es[n].call);
      }
    }
  }

  lemma NextInRange(limit: int, b: Stored, c: Call)
    requires limit > 0 && InRange(limit, b)
    ensures InRange(limit, Next(limit, b, c))
    ensures 0 <= Level(limit, b, c.now) <= Capacity(limit)
  {
    if b.Stored? {
      assert limit * Ahead(b.ts, c.now) >= 0;
    }
  }

  lemma Distributes(x: int, a: int, b: int)
    ensures x * (a + b) == x * a + x * b
  {}

  lemma Grows(x: int, a: int, b: int)
    requires x >= 0 && a <= b
    ensures x * a <= x * b
  {}

  // ----- What is owed --------------------------------------------------------------------

  function Held(limit: int, b: Stored): int {
    if b.Stored? then b.tokens else Capacity(limit)
  }

  // Refill not yet written back, at time `last`.
  function Lag(b: Stored, last: int): nat {
    if b.Stored? then Ahead(b.ts, last) else 0
  }

  // Tokens held, tokens given out and refill outstanding are together within the budget.
  predicate Owed(limit: int, b: Stored, admitted: nat, last: int, budget: int) {
    Held(limit, b) + UNIT * admitted + limit * Lag(b, last) <= budget
  }

  lemma RequestOwes(limit: int, b: Stored, c: Call, admitted: nat, last: int, budget: int)
    requires limit > 0 && InRange(limit, b) && Owed(limit, b, admitted, last, budget)
    ensures Owed(limit, Next(limit, b, c), admitted + Taken(limit, b, c), c.now, budget + limit * Ahead(last, c.now))
  {
    Distributes(limit, Lag(b, last), Ahead(last, c.now));
    Grows(limit, Lag(b, c.now), Lag(b, last) + Ahead(last, c.now));
    assert limit * Ahead(last, c.now) >= 0;
  }

  lemma ExpiryOwes(limit: int, b: Stored, now: int, admitted: nat, last: int, budget: int)
    requires limit > 0 && InRange(limit, b) && Owed(limit, b, admitted, last, budget)
    ensures Owed(limit, React(limit, b, Expire(now)), admitted, now, budget + limit * Ahead(last, now))
  {
    Distributes(limit, Lag(b, last), Ahead(last, now));
    Grows(limit, Lag(b, now), Lag(b, last) + Ahead(last, now));
    if b.Stored? && now >= b.ts + TTL {
      Grows(limit, TTL, Lag(b, now));
    }
  }

  lemma ReactOwes(limit: int, b: Stored, e: BucketEvent, admitted: nat, last: int, budget: int)
    requires limit > 0 && InRange(limit, b) && Owed(limit, b, admitted, last, budget)
    ensures Owed(limit, React(limit, b, e), admitted + Gained(limit, b, e), TimeOf(e),
                 budget + limit * Ahead(last, TimeOf(e)))
  {
    match e {
      case Request(c) => RequestOwes(limit, b, c, admitted, last, budget);
      case Expire(now) => ExpiryOwes(limit, b, now, admitted, last, budget);
    }
  }

  function LastTime(from: int, es: seq<BucketEvent>): int {
    if es == [] then from else TimeOf(es[|es| - 1])
  }

  /** The accounting behind every bound: what is left plus what was given out never exceeds what
      was there plus the refill for the time the clock moved forward.  No clock assumption, and
      requests of every size. */
  lemma {:induction false} Conservation(limit: int, b: Stored, from: int, es: seq<BucketEvent>)
    requires limit > 0 && InRange(limit, b) && (b.Stored? ==> from <= b.ts)
    ensures var e := After(limit, b, es);
            Held(limit, e) + UNIT * Admitted(limit, b, es) + limit * Lag(e, LastTime(from, es))
            <= Held(limit, b) + limit * Forward(from, es)
  {
    if es != [] {
      var n := |es| - 1;
      var init := es[..n];
      Conservation(limit, b, from, init);
      TokensStayInRange(limit, b, init);
      var budget := Held(limit, b) + limit * Forward(from, init);
      ReactOwes(limit, After(limit, b, init), es[n], Admitted(limit, b, init), LastTime(from, init), budget);
      Distributes(limit, Forward(from, init), Ahead(LastTime(from, init), TimeOf(es[n])));
    }
  }

  lemma {:induction false} ForwardUnderMonotoneClock(from: int, es: seq<BucketEvent>)
    requires ClockNeverGoesBack(es) && es != [] && from <= TimeOf(es[0])
    ensures Forward(from, es) == TimeOf(es[|es| - 1]) - from
  {
    var n := |es| - 1;
    if n > 0 {
      ForwardUnderMonotoneClock(from, es[..n]);
      assert es[..n][n - 1] == es[n - 1];
    } else {
      assert es[..0] == [];
    }
  }

  lemma {:induction false} AfterSplit(limit: int, b: Stored, xs: seq<BucketEvent>, ys: seq<BucketEvent>)
    ensures After(limit, b, xs + ys) == After(limit, After(limit, b, xs), ys)
    ensures Admitted(limit, b, xs + ys) == Admitted(limit, b, xs) + Admitted(limit, After(limit, b, xs), ys)
  {
    if ys == [] {
      assert xs + ys == xs;
    } else {
      var n := |ys| - 1;
      AfterSplit(limit, b, xs, ys[..n]);
      assert (xs + ys)[..|xs + ys| - 1] == xs + ys[..n];
    }
  }

  // Nothing has moved the bucket yet, or at most a full bucket and the refill since have been spent.
  predicate Windowed(limit: int, b: Stored, e: Stored, admitted: nat, last: int, refill: int) {
    (e == b && admitted == 0) || Owed(limit, e, admitted, last, Capacity(limit) + refill)
  }

  lemma FirstMove(limit: int, b: Stored, e: BucketEvent, refill: int)
    requires limit > 0 && InRange(limit, b) && refill >= 0
    ensures Windowed(limit, b, React(limit, b, e), Gained(limit, b, e), TimeOf(e), refill)
  {
    if e.Request? {
      NextInRange(limit, b, e.call);
    }
  }

  lemma {:induction false} WindowSpends(limit: int, b: Stored, window: seq<BucketEvent>, from: int)
    requires limit > 0 && InRange(limit, b)
    ensures Windowed(limit, b, After(limit, b, window), Admitted(limit, b, window),
                     LastTime(from, window), limit * Forward(from, window))
  {
    if window != [] {
      var n := |window| - 1;
      var init, e := window[..n], window[n];
      WindowSpends(limit, b, init, from);
      TokensStayInRange(limit, b, init);
      var mid, admitted, refill := After(limit, b, init), Admitted(limit, b, init), limit * Forward(from, init);
      Distributes(limit, Forward(from, init), Ahead(LastTime(from, init), TimeOf(e)));
      if mid == b && admitted == 0 {
        FirstMove(limit, b, e, limit * Forward(from, window));
      } else {
        ReactOwes(limit, mid, e, admitted, LastTime(from, init), Capacity(limit) + refill);
      }
    }
  }

  /** The window bound for every sequence of requests of any size, with key expiries anywhere, and
      for every clock: from any state in range, a window admits at most `limit` plus the refill for
      the forward clock movement. */
  lemma WindowBoundAnyClock(limit: int, b: Stored, window: seq<BucketEvent>)
    requires limit > 0 && InRange(limit, b) && window != []
    ensures UNIT * Admitted(limit, b, window) <= UNIT * limit + limit * Forward(TimeOf(window[0]), window)
  {
    var from := TimeOf(window[0]);
    WindowSpends(limit, b, window, from);
    TokensStayInRange(limit, b, window);
    assert limit * Lag(After(limit, b, window), LastTime(from, window)) >= 0;
    assert limit * Forward(from, window) >= 0;
  }

  /** Under a clock that never goes back: any window of d milliseconds, anywhere in any run,
      admits at most limit + limit * d / 60000 entities. */
  lemma WindowBound(limit: int, b: Stored, before: seq<BucketEvent>, window: seq<BucketEvent>)
    requires limit > 0 && InRange(limit, b) && window != [] && ClockNeverGoesBack(window)
    ensures var d := TimeOf(window[|window| - 1]) - TimeOf(window[0]);
            UNIT * (Admitted(limit, b, before + window) - Admitted(limit, b, before)) <= UNIT * limit + limit * d
  {
    AfterSplit(limit, b, before, window);
    TokensStayInRange(limit, b, before);
    WindowBoundAnyClock(limit, After(limit, b, before), window);
    ForwardUnderMonotoneClock(TimeOf(window[0]), window);
  }

  /** Without that clock assumption the d-millisecond bound is false: one caller whose clock is a
      minute behind rewinds the stored timestamp and the minute is refilled a second time. */
  lemma ClockSkewBreaksBound()
    ensures var es := [Ask(60000, 60), Ask(0, 60), Ask(60000, 60)];
            Admitted(60, Absent, es) == 120
            && UNIT * Admitted(60, Absent, es) > UNIT * 60 + 60 * (TimeOf(es[2]) - TimeOf(es[0]))
  {
    var a, b, c := Ask(60000, 60), Ask(0, 60), Ask(60000, 60);
    assert [a, b, c][..2] == [a, b] && [a, b][..1] == [a] && [a][..0] == [];
    assert After(60, Absent, [a]) == Stored(0, 60000);
    assert After(60, Absent, [a, b]) == Stored(0, 0);
    assert Admitted(60, Absent, [a]) == 60;
    assert Admitted(60, Absent, [a, b]) == 60;
    assert Level(60, Stored(0, 0), 60000) == 60 * 60000;
    assert Admitted(60, Absent, [a, b, c]) == 60 + Gained(60, Stored(0, 0), c);
  }

  // ----- Denials and expiry are invisible ------------------------------------------------

  // From time `now` on, the two stored states answer every question alike.
  ghost predicate SameFrom(limit: int, x: Stored, y: Stored, now: int) {
    forall t :: t >= now ==> Level(limit, x, t) == Level(limit, y, t)
  }

  lemma LevelComposes(limit: int, b: Stored, t: int, u: int)
    requires limit > 0 && t <= u && (b.Stored? ==> b.ts <= t)
    ensures Level(limit, Stored(Level(limit, b, t), t), u) == Level(limit, b, u)
  {
    if b.Stored? {
      assert limit * (u - b.ts) == limit * (t - b.ts) + limit * (u - t);
    }
    assert limit * (u - t) >= 0;
  }

  lemma NextKeepsSame(limit: int, x: Stored, y: Stored, c: Call)
    requires limit > 0 && SameFrom(limit, x, y, c.now)
    ensures Allows(limit, x, c) == Allows(limit, y, c)
    ensures SameFrom(limit, Next(limit, x, c), Next(limit, y, c), c.now)
  {
    assert Level(limit, x, c.now) == Level(limit, y, c.now);
  }

  lemma DenialKeepsSame(limit: int, b: Stored, c: Call)
    requires limit > 0 && (b.Stored? ==> b.ts <= c.now) && Taken(limit, b, c) == 0
    ensures SameFrom(limit, Next(limit, b, c), b, c.now)
  {
    forall t | t >= c.now ensures Level(limit, Next(limit, b, c), t) == Level(limit, b, t) {
      LevelComposes(limit, b, c.now, t);
    }
  }

  lemma ExpiryKeepsSame(limit: int, b: Stored, now: int)
    requires limit > 0 && InRange(limit, b) && b.Stored? && now >= b.ts + TTL
    ensures SameFrom(limit, Absent, b, now)
  {
    forall t | t >= now ensures Level(limit, Absent, t) == Level(limit, b, t) {
      assert limit * (t - b.ts) >= limit * 60000;
    }
  }

  // Just the calls that were given tokens, in order.
  function Winners(limit: int, b: Stored, es: seq<BucketEvent>): seq<BucketEvent> {
    if es == [] then []
    else
      var n := |es| - 1;
      var rest := Winners(limit, b, es[..n]);
      if Gained(limit, After(limit, b, es[..n]), es[n]) > 0
      then rest + [es[n]] else rest
  }

  lemma ReactKeepsSame(limit: int, x: Stored, y: Stored, e: BucketEvent)
    requires limit > 0 && InRange(limit, x) && (x.Stored? ==> x.ts <= TimeOf(e)) && SameFrom(limit, x, y, TimeOf(e))
    ensures var x' := React(limit, x, e);
            InRange(limit, x') && (x'.Stored? ==> x'.ts <= TimeOf(e))
            && if Gained(limit, x, e) > 0
               then SameFrom(limit, x', React(limit, y, e), TimeOf(e))
                   && Gained(limit, y, e) == Gained(limit, x, e) == e.call.amount
               else SameFrom(limit, x', y, TimeOf(e))
  {
    match e {
      case Expire(t) =>
        if x.Stored? && t >= x.ts + TTL {
          ExpiryKeepsSame(limit, x, t);
        }
      case Request(c) =>
        NextInRange(limit, x, c);
        NextKeepsSame(limit, x, y, c);
        if Taken(limit, x, c) == 0 {
          DenialKeepsSame(limit, x, c);
        }
    }
  }

  /** Dropping every denied call and every expiry from a run, from whatever state it starts in,
      changes nothing a later caller can see: the winners alone lead to an equivalent bucket, all of
      them win again, and the run admits exactly what they ask for. */
  lemma {:induction false} DenialsAndExpiryInvisible(limit: int, b0: Stored, es: seq<BucketEvent>, now: int)
    requires limit > 0 && InRange(limit, b0) && ClockNeverGoesBack(es)
    requires b0.Stored? ==> b0.ts <= if es == [] then now else TimeOf(es[0])
    requires es != [] ==> TimeOf(es[|es| - 1]) <= now
    ensures var winners := Winners(limit, b0, es);
            SameFrom(limit, After(limit, b0, es), After(limit, b0, winners), now)
            && Admitted(limit, b0, es) == Admitted(limit, b0, winners) == SumAmounts(winners)
            && var b := After(limit, b0, es); InRange(limit, b) && (b.Stored? ==> b.ts <= now)
  {
    if es != [] {
      var n := |es| - 1;
      var init, e := es[..n], es[n];
      DenialsAndExpiryInvisible(limit, b0, init, TimeOf(e));
      var b, w := After(limit, b0, init), Winners(limit, b0, init);
      ReactKeepsSame(limit, b, After(limit, b0, w), e);
      if Gained(limit, b, e) > 0 {
        assert (w + [e])[..|w|] == w;
      }
    }
  }

  function SumAmounts(es: seq<BucketEvent>): int {
    if es == [] then 0
    else
      var n := |es| - 1;
      SumAmounts(es[..n]) + (if es[n].Request? then es[n].call.amount else 0)
  }

  // ----- What one minute admits ----------------------------------------------------------

  lemma LevelGrows(limit: int, b: Stored, t: int, u: int)
    requires limit > 0 && t <= u && (b.Stored? ==> b.ts <= t)
    ensures Level(limit, b, u) <= Level(limit, b, t) + limit * (u - t)
  {
    assert limit * (u - t) >= 0;
    if b.Stored? {
      Distributes(limit, t - b.ts, u - t);
    }
  }

  // Events in clock order, all between `from` and `to`.
  predicate Within(es: seq<BucketEvent>, from: int, to: int) {
    ClockNeverGoesBack(es) && forall i :: 0 <= i < |es| ==> from <= TimeOf(es[i]) <= to
  }

  lemma RequestSpends(limit: int, b: Stored, c: Call)
    requires limit > 0 && InRange(limit, b) && (b.Stored? ==> b.ts <= c.now)
    ensures var e := Next(limit, b, c);
            InRange(limit, e) && (e.Stored? ==> e.ts <= c.now)
            && Level(limit, e, c.now) == Level(limit, b, c.now) - UNIT * Taken(limit, b, c)
  {
    NextInRange(limit, b, c);
  }

  lemma ReactSpends(limit: int, b: Stored, e: BucketEvent)
    requires limit > 0 && InRange(limit, b) && (b.Stored? ==> b.ts <= TimeOf(e))
    ensures var b' := React(limit, b, e);
            InRange(limit, b') && (b'.Stored? ==> b'.ts <= TimeOf(e))
            && Level(limit, b', TimeOf(e)) == Level(limit, b, TimeOf(e)) - UNIT * Gained(limit, b, e)
  {
    match e {
      case Request(c) => RequestSpends(limit, b, c);
      case Expire(now) =>
        if b.Stored? && now >= b.ts + TTL {
          ExpiryKeepsSame(limit, b, now);
        }
    }
  }

  lemma {:induction false} SpendsWhatIsThere(limit: int, b: Stored, es: seq<BucketEvent>, t: int, end: int)
    requires limit > 0 && InRange(limit, b) && t <= end && (b.Stored? ==> b.ts <= t) && Within(es, t, end)
    ensures var e := After(limit, b, es);
            InRange(limit, e) && (e.Stored? ==> e.ts <= end)
            && Level(limit, e, end) + UNIT * Admitted(limit, b, es) <= Level(limit, b, t) + limit * (end - t)
  {
    if es == [] {
      LevelGrows(limit, b, t, end);
    } else {
      var n := |es| - 1;
      var e, mid := es[n], After(limit, b, es[..n]);
      SpendsWhatIsThere(limit, b, es[..n], t, TimeOf(e));
      OneMoreSpends(limit, mid, e, Level(limit, b, t), Admitted(limit, b, es[..n]), t, end);
    }
  }

  lemma OneMoreSpends(limit: int, b: Stored, e: BucketEvent, start: int, admitted: nat, t: int, end: int)
    requires limit > 0 && InRange(limit, b) && (b.Stored? ==> b.ts <= TimeOf(e)) && TimeOf(e) <= end
    requires Level(limit, b, TimeOf(e)) + UNIT * admitted <= start + limit * (TimeOf(e) - t)
    ensures var b' := React(limit, b, e);
            InRange(limit, b') && (b'.Stored? ==> b'.ts <= end)
            && Level(limit, b', end) + UNIT * (admitted + Gained(limit, b, e)) <= start + limit * (end - t)
  {
    ReactSpends(limit, b, e);
    LevelGrows(limit, React(limit, b, e), TimeOf(e), end);
    Distributes(limit, TimeOf(e) - t, end - TimeOf(e));
  }

  // Whatever is asked for in the minute after `t`, no more than `limit` is admitted.
  ghost predicate MinuteKeepsLimit(limit: int, b: Stored, t: int) {
    forall es :: Within(es, t, t + 60000) ==> Admitted(limit, b, es) <= limit
  }

  lemma OneThenAll(limit: int, b: Stored, t: int)
    requires limit > 0 && InRange(limit, b) && (b.Stored? ==> b.ts <= t) && Level(limit, b, t) >= UNIT
    ensures Admitted(limit, b, [Ask(t, 1), Ask(t + 60000, limit)]) == limit + 1
  {
    var one, all := Ask(t, 1), Ask(t + 60000, limit);
    assert [one, all][..1] == [one] && [one][..0] == [];
    var mid := Next(limit, b, one.call);
    RequestSpends(limit, b, one.call);
    assert After(limit, b, [one]) == mid && Admitted(limit, b, [one]) == 1;
    assert Level(limit, mid, t + 60000) == Capacity(limit);
  }

  /** "No account exceeds its limit per minute" is exact: the minute that starts at `t` stays within
      the limit, whatever is asked for, if and only if the bucket then holds less than one token.
      A full bucket can spend itself and its refill in the same minute. */
  lemma MinuteKeepsLimitExactlyWhen(limit: int, b: Stored, t: int)
    requires limit > 0 && InRange(limit, b) && (b.Stored? ==> b.ts <= t)
    ensures MinuteKeepsLimit(limit, b, t) <==> Level(limit, b, t) < UNIT
  {
    if Level(limit, b, t) < UNIT {
      forall es | Within(es, t, t + 60000) ensures Admitted(limit, b, es) <= limit {
        SpendsWhatIsThere(limit, b, es, t, t + 60000);
        LevelNotNegative(limit, After(limit, b, es), t + 60000);
      }
    } else {
      OneThenAll(limit, b, t);
      assert Within([Ask(t, 1), Ask(t + 60000, limit)], t, t + 60000);
    }
  }

  lemma LevelNotNegative(limit: int, b: Stored, now: int)
    requires limit > 0 && InRange(limit, b)
    ensures Level(limit, b, now) >= 0
  {
    NextInRange(limit, b, Call(now, 1));
  }

  /** A fresh bucket admits twice its limit within sixty seconds. */
  lemma FreshMinuteAdmitsTwice(limit: int, t: int)
    requires limit > 0
    ensures Admitted(limit, Absent, [Ask(t, limit), Ask(t + 60000, limit)]) == 2 * limit
  {
    var one, two := Ask(t, limit), Ask(t + 60000, limit);
    assert [one, two][..1] == [one] && [one][..0] == [];
    assert After(limit, Absent, [one]) == Stored(0, t);
    assert Level(limit, Stored(0, t), t + 60000) == Capacity(limit);
    assert Admitted(limit, Absent, [one]) == limit;
  }

  // ----- Deferral suffices ---------------------------------------------------------------

  /** A denied request no larger than the limit is admitted after the wait it was told to make,
      if nobody else consumes meanwhile; that wait is at most 60050 ms, and no wait more than 50 ms
      shorter suffices. */
  lemma DeferralSuffices(limit: int, b: Stored, now: int, amount: int)
    requires limit > 0 && 0 < amount <= limit && InRange(limit, b)
    requires b.Stored? ==> b.ts <= now
    requires !Allows(limit, b, Call(now, amount))
    ensures var wait := RetryAfterMs(limit, UNIT * amount - Level(limit, b, now));
            50 <= wait <= 60050
            && (forall later :: later >= now + wait ==>
                  Allows(limit, Next(limit, b, Call(now, amount)), Call(later, amount)))
            && (forall earlier :: now <= earlier < now + wait - 50 ==>
                  !Allows(limit, Next(limit, b, Call(now, amount)), Call(earlier, amount)))
  {
    var c := Call(now, amount);
    NextInRange(limit, b, c);
    var missing := UNIT * amount - Level(limit, b, now);
    var wait := RetryAfterMs(limit, missing);
    DivisionBounds(missing, limit);
    forall later | later >= now + wait ensures Allows(limit, Next(limit, b, c), Call(later, amount)) {
      assert limit * (later - now) >= limit * wait;
      assert UNIT * amount <= Capacity(limit);
    }
    forall earlier | now <= earlier < now + wait - 50 ensures !Allows(limit, Next(limit, b, c), Call(earlier, amount)) {
      TooEarly(limit, missing, earlier - now);
    }
  }

  lemma TooEarly(limit: int, missing: int, waited: int)
    requires limit > 0 && 0 <= waited < missing / limit
    ensures limit * waited < missing
  {
    var q := missing / limit;
    assert missing >= limit * q;
    assert limit * waited + limit == limit * (waited + 1);
    Grows(limit, waited + 1, q);
  }

  lemma DivisionBounds(missing: int, limit: int)
    requires limit > 0 && 0 < missing <= UNIT * limit
    ensures 0 <= missing / limit <= UNIT
    ensures limit * (missing / limit + 50) >= missing
  {
    var q := missing / limit;
    assert missing == limit * q + missing % limit;
    assert limit * (q + 50) == limit * q + 50 * limit;
  }
}
