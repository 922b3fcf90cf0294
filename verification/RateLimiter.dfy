/** The token bucket: one limiter, any sequence of calls. */
module RateLimiter {
  import opened Numbers

  /** Capacity and the seconds it takes to refill one token. */
  datatype Rate = Rate(perMinute: int) {
    function Capacity(): (c: int)
      ensures c >= 1 && c >= perMinute && (c == perMinute || c == 1)
    {
      if perMinute >= 1 then perMinute else 1
    }

    function Interval(): (r: real)
      ensures r > 0.0 && r * Capacity() as real == 60.0
    {
      assert 60.0 / Capacity() as real > 0.0 by {
        StrictQuotient(60.0, Capacity() as real, 0.0, 61.0);
      }
      60.0 / Capacity() as real
    }
  }

  datatype Bucket = Bucket(tokens: int, last: real)

  /** `int(x)` of the source: truncation toward zero. */
  function Truncate(x: real): int {
    if x >= 0.0 then x.Floor else -((-x).Floor)
  }

  /** Whole tokens that elapsed time is worth. */
  function Refill(rate: Rate, elapsed: real): int { Truncate(elapsed / rate.Interval()) }

  function MinInt(x: int, y: int): int { if x <= y then x else y }

  function Refilled(rate: Rate, b: Bucket, now: real): Bucket {
    var refill := Refill(rate, now - b.last);
    if refill > 0 then Bucket(MinInt(rate.Capacity(), b.tokens + refill), now) else b
  }

  function Allow(rate: Rate, b: Bucket, now: real, cost: int): (Bucket, bool) {
    var c := Refilled(rate, b, now);
    if c.tokens >= cost then (c.(tokens := c.tokens - cost), true) else (c, false)
  }

  class Limiter {
    const rate: Rate
    var tokens: int
    var last: real

    function Value(): Bucket
      reads this
    {
      Bucket(tokens, last)
    }

    constructor (perMinute: int, now: real)
      ensures rate == Rate(perMinute)
      ensures Value() == Start(rate, now)
    {
      rate := Rate(perMinute);
      tokens := Rate(perMinute).Capacity();
      last := now;
    }

    method Acquire(now: real, cost: int) returns (granted: bool)
      modifies this
      ensures (Value(), granted) == Allow(rate, old(Value()), now, cost)
    {
      var elapsed := now - last;
      var refill := Truncate(elapsed / rate.Interval());
      if refill > 0 {
        tokens := if rate.Capacity() <= tokens + refill then rate.Capacity() else tokens + refill;
        last := now;
      }
      if tokens >= cost {
        tokens := tokens - cost;
        return true;
      }
      return false;
    }
  }

  // ---- runs -----------------------------------------------------------------------

  datatype Call = Call(now: real, cost: int)

  function Start(rate: Rate, now: real): Bucket { Bucket(rate.Capacity(), now) }

  function After(rate: Rate, b: Bucket, calls: seq<Call>): Bucket
    decreases |calls|
  {
    if calls == [] then b else After(rate, Allow(rate, b, calls[0].now, calls[0].cost).0, calls[1..])
  }

  /** Total cost granted along the calls. */
  function Granted(rate: Rate, b: Bucket, calls: seq<Call>): int
    decreases |calls|
  {
    if calls == [] then 0
    else
      var (next, ok) := Allow(rate, b, calls[0].now, calls[0].cost);
      (if ok then calls[0].cost else 0) + Granted(rate, next, calls[1..])
  }

  /** The clock does not go backwards from `from`, and no cost is negative. */
  predicate Orderly(from: real, calls: seq<Call>)
    decreases |calls|
  {
    calls == [] || (from <= calls[0].now && calls[0].cost >= 0 && Orderly(calls[0].now, calls[1..]))
  }

  predicate Valid(rate: Rate, b: Bucket) { 0 <= b.tokens <= rate.Capacity() }

  function EndTime(from: real, calls: seq<Call>): real {
    if calls == [] then from else calls[|calls| - 1].now
  }

  /** Tokens that time since the bucket's reference point is worth, fractions included. */
  function Worth(rate: Rate, elapsed: real): real { elapsed / rate.Interval() }

  lemma WorthAdds(rate: Rate, a: real, b: real)
    ensures Worth(rate, a + b) == Worth(rate, a) + Worth(rate, b)
  {
    var i := rate.Interval();
    var x, y, z := a / i, b / i, (a + b) / i;
    assert x * i == a && y * i == b && z * i == a + b;
    Distributes(x, y, i);
    if z < x + y {
      StrictlyMonotone(z, x + y, i);
      assert false;
    }
    if z > x + y {
      StrictlyMonotone(x + y, z, i);
      assert false;
    }
  }

  lemma WorthGrows(rate: Rate, a: real)
    requires a >= 0.0
    ensures Worth(rate, a) >= 0.0
  {
    var i := rate.Interval();
    var x := a / i;
    assert x * i == a;
    if x < 0.0 {
      StrictlyMonotone(x, 0.0, i);
      assert false;
    }
  }

  /** One call: what it grants and leaves is paid for by what was there and the time that passed. */
  lemma CallKeeps(rate: Rate, b: Bucket, now: real, cost: int)
    requires Valid(rate, b) && now >= b.last && cost >= 0
    ensures var (next, ok) := Allow(rate, b, now, cost);
            var granted := if ok then cost else 0;
            && Valid(rate, next) && b.last <= next.last <= now
            && granted <= rate.Capacity()
            && next.tokens + granted <= rate.Capacity()
            && (next.tokens + granted) as real <= b.tokens as real + Worth(rate, next.last - b.last)
  {
    WorthGrows(rate, now - b.last);
    WorthGrows(rate, 0.0);
  }

  /**
   * One call exactly: what is available is what was there plus the whole
   * tokens of the time passed, up to the capacity; a cost that fits is taken
   * from it, any other is refused and costs nothing; and the clock's reference
   * moves exactly when at least one token was refilled.
   */
  lemma CallIsExact(rate: Rate, b: Bucket, now: real, cost: int)
    ensures var (next, granted) := Allow(rate, b, now, cost);
            var whole := if now >= b.last then Worth(rate, now - b.last).Floor else 0;
            var available := if whole == 0 then b.tokens
                             else if b.tokens + whole <= rate.Capacity() then b.tokens + whole else rate.Capacity();
            && (granted <==> cost <= available)
            && next.tokens + (if granted then cost else 0) == available
            && next.last == if whole == 0 then b.last else now
  {
    if now >= b.last {
      WorthGrows(rate, now - b.last);
    } else {
      WorthFalls(rate, now - b.last);
    }
  }

  lemma WorthFalls(rate: Rate, a: real)
    requires a < 0.0
    ensures Worth(rate, a) < 0.0
  {
    var i := rate.Interval();
    var x := a / i;
    assert x * i == a;
    if x >= 0.0 {
      Nonnegative(x, i);
      assert false;
    }
  }

  /** Tokens and grants together never exceed the tokens at the start and the whole tokens the elapsed time is worth. */
  lemma {:induction false} GrantsArePaidFor(rate: Rate, b: Bucket, calls: seq<Call>)
    requires Valid(rate, b) && Orderly(b.last, calls)
    ensures var e := After(rate, b, calls);
            && Valid(rate, e) && b.last <= e.last <= EndTime(b.last, calls)
            && (e.tokens + Granted(rate, b, calls)) as real <= b.tokens as real + Worth(rate, e.last - b.last)
    decreases |calls|
  {
    if calls == [] {
      WorthGrows(rate, 0.0);
    } else {
      var next := Allow(rate, b, calls[0].now, calls[0].cost).0;
      CallKeeps(rate, b, calls[0].now, calls[0].cost);
      OrderlyEarlier(next.last, calls[0].now, calls[1..]);
      GrantsArePaidFor(rate, next, calls[1..]);
      var e := After(rate, b, calls);
      WorthAdds(rate, next.last - b.last, e.last - next.last);
      EndTimeTail(b.last, next.last, calls);
    }
  }

  lemma OrderlyEarlier(earlier: real, from: real, calls: seq<Call>)
    requires earlier <= from && Orderly(from, calls)
    ensures Orderly(earlier, calls)
  {
  }

  lemma {:induction false} EndTimeTail(from: real, last: real, calls: seq<Call>)
    requires calls != [] && Orderly(from, calls) && last <= calls[0].now
    ensures EndTime(last, calls[1..]) <= EndTime(from, calls)
  {
    if |calls| > 1 {
      assert calls[1..][|calls| - 2] == calls[|calls| - 1];
    }
  }

  lemma WorthMonotone(rate: Rate, a: real, b: real)
    requires a <= b
    ensures Worth(rate, a) <= Worth(rate, b)
  {
    WorthGrows(rate, b - a);
    WorthAdds(rate, a, b - a);
  }

  lemma IntegerBelow(n: int, base: int, x: real)
    requires n as real <= base as real + x
    ensures n <= base + x.Floor
  {
    assert (n - base) as real <= x;
  }

  /** Since construction no more than the capacity plus the whole tokens the elapsed time is worth was granted. */
  lemma TotalIsBounded(rate: Rate, start: real, calls: seq<Call>)
    requires Orderly(start, calls)
    ensures Granted(rate, Start(rate, start), calls)
         <= rate.Capacity() + Worth(rate, EndTime(start, calls) - start).Floor
  {
    var b := Start(rate, start);
    GrantsArePaidFor(rate, b, calls);
    var e := After(rate, b, calls);
    WorthMonotone(rate, e.last - start, EndTime(start, calls) - start);
    IntegerBelow(Granted(rate, b, calls), rate.Capacity(), Worth(rate, EndTime(start, calls) - start));
  }

  lemma {:induction false} OrderlyAppend(from: real, before: seq<Call>, window: seq<Call>)
    requires Orderly(from, before + window)
    ensures Orderly(from, before) && Orderly(EndTime(from, before), window)
    decreases |before|
  {
    if before == [] {
      assert before + window == window;
    } else {
      assert (before + window)[1..] == before[1..] + window;
      OrderlyAppend(before[0].now, before[1..], window);
      assert EndTime(before[0].now, before[1..]) == EndTime(from, before);
    }
  }

  /** Less than one token's worth of time is ever unaccounted for after a call. */
  lemma CallSettlesTime(rate: Rate, b: Bucket, now: real, cost: int)
    requires Valid(rate, b) && now >= b.last
    ensures Worth(rate, now - Allow(rate, b, now, cost).0.last) < 1.0
  {
    WorthGrows(rate, now - b.last);
    assert Worth(rate, 0.0) == 0.0 by {
      WorthAdds(rate, 0.0, 0.0);
    }
  }

  /**
   * Over any window of consecutive calls, wherever it starts, less than the
   * capacity plus the worth of the window's length plus one is granted.
   */
  lemma WindowIsBounded(rate: Rate, start: real, before: seq<Call>, window: seq<Call>)
    requires Orderly(start, before + window) && window != []
    ensures var b := After(rate, Start(rate, start), before);
            var length := window[|window| - 1].now - window[0].now;
            Granted(rate, b, window) as real < rate.Capacity() as real + Worth(rate, length) + 1.0
  {
    hide *;
    var b := After(rate, Start(rate, start), before);
    StartIsValid(rate, start);
    OrderlyAppend(start, before, window);
    GrantsArePaidFor(rate, Start(rate, start), before);
    assert b.last <= EndTime(start, before);
    OrderlyHead(EndTime(start, before), window);
    WindowFrom(rate, b, window);
  }

  lemma StartIsValid(rate: Rate, start: real)
    ensures Valid(rate, Start(rate, start)) && Start(rate, start).last == start
  {
  }

  lemma OrderlyHead(from: real, calls: seq<Call>)
    requires Orderly(from, calls) && calls != []
    ensures from <= calls[0].now && calls[0].cost >= 0 && Orderly(calls[0].now, calls[1..])
  {
  }

  lemma GrantedUnfolds(rate: Rate, b: Bucket, calls: seq<Call>)
    requires calls != []
    ensures var (next, ok) := Allow(rate, b, calls[0].now, calls[0].cost);
            Granted(rate, b, calls) == (if ok then calls[0].cost else 0) + Granted(rate, next, calls[1..])
  {
    hide Allow;
  }

  /** The bound from any valid bucket on. */
  lemma WindowFrom(rate: Rate, b: Bucket, window: seq<Call>)
    requires Valid(rate, b) && window != []
    requires b.last <= window[0].now && window[0].cost >= 0 && Orderly(window[0].now, window[1..])
    ensures var length := window[|window| - 1].now - window[0].now;
            Granted(rate, b, window) as real < rate.Capacity() as real + Worth(rate, length) + 1.0
  {
    hide Worth, Allow, Granted, After, Orderly;
    var first, t := window[0], window[|window| - 1].now;
    CallKeeps(rate, b, first.now, first.cost);
    CallSettlesTime(rate, b, first.now, first.cost);
    var (next, ok) := Allow(rate, b, first.now, first.cost);
    GrantedUnfolds(rate, b, window);
    OrderlyEarlier(next.last, first.now, window[1..]);
    GrantsArePaidFor(rate, next, window[1..]);
    var e := After(rate, next, window[1..]);
    assert e.last <= t;
    var unsettled, length := first.now - next.last, t - first.now;
    WorthMonotone(rate, e.last - next.last, length + unsettled);
    WorthAdds(rate, length, unsettled);
  }

  /** Nobody starves: a cost within the capacity is granted once its worth of time has passed since the last refill. */
  lemma WaitingIsEnough(rate: Rate, b: Bucket, now: real, cost: int)
    requires Valid(rate, b) && 0 <= cost <= rate.Capacity()
    requires Worth(rate, now - b.last) >= cost as real
    ensures Allow(rate, b, now, cost).1
  {
  }
}
