/** The token bucket that throttles model calls (workers/rate_limit.py), over the reals. */
module TokenBucket {
  import opened Common

  datatype Bucket = Bucket(capacity: real, rate: real, tokens: real, updatedAt: Time)

  predicate Valid(b: Bucket) {
    b.rate > 0.0 && 0.0 <= b.tokens <= b.capacity && 0.0 < b.capacity
  }

  function Min(a: real, b: real): real { if a <= b then a else b }

  function Max(a: real, b: real): real { if a >= b then a else b }

  /** `_refill`; a clock that went backwards adds nothing. */
  function Refilled(b: Bucket, now: Time): Bucket {
    var elapsed := Max(0.0, now - b.updatedAt);
    if elapsed == 0.0 then b
    else b.(tokens := Min(b.capacity, b.tokens + elapsed * b.rate), updatedAt := now)
  }

  predicate Affordable(b: Bucket, amount: real, now: Time) {
    0.0 < amount <= b.capacity && Refilled(b, now).tokens >= amount
  }

  /** One turn under the lock.  A request for nothing, or for more than the bucket can ever hold,
      does not touch the bucket. */
  function Turn(b: Bucket, amount: real, now: Time): Bucket {
    if amount <= 0.0 || amount > b.capacity then b
    else
      var r := Refilled(b, now);
      if r.tokens >= amount then r.(tokens := r.tokens - amount) else r
  }

  lemma RefilledIsValid(b: Bucket, now: Time)
    requires Valid(b)
    ensures Valid(Refilled(b, now)) && Refilled(b, now).tokens >= b.tokens
    ensures Refilled(b, now).updatedAt == Max(b.updatedAt, now)
  {
    if now > b.updatedAt {
      assert (now - b.updatedAt) * b.rate > 0.0;
    }
  }

  /** Refilling in two goes adds what one refill adds. */
  lemma SplitRefill(b: Bucket, t: Time, u: Time)
    requires Valid(b) && t <= u
    ensures Refilled(Refilled(b, t), u) == Refilled(b, u)
  {
    if b.updatedAt < t < u {
      assert (t - b.updatedAt) * b.rate + (u - t) * b.rate == (u - b.updatedAt) * b.rate;
      assert (u - t) * b.rate > 0.0;
    }
  }

  lemma LaterHasMore(b: Bucket, t: Time, u: Time)
    requires Valid(b) && t <= u
    ensures Refilled(b, u).tokens >= Refilled(b, t).tokens
  {
    SplitRefill(b, t, u);
    RefilledIsValid(b, t);
    RefilledIsValid(Refilled(b, t), u);
  }

  /** Whoever waits out its deficit finds what it asked for. */
  lemma WaitSuffices(b: Bucket, amount: real, now: Time)
    requires Valid(b) && b.tokens < amount <= b.capacity && b.updatedAt <= now
    ensures (amount - b.tokens) / b.rate > 0.0
    ensures Refilled(b, now + (amount - b.tokens) / b.rate).tokens >= amount
  {
    var wait := (amount - b.tokens) / b.rate;
    assert wait * b.rate == amount - b.tokens;
    assert wait > 0.0;
    assert (now - b.updatedAt) * b.rate >= 0.0;
    assert (now + wait - b.updatedAt) * b.rate == (now - b.updatedAt) * b.rate + wait * b.rate;
  }

  /** ... and no sooner: a bucket that is short of an amount holds it from exactly the moment on at which
      the rate has made up the deficit. */
  lemma RefillsAtTheRate(b: Bucket, amount: real, now: Time)
    requires Valid(b) && b.tokens < amount <= b.capacity
    ensures Refilled(b, now).tokens >= amount <==> now >= b.updatedAt + (amount - b.tokens) / b.rate
  {
    var wait := (amount - b.tokens) / b.rate;
    assert wait * b.rate == amount - b.tokens;
    WaitSuffices(b, amount, b.updatedAt);
    if now >= b.updatedAt + wait {
      LaterHasMore(b, b.updatedAt + wait, now);
    } else if now > b.updatedAt {
      ShortUntil(b, amount, wait, now);
    }
  }

  lemma ShortUntil(b: Bucket, amount: real, wait: real, now: Time)
    requires Valid(b) && wait * b.rate == amount - b.tokens && b.updatedAt < now < b.updatedAt + wait
    ensures Refilled(b, now).tokens < amount
  {
    var elapsed := now - b.updatedAt;
    SmallerFactor(elapsed, wait, b.rate);
    assert Refilled(b, now).tokens <= b.tokens + elapsed * b.rate;
  }

  lemma SmallerFactor(a: real, b: real, rate: real)
    requires a < b && rate > 0.0
    ensures a * rate < b * rate
  {
    NonZeroProduct(b - a, rate);
    assert b * rate - a * rate == (b - a) * rate;
  }

  lemma NonZeroProduct(a: real, b: real)
    requires a > 0.0 && b > 0.0
    ensures a * b > 0.0
  {
  }

  lemma RefillsCompose(b: Bucket, c: Bucket, now: Time)
    requires Valid(b) && c == Refilled(b, c.updatedAt)
    ensures Refilled(c, now) == Refilled(b, Refilled(c, now).updatedAt)
  {
    if c.updatedAt <= now {
      SplitRefill(b, c.updatedAt, now);
    }
  }

  // ------------------------------------------------------------------- traces

  /** The turns of all callers, in the order in which they got the lock. */
  datatype Request = Request(amount: real, now: Time)

  function Run(b: Bucket, trace: seq<Request>): Bucket {
    if trace == [] then b else Turn(Run(b, Front(trace)), Last(trace).amount, Last(trace).now)
  }

  function Granted(b: Bucket, trace: seq<Request>): real {
    if trace == [] then 0.0
    else Granted(b, Front(trace))
         + if Affordable(Run(b, Front(trace)), Last(trace).amount, Last(trace).now) then Last(trace).amount else 0.0
  }

  predicate ClockAdvances(trace: seq<Request>) {
    forall i, j :: 0 <= i <= j < |trace| ==> trace[i].now <= trace[j].now
  }

  /** The bucket never overdraws and never overflows. */
  lemma {:induction false} TokensStayInRange(b: Bucket, trace: seq<Request>)
    requires Valid(b)
    ensures Valid(Run(b, trace)) && Run(b, trace).capacity == b.capacity && Run(b, trace).rate == b.rate
  {
    if trace != [] {
      TokensStayInRange(b, Front(trace));
    }
  }

  /** Tokens plus grants grow by at most rate times the time that passed. */
  lemma TurnAccount(b: Bucket, amount: real, now: Time)
    requires Valid(b)
    ensures var grant := if Affordable(b, amount, now) then amount else 0.0;
            var next := Turn(b, amount, now);
            && next.tokens + grant <= b.tokens + Gain(b.rate, b.updatedAt, next.updatedAt)
            && b.updatedAt <= next.updatedAt <= Max(b.updatedAt, now)
  {
    RefilledIsValid(b, now);
    var r := Refilled(b, now);
    assert r.tokens <= b.tokens + b.rate * (r.updatedAt - b.updatedAt);
  }

  lemma {:induction false} UpdatedWithin(b: Bucket, trace: seq<Request>)
    requires Valid(b) && ClockAdvances(trace)
    ensures b.updatedAt <= Run(b, trace).updatedAt
    ensures trace != [] ==> Run(b, trace).updatedAt <= Max(b.updatedAt, Last(trace).now)
  {
    if trace != [] {
      UpdatedWithin(b, Front(trace));
      TokensStayInRange(b, Front(trace));
      TurnAccount(Run(b, Front(trace)), Last(trace).amount, Last(trace).now);
      if Front(trace) != [] {
        assert Last(Front(trace)).now <= Last(trace).now;
      }
    }
  }

  function Gain(rate: real, since: Time, until: Time): real {
    rate * (until - since)
  }

  lemma GainsAdd(rate: real, u: Time, v: Time, w: Time)
    ensures Gain(rate, u, v) + Gain(rate, v, w) == Gain(rate, u, w)
  {
  }

  lemma {:induction false} Account(b: Bucket, trace: seq<Request>)
    requires Valid(b)
    ensures Run(b, trace).tokens + Granted(b, trace) <= b.tokens + Gain(b.rate, b.updatedAt, Run(b, trace).updatedAt)
  {
    if trace != [] {
      Account(b, Front(trace));
      TokensStayInRange(b, Front(trace));
      var prior, next := Run(b, Front(trace)), Run(b, trace);
      TurnAccount(prior, Last(trace).amount, Last(trace).now);
      GainsAdd(b.rate, b.updatedAt, prior.updatedAt, next.updatedAt);
    }
  }

  /** Refilling at the opening instant of a window changes nothing in it. */
  lemma {:induction false} EarlyRefill(b: Bucket, trace: seq<Request>)
    requires Valid(b) && trace != [] && ClockAdvances(trace)
    ensures Granted(Refilled(b, trace[0].now), trace) == Granted(b, trace)
    ensures Refilled(Run(Refilled(b, trace[0].now), trace), Last(trace).now) == Refilled(Run(b, trace), Last(trace).now)
  {
    var t := trace[0].now;
    var amount, now := Last(trace).amount, Last(trace).now;
    RefilledIsValid(b, t);
    if |trace| == 1 {
      SplitRefill(b, t, t);
      assert Front(trace) == [];
    } else {
      EarlyRefill(b, Front(trace));
      var x, y := Run(Refilled(b, t), Front(trace)), Run(b, Front(trace));
      TokensStayInRange(b, Front(trace));
      TokensStayInRange(Refilled(b, t), Front(trace));
      var s := Last(Front(trace)).now;
      assert s <= now;
      SplitRefill(x, s, now);
      SplitRefill(y, s, now);
    }
  }

  /** Window bound: from any state a bucket can be in, the turns of a window grant at most the
      capacity plus what the window's length refills. */
  lemma WindowBound(b: Bucket, window: seq<Request>)
    requires Valid(b) && window != [] && ClockAdvances(window)
    ensures Granted(b, window) <= b.capacity + Gain(b.rate, window[0].now, Last(window).now)
  {
    var r := Refilled(b, window[0].now);
    RefilledIsValid(b, window[0].now);
    EarlyRefill(b, window);
    Account(r, window);
    UpdatedWithin(r, window);
    TokensStayInRange(r, window);
    GainGrows(b.rate, r.updatedAt, Run(r, window).updatedAt, window[0].now, Last(window).now);
  }

  lemma GainGrows(rate: real, t: Time, u: Time, v: Time, w: Time)
    requires rate > 0.0 && u - t <= w - v
    ensures Gain(rate, t, u) <= Gain(rate, v, w)
  {
    NonNegativeProduct(rate, (w - v) - (u - t));
    Distributes(rate, w - v, u - t);
  }

  lemma NonNegativeProduct(a: real, b: real)
    requires a > 0.0 && b >= 0.0
    ensures a * b >= 0.0
  {
  }

  lemma Distributes(a: real, b: real, c: real)
    ensures a * (b - c) == a * b - a * c
  {
  }

  /** ... and a window splits off a trace without changing what the rest grants. */
  lemma {:induction false} GrantsAdd(b: Bucket, before: seq<Request>, window: seq<Request>)
    ensures Run(b, before + window) == Run(Run(b, before), window)
    ensures Granted(b, before + window) == Granted(b, before) + Granted(Run(b, before), window)
  {
    if window == [] {
      assert before + window == before;
    } else {
      assert Front(before + window) == before + Front(window);
      GrantsAdd(b, before, Front(window));
    }
  }

  // --------------------------------------------------------- the bucket object

  type Lag = r: real | r >= 0.0

  /** A monotonic clock; `lag(k)` is the time that has gone by when it is read for the k-th time. */
  class Clock {
    var now: Time
    var readings: nat
    const lag: nat -> Lag

    constructor (start: Time, lag: nat -> Lag)
      ensures now == start && readings == 0 && this.lag == lag
    {
      this.now, this.readings, this.lag := start, 0, lag;
    }

    method Read() returns (t: Time)
      modifies this
      ensures t == now == old(now) + lag(old(readings)) && readings == old(readings) + 1
    {
      now, readings := now + lag(readings), readings + 1;
      return now;
    }

    method Sleep(d: real)
      modifies this
      ensures now == old(now) + d && readings == old(readings)
    {
      now := now + d;
    }
  }

  datatype Refusal = ExceedsCapacity | WaitTimeout

  /** The deficit, if any, refills within `slack`. */
  predicate InTime(b: Bucket, amount: real, slack: real)
    requires b.rate > 0.0
  {
    b.tokens >= amount || (amount - b.tokens) / b.rate <= slack
  }

  class Limiter {
    const capacity: real
    const rate: real
    var tokens: real
    var updatedAt: Time

    function Value(): Bucket reads this {
      Bucket(capacity, rate, tokens, updatedAt)
    }

    constructor (capacity: real, rate: real, now: Time)
      requires capacity > 0.0 && rate > 0.0
      ensures Value() == Bucket(capacity, rate, capacity, now) && Valid(Value())
    {
      this.capacity, this.rate, this.tokens, this.updatedAt := capacity, rate, capacity, now;
    }

    method Refill(now: Time)
      modifies this
      ensures Value() == Refilled(old(Value()), now)
    {
      var elapsed := Max(0.0, now - updatedAt);
      if elapsed != 0.0 {
        tokens := Min(capacity, tokens + elapsed * rate);
        updatedAt := now;
      }
    }

    /** What one turn does under the lock. */
    method TryTake(amount: real, now: Time) returns (taken: bool)
      requires 0.0 < amount <= capacity
      modifies this
      ensures Value() == Turn(old(Value()), amount, now) && (taken <==> Affordable(old(Value()), amount, now))
    {
      Refill(now);
      if tokens >= amount {
        tokens := tokens - amount;
        return true;
      }
      return false;
    }

    /** The loop: take the amount, or sleep out the deficit and try again, unless that would pass the
        deadline. */
    method TakeBy(amount: real, deadline: Time, clock: Clock) returns (r: Option<Refusal>)
      requires Valid(Value()) && updatedAt <= clock.now && 0.0 < amount <= capacity
      modifies this, clock
      ensures Valid(Value()) && updatedAt <= clock.now
      ensures var k := old(clock.readings);
              var now := old(clock.now) + clock.lag(k);
              r.None? <==> InTime(Refilled(old(Value()), now), amount, deadline - now - clock.lag(k + 1))
      ensures r.None? ==>
                (var full := Refilled(old(Value()), updatedAt);
                 full.tokens >= amount && Value() == full.(tokens := full.tokens - amount))
      ensures r.Some? ==> r == Some(WaitTimeout) && Value() == Refilled(old(Value()), updatedAt)
    {
      ghost var slept := false;
      while true
        invariant Valid(Value()) && updatedAt <= clock.now
        invariant !slept ==> Value() == old(Value())
        invariant !slept ==> clock.readings == old(clock.readings) && clock.now == old(clock.now)
        invariant slept ==> Refilled(Value(), clock.now).tokens >= amount
        invariant slept ==> Value() == Refilled(old(Value()), updatedAt)
        invariant slept ==> (var k := old(clock.readings);
                             var now := old(clock.now) + clock.lag(k);
                             InTime(Refilled(old(Value()), now), amount, deadline - now - clock.lag(k + 1)))
        decreases !slept
      {
        ghost var before := Value();
        var now := clock.Read();
        RefilledIsValid(before, now);
        RefillsCompose(old(Value()), before, now);
        if slept {
          LaterHasMore(before, now - clock.lag(clock.readings - 1), now);
        }
        var taken := TryTake(amount, now);
        if taken {
          return None;
        }
        var waitFor := (amount - tokens) / rate;
        var t := clock.Read();
        var remaining := deadline - t;
        if waitFor > remaining {
          return Some(WaitTimeout);
        }
        WaitSuffices(Value(), amount, clock.now);
        clock.Sleep(waitFor);
        slept := true;
      }
    }

    /** An acquire nobody interferes with succeeds exactly when its deficit can refill within
        what is left of the timeout, and then takes exactly its amount. */
    method Acquire(amount: real, timeout: real, clock: Clock) returns (r: Option<Refusal>)
      requires Valid(Value()) && updatedAt <= clock.now
      modifies this, clock
      ensures Valid(Value()) && updatedAt <= clock.now
      ensures amount <= 0.0 ==> r.None? && Value() == old(Value())
      ensures amount > capacity ==> r == Some(ExceedsCapacity) && Value() == old(Value())
      ensures 0.0 < amount <= capacity ==>
                (var k := old(clock.readings);
                 r.None? <==> InTime(Refilled(old(Value()), old(clock.now) + clock.lag(k) + clock.lag(k + 1)), amount,
                                     Max(0.0, timeout) - clock.lag(k + 1) - clock.lag(k + 2)))
      ensures r.None? && amount > 0.0 ==>
                (var full := Refilled(old(Value()), updatedAt);
                 full.tokens >= amount && Value() == full.(tokens := full.tokens - amount))
      ensures r.Some? ==> Value() == Refilled(old(Value()), updatedAt)
    {
      if amount <= 0.0 {
        return None;
      }
      if amount > capacity {
        return Some(ExceedsCapacity);
      }
      var start := clock.Read();
      r := TakeBy(amount, start + Max(0.0, timeout), clock);
    }
  }
}
