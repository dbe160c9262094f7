/** The token bucket that paces the asynchronous dashboard migrator
    (`RateLimiter` in custom-dashboards/rate_limiter.py). The bucket holds at
    most `rate` tokens, refills at `rate` tokens per second of monotonic
    time, and every request takes one token, sleeping until one is there.

    The clock is not read: each reading of `time.monotonic()` is the previous
    reading plus the time the code asked to sleep (none for the first reading
    of an `acquire`) plus a lateness, a non-negative real that the caller
    supplies. A finite sequence of latenesses covers only finitely many
    readings; a loop that would read the clock once more ends with the
    outcome `OutOfReadings`. Token counts are exact reals, not floats. */
module RateLimit {

  function Min(a: real, b: real): real {
    if a <= b then a else b
  }

  function Max(a: real, b: real): real {
    if a >= b then a else b
  }

  /** The limiter's state: the configured rate, the tokens in the bucket and
      the last clock reading. */
  datatype Bucket = Bucket(rate: int, tokens: real, lastUpdate: real)

  /** The state every limiter keeps: never more tokens than the rate, and
      never a negative count unless the rate itself is negative. */
  predicate Valid(b: Bucket) {
    b.tokens <= b.rate as real && (b.rate >= 0 ==> b.tokens >= 0.0)
  }

  /** Every lateness is non-negative: each clock reading comes no earlier
      than the previous reading plus the sleep asked for, so no sleep wakes
      early. */
  predicate NonNegative(late: seq<real>) {
    forall i :: 0 <= i < |late| ==> late[i] >= 0.0
  }

  /** `_refill_tokens` at clock reading `now`: the tokens for the elapsed
      time are added, capped at the rate. */
  function Refill(b: Bucket, now: real): (r: Bucket)
    ensures r.rate == b.rate && r.lastUpdate == now
    ensures r.tokens <= b.rate as real
    ensures r.tokens == b.rate as real || r.tokens == b.tokens + (now - b.lastUpdate) * b.rate as real
  {
    Bucket(b.rate, Min(b.rate as real, b.tokens + (now - b.lastUpdate) * b.rate as real), now)
  }

  /** A refill after a non-negative time keeps the bucket valid and, for a
      non-negative rate, loses no token below the cap. */
  lemma RefillValid(b: Bucket, now: real)
    requires Valid(b) && now >= b.lastUpdate
    ensures Valid(Refill(b, now))
    ensures b.rate >= 0 ==> Refill(b, now).tokens >= b.tokens
  {
    if b.rate >= 0 {
      assert (now - b.lastUpdate) * b.rate as real >= 0.0;
    }
  }

  /** Sleeping `(1 - tokens) / rate` seconds, or longer, brings a positive
      rate's bucket back to at least one token. */
  lemma WaitIsEnough(b: Bucket, late: real)
    requires Valid(b) && b.rate >= 1 && b.tokens < 1.0 && late >= 0.0
    ensures Refill(b, b.lastUpdate + Max((1.0 - b.tokens) / b.rate as real, 0.0) + late).tokens >= 1.0
  {
    var r := b.rate as real;
    var wait := (1.0 - b.tokens) / r;
    var elapsed := Max(wait, 0.0) + late;
    assert wait * r == 1.0 - b.tokens;
    assert (elapsed - wait) * r >= 0.0;
    assert b.tokens + elapsed * r >= 1.0;
  }

  /** How an `acquire` ends: with a token after `readings` clock readings;
      with ZeroDivisionError computing the wait for a rate of 0; or with the
      supplied readings used up while still waiting. */
  datatype Acquisition = Granted(readings: nat) | DivisionByZero | OutOfReadings

  /** The `while self.tokens < 1` loop of `acquire` from bucket `b`, having
      already taken `taken` readings: where it stops and the bucket then.
      `Granted` here means the loop exited with a token in the bucket. */
  function Wait(b: Bucket, late: seq<real>, taken: nat): (r: (Acquisition, Bucket))
    ensures r.0.Granted? ==> taken <= r.0.readings <= taken + |late| && r.1.tokens >= 1.0
    ensures r.1.rate == b.rate
    decreases |late|
  {
    if b.tokens >= 1.0 then (Granted(taken), b)
    else if b.rate == 0 then (DivisionByZero, b)
    else if late == [] then (OutOfReadings, b)
    else
      var wait := (1.0 - b.tokens) / b.rate as real;
      Wait(Refill(b, b.lastUpdate + Max(wait, 0.0) + late[0]), late[1..], taken + 1)
  }

  /** The wait loop followed by `self.tokens -= 1`: a grant leaves exactly
      one token fewer than the wait ended with, so never a negative count;
      any other outcome takes nothing. */
  function WaitLoop(b: Bucket, late: seq<real>, taken: nat): (r: (Acquisition, Bucket))
    ensures r.0 == Wait(b, late, taken).0 && r.1.rate == b.rate
    ensures r.0.Granted? ==> taken <= r.0.readings <= taken + |late|
    ensures r.0.Granted? ==>
      r.1.tokens + 1.0 == Wait(b, late, taken).1.tokens && r.1.tokens >= 0.0 &&
      r.1.lastUpdate == Wait(b, late, taken).1.lastUpdate
    ensures !r.0.Granted? ==> r.1 == Wait(b, late, taken).1
  {
    var w := Wait(b, late, taken);
    if w.0.Granted? then (w.0, w.1.(tokens := w.1.tokens - 1.0)) else w
  }

  /** `acquire`: one refill, then the wait loop. */
  function AcquireResult(b: Bucket, late: seq<real>): (r: (Acquisition, Bucket))
    ensures r.0.Granted? ==> 1 <= r.0.readings <= |late|
    ensures r.0.Granted? ==> r.1.tokens >= 0.0 && r.1.rate == b.rate
  {
    if late == [] then (OutOfReadings, b)
    else WaitLoop(Refill(b, b.lastUpdate + late[0]), late[1..], 1)
  }

  /** `acquire_multiple`: `count` acquires in a row, each starting where the
      previous one stopped reading the clock; the first that does not get a
      token ends the series. */
  function AcquireMany(b: Bucket, count: int, late: seq<real>): (r: (Acquisition, Bucket))
    ensures r.0.Granted? ==> r.0.readings <= |late|
    decreases if count > 0 then count else 0
  {
    if count <= 0 then (Granted(0), b)
    else
      var first := AcquireResult(b, late);
      if !first.0.Granted? then first
      else
        var k := first.0.readings;
        After(k, AcquireMany(first.1, count - 1, late[k..]))
  }

  /** A series that follows `used` readings already taken. */
  function After(used: nat, rest: (Acquisition, Bucket)): (Acquisition, Bucket) {
    if rest.0.Granted? then (Granted(used + rest.0.readings), rest.1) else rest
  }

  /** A series ends with its first acquire unless that one is granted, and
      then goes on from where it left the bucket and the clock. */
  lemma AcquireManyStep(b: Bucket, count: int, late: seq<real>)
    requires count > 0
    ensures var first := AcquireResult(b, late);
      AcquireMany(b, count, late) ==
        if first.0.Granted? then After(first.0.readings, AcquireMany(first.1, count - 1, late[first.0.readings..]))
        else first
  {
  }


  /** Readings taken in two steps add up. */
  lemma AfterAfter(a: nat, b: nat, rest: (Acquisition, Bucket))
    ensures After(a, After(b, rest)) == After(a + b, rest)
  {
  }

  /** The wait loop keeps the limiter's invariant. */
  lemma {:induction false} WaitLoopValid(b: Bucket, late: seq<real>, taken: nat)
    requires Valid(b) && NonNegative(late)
    ensures Valid(WaitLoop(b, late, taken).1)
    ensures WaitLoop(b, late, taken).1.rate == b.rate
    decreases |late|
  {
    if b.tokens < 1.0 && b.rate != 0 && late != [] {
      var wait := (1.0 - b.tokens) / b.rate as real;
      var now := b.lastUpdate + Max(wait, 0.0) + late[0];
      RefillValid(b, now);
      assert NonNegative(late[1..]) by {
        forall i | 0 <= i < |late[1..]| ensures late[1..][i] >= 0.0 {
          assert late[1..][i] == late[i + 1];
        }
      }
      WaitLoopValid(Refill(b, now), late[1..], taken + 1);
    }
  }

  /** Every acquire keeps the limiter's invariant. */
  lemma AcquireValid(b: Bucket, late: seq<real>)
    requires Valid(b) && NonNegative(late)
    ensures Valid(AcquireResult(b, late).1)
    ensures AcquireResult(b, late).1.rate == b.rate
  {
    if late != [] {
      RefillValid(b, b.lastUpdate + late[0]);
      assert NonNegative(late[1..]) by {
        forall i | 0 <= i < |late[1..]| ensures late[1..][i] >= 0.0 {
          assert late[1..][i] == late[i + 1];
        }
      }
      WaitLoopValid(Refill(b, b.lastUpdate + late[0]), late[1..], 1);
    }
  }

  /** The tokens a bucket holds, less everything the clock would have paid
      into it since time zero. A refill never raises it and a grant lowers
      it by one, so the drop over a series of acquires bounds the tokens
      they took. */
  function Credit(b: Bucket): real {
    b.tokens - b.lastUpdate * b.rate as real
  }

  lemma Distributes(a: real, c: real, r: real)
    ensures (a - c) * r == a * r - c * r
  {
  }

  /** Taking a token lowers the credit by exactly one. */
  lemma TakeCredit(w: Bucket)
    ensures Credit(w.(tokens := w.tokens - 1.0)) == Credit(w) - 1.0
  {
  }

  /** A refill pays in at most the elapsed time times the rate: the cap can
      only lose tokens. */
  lemma RefillCredit(b: Bucket, now: real)
    ensures Credit(Refill(b, now)) <= Credit(b)
  {
    Distributes(now, b.lastUpdate, b.rate as real);
  }

  /** Waiting only refills, so it never raises the credit. */
  lemma {:induction false} WaitCredit(b: Bucket, late: seq<real>, taken: nat)
    ensures Credit(Wait(b, late, taken).1) <= Credit(b)
    decreases |late|
  {
    if b.tokens < 1.0 && b.rate != 0 && late != [] {
      var wait := (1.0 - b.tokens) / b.rate as real;
      var now := b.lastUpdate + Max(wait, 0.0) + late[0];
      RefillCredit(b, now);
      WaitCredit(Refill(b, now), late[1..], taken + 1);
    }
  }

  /** A granted acquire takes exactly one token from the bucket it waited
      for, and so lowers the credit by at least one. */
  lemma AcquireTakesOne(b: Bucket, late: seq<real>)
    requires AcquireResult(b, late).0.Granted?
    ensures Credit(AcquireResult(b, late).1) == Credit(Wait(Refill(b, b.lastUpdate + late[0]), late[1..], 1).1) - 1.0
    ensures Credit(AcquireResult(b, late).1) <= Credit(b) - 1.0
  {
    var b1 := Refill(b, b.lastUpdate + late[0]);
    var w := Wait(b1, late[1..], 1).1;
    var e := AcquireResult(b, late).1;
    assert e == w.(tokens := w.tokens - 1.0);
    TakeCredit(w);
    RefillCredit(b, b.lastUpdate + late[0]);
    WaitCredit(b1, late[1..], 1);
  }

  /** `count` granted acquires lower the credit by at least `count`. */
  lemma {:induction false} AcquireManyCredit(b: Bucket, count: int, late: seq<real>)
    requires AcquireMany(b, count, late).0.Granted?
    ensures Credit(AcquireMany(b, count, late).1) <= Credit(b) - (if count > 0 then count else 0) as real
    ensures AcquireMany(b, count, late).1.rate == b.rate
    decreases if count > 0 then count else 0
  {
    if count > 0 {
      var first := AcquireResult(b, late);
      AcquireTakesOne(b, late);
      var k := first.0.readings;
      AcquireManyCredit(first.1, count - 1, late[k..]);
    }
  }

  /** `count` tokens are at most what bucket `b` held, less what `e` holds,
      plus what the clock paid in at `b`'s rate between their readings. */
  predicate PaidFor(b: Bucket, e: Bucket, count: int) {
    count as real <= b.tokens - e.tokens + (e.lastUpdate - b.lastUpdate) * b.rate as real
  }

  /** A drop in credit of at least `count` between two buckets of the same
      rate is paid for by the tokens and the time between them. */
  lemma CreditDrop(b: Bucket, e: Bucket, count: int)
    requires e.rate == b.rate && Credit(e) <= Credit(b) - (if count > 0 then count else 0) as real
    ensures PaidFor(b, e, count)
  {
    Distributes(e.lastUpdate, b.lastUpdate, b.rate as real);
  }

  /** The tokens a series of `count` granted acquires takes are at most
      the tokens the bucket held, plus the rate times the time between the
      readings before and after the series, less the tokens left over. */
  lemma GrantsBoundedByTime(b: Bucket, count: int, late: seq<real>)
    requires AcquireMany(b, count, late).0.Granted?
    ensures PaidFor(b, AcquireMany(b, count, late).1, count)
  {
    AcquireManyCredit(b, count, late);
    CreditDrop(b, AcquireMany(b, count, late).1, count);
  }

  /** Every series of acquires keeps the limiter's invariant. */
  lemma {:induction false} AcquireManyValid(b: Bucket, count: int, late: seq<real>)
    requires Valid(b) && NonNegative(late)
    ensures Valid(AcquireMany(b, count, late).1)
    ensures AcquireMany(b, count, late).1.rate == b.rate
    decreases if count > 0 then count else 0
  {
    if count > 0 {
      AcquireValid(b, late);
      var first := AcquireResult(b, late);
      if first.0.Granted? {
        var k := first.0.readings;
        assert NonNegative(late[k..]) by {
          forall i | 0 <= i < |late[k..]| ensures late[k..][i] >= 0.0 {
            assert late[k..][i] == late[i + k];
          }
        }
        AcquireManyValid(first.1, count - 1, late[k..]);
      }
    }
  }

  /** `count` tokens are at most the capacity `rate` plus `rate` times the
      time between the readings of `b` and `e`. */
  predicate WithinWindow(b: Bucket, e: Bucket, count: int) {
    count as real <= b.rate as real + (e.lastUpdate - b.lastUpdate) * b.rate as real
  }

  /** Tokens paid for between two well-formed buckets of the same
      non-negative rate fit the window between them. */
  lemma PaidForWithinWindow(b: Bucket, e: Bucket, count: int)
    requires Valid(b) && Valid(e) && b.rate >= 0 && e.rate == b.rate && PaidFor(b, e, count)
    ensures WithinWindow(b, e, count)
  {
  }

  /** Over a window of `T` seconds a limiter grants at most `rate * T`
      tokens plus its capacity `rate`. */
  lemma GrantsWithinWindow(b: Bucket, count: int, late: seq<real>)
    requires Valid(b) && b.rate >= 0 && NonNegative(late)
    requires AcquireMany(b, count, late).0.Granted?
    ensures WithinWindow(b, AcquireMany(b, count, late).1, count)
  {
    GrantsBoundedByTime(b, count, late);
    AcquireManyValid(b, count, late);
    PaidForWithinWindow(b, AcquireMany(b, count, late).1, count);
  }

  /** With a positive rate an acquire sleeps at most once: two clock
      readings always suffice, and the token taken leaves the bucket valid. */
  lemma OneWaitSuffices(b: Bucket, late: seq<real>)
    requires Valid(b) && b.rate >= 1 && NonNegative(late) && |late| >= 2
    ensures AcquireResult(b, late).0.Granted?
    ensures AcquireResult(b, late).0.readings <= 2
  {
    var b1 := Refill(b, b.lastUpdate + late[0]);
    RefillValid(b, b.lastUpdate + late[0]);
    if b1.tokens < 1.0 {
      WaitIsEnough(b1, late[1]);
      var b2 := Refill(b1, b1.lastUpdate + Max((1.0 - b1.tokens) / b1.rate as real, 0.0) + late[1]);
      assert WaitLoop(b1, late[1..], 1) == WaitLoop(b2, late[2..], 2);
    }
  }

  /** With a rate of 0 the bucket stays empty, so the first acquire divides
      by zero. */
  lemma ZeroRateRaises(b: Bucket, late: seq<real>)
    requires Valid(b) && b.rate == 0 && late != []
    ensures AcquireResult(b, late).0 == DivisionByZero
  {
  }

  /** With a negative rate the bucket never reaches one token: an acquire
      waits for as long as the clock is read. */
  lemma {:induction false} NegativeRateWaitsForever(b: Bucket, late: seq<real>, taken: nat)
    requires Valid(b) && b.rate < 0
    ensures WaitLoop(b, late, taken).0 == OutOfReadings
    decreases |late|
  {
    if late != [] {
      var wait := (1.0 - b.tokens) / b.rate as real;
      NegativeRateWaitsForever(Refill(b, b.lastUpdate + Max(wait, 0.0) + late[0]), late[1..], taken + 1);
    }
  }

  /** Whatever the clock does, a negative rate grants no token and raises
      nothing. */
  lemma NegativeRateNeverGrants(b: Bucket, late: seq<real>)
    requires Valid(b) && b.rate < 0
    ensures AcquireResult(b, late).0 == OutOfReadings
  {
    if late != [] {
      NegativeRateWaitsForever(Refill(b, b.lastUpdate + late[0]), late[1..], 1);
    }
  }

  /** A bucket holding at least `count` tokens lets `count` acquires through
      without sleeping: each reads the clock once. A new limiter holds `rate`
      tokens, so its first `rate` requests pass at once. */
  lemma {:induction false} BurstWithoutWaiting(b: Bucket, count: nat, late: seq<real>)
    requires Valid(b) && b.rate >= 1 && b.tokens >= count as real && NonNegative(late) && |late| >= count
    ensures AcquireMany(b, count, late).0 == Granted(count)
    decreases count
  {
    if count > 0 {
      var b1 := Refill(b, b.lastUpdate + late[0]);
      RefillValid(b, b.lastUpdate + late[0]);
      var next := b1.(tokens := b1.tokens - 1.0);
      assert AcquireResult(b, late) == (Granted(1), next);
      assert NonNegative(late[1..]) by {
        forall i | 0 <= i < |late[1..]| ensures late[1..][i] >= 0.0 {
          assert late[1..][i] == late[i + 1];
        }
      }
      BurstWithoutWaiting(next, count - 1, late[1..]);
    }
  }

  /** With a positive rate `count` acquires all succeed once the clock is
      read twice per acquire. */
  lemma {:induction false} ManyAcquiresSucceed(b: Bucket, count: nat, late: seq<real>)
    requires Valid(b) && b.rate >= 1 && NonNegative(late) && |late| >= 2 * count
    ensures AcquireMany(b, count, late).0.Granted?
    decreases count
  {
    if count > 0 {
      OneWaitSuffices(b, late);
      AcquireValid(b, late);
      var first := AcquireResult(b, late);
      var k := first.0.readings;
      assert NonNegative(late[k..]) by {
        forall i | 0 <= i < |late[k..]| ensures late[k..][i] >= 0.0 {
          assert late[k..][i] == late[i + k];
        }
      }
      ManyAcquiresSucceed(first.1, count - 1, late[k..]);
    }
  }

  /** The limiter object; the asyncio lock around `acquire` is left out,
      since the model runs one acquire at a time. */
  class RateLimiter {
    var rate: int
    var tokens: real
    var lastUpdate: real

    function State(): Bucket
      reads this
    {
      Bucket(rate, tokens, lastUpdate)
    }

    /** `__init__`: a full bucket, stamped with the current reading. */
    constructor (ratePerSecond: int, now: real)
      ensures State() == Bucket(ratePerSecond, ratePerSecond as real, now)
      ensures Valid(State())
    {
      rate := ratePerSecond;
      tokens := ratePerSecond as real;
      lastUpdate := now;
    }

    /** `_refill_tokens` */
    method RefillTokens(now: real)
      modifies this
      ensures State() == Refill(old(State()), now)
    {
      var elapsed := now - lastUpdate;
      tokens := Min(rate as real, tokens + elapsed * rate as real);
      lastUpdate := now;
    }

    /** `acquire` with the latenesses of its clock readings. */
    method Acquire(late: seq<real>) returns (outcome: Acquisition)
      modifies this
      ensures (outcome, State()) == AcquireResult(old(State()), late)
    {
      if late == [] {
        return OutOfReadings;
      }
      RefillTokens(lastUpdate + late[0]);
      var k := 1;
      while tokens < 1.0
        invariant 1 <= k <= |late|
        invariant WaitLoop(State(), late[k..], k) == AcquireResult(old(State()), late)
        decreases |late| - k
      {
        if rate == 0 {
          return DivisionByZero;
        }
        if k == |late| {
          return OutOfReadings;
        }
        var waitTime := (1.0 - tokens) / rate as real;
        assert late[k..][1..] == late[k + 1..];
        RefillTokens(lastUpdate + Max(waitTime, 0.0) + late[k]);
        k := k + 1;
      }
      tokens := tokens - 1.0;
      outcome := Granted(k);
    }

    /** `acquire_multiple` */
    method AcquireMultiple(count: int, late: seq<real>) returns (outcome: Acquisition)
      modifies this
      ensures (outcome, State()) == AcquireMany(old(State()), count, late)
    {
      ghost var series := AcquireMany(State(), count, late);
      var i := 0;
      var used := 0;
      while i < count
        invariant 0 <= used <= |late|
        invariant i >= 0 && (count > 0 ==> i <= count)
        invariant series == After(used, AcquireMany(State(), count - i, late[used..]))
        decreases count - i
      {
        ghost var before := State();
        var got := Acquire(late[used..]);
        AcquireManyStep(before, count - i, late[used..]);
        if !got.Granted? {
          return got;
        }
        var k := got.readings;
        assert late[used..][k..] == late[used + k..];
        ghost var rest := AcquireMany(State(), count - i - 1, late[used + k..]);
        AfterAfter(used, k, rest);
        used := used + k;
        i := i + 1;
      }
      outcome := Granted(used);
    }
  }
}
