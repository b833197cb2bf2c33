/** The connector's token buckets (modules/connector/rate_limit.py), over exact time. */
module TokenBucket {
  datatype Limit = Limit(capacity: int, refill: real)
  datatype Bucket = Bucket(tokens: real, last: real)
  datatype Answer = Granted | RetryAfter(seconds: real)

  const SMALLEST_REFILL := 0.000000001

  function Min(a: real, b: real): real { if a <= b then a else b }

  function Max(a: real, b: real): real { if a >= b then a else b }

  /** What flows in over a stretch of time. */
  function Inflow(lim: Limit, seconds: real): real {
    seconds * lim.refill
  }

  function Refilled(b: Bucket, lim: Limit, now: real): real {
    Min(lim.capacity as real, b.tokens + Inflow(lim, Max(0.0, now - b.last)))
  }

  function After(b: Bucket, lim: Limit, now: real): Bucket {
    var tokens := Refilled(b, lim, now);
    Bucket(if tokens < 1.0 then tokens else tokens - 1.0, now)
  }

  function Ask(b: Bucket, lim: Limit, now: real): Answer {
    var tokens := Refilled(b, lim, now);
    if tokens < 1.0 then RetryAfter((1.0 - tokens) / Max(lim.refill, SMALLEST_REFILL)) else Granted
  }

  // ------------------------------------------------------------ throughput

  /** The bucket after asking at each of the given times. */
  function AfterAll(b: Bucket, lim: Limit, times: seq<real>): Bucket {
    if times == [] then b else After(AfterAll(b, lim, times[..|times| - 1]), lim, times[|times| - 1])
  }

  /** How many of the requests are granted. */
  function Grants(b: Bucket, lim: Limit, times: seq<real>): nat {
    if times == [] then 0
    else Grants(b, lim, times[..|times| - 1])
         + (if Ask(AfterAll(b, lim, times[..|times| - 1]), lim, times[|times| - 1]).Granted? then 1 else 0)
  }

  ghost predicate NonDecreasing(start: real, times: seq<real>) {
    && (times != [] ==> start <= times[0])
    && forall i, j :: 0 <= i <= j < |times| ==> times[i] <= times[j]
  }

  predicate Sound(b: Bucket, lim: Limit) {
    lim.refill >= 0.0 && lim.capacity >= 0 && 0.0 <= b.tokens <= lim.capacity as real
  }

  lemma InflowAdds(lim: Limit, a: real, b: real)
    ensures Inflow(lim, a + b) == Inflow(lim, a) + Inflow(lim, b)
  {
  }

  lemma InflowNonNegative(lim: Limit, a: real)
    requires lim.refill >= 0.0 && a >= 0.0
    ensures Inflow(lim, a) >= 0.0
  {
  }

  /** One request, without saying where its inflow came from. */
  lemma OneRequest(b: Bucket, lim: Limit, now: real, inflow: real)
    requires Sound(b, lim) && b.last <= now && inflow == Inflow(lim, now - b.last) && inflow >= 0.0
    ensures Sound(After(b, lim, now), lim) && After(b, lim, now).last == now
    ensures After(b, lim, now).tokens + (if Ask(b, lim, now).Granted? then 1.0 else 0.0) <= b.tokens + inflow
  {
  }

  /** The inflow over the stretches between requests, one by one. */
  function Inflows(start: real, lim: Limit, times: seq<real>): real {
    if times == [] then 0.0
    else
      var was := if |times| == 1 then start else times[|times| - 2];
      Inflows(start, lim, times[..|times| - 1]) + Inflow(lim, times[|times| - 1] - was)
  }

  lemma {:induction false} InflowsAre(start: real, lim: Limit, times: seq<real>)
    requires times != []
    ensures Inflows(start, lim, times) == Inflow(lim, times[|times| - 1] - start)
  {
    var n := |times| - 1;
    if n > 0 {
      InflowsAre(start, lim, times[..n]);
      InflowAdds(lim, times[n - 1] - start, times[n] - times[n - 1]);
    } else {
      assert times[..0] == [];
    }
  }

  /** Tokens left plus requests granted never exceed what was there plus what flowed in. */
  lemma {:induction false} TokensAreConserved(b: Bucket, lim: Limit, times: seq<real>)
    requires Sound(b, lim) && NonDecreasing(b.last, times)
    ensures Sound(AfterAll(b, lim, times), lim)
    ensures AfterAll(b, lim, times).last == if times == [] then b.last else times[|times| - 1]
    ensures AfterAll(b, lim, times).tokens + Grants(b, lim, times) as real <= b.tokens + Inflows(b.last, lim, times)
  {
    if times != [] {
      var n := |times| - 1;
      var b1 := AfterAll(b, lim, times[..n]);
      TokensAreConserved(b, lim, times[..n]);
      var inflow := Inflow(lim, times[n] - b1.last);
      InflowNonNegative(lim, times[n] - b1.last);
      OneRequest(b1, lim, times[n], inflow);
    }
  }

  /**
   In any window of a run of requests at non-decreasing times, from the i-th request on up to before the
   j-th, at most capacity + refill * (elapsed) are granted.
   */
  lemma WindowBound(b: Bucket, lim: Limit, times: seq<real>, i: nat, j: nat)
    requires Sound(b, lim) && NonDecreasing(b.last, times) && i < j <= |times|
    ensures Grants(AfterAll(b, lim, times[..i]), lim, times[i..j]) as real
         <= lim.capacity as real + Inflow(lim, times[j - 1] - times[i])
  {
    TokensAreConserved(b, lim, times[..i]);
    var b1, window := AfterAll(b, lim, times[..i]), times[i..j];
    InflowNonNegative(lim, times[i] - b1.last);
    var full := FullEnough(b1, lim, times[i]);
    SameFromRefill(b1, lim, window, full);
    TokensAreConserved(full, lim, window);
    InflowsAre(full.last, lim, window);
  }

  /** Refilling up to the first request's time can only fill the bucket, not overfill it. */
  lemma FullEnough(b: Bucket, lim: Limit, now: real) returns (full: Bucket)
    requires Sound(b, lim) && b.last <= now && Inflow(lim, now - b.last) >= 0.0
    ensures full == Bucket(Refilled(b, lim, now), now) && Sound(full, lim)
  {
    full := Bucket(Refilled(b, lim, now), now);
  }

  lemma {:induction false} SameFromRefill(b: Bucket, lim: Limit, times: seq<real>, full: Bucket)
    requires Sound(b, lim) && times != [] && b.last <= times[0]
    requires full == Bucket(Refilled(b, lim, times[0]), times[0])
    ensures AfterAll(full, lim, times) == AfterAll(b, lim, times)
    ensures Grants(full, lim, times) == Grants(b, lim, times)
  {
    if |times| == 1 {
      assert times[..0] == [];
      RefilledAgain(b, lim, times[0]);
    } else {
      SameFromRefill(b, lim, times[..|times| - 1], full);
    }
  }

  lemma RefilledAgain(b: Bucket, lim: Limit, now: real)
    ensures Refilled(Bucket(Refilled(b, lim, now), now), lim, now) == Refilled(b, lim, now)
  {
    assert Inflow(lim, 0.0) == 0.0;
  }

  /** Waiting exactly as told gets a token iff the bucket can hold one and refills at all. */
  lemma RetryTimeIsRight(b: Bucket, lim: Limit, now: real)
    requires Ask(b, lim, now).RetryAfter?
    ensures
      var again := now + Ask(b, lim, now).seconds;
      Ask(After(b, lim, now), lim, again).Granted? <==> lim.capacity >= 1 && lim.refill >= 0.000000001
  {
    var missing := 1.0 - Refilled(b, lim, now);
    var wait := missing / Max(lim.refill, SMALLEST_REFILL);
    WaitFillsUp(lim, missing, wait);
    NextRefill(After(b, lim, now), lim, wait);
  }

  lemma NextRefill(b: Bucket, lim: Limit, wait: real)
    requires wait >= 0.0
    ensures Refilled(b, lim, b.last + wait) == Min(lim.capacity as real, b.tokens + Inflow(lim, wait))
  {
    assert Max(0.0, b.last + wait - b.last) == wait;
  }

  lemma WaitFillsUp(lim: Limit, missing: real, wait: real)
    requires missing > 0.0 && wait == missing / Max(lim.refill, SMALLEST_REFILL)
    ensures wait > 0.0
    ensures lim.refill >= SMALLEST_REFILL ==> Inflow(lim, wait) == missing
    ensures lim.refill < SMALLEST_REFILL ==> Inflow(lim, wait) < missing
  {
    var rate := Max(lim.refill, SMALLEST_REFILL);
    DivMul(missing, rate);
    if lim.refill < SMALLEST_REFILL {
      MulLess(wait, lim.refill, rate);
    }
  }

  lemma DivMul(a: real, b: real)
    requires a > 0.0 && b > 0.0
    ensures a / b > 0.0 && (a / b) * b == a
  {
  }

  lemma MulLess(w: real, a: real, b: real)
    requires w > 0.0 && a < b
    ensures w * a < w * b
  {
    assert w * (b - a) > 0.0;
  }

  // ------------------------------------------------------------ no request is refused for nothing

  /** A request is granted iff the bucket can hold a token and one is there, or has flowed in since; a clock set back adds none. */
  lemma GrantedIff(b: Bucket, lim: Limit, now: real)
    ensures
      var elapsed := if now > b.last then now - b.last else 0.0;
      Ask(b, lim, now).Granted? <==> lim.capacity >= 1 && b.tokens + elapsed * lim.refill >= 1.0
  {
  }

  /** What a full bucket loses before each request. */
  function Spilled(b: Bucket, lim: Limit, times: seq<real>): real {
    if times == [] then 0.0
    else
      var front, now := times[..|times| - 1], times[|times| - 1];
      var was := AfterAll(b, lim, front);
      var there := was.tokens + Inflow(lim, now - was.last);
      Spilled(b, lim, front) + (if there > lim.capacity as real then there - lim.capacity as real else 0.0)
  }

  /** Every token that was there or flowed in is still there, was granted, or found the bucket full: none is lost otherwise. */
  lemma {:induction false} TokensAreAccounted(b: Bucket, lim: Limit, times: seq<real>)
    requires Sound(b, lim) && NonDecreasing(b.last, times)
    ensures AfterAll(b, lim, times).tokens + Grants(b, lim, times) as real + Spilled(b, lim, times)
         == b.tokens + Inflows(b.last, lim, times)
  {
    if times != [] {
      var n := |times| - 1;
      var front, now := times[..n], times[n];
      var was := AfterAll(b, lim, front);
      TokensAreConserved(b, lim, front);
      TokensAreAccounted(b, lim, front);
      assert was.last <= now;
      TakesOne(was, lim, now, Inflow(lim, now - was.last));
    }
  }

  lemma TakesOne(b: Bucket, lim: Limit, now: real, inflow: real)
    requires b.last <= now && inflow == Inflow(lim, now - b.last)
    ensures After(b, lim, now).last == now
    ensures After(b, lim, now).tokens + (if Ask(b, lim, now).Granted? then 1.0 else 0.0)
         + (if b.tokens + inflow > lim.capacity as real then b.tokens + inflow - lim.capacity as real else 0.0) == b.tokens + inflow
  {
  }

  /** As many requests as there are tokens are all granted, however fast they come. */
  lemma {:induction false} BurstIsGranted(b: Bucket, lim: Limit, times: seq<real>)
    requires Sound(b, lim) && NonDecreasing(b.last, times) && |times| as real <= b.tokens
    ensures Grants(b, lim, times) == |times| && AfterAll(b, lim, times).tokens >= b.tokens - |times| as real
  {
    if times != [] {
      var n := |times| - 1;
      BurstIsGranted(b, lim, times[..n]);
      TokensAreConserved(b, lim, times[..n]);
      var was := AfterAll(b, lim, times[..n]);
      InflowNonNegative(lim, times[n] - was.last);
      OneRequest(was, lim, times[n], Inflow(lim, times[n] - was.last));
    }
  }

  // ------------------------------------------------------------ the limiter

  class RateLimiter {
    var configs: map<string, Limit>
    var buckets: map<string, Bucket>

    ghost predicate Valid()
      reads this
    {
      configs.Keys == buckets.Keys
    }

    constructor ()
      ensures Valid() && configs == map[]
    {
      configs, buckets := map[], map[];
    }

    /** A configured service starts with a full bucket. */
    method Configure(service: string, limit: Limit, now: real)
      requires Valid()
      modifies this
      ensures Valid() && configs == old(configs)[service := limit]
      ensures buckets == old(buckets)[service := Bucket(limit.capacity as real, now)]
    {
      configs := configs[service := limit];
      buckets := buckets[service := Bucket(limit.capacity as real, now)];
    }

    /** Services without a configuration are not limited. */
    method Acquire(service: string, now: real) returns (r: Answer)
      requires Valid()
      modifies this`buckets
      ensures Valid()
      ensures service !in configs ==> r == Granted && buckets == old(buckets)
      ensures service in configs ==>
        && r == Ask(old(buckets)[service], configs[service], now)
        && buckets == old(buckets)[service := After(old(buckets)[service], configs[service], now)]
    {
      if service !in configs {
        return Granted;
      }
      var limit, bucket := configs[service], buckets[service];
      var elapsed := Max(0.0, now - bucket.last);
      var tokens := Min(limit.capacity as real, bucket.tokens + elapsed * limit.refill);
      assert tokens == Refilled(bucket, limit, now);
      buckets := buckets[service := Bucket(tokens, now)];
      if tokens < 1.0 {
        var missing := 1.0 - tokens;
        return RetryAfter(missing / Max(limit.refill, SMALLEST_REFILL));
      }
      buckets := buckets[service := Bucket(tokens - 1.0, now)];
      r := Granted;
    }
  }
}
