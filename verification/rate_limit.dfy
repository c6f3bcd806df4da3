/**
  Per-key token-bucket rate limiting (src/middleware/rate_limit.rs). Each
  key owns a bucket that refills continuously up to its capacity and pays
  one token per request. Time is the `now` parameter, in seconds on a
  monotonic clock; `f64` arithmetic is modelled by exact reals. The locks
  around the buckets are left out: a check is one sequential update.
 */
module RateLimit {
  import opened Prelude
  import Auth

  const SECONDS_PER_MINUTE: real := 60.0
  const TOO_MANY_BODY: string := "Rate limit exceeded"

  datatype Bucket = Bucket(tokens: real, lastUpdated: real, capacity: real, refillRate: real)

  /** A bucket that has never overdrawn: its level lies between empty and full, and it refills rather than drains. */
  predicate Valid(b: Bucket) {
    0.0 <= b.tokens <= b.capacity && b.refillRate >= 0.0
  }

  /** `Bucket::new`: a full bucket. */
  function NewBucket(capacity: real, refillRate: real, now: real): (b: Bucket)
    ensures b.tokens == b.capacity == capacity && b.refillRate == refillRate && b.lastUpdated == now
    ensures capacity >= 0.0 && refillRate >= 0.0 ==> Valid(b)
  {
    Bucket(capacity, now, capacity, refillRate)
  }

  /** Seconds since the last update; a monotonic clock never reports a negative span. */
  function Elapsed(b: Bucket, now: real): (e: real)
    ensures e >= 0.0
    ensures now >= b.lastUpdated ==> e == now - b.lastUpdated
  {
    if now >= b.lastUpdated then now - b.lastUpdated else 0.0
  }

  /** The level after refilling for the elapsed time, never above capacity. */
  function Refilled(b: Bucket, now: real): (level: real)
    ensures level <= b.capacity
    ensures level == b.capacity || level == b.tokens + Elapsed(b, now) * b.refillRate
    ensures level <= b.tokens + Elapsed(b, now) * b.refillRate
    ensures Valid(b) ==> level >= b.tokens
  {
    var grown := b.tokens + Elapsed(b, now) * b.refillRate;
    if grown < b.capacity then grown else b.capacity
  }

  /**
    `Bucket::try_consume`: refill, then admit the request exactly when at
    least one whole token is available, paying exactly one token; a refused
    request leaves the refilled level untouched.
   */
  function TryConsume(b: Bucket, now: real): (r: (bool, Bucket))
    ensures r.1.capacity == b.capacity && r.1.refillRate == b.refillRate && r.1.lastUpdated == now
    ensures r.0 <==> Refilled(b, now) >= 1.0
    ensures r.0 ==> r.1.tokens == Refilled(b, now) - 1.0
    ensures !r.0 ==> r.1.tokens == Refilled(b, now)
    ensures Valid(b) ==> Valid(r.1)
  {
    var level := Refilled(b, now);
    if level >= 1.0 then (true, b.(tokens := level - 1.0, lastUpdated := now))
    else (false, b.(tokens := level, lastUpdated := now))
  }

  datatype RateLimiter = RateLimiter(buckets: map<string, Bucket>, defaultCapacity: real, defaultRefillRate: real)

  /** Every bucket of the limiter is valid. */
  predicate LimiterValid(l: RateLimiter) {
    && l.defaultCapacity >= 0.0 && l.defaultRefillRate >= 0.0
    && forall k :: k in l.buckets ==> Valid(l.buckets[k])
  }

  /** `RateLimiter::new(n)`: buckets of capacity `n` refilled at `n` tokens per minute. */
  function NewRateLimiter(requestsPerMinute: nat): (l: RateLimiter)
    ensures l.buckets == map[]
    ensures l.defaultCapacity == requestsPerMinute as real
    ensures l.defaultRefillRate * SECONDS_PER_MINUTE == requestsPerMinute as real
    ensures LimiterValid(l)
  {
    RateLimiter(map[], requestsPerMinute as real, requestsPerMinute as real / SECONDS_PER_MINUTE)
  }

  /**
    `check_key`: the key's bucket, created full on first sight, pays for
    this request; no other key's bucket changes.
   */
  function CheckKey(l: RateLimiter, apiKey: string, now: real): (r: (bool, RateLimiter))
    ensures r.1.defaultCapacity == l.defaultCapacity && r.1.defaultRefillRate == l.defaultRefillRate
    ensures r.1.buckets.Keys == l.buckets.Keys + {apiKey}
    ensures forall k :: k in l.buckets && k != apiKey ==> r.1.buckets[k] == l.buckets[k]
    ensures apiKey in l.buckets ==> (r.0, r.1.buckets[apiKey]) == TryConsume(l.buckets[apiKey], now)
    ensures apiKey !in l.buckets ==>
              (r.0, r.1.buckets[apiKey]) == TryConsume(NewBucket(l.defaultCapacity, l.defaultRefillRate, now), now)
    ensures LimiterValid(l) ==> LimiterValid(r.1)
  {
    var bucket := if apiKey in l.buckets then l.buckets[apiKey]
                  else NewBucket(l.defaultCapacity, l.defaultRefillRate, now);
    var (allowed, bucket') := TryConsume(bucket, now);
    (allowed, l.(buckets := l.buckets[apiKey := bucket']))
  }

  /** The answers to `count` checks of one key made at the same instant. */
  function CheckRepeatedly(l: RateLimiter, apiKey: string, now: real, count: nat): seq<bool>
    decreases count
  {
    if count == 0 then []
    else
      var (allowed, l') := CheckKey(l, apiKey, now);
      [allowed] + CheckRepeatedly(l', apiKey, now, count - 1)
  }

  /** A bucket updated at this very instant holding `m` whole tokens admits exactly `m` more requests now. */
  lemma {:induction false} DrainAtOneInstant(l: RateLimiter, apiKey: string, now: real, m: nat, count: nat)
    requires apiKey in l.buckets
    requires l.buckets[apiKey].lastUpdated == now
    requires l.buckets[apiKey].tokens == m as real <= l.buckets[apiKey].capacity
    ensures CheckRepeatedly(l, apiKey, now, count) == seq(count, i => i < m)
    decreases count
  {
    if count > 0 {
      var (allowed, l') := CheckKey(l, apiKey, now);
      assert Elapsed(l.buckets[apiKey], now) == 0.0;
      assert allowed <==> m >= 1;
      if m >= 1 {
        DrainAtOneInstant(l', apiKey, now, m - 1, count - 1);
      } else {
        DrainAtOneInstant(l', apiKey, now, 0, count - 1);
      }
      assert CheckRepeatedly(l, apiKey, now, count) == [allowed] + CheckRepeatedly(l', apiKey, now, count - 1);
    }
  }

  /**
    With `RateLimiter::new(n)`, a key seen for the first time may burst
    exactly `n` requests at one instant; every further one at that instant
    is refused.
   */
  lemma FreshKeyBurst(n: nat, apiKey: string, now: real, count: nat)
    ensures CheckRepeatedly(NewRateLimiter(n), apiKey, now, count) == seq(count, i => i < n)
  {
    var l := NewRateLimiter(n);
    if count > 0 {
      var (allowed, l') := CheckKey(l, apiKey, now);
      assert allowed <==> n >= 1;
      var m: nat := if n >= 1 then n - 1 else 0;
      DrainAtOneInstant(l', apiKey, now, m, count - 1);
      assert CheckRepeatedly(l, apiKey, now, count) == [allowed] + CheckRepeatedly(l', apiKey, now, count - 1);
    }
  }

  /** The middleware's verdict: 429, or hand the request on. */
  datatype RateOutcome = TooManyRequests(body: string) | Proceed

  /**
    `RateLimitMiddlewareService::call`: a request with a validated key is
    charged to that key and refused with 429 when its bucket is empty; a
    request without one passes unlimited and charges nothing.
   */
  function MiddlewareCall(l: RateLimiter, validated: Option<Auth.ValidatedApiKey>, now: real)
    : (r: (RateOutcome, RateLimiter))
    ensures validated.None? ==> r == (Proceed, l)
    ensures validated.Some? ==>
              var (allowed, l') := CheckKey(l, validated.value.key, now);
              && r.1 == l'
              && (r.0.Proceed? <==> allowed)
              && (r.0.TooManyRequests? ==> r.0.body == TOO_MANY_BODY)
  {
    match validated
    case None => (Proceed, l)
    case Some(v) =>
      var (allowed, l') := CheckKey(l, v.key, now);
      if allowed then (Proceed, l') else (TooManyRequests(TOO_MANY_BODY), l')
  }
}
