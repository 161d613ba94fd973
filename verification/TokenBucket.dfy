/**
 The token-bucket script of api/app/limits/redis_bucket.py. Tokens and times are reals;
 one call of the script is one step. Every call costs one token.
 */
module TokenBuckets {
  import opened Wrappers

  datatype Config = Config(capacity: real, rate: real) {
    /** What the constraints on stored policies give: at least one token, a positive rate. */
    predicate Valid() {
      capacity >= 1.0 && rate > 0.0
    }

    /** The expiry the script sets: time to refill, rounded up, plus one second. */
    function Ttl(): (seconds: real)
      requires Valid()
      ensures capacity / rate + 1.0 <= seconds < capacity / rate + 2.0 && seconds == seconds.Floor as real
    {
      (-((-(capacity / rate)).Floor) + 1) as real
    }
  }

  datatype Bucket = Bucket(tokens: real, lastRefill: real)

  datatype Answer = Answer(allowed: bool, remaining: int, resetAfter: real)

  function Min(a: real, b: real): real {
    if a <= b then a else b
  }

  function Max(a: real, b: real): real {
    if a >= b then a else b
  }

  /** The tokens that accrue between two times; negative when the clock goes back. */
  function Gain(cfg: Config, from: real, to: real): real {
    (to - from) * cfg.rate
  }

  /** The tokens available to a call, before it takes its own. */
  function Refilled(cfg: Config, b: Option<Bucket>, now: real): real {
    match b
    case None => cfg.capacity
    case Some(bucket) => Min(cfg.capacity, bucket.tokens + Gain(cfg, bucket.lastRefill, now))
  }

  predicate Admits(cfg: Config, b: Option<Bucket>, now: real) {
    Refilled(cfg, b, now) >= 1.0
  }

  /** What the script writes back. */
  function Take(cfg: Config, b: Option<Bucket>, now: real): Bucket {
    var tokens := Refilled(cfg, b, now);
    Bucket(if tokens >= 1.0 then tokens - 1.0 else tokens, now)
  }

  /** What the script returns. */
  function Reply(cfg: Config, b: Option<Bucket>, now: real): Answer
    requires cfg.Valid()
  {
    Answer(Admits(cfg, b, now), Max(0.0, Refilled(cfg, b, now) - 1.0).Floor,
           (cfg.capacity - Take(cfg, b, now).tokens) / cfg.rate)
  }

  /** The key after a run of calls that started from `b`. */
  function After(cfg: Config, b: Option<Bucket>, times: seq<real>): Option<Bucket> {
    if times == [] then b
    else Some(Take(cfg, After(cfg, b, times[..|times| - 1]), times[|times| - 1]))
  }

  predicate AdmitsAt(cfg: Config, b: Option<Bucket>, times: seq<real>, i: nat)
    requires i < |times|
  {
    Admits(cfg, After(cfg, b, times[..i]), times[i])
  }

  function Admissions(cfg: Config, b: Option<Bucket>, times: seq<real>): nat {
    if times == [] then 0
    else Admissions(cfg, b, times[..|times| - 1]) + (if AdmitsAt(cfg, b, times, |times| - 1) then 1 else 0)
  }

  // ----- the bound ----------------------------------------------------------------

  lemma GainLaws(cfg: Config, a: real, b: real, c: real)
    ensures Gain(cfg, a, a) == 0.0
    ensures Gain(cfg, a, b) + Gain(cfg, b, c) == Gain(cfg, a, c)
  {
    assert (a - a) * cfg.rate == 0.0;
    assert (b - a) * cfg.rate + (c - b) * cfg.rate == (c - a) * cfg.rate;
  }

  /** Tokens less everything the clock has added since `origin`. */
  function Potential(cfg: Config, origin: real, b: Bucket): real {
    b.tokens - Gain(cfg, origin, b.lastRefill)
  }

  function Cost(admitted: bool): real {
    if admitted then 1.0 else 0.0
  }

  /** On any clock, even one that goes backwards, a call never raises the potential, and
      an admission lowers it by the cost. */
  lemma PotentialFalls(cfg: Config, origin: real, b: Bucket, now: real)
    ensures Potential(cfg, origin, Take(cfg, Some(b), now))
         <= Potential(cfg, origin, b) - Cost(Admits(cfg, Some(b), now))
  {
    GainLaws(cfg, origin, b.lastRefill, now);
  }

  /** Whatever the key holds, the first call cannot see more than a full bucket. */
  lemma PotentialOfFirstCall(cfg: Config, b: Option<Bucket>, now: real)
    ensures Potential(cfg, now, Take(cfg, b, now)) <= cfg.capacity - Cost(Admits(cfg, b, now))
  {
    GainLaws(cfg, now, now, now);
  }

  lemma LastCall(cfg: Config, b: Option<Bucket>, times: seq<real>)
    requires times != []
    ensures
      var n := |times| - 1;
      var key := After(cfg, b, times[..n]);
      && After(cfg, b, times) == Some(Take(cfg, key, times[n]))
      && Admissions(cfg, b, times) as real == Admissions(cfg, b, times[..n]) as real + Cost(Admits(cfg, key, times[n]))
  {
  }

  lemma {:induction false} PotentialAfterRun(cfg: Config, b: Option<Bucket>, times: seq<real>)
    requires times != []
    ensures Potential(cfg, times[0], After(cfg, b, times).value) <= cfg.capacity - Admissions(cfg, b, times) as real
    decreases |times|
  {
    var n := |times| - 1;
    var before := times[..n];
    LastCall(cfg, b, times);
    if n == 0 {
      PotentialOfFirstCall(cfg, b, times[0]);
    } else {
      PotentialAfterRun(cfg, b, before);
      PotentialFalls(cfg, times[0], After(cfg, b, before).value, times[n]);
    }
  }

  /** The bucket never over-admits: whatever the key holds at the first call and however
      the clock moves, the calls admitted up to and including an admitted call at time t
      number at most capacity + rate * (t - time of the first call). The starting state is
      arbitrary, so the bound holds for every stretch of every run. */
  lemma {:induction false} NeverOverAdmits(cfg: Config, b: Option<Bucket>, times: seq<real>)
    requires times != [] && AdmitsAt(cfg, b, times, |times| - 1)
    ensures Admissions(cfg, b, times) as real <= cfg.capacity + Gain(cfg, times[0], times[|times| - 1])
  {
    PotentialAfterRun(cfg, b, times);
    LastCall(cfg, b, times);
    AdmittedIsBacked(cfg, After(cfg, b, times[..|times| - 1]), times[|times| - 1]);
  }

  /** An admission never overdraws the bucket. */
  lemma AdmittedIsBacked(cfg: Config, b: Option<Bucket>, now: real)
    requires Admits(cfg, b, now)
    ensures Take(cfg, b, now).tokens >= 0.0 && Take(cfg, b, now).lastRefill == now
  {
  }

  // ----- truthful answers -------------------------------------------------------------

  function Repeat(now: real, k: nat): seq<real> {
    seq(k, _ => now)
  }

  lemma SameInstant(cfg: Config, b: Bucket, now: real)
    requires b.tokens <= cfg.capacity && b.lastRefill == now
    ensures Admits(cfg, Some(b), now) <==> b.tokens >= 1.0
    ensures Take(cfg, Some(b), now) == Bucket(if b.tokens >= 1.0 then b.tokens - 1.0 else b.tokens, now)
  {
    GainLaws(cfg, now, now, now);
  }

  lemma {:induction false} BurstAt(cfg: Config, b: Bucket, now: real, k: nat)
    requires 0.0 <= b.tokens <= cfg.capacity && b.lastRefill == now
    ensures
      var n := if k <= b.tokens.Floor then k else b.tokens.Floor;
      && Admissions(cfg, Some(b), Repeat(now, k)) == n
      && After(cfg, Some(b), Repeat(now, k)) == Some(Bucket(b.tokens - n as real, now))
  {
    if k > 0 {
      BurstAt(cfg, b, now, k - 1);
      assert Repeat(now, k)[..k - 1] == Repeat(now, k - 1);
      SameInstant(cfg, After(cfg, Some(b), Repeat(now, k - 1)).value, now);
    }
  }

  /** After an admission that reports r remaining, exactly r more calls at the same instant
      are admitted, however many are made. */
  lemma RemainingIsExact(cfg: Config, b: Option<Bucket>, now: real, k: nat)
    requires cfg.Valid() && Admits(cfg, b, now)
    ensures
      var r := Reply(cfg, b, now).remaining;
      Admissions(cfg, Some(Take(cfg, b, now)), Repeat(now, k)) == if k <= r then k else r
  {
    BurstAt(cfg, Take(cfg, b, now), now, k);
  }

  /** A denied caller who waits `retry_after_seconds`, with no other traffic, is admitted. */
  lemma RetryAfterIsEnough(cfg: Config, b: Option<Bucket>, now: real)
    requires cfg.Valid() && !Admits(cfg, b, now)
    ensures
      var wait := Reply(cfg, b, now).resetAfter;
      wait > 0.0 && Admits(cfg, Some(Take(cfg, b, now)), now + wait)
  {
    var wait, missing := Reply(cfg, b, now).resetAfter, cfg.capacity - Take(cfg, b, now).tokens;
    assert Gain(cfg, now, now + wait) == wait * cfg.rate == missing && missing > 0.0;
    PositiveQuotient(missing, cfg.rate);
  }

  /** The reported reset is the instant at which the bucket is full again, without other traffic: then,
      and not before. */
  lemma {:induction false} ResetIsExact(cfg: Config, b: Option<Bucket>, now: real, wait: real)
    requires cfg.Valid() && wait >= 0.0
    ensures Refilled(cfg, Some(Take(cfg, b, now)), now + wait) == cfg.capacity <==>
            wait >= Reply(cfg, b, now).resetAfter
  {
    var reset, missing := Reply(cfg, b, now).resetAfter, cfg.capacity - Take(cfg, b, now).tokens;
    assert reset * cfg.rate == missing;
    assert Gain(cfg, now, now + wait) == wait * cfg.rate;
    if wait >= reset {
      MulMonotone(wait, reset, cfg.rate);
    } else {
      ProductPositive(reset - wait, cfg.rate);
      assert (reset - wait) * cfg.rate == reset * cfg.rate - wait * cfg.rate;
    }
  }

  lemma ProductPositive(a: real, k: real)
    requires a > 0.0 && k > 0.0
    ensures a * k > 0.0
  {
  }

  lemma PositiveQuotient(x: real, y: real)
    requires x > 0.0 && y > 0.0
    ensures x / y > 0.0
  {
    assert x / y * y == x;
  }

  // ----- expiry -------------------------------------------------------------------------

  datatype Stored = Stored(bucket: Bucket, expiresAt: real)

  /** What a store that forgets the key after its time to live shows to the script. */
  function Visible(s: Option<Stored>, now: real): Option<Bucket> {
    if s.Some? && now < s.value.expiresAt then Some(s.value.bucket) else None
  }

  function ExpiringTake(cfg: Config, s: Option<Stored>, now: real): Stored
    requires cfg.Valid()
  {
    Stored(Take(cfg, Visible(s, now), now), now + cfg.Ttl())
  }

  function Answers(cfg: Config, b: Option<Bucket>, times: seq<real>): seq<Answer>
    requires cfg.Valid()
    decreases |times|
  {
    if times == [] then []
    else [Reply(cfg, b, times[0])] + Answers(cfg, Some(Take(cfg, b, times[0])), times[1..])
  }

  function ExpiringAnswers(cfg: Config, s: Option<Stored>, times: seq<real>): seq<Answer>
    requires cfg.Valid()
    decreases |times|
  {
    if times == [] then []
    else [Reply(cfg, Visible(s, times[0]), times[0])]
         + ExpiringAnswers(cfg, Some(ExpiringTake(cfg, s, times[0])), times[1..])
  }

  ghost predicate NonDecreasing(times: seq<real>) {
    forall i, j :: 0 <= i < j < |times| ==> times[i] <= times[j]
  }

  /** The expiring key is a faithful copy of the eternal one. */
  ghost predicate Mirrors(cfg: Config, s: Option<Stored>, b: Option<Bucket>)
    requires cfg.Valid()
  {
    || (s.None? && b.None?)
    || (s.Some? && b.Some? && s.value.bucket == b.value && b.value.tokens >= 0.0
        && s.value.expiresAt == b.value.lastRefill + cfg.Ttl())
  }

  lemma RefillCoversTtl(cfg: Config, elapsed: real)
    requires cfg.Valid() && elapsed >= cfg.Ttl()
    ensures elapsed * cfg.rate >= cfg.capacity
  {
    var q := cfg.capacity / cfg.rate;
    assert q * cfg.rate == cfg.capacity;
    assert elapsed >= q;
    MulMonotone(elapsed, q, cfg.rate);
  }

  lemma GainIsMonotone(cfg: Config, last: real, now: real)
    requires cfg.Valid() && last <= now
    ensures Gain(cfg, last, now) >= 0.0
    ensures now >= last + cfg.Ttl() ==> Gain(cfg, last, now) >= cfg.capacity
  {
    ProductNonNegative(now - last, cfg.rate);
    assert Gain(cfg, last, now) == (now - last) * cfg.rate;
    if now >= last + cfg.Ttl() {
      RefillCoversTtl(cfg, now - last);
    }
  }

  lemma ProductNonNegative(a: real, k: real)
    requires a >= 0.0 && k > 0.0
    ensures a * k >= 0.0
  {
  }

  lemma MulMonotone(a: real, b: real, k: real)
    requires a >= b && k > 0.0
    ensures a * k >= b * k
  {
    ProductNonNegative(a - b, k);
    assert (a - b) * k == a * k - b * k;
  }

  /** On a clock that does not go back, expiry changes neither the tokens a call sees nor
      the key it leaves. */
  lemma ExpiryKeepsTokens(cfg: Config, s: Option<Stored>, b: Option<Bucket>, now: real)
    requires cfg.Valid() && Mirrors(cfg, s, b) && (b.Some? ==> b.value.lastRefill <= now)
    ensures Refilled(cfg, Visible(s, now), now) == Refilled(cfg, b, now) >= 0.0
    ensures Mirrors(cfg, Some(ExpiringTake(cfg, s, now)), Some(Take(cfg, b, now)))
  {
    if b.Some? {
      GainIsMonotone(cfg, b.value.lastRefill, now);
    }
  }

  lemma {:induction false} MirroredAnswers(cfg: Config, s: Option<Stored>, b: Option<Bucket>, times: seq<real>)
    requires cfg.Valid() && Mirrors(cfg, s, b) && NonDecreasing(times)
    requires b.Some? && times != [] ==> b.value.lastRefill <= times[0]
    ensures ExpiringAnswers(cfg, s, times) == Answers(cfg, b, times)
    decreases |times|
  {
    if times != [] {
      ExpiryKeepsTokens(cfg, s, b, times[0]);
      MirroredAnswers(cfg, Some(ExpiringTake(cfg, s, times[0])), Some(Take(cfg, b, times[0])), times[1..]);
    }
  }

  /** Expiry is invisible: on a clock that does not go back, a key that vanishes after its
      time to live answers every call as a key that never expires. */
  lemma ExpiryIsInvisible(cfg: Config, times: seq<real>)
    requires cfg.Valid() && NonDecreasing(times)
    ensures ExpiringAnswers(cfg, None, times) == Answers(cfg, None, times)
  {
    MirroredAnswers(cfg, None, None, times);
  }
}
