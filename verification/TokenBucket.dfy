/** The token bucket that Redis runs as a script: what each call answers, how many calls a window of
    time can let through, and how long a refused caller has to wait. */
module TokenBucket {
  import opened Wrappers

  /** ttl in seconds; times are in milliseconds, as the script reads them from TIME. */
  datatype Limit = Limit(capacity: int, refill: real, ttl: int)

  /** The stored hash and the moment its key expires. */
  datatype Bucket = Missing | Stored(tokens: real, ts: int, expires: int)

  datatype Reply = Reply(allowed: bool, retryAfter: int)

  ghost predicate LimitOk(p: Limit) {
    0 < p.capacity && 0.0 <= p.refill && 0 < p.ttl
  }

  function Min(a: real, b: real): real { if a <= b then a else b }

  function Ceil(x: real): int { -((-x).Floor) }

  predicate Alive(b: Bucket, now: int) {
    b.Stored? && now < b.expires
  }

  /** Seconds since ts; none if the clock has gone back. */
  function Since(ts: int, now: int): real {
    (if now < ts then 0 else now - ts) as real / 1000.0
  }

  /** The tokens a caller at this moment finds: refilled since ts, never above capacity, all of them
      when there is no key. The clock may have gone back; then nothing is refilled. */
  function Level(b: Bucket, p: Limit, now: int): real {
    if Alive(b, now) then Min(p.capacity as real, b.tokens + Since(b.ts, now) * p.refill)
    else p.capacity as real
  }

  /** One run of the script. */
  function Run(b: Bucket, p: Limit, requested: int, now: int): (Bucket, Reply) {
    var level := Level(b, p, now);
    var allowed := requested as real <= level;
    var left := if allowed then level - requested as real else level;
    var retryAfter := if allowed || p.refill <= 0.0 then 0 else Ceil((requested as real - level) / p.refill * 1000.0);
    (Stored(left, now, now + p.ttl * 1000), Reply(allowed, retryAfter))
  }

  // ---------- The window bound ----------

  /** The bucket after calls for one token at these times. */
  function After(b: Bucket, p: Limit, times: seq<int>): Bucket {
    if times == [] then b else Run(After(b, p, times[..|times| - 1]), p, 1, times[|times| - 1]).0
  }

  /** How many of the calls from the i-th on are let through. */
  function Allowed(b: Bucket, p: Limit, times: seq<int>, i: nat): nat {
    if |times| <= i then 0
    else Allowed(b, p, times[..|times| - 1], i) +
         if Run(After(b, p, times[..|times| - 1]), p, 1, times[|times| - 1]).1.allowed then 1 else 0
  }

  predicate Sorted(times: seq<int>) {
    forall i, j :: 0 <= i < j < |times| ==> times[i] <= times[j]
  }

  /** The tokens refilled in so many milliseconds. */
  function Refilled(p: Limit, ms: int): real {
    p.refill * ms as real / 1000.0
  }

  /** The calls from the i-th to the last let through no more than a full bucket and what is refilled
      between the first and the last of them. */
  ghost predicate WindowOk(p: Limit, times: seq<int>, i: nat) {
    i < |times| ==> Allowed(Missing, p, times, i) as real <= p.capacity as real + Refilled(p, times[|times| - 1] - times[i])
  }

  /** A stored bucket holds no more than capacity, nothing negative, and lives ttl from its time. */
  ghost predicate BucketOk(b: Bucket, p: Limit) {
    b.Stored? ==> 0.0 <= b.tokens <= p.capacity as real && b.expires == b.ts + p.ttl * 1000
  }

  /** An allowed call of any size takes exactly what it asked for, and a refused one nothing; and it is
      allowed if and only if that much is there. */
  lemma RunTakes(b: Bucket, p: Limit, requested: int, now: int)
    requires LimitOk(p) && BucketOk(b, p) && 0 < requested
    ensures var (after, reply) := Run(b, p, requested, now);
            && BucketOk(after, p) && (reply.allowed <==> requested as real <= Level(b, p, now))
            && Level(after, p, now) == Level(b, p, now) - (if reply.allowed then requested as real else 0.0)
            && (reply.allowed ==> reply.retryAfter == 0)
  {
    if b.Stored? {
      MulMonotone(0.0, Since(b.ts, now), p.refill);
    }
    assert Since(now, now) * p.refill == 0.0;
  }

  lemma RunKeeps(b: Bucket, p: Limit, now: int)
    requires LimitOk(p) && BucketOk(b, p)
    ensures BucketOk(Run(b, p, 1, now).0, p)
    ensures Level(Run(b, p, 1, now).0, p, now) == Level(b, p, now) - (if Run(b, p, 1, now).1.allowed then 1.0 else 0.0)
    ensures 0.0 <= Level(b, p, now) <= p.capacity as real
  {
    if b.Stored? {
      MulMonotone(0.0, Since(b.ts, now), p.refill);
    }
  }

  lemma RefillAdds(p: Limit, a: int, b: int)
    ensures Refilled(p, a + b) == Refilled(p, a) + Refilled(p, b)
    ensures Refilled(p, 0) == 0.0
    ensures Refilled(p, p.ttl * 1000) == p.refill * p.ttl as real
  {
  }

  lemma MulMonotone(a: real, b: real, c: real)
    requires a <= b && 0.0 <= c
    ensures a * c <= b * c
  {
  }

  lemma RefillOf(p: Limit, ms: int)
    ensures Refilled(p, ms) == ms as real / 1000.0 * p.refill
  {
  }

  function Up(from: int, to: int): int { if from <= to then to - from else 0 }

  /** The level rises no faster than the refill of the time by which the clock moves up, also across the
      expiry, provided the bucket is full by then. */
  lemma RisesSlowly(b: Bucket, p: Limit, later: int)
    requires LimitOk(p) && BucketOk(b, p) && b.Stored? && p.capacity as real <= p.refill * p.ttl as real
    ensures Level(b, p, later) <= Level(b, p, b.ts) + Refilled(p, Up(b.ts, later))
  {
    var seconds := Since(b.ts, later);
    MulMonotone(0.0, seconds, p.refill);
    RefillOf(p, Up(b.ts, later));
    assert Since(b.ts, b.ts) * p.refill == 0.0;
    assert Level(b, p, b.ts) == b.tokens;
    if !Alive(b, later) {
      assert p.ttl as real <= seconds;
      MulMonotone(p.ttl as real, seconds, p.refill);
      assert p.capacity as real <= Refilled(p, Up(b.ts, later));
    }
  }

  lemma {:induction false} AfterOk(p: Limit, times: seq<int>)
    requires LimitOk(p)
    ensures BucketOk(After(Missing, p, times), p)
    ensures times != [] ==> After(Missing, p, times).Stored? && After(Missing, p, times).ts == times[|times| - 1]
    decreases |times|
  {
    if times != [] {
      AfterOk(p, times[..|times| - 1]);
      RunKeeps(After(Missing, p, times[..|times| - 1]), p, times[|times| - 1]);
    }
  }

  /** All upward moves of the clock from the i-th call on. */
  function Ups(times: seq<int>, i: nat): int {
    if |times| <= i + 1 then 0 else Ups(times[..|times| - 1], i) + Up(times[|times| - 2], times[|times| - 1])
  }

  /** What was let through and what is left never exceed a full bucket and the refill of every upward
      move of the clock. */
  lemma {:induction false} Budget(p: Limit, times: seq<int>, i: nat)
    requires LimitOk(p) && i < |times| && p.capacity as real <= p.refill * p.ttl as real
    ensures Allowed(Missing, p, times, i) as real + Level(After(Missing, p, times), p, times[|times| - 1])
            <= p.capacity as real + Refilled(p, Ups(times, i))
    decreases |times|
  {
    hide Level, Run, Refilled;
    RefillAdds(p, 0, 0);
    var init, last := times[..|times| - 1], times[|times| - 1];
    var before := After(Missing, p, init);
    AfterOk(p, init);
    RunKeeps(before, p, last);
    if i < |init| {
      Budget(p, init, i);
      RisesSlowly(before, p, last);
      RefillAdds(p, Ups(init, i), Up(init[|init| - 1], last));
    }
  }

  /** Whatever the clock does: the calls from the i-th on let through no more than a full bucket and what
      is refilled over all its upward moves. */
  ghost predicate UpwardOk(p: Limit, times: seq<int>, i: nat) {
    i < |times| ==> Allowed(Missing, p, times, i) as real <= p.capacity as real + Refilled(p, Ups(times, i))
  }

  lemma UpwardBound(p: Limit, times: seq<int>, i: nat)
    requires LimitOk(p) && p.capacity as real <= p.refill * p.ttl as real
    ensures UpwardOk(p, times, i)
  {
    if i < |times| {
      Budget(p, times, i);
      AfterOk(p, times);
      RunKeeps(After(Missing, p, times), p, times[|times| - 1]);
    }
  }

  lemma {:induction false} SortedUps(times: seq<int>, i: nat)
    requires Sorted(times) && i < |times|
    ensures Ups(times, i) == times[|times| - 1] - times[i]
    decreases |times|
  {
    if i + 1 < |times| {
      SortedUps(times[..|times| - 1], i);
    }
  }

  lemma WindowBound(p: Limit, times: seq<int>, i: nat)
    requires LimitOk(p) && Sorted(times) && p.capacity as real <= p.refill * p.ttl as real
    ensures WindowOk(p, times, i)
  {
    if i < |times| {
      UpwardBound(p, times, i);
      SortedUps(times, i);
    }
  }

  /** n calls at one moment, on top of others. */
  function Burst(times: seq<int>, n: nat, now: int): (out: seq<int>)
    ensures |out| == |times| + n
    ensures forall i :: 0 <= i < |out| ==> out[i] == if i < |times| then times[i] else now
  {
    if n == 0 then times else Burst(times, n - 1, now) + [now]
  }

  /** A call that finds a token takes it. */
  lemma OneMorePasses(p: Limit, times: seq<int>, now: int)
    requires LimitOk(p) && 1.0 <= Level(After(Missing, p, times), p, now)
    ensures Allowed(Missing, p, times + [now], 0) == Allowed(Missing, p, times, 0) + 1
    ensures Level(After(Missing, p, times + [now]), p, now) == Level(After(Missing, p, times), p, now) - 1.0
  {
    var before := After(Missing, p, times);
    AfterOk(p, times);
    RunKeeps(before, p, now);
    assert Run(before, p, 1, now).1.allowed;
    assert (times + [now])[..|times|] == times;
  }

  /** A burst no larger than the level is let through whole. */
  lemma {:induction false} BurstPasses(p: Limit, times: seq<int>, n: nat, now: int)
    requires LimitOk(p) && n as real <= Level(After(Missing, p, times), p, now)
    ensures Allowed(Missing, p, Burst(times, n, now), 0) == Allowed(Missing, p, times, 0) + n
    ensures Level(After(Missing, p, Burst(times, n, now)), p, now) == Level(After(Missing, p, times), p, now) - n as real
    decreases n
  {
    hide Level, After, Allowed;
    if 0 < n {
      BurstPasses(p, times, n - 1, now);
      OneMorePasses(p, Burst(times, n - 1, now), now);
    }
  }

  lemma FullWithoutCalls(p: Limit, now: int)
    ensures Level(After(Missing, p, []), p, now) == p.capacity as real
    ensures Allowed(Missing, p, [], 0) == 0
  {
  }

  lemma FullAtExpiry(p: Limit, times: seq<int>)
    requires LimitOk(p) && times != []
    ensures Level(After(Missing, p, times), p, times[|times| - 1] + p.ttl * 1000) == p.capacity as real
  {
    AfterOk(p, times);
  }

  /** A full burst, silence until the key expires, and another full burst. */
  lemma TwoBursts(p: Limit)
    requires LimitOk(p) && p.refill * p.ttl as real < p.capacity as real
    ensures exists times :: Sorted(times) && !WindowOk(p, times, 0)
  {
    hide After, Allowed, Level, Refilled, Burst;
    var end := p.ttl * 1000;
    var first := Burst([], p.capacity, 0);
    FullWithoutCalls(p, 0);
    BurstPasses(p, [], p.capacity, 0);
    FullAtExpiry(p, first);
    var both := Burst(first, p.capacity, end);
    BurstPasses(p, first, p.capacity, end);
    RefillAdds(p, 0, 0);
    assert both[0] == 0 && both[|both| - 1] == end;
    assert Sorted(both) && !WindowOk(p, both, 0);
  }

  /** With a clock that does not go back, every window of every sequence of calls stays within capacity
      plus refill if and only if an idle bucket is full again by the time its key expires. */
  lemma WindowBoundIff(p: Limit)
    requires LimitOk(p)
    ensures p.capacity as real <= p.refill * p.ttl as real <==> forall times, i :: Sorted(times) ==> WindowOk(p, times, i)
  {
    if p.capacity as real <= p.refill * p.ttl as real {
      forall times, i | Sorted(times) ensures WindowOk(p, times, i) {
        WindowBound(p, times, i);
      }
    } else {
      TwoBursts(p);
    }
  }

  /** The same with any clock, counting every upward move. */
  lemma UpwardBoundIff(p: Limit)
    requires LimitOk(p)
    ensures p.capacity as real <= p.refill * p.ttl as real <==> forall times, i :: UpwardOk(p, times, i)
  {
    if p.capacity as real <= p.refill * p.ttl as real {
      forall times, i ensures UpwardOk(p, times, i) {
        UpwardBound(p, times, i);
      }
    } else {
      TwoBursts(p);
      var times :| Sorted(times) && !WindowOk(p, times, 0);
      SortedUps(times, 0);
      assert !UpwardOk(p, times, 0);
    }
  }

  /** A clock that goes back and forth does refill the same second twice: more than its first and last
      reading allow, and all that its upward moves allow. */
  lemma BackwardClock()
    ensures var p, times := Limit(1, 1.0, 3600), [1000, 0, 1000, 0, 1000];
            && p.capacity as real <= p.refill * p.ttl as real && !WindowOk(p, times, 0)
            && Allowed(Missing, p, times, 0) as real == p.capacity as real + Refilled(p, Ups(times, 0))
  {
    var p := Limit(1, 1.0, 3600);
    var times := [1000, 0, 1000, 0, 1000];
    assert After(Missing, p, times[..0]) == Missing && Allowed(Missing, p, times[..0], 0) == 0;
    assert times[..1][..0] == times[..0] && After(Missing, p, times[..1]) == Stored(0.0, 1000, 3601000);
    assert times[..2][..1] == times[..1] && After(Missing, p, times[..2]) == Stored(0.0, 0, 3600000);
    assert times[..3][..2] == times[..2] && After(Missing, p, times[..3]) == Stored(0.0, 1000, 3601000);
    assert times[..4][..3] == times[..3] && After(Missing, p, times[..4]) == Stored(0.0, 0, 3600000);
    assert Allowed(Missing, p, times[..1], 0) == 1;
    assert Allowed(Missing, p, times[..2], 0) == 1;
    assert Allowed(Missing, p, times[..3], 0) == 2;
    assert Allowed(Missing, p, times[..4], 0) == 2;
    assert times[..5] == times && times[..5][..4] == times[..4];
    assert Ups(times[..2], 0) == 0 && Ups(times[..3], 0) == 1000 && Ups(times[..4], 0) == 1000;
  }

  // ---------- How long to wait ----------

  lemma CeilIsLeast(x: real, w: int)
    ensures Ceil(x) <= w <==> x <= w as real
  {
  }

  /** The answer to a refused caller is exact: with nobody else taking tokens, the same request after a
      whole wait of w milliseconds succeeds if and only if w is at least the answer, or so long that
      the key has expired. */
  lemma RetryAfterIsExact(b: Bucket, p: Limit, requested: int, now: int, w: int)
    requires LimitOk(p) && BucketOk(b, p) && 0.0 < p.refill && 0 < requested <= p.capacity && 0 <= w
    requires !Run(b, p, requested, now).1.allowed
    ensures var (after, reply) := Run(b, p, requested, now);
            && 0 < reply.retryAfter
            && (Run(after, p, requested, now + w).1.allowed <==> reply.retryAfter <= w || p.ttl * 1000 <= w)
  {
    var level := Level(b, p, now);
    var wait := (requested as real - level) / p.refill * 1000.0;
    CeilIsLeast(wait, w);
    CeilIsLeast(wait, 0);
    WaitIsEnough(requested as real - level, p.refill, w as real);
    var after := Run(b, p, requested, now).0;
    if w < p.ttl * 1000 {
      assert Level(after, p, now + w) == Min(p.capacity as real, level + w as real / 1000.0 * p.refill);
    }
  }

  lemma WaitIsEnough(missing: real, refill: real, w: real)
    requires 0.0 < missing && 0.0 < refill
    ensures missing / refill * 1000.0 <= w <==> missing <= w / 1000.0 * refill
    ensures 0.0 < missing / refill * 1000.0
  {
    var q := missing / refill;
    assert q * refill == missing;
    if q <= w / 1000.0 {
      MulMonotone(q, w / 1000.0, refill);
    } else {
      assert (q - w / 1000.0) * refill > 0.0;
    }
  }

  /** Without any refill the answer is 0, and only the expiry helps. */
  lemma NoRefillNoHint(b: Bucket, p: Limit, now: int, w: int)
    requires LimitOk(p) && BucketOk(b, p) && p.refill == 0.0 && 0 <= w
    requires !Run(b, p, 1, now).1.allowed
    ensures var (after, reply) := Run(b, p, 1, now);
            reply.retryAfter == 0 && (Run(after, p, 1, now + w).1.allowed <==> p.ttl * 1000 <= w)
  {
    var after := Run(b, p, 1, now).0;
    assert Since(after.ts, now + w) * p.refill == 0.0;
  }

  // ---------- As it runs ----------

  /** Redis: one hash per key, and the script, which no other command can interrupt. */
  class Redis {
    var buckets: map<string, Bucket>

    constructor ()
      ensures buckets == map[]
    {
      buckets := map[];
    }

    function At(key: string): Bucket
      reads this
    {
      if key in buckets then buckets[key] else Missing
    }

    /** The script, line by line. */
    method TokenBucketScript(key: string, capacity: int, refill: real, requested: int, ttl: int, now: int)
      returns (allowed: bool, retryAfter: int)
      modifies this
      ensures (At(key), Reply(allowed, retryAfter)) == Run(old(At(key)), Limit(capacity, refill, ttl), requested, now)
      ensures forall k :: k != key ==> At(k) == old(At(k))
    {
      var tokens, ts := capacity as real, now;
      if key in buckets && Alive(buckets[key], now) {
        tokens, ts := buckets[key].tokens, buckets[key].ts;
      }
      var elapsed := Since(ts, now);
      assert key !in buckets ==> elapsed * refill == 0.0;
      tokens := Min(capacity as real, tokens + elapsed * refill);
      assert tokens == Level(At(key), Limit(capacity, refill, ttl), now);
      allowed, retryAfter := false, 0;
      if requested as real <= tokens {
        tokens := tokens - requested as real;
        allowed := true;
      } else {
        var missing := requested as real - tokens;
        if 0.0 < refill {
          retryAfter := Ceil(missing / refill * 1000.0);
        }
      }
      buckets := buckets[key := Stored(tokens, now, now + ttl * 1000)];
    }

    /** One token, of a bucket that lives an hour. */
    method Allow(key: string, capacity: int, refill: real, now: int) returns (r: Result<Reply, string>)
      modifies this
      ensures capacity <= 0 ==> r.Failure? && buckets == old(buckets)
      ensures 0 < capacity ==> (At(key), r) == (Run(old(At(key)), Limit(capacity, refill, 3600), 1, now).0,
                                                Success(Run(old(At(key)), Limit(capacity, refill, 3600), 1, now).1))
      ensures forall k :: k != key ==> At(k) == old(At(k))
    {
      if capacity <= 0 {
        return Failure("capacity");
      }
      var allowed, retryAfter := TokenBucketScript(key, capacity, refill, 1, 3600, now);
      return Success(Reply(allowed, retryAfter));
    }
  }
}
