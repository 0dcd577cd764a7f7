/** The Redis token bucket of internal/security/rateLimiter.go and the Retry-After
    arithmetic of internal/middleware/rateLimitMiddleware.go.  Times are milliseconds
    unless a name says otherwise. */
module TokenBucket {
  import opened Arith
  import opened Text
  import opened Wrappers

  /** Arguments the script receives besides the key and the clock. */
  datatype Params = Params(capacity: int, rate: int, period: int)

  /** The hash stored under one key. */
  datatype Bucket = Bucket(tokens: int, ts: int)

  /** A stored hash together with the Redis time up to which the key lives. */
  datatype Entry = Entry(bucket: Bucket, expireAt: int)

  datatype Reply = Reply(allowed: bool, remaining: int, resetAt: int)

  /** What every call that reaches Redis with a period of at least one millisecond satisfies. */
  predicate Limiting(p: Params) {
    p.capacity > 0 && p.rate > 0 && p.period > 0
  }

  predicate WellFormed(p: Params, b: Bucket) {
    0 <= b.tokens <= p.capacity
  }

  // ---- the script ----

  /** floor(delta * rate / period).  Lua divides floating-point numbers, so a zero period
      gives NaN (credited as nothing) for delta = 0 and infinity (a full bucket) otherwise. */
  function Credit(p: Params, delta: int): int {
    if p.period <= 0 then (if delta > 0 then p.capacity else 0) else delta * p.rate / p.period
  }

  function Min(a: int, b: int): int { if a <= b then a else b }

  function Loaded(p: Params, stored: Option<Bucket>, now: int): Bucket {
    if stored.None? then Bucket(p.capacity, now)
    else if now < stored.value.ts then stored.value.(ts := now)
    else stored.value
  }

  function Refilled(p: Params, b: Bucket, now: int): Bucket {
    var refill := Credit(p, now - b.ts);
    if refill > 0 then Bucket(Min(p.capacity, b.tokens + refill), now) else b
  }

  function Serve(p: Params, stored: Option<Bucket>, now: int): (Bucket, Reply) {
    var b := Refilled(p, Loaded(p, stored, now), now);
    var left := if b.tokens > 0 then b.tokens - 1 else b.tokens;
    (Bucket(left, b.ts), Reply(b.tokens > 0, left, b.ts + p.period))
  }

  /** Redis drops a key once its clock is past the expiry time. */
  function Live(e: Option<Entry>, clock: int): Option<Bucket> {
    if e.Some? && clock <= e.value.expireAt then Some(e.value.bucket) else None
  }

  /** The entry PEXPIRE leaves behind: a non-positive lifetime deletes the key. */
  function Kept(p: Params, b: Bucket, clock: int): Option<Entry> {
    if p.period <= 0 then None else Some(Entry(b, clock + 2 * p.period))
  }

  // ---- the limiter object ----

  datatype RateLimit = RateLimit(allowed: bool, remaining: int, resetAtUnix: int, limit: int)
  datatype Answer = Answered(result: RateLimit) | Refused(error: string, limit: int)

  function Unix(resetAtMs: int, nowUnix: int, periodNs: int): int {
    var r := if resetAtMs >= 0 then resetAtMs / 1000 else -((-resetAtMs) / 1000);
    if r <= 0 then nowUnix + periodNs / 1_000_000_000 else r
  }

  /** A reset time in the first second of the epoch, or before it, is replaced by one a period
      ahead. */
  lemma UnixIsTheSecond(resetAtMs: int, nowUnix: int, periodNs: int)
    ensures var u := Unix(resetAtMs, nowUnix, periodNs);
            if resetAtMs >= 1000 then 1000 * u <= resetAtMs < 1000 * (u + 1)
            else u == nowUnix + periodNs / NS_PER_S
  {
  }

  class TokenBucketLimiter {
    const prefix: string
    const capacity: int
    const refillRate: int
    const refillPeriodNs: int
    var store: map<string, Entry>

    ghost predicate Valid() reads this {
      capacity > 0 && refillRate > 0 && refillPeriodNs > 0
    }

    constructor (prefix: string, capacity: int, refillRate: int, refillPeriodNs: int)
      requires capacity > 0 && refillRate > 0 && refillPeriodNs > 0
      ensures Valid() && store == map[]
      ensures this.capacity == capacity && this.refillRate == refillRate && this.refillPeriodNs == refillPeriodNs
    {
      this.prefix := prefix;
      this.capacity := capacity;
      this.refillRate := refillRate;
      this.refillPeriodNs := refillPeriodNs;
      store := map[];
    }

    function Lookup(k: string): Option<Entry> reads this {
      if k in store then Some(store[k]) else None
    }

    /** Whatever is not positive is replaced by the limiter's own. */
    function EffectiveParams(cap: int, rate: int, periodNs: int): (p: Params)
      reads this
      requires Valid()
      ensures p.capacity > 0 && p.rate > 0 && p.period >= 0
      ensures cap > 0 ==> p.capacity == cap
      ensures rate > 0 ==> p.rate == rate
      ensures periodNs > 0 ==> p.period * 1_000_000 <= periodNs < (p.period + 1) * 1_000_000
    {
      Params(if cap <= 0 then capacity else cap,
             if rate <= 0 then refillRate else rate,
             (if periodNs <= 0 then refillPeriodNs else periodNs) / 1_000_000)
    }

    /** The Lua script, line by line, under one key: `now` is the gateway's clock and
        `clock` the Redis server's. */
    method Eval(k: string, p: Params, now: int, clock: int) returns (reply: Reply)
      modifies this`store
      ensures var served := Serve(p, Live(old(Lookup(k)), clock), now);
              Lookup(k) == Kept(p, served.0, clock) && reply == served.1
      ensures forall other :: other != k ==> Lookup(other) == old(Lookup(other))
    {
      var tokens, ts := p.capacity, now;
      if k in store && clock <= store[k].expireAt {
        tokens, ts := store[k].bucket.tokens, store[k].bucket.ts;
      }
      if now < ts { ts := now; }
      var refill := Credit(p, now - ts);
      if refill > 0 {
        tokens := Min(p.capacity, tokens + refill);
        ts := now;
      }
      var allowed := false;
      if tokens > 0 {
        allowed := true;
        tokens := tokens - 1;
      }
      if p.period * 2 <= 0 {
        store := store - {k};
      } else {
        store := store[k := Entry(Bucket(tokens, ts), clock + p.period * 2)];
      }
      reply := Reply(allowed, tokens, ts + p.period);
    }

    method AllowCustom(rawKey: string, cap: int, rate: int, periodNs: int, nowMs: int, clock: int)
      returns (a: Answer)
      requires Valid()
      modifies this`store
      ensures a.Refused? <==> var key := Trim(rawKey); key == "" || |key| > 200 || '\r' in key || '\n' in key || '\t' in key || ' ' in key
      ensures a.Refused? ==> store == old(store) && a.limit == cap
      ensures a.Answered? ==>
        var k := prefix + Trim(rawKey);
        var p := EffectiveParams(cap, rate, periodNs);
        var (b, reply) := Serve(p, Live(old(Lookup(k)), clock), nowMs);
        && Lookup(k) == Kept(p, b, clock)
        && (forall other :: other != k ==> Lookup(other) == old(Lookup(other)))
        && a.result == RateLimit(reply.allowed, reply.remaining,
                              Unix(reply.resetAt, nowMs / 1000, if periodNs <= 0 then refillPeriodNs else periodNs),
                              p.capacity)
    {
      var key := Trim(rawKey);
      if key == "" {
        return Refused("rate limit key required", cap);
      }
      if |key| > 200 || '\r' in key || '\n' in key || '\t' in key || ' ' in key {
        return Refused("invalid rate limit key", cap);
      }
      var c, r, pn := cap, rate, periodNs;
      if c <= 0 { c := capacity; }
      if r <= 0 { r := refillRate; }
      if pn <= 0 { pn := refillPeriodNs; }
      var reply := Eval(prefix + key, Params(c, r, pn / 1_000_000), nowMs, clock);
      a := Answered(RateLimit(reply.allowed, reply.remaining, Unix(reply.resetAt, nowMs / 1000, pn), c));
    }
  }

  // ---- runs against one bucket that is never dropped ----

  function After(p: Params, b: Bucket, times: seq<int>): Bucket
    decreases |times|
  {
    if times == [] then b else After(p, Serve(p, Some(b), times[0]).0, times[1..])
  }

  function Admitted(p: Params, b: Bucket, times: seq<int>): nat
    decreases |times|
  {
    if times == [] then 0
    else
      var (next, reply) := Serve(p, Some(b), times[0]);
      (if reply.allowed then 1 else 0) + Admitted(p, next, times[1..])
  }

  /** Total forward movement of the clock readings, starting from `last`. */
  function Ascent(last: int, times: seq<int>): nat
    decreases |times|
  {
    if times == [] then 0
    else Forward(last, times[0]) + Ascent(times[0], times[1..])
  }

  function Last(last: int, times: seq<int>): int {
    if times == [] then last else times[|times| - 1]
  }

  predicate NonDecreasing(last: int, times: seq<int>)
    decreases |times|
  {
    times == [] || (last <= times[0] && NonDecreasing(times[0], times[1..]))
  }

  lemma CreditBounds(p: Params, d: int)
    requires Limiting(p) && d >= 0
    ensures 0 <= p.period * Credit(p, d) <= p.rate * d < p.period * Credit(p, d) + p.period
    ensures Credit(p, d) >= 0
  {
    QuotientBounds(d * p.rate, p.period);
    Monotone(p.rate, 0, d);
    QuotientAtLeast(p.period, 0, d * p.rate);
    Monotone(p.period, 0, Credit(p, d));
  }

  // ---- the admission bound ----

  /** What a bucket is worth at a clock reading, in token-periods: stored tokens plus time
      not yet turned into tokens. */
  function Worth(p: Params, b: Bucket, at: int): int {
    p.period * b.tokens + p.rate * (at - b.ts)
  }

  function Forward(last: int, now: int): nat {
    if now > last then now - last else 0
  }

  lemma LoadPays(p: Params, b: Bucket, last: int, now: int)
    requires Limiting(p) && b.ts <= last
    ensures var l := Loaded(p, Some(b), now);
            l.ts <= now && Worth(p, l, now) <= Worth(p, b, last) + p.rate * Forward(last, now)
  {
    var l := Loaded(p, Some(b), now);
    Distribute(p.rate, last - b.ts, Forward(last, now));
    Monotone(p.rate, now - l.ts, last - b.ts + Forward(last, now));
  }

  lemma RefillPays(p: Params, l: Bucket, now: int)
    requires Limiting(p) && WellFormed(p, l) && l.ts <= now
    ensures var r := Refilled(p, l, now);
            WellFormed(p, r) && r.ts <= now && Worth(p, r, now) <= Worth(p, l, now)
  {
    var r := Refilled(p, l, now);
    var c := Credit(p, now - l.ts);
    CreditBounds(p, now - l.ts);
    if c > 0 {
      Monotone(p.period, r.tokens, l.tokens + c);
      Distribute(p.period, l.tokens, c);
    }
  }

  /** One call never creates value: what it admits and what stays is paid for by what was
      there and by forward clock movement, however the clock jumps. */
  lemma StepPays(p: Params, b: Bucket, last: int, now: int)
    requires Limiting(p) && WellFormed(p, b) && b.ts <= last
    ensures var (next, reply) := Serve(p, Some(b), now);
            && WellFormed(p, next) && next.ts <= now
            && Worth(p, next, now) + p.period * (if reply.allowed then 1 else 0)
               <= Worth(p, b, last) + p.rate * Forward(last, now)
  {
    var l := Loaded(p, Some(b), now);
    var r := Refilled(p, l, now);
    LoadPays(p, b, last, now);
    RefillPays(p, l, now);
    Distribute(p.period, r.tokens, -1);
  }

  /** Admission bound for every run, with no assumption on the clock: what is admitted and
      what is left is at most what was there plus the rate times the clock's total ascent. */
  lemma {:induction false} AdmissionBound(p: Params, b: Bucket, last: int, times: seq<int>)
    requires Limiting(p) && WellFormed(p, b) && b.ts <= last
    ensures WellFormed(p, After(p, b, times)) && After(p, b, times).ts <= Last(last, times)
    ensures p.period * Admitted(p, b, times) + Worth(p, After(p, b, times), Last(last, times))
            <= Worth(p, b, last) + p.rate * Ascent(last, times)
    decreases |times|
  {
    if times != [] {
      StepPays(p, b, last, times[0]);
      var (next, reply) := Serve(p, Some(b), times[0]);
      AdmissionBound(p, next, times[0], times[1..]);
      assert Last(times[0], times[1..]) == Last(last, times);
      Distribute(p.period, if reply.allowed then 1 else 0, Admitted(p, next, times[1..]));
      Distribute(p.rate, Forward(last, times[0]), Ascent(times[0], times[1..]));
    }
  }

  lemma {:induction false} MonotoneAscent(last: int, times: seq<int>)
    requires NonDecreasing(last, times)
    ensures Ascent(last, times) == Last(last, times) - last
    decreases |times|
  {
    if times != [] {
      MonotoneAscent(times[0], times[1..]);
      assert Last(times[0], times[1..]) == Last(last, times);
    }
  }

  lemma SpentAndLeft(period: int, rate: int, cap: int, spent: int, left: int, elapsed: int)
    requires period > 0
    requires period * spent + period * left <= period * cap + rate * elapsed
    ensures spent + left <= cap + elapsed * rate / period
  {
    Distribute(period, spent, left);
    Distribute(period, spent + left, -cap);
    assert period * (spent + left - cap) <= elapsed * rate;
    QuotientAtLeast(period, spent + left - cap, elapsed * rate);
  }

  /** With a clock that never runs back, a bucket first used at `t0` has admitted, by `t`,
      at most its capacity plus the whole tokens of the elapsed time, although every refill
      rounds down on its own. */
  lemma AdmittedByTime(p: Params, t0: int, times: seq<int>)
    requires Limiting(p) && NonDecreasing(t0, times)
    ensures var b := Bucket(p.capacity, t0);
            Admitted(p, b, times) + After(p, b, times).tokens
            <= p.capacity + (After(p, b, times).ts - t0) * p.rate / p.period
    ensures Admitted(p, Bucket(p.capacity, t0), times)
            <= p.capacity + (Last(t0, times) - t0) * p.rate / p.period
  {
    var b := Bucket(p.capacity, t0);
    var e, n, t := After(p, b, times), Admitted(p, b, times), Last(t0, times);
    AdmissionBound(p, b, t0, times);
    MonotoneAscent(t0, times);
    assert p.rate * (t0 - t0) == 0;
    Distribute(p.rate, t - e.ts, e.ts - t0);
    SpentAndLeft(p.period, p.rate, p.capacity, n, e.tokens, e.ts - t0);
    Monotone(p.period, 0, e.tokens);
    Monotone(p.rate, 0, t - e.ts);
    SpentAndLeft(p.period, p.rate, p.capacity, n, 0, t - t0);
  }

  // ---- clocks that run back ----

  /** Readings of gateways whose clocks differ by at most `skew`: none is further back than that
      behind the one before. */
  predicate StepsBack(skew: nat, last: int, times: seq<int>)
    decreases |times|
  {
    times == [] || (times[0] >= last - skew && StepsBack(skew, times[0], times[1..]))
  }

  /** A run that begins at its first reading and does not end before it. */
  predicate SkewedRun(skew: nat, times: seq<int>) {
    times != [] && StepsBack(skew, times[0], times) && times[|times| - 1] >= times[0]
  }

  ghost predicate ToleratesSkew(p: Params, skew: nat)
    requires p.period > 0
  {
    forall times: seq<int> | SkewedRun(skew, times) ::
      Admitted(p, Bucket(p.capacity, times[0]), times)
      <= p.capacity + (times[|times| - 1] - times[0]) * p.rate / p.period
  }

  lemma {:induction false} NoStepBack(last: int, times: seq<int>)
    requires StepsBack(0, last, times)
    ensures NonDecreasing(last, times)
    decreases |times|
  {
    if times != [] { NoStepBack(times[0], times[1..]); }
  }

  /** `n` times a reading one millisecond back, and then one token's wait after that. */
  function Cycles(p: Params, t: int, n: nat): seq<int>
    requires p.rate > 0
    decreases n
  {
    if n == 0 then [] else [t - 1, t - 1 + CeilDiv(p.period, p.rate)] + Cycles(p, t - 1 + CeilDiv(p.period, p.rate), n - 1)
  }

  /** The step back moves the stored time back with it, so the way forward is paid for twice. */
  lemma CycleRefills(p: Params, b: Bucket) returns (b1: Bucket, b2: Bucket)
    requires Limiting(p) && WellFormed(p, b)
    ensures var t := b.ts - 1 + CeilDiv(p.period, p.rate);
            && b1 == Serve(p, Some(b), b.ts - 1).0
            && Serve(p, Some(b1), t) == (b2, Reply(true, b2.tokens, t + p.period))
            && WellFormed(p, b2) && b2.ts == t
  {
    b1 := Serve(p, Some(b), b.ts - 1).0;
    b2 := Serve(p, Some(b1), b.ts - 1 + CeilDiv(p.period, p.rate)).0;
    assert Credit(p, 0) == 0;
    OneTokenWait(p);
  }

  lemma CycleAdmits(p: Params, b: Bucket, n: nat) returns (next: Bucket)
    requires Limiting(p) && WellFormed(p, b) && n > 0
    ensures WellFormed(p, next)
    ensures Admitted(p, b, Cycles(p, b.ts, n)) >= 1 + Admitted(p, next, Cycles(p, next.ts, n - 1))
  {
    var b1;
    b1, next := CycleRefills(p, b);
    var t, u := b.ts - 1, next.ts;
    var rest := Cycles(p, u, n - 1);
    assert Cycles(p, b.ts, n) == [t, u] + rest == [t] + ([u] + rest);
    AdmittedStep(p, b, t, [u] + rest);
    AdmittedStep(p, b1, u, rest);
  }

  lemma OneTokenWait(p: Params)
    requires Limiting(p)
    ensures CeilDiv(p.period, p.rate) >= 1 && Credit(p, CeilDiv(p.period, p.rate)) >= 1
    ensures (CeilDiv(p.period, p.rate) - 1) * p.rate < p.period
  {
    var c := CeilDiv(p.period, p.rate);
    QuotientBounds(p.period + p.rate - 1, p.rate);
    QuotientAtLeast(p.rate, 1, p.period + p.rate - 1);
    Distribute(p.rate, c, -1);
    assert c * p.rate >= p.period;
    QuotientAtLeast(p.period, 1, c * p.rate);
  }

  lemma {:induction false} CyclesAdmit(p: Params, b: Bucket, n: nat)
    requires Limiting(p) && WellFormed(p, b)
    ensures Admitted(p, b, Cycles(p, b.ts, n)) >= n
    decreases n
  {
    if n > 0 {
      var next := CycleAdmits(p, b, n);
      CyclesAdmit(p, next, n - 1);
    }
  }

  lemma {:induction false} CyclesStepBack(p: Params, skew: nat, t: int, n: nat)
    requires Limiting(p) && skew >= 1
    ensures StepsBack(skew, t, Cycles(p, t, n))
    ensures Last(t, Cycles(p, t, n)) == t + Mul(n, CeilDiv(p.period, p.rate) - 1)
    decreases n
  {
    if n > 0 {
      var u := t - 1 + CeilDiv(p.period, p.rate);
      var rest := Cycles(p, u, n - 1);
      OneTokenWait(p);
      CyclesStepBack(p, skew, u, n - 1);
      assert ([t - 1, u] + rest)[1..] == [u] + rest && ([u] + rest)[1..] == rest;
      assert Last(t, [t - 1, u] + rest) == Last(u, rest);
    }
  }

  /** A full bucket drained at one moment, and what follows. */
  lemma {:induction false} DrainFirst(p: Params, k: nat, rest: seq<int>)
    requires Limiting(p) && k <= p.capacity
    ensures Admitted(p, Bucket(k, 0), Zeros(k) + rest) == k + Admitted(p, Bucket(0, 0), rest)
  {
    if k == 0 {
      assert Zeros(0) + rest == rest;
    } else {
      TakeOne(p, k, 0);
      assert Zeros(k) + rest == [0] + (Zeros(k - 1) + rest);
      AdmittedStep(p, Bucket(k, 0), 0, Zeros(k - 1) + rest);
      DrainFirst(p, k - 1, rest);
    }
  }

  lemma {:induction false} DrainStepsBack(skew: nat, n: nat, rest: seq<int>)
    requires StepsBack(skew, 0, rest)
    ensures StepsBack(skew, 0, Zeros(n) + rest)
    ensures Last(0, Zeros(n) + rest) == Last(0, rest)
  {
    if n == 0 {
      assert Zeros(0) + rest == rest;
    } else {
      DrainStepsBack(skew, n - 1, rest);
      assert Zeros(n) + rest == [0] + (Zeros(n - 1) + rest);
      assert ([0] + (Zeros(n - 1) + rest))[1..] == Zeros(n - 1) + rest;
    }
  }

  /** A drained bucket and as many cycles as a period has milliseconds. */
  function BackAndForth(p: Params): seq<int>
    requires Limiting(p)
  {
    Zeros(p.capacity) + Cycles(p, 0, p.period)
  }

  /** Clocks that differ at all refill the same bucket over and over: each cycle costs one
      millisecond less than it earns. */
  lemma SkewedClocksRefillTwice(p: Params, skew: nat)
    requires Limiting(p) && skew >= 1
    ensures var times := BackAndForth(p);
            && SkewedRun(skew, times)
            && Admitted(p, Bucket(p.capacity, times[0]), times)
               > p.capacity + (times[|times| - 1] - times[0]) * p.rate / p.period
  {
    var cycles, wait := Cycles(p, 0, p.period), CeilDiv(p.period, p.rate) - 1;
    var times := BackAndForth(p);
    OneTokenWait(p);
    CyclesStepBack(p, skew, 0, p.period);
    DrainStepsBack(skew, p.capacity, cycles);
    assert times[0] == 0 && Last(0, times) == times[|times| - 1];
    MulIsProduct(p.period, wait);
    Monotone(p.period, 0, wait);
    DrainFirst(p, p.capacity, cycles);
    CyclesAdmit(p, Bucket(0, 0), p.period);
    PaidByElapsed(p, wait);
  }

  lemma PaidByElapsed(p: Params, wait: int)
    requires Limiting(p) && wait * p.rate < p.period
    ensures (p.period * wait) * p.rate / p.period < p.period
  {
    assert (p.period * wait) * p.rate == p.period * (wait * p.rate);
    Monotone(p.period, wait * p.rate + 1, p.period);
    Distribute(p.period, wait * p.rate, 1);
    QuotientBelow(p.period, p.period, (p.period * wait) * p.rate);
  }

  /** The bound holds for gateways whose clocks differ by up to `skew` exactly if they do not
      differ, whatever the capacity, the rate and the period. */
  lemma SkewBoundIff(p: Params, skew: nat)
    requires Limiting(p)
    ensures ToleratesSkew(p, skew) <==> skew == 0
  {
    if skew == 0 {
      forall times: seq<int> | SkewedRun(0, times)
        ensures Admitted(p, Bucket(p.capacity, times[0]), times)
                <= p.capacity + (times[|times| - 1] - times[0]) * p.rate / p.period
      {
        NoStepBack(times[0], times);
        AdmittedByTime(p, times[0], times);
      }
    } else {
      SkewedClocksRefillTwice(p, skew);
      assert SkewedRun(skew, BackAndForth(p));
    }
  }

  lemma AdmittedStep(p: Params, b: Bucket, t: int, rest: seq<int>)
    ensures Admitted(p, b, [t] + rest)
            == (if Serve(p, Some(b), t).1.allowed then 1 else 0) + Admitted(p, Serve(p, Some(b), t).0, rest)
  {
    assert ([t] + rest)[1..] == rest;
  }

  // ---- expiry ----

  predicate Ordered(times: seq<int>) {
    forall i, j :: 0 <= i < j < |times| ==> times[i] <= times[j]
  }

  /** The stored key after a run on an unused key; Redis's clock agrees with the gateway's. */
  function Stored(p: Params, times: seq<int>): Option<Entry> {
    if times == [] then None
    else
      var now := times[|times| - 1];
      Kept(p, Serve(p, Live(Stored(p, times[..|times| - 1]), now), now).0, now)
  }

  /** The same run on a key that never expires. */
  function Lasting(p: Params, times: seq<int>): Option<Bucket> {
    if times == [] then None
    else Some(Serve(p, Lasting(p, times[..|times| - 1]), times[|times| - 1]).0)
  }

  /** Both give the same reply to the last call of a run. */
  ghost predicate SameReply(p: Params, times: seq<int>)
    requires times != []
  {
    var before, now := times[..|times| - 1], times[|times| - 1];
    Serve(p, Live(Stored(p, before), now), now).1 == Serve(p, Lasting(p, before), now).1
  }

  /** Capacity that two full periods of silence are sure to restore. */
  predicate RestoredBySilence(p: Params)
    requires p.period > 0
  {
    p.capacity <= 2 * p.rate + p.rate / p.period
  }

  lemma SilenceCredit(p: Params, d: int)
    requires Limiting(p) && d >= 2 * p.period + 1
    ensures Credit(p, d) >= 2 * p.rate + p.rate / p.period
    ensures d == 2 * p.period + 1 ==> Credit(p, d) == 2 * p.rate + p.rate / p.period
  {
    var q := p.rate / p.period;
    QuotientBounds(p.rate, p.period);
    Monotone(p.rate, 2 * p.period + 1, d);
    TwoPeriods(p.period, p.rate, q);
    QuotientAtLeast(p.period, 2 * p.rate + q, d * p.rate);
    if d == 2 * p.period + 1 {
      TwoPeriods(p.period, p.rate, q + 1);
      Distribute(p.period, q, 1);
      QuotientBelow(p.period, 2 * p.rate + (q + 1), d * p.rate);
    }
  }

  lemma TwoPeriods(period: int, rate: int, q: int)
    ensures period * (2 * rate + q) == 2 * (period * rate) + period * q
    ensures rate * (2 * period + 1) == 2 * (period * rate) + rate
  {
  }

  /** Once the key is gone, a fresh bucket and the refilled old one serve alike. */
  lemma ExpiredEqualsRefilled(p: Params, b: Bucket, last: int, now: int)
    requires Limiting(p) && WellFormed(p, b) && b.ts <= last && RestoredBySilence(p)
    requires now > last + 2 * p.period
    ensures Serve(p, None, now) == Serve(p, Some(b), now)
  {
    SilenceCredit(p, now - b.ts);
    assert Refilled(p, b, now) == Bucket(p.capacity, now);
    assert Credit(p, 0) == 0;
  }

  lemma {:induction false} ExpiryInvisible(p: Params, times: seq<int>)
    requires Limiting(p) && RestoredBySilence(p) && Ordered(times) && times != []
    ensures SameReply(p, times)
    ensures var b := Lasting(p, times).value;
            var last := times[|times| - 1];
            Stored(p, times) == Kept(p, b, last) && WellFormed(p, b) && b.ts <= last
  {
    var before, now := times[..|times| - 1], times[|times| - 1];
    if before == [] {
      assert Credit(p, 0) == 0;
    } else {
      ExpiryInvisible(p, before);
      var b, last := Lasting(p, before).value, before[|before| - 1];
      StepPays(p, b, last, now);
      if now > last + 2 * p.period {
        ExpiredEqualsRefilled(p, b, last, now);
      }
    }
  }

  function Zeros(n: nat): (z: seq<int>)
    ensures |z| == n && forall i :: 0 <= i < n ==> z[i] == 0
  {
    seq(n, _ => 0)
  }

  /** `n` simultaneous calls take `n` tokens, with or without expiry. */
  lemma {:induction false} Drain(p: Params, n: nat)
    requires Limiting(p) && 1 <= n <= p.capacity
    ensures Stored(p, Zeros(n)) == Kept(p, Bucket(p.capacity - n, 0), 0)
    ensures Lasting(p, Zeros(n)) == Some(Bucket(p.capacity - n, 0))
  {
    assert Zeros(n)[..n - 1] == Zeros(n - 1);
    TakeOne(p, p.capacity - n + 1, 0);
    if n > 1 {
      Drain(p, n - 1);
      assert Live(Stored(p, Zeros(n - 1)), 0) == Some(Bucket(p.capacity - n + 1, 0));
    }
  }

  lemma TakeOne(p: Params, k: nat, at: int)
    requires Limiting(p) && 1 <= k <= p.capacity
    ensures Serve(p, Some(Bucket(k, at)), at).0 == Bucket(k - 1, at) && Serve(p, Some(Bucket(k, at)), at).1.allowed
    ensures Serve(p, None, at).0 == Bucket(p.capacity - 1, at) && Serve(p, None, at).1.allowed
  {
    assert Credit(p, 0) == 0;
  }

  /** A drained bucket left alone for just over two periods: the key is gone, and the fresh
      bucket answers with a count the refilled one cannot reach. */
  lemma ExpiryShowsWhenOverCapacity(p: Params)
    requires Limiting(p) && !RestoredBySilence(p)
    ensures var times := Zeros(p.capacity) + [2 * p.period + 1];
            Ordered(times) && !SameReply(p, times)
  {
    var drained, later := Zeros(p.capacity), 2 * p.period + 1;
    Drain(p, p.capacity);
    assert Live(Stored(p, drained), later) == None;
    FreshCountsMore(p);
    assert (drained + [later])[..p.capacity] == drained;
  }

  lemma FreshCountsMore(p: Params)
    requires Limiting(p) && !RestoredBySilence(p)
    ensures Serve(p, None, 2 * p.period + 1).1.remaining != Serve(p, Some(Bucket(0, 0)), 2 * p.period + 1).1.remaining
  {
    assert Credit(p, 0) == 0;
    SilenceCredit(p, 2 * p.period + 1);
  }

  /** Expiry is invisible on every run exactly when the capacity is at most what two periods
      of silence restore. */
  lemma ExpiryInvisibleIff(p: Params)
    requires Limiting(p)
    ensures RestoredBySilence(p) <==> forall times: seq<int> | times != [] && Ordered(times) :: SameReply(p, times)
  {
    if RestoredBySilence(p) {
      forall times: seq<int> | times != [] && Ordered(times)
        ensures SameReply(p, times)
      {
        ExpiryInvisible(p, times);
      }
    } else {
      ExpiryShowsWhenOverCapacity(p);
    }
  }

  // ---- the admission bound on the stored key, expiry included ----

  /** Calls admitted in a run on an unused key that expires as the script says. */
  function AdmittedStored(p: Params, times: seq<int>): nat {
    if times == [] then 0
    else
      var before, now := times[..|times| - 1], times[|times| - 1];
      AdmittedStored(p, before) + if Serve(p, Live(Stored(p, before), now), now).1.allowed then 1 else 0
  }

  /** By the last call, no more is admitted than the capacity and the whole tokens of the time
      since the first. */
  ghost predicate BoundHolds(p: Params, times: seq<int>)
    requires p.period > 0 && times != []
  {
    AdmittedStored(p, times) <= p.capacity + (times[|times| - 1] - times[0]) * p.rate / p.period
  }

  /** `n` admitted calls and what the bucket is worth are paid for by the capacity and the time
      since the first call. */
  predicate PaidFor(p: Params, b: Bucket, n: int, first: int, last: int) {
    && WellFormed(p, b) && b.ts <= last
    && p.period * n + Worth(p, b, last) <= p.period * p.capacity + p.rate * (last - first)
  }

  lemma {:induction false} StoredRunPays(p: Params, times: seq<int>)
    requires Limiting(p) && RestoredBySilence(p) && Ordered(times) && times != []
    ensures PaidFor(p, Lasting(p, times).value, AdmittedStored(p, times), times[0], times[|times| - 1])
  {
    var before, now := times[..|times| - 1], times[|times| - 1];
    ExpiryInvisible(p, times);
    if before == [] {
      FirstCallPays(p, now);
      assert AdmittedStored(p, before) == 0;
    } else {
      StoredRunPays(p, before);
      LaterCallPays(p, Lasting(p, before).value, AdmittedStored(p, before), times[0], before[|before| - 1], now);
    }
  }

  lemma FirstCallPays(p: Params, now: int)
    requires Limiting(p)
    ensures Serve(p, None, now).1.allowed && PaidFor(p, Serve(p, None, now).0, 1, now, now)
  {
    TakeOne(p, p.capacity, now);
    Distribute(p.period, p.capacity - 1, 1);
  }

  lemma LaterCallPays(p: Params, b: Bucket, n: int, first: int, last: int, now: int)
    requires Limiting(p) && last <= now && PaidFor(p, b, n, first, last)
    ensures var served := Serve(p, Some(b), now);
            PaidFor(p, served.0, n + if served.1.allowed then 1 else 0, first, now)
  {
    StepPays(p, b, last, now);
    AddStep(p, n, n + if Serve(p, Some(b), now).1.allowed then 1 else 0, first, last, now);
  }

  lemma AddStep(p: Params, n: int, m: int, first: int, last: int, now: int)
    ensures p.period * m == p.period * n + p.period * (m - n)
    ensures p.rate * (now - first) == p.rate * (last - first) + p.rate * (now - last)
  {
    Distribute(p.period, n, m - n);
    Distribute(p.rate, last - first, now - last);
  }

  lemma StoredBoundHolds(p: Params, times: seq<int>)
    requires Limiting(p) && RestoredBySilence(p) && Ordered(times) && times != []
    ensures BoundHolds(p, times)
  {
    var b, last, n := Lasting(p, times).value, times[|times| - 1], AdmittedStored(p, times);
    StoredRunPays(p, times);
    Monotone(p.period, 0, b.tokens);
    Monotone(p.rate, 0, last - b.ts);
    SpentAndLeft(p.period, p.rate, p.capacity, n, 0, last - times[0]);
  }

  /** Draining the bucket, and `n` more calls just after the key is gone. */
  function DrainTwice(p: Params, n: nat): (times: seq<int>)
    requires p.capacity > 0
  {
    if n == 0 then Zeros(p.capacity) else DrainTwice(p, n - 1) + [2 * p.period + 1]
  }

  lemma {:induction false} DrainTwiceIsOrdered(p: Params, n: nat)
    requires Limiting(p)
    ensures var times := DrainTwice(p, n);
            && Ordered(times) && times != [] && times[0] == 0
            && times[|times| - 1] == if n == 0 then 0 else 2 * p.period + 1
  {
    if n > 0 { DrainTwiceIsOrdered(p, n - 1); }
  }

  lemma {:induction false} FirstDrain(p: Params, n: nat)
    requires Limiting(p) && n <= p.capacity
    ensures AdmittedStored(p, Zeros(n)) == n
  {
    if n > 0 {
      FirstDrain(p, n - 1);
      assert Zeros(n) == Zeros(n - 1) + [0];
      StoredStep(p, Zeros(n - 1), 0);
      TakeOne(p, p.capacity - n + 1, 0);
      if n > 1 { Drain(p, n - 1); }
    }
  }

  lemma StoredStep(p: Params, before: seq<int>, now: int)
    ensures var served := Serve(p, Live(Stored(p, before), now), now);
            && Stored(p, before + [now]) == Kept(p, served.0, now)
            && AdmittedStored(p, before + [now]) == AdmittedStored(p, before) + if served.1.allowed then 1 else 0
  {
    assert (before + [now])[..|before|] == before;
  }

  /** A run after which `k` tokens are left at `now`, or a full bucket because the key is gone. */
  predicate Drained(p: Params, times: seq<int>, now: int, admitted: nat, k: nat) {
    && AdmittedStored(p, times) == admitted
    && Live(Stored(p, times), now) == if k == p.capacity then None else Some(Bucket(k, now))
  }

  lemma DrainOne(p: Params, before: seq<int>, now: int, admitted: nat, k: nat)
    requires Limiting(p) && 1 <= k <= p.capacity && Drained(p, before, now, admitted, k)
    ensures Drained(p, before + [now], now, admitted + 1, k - 1)
  {
    StoredStep(p, before, now);
    TakeOne(p, k, now);
  }

  lemma SecondDrainBegins(p: Params)
    requires Limiting(p)
    ensures Drained(p, Zeros(p.capacity), 2 * p.period + 1, p.capacity, p.capacity)
  {
    FirstDrain(p, p.capacity);
    Drain(p, p.capacity);
  }

  lemma {:induction false} SecondDrain(p: Params, n: nat)
    requires Limiting(p) && n <= p.capacity
    ensures Drained(p, DrainTwice(p, n), 2 * p.period + 1, p.capacity + n, p.capacity - n)
  {
    if n == 0 {
      SecondDrainBegins(p);
    } else {
      SecondDrain(p, n - 1);
      DrainOne(p, DrainTwice(p, n - 1), 2 * p.period + 1, p.capacity + n - 1, p.capacity - n + 1);
    }
  }

  /** With more capacity than silence restores, expiry hands out tokens that time has not paid
      for: twice the capacity within two periods and a millisecond. */
  lemma ExpiryBreaksTheBound(p: Params)
    requires Limiting(p) && !RestoredBySilence(p)
    ensures Ordered(DrainTwice(p, p.capacity)) && !BoundHolds(p, DrainTwice(p, p.capacity))
  {
    DrainTwiceIsOrdered(p, p.capacity);
    SecondDrain(p, p.capacity);
    SilenceCredit(p, 2 * p.period + 1);
  }

  /** The admission bound of the limiter as deployed: every run keeps it exactly when two
      periods of silence restore the capacity. */
  lemma AdmissionBoundIff(p: Params)
    requires Limiting(p)
    ensures RestoredBySilence(p) <==> forall times: seq<int> | times != [] && Ordered(times) :: BoundHolds(p, times)
  {
    if RestoredBySilence(p) {
      forall times: seq<int> | times != [] && Ordered(times)
        ensures BoundHolds(p, times)
      {
        StoredBoundHolds(p, times);
      }
    } else {
      ExpiryBreaksTheBound(p);
    }
  }

  // ---- a period of zero ----

  ghost predicate AdmitsEverything(p: Params) {
    forall times: seq<int> | Ordered(times) :: AdmittedStored(p, times) == |times|
  }

  /** No run leaves a key behind, so every call finds a full bucket. */
  lemma {:induction false} ZeroPeriodAdmitsAll(p: Params, times: seq<int>)
    requires p.capacity > 0 && p.period == 0
    ensures Stored(p, times) == None && AdmittedStored(p, times) == |times|
  {
    if times != [] { ZeroPeriodAdmitsAll(p, times[..|times| - 1]); }
  }

  /** A period below one millisecond reaches the script as zero and turns limiting off; nothing
      else does. */
  lemma AdmitsEverythingIff(p: Params)
    requires p.capacity > 0 && p.rate > 0 && p.period >= 0
    ensures AdmitsEverything(p) <==> p.period == 0
  {
    if p.period == 0 {
      forall times: seq<int> | Ordered(times) ensures AdmittedStored(p, times) == |times| {
        ZeroPeriodAdmitsAll(p, times);
      }
    } else {
      OneTooMany(p);
      assert Ordered(Zeros(p.capacity) + [0]);
    }
  }

  lemma OneTooMany(p: Params)
    requires Limiting(p)
    ensures AdmittedStored(p, Zeros(p.capacity) + [0]) == p.capacity
  {
    FirstDrain(p, p.capacity);
    Drain(p, p.capacity);
    StoredStep(p, Zeros(p.capacity), 0);
    assert Live(Stored(p, Zeros(p.capacity)), 0) == Some(Bucket(0, 0));
    EmptyIsDenied(p);
  }

  lemma EmptyIsDenied(p: Params)
    requires Limiting(p)
    ensures !Serve(p, Some(Bucket(0, 0)), 0).1.allowed
  {
    assert Credit(p, 0) == 0;
  }

  // ---- no starvation ----

  function CeilDiv(a: int, b: int): int
    requires b > 0
  {
    (a + b - 1) / b
  }

  /** An empty bucket serves a call exactly when the wait covers one token. */
  lemma DueIff(p: Params, b: Bucket, now: int)
    requires Limiting(p) && b.tokens == 0 && b.ts <= now
    ensures Serve(p, Some(b), now).1.allowed <==> now - b.ts >= CeilDiv(p.period, p.rate)
    ensures !Serve(p, Some(b), now).1.allowed ==> Serve(p, Some(b), now).0 == b
  {
    var d := now - b.ts;
    CreditBounds(p, d);
    QuotientBounds(p.period + p.rate - 1, p.rate);
    var w := CeilDiv(p.period, p.rate);
    if d >= w {
      Monotone(p.rate, w, d);
      QuotientAtLeast(p.period, 1, d * p.rate);
    } else {
      Monotone(p.rate, d, w - 1);
      Distribute(p.rate, w, -1);
      QuotientBelow(p.period, 1, d * p.rate);
    }
  }

  /** Polling early costs nothing: denied calls leave the stored time alone, so after any
      number of them the first call at or after one token's wait is served. */
  lemma {:induction false} PollingNeverStarves(p: Params, b: Bucket, polls: seq<int>, now: int)
    requires Limiting(p) && b.tokens == 0
    requires forall t <- polls :: b.ts <= t < b.ts + CeilDiv(p.period, p.rate)
    requires now >= b.ts
    ensures After(p, b, polls) == b && Admitted(p, b, polls) == 0
    ensures Serve(p, Some(After(p, b, polls)), now).1.allowed <==> now - b.ts >= CeilDiv(p.period, p.rate)
    decreases |polls|
  {
    DueIff(p, b, now);
    if polls != [] {
      var t := polls[0];
      assert t in polls;
      DueIff(p, b, t);
      assert forall u <- polls[1..] :: u in polls;
      PollingNeverStarves(p, b, polls[1..], now);
    }
  }

  /** Tokens credited over a run, and the part the capacity cut off. */
  function Credited(p: Params, b: Bucket, times: seq<int>): int
    decreases |times|
  {
    if times == [] then 0
    else
      var c := Credit(p, times[0] - Loaded(p, Some(b), times[0]).ts);
      (if c > 0 then c else 0) + Credited(p, Serve(p, Some(b), times[0]).0, times[1..])
  }

  function CutOff(p: Params, b: Bucket, times: seq<int>): int
    decreases |times|
  {
    if times == [] then 0
    else
      var c := Credit(p, times[0] - Loaded(p, Some(b), times[0]).ts);
      (if c > 0 && b.tokens + c > p.capacity then b.tokens + c - p.capacity else 0)
      + CutOff(p, Serve(p, Some(b), times[0]).0, times[1..])
  }

  /** Every credited token is admitted, still stored, or cut off by the capacity. */
  lemma {:induction false} CreditAccounting(p: Params, b: Bucket, times: seq<int>)
    requires Limiting(p) && WellFormed(p, b)
    ensures b.tokens + Credited(p, b, times)
            == Admitted(p, b, times) + After(p, b, times).tokens + CutOff(p, b, times)
    decreases |times|
  {
    if times != [] {
      StepPays(p, b, if b.ts > times[0] then b.ts else times[0], times[0]);
      CreditAccounting(p, Serve(p, Some(b), times[0]).0, times[1..]);
    }
  }

  /** Rounding at most halves the refill: over any run on an ordered clock, the credited
      tokens are worth at least half the time they were credited for. */
  lemma {:induction false} RoundingLosesAtMostHalf(p: Params, b: Bucket, times: seq<int>)
    requires Limiting(p) && WellFormed(p, b) && NonDecreasing(b.ts, times)
    ensures p.rate * (After(p, b, times).ts - b.ts) <= 2 * (p.period * Credited(p, b, times))
    decreases |times|
  {
    if times == [] {
      assert p.rate * 0 == 0;
    } else {
      var now := times[0];
      var d := now - b.ts;
      var c := Credit(p, d);
      var next := Serve(p, Some(b), now).0;
      StepPays(p, b, now, now);
      OrderedFrom(next.ts, now, times[1..]);
      RoundingLosesAtMostHalf(p, next, times[1..]);
      if c > 0 {
        CreditBounds(p, d);
        Monotone(p.period, 1, c);
        assert next.ts == now;
        Distribute(p.rate, d, After(p, b, times).ts - now);
        Distribute(p.period, c, Credited(p, next, times[1..]));
      }
    }
  }

  lemma OrderedFrom(a: int, b: int, times: seq<int>)
    requires a <= b && NonDecreasing(b, times)
    ensures NonDecreasing(a, times)
  {
  }

  // ---- Retry-After ----

  const NS_PER_MS := 1_000_000
  const NS_PER_S := 1_000_000_000

  /** Header value, in whole seconds, computed at `nowNs`; 0 means no header. */
  function RetryAfterSeconds(nowNs: int, resetAtUnix: int): int {
    if resetAtUnix <= 0 then 0
    else
      var d := resetAtUnix * NS_PER_S - nowNs;
      if d <= 0 then 0
      else if d / NS_PER_S <= 0 then 1
      else d / NS_PER_S
  }

  /** Millisecond at which a client that obeys the header comes back. */
  function Comeback(resetAtUnix: int, nowNs: int): int {
    (nowNs + RetryAfterSeconds(nowNs, resetAtUnix) * NS_PER_S) / NS_PER_MS
  }

  /** The least time, counted from the stored timestamp, after which a client that obeys the
      header is back: two truncations lose up to 1999 ms, a wait of at least a second is never
      reported as less than one, and a reset time already past is not reported at all. */
  function Margin(period: int): int {
    if period < 1000 then 0
    else if period < 2000 then period - 999
    else if period < 2999 then 1000
    else period - 1999
  }

  /** A call that finds this bucket and is denied. */
  predicate Denied(p: Params, b: Bucket, at: int) {
    1000 <= at && 1000 <= b.ts && WellFormed(p, b) && !Serve(p, Some(b), at).1.allowed
  }

  /** The reset time the denied caller is told, in whole seconds. */
  function ToldReset(p: Params, b: Bucket, at: int, periodNs: int): int {
    Unix(Serve(p, Some(b), at).1.resetAt, at / 1000, periodNs)
  }

  /** What a denial leaves: an empty bucket, and the time of its full refill. */
  lemma DenialLeavesEmpty(p: Params, b: Bucket, at: int) returns (ts: int)
    requires Limiting(p) && Denied(p, b, at)
    ensures 1000 <= ts <= at && Serve(p, Some(b), at) == (Bucket(0, ts), Reply(false, 0, ts + p.period))
    ensures forall periodNs :: ToldReset(p, b, at, periodNs) == (ts + p.period) / 1000
  {
    ts := Loaded(p, Some(b), at).ts;
  }

  lemma ComebackBound(p: Params, b: Bucket, at: int, periodNs: int, nowNs: int) returns (ts: int)
    requires Limiting(p) && Denied(p, b, at) && at * NS_PER_MS <= nowNs
    ensures Serve(p, Some(b), at).0 == Bucket(0, ts)
    ensures Comeback(ToldReset(p, b, at, periodNs), nowNs) - ts >= Margin(p.period)
  {
    ts := DenialLeavesEmpty(p, b, at);
    WaitIsLong(p.period, ts, nowNs);
  }

  lemma WaitIsLong(period: int, ts: int, nowNs: int)
    requires period > 0 && 1000 <= ts && ts * NS_PER_MS <= nowNs
    ensures Comeback((ts + period) / 1000, nowNs) - ts >= Margin(period)
  {
  }

  /** The client of a call denied in the millisecond of `nowNs`, told its reset time by the
      answer and its wait by the header computed at `nowNs`, is served when it comes back.  The
      key lives two periods from the denial. */
  predicate ServedOnReturn(p: Params, b: Bucket, periodNs: int, nowNs: int) {
    var at := nowNs / NS_PER_MS;
    var back := Comeback(ToldReset(p, b, at, periodNs), nowNs);
    Serve(p, Live(Kept(p, Serve(p, Some(b), at).0, at), back), back).1.allowed
  }

  ghost predicate RetryAlwaysSucceeds(p: Params) {
    forall b: Bucket, periodNs: int, nowNs: int | Denied(p, b, nowNs / NS_PER_MS) :: ServedOnReturn(p, b, periodNs, nowNs)
  }

  /** Enough for one token: served, however late the header is computed and whatever Redis's
      clock says meanwhile. */
  lemma RetryAfterSuffices(p: Params, b: Bucket, at: int, periodNs: int, nowNs: int, clock: int, later: int)
    requires Limiting(p) && Margin(p.period) * p.rate >= p.period
    requires Denied(p, b, at) && at * NS_PER_MS <= nowNs
    ensures var back := Comeback(ToldReset(p, b, at, periodNs), nowNs);
            Serve(p, Live(Kept(p, Serve(p, Some(b), at).0, clock), later), back).1.allowed
  {
    var ts := ComebackBound(p, b, at, periodNs, nowNs);
    LateIsServed(p, ts, Comeback(ToldReset(p, b, at, periodNs), nowNs), clock, later);
  }

  lemma LateIsServed(p: Params, ts: int, back: int, clock: int, later: int)
    requires Limiting(p) && Margin(p.period) * p.rate >= p.period && back - ts >= Margin(p.period)
    ensures Serve(p, Live(Kept(p, Bucket(0, ts), clock), later), back).1.allowed
  {
    Monotone(p.rate, Margin(p.period), back - ts);
    QuotientAtLeast(p.period, 1, (back - ts) * p.rate);
  }

  // A denial that loses as much as can be lost, for each range of the period.

  function WorstTs(period: int): int {
    if period < 1000 then 2000
    else if period < 2000 then 2999 - period
    else if period < 2999 then 3999 - period
    else 1999 - period % 1000
  }

  function WorstNow(period: int): int {
    if period < 2000 then 2000 * NS_PER_MS
    else if period < 2999 then WorstTs(period) * NS_PER_MS
    else (if period % 1000 == 999 then 1000 else 2000) * NS_PER_MS + 1
  }

  lemma WorstAlignment(p: Params)
    requires Limiting(p)
    ensures var ts, nowNs := WorstTs(p.period), WorstNow(p.period);
            && 1000 <= ts <= nowNs / NS_PER_MS <= ts + Margin(p.period)
            && Comeback((ts + p.period) / 1000, nowNs) == ts + Margin(p.period)
  {
    if p.period >= 2999 { WorstLongAlignment(p); }
  }

  lemma WorstLongAlignment(p: Params)
    requires Limiting(p) && p.period >= 2999
    ensures var ts, nowNs := WorstTs(p.period), WorstNow(p.period);
            && 1000 <= ts <= nowNs / NS_PER_MS <= ts + Margin(p.period)
            && Comeback((ts + p.period) / 1000, nowNs) == ts + Margin(p.period)
  {
    var ts, nowNs := WorstTs(p.period), WorstNow(p.period);
    var thousands, denied := p.period / 1000, if p.period % 1000 == 999 then 1 else 2;
    var whole := (ts + p.period) / 1000;
    assert ts + p.period == 1000 * (thousands + 1) + 999;
    assert whole == thousands + 1;
    assert whole * NS_PER_S - nowNs == (whole - denied - 1) * NS_PER_S + 999_999_999;
    assert RetryAfterSeconds(nowNs, whole) == whole - denied - 1;
    assert nowNs + (whole - denied - 1) * NS_PER_S == (ts + p.period - 1999) * NS_PER_MS + 1;
  }

  lemma EarlyIsDenied(p: Params, ts: int, at: int)
    requires Limiting(p) && at >= ts && (at - ts) * p.rate < p.period
    ensures !Serve(p, Some(Bucket(0, ts)), at).1.allowed
  {
    QuotientBelow(p.period, 1, (at - ts) * p.rate);
  }

  lemma RetryAfterWorstCase(p: Params, periodNs: int)
    requires Limiting(p) && Margin(p.period) * p.rate < p.period
    ensures var b, nowNs := Bucket(0, WorstTs(p.period)), WorstNow(p.period);
            Denied(p, b, nowNs / NS_PER_MS) && !ServedOnReturn(p, b, periodNs, nowNs)
  {
    var ts, nowNs := WorstTs(p.period), WorstNow(p.period);
    var at := nowNs / NS_PER_MS;
    WorstAlignment(p);
    Monotone(p.rate, at - ts, Margin(p.period));
    EarlyIsDenied(p, ts, at);
    var left := DenialLeavesEmpty(p, Bucket(0, ts), at);
    var back := Comeback((ts + p.period) / 1000, nowNs);
    EarlyIsDenied(p, ts, back);
    assert Live(Kept(p, Bucket(0, ts), at), back) == Some(Bucket(0, ts));
  }

  /** Every denied client that obeys the header is served when it comes back, for every period
      and rate, exactly when the margin pays for one token. */
  lemma RetryAfterSufficesIff(p: Params)
    requires Limiting(p)
    ensures RetryAlwaysSucceeds(p) <==> Margin(p.period) * p.rate >= p.period
  {
    if Margin(p.period) * p.rate >= p.period {
      forall b: Bucket, periodNs: int, nowNs: int | Denied(p, b, nowNs / NS_PER_MS)
        ensures ServedOnReturn(p, b, periodNs, nowNs)
      {
        var at := nowNs / NS_PER_MS;
        RetryAfterSuffices(p, b, at, periodNs, nowNs, at, Comeback(ToldReset(p, b, at, periodNs), nowNs));
      }
    } else {
      RetryAfterWorstCase(p, 0);
    }
  }

  // ---- what a reply tells ----

  function Copies(t: int, n: nat): seq<int> {
    if n == 0 then [] else [t] + Copies(t, n - 1)
  }

  lemma {:induction false} BurstTakes(p: Params, k: nat, ts: int, t: int, n: nat)
    requires Limiting(p) && k <= p.capacity && ts <= t && Credit(p, t - ts) <= 0
    ensures Admitted(p, Bucket(k, ts), Copies(t, n)) == if n <= k then n else k
  {
    if n > 0 {
      AdmittedStep(p, Bucket(k, ts), t, Copies(t, n - 1));
      BurstTakes(p, if k > 0 then k - 1 else 0, ts, t, n - 1);
    }
  }

  lemma NothingYet(p: Params)
    requires Limiting(p)
    ensures Credit(p, 0) == 0
  {
  }

  lemma RefillingFirst(p: Params, b: Bucket, t: int) returns (r: Bucket)
    requires Limiting(p) && WellFormed(p, b) && b.ts <= t
    ensures r == Refilled(p, b, t) && Serve(p, Some(r), t) == Serve(p, Some(b), t)
    ensures r.ts <= t && Credit(p, t - r.ts) <= 0 && 0 <= r.tokens == Min(p.capacity, b.tokens + Credit(p, t - b.ts))
  {
    r := Refilled(p, b, t);
    CreditBounds(p, t - b.ts);
    NothingYet(p);
  }

  lemma SameBurst(p: Params, b: Bucket, r: Bucket, t: int, n: nat)
    requires Serve(p, Some(r), t) == Serve(p, Some(b), t)
    ensures Admitted(p, b, Copies(t, n)) == Admitted(p, r, Copies(t, n))
  {
    if n > 0 {
      AdmittedStep(p, b, t, Copies(t, n - 1));
      AdmittedStep(p, r, t, Copies(t, n - 1));
    }
  }

  /** A burst on a bucket takes what is stored and what has been credited, no more. */
  lemma BurstAt(p: Params, b: Bucket, t: int, n: nat)
    requires Limiting(p) && WellFormed(p, b) && b.ts <= t
    ensures Admitted(p, b, Copies(t, n)) == Min(n, Min(p.capacity, b.tokens + Credit(p, t - b.ts)))
  {
    var r := RefillingFirst(p, b, t);
    BurstTakes(p, r.tokens, r.ts, t, n);
    SameBurst(p, b, r, t, n);
  }

  /** The answer is the truth: of any number of further calls in the same millisecond exactly
      `remaining` are admitted. */
  lemma RemainingIsTrue(p: Params, stored: Option<Bucket>, now: int, n: nat)
    requires Limiting(p) && (stored.Some? ==> WellFormed(p, stored.value))
    ensures var (b, reply) := Serve(p, stored, now);
            Admitted(p, b, Copies(now, n)) == Min(n, reply.remaining)
  {
    var b := Serve(p, stored, now).0;
    AfterServing(p, stored, now);
    BurstTakes(p, b.tokens, b.ts, now, n);
  }

  /** And `resetAt` is the first moment by which a whole refill has been credited: a burst then
      gets that much more, up to the capacity, and a moment earlier it is less. */
  lemma ResetIsTrue(p: Params, stored: Option<Bucket>, now: int, n: nat, t: int)
    requires Limiting(p) && (stored.Some? ==> WellFormed(p, stored.value))
    requires t >= Serve(p, stored, now).0.ts
    ensures var (b, reply) := Serve(p, stored, now);
            && (Credit(p, t - b.ts) >= p.rate <==> t >= reply.resetAt)
            && Admitted(p, b, Copies(t, n)) == Min(n, Min(p.capacity, reply.remaining + Credit(p, t - b.ts)))
  {
    var b := Serve(p, stored, now).0;
    AfterServing(p, stored, now);
    FullRefill(p, t - b.ts);
    BurstAt(p, b, t, n);
  }

  lemma AfterServing(p: Params, stored: Option<Bucket>, now: int)
    requires Limiting(p) && (stored.Some? ==> WellFormed(p, stored.value))
    ensures var b := Serve(p, stored, now).0; WellFormed(p, b) && b.ts <= now && Credit(p, now - b.ts) <= 0
  {
    NothingYet(p);
    CreditBounds(p, now - Loaded(p, stored, now).ts);
  }

  lemma FullRefill(p: Params, d: int)
    requires Limiting(p) && d >= 0
    ensures Credit(p, d) >= p.rate <==> d >= p.period
  {
    if d >= p.period {
      Monotone(p.rate, p.period, d);
      QuotientAtLeast(p.period, p.rate, d * p.rate);
    } else {
      Monotone(p.rate, d + 1, p.period);
      Distribute(p.rate, d, 1);
      QuotientBelow(p.period, p.rate, d * p.rate);
    }
  }

  /** The middleware's tiers (authentication, AI, administration), and the default tier as the
      development, production and container configurations set it. */
  const TIERS := [Params(10, 10, 60_000), Params(20, 20, 60_000), Params(60, 60, 60_000),
                  Params(60, 60, 60_000), Params(120, 120, 60_000)]

  /** In every one of them the admission bound holds on every run, expiry never shows and the
      retry header never misleads. */
  lemma TiersAreSound(i: nat, times: seq<int>)
    requires i < |TIERS| && times != [] && Ordered(times)
    ensures Limiting(TIERS[i]) && BoundHolds(TIERS[i], times) && SameReply(TIERS[i], times)
    ensures RetryAlwaysSucceeds(TIERS[i])
  {
    var p := TIERS[i];
    AdmissionBoundIff(p);
    ExpiryInvisible(p, times);
    assert Margin(p.period) * p.rate >= p.period;
    RetryAfterSufficesIff(p);
  }
}
