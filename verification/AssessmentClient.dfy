/** The windowed circuit breaker and the retry loop of internal/clients/assessmentClient.go.
    Times are milliseconds; a zero time is `None`. */
module AssessmentClient {
  import opened Text
  import opened Wrappers

  datatype Limits = Limits(threshold: int, window: int, openFor: int)

  predicate Proper(p: Limits) { p.threshold > 0 && p.window > 0 && p.openFor > 0 }

  /** Parameters that are not positive are replaced. */
  function Defaulted(p: Limits): (q: Limits)
    ensures Proper(q) && (Proper(p) ==> q == p)
    ensures p.threshold <= 0 && p.window <= 0 && p.openFor <= 0 ==> q == SHIPPED
  {
    Limits(if p.threshold <= 0 then 5 else p.threshold,
           if p.window <= 0 then 60_000 else p.window,
           if p.openFor <= 0 then 30_000 else p.openFor)
  }

  datatype Breaker = Breaker(failures: nat, first: Option<int>, openUntil: Option<int>, halfOpen: bool)

  const FRESH := Breaker(0, None, None, false)

  datatype Event = Allow(now: int) | Success | Failure(now: int)

  predicate Refuses(b: Breaker, now: int) { b.openUntil.Some? && now < b.openUntil.value }

  /** A failure longer than the window after the one that opened the count starts a new count. */
  predicate StartsCount(p: Limits, b: Breaker, now: int) {
    b.failures == 0 || (b.first.Some? && now - b.first.value > p.window)
  }

  function Failed(p: Limits, b: Breaker, now: int): Breaker {
    var anew := StartsCount(p, b, now);
    var n := if anew then 1 else b.failures + 1;
    Breaker(n, if anew then Some(now) else b.first,
            if n >= p.threshold then Some(now + p.openFor) else b.openUntil,
            if n >= p.threshold then false else b.halfOpen)
  }

  function Next(p: Limits, b: Breaker, e: Event): Breaker {
    match e
    case Allow(now) =>
      if b.openUntil.Some? && now > b.openUntil.value then b.(openUntil := None, halfOpen := false)
      else if !Refuses(b, now) && b.halfOpen then b.(openUntil := None, halfOpen := false)
      else b
    case Success => FRESH
    case Failure(now) => Failed(p, b, now)
  }

  function Run(p: Limits, es: seq<Event>): Breaker {
    if es == [] then FRESH else Next(p, Run(p, es[..|es| - 1]), es[|es| - 1])
  }

  /** A failure that opens the breaker, or keeps it open longer. */
  predicate Trips(p: Limits, b: Breaker, now: int) {
    Failed(p, b, now).failures >= p.threshold
  }

  // ---- the breaker object ----

  class CircuitBreaker {
    const limits: Limits
    var failures: nat
    var firstFailureAt: Option<int>
    var openUntil: Option<int>
    var halfOpen: bool

    ghost function Model(): Breaker reads this { Breaker(failures, firstFailureAt, openUntil, halfOpen) }

    constructor (limits: Limits)
      ensures this.limits == Defaulted(limits) && Model() == FRESH
    {
      this.limits := Defaulted(limits);
      failures, firstFailureAt, openUntil, halfOpen := 0, None, None, false;
    }

    method AllowRequest(now: int) returns (ok: bool)
      modifies this
      ensures ok == !Refuses(old(Model()), now)
      ensures Model() == Next(limits, old(Model()), Allow(now))
    {
      if openUntil.Some? && now < openUntil.value { return false; }
      if openUntil.Some? && now > openUntil.value && !halfOpen { halfOpen := true; }
      if halfOpen {
        halfOpen := false;
        openUntil := None;
        return true;
      }
      return true;
    }

    method RecordSuccess()
      modifies this
      ensures Model() == Next(limits, old(Model()), Success)
    {
      failures, firstFailureAt := 0, None;
      openUntil, halfOpen := None, false;
    }

    method RecordFailure(now: int)
      modifies this
      ensures Model() == Next(limits, old(Model()), Failure(now))
    {
      if failures == 0 { firstFailureAt := Some(now); }
      if firstFailureAt.Some? && now - firstFailureAt.value > limits.window {
        failures := 0;
        firstFailureAt := Some(now);
      }
      failures := failures + 1;
      if failures >= limits.threshold {
        openUntil := Some(now + limits.openFor);
        halfOpen := false;
      }
    }
  }

  // ---- what a trip means ----

  /** The times of the failures since the last success, oldest first. */
  function Streak(es: seq<Event>): seq<int> {
    if es == [] then []
    else
      var before := Streak(es[..|es| - 1]);
      match es[|es| - 1]
      case Allow(_) => before
      case Success => []
      case Failure(now) => before + [now]
  }

  /** The count is of the last failures in a row, begun by the one remembered and all within a
      window of it; and the half-open mark never outlives the call that sets it. */
  predicate Counts(p: Limits, b: Breaker, streak: seq<int>) {
    && b.failures <= |streak| && !b.halfOpen
    && (streak != [] ==> b.failures > 0)
    && (b.failures > 0 ==>
          && b.first == Some(streak[|streak| - b.failures])
          && streak[|streak| - 1] - streak[|streak| - b.failures] <= p.window)
  }

  lemma {:induction false} CountsAlways(p: Limits, es: seq<Event>)
    requires Proper(p)
    ensures Counts(p, Run(p, es), Streak(es))
  {
    if es != [] {
      CountsAlways(p, es[..|es| - 1]);
    }
  }

  predicate Ascending(ts: seq<int>) {
    forall i, j :: 0 <= i < j < |ts| ==> ts[i] <= ts[j]
  }

  /** Every trip is justified: at least `threshold` failures in a row, with no success between,
      the first at most one window before the last. */
  lemma EveryTripIsJustified(p: Limits, es: seq<Event>, now: int)
    requires Proper(p) && Trips(p, Run(p, es), now) && Ascending(Streak(es + [Failure(now)]))
    ensures var streak := Streak(es + [Failure(now)]);
            && |streak| >= p.threshold
            && streak[|streak| - 1] - streak[|streak| - p.threshold] <= p.window
  {
    var all := es + [Failure(now)];
    assert all[..|es|] == es;
    CountsAlways(p, all);
  }

  /** Refusals have a trip behind them: the breaker refuses only between a failure that tripped
      it, with no success since, and the end of that failure's open time. */
  lemma {:induction false} RefusalsFollowATrip(p: Limits, es: seq<Event>, now: int)
    requires Proper(p) && Refuses(Run(p, es), now)
    ensures exists k :: 0 <= k < |es| && TrippedAt(p, es, k) && now < es[k].now + p.openFor
  {
    var before, last := es[..|es| - 1], es[|es| - 1];
    if last.Failure? && Trips(p, Run(p, before), last.now) {
      assert TrippedAt(p, es, |es| - 1);
    } else {
      RefusalsFollowATrip(p, before, now);
      var k :| 0 <= k < |before| && TrippedAt(p, before, k) && now < before[k].now + p.openFor;
      assert es[..k] == before[..k];
      assert TrippedAt(p, es, k);
    }
  }

  /** The event at `k` is a failure that trips, and no success follows. */
  predicate TrippedAt(p: Limits, es: seq<Event>, k: nat)
    requires k < |es|
  {
    es[k].Failure? && Trips(p, Run(p, es[..k]), es[k].now) && forall j :: k < j < |es| ==> !es[j].Success?
  }

  /** Until when the breaker is open, from the history: the open time of the latest trip, unless a
      success or a request after its end came since. */
  function OpenOf(p: Limits, es: seq<Event>): Option<int> {
    if es == [] then None
    else
      var before, last := es[..|es| - 1], es[|es| - 1];
      match last
      case Success => None
      case Failure(now) => if Trips(p, Run(p, before), now) then Some(now + p.openFor) else OpenOf(p, before)
      case Allow(now) =>
        match OpenOf(p, before)
        case None => None
        case Some(until) => if now > until then None else Some(until)
  }

  /** A request is refused exactly before the open time of the latest trip is over. */
  lemma {:induction false} RefusesIff(p: Limits, es: seq<Event>, now: int)
    requires Proper(p)
    ensures Run(p, es).openUntil == OpenOf(p, es)
    ensures Refuses(Run(p, es), now) <==> OpenOf(p, es).Some? && now < OpenOf(p, es).value
  {
    if es != [] {
      CountsAlways(p, es[..|es| - 1]);
      RefusesIff(p, es[..|es| - 1], now);
    }
  }

  // ---- how many failures it takes ----

  /** After this history, no failure of the burst trips; requests may be let through or refused
      in between. */
  predicate Quiet(p: Limits, history: seq<Event>, burst: seq<Event>) {
    burst == [] ||
    (&& Quiet(p, history, burst[..|burst| - 1])
     && var last := burst[|burst| - 1];
        last.Failure? ==> !Trips(p, Run(p, history + burst[..|burst| - 1]), last.now))
  }

  /** `n` failures within one window, with no success between, after an earlier history. */
  predicate IsBurst(p: Limits, history: seq<Event>, burst: seq<Event>, n: nat) {
    && (forall e <- burst :: !e.Success?)
    && |Streak(burst)| == n && Ascending(Streak(history) + Streak(burst))
    && (n > 0 ==> Streak(burst)[n - 1] - Streak(burst)[0] <= p.window)
  }

  /** After `n` failures of a burst none of which trips: either all of them are counted, on top
      of the `earlier` ones from before it, or the count began inside the burst, and then before
      it had grown to the threshold. */
  predicate Counted(p: Limits, earlier: nat, start: int, n: nat, a: Breaker) {
    && a.first.Some? && 0 < a.failures < p.threshold
    && (|| (a.failures == earlier + n && (earlier == 0 ==> a.first.value >= start))
        || (a.first.value >= start && a.failures >= n - (if earlier > 0 then p.threshold - 2 else 0)))
  }

  lemma CountBegins(p: Limits, b: Breaker, t: int)
    requires Proper(p) && (b.failures > 0 ==> b.first.Some?) && !Trips(p, b, t)
    ensures Counted(p, b.failures, t, 1, Failed(p, b, t))
  {
  }

  lemma CountGoesOn(p: Limits, earlier: nat, start: int, n: nat, a: Breaker, t: int)
    requires Proper(p) && Counted(p, earlier, start, n, a) && t - start <= p.window && !Trips(p, a, t) && start <= t
    ensures Counted(p, earlier, start, n + 1, Failed(p, a, t))
  {
  }

  /** What the breaker remembers of failures when `times` of a quiet burst have passed. */
  predicate Remembers(p: Limits, b: Breaker, times: seq<int>, a: Breaker) {
    if times == [] then a.failures == b.failures && a.first == b.first
    else Counted(p, b.failures, times[0], |times|, a)
  }

  lemma RememberFailure(p: Limits, b: Breaker, times: seq<int>, a: Breaker, t: int)
    requires Proper(p) && (b.failures > 0 ==> b.first.Some?) && Remembers(p, b, times, a) && !Trips(p, a, t)
    requires times != [] ==> times[0] <= t <= times[0] + p.window
    ensures Remembers(p, b, times + [t], Failed(p, a, t))
  {
    if times == [] {
      CountBegins(p, a, t);
    } else {
      CountGoesOn(p, b.failures, times[0], |times|, a, t);
    }
  }

  /** Without its last failure, or its last request, a burst is still one. */
  lemma ShorterBurst(p: Limits, history: seq<Event>, burst: seq<Event>, n: nat)
    requires IsBurst(p, history, burst, n) && burst != [] && p.window > 0
    ensures var last := burst[|burst| - 1];
            && (last.Allow? ==> IsBurst(p, history, burst[..|burst| - 1], n))
            && (last.Failure? ==> n > 0 && IsBurst(p, history, burst[..|burst| - 1], n - 1)
                                  && Streak(burst) == Streak(burst[..|burst| - 1]) + [last.now])
  {
    var before, last := burst[..|burst| - 1], burst[|burst| - 1];
    assert forall e <- before :: e in burst;
    if last.Failure? { ShorterTimes(Streak(history), Streak(before), last.now, p.window); }
  }

  lemma ShorterTimes(earlier: seq<int>, ts: seq<int>, t: int, window: int)
    requires Ascending(earlier + (ts + [t])) && window > 0
    requires ts != [] ==> t - ts[0] <= window
    ensures Ascending(earlier + ts) && (ts != [] ==> ts[|ts| - 1] - ts[0] <= window)
  {
    var all, some := earlier + (ts + [t]), earlier + ts;
    assert all == some + [t];
    assert forall i :: 0 <= i < |some| ==> all[i] == some[i];
    if ts != [] {
      assert all[|some| - 1] == ts[|ts| - 1] && all[|some|] == t;
    }
  }

  lemma {:induction false} QuietBurst(p: Limits, history: seq<Event>, burst: seq<Event>, n: nat)
    requires Proper(p) && IsBurst(p, history, burst, n) && Quiet(p, history, burst)
    ensures Remembers(p, Run(p, history), Streak(burst), Run(p, history + burst))
    decreases |burst|
  {
    if burst == [] {
      assert history + burst == history;
    } else {
      var before, last := burst[..|burst| - 1], burst[|burst| - 1];
      ShorterBurst(p, history, burst, n);
      QuietBurst(p, history, before, if last.Failure? then n - 1 else n);
      assert (history + burst)[..|history + burst| - 1] == history + before;
      assert last in burst;
      if last.Failure? {
        CountsAlways(p, history);
        FailureFits(p, history, burst, n);
        RememberFailure(p, Run(p, history), Streak(before), Run(p, history + before), last.now);
      }
    }
  }

  lemma FailureFits(p: Limits, history: seq<Event>, burst: seq<Event>, n: nat)
    requires IsBurst(p, history, burst, n) && n > 0
    requires p.window > 0
    ensures Streak(burst)[0] <= Streak(burst)[n - 1] <= Streak(burst)[0] + p.window
  {
    var all, k := Streak(history) + Streak(burst), |Streak(history)|;
    assert all[k] == Streak(burst)[0] && all[k + n - 1] == Streak(burst)[n - 1];
  }

  /** How many failures within one window are sure to trip, whatever came before. */
  function Enough(p: Limits): int {
    if p.threshold <= 1 then 1 else 2 * p.threshold - 2
  }

  lemma EnoughFailuresTrip(p: Limits, history: seq<Event>, burst: seq<Event>, n: nat)
    requires Proper(p) && IsBurst(p, history, burst, n) && n >= Enough(p)
    ensures !Quiet(p, history, burst)
  {
    if Quiet(p, history, burst) {
      QuietBurst(p, history, burst, n);
      assert false;
    }
  }

  /** A burst that begins at the last moment of a count and goes on just after it. */
  function WorstBurst(p: Limits, n: nat): seq<Event> {
    if n == 0 then []
    else WorstBurst(p, n - 1) + [Failure(WorstMoment(p, n))]
  }

  lemma {:induction false} WorstBurstTimes(p: Limits, n: nat)
    requires p.window > 0
    ensures var ts := Streak(WorstBurst(p, n));
            && |ts| == n && Ascending(ts)
            && (n > 0 ==> ts[n - 1] == WorstMoment(p, n))
            && (forall i :: 0 <= i < n ==> p.window <= ts[i] <= p.window + 1)
    ensures forall e <- WorstBurst(p, n) :: !e.Success?
  {
    if n > 0 {
      WorstBurstTimes(p, n - 1);
      var before, last := WorstBurst(p, n - 1), Failure(WorstMoment(p, n));
      assert (before + [last])[..|before|] == before;
    }
  }

  function WorstMoment(p: Limits, n: nat): int {
    if n <= p.threshold - 2 then p.window else p.window + 1
  }

  predicate WorstCount(p: Limits, n: nat, b: Breaker) {
    if n <= p.threshold - 2 then b.failures == n + 1 && b.first == Some(0)
    else b.failures == n - (p.threshold - 2) && b.first == Some(p.window + 1)
  }

  lemma WorstCountGoesOn(p: Limits, n: nat, b: Breaker)
    requires Proper(p) && p.threshold > 1 && n + 1 < Enough(p) && WorstCount(p, n, b)
    ensures !Trips(p, b, WorstMoment(p, n + 1)) && WorstCount(p, n + 1, Failed(p, b, WorstMoment(p, n + 1)))
  {
  }

  lemma OneMoreFailure(p: Limits, history: seq<Event>, burst: seq<Event>, now: int)
    requires Quiet(p, history, burst) && !Trips(p, Run(p, history + burst), now)
    ensures Quiet(p, history, burst + [Failure(now)])
    ensures Run(p, history + (burst + [Failure(now)])) == Failed(p, Run(p, history + burst), now)
  {
    assert (burst + [Failure(now)])[..|burst|] == burst;
    assert history + (burst + [Failure(now)]) == (history + burst) + [Failure(now)];
    assert ((history + burst) + [Failure(now)])[..|history + burst|] == history + burst;
  }

  lemma {:induction false} WorstBurstIsQuiet(p: Limits, n: nat)
    requires Proper(p) && n < Enough(p) && p.threshold > 1
    ensures Quiet(p, [Failure(0)], WorstBurst(p, n))
    ensures WorstCount(p, n, Run(p, [Failure(0)] + WorstBurst(p, n)))
  {
    if n == 0 {
      assert [Failure(0)] + WorstBurst(p, 0) == [Failure(0)] && [Failure(0)][..0] == [];
    } else {
      WorstBurstIsQuiet(p, n - 1);
      WorstCountGoesOn(p, n - 1, Run(p, [Failure(0)] + WorstBurst(p, n - 1)));
      OneMoreFailure(p, [Failure(0)], WorstBurst(p, n - 1), WorstMoment(p, n));
    }
  }

  lemma FewFailuresMayNotTrip(p: Limits, n: nat) returns (history: seq<Event>, burst: seq<Event>)
    requires Proper(p) && n < Enough(p)
    ensures IsBurst(p, history, burst, n) && Quiet(p, history, burst)
  {
    if p.threshold == 1 {
      history, burst := [], [];
    } else {
      history, burst := [Failure(0)], WorstBurst(p, n);
      assert history[..0] == [] && Streak(history) == [0];
      WorstBurstTimes(p, n);
      WorstBurstIsQuiet(p, n);
    }
  }

  /** `n` failures within one window always trip, whatever came before and whatever requests are
      let through in between, exactly from twice the threshold less two on: the window starts at
      a failure and does not slide, so the count may begin anew inside a burst, but only once. */
  lemma BurstTripsIff(p: Limits, n: nat)
    requires Proper(p)
    ensures (forall history: seq<Event>, burst: seq<Event> | IsBurst(p, history, burst, n) :: !Quiet(p, history, burst))
            <==> n >= Enough(p)
  {
    if n >= Enough(p) {
      forall history: seq<Event>, burst: seq<Event> | IsBurst(p, history, burst, n)
        ensures !Quiet(p, history, burst)
      {
        EnoughFailuresTrip(p, history, burst, n);
      }
    } else {
      var history, burst := FewFailuresMayNotTrip(p, n);
    }
  }

  const SHIPPED := Limits(5, 60_000, 30_000)

  // ---- one request, retried ----

  /** What one try over the network brings: no answer, or a status and whether the answer's
      signature, if it has one, is good. */
  datatype Reply = NoAnswer | Answer(status: int, trusted: bool)

  predicate Down(r: Reply) { r.NoAnswer? || r.status >= 500 }

  predicate Usable(r: Reply) { !Down(r) && r.trusted }

  datatype Outcome = Got(reply: Reply) | Exhausted | Cancelled | Unavailable

  function PowerOfTwo(n: nat): nat { if n == 0 then 1 else 2 * PowerOfTwo(n - 1) }

  /** When try `i` begins: at once, or when the wait after the one before is over. */
  function TryStart(now: int, times: seq<int>, i: nat): int
    requires i <= |times|
  {
    if i == 0 then now else times[i - 1] + 100 * PowerOfTwo(i - 1)
  }

  predicate Retryable(verb: string, hasBody: bool, replayable: bool) {
    Upper(Trim(verb)) in {"GET", "HEAD", "PUT", "DELETE", "OPTIONS"} && (!hasBody || replayable)
  }

  /** The breaker after it has been told how these tries went. */
  function Told(p: Limits, b: Breaker, replies: seq<Reply>, times: seq<int>): Breaker
    requires |replies| == |times|
  {
    if replies == [] then b
    else
      var n := |replies| - 1;
      Next(p, Told(p, b, replies[..n], times[..n]), if Down(replies[n]) then Failure(times[n]) else Success)
  }

  /** Which requests are tried again: of the plain verbs those that say the same when repeated,
      however they are written, and never one whose body cannot be sent again. */
  lemma RetryableIff(verb: string, hasBody: bool, replayable: bool)
    ensures Retryable("GET", false, replayable) && Retryable("HEAD", false, replayable) && Retryable("OPTIONS", false, replayable)
    ensures Retryable("PUT", false, replayable) && Retryable("DELETE", false, replayable)
    ensures !Retryable("POST", hasBody, replayable) && !Retryable("PATCH", hasBody, replayable)
    ensures Retryable(verb, hasBody, replayable) <==> Retryable(Upper(verb), false, false) && (hasBody ==> replayable)
  {
    UpperTrimIdempotent(verb);
    TrimUpper(verb);
    UpperIdempotent(Trim(verb));
    Plain("GET");
    Plain("HEAD");
    Plain("OPTIONS");
    Plain("PUT");
    Plain("DELETE");
    Plain("POST");
    Plain("PATCH");
    assert "POST"[1] == 'O' && "HEAD"[1] == 'E';
    assert "PATCH"[0] == 'P';
  }

  lemma Plain(verb: string)
    requires verb != [] && !IsSpace(verb[0]) && !IsSpace(verb[|verb| - 1]) && forall c <- verb :: UpperChar(c) == c
    ensures Upper(Trim(verb)) == verb
  {
    TrimmedStays(verb);
  }

  class Client {
    const breaker: CircuitBreaker

    constructor ()
      ensures fresh(breaker) && breaker.limits == SHIPPED && breaker.Model() == FRESH
    {
      breaker := new CircuitBreaker(SHIPPED);
    }

    /** Every try tells the breaker how it went; a bad signature counts as a success there. */
    method Once(reply: Reply, now: int) returns (ok: bool)
      modifies breaker
      ensures ok == Usable(reply) && (ok <==> reply.Answer? && reply.status < 500 && reply.trusted)
      ensures breaker.failures == 0 <==> reply.Answer? && reply.status < 500
      ensures breaker.Model() == Next(breaker.limits, old(breaker.Model()), if Down(reply) then Failure(now) else Success)
    {
      if reply.NoAnswer? {
        breaker.RecordFailure(now);
        return false;
      }
      if reply.status >= 500 {
        breaker.RecordFailure(now);
        return false;
      }
      breaker.RecordSuccess();
      return reply.trusted;
    }

    /** Waits 100 ms after the first failed try and twice as long after each further one, the
        last included, unless the deadline comes first.  `replies` and `times` are what the tries
        bring and when they end. */
    method WithRetry(now: int, replies: seq<Reply>, times: seq<int>, attempts: nat, deadline: int)
      returns (r: Outcome, calls: nat, waited: nat)
      requires |replies| == |times| == attempts
      modifies breaker
      ensures calls <= attempts && forall i :: 0 <= i < calls && !(r.Got? && i == calls - 1) ==> !Usable(replies[i])
      ensures forall i :: 0 <= i < calls ==> TryStart(now, times, i) < deadline
      ensures r.Got? ==> calls > 0 && r.reply == replies[calls - 1] && Usable(r.reply) && waited == 100 * (PowerOfTwo(calls - 1) - 1)
      ensures r.Exhausted? ==> calls == attempts && waited == 100 * (PowerOfTwo(attempts) - 1)
      ensures r.Cancelled? ==> TryStart(now, times, calls) >= deadline && waited <= 100 * (PowerOfTwo(calls) - 1)
      ensures !r.Unavailable?
      ensures breaker.Model() == Told(breaker.limits, old(breaker.Model()), replies[..calls], times[..calls])
    {
      calls, waited := 0, 0;
      var backoff, clock := 100, now;
      for i := 0 to attempts
        invariant calls == i && waited == 100 * (PowerOfTwo(i) - 1) && backoff == 100 * PowerOfTwo(i)
        invariant clock == TryStart(now, times, i)
        invariant forall k :: 0 <= k < i ==> TryStart(now, times, k) < deadline
        invariant forall k :: 0 <= k < i ==> !Usable(replies[k])
        invariant breaker.Model() == Told(breaker.limits, old(breaker.Model()), replies[..i], times[..i])
      {
        assert replies[..i + 1][..i] == replies[..i] && times[..i + 1][..i] == times[..i];
        if clock >= deadline { return Cancelled, calls, waited; }
        var ok := Once(replies[i], times[i]);
        calls := i + 1;
        if ok { return Got(replies[i]), calls, waited; }
        if times[i] + backoff > deadline {
          return Cancelled, calls, waited + (if deadline > times[i] then deadline - times[i] else 0);
        }
        clock := times[i] + backoff;
        waited := waited + backoff;
        backoff := 2 * backoff;
      }
      return Exhausted, calls, waited;
    }

    /** An open breaker stops the request before any try; once through, up to three tries follow
        without asking it again, and a request that is not safe to repeat has one. */
    method Do(verb: string, hasBody: bool, replayable: bool, now: int, replies: seq<Reply>, times: seq<int>, deadline: int)
      returns (r: Outcome, calls: nat, waited: nat)
      requires |replies| == |times| == 3
      modifies breaker
      ensures r.Unavailable? <==> Refuses(old(breaker.Model()), now)
      ensures r.Unavailable? ==> calls == 0 && breaker.Model() == old(breaker.Model())
      ensures calls <= if Retryable(verb, hasBody, replayable) then 3 else 1
      ensures r.Got? ==> calls > 0 && r.reply == replies[calls - 1] && Usable(r.reply)
      ensures forall i :: 0 <= i < calls && !(r.Got? && i == calls - 1) ==> !Usable(replies[i])
      ensures r.Exhausted? ==> calls == if Retryable(verb, hasBody, replayable) then 3 else 1
      ensures waited <= 700
      ensures !r.Unavailable? ==>
                breaker.Model() == Told(breaker.limits, Next(breaker.limits, old(breaker.Model()), Allow(now)), replies[..calls], times[..calls])
    {
      var ok := breaker.AllowRequest(now);
      if !ok { return Unavailable, 0, 0; }
      if Retryable(verb, hasBody, replayable) {
        r, calls, waited := WithRetry(now, replies, times, 3, deadline);
        assert PowerOfTwo(3) == 8;
        PowersGrow(calls, 3);
      } else {
        ok := Once(replies[0], times[0]);
        assert replies[..1][..0] == [] && times[..1][..0] == [];
        r, calls, waited := if ok then Got(replies[0]) else Exhausted, 1, 0;
      }
    }
  }

  lemma PowersGrow(m: nat, n: nat)
    requires m <= n
    ensures PowerOfTwo(m) <= PowerOfTwo(n)
  {
  }
}
