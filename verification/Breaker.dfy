/** The plugin circuit breaker of internal/plugins/circuitBreaker.go.  Times and durations
    are nanoseconds; latency averages are not modelled. */
module Breaker {
  import opened Arith
  import opened Wrappers

  datatype State = Closed | Open | HalfOpen

  const SECOND := 1_000_000_000

  /** The fields of one breaker at one moment. */
  datatype Snapshot = Snapshot(
    state: State,
    threshold: int,
    cooldown: int,
    fails: int,          // consecutiveFailures
    canaries: int,       // consecutiveSuccesses
    requests: int,
    failures: int,
    successes: int,
    lastFailure: Option<int>,
    lastSuccess: Option<int>,
    lastChange: int)

  function New(threshold: int, cooldownSeconds: int, now: int): Snapshot {
    Snapshot(Closed,
             if threshold <= 0 then 3 else threshold,
             (if cooldownSeconds <= 0 then 30 else cooldownSeconds) * SECOND,
             0, 0, 0, 0, 0, None, None, now)
  }

  datatype Event =
    | Allow(at: int)
    | Success(at: int)
    | Failure(at: int)
    | Reset(at: int)
    | Update(threshold: int, cooldownSeconds: int)

  function Permits(b: Snapshot, now: int): bool {
    b.state == Open ==> b.lastFailure.Some? && now - b.lastFailure.value >= b.cooldown
  }

  function Apply(b: Snapshot, e: Event): Snapshot {
    match e
    case Allow(now) =>
      if b.state == Open && Permits(b, now)
      then b.(state := HalfOpen, lastChange := now, canaries := 0)
      else b
    case Success(now) =>
      var c := b.(requests := b.requests + 1, successes := b.successes + 1, lastSuccess := Some(now));
      (match b.state
       case HalfOpen =>
         if b.canaries + 1 >= 2
         then c.(state := Closed, fails := 0, canaries := 0, lastChange := now)
         else c.(canaries := b.canaries + 1)
       case Closed => c.(fails := 0)
       case Open => c)
    case Failure(now) =>
      var c := b.(requests := b.requests + 1, failures := b.failures + 1,
                  lastFailure := Some(now), fails := b.fails + 1);
      (match b.state
       case HalfOpen => c.(state := Open, lastChange := now, canaries := 0)
       case Closed => if c.fails >= b.threshold then c.(state := Open, lastChange := now) else c
       case Open => c)
    case Reset(now) => b.(state := Closed, fails := 0, canaries := 0, lastChange := now)
    case Update(t, s) =>
      b.(threshold := if t > 0 then t else b.threshold,
         cooldown := if s > 0 then s * SECOND else b.cooldown)
  }

  /** The breaker object; every method is one critical section. */
  class CircuitBreaker {
    var state: State
    var failureThreshold: int
    var cooldownDuration: int
    var consecutiveFailures: int
    var consecutiveSuccesses: int
    var totalRequests: int
    var totalFailures: int
    var totalSuccesses: int
    var lastFailureTime: Option<int>
    var lastSuccessTime: Option<int>
    var lastStateChange: int

    ghost function Model(): Snapshot reads this {
      Snapshot(state, failureThreshold, cooldownDuration, consecutiveFailures, consecutiveSuccesses,
               totalRequests, totalFailures, totalSuccesses, lastFailureTime, lastSuccessTime, lastStateChange)
    }

    constructor (threshold: int, cooldownSeconds: int, now: int)
      ensures Model() == New(threshold, cooldownSeconds, now)
    {
      var t, s := threshold, cooldownSeconds;
      if t <= 0 { t := 3; }
      if s <= 0 { s := 30; }
      state, failureThreshold, cooldownDuration := Closed, t, s * SECOND;
      consecutiveFailures, consecutiveSuccesses := 0, 0;
      totalRequests, totalFailures, totalSuccesses := 0, 0, 0;
      lastFailureTime, lastSuccessTime, lastStateChange := None, None, now;
    }

    method AllowRequest(now: int) returns (allowed: bool, reported: State)
      modifies this
      ensures Model() == Apply(old(Model()), Allow(now))
      ensures allowed == Permits(old(Model()), now)
      ensures reported == state
    {
      match state
      case Closed => return true, Closed;
      case Open =>
        if lastFailureTime != None && now - lastFailureTime.value >= cooldownDuration {
          state := HalfOpen;
          lastStateChange := now;
          consecutiveSuccesses := 0;
          return true, HalfOpen;
        }
        return false, Open;
      case HalfOpen => return true, HalfOpen;
    }

    method RecordSuccess(now: int)
      modifies this
      ensures Model() == Apply(old(Model()), Success(now))
    {
      totalRequests := totalRequests + 1;
      totalSuccesses := totalSuccesses + 1;
      lastSuccessTime := Some(now);
      match state
      case HalfOpen =>
        consecutiveSuccesses := consecutiveSuccesses + 1;
        if consecutiveSuccesses >= 2 {
          state := Closed;
          consecutiveFailures := 0;
          consecutiveSuccesses := 0;
          lastStateChange := now;
        }
      case Closed => consecutiveFailures := 0;
      case Open =>
    }

    method RecordFailure(now: int)
      modifies this
      ensures Model() == Apply(old(Model()), Failure(now))
    {
      totalRequests := totalRequests + 1;
      totalFailures := totalFailures + 1;
      lastFailureTime := Some(now);
      consecutiveFailures := consecutiveFailures + 1;
      match state
      case HalfOpen =>
        state := Open;
        lastStateChange := now;
        consecutiveSuccesses := 0;
      case Closed =>
        if consecutiveFailures >= failureThreshold {
          state := Open;
          lastStateChange := now;
        }
      case Open =>
    }

    method ResetState(now: int)
      modifies this
      ensures Model() == Apply(old(Model()), Reset(now))
    {
      state := Closed;
      consecutiveFailures := 0;
      consecutiveSuccesses := 0;
      lastStateChange := now;
    }

    method UpdateParams(threshold: int, cooldownSeconds: int)
      modifies this
      ensures Model() == Apply(old(Model()), Update(threshold, cooldownSeconds))
    {
      if threshold > 0 { failureThreshold := threshold; }
      if cooldownSeconds > 0 { cooldownDuration := cooldownSeconds * SECOND; }
    }
  }

  // ---- state against history, over every interleaving of steps ----

  function Run(b: Snapshot, es: seq<Event>): Snapshot {
    if es == [] then b else Apply(Run(b, es[..|es| - 1]), es[|es| - 1])
  }

  function Failures(es: seq<Event>): nat {
    if es == [] then 0 else Failures(es[..|es| - 1]) + (if es[|es| - 1].Failure? then 1 else 0)
  }

  function Successes(es: seq<Event>): nat {
    if es == [] then 0 else Successes(es[..|es| - 1]) + (if es[|es| - 1].Success? then 1 else 0)
  }

  /** Time of the most recent failure, if any. */
  function LatestFailure(es: seq<Event>): Option<int> {
    if es == [] then None
    else if es[|es| - 1].Failure? then Some(es[|es| - 1].at)
    else LatestFailure(es[..|es| - 1])
  }

  function LatestSuccess(es: seq<Event>): Option<int> {
    if es == [] then None
    else if es[|es| - 1].Success? then Some(es[|es| - 1].at)
    else LatestSuccess(es[..|es| - 1])
  }

  /** Failures since the most recent success or reset. */
  function FailureSuffix(es: seq<Event>): nat {
    if es == [] then 0
    else
      match es[|es| - 1]
      case Failure(_) => FailureSuffix(es[..|es| - 1]) + 1
      case Success(_) => 0
      case Reset(_) => 0
      case _ => FailureSuffix(es[..|es| - 1])
  }

  /** Largest threshold configured so far. */
  function PeakThreshold(initial: int, es: seq<Event>): int {
    if es == [] then initial
    else
      var before := PeakThreshold(initial, es[..|es| - 1]);
      var e := es[|es| - 1];
      if e.Update? && e.threshold > before then e.threshold else before
  }

  /** In every reachable state the totals and the last failure and success are functions of the
      history alone; so is the count of consecutive failures while the breaker is closed, and
      the count of canaries is at most one, and zero outside the half-open state. */
  lemma {:induction false} StateMatchesHistory(threshold: int, cooldownSeconds: int, start: int, es: seq<Event>)
    ensures var b0 := New(threshold, cooldownSeconds, start);
            var b := Run(b0, es);
            && b.failures == Failures(es)
            && b.successes == Successes(es)
            && b.requests == b.failures + b.successes
            && b.lastFailure == LatestFailure(es) && b.lastSuccess == LatestSuccess(es)
            && (b.state == Open ==> Failures(es) > 0 && b.lastFailure.Some?)
            && 0 <= b.canaries <= 1
            && (b.state != HalfOpen ==> b.canaries == 0)
            && 0 < b.threshold <= PeakThreshold(b0.threshold, es)
            && b.cooldown > 0
            && (b.state == Closed ==> b.fails == FailureSuffix(es) < PeakThreshold(b0.threshold, es))
  {
    if es != [] {
      StateMatchesHistory(threshold, cooldownSeconds, start, es[..|es| - 1]);
    }
  }

  predicate NeverLowered(initial: int, es: seq<Event>) {
    es == [] ||
    (&& NeverLowered(initial, es[..|es| - 1])
     && var e := es[|es| - 1];
        e.Update? && e.threshold > 0 ==> e.threshold >= PeakThreshold(initial, es[..|es| - 1]))
  }

  /** With a threshold that is never lowered, a closed breaker is below its own threshold. */
  lemma {:induction false} ClosedBelowThreshold(threshold: int, cooldownSeconds: int, start: int, es: seq<Event>)
    requires NeverLowered(New(threshold, cooldownSeconds, start).threshold, es)
    ensures var b := Run(New(threshold, cooldownSeconds, start), es);
            && b.threshold == PeakThreshold(New(threshold, cooldownSeconds, start).threshold, es)
            && (b.state == Closed ==> b.fails < b.threshold)
  {
    StateMatchesHistory(threshold, cooldownSeconds, start, es);
    if es != [] {
      ClosedBelowThreshold(threshold, cooldownSeconds, start, es[..|es| - 1]);
    }
  }

  /** Closed implies fewer consecutive failures than the threshold. */
  predicate BelowThreshold(b: Snapshot) {
    b.state == Closed ==> b.fails < b.threshold
  }

  /** A threshold that a closed breaker has reached already. */
  predicate Undercuts(b: Snapshot, e: Event) {
    e.Update? && b.state == Closed && 0 < e.threshold <= b.fails
  }

  /** One step leaves a breaker closed at its threshold exactly if it sets such a threshold:
      the new one is stored and not compared with the count. */
  lemma StaysBelowIff(b: Snapshot, e: Event)
    requires b.threshold > 0 && b.fails >= 0 && BelowThreshold(b)
    ensures BelowThreshold(Apply(b, e)) <==> !Undercuts(b, e)
  {
  }

  predicate AlwaysBelow(b: Snapshot, es: seq<Event>) {
    BelowThreshold(Run(b, es)) && (es == [] || AlwaysBelow(b, es[..|es| - 1]))
  }

  predicate NeverUndercuts(b: Snapshot, es: seq<Event>) {
    es == [] || (NeverUndercuts(b, es[..|es| - 1]) && !Undercuts(Run(b, es[..|es| - 1]), es[|es| - 1]))
  }

  /** A breaker is below its threshold whenever it is closed, all along a run, exactly if no
      update of the run undercuts the count. */
  lemma {:induction false} AlwaysBelowIff(threshold: int, cooldownSeconds: int, start: int, es: seq<Event>)
    ensures var b0 := New(threshold, cooldownSeconds, start);
            AlwaysBelow(b0, es) <==> NeverUndercuts(b0, es)
  {
    if es != [] {
      var b0, before := New(threshold, cooldownSeconds, start), es[..|es| - 1];
      AlwaysBelowIff(threshold, cooldownSeconds, start, before);
      if AlwaysBelow(b0, before) {
        KeepsSigns(threshold, cooldownSeconds, start, before);
        BelowAtEnd(b0, before);
        StaysBelowIff(Run(b0, before), es[|es| - 1]);
      }
    }
  }

  lemma BelowAtEnd(b: Snapshot, es: seq<Event>)
    requires AlwaysBelow(b, es)
    ensures BelowThreshold(Run(b, es))
  {
  }

  lemma {:induction false} KeepsSigns(threshold: int, cooldownSeconds: int, start: int, es: seq<Event>)
    ensures var b := Run(New(threshold, cooldownSeconds, start), es); b.threshold > 0 && b.fails >= 0
  {
    if es != [] { KeepsSigns(threshold, cooldownSeconds, start, es[..|es| - 1]); }
  }

  /** Such a run: two failures under a threshold of three, then a threshold of two. */
  lemma LoweredThresholdStaysClosed()
    ensures var b := Run(New(3, 30, 0), [Failure(0), Failure(0), Update(2, 0)]);
            b.state == Closed && b.fails >= b.threshold
  {
    var b0 := New(3, 30, 0);
    var e := [Failure(0), Failure(0), Update(2, 0)];
    assert e[..2] == [Failure(0), Failure(0)] && e[..2][..1] == [Failure(0)] && e[..2][..1][..0] == [];
    var b1 := Apply(b0, Failure(0));
    var b2 := Apply(b1, Failure(0));
    assert Run(b0, e[..2][..1]) == Apply(Run(b0, e[..2][..1][..0]), Failure(0));
    assert Run(b0, e[..2]) == Apply(Run(b0, e[..2][..1]), Failure(0));
  }

  // ---- every transition, from the history ----

  /** The threshold of the last update that set one. */
  function ThresholdOf(b0: Snapshot, es: seq<Event>): int {
    if es == [] then b0.threshold
    else if es[|es| - 1].Update? && es[|es| - 1].threshold > 0 then es[|es| - 1].threshold
    else ThresholdOf(b0, es[..|es| - 1])
  }

  function CooldownOf(b0: Snapshot, es: seq<Event>): int {
    if es == [] then b0.cooldown
    else if es[|es| - 1].Update? && es[|es| - 1].cooldownSeconds > 0 then es[|es| - 1].cooldownSeconds * SECOND
    else CooldownOf(b0, es[..|es| - 1])
  }

  /** Successes since the breaker last passed to half-open. */
  function Canaries(b0: Snapshot, es: seq<Event>): nat {
    if es == [] then 0
    else
      var before := es[..|es| - 1];
      if Run(b0, before).state != HalfOpen && Run(b0, es).state == HalfOpen then 0
      else Canaries(b0, before) + if es[|es| - 1].Success? then 1 else 0
  }

  /** When the state last changed, or was reset. */
  function LatestChange(b0: Snapshot, es: seq<Event>): int {
    if es == [] then b0.lastChange
    else
      var before, e := es[..|es| - 1], es[|es| - 1];
      if !e.Update? && (e.Reset? || Run(b0, before).state != Run(b0, es).state) then e.at else LatestChange(b0, before)
  }

  lemma {:induction false} ParametersMatchHistory(b0: Snapshot, es: seq<Event>)
    ensures Run(b0, es).threshold == ThresholdOf(b0, es) && Run(b0, es).cooldown == CooldownOf(b0, es)
  {
    if es != [] { ParametersMatchHistory(b0, es[..|es| - 1]); }
  }

  lemma {:induction false} CanariesMatchHistory(b0: Snapshot, es: seq<Event>)
    requires b0.state == Closed
    ensures Run(b0, es).state == HalfOpen ==> Run(b0, es).canaries == Canaries(b0, es) < 2
  {
    if es != [] { CanariesMatchHistory(b0, es[..|es| - 1]); }
  }

  lemma {:induction false} ChangeMatchesHistory(b0: Snapshot, es: seq<Event>)
    ensures Run(b0, es).lastChange == LatestChange(b0, es)
  {
    if es != [] { ChangeMatchesHistory(b0, es[..|es| - 1]); }
  }

  /** The next state, from the present one and the events so far. */
  function Expected(b0: Snapshot, state: State, es: seq<Event>, e: Event): State {
    match e
    case Reset(_) => Closed
    case Update(_, _) => state
    case Allow(now) =>
      if state == Open && LatestFailure(es).Some? && now - LatestFailure(es).value >= CooldownOf(b0, es) then HalfOpen else state
    case Success(_) => if state == HalfOpen && Canaries(b0, es) == 1 then Closed else state
    case Failure(_) => if state == Closed && FailureSuffix(es) + 1 < ThresholdOf(b0, es) then Closed else Open
  }

  /** Every transition after every history: a breaker opens at the failure that completes a
      threshold of them since the last success or reset, or at any failure while half-open; it
      passes to half-open at a request one cooldown after the last failure; and it closes at the
      second success since then, or at a reset.  A request is refused exactly if it leaves the
      breaker open. */
  lemma StateFollowsHistory(threshold: int, cooldownSeconds: int, start: int, es: seq<Event>, e: Event)
    ensures var b0 := New(threshold, cooldownSeconds, start);
            var b := Run(b0, es);
            && b0.state == Closed
            && Apply(b, e).state == Expected(b0, b.state, es, e)
            && Apply(b, e).lastChange == LatestChange(b0, es + [e])
            && (e.Allow? ==> (Permits(b, e.at) <==> Expected(b0, b.state, es, e) != Open))
  {
    var b0 := New(threshold, cooldownSeconds, start);
    StateMatchesHistory(threshold, cooldownSeconds, start, es);
    ParametersMatchHistory(b0, es);
    CanariesMatchHistory(b0, es);
    ChangeMatchesHistory(b0, es + [e]);
    assert (es + [e])[..|es|] == es;
  }

  predicate Trips(b: Snapshot, e: Event) {
    b.state != Open && Apply(b, e).state == Open
  }

  /** Only a failure opens a breaker, and it stamps its own time. */
  lemma TripIsAFailure(b: Snapshot, e: Event)
    requires Trips(b, e)
    ensures e.Failure? && Apply(b, e).lastFailure == Some(e.at) && Apply(b, e).cooldown == b.cooldown
  {
  }

  function TimeOf(e: Event, otherwise: int): int { if e.Update? then otherwise else e.at }

  /** Steps that neither reset the breaker nor set a cooldown below `c`, all inside the first
      `c` nanoseconds after `trip`. */
  predicate Within(e: Event, trip: int, c: int) {
    match e
    case Reset(_) => false
    case Update(_, s) => s <= 0 || s * SECOND >= c
    case _ => trip <= e.at < trip + c
  }

  lemma {:induction false} StaysOpen(b: Snapshot, trip: int, c: int, es: seq<Event>)
    requires b.state == Open && b.lastFailure.Some? && b.lastFailure.value >= trip && b.cooldown >= c
    requires forall e <- es :: Within(e, trip, c)
    ensures var after := Run(b, es);
            after.state == Open && after.lastFailure.Some? && after.lastFailure.value >= trip && after.cooldown >= c
    decreases |es|
  {
    if es != [] {
      var n := |es| - 1;
      assert forall e <- es[..n] :: e in es;
      StaysOpen(b, trip, c, es[..n]);
      assert Within(es[n], trip, c);
    }
  }

  /** After any step that opens a breaker no request passes for one cooldown, in whatever order
      requests, late results and reconfigurations arrive. */
  lemma QuietForOneCooldown(b: Snapshot, e: Event, c: int, es: seq<Event>, i: nat)
    requires Trips(b, e) && c <= b.cooldown && i < |es| && es[i].Allow?
    requires forall j :: 0 <= j <= i ==> Within(es[j], TimeOf(e, 0), c)
    ensures !Permits(Run(Apply(b, e), es[..i]), es[i].at)
  {
    TripIsAFailure(b, e);
    forall x <- es[..i] ensures Within(x, e.at, c) {
      var j :| 0 <= j < i && es[j] == x;
    }
    StaysOpen(Apply(b, e), e.at, c, es[..i]);
    assert Within(es[i], e.at, c);
  }

  // ---- sequential calls ----

  /** One guarded call: admission at `start`, and if admitted its result at `end`. */
  datatype Call = Call(start: int, end: int, ok: bool)

  function CallStep(b: Snapshot, c: Call): Snapshot {
    var a := Apply(b, Allow(c.start));
    if Permits(b, c.start) then Apply(a, if c.ok then Success(c.end) else Failure(c.end)) else a
  }

  function CallRun(b: Snapshot, cs: seq<Call>): Snapshot {
    if cs == [] then b else CallStep(CallRun(b, cs[..|cs| - 1]), cs[|cs| - 1])
  }

  lemma CallRunSnoc(b: Snapshot, cs: seq<Call>, c: Call)
    ensures CallRun(b, cs + [c]) == CallStep(CallRun(b, cs), c)
  {
    assert (cs + [c])[..|cs|] == cs;
  }

  predicate Sequential(t0: int, cs: seq<Call>) {
    cs == [] ||
    (&& Sequential(t0, cs[..|cs| - 1])
     && EndTime(t0, cs[..|cs| - 1]) <= cs[|cs| - 1].start <= cs[|cs| - 1].end)
  }

  function EndTime(t0: int, cs: seq<Call>): int {
    if cs == [] then t0 else cs[|cs| - 1].end
  }

  /** Actions that really ran and failed, or succeeded. */
  function Ran(b: Snapshot, cs: seq<Call>, ok: bool): nat {
    if cs == [] then 0
    else
      var c := cs[|cs| - 1];
      Ran(b, cs[..|cs| - 1], ok) + (if Permits(CallRun(b, cs[..|cs| - 1]), c.start) && c.ok == ok then 1 else 0)
  }

  /** `paid` cooldowns have been waited out; each paid for at most one canary failure. */
  ghost predicate Ledger(b: Snapshot, b0: Snapshot, failed: nat, won: nat, paid: nat, t0: int, now: int) {
    var th, cool := b0.threshold, b0.cooldown;
    && b.threshold == th && b.cooldown == cool
    && match b.state
       case Closed => 0 <= b.fails < th && failed <= Mul(won, th - 1) + b.fails + paid && Mul(paid, cool) <= now - t0
       case Open => b.lastFailure.Some? && b.lastFailure.value <= now
                    && failed <= Mul(won, th - 1) + th + paid && Mul(paid, cool) <= b.lastFailure.value - t0
       case HalfOpen => 0 <= b.canaries <= 1 && b.canaries <= won
                        && failed + 1 <= Mul(won - b.canaries, th - 1) + th + paid && Mul(paid, cool) <= now - t0
  }

  predicate Usable(b0: Snapshot) {
    b0.threshold > 0 && b0.cooldown > 0
  }

  lemma AllowKeepsLedger(b: Snapshot, b0: Snapshot, failed: nat, won: nat, paid: nat, t0: int, now: int, at: int)
    returns (paid': nat)
    requires Usable(b0) && now <= at && Ledger(b, b0, failed, won, paid, t0, now)
    ensures Ledger(Apply(b, Allow(at)), b0, failed, won, paid', t0, at)
    ensures !Permits(b, at) ==> b.state == Open
    ensures Permits(b, at) ==> Apply(b, Allow(at)).state != Open
  {
    paid' := if b.state == Open && Permits(b, at) then paid + 1 else paid;
  }

  lemma ResultKeepsLedger(b: Snapshot, b0: Snapshot, failed: nat, won: nat, paid: nat, t0: int, now: int, at: int, ok: bool)
    requires Usable(b0) && now <= at && b.state != Open && Ledger(b, b0, failed, won, paid, t0, now)
    ensures Ledger(Apply(b, if ok then Success(at) else Failure(at)), b0,
                   failed + (if ok then 0 else 1), won + (if ok then 1 else 0), paid, t0, at)
  {
    assert Mul(won + 1, b0.threshold - 1) == Mul(won, b0.threshold - 1) + (b0.threshold - 1);
  }

  lemma CallKeepsLedger(b: Snapshot, b0: Snapshot, failed: nat, won: nat, paid: nat, t0: int, now: int, c: Call)
    returns (paid': nat)
    requires Usable(b0) && now <= c.start <= c.end && Ledger(b, b0, failed, won, paid, t0, now)
    ensures var ran := Permits(b, c.start);
            Ledger(CallStep(b, c), b0, failed + (if ran && !c.ok then 1 else 0), won + (if ran && c.ok then 1 else 0),
                   paid', t0, c.end)
  {
    paid' := AllowKeepsLedger(b, b0, failed, won, paid, t0, now, c.start);
    if Permits(b, c.start) {
      ResultKeepsLedger(Apply(b, Allow(c.start)), b0, failed, won, paid', t0, c.start, c.end, c.ok);
    }
  }

  lemma {:induction false} LedgerHolds(b0: Snapshot, t0: int, cs: seq<Call>) returns (paid: nat)
    requires b0.state == Closed && b0.fails == 0 && Usable(b0) && Sequential(t0, cs)
    ensures Ledger(CallRun(b0, cs), b0, Ran(b0, cs, false), Ran(b0, cs, true), paid, t0, EndTime(t0, cs))
    decreases |cs|
  {
    if cs == [] {
      paid := 0;
    } else {
      var before := cs[..|cs| - 1];
      paid := LedgerHolds(b0, t0, before);
      paid := CallKeepsLedger(CallRun(b0, before), b0, Ran(b0, before, false), Ran(b0, before, true),
                              paid, t0, EndTime(t0, before), cs[|cs| - 1]);
    }
  }

  /** One threshold of failures for the start, one less than that for every success, and one
      failure for every cooldown that has passed. */
  function Allowed(b0: Snapshot, won: nat, length: int): int
    requires b0.cooldown > 0
  {
    won * (b0.threshold - 1) + b0.threshold + length / b0.cooldown
  }

  function Allowance(b0: Snapshot, t0: int, cs: seq<Call>): int
    requires b0.cooldown > 0
  {
    Allowed(b0, Ran(b0, cs, true), EndTime(t0, cs) - t0)
  }

  /** Amortised bound: a sequential run from a fresh breaker, `won` of whose actions succeed,
      runs at most `won * (threshold - 1) + threshold` failing actions plus one per elapsed
      cooldown. */
  lemma FailingActionsBound(threshold: int, cooldownSeconds: int, t0: int, cs: seq<Call>)
    requires Sequential(t0, cs)
    ensures var b0 := New(threshold, cooldownSeconds, t0);
            Ran(b0, cs, false) <= Allowance(b0, t0, cs)
  {
    var b0 := New(threshold, cooldownSeconds, t0);
    var paid := LedgerHolds(b0, t0, cs);
    var won := Ran(b0, cs, true);
    MulIsProduct(won, b0.threshold - 1);
    if CallRun(b0, cs).state == HalfOpen { MulGrows(won - CallRun(b0, cs).canaries, won, b0.threshold - 1); }
    PeriodsElapsed(paid, b0.cooldown, EndTime(t0, cs) - t0);
  }

  lemma MulGrows(m: nat, n: nat, d: nat)
    requires m <= n
    ensures Mul(m, d) <= Mul(n, d)
  {
  }

  function WorstTime(b: Snapshot, t0: int, n: nat): int {
    if n <= b.threshold then t0 else t0 + Mul(n - b.threshold, b.cooldown)
  }

  /** The worst client: `threshold` failures at once, then one after every cooldown. */
  function WorstRun(b: Snapshot, t0: int, n: nat): seq<Call> {
    if n == 0 then []
    else WorstRun(b, t0, n - 1) + [Call(WorstTime(b, t0, n), WorstTime(b, t0, n), false)]
  }

  ghost predicate WorstState(b: Snapshot, after: Snapshot, t0: int, n: nat) {
    && after.threshold == b.threshold && after.cooldown == b.cooldown
    && (n < b.threshold ==> after.state == Closed && after.fails == n)
    && (n >= b.threshold ==> after.state == Open && after.lastFailure == Some(WorstTime(b, t0, n)))
  }

  lemma WorstStep(b: Snapshot, after: Snapshot, t0: int, n: nat)
    requires Usable(b) && WorstState(b, after, t0, n)
    ensures WorstTime(b, t0, n) <= WorstTime(b, t0, n + 1)
    ensures Permits(after, WorstTime(b, t0, n + 1))
    ensures WorstState(b, CallStep(after, Call(WorstTime(b, t0, n + 1), WorstTime(b, t0, n + 1), false)), t0, n + 1)
  {
    if n >= b.threshold {
      assert Mul(n + 1 - b.threshold, b.cooldown) == Mul(n - b.threshold, b.cooldown) + b.cooldown;
    }
  }

  ghost predicate WorstSoFar(b: Snapshot, t0: int, n: nat, cs: seq<Call>) {
    && Sequential(t0, cs) && EndTime(t0, cs) == WorstTime(b, t0, n)
    && Ran(b, cs, false) == n && Ran(b, cs, true) == 0
    && WorstState(b, CallRun(b, cs), t0, n)
  }

  lemma WorstGoesOn(b: Snapshot, t0: int, n: nat, cs: seq<Call>, c: Call)
    requires Usable(b) && WorstSoFar(b, t0, n, cs)
    requires c == Call(WorstTime(b, t0, n + 1), WorstTime(b, t0, n + 1), false)
    ensures WorstSoFar(b, t0, n + 1, cs + [c])
  {
    WorstStep(b, CallRun(b, cs), t0, n);
    CallsSnoc(b, t0, cs, c);
  }

  lemma {:induction false} WorstRunState(b: Snapshot, t0: int, n: nat)
    requires b.state == Closed && b.fails == 0 && Usable(b)
    ensures WorstSoFar(b, t0, n, WorstRun(b, t0, n))
  {
    if n > 0 {
      WorstRunState(b, t0, n - 1);
      WorstGoesOn(b, t0, n - 1, WorstRun(b, t0, n - 1), Call(WorstTime(b, t0, n), WorstTime(b, t0, n), false));
    }
  }

  lemma CallsSnoc(b: Snapshot, t0: int, cs: seq<Call>, c: Call)
    requires EndTime(t0, cs) <= c.start <= c.end && Sequential(t0, cs)
    ensures Sequential(t0, cs + [c]) && EndTime(t0, cs + [c]) == c.end
    ensures CallRun(b, cs + [c]) == CallStep(CallRun(b, cs), c)
    ensures forall ok :: Ran(b, cs + [c], ok) == Ran(b, cs, ok) + if Permits(CallRun(b, cs), c.start) && c.ok == ok then 1 else 0
  {
    assert (cs + [c])[..|cs|] == cs;
  }

  // ---- the bound is reached ----

  lemma {:induction false} CallsConcat(b: Snapshot, t0: int, cs: seq<Call>, ds: seq<Call>)
    requires Sequential(t0, cs) && Sequential(EndTime(t0, cs), ds)
    ensures Sequential(t0, cs + ds) && EndTime(t0, cs + ds) == EndTime(EndTime(t0, cs), ds)
    ensures CallRun(b, cs + ds) == CallRun(CallRun(b, cs), ds)
    ensures forall ok :: Ran(b, cs + ds, ok) == Ran(b, cs, ok) + Ran(CallRun(b, cs), ds, ok)
    decreases |ds|
  {
    if ds == [] {
      assert cs + ds == cs;
    } else {
      var before, d := ds[..|ds| - 1], ds[|ds| - 1];
      CallsConcat(b, t0, cs, before);
      assert cs + ds == (cs + before) + [d];
      CallsSnoc(b, t0, cs + before, d);
    }
  }

  /** One failure less than trips, and a success that forgives them. */
  function Forgiven(b: Snapshot, t0: int): seq<Call>
    requires b.threshold > 0
  {
    WorstRun(b, t0, b.threshold - 1) + [Call(t0, t0, true)]
  }

  function Warmup(b: Snapshot, t0: int, wins: nat): seq<Call>
    requires b.threshold > 0
  {
    if wins == 0 then [] else Warmup(b, t0, wins - 1) + Forgiven(b, t0)
  }

  ghost predicate Warm(b: Snapshot, t0: int, wins: nat, cs: seq<Call>) {
    var a := CallRun(b, cs);
    && Sequential(t0, cs) && EndTime(t0, cs) == t0
    && Ran(b, cs, true) == wins && Ran(b, cs, false) == Mul(wins, b.threshold - 1)
    && a.state == Closed && a.fails == 0 && a.threshold == b.threshold && a.cooldown == b.cooldown
  }

  lemma {:induction false} SameWorstRun(a: Snapshot, b: Snapshot, t0: int, n: nat)
    requires a.threshold == b.threshold && a.cooldown == b.cooldown
    ensures WorstRun(a, t0, n) == WorstRun(b, t0, n)
  {
    if n > 0 { SameWorstRun(a, b, t0, n - 1); }
  }

  lemma MulOnce(d: int)
    ensures Mul(1, d) == d
  {
    assert Mul(1, d) == Mul(0, d) + d;
  }

  lemma SuccessForgives(b: Snapshot, t0: int, failing: seq<Call>)
    requires Usable(b) && WorstSoFar(b, t0, b.threshold - 1, failing)
    ensures Warm(b, t0, 1, failing + [Call(t0, t0, true)])
  {
    CallsSnoc(b, t0, failing, Call(t0, t0, true));
    MulOnce(b.threshold - 1);
  }

  lemma ForgivenIsWarm(b: Snapshot, t0: int)
    requires Usable(b) && b.state == Closed && b.fails == 0
    ensures Warm(b, t0, 1, Forgiven(b, t0))
  {
    WorstRunState(b, t0, b.threshold - 1);
    SuccessForgives(b, t0, WorstRun(b, t0, b.threshold - 1));
  }

  lemma SameForgiven(a: Snapshot, b: Snapshot, t0: int)
    requires a.threshold == b.threshold > 0 && a.cooldown == b.cooldown
    ensures Forgiven(a, t0) == Forgiven(b, t0)
  {
    SameWorstRun(a, b, t0, b.threshold - 1);
  }

  lemma WarmAgain(b: Snapshot, t0: int, wins: nat, cs: seq<Call>)
    requires Usable(b) && Warm(b, t0, wins, cs)
    ensures Warm(b, t0, wins + 1, cs + Forgiven(b, t0))
  {
    var a := CallRun(b, cs);
    SameForgiven(a, b, t0);
    ForgivenIsWarm(a, t0);
    JoinWarm(b, t0, wins, cs, Forgiven(b, t0));
  }

  lemma JoinWarm(b: Snapshot, t0: int, wins: nat, cs: seq<Call>, ds: seq<Call>)
    requires Warm(b, t0, wins, cs) && Warm(CallRun(b, cs), t0, 1, ds)
    ensures Warm(b, t0, wins + 1, cs + ds)
  {
    CallsConcat(b, t0, cs, ds);
    MulOnce(b.threshold - 1);
  }

  lemma {:induction false} WarmupIsWarm(b: Snapshot, t0: int, wins: nat)
    requires Usable(b) && b.state == Closed && b.fails == 0
    ensures Warm(b, t0, wins, Warmup(b, t0, wins))
  {
    if wins > 0 {
      WarmupIsWarm(b, t0, wins - 1);
      WarmAgain(b, t0, wins - 1, Warmup(b, t0, wins - 1));
    }
  }

  /** Successes that each forgive as much as they can, a trip, a canary failure after every
      cooldown, and a last request that is refused. */
  function LongRun(b: Snapshot, t0: int, wins: nat, length: nat): seq<Call>
    requires Usable(b)
  {
    Warmup(b, t0, wins) + WorstRun(b, t0, b.threshold + length / b.cooldown) + [Call(t0 + length, t0 + length, false)]
  }

  lemma TripAndCanaries(b: Snapshot, t0: int, wins: nat, n: nat)
    requires Usable(b) && b.state == Closed && b.fails == 0 && n >= b.threshold
    ensures var cs := Warmup(b, t0, wins) + WorstRun(b, t0, n);
            && Sequential(t0, cs) && EndTime(t0, cs) == WorstTime(b, t0, n)
            && Ran(b, cs, true) == wins && Ran(b, cs, false) == Mul(wins, b.threshold - 1) + n
            && WorstState(b, CallRun(b, cs), t0, n)
  {
    var warm := Warmup(b, t0, wins);
    var a := CallRun(b, warm);
    WarmupIsWarm(b, t0, wins);
    SameWorstRun(a, b, t0, n);
    WorstRunState(a, t0, n);
    CallsConcat(b, t0, warm, WorstRun(b, t0, n));
  }

  lemma LastIsRefused(b: Snapshot, after: Snapshot, t0: int, length: nat)
    requires Usable(b) && WorstState(b, after, t0, b.threshold + length / b.cooldown)
    ensures WorstTime(b, t0, b.threshold + length / b.cooldown) <= t0 + length && !Permits(after, t0 + length)
  {
    QuotientBounds(length, b.cooldown);
    MulIsProduct(length / b.cooldown, b.cooldown);
  }

  lemma LongRunHolds(b: Snapshot, t0: int, wins: nat, length: nat, cs: seq<Call>, cools: nat)
    requires Usable(b) && b.state == Closed && b.fails == 0 && cools == length / b.cooldown
    requires cs == Warmup(b, t0, wins) + WorstRun(b, t0, b.threshold + cools)
    ensures var all := cs + [Call(t0 + length, t0 + length, false)];
            && Sequential(t0, all) && EndTime(t0, all) == t0 + length
            && Ran(b, all, true) == wins && Ran(b, all, false) == Mul(wins, b.threshold - 1) + b.threshold + cools
  {
    TripAndCanaries(b, t0, wins, b.threshold + cools);
    LastIsRefused(b, CallRun(b, cs), t0, length);
    CallsSnoc(b, t0, cs, Call(t0 + length, t0 + length, false));
  }

  /** The bound is reached, for every threshold and cooldown, every number of successes and
      every length. */
  lemma FailingActionsBoundIsTight(threshold: int, cooldownSeconds: int, t0: int, wins: nat, length: nat)
    ensures var b0 := New(threshold, cooldownSeconds, t0);
            var cs := LongRun(b0, t0, wins, length);
            && Sequential(t0, cs) && EndTime(t0, cs) == t0 + length && Ran(b0, cs, true) == wins
            && Ran(b0, cs, false) == Allowance(b0, t0, cs)
  {
    var b0 := New(threshold, cooldownSeconds, t0);
    var cools := length / b0.cooldown;
    QuotientAtLeast(b0.cooldown, 0, length);
    LongRunHolds(b0, t0, wins, length, Warmup(b0, t0, wins) + WorstRun(b0, t0, b0.threshold + cools), cools);
    MulIsProduct(wins, b0.threshold - 1);
  }
}
