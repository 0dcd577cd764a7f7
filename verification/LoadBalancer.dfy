/** The endpoint pools of internal/gateway/loadBalancer.go: health tracking, leases handed out
    as release closures, least-connections and round-robin selection, and ResolveURL. */
module LoadBalancer {
  import opened Arith
  import opened Text
  import opened Wrappers

  const COOLDOWN := 15_000_000_000      // nanoseconds
  const MAX_FAILURES := 3
  const UINT64 := 0x1_0000_0000_0000_0000

  datatype Endpoint = Endpoint(
    url: string,
    active: int,
    failures: int,
    healthy: bool,
    lastFailureAt: int)

  function NewEndpoint(url: string): Endpoint { Endpoint(url, 0, 0, true, 0) }

  // ---- what each step does to the endpoints of one pool ----

  function Revived(e: Endpoint, now: int): Endpoint {
    if !e.healthy && now - e.lastFailureAt > COOLDOWN then e.(healthy := true, failures := 0) else e
  }

  function Revive(es: seq<Endpoint>, now: int): (r: seq<Endpoint>)
    ensures |r| == |es| && forall i :: 0 <= i < |es| ==> r[i] == Revived(es[i], now)
  {
    seq(|es|, i requires 0 <= i < |es| => Revived(es[i], now))
  }

  predicate SomeHealthy(es: seq<Endpoint>) {
    exists i :: 0 <= i < |es| && es[i].healthy
  }

  /** Endpoints the choice is made among: the healthy ones, or all if none is healthy. */
  predicate Candidate(es: seq<Endpoint>, i: int) {
    0 <= i < |es| && (SomeHealthy(es) ==> es[i].healthy)
  }

  /** The first endpoint with the fewest active connections. */
  ghost predicate LeastLoaded(es: seq<Endpoint>, c: int) {
    && Candidate(es, c)
    && forall i :: Candidate(es, i) ==> es[c].active <= es[i].active && (i < c ==> es[c].active < es[i].active)
  }

  /** The candidates in pool order. */
  function Candidates(es: seq<Endpoint>, n: nat): (r: seq<nat>)
    requires n <= |es|
    ensures forall j :: 0 <= j < |r| ==> r[j] < n && Candidate(es, r[j])
    ensures forall i :: 0 <= i < n && Candidate(es, i) ==> i in r
    ensures forall j, k :: 0 <= j < k < |r| ==> r[j] < r[k]
  {
    if n == 0 then []
    else
      var before := Candidates(es, n - 1);
      if Candidate(es, n - 1) then before + [n - 1] else before
  }

  ghost predicate NextInTurn(es: seq<Endpoint>, counter: nat, c: int) {
    var cs := Candidates(es, |es|);
    |cs| > 0 && c == cs[counter % |cs|]
  }

  function Taken(es: seq<Endpoint>, c: nat): seq<Endpoint>
    requires c < |es|
  {
    es[c := es[c].(active := es[c].active + 1)]
  }

  function Dropped(es: seq<Endpoint>, c: nat): seq<Endpoint>
    requires c < |es|
  {
    es[c := es[c].(active := es[c].active - 1)]
  }

  function Judged(e: Endpoint, success: bool, now: int): Endpoint {
    if success then e.(failures := 0, healthy := true)
    else
      var f := e.(failures := e.failures + 1);
      if f.failures >= MAX_FAILURES then f.(healthy := false, lastFailureAt := now) else f
  }

  function Settled(es: seq<Endpoint>, c: nat, success: bool, now: int): seq<Endpoint>
    requires c < |es|
  {
    es[c := Judged(es[c], success, now)]
  }

  /** Of the candidates in order, the first with the fewest connections. */
  lemma FewestIsLeast(es: seq<Endpoint>, cs: seq<nat>, at: nat)
    requires cs == Candidates(es, |es|) && at < |cs|
    requires forall j :: 0 <= j < |cs| ==> es[cs[at]].active <= es[cs[j]].active
    requires forall j :: 0 <= j < at ==> es[cs[at]].active < es[cs[j]].active
    ensures LeastLoaded(es, cs[at])
  {
    var c := cs[at];
    forall i | Candidate(es, i)
      ensures es[c].active <= es[i].active && (i < c ==> es[c].active < es[i].active)
    {
      assert i in cs;
      var j :| 0 <= j < |cs| && cs[j] == i;
      assert es[c].active <= es[cs[j]].active;
      if j > at { assert c < cs[j]; }
    }
  }

  // ---- the pool object ----

  class ServicePool {
    const leastConn: bool
    var endpoints: seq<Endpoint>
    var rrCounter: nat

    constructor (leastConn: bool, endpoints: seq<Endpoint>)
      ensures this.leastConn == leastConn && this.endpoints == endpoints && rrCounter == 0
    {
      this.leastConn := leastConn;
      this.endpoints := endpoints;
      rrCounter := 0;
    }

    /** Selection under the pool's lock; the release closure holds the index returned. */
    method Select(now: int) returns (c: nat)
      requires endpoints != []
      modifies this
      ensures c < |endpoints| == |old(endpoints)|
      ensures endpoints == Taken(Revive(old(endpoints), now), c)
      ensures Candidate(Revive(old(endpoints), now), c)
      ensures leastConn ==> LeastLoaded(Revive(old(endpoints), now), c) && rrCounter == old(rrCounter)
      ensures !leastConn ==> rrCounter == (old(rrCounter) + 1) % UINT64
                             && NextInTurn(Revive(old(endpoints), now), rrCounter, c)
    {
      ReEvaluate(now);
      c := Pick();
      endpoints := endpoints[c := endpoints[c].(active := endpoints[c].active + 1)];
    }

    method Pick() returns (c: nat)
      requires endpoints != []
      modifies this`rrCounter
      ensures Candidate(endpoints, c)
      ensures leastConn ==> LeastLoaded(endpoints, c) && rrCounter == old(rrCounter)
      ensures !leastConn ==> rrCounter == (old(rrCounter) + 1) % UINT64 && NextInTurn(endpoints, rrCounter, c)
    {
      var healthy := FilterHealthy();
      if leastConn {
        c := FewestConnections(healthy);
      } else {
        rrCounter := (rrCounter + 1) % UINT64;
        var turn := rrCounter % |healthy|;
        c := healthy[turn];
      }
    }

    /** Endpoints whose cooldown has passed become healthy again. */
    method ReEvaluate(now: int)
      modifies this`endpoints
      ensures endpoints == Revive(old(endpoints), now)
    {
      var i := 0;
      while i < |endpoints|
        invariant 0 <= i <= |endpoints| == |old(endpoints)|
        invariant forall j :: 0 <= j < i ==> endpoints[j] == Revived(old(endpoints)[j], now)
        invariant forall j :: i <= j < |endpoints| ==> endpoints[j] == old(endpoints)[j]
      {
        if !endpoints[i].healthy && now - endpoints[i].lastFailureAt > COOLDOWN {
          endpoints := endpoints[i := endpoints[i].(healthy := true, failures := 0)];
        }
        i := i + 1;
      }
    }

    /** The healthy endpoints, or all of them when there are none. */
    method FilterHealthy() returns (healthy: seq<nat>)
      requires endpoints != []
      ensures healthy == Candidates(endpoints, |endpoints|) && healthy != []
    {
      healthy := [];
      var i := 0;
      while i < |endpoints|
        invariant 0 <= i <= |endpoints|
        invariant SomeHealthy(endpoints) ==> healthy == Candidates(endpoints, i)
        invariant healthy == [] <==> forall j :: 0 <= j < i ==> !endpoints[j].healthy
      {
        if endpoints[i].healthy {
          healthy := healthy + [i];
        }
        i := i + 1;
      }
      if |healthy| == 0 {
        assert !SomeHealthy(endpoints);
        AllAreCandidates(endpoints, |endpoints|);
        healthy := seq(|endpoints|, k => k);
      }
    }

    method FewestConnections(healthy: seq<nat>) returns (c: nat)
      requires healthy == Candidates(endpoints, |endpoints|) && healthy != []
      ensures LeastLoaded(endpoints, c)
    {
      assert forall j :: 0 <= j < |healthy| ==> healthy[j] < |endpoints|;
      c := healthy[0];
      var minConns := endpoints[c].active;
      var k, at := 1, 0;
      while k < |healthy|
        invariant 1 <= k <= |healthy| && 0 <= at < k && c == healthy[at] && minConns == endpoints[c].active
        invariant forall j :: 0 <= j < k ==> minConns <= endpoints[healthy[j]].active
        invariant forall j :: 0 <= j < at ==> minConns < endpoints[healthy[j]].active
      {
        var conns := endpoints[healthy[k]].active;
        if conns < minConns {
          c, minConns, at := healthy[k], conns, k;
        }
        k := k + 1;
      }
      FewestIsLeast(endpoints, healthy, at);
    }

    /** First half of a release: an atomic decrement outside the lock. */
    method ReleaseConnection(c: nat)
      requires c < |endpoints|
      modifies this`endpoints
      ensures endpoints == Dropped(old(endpoints), c)
    {
      endpoints := endpoints[c := endpoints[c].(active := endpoints[c].active - 1)];
    }

    /** Second half: the outcome is recorded under the lock. */
    method RecordOutcome(c: nat, success: bool, now: int)
      requires c < |endpoints|
      modifies this`endpoints
      ensures endpoints == Settled(old(endpoints), c, success, now)
    {
      var e := endpoints[c];
      if success {
        e := e.(failures := 0, healthy := true);
      } else {
        e := e.(failures := e.failures + 1);
        if e.failures >= MAX_FAILURES {
          e := e.(healthy := false, lastFailureAt := now);
        }
      }
      endpoints := endpoints[c := e];
    }
  }

  // ---- the balancer object ----

  function PoolKey(name: string): string { Lower(Trim(name)) }

  lemma NamesAreFolded(name: string)
    ensures PoolKey(Upper(name)) == PoolKey(name) && PoolKey(Trim(name)) == PoolKey(name)
  {
    CaseFolds(name);
    TrimIdempotent(name);
  }

  /** Usable URLs in a list of comma-separated lists, in order. */
  function Usable(parses: string -> bool, parts: seq<string>): seq<string> {
    if parts == [] then []
    else
      var u := Trim(parts[|parts| - 1]);
      Usable(parses, parts[..|parts| - 1]) + (if u != "" && parses(u) then [u] else [])
  }

  function UsableAll(parses: string -> bool, raws: seq<string>): seq<string> {
    if raws == [] then []
    else UsableAll(parses, raws[..|raws| - 1]) + Usable(parses, Split(raws[|raws| - 1], ','))
  }

  function Urls(es: seq<Endpoint>): (r: seq<string>)
    ensures |r| == |es| && forall i :: 0 <= i < |es| ==> r[i] == es[i].url
  {
    seq(|es|, i requires 0 <= i < |es| => es[i].url)
  }

  predicate AllNew(es: seq<Endpoint>) {
    forall i :: 0 <= i < |es| ==> es[i] == NewEndpoint(es[i].url)
  }

  /** A pool as a service name finds it. */
  datatype View = View(leastConn: bool, endpoints: seq<Endpoint>)

  /** One selection that is never released: the pool's endpoints before and after it. */
  ghost predicate Served(leastConn: bool, before: seq<Endpoint>, now: int, after: seq<Endpoint>, url: string) {
    exists c: nat ::
      && c < |before|
      && Candidate(Revive(before, now), c)
      && (leastConn ==> LeastLoaded(Revive(before, now), c))
      && after == Taken(Revive(before, now), c)
      && url == before[c].url
  }

  /** The pool a list is answered from: the one under the name, or a new one made of the list. */
  function Consulted(parses: string -> bool, name: string, before: Option<View>, parts: seq<string>): Option<View> {
    if before.Some? then before
    else if Trim(name) != "" && UsableAll(parses, parts) != [] then
      Some(View(true, StartPool(UsableAll(parses, parts)).endpoints))
    else None
  }

  /** One call of ResolveURL: its answer, and the pool under the name before and after it. */
  ghost predicate Resolves(parses: string -> bool, name: string, before: Option<View>, rawURL: string, now: int, after: Option<View>, url: string) {
    var parts := Split(rawURL, ',');
    if |parts| <= 1 then url == Trim(rawURL) && after == before
    else
      match Consulted(parses, name, before, parts)
      case None => url == Trim(parts[0]) && after == None
      case Some(pool) =>
        && after.Some? && after.value.leastConn == pool.leastConn
        && Served(pool.leastConn, pool.endpoints, now, after.value.endpoints, url)
  }

  class LoadBalancer {
    /** Whether a URL parses and names a host. */
    const parses: string -> bool
    var pools: map<string, ServicePool>

    ghost predicate Valid() reads this, set k | k in pools :: pools[k] {
      && "" !in pools && (forall k <- pools :: pools[k].endpoints != [])
      && (forall j, k :: j in pools && k in pools && j != k ==> pools[j] != pools[k])
    }

    ghost function Registered(name: string): seq<string> reads this, set k | k in pools :: pools[k] {
      if PoolKey(name) in pools then Urls(pools[PoolKey(name)].endpoints) else []
    }

    ghost function PoolOf(name: string): Option<View> reads this, set k | k in pools :: pools[k] {
      if PoolKey(name) in pools
      then Some(View(pools[PoolKey(name)].leastConn, pools[PoolKey(name)].endpoints))
      else None
    }

    constructor (parses: string -> bool)
      ensures this.parses == parses && pools == map[] && Valid()
    {
      this.parses := parses;
      pools := map[];
    }

    method ParseList(raw: string) returns (endpoints: seq<Endpoint>)
      ensures AllNew(endpoints) && Urls(endpoints) == Usable(parses, Split(raw, ','))
    {
      endpoints := [];
      var parts := Split(raw, ',');
      var j := 0;
      while j < |parts|
        invariant 0 <= j <= |parts|
        invariant AllNew(endpoints) && Urls(endpoints) == Usable(parses, parts[..j])
      {
        var trimmed := Trim(parts[j]);
        assert parts[..j + 1][..j] == parts[..j];
        if trimmed != "" && parses(trimmed) {
          ghost var before := Urls(endpoints);
          endpoints := endpoints + [NewEndpoint(trimmed)];
          assert Urls(endpoints) == before + [trimmed];
        }
        j := j + 1;
      }
      assert parts[..j] == parts;
    }

    method RegisterService(name: string, rawURLs: seq<string>, algorithm: string) returns (ok: bool)
      requires Valid()
      modifies this
      ensures Valid()
      ensures ok <==> Trim(name) != "" && UsableAll(parses, rawURLs) != []
      ensures !ok ==> pools == old(pools)
      ensures ok ==> PoolKey(name) in pools && fresh(pools[PoolKey(name)])
                     && pools == old(pools)[PoolKey(name) := pools[PoolKey(name)]]
                     && pools[PoolKey(name)].leastConn == (algorithm == "" || algorithm == "least_conn")
                     && AllNew(pools[PoolKey(name)].endpoints)
                     && Registered(name) == UsableAll(parses, rawURLs)
    {
      if Trim(name) == "" || |rawURLs| == 0 { return false; }
      var endpoints := ParseAll(rawURLs);
      if |endpoints| == 0 { return false; }
      assert |PoolKey(name)| == |Trim(name)|;
      var pool := new ServicePool(algorithm == "" || algorithm == "least_conn", endpoints);
      pools := pools[PoolKey(name) := pool];
      return true;
    }

    method ParseAll(rawURLs: seq<string>) returns (endpoints: seq<Endpoint>)
      ensures AllNew(endpoints) && Urls(endpoints) == UsableAll(parses, rawURLs)
    {
      endpoints := [];
      var i := 0;
      while i < |rawURLs|
        invariant 0 <= i <= |rawURLs|
        invariant AllNew(endpoints) && Urls(endpoints) == UsableAll(parses, rawURLs[..i])
      {
        var more := ParseList(rawURLs[i]);
        assert rawURLs[..i + 1][..i] == rawURLs[..i];
        NewEndpointsConcat(endpoints, more);
        endpoints := endpoints + more;
        i := i + 1;
      }
      assert rawURLs[..i] == rawURLs;
    }

    /** The URL, and the pool and index its release closure holds. */
    method Select(name: string, now: int) returns (url: string, pool: ServicePool?, c: nat)
      requires Valid()
      modifies if PoolKey(name) in pools then {pools[PoolKey(name)]} else {}
      ensures pools == old(pools) && Valid()
      ensures pool == null <==> PoolKey(name) !in pools
      ensures pool != null ==>
                && pool == pools[PoolKey(name)]
                && old(pool.endpoints) != []
                && c < |old(pool.endpoints)|
                && Candidate(Revive(old(pool.endpoints), now), c)
                && (pool.leastConn ==> LeastLoaded(Revive(old(pool.endpoints), now), c))
                && pool.endpoints == Taken(Revive(old(pool.endpoints), now), c)
                && url == old(pool.endpoints)[c].url
    {
      var k := PoolKey(name);
      if k !in pools || |pools[k].endpoints| == 0 {
        return "", null, 0;
      }
      pool := pools[k];
      c := pool.Select(now);
      url := pool.endpoints[c].url;
    }

    /** One URL passes through; a list is answered from the pool under the service name, which
        is registered from the list only if there is none yet. */
    method ResolveURL(name: string, rawURL: string, now: int) returns (url: string)
      requires Valid()
      modifies this, if PoolKey(name) in pools then {pools[PoolKey(name)]} else {}
      ensures Valid()
      ensures Resolves(parses, name, old(PoolOf(name)), rawURL, now, PoolOf(name), url)
      ensures forall k :: k in old(pools) ==> k in pools && pools[k] == old(pools)[k]
      ensures forall k :: k in pools && k != PoolKey(name) ==> k in old(pools)
    {
      var parts := Split(rawURL, ',');
      if |parts| <= 1 { return Trim(rawURL); }
      ghost var consulted := Consulted(parses, name, PoolOf(name), parts);
      if PoolKey(name) !in pools {
        var ok := RegisterService(name, parts, "least_conn");
        if ok {
          ghost var es := pools[PoolKey(name)].endpoints;
          assert es == StartPool(Urls(es)).endpoints;
        }
      }
      assert PoolOf(name) == consulted;
      var pool, c;
      url, pool, c := Select(name, now);
      if pool == null { return Trim(parts[0]); }
    }
  }

  lemma NewEndpointsConcat(a: seq<Endpoint>, b: seq<Endpoint>)
    requires AllNew(a) && AllNew(b)
    ensures AllNew(a + b) && Urls(a + b) == Urls(a) + Urls(b)
  {
  }

  lemma {:induction false} PiecesHaveNoSeparator(s: string, sep: char)
    ensures forall p <- Split(s, sep) :: sep !in p
  {
    if s != [] {
      PiecesHaveNoSeparator(s[1..], sep);
      var rest := Split(s[1..], sep);
      assert rest[0] in rest;
      assert forall p <- rest[1..] :: p in rest;
    }
  }

  function TrimAll(parts: seq<string>): (r: seq<string>)
    ensures |r| == |parts| && forall i :: 0 <= i < |parts| ==> r[i] == Trim(parts[i])
  {
    seq(|parts|, i requires 0 <= i < |parts| => Trim(parts[i]))
  }

  lemma {:induction false} UsableAreListed(parses: string -> bool, parts: seq<string>)
    requires forall p <- parts :: ',' !in p
    ensures forall u <- UsableAll(parses, parts) :: u in TrimAll(parts)
    decreases |parts|
  {
    if parts != [] {
      var n := |parts| - 1;
      assert forall p <- parts[..n] :: p in parts;
      UsableAreListed(parses, parts[..n]);
      assert ',' !in parts[n];
      SplitLast(parts[n], ',');
      assert Usable(parses, [parts[n]][..0]) == [];
      forall u <- UsableAll(parses, parts)
        ensures u in TrimAll(parts)
      {
        if u in UsableAll(parses, parts[..n]) {
          var i :| 0 <= i < n && TrimAll(parts[..n])[i] == u;
          assert TrimAll(parts)[i] == u;
        } else {
          assert TrimAll(parts)[n] == u;
        }
      }
    }
  }

  /** The usable URLs are exactly the trimmed pieces that are not blank and parse. */
  lemma {:induction false} UsableIff(parses: string -> bool, parts: seq<string>, u: string)
    ensures u in Usable(parses, parts) <==> u != "" && parses(u) && exists p <- parts :: Trim(p) == u
  {
    if parts != [] {
      var before, last := parts[..|parts| - 1], parts[|parts| - 1];
      assert parts == before + [last];
      UsableIff(parses, before, u);
    }
  }

  lemma {:induction false} UsableAllIff(parses: string -> bool, raws: seq<string>, u: string)
    ensures u in UsableAll(parses, raws) <==>
              u != "" && parses(u) && exists raw <- raws :: exists p <- Split(raw, ',') :: Trim(p) == u
  {
    if raws != [] {
      var before, last := raws[..|raws| - 1], raws[|raws| - 1];
      assert raws == before + [last];
      UsableAllIff(parses, before, u);
      UsableIff(parses, Split(last, ','), u);
    }
  }

  lemma {:induction false} AllAreCandidates(es: seq<Endpoint>, n: nat)
    requires n <= |es| && !SomeHealthy(es)
    ensures Candidates(es, n) == seq(n, k => k)
  {
    if n > 0 {
      AllAreCandidates(es, n - 1);
      assert Candidate(es, n - 1);
      assert seq(n, k => k) == seq(n - 1, k => k) + [n - 1];
    }
  }

  // ---- every interleaving of selections and releases ----

  /** `held`: leases whose connection is open; `settling`: connection closed, outcome not yet
      recorded. */
  datatype Pool = Pool(endpoints: seq<Endpoint>, held: multiset<nat>, settling: multiset<nat>)

  datatype Step =
    | Select(now: int, chosen: nat)
    | Close(lease: nat)
    | Settle(lease: nat, success: bool, now: int)

  /** A selection takes any candidate, so this covers both algorithms. */
  predicate Allowed(p: Pool, s: Step) {
    match s
    case Select(now, c) => Candidate(Revive(p.endpoints, now), c)
    case Close(i) => i in p.held
    case Settle(i, _, _) => i in p.settling
  }

  ghost predicate LeasesInRange(p: Pool) {
    forall i :: i in p.held || i in p.settling ==> i < |p.endpoints|
  }

  function Next(p: Pool, s: Step): Pool
    requires Allowed(p, s) && LeasesInRange(p)
  {
    match s
    case Select(now, c) => Pool(Taken(Revive(p.endpoints, now), c), p.held + multiset{c}, p.settling)
    case Close(i) => Pool(Dropped(p.endpoints, i), p.held - multiset{i}, p.settling + multiset{i})
    case Settle(i, ok, now) => p.(endpoints := Settled(p.endpoints, i, ok, now), settling := p.settling - multiset{i})
  }

  /** Connection counts equal the outstanding leases, and health is the failure count. */
  ghost predicate Coherent(p: Pool) {
    && LeasesInRange(p)
    && forall i :: 0 <= i < |p.endpoints| ==> EndpointCoherent(p.endpoints[i], p.held[i])
  }

  predicate EndpointCoherent(e: Endpoint, leases: nat) {
    && e.active == leases
    && 0 <= e.failures
    && (e.healthy <==> e.failures < MAX_FAILURES)
  }

  lemma EndpointSteps(e: Endpoint, leases: nat, success: bool, now: int)
    requires EndpointCoherent(e, leases)
    ensures EndpointCoherent(Revived(e, now), leases)
    ensures EndpointCoherent(Judged(e, success, now), leases)
  {
  }

  lemma SelectKeepsCoherent(p: Pool, now: int, c: nat)
    requires Coherent(p) && Candidate(Revive(p.endpoints, now), c)
    ensures Coherent(Next(p, Select(now, c)))
  {
    var r := Revive(p.endpoints, now);
    forall i | 0 <= i < |r|
      ensures EndpointCoherent(r[i], p.held[i])
    {
      EndpointSteps(p.endpoints[i], p.held[i], true, now);
    }
  }

  lemma SettleKeepsCoherent(p: Pool, i: nat, success: bool, now: int)
    requires Coherent(p) && i in p.settling
    ensures Coherent(Next(p, Settle(i, success, now)))
  {
    EndpointSteps(p.endpoints[i], p.held[i], success, now);
  }

  lemma StepKeepsCoherent(p: Pool, s: Step)
    requires Coherent(p) && Allowed(p, s)
    ensures Coherent(Next(p, s)) && |Next(p, s).endpoints| == |p.endpoints|
  {
    match s
    case Select(now, c) => SelectKeepsCoherent(p, now, c);
    case Close(_) =>
    case Settle(i, success, now) => SettleKeepsCoherent(p, i, success, now);
  }

  function StartPool(urls: seq<string>): Pool {
    Pool(seq(|urls|, i requires 0 <= i < |urls| => NewEndpoint(urls[i])), multiset{}, multiset{})
  }

  /** `trace` lists the pool's states along `steps`. */
  ghost predicate Trace(trace: seq<Pool>, steps: seq<Step>) {
    && |trace| == |steps| + 1
    && forall k :: 0 <= k < |steps| ==>
         LeasesInRange(trace[k]) && Allowed(trace[k], steps[k]) && trace[k + 1] == Next(trace[k], steps[k])
  }

  lemma StartIsCoherent(urls: seq<string>)
    ensures Coherent(StartPool(urls))
  {
  }

  lemma {:induction false} CoherentAlways(urls: seq<string>, trace: seq<Pool>, steps: seq<Step>, k: nat)
    requires Trace(trace, steps) && trace[0] == StartPool(urls) && k <= |steps|
    ensures Coherent(trace[k]) && |trace[k].endpoints| == |urls|
  {
    if k == 0 {
      StartIsCoherent(urls);
    } else {
      CoherentAlways(urls, trace, steps, k - 1);
      var p, s := trace[k - 1], steps[k - 1];
      StepKeepsCoherent(p, s);
      assert trace[k] == Next(p, s);
    }
  }

  /** What the history says of one endpoint: failures in a row, and when it last became or stayed
      unhealthy. */
  datatype Health = Health(streak: nat, last: int)

  function HealthOf(steps: seq<Step>, i: nat): Health {
    if steps == [] then Health(0, 0) else HealthAfter(HealthOf(steps[..|steps| - 1], i), steps[|steps| - 1], i)
  }

  function HealthAfter(h: Health, s: Step, i: nat): Health {
    match s
    case Select(now, _) => if h.streak >= 3 && now - h.last > 15_000_000_000 then h.(streak := 0) else h
    case Close(_) => h
    case Settle(lease, success, now) =>
      if lease != i then h
      else if success then h.(streak := 0)
      else Health(h.streak + 1, if h.streak >= 2 then now else h.last)
  }

  predicate Shows(e: Endpoint, h: Health) {
    e.failures == h.streak && e.lastFailureAt == h.last && (e.healthy <==> h.streak < 3)
  }

  lemma StepShows(p: Pool, s: Step, i: nat, h: Health)
    requires LeasesInRange(p) && Allowed(p, s) && i < |p.endpoints| && Shows(p.endpoints[i], h)
    ensures |Next(p, s).endpoints| == |p.endpoints| && Shows(Next(p, s).endpoints[i], HealthAfter(h, s, i))
  {
  }

  /** An endpoint is unhealthy exactly after three failures in a row, until a success or the first
      selection more than fifteen seconds after the latest of them. */
  lemma {:induction false} HealthMatchesHistory(urls: seq<string>, trace: seq<Pool>, steps: seq<Step>, k: nat, i: nat)
    requires Trace(trace, steps) && trace[0] == StartPool(urls) && k <= |steps| && i < |urls|
    ensures |trace[k].endpoints| == |urls| && Shows(trace[k].endpoints[i], HealthOf(steps[..k], i))
  {
    if k > 0 {
      HealthMatchesHistory(urls, trace, steps, k - 1, i);
      assert steps[..k][..k - 1] == steps[..k - 1];
      assert LeasesInRange(trace[k - 1]) && trace[k] == Next(trace[k - 1], steps[k - 1]);
      StepShows(trace[k - 1], steps[k - 1], i, HealthOf(steps[..k - 1], i));
    }
  }

  /** A pool with an endpoint always has a candidate, and while one endpoint is healthy no
      unhealthy one is chosen. */
  lemma SelectNeverFails(es: seq<Endpoint>)
    requires es != []
    ensures exists c :: Candidate(es, c)
    ensures SomeHealthy(es) ==> forall c :: Candidate(es, c) ==> es[c].healthy
  {
    if SomeHealthy(es) {
      var i :| 0 <= i < |es| && es[i].healthy;
      assert Candidate(es, i);
    } else {
      assert Candidate(es, 0);
    }
  }

  // ---- ResolveURL never releases: least-connections becomes round-robin ----

  /** Connection counts after `q` full rounds and `r` more calls. */
  predicate Level(es: seq<Endpoint>, q: nat, r: nat) {
    && r < |es|
    && forall i :: 0 <= i < |es| ==> es[i].healthy && es[i].active == q + (if i < r then 1 else 0)
  }

  lemma LevelStep(es: seq<Endpoint>, now: int, q: nat, r: nat, c: nat)
    requires Level(es, q, r) && LeastLoaded(Revive(es, now), c)
    ensures c == r
    ensures Revive(es, now) == es
    ensures if r + 1 < |es| then Level(Taken(es, c), q, r + 1) else Level(Taken(es, c), q + 1, 0)
  {
    assert Revive(es, now) == es;
    assert Candidate(es, r);
    assert Candidate(es, c);
  }

  /** The pool's states when only selections happen. */
  function AfterSelections(es: seq<Endpoint>, nows: seq<int>, chosen: seq<nat>): seq<Endpoint>
    requires |nows| == |chosen| && forall c <- chosen :: c < |es|
    ensures |AfterSelections(es, nows, chosen)| == |es|
  {
    if chosen == [] then es
    else
      var n := |chosen| - 1;
      assert forall c <- chosen[..n] :: c in chosen;
      assert chosen[n] in chosen;
      Taken(Revive(AfterSelections(es, nows[..n], chosen[..n]), nows[n]), chosen[n])
  }

  ghost predicate LeastConnRun(es: seq<Endpoint>, nows: seq<int>, chosen: seq<nat>) {
    && |nows| == |chosen|
    && (forall c <- chosen :: c < |es|)
    && (chosen == [] ||
        var n := |chosen| - 1;
        && (forall c <- chosen[..n] :: c in chosen)
        && LeastConnRun(es, nows[..n], chosen[..n])
        && LeastLoaded(Revive(AfterSelections(es, nows[..n], chosen[..n]), nows[n]), chosen[n]))
  }

  lemma {:induction false} UnreleasedIsLevel(es: seq<Endpoint>, nows: seq<int>, chosen: seq<nat>)
    returns (q: nat, r: nat)
    requires es != [] && Level(es, 0, 0) && LeastConnRun(es, nows, chosen)
    ensures Level(AfterSelections(es, nows, chosen), q, r)
    ensures |chosen| == Mul(q, |es|) + r
    ensures forall k :: 0 <= k < |chosen| ==> chosen[k] == k % |es|
    decreases |chosen|
  {
    if chosen == [] {
      q, r := 0, 0;
    } else {
      var n := |chosen| - 1;
      q, r := UnreleasedIsLevel(es, nows[..n], chosen[..n]);
      LevelStep(AfterSelections(es, nows[..n], chosen[..n]), nows[n], q, r, chosen[n]);
      TurnOf(q, |es|, r, n);
      forall k | 0 <= k < |chosen|
        ensures chosen[k] == k % |es|
      {
        if k < n { assert chosen[k] == chosen[..n][k]; }
      }
      if r + 1 < |es| {
        r := r + 1;
      } else {
        q, r := q + 1, 0;
      }
    }
  }

  lemma TurnOf(q: nat, n: int, r: nat, k: int)
    requires n > 0 && r < n && k == Mul(q, n) + r
    ensures k % n == r
  {
    MulIsProduct(q, n);
    QuotientAtLeast(n, q, k);
    Distribute(n, q, 1);
    QuotientBelow(n, q + 1, k);
    assert k == n * (k / n) + k % n;
  }

  // ---- runs of ResolveURL under one service name ----

  datatype Call = Call(rawURL: string, now: int, url: string)

  function Parts(c: Call): seq<string> { Split(c.rawURL, ',') }

  predicate IsList(c: Call) { |Parts(c)| > 1 }

  /** `views` are the pools under the name along the calls; at first there is none. */
  ghost predicate ResolveRun(parses: string -> bool, name: string, views: seq<Option<View>>, calls: seq<Call>) {
    && |views| == |calls| + 1 && views[0] == None
    && forall k :: 0 <= k < |calls| ==>
         Resolves(parses, name, views[k], calls[k].rawURL, calls[k].now, views[k + 1], calls[k].url)
  }

  /** The URLs of the first list that had a usable one; they stay the pool's. */
  function Owned(parses: string -> bool, name: string, calls: seq<Call>): seq<string> {
    if calls == [] || Trim(name) == "" then []
    else
      var before, last := Owned(parses, name, calls[..|calls| - 1]), calls[|calls| - 1];
      if before != [] || !IsList(last) then before else UsableAll(parses, Parts(last))
  }

  /** Calls answered from the pool so far. */
  function Turns(parses: string -> bool, name: string, calls: seq<Call>): nat {
    if calls == [] then 0
    else
      Turns(parses, name, calls[..|calls| - 1]) +
      if IsList(calls[|calls| - 1]) && Owned(parses, name, calls) != [] then 1 else 0
  }

  /** What the last of these calls should answer: a single URL itself; a list the next URL in
      turn of the pool, or its own first entry while there is no pool. */
  function Expected(parses: string -> bool, name: string, calls: seq<Call>): string
    requires calls != []
  {
    var last, owned := calls[|calls| - 1], Owned(parses, name, calls);
    if !IsList(last) then Trim(last.rawURL)
    else if owned == [] then Trim(Parts(last)[0])
    else owned[Turns(parses, name, calls[..|calls| - 1]) % |owned|]
  }

  /** The pool holds the owned URLs, `turns` selections after it was new. */
  ghost predicate Turned(owned: seq<string>, turns: nat, view: Option<View>) {
    if owned == [] then view == None
    else
      && view.Some? && view.value.leastConn && Urls(view.value.endpoints) == owned
      && exists q: nat, r: nat :: Level(view.value.endpoints, q, r) && turns == Mul(q, |owned|) + r
  }

  lemma ServedInTurn(es: seq<Endpoint>, now: int, after: seq<Endpoint>, url: string, turns: nat)
    requires es != [] && Turned(Urls(es), turns, Some(View(true, es))) && Served(true, es, now, after, url)
    ensures url == Urls(es)[turns % |es|]
    ensures Turned(Urls(es), turns + 1, Some(View(true, after)))
  {
    var q: nat, r: nat :| Level(es, q, r) && turns == Mul(q, |es|) + r;
    var c: nat :| c < |es| && LeastLoaded(Revive(es, now), c) && after == Taken(Revive(es, now), c) && url == es[c].url;
    LevelStep(es, now, q, r, c);
    TurnOf(q, |es|, r, turns);
    assert Urls(after) == Urls(es);
    if r + 1 < |es| {
      assert Level(after, q, r + 1) && turns + 1 == Mul(q, |es|) + (r + 1);
    } else {
      assert Level(after, q + 1, 0) && turns + 1 == Mul(q + 1, |es|) + 0;
    }
  }

  lemma NewPoolIsTurned(urls: seq<string>)
    requires urls != []
    ensures Urls(StartPool(urls).endpoints) == urls
    ensures Turned(urls, 0, Some(View(true, StartPool(urls).endpoints)))
  {
    assert Urls(StartPool(urls).endpoints) == urls;
    assert Level(StartPool(urls).endpoints, 0, 0) && 0 == Mul(0, |urls|) + 0;
  }

  lemma ResolveStep(parses: string -> bool, name: string, before: Option<View>, calls: seq<Call>, after: Option<View>)
    requires calls != []
    requires var earlier, last := calls[..|calls| - 1], calls[|calls| - 1];
             && Turned(Owned(parses, name, earlier), Turns(parses, name, earlier), before)
             && (Owned(parses, name, earlier) == [] ==> Turns(parses, name, earlier) == 0)
             && Resolves(parses, name, before, last.rawURL, last.now, after, last.url)
    ensures calls[|calls| - 1].url == Expected(parses, name, calls)
    ensures Turned(Owned(parses, name, calls), Turns(parses, name, calls), after)
    ensures Owned(parses, name, calls) == [] ==> Turns(parses, name, calls) == 0
  {
    var earlier, last := calls[..|calls| - 1], calls[|calls| - 1];
    var owned := Owned(parses, name, calls);
    if IsList(last) && owned != [] {
      if before.None? { NewPoolIsTurned(owned); }
      var pool := Consulted(parses, name, before, Parts(last)).value;
      ServedInTurn(pool.endpoints, last.now, after.value.endpoints, last.url, Turns(parses, name, earlier));
    }
  }

  /** ResolveURL is exactly round-robin over the first usable list it was ever given: in every
      run under one service name every call answers what `Expected` says, and no endpoint of
      the pool is ever more than one connection ahead of another. */
  lemma {:induction false} ResolveIsRoundRobin(parses: string -> bool, name: string, views: seq<Option<View>>, calls: seq<Call>, k: nat)
    requires ResolveRun(parses, name, views, calls) && k <= |calls|
    ensures k > 0 ==> calls[k - 1].url == Expected(parses, name, calls[..k])
    ensures Turned(Owned(parses, name, calls[..k]), Turns(parses, name, calls[..k]), views[k])
    ensures Owned(parses, name, calls[..k]) == [] ==> Turns(parses, name, calls[..k]) == 0
    ensures views[k].Some? ==>
              var es := views[k].value.endpoints;
              forall i, j :: 0 <= i < |es| && 0 <= j < |es| ==> es[i].active - es[j].active <= 1
  {
    if k > 0 {
      ResolveIsRoundRobin(parses, name, views, calls, k - 1);
      assert calls[..k][..k - 1] == calls[..k - 1];
      ResolveStep(parses, name, views[k - 1], calls[..k], views[k]);
    }
  }

  /** A list is answered from itself exactly if it names the URL whose turn it is in the first
      usable list, or there has been none: once a name is taken, the list itself is ignored. */
  lemma AnswersFromOwnListIff(parses: string -> bool, name: string, views: seq<Option<View>>, calls: seq<Call>, k: nat)
    requires ResolveRun(parses, name, views, calls) && k < |calls| && IsList(calls[k])
    ensures var owned, turns := Owned(parses, name, calls[..k]), Turns(parses, name, calls[..k]);
            calls[k].url in TrimAll(Parts(calls[k]))
            <==> owned == [] || owned[turns % |owned|] in TrimAll(Parts(calls[k]))
  {
    var now, parts := calls[..k + 1], Parts(calls[k]);
    assert now[..k] == calls[..k];
    ResolveIsRoundRobin(parses, name, views, calls, k);
    ResolveIsRoundRobin(parses, name, views, calls, k + 1);
    PiecesHaveNoSeparator(calls[k].rawURL, ',');
    UsableAreListed(parses, parts);
    assert Trim(parts[0]) == TrimAll(parts)[0];
    var owned := Owned(parses, name, now);
    if Owned(parses, name, calls[..k]) == [] && owned != [] {
      assert owned[0] in owned;
    }
  }

  /** Such a failing run, for any two URLs: a second list under the same name, whatever it
      names, is answered with the second URL of the first. */
  lemma SecondListIsIgnored(parses: string -> bool, name: string, x: string, y: string, views: seq<Option<View>>, first: Call, second: Call)
    requires Trim(name) != "" && ',' !in x && ',' !in y
    requires Trim(x) == x != "" && Trim(y) == y != "" && parses(x) && parses(y)
    requires ResolveRun(parses, name, views, [first, second])
    requires first.rawURL == x + [','] + y && IsList(second)
    ensures first.url == x && second.url == y
  {
    SplitTwo(x, y);
    UsableTwo(parses, x, y);
    FirstTwoAnswers(parses, name, views, first, second);
  }

  lemma FirstTwoAnswers(parses: string -> bool, name: string, views: seq<Option<View>>, first: Call, second: Call)
    requires Trim(name) != "" && IsList(first) && |UsableAll(parses, Parts(first))| >= 2 && IsList(second)
    requires ResolveRun(parses, name, views, [first, second])
    ensures first.url == UsableAll(parses, Parts(first))[0] && second.url == UsableAll(parses, Parts(first))[1]
  {
    var one, two := [first], [first] + [second];
    assert two == [first, second] && two[..1] == one && two[..2] == two;
    FirstListOwns(parses, name, first);
    OneMoreCall(parses, name, one, second);
    OneTurn(|UsableAll(parses, Parts(first))|);
    ResolveIsRoundRobin(parses, name, views, two, 1);
    ResolveIsRoundRobin(parses, name, views, two, 2);
  }

  lemma OneTurn(n: nat)
    requires n >= 2
    ensures 1 % n == 1
  {
  }

  lemma FirstListOwns(parses: string -> bool, name: string, c: Call)
    requires Trim(name) != "" && IsList(c) && UsableAll(parses, Parts(c)) != []
    ensures Owned(parses, name, [c]) == UsableAll(parses, Parts(c)) && Turns(parses, name, [c]) == 1
    ensures Expected(parses, name, [c]) == UsableAll(parses, Parts(c))[0]
  {
    var none: seq<Call> := [];
    assert none + [c] == [c];
    assert Owned(parses, name, none) == [] && Turns(parses, name, none) == 0;
    OneMoreCall(parses, name, none, c);
    NoTurns(|UsableAll(parses, Parts(c))|);
  }

  lemma NoTurns(n: nat)
    requires n > 0
    ensures 0 % n == 0
  {
  }

  lemma OneMoreCall(parses: string -> bool, name: string, before: seq<Call>, c: Call)
    requires Trim(name) != "" && IsList(c)
    ensures Owned(parses, name, before + [c])
            == if Owned(parses, name, before) != [] then Owned(parses, name, before) else UsableAll(parses, Parts(c))
    ensures var owned := Owned(parses, name, before + [c]);
            owned != [] ==>
              && Turns(parses, name, before + [c]) == Turns(parses, name, before) + 1
              && Expected(parses, name, before + [c]) == owned[Turns(parses, name, before) % |owned|]
  {
    assert (before + [c])[..|before|] == before;
  }

  lemma SplitTwo(x: string, y: string)
    requires ',' !in x && ',' !in y
    ensures Split(x + [','] + y, ',') == [x, y]
  {
    SplitPiece(x, ',', y);
    SplitLast(y, ',');
  }

  lemma UsableTwo(parses: string -> bool, x: string, y: string)
    requires ',' !in x && ',' !in y && Trim(x) == x != "" && Trim(y) == y != "" && parses(x) && parses(y)
    ensures UsableAll(parses, [x, y]) == [x, y]
  {
    var none: seq<string> := [];
    assert none + [x] == [x] && [x] + [y] == [x, y];
    UsableOne(parses, x);
    UsableOne(parses, y);
    OneMoreList(parses, none, x);
    OneMoreList(parses, [x], y);
  }

  lemma OneMoreList(parses: string -> bool, raws: seq<string>, raw: string)
    ensures UsableAll(parses, raws + [raw]) == UsableAll(parses, raws) + Usable(parses, Split(raw, ','))
  {
    assert (raws + [raw])[..|raws|] == raws;
  }

  lemma UsableOne(parses: string -> bool, x: string)
    requires ',' !in x && Trim(x) == x != "" && parses(x)
    ensures Usable(parses, Split(x, ',')) == [x]
  {
    SplitLast(x, ',');
    assert [x][..0] == [];
  }

  // ---- round-robin turns ----

  predicate AllHealthy(es: seq<Endpoint>) { forall i :: 0 <= i < |es| ==> es[i].healthy }

  ghost predicate SelectsInTurn(before: seq<Endpoint>, counter: nat, now: int, c: nat, after: seq<Endpoint>) {
    && NextInTurn(Revive(before, now), counter, c)
    && c < |before| && after == Taken(Revive(before, now), c)
  }

  /** Round-robin selections from a counter value, with no release between them; `states` are
      the pool's endpoints along the way. */
  ghost predicate RoundRobinRun(states: seq<seq<Endpoint>>, counter: nat, nows: seq<int>, chosen: seq<nat>) {
    && |states| == |chosen| + 1 && |nows| == |chosen|
    && forall k :: 0 <= k < |chosen| ==>
         SelectsInTurn(states[k], (counter + k + 1) % UINT64, nows[k], chosen[k], states[k + 1])
  }

  lemma {:induction false} HealthyTakesAll(es: seq<Endpoint>, n: nat)
    requires AllHealthy(es) && n <= |es|
    ensures Candidates(es, n) == seq(n, k => k)
  {
    if n > 0 {
      HealthyTakesAll(es, n - 1);
      assert Candidate(es, n - 1);
      assert seq(n, k => k) == seq(n - 1, k => k) + [n - 1];
    }
  }

  function Turn(counter: nat, k: nat, n: nat): nat
    requires n > 0
  {
    (counter + k + 1) % UINT64 % n
  }

  lemma HealthyTurn(es: seq<Endpoint>, now: int, counter: nat, c: nat, after: seq<Endpoint>)
    requires es != [] && AllHealthy(es) && SelectsInTurn(es, counter, now, c, after)
    ensures c == counter % |es| && AllHealthy(after) && |after| == |es|
  {
    assert Revive(es, now) == es;
    HealthyTakesAll(es, |es|);
  }

  /** The k-th selection takes the endpoint the counter points at. */
  lemma {:induction false} TurnsAreTaken(states: seq<seq<Endpoint>>, counter: nat, nows: seq<int>, chosen: seq<nat>, k: nat)
    requires RoundRobinRun(states, counter, nows, chosen) && states[0] != [] && AllHealthy(states[0]) && k <= |chosen|
    ensures AllHealthy(states[k]) && |states[k]| == |states[0]|
    ensures k < |chosen| ==> chosen[k] == Turn(counter, k, |states[0]|)
  {
    if k > 0 {
      TurnsAreTaken(states, counter, nows, chosen, k - 1);
      HealthyTurn(states[k - 1], nows[k - 1], (counter + k) % UINT64, chosen[k - 1], states[k]);
    }
    if k < |chosen| {
      HealthyTurn(states[k], nows[k], (counter + k + 1) % UINT64, chosen[k], states[k + 1]);
    }
  }

  lemma SelectionExists(es: seq<Endpoint>, counter: nat) returns (c: nat, after: seq<Endpoint>)
    requires es != [] && AllHealthy(es)
    ensures SelectsInTurn(es, counter, 0, c, after)
  {
    assert Revive(es, 0) == es;
    HealthyTakesAll(es, |es|);
    c := counter % |es|;
    after := Taken(Revive(es, 0), c);
  }

  /** Every number of selections can happen. */
  lemma {:induction false} RunExists(es: seq<Endpoint>, counter: nat, m: nat) returns (states: seq<seq<Endpoint>>, nows: seq<int>, chosen: seq<nat>)
    requires es != [] && AllHealthy(es)
    ensures RoundRobinRun(states, counter, nows, chosen) && |chosen| == m && states[0] == es
  {
    if m == 0 {
      states, nows, chosen := [es], [], [];
    } else {
      states, nows, chosen := RunExists(es, counter, m - 1);
      TurnsAreTaken(states, counter, nows, chosen, m - 1);
      var c, after := SelectionExists(states[m - 1], (counter + m) % UINT64);
      states, nows, chosen := states + [after], nows + [0], chosen + [c];
    }
  }

  predicate Distinct(chosen: seq<nat>) {
    forall i, j :: 0 <= i < j < |chosen| ==> chosen[i] != chosen[j]
  }

  /** Residues of numbers less than `n` apart differ. */
  lemma NearResidues(a: nat, b: nat, n: nat)
    requires a < b < a + n
    ensures a % n != b % n
  {
    if a % n == b % n {
      assert b - a == n * (b / n) - n * (a / n) by {
        assert a == n * (a / n) + a % n;
        assert b == n * (b / n) + b % n;
      }
      Distribute(n, b / n, -(a / n));
      if b / n - a / n >= 1 {
        Monotone(n, 1, b / n - a / n);
      } else {
        Monotone(n, b / n - a / n, 0);
      }
      assert false;
    }
  }

  /** A counter that wraps at a multiple of `n` goes on with the next endpoint. */
  lemma WrapIsInvisible(x: nat, n: nat)
    requires n > 0 && UINT64 % n == 0 && x < 2 * UINT64
    ensures x % UINT64 % n == x % n
  {
    if x >= UINT64 {
      var q := UINT64 / n;
      assert UINT64 == n * q + UINT64 % n;
      assert x - UINT64 == n * ((x - UINT64) / n) + (x - UINT64) % n;
      Distribute(n, q, (x - UINT64) / n);
      Residue(x, n, q + (x - UINT64) / n, (x - UINT64) % n);
    }
  }

  lemma Residue(x: nat, n: nat, q: nat, r: nat)
    requires n > 0 && r < n && x == n * q + r
    ensures x % n == r
  {
    MulIsProduct(q, n);
    assert Mul(q, n) == n * q;
    TurnOf(q, n, r, x);
  }

  lemma DistinctTurns(counter: nat, n: nat, i: nat, j: nat)
    requires n > 0 && UINT64 % n == 0 && counter < UINT64 && n <= UINT64 && i < j < n
    ensures Turn(counter, i, n) != Turn(counter, j, n)
  {
    WrapIsInvisible(counter + i + 1, n);
    WrapIsInvisible(counter + j + 1, n);
    NearResidues(counter + i + 1, counter + j + 1, n);
  }

  lemma BeforeMultiple(w: nat, n: nat)
    requires n > 0 && w % n != 0
    ensures w > 0 && (w - 1) % n == w % n - 1
  {
    assert w == n * (w / n) + w % n;
    Residue(w - 1, n, w / n, w % n - 1);
  }

  lemma LastTurn(n: nat, j: nat)
    requires 0 < j < n <= UINT64
    ensures Turn(UINT64 - 2, 0, n) == (UINT64 - 1) % n && Turn(UINT64 - 2, j, n) == j - 1
  {
    assert (UINT64 - 2 + 0 + 1) % UINT64 == UINT64 - 1;
    assert (UINT64 - 2 + j + 1) % UINT64 == j - 1;
    Residue(j - 1, n, 0, j - 1);
  }

  /** At the wrap-around the turn before it comes again, unless the counter wraps evenly. */
  lemma WrapRepeatsATurn(es: seq<Endpoint>) returns (states: seq<seq<Endpoint>>, nows: seq<int>, chosen: seq<nat>)
    requires 0 < |es| <= UINT64 && AllHealthy(es) && UINT64 % |es| != 0
    ensures RoundRobinRun(states, UINT64 - 2, nows, chosen) && |chosen| == |es| && states[0] == es
    ensures !Distinct(chosen)
  {
    var n := |es|;
    var j := UINT64 % n;
    states, nows, chosen := RunExists(es, UINT64 - 2, n);
    TurnsAreTaken(states, UINT64 - 2, nows, chosen, 0);
    TurnsAreTaken(states, UINT64 - 2, nows, chosen, j);
    LastTurn(n, j);
    BeforeMultiple(UINT64, n);
    assert chosen[0] == chosen[j];
  }

  lemma EvenWrapKeepsTurns(states: seq<seq<Endpoint>>, counter: nat, nows: seq<int>, chosen: seq<nat>)
    requires RoundRobinRun(states, counter, nows, chosen) && counter < UINT64 && AllHealthy(states[0])
    requires 0 < |states[0]| == |chosen| <= UINT64 && UINT64 % |states[0]| == 0
    ensures Distinct(chosen)
  {
    forall i, j | 0 <= i < j < |chosen| ensures chosen[i] != chosen[j] {
      TurnsAreTaken(states, counter, nows, chosen, i);
      TurnsAreTaken(states, counter, nows, chosen, j);
      DistinctTurns(counter, |chosen|, i, j);
    }
  }

  /** From every counter value, `n` round-robin selections on these `n` healthy endpoints take
      each of them once. */
  ghost predicate EvenTurns(es: seq<Endpoint>) {
    forall states: seq<seq<Endpoint>>, counter: nat, nows: seq<int>, chosen: seq<nat> |
      RoundRobinRun(states, counter, nows, chosen) && states[0] == es && counter < UINT64 && |chosen| == |es| ::
      Distinct(chosen)
  }

  /** That is so exactly if `n` divides the range of the 64-bit counter. */
  lemma TurnsAreDistinctIff(es: seq<Endpoint>)
    requires 0 < |es| <= UINT64 && AllHealthy(es)
    ensures EvenTurns(es) <==> UINT64 % |es| == 0
  {
    if UINT64 % |es| == 0 {
      forall states: seq<seq<Endpoint>>, counter: nat, nows: seq<int>, chosen: seq<nat> |
        RoundRobinRun(states, counter, nows, chosen) && states[0] == es && counter < UINT64 && |chosen| == |es|
        ensures Distinct(chosen)
      {
        EvenWrapKeepsTurns(states, counter, nows, chosen);
      }
    } else {
      var states, nows, chosen := WrapRepeatsATurn(es);
    }
  }
}
