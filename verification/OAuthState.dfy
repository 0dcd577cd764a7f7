/** The OAuth state value of internal/oauth/oauthService.go: stored when a login starts,
    consumed by the callback.  Times are nanoseconds. */
module OAuthState {
  import opened Base64
  import opened Text
  import opened Wrappers

  datatype Secret = Secret(verifier: string, nonce: string)

  /** 32 random bytes as unpadded base64url. */
  const RANDOM_BYTES := 32

  function Token(random: seq<byte>): string { Encode(UrlSafe, random) }

  function Pack(s: Secret): string { s.verifier + ":" + s.nonce }

  function Unpack(stored: string): Option<Secret> {
    match Cut(Trim(stored), ':')
    case None => None
    case Some((a, b)) =>
      if Trim(a) == "" || Trim(b) == "" then None else Some(Secret(Trim(a), Trim(b)))
  }

  /** A token is what the alphabet allows: no colon, no space, and 43 characters long. */
  predicate TokenLike(t: string) {
    t != "" && NoSpace(t) && ':' !in t
  }

  lemma RandomTokens(random: seq<byte>)
    requires |random| == RANDOM_BYTES
    ensures TokenLike(Token(random)) && |Token(random)| == 43
    ensures Decode(UrlSafe, Token(random)) == Some(random)
  {
    RoundTrip(UrlSafe, random);
    EncodedHasNoSeparator(UrlSafe, random);
  }

  /** Packing loses nothing. */
  lemma UnpackPacked(s: Secret)
    requires TokenLike(s.verifier) && TokenLike(s.nonce)
    ensures Unpack(Pack(s)) == Some(s)
  {
    var v, n := s.verifier, s.nonce;
    assert v[0] in v && v[|v| - 1] in v && n[0] in n && n[|n| - 1] in n;
    TrimmedStays(v);
    TrimmedStays(n);
    assert Pack(s)[0] == v[0] && Pack(s)[|Pack(s)| - 1] == n[|n| - 1];
    TrimmedStays(Pack(s));
    assert Pack(s) == v + [':'] + n;
    CutPiece(v, ':', n);
  }

  // ---- the service ----

  datatype Cookie = NoCookie | Cookie(name: string, value: string)

  datatype Stored = Stored(value: string, expireAt: int)

  /** The last cookie of that name wins. */
  function CookieValue(cookies: seq<Cookie>, name: string): string {
    if cookies == [] then ""
    else
      var c := cookies[|cookies| - 1];
      if c.Cookie? && c.name == name then c.value else CookieValue(cookies[..|cookies| - 1], name)
  }

  /** `i` is the place of the last cookie of the name. */
  predicate LastNamed(cookies: seq<Cookie>, name: string, i: nat) {
    && i < |cookies| && cookies[i].Cookie? && cookies[i].name == name
    && forall j :: i < j < |cookies| ==> !(cookies[j].Cookie? && cookies[j].name == name)
  }

  /** What a cookie name stands for: the value of its last occurrence, or nothing. */
  lemma {:induction false} LastCookieCounts(cookies: seq<Cookie>, name: string, i: nat)
    requires LastNamed(cookies, name, i)
    ensures CookieValue(cookies, name) == cookies[i].value
  {
    if i < |cookies| - 1 {
      LastCookieCounts(cookies[..|cookies| - 1], name, i);
    }
  }

  lemma {:induction false} NoCookieNoValue(cookies: seq<Cookie>, name: string)
    requires forall c <- cookies :: c.Cookie? ==> c.name != name
    ensures CookieValue(cookies, name) == ""
  {
    if cookies != [] {
      assert forall c <- cookies[..|cookies| - 1] :: c in cookies;
      assert cookies[|cookies| - 1] in cookies;
      NoCookieNoValue(cookies[..|cookies| - 1], name);
    }
  }

  /** Without Redis the browser keeps the secret: the cookies a start has set, sent back with any
      others before them, give the callback that secret. */
  lemma CookiesCarryTheSecret(others: seq<Cookie>, stateCookie: string, verifierCookie: string, state: string, secret: Secret)
    requires stateCookie != verifierCookie && TokenLike(secret.verifier) && TokenLike(secret.nonce)
    ensures var cookies := others + [Cookie(stateCookie, state), Cookie(verifierCookie, Pack(secret))];
            && CookieValue(cookies, stateCookie) == state
            && Unpack(CookieValue(cookies, verifierCookie)) == Some(secret)
  {
    var cookies := others + [Cookie(stateCookie, state), Cookie(verifierCookie, Pack(secret))];
    LastCookieCounts(cookies, stateCookie, |others|);
    LastCookieCounts(cookies, verifierCookie, |others| + 1);
    UnpackPacked(secret);
  }

  function Lookup(store: map<string, Stored>, state: string, now: int): Option<string> {
    if state in store && now <= store[state].expireAt then Some(store[state].value) else None
  }

  // ---- the two steps on the Redis store ----

  datatype Step =
    | Begin(state: string, secret: Secret, now: int)
    | Finish(state: string, echoed: string, now: int)

  function Next(ttl: int, store: map<string, Stored>, s: Step): map<string, Stored> {
    match s
    case Begin(state, secret, now) => store[state := Stored(Pack(secret), now + ttl)]
    case Finish(state, echoed, _) => if Trim(echoed) == "" || echoed != state then store else store - {state}
  }

  function Yield(store: map<string, Stored>, s: Step): Option<Secret> {
    if s.Finish? && Trim(s.echoed) != "" && s.echoed == s.state then
      match Lookup(store, s.state, s.now)
      case None => None
      case Some(v) => Unpack(v)
    else None
  }

  class OAuthService {
    const stateCookie: string
    const verifierCookie: string
    const ttl: int
    const hasRedis: bool
    var store: map<string, Stored>

    constructor (stateCookie: string, verifierCookie: string, ttl: int, hasRedis: bool)
      ensures store == map[] && this.stateCookie == stateCookie && this.verifierCookie == verifierCookie
      ensures this.ttl == ttl && this.hasRedis == hasRedis
    {
      this.stateCookie := stateCookie;
      this.verifierCookie := verifierCookie;
      this.ttl := ttl;
      this.hasRedis := hasRedis;
      store := map[];
    }

    /** The cookies it sets; without Redis the secret itself travels in one. */
    method Start(state: string, secret: Secret, now: int) returns (set': seq<Cookie>)
      modifies this
      ensures store == if hasRedis then Next(ttl, old(store), Begin(state, secret, now)) else old(store)
      ensures set' == [Cookie(stateCookie, state)] + (if hasRedis then [] else [Cookie(verifierCookie, Pack(secret))])
    {
      set' := [Cookie(stateCookie, state)];
      if hasRedis {
        store := store[state := Stored(Pack(secret), now + ttl)];
      } else {
        set' := set' + [Cookie(verifierCookie, Pack(secret))];
      }
    }

    method ConsumeState(state: string, cookies: seq<Cookie>, now: int) returns (r: Option<Secret>)
      modifies this
      ensures hasRedis ==>
                var finish := Finish(state, CookieValue(cookies, stateCookie), now);
                store == Next(ttl, old(store), finish) && r == Yield(old(store), finish)
      ensures !hasRedis ==>
                var echoed := CookieValue(cookies, stateCookie);
                && store == old(store)
                && r == if Trim(echoed) == "" || echoed != state then None
                        else Unpack(CookieValue(cookies, verifierCookie))
    {
      var cookieState, cookieVerifier := "", "";
      var i := 0;
      while i < |cookies|
        invariant 0 <= i <= |cookies|
        invariant cookieState == CookieValue(cookies[..i], stateCookie)
        invariant cookieVerifier == CookieValue(cookies[..i], verifierCookie)
      {
        assert cookies[..i + 1][..i] == cookies[..i];
        if cookies[i].Cookie? {
          if cookies[i].name == stateCookie { cookieState := cookies[i].value; }
          if cookies[i].name == verifierCookie { cookieVerifier := cookies[i].value; }
        }
        i := i + 1;
      }
      assert cookies[..i] == cookies;
      if Trim(cookieState) == "" || cookieState != state { return None; }
      var stateValue := Trim(cookieVerifier);
      TrimIdempotent(cookieVerifier);
      if hasRedis {
        var v := Lookup(store, state, now);
        store := store - {state};
        if v == None { return None; }
        stateValue := Trim(v.value);
        TrimIdempotent(v.value);
      }
      return Unpack(stateValue);
    }
  }

  // ---- every interleaving of starts and callbacks, with Redis ----

  function Run(ttl: int, steps: seq<Step>): map<string, Stored> {
    if steps == [] then map[] else Next(ttl, Run(ttl, steps[..|steps| - 1]), steps[|steps| - 1])
  }

  function Started(steps: seq<Step>, state: string): nat {
    if steps == [] then 0
    else
      var s := steps[|steps| - 1];
      Started(steps[..|steps| - 1], state) + (if s.Begin? && s.state == state then 1 else 0)
  }

  /** Callbacks for `state` that were given a secret. */
  function Consumed(ttl: int, steps: seq<Step>, state: string): nat {
    if steps == [] then 0
    else
      var before, s := steps[..|steps| - 1], steps[|steps| - 1];
      Consumed(ttl, before, state) + (if s.state == state && Yield(Run(ttl, before), s).Some? then 1 else 0)
  }

  /** The secret of the most recent start under `state`. */
  function Latest(steps: seq<Step>, state: string): Option<Secret> {
    if steps == [] then None
    else
      var s := steps[|steps| - 1];
      if s.Begin? && s.state == state then Some(s.secret) else Latest(steps[..|steps| - 1], state)
  }

  predicate GoodSecrets(steps: seq<Step>) {
    forall s <- steps :: s.Begin? ==> TokenLike(s.secret.verifier) && TokenLike(s.secret.nonce)
  }

  /** A stored state has an unspent start behind it, and holds that start's secret. */
  lemma {:induction false} StoredHasUnspentStart(ttl: int, steps: seq<Step>, state: string)
    requires GoodSecrets(steps)
    ensures Consumed(ttl, steps, state) + (if state in Run(ttl, steps) then 1 else 0) <= Started(steps, state)
    ensures state in Run(ttl, steps) ==>
              var secret := Latest(steps, state);
              && secret.Some? && TokenLike(secret.value.verifier) && TokenLike(secret.value.nonce)
              && Run(ttl, steps)[state].value == Pack(secret.value)
    decreases |steps|
  {
    if steps != [] {
      var before, s := steps[..|steps| - 1], steps[|steps| - 1];
      assert forall b <- before :: b in steps;
      assert s in steps;
      StoredHasUnspentStart(ttl, before, state);
      YieldNeedsStored(Run(ttl, before), s);
    }
  }

  lemma YieldNeedsStored(store: map<string, Stored>, s: Step)
    ensures Yield(store, s).Some? ==> s.Finish? && s.state in store && s.echoed == s.state && Trim(s.echoed) != ""
  {
  }

  /** Over every run: a state is consumed no more often than it was started, so at most once
      when states are not repeated, and what a callback gets is what its start stored. */
  lemma StateIsSingleUseAndLossless(ttl: int, steps: seq<Step>, s: Step)
    requires GoodSecrets(steps)
    ensures Consumed(ttl, steps, s.state) <= Started(steps, s.state)
    ensures Yield(Run(ttl, steps), s).Some? ==>
              && Yield(Run(ttl, steps), s) == Latest(steps, s.state)
              && Consumed(ttl, steps, s.state) < Started(steps, s.state)
  {
    StoredHasUnspentStart(ttl, steps, s.state);
    YieldNeedsStored(Run(ttl, steps), s);
    if s.state in Run(ttl, steps) {
      UnpackPacked(Latest(steps, s.state).value);
    }
  }

  /** Steps that neither start the state again nor take it: those of other states, and
      callbacks that do not echo it. */
  predicate LeavesAlone(s: Step, state: string) {
    s.state == state ==> s.Finish? && (Trim(s.echoed) == "" || s.echoed != state)
  }

  lemma {:induction false} StaysStored(ttl: int, steps: seq<Step>, later: seq<Step>, state: string)
    requires forall s <- later :: LeavesAlone(s, state)
    ensures state in Run(ttl, steps + later) <==> state in Run(ttl, steps)
    ensures state in Run(ttl, steps) ==> Run(ttl, steps + later)[state] == Run(ttl, steps)[state]
    decreases |later|
  {
    if later == [] {
      assert steps + later == steps;
    } else {
      var n := |later| - 1;
      assert forall s <- later[..n] :: s in later;
      assert later[n] in later;
      StaysStored(ttl, steps, later[..n], state);
      assert (steps + later)[..|steps| + n] == steps + later[..n];
    }
  }

  /** A callback that echoes the state gets exactly the secret of its start, whatever happened to
      other states in between, if and only if it comes within the lifetime. */
  lemma FreshStateIsServedIff(ttl: int, steps: seq<Step>, state: string, secret: Secret, started: int, later: seq<Step>, now: int)
    requires Trim(state) != "" && TokenLike(secret.verifier) && TokenLike(secret.nonce)
    requires forall s <- later :: LeavesAlone(s, state)
    ensures var all := steps + [Begin(state, secret, started)] + later;
            Yield(Run(ttl, all), Finish(state, state, now)) == if now <= started + ttl then Some(secret) else None
  {
    var begun := steps + [Begin(state, secret, started)];
    assert begun[..|begun| - 1] == steps;
    StaysStored(ttl, begun, later, state);
    UnpackPacked(secret);
  }
}
