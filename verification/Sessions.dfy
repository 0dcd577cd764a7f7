/** The session store of internal/auth/sessionManager.go, a Postgres table read through a Redis
    copy, and the token checks of internal/auth/tokenValidator.go.  Times are nanoseconds on one
    clock; a Redis key is live up to and including its expiry time. */
module Sessions {
  import opened Text
  import opened Wrappers

  datatype Session = Session(
    id: string,
    user: string,
    institution: string,
    token: string,
    expiresAt: int,
    revoked: bool)

  datatype Cached = Cached(session: Session, expireAt: int)

  /** Which stores are configured, and which users' rows an institution's transactions see. */
  datatype Config = Config(hasPool: bool, hasRedis: bool, sees: (string, string) -> bool)

  datatype Store = Store(rows: map<string, Session>, cache: map<string, Cached>, blacklist: map<string, int>)

  const EMPTY := Store(map[], map[], map[])
  const MINUTE := 60_000_000_000
  const DAY := 24 * 60 * MINUTE

  // ---- validation ----

  function Check(s: Session, now: int): Result<Session> {
    if Trim(s.id) == "" || Trim(s.user) == "" then Err("invalid session")
    else if s.expiresAt <= now then Err("session expired")
    else if s.revoked then Err("session revoked")
    else Ok(s)
  }

  /** A row's optional columns come back trimmed. */
  function Tidy(s: Session): Session {
    s.(institution := Trim(s.institution), token := Trim(s.token))
  }

  predicate Hit(c: Config, st: Store, sid: string, now: int) {
    c.hasRedis && sid in st.cache && now <= st.cache[sid].expireAt
  }

  function FromRows(c: Config, st: Store, sid: string, now: int): Result<Session> {
    if !c.hasPool then Err("session store unavailable")
    else if sid !in st.rows then Err("invalid session")
    else Check(Tidy(st.rows[sid]), now)
  }

  /** A live Redis copy decides alone, without a look at the table. */
  function Validate(c: Config, st: Store, sessionID: string, now: int): Result<Session> {
    var sid := Trim(sessionID);
    if sid == "" then Err("session id required")
    else if Hit(c, st, sid, now) then Check(st.cache[sid].session, now)
    else FromRows(c, st, sid, now)
  }

  predicate Blacklisted(c: Config, st: Store, token: string, now: int) {
    c.hasRedis && Trim(token) != "" && Trim(token) in st.blacklist && now <= st.blacklist[Trim(token)]
  }

  datatype Kind = Access | Refresh

  /** Claims of a token whose signature, issuer, audience and times are in order. */
  datatype Claims = Claims(kind: Kind, subject: string, token: string, session: string, institution: string)

  predicate Accepts(c: Config, st: Store, claims: Claims, expected: Kind, now: int) {
    && claims.kind == expected
    && Trim(claims.subject) != "" && Trim(claims.token) != ""
    && Trim(claims.session) != "" && Trim(claims.institution) != ""
    && !Blacklisted(c, st, claims.token, now)
    && var v := Validate(c, st, claims.session, now);
       && v.Ok?
       && (v.value.id != "" ==> v.value.id == claims.session)
       && (expected == Refresh && Trim(v.value.token) != "" ==> Trim(v.value.token) == Trim(claims.token))
  }

  // ---- the operations ----

  datatype Step =
    | Create(session: Session, now: int)
    | Revoke(institution: string, sid: string)
    | SetToken(institution: string, sid: string, token: string, now: int)
    | Blacklist(token: string, ttl: int, now: int)
    | RevokeAll(user: string, now: int)
    | Evict(sid: string)          // Redis loses a key on its own

  function Next(c: Config, st: Store, s: Step): Store {
    match s
    case Create(x, now) => Created(c, st, x, now)
    case Revoke(inst, sid) => Revoked(c, st, inst, Trim(sid))
    case SetToken(inst, sid, tid, now) => if Trim(tid) == "" then st else TokenSet(c, st, inst, Trim(sid), Trim(tid), now)
    case Blacklist(tid, ttl, now) => Listed(c, st, Trim(tid), ttl, now)
    case RevokeAll(user, now) => AllRevoked(c, st, Trim(user), now)
    case Evict(sid) => st.(cache := st.cache - {sid})
  }

  function Created(c: Config, st: Store, x: Session, now: int): Store {
    if Trim(x.id) == "" || Trim(x.user) == "" || x.expiresAt <= now then st
    else
      st.(rows := if c.hasPool && x.id !in st.rows then st.rows[x.id := x] else st.rows,
          cache := if c.hasRedis then st.cache[x.id := Cached(x, x.expiresAt)] else st.cache)
  }

  function Revoked(c: Config, st: Store, inst: string, sid: string): Store {
    if sid == "" then st
    else
      st.(rows := if c.hasPool && sid in st.rows && c.sees(inst, st.rows[sid].user)
                  then st.rows[sid := st.rows[sid].(revoked := true)] else st.rows,
          cache := if c.hasRedis then st.cache - {sid} else st.cache)
  }

  function TokenSet(c: Config, st: Store, inst: string, sid: string, tid: string, now: int): Store {
    if sid == "" then st
    else
      st.(rows := if c.hasPool && sid in st.rows && c.sees(inst, st.rows[sid].user)
                  then st.rows[sid := st.rows[sid].(token := tid)] else st.rows,
          cache := if Hit(c, st, sid, now) && now < st.cache[sid].session.expiresAt
                   then var x := st.cache[sid].session.(token := tid); st.cache[sid := Cached(x, x.expiresAt)]
                   else st.cache)
  }

  function Listed(c: Config, st: Store, tid: string, ttl: int, now: int): Store {
    if !c.hasRedis || tid == "" then st
    else st.(blacklist := st.blacklist[tid := now + (if ttl <= 0 then MINUTE else ttl)])
  }

  function Owned(rows: map<string, Session>, user: string): set<string> {
    set k | k in rows && rows[k].user == user
  }

  function TokensOf(rows: map<string, Session>, ids: set<string>): set<string>
    requires ids <= rows.Keys
  {
    set k | k in ids && rows[k].token != "" :: Trim(rows[k].token)
  }

  /** Finds sessions through the table only. */
  function AllRevoked(c: Config, st: Store, user: string, now: int): Store {
    if user == "" || !c.hasPool then st
    else
      var ids := Owned(st.rows, user);
      var tokens := TokensOf(st.rows, ids) - {""};
      Store(map k | k in st.rows :: if k in ids then st.rows[k].(revoked := true) else st.rows[k],
            if c.hasRedis then st.cache - ids else st.cache,
            if c.hasRedis then st.blacklist + (map t | t in tokens :: now + DAY) else st.blacklist)
  }

  // ---- the manager object ----

  class SessionManager {
    const config: Config
    var rows: map<string, Session>
    var cache: map<string, Cached>
    var blacklist: map<string, int>

    ghost function Model(): Store reads this { Store(rows, cache, blacklist) }

    constructor (config: Config)
      ensures this.config == config && Model() == EMPTY
    {
      this.config := config;
      rows, cache, blacklist := map[], map[], map[];
    }

    method CreateSession(x: Session, now: int) returns (ok: bool)
      modifies this
      ensures Model() == Next(config, old(Model()), Create(x, now))
      ensures ok <==> Trim(x.id) != "" && Trim(x.user) != "" && x.expiresAt > now
    {
      if Trim(x.id) == "" || Trim(x.user) == "" { return false; }
      var ttl := x.expiresAt - now;
      if ttl <= 0 { return false; }
      if config.hasPool {
        if x.id !in rows { rows := rows[x.id := x]; }
      }
      if config.hasRedis {
        cache := cache[x.id := Cached(x, now + ttl)];
      }
      return true;
    }

    method ValidateSession(sessionID: string, now: int) returns (r: Result<Session>)
      ensures r == Validate(config, Model(), sessionID, now)
    {
      var sid := Trim(sessionID);
      if sid == "" { return Err("session id required"); }
      if config.hasRedis {
        if sid in cache && now <= cache[sid].expireAt {
          return Check(cache[sid].session, now);
        }
      }
      if !config.hasPool { return Err("session store unavailable"); }
      if sid !in rows { return Err("invalid session"); }
      return Check(Tidy(rows[sid]), now);
    }

    method RevokeSession(institution: string, sessionID: string)
      modifies this
      ensures Model() == Next(config, old(Model()), Revoke(institution, sessionID))
    {
      var sid := Trim(sessionID);
      if sid == "" { return; }
      if config.hasPool {
        if sid in rows && config.sees(institution, rows[sid].user) {
          rows := rows[sid := rows[sid].(revoked := true)];
        }
      }
      if config.hasRedis {
        cache := cache - {sid};
      }
    }

    method SetTokenID(institution: string, sessionID: string, tokenID: string, now: int)
      modifies this
      ensures Model() == Next(config, old(Model()), SetToken(institution, sessionID, tokenID, now))
    {
      var sid, tid := Trim(sessionID), Trim(tokenID);
      if sid == "" || tid == "" { return; }
      if config.hasPool {
        if sid in rows && config.sees(institution, rows[sid].user) {
          rows := rows[sid := rows[sid].(token := tid)];
        }
      }
      if config.hasRedis {
        if sid in cache && now <= cache[sid].expireAt {
          var s := cache[sid].session.(token := tid);
          var ttl := s.expiresAt - now;
          if ttl > 0 { cache := cache[sid := Cached(s, now + ttl)]; }
        }
      }
    }

    method BlacklistTokenID(tokenID: string, ttl: int, now: int)
      modifies this
      ensures Model() == Next(config, old(Model()), Blacklist(tokenID, ttl, now))
    {
      if !config.hasRedis { return; }
      var tid := Trim(tokenID);
      if tid == "" { return; }
      var life := ttl;
      if life <= 0 { life := MINUTE; }
      blacklist := blacklist[tid := now + life];
    }

    /** Collects the user's sessions from the table, revokes them in one statement, then deletes
        the Redis copies and blacklists the tokens one by one. */
    method RevokeAllUserSessions(userID: string, now: int)
      modifies this
      ensures Model() == Next(config, old(Model()), RevokeAll(userID, now))
    {
      var uid := Trim(userID);
      if uid == "" || !config.hasPool { return; }
      var ids := Owned(rows, uid);
      var tokens := TokensOf(rows, ids) - {""};
      rows := map k | k in rows :: if k in ids then rows[k].(revoked := true) else rows[k];
      if config.hasRedis {
        DeleteCopies(ids);
        BlacklistAll(tokens, now);
      }
    }

    method DeleteCopies(ids: set<string>)
      modifies this`cache
      ensures cache == old(cache) - ids
    {
      var left := ids;
      while left != {}
        invariant left <= ids && cache == old(cache) - (ids - left)
        decreases left
      {
        var sid :| sid in left;
        cache := cache - {sid};
        left := left - {sid};
      }
    }

    method BlacklistAll(tokens: set<string>, now: int)
      modifies this`blacklist
      ensures blacklist == old(blacklist) + (map t | t in tokens :: now + DAY)
    {
      var left := tokens;
      while left != {}
        invariant left <= tokens && blacklist == old(blacklist) + (map t | t in tokens - left :: now + DAY)
        decreases left
      {
        var tid :| tid in left;
        blacklist := blacklist[tid := now + DAY];
        left := left - {tid};
      }
      assert tokens - left == tokens;
    }
  }

  // ---- every run ----

  function Run(c: Config, st: Store, steps: seq<Step>): Store {
    if steps == [] then st else Next(c, Run(c, st, steps[..|steps| - 1]), steps[|steps| - 1])
  }

  /** The latest time a run has seen. */
  function Clock(steps: seq<Step>, start: int): int {
    if steps == [] then start
    else
      var last := steps[|steps| - 1];
      if last.Revoke? || last.Evict? then Clock(steps[..|steps| - 1], start) else last.now
  }

  /** Each Redis copy belongs to a row, dies with it, and equals it until then.  After that a
      lapsed copy may differ: a token set late reaches the row alone. */
  ghost predicate Agree(st: Store, clock: int) {
    forall sid <- st.cache :: AgreesAt(st, sid, clock)
  }

  /** Redis holds copies only where there is a Redis. */
  predicate Placed(c: Config, st: Store) { !c.hasRedis ==> st.cache == map[] }

  predicate AgreesAt(st: Store, sid: string, clock: int)
    requires sid in st.cache
  {
    && sid in st.rows
    && var x := st.cache[sid].session;
       && st.cache[sid].expireAt == x.expiresAt == st.rows[sid].expiresAt
       && x.id == st.rows[sid].id && x.user == st.rows[sid].user
       && (clock < x.expiresAt ==> x == st.rows[sid])
  }

  /** Time does not run backwards, identifiers are not reused, and a token is set by an
      institution that sees the owner. */
  predicate Proper(c: Config, st: Store, s: Step, clock: int) {
    && (s.Revoke? || s.Evict? || clock <= s.now)
    && match s
       case Create(x, _) => x.id !in st.rows
       case SetToken(inst, sid, _, _) => Trim(sid) in st.rows ==> c.sees(inst, st.rows[Trim(sid)].user)
       case _ => true
  }

  predicate AllProper(c: Config, steps: seq<Step>, start: int) {
    steps == [] ||
    (&& AllProper(c, steps[..|steps| - 1], start)
     && Proper(c, Run(c, EMPTY, steps[..|steps| - 1]), steps[|steps| - 1], Clock(steps[..|steps| - 1], start)))
  }

  lemma AgreeLater(st: Store, clock: int, later: int)
    requires Agree(st, clock) && clock <= later
    ensures Agree(st, later)
  {
    forall sid <- st.cache ensures AgreesAt(st, sid, later) { assert AgreesAt(st, sid, clock); }
  }

  lemma CreatedKeeps(c: Config, st: Store, x: Session, now: int)
    requires c.hasPool && Agree(st, now) && x.id !in st.rows
    ensures Agree(Created(c, st, x, now), now)
  {
    var after := Created(c, st, x, now);
    forall sid <- after.cache ensures AgreesAt(after, sid, now) {
      if sid in st.cache { assert AgreesAt(st, sid, now); }
    }
  }

  lemma RevokedKeeps(c: Config, st: Store, inst: string, sid: string, clock: int)
    requires c.hasPool && Placed(c, st) && Agree(st, clock)
    ensures Agree(Revoked(c, st, inst, sid), clock)
  {
    var after := Revoked(c, st, inst, sid);
    forall k <- after.cache ensures AgreesAt(after, k, clock) { assert AgreesAt(st, k, clock); }
  }

  lemma TokenSetKeeps(c: Config, st: Store, inst: string, sid: string, tid: string, now: int)
    requires c.hasPool && Placed(c, st) && Agree(st, now)
    requires sid in st.rows ==> c.sees(inst, st.rows[sid].user)
    ensures Agree(TokenSet(c, st, inst, sid, tid, now), now)
  {
    var after := TokenSet(c, st, inst, sid, tid, now);
    forall k <- after.cache ensures AgreesAt(after, k, now) { assert AgreesAt(st, k, now); }
  }

  lemma AllRevokedKeeps(c: Config, st: Store, user: string, now: int)
    requires c.hasPool && Placed(c, st) && Agree(st, now)
    ensures Agree(AllRevoked(c, st, user, now), now)
  {
    var after := AllRevoked(c, st, user, now);
    forall k <- after.cache ensures AgreesAt(after, k, now) { assert AgreesAt(st, k, now); }
  }

  lemma StepKeepsAgreement(c: Config, st: Store, s: Step, clock: int)
    requires c.hasPool && Placed(c, st) && Agree(st, clock) && Proper(c, st, s, clock)
    ensures Agree(Next(c, st, s), if s.Revoke? || s.Evict? then clock else s.now)
  {
    if !s.Revoke? && !s.Evict? { AgreeLater(st, clock, s.now); }
    match s
    case Create(x, now) => CreatedKeeps(c, st, x, now);
    case Revoke(inst, sid) => RevokedKeeps(c, st, inst, Trim(sid), clock);
    case SetToken(inst, sid, tid, now) => TokenSetKeeps(c, st, inst, Trim(sid), Trim(tid), now);
    case Blacklist(tid, ttl, now) => UnlistedAgrees(st, Listed(c, st, Trim(tid), ttl, now), now);
    case RevokeAll(user, now) => AllRevokedKeeps(c, st, Trim(user), now);
    case Evict(sid) => UnlistedAgrees(st, Next(c, st, s), clock);
  }

  /** Agreement says nothing of the blacklist, nor of copies that are gone. */
  lemma UnlistedAgrees(st: Store, after: Store, clock: int)
    requires Agree(st, clock) && after.rows == st.rows
    requires after.cache.Keys <= st.cache.Keys && forall sid <- after.cache :: after.cache[sid] == st.cache[sid]
    ensures Agree(after, clock)
  {
    forall sid <- after.cache ensures AgreesAt(after, sid, clock) { assert AgreesAt(st, sid, clock); }
  }

  lemma StepKeepsPlaced(c: Config, st: Store, s: Step)
    requires Placed(c, st)
    ensures Placed(c, Next(c, st, s))
  {
  }

  lemma {:induction false} AgreeAlways(c: Config, steps: seq<Step>, start: int)
    requires c.hasPool && AllProper(c, steps, start)
    ensures Placed(c, Run(c, EMPTY, steps)) && Agree(Run(c, EMPTY, steps), Clock(steps, start))
  {
    if steps != [] {
      var before := steps[..|steps| - 1];
      AgreeAlways(c, before, start);
      StepKeepsAgreement(c, Run(c, EMPTY, before), steps[|steps| - 1], Clock(before, start));
      StepKeepsPlaced(c, Run(c, EMPTY, before), steps[|steps| - 1]);
    }
  }

  function Tidied(r: Result<Session>): Result<Session> {
    if r.Ok? then Ok(Tidy(r.value)) else r
  }

  /** The Redis copy is invisible: in every reachable state it gives the verdict and the session
      that the table gives, from then on and however many keys Redis has lost. */
  lemma CacheIsInvisible(c: Config, steps: seq<Step>, start: int, sessionID: string, now: int)
    requires c.hasPool && AllProper(c, steps, start) && now >= Clock(steps, start)
    requires Trim(sessionID) != ""
    ensures var st := Run(c, EMPTY, steps);
            Tidied(Validate(c, st, sessionID, now)) == Tidied(FromRows(c, st, Trim(sessionID), now))
  {
    AgreeAlways(c, steps, start);
    AgreementIsEnough(c, Run(c, EMPTY, steps), Clock(steps, start), Trim(sessionID), sessionID, now);
  }

  lemma AgreementIsEnough(c: Config, st: Store, clock: int, sid: string, sessionID: string, now: int)
    requires c.hasPool && Agree(st, clock) && now >= clock && sid == Trim(sessionID) != ""
    ensures Tidied(Validate(c, st, sessionID, now)) == Tidied(FromRows(c, st, sid, now))
  {
    if sid in st.cache {
      assert AgreesAt(st, sid, clock);
      TidyTwice(st.rows[sid]);
    } else if sid in st.rows {
      TidyTwice(st.rows[sid]);
    }
  }

  lemma TidyTwice(s: Session)
    ensures Tidy(Tidy(s)) == Tidy(s)
  {
    TrimIdempotent(s.institution);
    TrimIdempotent(s.token);
  }

  /** Setting a token keeps table and copy in step exactly when there is no copy that still
      counts, the institution sees the owner, or the token was already that one. */
  lemma SetTokenAgreesIff(c: Config, st: Store, inst: string, sessionID: string, token: string, now: int)
    requires c.hasPool && c.hasRedis && Agree(st, now) && Trim(sessionID) != "" && Trim(token) != ""
    ensures var sid := Trim(sessionID);
            Agree(Next(c, st, SetToken(inst, sessionID, token, now)), now)
            <==> (sid in st.cache && now < st.cache[sid].expireAt ==>
                    sid in st.rows && (c.sees(inst, st.rows[sid].user) || st.rows[sid].token == Trim(token)))
  {
    var sid, after := Trim(sessionID), Next(c, st, SetToken(inst, sessionID, token, now));
    if sid in st.cache {
      assert AgreesAt(st, sid, now);
      assert sid in after.cache && (Agree(after, now) ==> AgreesAt(after, sid, now));
    }
    if AgreesIfCached(after, sid, now) {
      forall k <- after.cache ensures AgreesAt(after, k, now) {
        assert AgreesAt(st, k, now);
      }
    }
  }

  predicate AgreesIfCached(st: Store, sid: string, clock: int) {
    sid in st.cache ==> AgreesAt(st, sid, clock)
  }

  // ---- revocation ----

  /** Nothing that is stored can validate this session. */
  predicate Dead(c: Config, st: Store, sid: string) {
    && (c.hasRedis && sid in st.cache ==> st.cache[sid].session.revoked)
    && (c.hasPool && sid in st.rows ==> st.rows[sid].revoked)
  }

  lemma DeadIsRejected(c: Config, st: Store, sid: string, claims: Claims, expected: Kind, now: int)
    requires Dead(c, st, sid) && Trim(claims.session) == sid
    ensures !Accepts(c, st, claims, expected, now)
  {
  }

  lemma DeadStaysDead(c: Config, st: Store, sid: string, s: Step)
    requires Dead(c, st, sid) && !(s.Create? && s.session.id == sid)
    ensures Dead(c, Next(c, st, s), sid)
  {
  }

  /** Permanent revocation: once dead, no access or refresh token of the session is accepted in
      any later state, at any time, whatever happens short of creating the identifier again. */
  lemma {:induction false} RevocationIsPermanent(c: Config, st: Store, sid: string, steps: seq<Step>, claims: Claims, expected: Kind, now: int)
    requires Dead(c, st, sid) && Trim(claims.session) == sid
    requires forall s <- steps :: s.Create? ==> s.session.id != sid
    ensures Dead(c, Run(c, st, steps), sid)
    ensures !Accepts(c, Run(c, st, steps), claims, expected, now)
    decreases |steps|
  {
    if steps != [] {
      var before, last := steps[..|steps| - 1], steps[|steps| - 1];
      assert forall s <- before :: s in steps;
      assert last in steps;
      RevocationIsPermanent(c, st, sid, before, claims, expected, now);
      DeadStaysDead(c, Run(c, st, before), sid, last);
    }
    DeadIsRejected(c, Run(c, st, steps), sid, claims, expected, now);
  }

  /** Revoke kills the session exactly when its row is hidden from nobody who matters: with a
      table, the caller's institution must see the owner. */
  lemma RevokeKillsIff(c: Config, st: Store, inst: string, sessionID: string)
    requires Trim(sessionID) != ""
    ensures var sid := Trim(sessionID);
            Dead(c, Next(c, st, Revoke(inst, sessionID)), sid)
            <==> (c.hasPool && sid in st.rows ==> c.sees(inst, st.rows[sid].user) || st.rows[sid].revoked)
  {
  }

  /** RevokeAllUserSessions finds sessions through the table: it kills exactly those it finds
      there under the user, and leaves every other session as dead or alive as it was. */
  lemma RevokeAllKillsIff(c: Config, st: Store, user: string, now: int, sid: string)
    ensures Dead(c, Next(c, st, RevokeAll(user, now)), sid)
            <==> Dead(c, st, sid) || (c.hasPool && Trim(user) != "" && sid in st.rows && st.rows[sid].user == Trim(user))
  {
  }

  /** End to end: revoke one session, or all of a user's, after any history; then no access or
      refresh token of the session is accepted after any further steps, long after the
      blacklist entries have lapsed. */
  lemma RevokedForGood(c: Config, history: seq<Step>, revoke: Step, later: seq<Step>, claims: Claims, expected: Kind, now: int)
    requires var st, sid := Run(c, EMPTY, history), Trim(claims.session);
             && c.hasPool && sid in st.rows
             && (|| (revoke.Revoke? && Trim(revoke.sid) == sid != "" && c.sees(revoke.institution, st.rows[sid].user))
                 || (revoke.RevokeAll? && Trim(revoke.user) == st.rows[sid].user != ""))
    requires forall s <- later :: s.Create? ==> s.session.id != Trim(claims.session)
    ensures !Accepts(c, Run(c, Run(c, EMPTY, history + [revoke]), later), claims, expected, now)
  {
    var st, sid := Run(c, EMPTY, history), Trim(claims.session);
    assert (history + [revoke])[..|history|] == history;
    if revoke.Revoke? {
      RevokeKillsIff(c, st, revoke.institution, revoke.sid);
    } else {
      RevokeAllKillsIff(c, st, revoke.user, revoke.now, sid);
    }
    RevocationIsPermanent(c, Next(c, st, revoke), sid, later, claims, expected, now);
  }

  /** Whether Create takes a session: it has identifiers and time left. */
  predicate Creatable(x: Session, now: int) {
    Trim(x.id) != "" && Trim(x.user) != "" && x.expiresAt > now
  }

  /** A dead session stays dead when its identifier is created again exactly if the new session
      is refused or revoked itself, or there is no Redis and the table keeps the old row; with
      Redis the old row is kept as well, but the new copy is what is read. */
  lemma ReuseStaysDeadIff(c: Config, st: Store, x: Session, now: int)
    requires Dead(c, st, x.id)
    ensures Dead(c, Next(c, st, Create(x, now)), x.id)
            <==> !Creatable(x, now) || x.revoked || (!c.hasRedis && (c.hasPool ==> x.id in st.rows))
  {
  }

  /** In the other cases the session is valid again at once. */
  lemma ReusedIdentifierRevives(c: Config, st: Store, x: Session, now: int)
    requires Dead(c, st, x.id) && !Dead(c, Next(c, st, Create(x, now)), x.id) && Trim(x.id) == x.id
    ensures Tidied(Validate(c, Next(c, st, Create(x, now)), x.id, now)) == Ok(Tidy(x))
  {
    ReuseStaysDeadIff(c, st, x, now);
    TidyTwice(x);
  }

  /** The row of one identifier, from the history: as it was first created, with the latest token
      that an institution seeing the owner has set, and revoked once such an institution, or
      someone for all the owner's sessions, has revoked it. */
  function RowOf(c: Config, steps: seq<Step>, k: string): Option<Session> {
    if steps == [] then None else RowAfter(c, RowOf(c, steps[..|steps| - 1], k), steps[|steps| - 1], k)
  }

  function RowAfter(c: Config, row: Option<Session>, s: Step, k: string): Option<Session> {
    match (row, s)
    case (None, Create(x, now)) => if x.id == k && Creatable(x, now) then Some(x) else None
    case (None, _) => None
    case (Some(r), Revoke(inst, sid)) => if Trim(sid) == k && c.sees(inst, r.user) then Some(r.(revoked := true)) else Some(r)
    case (Some(r), RevokeAll(user, _)) => if Trim(user) == r.user then Some(r.(revoked := true)) else Some(r)
    case (Some(r), SetToken(inst, sid, tid, _)) =>
      if Trim(sid) == k && Trim(tid) != "" && c.sees(inst, r.user) then Some(r.(token := Trim(tid))) else Some(r)
    case (Some(r), _) => Some(r)
  }

  function Find(st: Store, k: string): Option<Session> {
    if k in st.rows then Some(st.rows[k]) else None
  }

  lemma RowStep(c: Config, st: Store, s: Step, k: string)
    requires c.hasPool && Filed(st)
    ensures Find(Next(c, st, s), k) == RowAfter(c, Find(st, k), s, k)
  {
    if k in st.rows { assert FiledAs(st.rows[k], k); }
  }

  lemma {:induction false} RowsMatchHistory(c: Config, steps: seq<Step>, k: string)
    requires c.hasPool
    ensures Find(Run(c, EMPTY, steps), k) == RowOf(c, steps, k)
  {
    if steps != [] {
      FiledAlways(c, steps[..|steps| - 1]);
      RowsMatchHistory(c, steps[..|steps| - 1], k);
      RowStep(c, Run(c, EMPTY, steps[..|steps| - 1]), steps[|steps| - 1], k);
    }
  }

  // ---- acceptance ----

  /** Every row and copy is filed under its own identifier and has an owner. */
  predicate Filed(st: Store) {
    && (forall k <- st.rows :: FiledAs(st.rows[k], k))
    && (forall k <- st.cache :: FiledAs(st.cache[k].session, k))
  }

  predicate FiledAs(s: Session, k: string) { s.id == k && Trim(k) != "" && Trim(s.user) != "" }

  lemma StepKeepsFiled(c: Config, st: Store, s: Step)
    requires Filed(st)
    ensures Filed(Next(c, st, s))
  {
  }

  lemma {:induction false} FiledAlways(c: Config, steps: seq<Step>)
    ensures Filed(Run(c, EMPTY, steps))
  {
    if steps != [] {
      FiledAlways(c, steps[..|steps| - 1]);
      StepKeepsFiled(c, Run(c, EMPTY, steps[..|steps| - 1]), steps[|steps| - 1]);
    }
  }

  predicate Complete(claims: Claims) {
    && Trim(claims.subject) != "" && Trim(claims.token) != ""
    && Trim(claims.session) != "" && Trim(claims.institution) != ""
  }

  /** The table has the session of these claims, and it is unrevoked and unexpired. */
  predicate InForce(st: Store, claims: Claims, now: int) {
    && Trim(claims.session) == claims.session && claims.session in st.rows
    && !st.rows[claims.session].revoked && now < st.rows[claims.session].expiresAt
  }

  lemma ValidatesIff(c: Config, st: Store, clock: int, sessionID: string, now: int)
    requires c.hasPool && Agree(st, clock) && Filed(st) && clock <= now && Trim(sessionID) != ""
    ensures var sid, v := Trim(sessionID), Validate(c, st, sessionID, now);
            && (v.Ok? <==> sid in st.rows && !st.rows[sid].revoked && now < st.rows[sid].expiresAt)
            && (v.Ok? ==>
                  && v.value.id == sid && v.value.user == st.rows[sid].user && v.value.expiresAt == st.rows[sid].expiresAt
                  && Trim(v.value.token) == Trim(st.rows[sid].token)
                  && Trim(v.value.institution) == Trim(st.rows[sid].institution))
  {
    var sid, v := Trim(sessionID), Validate(c, st, sessionID, now);
    AgreementIsEnough(c, st, clock, sid, sessionID, now);
    assert Tidied(v) == Tidied(FromRows(c, st, sid, now));
    if sid in st.rows {
      assert FiledAs(st.rows[sid], sid);
      TrimIdempotent(sid);
      TrimIdempotent(st.rows[sid].token);
      TrimIdempotent(st.rows[sid].institution);
    }
    if v.Ok? {
      TrimIdempotent(v.value.token);
      TrimIdempotent(v.value.institution);
    }
  }

  /** Exactly which tokens are accepted, in every reachable state: complete ones of the right
      kind whose identifier is not listed and whose session is in force; an access token
      whatever token the session was given, a refresh token only if that was this one or none. */
  lemma AcceptsIff(c: Config, steps: seq<Step>, start: int, claims: Claims, expected: Kind, now: int)
    requires c.hasPool && AllProper(c, steps, start) && now >= Clock(steps, start)
    ensures var st := Run(c, EMPTY, steps);
            Accepts(c, st, claims, expected, now) <==>
              && claims.kind == expected && Complete(claims)
              && !Blacklisted(c, st, claims.token, now) && InForce(st, claims, now)
              && (expected == Refresh ==> Trim(st.rows[claims.session].token) in {"", Trim(claims.token)})
  {
    AgreeAlways(c, steps, start);
    FiledAlways(c, steps);
    if Complete(claims) { ValidatesIff(c, Run(c, EMPTY, steps), Clock(steps, start), claims.session, now); }
  }

  /** A token identifier is refused exactly until its latest listing lapses, be it listed on its
      own or with all sessions of a user. */
  function ListedUntil(c: Config, steps: seq<Step>, tid: string): Option<int> {
    if steps == [] then None
    else
      var before, s := steps[..|steps| - 1], steps[|steps| - 1];
      if s.Blacklist? && Trim(s.token) == tid then Some(s.now + if s.ttl > 0 then s.ttl else MINUTE)
      else if s.RevokeAll? && Trim(s.user) != "" && c.hasPool && OwnsToken(Run(c, EMPTY, before), Trim(s.user), tid)
      then Some(s.now + DAY)
      else ListedUntil(c, before, tid)
  }

  predicate OwnsToken(st: Store, user: string, tid: string) {
    exists k <- st.rows :: st.rows[k].user == user && Trim(st.rows[k].token) == tid
  }

  lemma {:induction false} BlacklistedIff(c: Config, steps: seq<Step>, token: string, now: int)
    requires c.hasRedis && Trim(token) != ""
    ensures var until := ListedUntil(c, steps, Trim(token));
            && (Trim(token) in Run(c, EMPTY, steps).blacklist <==> until.Some?)
            && (until.Some? ==> Run(c, EMPTY, steps).blacklist[Trim(token)] == until.value)
            && (Blacklisted(c, Run(c, EMPTY, steps), token, now) <==> until.Some? && now <= until.value)
    decreases |steps|
  {
    if steps != [] {
      var before, s := steps[..|steps| - 1], steps[|steps| - 1];
      BlacklistedIff(c, before, token, now);
      if s.RevokeAll? { RevokeAllLists(c, Run(c, EMPTY, before), Trim(s.user), s.now, Trim(token)); }
    }
  }

  lemma RevokeAllLists(c: Config, st: Store, user: string, now: int, tid: string)
    requires c.hasRedis && tid != ""
    ensures var after := AllRevoked(c, st, user, now);
            if user != "" && c.hasPool && OwnsToken(st, user, tid)
            then tid in after.blacklist && after.blacklist[tid] == now + DAY
            else (tid in after.blacklist <==> tid in st.blacklist) && (tid in st.blacklist ==> after.blacklist[tid] == st.blacklist[tid])
  {
    if user != "" && c.hasPool {
      var ids := Owned(st.rows, user);
      if OwnsToken(st, user, tid) {
        var k :| k in st.rows && st.rows[k].user == user && Trim(st.rows[k].token) == tid;
        BlankTrims(st.rows[k].token);
        assert k in ids && tid in TokensOf(st.rows, ids);
      }
    }
  }

  lemma BlankTrims(s: string)
    ensures Trim(s) != "" ==> s != ""
  {
  }

  /** A login and its refresh: the session is created, and given the refresh token's identifier;
      then its access tokens are accepted until it expires, and of refresh tokens that one. */
  lemma LoginIsServed(c: Config, x: Session, t: int, inst: string, token: string, claims: Claims, now: int)
    requires c.hasPool && Creatable(x, t) && Trim(x.id) == x.id && !x.revoked && c.sees(inst, x.user)
    requires Trim(token) != "" && t <= now < x.expiresAt && Complete(claims) && claims.session == x.id
    ensures var st := Run(c, EMPTY, [Create(x, t), SetToken(inst, x.id, token, t)]);
            && (claims.kind == Access ==> Accepts(c, st, claims, Access, now))
            && (claims.kind == Refresh ==> (Accepts(c, st, claims, Refresh, now) <==> Trim(claims.token) == Trim(token)))
  {
    var none: seq<Step>, given := [], SetToken(inst, x.id, token, t);
    var one := none + [Create(x, t)];
    OneMoreStep(c, none, Create(x, t), t);
    OneMoreStep(c, one, given, t);
    assert one + [given] == [Create(x, t), given];
    TrimIdempotent(token);
    AcceptsIff(c, one + [given], t, claims, claims.kind, now);
  }

  lemma OneMoreStep(c: Config, before: seq<Step>, s: Step, start: int)
    ensures Run(c, EMPTY, before + [s]) == Next(c, Run(c, EMPTY, before), s)
    ensures Clock(before + [s], start) == if s.Revoke? || s.Evict? then Clock(before, start) else s.now
    ensures AllProper(c, before + [s], start) <==> AllProper(c, before, start) && Proper(c, Run(c, EMPTY, before), s, Clock(before, start))
  {
    assert (before + [s])[..|before|] == before;
  }

  /** The same after any history: setting a token of a session in force makes it the session's
      one refresh token. */
  lemma RotationIff(c: Config, steps: seq<Step>, start: int, inst: string, sid: string, token: string, at: int, claims: Claims, now: int)
    requires c.hasPool && AllProper(c, steps + [SetToken(inst, sid, token, at)], start) && at <= now
    requires Trim(token) != "" && Complete(claims) && claims.kind == Refresh && Trim(sid) == claims.session
    requires InForce(Run(c, EMPTY, steps), claims, now) && !Blacklisted(c, Run(c, EMPTY, steps), claims.token, now)
    ensures Accepts(c, Run(c, EMPTY, steps + [SetToken(inst, sid, token, at)]), claims, Refresh, now)
            <==> Trim(claims.token) == Trim(token)
  {
    var all := steps + [SetToken(inst, sid, token, at)];
    assert all[..|steps|] == steps;
    TrimIdempotent(token);
    AcceptsIff(c, all, start, claims, Refresh, now);
  }
}
