/** The login lockout of internal/auth/authService.go: failure counters and lock keys in Redis
    for an account and for a client address.  Times are nanoseconds; a key is live up to and
    including its expiry time. */
module Lockout {
  import opened Arith
  import opened Text
  import opened Wrappers

  datatype Subject = Account(email: string) | Address(ip: string)

  /** failures: attempts that trigger a lock; window: life of a counter; lock: life of a lock. */
  datatype Policy = Policy(failures: int, window: int, lock: int)

  predicate Usable(p: Policy) { p.failures > 0 && p.window > 0 && p.lock > 0 }

  datatype Policies = Policies(account: Policy, address: Policy)

  const MINUTE := 60_000_000_000
  const SHIPPED := Policies(Policy(5, 15 * MINUTE, 30 * MINUTE), Policy(10, 15 * MINUTE, 15 * MINUTE))

  function PolicyOf(ps: Policies, s: Subject): Policy {
    if s.Account? then ps.account else ps.address
  }

  datatype Counter = Counter(n: int, expireAt: int)

  datatype Keys = Keys(counters: map<Subject, Counter>, locks: map<Subject, int>)

  const CLEAN := Keys(map[], map[])

  predicate Locked(k: Keys, s: Subject, now: int) {
    s in k.locks && now <= k.locks[s]
  }

  predicate Counting(k: Keys, s: Subject, now: int) {
    s in k.counters && now <= k.counters[s].expireAt
  }

  function Bumped(k: Keys, s: Subject, p: Policy, now: int): Counter {
    if Counting(k, s, now) then k.counters[s].(n := k.counters[s].n + 1) else Counter(1, now + p.window)
  }

  /** One failure recorded against one subject. */
  function Record(k: Keys, s: Subject, p: Policy, now: int): Keys {
    var c := Bumped(k, s, p, now);
    if p.failures > 0 && c.n >= p.failures
    then Keys(k.counters - {s}, k.locks[s := now + p.lock])
    else k.(counters := k.counters[s := c])
  }

  function AccountOf(email: string): Subject { Account(Lower(Trim(email))) }

  /** One account, however its address is typed. */
  lemma AccountsAreFolded(email: string)
    ensures AccountOf(Upper(email)) == AccountOf(email) && AccountOf(Trim(email)) == AccountOf(email)
  {
    CaseFolds(email);
    TrimIdempotent(email);
  }

  function Subjects(email: string, ip: Option<string>): set<Subject> {
    (if email != "" then {AccountOf(email)} else {}) + (if ip.Some? then {Address(ip.value)} else {})
  }

  predicate Allows(k: Keys, email: string, ip: Option<string>, now: int) {
    && (email != "" ==> !Locked(k, AccountOf(email), now))
    && (ip.Some? ==> !Locked(k, Address(ip.value), now))
  }

  function RecordBoth(k: Keys, email: string, ip: Option<string>, ps: Policies, now: int): Keys {
    var k1 := if email != "" then Record(k, AccountOf(email), ps.account, now) else k;
    if ip.Some? then Record(k1, Address(ip.value), ps.address, now) else k1
  }

  function ClearAll(k: Keys, subjects: set<Subject>): Keys {
    Keys(k.counters - subjects, k.locks - subjects)
  }

  /** What the password check of an admitted login leads to. */
  datatype Outcome = Rejected | Unrecorded | Succeeded

  datatype Attempt = Attempt(email: string, ip: Option<string>, outcome: Outcome, now: int)

  function Next(k: Keys, ps: Policies, a: Attempt): Keys {
    if !Allows(k, a.email, a.ip, a.now) then k
    else
      match a.outcome
      case Rejected => RecordBoth(k, a.email, a.ip, ps, a.now)
      case Unrecorded => k
      case Succeeded => ClearAll(k, Subjects(a.email, a.ip))
  }

  // ---- the service ----

  class LoginGuard {
    const policies: Policies
    var counters: map<Subject, Counter>
    var locks: map<Subject, int>

    ghost function Model(): Keys reads this { Keys(counters, locks) }

    constructor (policies: Policies)
      ensures this.policies == policies && Model() == CLEAN
    {
      this.policies := policies;
      counters, locks := map[], map[];
    }

    method AllowAttempt(email: string, ip: Option<string>, now: int) returns (ok: bool)
      ensures ok == Allows(Model(), email, ip, now)
    {
      if email != "" {
        var key := AccountOf(email);
        if key in locks && now <= locks[key] { return false; }
      }
      if ip.Some? {
        var key := Address(ip.value);
        if key in locks && now <= locks[key] { return false; }
      }
      return true;
    }

    /** INCR, EXPIRE on the first failure, and at the limit SET of the lock and DEL. */
    method RecordOne(s: Subject, p: Policy, now: int)
      modifies this
      ensures Model() == Record(old(Model()), s, p, now)
    {
      var n, expireAt := 1, now + p.window;
      if s in counters && now <= counters[s].expireAt {
        n, expireAt := counters[s].n + 1, counters[s].expireAt;
      }
      counters := counters[s := Counter(n, expireAt)];
      if p.failures > 0 && n >= p.failures {
        locks := locks[s := now + p.lock];
        counters := counters - {s};
      }
    }

    method RecordFailure(email: string, ip: Option<string>, now: int)
      modifies this
      ensures Model() == RecordBoth(old(Model()), email, ip, policies, now)
    {
      if email != "" { RecordOne(AccountOf(email), policies.account, now); }
      if ip.Some? { RecordOne(Address(ip.value), policies.address, now); }
    }

    method ClearFailures(email: string, ip: Option<string>)
      modifies this
      ensures Model() == ClearAll(old(Model()), Subjects(email, ip))
    {
      var keys := {};
      if email != "" { keys := keys + {AccountOf(email)}; }
      if ip.Some? { keys := keys + {Address(ip.value)}; }
      counters := counters - keys;
      locks := locks - keys;
    }

    /** The lockout part of one login. */
    method Login(a: Attempt) returns (admitted: bool)
      modifies this
      ensures admitted == Allows(old(Model()), a.email, a.ip, a.now)
      ensures Model() == Next(old(Model()), policies, a)
    {
      admitted := AllowAttempt(a.email, a.ip, a.now);
      if !admitted { return; }
      match a.outcome
      case Rejected => RecordFailure(a.email, a.ip, a.now);
      case Unrecorded =>
      case Succeeded => ClearFailures(a.email, a.ip);
    }
  }

  // ---- sequential runs ----

  function Run(ps: Policies, run: seq<Attempt>): Keys {
    if run == [] then CLEAN else Next(Run(ps, run[..|run| - 1]), ps, run[|run| - 1])
  }

  function EndTime(t0: int, run: seq<Attempt>): int {
    if run == [] then t0 else run[|run| - 1].now
  }

  predicate Ordered(t0: int, run: seq<Attempt>) {
    run == [] ||
    (Ordered(t0, run[..|run| - 1]) && EndTime(t0, run[..|run| - 1]) <= run[|run| - 1].now)
  }

  /** Whether an attempt records a failure against `s`. */
  predicate Counts(k: Keys, a: Attempt, s: Subject) {
    a.outcome == Rejected && s in Subjects(a.email, a.ip) && Allows(k, a.email, a.ip, a.now)
  }

  function Failures(ps: Policies, run: seq<Attempt>, s: Subject): nat {
    if run == [] then 0
    else
      var before := run[..|run| - 1];
      Failures(ps, before, s) + (if Counts(Run(ps, before), run[|run| - 1], s) then 1 else 0)
  }

  predicate SameAt(a: Keys, b: Keys, s: Subject) {
    && (s in a.counters <==> s in b.counters) && (s in a.counters ==> a.counters[s] == b.counters[s])
    && (s in a.locks <==> s in b.locks) && (s in a.locks ==> a.locks[s] == b.locks[s])
  }

  lemma RecordIsLocal(k: Keys, other: Subject, p: Policy, now: int, s: Subject)
    requires other != s
    ensures SameAt(Record(k, other, p, now), k, s)
  {
  }

  lemma RecordAgrees(a: Keys, b: Keys, s: Subject, p: Policy, now: int)
    requires SameAt(a, b, s)
    ensures SameAt(Record(a, s, p, now), Record(b, s, p, now), s)
  {
  }

  /** What an attempt does to the keys of one subject. */
  lemma NextAt(k: Keys, ps: Policies, a: Attempt, s: Subject)
    requires !(a.outcome == Succeeded && s in Subjects(a.email, a.ip))
    ensures SameAt(Next(k, ps, a), if Counts(k, a, s) then Record(k, s, PolicyOf(ps, s), a.now) else k, s)
  {
    if a.outcome == Rejected && Allows(k, a.email, a.ip, a.now) {
      var acct := AccountOf(a.email);
      var k1 := if a.email != "" then Record(k, acct, ps.account, a.now) else k;
      if a.email != "" && acct != s {
        RecordIsLocal(k, acct, ps.account, a.now, s);
      }
      if a.ip.Some? {
        if Address(a.ip.value) == s {
          RecordAgrees(k1, k, s, ps.address, a.now);
        } else {
          RecordIsLocal(k1, Address(a.ip.value), ps.address, a.now, s);
        }
      }
    }
  }

  /** Group `g` of failures began at `began`; groups are at least one gap apart. */
  ghost predicate Ledger(k: Keys, s: Subject, p: Policy, f: nat, g: nat, began: int, t0: int, now: int) {
    var gap := if p.window <= p.lock then p.window else p.lock;
    && f <= Mul(g, p.failures)
    && (g == 0 ==> s !in k.counters && s !in k.locks)
    && (g > 0 ==>
          && Mul(g - 1, gap) <= began - t0 && began <= now
          && (s in k.counters ==>
                && k.counters[s].expireAt == began + p.window
                && 1 <= k.counters[s].n < p.failures
                && f <= Mul(g - 1, p.failures) + k.counters[s].n)
          && (s !in k.counters ==> s in k.locks && k.locks[s] >= began + p.lock))
  }

  lemma RecordKeepsLedger(k: Keys, s: Subject, p: Policy, f: nat, g: nat, began: int, t0: int, now: int, at: int)
    returns (g': nat, began': int)
    requires Usable(p) && t0 <= now <= at && !Locked(k, s, at) && Ledger(k, s, p, f, g, began, t0, now)
    ensures Ledger(Record(k, s, p, at), s, p, f + 1, g', began', t0, at)
  {
    if Counting(k, s, at) {
      g', began' := g, began;
    } else {
      g', began' := g + 1, at;
    }
  }

  lemma LedgerIsLocal(k: Keys, k': Keys, s: Subject, p: Policy, f: nat, g: nat, began: int, t0: int, now: int)
    requires Ledger(k, s, p, f, g, began, t0, now) && SameAt(k', k, s)
    ensures Ledger(k', s, p, f, g, began, t0, now)
  {
  }

  lemma {:induction false} LedgerHolds(ps: Policies, s: Subject, t0: int, run: seq<Attempt>)
    returns (g: nat, began: int)
    requires Usable(PolicyOf(ps, s)) && Ordered(t0, run)
    requires forall a <- run :: a.outcome == Succeeded ==> s !in Subjects(a.email, a.ip)
    ensures Ledger(Run(ps, run), s, PolicyOf(ps, s), Failures(ps, run, s), g, began, t0, EndTime(t0, run))
    ensures t0 <= EndTime(t0, run)
    decreases |run|
  {
    if run == [] {
      g, began := 0, t0;
    } else {
      var before, a := run[..|run| - 1], run[|run| - 1];
      assert forall b <- before :: b in run;
      assert a in run;
      g, began := LedgerHolds(ps, s, t0, before);
      var k, f, now := Run(ps, before), Failures(ps, before, s), EndTime(t0, before);
      NextAt(k, ps, a, s);
      if Counts(k, a, s) {
        g, began := RecordKeepsLedger(k, s, PolicyOf(ps, s), f, g, began, t0, now, a.now);
        LedgerIsLocal(Record(k, s, PolicyOf(ps, s), a.now), Next(k, ps, a), s, PolicyOf(ps, s), f + 1, g, began, t0, a.now);
      } else {
        LedgerIsLocal(k, Next(k, ps, a), s, PolicyOf(ps, s), f, g, began, t0, now);
      }
    }
  }

  /** Lockout bound: from a clean state and without a success on the subject, a sequential run
      of length `T` records at most `failures * (1 + T / min(window, lock))` failures. */
  lemma LockoutBound(ps: Policies, s: Subject, t0: int, run: seq<Attempt>)
    requires Usable(PolicyOf(ps, s)) && Ordered(t0, run)
    requires forall a <- run :: a.outcome == Succeeded ==> s !in Subjects(a.email, a.ip)
    ensures var p := PolicyOf(ps, s);
            var gap := if p.window <= p.lock then p.window else p.lock;
            Failures(ps, run, s) <= p.failures * (1 + (EndTime(t0, run) - t0) / gap)
  {
    var p := PolicyOf(ps, s);
    var gap := if p.window <= p.lock then p.window else p.lock;
    var g, began := LedgerHolds(ps, s, t0, run);
    GroupsBound(Failures(ps, run, s), p.failures, g, gap, EndTime(t0, run) - t0);
  }

  lemma GroupsBound(f: nat, size: int, g: nat, gap: int, elapsed: int)
    requires size > 0 && gap > 0 && elapsed >= 0
    requires f <= Mul(g, size) && (g > 0 ==> Mul(g - 1, gap) <= elapsed)
    ensures f <= size * (1 + elapsed / gap)
  {
    MulIsProduct(g, size);
    QuotientAtLeast(gap, 0, elapsed);
    if g > 0 {
      PeriodsElapsed(g - 1, gap, elapsed);
    }
    Monotone(size, g, 1 + elapsed / gap);
  }

  // ---- the exact moment of a lock ----

  /** What the history says of one subject: the times of the failures counted at present, and
      of the failure that locked it last. */
  datatype Past = Past(counted: seq<int>, lockedAt: Option<int>)

  predicate Barred(past: Past, p: Policy, now: int) {
    past.lockedAt.Some? && now <= past.lockedAt.value + p.lock
  }

  predicate Welcome(ps: Policies, run: seq<Attempt>, a: Attempt)
    decreases |run|, 1
  {
    forall s <- Subjects(a.email, a.ip) :: !Barred(PastOf(ps, run, s), PolicyOf(ps, s), a.now)
  }

  /** A failure within one window of the first counted one is counted with it; the one that
      makes their number the limit locks instead. */
  function Counted(past: Past, p: Policy, now: int): Past {
    var live := if past.counted != [] && now <= past.counted[0] + p.window then past.counted + [now] else [now];
    if 0 < p.failures <= |live| then Past([], Some(now)) else past.(counted := live)
  }

  function PastOf(ps: Policies, run: seq<Attempt>, s: Subject): Past
    decreases |run|, 0
  {
    if run == [] then Past([], None)
    else
      var before, a := run[..|run| - 1], run[|run| - 1];
      var past := PastOf(ps, before, s);
      if s !in Subjects(a.email, a.ip) || !Welcome(ps, before, a) then past
      else if a.outcome == Rejected then Counted(past, PolicyOf(ps, s), a.now)
      else if a.outcome == Succeeded then Past([], None)
      else past
  }

  predicate Reflects(k: Keys, s: Subject, p: Policy, past: Past) {
    && (s in k.counters <==> past.counted != [])
    && (s in k.counters ==> k.counters[s] == Counter(|past.counted|, past.counted[0] + p.window))
    && (s in k.locks <==> past.lockedAt.Some?)
    && (s in k.locks ==> k.locks[s] == past.lockedAt.value + p.lock)
  }

  lemma RecordReflects(k: Keys, s: Subject, p: Policy, past: Past, now: int)
    requires Reflects(k, s, p, past)
    ensures Reflects(Record(k, s, p, now), s, p, Counted(past, p, now))
  {
  }

  lemma ReflectsAgrees(k: Keys, k': Keys, s: Subject, p: Policy, past: Past)
    requires Reflects(k, s, p, past) && SameAt(k', k, s)
    ensures Reflects(k', s, p, past)
  {
  }

  lemma WelcomeIsAllowed(ps: Policies, run: seq<Attempt>, a: Attempt)
    requires forall s :: Reflects(Run(ps, run), s, PolicyOf(ps, s), PastOf(ps, run, s))
    ensures Allows(Run(ps, run), a.email, a.ip, a.now) <==> Welcome(ps, run, a)
  {
    var k := Run(ps, run);
    assert forall s :: Locked(k, s, a.now) <==> Barred(PastOf(ps, run, s), PolicyOf(ps, s), a.now) by {
      forall s ensures Locked(k, s, a.now) <==> Barred(PastOf(ps, run, s), PolicyOf(ps, s), a.now) {
        assert Reflects(k, s, PolicyOf(ps, s), PastOf(ps, run, s));
      }
    }
  }

  lemma {:induction false} KeysReflectHistory(ps: Policies, run: seq<Attempt>, s: Subject)
    ensures Reflects(Run(ps, run), s, PolicyOf(ps, s), PastOf(ps, run, s))
    decreases |run|
  {
    if run != [] {
      var before, a := run[..|run| - 1], run[|run| - 1];
      forall x ensures Reflects(Run(ps, before), x, PolicyOf(ps, x), PastOf(ps, before, x)) {
        KeysReflectHistory(ps, before, x);
      }
      WelcomeIsAllowed(ps, before, a);
      StepReflects(ps, Run(ps, before), a, s, PastOf(ps, before, s));
    }
  }

  lemma StepReflects(ps: Policies, k: Keys, a: Attempt, s: Subject, past: Past)
    requires Reflects(k, s, PolicyOf(ps, s), past)
    ensures Reflects(Next(k, ps, a), s, PolicyOf(ps, s),
                     if s !in Subjects(a.email, a.ip) || !Allows(k, a.email, a.ip, a.now) then past
                     else if a.outcome == Rejected then Counted(past, PolicyOf(ps, s), a.now)
                     else if a.outcome == Succeeded then Past([], None)
                     else past)
  {
    if !(a.outcome == Succeeded && s in Subjects(a.email, a.ip)) {
      NextAt(k, ps, a, s);
      RecordReflects(k, s, PolicyOf(ps, s), past, a.now);
      var k' := if Counts(k, a, s) then Record(k, s, PolicyOf(ps, s), a.now) else k;
      ReflectsAgrees(k', Next(k, ps, a), s, PolicyOf(ps, s), if Counts(k, a, s) then Counted(past, PolicyOf(ps, s), a.now) else past);
    }
  }

  /** After every run a subject is locked exactly for the lock's length from the failure that was
      the limit's last of a count, and a login is admitted exactly if none of its subjects is;
      the counter is the number of failures counted since the last success, lapse or lock. */
  lemma LockedIff(ps: Policies, run: seq<Attempt>, s: Subject, a: Attempt)
    ensures var k, past := Run(ps, run), PastOf(ps, run, s);
            && (Locked(k, s, a.now) <==> Barred(past, PolicyOf(ps, s), a.now))
            && (s in k.counters ==> k.counters[s].n == |past.counted|)
            && (Allows(k, a.email, a.ip, a.now) <==> Welcome(ps, run, a))
  {
    forall x ensures Reflects(Run(ps, run), x, PolicyOf(ps, x), PastOf(ps, run, x)) {
      KeysReflectHistory(ps, run, x);
    }
    WelcomeIsAllowed(ps, run, a);
    assert Reflects(Run(ps, run), s, PolicyOf(ps, s), PastOf(ps, run, s));
  }

  /** The time of the `n`-th of them. */
  function TimeOfNth(t: int, step: nat, n: nat): int {
    if n <= 1 then t else TimeOfNth(t, step, n - 1) + step
  }

  /** `n` wrong passwords in a row for one account, one every `step`. */
  function WrongPasswords(email: string, t: int, step: nat, n: nat): seq<Attempt> {
    if n == 0 then [] else WrongPasswords(email, t, step, n - 1) + [Attempt(email, None, Rejected, TimeOfNth(t, step, n))]
  }

  /** `n` failures from `t` on, the latest at `last`, none of them before the limit's locking. */
  predicate CountedTo(past: Past, p: Policy, t: int, n: nat, last: int) {
    && (n < p.failures ==> past.lockedAt == None && |past.counted| == n && (n > 0 ==> past.counted[0] == t))
    && (n == p.failures ==> past == Past([], Some(last)))
  }

  lemma CountOne(past: Past, p: Policy, t: int, n: nat, last: int, now: int)
    requires Usable(p) && n < p.failures && CountedTo(past, p, t, n, last)
    requires now <= t + p.window && (n == 0 ==> now == t)
    ensures CountedTo(Counted(past, p, now), p, t, n + 1, now)
  {
  }

  lemma RejectedIsCounted(ps: Policies, before: seq<Attempt>, email: string, now: int)
    requires email != "" && PastOf(ps, before, AccountOf(email)).lockedAt == None
    ensures PastOf(ps, before + [Attempt(email, None, Rejected, now)], AccountOf(email))
            == Counted(PastOf(ps, before, AccountOf(email)), ps.account, now)
  {
    var a := Attempt(email, None, Rejected, now);
    assert (before + [a])[..|before|] == before;
    assert Subjects(email, None) == {AccountOf(email)};
  }

  lemma {:induction false} CountsUpTo(ps: Policies, email: string, t: int, step: nat, n: nat)
    requires Usable(ps.account) && email != "" && n <= ps.account.failures && TimeOfNth(t, step, n) <= t + ps.account.window
    ensures CountedTo(PastOf(ps, WrongPasswords(email, t, step, n), AccountOf(email)), ps.account, t, n, TimeOfNth(t, step, n))
  {
    if n > 0 {
      var before := WrongPasswords(email, t, step, n - 1);
      CountsUpTo(ps, email, t, step, n - 1);
      RejectedIsCounted(ps, before, email, TimeOfNth(t, step, n));
      CountOne(PastOf(ps, before, AccountOf(email)), ps.account, t, n - 1, TimeOfNth(t, step, n - 1), TimeOfNth(t, step, n));
    }
  }

  /** From a clean state the limit's own failure is the one that locks, and no earlier one, if
      they fall into one window: the right password is still admitted after all but it. */
  lemma LimitLocks(ps: Policies, email: string, t: int, step: nat, n: nat)
    requires Usable(ps.account) && email != "" && 0 < n <= ps.account.failures && TimeOfNth(t, step, n) <= t + ps.account.window
    ensures Allows(Run(ps, WrongPasswords(email, t, step, n)), email, None, TimeOfNth(t, step, n)) <==> n < ps.account.failures
  {
    var run, now := WrongPasswords(email, t, step, n), TimeOfNth(t, step, n);
    CountsUpTo(ps, email, t, step, n);
    LockedIff(ps, run, AccountOf(email), Attempt(email, None, Unrecorded, now));
  }

  // ---- a lock of two windows and more ----

  /** Groups of failures are `failures - 1` at most, or `failures` if they end in a lock; a lock
      takes the time of two groups. */
  predicate LongLock(p: Policy) {
    Usable(p) && p.failures >= 2 && p.lock >= 2 * p.window
  }

  /** `g` groups are over, and one began at `began`. */
  ghost predicate LongLedger(k: Keys, s: Subject, p: Policy, f: nat, g: nat, began: int, t0: int, now: int) {
    && Mul(g, p.window) <= began - t0 && began <= now
    && (s in k.counters ==>
          && k.counters[s].expireAt == began + p.window
          && 1 <= k.counters[s].n < p.failures
          && f <= Mul(g, p.failures - 1) + k.counters[s].n)
    && (s !in k.counters && s in k.locks ==> k.locks[s] >= began + p.lock && f <= Mul(g, p.failures - 1) + p.failures)
    && (s !in k.counters && s !in k.locks ==> f == 0 && g == 0)
  }

  lemma RecordKeepsLongLedger(k: Keys, s: Subject, p: Policy, f: nat, g: nat, began: int, t0: int, now: int, at: int)
    returns (g': nat, began': int)
    requires LongLock(p) && t0 <= now <= at && !Locked(k, s, at) && LongLedger(k, s, p, f, g, began, t0, now)
    ensures LongLedger(Record(k, s, p, at), s, p, f + 1, g', began', t0, at)
  {
    assert Mul(g + 2, p.window) == Mul(g + 1, p.window) + p.window;
    assert Mul(g + 2, p.failures - 1) == Mul(g + 1, p.failures - 1) + (p.failures - 1);
    if Counting(k, s, at) {
      g', began' := g, began;
    } else if s in k.counters {
      g', began' := g + 1, at;
    } else if s in k.locks {
      g', began' := g + 2, at;
    } else {
      g', began' := 0, at;
    }
  }

  lemma {:induction false} LongLedgerHolds(ps: Policies, s: Subject, t0: int, run: seq<Attempt>)
    returns (g: nat, began: int)
    requires LongLock(PolicyOf(ps, s)) && Ordered(t0, run)
    requires forall a <- run :: a.outcome == Succeeded ==> s !in Subjects(a.email, a.ip)
    ensures LongLedger(Run(ps, run), s, PolicyOf(ps, s), Failures(ps, run, s), g, began, t0, EndTime(t0, run))
    ensures t0 <= EndTime(t0, run)
    decreases |run|
  {
    if run == [] {
      g, began := 0, t0;
    } else {
      var before, a := run[..|run| - 1], run[|run| - 1];
      assert forall b <- before :: b in run;
      assert a in run;
      g, began := LongLedgerHolds(ps, s, t0, before);
      var k, f, now := Run(ps, before), Failures(ps, before, s), EndTime(t0, before);
      NextAt(k, ps, a, s);
      if Counts(k, a, s) {
        g, began := RecordKeepsLongLedger(k, s, PolicyOf(ps, s), f, g, began, t0, now, a.now);
      }
    }
  }

  /** Sharper for long locks: every window allows one failure less than the limit, and only one
      lock can add to that. */
  lemma LongLockBound(ps: Policies, s: Subject, t0: int, run: seq<Attempt>)
    requires LongLock(PolicyOf(ps, s)) && Ordered(t0, run)
    requires forall a <- run :: a.outcome == Succeeded ==> s !in Subjects(a.email, a.ip)
    ensures var p := PolicyOf(ps, s);
            Failures(ps, run, s) <= (p.failures - 1) * (1 + (EndTime(t0, run) - t0) / p.window) + 1
  {
    var p := PolicyOf(ps, s);
    var g, began := LongLedgerHolds(ps, s, t0, run);
    LongGroupsBound(Failures(ps, run, s), p.failures - 1, g, p.window, EndTime(t0, run) - t0);
  }

  lemma LongGroupsBound(f: nat, size: int, g: nat, gap: int, elapsed: int)
    requires size > 0 && gap > 0
    requires f <= Mul(g, size) + size + 1 && Mul(g, gap) <= elapsed
    ensures f <= size * (1 + elapsed / gap) + 1
  {
    PeriodsElapsed(g, gap, elapsed);
    MulIsProduct(g, size);
    Monotone(size, g, elapsed / gap);
    Distribute(size, 1, elapsed / gap);
  }

  /** The shipped numbers: in every quarter of an hour four failures per account, and one more in
      all; ten per address. */
  lemma ShippedLockoutBound(s: Subject, t0: int, run: seq<Attempt>)
    requires Ordered(t0, run)
    requires forall a <- run :: a.outcome == Succeeded ==> s !in Subjects(a.email, a.ip)
    ensures var quarters := 1 + (EndTime(t0, run) - t0) / (15 * MINUTE);
            Failures(SHIPPED, run, s) <= if s.Account? then 4 * quarters + 1 else 10 * quarters
  {
    if s.Account? {
      LongLockBound(SHIPPED, s, t0, run);
    } else {
      LockoutBound(SHIPPED, s, t0, run);
    }
  }

  /** Counters stay strictly below the limit, and a counter is present only beside a lock that
      has run out. */
  ghost predicate Exclusive(k: Keys, ps: Policies, now: int) {
    && (forall s <- k.counters :: 1 <= k.counters[s].n < PolicyOf(ps, s).failures)
    && (forall s <- k.counters :: s in k.locks ==> k.locks[s] < now)
  }

  lemma RecordKeepsExclusive(k: Keys, ps: Policies, s: Subject, now: int)
    requires Usable(PolicyOf(ps, s)) && Exclusive(k, ps, now) && !Locked(k, s, now)
    ensures Exclusive(Record(k, s, PolicyOf(ps, s), now), ps, now)
    ensures forall other :: other != s && !Locked(k, other, now) ==> !Locked(Record(k, s, PolicyOf(ps, s), now), other, now)
  {
  }

  lemma AttemptKeepsExclusive(k: Keys, ps: Policies, a: Attempt)
    requires Usable(ps.account) && Usable(ps.address) && Exclusive(k, ps, a.now)
    ensures Exclusive(Next(k, ps, a), ps, a.now)
  {
    if Allows(k, a.email, a.ip, a.now) && a.outcome == Rejected {
      var k1 := k;
      if a.email != "" {
        RecordKeepsExclusive(k, ps, AccountOf(a.email), a.now);
        k1 := Record(k, AccountOf(a.email), ps.account, a.now);
      }
      if a.ip.Some? {
        RecordKeepsExclusive(k1, ps, Address(a.ip.value), a.now);
      }
    }
  }

  /** In every state of a sequential run, successes included, a live counter is between 1 and
      one below the limit, and no subject has a live counter and a live lock at once. */
  lemma {:induction false} CounterAndLockNeverCoexist(ps: Policies, t0: int, run: seq<Attempt>, now: int)
    requires Usable(ps.account) && Usable(ps.address) && Ordered(t0, run) && EndTime(t0, run) <= now
    ensures Exclusive(Run(ps, run), ps, now)
    ensures forall s :: !(Counting(Run(ps, run), s, now) && Locked(Run(ps, run), s, now))
    decreases |run|
  {
    if run != [] {
      var before, a := run[..|run| - 1], run[|run| - 1];
      CounterAndLockNeverCoexist(ps, t0, before, a.now);
      AttemptKeepsExclusive(Run(ps, before), ps, a);
    }
  }
}
