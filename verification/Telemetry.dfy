/** The tenant telemetry aggregator of internal/middleware/tenantTelemetryMiddleware.go: request
    goroutines send into a bounded channel, one worker counts records into a nested map and adds
    the counts to a table, all of a batch in one transaction. */
module Telemetry {
  import opened Text

  const CAPACITY := 10000

  datatype Record = Record(institution: string, role: string)

  type Batch = map<string, map<string, nat>>
  type Table = map<Record, nat>

  datatype State = State(queue: seq<Record>, batch: Batch, table: Table, closed: bool, done: bool)

  /** How the database answers during one flush. */
  datatype Link = Link(begins: bool, accepts: Record -> bool, commits: bool)

  function Pending(batch: Batch, r: Record): nat {
    if r.institution in batch && r.role in batch[r.institution] then batch[r.institution][r.role] else 0
  }

  function Stored(table: Table, r: Record): nat {
    if r in table then table[r] else 0
  }

  function Keys(batch: Batch): set<Record> {
    set i, role | i in batch && role in batch[i] :: Record(i, role)
  }

  function Counted(batch: Batch, r: Record): Batch {
    var roles := if r.institution in batch then batch[r.institution] else map[];
    batch[r.institution := roles[r.role := (if r.role in roles then roles[r.role] else 0) + 1]]
  }

  /** A statement that fails aborts the transaction it is in, whatever comes after. */
  predicate Lands(hasPool: bool, batch: Batch, link: Link) {
    hasPool && link.begins && link.commits && forall r <- Keys(batch) :: link.accepts(r)
  }

  function Added(table: Table, batch: Batch): Table {
    map r | r in table.Keys + Keys(batch) :: Stored(table, r) + Pending(batch, r)
  }

  datatype Step =
    | Send(institution: string, role: string)
    | Take              // the worker receives one record
    | Tick(link: Link)  // the worker's timer
    | Close             // the channel is closed
    | Finish(link: Link) // the worker finds the channel closed and empty

  function Sent(institution: string, role: string): Record { Record(institution, Lower(Trim(role))) }

  /** A send on a closed channel panics and sends nothing. */
  predicate Fits(s: State) { !s.closed && |s.queue| < CAPACITY }

  function Flushed(hasPool: bool, s: State, link: Link): State {
    s.(table := if Lands(hasPool, s.batch, link) then Added(s.table, s.batch) else s.table, batch := map[])
  }

  function Next(hasPool: bool, s: State, step: Step): State {
    match step
    case Send(i, role) => if Fits(s) then s.(queue := s.queue + [Sent(i, role)]) else s
    case Take => if s.queue == [] || s.done then s else s.(queue := s.queue[1..], batch := Counted(s.batch, s.queue[0]))
    case Tick(link) => if s.done then s else Flushed(hasPool, s, link)
    case Close => s.(closed := true)
    case Finish(link) => if s.closed && s.queue == [] && !s.done then Flushed(hasPool, s, link).(done := true) else s
  }

  function Run(hasPool: bool, s: State, steps: seq<Step>): State {
    if steps == [] then s else Next(hasPool, Run(hasPool, s, steps[..|steps| - 1]), steps[|steps| - 1])
  }

  // ---- the logger object ----

  datatype SendResult = Queued | Dropped | Panicked

  class TelemetryLogger {
    const hasPool: bool
    var queue: seq<Record>
    var batch: Batch
    var table: Table
    var closed: bool
    var done: bool

    ghost function Model(): State reads this { State(queue, batch, table, closed, done) }

    constructor (hasPool: bool, table: Table)
      ensures this.hasPool == hasPool && Model() == State([], map[], table, false, false)
    {
      this.hasPool := hasPool;
      queue, batch, this.table := [], map[], table;
      closed, done := false, false;
    }

    method IncrementTenantLoad(institution: string, role: string) returns (r: SendResult)
      modifies this
      ensures Model() == Next(hasPool, old(Model()), Send(institution, role))
      ensures r == if old(closed) then Panicked else if |old(queue)| < 10_000 then Queued else Dropped
      ensures queue == old(queue) + if r.Queued? then [Record(institution, Lower(Trim(role)))] else []
    {
      var normal := Lower(Trim(role));
      if closed { return Panicked; }
      if |queue| < CAPACITY {
        queue := queue + [Record(institution, normal)];
        return Queued;
      }
      return Dropped;
    }

    method Receive()
      requires queue != [] && !done
      modifies this
      ensures Model() == Next(hasPool, old(Model()), Take)
    {
      var record := queue[0];
      queue := queue[1..];
      if record.institution !in batch {
        batch := batch[record.institution := map[]];
      }
      var roles := batch[record.institution];
      var count := if record.role in roles then roles[record.role] else 0;
      batch := batch[record.institution := roles[record.role := count + 1]];
    }

    method Flush(link: Link)
      requires !done
      modifies this
      ensures Model() == Next(hasPool, old(Model()), Tick(link))
    {
      if batch == map[] {
        assert Keys(batch) == {};
        assert Added(table, batch) == table;
        return;
      }
      if hasPool {
        if link.begins {
          var staged, aborted := Upsert(link);
          if !aborted && link.commits { table := staged; }
        }
      }
      batch := map[];
    }

    /** One upsert for each institution and role, in whatever order the map yields them. */
    method Upsert(link: Link) returns (staged: Table, aborted: bool)
      ensures aborted == Refused(link, Keys(batch))
      ensures !aborted ==> staged == Added(table, batch)
    {
      staged, aborted := table, false;
      var left := Keys(batch);
      StagingAll(table, batch);
      assert left - left == {};
      while left != {}
        invariant left <= Keys(batch)
        invariant aborted == Refused(link, Keys(batch) - left)
        invariant !aborted ==> staged == Partly(table, batch, Keys(batch) - left)
        decreases left
      {
        var r :| r in left;
        StagingOne(table, batch, link, Keys(batch) - left, r);
        assert Keys(batch) - left + {r} == Keys(batch) - (left - {r});
        if link.accepts(r) {
          staged := staged[r := Stored(staged, r) + batch[r.institution][r.role]];
        } else {
          aborted := true;
        }
        left := left - {r};
      }
      assert Keys(batch) - left == Keys(batch);
    }

    /** Closes the channel and waits: the worker counts what is still queued, flushes and ends.
        `timer(k)` is the flush, if any, that the timer puts in after the k-th record. */
    method CloseAndDrain(timer: nat -> seq<Link>, link: Link)
      requires !closed && !done
      modifies this
      ensures queue == [] && batch == map[] && closed && done
      ensures Model() == Run(hasPool, old(Model()), [Step.Close] + Draining(timer, |old(queue)|) + [Finish(link)])
    {
      closed := true;
      Drain(timer);
      Flush(link);
      done := true;
      Shutdown(hasPool, old(Model()), timer, |old(queue)|, link);
    }

    method Drain(timer: nat -> seq<Link>)
      requires closed && !done
      modifies this
      ensures queue == [] && closed && !done
      ensures Model() == Run(hasPool, old(Model()), Draining(timer, |old(queue)|))
    {
      var k := 0;
      while queue != []
        invariant k + |queue| == |old(queue)| && closed && !done
        invariant Model() == Run(hasPool, old(Model()), Draining(timer, k))
        decreases |queue|
      {
        ghost var before := Model();
        Receive();
        FlushAll(timer(k));
        AfterOneRecord(hasPool, old(Model()), before, timer, k, Model());
        k := k + 1;
      }
    }

    method FlushAll(links: seq<Link>)
      requires !done
      modifies this
      ensures queue == old(queue) && closed == old(closed) && !done
      ensures Model() == Run(hasPool, old(Model()), Ticks(links))
    {
      for i := 0 to |links|
        invariant queue == old(queue) && closed == old(closed) && !done
        invariant Model() == Run(hasPool, old(Model()), Ticks(links[..i]))
      {
        OneMoreStep(hasPool, old(Model()), Ticks(links[..i]), Tick(links[i]));
        assert links[..i + 1][..i] == links[..i];
        Flush(links[i]);
      }
      assert links[..|links|] == links;
    }
  }

  lemma OneMoreStep(hasPool: bool, s: State, steps: seq<Step>, step: Step)
    ensures Run(hasPool, s, steps + [step]) == Next(hasPool, Run(hasPool, s, steps), step)
  {
    assert (steps + [step])[..|steps|] == steps;
  }

  lemma {:induction false} RunConcat(hasPool: bool, s: State, a: seq<Step>, b: seq<Step>)
    ensures Run(hasPool, s, a + b) == Run(hasPool, Run(hasPool, s, a), b)
  {
    if b == [] {
      assert a + b == a;
    } else {
      var n := |b| - 1;
      RunConcat(hasPool, s, a, b[..n]);
      assert a + b == (a + b[..n]) + [b[n]];
      OneMoreStep(hasPool, s, a + b[..n], b[n]);
    }
  }

  lemma AfterOneRecord(hasPool: bool, start: State, before: State, timer: nat -> seq<Link>, k: nat, after: State)
    requires before == Run(hasPool, start, Draining(timer, k))
    requires after == Run(hasPool, Next(hasPool, before, Take), Ticks(timer(k)))
    ensures after == Run(hasPool, start, Draining(timer, k + 1))
  {
    OneMoreStep(hasPool, start, Draining(timer, k), Take);
    RunConcat(hasPool, start, Draining(timer, k) + [Take], Ticks(timer(k)));
  }

  lemma Shutdown(hasPool: bool, s: State, timer: nat -> seq<Link>, n: nat, link: Link)
    ensures Run(hasPool, s, [Step.Close] + Draining(timer, n) + [Finish(link)])
            == Next(hasPool, Run(hasPool, Next(hasPool, s, Step.Close), Draining(timer, n)), Finish(link))
  {
    var none: seq<Step> := [];
    assert none + [Step.Close] == [Step.Close];
    OneMoreStep(hasPool, s, none, Step.Close);
    RunConcat(hasPool, s, [Step.Close], Draining(timer, n));
    OneMoreStep(hasPool, s, [Step.Close] + Draining(timer, n), Finish(link));
  }

  function Ticks(links: seq<Link>): seq<Step> {
    if links == [] then [] else Ticks(links[..|links| - 1]) + [Tick(links[|links| - 1])]
  }

  /** The worker's steps while the closed channel still holds `n` records. */
  function Draining(timer: nat -> seq<Link>, n: nat): seq<Step> {
    if n == 0 then [] else Draining(timer, n - 1) + [Take] + Ticks(timer(n - 1))
  }

  predicate Refused(link: Link, seen: set<Record>) {
    exists r <- seen :: !link.accepts(r)
  }

  /** The table with the upserts for the records seen. */
  function Partly(table: Table, batch: Batch, seen: set<Record>): Table {
    map r | r in table.Keys + seen :: Stored(table, r) + if r in seen then Pending(batch, r) else 0
  }

  lemma StagingOne(table: Table, batch: Batch, link: Link, seen: set<Record>, r: Record)
    requires r !in seen
    ensures Refused(link, seen + {r}) == (Refused(link, seen) || !link.accepts(r))
    ensures Partly(table, batch, seen + {r}) == Partly(table, batch, seen)[r := Stored(Partly(table, batch, seen), r) + Pending(batch, r)]
  {
    if Refused(link, seen) { var q :| q in seen && !link.accepts(q); assert q in seen + {r}; }
    assert r in seen + {r};
  }

  lemma StagingAll(table: Table, batch: Batch)
    ensures Partly(table, batch, {}) == table
    ensures Partly(table, batch, Keys(batch)) == Added(table, batch)
  {
    assert table.Keys + {} == table.Keys;
    forall r ensures r !in Keys(batch) ==> Pending(batch, r) == 0 {
      if r.institution in batch && r.role in batch[r.institution] { assert r in Keys(batch); }
    }
  }

  // ---- conservation ----

  /** Where a record may be. */
  function Held(s: State, r: Record): nat {
    multiset(s.queue)[r] + Pending(s.batch, r) + Stored(s.table, r)
  }

  /** What one step adds to the number issued, dropped at a full queue, and lost in a flush. */
  datatype Tally = Tally(issued: nat, dropped: nat, lost: nat)

  function StepTally(hasPool: bool, s: State, step: Step, r: Record): Tally {
    match step
    case Send(i, role) =>
      var mine := if Sent(i, role) == r && !s.closed then 1 else 0;
      Tally(mine, if Fits(s) then 0 else mine, 0)
    case Tick(link) => Tally(0, 0, if s.done || Lands(hasPool, s.batch, link) then 0 else Pending(s.batch, r))
    case Finish(link) =>
      Tally(0, 0, if s.closed && s.queue == [] && !s.done && !Lands(hasPool, s.batch, link) then Pending(s.batch, r) else 0)
    case _ => Tally(0, 0, 0)
  }

  function TallyOf(hasPool: bool, s: State, steps: seq<Step>, r: Record): Tally {
    if steps == [] then Tally(0, 0, 0)
    else
      var before := steps[..|steps| - 1];
      var a, b := TallyOf(hasPool, s, before, r), StepTally(hasPool, Run(hasPool, s, before), steps[|steps| - 1], r);
      Tally(a.issued + b.issued, a.dropped + b.dropped, a.lost + b.lost)
  }

  lemma CountingOne(batch: Batch, r: Record, q: Record)
    ensures Pending(Counted(batch, r), q) == Pending(batch, q) + if q == r then 1 else 0
  {
  }

  lemma AddedHolds(table: Table, batch: Batch, r: Record)
    ensures Stored(Added(table, batch), r) == Stored(table, r) + Pending(batch, r)
  {
    if r.institution in batch && r.role in batch[r.institution] { assert r in Keys(batch); }
  }

  lemma StepConserves(hasPool: bool, s: State, step: Step, r: Record)
    ensures var t := StepTally(hasPool, s, step, r);
            Held(Next(hasPool, s, step), r) + t.dropped + t.lost == Held(s, r) + t.issued
  {
    match step
    case Send(_, _) =>
    case Take => if s.queue != [] && !s.done { TakingMoves(s, r); }
    case Tick(_) => AddedHolds(s.table, s.batch, r);
    case Close =>
    case Finish(_) => AddedHolds(s.table, s.batch, r);
  }

  lemma TakingMoves(s: State, r: Record)
    requires s.queue != []
    ensures multiset(s.queue)[r] + Pending(s.batch, r) == multiset(s.queue[1..])[r] + Pending(Counted(s.batch, s.queue[0]), r)
  {
    CountingOne(s.batch, s.queue[0], r);
    assert s.queue == [s.queue[0]] + s.queue[1..];
  }

  /** Conservation: of every institution and role, in every state of every interleaving of
      senders, worker, timer and shutdown, all increments issued are dropped, queued, in the
      batch, in the table, or lost with a batch whose transaction failed. */
  lemma {:induction false} NothingIsMiscounted(hasPool: bool, s: State, steps: seq<Step>, r: Record)
    ensures var t := TallyOf(hasPool, s, steps, r);
            Held(Run(hasPool, s, steps), r) + t.dropped + t.lost == Held(s, r) + t.issued
  {
    if steps != [] {
      NothingIsMiscounted(hasPool, s, steps[..|steps| - 1], r);
      StepConserves(hasPool, Run(hasPool, s, steps[..|steps| - 1]), steps[|steps| - 1], r);
    }
  }

  // ---- when nothing is lost ----

  /** The database does not fail this step. */
  ghost predicate Healthy(step: Step) {
    step.Tick? || step.Finish? ==> step.link.begins && step.link.commits && forall r: Record :: step.link.accepts(r)
  }

  /** Facts of every reachable state: the queue keeps its bound, the batch has no idle rows, and
      a worker that has ended left nothing behind. */
  predicate Sound(s: State) {
    && |s.queue| <= CAPACITY
    && (forall r <- Keys(s.batch) :: Pending(s.batch, r) > 0)
    && (s.done ==> s.closed && s.queue == [] && s.batch == map[])
  }

  lemma StepKeepsSound(hasPool: bool, s: State, step: Step)
    requires Sound(s)
    ensures Sound(Next(hasPool, s, step))
  {
    if step.Take? && s.queue != [] && !s.done {
      var b := Counted(s.batch, s.queue[0]);
      forall r <- Keys(b) ensures Pending(b, r) > 0 {
        CountingOne(s.batch, s.queue[0], r);
        if r != s.queue[0] { assert r in Keys(s.batch); }
      }
    }
  }

  lemma {:induction false} SoundAlways(hasPool: bool, s: State, steps: seq<Step>)
    requires Sound(s)
    ensures Sound(Run(hasPool, s, steps))
  {
    if steps != [] {
      SoundAlways(hasPool, s, steps[..|steps| - 1]);
      StepKeepsSound(hasPool, Run(hasPool, s, steps[..|steps| - 1]), steps[|steps| - 1]);
    }
  }

  lemma {:induction false} HealthyLosesNothing(s: State, steps: seq<Step>, r: Record)
    requires forall step <- steps :: Healthy(step)
    ensures TallyOf(true, s, steps, r).lost == 0
  {
    if steps != [] {
      HealthyLosesNothing(s, steps[..|steps| - 1], r);
      assert Healthy(steps[|steps| - 1]);
    }
  }

  /** With a database that answers, the table has grown by exactly what was issued and not
      dropped once the worker has ended. */
  lemma ShutdownSettlesTheAccount(s: State, steps: seq<Step>, r: Record)
    requires Sound(s) && s.queue == [] && s.batch == map[]
    requires forall step <- steps :: Healthy(step)
    requires Run(true, s, steps).done
    ensures var t := TallyOf(true, s, steps, r);
            Stored(Run(true, s, steps).table, r) == Stored(s.table, r) + t.issued - t.dropped
  {
    NothingIsMiscounted(true, s, steps, r);
    HealthyLosesNothing(s, steps, r);
    SoundAlways(true, s, steps);
  }

  /** One record the table refuses, an institution that is no uuid, costs everyone's counts of
      that batch; and only a batch that lands leaves any trace. */
  lemma OneRefusalLosesTheBatch(hasPool: bool, s: State, link: Link, bad: Record, r: Record)
    requires Sound(s) && !s.done && bad in Keys(s.batch)
    ensures !link.accepts(bad) ==> StepTally(hasPool, s, Tick(link), r).lost == Pending(s.batch, r)
    ensures Next(hasPool, s, Tick(link)).table == s.table <==> !Lands(hasPool, s.batch, link)
  {
    assert Pending(s.batch, bad) > 0;
    AddedHolds(s.table, s.batch, bad);
  }
}
