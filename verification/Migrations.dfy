/** The migration runner of infrastructure/database/migrations.go: one transaction that executes,
    in list order, every migration not yet recorded, and refuses a recorded one that changed. */
module Migrations {
  import opened Text

  datatype Migration = Migration(name: string, sql: string)

  /** What is committed: the checksums on record, and every migration executed, oldest first. */
  datatype Schema = Schema(recorded: map<string, string>, executed: seq<Migration>)

  const EMPTY := Schema(map[], [])

  /** How the database answers in one run.  Whether a statement succeeds depends on what was
      executed before it; a deadline that passes is a statement that fails. */
  datatype Link = Link(
    opens: bool,
    looksUp: Migration -> bool,
    executes: (seq<Migration>, Migration) -> bool,
    records: Migration -> bool,
    commits: bool)

  datatype Failure = NoTransaction | Unread | Changed | Unapplied | Uncommitted

  datatype Outcome = Ok(value: Schema) | Err(why: Failure)

  /** The checksum is taken of the trimmed text. */
  type Hash = string -> string

  function Sum(h: Hash, m: Migration): string { h(Trim(m.sql)) }

  predicate Matches(h: Hash, s: Schema, m: Migration) {
    m.name in s.recorded && Trim(s.recorded[m.name]) == Trim(Sum(h, m))
  }

  function Recorded(h: Hash, s: Schema, m: Migration): Schema {
    Schema(s.recorded[m.name := Sum(h, m)], s.executed + [m])
  }

  function One(h: Hash, s: Schema, m: Migration, link: Link): Outcome {
    if !link.looksUp(m) then Err(Unread)
    else if m.name in s.recorded then (if Matches(h, s, m) then Ok(s) else Err(Changed))
    else if link.executes(s.executed, m) && link.records(m) then Ok(Recorded(h, s, m))
    else Err(Unapplied)
  }

  /** The transaction's own view after the list. */
  function Walk(h: Hash, s: Schema, list: seq<Migration>, link: Link): Outcome {
    if list == [] then Ok(s)
    else
      var before := Walk(h, s, list[..|list| - 1], link);
      if before.Ok? then One(h, before.value, list[|list| - 1], link) else before
  }

  /** Succeeds, and commits, or leaves everything as it was. */
  function Attempt(h: Hash, s: Schema, list: seq<Migration>, link: Link): Outcome {
    if !link.opens then Err(NoTransaction)
    else
      var r := Walk(h, s, list, link);
      if r.Ok? && !link.commits then Err(Uncommitted) else r
  }

  function After(h: Hash, s: Schema, list: seq<Migration>, link: Link): Schema {
    var r := Attempt(h, s, list, link);
    if r.Ok? then r.value else s
  }

  class Database {
    const hash: Hash
    var recorded: map<string, string>
    var executed: seq<Migration>

    ghost function Model(): Schema reads this { Schema(recorded, executed) }

    constructor (hash: Hash)
      ensures this.hash == hash && Model() == EMPTY
    {
      this.hash := hash;
      recorded, executed := map[], [];
    }

    method ApplyMigrations(list: seq<Migration>, link: Link) returns (ok: bool)
      modifies this
      ensures ok == Attempt(hash, old(Model()), list, link).Ok?
      ensures Model() == After(hash, old(Model()), list, link)
    {
      if !link.opens { return false; }
      var names, log := recorded, executed;   // the transaction's view
      for i := 0 to |list|
        invariant Walk(hash, Model(), list[..i], link) == Ok(Schema(names, log))
        invariant Model() == old(Model())
      {
        var m := list[i];
        WalkSplits(hash, Model(), list, i, link);
        if !link.looksUp(m) { return false; }
        var checksum := hash(Trim(m.sql));
        if m.name in names {
          if Trim(names[m.name]) != Trim(checksum) { return false; }
          continue;
        }
        if !link.executes(log, m) { return false; }
        if !link.records(m) { return false; }
        names, log := names[m.name := checksum], log + [m];
      }
      assert list[..|list|] == list;
      if !link.commits { return false; }
      recorded, executed := names, log;
      return true;
    }
  }

  /** One more migration, and an error there is the error of the whole list. */
  lemma {:induction false} WalkSplits(h: Hash, s: Schema, list: seq<Migration>, i: nat, link: Link)
    requires i < |list|
    ensures var before := Walk(h, s, list[..i], link);
            && Walk(h, s, list[..i + 1], link) == (if before.Ok? then One(h, before.value, list[i], link) else before)
            && (Walk(h, s, list[..i + 1], link).Err? ==> Walk(h, s, list, link).Err?)
    decreases |list| - i
  {
    assert list[..i + 1][..i] == list[..i];
    if i + 1 < |list| {
      WalkSplits(h, s, list, i + 1, link);
    } else {
      assert list[..i + 1] == list;
    }
  }

  // ---- the record tells the truth ----

  predicate DistinctNames(list: seq<Migration>) {
    forall i, j :: 0 <= i < j < |list| ==> list[i].name != list[j].name
  }

  /** Every name on record was executed once, with that checksum, and nothing else was. */
  predicate Truthful(h: Hash, s: Schema) {
    && DistinctNames(s.executed)
    && (forall m <- s.executed :: m.name in s.recorded && s.recorded[m.name] == Sum(h, m))
    && (forall n <- s.recorded :: exists m <- s.executed :: m.name == n)
  }

  lemma OneKeepsTruth(h: Hash, s: Schema, m: Migration, link: Link)
    requires Truthful(h, s)
    ensures var r := One(h, s, m, link);
            r.Ok? ==> Truthful(h, r.value) && s.executed <= r.value.executed
  {
    if m.name !in s.recorded { RecordingKeepsTruth(h, s, m); }
  }

  lemma RecordingKeepsTruth(h: Hash, s: Schema, m: Migration)
    requires Truthful(h, s) && m.name !in s.recorded
    ensures Truthful(h, Recorded(h, s, m))
  {
    var after := Recorded(h, s, m);
    forall i, j | 0 <= i < j < |after.executed| ensures after.executed[i].name != after.executed[j].name {
      assert s.executed[i] in s.executed;
    }
    forall n <- after.recorded ensures exists x <- after.executed :: x.name == n {
      if n == m.name {
        assert m in after.executed;
      } else {
        var y :| y in s.executed && y.name == n;
        assert y in after.executed;
      }
    }
  }

  lemma {:induction false} WalkKeepsTruth(h: Hash, s: Schema, list: seq<Migration>, link: Link)
    requires Truthful(h, s)
    ensures var r := Walk(h, s, list, link);
            r.Ok? ==> Truthful(h, r.value) && s.executed <= r.value.executed
  {
    if list != [] {
      var before := Walk(h, s, list[..|list| - 1], link);
      WalkKeepsTruth(h, s, list[..|list| - 1], link);
      if before.Ok? { OneKeepsTruth(h, before.value, list[|list| - 1], link); }
    }
  }

  datatype Try = Try(list: seq<Migration>, link: Link)

  function Run(h: Hash, s: Schema, tries: seq<Try>): Schema {
    if tries == [] then s
    else
      var last := tries[|tries| - 1];
      After(h, Run(h, s, tries[..|tries| - 1]), last.list, last.link)
  }

  /** At most once: whatever lists are run, however often and with whatever failures, no name is
      executed twice, and the record names exactly what was executed. */
  lemma {:induction false} NothingRunsTwice(h: Hash, tries: seq<Try>)
    ensures Truthful(h, Run(h, EMPTY, tries))
  {
    if tries != [] {
      var last := tries[|tries| - 1];
      NothingRunsTwice(h, tries[..|tries| - 1]);
      WalkKeepsTruth(h, Run(h, EMPTY, tries[..|tries| - 1]), last.list, last.link);
    }
  }

  // ---- lists that only grow ----

  /** The state after exactly this list. */
  function Done(h: Hash, list: seq<Migration>): Schema { Schema(Sums(h, list), list) }

  function Sums(h: Hash, list: seq<Migration>): map<string, string> {
    if list == [] then map[] else Sums(h, list[..|list| - 1])[list[|list| - 1].name := Sum(h, list[|list| - 1])]
  }

  lemma {:induction false} DoneRecords(h: Hash, list: seq<Migration>, i: nat)
    requires i < |list| && forall j :: i < j < |list| ==> list[j].name != list[i].name
    ensures var s := Sums(h, list); list[i].name in s && s[list[i].name] == Sum(h, list[i])
  {
    if i < |list| - 1 { DoneRecords(h, list[..|list| - 1], i); }
  }

  lemma {:induction false} DoneRecordsOnly(h: Hash, list: seq<Migration>, n: string)
    requires n in Sums(h, list)
    ensures exists m <- list :: m.name == n
  {
    var before, last := list[..|list| - 1], list[|list| - 1];
    if last.name != n {
      DoneRecordsOnly(h, before, n);
      var m :| m in before && m.name == n;
      assert m in list;
    } else {
      assert last in list;
    }
  }

  /** What the database must answer for a run over `list[..j]` when `list[..k]` is done. */
  predicate Cooperates(list: seq<Migration>, k: nat, j: nat, link: Link)
    requires j <= |list|
  {
    && (forall i :: 0 <= i < j ==> link.looksUp(list[i]))
    && (forall i :: k <= i < j ==> link.executes(list[..i], list[i]) && link.records(list[i]))
  }

  lemma DoneIsSkipped(h: Hash, list: seq<Migration>, k: nat, i: nat, link: Link)
    requires DistinctNames(list) && i < k <= |list|
    ensures var done := Done(h, list[..k]);
            One(h, done, list[i], link) == if link.looksUp(list[i]) then Ok(done) else Err(Unread)
  {
    DoneRecords(h, list[..k], i);
  }

  lemma NextIsExecuted(h: Hash, list: seq<Migration>, i: nat, link: Link)
    requires DistinctNames(list) && i < |list|
    ensures var r := One(h, Done(h, list[..i]), list[i], link);
            && (r.Ok? <==> link.looksUp(list[i]) && link.executes(list[..i], list[i]) && link.records(list[i]))
            && (r.Ok? ==> r.value == Done(h, list[..i + 1]))
  {
    var done := Done(h, list[..i]);
    if list[i].name in done.recorded {
      DoneRecordsOnly(h, list[..i], list[i].name);
      assert false;
    }
    assert list[..i + 1][..i] == list[..i];
    assert list[..i + 1] == list[..i] + [list[i]];
  }

  /** What a run over `list[..j]` comes to when `list[..k]` is done. */
  predicate Resumed(h: Hash, list: seq<Migration>, k: nat, j: nat, link: Link, r: Outcome)
    requires k <= |list| && j <= |list|
  {
    && (r.Ok? <==> Cooperates(list, k, j, link))
    && (r.Ok? ==> r.value == Done(h, list[..if k < j then j else k]))
  }

  lemma ResumeSkips(h: Hash, list: seq<Migration>, k: nat, j: nat, link: Link, r: Outcome)
    requires DistinctNames(list) && 0 < j <= k <= |list| && Resumed(h, list, k, j - 1, link, r)
    ensures Resumed(h, list, k, j, link, if r.Ok? then One(h, r.value, list[j - 1], link) else r)
  {
    CooperatesOnce(list, k, j, link);
    DoneIsSkipped(h, list, k, j - 1, link);
  }

  lemma ResumeExecutes(h: Hash, list: seq<Migration>, k: nat, j: nat, link: Link, r: Outcome)
    requires DistinctNames(list) && k < j <= |list| && Resumed(h, list, k, j - 1, link, r)
    ensures Resumed(h, list, k, j, link, if r.Ok? then One(h, r.value, list[j - 1], link) else r)
  {
    CooperatesOnce(list, k, j, link);
    assert r.Ok? ==> r.value == Done(h, list[..j - 1]);
    NextIsExecuted(h, list, j - 1, link);
  }

  /** A run goes on where the last one stopped, each migration after all those before it; and it
      succeeds exactly when the database answers. */
  lemma {:induction false} WalkResumes(h: Hash, list: seq<Migration>, k: nat, j: nat, link: Link)
    requires DistinctNames(list) && k <= |list| && j <= |list|
    ensures Resumed(h, list, k, j, link, Walk(h, Done(h, list[..k]), list[..j], link))
    decreases j
  {
    if j > 0 {
      var done := Done(h, list[..k]);
      WalkResumes(h, list, k, j - 1, link);
      WalkTakesOne(h, done, list, j, link);
      var before := Walk(h, done, list[..j - 1], link);
      if j <= k { ResumeSkips(h, list, k, j, link, before); } else { ResumeExecutes(h, list, k, j, link, before); }
    }
  }

  lemma WalkTakesOne(h: Hash, s: Schema, list: seq<Migration>, j: nat, link: Link)
    requires 0 < j <= |list|
    ensures var before := Walk(h, s, list[..j - 1], link);
            Walk(h, s, list[..j], link) == if before.Ok? then One(h, before.value, list[j - 1], link) else before
  {
    assert list[..j][..j - 1] == list[..j - 1];
  }

  lemma CooperatesOnce(list: seq<Migration>, k: nat, j: nat, link: Link)
    requires 0 < j <= |list|
    ensures Cooperates(list, k, j, link) <==>
              && Cooperates(list, k, j - 1, link) && link.looksUp(list[j - 1])
              && (k < j ==> link.executes(list[..j - 1], list[j - 1]) && link.records(list[j - 1]))
  {
  }

  lemma AttemptResumes(h: Hash, done: seq<Migration>, list: seq<Migration>, link: Link)
    requires DistinctNames(list) && done <= list
    ensures var r := Attempt(h, Done(h, done), list, link);
            && (r.Ok? <==> link.opens && link.commits && Cooperates(list, |done|, |list|, link))
            && (r.Ok? ==> r.value == Done(h, list))
  {
    assert list[..|done|] == done && list[..|list|] == list;
    WalkResumes(h, list, |done|, |list|, link);
  }

  /** The list of the last run that succeeded. */
  function Committed(h: Hash, tries: seq<Try>): seq<Migration> {
    if tries == [] then []
    else
      var before, last := tries[..|tries| - 1], tries[|tries| - 1];
      if Attempt(h, Run(h, EMPTY, before), last.list, last.link).Ok? then last.list else Committed(h, before)
  }

  /** Releases append to the list and never reorder it. */
  ghost predicate Grows(tries: seq<Try>) {
    && (forall t <- tries :: DistinctNames(t.list))
    && (forall i, j :: 0 <= i < j < |tries| ==> tries[i].list <= tries[j].list)
  }

  lemma GrowsBefore(tries: seq<Try>)
    requires Grows(tries) && tries != []
    ensures Grows(tries[..|tries| - 1])
    ensures forall t <- tries[..|tries| - 1] :: t.list <= tries[|tries| - 1].list
  {
  }

  lemma {:induction false} CommittedWasTried(h: Hash, tries: seq<Try>)
    ensures Committed(h, tries) == [] || exists t <- tries :: Committed(h, tries) == t.list
  {
    if tries != [] {
      var before, last := tries[..|tries| - 1], tries[|tries| - 1];
      assert tries == before + [last];
      CommittedWasTried(h, before);
    }
  }

  lemma CommittedIsPrefix(h: Hash, tries: seq<Try>)
    requires Grows(tries) && tries != []
    ensures Committed(h, tries[..|tries| - 1]) <= tries[|tries| - 1].list
  {
    GrowsBefore(tries);
    CommittedWasTried(h, tries[..|tries| - 1]);
  }

  lemma {:induction false} RunIsDone(h: Hash, tries: seq<Try>)
    requires Grows(tries)
    ensures Run(h, EMPTY, tries) == Done(h, Committed(h, tries))
  {
    if tries != [] {
      var before, last := tries[..|tries| - 1], tries[|tries| - 1];
      GrowsBefore(tries);
      RunIsDone(h, before);
      CommittedIsPrefix(h, tries);
      assert last in tries;
      AttemptResumes(h, Committed(h, before), last.list, last.link);
    }
  }

  /** Exactly once and in list order: after any runs over a growing list, failed ones included,
      the migrations executed are those of the last list that succeeded, in its order, and
      those are the ones on record. */
  lemma RunsExactlyOnce(h: Hash, tries: seq<Try>)
    requires Grows(tries)
    ensures var s := Run(h, EMPTY, tries);
            && s.executed == Committed(h, tries)
            && (forall m <- Committed(h, tries) :: Matches(h, s, m))
            && (forall n <- s.recorded :: exists m <- Committed(h, tries) :: m.name == n)
  {
    RunIsDone(h, tries);
    CommittedWasTried(h, tries);
    var list := Committed(h, tries);
    forall m <- list ensures Matches(h, Done(h, list), m) {
      var i :| 0 <= i < |list| && list[i] == m;
      DoneRecords(h, list, i);
    }
    forall n <- Done(h, list).recorded ensures exists m <- list :: m.name == n {
      DoneRecordsOnly(h, list, n);
    }
  }

  /** When the next run of a growing list succeeds: the database has to answer, and to execute
      each migration that is new after all those before it. */
  lemma AttemptSucceedsIff(h: Hash, tries: seq<Try>, list: seq<Migration>, link: Link)
    requires Grows(tries + [Try(list, link)])
    ensures var done := Committed(h, tries);
            && done <= list
            && (Attempt(h, Run(h, EMPTY, tries), list, link).Ok? <==>
                  link.opens && link.commits && Cooperates(list, |done|, |list|, link))
  {
    var all := tries + [Try(list, link)];
    assert all[..|all| - 1] == tries && all[|all| - 1] in all;
    GrowsBefore(all);
    CommittedIsPrefix(h, all);
    RunIsDone(h, tries);
    AttemptResumes(h, Committed(h, tries), list, link);
  }

  // ---- reruns and changed migrations ----

  /** Only the text between the first and the last character that is no space counts: a migration
      that was executed still matches after such an edit. */
  lemma SpacesDoNotCount(h: Hash, s: Schema, m: Migration, n: Migration)
    requires Truthful(h, s) && m in s.executed && n.name == m.name && Trim(n.sql) == Trim(m.sql)
    ensures Matches(h, s, n) && One(h, s, n, Cooperative()) == Ok(s)
  {
  }

  function Cooperative(): Link { Link(true, _ => true, (_, _) => true, _ => true, true) }

  /** Stored checksums are compared without the spaces a text column may carry. */
  lemma PaddedChecksumsMatch(h: Hash, s: Schema, m: Migration)
    requires m.name in s.recorded && Trim(s.recorded[m.name]) == Trim(Sum(h, m))
    ensures Matches(h, s, m)
  {
  }

  lemma {:induction false} WalkMatchesAll(h: Hash, s: Schema, list: seq<Migration>, link: Link)
    ensures var r := Walk(h, s, list, link);
            r.Ok? ==> (forall m <- list :: Matches(h, r.value, m))
                      && (forall n <- s.recorded :: n in r.value.recorded && r.value.recorded[n] == s.recorded[n])
  {
    if list != [] {
      var before, last := list[..|list| - 1], list[|list| - 1];
      assert list == before + [last];
      WalkMatchesAll(h, s, before, link);
    }
  }

  lemma {:induction false} MatchingIsSkipped(h: Hash, s: Schema, list: seq<Migration>, link: Link)
    requires forall m <- list :: Matches(h, s, m)
    ensures var r := Walk(h, s, list, link);
            (r.Ok? <==> forall m <- list :: link.looksUp(m)) && (r.Ok? ==> r.value == s)
  {
    if list != [] {
      var before, last := list[..|list| - 1], list[|list| - 1];
      assert list == before + [last];
      assert forall m <- before :: m in list;
      MatchingIsSkipped(h, s, before, link);
      assert last in list && Matches(h, s, last);
      assert (forall m <- list :: link.looksUp(m)) <==> (forall m <- before :: link.looksUp(m)) && link.looksUp(last);
    }
  }

  /** Running a list again after it succeeded changes nothing, whatever the list holds. */
  lemma RerunChangesNothing(h: Hash, s: Schema, list: seq<Migration>, first: Link, again: Link)
    requires Attempt(h, s, list, first).Ok?
    ensures After(h, After(h, s, list, first), list, again) == After(h, s, list, first)
  {
    WalkMatchesAll(h, s, list, first);
    MatchingIsSkipped(h, After(h, s, list, first), list, again);
  }

  /** A run over a list with one recorded migration whose checksum changed fails and leaves the
      database as it was, wherever in the list the migration stands. */
  lemma {:induction false} ChangedMigrationIsRefused(h: Hash, s: Schema, list: seq<Migration>, m: Migration, link: Link)
    requires m in list && m.name in s.recorded && !Matches(h, s, m)
    ensures Attempt(h, s, list, link).Err? && After(h, s, list, link) == s
  {
    WalkMatchesAll(h, s, list, link);
  }
}
