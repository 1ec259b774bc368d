/** One keyed notification job through the queue's retries: five attempts with doubling
  * delays of two seconds, any of which may fail before or after its insert. */
module Retries {
  import opened Notifications

  datatype Fate = Done | FailsBeforeInsert | FailsAfterInsert

  // Times within an attempt: the check, the insert and the end, in that order. `others` is
  // what other jobs inserted since the attempt before.
  datatype Attempt = Attempt(check: nat, insert: nat, duration: nat, fate: Fate, others: seq<Row>)

  predicate Ordered(a: Attempt) { a.check <= a.insert <= a.duration }

  function Backoff(attempt: nat): nat { if attempt <= 1 then FIRST_DELAY else 2 * Backoff(attempt - 1) }

  // The delays still to come after attempt number `attempt`.
  function BackoffLeft(attempt: nat): nat
    decreases ATTEMPTS - attempt
  {
    if attempt >= ATTEMPTS then 0 else Backoff(attempt) + BackoffLeft(attempt + 1)
  }

  function Processing(attempts: seq<Attempt>): nat {
    if attempts == [] then 0 else attempts[0].duration + Processing(attempts[1..])
  }

  predicate Inserts(rows: seq<Row>, job: Job, start: int, a: Attempt) {
    a.fate != FailsBeforeInsert && !Duplicate(rows + a.others, job, start + a.check)
  }

  // How many rows attempts number `attempt`, `attempt + 1`, ... insert for the job.
  function Inserted(rows: seq<Row>, job: Job, start: int, attempts: seq<Attempt>, attempt: nat): nat
    decreases |attempts|
  {
    if attempts == [] || attempt > ATTEMPTS then 0
    else
      var a := attempts[0];
      var now := Inserts(rows, job, start, a);
      var rows' := rows + a.others + if now then [RowOf(job, start + a.insert)] else [];
      (if now then 1 else 0)
      + if a.fate == Done then 0
        else Inserted(rows', job, start + a.duration + Backoff(attempt), attempts[1..], attempt + 1)
  }

  // An attempt that ends well is the last. It inserts exactly when nothing with its recipient and
  // key came in the minute before its own check.
  lemma DoneEndsIt(rows: seq<Row>, job: Job, start: int, a: Attempt, rest: seq<Attempt>, attempt: nat)
    requires Keyed(job) && a.fate == Done && attempt <= ATTEMPTS
    ensures var seen := rows + a.others;
            var recent := exists i | 0 <= i < |seen| :: seen[i].user == job.user && seen[i].key == job.key
                                                       && start + a.check - 60_000 < seen[i].createdAt;
            Inserted(rows, job, start, [a] + rest, attempt) == if recent then 0 else 1
  {
    var seen := rows + a.others;
    if Duplicate(seen, job, start + a.check) {
      var i :| 0 <= i < |seen| && Matches(seen[i], job.user, job.key.value)
               && seen[i].createdAt > start + a.check - WINDOW;
    }
  }

  predicate Has(rows: seq<Row>, job: Job, at: int) { RowOf(job, at) in rows }

  lemma HasIsRecent(rows: seq<Row>, job: Job, at: int, now: int)
    requires Keyed(job) && Has(rows, job, at) && now < at + WINDOW
    ensures Duplicate(rows, job, now)
  {
    var i :| 0 <= i < |rows| && rows[i] == RowOf(job, at);
    assert Matches(rows[i], job.user, job.key.value);
  }

  // Once a row is in, every later attempt that comes within the window finds it.
  lemma {:induction false} NoSecondInsert(rows: seq<Row>, job: Job, start: int, attempts: seq<Attempt>, attempt: nat,
                                          at: int)
    requires Keyed(job) && Has(rows, job, at) && forall a | a in attempts :: Ordered(a)
    requires 1 <= attempt <= ATTEMPTS ==> start + Processing(attempts) + BackoffLeft(attempt) < at + WINDOW
    requires attempt >= 1
    ensures Inserted(rows, job, start, attempts, attempt) == 0
    decreases |attempts|
  {
    if attempts != [] && attempt <= ATTEMPTS {
      var a := attempts[0];
      assert Ordered(a);
      HasIsRecent(rows + a.others, job, at, start + a.check);
      NoSecondInsert(rows + a.others, job, start + a.duration + Backoff(attempt), attempts[1..], attempt + 1, at);
      assert rows + a.others + [] == rows + a.others;
    }
  }

  lemma {:induction false} AtMostOneFrom(rows: seq<Row>, job: Job, start: int, attempts: seq<Attempt>, attempt: nat)
    requires Keyed(job) && 1 <= attempt && forall a | a in attempts :: Ordered(a)
    requires attempt <= ATTEMPTS ==> Processing(attempts) + BackoffLeft(attempt) < WINDOW
    ensures Inserted(rows, job, start, attempts, attempt) <= 1
    decreases |attempts|
  {
    if attempts != [] && attempt <= ATTEMPTS {
      var a := attempts[0];
      assert Ordered(a);
      var rows' := rows + a.others + if Inserts(rows, job, start, a) then [RowOf(job, start + a.insert)] else [];
      if Inserts(rows, job, start, a) {
        assert rows'[|rows'| - 1] == RowOf(job, start + a.insert);
        NoSecondInsert(rows', job, start + a.duration + Backoff(attempt), attempts[1..], attempt + 1, start + a.insert);
      } else {
        AtMostOneFrom(rows', job, start + a.duration + Backoff(attempt), attempts[1..], attempt + 1);
      }
    }
  }

  lemma Delays()
    ensures BackoffLeft(1) == 30000 && BackoffLeft(2) == 28000 && BackoffLeft(3) == 24000
    ensures BackoffLeft(4) == 16000 && BackoffLeft(5) == 0
    ensures Backoff(1) == 2000 && Backoff(2) == 4000 && Backoff(3) == 8000 && Backoff(4) == 16000
  {
    assert Backoff(1) == 2000;
    assert Backoff(2) == 4000;
    assert Backoff(3) == 8000;
    assert Backoff(4) == 16000;
    assert BackoffLeft(5) == 0;
    assert BackoffLeft(4) == 16000;
    assert BackoffLeft(3) == 24000;
    assert BackoffLeft(2) == 28000;
  }

  // Half a minute of work spread anywhere is enough for a duplicate: a first attempt that
  // inserts at once and then hangs, three that fail early, and a fifth that inserts again.
  function SlowRun(work: nat): seq<Attempt> {
    var early := Attempt(0, 0, 0, FailsBeforeInsert, []);
    [Attempt(0, 0, work, FailsAfterInsert, []), early, early, early, Attempt(0, 0, 0, Done, [])]
  }

  lemma SlowRunDuplicates(job: Job, work: nat)
    requires Keyed(job) && work >= 30000
    ensures Processing(SlowRun(work)) == work && Inserted([], job, 0, SlowRun(work), 1) == 2
  {
    Delays();
    var s := SlowRun(work);
    var rows := [RowOf(job, 0)];
    var last := s[1..][1..][1..][1..];
    assert last == [Attempt(0, 0, 0, Done, [])];
    assert last[1..] == [];
    assert !Duplicate(rows + [], job, work + 30000);
    assert Inserted(rows, job, work + 30000, last, 5) == 1;
    assert rows + [] + [] == rows;
    assert Inserted(rows, job, work + 14000, s[1..][1..][1..], 4) == 1;
    assert Inserted(rows, job, work + 6000, s[1..][1..], 3) == 1;
    assert Inserted(rows, job, work + 2000, s[1..], 2) == 1;
    assert [] + [] + [RowOf(job, 0)] == rows;
    assert !Duplicate([] + [], job, 0);
    assert Processing(last) == 0;
    assert Processing(s[1..][1..][1..]) == 0;
    assert Processing(s[1..][1..]) == 0;
    assert Processing(s[1..]) == 0;
  }

  // A job inserts at most one row, whatever fails and whatever else is inserted, exactly
  // when its attempts together take less than half a minute.
  lemma RetriesInsertOnce(job: Job, work: nat)
    requires Keyed(job)
    ensures work < 30000 <==>
      forall rows: seq<Row>, start: int, attempts: seq<Attempt> |
        (forall a | a in attempts :: Ordered(a)) && Processing(attempts) <= work ::
          Inserted(rows, job, start, attempts, 1) <= 1
  {
    Delays();
    if work < 30000 {
      forall rows: seq<Row>, start: int, attempts: seq<Attempt> |
        (forall a | a in attempts :: Ordered(a)) && Processing(attempts) <= work
        ensures Inserted(rows, job, start, attempts, 1) <= 1
      {
        AtMostOneFrom(rows, job, start, attempts, 1);
      }
    } else {
      SlowRunDuplicates(job, work);
    }
  }
}
