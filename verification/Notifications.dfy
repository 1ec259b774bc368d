/** The inbox and its sixty-second dedupe, under clock ticks, erasures and the job queue's
  * retries. */
module Notifications {
  import opened Basics

  const WINDOW := 60000                 // milliseconds
  const ATTEMPTS := 5
  const FIRST_DELAY := 2000

  type Id = string

  datatype Job = Job(user: Id, kind: string, actor: Option<Id>, key: Option<string>)

  datatype Row = Row(user: Id, kind: string, actor: Option<Id>, key: Option<string>, createdAt: int)

  datatype World = World(rows: seq<Row>, now: int)

  // An empty key counts as no key.
  predicate Keyed(job: Job) { job.key.Some? && job.key.value != [] }

  function RowOf(job: Job, at: int): Row {
    Row(job.user, job.kind, job.actor, if Keyed(job) then job.key else None, at)
  }

  predicate Matches(r: Row, user: Id, key: string) { r.user == user && r.key == Some(key) }

  // createdAt > NOW() - 60 s
  predicate Recent(rows: seq<Row>, user: Id, key: string, now: int) {
    exists i :: 0 <= i < |rows| && Matches(rows[i], user, key) && rows[i].createdAt > now - WINDOW
  }

  predicate Duplicate(rows: seq<Row>, job: Job, now: int) { Keyed(job) && Recent(rows, job.user, job.key.value, now) }

  function Deliver(w: World, job: Job): World {
    if Duplicate(w.rows, job, w.now) then w else w.(rows := w.rows + [RowOf(job, w.now)])
  }

  function Forget(rows: seq<Row>, u: Id): seq<Row> {
    if rows == [] then []
    else Forget(rows[..|rows| - 1], u)
         + (if rows[|rows| - 1].user == u || rows[|rows| - 1].actor == Some(u) then [] else [rows[|rows| - 1]])
  }

  datatype Step = DoDeliver(job: Job) | DoErase(u: Id) | Tick(elapsed: nat)

  function Next(w: World, step: Step): World {
    match step
    case DoDeliver(job) => Deliver(w, job)
    case DoErase(u) => w.(rows := Forget(w.rows, u))
    case Tick(elapsed) => w.(now := w.now + elapsed)
  }

  function Run(now: int, steps: seq<Step>): World {
    if steps == [] then World([], now) else Next(Run(now, steps[..|steps| - 1]), steps[|steps| - 1])
  }

  // ── Spacing ────────────────────────────────────────────────────────────────

  // Rows of one recipient and key are at least the window apart, and rows are in order.
  predicate Spaced(rows: seq<Row>) {
    forall i, j | 0 <= i < j < |rows| ::
      && rows[i].createdAt <= rows[j].createdAt
      && (rows[i].key.Some? && Matches(rows[j], rows[i].user, rows[i].key.value) ==>
            rows[i].createdAt + WINDOW <= rows[j].createdAt)
  }

  predicate Past(w: World) { forall i | 0 <= i < |w.rows| :: w.rows[i].createdAt <= w.now }

  lemma {:induction false} ForgetKeeps(rows: seq<Row>, u: Id, now: int)
    requires Spaced(rows) && Past(World(rows, now))
    ensures Spaced(Forget(rows, u)) && Past(World(Forget(rows, u), now))
    ensures rows != [] ==> forall i | 0 <= i < |Forget(rows, u)| :: Forget(rows, u)[i] in rows
  {
    if rows != [] {
      ForgetKeeps(rows[..|rows| - 1], u, now);
      var before := Forget(rows[..|rows| - 1], u);
      if |rows| == 1 { assert before == []; }
      forall i | 0 <= i < |before| ensures before[i] in rows[..|rows| - 1] { }
    }
  }

  lemma DeliverKeeps(w: World, job: Job)
    requires Spaced(w.rows) && Past(w)
    ensures Spaced(Deliver(w, job).rows) && Past(Deliver(w, job))
  {
  }

  // Nothing is dropped without cause: a keyed delivery leaves a row of the last minute, its
  // own unless there was one, and an unkeyed one always adds its row.
  lemma DeliveryShows(w: World, job: Job)
    ensures var w' := Deliver(w, job);
      && (Keyed(job) ==> Recent(w'.rows, job.user, job.key.value, w.now))
      && (w'.rows == w.rows + [RowOf(job, w.now)]
          || (w' == w && Keyed(job) && Recent(w.rows, job.user, job.key.value, w.now)))
  {
    var w' := Deliver(w, job);
    if Keyed(job) && !Duplicate(w.rows, job, w.now) {
      assert w'.rows[|w.rows|] == RowOf(job, w.now);
      assert Matches(w'.rows[|w.rows|], job.user, job.key.value);
    }
  }

  // What a delivered row says; an empty key is stored as none.
  lemma DeliveredRow(w: World, job: Job)
    ensures var w' := Deliver(w, job); var keyed := job.key.Some? && job.key.value != [];
            var dropped := keyed && exists i | 0 <= i < |w.rows| ::
                             w.rows[i].user == job.user && w.rows[i].key == job.key
                             && w.now - 60_000 < w.rows[i].createdAt;
      w' == if dropped then w
            else World(w.rows + [Row(job.user, job.kind, job.actor, if keyed then job.key else None, w.now)], w.now)
  {
    if Duplicate(w.rows, job, w.now) {
      var i :| 0 <= i < |w.rows| && Matches(w.rows[i], job.user, job.key.value) && w.rows[i].createdAt > w.now - WINDOW;
    }
  }

  predicate About(r: Row, u: Id) { r.user == u || r.actor == Some(u) }

  // Erasing a user takes the rows to them and from them; the others stay.
  lemma {:induction false} ForgetExactly(rows: seq<Row>, u: Id, r: Row)
    ensures r in Forget(rows, u) <==> r in rows && !About(r, u)
  {
    if rows != [] {
      var front, last := rows[..|rows| - 1], rows[|rows| - 1];
      assert rows == front + [last];
      ForgetExactly(front, u, r);
    }
  }

  // Row by row, in their order.
  lemma {:induction false} ForgetAppends(a: seq<Row>, b: seq<Row>, u: Id)
    ensures Forget(a + b, u) == Forget(a, u) + Forget(b, u)
  {
    if b == [] {
      assert a + b == a;
    } else {
      assert (a + b)[..|a + b| - 1] == a + b[..|b| - 1];
      ForgetAppends(a, b[..|b| - 1], u);
    }
  }

  lemma {:induction false} RunKeeps(now: int, steps: seq<Step>)
    ensures var w := Run(now, steps); Spaced(w.rows) && Past(w)
  {
    if steps != [] {
      var before := Run(now, steps[..|steps| - 1]);
      RunKeeps(now, steps[..|steps| - 1]);
      match steps[|steps| - 1]
      case DoDeliver(job) => DeliverKeeps(before, job);
      case DoErase(u) => ForgetKeeps(before.rows, u, before.now);
      case Tick(elapsed) =>
    }
  }

  // The times of the rows for one recipient and key that fall in [from, to].
  function Times(rows: seq<Row>, user: Id, key: string, from: int, to: int): seq<int> {
    if rows == [] then []
    else Times(rows[..|rows| - 1], user, key, from, to) + TimeOf(rows[|rows| - 1], user, key, from, to)
  }

  function TimeOf(r: Row, user: Id, key: string, from: int, to: int): seq<int> {
    if Matches(r, user, key) && from <= r.createdAt <= to then [r.createdAt] else []
  }

  lemma TimesAppend(front: seq<Row>, last: Row, user: Id, key: string, from: int, to: int)
    ensures Times(front + [last], user, key, from, to)
            == Times(front, user, key, from, to) + TimeOf(last, user, key, from, to)
  {
    assert (front + [last])[..|front|] == front;
  }

  predicate Stored(rows: seq<Row>, user: Id, key: string, at: int) {
    exists i :: 0 <= i < |rows| && Matches(rows[i], user, key) && rows[i].createdAt == at
  }

  lemma Gap(front: seq<Row>, last: Row, user: Id, key: string, at: int)
    requires Spaced(front + [last]) && Stored(front, user, key, at) && Matches(last, user, key)
    ensures at + WINDOW <= last.createdAt
  {
    var i :| 0 <= i < |front| && Matches(front[i], user, key) && front[i].createdAt == at;
    var rows := front + [last];
    assert rows[i] == front[i] && rows[|front|] == last;
  }

  lemma StoredGrows(front: seq<Row>, last: Row, user: Id, key: string, at: int)
    requires Stored(front, user, key, at) || (Matches(last, user, key) && last.createdAt == at)
    ensures Stored(front + [last], user, key, at)
  {
    var rows := front + [last];
    if Stored(front, user, key, at) {
      var i :| 0 <= i < |front| && Matches(front[i], user, key) && front[i].createdAt == at;
      assert rows[i] == front[i];
    } else {
      assert rows[|front|] == last;
    }
  }

  // The last of these times is a stored one, as late as a minute between each two makes it.
  predicate Spread(rows: seq<Row>, user: Id, key: string, from: int, to: int, ts: seq<int>) {
    ts != [] ==> from + (|ts| - 1) * WINDOW <= ts[|ts| - 1] <= to && Stored(rows, user, key, ts[|ts| - 1])
  }

  lemma SpreadGrows(front: seq<Row>, last: Row, user: Id, key: string, from: int, to: int, before: seq<int>)
    requires Spaced(front + [last]) && Spread(front, user, key, from, to, before)
    ensures Spread(front + [last], user, key, from, to, before + TimeOf(last, user, key, from, to))
  {
    if Matches(last, user, key) && from <= last.createdAt <= to {
      StoredGrows(front, last, user, key, last.createdAt);
      if before != [] { Gap(front, last, user, key, before[|before| - 1]); }
    } else if before != [] {
      StoredGrows(front, last, user, key, before[|before| - 1]);
    }
  }

  lemma {:induction false} TimesSpread(rows: seq<Row>, user: Id, key: string, from: int, to: int)
    requires Spaced(rows)
    ensures Spread(rows, user, key, from, to, Times(rows, user, key, from, to))
  {
    if rows != [] {
      var front, last := rows[..|rows| - 1], rows[|rows| - 1];
      assert rows == front + [last];
      TimesAppend(front, last, user, key, from, to);
      TimesSpread(front, user, key, from, to);
      SpreadGrows(front, last, user, key, from, to, Times(front, user, key, from, to));
    }
  }

  // Over all runs: in any span of W milliseconds a recipient gets at most W/60000 + 1
  // notifications under one key.
  lemma InboxBound(now: int, steps: seq<Step>, user: Id, key: string, from: int, span: nat)
    ensures |Times(Run(now, steps).rows, user, key, from, from + span)| <= span / WINDOW + 1
  {
    RunKeeps(now, steps);
    TimesSpread(Run(now, steps).rows, user, key, from, from + span);
    var n := |Times(Run(now, steps).rows, user, key, from, from + span)|;
    if n > 0 { assert (n - 1) * WINDOW <= span; }
  }

  function EveryMinute(job: Job, n: nat): seq<Step> {
    if n == 0 then [DoDeliver(job)] else EveryMinute(job, n - 1) + [Tick(WINDOW), DoDeliver(job)]
  }

  function MinuteRows(job: Job, n: nat): seq<Row> {
    (if n == 0 then [] else MinuteRows(job, n - 1)) + [RowOf(job, n * WINDOW)]
  }

  lemma {:induction false} MinuteRowsPast(job: Job, n: nat)
    ensures forall i | 0 <= i < |MinuteRows(job, n)| :: MinuteRows(job, n)[i].createdAt <= n * WINDOW
  {
    if n > 0 { MinuteRowsPast(job, n - 1); }
  }

  // A minute later the earlier rows no longer count as recent.
  lemma NextMinuteDelivers(job: Job, n: nat)
    requires n > 0
    ensures var w := World(MinuteRows(job, n - 1), (n - 1) * WINDOW);
      Next(Next(w, Tick(WINDOW)), DoDeliver(job)) == World(MinuteRows(job, n), n * WINDOW)
  {
    MinuteRowsPast(job, n - 1);
  }

  lemma MinuteSteps(job: Job, n: nat)
    requires n > 0
    ensures Run(0, EveryMinute(job, n)) == Next(Next(Run(0, EveryMinute(job, n - 1)), Tick(WINDOW)), DoDeliver(job))
  {
    var steps, before := EveryMinute(job, n), EveryMinute(job, n - 1);
    assert steps[..|steps| - 1] == before + [Tick(WINDOW)];
    assert (before + [Tick(WINDOW)])[..|before|] == before;
  }

  lemma FirstMinute(job: Job)
    ensures Run(0, EveryMinute(job, 0)) == World(MinuteRows(job, 0), 0)
  {
    assert EveryMinute(job, 0)[..0] == [];
  }

  lemma {:induction false} MinuteRun(job: Job, n: nat)
    ensures Run(0, EveryMinute(job, n)) == World(MinuteRows(job, n), n * WINDOW)
  {
    if n == 0 {
      FirstMinute(job);
    } else {
      MinuteRun(job, n - 1);
      MinuteSteps(job, n);
      NextMinuteDelivers(job, n);
    }
  }

  lemma {:induction false} MinuteTimes(job: Job, n: nat, to: int)
    requires Keyed(job) && to >= n * WINDOW
    ensures |Times(MinuteRows(job, n), job.user, job.key.value, 0, to)| == n + 1
  {
    var front := if n == 0 then [] else MinuteRows(job, n - 1);
    TimesAppend(front, RowOf(job, n * WINDOW), job.user, job.key.value, 0, to);
    if n > 0 { MinuteTimes(job, n - 1, to); }
  }

  // And the bound is met: one delivery a minute is never dropped.
  lemma InboxBoundIsTight(job: Job, n: nat)
    requires Keyed(job)
    ensures var span := n * WINDOW;
      |Times(Run(0, EveryMinute(job, n)).rows, job.user, job.key.value, 0, span)| == span / WINDOW + 1
  {
    MinuteRun(job, n);
    MinuteTimes(job, n, n * WINDOW);
  }

  // ── The check and the insert pulled apart ──────────────────────────────────

  // A row inserted on an earlier check keeps the spacing exactly when a fresh check would
  // still let it through.
  lemma DelayedInsert(w: World, job: Job)
    requires Spaced(w.rows) && Past(w)
    ensures Spaced(w.rows + [RowOf(job, w.now)]) <==> !Duplicate(w.rows, job, w.now)
  {
    var rows := w.rows + [RowOf(job, w.now)];
    if Duplicate(w.rows, job, w.now) {
      var i :| 0 <= i < |w.rows| && Matches(w.rows[i], job.user, job.key.value) && w.rows[i].createdAt > w.now - WINDOW;
      assert rows[i] == w.rows[i] && rows[|w.rows|] == RowOf(job, w.now);
    }
  }

  // The inserting half of a delivery, its check done earlier.
  function InsertRow(w: World, job: Job): World { w.(rows := w.rows + [RowOf(job, w.now)]) }

  // So two deliveries of one key that overlap: both pass their check on the same rows, alone
  // each would have inserted and made the other a duplicate, and both insert. The second insert
  // breaks the spacing however much later it comes, short of a minute.
  lemma OverlappingDeliveriesDuplicate(w: World, job: Job, delay: nat)
    requires Spaced(w.rows) && Past(w) && Keyed(job) && !Duplicate(w.rows, job, w.now) && delay < WINDOW
    ensures var first := InsertRow(w, job); var later := first.(now := w.now + delay);
      && Deliver(w, job) == first && Deliver(later, job) == later
      && Spaced(first.rows) && !Spaced(InsertRow(later, job).rows)
  {
    DelayedInsert(w, job);
    var first := InsertRow(w, job);
    var later := first.(now := w.now + delay);
    assert first.rows[|w.rows|] == RowOf(job, w.now);
    assert Duplicate(later.rows, job, later.now);
    DelayedInsert(later, job);
  }
}
