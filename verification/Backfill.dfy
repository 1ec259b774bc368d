/** The embeddings backfill: each run takes the fifty oldest pending components and embeds
  * them one by one. How fast that drains when some of them always fail. */
module Backfill {
  import opened Basics

  const BATCH := 50
  const GRACE := 5000                   // milliseconds

  type Id = nat

  datatype Row = Row(updatedAt: int, deleted: bool, isPublic: bool, embedded: bool, generatedAt: Option<int>)

  type Table = map<Id, Row>

  predicate IsPending(r: Row) {
    && !r.deleted && r.isPublic
    && (!r.embedded || r.generatedAt.None? || r.generatedAt.value < r.updatedAt - GRACE)
  }

  function Pending(t: Table): set<Id> { set id | id in t && IsPending(t[id]) }

  // ORDER BY "updatedAt" LIMIT 50, ties in any order.
  predicate IsBatch(t: Table, batch: set<Id>) {
    && batch <= Pending(t)
    && |batch| == (if |Pending(t)| <= BATCH then |Pending(t)| else BATCH)
    && forall a, b | a in batch && b in Pending(t) - batch :: t[a].updatedAt <= t[b].updatedAt
  }

  // One embedding written, unless the row is gone or the embedder fails.
  function Deliver(t: Table, id: Id, failing: set<Id>, now: int): Table {
    if id !in t || t[id].deleted || id in failing then t
    else t[id := t[id].(embedded := true, generatedAt := Some(now))]
  }

  function DeliverAll(t: Table, batch: set<Id>, failing: set<Id>, now: int): Table {
    map id | id in t :: if id in batch && !t[id].deleted && id !in failing
                        then t[id].(embedded := true, generatedAt := Some(now)) else t[id]
  }

  lemma DeliverNext(t: Table, ids: set<Id>, id: Id, failing: set<Id>, now: int)
    ensures Deliver(DeliverAll(t, ids, failing, now), id, failing, now) == DeliverAll(t, ids + {id}, failing, now)
  {
  }

  // Rows were last updated in the past.
  predicate Sane(t: Table, now: int) { forall id | id in t :: t[id].updatedAt <= now }

  // What is waiting: a public component that is there and has no embedding, or one generated
  // more than five seconds before the component was last changed.
  lemma PendingMeans(t: Table, id: Id)
    ensures id in Pending(t) <==>
      && id in t && !t[id].deleted && t[id].isPublic
      && !(t[id].embedded && t[id].generatedAt.Some? && t[id].updatedAt <= t[id].generatedAt.value + 5000)
  {
  }

  // A run takes fifty of them, or all if there are no more, and none before an older one.
  lemma BatchMeans(t: Table, batch: set<Id>)
    ensures IsBatch(t, batch) <==>
      && (forall id | id in batch :: id in Pending(t))
      && |batch| == (if |Pending(t)| < 50 then |Pending(t)| else 50)
      && forall a, b | a in batch && b in Pending(t) && t[b].updatedAt < t[a].updatedAt :: b in batch
  {
  }

  // A delivery embeds one stored row, dated now, and waits no more unless that row is changed
  // more than five seconds later; a failure, and every other row, is left as it was.
  lemma DeliveryEmbeds(t: Table, id: Id, failing: set<Id>, now: int, changedAt: int)
    ensures var t' := Deliver(t, id, failing, now);
      if id in t && !t[id].deleted && id !in failing then
        && t' == t[id := Row(t[id].updatedAt, false, t[id].isPublic, true, Some(now))]
        && (id in Pending(t'[id := t'[id].(updatedAt := changedAt)]) <==> t[id].isPublic && changedAt > now + 5000)
      else t' == t
  {
  }

  // ── One run ────────────────────────────────────────────────────────────────

  lemma RunClears(t: Table, batch: set<Id>, failing: set<Id>, now: int)
    requires Sane(t, now) && batch <= Pending(t)
    ensures var t' := DeliverAll(t, batch, failing, now);
      Sane(t', now) && Pending(t') == Pending(t) - (batch - failing)
  {
  }

  lemma SubsetSize(a: set<Id>, b: set<Id>)
    requires a <= b
    ensures |a| <= |b|
  {
    assert b == a + (b - a);
  }

  // Pending components the embedder can serve.
  function Healthy(t: Table, failing: set<Id>): nat { |Pending(t) - failing| }

  function Less(n: nat, amount: nat): nat { if n <= amount then 0 else n - amount }

  // Of a full batch at most the failing ones are left.
  lemma RunDrains(t: Table, batch: set<Id>, failing: set<Id>, now: int, f: nat)
    requires Sane(t, now) && IsBatch(t, batch) && |Pending(t) * failing| <= f < BATCH
    ensures var t' := DeliverAll(t, batch, failing, now);
      && Pending(t') * failing == Pending(t) * failing
      && Healthy(t', failing) <= Less(Healthy(t, failing), BATCH - f)
  {
    var t' := DeliverAll(t, batch, failing, now);
    RunClears(t, batch, failing, now);
    assert Pending(t') - failing == (Pending(t) - failing) - (batch - failing);
    assert batch - failing <= Pending(t) - failing;
    assert |Pending(t') - failing| == |Pending(t) - failing| - |batch - failing|;
    assert batch == (batch - failing) + (batch * failing);
    SubsetSize(batch * failing, Pending(t) * failing);
    if |Pending(t)| <= BATCH {
      BatchIsAll(t, batch);
      assert batch - failing == Pending(t) - failing;
    }
  }

  lemma BatchIsAll(t: Table, batch: set<Id>)
    requires IsBatch(t, batch) && |Pending(t)| <= BATCH
    ensures batch == Pending(t)
  {
    assert Pending(t) == batch + (Pending(t) - batch);
    assert |Pending(t) - batch| == 0;
  }

  // The other pending components at least as old.
  function Ahead(t: Table, id: Id): set<Id>
    requires id in t
  {
    set other | other in Pending(t) && other != id && t[other].updatedAt <= t[id].updatedAt
  }

  // A pending component with fewer than fifty others at least as old is in every batch.
  lemma OldEnoughIsTaken(t: Table, batch: set<Id>, id: Id)
    requires IsBatch(t, batch) && id in Pending(t) && |Ahead(t, id)| < BATCH
    ensures id in batch
  {
    if |Pending(t)| <= BATCH {
      BatchIsAll(t, batch);
    } else if id !in batch {
      assert id in Pending(t) - batch;
      SubsetSize(batch, Ahead(t, id));
    }
  }

  // ── Many runs ──────────────────────────────────────────────────────────────

  datatype Tick = Tick(now: int, batch: set<Id>)

  predicate Ran(t: Table, tick: Tick, failing: set<Id>, t': Table) {
    Sane(t, tick.now) && IsBatch(t, tick.batch) && t' == DeliverAll(t, tick.batch, failing, tick.now)
  }

  // The tables between runs: every run takes a legal batch of the table it finds.
  predicate Trace(tables: seq<Table>, ticks: seq<Tick>, failing: set<Id>) {
    |tables| == |ticks| + 1 && forall i | 0 <= i < |ticks| :: Ran(tables[i], ticks[i], failing, tables[i + 1])
  }

  // What `n` runs take off the list at `per` a run.
  function Worth(n: nat, per: nat): nat { if n == 0 then 0 else Worth(n - 1, per) + per }

  lemma {:induction false} WorthIs(n: nat, per: nat)
    ensures Worth(n, per) == n * per
  {
    if n > 0 {
      WorthIs(n - 1, per);
      assert n * per == (n - 1) * per + per;
    }
  }

  lemma TickDrains(t: Table, tick: Tick, failing: set<Id>, t': Table, f: nat)
    requires Ran(t, tick, failing, t') && |Pending(t) * failing| <= f < BATCH
    ensures Pending(t') * failing == Pending(t) * failing
    ensures Healthy(t', failing) <= Less(Healthy(t, failing), BATCH - f)
  {
    RunDrains(t, tick.batch, failing, tick.now, f);
  }

  // With at most f failing components pending, each run takes 50 - f others off the list.
  lemma {:induction false} RunsDrain(tables: seq<Table>, ticks: seq<Tick>, failing: set<Id>, f: nat, n: nat)
    requires Trace(tables, ticks, failing) && n <= |ticks| && |Pending(tables[0]) * failing| <= f < BATCH
    ensures Pending(tables[n]) * failing == Pending(tables[0]) * failing
    ensures Healthy(tables[n], failing) <= Less(Healthy(tables[0], failing), Worth(n, BATCH - f))
  {
    if n > 0 {
      RunsDrain(tables, ticks, failing, f, n - 1);
      assert Ran(tables[n - 1], ticks[n - 1], failing, tables[n]);
      TickDrains(tables[n - 1], ticks[n - 1], failing, tables[n], f);
    }
  }

  function CeilDiv(a: nat, b: nat): nat
    requires b > 0
  {
    (a + b - 1) / b
  }

  lemma CeilDivCovers(a: nat, b: nat)
    requires b > 0
    ensures a <= Worth(CeilDiv(a, b), b)
  {
    var q, r := (a + b - 1) / b, (a + b - 1) % b;
    assert a + b - 1 == q * b + r;
    WorthIs(q, b);
  }

  lemma NoneLeft(ids: set<Id>, failing: set<Id>)
    requires |ids - failing| == 0
    ensures ids == ids * failing
  {
    assert ids == (ids - failing) + (ids * failing);
  }

  // Over all runs: with Q healthy and at most f < 50 failing components pending, everything
  // healthy is embedded after ceil(Q / (50 - f)) runs, whichever way ties are broken.
  lemma BackfillDrains(tables: seq<Table>, ticks: seq<Tick>, failing: set<Id>, f: nat)
    requires Trace(tables, ticks, failing) && |Pending(tables[0]) * failing| <= f < BATCH
    requires |ticks| == CeilDiv(Healthy(tables[0], failing), BATCH - f)
    ensures Pending(tables[|ticks|]) == Pending(tables[0]) * failing
  {
    CeilDivCovers(Healthy(tables[0], failing), BATCH - f);
    RunsDrain(tables, ticks, failing, f, |ticks|);
    NoneLeft(Pending(tables[|ticks|]), failing);
  }

  // Fifty failing components older than everything healthy: every later run takes nothing
  // but failing ones, and no healthy component is ever embedded.
  lemma {:induction false} StuckBehindFailures(tables: seq<Table>, ticks: seq<Tick>, failing: set<Id>, n: nat)
    requires Trace(tables, ticks, failing) && n <= |ticks| && |Pending(tables[0]) * failing| >= BATCH
    requires forall a, b | a in Pending(tables[0]) * failing && b in Pending(tables[0]) - failing ::
               tables[0][a].updatedAt < tables[0][b].updatedAt
    ensures tables[n] == tables[0]
  {
    if n > 0 {
      StuckBehindFailures(tables, ticks, failing, n - 1);
      assert Ran(tables[n - 1], ticks[n - 1], failing, tables[n]);
      BatchOfFailures(tables[0], ticks[n - 1].batch, failing);
    }
  }

  lemma BatchOfFailures(t: Table, batch: set<Id>, failing: set<Id>)
    requires |Pending(t) * failing| >= BATCH && IsBatch(t, batch)
    requires forall a, b | a in Pending(t) * failing && b in Pending(t) - failing :: t[a].updatedAt < t[b].updatedAt
    ensures batch <= failing
  {
    SubsetSize(Pending(t) * failing, Pending(t));
    if |Pending(t)| <= BATCH { BatchIsAll(t, batch); }
    assert |batch| == BATCH;
    forall healthy | healthy in batch ensures healthy in failing {
      if healthy !in failing {
        FailuresFirst(t, batch, failing, healthy);
        assert |Pending(t) * failing + {healthy}| == |Pending(t) * failing| + 1;
        SubsetSize(Pending(t) * failing + {healthy}, batch);
      }
    }
  }

  lemma FailuresFirst(t: Table, batch: set<Id>, failing: set<Id>, healthy: Id)
    requires IsBatch(t, batch) && healthy in batch && healthy !in failing
    requires forall a, b | a in Pending(t) * failing && b in Pending(t) - failing :: t[a].updatedAt < t[b].updatedAt
    ensures Pending(t) * failing <= batch
  {
    forall a | a in Pending(t) * failing ensures a in batch {
      assert healthy in Pending(t) - failing;
      assert a !in batch ==> a in Pending(t) - batch;
    }
  }
}
