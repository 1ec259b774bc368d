/** When a given component gets its turn in the backfill: exactly when fewer than fifty failing
  * components are at least as old as it, and then after how many runs. */
module BackfillTurns {
  import opened Backfill

  // Failing components that may be taken before this one, in every run.
  function Blockers(t: Table, failing: set<Id>, id: Id): set<Id>
    requires id in t
  {
    Ahead(t, id) * failing
  }

  // Healthy ones that may be taken before it, each of them once.
  function Rivals(t: Table, failing: set<Id>, id: Id): set<Id>
    requires id in t
  {
    Ahead(t, id) - failing
  }

  // ── Its turn comes ─────────────────────────────────────────────────────────

  // A batch without it is full, and holds only components at least as old.
  lemma PassedOver(t: Table, batch: set<Id>, id: Id)
    requires IsBatch(t, batch) && id in Pending(t) && id !in batch
    ensures |batch| == BATCH && batch <= Ahead(t, id)
  {
    if |Pending(t)| <= BATCH { BatchIsAll(t, batch); }
    assert id in Pending(t) - batch;
  }

  // One run either takes it or takes away at least 50 - |blockers| of its rivals.
  lemma RunServesOrClears(t: Table, tick: Tick, failing: set<Id>, t': Table, id: Id)
    requires Ran(t, tick, failing, t') && id in Pending(t) && id !in failing
    ensures id in t' && Blockers(t', failing, id) == Blockers(t, failing, id)
    ensures id in Pending(t') ==>
              |Rivals(t', failing, id)| + BATCH <= |Rivals(t, failing, id)| + |Blockers(t, failing, id)|
  {
    var taken := tick.batch - failing;
    assert Blockers(t', failing, id) == Blockers(t, failing, id);
    RunClears(t, tick.batch, failing, tick.now);
    if id in Pending(t') {
      PassedOver(t, tick.batch, id);
      assert Rivals(t', failing, id) == Rivals(t, failing, id) - taken;
      assert taken <= Rivals(t, failing, id);
      assert |Rivals(t', failing, id)| == |Rivals(t, failing, id)| - |taken|;
      assert tick.batch == taken + tick.batch * failing;
      SubsetSize(tick.batch * failing, Blockers(t, failing, id));
    }
  }

  lemma {:induction false} RivalsRunOut(tables: seq<Table>, ticks: seq<Tick>, failing: set<Id>, id: Id, n: nat)
    requires Trace(tables, ticks, failing) && n <= |ticks|
    requires id in tables[0] && id !in failing && |Blockers(tables[0], failing, id)| < BATCH
    ensures id in tables[n]
    ensures id in Pending(tables[n]) ==> Blockers(tables[n], failing, id) == Blockers(tables[0], failing, id)
    ensures id in Pending(tables[n]) ==>
              |Rivals(tables[n], failing, id)| + Worth(n, BATCH - |Blockers(tables[0], failing, id)|)
              <= |Rivals(tables[0], failing, id)|
  {
    if n > 0 {
      RivalsRunOut(tables, ticks, failing, id, n - 1);
      assert Ran(tables[n - 1], ticks[n - 1], failing, tables[n]);
      if id in Pending(tables[n - 1]) {
        RunServesOrClears(tables[n - 1], ticks[n - 1], failing, tables[n], id);
      } else {
        RunClears(tables[n - 1], ticks[n - 1].batch, failing, ticks[n - 1].now);
      }
    }
  }

  function Patience(t: Table, failing: set<Id>, id: Id): nat
    requires id in t && |Blockers(t, failing, id)| < BATCH
  {
    |Rivals(t, failing, id)| / (BATCH - |Blockers(t, failing, id)|) + 1
  }

  // However ties are broken, `n` runs from `t` embed it.
  ghost predicate Served(t: Table, failing: set<Id>, id: Id, n: nat) {
    forall tables: seq<Table>, ticks: seq<Tick> |
      Trace(tables, ticks, failing) && |ticks| == n && tables[0] == t :: id !in Pending(tables[n])
  }

  lemma QuotientWorth(rivals: nat, per: nat)
    requires per > 0
    ensures Worth(rivals / per + 1, per) > rivals
  {
    WorthIs(rivals / per + 1, per);
    assert rivals == (rivals / per) * per + rivals % per;
    assert (rivals / per + 1) * per == (rivals / per) * per + per;
  }

  lemma ServedInTime(t: Table, failing: set<Id>, id: Id)
    requires id in t && id !in failing && |Blockers(t, failing, id)| < BATCH
    ensures Served(t, failing, id, Patience(t, failing, id))
  {
    var n := Patience(t, failing, id);
    forall tables: seq<Table>, ticks: seq<Tick> | Trace(tables, ticks, failing) && |ticks| == n && tables[0] == t
      ensures id !in Pending(tables[n])
    {
      RivalsRunOut(tables, ticks, failing, id, n);
      QuotientWorth(|Rivals(t, failing, id)|, BATCH - |Blockers(t, failing, id)|);
    }
  }

  // ── It can be passed over for ever ─────────────────────────────────────────

  lemma {:induction false} OldestIn(t: Table, ids: set<Id>) returns (m: Id)
    requires ids != {} && forall x | x in ids :: x in t
    ensures m in ids && forall x | x in ids :: t[m].updatedAt <= t[x].updatedAt
    decreases ids
  {
    var first :| first in ids;
    var rest := ids - {first};
    m := first;
    if rest != {} {
      var other := OldestIn(t, rest);
      if t[other].updatedAt < t[first].updatedAt { m := other; }
    }
    assert forall x | x in ids :: x == first || x in rest;
  }

  predicate OldestSome(t: Table, ids: set<Id>, some: set<Id>)
    requires forall x | x in ids :: x in t
  {
    some <= ids && forall a, b | a in some && b in ids - some :: t[a].updatedAt <= t[b].updatedAt
  }

  lemma {:induction false} OldestExist(t: Table, ids: set<Id>, k: nat) returns (some: set<Id>)
    requires k <= |ids| && forall x | x in ids :: x in t
    ensures |some| == k && OldestSome(t, ids, some)
    decreases k
  {
    some := {};
    if k > 0 {
      var m := OldestIn(t, ids);
      var rest := OldestExist(t, ids - {m}, k - 1);
      some := rest + {m};
      forall a, b | a in some && b in ids - some ensures t[a].updatedAt <= t[b].updatedAt {
        assert b in ids - {m} - rest;
      }
    }
  }

  lemma BatchExists(t: Table) returns (batch: set<Id>)
    ensures IsBatch(t, batch)
  {
    batch := OldestExist(t, Pending(t), if |Pending(t)| <= BATCH then |Pending(t)| else BATCH);
  }

  // With fifty blockers there is a legal batch that leaves it out: trade it for a blocker of
  // the same age.
  lemma BatchAround(t: Table, failing: set<Id>, id: Id) returns (batch: set<Id>)
    requires id in Pending(t) && id !in failing && |Blockers(t, failing, id)| >= BATCH
    ensures IsBatch(t, batch) && id !in batch
  {
    batch := BatchExists(t);
    SubsetSize(Blockers(t, failing, id) + {id}, Pending(t));
    assert |Blockers(t, failing, id) + {id}| == |Blockers(t, failing, id)| + 1;
    if id in batch {
      if Blockers(t, failing, id) <= batch {
        SubsetSize(Blockers(t, failing, id) + {id}, batch);
      }
      var x :| x in Blockers(t, failing, id) && x !in batch;
      batch := Traded(t, batch, id, x);
    }
  }

  lemma Traded(t: Table, batch: set<Id>, id: Id, x: Id) returns (batch': set<Id>)
    requires IsBatch(t, batch) && id in batch && x in Pending(t) - batch && t[x].updatedAt <= t[id].updatedAt
    ensures IsBatch(t, batch') && id !in batch'
  {
    batch' := batch - {id} + {x};
    assert t[id].updatedAt == t[x].updatedAt;
    forall a, b | a in batch' && b in Pending(t) - batch' ensures t[a].updatedAt <= t[b].updatedAt {
      assert b == id || b in Pending(t) - batch;
    }
  }

  predicate Waiting(t: Table, failing: set<Id>, id: Id) {
    id in Pending(t) && id !in failing && |Blockers(t, failing, id)| >= BATCH
  }

  lemma {:induction false} PassedOverForEver(t: Table, failing: set<Id>, id: Id, now: int, n: nat)
    returns (tables: seq<Table>, ticks: seq<Tick>)
    requires Sane(t, now) && Waiting(t, failing, id)
    ensures Trace(tables, ticks, failing) && |ticks| == n && tables[0] == t
    ensures Sane(tables[n], now) && Waiting(tables[n], failing, id)
  {
    if n == 0 {
      tables, ticks := [t], [];
    } else {
      var tables0, ticks0 := PassedOverForEver(t, failing, id, now, n - 1);
      var last := tables0[n - 1];
      var batch := BatchAround(last, failing, id);
      var tick := Tick(now, batch);
      var next := DeliverAll(last, batch, failing, now);
      assert Ran(last, tick, failing, next);
      RunClears(last, batch, failing, now);
      RunServesOrClears(last, tick, failing, next, id);
      tables, ticks := tables0 + [next], ticks0 + [tick];
    }
  }

  // A healthy pending component is embedded within some number of runs, however ties are broken,
  // if and only if fewer than fifty failing pending components are at least as old as it. Then
  // r / (50 - b) + 1 runs do, for b blockers and r rivals.
  lemma ServedExactly(t: Table, failing: set<Id>, id: Id, now: int)
    requires Sane(t, now) && id in Pending(t) && id !in failing
    ensures |Blockers(t, failing, id)| < BATCH <==> exists n: nat :: Served(t, failing, id, n)
    ensures |Blockers(t, failing, id)| < BATCH ==> Served(t, failing, id, Patience(t, failing, id))
  {
    if |Blockers(t, failing, id)| < BATCH {
      ServedInTime(t, failing, id);
    } else {
      forall n: nat ensures !Served(t, failing, id, n) {
        var tables, ticks := PassedOverForEver(t, failing, id, now, n);
        assert Trace(tables, ticks, failing) && |ticks| == n && tables[0] == t && id in Pending(tables[n]);
      }
    }
  }
}
