/** The backfill run and the inline embedding path over the components table. */
module BackfillServices {
  import opened Basics
  import opened Backfill

  function Ids(rows: seq<Id>): set<Id> { set id | id in rows }

  predicate OldestFirst(t: Table, rows: seq<Id>) {
    forall i, j | 0 <= i < j < |rows| ::
      rows[i] in t && rows[j] in t && rows[i] != rows[j] && t[rows[i]].updatedAt <= t[rows[j]].updatedAt
  }

  // `rows` are the oldest pending ids so far and `rest` the others.
  predicate Partial(t: Table, rows: seq<Id>, rest: set<Id>) {
    && Ids(rows) + rest == Pending(t) && Ids(rows) !! rest && |Ids(rows)| == |rows|
    && (forall a, b | a in Ids(rows) && b in rest :: t[a].updatedAt <= t[b].updatedAt)
    && OldestFirst(t, rows)
  }

  lemma IdsAppend(rows: seq<Id>, id: Id)
    ensures Ids(rows + [id]) == Ids(rows) + {id}
  {
  }

  lemma OldestFirstGrows(t: Table, rows: seq<Id>, id: Id)
    requires OldestFirst(t, rows) && id in t && id !in Ids(rows)
    requires forall a | a in Ids(rows) :: a in t && t[a].updatedAt <= t[id].updatedAt
    ensures OldestFirst(t, rows + [id])
  {
    assert forall i | 0 <= i < |rows| :: rows[i] in Ids(rows);
  }

  lemma PartialGrows(t: Table, rows: seq<Id>, rest: set<Id>, id: Id)
    requires Partial(t, rows, rest) && id in rest && forall x | x in rest :: t[id].updatedAt <= t[x].updatedAt
    ensures Partial(t, rows + [id], rest - {id})
  {
    IdsAppend(rows, id);
    OldestFirstGrows(t, rows, id);
  }

  lemma PartialIsBatch(t: Table, rows: seq<Id>, rest: set<Id>)
    requires Partial(t, rows, rest) && |rows| <= BATCH && (rest == {} || |rows| == BATCH)
    ensures IsBatch(t, Ids(rows))
  {
    assert |Pending(t)| == |rows| + |rest|;
  }

  class EmbeddingsService {
    var table: Table
    var queue: seq<Id>
    const enabled: bool
    const workersEnabled: bool

    constructor (enabled: bool, workersEnabled: bool)
      ensures this.enabled == enabled && this.workersEnabled == workersEnabled
      ensures table == map[] && queue == []
    {
      this.enabled, this.workersEnabled := enabled, workersEnabled;
      table, queue := map[], [];
    }

    // A failed inline delivery is logged and forgotten.
    method Enqueue(id: Id, failing: set<Id>, now: int)
      modifies this
      ensures !enabled ==> table == old(table) && queue == old(queue)
      ensures enabled && workersEnabled ==> table == old(table) && queue == old(queue) + [id]
      ensures enabled && !workersEnabled ==>
                table == Backfill.Deliver(old(table), id, failing, now) && queue == old(queue)
    {
      if !enabled { return; }
      if !workersEnabled {
        var _ := Deliver(id, failing, now);
        return;
      }
      queue := queue + [id];
    }

    method Deliver(id: Id, failing: set<Id>, now: int) returns (ok: bool)
      modifies this`table
      ensures table == if enabled then Backfill.Deliver(old(table), id, failing, now) else old(table)
      ensures !ok <==> enabled && id in failing && id in old(table) && !old(table)[id].deleted
    {
      if !enabled { return true; }
      if id !in table || table[id].deleted { return true; }
      if id in failing { return false; }
      table := table[id := table[id].(embedded := true, generatedAt := Some(now))];
      return true;
    }

    // The backfill query: oldest first.
    method OldestPending() returns (rows: seq<Id>)
      ensures IsBatch(table, Ids(rows))
      ensures OldestFirst(table, rows)
    {
      rows := [];
      var rest := Pending(table);
      while rest != {} && |rows| < BATCH
        invariant Partial(table, rows, rest) && |rows| <= BATCH
        decreases rest
      {
        var id := Oldest(rest);
        PartialGrows(table, rows, rest, id);
        rows := rows + [id];
        rest := rest - {id};
      }
      PartialIsBatch(table, rows, rest);
    }

    method Oldest(ids: set<Id>) returns (id: Id)
      requires ids != {} && forall x | x in ids :: x in table
      ensures id in ids && forall x | x in ids :: table[id].updatedAt <= table[x].updatedAt
    {
      id :| id in ids;
      var rest := ids - {id};
      while rest != {}
        invariant rest <= ids && id in ids
        invariant forall x | x in ids - rest :: table[id].updatedAt <= table[x].updatedAt
        decreases rest
      {
        var x :| x in rest;
        if table[x].updatedAt < table[id].updatedAt { id := x; }
        rest := rest - {x};
      }
    }
  }

  function TableAfter(inPlace: bool, t: Table, rows: seq<Id>, failing: set<Id>, now: int): Table {
    if inPlace then DeliverAll(t, Ids(rows), failing, now) else t
  }

  function QueueAfter(queued: bool, q: seq<Id>, rows: seq<Id>): seq<Id> { if queued then q + rows else q }

  lemma AfterNext(t: Table, q: seq<Id>, rows: seq<Id>, i: nat, failing: set<Id>, now: int)
    requires i < |rows|
    ensures TableAfter(true, t, rows[..i + 1], failing, now) ==
            Backfill.Deliver(TableAfter(true, t, rows[..i], failing, now), rows[i], failing, now)
    ensures QueueAfter(true, q, rows[..i + 1]) == QueueAfter(true, q, rows[..i]) + [rows[i]]
  {
    assert rows[..i + 1] == rows[..i] + [rows[i]];
    IdsAppend(rows[..i], rows[i]);
    DeliverNext(t, Ids(rows[..i]), rows[i], failing, now);
  }

  class EmbeddingsBackfillService {
    const embeddings: EmbeddingsService

    constructor (embeddings: EmbeddingsService) ensures this.embeddings == embeddings { this.embeddings := embeddings; }

    // One legal batch, oldest first: delivered in place with workers off, queued with
    // workers on.
    method Run(failing: set<Id>, now: int) returns (enqueued: nat, ghost taken: seq<Id>)
      modifies embeddings
      ensures IsBatch(old(embeddings.table), Ids(taken)) && enqueued == |taken|
      ensures embeddings.enabled && !embeddings.workersEnabled ==>
                embeddings.table == DeliverAll(old(embeddings.table), Ids(taken), failing, now)
      ensures embeddings.enabled && embeddings.workersEnabled ==>
                embeddings.table == old(embeddings.table) && embeddings.queue == old(embeddings.queue) + taken
      ensures !embeddings.enabled ==>
                embeddings.table == old(embeddings.table) && embeddings.queue == old(embeddings.queue)
    {
      var rows := embeddings.OldestPending();
      ghost var t, q := embeddings.table, embeddings.queue;
      for i := 0 to |rows|
        invariant embeddings.table ==
                  TableAfter(embeddings.enabled && !embeddings.workersEnabled, t, rows[..i], failing, now)
        invariant embeddings.queue == QueueAfter(embeddings.enabled && embeddings.workersEnabled, q, rows[..i])
      {
        AfterNext(t, q, rows, i, failing, now);
        embeddings.Enqueue(rows[i], failing, now);
      }
      assert rows[..|rows|] == rows;
      return |rows|, rows;
    }
  }
}
