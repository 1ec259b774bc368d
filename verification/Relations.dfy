/** A join table together with the counter column it feeds on the row at one end. */
module Relations {

  type Id = nat

  // `value` is the stored column. `lost` is a history variable: rows that went away
  // without the column being decremented. No operation reads it.
  datatype Counter = Counter(value: int, lost: int)

  // An edge (k, x) counts for key k.
  datatype Relation = Relation(edges: set<(Id, Id)>, counters: map<Id, Counter>)

  const NO_ROWS := Relation({}, map[])

  function Of(edges: set<(Id, Id)>, k: Id): set<(Id, Id)> { set e | e in edges && e.0 == k }

  // UPDATE ... SET count = count + d: no effect on a missing row.
  function Bump(r: Relation, k: Id, d: int): Relation {
    if k in r.counters
    then r.(counters := r.counters[k := r.counters[k].(value := r.counters[k].value + d)]) else r
  }

  function Insert(r: Relation, e: (Id, Id)): Relation { Bump(r.(edges := r.edges + {e}), e.0, 1) }

  // Remove and decrement without looking whether the row was still there.
  function Take(r: Relation, e: (Id, Id)): Relation { Bump(r.(edges := r.edges - {e}), e.0, -1) }

  // DELETE, then decrement if a row was affected.
  function Delete(r: Relation, e: (Id, Id)): Relation { if e in r.edges then Take(r, e) else r }

  // Bulk deletion that leaves the column alone.
  function Prune(r: Relation, gone: set<(Id, Id)>): Relation {
    Relation(r.edges - gone,
             map k | k in r.counters ::
               r.counters[k].(lost := r.counters[k].lost + |Of(r.edges, k)| - |Of(r.edges - gone, k)|))
  }

  function AddKey(r: Relation, k: Id): Relation { r.(counters := r.counters[k := Counter(0, 0)]) }

  function Links(ks: set<Id>, x: Id): set<(Id, Id)> { set k | k in ks :: (k, x) }

  // Link `x` to every key in `ks`, creating missing keys. The insert is one statement: a
  // single row that already exists leaves all of them out, and the columns still move.
  function Attach(r: Relation, ks: set<Id>, x: Id): Relation {
    var links := Links(ks, x);
    Relation(if links !! r.edges then r.edges + links else r.edges,
             map k | k in r.counters.Keys + ks ::
               var c := if k in r.counters then r.counters[k] else Counter(0, 0);
               if k in ks then c.(value := c.value + 1) else c)
  }

  // The rows at the counted end go, and their edges with them.
  function DropKeys(r: Relation, ks: set<Id>): Relation {
    Relation((set e | e in r.edges && e.0 !in ks), r.counters - ks)
  }

  // Counter = rows + rows lost, for every counted row; every edge has a counted row.
  predicate Conserved(r: Relation) {
    && (forall e | e in r.edges :: e.0 in r.counters)
    && (forall k | k in r.counters ::
          r.counters[k].lost >= 0 && r.counters[k].value == |Of(r.edges, k)| + r.counters[k].lost)
  }

  predicate Exact(r: Relation) { forall k | k in r.counters :: r.counters[k].lost == 0 }

  lemma OneMore(edges: set<(Id, Id)>, e: (Id, Id), k: Id)
    requires e !in edges
    ensures |Of(edges + {e}, k)| == |Of(edges, k)| + if k == e.0 then 1 else 0
  {
    assert Of(edges + {e}, k) == if k == e.0 then Of(edges, k) + {e} else Of(edges, k);
  }

  lemma InsertConserves(r: Relation, e: (Id, Id))
    requires Conserved(r) && e !in r.edges && e.0 in r.counters
    ensures Conserved(Insert(r, e)) && (Exact(r) ==> Exact(Insert(r, e)))
  {
    forall k | k in r.counters ensures |Of(r.edges + {e}, k)| == |Of(r.edges, k)| + if k == e.0 then 1 else 0 {
      OneMore(r.edges, e, k);
    }
  }

  lemma DeleteConserves(r: Relation, e: (Id, Id))
    requires Conserved(r)
    ensures Conserved(Delete(r, e)) && (Exact(r) ==> Exact(Delete(r, e)))
  {
    if e in r.edges {
      forall k | k in r.counters ensures |Of(r.edges - {e}, k)| == |Of(r.edges, k)| - if k == e.0 then 1 else 0 {
        assert Of(r.edges - {e}, k) == if k == e.0 then Of(r.edges, k) - {e} else Of(r.edges, k);
      }
    }
  }

  lemma SubsetSmaller<T>(a: set<T>, b: set<T>)
    requires a <= b
    ensures |a| <= |b|
  {
    assert b == a + (b - a);
  }

  lemma PruneConserves(r: Relation, gone: set<(Id, Id)>)
    requires Conserved(r)
    ensures Conserved(Prune(r, gone))
  {
    forall k | k in r.counters ensures |Of(r.edges - gone, k)| <= |Of(r.edges, k)| {
      SubsetSmaller(Of(r.edges - gone, k), Of(r.edges, k));
    }
  }

  lemma LinksCount(edges: set<(Id, Id)>, ks: set<Id>, x: Id, k: Id)
    requires forall j | j in ks :: (j, x) !in edges
    ensures |Of(edges + Links(ks, x), k)| == |Of(edges, k)| + if k in ks then 1 else 0
  {
    assert Of(edges + Links(ks, x), k) == if k in ks then Of(edges, k) + {(k, x)} else Of(edges, k);
  }

  lemma AttachConserves(r: Relation, ks: set<Id>, x: Id)
    requires Conserved(r) && forall k | k in ks :: (k, x) !in r.edges
    ensures Conserved(Attach(r, ks, x)) && (Exact(r) ==> Exact(Attach(r, ks, x)))
  {
    var r' := Attach(r, ks, x);
    assert r'.edges == r.edges + Links(ks, x);
    forall k | k in r'.counters
      ensures |Of(r'.edges, k)| == |Of(r.edges, k)| + if k in ks then 1 else 0
      ensures k !in r.counters ==> Of(r.edges, k) == {}
    {
      LinksCount(r.edges, ks, x, k);
    }
  }

  // Two removals that both saw the row take two from the column for one row gone.
  lemma DoubleTakeUndercounts(r: Relation, e: (Id, Id))
    requires Conserved(r) && e in r.edges
    ensures var r' := Take(Take(r, e), e);
            r'.counters[e.0].value == |Of(r'.edges, e.0)| + r'.counters[e.0].lost - 1
  {
    DeleteConserves(r, e);
    assert r.edges - {e} - {e} == r.edges - {e};
  }

  lemma AddKeyConserves(r: Relation, k: Id)
    requires Conserved(r) && k !in r.counters
    ensures Conserved(AddKey(r, k)) && (Exact(r) ==> Exact(AddKey(r, k)))
  {
    assert Of(r.edges, k) == {};
  }

  lemma DropKeysConserves(r: Relation, ks: set<Id>)
    requires Conserved(r)
    ensures Conserved(DropKeys(r, ks)) && (Exact(r) ==> Exact(DropKeys(r, ks)))
  {
    forall k | k in r.counters && k !in ks ensures Of(DropKeys(r, ks).edges, k) == Of(r.edges, k) {
    }
  }
}
