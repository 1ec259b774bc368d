/** The ancestor query of a component's lineage: a recursive query that ends, and returns
  * exactly the proper ancestors, because fork links always form a forest. */
module Lineage {
  import opened Basics
  import opened Relations
  import opened Ledger
  import opened LedgerRuns

  function ParentOf(components: map<Id, Component>, c: Id): Option<Id> {
    if c in components then components[c].forkedFrom else None
  }

  // The component `n` fork links above `c`. Defined for any table, forest or not.
  function NthParent(components: map<Id, Component>, c: Id, n: nat): Option<Id> {
    if n == 0 then Some(c)
    else match NthParent(components, c, n - 1)
      case None => None
      case Some(d) => ParentOf(components, d)
  }

  ghost predicate ProperAncestor(components: map<Id, Component>, x: Id, c: Id) {
    exists n: nat :: n > 0 && NthParent(components, c, n) == Some(x)
  }

  function Ancestors(components: map<Id, Component>, c: Id): seq<Id>
    requires Forest(components)
    decreases c
  {
    match ParentOf(components, c)
    case None => []
    case Some(p) => [p] + Ancestors(components, p)
  }

  // ── The query ──────────────────────────────────────────────────────────────

  // The recursive term: rows joined to the fork links of the working table. Soft-deleted
  // rows take part: raw SQL does not hide them.
  function Join(components: map<Id, Component>, work: seq<Id>): seq<Id> {
    if work == [] then []
    else
      var p := ParentOf(components, work[0]);
      (if p.Some? && p.value in components then [p.value] else []) + Join(components, work[1..])
  }

  lemma JoinOne(components: map<Id, Component>, work: seq<Id>)
    requires Forest(components) && |work| == 1 && work[0] in components
    ensures var p := ParentOf(components, work[0]);
            Join(components, work) == if p.Some? then [p.value] else []
  {
    assert work[1..] == [];
  }

  // What the query has yet to find.
  ghost function Pending(components: map<Id, Component>, work: seq<Id>): seq<Id>
    requires Forest(components)
  {
    if work == [] then [] else Ancestors(components, work[0])
  }

  lemma JoinAdvances(components: map<Id, Component>, chain: seq<Id>, work: seq<Id>)
    requires Forest(components) && |work| == 1 && work[0] in components
    ensures var work' := Join(components, work);
            chain + Pending(components, work) == (chain + work') + Pending(components, work')
  {
    JoinOne(components, work);
    var work' := Join(components, work);
    assert Pending(components, work) == work' + Pending(components, work');
  }

  function Except(rows: seq<Id>, x: Id): seq<Id> {
    if rows == [] then [] else (if rows[0] == x then [] else [rows[0]]) + Except(rows[1..], x)
  }

  lemma {:induction false} ExceptAbsent(rows: seq<Id>, x: Id)
    requires x !in rows
    ensures Except(rows, x) == rows
  {
    if rows != [] { ExceptAbsent(rows[1..], x); }
  }

  // The chain of a component: itself, if it is a fork, and then its ancestors.
  ghost function Whole(components: map<Id, Component>, start: Id): seq<Id>
    requires Forest(components)
  {
    if ParentOf(components, start).Some? then [start] + Ancestors(components, start) else []
  }

  lemma SeedDropped(components: map<Id, Component>, start: Id)
    requires Forest(components)
    ensures Except(Whole(components, start), start) == Ancestors(components, start)
  {
    AncestorsDescend(components, start);
    if ParentOf(components, start).Some? {
      ExceptAbsent(Ancestors(components, start), start);
      assert Whole(components, start)[1..] == Ancestors(components, start);
    }
  }

  // UNION ALL of the seed and the recursive term, until the working table is empty.
  method AncestorQuery(components: map<Id, Component>, start: Id) returns (rows: seq<Id>)
    requires Forest(components)
    ensures rows == Ancestors(components, start)
  {
    var work := if start in components && components[start].forkedFrom.Some? then [start] else [];
    var chain := work;
    ghost var whole := Whole(components, start);
    while work != []
      invariant |work| <= 1 && (work != [] ==> work[0] in components)
      invariant chain + Pending(components, work) == whole
      decreases if work == [] then 0 else work[0] + 1
    {
      JoinOne(components, work);
      JoinAdvances(components, chain, work);
      work := Join(components, work);
      chain := chain + work;
    }
    assert chain + [] == chain;
    rows := Except(chain, start);
    SeedDropped(components, start);
  }

  // ── What the query returns ─────────────────────────────────────────────────

  predicate Descending(s: seq<Id>) { forall i, j | 0 <= i < j < |s| :: s[j] < s[i] }

  lemma DescendingCons(p: Id, rest: seq<Id>)
    requires Descending(rest) && forall x | x in rest :: x < p
    ensures Descending([p] + rest)
  {
    var s := [p] + rest;
    forall i, j | 0 <= i < j < |s| ensures s[j] < s[i] {
      assert s[j] == rest[j - 1] && rest[j - 1] in rest;
      assert i > 0 ==> s[i] == rest[i - 1];
    }
  }

  // Nearest first, each older than the one before: no repeats, and never the start.
  lemma {:induction false} AncestorsDescend(components: map<Id, Component>, c: Id)
    requires Forest(components)
    ensures forall x | x in Ancestors(components, c) :: x < c
    ensures Descending(Ancestors(components, c))
    decreases c
  {
    match ParentOf(components, c)
    case None =>
    case Some(p) =>
      AncestorsDescend(components, p);
      DescendingCons(p, Ancestors(components, p));
  }

  lemma {:induction false} NthParentShifts(components: map<Id, Component>, c: Id, n: nat)
    ensures NthParent(components, c, n + 1) ==
            match ParentOf(components, c) case None => None case Some(p) => NthParent(components, p, n)
  {
    if n > 0 { NthParentShifts(components, c, n - 1); }
  }

  lemma {:induction false} AncestorsAreNthParents(components: map<Id, Component>, c: Id, n: nat)
    requires Forest(components)
    ensures var a := Ancestors(components, c);
            NthParent(components, c, n + 1) == if n < |a| then Some(a[n]) else None
    decreases c
  {
    NthParentShifts(components, c, n);
    match ParentOf(components, c)
    case None =>
    case Some(p) =>
      if n > 0 { AncestorsAreNthParents(components, p, n - 1); }
  }

  lemma AncestorsExactly(components: map<Id, Component>, c: Id, x: Id)
    requires Forest(components)
    ensures x in Ancestors(components, c) <==> ProperAncestor(components, x, c)
  {
    var a := Ancestors(components, c);
    if x in a {
      var n: nat :| n < |a| && a[n] == x;
      AncestorsAreNthParents(components, c, n);
      assert NthParent(components, c, n + 1) == Some(x);
    }
    if ProperAncestor(components, x, c) {
      var n: nat :| n > 0 && NthParent(components, c, n) == Some(x);
      AncestorsAreNthParents(components, c, n - 1);
    }
  }

  // In every reachable state the fork links form a forest, so all of the above applies.
  lemma LineageHolds(steps: seq<Step>, c: Id, x: Id)
    ensures var components := Run(steps).components;
      && Forest(components)
      && (x in Ancestors(components, c) <==> ProperAncestor(components, x, c))
      && (x in Ancestors(components, c) ==> x in components && x < c)
  {
    RunKeeps(steps);
    var components := Run(steps).components;
    AncestorsExactly(components, c, x);
    AncestorsDescend(components, c);
    AncestorsStored(components, c);
  }

  lemma {:induction false} AncestorsStored(components: map<Id, Component>, c: Id)
    requires Forest(components)
    ensures forall x | x in Ancestors(components, c) :: x in components
    decreases c
  {
    match ParentOf(components, c)
    case None =>
    case Some(p) => AncestorsStored(components, p);
  }

  // ── Descendants ────────────────────────────────────────────────────────────

  const DESCENDANTS := 50

  function LiveForks(components: map<Id, Component>, id: Id): set<Id> {
    set c | c in components && !components[c].deleted && components[c].forkedFrom == Some(id)
  }

  // ORDER BY "createdAt" DESC LIMIT 50.
  predicate IsDescendantPage(components: map<Id, Component>, id: Id, rows: seq<Id>) {
    var all := LiveForks(components, id);
    && Descending(rows) && Ids(rows) <= all
    && |rows| == (if |all| <= DESCENDANTS then |all| else DESCENDANTS)
    && Above(Ids(rows), all - Ids(rows))
  }

  function Ids(rows: seq<Id>): set<Id> { set c | c in rows }

  method DescendantQuery(components: map<Id, Component>, id: Id) returns (rows: seq<Id>)
    ensures IsDescendantPage(components, id, rows)
  {
    rows := [];
    var rest := LiveForks(components, id);
    while rest != {} && |rows| < DESCENDANTS
      invariant |rows| <= DESCENDANTS && Page(LiveForks(components, id), rows, rest)
      decreases rest
    {
      var c := Newest(rest);
      PageGrows(LiveForks(components, id), rows, rest, c);
      rows := rows + [c];
      rest := rest - {c};
    }
    assert LiveForks(components, id) - Ids(rows) == rest;
  }

  method Newest(ids: set<Id>) returns (c: Id)
    requires ids != {}
    ensures c in ids && forall x | x in ids :: x <= c
  {
    c :| c in ids;
    var rest := ids - {c};
    while rest != {}
      invariant rest <= ids && c in ids && c !in rest
      invariant forall x | x in ids && x !in rest :: x <= c
      decreases rest
    {
      var x :| x in rest;
      rest := rest - {x};
      if c < x { c := x; }
    }
  }

  // The newest so far, and the others.
  predicate Page(all: set<Id>, rows: seq<Id>, rest: set<Id>) {
    && rest <= all && Ids(rows) == all - rest && |all| == |rows| + |rest|
    && Descending(rows) && Above(Ids(rows), rest)
  }

  predicate Above(upper: set<Id>, lower: set<Id>) { forall a, b | a in upper && b in lower :: b < a }

  lemma AboveMoves(upper: set<Id>, lower: set<Id>, c: Id)
    requires Above(upper, lower) && c in lower && forall x | x in lower :: x <= c
    ensures Above(upper + {c}, lower - {c}) && forall a | a in upper :: c < a
  {
  }

  lemma PageGrows(all: set<Id>, rows: seq<Id>, rest: set<Id>, c: Id)
    requires Page(all, rows, rest) && c in rest && forall x | x in rest :: x <= c
    ensures Page(all, rows + [c], rest - {c})
  {
    AboveMoves(Ids(rows), rest, c);
    IdsAppend(rows, c);
    DescendingSnoc(rows, c);
    assert all - (rest - {c}) == all - rest + {c};
  }

  lemma IdsAppend(rows: seq<Id>, c: Id)
    ensures Ids(rows + [c]) == Ids(rows) + {c}
  {
  }

  lemma DescendingSnoc(rows: seq<Id>, c: Id)
    requires Descending(rows) && forall a | a in Ids(rows) :: c < a
    ensures Descending(rows + [c])
  {
    var rows' := rows + [c];
    forall i, j | 0 <= i < j < |rows'| ensures rows'[j] < rows'[i] {
      assert rows[i] in Ids(rows);
    }
  }

  // The two halves of a lineage agree: a live component is listed below another if and only if
  // that one is its nearest ancestor and fewer than fifty newer live forks compete for the page.
  lemma DescendantsInvertAncestors(components: map<Id, Component>, id: Id, rows: seq<Id>, c: Id)
    requires Forest(components) && IsDescendantPage(components, id, rows)
    ensures c in rows <==>
      && c in components && !components[c].deleted
      && Ancestors(components, c) != [] && Ancestors(components, c)[0] == id
      && |Newer(components, id, c)| < 50
  {
    var all := LiveForks(components, id);
    assert c in all <==> c in components && !components[c].deleted
                         && Ancestors(components, c) != [] && Ancestors(components, c)[0] == id;
    DistinctSize(rows);
    assert c in rows <==> c in Ids(rows);
    if c in rows {
      forall d | d in Newer(components, id, c) ensures d in Ids(rows) - {c} {
        assert d !in Ids(rows) ==> d in all - Ids(rows);
      }
      SubsetSmaller(Newer(components, id, c), Ids(rows) - {c});
    } else if c in all {
      forall d | d in Ids(rows) ensures d in Newer(components, id, c) {
        assert c in all - Ids(rows);
      }
      SubsetSmaller(Ids(rows), Newer(components, id, c));
      if |all| <= DESCENDANTS { SubsetSmaller(Ids(rows), all - {c}); }
    }
  }

  function Newer(components: map<Id, Component>, id: Id, c: Id): set<Id> {
    set d | d in LiveForks(components, id) && d > c
  }

  lemma {:induction false} DistinctSize(rows: seq<Id>)
    requires Descending(rows)
    ensures |Ids(rows)| == |rows|
  {
    if rows != [] {
      var front, last := rows[..|rows| - 1], rows[|rows| - 1];
      DistinctSize(front);
      assert rows == front + [last];
      assert Ids(rows) == Ids(front) + {last};
      assert last !in front;
    }
  }

  // ── Lineage through the purge ──────────────────────────────────────────────

  function Until(rows: seq<Id>, cs: set<Id>): seq<Id> {
    if rows == [] || rows[0] in cs then [] else [rows[0]] + Until(rows[1..], cs)
  }

  lemma OrphanForest(components: map<Id, Component>, cs: set<Id>)
    requires Forest(components)
    ensures Forest(Orphan(components, cs))
  {
  }

  // ON DELETE SET NULL cuts a surviving component's ancestry at the first purged ancestor.
  lemma {:induction false} PurgeCutsLineage(components: map<Id, Component>, cs: set<Id>, c: Id)
    requires Forest(components) && c in components && c !in cs
    ensures Forest(Orphan(components, cs))
    ensures Ancestors(Orphan(components, cs), c) == Until(Ancestors(components, c), cs)
    decreases c
  {
    OrphanForest(components, cs);
    var p := ParentOf(components, c);
    if p.Some? && p.value !in cs { PurgeCutsLineage(components, cs, p.value); }
  }

  // A fork's lineage is its parent followed by its parent's lineage, and no lineage of an
  // existing component changes.
  lemma ForkExtendsLineage(db: Db, u: Id, parent: Id, visible: bool, ready: bool, c: Id)
    requires IdsOk(db) && Forest(db.components) && c in db.components
    requires ForkComponent(db, u, parent, visible, ready).result.Ok?
    ensures var components' := ForkComponent(db, u, parent, visible, ready).db.components;
      && Forest(components')
      && Ancestors(components', db.next) == [parent] + Ancestors(db.components, parent)
      && Ancestors(components', c) == Ancestors(db.components, c)
  {
    assert ForkComponent(db, u, parent, visible, ready).db.components
           == db.components[db.next := Component(u, false, Some(parent))];
    ForestGrows(db.components, db.next, Component(u, false, Some(parent)));
    InsertKeepsLineage(db.components, db.next, Component(u, false, Some(parent)), c);
    InsertKeepsLineage(db.components, db.next, Component(u, false, Some(parent)), parent);
  }

  lemma {:induction false} InsertKeepsLineage(components: map<Id, Component>, id: Id, row: Component, c: Id)
    requires Forest(components) && id !in components && Forest(components[id := row]) && c in components
    ensures Ancestors(components[id := row], c) == Ancestors(components, c)
    decreases c
  {
    var p := ParentOf(components, c);
    if p.Some? { InsertKeepsLineage(components, id, row, p.value); }
  }
}
