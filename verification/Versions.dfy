/** Version numbers under racing publishers and draft saves. A publish reads the latest number
  * and, later, inserts the next one under the unique index on (component, number); a draft save
  * checks the draft and, later, writes the version it found. Anything may happen in between. */
module Versions {
  import opened Basics

  type Id = nat

  // A version row is named by its unique key: its component and its number.
  type Key = (Id, nat)

  datatype Body = Body(code: string, dependencies: string, entryFile: Option<string>)

  datatype Head = Head(author: Id, deleted: bool, draft: bool, current: Option<Key>)

  // A publisher between its read and its insert.
  datatype Publisher = Publisher(component: Id, number: nat, body: Body)

  // A draft save between its check and its write: the version that was current, and the edit.
  datatype Saver = Saver(key: Option<Key>, code: Option<string>, dependencies: Option<string>)

  // Component ids are creation ordinals, never reused.
  datatype Db = Db(next: Id, components: map<Id, Head>, rows: map<Key, Body>,
                   publishers: map<nat, Publisher>, savers: map<nat, Saver>)

  const EMPTY := Db(0, map[], map[], map[], map[])

  datatype Reply = Reply(db: Db, result: Result<()>)

  predicate Live(db: Db, c: Id) { c in db.components && !db.components[c].deleted }

  ghost function Max(s: set<nat>): (m: nat)
    ensures if s == {} then m == 0 else m in s
    ensures forall x | x in s :: x <= m
  {
    if s == {} then 0
    else
      var x :| x in s;
      var m := Max(s - {x});
      assert forall y | y in s :: y == x || y in s - {x};
      if m < x then x else m
  }

  function Numbers(rows: map<Key, Body>, c: Id): set<nat> { set key | key in rows && key.0 == c :: key.1 }

  // ORDER BY version DESC, first row, or zero.
  ghost function Latest(rows: map<Key, Body>, c: Id): nat { Max(Numbers(rows, c)) }

  // ── Operations ─────────────────────────────────────────────────────────────

  // Insert a version and point the component at it.
  function Insert(db: Db, c: Id, number: nat, body: Body): Db
    requires c in db.components
  {
    db.(rows := db.rows[(c, number) := body],
        components := db.components[c := db.components[c].(current := Some((c, number)))])
  }

  function NewComponent(db: Db, u: Id, draft: bool, body: Body): Db {
    Insert(db.(next := db.next + 1, components := db.components[db.next := Head(u, false, draft, None)]),
           db.next, 1, body)
  }

  function PublishError(db: Db, c: Id, u: Id): Option<Error> {
    if !Live(db, c) then Some(NotFound) else if db.components[c].author != u then Some(Forbidden) else None
  }

  // The reading half of `publish`.
  ghost function Begin(db: Db, p: nat, c: Id, u: Id, body: Body): Reply {
    var err := PublishError(db, c, u);
    if err.Some? then Reply(db, Err(err.value))
    else Reply(db.(publishers := db.publishers[p := Publisher(c, Latest(db.rows, c) + 1, body)]), Ok(()))
  }

  // The writing half: a taken number or a vanished component rolls the transaction back.
  function Commit(db: Db, p: nat): Reply
    requires p in db.publishers
  {
    var w := db.publishers[p];
    var rest := db.(publishers := db.publishers - {p});
    if w.component !in db.components || (w.component, w.number) in db.rows then Reply(rest, Err(Conflict))
    else Reply(Insert(rest, w.component, w.number, w.body), Ok(()))
  }

  // The whole of `publish` with nothing in between.
  ghost function Publish(db: Db, c: Id, u: Id, body: Body): Reply {
    var err := PublishError(db, c, u);
    if err.Some? then Reply(db, Err(err.value)) else Reply(Insert(db, c, Latest(db.rows, c) + 1, body), Ok(()))
  }

  // `visible`: public or own, and no block either way.
  function Fork(db: Db, u: Id, parent: Id, visible: bool): Reply {
    if !Live(db, parent) || !visible || db.components[parent].draft then Reply(db, Err(NotFound))
    else
      var source := db.components[parent].current;
      if source.None? || source.value !in db.rows then Reply(db, Err(BadRequest))
      else Reply(NewComponent(db, u, false, db.rows[source.value]), Ok(()))
  }

  function Edited(body: Body, code: Option<string>, dependencies: Option<string>): Body {
    body.(code := if code.Some? then code.value else body.code,
          dependencies := if dependencies.Some? then dependencies.value else body.dependencies)
  }

  function SaveDraftError(db: Db, c: Id, u: Id): Option<Error> {
    if !Live(db, c) || db.components[c].author != u then Some(NotFound)
    else if !db.components[c].draft then Some(BadRequest)
    else None
  }

  // The checking half of `saveDraft`.
  function CheckDraft(db: Db, q: nat, c: Id, u: Id, code: Option<string>, dependencies: Option<string>): Reply {
    var err := SaveDraftError(db, c, u);
    if err.Some? then Reply(db, Err(err.value))
    else Reply(db.(savers := db.savers[q := Saver(db.components[c].current, code, dependencies)]), Ok(()))
  }

  // The edit of the version found then, in place; one that is gone is left alone.
  function Write(db: Db, w: Saver): Db {
    if w.key.None? || w.key.value !in db.rows then db
    else db.(rows := db.rows[w.key.value := Edited(db.rows[w.key.value], w.code, w.dependencies)])
  }

  // The writing half of `saveDraft`: nothing is checked again.
  function SaveVersion(db: Db, q: nat): Db
    requires q in db.savers
  {
    Write(db.(savers := db.savers - {q}), db.savers[q])
  }

  // The whole of `saveDraft` with nothing in between.
  function SaveDraft(db: Db, c: Id, u: Id, code: Option<string>, dependencies: Option<string>): Reply {
    var err := SaveDraftError(db, c, u);
    if err.Some? then Reply(db, Err(err.value))
    else Reply(Write(db, Saver(db.components[c].current, code, dependencies)), Ok(()))
  }

  function PublishDraft(db: Db, c: Id, u: Id): Reply {
    if !Live(db, c) || db.components[c].author != u then Reply(db, Err(NotFound))
    else if !db.components[c].draft || db.components[c].current.None? then Reply(db, Err(BadRequest))
    else Reply(db.(components := db.components[c := db.components[c].(draft := false)]), Ok(()))
  }

  function Remove(db: Db, c: Id): Db {
    if !Live(db, c) then db else db.(components := db.components[c := db.components[c].(deleted := true)])
  }

  // The retention purge: versions go with their component.
  function Purge(db: Db, expired: set<Id>): Db {
    var gone := set c | c in expired && c in db.components && db.components[c].deleted;
    db.(components := db.components - gone, rows := map key | key in db.rows && key.0 !in gone :: db.rows[key])
  }

  // ── Runs ───────────────────────────────────────────────────────────────────

  datatype Step =
    | DoCreate(u: Id, draft: bool, body: Body)
    | DoFork(u: Id, parent: Id, visible: bool)
    | DoBegin(p: nat, c: Id, u: Id, body: Body) | DoCommit(p: nat)
    | DoCheckDraft(q: nat, c: Id, u: Id, code: Option<string>, dependencies: Option<string>) | DoSaveVersion(q: nat)
    | DoPublishDraft(c: Id, u: Id)
    | DoRemove(c: Id) | DoPurge(expired: set<Id>)

  ghost function Next(db: Db, step: Step): Db {
    match step
    case DoCreate(u, draft, body) => NewComponent(db, u, draft, body)
    case DoFork(u, parent, visible) => Fork(db, u, parent, visible).db
    case DoBegin(p, c, u, body) => if p in db.publishers then db else Begin(db, p, c, u, body).db
    case DoCommit(p) => if p in db.publishers then Commit(db, p).db else db
    case DoCheckDraft(q, c, u, code, dependencies) =>
      if q in db.savers then db else CheckDraft(db, q, c, u, code, dependencies).db
    case DoSaveVersion(q) => if q in db.savers then SaveVersion(db, q) else db
    case DoPublishDraft(c, u) => PublishDraft(db, c, u).db
    case DoRemove(c) => Remove(db, c)
    case DoPurge(expired) => Purge(db, expired)
  }

  ghost function Run(db: Db, steps: seq<Step>): Db {
    if steps == [] then db else Next(Run(db, steps[..|steps| - 1]), steps[|steps| - 1])
  }

  // ── The invariant ──────────────────────────────────────────────────────────

  // Versions exactly 1..n, n at least one, and the current version is number n.
  ghost predicate Contiguous(rows: map<Key, Body>, c: Id, current: Option<Key>) {
    && current.Some? && current.value.0 == c && current.value.1 >= 1
    && forall k: nat :: (c, k) in rows <==> 1 <= k <= current.value.1
  }

  ghost predicate Numbered(db: Db) {
    && (forall c | c in db.components :: c < db.next && Contiguous(db.rows, c, db.components[c].current))
    && (forall key | key in db.rows :: key.0 in db.components)
  }

  // A publisher never holds a number beyond the next free one.
  predicate Modest(db: Db) {
    forall p | p in db.publishers ::
      var w := db.publishers[p];
      && w.component < db.next
      && (w.component in db.components && db.components[w.component].current.Some? ==>
            1 <= w.number <= db.components[w.component].current.value.1 + 1)
  }

  ghost predicate Inv(db: Db) { Numbered(db) && Modest(db) }

  lemma LatestIsCurrent(rows: map<Key, Body>, c: Id, current: Option<Key>)
    requires Contiguous(rows, c, current)
    ensures Latest(rows, c) == current.value.1
  {
    assert (c, current.value.1) in rows;
    assert (c, current.value.1).1 in Numbers(rows, c);
  }

  // A component without versions, or one whose next number this is.
  lemma InsertKeeps(db: Db, c: Id, number: nat, body: Body)
    requires Modest(db) && c in db.components && number >= 1
    requires forall d | d in db.components ::
               d < db.next && (d != c ==> Contiguous(db.rows, d, db.components[d].current))
    requires forall key | key in db.rows :: key.0 in db.components
    requires forall k: nat :: (c, k) in db.rows <==> 1 <= k < number
    requires db.components[c].current.Some? ==> db.components[c].current.value.1 < number
    requires db.components[c].current.None? ==> forall p | p in db.publishers :: db.publishers[p].component != c
    ensures Inv(Insert(db, c, number, body))
  {
    var db' := Insert(db, c, number, body);
    forall d | d in db'.components ensures Contiguous(db'.rows, d, db'.components[d].current) {
      if d != c { assert Contiguous(db.rows, d, db.components[d].current); }
    }
  }

  lemma NewComponentKeeps(db: Db, u: Id, draft: bool, body: Body)
    requires Inv(db)
    ensures Inv(NewComponent(db, u, draft, body))
  {
    var db1 := db.(next := db.next + 1, components := db.components[db.next := Head(u, false, draft, None)]);
    forall k: nat ensures (db.next, k) !in db1.rows {
      assert (db.next, k) in db.rows ==> (db.next, k).0 in db.components;
    }
    InsertKeeps(db1, db.next, 1, body);
  }

  // ── Committing ─────────────────────────────────────────────────────────────

  // A commit succeeds exactly when its component is still stored and nobody has published
  // since its read; then it adds the next number. Otherwise nothing but the attempt is gone.
  lemma CommitOutcome(db: Db, p: nat)
    requires Inv(db) && p in db.publishers
    ensures var w := db.publishers[p]; var after := Commit(db, p);
      && Inv(after.db)
      && (after.result.Ok? <==> w.component in db.components && w.number == Latest(db.rows, w.component) + 1)
      && (after.result.Ok? ==> Latest(after.db.rows, w.component) == w.number)
      && (after.result.Err? ==> after.db.rows == db.rows && after.db.components == db.components)
  {
    var w := db.publishers[p];
    var rest := db.(publishers := db.publishers - {p});
    if w.component in db.components {
      var current := db.components[w.component].current;
      assert Contiguous(db.rows, w.component, current);
      LatestIsCurrent(db.rows, w.component, current);
      assert (w.component, w.number) in db.rows <==> w.number <= current.value.1;
      if w.number == current.value.1 + 1 {
        InsertKeeps(rest, w.component, w.number, w.body);
        LatestIsCurrent(Insert(rest, w.component, w.number, w.body).rows, w.component, Some((w.component, w.number)));
      }
    }
  }

  lemma BeginKeeps(db: Db, p: nat, c: Id, u: Id, body: Body)
    requires Inv(db)
    ensures Inv(Begin(db, p, c, u, body).db)
  {
    if c in db.components { LatestIsCurrent(db.rows, c, db.components[c].current); }
  }

  lemma CommitAtOnce(db: Db, p: nat, w: Publisher)
    requires p !in db.publishers && w.component in db.components && (w.component, w.number) !in db.rows
    ensures Commit(db.(publishers := db.publishers[p := w]), p) ==
            Reply(Insert(db, w.component, w.number, w.body), Ok(()))
  {
    var begun := db.(publishers := db.publishers[p := w]);
    assert begun.publishers - {p} == db.publishers;
    assert begun.(publishers := db.publishers) == db;
  }

  // With nothing in between, `publish` never conflicts and takes the next number.
  lemma PublishAlone(db: Db, p: nat, c: Id, u: Id, body: Body)
    requires Inv(db) && p !in db.publishers
    ensures var begun := Begin(db, p, c, u, body);
      if begun.result.Err? then begun == Publish(db, c, u, body)
      else Commit(begun.db, p) == Publish(db, c, u, body)
  {
    if PublishError(db, c, u).None? {
      LatestIsCurrent(db.rows, c, db.components[c].current);
      CommitAtOnce(db, p, Publisher(c, Latest(db.rows, c) + 1, body));
    }
  }

  // ── The other steps ────────────────────────────────────────────────────────

  lemma WriteKeeps(db: Db, w: Saver)
    requires Inv(db)
    ensures Inv(Write(db, w))
  {
    var db' := Write(db, w);
    assert db'.rows.Keys == db.rows.Keys && db'.components == db.components && db'.publishers == db.publishers;
    forall d | d in db'.components ensures Contiguous(db'.rows, d, db'.components[d].current) {
      assert Contiguous(db.rows, d, db.components[d].current);
      forall k: nat ensures (d, k) in db'.rows <==> (d, k) in db.rows { }
    }
  }

  lemma SaversKeep(db: Db, savers: map<nat, Saver>)
    requires Inv(db)
    ensures Inv(db.(savers := savers))
  {
  }

  lemma HeadKeeps(db: Db, c: Id, head: Head)
    requires Inv(db) && c in db.components && head.current == db.components[c].current
    ensures Inv(db.(components := db.components[c := head]))
  {
  }

  lemma HeadsKeep(db: Db, c: Id, u: Id)
    requires Inv(db)
    ensures Inv(PublishDraft(db, c, u).db) && Inv(Remove(db, c))
  {
    if c in db.components {
      HeadKeeps(db, c, db.components[c].(draft := false));
      HeadKeeps(db, c, db.components[c].(deleted := true));
    }
  }

  lemma ForkKeeps(db: Db, u: Id, parent: Id, visible: bool)
    requires Inv(db)
    ensures Inv(Fork(db, u, parent, visible).db)
  {
    var after := Fork(db, u, parent, visible);
    if after.result.Ok? {
      NewComponentKeeps(db, u, false, db.rows[db.components[parent].current.value]);
      assert after.db == NewComponent(db, u, false, db.rows[db.components[parent].current.value]);
    } else {
      assert after.db == db;
    }
  }

  lemma PurgeKeeps(db: Db, expired: set<Id>)
    requires Inv(db)
    ensures Inv(Purge(db, expired))
  {
    var db' := Purge(db, expired);
    forall d | d in db'.components ensures Contiguous(db'.rows, d, db'.components[d].current) {
      assert Contiguous(db.rows, d, db.components[d].current);
      forall k: nat ensures (d, k) in db'.rows <==> (d, k) in db.rows { }
    }
  }

  lemma StepKeeps(db: Db, step: Step)
    requires Inv(db)
    ensures Inv(Next(db, step))
  {
    match step
    case DoCreate(u, draft, body) => NewComponentKeeps(db, u, draft, body);
    case DoFork(u, parent, visible) => ForkKeeps(db, u, parent, visible);
    case DoBegin(p, c, u, body) =>
      BeginKeeps(db, p, c, u, body);
      assert Next(db, step) == if p in db.publishers then db else Begin(db, p, c, u, body).db;
    case DoCommit(p) =>
      if p in db.publishers { CommitOutcome(db, p); }
      assert Next(db, step) == if p in db.publishers then Commit(db, p).db else db;
    case DoCheckDraft(q, c, u, code, dependencies) => SaversKeep(db, Next(db, step).savers);
    case DoSaveVersion(q) =>
      if q in db.savers {
        SaversKeep(db, db.savers - {q});
        WriteKeeps(db.(savers := db.savers - {q}), db.savers[q]);
      }
    case DoPublishDraft(c, u) =>
      HeadsKeep(db, c, u);
      assert Next(db, step) == PublishDraft(db, c, u).db;
    case DoRemove(c) =>
      HeadsKeep(db, c, 0);
      assert Next(db, step) == Remove(db, c);
    case DoPurge(expired) => PurgeKeeps(db, expired);
  }

  // In every reachable state, however publishers race, each component's versions are
  // exactly 1..n and its current version is number n.
  lemma {:induction false} VersionsContiguous(steps: seq<Step>)
    ensures Inv(Run(EMPTY, steps))
  {
    if steps != [] {
      VersionsContiguous(steps[..|steps| - 1]);
      StepKeeps(Run(EMPTY, steps[..|steps| - 1]), steps[|steps| - 1]);
    }
  }

  // ── Races ──────────────────────────────────────────────────────────────────

  ghost function CommitAll(db: Db, ps: seq<nat>): Db {
    if ps == [] then db
    else
      var before := CommitAll(db, ps[..|ps| - 1]);
      if ps[|ps| - 1] in before.publishers then Commit(before, ps[|ps| - 1]).db else before
  }

  predicate Racing(publishers: map<nat, Publisher>, p: nat, c: Id, number: nat) {
    p in publishers ==> publishers[p].component == c && publishers[p].number == number
  }

  predicate AllRacing(publishers: map<nat, Publisher>, ps: seq<nat>, c: Id, number: nat) {
    forall i | 0 <= i < |ps| :: Racing(publishers, ps[i], c, number)
  }

  predicate Within(publishers: map<nat, Publisher>, all: map<nat, Publisher>) {
    forall p | p in publishers :: p in all && publishers[p] == all[p]
  }

  // Of any number of publishers that read the same latest number, the first to commit
  // wins and all the others leave no trace.
  lemma {:induction false} FirstCommitWins(db: Db, ps: seq<nat>, c: Id, number: nat)
    requires Inv(db) && c in db.components && ps != [] && ps[0] in db.publishers
    requires number == Latest(db.rows, c) + 1 && AllRacing(db.publishers, ps, c, number)
    ensures var won := Commit(db, ps[0]); var all := CommitAll(db, ps);
      && won.result.Ok? && all.rows == won.db.rows && all.components == won.db.components
      && Inv(all) && Latest(all.rows, c) == number
    ensures Within(CommitAll(db, ps).publishers, db.publishers)
  {
    var last := ps[|ps| - 1];
    var before := ps[..|ps| - 1];
    assert Racing(db.publishers, ps[0], c, number);
    if before == [] {
      assert CommitAll(db, before) == db;
      CommitOutcome(db, ps[0]);
    } else {
      FirstCommitWins(db, before, c, number);
      assert Racing(db.publishers, last, c, number);
      var mid := CommitAll(db, before);
      LastCommit(mid, last, c, number);
      assert CommitAll(db, ps) == if last in mid.publishers then Commit(mid, last).db else mid;
    }
  }

  lemma LastCommit(db: Db, p: nat, c: Id, number: nat)
    requires Inv(db) && c in db.components && Latest(db.rows, c) == number
    requires Racing(db.publishers, p, c, number)
    ensures p in db.publishers ==>
      Inv(Commit(db, p).db) && Commit(db, p) == Reply(db.(publishers := db.publishers - {p}), Err(Conflict))
  {
    if p in db.publishers { CommitOutcome(db, p); }
  }

  // ── Forks and published code ───────────────────────────────────────────────

  // A fork starts at version 1 with the code, dependencies and entry file of its parent's
  // latest version, and is refused for want of a source version in no reachable state.
  lemma ForkCopiesLatest(db: Db, u: Id, parent: Id, visible: bool)
    requires Inv(db)
    ensures var after := Fork(db, u, parent, visible);
      && after.result != Err(BadRequest)
      && (after.result.Ok? ==>
            && (parent, Latest(db.rows, parent)) in db.rows
            && after.db.rows == db.rows[(db.next, 1) := db.rows[(parent, Latest(db.rows, parent))]]
            && after.db.components[db.next].current == Some((db.next, 1)))
  {
    if Live(db, parent) { LatestIsCurrent(db.rows, parent, db.components[parent].current); }
  }

  predicate CurrentsOwn(db: Db) {
    forall c | c in db.components && db.components[c].current.Some? :: db.components[c].current.value.0 == c
  }

  // With nothing in between, the two halves of a draft save are the whole.
  lemma SaveDraftAlone(db: Db, q: nat, c: Id, u: Id, code: Option<string>, dependencies: Option<string>)
    requires q !in db.savers
    ensures var begun := CheckDraft(db, q, c, u, code, dependencies);
            var whole := SaveDraft(db, c, u, code, dependencies);
      if begun.result.Err? then begun == whole
      else whole == Reply(SaveVersion(begun.db, q), Ok(()))
  {
    if SaveDraftError(db, c, u).None? {
      var w := Saver(db.components[c].current, code, dependencies);
      assert db.savers[q := w] - {q} == db.savers;
      assert db.(savers := db.savers[q := w]).(savers := db.savers) == db;
    }
  }

  predicate Published(db: Db, key: Key) {
    key in db.rows && key.0 in db.components && !db.components[key.0].draft
  }

  predicate PublishedKept(db: Db, db': Db) {
    forall key | key in db.rows && Published(db, key) :: key in db'.rows && db'.rows[key] == db.rows[key]
  }

  predicate EditsNothing(body: Body, w: Saver) { Edited(body, w.code, w.dependencies) == body }

  // A draft save that checked earlier leaves every published version as it was if and only if
  // what it writes is not published by now, or the edit changes nothing.
  lemma LateSaveKeepsPublished(db: Db, q: nat)
    requires Inv(db) && q in db.savers
    ensures PublishedKept(db, SaveVersion(db, q)) <==>
            var w := db.savers[q];
            w.key.None? || !Published(db, w.key.value) || EditsNothing(db.rows[w.key.value], w)
  {
    var w := db.savers[q];
    if w.key.Some? && Published(db, w.key.value) && !EditsNothing(db.rows[w.key.value], w) {
      assert SaveVersion(db, q).rows[w.key.value] != db.rows[w.key.value];
    }
  }

  // A published version as it was, or gone together with its component.
  predicate Final(db: Db, key: Key, body: Body) {
    && key.0 < db.next
    && if key.0 in db.components then !db.components[key.0].draft && key in db.rows && db.rows[key] == body
       else key !in db.rows
  }

  // No draft save under way would change it.
  predicate Unthreatened(db: Db, key: Key, body: Body) {
    forall q | q in db.savers && db.savers[q].key == Some(key) :: EditsNothing(body, db.savers[q])
  }

  lemma PublishedIsFinal(db: Db, step: Step, key: Key, body: Body)
    requires CurrentsOwn(db) && Final(db, key, body) && Unthreatened(db, key, body)
    ensures Final(Next(db, step), key, body)
  {
  }

  lemma NoLateChecks(db: Db, step: Step, key: Key, body: Body)
    requires CurrentsOwn(db) && Final(db, key, body) && Unthreatened(db, key, body)
    ensures Unthreatened(Next(db, step), key, body)
  {
    if step.DoFork? { assert Next(db, step).savers == db.savers; }
  }

  lemma {:induction false} UnthreatenedStaysFinal(db: Db, steps: seq<Step>, key: Key)
    requires Inv(db) && Published(db, key) && Unthreatened(db, key, db.rows[key])
    ensures var db' := Run(db, steps);
            Inv(db') && Final(db', key, db.rows[key]) && Unthreatened(db', key, db.rows[key])
  {
    if steps != [] {
      var before := Run(db, steps[..|steps| - 1]);
      UnthreatenedStaysFinal(db, steps[..|steps| - 1], key);
      StepKeeps(before, steps[|steps| - 1]);
      PublishedIsFinal(before, steps[|steps| - 1], key, db.rows[key]);
      NoLateChecks(before, steps[|steps| - 1], key, db.rows[key]);
    }
  }

  // From a moment on, no run ever changes a published version, and only the purge of its whole
  // component takes it away, for good, if and only if no draft save that would change it is
  // under way at that moment: none that checks later gets through.
  lemma PublishedStaysFinal(db: Db, key: Key)
    requires Inv(db) && Published(db, key)
    ensures Unthreatened(db, key, db.rows[key]) <==>
            forall steps: seq<Step> :: Final(Run(db, steps), key, db.rows[key])
  {
    if Unthreatened(db, key, db.rows[key]) {
      forall steps: seq<Step> ensures Final(Run(db, steps), key, db.rows[key]) {
        UnthreatenedStaysFinal(db, steps, key);
      }
    } else {
      var q :| q in db.savers && db.savers[q].key == Some(key) && !EditsNothing(db.rows[key], db.savers[q]);
      var steps := [DoSaveVersion(q)];
      assert steps[..0] == [];
      assert !Final(Run(db, steps), key, db.rows[key]);
    }
  }

  lemma RunTwo(db: Db, a: Step, b: Step)
    ensures Run(db, [a, b]) == Next(Next(db, a), b)
  {
    assert [a, b][..1] == [a] && [a][..0] == [];
    assert Run(db, [a]) == Next(db, a);
  }

  lemma CheckThenPublish(db: Db, q: nat, c: Id, u: Id, code: string)
    requires Inv(db) && q !in db.savers && SaveDraftError(db, c, u).None?
    ensures var key := db.components[c].current.value;
            var published := PublishDraft(CheckDraft(db, q, c, u, Some(code), None).db, c, u).db;
            && Published(published, key) && published.rows == db.rows
            && published.savers == db.savers[q := Saver(Some(key), Some(code), None)]
  {
    assert Contiguous(db.rows, c, db.components[c].current);
  }

  // An autosave in flight when the author publishes: whatever draft it is, the edit reaches the
  // published code.
  lemma AutosaveOvertakenByPublish(db: Db, q: nat, c: Id, u: Id, code: string)
    requires Inv(db) && q !in db.savers && SaveDraftError(db, c, u).None?
    ensures var key := db.components[c].current.value;
            var published := Run(db, [DoCheckDraft(q, c, u, Some(code), None), DoPublishDraft(c, u)]);
            && Published(published, key) && published.rows[key] == db.rows[key]
            && q in published.savers && key in SaveVersion(published, q).rows
            && SaveVersion(published, q).rows[key] == db.rows[key].(code := code)
  {
    RunTwo(db, DoCheckDraft(q, c, u, Some(code), None), DoPublishDraft(c, u));
    CheckThenPublish(db, q, c, u, code);
  }

  // ── Whole-row saves ────────────────────────────────────────────────────────

  // `save` on a component loaded earlier writes back every column it loaded.
  function SaveHead(db: Db, c: Id, loaded: Head): Db
    requires c in db.components
  {
    db.(components := db.components[c := loaded.(deleted := db.components[c].deleted)])
  }

  // Written back late, the numbering survives if and only if nobody has published a version
  // since the load, and a published component stays published if and only if it was loaded so.
  lemma LateHeadSave(db: Db, c: Id, loaded: Head)
    requires Inv(db) && c in db.components
    ensures Inv(SaveHead(db, c, loaded)) <==> loaded.current == db.components[c].current
    ensures forall key | Published(db, key) && key.0 == c :: Published(SaveHead(db, c, loaded), key) == !loaded.draft
  {
    assert Contiguous(db.rows, c, db.components[c].current);
    if loaded.current == db.components[c].current {
      HeadKeeps(db, c, loaded.(deleted := db.components[c].deleted));
    }
  }
}
