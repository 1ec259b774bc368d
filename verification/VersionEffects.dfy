/** What a version contains, who may write it, and which steps touch which rows. */
module VersionEffects {
  import opened Basics
  import opened Versions

  // ── Answers ────────────────────────────────────────────────────────────────

  predicate There(db: Db, c: Id) { c in db.components && !db.components[c].deleted }

  predicate AnswersPublish(db: Db, c: Id, u: Id, r: Result<()>) {
    && (r.Ok? <==> There(db, c) && db.components[c].author == u)
    && (r == Err(Forbidden) <==> There(db, c) && db.components[c].author != u)
    && (r == Err(NotFound) <==> !There(db, c))
  }

  predicate AnswersEdit(db: Db, c: Id, u: Id, r: Result<()>) {
    && (r.Ok? <==> There(db, c) && db.components[c].author == u && db.components[c].draft)
    && (r == Err(BadRequest) <==> There(db, c) && db.components[c].author == u && !db.components[c].draft)
    && (r == Err(NotFound) <==> !There(db, c) || db.components[c].author != u)
  }

  // Only the author publishes: a stranger is forbidden, a missing component is not found.
  lemma WhoMayPublish(db: Db, p: nat, c: Id, u: Id, body: Body)
    ensures AnswersPublish(db, c, u, Publish(db, c, u, body).result)
    ensures AnswersPublish(db, c, u, Begin(db, p, c, u, body).result)
  {
  }

  // Drafts are their author's: to anyone else they are not found, and once published they are
  // no longer drafts.
  lemma WhoMayEditDrafts(db: Db, q: nat, c: Id, u: Id, code: Option<string>, dependencies: Option<string>)
    requires Inv(db)
    ensures AnswersEdit(db, c, u, SaveDraft(db, c, u, code, dependencies).result)
    ensures AnswersEdit(db, c, u, CheckDraft(db, q, c, u, code, dependencies).result)
    ensures AnswersEdit(db, c, u, PublishDraft(db, c, u).result)
  {
    if There(db, c) { assert Contiguous(db.rows, c, db.components[c].current); }
  }

  // A draft is forked by nobody, its author included.
  lemma WhoMayFork(db: Db, u: Id, parent: Id, visible: bool)
    requires Inv(db)
    ensures Fork(db, u, parent, visible).result ==
            if There(db, parent) && visible && !db.components[parent].draft then Ok(()) else Err(NotFound)
  {
    if There(db, parent) { assert Contiguous(db.rows, parent, db.components[parent].current); }
  }

  // ── Contents ───────────────────────────────────────────────────────────────

  // A published version holds what was submitted, under the next number; it is the current
  // one, and every other row and component is as before.
  lemma PublishedContents(db: Db, c: Id, u: Id, body: Body)
    requires Inv(db) && Publish(db, c, u, body).result.Ok?
    ensures var db' := Publish(db, c, u, body).db; var key := (c, db.components[c].current.value.1 + 1);
      && key !in db.rows && key in db'.rows
      && db'.rows[key].code == body.code && db'.rows[key].dependencies == body.dependencies
      && db'.rows[key].entryFile == body.entryFile
      && db'.rows - {key} == db.rows
      && db'.components == db.components[c := db.components[c].(current := Some(key))]
      && db'.publishers == db.publishers && db'.savers == db.savers && db'.next == db.next
  {
    LatestIsCurrent(db.rows, c, db.components[c].current);
    assert Contiguous(db.rows, c, db.components[c].current);
  }

  lemma {:induction false} PublisherWaits(db: Db, steps: seq<Step>, p: nat)
    requires p in db.publishers && forall i | 0 <= i < |steps| :: steps[i] != DoCommit(p)
    ensures p in Run(db, steps).publishers && Run(db, steps).publishers[p] == db.publishers[p]
  {
    if steps != [] { PublisherWaits(db, steps[..|steps| - 1], p); }
  }

  // Whatever runs between its read and its insert: a publish that goes through inserts the body
  // it was called with, under the number it read, and changes no other row.
  lemma RacingPublishContents(db: Db, p: nat, c: Id, u: Id, body: Body, between: seq<Step>)
    requires p !in db.publishers && Begin(db, p, c, u, body).result.Ok?
    requires forall i | 0 <= i < |between| :: between[i] != DoCommit(p)
    ensures var mid := Run(Begin(db, p, c, u, body).db, between); var key := (c, Latest(db.rows, c) + 1);
      && p in mid.publishers
      && (Commit(mid, p).result.Ok? ==>
            && c in mid.components && key !in mid.rows && Commit(mid, p).db.rows == mid.rows[key := body]
            && Commit(mid, p).db.components == mid.components[c := mid.components[c].(current := Some(key))])
  {
    PublisherWaits(Begin(db, p, c, u, body).db, between, p);
  }

  // A saved draft has the parts that were sent in its current version, and the others as they
  // were; nothing else moves. The same when the write comes after the check.
  lemma SavedContents(db: Db, q: nat, c: Id, u: Id, code: Option<string>, dependencies: Option<string>)
    requires Inv(db) && q !in db.savers && SaveDraft(db, c, u, code, dependencies).result.Ok?
    ensures var db', key := SaveDraft(db, c, u, code, dependencies).db, db.components[c].current.value;
            var begun := CheckDraft(db, q, c, u, code, dependencies);
      && key in db.rows && key in db'.rows && db' == db.(rows := db.rows[key := db'.rows[key]])
      && db'.rows[key].code == (if code.Some? then code.value else db.rows[key].code)
      && db'.rows[key].dependencies == (if dependencies.Some? then dependencies.value else db.rows[key].dependencies)
      && db'.rows[key].entryFile == db.rows[key].entryFile
      && begun.result.Ok? && q in begun.db.savers && SaveVersion(begun.db, q) == db'
  {
    assert Contiguous(db.rows, c, db.components[c].current);
    SaveDraftAlone(db, q, c, u, code, dependencies);
  }

  // ── Which steps touch what ─────────────────────────────────────────────────

  predicate EditedBy(was: Body, now: Body, w: Saver) {
    && now.code == (if w.code.Some? then w.code.value else was.code)
    && now.dependencies == (if w.dependencies.Some? then w.dependencies.value else was.dependencies)
    && now.entryFile == was.entryFile
  }

  predicate RowLaw(db: Db, step: Step, key: Key, db': Db)
    requires key in db.rows && key.0 in db.components
  {
    && (key !in db'.rows <==> step.DoPurge? && key.0 in step.expired && db.components[key.0].deleted)
    && (key in db'.rows ==>
          if step.DoSaveVersion? && step.q in db.savers && db.savers[step.q].key == Some(key)
          then EditedBy(db.rows[key], db'.rows[key], db.savers[step.q])
          else db'.rows[key] == db.rows[key])
  }

  // What a step makes of a stored version: a draft save in flight edits the parts it was sent,
  // a purge takes it with its component, and nothing else reaches it.
  lemma EveryRow(db: Db, step: Step, key: Key)
    requires Inv(db) && key in db.rows
    ensures key.0 in db.components && RowLaw(db, step, key, Next(db, step))
  {
    FreshRow(db, key);
    if step.DoCreate? || step.DoFork? {
      NewComponentRow(db, step, key);
    } else if step.DoSaveVersion? || step.DoPurge? {
      WrittenRow(db, step, key);
    } else {
      QuietRow(db, step, key);
    }
  }

  lemma NewComponentRow(db: Db, step: Step, key: Key)
    requires key in db.rows && key.0 in db.components && key.0 < db.next && (step.DoCreate? || step.DoFork?)
    ensures RowLaw(db, step, key, Next(db, step))
  {
  }

  lemma WrittenRow(db: Db, step: Step, key: Key)
    requires key in db.rows && key.0 in db.components && (step.DoSaveVersion? || step.DoPurge?)
    ensures RowLaw(db, step, key, Next(db, step))
  {
  }

  lemma QuietRow(db: Db, step: Step, key: Key)
    requires key in db.rows && key.0 in db.components
    requires !step.DoCreate? && !step.DoFork? && !step.DoSaveVersion? && !step.DoPurge?
    ensures RowLaw(db, step, key, Next(db, step))
  {
  }

  lemma FreshRow(db: Db, key: Key)
    requires Inv(db) && key in db.rows
    ensures key.0 in db.components && key.0 < db.next
  {
  }

  // A new version comes with a creation or a fork, as version 1 of the new component, or from a
  // publisher's insert.
  lemma NewRow(db: Db, step: Step, key: Key)
    requires Inv(db) && key !in db.rows
    ensures var db' := Next(db, step);
      key in db'.rows <==>
        || (step.DoCreate? && key == (db.next, 1))
        || (step.DoFork? && Fork(db, step.u, step.parent, step.visible).result.Ok? && key == (db.next, 1))
        || (step.DoCommit? && step.p in db.publishers && db.publishers[step.p].component in db.components
            && key == (db.publishers[step.p].component, db.publishers[step.p].number))
    ensures var db' := Next(db, step);
      key in db'.rows ==>
        && (step.DoCreate? ==> db'.rows[key] == step.body)
        && (step.DoFork? ==> db.components[step.parent].current.Some?
                             && db.components[step.parent].current.value in db.rows
                             && db'.rows[key] == db.rows[db.components[step.parent].current.value])
        && (step.DoCommit? ==> db'.rows[key] == db.publishers[step.p].body)
  {
    if step.DoFork? { WhoMayFork(db, step.u, step.parent, step.visible); }
  }

  // The publish that is about to insert read the number before the next.
  ghost predicate Inserts(db: Db, step: Step, c: Id) {
    step.DoCommit? && step.p in db.publishers && db.publishers[step.p].component == c
    && db.publishers[step.p].number == Latest(db.rows, c) + 1
  }

  ghost predicate HeadLaw(db: Db, step: Step, c: Id, h: Head, db': Db) {
    && (c !in db'.components <==> step.DoPurge? && c in step.expired && h.deleted)
    && (c in db'.components ==>
          var h' := db'.components[c];
          && h'.author == h.author
          && (h'.deleted <==> h.deleted || step == DoRemove(c))
          && (h'.draft <==> h.draft && !(step == DoPublishDraft(c, h.author) && !h.deleted))
          && h'.current == if Inserts(db, step, c) then Some((c, db.publishers[step.p].number)) else h.current)
  }

  lemma CommitHead(db: Db, p: nat, c: Id)
    requires Inv(db) && c in db.components && p in db.publishers
    ensures HeadLaw(db, DoCommit(p), c, db.components[c], Commit(db, p).db)
  {
    CommitOutcome(db, p);
  }

  lemma ForkHead(db: Db, u: Id, parent: Id, visible: bool, c: Id)
    requires Inv(db) && c in db.components
    ensures HeadLaw(db, DoFork(u, parent, visible), c, db.components[c], Fork(db, u, parent, visible).db)
  {
    WhoMayFork(db, u, parent, visible);
    assert c < db.next;
  }

  lemma CreateHead(db: Db, step: Step, c: Id)
    requires c in db.components && c < db.next && step.DoCreate?
    ensures HeadLaw(db, step, c, db.components[c], Next(db, step))
  {
  }

  lemma OwnHead(db: Db, step: Step, c: Id)
    requires c in db.components && db.components[c].current.Some?
    requires !step.DoCommit? && !step.DoFork? && !step.DoCreate?
    ensures HeadLaw(db, step, c, db.components[c], Next(db, step))
  {
  }

  // An existing component: its author never changes, only removal hides it, only its author's
  // publication takes it out of draft, and only a publish moves its current version.
  lemma EveryHead(db: Db, step: Step, c: Id)
    requires Inv(db) && c in db.components
    ensures HeadLaw(db, step, c, db.components[c], Next(db, step))
  {
    if step.DoCommit? {
      if step.p in db.publishers { CommitHead(db, step.p, c); }
    } else if step.DoFork? {
      ForkHead(db, step.u, step.parent, step.visible, c);
    } else {
      assert c < db.next && Contiguous(db.rows, c, db.components[c].current);
      if step.DoCreate? { CreateHead(db, step, c); } else { OwnHead(db, step, c); }
    }
  }

  // New components come with a creation or a fork: the caller's, live, and at version 1; a fork
  // is never a draft.
  lemma NewHead(db: Db, step: Step, c: Id)
    requires Inv(db) && c !in db.components
    ensures var db' := Next(db, step); c in db'.components ==>
      && c == db.next == db'.next - 1
      && ((step.DoCreate? && db'.components[c] == Head(step.u, false, step.draft, Some((c, 1))))
          || (step.DoFork? && db'.components[c] == Head(step.u, false, false, Some((c, 1)))))
    ensures c == db.next && step.DoCreate? ==> c in Next(db, step).components
  {
    if step.DoFork? { WhoMayFork(db, step.u, step.parent, step.visible); }
  }
}
