/** Ledger calls whose check and whose transaction are pulled apart: exactly when the late
  * half still keeps the invariant. */
module LedgerRaces {
  import opened Relations
  import opened Ledger
  import opened LedgerRuns
  import opened LedgerLaws

  // ── Removals ───────────────────────────────────────────────────────────────

  // The transaction of `remove` and of the moderators' deletion, on a row loaded earlier that
  // may by now be hidden or purged.
  function LateRemoval(db: Db, u: Id, c: Id): Db {
    db.(components := if c in db.components then db.components[c := db.components[c].(deleted := true)]
                      else db.components,
        authored := Take(db.authored, (u, c)))
  }

  lemma TakeAbsent(r: Relation, e: (Id, Id))
    requires Conserved(r) && e !in r.edges && e.0 in r.counters
    ensures !Conserved(Take(r, e))
  {
    assert r.edges - {e} == r.edges;
    assert Take(r, e).counters[e.0].value == r.counters[e.0].value - 1;
  }

  // A removal committed on an earlier load keeps the author's count right if and only if the
  // component is still live at the commit.
  lemma DelayedRemovalKeepsCount(db: Db, u: Id, c: Id)
    requires AuthoredOf(db) && u in db.users && (c in db.components ==> db.components[c].author == u)
    ensures AuthoredOf(LateRemoval(db, u, c)) <==> LiveComponent(db, c)
  {
    if LiveComponent(db, c) {
      AuthoredRemoved(db.authored, db.components, db.users.Keys, c);
    } else {
      assert (u, c) !in db.authored.edges;
      TakeAbsent(db.authored, (u, c));
    }
  }

  function LateHiding(db: Db, c: Id, m: Id): Db {
    db.(comments := if m in db.comments then db.comments[m := db.comments[m].(deleted := true)] else db.comments,
        replies := Take(db.replies, (c, m)))
  }

  predicate LiveComment(db: Db, m: Id) { m in db.comments && !db.comments[m].deleted }

  // The same for comments, unless the component itself is gone and there is no count to miss.
  lemma DelayedHidingKeepsCount(db: Db, c: Id, m: Id)
    requires RepliesOf(db) && (m in db.comments ==> db.comments[m].component == c)
    ensures RepliesOf(LateHiding(db, c, m)) <==> LiveComment(db, m) || c !in db.components
  {
    if LiveComment(db, m) {
      CommentHidden(db.replies, db.comments, db.components.Keys, m);
    } else if c in db.components {
      assert (c, m) !in db.replies.edges;
      TakeAbsent(db.replies, (c, m));
    } else {
      assert m !in db.comments;
      assert (c, m) !in db.replies.edges && db.replies.edges - {(c, m)} == db.replies.edges;
    }
  }

  // Two overlapping calls that both loaded the live row: the count ends one short.
  lemma OverlappingRemovesUndercount(db: Db, c: Id)
    requires AuthoredOf(db) && LiveComponent(db, c)
    ensures var u := db.components[c].author; var db' := LateRemoval(LateRemoval(db, u, c), u, c);
            u in db'.authored.counters && db'.authored.counters[u].value == |Of(db'.authored.edges, u)| - 1
  {
    var u := db.components[c].author;
    assert (u, c) in db.authored.edges;
    DoubleTakeUndercounts(db.authored, (u, c));
    AuthoredRemoved(db.authored, db.components, db.users.Keys, c);
  }

  lemma OverlappingCommentRemovalsUndercount(db: Db, m: Id)
    requires RepliesOf(db) && LiveComment(db, m)
    ensures var c := db.comments[m].component; var db' := LateHiding(LateHiding(db, c, m), c, m);
            c in db'.replies.counters
            && db'.replies.counters[c].value == |Of(db'.replies.edges, c)| + db.replies.counters[c].lost - 1
  {
    var c := db.comments[m].component;
    assert (c, m) in db.replies.edges;
    DoubleTakeUndercounts(db.replies, (c, m));
  }

  // ── Follows ────────────────────────────────────────────────────────────────

  // The insert of `follow`, made on a check that another call may have overtaken.
  function FollowInsert(db: Db, a: Id, b: Id): Db {
    if (a, b) in db.following.edges then db
    else db.(following := Insert(db.following, (a, b)), followers := Insert(db.followers, (b, a)))
  }

  // A delayed insert keeps the wall exactly when no block has landed in between.
  lemma DelayedFollowKeepsWall(db: Db, a: Id, b: Id)
    requires FollowsOf(db) && a in db.users && b in db.users && a != b
    ensures FollowsOf(FollowInsert(db, a, b)) <==> !Across(db.blocks, a, b)
  {
    if (a, b) !in db.following.edges && !Across(db.blocks, a, b) {
      FollowInserted(db.following, db.followers, db.users.Keys, db.blocks, a, b);
    }
  }

  // Check, block by the other side, anything that does not lift the block, insert: the follow
  // stands across the block.
  lemma FollowOvertakenByBlock(before: seq<Step>, a: Id, b: Id, after: seq<Step>)
    requires Follow(Run(before), a, b).result.Ok? && Block(Run(before), b, a).result.Ok?
    requires forall i | 0 <= i < |after| :: !Lifts(after[i], b, a)
    ensures var db := Run(before + [Social(DoBlock(b, a))] + after); var db' := FollowInsert(db, a, b);
      && (a, b) !in db.following.edges && (a, b) in db'.following.edges && (b, a) in db'.blocks && !FollowsOf(db')
  {
    BlockLasts(before, b, a, after);
  }
}
