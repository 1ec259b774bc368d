/** Where the counters drift from their rows: which steps can do it, and exactly when each of
  * them does. */
module LedgerDrift {
  import opened Basics
  import opened Relations
  import opened Ledger
  import opened LedgerRuns

  // ── Which steps lose rows ──────────────────────────────────────────────────

  predicate Erases(step: Step) { step.Bulk? && step.b.DoErase? }

  predicate PurgesComponents(step: Step) { step.Bulk? && step.b.DoPurgeComponents? }

  predicate PurgesComments(step: Step) { step.Bulk? && step.b.DoPurgeComments? }

  predicate Retags(step: Step) { step.Content? && step.t.DoReplaceTags? }

  predicate SocialExact(db: Db) {
    Exact(db.likes) && Exact(db.favorites) && Exact(db.following) && Exact(db.followers)
  }

  predicate ShelfExact(db: Db) { Exact(db.items) && Exact(db.forks) }

  lemma DropFollowExact(db: Db, a: Id, b: Id)
    requires SocialExact(db)
    ensures SocialExact(DropFollow(db, a, b))
  {
  }

  lemma BlockExact(db: Db, a: Id, b: Id)
    requires SocialExact(db)
    ensures SocialExact(Block(db, a, b).db)
  {
    var db1 := db.(blocks := db.blocks + {(a, b)});
    DropFollowExact(db1, a, b);
    DropFollowExact(DropFollow(db1, a, b), b, a);
  }

  lemma SocialStepExact(db: Db, s: SocialStep)
    requires SocialExact(db)
    ensures SocialExact(NextSocial(db, s))
  {
    match s
    case DoBlock(a, b) => BlockExact(db, a, b);
    case DoUnfollow(a, b) => DropFollowExact(db, a, b);
    case _ =>
  }

  lemma ContentStepExact(db: Db, t: ContentStep)
    requires SocialExact(db)
    ensures SocialExact(NextContent(db, t))
  {
    ContentFrame(db, t);
  }

  lemma SocialExactNext(db: Db, step: Step)
    requires SocialExact(db) && !Erases(step)
    ensures SocialExact(Next(db, step))
  {
    match step
    case Social(s) => SocialStepExact(db, s);
    case Content(t) => ContentStepExact(db, t);
    case Shelf(k) => ShelfFrame(db, k);
    case Bulk(b) =>
  }

  lemma ContentShelfExact(db: Db, t: ContentStep)
    requires ShelfExact(db)
    ensures ShelfExact(NextContent(db, t))
  {
    ContentFrame(db, t);
  }

  lemma ShelfExactNext(db: Db, step: Step)
    requires ShelfExact(db) && !PurgesComponents(step)
    ensures ShelfExact(Next(db, step))
  {
    match step
    case Social(s) => SocialFrame(db, s);
    case Content(t) => ContentShelfExact(db, t);
    case Shelf(k) =>
    case Bulk(b) =>
  }

  lemma ContentRepliesExact(db: Db, t: ContentStep)
    requires Exact(db.replies)
    ensures Exact(NextContent(db, t).replies)
  {
  }

  lemma RepliesExactNext(db: Db, step: Step)
    requires Exact(db.replies) && !PurgesComponents(step) && !PurgesComments(step)
    ensures Exact(Next(db, step).replies)
  {
    match step
    case Social(s) => SocialFrame(db, s);
    case Content(t) => ContentRepliesExact(db, t);
    case Shelf(k) => ShelfFrame(db, k);
    case Bulk(b) =>
  }

  lemma ContentLabelsExact(db: Db, t: ContentStep)
    requires Exact(db.labels) && !t.DoReplaceTags?
    ensures Exact(NextContent(db, t).labels)
  {
  }

  lemma LabelsExactNext(db: Db, step: Step)
    requires Exact(db.labels) && !PurgesComponents(step) && !Retags(step)
    ensures Exact(Next(db, step).labels)
  {
    match step
    case Social(s) => SocialFrame(db, s);
    case Content(t) => ContentLabelsExact(db, t);
    case Shelf(k) => ShelfFrame(db, k);
    case Bulk(b) =>
  }

  // Likes, favorites and follows drift only by erasure; collection and fork counts only by
  // the component purge; comment counts only by a purge; tag usage by the component purge
  // or a retagged draft.
  lemma {:induction false} DriftHasACause(steps: seq<Step>)
    ensures (forall i | 0 <= i < |steps| :: !Erases(steps[i])) ==> SocialExact(Run(steps))
    ensures (forall i | 0 <= i < |steps| :: !PurgesComponents(steps[i])) ==> ShelfExact(Run(steps))
    ensures (forall i | 0 <= i < |steps| :: !PurgesComponents(steps[i]) && !PurgesComments(steps[i])) ==>
              Exact(Run(steps).replies)
    ensures (forall i | 0 <= i < |steps| :: !PurgesComponents(steps[i]) && !Retags(steps[i])) ==>
              Exact(Run(steps).labels)
  {
    if steps != [] {
      var before, step := steps[..|steps| - 1], steps[|steps| - 1];
      DriftHasACause(before);
      assert forall i | 0 <= i < |before| :: before[i] == steps[i];
      if SocialExact(Run(before)) && !Erases(step) { SocialExactNext(Run(before), step); }
      if ShelfExact(Run(before)) && !PurgesComponents(step) { ShelfExactNext(Run(before), step); }
      if Exact(Run(before).replies) && !PurgesComponents(step) && !PurgesComments(step) {
        RepliesExactNext(Run(before), step);
      }
      if Exact(Run(before).labels) && !PurgesComponents(step) && !Retags(step) { LabelsExactNext(Run(before), step); }
    }
  }

  // An exact count that stays exact through a prune lost no counted row.
  lemma PruneExact(r: Relation, gone: set<(Id, Id)>)
    requires Conserved(r) && Exact(r) && gone <= r.edges
    ensures Exact(Prune(r, gone)) <==> gone == {}
  {
    if gone == {} {
      assert r.edges - gone == r.edges;
    } else {
      var e :| e in gone;
      assert e in Of(r.edges, e.0) && e !in Of(r.edges - gone, e.0);
      SubsetSmaller(Of(r.edges - gone, e.0), Of(r.edges, e.0) - {e});
      assert e in r.edges && e.0 in r.counters;
      assert Prune(r, gone).counters[e.0].lost > 0;
    }
  }

  // Erasing an account leaves the like counts right exactly when the user liked nothing;
  // likewise favorites and follows.
  lemma ErasureDrift(db: Db, u: Id)
    requires Inv(db) && SocialExact(db) && LiveUser(db, u)
    ensures SocialExact(Erase(db, u).db) <==>
            EndingIn(db.likes.edges, {u}) == {} && EndingIn(db.favorites.edges, {u}) == {}
            && Touching(db.following.edges, u) == {}
  {
    PruneExact(db.likes, EndingIn(db.likes.edges, {u}));
    PruneExact(db.favorites, EndingIn(db.favorites.edges, {u}));
    PruneExact(db.following, Touching(db.following.edges, u));
    PruneExact(db.followers, Touching(db.followers.edges, u));
    var ing, ers := Touching(db.following.edges, u), Touching(db.followers.edges, u);
    if e :| e in ers { assert (e.1, e.0) in ing; }
  }

  // The comment purge leaves the comment counts right exactly when no live reply hangs,
  // directly or through other replies, from a comment it deletes.
  lemma CommentPurgeDrift(db: Db, expired: set<Id>)
    requires Inv(db) && Exact(db.replies)
    ensures Exact(PurgeComments(db, expired).replies) <==>
            forall m | m in Cascade(db.comments, HiddenComments(db.comments, expired)) :: db.comments[m].deleted
  {
    var doomed := Cascade(db.comments, HiddenComments(db.comments, expired));
    var gone := EndingIn(db.replies.edges, doomed);
    PruneExact(db.replies, gone);
    forall m | m in doomed && !db.comments[m].deleted ensures (db.comments[m].component, m) in gone {
    }
  }

  const HIDDEN_PARENT := [Social(DoRegister), Content(DoCreate(0, {}, true)), Content(DoComment(0, 1, None)),
                          Content(DoComment(0, 1, Some(2))), Content(DoRemoveComment(0, 2))]

  lemma OneComponentRun()
    ensures var db := Run(HIDDEN_PARENT[..2]);
            && db.next == 2 && db.users == map[0 := false] && db.components == map[1 := Component(0, false, None)]
            && db.comments == map[] && db.replies == Relation({}, map[1 := Counter(0, 0)])
  {
    var s := HIDDEN_PARENT;
    assert s[..2][..1] == s[..1] && s[..1][..0] == [];
    assert Run(s[..1]) == Register(EMPTY);
    assert Run(s[..2]) == CreateComponent(Register(EMPTY), 0, {}, true).db;
  }

  lemma OneCommentRun()
    ensures var db := Run(HIDDEN_PARENT[..3]);
            && db.next == 3 && 0 in db.users && LiveComponent(db, 1)
            && db.comments == map[2 := Comment(1, 0, None, false)] && db.replies.counters == map[1 := Counter(1, 0)]
  {
    var s := HIDDEN_PARENT;
    OneComponentRun();
    assert s[..3][..2] == s[..2];
    assert Run(s[..3]) == AddComment(Run(s[..2]), 0, 1, None).db;
  }

  lemma TwoCommentsRun()
    ensures var db := Run(HIDDEN_PARENT[..4]);
            && db.comments == map[2 := Comment(1, 0, None, false), 3 := Comment(1, 0, Some(2), false)]
            && db.replies.counters == map[1 := Counter(2, 0)]
  {
    var s := HIDDEN_PARENT;
    OneCommentRun();
    assert s[..4][..3] == s[..3];
    assert Run(s[..4]) == AddComment(Run(s[..3]), 0, 1, Some(2)).db;
  }

  lemma HiddenParentRun()
    ensures var db := Run(HIDDEN_PARENT);
            db.comments == map[2 := Comment(1, 0, None, true), 3 := Comment(1, 0, Some(2), false)]
            && db.replies.counters == map[1 := Counter(1, 0)]
  {
    TwoCommentsRun();
    assert Run(HIDDEN_PARENT) == RemoveComment(Run(HIDDEN_PARENT[..4]), 0, 2).db;
  }

  // A live reply under an expired hidden comment: no comment is left, the count says one.
  lemma CommentPurgeOvercounts()
    ensures var db := PurgeComments(Run(HIDDEN_PARENT), {2});
            db.comments == map[] && 1 in db.replies.counters && db.replies.counters[1].value == 1
  {
    HiddenParentRun();
    var comments := Run(HIDDEN_PARENT).comments;
    var hidden := HiddenComments(comments, {2});
    assert 2 in hidden;
    assert Doomed(comments, hidden, 2) && Doomed(comments, hidden, 3);
    assert Cascade(comments, hidden) == {2, 3};
  }

  // ── Exactly when a bulk step loses counted rows ────────────────────────────

  // Keys that go take their counters along: only rows lost by the others matter.
  lemma DropPruneExact(r: Relation, gone: set<(Id, Id)>, ks: set<Id>)
    requires Conserved(r) && Exact(r) && gone <= r.edges
    ensures Exact(DropKeys(Prune(r, gone), ks)) <==> forall e | e in gone :: e.0 in ks
  {
    var r' := DropKeys(Prune(r, gone), ks);
    if forall e | e in gone :: e.0 in ks {
      forall k | k in r'.counters ensures r'.counters[k].lost == 0 {
        assert Of(r.edges - gone, k) == Of(r.edges, k);
      }
    } else {
      var e :| e in gone && e.0 !in ks;
      assert e in Of(r.edges, e.0) && e !in Of(r.edges - gone, e.0);
      SubsetSmaller(Of(r.edges - gone, e.0), Of(r.edges, e.0) - {e});
      assert e.0 in r'.counters && r'.counters[e.0].lost > 0;
    }
  }

  // Fork counts stay right through the component purge if and only if every purged fork goes
  // together with its parent.
  lemma ForkPurgeDrift(db: Db, expired: set<Id>)
    requires ForksOf(db) && Exact(db.forks)
    ensures var cs := SoftDeleted(db.components, expired);
      Exact(PurgeComponents(db, expired).forks) <==>
      forall c | c in cs && db.components[c].forkedFrom.Some? :: db.components[c].forkedFrom.value in cs
  {
    var cs := SoftDeleted(db.components, expired);
    var gone := EndingIn(db.forks.edges, cs);
    DropPruneExact(db.forks, gone, cs);
    forall c | c in cs && db.components[c].forkedFrom.Some?
      ensures (db.components[c].forkedFrom.value, c) in gone
    {
      assert db.components[c].forkedFrom == Some(db.components[c].forkedFrom.value);
    }
    forall e | e in gone ensures e.1 in cs && db.components[e.1].forkedFrom == Some(e.0) {
      assert e == (e.0, e.1);
    }
  }

  // Collection counts, if and only if no purged component is in a collection.
  lemma ItemPurgeDrift(db: Db, expired: set<Id>)
    requires ItemsOf(db) && Exact(db.items)
    ensures Exact(PurgeComponents(db, expired).items) <==>
            forall e | e in db.items.edges :: e.1 !in SoftDeleted(db.components, expired)
  {
    var gone := EndingIn(db.items.edges, SoftDeleted(db.components, expired));
    PruneExact(db.items, gone);
    assert forall e | e in db.items.edges && e.1 in SoftDeleted(db.components, expired) :: e in gone;
  }

  // Tag usage, if and only if no purged component carries a tag.
  lemma TagPurgeDrift(db: Db, expired: set<Id>)
    requires LabelsOf(db) && Exact(db.labels)
    ensures Exact(PurgeComponents(db, expired).labels) <==>
            forall e | e in db.labels.edges :: e.1 !in SoftDeleted(db.components, expired)
  {
    var gone := EndingIn(db.labels.edges, SoftDeleted(db.components, expired));
    PruneExact(db.labels, gone);
    assert forall e | e in db.labels.edges && e.1 in SoftDeleted(db.components, expired) :: e in gone;
  }

  // Comment counts, if and only if every live comment that cascades away sits on a component
  // that goes too: a reply from elsewhere is what breaks it.
  lemma CommentsOfPurgedDrift(db: Db, expired: set<Id>)
    requires RepliesOf(db) && Exact(db.replies)
    ensures var cs := SoftDeleted(db.components, expired);
      Exact(PurgeComponents(db, expired).replies) <==>
      forall m | m in Cascade(db.comments, CommentsOn(db.comments, cs)) && !db.comments[m].deleted ::
        db.comments[m].component in cs
  {
    var cs := SoftDeleted(db.components, expired);
    var doomed := Cascade(db.comments, CommentsOn(db.comments, cs));
    var gone := EndingIn(db.replies.edges, doomed);
    DropPruneExact(db.replies, gone, cs);
    assert PurgeComponents(db, expired).replies == DropKeys(Prune(db.replies, gone), cs);
    forall m | m in doomed && !db.comments[m].deleted ensures (db.comments[m].component, m) in gone {
    }
    forall e | e in gone ensures e.1 in doomed && !db.comments[e.1].deleted && db.comments[e.1].component == e.0 {
      assert e == (e.0, e.1);
    }
  }

  // Re-tagging a draft leaves usage right if and only if the draft had no tag.
  lemma RetagDrift(db: Db, u: Id, c: Id, tags: set<Id>)
    requires LabelsOf(db) && Exact(db.labels) && ReplaceTags(db, u, c, true, tags).result.Ok?
    ensures Exact(ReplaceTags(db, u, c, true, tags).db.labels) <==> TagsOf(db, c) == {}
  {
    var gone := set e | e in db.labels.edges && e.1 == c;
    PruneExact(db.labels, gone);
    forall e | e in gone ensures e.0 in TagsOf(db, c) { }
    var pruned := Prune(db.labels, gone);
    AttachLosesNothing(pruned, tags, c);
    if k :| k in TagsOf(db, c) {
      var e :| e in db.labels.edges && e.1 == c && e.0 == k;
      assert e in gone;
    }
  }

  lemma AttachLosesNothing(r: Relation, ks: set<Id>, x: Id)
    ensures Exact(Attach(r, ks, x)) <==> Exact(r)
  {
    var r' := Attach(r, ks, x);
    forall k | k in r.counters ensures k in r'.counters && r'.counters[k].lost == r.counters[k].lost { }
    forall k | k in r'.counters ensures r'.counters[k].lost == if k in r.counters then r.counters[k].lost else 0 { }
  }
}
