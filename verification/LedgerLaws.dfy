/** What follows from the ledger's invariant in every reachable state: what the counters say,
  * what one call undoes, and how long a block holds. */
module LedgerLaws {
  import opened Basics
  import opened Relations
  import opened Ledger
  import opened LedgerRuns

  // ── What the counters say ──────────────────────────────────────────────────

  // In every reachable state a counter is its rows plus the rows lost on it, so it is never
  // negative; an author's count is exactly the live components.
  lemma CountersCount(steps: seq<Step>, k: Id)
    ensures var db := Run(steps);
      && Counted(db.likes, k) && Counted(db.favorites, k) && Counted(db.following, k) && Counted(db.followers, k)
      && Counted(db.replies, k) && Counted(db.forks, k) && Counted(db.items, k) && Counted(db.labels, k)
    ensures var db := Run(steps);
      k in db.users ==> k in db.authored.counters && db.authored.counters[k].value == |LiveBy(db.components, k)|
  {
    RunKeeps(steps);
    var db := Run(steps);
    if k in db.users { AuthoredIsLive(db.authored, db.components, db.users.Keys, k); }
  }

  predicate Counted(r: Relation, k: Id) {
    k in r.counters ==> r.counters[k].lost >= 0 && r.counters[k].value == |Of(r.edges, k)| + r.counters[k].lost
  }

  function LiveBy(components: map<Id, Component>, u: Id): set<Id> {
    set c | c in components && components[c].author == u && !components[c].deleted
  }

  lemma AuthoredIsLive(authored: Relation, components: map<Id, Component>, users: set<Id>, u: Id)
    requires AuthoredOk(authored, components, users)
    ensures |Of(authored.edges, u)| == |LiveBy(components, u)|
    ensures u in users ==> u in authored.counters && authored.counters[u].value == |LiveBy(components, u)|
  {
    SameSize(Of(authored.edges, u), LiveBy(components, u), u);
  }

  lemma {:induction false} SameSize(pairs: set<(Id, Id)>, ends: set<Id>, u: Id)
    requires forall c :: (u, c) in pairs <==> c in ends
    requires forall e | e in pairs :: e.0 == u
    ensures |pairs| == |ends|
    decreases ends
  {
    forall e | e in pairs ensures e.1 in ends { assert e == (u, e.1); }
    if ends == {} {
      assert pairs == {};
    } else {
      var c :| c in ends;
      SameSize(pairs - {(u, c)}, ends - {c}, u);
    }
  }

  // No follow ever crosses a block, follows itself, or is read from one end only.
  lemma WallHolds(steps: seq<Step>, a: Id, b: Id)
    ensures var db := Run(steps);
      && ((a, b) in db.following.edges <==> (b, a) in db.followers.edges)
      && ((a, b) in db.following.edges ==> a != b && (a, b) !in db.blocks && (b, a) !in db.blocks)
  {
    RunKeeps(steps);
    assert FollowsOf(Run(steps));
  }

  // ── What one call undoes ───────────────────────────────────────────────────

  // A first like puts the row in, a second changes nothing, and unliking takes the tables back
  // to what they were.
  predicate LikeUndone(db: Db, u: Id, c: Id) {
    var liked := Like(db, u, c);
    liked.result.Ok? && (c, u) !in db.likes.edges ==>
      && (c, u) in liked.db.likes.edges && c in db.likes.counters && c in liked.db.likes.counters
      && liked.db.likes.counters[c].value == db.likes.counters[c].value + 1
      && Like(liked.db, u, c) == liked && Unlike(liked.db, u, c).db == db
  }

  predicate FavoriteUndone(db: Db, u: Id, c: Id) {
    var marked := Favorite(db, u, c);
    marked.result.Ok? && (c, u) !in db.favorites.edges ==>
      && (c, u) in marked.db.favorites.edges && c in db.favorites.counters && c in marked.db.favorites.counters
      && marked.db.favorites.counters[c].value == db.favorites.counters[c].value + 1
      && Favorite(marked.db, u, c) == marked && Unfavorite(marked.db, u, c).db == db
  }

  predicate ItemUndone(db: Db, u: Id, k: Id, c: Id) {
    var added := AddItem(db, u, k, c);
    added.result.Ok? && (k, c) !in db.items.edges ==>
      && (k, c) in added.db.items.edges && k in db.items.counters && k in added.db.items.counters
      && added.db.items.counters[k].value == db.items.counters[k].value + 1
      && AddItem(added.db, u, k, c) == added && RemoveItem(added.db, u, k, c).db == db
  }

  predicate FollowUndone(db: Db, a: Id, b: Id) {
    var followed := Follow(db, a, b);
    followed.result.Ok? && (a, b) !in db.following.edges ==>
      && (a, b) in followed.db.following.edges
      && a in db.following.counters && a in followed.db.following.counters
      && b in db.followers.counters && b in followed.db.followers.counters
      && followed.db.following.counters[a].value == db.following.counters[a].value + 1
      && followed.db.followers.counters[b].value == db.followers.counters[b].value + 1
      && Follow(followed.db, a, b) == followed && Unfollow(followed.db, a, b).db == db
  }

  // A comment made and then removed leaves the count where it was and the row hidden, and
  // cannot be removed again.
  predicate CommentUndone(db: Db, u: Id, c: Id, parent: Option<Id>) {
    var added := AddComment(db, u, c, parent);
    added.result.Ok? ==>
      var removed := RemoveComment(added.db, u, db.next);
      && c in db.replies.counters && c in added.db.replies.counters
      && added.db.replies.counters[c].value == db.replies.counters[c].value + 1
      && removed.result.Ok? && removed.db.replies == db.replies
      && db.next in removed.db.comments && removed.db.comments[db.next].deleted
      && RemoveComment(removed.db, u, db.next).result == Err(NotFound)
  }

  lemma ReactionsUndone(db: Db, u: Id, c: Id)
    requires c in db.components ==> c in db.likes.counters && c in db.favorites.counters
    ensures LikeUndone(db, u, c) && FavoriteUndone(db, u, c)
  {
  }

  lemma ItemsUndone(db: Db, u: Id, k: Id, c: Id)
    requires k in db.collections ==> k in db.items.counters
    ensures ItemUndone(db, u, k, c)
  {
  }

  lemma FollowsUndone(db: Db, a: Id, b: Id)
    requires (a, b) in db.following.edges <==> (b, a) in db.followers.edges
    requires a in db.users ==> a in db.following.counters
    requires b in db.users ==> b in db.followers.counters
    ensures FollowUndone(db, a, b)
  {
    if Follow(db, a, b).result.Ok? && (a, b) !in db.following.edges {
      DropFollowIsDelete(Follow(db, a, b).db, a, b);
    }
  }

  lemma CommentsUndone(db: Db, u: Id, c: Id, parent: Option<Id>)
    requires (c, db.next) !in db.replies.edges && (c in db.components ==> c in db.replies.counters)
    ensures CommentUndone(db, u, c, parent)
  {
    if AddComment(db, u, c, parent).result.Ok? {
      var e := (c, db.next);
      assert Take(Insert(db.replies, e), e) == Delete(Insert(db.replies, e), e);
    }
  }

  // In every reachable state the second call of each pair undoes the first exactly.
  lemma EveryCallIsUndone(steps: seq<Step>, u: Id, v: Id, c: Id, k: Id, parent: Option<Id>)
    ensures var db := Run(steps);
      && LikeUndone(db, u, c) && FavoriteUndone(db, u, c) && ItemUndone(db, u, k, c)
      && FollowUndone(db, u, v) && CommentUndone(db, u, c, parent)
  {
    var db := Run(steps);
    assert c in db.components ==> c in db.likes.counters && c in db.favorites.counters by {
      RunKeeps(steps);
    }
    ReactionsUndone(db, u, c);
    assert k in db.collections ==> k in db.items.counters by { RunKeeps(steps); }
    ItemsUndone(db, u, k, c);
    FollowEnds(steps, u, v);
    FollowsUndone(db, u, v);
    FreshReply(steps, c);
    CommentsUndone(db, u, c, parent);
  }

  lemma FollowEnds(steps: seq<Step>, a: Id, b: Id)
    ensures var db := Run(steps);
      && ((a, b) in db.following.edges <==> (b, a) in db.followers.edges)
      && (a in db.users ==> a in db.following.counters) && (b in db.users ==> b in db.followers.counters)
  {
    RunKeeps(steps);
  }

  lemma FreshReply(steps: seq<Step>, c: Id)
    ensures var db := Run(steps);
      (c, db.next) !in db.replies.edges && (c in db.components ==> c in db.replies.counters)
  {
    RunKeeps(steps);
  }

  // ── How long a block lasts ─────────────────────────────────────────────────

  lemma RunFromConcat(db: Db, before: seq<Step>, after: seq<Step>)
    requires db == Run(before)
    ensures after != [] ==> Run(before + after) == Next(Run(before + after[..|after| - 1]), after[|after| - 1])
  {
    if after != [] { assert (before + after)[..|before + after| - 1] == before + after[..|after| - 1]; }
  }

  // Steps that take the block (a, b) away.
  predicate Lifts(step: Step, a: Id, b: Id) {
    || (step.Social? && step.s == DoUnblock(a, b))
    || (step.Bulk? && step.b.DoErase? && (step.b.u == a || step.b.u == b))
  }

  lemma BlockPersists(db: Db, step: Step, a: Id, b: Id)
    requires (a, b) in db.blocks && !Lifts(step, a, b)
    ensures (a, b) in Next(db, step).blocks
  {
    match step
    case Social(s) =>
      if s.DoBlock? { BlockAdds(db, s.a, s.b); }
    case Content(t) => ContentFrame(db, t);
    case Shelf(k) => ShelfFrame(db, k);
    case Bulk(b) =>
  }

  lemma BlockAdds(db: Db, a: Id, b: Id)
    ensures db.blocks <= Block(db, a, b).db.blocks
    ensures Block(db, a, b).result.Ok? ==> (a, b) in Block(db, a, b).db.blocks
  {
  }

  // From a block on, until it is lifted by its author or one of the two is erased: neither
  // follows the other, and every attempt to follow, in either direction, is refused.
  lemma BlockLasts(before: seq<Step>, a: Id, b: Id, after: seq<Step>)
    requires Block(Run(before), a, b).result.Ok?
    requires forall i | 0 <= i < |after| :: !Lifts(after[i], a, b)
    ensures var db := Run(before + [Social(DoBlock(a, b))] + after);
      && (a, b) in db.blocks && (a, b) !in db.following.edges && (b, a) !in db.following.edges
      && Follow(db, a, b).result.Err? && Follow(db, b, a).result.Err?
  {
    var start := before + [Social(DoBlock(a, b))];
    BlockStays(before, a, b, after);
    var db := Run(start + after);
    RunKeeps(start + after);
    assert FollowsOf(db) && a != b;
    assert BlockedEitherWay(db.blocks, a, b) && BlockedEitherWay(db.blocks, b, a);
  }

  lemma {:induction false} BlockStays(before: seq<Step>, a: Id, b: Id, after: seq<Step>)
    requires Block(Run(before), a, b).result.Ok?
    requires forall i | 0 <= i < |after| :: !Lifts(after[i], a, b)
    ensures (a, b) in Run(before + [Social(DoBlock(a, b))] + after).blocks
  {
    var start := before + [Social(DoBlock(a, b))];
    if after == [] {
      assert start + after == start && start[..|before|] == before;
      BlockAdds(Run(before), a, b);
    } else {
      BlockStays(before, a, b, after[..|after| - 1]);
      RunFromConcat(Run(start), start, after);
      BlockPersists(Run(start + after[..|after| - 1]), after[|after| - 1], a, b);
    }
  }

  // Unblocking does not bring back the follows the block took down.
  lemma UnblockRestoresNoFollow(steps: seq<Step>, a: Id, b: Id)
    ensures var blocked := Block(Run(steps), a, b); var after := Unblock(blocked.db, a, b).db;
      blocked.result.Ok? ==>
        (a, b) !in after.following.edges && (b, a) !in after.following.edges && (a, b) !in after.blocks
  {
    var db := Run(steps);
    if Block(db, a, b).result.Ok? {
      RunKeeps(steps);
      BlockFollows(db, a, b);
      BlockAdds(db, a, b);
      assert FollowsOf(Block(db, a, b).db);
    }
  }
}
