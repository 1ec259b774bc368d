/** What every run of the ledger keeps: each counter equals its rows plus the rows it was
  * never told about, and no follow crosses a block. */
module LedgerRuns {
  import opened Basics
  import opened Relations
  import opened Ledger
  import Text

  // ── The invariant, one relation at a time ──────────────────────────────────

  // Counted on every row of `keys`.
  predicate Counts(r: Relation, keys: set<Id>) { Conserved(r) && r.counters.Keys == keys }

  predicate Across(blocks: set<(Id, Id)>, a: Id, b: Id) { (a, b) in blocks || (b, a) in blocks }

  // The same rows, read from both ends.
  ghost predicate Mirrored(following: set<(Id, Id)>, followers: set<(Id, Id)>) {
    forall a, b :: (a, b) in following <==> (b, a) in followers
  }

  // Follows join distinct known users with no block between them.
  ghost predicate Walled(following: set<(Id, Id)>, users: set<Id>, blocks: set<(Id, Id)>) {
    forall a, b | (a, b) in following :: a in users && b in users && a != b && !Across(blocks, a, b)
  }

  ghost predicate FollowsOk(following: Relation, followers: Relation, users: set<Id>, blocks: set<(Id, Id)>) {
    && Counts(following, users) && Counts(followers, users)
    && Mirrored(following.edges, followers.edges) && Walled(following.edges, users, blocks)
  }

  // The counted edges are the live comments; replies point at older comments.
  ghost predicate RepliesOk(replies: Relation, comments: map<Id, Comment>, keys: set<Id>) {
    && Counts(replies, keys)
    && (forall c, m :: (c, m) in replies.edges <==>
          m in comments && comments[m].component == c && !comments[m].deleted)
    && (forall m | m in comments :: comments[m].component in keys)
    && (forall m | m in comments && comments[m].parent.Some? ::
          comments[m].parent.value in comments && comments[m].parent.value < m)
  }

  // Fork links lead to existing, older components.
  predicate Forest(components: map<Id, Component>) {
    forall c | c in components && components[c].forkedFrom.Some? ::
      components[c].forkedFrom.value in components && components[c].forkedFrom.value < c
  }

  ghost predicate ForkLinks(edges: set<(Id, Id)>, components: map<Id, Component>) {
    forall p, c :: (p, c) in edges <==> c in components && components[c].forkedFrom == Some(p)
  }

  ghost predicate ForksOk(forks: Relation, components: map<Id, Component>) {
    Counts(forks, components.Keys) && Forest(components) && ForkLinks(forks.edges, components)
  }

  // The counted edges are the live components, and this count is never off.
  ghost predicate AuthoredOk(authored: Relation, components: map<Id, Component>, users: set<Id>) {
    && Counts(authored, users) && Exact(authored)
    && (forall u, c :: (u, c) in authored.edges <==>
          c in components && components[c].author == u && !components[c].deleted)
    && (forall c | c in components :: components[c].author in users)
  }

  predicate EndsKnown(r: Relation, known: set<Id>) { forall e | e in r.edges :: e.1 in known }

  predicate ItemsOk(items: Relation, keys: set<Id>, known: set<Id>) { Counts(items, keys) && EndsKnown(items, known) }

  predicate LabelsOk(labels: Relation, known: set<Id>) { Conserved(labels) && EndsKnown(labels, known) }

  predicate IdsOk(db: Db) {
    && (forall u | u in db.users :: u < db.next)
    && (forall c | c in db.components :: c < db.next)
    && (forall m | m in db.comments :: m < db.next)
    && (forall k | k in db.collections :: k < db.next)
  }

  // ── Follows and blocks ─────────────────────────────────────────────────────

  lemma EdgeRemoved(following: set<(Id, Id)>, followers: set<(Id, Id)>, users: set<Id>, blocks: set<(Id, Id)>,
                    a: Id, b: Id)
    requires Mirrored(following, followers) && Walled(following, users, blocks)
    ensures Mirrored(following - {(a, b)}, followers - {(b, a)}) && Walled(following - {(a, b)}, users, blocks)
  {
  }

  lemma InsertCounts(r: Relation, keys: set<Id>, e: (Id, Id))
    requires Counts(r, keys) && e !in r.edges && e.0 in keys
    ensures Counts(Insert(r, e), keys) && Insert(r, e).edges == r.edges + {e}
  {
    InsertConserves(r, e);
  }

  lemma DeleteCounts(r: Relation, keys: set<Id>, e: (Id, Id))
    requires Counts(r, keys)
    ensures Counts(Delete(r, e), keys) && Delete(r, e).edges == r.edges - {e}
  {
    DeleteConserves(r, e);
  }

  lemma FollowInserted(following: Relation, followers: Relation, users: set<Id>, blocks: set<(Id, Id)>, a: Id, b: Id)
    requires FollowsOk(following, followers, users, blocks)
    requires a in users && b in users && a != b && !Across(blocks, a, b) && (a, b) !in following.edges
    ensures FollowsOk(Insert(following, (a, b)), Insert(followers, (b, a)), users, blocks)
  {
    InsertCounts(following, users, (a, b));
    InsertCounts(followers, users, (b, a));
  }

  lemma FollowDropped(following: Relation, followers: Relation, users: set<Id>, blocks: set<(Id, Id)>, a: Id, b: Id)
    requires FollowsOk(following, followers, users, blocks)
    ensures FollowsOk(Delete(following, (a, b)), Delete(followers, (b, a)), users, blocks)
  {
    DeleteCounts(following, users, (a, b));
    DeleteCounts(followers, users, (b, a));
    EdgeRemoved(following.edges, followers.edges, users, blocks, a, b);
  }

  lemma BlockRaised(following: Relation, followers: Relation, users: set<Id>, blocks: set<(Id, Id)>, a: Id, b: Id)
    requires FollowsOk(following, followers, users, blocks)
    ensures FollowsOk(Delete(Delete(following, (a, b)), (b, a)), Delete(Delete(followers, (b, a)), (a, b)),
                      users, blocks + {(a, b)})
  {
    FollowDropped(following, followers, users, blocks, a, b);
    FollowDropped(Delete(following, (a, b)), Delete(followers, (b, a)), users, blocks, b, a);
    DeleteCounts(following, users, (a, b));
    DeleteCounts(Delete(following, (a, b)), users, (b, a));
  }

  lemma PruneCounts(r: Relation, keys: set<Id>, gone: set<(Id, Id)>)
    requires Counts(r, keys)
    ensures Counts(Prune(r, gone), keys) && Prune(r, gone).edges == r.edges - gone
  {
    PruneConserves(r, gone);
  }

  lemma UserErased(following: Relation, followers: Relation, users: set<Id>, blocks: set<(Id, Id)>, u: Id)
    requires FollowsOk(following, followers, users, blocks)
    ensures FollowsOk(Prune(following, Touching(following.edges, u)), Prune(followers, Touching(followers.edges, u)),
                      users, blocks - Touching(blocks, u))
  {
    PruneCounts(following, users, Touching(following.edges, u));
    PruneCounts(followers, users, Touching(followers.edges, u));
  }

  lemma UserAdded(following: Relation, followers: Relation, users: set<Id>, blocks: set<(Id, Id)>, u: Id)
    requires FollowsOk(following, followers, users, blocks) && u !in users
    ensures FollowsOk(AddKey(following, u), AddKey(followers, u), users + {u}, blocks)
  {
    KeyAdded(following, users, u);
    KeyAdded(followers, users, u);
  }

  // ── Components ─────────────────────────────────────────────────────────────

  lemma KeyAdded(r: Relation, keys: set<Id>, k: Id)
    requires Counts(r, keys) && k !in keys
    ensures Counts(AddKey(r, k), keys + {k})
  {
    AddKeyConserves(r, k);
  }

  lemma ForestGrows(components: map<Id, Component>, c: Id, row: Component)
    requires Forest(components) && c !in components
    requires row.forkedFrom.Some? ==> row.forkedFrom.value in components && row.forkedFrom.value < c
    ensures Forest(components[c := row])
  {
  }

  lemma RootAdded(forks: Relation, components: map<Id, Component>, c: Id, row: Component)
    requires ForksOk(forks, components) && c !in components && row.forkedFrom.None?
    ensures ForksOk(AddKey(forks, c), components[c := row])
  {
    KeyAdded(forks, components.Keys, c);
    ForestGrows(components, c, row);
    assert forks.edges + {} == forks.edges;
    assert components[c := row].Keys == components.Keys + {c};
  }

  lemma ForkAdded(forks: Relation, components: map<Id, Component>, c: Id, row: Component)
    requires ForksOk(forks, components) && c !in components
    requires row.forkedFrom.Some? && row.forkedFrom.value in components && row.forkedFrom.value < c
    ensures ForksOk(Insert(AddKey(forks, c), (row.forkedFrom.value, c)), components[c := row])
  {
    KeyAdded(forks, components.Keys, c);
    InsertCounts(AddKey(forks, c), components.Keys + {c}, (row.forkedFrom.value, c));
    ForestGrows(components, c, row);
    assert components[c := row].Keys == components.Keys + {c};
  }

  lemma AuthoredAdded(authored: Relation, components: map<Id, Component>, users: set<Id>, c: Id, row: Component)
    requires AuthoredOk(authored, components, users) && c !in components && row.author in users && !row.deleted
    ensures AuthoredOk(Insert(authored, (row.author, c)), components[c := row], users)
  {
    InsertConserves(authored, (row.author, c));
  }

  lemma AuthoredRemoved(authored: Relation, components: map<Id, Component>, users: set<Id>, c: Id)
    requires AuthoredOk(authored, components, users) && c in components && !components[c].deleted
    ensures AuthoredOk(
      Take(authored, (components[c].author, c)), components[c := components[c].(deleted := true)], users)
  {
    DeleteConserves(authored, (components[c].author, c));
  }

  lemma ForksKeepOnSoftDelete(forks: Relation, components: map<Id, Component>, c: Id)
    requires ForksOk(forks, components) && c in components
    ensures ForksOk(forks, components[c := components[c].(deleted := true)])
  {
    var components' := components[c := components[c].(deleted := true)];
    assert components'.Keys == components.Keys;
    assert forall d | d in components :: components'[d].forkedFrom == components[d].forkedFrom;
  }

  lemma LabelsAttached(labels: Relation, known: set<Id>, tags: set<Id>, c: Id)
    requires LabelsOk(labels, known) && forall k | k in tags :: (k, c) !in labels.edges
    ensures LabelsOk(Attach(labels, tags, c), known + {c})
  {
    AttachConserves(labels, tags, c);
  }

  // ── Comments ───────────────────────────────────────────────────────────────

  lemma CommentAdded(replies: Relation, comments: map<Id, Comment>, keys: set<Id>, m: Id, row: Comment)
    requires RepliesOk(replies, comments, keys) && m !in comments && row.component in keys && !row.deleted
    requires row.parent.Some? ==> row.parent.value in comments && row.parent.value < m
    ensures RepliesOk(Insert(replies, (row.component, m)), comments[m := row], keys)
  {
    InsertConserves(replies, (row.component, m));
  }

  lemma CommentHidden(replies: Relation, comments: map<Id, Comment>, keys: set<Id>, m: Id)
    requires RepliesOk(replies, comments, keys) && m in comments && !comments[m].deleted
    ensures RepliesOk(Take(replies, (comments[m].component, m)), comments[m := comments[m].(deleted := true)], keys)
  {
    DeleteConserves(replies, (comments[m].component, m));
  }

  lemma CommentsDropped(replies: Relation, comments: map<Id, Comment>, keys: set<Id>, direct: set<Id>)
    requires RepliesOk(replies, comments, keys)
    ensures var doomed := Cascade(comments, direct);
            RepliesOk(Prune(replies, EndingIn(replies.edges, doomed)), comments - doomed, keys)
  {
    var doomed := Cascade(comments, direct);
    PruneConserves(replies, EndingIn(replies.edges, doomed));
  }

  lemma RepliesKeysDropped(replies: Relation, comments: map<Id, Comment>, keys: set<Id>, cs: set<Id>)
    requires RepliesOk(replies, comments, keys)
    requires forall m | m in comments :: comments[m].component !in cs
    ensures RepliesOk(DropKeys(replies, cs), comments, keys - cs)
  {
    DropKeysConserves(replies, cs);
  }

  // ── The retention purge ────────────────────────────────────────────────────

  lemma KeysDropped(r: Relation, keys: set<Id>, cs: set<Id>)
    requires Counts(r, keys)
    ensures Counts(DropKeys(r, cs), keys - cs)
  {
    DropKeysConserves(r, cs);
  }

  lemma EndsDropped(r: Relation, known: set<Id>, cs: set<Id>)
    requires Conserved(r) && EndsKnown(r, known)
    ensures var r' := Prune(r, EndingIn(r.edges, cs));
            Conserved(r') && EndsKnown(r', known - cs) && r'.counters.Keys == r.counters.Keys
  {
    PruneConserves(r, EndingIn(r.edges, cs));
  }

  lemma ForksPurged(forks: Relation, components: map<Id, Component>, cs: set<Id>)
    requires ForksOk(forks, components)
    ensures ForksOk(DropKeys(Prune(forks, EndingIn(forks.edges, cs)), cs), Orphan(components, cs))
  {
    PruneConserves(forks, EndingIn(forks.edges, cs));
    DropKeysConserves(Prune(forks, EndingIn(forks.edges, cs)), cs);
    assert Orphan(components, cs).Keys == components.Keys - cs;
  }

  lemma AuthoredPurged(authored: Relation, components: map<Id, Component>, users: set<Id>, cs: set<Id>)
    requires AuthoredOk(authored, components, users)
    requires forall c | c in cs && c in components :: components[c].deleted
    ensures AuthoredOk(authored, Orphan(components, cs), users)
  {
  }

  // ── One operation, one relation at a time ──────────────────────────────────

  ghost predicate ReactionsOf(db: Db) {
    Counts(db.likes, db.components.Keys) && Counts(db.favorites, db.components.Keys)
  }

  ghost predicate FollowsOf(db: Db) { FollowsOk(db.following, db.followers, db.users.Keys, db.blocks) }

  ghost predicate RepliesOf(db: Db) { RepliesOk(db.replies, db.comments, db.components.Keys) }

  ghost predicate AuthoredOf(db: Db) { AuthoredOk(db.authored, db.components, db.users.Keys) }

  ghost predicate ItemsOf(db: Db) { ItemsOk(db.items, db.collections.Keys, db.components.Keys) }

  ghost predicate LabelsOf(db: Db) { LabelsOk(db.labels, db.components.Keys) }

  lemma PurgeKeys(db: Db, expired: set<Id>)
    ensures PurgeComponents(db, expired).components.Keys == db.components.Keys - SoftDeleted(db.components, expired)
  {
    assert Orphan(db.components, SoftDeleted(db.components, expired)).Keys
           == db.components.Keys - SoftDeleted(db.components, expired);
  }

  // Likes and favorites.

  lemma LikeReactions(db: Db, u: Id, c: Id)
    requires ReactionsOf(db)
    ensures ReactionsOf(Like(db, u, c).db) && ReactionsOf(Unlike(db, u, c).db)
  {
    DeleteConserves(db.likes, (c, u));
    if Like(db, u, c).db != db { InsertConserves(db.likes, (c, u)); }
  }

  lemma FavoriteReactions(db: Db, u: Id, c: Id)
    requires ReactionsOf(db)
    ensures ReactionsOf(Favorite(db, u, c).db) && ReactionsOf(Unfavorite(db, u, c).db)
  {
    DeleteConserves(db.favorites, (c, u));
    if Favorite(db, u, c).db != db { InsertConserves(db.favorites, (c, u)); }
  }

  lemma AddComponentReactions(db: Db, u: Id, from: Option<Id>, tags: set<Id>)
    requires IdsOk(db) && ReactionsOf(db)
    ensures ReactionsOf(AddComponent(db, u, from, tags))
  {
    KeyAdded(db.likes, db.components.Keys, db.next);
    KeyAdded(db.favorites, db.components.Keys, db.next);
  }

  lemma EraseReactions(db: Db, u: Id)
    requires ReactionsOf(db)
    ensures ReactionsOf(Erase(db, u).db)
  {
    PruneConserves(db.likes, EndingIn(db.likes.edges, {u}));
    PruneConserves(db.favorites, EndingIn(db.favorites.edges, {u}));
  }

  lemma PurgeReactions(db: Db, expired: set<Id>)
    requires ReactionsOf(db)
    ensures ReactionsOf(PurgeComponents(db, expired))
  {
    PurgeKeys(db, expired);
    KeysDropped(db.likes, db.components.Keys, SoftDeleted(db.components, expired));
    KeysDropped(db.favorites, db.components.Keys, SoftDeleted(db.components, expired));
  }

  // Follows and blocks.

  lemma DropFollowIsDelete(db: Db, a: Id, b: Id)
    requires (a, b) in db.following.edges <==> (b, a) in db.followers.edges
    ensures DropFollow(db, a, b) ==
            db.(following := Delete(db.following, (a, b)), followers := Delete(db.followers, (b, a)))
  {
  }

  lemma RegisterFollows(db: Db)
    requires IdsOk(db) && FollowsOf(db)
    ensures FollowsOf(Register(db))
  {
    assert Register(db).users.Keys == db.users.Keys + {db.next};
    UserAdded(db.following, db.followers, db.users.Keys, db.blocks, db.next);
  }

  lemma FollowFollows(db: Db, a: Id, b: Id)
    requires FollowsOf(db)
    ensures FollowsOf(Follow(db, a, b).db)
  {
    if Follow(db, a, b).db != db { FollowInserted(db.following, db.followers, db.users.Keys, db.blocks, a, b); }
  }

  lemma UnfollowFollows(db: Db, a: Id, b: Id)
    requires FollowsOf(db)
    ensures FollowsOf(Unfollow(db, a, b).db)
  {
    DropFollowIsDelete(db, a, b);
    FollowDropped(db.following, db.followers, db.users.Keys, db.blocks, a, b);
  }

  lemma BlockFollows(db: Db, a: Id, b: Id)
    requires FollowsOf(db)
    ensures FollowsOf(Block(db, a, b).db)
  {
    if Block(db, a, b).db != db {
      var db1 := db.(blocks := db.blocks + {(a, b)});
      FollowDropped(db.following, db.followers, db.users.Keys, db.blocks, a, b);
      BlockRaised(db.following, db.followers, db.users.Keys, db.blocks, a, b);
      DropFollowIsDelete(db1, a, b);
      DropFollowIsDelete(DropFollow(db1, a, b), b, a);
    }
  }

  lemma EraseFollows(db: Db, u: Id)
    requires FollowsOf(db)
    ensures FollowsOf(Erase(db, u).db)
  {
    if LiveUser(db, u) {
      assert db.users[u := true].Keys == db.users.Keys;
      UserErased(db.following, db.followers, db.users.Keys, db.blocks, u);
    }
  }

  // Comments.

  lemma AddComponentReplies(db: Db, u: Id, from: Option<Id>, tags: set<Id>)
    requires IdsOk(db) && RepliesOf(db)
    ensures RepliesOf(AddComponent(db, u, from, tags))
  {
  }

  lemma CommentReplies(db: Db, u: Id, c: Id, parent: Option<Id>)
    requires IdsOk(db) && RepliesOf(db)
    ensures RepliesOf(AddComment(db, u, c, parent).db)
  {
    if AddComment(db, u, c, parent).db != db {
      CommentAdded(db.replies, db.comments, db.components.Keys, db.next, Comment(c, u, parent, false));
    }
  }

  lemma HideReplies(db: Db, m: Id)
    requires RepliesOf(db) && m in db.comments && !db.comments[m].deleted
    ensures RepliesOf(HideComment(db, m))
  {
    CommentHidden(db.replies, db.comments, db.components.Keys, m);
  }

  lemma RemovalReplies(db: Db, u: Id, m: Id, reason: string)
    requires RepliesOf(db)
    ensures RepliesOf(RemoveComment(db, u, m).db) && RepliesOf(TakeDownComment(db, m, reason).db)
  {
    if m in db.comments && !db.comments[m].deleted {
      HideReplies(db, m);
      assert TakeDownComment(db, m, reason).db == if Text.Blank(reason) then db else HideComment(db, m);
      assert RemoveComment(db, u, m).db == if db.comments[m].author == u then HideComment(db, m) else db;
    }
  }

  lemma SoftDeleteReplies(db: Db, c: Id)
    requires RepliesOf(db) && c in db.components
    ensures RepliesOf(SoftDelete(db, c))
  {
  }

  lemma PurgeReplies(db: Db, expired: set<Id>)
    requires RepliesOf(db)
    ensures RepliesOf(PurgeComponents(db, expired)) && RepliesOf(PurgeComments(db, expired))
  {
    CommentsDropped(db.replies, db.comments, db.components.Keys, HiddenComments(db.comments, expired));
    var cs := SoftDeleted(db.components, expired);
    var direct := CommentsOn(db.comments, cs);
    PurgeKeys(db, expired);
    CommentsDropped(db.replies, db.comments, db.components.Keys, direct);
    var db1 := DropComments(db, direct);
    forall m | m in db1.comments ensures db1.comments[m].component !in cs {
      assert m in direct ==> Doomed(db.comments, direct, m);
    }
    RepliesKeysDropped(db1.replies, db1.comments, db.components.Keys, cs);
  }

  // Fork links.

  lemma AddComponentForks(db: Db, u: Id, from: Option<Id>, tags: set<Id>)
    requires IdsOk(db) && ForksOk(db.forks, db.components) && (from.Some? ==> from.value in db.components)
    ensures ForksOk(AddComponent(db, u, from, tags).forks, AddComponent(db, u, from, tags).components)
  {
    if from.None? { RootAdded(db.forks, db.components, db.next, Component(u, false, from)); }
    else { ForkAdded(db.forks, db.components, db.next, Component(u, false, from)); }
  }

  // Authors' components.

  lemma AddComponentAuthored(db: Db, u: Id, from: Option<Id>, tags: set<Id>)
    requires IdsOk(db) && AuthoredOf(db) && u in db.users
    ensures AuthoredOf(AddComponent(db, u, from, tags))
  {
    AuthoredAdded(db.authored, db.components, db.users.Keys, db.next, Component(u, false, from));
  }

  lemma RegisterAuthored(db: Db)
    requires IdsOk(db) && AuthoredOf(db)
    ensures AuthoredOf(Register(db))
  {
    assert Register(db).users.Keys == db.users.Keys + {db.next};
    AddKeyConserves(db.authored, db.next);
  }

  lemma SoftDeleteAuthored(db: Db, c: Id)
    requires AuthoredOf(db) && LiveComponent(db, c)
    ensures AuthoredOf(SoftDelete(db, c))
  {
    AuthoredRemoved(db.authored, db.components, db.users.Keys, c);
  }

  lemma EraseAuthored(db: Db, u: Id)
    requires AuthoredOf(db)
    ensures AuthoredOf(Erase(db, u).db)
  {
    if LiveUser(db, u) { assert db.users[u := true].Keys == db.users.Keys; }
  }

  // Collections.

  lemma CollectionItems(db: Db, u: Id, k: Id)
    requires IdsOk(db) && ItemsOf(db)
    ensures ItemsOf(CreateCollection(db, u).db) && ItemsOf(RemoveCollection(db, u, k).db)
  {
    KeyAdded(db.items, db.collections.Keys, db.next);
    assert db.collections[db.next := Collection(u, false)].Keys == db.collections.Keys + {db.next};
    assert RemoveCollection(db, u, k).db.collections.Keys == db.collections.Keys;
  }

  lemma ItemItems(db: Db, u: Id, k: Id, c: Id)
    requires ItemsOf(db)
    ensures ItemsOf(AddItem(db, u, k, c).db) && ItemsOf(RemoveItem(db, u, k, c).db)
  {
    if AddItem(db, u, k, c).db != db { InsertConserves(db.items, (k, c)); }
    DeleteConserves(db.items, (k, c));
  }

  lemma EraseItems(db: Db, u: Id)
    requires ItemsOf(db)
    ensures ItemsOf(Erase(db, u).db)
  {
    var owned := OwnedBy(db.collections, u);
    KeysDropped(db.items, db.collections.Keys, owned);
    assert (db.collections - owned).Keys == db.collections.Keys - owned;
  }

  lemma PurgeItems(db: Db, expired: set<Id>)
    requires ItemsOf(db)
    ensures ItemsOf(PurgeComponents(db, expired))
  {
    PurgeKeys(db, expired);
    EndsDropped(db.items, db.components.Keys, SoftDeleted(db.components, expired));
  }

  // Tags.

  lemma AddComponentLabels(db: Db, u: Id, from: Option<Id>, tags: set<Id>)
    requires IdsOk(db) && LabelsOf(db)
    ensures LabelsOf(AddComponent(db, u, from, tags))
  {
    forall k | k in tags ensures (k, db.next) !in db.labels.edges {
      assert (k, db.next) in db.labels.edges ==> (k, db.next).1 in db.components.Keys;
    }
    LabelsAttached(db.labels, db.components.Keys, tags, db.next);
  }

  lemma ReplaceTagsLabels(db: Db, u: Id, c: Id, draft: bool, tags: set<Id>)
    requires LabelsOf(db)
    ensures LabelsOf(ReplaceTags(db, u, c, draft, tags).db)
  {
    if c in db.components {
      var gone := set e | e in db.labels.edges && e.1 == c;
      PruneConserves(db.labels, gone);
      LabelsAttached(Prune(db.labels, gone), db.components.Keys, tags, c);
      assert db.components.Keys + {c} == db.components.Keys;
    }
  }

  lemma PurgeLabels(db: Db, expired: set<Id>)
    requires LabelsOf(db)
    ensures LabelsOf(PurgeComponents(db, expired))
  {
    PurgeKeys(db, expired);
    EndsDropped(db.labels, db.components.Keys, SoftDeleted(db.components, expired));
  }

  // ── Whole steps ────────────────────────────────────────────────────────────

  ghost predicate ForksOf(db: Db) { ForksOk(db.forks, db.components) }

  ghost predicate Inv(db: Db) {
    && IdsOk(db) && ReactionsOf(db) && FollowsOf(db) && ItemsOf(db)
    && RepliesOf(db) && ForksOf(db) && AuthoredOf(db) && LabelsOf(db)
  }

  // The tables social steps leave alone.
  predicate SameContent(db: Db, db': Db) {
    && db'.components == db.components && db'.comments == db.comments && db'.collections == db.collections
    && db'.replies == db.replies && db'.forks == db.forks && db'.items == db.items && db'.labels == db.labels
  }

  // The tables content steps leave alone.
  predicate SamePeople(db: Db, db': Db) {
    && db'.users == db.users && db'.blocks == db.blocks
    && db'.followers == db.followers && db'.following == db.following
  }

  predicate SameReactions(db: Db, db': Db) {
    db'.likes == db.likes && db'.favorites == db.favorites && db'.components == db.components
  }

  predicate SameReplies(db: Db, db': Db) {
    db'.replies == db.replies && db'.comments == db.comments && db'.components == db.components
  }

  predicate SameForks(db: Db, db': Db) { db'.forks == db.forks && db'.components == db.components }

  predicate SameAuthored(db: Db, db': Db) {
    db'.authored == db.authored && db'.components == db.components && db'.users == db.users
  }

  predicate SameLabels(db: Db, db': Db) { db'.labels == db.labels && db'.components == db.components }

  // Social steps.

  lemma BlockFrame(db: Db, a: Id, b: Id)
    ensures var db' := Block(db, a, b).db;
            db' == db.(following := db'.following, followers := db'.followers, blocks := db'.blocks)
  {
  }

  lemma SocialFrame(db: Db, s: SocialStep)
    ensures SameContent(db, NextSocial(db, s))
  {
    if s.DoBlock? { BlockFrame(db, s.a, s.b); }
  }

  lemma RegisterFrame(db: Db, s: SocialStep)
    ensures !s.DoRegister? ==> SameAuthored(db, NextSocial(db, s)) && NextSocial(db, s).next == db.next
  {
    if s.DoBlock? { BlockFrame(db, s.a, s.b); }
  }

  lemma SocialIds(db: Db, s: SocialStep)
    requires IdsOk(db)
    ensures IdsOk(NextSocial(db, s))
  {
    SocialFrame(db, s);
    RegisterFrame(db, s);
  }

  lemma SocialReactions(db: Db, s: SocialStep)
    requires ReactionsOf(db)
    ensures ReactionsOf(NextSocial(db, s))
  {
    SocialFrame(db, s);
    match s
    case DoLike(u, c) => LikeReactions(db, u, c);
    case DoUnlike(u, c) => LikeReactions(db, u, c);
    case DoFavorite(u, c) => FavoriteReactions(db, u, c);
    case DoUnfavorite(u, c) => FavoriteReactions(db, u, c);
    case _ =>
  }

  lemma SocialFollows(db: Db, s: SocialStep)
    requires IdsOk(db) && FollowsOf(db)
    ensures FollowsOf(NextSocial(db, s))
  {
    match s
    case DoRegister => RegisterFollows(db);
    case DoFollow(a, b) => FollowFollows(db, a, b);
    case DoUnfollow(a, b) => UnfollowFollows(db, a, b);
    case DoBlock(a, b) => BlockFollows(db, a, b);
    case _ =>
  }

  lemma SocialKeeps(db: Db, s: SocialStep)
    requires Inv(db)
    ensures Inv(NextSocial(db, s))
  {
    SocialIds(db, s);
    SocialReactions(db, s);
    SocialFollows(db, s);
    RegisterFrame(db, s);
    if s.DoRegister? { RegisterAuthored(db); }
    SocialFrame(db, s);
  }

  // Content steps.

  lemma ContentFrame(db: Db, t: ContentStep)
    ensures var db' := NextContent(db, t);
      && SamePeople(db, db') && db'.collections == db.collections && db'.items == db.items
      && (t.DoReplaceTags? ==>
            SameReactions(db, db') && SameReplies(db, db') && SameForks(db, db') && SameAuthored(db, db'))
      && (t.DoComment? || t.DoRemoveComment? || t.DoTakeDownComment? ==>
            SameReactions(db, db') && SameForks(db, db') && SameAuthored(db, db') && SameLabels(db, db'))
  {
  }

  lemma ContentIds(db: Db, t: ContentStep)
    requires IdsOk(db)
    ensures IdsOk(NextContent(db, t))
  {
  }

  lemma ContentReactions(db: Db, t: ContentStep)
    requires IdsOk(db) && ReactionsOf(db)
    ensures ReactionsOf(NextContent(db, t))
  {
    ContentFrame(db, t);
    match t
    case DoCreate(u, tags, named) => AddComponentReactions(db, u, None, tags);
    case DoFork(u, parent, visible, ready) => AddComponentReactions(db, u, Some(parent), TagsOf(db, parent));
    case _ =>
  }

  lemma ContentItems(db: Db, t: ContentStep)
    requires ItemsOf(db)
    ensures ItemsOf(NextContent(db, t))
  {
    ContentFrame(db, t);
  }

  lemma CommentStepReplies(db: Db, t: ContentStep)
    requires IdsOk(db) && RepliesOf(db) && (t.DoComment? || t.DoRemoveComment? || t.DoTakeDownComment?)
    ensures RepliesOf(NextContent(db, t))
  {
    match t
    case DoComment(u, c, reply) =>
      CommentReplies(db, u, c, reply);
      assert NextContent(db, t) == AddComment(db, u, c, reply).db;
    case DoRemoveComment(u, m) =>
      RemovalReplies(db, u, m, "");
      assert NextContent(db, t) == RemoveComment(db, u, m).db;
    case DoTakeDownComment(m, reason) =>
      RemovalReplies(db, 0, m, reason);
      assert NextContent(db, t) == TakeDownComment(db, m, reason).db;
  }

  lemma ContentReplies(db: Db, t: ContentStep)
    requires IdsOk(db) && RepliesOf(db)
    ensures RepliesOf(NextContent(db, t))
  {
    ContentFrame(db, t);
    match t
    case DoCreate(u, tags, named) => AddComponentReplies(db, u, None, tags);
    case DoFork(u, parent, visible, ready) => AddComponentReplies(db, u, Some(parent), TagsOf(db, parent));
    case DoRemove(u, c) =>
      if c in db.components { SoftDeleteReplies(db, c); }
      assert NextContent(db, t) == Remove(db, u, c).db;
    case DoTakeDown(c, reason) =>
      if c in db.components { SoftDeleteReplies(db, c); }
      assert NextContent(db, t) == TakeDown(db, c, reason).db;
    case DoReplaceTags(u, c, draft, tags) =>
    case _ => CommentStepReplies(db, t);
  }

  lemma ContentForks(db: Db, t: ContentStep)
    requires IdsOk(db) && ForksOf(db)
    ensures ForksOf(NextContent(db, t))
  {
    ContentFrame(db, t);
    match t
    case DoCreate(u, tags, named) =>
      AddComponentForks(db, u, None, tags);
      assert NextContent(db, t) == CreateComponent(db, u, tags, named).db;
    case DoFork(u, parent, visible, ready) =>
      if parent in db.components { AddComponentForks(db, u, Some(parent), TagsOf(db, parent)); }
      assert NextContent(db, t) == ForkComponent(db, u, parent, visible, ready).db;
    case DoRemove(u, c) =>
      if c in db.components { ForksKeepOnSoftDelete(db.forks, db.components, c); }
      assert NextContent(db, t) == Remove(db, u, c).db;
    case DoTakeDown(c, reason) =>
      if c in db.components { ForksKeepOnSoftDelete(db.forks, db.components, c); }
      assert NextContent(db, t) == TakeDown(db, c, reason).db;
    case _ =>
  }

  lemma ContentAuthored(db: Db, t: ContentStep)
    requires IdsOk(db) && AuthoredOf(db)
    ensures AuthoredOf(NextContent(db, t))
  {
    ContentFrame(db, t);
    match t
    case DoCreate(u, tags, named) => if u in db.users { AddComponentAuthored(db, u, None, tags); }
    case DoFork(u, parent, visible, ready) =>
      if u in db.users { AddComponentAuthored(db, u, Some(parent), TagsOf(db, parent)); }
    case DoRemove(u, c) => if LiveComponent(db, c) { SoftDeleteAuthored(db, c); }
    case DoTakeDown(c, reason) => if LiveComponent(db, c) { SoftDeleteAuthored(db, c); }
    case _ =>
  }

  lemma ContentLabels(db: Db, t: ContentStep)
    requires IdsOk(db) && LabelsOf(db)
    ensures LabelsOf(NextContent(db, t))
  {
    ContentFrame(db, t);
    match t
    case DoCreate(u, tags, named) => AddComponentLabels(db, u, None, tags);
    case DoFork(u, parent, visible, ready) => AddComponentLabels(db, u, Some(parent), TagsOf(db, parent));
    case DoReplaceTags(u, c, draft, tags) => ReplaceTagsLabels(db, u, c, draft, tags);
    case _ =>
  }

  lemma ContentKeeps(db: Db, t: ContentStep)
    requires Inv(db)
    ensures Inv(NextContent(db, t))
  {
    ContentIds(db, t);
    ContentReactions(db, t);
    ContentItems(db, t);
    ContentReplies(db, t);
    ContentForks(db, t);
    ContentAuthored(db, t);
    ContentLabels(db, t);
    ContentFrame(db, t);
  }

  // Collection steps.

  lemma ShelfFrame(db: Db, k: ShelfStep)
    ensures var db' := NextShelf(db, k);
      SamePeople(db, db') && SameReactions(db, db') && SameReplies(db, db') && SameForks(db, db')
      && SameAuthored(db, db') && SameLabels(db, db')
  {
  }

  lemma ShelfItems(db: Db, k: ShelfStep)
    requires IdsOk(db) && ItemsOf(db)
    ensures IdsOk(NextShelf(db, k)) && ItemsOf(NextShelf(db, k))
  {
    match k
    case DoCreateCollection(u) => CollectionItems(db, u, 0);
    case DoRemoveCollection(u, k) => CollectionItems(db, u, k);
    case DoAddItem(u, k, c) => ItemItems(db, u, k, c);
    case DoRemoveItem(u, k, c) => ItemItems(db, u, k, c);
  }

  lemma ShelfKeeps(db: Db, k: ShelfStep)
    requires Inv(db)
    ensures Inv(NextShelf(db, k))
  {
    ShelfItems(db, k);
    ShelfFrame(db, k);
  }

  // Bulk steps.

  lemma EraseKeeps(db: Db, u: Id)
    requires Inv(db)
    ensures Inv(Erase(db, u).db)
  {
    EraseReactions(db, u);
    EraseFollows(db, u);
    EraseItems(db, u);
    EraseAuthored(db, u);
  }

  lemma PurgeComponentsKeeps(db: Db, expired: set<Id>)
    requires Inv(db)
    ensures Inv(PurgeComponents(db, expired))
  {
    PurgeReactions(db, expired);
    PurgeItems(db, expired);
    PurgeReplies(db, expired);
    ForksPurged(db.forks, db.components, SoftDeleted(db.components, expired));
    AuthoredPurged(db.authored, db.components, db.users.Keys, SoftDeleted(db.components, expired));
    PurgeLabels(db, expired);
  }

  lemma BulkKeeps(db: Db, b: BulkStep)
    requires Inv(db)
    ensures Inv(NextBulk(db, b))
  {
    match b
    case DoErase(u) => EraseKeeps(db, u);
    case DoPurgeComponents(expired) => PurgeComponentsKeeps(db, expired);
    case DoPurgeComments(expired) => PurgeReplies(db, expired);
  }

  lemma StepKeeps(db: Db, step: Step)
    requires Inv(db)
    ensures Inv(Next(db, step))
  {
    match step
    case Social(s) => SocialKeeps(db, s); assert Next(db, step) == NextSocial(db, s);
    case Content(t) => ContentKeeps(db, t); assert Next(db, step) == NextContent(db, t);
    case Shelf(k) => ShelfKeeps(db, k); assert Next(db, step) == NextShelf(db, k);
    case Bulk(b) => BulkKeeps(db, b); assert Next(db, step) == NextBulk(db, b);
  }

  // Over all runs: every counter equals its rows plus the rows it was never told about,
  // authors' component counts are exact, and no follow crosses a block.
  lemma {:induction false} RunKeeps(steps: seq<Step>)
    ensures Inv(Run(steps))
  {
    if steps != [] {
      RunKeeps(steps[..|steps| - 1]);
      StepKeeps(Run(steps[..|steps| - 1]), steps[|steps| - 1]);
    }
  }
}
