/** The social ledger: likes, favorites, follows, blocks, comments, forks, collections and
  * tags, the counters kept beside them, and the two steps that delete rows in bulk. Every
  * transaction is one step. */
module Ledger {
  import opened Basics
  import opened Relations
  import Text

  // Ids are creation ordinals: a row refers only to rows created before it.
  datatype Component = Component(author: Id, deleted: bool, forkedFrom: Option<Id>)

  datatype Comment = Comment(component: Id, author: Id, parent: Option<Id>, deleted: bool)

  datatype Collection = Collection(owner: Id, deleted: bool)

  datatype Db = Db(
    next: Id,
    users: map<Id, bool>,               // id to "soft-deleted"
    components: map<Id, Component>,
    comments: map<Id, Comment>,
    collections: map<Id, Collection>,
    blocks: set<(Id, Id)>,              // (blocker, blocked)
    likes: Relation,                    // (component, user)
    favorites: Relation,                // (component, user)
    followers: Relation,                // (followee, follower)
    following: Relation,                // (follower, followee): the same rows
    replies: Relation,                  // (component, live comment)
    forks: Relation,                    // (parent, fork)
    authored: Relation,                 // (author, live component)
    items: Relation,                    // (collection, component)
    labels: Relation)                   // (tag, component)

  const EMPTY := Db(0, map[], map[], map[], map[], {}, NO_ROWS, NO_ROWS, NO_ROWS, NO_ROWS,
                    NO_ROWS, NO_ROWS, NO_ROWS, NO_ROWS, NO_ROWS)

  datatype Reply = Reply(db: Db, result: Result<()>)

  predicate LiveUser(db: Db, u: Id) { u in db.users && !db.users[u] }

  predicate LiveComponent(db: Db, c: Id) { c in db.components && !db.components[c].deleted }

  function Done(db: Db): Reply { Reply(db, Ok(())) }

  function Fail(db: Db, e: Error): Reply { Reply(db, Err(e)) }

  // ── Social ─────────────────────────────────────────────────────────────────

  // A user the foreign key does not know is a conflict, like any violated constraint.
  function LikeError(db: Db, u: Id, c: Id): Option<Error> {
    if !LiveComponent(db, c) then Some(NotFound)
    else if BlockedEitherWay(db.blocks, u, db.components[c].author) then Some(NotFound)
    else if u !in db.users then Some(Conflict)
    else None
  }

  function Like(db: Db, u: Id, c: Id): Reply {
    var err := LikeError(db, u, c);
    if err.Some? then Fail(db, err.value)
    else Done(if (c, u) in db.likes.edges then db else db.(likes := Insert(db.likes, (c, u))))
  }

  function Unlike(db: Db, u: Id, c: Id): Reply { Done(db.(likes := Delete(db.likes, (c, u)))) }

  function Favorite(db: Db, u: Id, c: Id): Reply {
    var err := LikeError(db, u, c);
    if err.Some? then Fail(db, err.value)
    else Done(if (c, u) in db.favorites.edges then db else db.(favorites := Insert(db.favorites, (c, u))))
  }

  function Unfavorite(db: Db, u: Id, c: Id): Reply { Done(db.(favorites := Delete(db.favorites, (c, u)))) }

  function Follow(db: Db, a: Id, b: Id): Reply {
    if a == b then Fail(db, BadRequest)
    else if !LiveUser(db, b) then Fail(db, NotFound)
    else if BlockedEitherWay(db.blocks, a, b) then Fail(db, NotFound)
    else if a !in db.users then Fail(db, Conflict)
    else if (a, b) in db.following.edges then Done(db)
    else Done(db.(following := Insert(db.following, (a, b)), followers := Insert(db.followers, (b, a))))
  }

  function DropFollow(db: Db, a: Id, b: Id): Db {
    if (a, b) in db.following.edges
    then db.(following := Delete(db.following, (a, b)), followers := Take(db.followers, (b, a)))
    else db
  }

  function Unfollow(db: Db, a: Id, b: Id): Reply { Done(DropFollow(db, a, b)) }

  // ── Moderation ─────────────────────────────────────────────────────────────

  function Block(db: Db, a: Id, b: Id): Reply {
    if a == b then Fail(db, BadRequest)
    else if !LiveUser(db, b) then Fail(db, NotFound)
    else if a !in db.users then Fail(db, Conflict)
    else if (a, b) in db.blocks then Done(db)   // unique index: already blocked
    else Done(DropFollow(DropFollow(db.(blocks := db.blocks + {(a, b)}), a, b), b, a))
  }

  function Unblock(db: Db, a: Id, b: Id): Reply { Done(db.(blocks := db.blocks - {(a, b)})) }

  // ── Components and tags ────────────────────────────────────────────────────

  function AddComponent(db: Db, u: Id, forkedFrom: Option<Id>, tags: set<Id>): Db {
    var c := db.next;
    db.(next := c + 1,
        components := db.components[c := Component(u, false, forkedFrom)],
        likes := AddKey(db.likes, c), favorites := AddKey(db.favorites, c),
        replies := AddKey(db.replies, c),
        forks := if forkedFrom.Some? then Insert(AddKey(db.forks, c), (forkedFrom.value, c)) else AddKey(db.forks, c),
        authored := Insert(db.authored, (u, c)),
        labels := if tags == {} then db.labels else Attach(db.labels, tags, c))
  }

  // `named`: one of the five slug candidates is free.
  function CreateComponent(db: Db, u: Id, tags: set<Id>, named: bool): Reply {
    if u !in db.users then Fail(db, Conflict)
    else if !named then Fail(db, BadRequest)
    else Done(AddComponent(db, u, None, tags))
  }

  function TagsOf(db: Db, c: Id): set<Id> { set e | e in db.labels.edges && e.1 == c :: e.0 }

  // `visible`: public or own, and not a draft. `ready`: there is a version to copy and a free
  // slug candidate.
  function ForkComponent(db: Db, u: Id, parent: Id, visible: bool, ready: bool): Reply {
    if !LiveComponent(db, parent) || !visible then Fail(db, NotFound)
    else if BlockedEitherWay(db.blocks, u, db.components[parent].author) then Fail(db, NotFound)
    else if u !in db.users then Fail(db, Conflict)
    else if !ready then Fail(db, BadRequest)
    else Done(AddComponent(db, u, Some(parent), TagsOf(db, parent)))
  }

  function SoftDelete(db: Db, c: Id): Db
    requires c in db.components
  {
    var row := db.components[c];
    db.(components := db.components[c := row.(deleted := true)], authored := Take(db.authored, (row.author, c)))
  }

  function Remove(db: Db, u: Id, c: Id): Reply {
    if !LiveComponent(db, c) || db.components[c].author != u then Fail(db, NotFound) else Done(SoftDelete(db, c))
  }

  // A moderator's removal: a blank reason makes the audit entry, and with it the
  // transaction, fail.
  function TakeDown(db: Db, c: Id, reason: string): Reply {
    if !LiveComponent(db, c) then Fail(db, NotFound)
    else if Text.Blank(reason) then Fail(db, BadRequest)
    else Done(SoftDelete(db, c))
  }

  // Draft tags: the old rows go without their usage being given back.
  function ReplaceTags(db: Db, u: Id, c: Id, draft: bool, tags: set<Id>): Reply {
    if !LiveComponent(db, c) || db.components[c].author != u then Fail(db, NotFound)
    else if !draft then Fail(db, BadRequest)
    else
      var pruned := Prune(db.labels, set e | e in db.labels.edges && e.1 == c);
      Done(db.(labels := if tags == {} then pruned else Attach(pruned, tags, c)))
  }

  // ── Comments ───────────────────────────────────────────────────────────────

  function AddComment(db: Db, u: Id, c: Id, parent: Option<Id>): Reply {
    if !LiveComponent(db, c) then Fail(db, NotFound)
    else if u !in db.users || (parent.Some? && parent.value !in db.comments) then Fail(db, Conflict)
    else
      var m := db.next;
      Done(db.(next := m + 1, comments := db.comments[m := Comment(c, u, parent, false)],
               replies := Insert(db.replies, (c, m))))
  }

  function HideComment(db: Db, m: Id): Db
    requires m in db.comments
  {
    var row := db.comments[m];
    db.(comments := db.comments[m := row.(deleted := true)], replies := Take(db.replies, (row.component, m)))
  }

  function RemoveComment(db: Db, u: Id, m: Id): Reply {
    if m !in db.comments || db.comments[m].deleted || db.comments[m].author != u then Fail(db, NotFound)
    else Done(HideComment(db, m))
  }

  function TakeDownComment(db: Db, m: Id, reason: string): Reply {
    if m !in db.comments || db.comments[m].deleted then Fail(db, NotFound)
    else if Text.Blank(reason) then Fail(db, BadRequest)
    else Done(HideComment(db, m))
  }

  // ── Collections ────────────────────────────────────────────────────────────

  function CreateCollection(db: Db, u: Id): Reply {
    if u !in db.users then Fail(db, Conflict)
    else Done(db.(next := db.next + 1, collections := db.collections[db.next := Collection(u, false)],
                  items := AddKey(db.items, db.next)))
  }

  function OwnCollectionError(db: Db, u: Id, k: Id): Option<Error> {
    if k !in db.collections || db.collections[k].deleted then Some(NotFound)
    else if db.collections[k].owner != u then Some(Forbidden)
    else None
  }

  // The component need only exist: a soft-deleted one satisfies the foreign key.
  function AddItem(db: Db, u: Id, k: Id, c: Id): Reply {
    var err := OwnCollectionError(db, u, k);
    if err.Some? then Fail(db, err.value)
    else if (k, c) in db.items.edges then Done(db)
    else if c !in db.components then Fail(db, Conflict)
    else Done(db.(items := Insert(db.items, (k, c))))
  }

  function RemoveItem(db: Db, u: Id, k: Id, c: Id): Reply {
    var err := OwnCollectionError(db, u, k);
    if err.Some? then Fail(db, err.value) else Done(db.(items := Delete(db.items, (k, c))))
  }

  function RemoveCollection(db: Db, u: Id, k: Id): Reply {
    var err := OwnCollectionError(db, u, k);
    if err.Some? then Fail(db, err.value)
    else Done(db.(collections := db.collections[k := db.collections[k].(deleted := true)]))
  }

  // ── Bulk deletions ─────────────────────────────────────────────────────────

  function Touching(edges: set<(Id, Id)>, u: Id): set<(Id, Id)> { set e | e in edges && (e.0 == u || e.1 == u) }

  function EndingIn(edges: set<(Id, Id)>, xs: set<Id>): set<(Id, Id)> { set e | e in edges && e.1 in xs }

  function OwnedBy(collections: map<Id, Collection>, u: Id): set<Id> {
    set k | k in collections && collections[k].owner == u
  }

  // Erasure deletes what the user did in private and no counter follows.
  function Erase(db: Db, u: Id): Reply {
    if !LiveUser(db, u) then Fail(db, NotFound)
    else
      var owned := OwnedBy(db.collections, u);
      Done(db.(users := db.users[u := true],
               likes := Prune(db.likes, EndingIn(db.likes.edges, {u})),
               favorites := Prune(db.favorites, EndingIn(db.favorites.edges, {u})),
               following := Prune(db.following, Touching(db.following.edges, u)),
               followers := Prune(db.followers, Touching(db.followers.edges, u)),
               blocks := db.blocks - Touching(db.blocks, u),
               items := DropKeys(db.items, owned),
               collections := db.collections - owned))
  }

  // ON DELETE CASCADE along parentId.
  predicate Doomed(comments: map<Id, Comment>, direct: set<Id>, m: Id)
    decreases m
  {
    m in comments
    && (m in direct || (comments[m].parent.Some? && comments[m].parent.value < m
                        && Doomed(comments, direct, comments[m].parent.value)))
  }

  function Cascade(comments: map<Id, Comment>, direct: set<Id>): set<Id> {
    set m | m in comments && Doomed(comments, direct, m)
  }

  function DropComments(db: Db, direct: set<Id>): Db {
    var doomed := Cascade(db.comments, direct);
    db.(comments := db.comments - doomed, replies := Prune(db.replies, EndingIn(db.replies.edges, doomed)))
  }

  function CommentsOn(comments: map<Id, Comment>, cs: set<Id>): set<Id> {
    set m | m in comments && comments[m].component in cs
  }

  // The remaining components: ON DELETE SET NULL on the fork link.
  function Orphan(components: map<Id, Component>, cs: set<Id>): map<Id, Component> {
    map c | c in components && c !in cs ::
      var row := components[c];
      if row.forkedFrom.Some? && row.forkedFrom.value in cs then row.(forkedFrom := None) else row
  }

  function SoftDeleted(components: map<Id, Component>, expired: set<Id>): set<Id> {
    set c | c in expired && c in components && components[c].deleted
  }

  // Hard deletion of soft-deleted components, with everything that cascades from them.
  function PurgeComponents(db: Db, expired: set<Id>): Db {
    var cs := SoftDeleted(db.components, expired);
    var db1 := DropComments(db, CommentsOn(db.comments, cs));
    db1.(components := Orphan(db.components, cs),
         likes := DropKeys(db.likes, cs), favorites := DropKeys(db.favorites, cs),
         replies := DropKeys(db1.replies, cs),
         forks := DropKeys(Prune(db.forks, EndingIn(db.forks.edges, cs)), cs),
         items := Prune(db.items, EndingIn(db.items.edges, cs)),
         labels := Prune(db.labels, EndingIn(db.labels.edges, cs)))
  }

  function HiddenComments(comments: map<Id, Comment>, expired: set<Id>): set<Id> {
    set m | m in expired && m in comments && comments[m].deleted
  }

  function PurgeComments(db: Db, expired: set<Id>): Db {
    DropComments(db, HiddenComments(db.comments, expired))
  }

  // ── Runs ───────────────────────────────────────────────────────────────────

  datatype SocialStep =
    | DoRegister
    | DoLike(u: Id, c: Id) | DoUnlike(u: Id, c: Id)
    | DoFavorite(u: Id, c: Id) | DoUnfavorite(u: Id, c: Id)
    | DoFollow(a: Id, b: Id) | DoUnfollow(a: Id, b: Id)
    | DoBlock(a: Id, b: Id) | DoUnblock(a: Id, b: Id)

  datatype ContentStep =
    | DoCreate(u: Id, tags: set<Id>, named: bool) | DoFork(u: Id, parent: Id, visible: bool, ready: bool)
    | DoRemove(u: Id, c: Id) | DoTakeDown(c: Id, reason: string)
    | DoReplaceTags(u: Id, c: Id, draft: bool, tags: set<Id>)
    | DoComment(u: Id, c: Id, reply: Option<Id>)
    | DoRemoveComment(u: Id, m: Id) | DoTakeDownComment(m: Id, reason: string)

  datatype ShelfStep =
    | DoCreateCollection(u: Id) | DoRemoveCollection(u: Id, k: Id)
    | DoAddItem(u: Id, k: Id, c: Id) | DoRemoveItem(u: Id, k: Id, c: Id)

  datatype BulkStep =
    | DoErase(u: Id)
    | DoPurgeComponents(expired: set<Id>) | DoPurgeComments(expired: set<Id>)

  datatype Step = Social(s: SocialStep) | Content(t: ContentStep) | Shelf(k: ShelfStep) | Bulk(b: BulkStep)

  function Register(db: Db): Db {
    db.(next := db.next + 1, users := db.users[db.next := false],
        followers := AddKey(db.followers, db.next), following := AddKey(db.following, db.next),
        authored := AddKey(db.authored, db.next))
  }

  function NextSocial(db: Db, step: SocialStep): Db {
    match step
    case DoRegister => Register(db)
    case DoLike(u, c) => Like(db, u, c).db
    case DoUnlike(u, c) => Unlike(db, u, c).db
    case DoFavorite(u, c) => Favorite(db, u, c).db
    case DoUnfavorite(u, c) => Unfavorite(db, u, c).db
    case DoFollow(a, b) => Follow(db, a, b).db
    case DoUnfollow(a, b) => Unfollow(db, a, b).db
    case DoBlock(a, b) => Block(db, a, b).db
    case DoUnblock(a, b) => Unblock(db, a, b).db
  }

  function NextContent(db: Db, step: ContentStep): Db {
    match step
    case DoCreate(u, tags, named) => CreateComponent(db, u, tags, named).db
    case DoFork(u, parent, visible, ready) => ForkComponent(db, u, parent, visible, ready).db
    case DoRemove(u, c) => Remove(db, u, c).db
    case DoTakeDown(c, reason) => TakeDown(db, c, reason).db
    case DoReplaceTags(u, c, draft, tags) => ReplaceTags(db, u, c, draft, tags).db
    case DoComment(u, c, reply) => AddComment(db, u, c, reply).db
    case DoRemoveComment(u, m) => RemoveComment(db, u, m).db
    case DoTakeDownComment(m, reason) => TakeDownComment(db, m, reason).db
  }

  function NextShelf(db: Db, step: ShelfStep): Db {
    match step
    case DoCreateCollection(u) => CreateCollection(db, u).db
    case DoRemoveCollection(u, k) => RemoveCollection(db, u, k).db
    case DoAddItem(u, k, c) => AddItem(db, u, k, c).db
    case DoRemoveItem(u, k, c) => RemoveItem(db, u, k, c).db
  }

  function NextBulk(db: Db, step: BulkStep): Db {
    match step
    case DoErase(u) => Erase(db, u).db
    case DoPurgeComponents(expired) => PurgeComponents(db, expired)
    case DoPurgeComments(expired) => PurgeComments(db, expired)
  }

  function Next(db: Db, step: Step): Db {
    match step
    case Social(s) => NextSocial(db, s)
    case Content(t) => NextContent(db, t)
    case Shelf(k) => NextShelf(db, k)
    case Bulk(b) => NextBulk(db, b)
  }

  function Run(steps: seq<Step>): Db {
    if steps == [] then EMPTY else Next(Run(steps[..|steps| - 1]), steps[|steps| - 1])
  }
}
