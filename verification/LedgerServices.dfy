/** The services of the social ledger, statement by statement over shared mutable tables.
  * Each method is one transaction: what it does to the tables is the step of that name in
  * `Ledger`. */
module LedgerServices {
  import opened Basics
  import opened Relations
  import Ledger
  import Text

  class Database {
    var next: Id
    var users: map<Id, bool>
    var components: map<Id, Ledger.Component>
    var comments: map<Id, Ledger.Comment>
    var collections: map<Id, Ledger.Collection>
    var blocks: set<(Id, Id)>
    var likes: Relation
    var favorites: Relation
    var followers: Relation
    var following: Relation
    var replies: Relation
    var forks: Relation
    var authored: Relation
    var items: Relation
    var labels: Relation

    constructor ()
      ensures Snapshot() == Ledger.EMPTY
    {
      next, users, components, comments, collections, blocks := 0, map[], map[], map[], map[], {};
      likes, favorites, followers, following, replies := NO_ROWS, NO_ROWS, NO_ROWS, NO_ROWS, NO_ROWS;
      forks, authored, items, labels := NO_ROWS, NO_ROWS, NO_ROWS, NO_ROWS;
    }

    function Snapshot(): Ledger.Db reads this {
      Ledger.Db(next, users, components, comments, collections, blocks, likes, favorites, followers, following,
                replies, forks, authored, items, labels)
    }

    predicate LiveUser(u: Id) reads this { u in users && !users[u] }

    predicate LiveComponent(c: Id) reads this { c in components && !components[c].deleted }
  }

  class BlocksService {
    const db: Database

    constructor (db: Database) ensures this.db == db { this.db := db; }

    method IsBlockedEitherWay(viewer: Id, author: Id) returns (blocked: bool)
      ensures blocked == BlockedEitherWay(db.blocks, viewer, author)
    {
      if viewer == author { return false; }
      blocked := exists row | row in db.blocks :: row == (viewer, author) || row == (author, viewer);
      assert blocked <==> (viewer, author) in db.blocks || (author, viewer) in db.blocks;
    }

    // Not found, and not allowed to be found, look the same.
    method Target(u: Id, c: Id) returns (r: Result<()>)
      ensures r == var err := Ledger.LikeError(db.Snapshot(), u, c); if err.Some? then Err(err.value) else Ok(())
    {
      if !db.LiveComponent(c) { return Err(NotFound); }
      var author := db.components[c].author;
      if author != u {
        var hidden := IsBlockedEitherWay(u, author);
        if hidden { return Err(NotFound); }
      }
      if u !in db.users { return Err(Conflict); }
      return Ok(());
    }

    method Block(blocker: Id, blocked: Id) returns (r: Result<()>)
      modifies db`blocks, db`following, db`followers
      ensures Ledger.Reply(db.Snapshot(), r) == Ledger.Block(old(db.Snapshot()), blocker, blocked)
    {
      if blocker == blocked { return Err(BadRequest); }
      if !db.LiveUser(blocked) { return Err(NotFound); }
      if blocker !in db.users { return Err(Conflict); }
      if (blocker, blocked) in db.blocks { return Ok(()); }
      db.blocks := db.blocks + {(blocker, blocked)};
      RemoveFollow(blocker, blocked);
      RemoveFollow(blocked, blocker);
      return Ok(());
    }

    method RemoveFollow(follower: Id, followee: Id)
      modifies db`following, db`followers
      ensures db.Snapshot() == Ledger.DropFollow(old(db.Snapshot()), follower, followee)
    {
      var affected := (follower, followee) in db.following.edges;
      if affected {
        db.following := db.following.(edges := db.following.edges - {(follower, followee)});
        db.followers := db.followers.(edges := db.followers.edges - {(followee, follower)});
        db.following := Bump(db.following, follower, -1);
        db.followers := Bump(db.followers, followee, -1);
      }
    }

    method Unblock(blocker: Id, blocked: Id)
      modifies db`blocks
      ensures db.Snapshot() == Ledger.Unblock(old(db.Snapshot()), blocker, blocked).db
    {
      db.blocks := db.blocks - {(blocker, blocked)};
    }
  }

  class SocialService {
    const db: Database
    const moderation: BlocksService

    constructor (db: Database, moderation: BlocksService)
      requires moderation.db == db
      ensures this.db == db && this.moderation == moderation
    {
      this.db, this.moderation := db, moderation;
    }

    method Like(u: Id, c: Id) returns (r: Result<()>)
      requires moderation.db == db
      modifies db`likes
      ensures Ledger.Reply(db.Snapshot(), r) == Ledger.Like(old(db.Snapshot()), u, c)
    {
      r := moderation.Target(u, c);
      if r.Err? || (c, u) in db.likes.edges { return; }
      db.likes := db.likes.(edges := db.likes.edges + {(c, u)});
      db.likes := Bump(db.likes, c, 1);
    }

    method Unlike(u: Id, c: Id)
      modifies db`likes
      ensures db.Snapshot() == Ledger.Unlike(old(db.Snapshot()), u, c).db
    {
      var affected := (c, u) in db.likes.edges;
      if affected {
        db.likes := db.likes.(edges := db.likes.edges - {(c, u)});
        db.likes := Bump(db.likes, c, -1);
      }
    }

    method Favorite(u: Id, c: Id) returns (r: Result<()>)
      requires moderation.db == db
      modifies db`favorites
      ensures Ledger.Reply(db.Snapshot(), r) == Ledger.Favorite(old(db.Snapshot()), u, c)
    {
      r := moderation.Target(u, c);
      if r.Err? || (c, u) in db.favorites.edges { return; }
      db.favorites := db.favorites.(edges := db.favorites.edges + {(c, u)});
      db.favorites := Bump(db.favorites, c, 1);
    }

    method Unfavorite(u: Id, c: Id)
      modifies db`favorites
      ensures db.Snapshot() == Ledger.Unfavorite(old(db.Snapshot()), u, c).db
    {
      var affected := (c, u) in db.favorites.edges;
      if affected {
        db.favorites := db.favorites.(edges := db.favorites.edges - {(c, u)});
        db.favorites := Bump(db.favorites, c, -1);
      }
    }

    method Follow(follower: Id, followee: Id) returns (r: Result<()>)
      requires moderation.db == db
      modifies db`following, db`followers
      ensures Ledger.Reply(db.Snapshot(), r) == Ledger.Follow(old(db.Snapshot()), follower, followee)
    {
      if follower == followee { return Err(BadRequest); }
      if !db.LiveUser(followee) { return Err(NotFound); }
      var hidden := moderation.IsBlockedEitherWay(follower, followee);
      if hidden { return Err(NotFound); }
      if follower !in db.users { return Err(Conflict); }
      if (follower, followee) in db.following.edges { return Ok(()); }
      db.following := db.following.(edges := db.following.edges + {(follower, followee)});
      db.followers := db.followers.(edges := db.followers.edges + {(followee, follower)});
      db.following := Bump(db.following, follower, 1);
      db.followers := Bump(db.followers, followee, 1);
      return Ok(());
    }

    method Unfollow(follower: Id, followee: Id)
      requires moderation.db == db
      modifies db`following, db`followers
      ensures db.Snapshot() == Ledger.Unfollow(old(db.Snapshot()), follower, followee).db
    {
      moderation.RemoveFollow(follower, followee);
    }
  }

  class CommentsService {
    const db: Database

    constructor (db: Database) ensures this.db == db { this.db := db; }

    method Create(u: Id, c: Id, parent: Option<Id>) returns (r: Result<()>)
      modifies db`next, db`comments, db`replies
      ensures Ledger.Reply(db.Snapshot(), r) == Ledger.AddComment(old(db.Snapshot()), u, c, parent)
    {
      if !db.LiveComponent(c) { return Err(NotFound); }
      if u !in db.users || (parent.Some? && parent.value !in db.comments) { return Err(Conflict); }
      var saved := db.next;
      db.next := db.next + 1;
      db.comments := db.comments[saved := Ledger.Comment(c, u, parent, false)];
      db.replies := db.replies.(edges := db.replies.edges + {(c, saved)});
      db.replies := Bump(db.replies, c, 1);
      return Ok(());
    }

    method Hide(m: Id)
      requires m in db.comments
      modifies db`comments, db`replies
      ensures db.Snapshot() == Ledger.HideComment(old(db.Snapshot()), m)
    {
      var row := db.comments[m];
      db.comments := db.comments[m := row.(deleted := true)];
      db.replies := db.replies.(edges := db.replies.edges - {(row.component, m)});
      db.replies := Bump(db.replies, row.component, -1);
    }

    method Remove(u: Id, m: Id) returns (r: Result<()>)
      modifies db`comments, db`replies
      ensures Ledger.Reply(db.Snapshot(), r) == Ledger.RemoveComment(old(db.Snapshot()), u, m)
    {
      if m !in db.comments || db.comments[m].deleted || db.comments[m].author != u { return Err(NotFound); }
      Hide(m);
      return Ok(());
    }

    // The moderators' removal.
    method Delete(m: Id, reason: string) returns (r: Result<()>)
      modifies db`comments, db`replies
      ensures Ledger.Reply(db.Snapshot(), r) == Ledger.TakeDownComment(old(db.Snapshot()), m, reason)
    {
      if m !in db.comments || db.comments[m].deleted { return Err(NotFound); }
      if Text.Blank(reason) { return Err(BadRequest); }
      Hide(m);
      return Ok(());
    }
  }

  class CollectionsService {
    const db: Database

    constructor (db: Database) ensures this.db == db { this.db := db; }

    method LoadOwned(u: Id, k: Id) returns (r: Result<()>)
      ensures r == var err := Ledger.OwnCollectionError(db.Snapshot(), u, k);
                   if err.Some? then Err(err.value) else Ok(())
    {
      if k !in db.collections || db.collections[k].deleted { return Err(NotFound); }
      if db.collections[k].owner != u { return Err(Forbidden); }
      return Ok(());
    }

    method AddComponent(u: Id, k: Id, c: Id) returns (r: Result<()>)
      modifies db`items
      ensures Ledger.Reply(db.Snapshot(), r) == Ledger.AddItem(old(db.Snapshot()), u, k, c)
    {
      r := LoadOwned(u, k);
      if r.Err? || (k, c) in db.items.edges { return; }
      if c !in db.components { return Err(Conflict); }
      db.items := db.items.(edges := db.items.edges + {(k, c)});
      db.items := Bump(db.items, k, 1);
    }

    method RemoveComponent(u: Id, k: Id, c: Id) returns (r: Result<()>)
      modifies db`items
      ensures Ledger.Reply(db.Snapshot(), r) == Ledger.RemoveItem(old(db.Snapshot()), u, k, c)
    {
      r := LoadOwned(u, k);
      if r.Err? { return; }
      var affected := (k, c) in db.items.edges;
      if affected {
        db.items := db.items.(edges := db.items.edges - {(k, c)});
        db.items := Bump(db.items, k, -1);
      }
    }

    method Remove(u: Id, k: Id) returns (r: Result<()>)
      modifies db`collections
      ensures Ledger.Reply(db.Snapshot(), r) == Ledger.RemoveCollection(old(db.Snapshot()), u, k)
    {
      r := LoadOwned(u, k);
      if r.Err? { return; }
      db.collections := db.collections[k := db.collections[k].(deleted := true)];
    }
  }

  class ComponentsService {
    const db: Database
    const moderation: BlocksService

    constructor (db: Database, moderation: BlocksService)
      requires moderation.db == db
      ensures this.db == db && this.moderation == moderation
    {
      this.db, this.moderation := db, moderation;
    }

    method InsertRow(u: Id, forkedFrom: Option<Id>) returns (c: Id)
      modifies db`next, db`components, db`likes, db`favorites, db`replies, db`forks
      ensures c == old(db.next) && db.next == c + 1
      ensures db.components == old(db.components)[c := Ledger.Component(u, false, forkedFrom)]
      ensures db.likes == AddKey(old(db.likes), c) && db.favorites == AddKey(old(db.favorites), c)
      ensures db.replies == AddKey(old(db.replies), c)
      ensures var forks := AddKey(old(db.forks), c);
              db.forks == if forkedFrom.Some? then forks.(edges := forks.edges + {(forkedFrom.value, c)}) else forks
    {
      c := db.next;
      db.next := db.next + 1;
      db.components := db.components[c := Ledger.Component(u, false, forkedFrom)];
      db.likes := AddKey(db.likes, c);
      db.favorites := AddKey(db.favorites, c);
      db.replies := AddKey(db.replies, c);
      db.forks := AddKey(db.forks, c);
      if forkedFrom.Some? { db.forks := db.forks.(edges := db.forks.edges + {(forkedFrom.value, c)}); }
    }

    // One insert for all the rows, which a unique violation leaves out as a whole, then one
    // increment over all the tags.
    method AttachTags(c: Id, tags: set<Id>)
      modifies db`labels
      ensures db.labels == if tags == {} then old(db.labels) else Attach(old(db.labels), tags, c)
    {
      if tags == {} { return; }
      var before := db.labels;
      var rows := Links(tags, c);
      var violated := exists e | e in rows :: e in before.edges;
      assert violated <==> !(rows !! before.edges);
      if !violated { db.labels := db.labels.(edges := before.edges + rows); }
      db.labels := db.labels.(counters := Attach(before, tags, c).counters);
    }

    method CountAuthored(u: Id, c: Id)
      modifies db`authored
      ensures db.authored == Insert(old(db.authored), (u, c))
    {
      db.authored := db.authored.(edges := db.authored.edges + {(u, c)});
      db.authored := Bump(db.authored, u, 1);
    }

    method Create(u: Id, tags: set<Id>, named: bool) returns (r: Result<()>)
      modifies db
      ensures Ledger.Reply(db.Snapshot(), r) == Ledger.CreateComponent(old(db.Snapshot()), u, tags, named)
    {
      if u !in db.users { return Err(Conflict); }
      if !named { return Err(BadRequest); }
      var c := InsertRow(u, None);
      AttachTags(c, tags);
      CountAuthored(u, c);
      return Ok(());
    }

    method Fork(u: Id, parent: Id, visible: bool, ready: bool) returns (r: Result<()>)
      requires moderation.db == db
      modifies db
      ensures Ledger.Reply(db.Snapshot(), r) == Ledger.ForkComponent(old(db.Snapshot()), u, parent, visible, ready)
    {
      if !db.LiveComponent(parent) || !visible { return Err(NotFound); }
      r := moderation.Target(u, parent);
      if r.Err? { return; }
      if !ready { return Err(BadRequest); }
      InsertFork(u, parent, Ledger.TagsOf(db.Snapshot(), parent));
    }

    method InsertFork(u: Id, parent: Id, tags: set<Id>)
      modifies db
      ensures db.Snapshot() == Ledger.AddComponent(old(db.Snapshot()), u, Some(parent), tags)
    {
      var c := InsertRow(u, Some(parent));
      AttachTags(c, tags);
      db.forks := Bump(db.forks, parent, 1);
      CountAuthored(u, c);
    }

    method SoftDelete(c: Id)
      requires c in db.components
      modifies db`components, db`authored
      ensures db.Snapshot() == Ledger.SoftDelete(old(db.Snapshot()), c)
    {
      var row := db.components[c];
      db.components := db.components[c := row.(deleted := true)];
      db.authored := db.authored.(edges := db.authored.edges - {(row.author, c)});
      db.authored := Bump(db.authored, row.author, -1);
    }

    method Remove(u: Id, c: Id) returns (r: Result<()>)
      modifies db`components, db`authored
      ensures Ledger.Reply(db.Snapshot(), r) == Ledger.Remove(old(db.Snapshot()), u, c)
    {
      if !db.LiveComponent(c) || db.components[c].author != u { return Err(NotFound); }
      SoftDelete(c);
      return Ok(());
    }

    // The moderators' removal.
    method Delete(c: Id, reason: string) returns (r: Result<()>)
      modifies db`components, db`authored
      ensures Ledger.Reply(db.Snapshot(), r) == Ledger.TakeDown(old(db.Snapshot()), c, reason)
    {
      if !db.LiveComponent(c) { return Err(NotFound); }
      if Text.Blank(reason) { return Err(BadRequest); }
      SoftDelete(c);
      return Ok(());
    }

    method ReplaceTags(u: Id, c: Id, draft: bool, tags: set<Id>) returns (r: Result<()>)
      modifies db`labels
      ensures Ledger.Reply(db.Snapshot(), r) == Ledger.ReplaceTags(old(db.Snapshot()), u, c, draft, tags)
    {
      if !db.LiveComponent(c) || db.components[c].author != u { return Err(NotFound); }
      if !draft { return Err(BadRequest); }
      db.labels := Prune(db.labels, set e | e in db.labels.edges && e.1 == c);
      AttachTags(c, tags);
      return Ok(());
    }
  }

  class HousekeepingService {
    const db: Database

    constructor (db: Database) ensures this.db == db { this.db := db; }

    // Self-service erasure: private rows first, then the account itself.
    method DeleteAccount(u: Id) returns (r: Result<()>)
      modifies db`users, db`likes, db`favorites, db`following, db`followers, db`blocks, db`items, db`collections
      ensures Ledger.Reply(db.Snapshot(), r) == Ledger.Erase(old(db.Snapshot()), u)
    {
      if !db.LiveUser(u) { return Err(NotFound); }
      DeleteInteractions(u);
      DeleteCollections(u);
      db.users := db.users[u := true];
      return Ok(());
    }

    method DeleteInteractions(u: Id)
      modifies db`likes, db`favorites, db`following, db`followers, db`blocks
      ensures db.likes == Prune(old(db.likes), Ledger.EndingIn(old(db.likes.edges), {u}))
      ensures db.favorites == Prune(old(db.favorites), Ledger.EndingIn(old(db.favorites.edges), {u}))
      ensures db.following == Prune(old(db.following), Ledger.Touching(old(db.following.edges), u))
      ensures db.followers == Prune(old(db.followers), Ledger.Touching(old(db.followers.edges), u))
      ensures db.blocks == old(db.blocks) - Ledger.Touching(old(db.blocks), u)
    {
      db.likes := Prune(db.likes, Ledger.EndingIn(db.likes.edges, {u}));
      db.favorites := Prune(db.favorites, Ledger.EndingIn(db.favorites.edges, {u}));
      db.following := Prune(db.following, Ledger.Touching(db.following.edges, u));
      db.followers := Prune(db.followers, Ledger.Touching(db.followers.edges, u));
      db.blocks := db.blocks - Ledger.Touching(db.blocks, u);
    }

    method DeleteCollections(u: Id)
      modifies db`items, db`collections
      ensures db.items == DropKeys(old(db.items), Ledger.OwnedBy(old(db.collections), u))
      ensures db.collections == old(db.collections) - Ledger.OwnedBy(old(db.collections), u)
    {
      var owned := Ledger.OwnedBy(db.collections, u);
      db.items := db.items.(edges := set e | e in db.items.edges && e.0 !in owned);
      db.collections := db.collections - owned;
      db.items := db.items.(counters := db.items.counters - owned);
    }

    // Two statements: expired components with their cascades, then expired comments.
    method Purge(expiredComponents: set<Id>, expiredComments: set<Id>)
      modifies db
      ensures db.Snapshot() ==
              Ledger.PurgeComments(Ledger.PurgeComponents(old(db.Snapshot()), expiredComponents), expiredComments)
    {
      DeleteComponents(expiredComponents);
      DeleteComments(Ledger.HiddenComments(db.comments, expiredComments));
    }

    method DeleteComponents(expired: set<Id>)
      modifies db
      ensures db.Snapshot() == Ledger.PurgeComponents(old(db.Snapshot()), expired)
    {
      var gone := Ledger.SoftDeleted(db.components, expired);
      DeleteComments(Ledger.CommentsOn(db.comments, gone));
      db.likes := DropKeys(db.likes, gone);
      db.favorites := DropKeys(db.favorites, gone);
      db.replies := DropKeys(db.replies, gone);
      db.forks := DropKeys(Prune(db.forks, Ledger.EndingIn(db.forks.edges, gone)), gone);
      db.items := Prune(db.items, Ledger.EndingIn(db.items.edges, gone));
      db.labels := Prune(db.labels, Ledger.EndingIn(db.labels.edges, gone));
      db.components := Ledger.Orphan(db.components, gone);
    }

    // DELETE FROM comments: replies go with the comment they answer.
    method DeleteComments(direct: set<Id>)
      modifies db`comments, db`replies
      ensures db.Snapshot() == Ledger.DropComments(old(db.Snapshot()), direct)
    {
      var doomed := Ledger.Cascade(db.comments, direct);
      db.replies := Prune(db.replies, Ledger.EndingIn(db.replies.edges, doomed));
      db.comments := db.comments - doomed;
    }
  }
}
