/** Feeds: the cached following feed, the moderation steps that must drop it, and the
  * trending feed with its filter over a shared cache. */
module Feed {
  import opened Basics
  import opened Cache
  import Coverage

  const TRENDING_TAG := "feed:trending"

  type Id = string

  // User ids are uuids: no colon, so feed keys of different users never meet.
  predicate WellFormed(id: Id) { ':' !in id }

  datatype Post = Post(id: Id, author: Id, isPublic: bool, deleted: bool)

  datatype World = World(
    live: set<Id>,                // users not erased
    posts: seq<Post>,             // newest first
    ranking: seq<Post>,           // by score
    follows: set<(Id, Id)>,       // (follower, followee)
    blocks: set<(Id, Id)>,        // (blocker, blocked)
    mutes: set<(Id, Id)>,         // (muter, muted)
    cache: Store<seq<Post>>)

  datatype Reply = Reply(world: World, result: Result<()>)

  function Digits(n: nat): string {
    (if n < 10 then [] else Digits(n / 10)) + ["0123456789"[n % 10]]
  }

  const FEEDS := "feed:"

  function FollowingKey(user: Id, limit: nat): string { "feed:following:" + user + ":" + Digits(limit) }

  function TrendingKey(limit: nat): string { "feed:trending:" + Digits(limit) }

  function FeedTag(user: Id): string { "user:" + user + ":feed" }

  // ── Queries ────────────────────────────────────────────────────────────────

  // NOT EXISTS blocks either way, NOT EXISTS mutes by the viewer.
  predicate Hidden(w: World, viewer: Id, author: Id) {
    (viewer, author) in w.blocks || (author, viewer) in w.blocks || (viewer, author) in w.mutes
  }

  predicate Listed(p: Post) { p.isPublic && !p.deleted }

  function Take(posts: seq<Post>, limit: nat): seq<Post> { if |posts| <= limit then posts else posts[..limit] }

  function Following(w: World, viewer: Id, posts: seq<Post>): seq<Post> {
    if posts == [] then []
    else
      var p := posts[0];
      (if (viewer, p.author) in w.follows && Listed(p) && !Hidden(w, viewer, p.author) then [p] else [])
      + Following(w, viewer, posts[1..])
  }

  function FollowingFeed(w: World, viewer: Id, limit: nat): seq<Post> { Take(Following(w, viewer, w.posts), limit) }

  function AllListed(ranking: seq<Post>): seq<Post> {
    if ranking == [] then [] else (if Listed(ranking[0]) then [ranking[0]] else []) + AllListed(ranking[1..])
  }

  function TopFeed(w: World, limit: nat): seq<Post> { Take(AllListed(w.ranking), limit) }

  // ── Trending, filtered for one viewer ──────────────────────────────────────

  function Authors(posts: seq<Post>, viewer: Id): set<Id> { set p | p in posts && p.author != viewer :: p.author }

  // The other end of every block between the viewer and one of the authors.
  function BlockedAmong(blocks: set<(Id, Id)>, viewer: Id, authors: set<Id>): set<Id> {
    set b | b in blocks && ((b.0 == viewer && b.1 in authors) || (b.1 == viewer && b.0 in authors)) ::
      if b.0 == viewer then b.1 else b.0
  }

  function Without(posts: seq<Post>, viewer: Id, blocked: set<Id>): seq<Post> {
    if posts == [] then []
    else
      (if posts[0].author == viewer || posts[0].author !in blocked then [posts[0]] else [])
      + Without(posts[1..], viewer, blocked)
  }

  function PostFilter(posts: seq<Post>, blocks: set<(Id, Id)>, viewer: Option<Id>): seq<Post> {
    if viewer.None? || viewer.value == [] || posts == [] then posts
    else
      var authors := Authors(posts, viewer.value);
      if authors == {} then posts else Without(posts, viewer.value, BlockedAmong(blocks, viewer.value, authors))
  }

  // ── Steps ──────────────────────────────────────────────────────────────────

  function Wrapped(s: Store<seq<Post>>, key: string, loaded: seq<Post>): seq<Post> {
    if Lookup(s, key).Some? then Lookup(s, key).value else loaded
  }

  function Cached(s: Store<seq<Post>>, key: string, loaded: seq<Post>, bytes: nat, tag: string): Store<seq<Post>> {
    if Lookup(s, key).Some? then s else Put(s, key, loaded, bytes, FEED_TTL, [tag])
  }

  function ForUser(w: World, user: Id, limit: nat): seq<Post> {
    Wrapped(w.cache, FollowingKey(user, limit), FollowingFeed(w, user, limit))
  }

  function Trending(w: World, viewer: Option<Id>, limit: nat): seq<Post> {
    PostFilter(Wrapped(w.cache, TrendingKey(limit), TopFeed(w, limit)), w.blocks, viewer)
  }

  function AfterForUser(w: World, user: Id, limit: nat, bytes: nat): World {
    w.(cache := Cached(w.cache, FollowingKey(user, limit), FollowingFeed(w, user, limit), bytes, FeedTag(user)))
  }

  function AfterTrending(w: World, limit: nat, bytes: nat): World {
    w.(cache := Cached(w.cache, TrendingKey(limit), TopFeed(w, limit), bytes, TRENDING_TAG))
  }

  // Blocking again changes no row, and drops both feeds all the same.
  function Block(w: World, a: Id, b: Id): Reply {
    if a == b then Reply(w, Err(BadRequest))
    else if b !in w.live then Reply(w, Err(NotFound))
    else
      var w' := if (a, b) in w.blocks then w
                else w.(blocks := w.blocks + {(a, b)}, follows := w.follows - {(a, b), (b, a)});
      Reply(w'.(cache := Invalidate(w.cache, [FeedTag(a), FeedTag(b)])), Ok(()))
  }

  function Unblock(w: World, a: Id, b: Id): World { w.(blocks := w.blocks - {(a, b)}) }

  // Muting again returns before the invalidation.
  function Mute(w: World, a: Id, b: Id): Reply {
    if a == b then Reply(w, Err(BadRequest))
    else if b !in w.live then Reply(w, Err(NotFound))
    else if (a, b) in w.mutes then Reply(w, Ok(()))
    else Reply(w.(mutes := w.mutes + {(a, b)}, cache := Invalidate(w.cache, [FeedTag(a)])), Ok(()))
  }

  function Unmute(w: World, a: Id, b: Id): World {
    w.(mutes := w.mutes - {(a, b)}, cache := Invalidate(w.cache, [FeedTag(a)]))
  }

  function Untouched(pairs: set<(Id, Id)>, u: Id): set<(Id, Id)> { set e | e in pairs && e.0 != u && e.1 != u }

  // The erasure's part in this: relations of the user go, and so does their feed.
  function Erase(w: World, u: Id): World {
    w.(live := w.live - {u},
       follows := Untouched(w.follows, u), blocks := Untouched(w.blocks, u), mutes := Untouched(w.mutes, u),
       cache := Invalidate(w.cache, [FeedTag(u), TRENDING_TAG]))
  }

  datatype Step =
    | DoJoin(u: Id)
    | DoPosts(posts: seq<Post>, ranking: seq<Post>)   // whatever happens to components
    | DoFollows(follows: set<(Id, Id)>)               // whatever happens to follows
    | DoDropTrending
    | DoBlock(a: Id, b: Id) | DoUnblock(a: Id, b: Id)
    | DoMute(a: Id, b: Id) | DoUnmute(a: Id, b: Id)
    | DoErase(u: Id)
    | DoForUser(user: Id, limit: nat, bytes: nat) | DoTrending(limit: nat, bytes: nat)
    | Evict(key: string)
    | Elsewhere(op: Coverage.Op<seq<Post>>)           // other services in the same Redis
    | Tick(elapsed: nat)

  // Ids are well formed, and only feed entries are evicted.
  predicate Allowed(step: Step) {
    match step
    case DoBlock(a, b) => WellFormed(a) && WellFormed(b)
    case DoMute(a, b) => WellFormed(a) && WellFormed(b)
    case DoForUser(user, _, _) => WellFormed(user)
    case Evict(key) => Plain(key)
    case _ => true
  }

  function Next(w: World, step: Step): World {
    match step
    case DoJoin(u) => w.(live := w.live + {u})
    case DoPosts(posts, ranking) => w.(posts := posts, ranking := ranking)
    case DoFollows(follows) => w.(follows := follows)
    case DoDropTrending => w.(cache := Invalidate(w.cache, [TRENDING_TAG]))
    case DoBlock(a, b) => Block(w, a, b).world
    case DoUnblock(a, b) => Unblock(w, a, b)
    case DoMute(a, b) => Mute(w, a, b).world
    case DoUnmute(a, b) => Unmute(w, a, b)
    case DoErase(u) => Erase(w, u)
    case DoForUser(user, limit, bytes) => AfterForUser(w, user, limit, bytes)
    case DoTrending(limit, bytes) => AfterTrending(w, limit, bytes)
    case Evict(key) => w.(cache := Delete(w.cache, [key]))
    case Elsewhere(op) =>
      if Coverage.Foreign(op, FEEDS) then w.(cache := Coverage.Apply(w.cache, op)) else w
    case Tick(elapsed) => w.(cache := w.cache.(now := w.cache.now + elapsed))
  }

  function Start(now: int): World { World({}, [], [], {}, {}, {}, Store(map[], now)) }

  function Run(start: World, steps: seq<Step>): World {
    if steps == [] then start else Next(Run(start, steps[..|steps| - 1]), steps[|steps| - 1])
  }
}
