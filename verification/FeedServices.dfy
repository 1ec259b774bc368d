/** The feed, block and mute services over shared tables and the shared cache. */
module FeedServices {
  import opened Basics
  import opened Cache
  import Feed

  type Id = Feed.Id

  class FeedService {
    var live: set<Id>
    var posts: seq<Feed.Post>
    var ranking: seq<Feed.Post>
    var follows: set<(Id, Id)>
    var blocks: set<(Id, Id)>
    var mutes: set<(Id, Id)>
    const cache: CacheService<seq<Feed.Post>>

    constructor (cache: CacheService<seq<Feed.Post>>)
      ensures this.cache == cache && live == {} && posts == [] && ranking == []
      ensures follows == {} && blocks == {} && mutes == {}
    {
      this.cache := cache;
      live, posts, ranking, follows, blocks, mutes := {}, [], [], {}, {}, {};
    }

    function Snapshot(): Feed.World reads this, cache {
      Feed.World(live, posts, ranking, follows, blocks, mutes, cache.store)
    }

    method ForUser(user: Id, limit: nat, bytes: nat) returns (feed: seq<Feed.Post>)
      modifies cache
      ensures feed == Feed.ForUser(old(Snapshot()), user, limit)
      ensures Snapshot() == Feed.AfterForUser(old(Snapshot()), user, limit, bytes)
    {
      var loaded := Feed.FollowingFeed(Snapshot(), user, limit);
      var r := cache.Wrap(
        Feed.FollowingKey(user, limit), Some(loaded), bytes, FEED_TTL, [Feed.FeedTag(user)], true, true);
      feed := r.value;
    }

    method Trending(viewer: Option<Id>, limit: nat, bytes: nat) returns (feed: seq<Feed.Post>)
      modifies cache
      ensures feed == Feed.Trending(old(Snapshot()), viewer, limit)
      ensures Snapshot() == Feed.AfterTrending(old(Snapshot()), limit, bytes)
    {
      var loaded := Feed.TopFeed(Snapshot(), limit);
      var r := cache.Wrap(Feed.TrendingKey(limit), Some(loaded), bytes, FEED_TTL, [Feed.TRENDING_TAG], true, true);
      var results := r.value;
      if viewer.None? || viewer.value == [] || results == [] { return results; }
      var authorIds := Feed.Authors(results, viewer.value);
      if authorIds == {} { return results; }
      var blockedSet := Feed.BlockedAmong(blocks, viewer.value, authorIds);
      return Feed.Without(results, viewer.value, blockedSet);
    }

    method Block(blocker: Id, blocked: Id) returns (r: Result<()>)
      modifies this`blocks, this`follows, cache
      ensures Feed.Reply(Snapshot(), r) == Feed.Block(old(Snapshot()), blocker, blocked)
    {
      if blocker == blocked { return Err(BadRequest); }
      if blocked !in live { return Err(NotFound); }
      if (blocker, blocked) !in blocks {
        blocks := blocks + {(blocker, blocked)};
        follows := follows - {(blocker, blocked)};
        follows := follows - {(blocked, blocker)};
      }
      cache.InvalidateTags([Feed.FeedTag(blocker), Feed.FeedTag(blocked)], None);
      return Ok(());
    }

    method Unblock(blocker: Id, blocked: Id)
      modifies this`blocks
      ensures Snapshot() == Feed.Unblock(old(Snapshot()), blocker, blocked)
    {
      blocks := blocks - {(blocker, blocked)};
    }

    method Mute(muter: Id, muted: Id) returns (r: Result<()>)
      modifies this`mutes, cache
      ensures Feed.Reply(Snapshot(), r) == Feed.Mute(old(Snapshot()), muter, muted)
    {
      if muter == muted { return Err(BadRequest); }
      if muted !in live { return Err(NotFound); }
      if (muter, muted) in mutes { return Ok(()); }
      mutes := mutes + {(muter, muted)};
      cache.InvalidateTags([Feed.FeedTag(muter)], None);
      return Ok(());
    }

    method Unmute(muter: Id, muted: Id)
      modifies this`mutes, cache
      ensures Snapshot() == Feed.Unmute(old(Snapshot()), muter, muted)
    {
      mutes := mutes - {(muter, muted)};
      cache.InvalidateTags([Feed.FeedTag(muter)], None);
    }
  }
}
