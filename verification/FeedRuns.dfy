/** What readers of the feeds are never shown: in every reachable state the following feed,
  * cached or not, is free of blocked and muted authors, and the trending filter equals
  * asking about each row. */
module FeedRuns {
  import opened Basics
  import opened Cache
  import Coverage
  import opened Feed

  // ── The wall through the cache ─────────────────────────────────────────────

  predicate Clean(w: World, viewer: Id, posts: seq<Post>) {
    forall p | p in posts :: !Hidden(w, viewer, p.author)
  }

  predicate CleanEntry(w: World, viewer: Id, limit: nat) {
    var k := EntryKey(FollowingKey(viewer, limit));
    Live(w.cache, k) ==>
      && w.cache.cells[k].value.Blob?
      && FeedTag(viewer) in w.cache.cells[k].labels
      && Clean(w, viewer, w.cache.cells[k].value.payload)
  }

  ghost predicate Walled(w: World) {
    && Coverage.Inv(w.cache, TtlsOf)
    && forall viewer: Id, limit: nat | WellFormed(viewer) :: CleanEntry(w, viewer, limit)
  }

  lemma KeysArePlain(viewer: Id, limit: nat)
    ensures Plain(FollowingKey(viewer, limit)) && Plain(TrendingKey(limit))
  {
    assert FollowingKey(viewer, limit)[0] == 'f' && TrendingKey(limit)[0] == 'f' && "tag:"[0] == 't';
  }

  lemma PrefixUntilColon(a: Id, b: Id, x: string, y: string)
    requires WellFormed(a) && WellFormed(b) && a + ":" + x == b + ":" + y
    ensures a == b
  {
    var s := a + ":" + x;
    assert s[|a|] == ':' && s[|b|] == ':';
    assert a == s[..|a|] && b == s[..|b|];
    assert ':' !in s[..|a|] && ':' !in s[..|b|];
  }

  lemma FollowingKeyInjective(a: Id, b: Id, m: nat, n: nat)
    requires WellFormed(a) && WellFormed(b)
    ensures EntryKey(FollowingKey(a, m)) == EntryKey(FollowingKey(b, n)) ==> a == b
    ensures EntryKey(FollowingKey(a, m)) != EntryKey(TrendingKey(n))
  {
    var k, l := EntryKey(FollowingKey(a, m)), EntryKey(FollowingKey(b, n));
    assert k[21..] == a + ":" + Digits(m) && l[21..] == b + ":" + Digits(n);
    if k == l { PrefixUntilColon(a, b, Digits(m), Digits(n)); }
    assert k[11] == 'f' && EntryKey(TrendingKey(n))[11] == 't';
  }

  lemma FollowingIsClean(w: World, viewer: Id, posts: seq<Post>)
    ensures Clean(w, viewer, Following(w, viewer, posts))
  {
  }

  lemma FollowingFeedIsClean(w: World, viewer: Id, limit: nat)
    ensures Clean(w, viewer, FollowingFeed(w, viewer, limit))
  {
    FollowingIsClean(w, viewer, w.posts);
  }

  // More blocks or mutes, once the feeds they touch are dropped.
  lemma DropKeeps(w: World, w': World, tags: seq<string>)
    requires Walled(w) && w'.cache == Invalidate(w.cache, tags)
    requires forall viewer, author | Hidden(w', viewer, author) :: Hidden(w, viewer, author) || FeedTag(viewer) in tags
    ensures Walled(w')
  {
    Coverage.InvalidateKeeps(w.cache, TtlsOf, tags);
    forall viewer: Id, limit: nat | WellFormed(viewer) ensures CleanEntry(w', viewer, limit) {
      assert CleanEntry(w, viewer, limit);
    }
  }

  // Fewer blocks or mutes hide less.
  lemma LessHiddenKeeps(w: World, w': World)
    requires Walled(w) && w'.cache == w.cache && w'.blocks <= w.blocks && w'.mutes <= w.mutes
    ensures Walled(w')
  {
    forall viewer: Id, limit: nat | WellFormed(viewer) ensures CleanEntry(w', viewer, limit) {
      assert CleanEntry(w, viewer, limit);
    }
  }

  lemma ForUserKeeps(w: World, user: Id, limit: nat, bytes: nat)
    requires Walled(w) && WellFormed(user)
    ensures Walled(AfterForUser(w, user, limit, bytes))
  {
    var key := FollowingKey(user, limit);
    var w' := AfterForUser(w, user, limit, bytes);
    if Lookup(w.cache, key).None? && bytes <= MAX_PAYLOAD_BYTES {
      KeysArePlain(user, limit);
      assert FeedTag(user)[0] == 'u';
      Coverage.PutKeeps(w.cache, TtlsOf, key, FollowingFeed(w, user, limit), bytes, FEED_TTL, [FeedTag(user)]);
      FollowingFeedIsClean(w, user, limit);
      forall viewer: Id, l: nat | WellFormed(viewer) ensures CleanEntry(w', viewer, l) {
        KeysArePlain(viewer, l);
        Coverage.EntryKeyIsTagKey(FollowingKey(viewer, l));
        FollowingKeyInjective(user, viewer, limit, l);
        Coverage.PutEffect(w.cache, key, FollowingFeed(w, user, limit), bytes, FEED_TTL, FeedTag(user),
                           EntryKey(FollowingKey(viewer, l)));
        assert CleanEntry(w, viewer, l);
      }
    }
  }

  lemma TrendingKeeps(w: World, limit: nat, bytes: nat)
    requires Walled(w)
    ensures Walled(AfterTrending(w, limit, bytes))
  {
    var key := TrendingKey(limit);
    var w' := AfterTrending(w, limit, bytes);
    if Lookup(w.cache, key).None? && bytes <= MAX_PAYLOAD_BYTES {
      KeysArePlain("", limit);
      Coverage.PutKeeps(w.cache, TtlsOf, key, TopFeed(w, limit), bytes, FEED_TTL, [TRENDING_TAG]);
      forall viewer: Id, l: nat | WellFormed(viewer) ensures CleanEntry(w', viewer, l) {
        KeysArePlain(viewer, l);
        Coverage.EntryKeyIsTagKey(FollowingKey(viewer, l));
        FollowingKeyInjective(viewer, viewer, l, limit);
        Coverage.PutEffect(
          w.cache, key, TopFeed(w, limit), bytes, FEED_TTL, TRENDING_TAG, EntryKey(FollowingKey(viewer, l)));
        assert CleanEntry(w, viewer, l);
      }
    }
  }

  lemma EvictKeeps(w: World, key: string)
    requires Walled(w) && Plain(key)
    ensures Walled(w.(cache := Delete(w.cache, [key])))
  {
    Coverage.DropEntryKeeps(w.cache, TtlsOf, key);
    var w' := w.(cache := Delete(w.cache, [key]));
    forall viewer: Id, limit: nat | WellFormed(viewer) ensures CleanEntry(w', viewer, limit) {
      assert CleanEntry(w, viewer, limit);
    }
  }

  lemma ElsewhereKeeps(w: World, op: Coverage.Op<seq<Post>>)
    requires Walled(w)
    ensures Walled(Next(w, Elsewhere(op)))
  {
    var w' := Next(w, Elsewhere(op));
    if Coverage.Foreign(op, FEEDS) {
      forall viewer: Id, limit: nat | WellFormed(viewer)
        ensures CleanEntry(w', viewer, limit) && Coverage.Inv(w'.cache, TtlsOf)
      {
        KeysArePlain(viewer, limit);
        assert FEEDS <= FollowingKey(viewer, limit);
        Coverage.ForeignLeavesEntry(w.cache, op, FEEDS, FollowingKey(viewer, limit));
        assert CleanEntry(w, viewer, limit);
      }
      assert CleanEntry(w', [], 0);
    }
  }

  lemma TickKeeps(w: World, elapsed: nat)
    requires Walled(w)
    ensures Walled(w.(cache := w.cache.(now := w.cache.now + elapsed)))
  {
    var w' := w.(cache := w.cache.(now := w.cache.now + elapsed));
    forall viewer: Id, limit: nat | WellFormed(viewer) ensures CleanEntry(w', viewer, limit) {
      assert CleanEntry(w, viewer, limit);
    }
  }

  lemma StepKeeps(w: World, step: Step)
    requires Walled(w) && Allowed(step)
    ensures Walled(Next(w, step))
  {
    match step
    case DoJoin(u) => LessHiddenKeeps(w, Next(w, step));
    case DoPosts(posts, ranking) => LessHiddenKeeps(w, Next(w, step));
    case DoFollows(follows) => LessHiddenKeeps(w, Next(w, step));
    case DoDropTrending => DropKeeps(w, Next(w, step), [TRENDING_TAG]);
    case DoBlock(a, b) =>
      if Block(w, a, b).result.Ok? { DropKeeps(w, Next(w, step), [FeedTag(a), FeedTag(b)]); }
    case DoUnblock(a, b) => LessHiddenKeeps(w, Next(w, step));
    case DoMute(a, b) =>
      if Mute(w, a, b).world != w { DropKeeps(w, Next(w, step), [FeedTag(a)]); }
    case DoUnmute(a, b) => DropKeeps(w, Next(w, step), [FeedTag(a)]);
    case DoErase(u) => DropKeeps(w, Next(w, step), [FeedTag(u), TRENDING_TAG]);
    case DoForUser(user, limit, bytes) => ForUserKeeps(w, user, limit, bytes);
    case DoTrending(limit, bytes) => TrendingKeeps(w, limit, bytes);
    case Evict(key) => EvictKeeps(w, key);
    case Elsewhere(op) => ElsewhereKeeps(w, op);
    case Tick(elapsed) => TickKeeps(w, elapsed);
  }

  lemma {:induction false} RunKeeps(now: int, steps: seq<Step>)
    requires forall i | 0 <= i < |steps| :: Allowed(steps[i])
    ensures Walled(Run(Start(now), steps))
  {
    if steps == [] {
      assert forall viewer: Id, limit: nat :: CleanEntry(Start(now), viewer, limit);
    } else {
      RunKeeps(now, steps[..|steps| - 1]);
      StepKeeps(Run(Start(now), steps[..|steps| - 1]), steps[|steps| - 1]);
    }
  }

  // In every reachable state the following feed, from the cache or not, shows its viewer
  // nobody blocked in either direction and nobody muted.
  lemma FeedRespectsWall(now: int, steps: seq<Step>, viewer: Id, limit: nat)
    requires WellFormed(viewer) && forall i | 0 <= i < |steps| :: Allowed(steps[i])
    ensures var w := Run(Start(now), steps); Clean(w, viewer, ForUser(w, viewer, limit))
  {
    var w := Run(Start(now), steps);
    RunKeeps(now, steps);
    assert CleanEntry(w, viewer, limit);
    FollowingFeedIsClean(w, viewer, limit);
  }

  // Fresh from the tables, the feed holds every listed post of a followed author who is not
  // hidden, and nothing else.
  lemma {:induction false} FollowingExactly(w: World, viewer: Id, posts: seq<Post>, p: Post)
    ensures p in Following(w, viewer, posts) <==>
            p in posts && (viewer, p.author) in w.follows && Listed(p) && !Hidden(w, viewer, p.author)
  {
    if posts != [] {
      FollowingExactly(w, viewer, posts[1..], p);
      assert p in posts <==> p == posts[0] || p in posts[1..];
    }
  }

  // ── Trending ───────────────────────────────────────────────────────────────

  // The filter by definition: ask about every row.
  function PerRow(posts: seq<Post>, blocks: set<(Id, Id)>, viewer: Id): seq<Post> {
    if posts == [] then []
    else
      (if BlockedEitherWay(blocks, viewer, posts[0].author) then [] else [posts[0]])
      + PerRow(posts[1..], blocks, viewer)
  }

  lemma BlockedAmongIs(blocks: set<(Id, Id)>, viewer: Id, authors: set<Id>, a: Id)
    requires a in authors && a != viewer
    ensures a in BlockedAmong(blocks, viewer, authors) <==> BlockedEitherWay(blocks, viewer, a)
  {
    if (viewer, a) in blocks { assert (viewer, a).1 in BlockedAmong(blocks, viewer, authors); }
    if (a, viewer) in blocks { assert (a, viewer).0 in BlockedAmong(blocks, viewer, authors); }
  }

  lemma {:induction false} WithoutIsPerRow(posts: seq<Post>, blocks: set<(Id, Id)>, viewer: Id, authors: set<Id>)
    requires forall p | p in posts && p.author != viewer :: p.author in authors
    ensures Without(posts, viewer, BlockedAmong(blocks, viewer, authors)) == PerRow(posts, blocks, viewer)
  {
    if posts != [] {
      var a := posts[0].author;
      if a != viewer { BlockedAmongIs(blocks, viewer, authors, a); }
      WithoutIsPerRow(posts[1..], blocks, viewer, authors);
    }
  }

  lemma {:induction false} OwnPostsStay(posts: seq<Post>, blocks: set<(Id, Id)>, viewer: Id)
    requires forall p | p in posts :: p.author == viewer
    ensures PerRow(posts, blocks, viewer) == posts
  {
    if posts != [] { OwnPostsStay(posts[1..], blocks, viewer); }
  }

  // One query for the whole page filters as one `isBlockedEitherWay` per row would.
  lemma PostFilterIsPerRow(posts: seq<Post>, blocks: set<(Id, Id)>, viewer: Id)
    requires viewer != []
    ensures PostFilter(posts, blocks, Some(viewer)) == PerRow(posts, blocks, viewer)
  {
    var authors := Authors(posts, viewer);
    forall p | p in posts && p.author != viewer ensures p.author in authors {
    }
    if authors == {} { OwnPostsStay(posts, blocks, viewer); } else { WithoutIsPerRow(posts, blocks, viewer, authors); }
  }

  lemma {:induction false} PerRowAppends(a: seq<Post>, b: seq<Post>, blocks: set<(Id, Id)>, viewer: Id)
    ensures PerRow(a + b, blocks, viewer) == PerRow(a, blocks, viewer) + PerRow(b, blocks, viewer)
  {
    if a == [] {
      assert a + b == b;
    } else {
      assert (a + b)[1..] == a[1..] + b;
      PerRowAppends(a[1..], b, blocks, viewer);
    }
  }

  lemma {:induction false} PerRowShrinks(posts: seq<Post>, blocks: set<(Id, Id)>, viewer: Id)
    ensures |PerRow(posts, blocks, viewer)| <= |posts|
    ensures |PerRow(posts, blocks, viewer)| == |posts| <==>
            forall p | p in posts :: !BlockedEitherWay(blocks, viewer, p.author)
  {
    if posts != [] {
      PerRowShrinks(posts[1..], blocks, viewer);
      assert forall p :: p in posts <==> p == posts[0] || p in posts[1..];
    }
  }

  // Filtering after the cut gives a prefix of filtering before it, and a full page exactly
  // when no author in the cut is blocked.
  lemma FilterAfterTakeIsPrefix(ranking: seq<Post>, blocks: set<(Id, Id)>, viewer: Id, limit: nat)
    ensures var shown := PerRow(Take(ranking, limit), blocks, viewer);
      && shown <= Take(PerRow(ranking, blocks, viewer), limit)
      && (|shown| == |Take(ranking, limit)| <==>
            forall p | p in Take(ranking, limit) :: !BlockedEitherWay(blocks, viewer, p.author))
  {
    PerRowShrinks(Take(ranking, limit), blocks, viewer);
    if |ranking| > limit {
      assert ranking == ranking[..limit] + ranking[limit..];
      PerRowAppends(ranking[..limit], ranking[limit..], blocks, viewer);
    } else {
      PerRowShrinks(ranking, blocks, viewer);
    }
  }

  lemma {:induction false} PerRowShows(posts: seq<Post>, blocks: set<(Id, Id)>, viewer: Id, p: Post)
    ensures p in PerRow(posts, blocks, viewer) <==> p in posts && !BlockedEitherWay(blocks, viewer, p.author)
  {
    if posts != [] {
      PerRowShows(posts[1..], blocks, viewer, p);
      assert p in posts <==> p == posts[0] || p in posts[1..];
    }
  }

  // Whatever the shared cache holds, trending hides from a viewer exactly the blocked
  // authors' rows, by the blocks of this moment.
  lemma TrendingHidesExactlyBlocked(w: World, viewer: Id, limit: nat, p: Post)
    requires viewer != []
    ensures p in Trending(w, Some(viewer), limit) <==>
            p in Trending(w, None, limit) && !BlockedEitherWay(w.blocks, viewer, p.author)
  {
    var shared := Wrapped(w.cache, TrendingKey(limit), TopFeed(w, limit));
    PostFilterIsPerRow(shared, w.blocks, viewer);
    PerRowShows(shared, w.blocks, viewer, p);
  }
}
