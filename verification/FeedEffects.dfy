/** How long a block or a mute shapes the feeds, what lifting it brings back, and which posts,
  * in which order, a page holds. */
module FeedEffects {
  import opened Basics
  import opened Cache
  import Coverage
  import opened Feed
  import opened FeedRuns

  // ── Answers and rows ───────────────────────────────────────────────────────

  // Nobody mutes or blocks themselves or a user who is not there; nothing else is refused.
  lemma WhoMayHide(w: World, a: Id, b: Id)
    ensures Mute(w, a, b).result == if a == b then Err(BadRequest) else if b in w.live then Ok(()) else Err(NotFound)
    ensures Block(w, a, b).result == Mute(w, a, b).result
  {
  }

  // Muting again changes nothing; blocking again moves no row.
  lemma Repeated(w: World, a: Id, b: Id)
    ensures Mute(w, a, b).result.Ok? && (a, b) in w.mutes ==> Mute(w, a, b).world == w
    ensures Block(w, a, b).result.Ok? && (a, b) in w.blocks ==>
              Block(w, a, b).world == w.(cache := Block(w, a, b).world.cache)
  {
  }

  // Nobody logged in sees the shared page, and so does an empty id.
  lemma AnonymousTrending(w: World, limit: nat)
    ensures Trending(w, Some([]), limit) == Trending(w, None, limit)
  {
  }

  predicate Ends(step: Step, e: (Id, Id)) { step == DoErase(e.0) || step == DoErase(e.1) }

  // Row by row, which steps put a mute, a block or a follow in, and which take it out.
  lemma EveryPair(w: World, step: Step, e: (Id, Id))
    ensures var w', there := Next(w, step), e.0 != e.1 && e.1 in w.live;
      && (e in w'.mutes <==> (step == DoMute(e.0, e.1) && there)
                             || (e in w.mutes && step != DoUnmute(e.0, e.1) && !Ends(step, e)))
      && (e in w'.blocks <==> (step == DoBlock(e.0, e.1) && there)
                              || (e in w.blocks && step != DoUnblock(e.0, e.1) && !Ends(step, e)))
      && (e in w'.follows <==>
            if step.DoFollows? then e in step.follows
            else e in w.follows && !Ends(step, e) && !Severs(w, step, e.0, e.1) && !Severs(w, step, e.1, e.0))
      && (forall u :: u in w'.live <==> step == DoJoin(u) || (u in w.live && step != DoErase(u)))
  {
  }

  // A first block between two users.
  predicate Severs(w: World, step: Step, a: Id, b: Id) {
    step == DoBlock(a, b) && a != b && b in w.live && (a, b) !in w.blocks
  }

  // ── How long it lasts ──────────────────────────────────────────────────────

  predicate AllAllowed(steps: seq<Step>) { forall i | 0 <= i < |steps| :: Allowed(steps[i]) }

  lemma {:induction false} RunConcat(start: World, a: seq<Step>, b: seq<Step>)
    ensures Run(start, a + b) == Run(Run(start, a), b)
  {
    if b == [] {
      assert a + b == a;
    } else {
      assert (a + b)[..|a + b| - 1] == a + b[..|b| - 1];
      RunConcat(start, a, b[..|b| - 1]);
    }
  }

  lemma RunThrough(start: World, before: seq<Step>, step: Step, after: seq<Step>)
    ensures Run(start, before + [step] + after) == Run(Next(Run(start, before), step), after)
  {
    assert (before + [step])[..|before|] == before;
    RunConcat(start, before + [step], after);
  }

  lemma {:induction false} MuteStays(w: World, steps: seq<Step>, e: (Id, Id))
    requires e in w.mutes
    requires forall i | 0 <= i < |steps| :: steps[i] != DoUnmute(e.0, e.1) && !Ends(steps[i], e)
    ensures e in Run(w, steps).mutes
  {
    if steps != [] {
      MuteStays(w, steps[..|steps| - 1], e);
      EveryPair(Run(w, steps[..|steps| - 1]), steps[|steps| - 1], e);
    }
  }

  lemma {:induction false} BlockStays(w: World, steps: seq<Step>, e: (Id, Id))
    requires e in w.blocks
    requires forall i | 0 <= i < |steps| :: steps[i] != DoUnblock(e.0, e.1) && !Ends(steps[i], e)
    ensures e in Run(w, steps).blocks
  {
    if steps != [] {
      BlockStays(w, steps[..|steps| - 1], e);
      EveryPair(Run(w, steps[..|steps| - 1]), steps[|steps| - 1], e);
    }
  }

  // From a mute on, through any run without its lifting and without the erasure of either, the
  // following feed of the muter shows nothing of the muted author, cached pages included.
  lemma MuteLasts(now: int, before: seq<Step>, a: Id, b: Id, after: seq<Step>, limit: nat)
    requires AllAllowed(before) && WellFormed(a) && WellFormed(b) && AllAllowed(after)
    requires Mute(Run(Start(now), before), a, b).result.Ok?
    requires forall i | 0 <= i < |after| :: after[i] != DoUnmute(a, b) && !Ends(after[i], (a, b))
    ensures var w := Run(Start(now), before + [DoMute(a, b)] + after);
      (a, b) in w.mutes && forall p | p in ForUser(w, a, limit) :: p.author != b
  {
    MuteHeld(now, before, a, b, after);
    AllowedThrough(before, DoMute(a, b), after);
    FeedRespectsWall(now, before + [DoMute(a, b)] + after, a, limit);
  }

  lemma AllowedThrough(before: seq<Step>, step: Step, after: seq<Step>)
    requires AllAllowed(before) && Allowed(step) && AllAllowed(after)
    ensures AllAllowed(before + [step] + after)
  {
  }

  lemma MuteHeld(now: int, before: seq<Step>, a: Id, b: Id, after: seq<Step>)
    requires Mute(Run(Start(now), before), a, b).result.Ok?
    requires forall i | 0 <= i < |after| :: after[i] != DoUnmute(a, b) && !Ends(after[i], (a, b))
    ensures (a, b) in Run(Start(now), before + [DoMute(a, b)] + after).mutes
  {
    var w := Run(Start(now), before);
    EveryPair(w, DoMute(a, b), (a, b));
    MuteStays(Next(w, DoMute(a, b)), after, (a, b));
    RunThrough(Start(now), before, DoMute(a, b), after);
  }

  lemma BlockHeld(now: int, before: seq<Step>, a: Id, b: Id, after: seq<Step>)
    requires Block(Run(Start(now), before), a, b).result.Ok?
    requires forall i | 0 <= i < |after| :: after[i] != DoUnblock(a, b) && !Ends(after[i], (a, b))
    ensures (a, b) in Run(Start(now), before + [DoBlock(a, b)] + after).blocks
  {
    var w := Run(Start(now), before);
    EveryPair(w, DoBlock(a, b), (a, b));
    BlockStays(Next(w, DoBlock(a, b)), after, (a, b));
    RunThrough(Start(now), before, DoBlock(a, b), after);
  }

  // From a block on, likewise, neither sees the other: not in the following feed, and not in
  // trending.
  lemma BlockLasts(now: int, before: seq<Step>, a: Id, b: Id, after: seq<Step>, limit: nat)
    requires AllAllowed(before) && WellFormed(a) && WellFormed(b) && AllAllowed(after) && a != [] && b != []
    requires Block(Run(Start(now), before), a, b).result.Ok?
    requires forall i | 0 <= i < |after| :: after[i] != DoUnblock(a, b) && !Ends(after[i], (a, b))
    ensures var w := Run(Start(now), before + [DoBlock(a, b)] + after);
      && (a, b) in w.blocks
      && (forall p | p in ForUser(w, a, limit) :: p.author != b)
      && (forall p | p in ForUser(w, b, limit) :: p.author != a)
      && (forall p | p in Trending(w, Some(a), limit) :: p.author != b)
      && (forall p | p in Trending(w, Some(b), limit) :: p.author != a)
  {
    var steps := before + [DoBlock(a, b)] + after;
    BlockHeld(now, before, a, b, after);
    AllowedThrough(before, DoBlock(a, b), after);
    FeedRespectsWall(now, steps, a, limit);
    FeedRespectsWall(now, steps, b, limit);
    TrendingHides(Run(Start(now), steps), a, b, limit);
    TrendingHides(Run(Start(now), steps), b, a, limit);
  }

  lemma TrendingHides(w: World, viewer: Id, author: Id, limit: nat)
    requires viewer != [] && viewer != author && ((viewer, author) in w.blocks || (author, viewer) in w.blocks)
    ensures forall p | p in Trending(w, Some(viewer), limit) :: p.author != author
  {
    forall p | p in Trending(w, Some(viewer), limit) ensures p.author != author {
      TrendingHidesExactlyBlocked(w, viewer, limit, p);
    }
  }

  // ── What lifting it brings back ────────────────────────────────────────────

  // Neither cached page nor tag of a user survives dropping their feed.
  lemma DroppedFeedIsFresh(w: World, w': World, tags: seq<string>, user: Id, limit: nat)
    requires Walled(w) && WellFormed(user) && FeedTag(user) in tags && w'.cache == Invalidate(w.cache, tags)
    ensures ForUser(w', user, limit) == FollowingFeed(w', user, limit)
    ensures forall k | Live(w'.cache, k) :: FeedTag(user) !in w'.cache.cells[k].labels
  {
    Coverage.InvalidateKeeps(w.cache, TtlsOf, tags);
    assert CleanEntry(w, user, limit);
  }

  // In every reachable state, muting, unmuting and blocking leave no page behind that was built
  // before: the next read is of the tables as they now are.
  lemma NextReadIsFresh(now: int, steps: seq<Step>, a: Id, b: Id, limit: nat)
    requires AllAllowed(steps) && WellFormed(a) && WellFormed(b)
    ensures var w := Run(Start(now), steps);
      && (Mute(w, a, b).result.Ok? && (a, b) !in w.mutes ==>
            ForUser(Mute(w, a, b).world, a, limit) == FollowingFeed(Mute(w, a, b).world, a, limit))
      && ForUser(Unmute(w, a, b), a, limit) == FollowingFeed(Unmute(w, a, b), a, limit)
      && (Block(w, a, b).result.Ok? ==>
            && ForUser(Block(w, a, b).world, a, limit) == FollowingFeed(Block(w, a, b).world, a, limit)
            && ForUser(Block(w, a, b).world, b, limit) == FollowingFeed(Block(w, a, b).world, b, limit))
      && ForUser(Erase(w, a), a, limit) == FollowingFeed(Erase(w, a), a, limit)
  {
    var w := Run(Start(now), steps);
    RunKeeps(now, steps);
    if Mute(w, a, b).result.Ok? && (a, b) !in w.mutes {
      DroppedFeedIsFresh(w, Mute(w, a, b).world, [FeedTag(a)], a, limit);
    }
    DroppedFeedIsFresh(w, Unmute(w, a, b), [FeedTag(a)], a, limit);
    if Block(w, a, b).result.Ok? {
      DroppedFeedIsFresh(w, Block(w, a, b).world, [FeedTag(a), FeedTag(b)], a, limit);
      DroppedFeedIsFresh(w, Block(w, a, b).world, [FeedTag(a), FeedTag(b)], b, limit);
    }
    DroppedFeedIsFresh(w, Erase(w, a), [FeedTag(a), TRENDING_TAG], a, limit);
  }

  // Unmuting brings back, at once, every listed post of the author if the viewer follows them
  // and no block stands between them.
  lemma UnmuteRestores(now: int, steps: seq<Step>, a: Id, b: Id, p: Post)
    requires AllAllowed(steps) && WellFormed(a)
    ensures var w := Run(Start(now), steps); var w' := Unmute(w, a, b);
      && (a, b) !in w'.mutes && w'.blocks == w.blocks && w'.follows == w.follows && w'.posts == w.posts
      && (p.author == b && p in w.posts && p.isPublic && !p.deleted && (a, b) in w.follows
          && (a, b) !in w.blocks && (b, a) !in w.blocks
          ==> p in ForUser(w', a, |w.posts|))
  {
    var w := Run(Start(now), steps);
    var w' := Unmute(w, a, b);
    RunKeeps(now, steps);
    DroppedFeedIsFresh(w, w', [FeedTag(a)], a, |w.posts|);
    FollowingExactly(w', a, w'.posts, p);
    FollowingShrinks(w', a, w'.posts);
  }

  lemma {:induction false} FollowingShrinks(w: World, viewer: Id, posts: seq<Post>)
    ensures |Following(w, viewer, posts)| <= |posts|
  {
    if posts != [] { FollowingShrinks(w, viewer, posts[1..]); }
  }

  // Unblocking shows the author's rows in trending at once. The following feed may stay without
  // them until its page expires, and the follows that the block took down stay down.
  lemma UnblockRestores(w: World, a: Id, b: Id, limit: nat, p: Post)
    requires a != [] && (b, a) !in w.blocks && p.author == b && p in Trending(w, None, limit)
    ensures var w' := Unblock(w, a, b);
      && p in Trending(w', Some(a), limit) && (a, b) !in w'.blocks
      && w'.follows == w.follows && w'.mutes == w.mutes && w'.cache == w.cache
      && (p in w.posts && p.isPublic && !p.deleted && (a, b) in w.follows && (a, b) !in w.mutes ==>
            p in Following(w', a, w'.posts))
  {
    var w' := Unblock(w, a, b);
    TrendingHidesExactlyBlocked(w', a, limit, p);
    FollowingExactly(w', a, w'.posts, p);
  }

  // ── What a page holds ──────────────────────────────────────────────────────

  function Filter(posts: seq<Post>, keep: Post -> bool): seq<Post> {
    if posts == [] then [] else (if keep(posts[0]) then [posts[0]] else []) + Filter(posts[1..], keep)
  }

  // How many posts before position `n` are to be kept.
  function Rank(posts: seq<Post>, keep: Post -> bool, n: nat): nat { |KeptBefore(posts, keep, n)| }

  function KeptBefore(posts: seq<Post>, keep: Post -> bool, n: nat): set<nat> {
    set i: nat | i < n && i < |posts| && keep(posts[i])
  }

  // The first `limit` posts to keep, each at the place of its rank, or all of them.
  predicate IsPage(page: seq<Post>, posts: seq<Post>, keep: Post -> bool, limit: nat) {
    && |page| == (if Rank(posts, keep, |posts|) <= limit then Rank(posts, keep, |posts|) else limit)
    && forall n: nat | n < |posts| && keep(posts[n]) && Rank(posts, keep, n) < limit ::
         Rank(posts, keep, n) < |page| && page[Rank(posts, keep, n)] == posts[n]
  }

  lemma {:induction false} FilterSnoc(posts: seq<Post>, p: Post, keep: Post -> bool)
    ensures Filter(posts + [p], keep) == Filter(posts, keep) + if keep(p) then [p] else []
  {
    if posts != [] {
      assert (posts + [p])[1..] == posts[1..] + [p];
      FilterSnoc(posts[1..], p, keep);
    }
  }

  lemma RankNext(posts: seq<Post>, keep: Post -> bool, n: nat)
    requires n < |posts|
    ensures Rank(posts, keep, n + 1) == Rank(posts, keep, n) + if keep(posts[n]) then 1 else 0
  {
    assert KeptBefore(posts, keep, n + 1) == KeptBefore(posts, keep, n) + if keep(posts[n]) then {n} else {};
  }

  lemma {:induction false} FilterRanks(posts: seq<Post>, keep: Post -> bool, n: nat)
    requires n <= |posts|
    ensures |Filter(posts[..n], keep)| == Rank(posts, keep, n)
    ensures forall m: nat | m < n && keep(posts[m]) ::
              Rank(posts, keep, m) < Rank(posts, keep, n) && Filter(posts[..n], keep)[Rank(posts, keep, m)] == posts[m]
  {
    if n == 0 {
      assert KeptBefore(posts, keep, 0) == {};
    } else {
      FilterRanks(posts, keep, n - 1);
      RankNext(posts, keep, n - 1);
      assert posts[..n] == posts[..n - 1] + [posts[n - 1]];
      FilterSnoc(posts[..n - 1], posts[n - 1], keep);
    }
  }

  lemma TakeIsPage(posts: seq<Post>, keep: Post -> bool, limit: nat)
    ensures IsPage(Take(Filter(posts, keep), limit), posts, keep, limit)
  {
    FilterRanks(posts, keep, |posts|);
    assert posts[..|posts|] == posts;
  }

  lemma {:induction false} FollowingFilters(w: World, viewer: Id, posts: seq<Post>, keep: Post -> bool)
    requires forall p :: keep(p) <==>
      (viewer, p.author) in w.follows && p.isPublic && !p.deleted
      && (viewer, p.author) !in w.blocks && (p.author, viewer) !in w.blocks && (viewer, p.author) !in w.mutes
    ensures Following(w, viewer, posts) == Filter(posts, keep)
  {
    if posts != [] { FollowingFilters(w, viewer, posts[1..], keep); }
  }

  lemma {:induction false} ListedFilters(posts: seq<Post>, keep: Post -> bool)
    requires forall p :: keep(p) <==> p.isPublic && !p.deleted
    ensures AllListed(posts) == Filter(posts, keep)
  {
    if posts != [] { ListedFilters(posts[1..], keep); }
  }

  // Fresh from the tables, the following feed is the first `limit` public posts, newest first,
  // of followed authors with no block either way and no mute.
  lemma FollowingPage(w: World, viewer: Id, limit: nat) returns (keep: Post -> bool)
    ensures forall p :: keep(p) <==>
      (viewer, p.author) in w.follows && p.isPublic && !p.deleted
      && (viewer, p.author) !in w.blocks && (p.author, viewer) !in w.blocks && (viewer, p.author) !in w.mutes
    ensures IsPage(FollowingFeed(w, viewer, limit), w.posts, keep, limit)
  {
    keep := (p: Post) =>
      (viewer, p.author) in w.follows && p.isPublic && !p.deleted
      && (viewer, p.author) !in w.blocks && (p.author, viewer) !in w.blocks && (viewer, p.author) !in w.mutes;
    FollowingFilters(w, viewer, w.posts, keep);
    TakeIsPage(w.posts, keep, limit);
  }

  // And trending the first `limit` public posts of the ranking.
  lemma TrendingPage(w: World, limit: nat) returns (keep: Post -> bool)
    ensures forall p :: keep(p) <==> p.isPublic && !p.deleted
    ensures IsPage(TopFeed(w, limit), w.ranking, keep, limit)
  {
    keep := (p: Post) => p.isPublic && !p.deleted;
    ListedFilters(w.ranking, keep);
    TakeIsPage(w.ranking, keep, limit);
  }

  // ── The page cache ─────────────────────────────────────────────────────────

  // A read of the tables stays cached for 30 seconds unless the page is over 256 KiB, and a read
  // of the cache leaves it as it was.
  lemma PagesAreCached(w: World, user: Id, limit: nat, bytes: nat, later: nat)
    requires WellFormed(user)
    ensures var w', hit := AfterForUser(w, user, limit, bytes), Lookup(w.cache, FollowingKey(user, limit));
      && w' == w.(cache := w'.cache)
      && ForUser(w, user, limit) == (if hit.Some? then hit.value else FollowingFeed(w, user, limit))
      && ((hit.Some? || bytes > 262_144) ==> w' == w)
      && (hit.None? && bytes <= 262_144 ==>
            Lookup(w'.cache.(now := w'.cache.now + later), FollowingKey(user, limit)) ==
            if later < 30_000 then Some(FollowingFeed(w, user, limit)) else None)
    ensures var w', hit := AfterTrending(w, limit, bytes), Lookup(w.cache, TrendingKey(limit));
      && w' == w.(cache := w'.cache)
      && Trending(w, None, limit) == (if hit.Some? then hit.value else TopFeed(w, limit))
      && ((hit.Some? || bytes > 262_144) ==> w' == w)
      && (hit.None? && bytes <= 262_144 ==>
            Lookup(w'.cache.(now := w'.cache.now + later), TrendingKey(limit)) ==
            if later < 30_000 then Some(TopFeed(w, limit)) else None)
  {
    KeysArePlain(user, limit);
    Coverage.EntryKeyIsTagKey(FollowingKey(user, limit));
    Coverage.EntryKeyIsTagKey(TrendingKey(limit));
    if bytes <= 262_144 {
      Coverage.PutEffect(w.cache, FollowingKey(user, limit), FollowingFeed(w, user, limit), bytes, FEED_TTL,
                         FeedTag(user), EntryKey(FollowingKey(user, limit)));
      Coverage.PutEffect(w.cache, TrendingKey(limit), TopFeed(w, limit), bytes, FEED_TTL, TRENDING_TAG,
                         EntryKey(TrendingKey(limit)));
    }
  }

  // The number a decimal numeral stands for.
  function Value(s: string): int {
    if s == [] then 0 else 10 * Value(s[..|s| - 1]) + (s[|s| - 1] as int - '0' as int)
  }

  predicate IsDigit(c: char) { '0' <= c <= '9' }

  lemma DigitIs(d: nat)
    requires d < 10
    ensures var c := "0123456789"[d]; IsDigit(c) && c as int - '0' as int == d
  {
  }

  lemma ValueSnoc(s: string, c: char)
    ensures Value(s + [c]) == 10 * Value(s) + (c as int - '0' as int)
  {
    assert (s + [c])[..|s|] == s;
  }

  lemma LastDigit(n: nat) returns (front: string, c: char)
    ensures Digits(n) == front + [c] && c as int - '0' as int == n % 10
    ensures front == if n < 10 then [] else Digits(n / 10)
  {
    front, c := if n < 10 then [] else Digits(n / 10), "0123456789"[n % 10];
    DigitIs(n % 10);
  }

  lemma {:induction false} DigitsRead(n: nat)
    ensures Value(Digits(n)) == n && Digits(n) != []
  {
    var front, c := LastDigit(n);
    ValueSnoc(front, c);
    if n >= 10 { DigitsRead(n / 10); }
  }

  // Numerals are decimal, and start with a zero only for zero.
  lemma {:induction false} DigitsAreDigits(n: nat)
    ensures forall c | c in Digits(n) :: IsDigit(c)
    ensures Digits(n) != [] && (n > 0 ==> Digits(n)[0] != '0')
  {
    DigitIs(n % 10);
    if n >= 10 { DigitsAreDigits(n / 10); }
  }

  // No two pages share a cache key: neither those of two users, nor those of two sizes.
  lemma PagesDoNotMix(a: Id, b: Id, m: nat, n: nat)
    requires WellFormed(a) && WellFormed(b)
    ensures FollowingKey(a, m) == FollowingKey(b, n) ==> a == b && m == n
    ensures TrendingKey(m) == TrendingKey(n) ==> m == n
    ensures FollowingKey(a, m) != TrendingKey(n)
  {
    DigitsRead(m);
    DigitsRead(n);
    FollowingKeyInjective(a, b, m, n);
    assert FollowingKey(a, m)[|"feed:following:"| + |a| + 1..] == Digits(m);
    assert FollowingKey(b, n)[|"feed:following:"| + |b| + 1..] == Digits(n);
    assert TrendingKey(m)[|"feed:trending:"|..] == Digits(m) && TrendingKey(n)[|"feed:trending:"|..] == Digits(n);
  }
}
