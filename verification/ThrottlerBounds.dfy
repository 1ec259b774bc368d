/** What the rate limiter guarantees over all interleavings: admissions per counter
  * lifetime, the exact bound per time window, and how long a rejection can last. */
module ThrottlerBounds {
  import opened Basics
  import opened Throttler

  lemma {:induction false} EpochCount(cfg: Config, starts: seq<int>, hits: seq<Hit>, epoch: nat)
    requires Logged(starts, hits) && hits != []
    ensures var last, n := hits[|hits| - 1], AdmissionsOfEpoch(cfg, hits, epoch);
            n <= if epoch > last.epoch then 0
                 else if epoch == last.epoch && last.ordinal < cfg.limit then last.ordinal
                 else cfg.limit
  {
    var front := hits[..|hits| - 1];
    assert Placed(starts, hits[|hits| - 1]);
    if front == [] {
      assert AdmissionsOfEpoch(cfg, front, epoch) == 0;
    } else {
      EpochCount(cfg, starts, front, epoch);
      assert Consecutive(hits[|hits| - 2], hits[|hits| - 1]);
    }
  }

  // One counter lifetime admits at most `limit` requests, and lifetimes start `ttl` apart,
  // whatever the interleaving and however many clients skip their PEXPIRE.
  lemma EpochBound(cfg: Config, steps: seq<Step>, epoch: nat)
    requires cfg.Valid()
    ensures var s := Run(cfg, steps);
            AdmissionsOfEpoch(cfg, s.hits, epoch) <= cfg.limit && Spaced(cfg, s.starts)
  {
    RunKeeps(cfg, steps);
    var s := Run(cfg, steps);
    if s.hits != [] { EpochCount(cfg, s.starts, s.hits, epoch); }
  }

  // ── The window bound ───────────────────────────────────────────────────────

  // Admissions in order of their rank; no two share one.
  function Rank(cfg: Config, h: Hit): int { h.epoch * cfg.limit + h.ordinal }

  lemma RankGrows(cfg: Config, a: Hit, b: Hit)
    requires cfg.limit >= 1 && a.ordinal <= cfg.limit
    requires a.epoch < b.epoch || (a.epoch == b.epoch && a.ordinal < b.ordinal)
    ensures b.ordinal >= 1 ==> Rank(cfg, a) < Rank(cfg, b)
  {
    if a.epoch < b.epoch {
      assert (b.epoch - a.epoch - 1) * cfg.limit >= 0;
      assert b.epoch * cfg.limit == a.epoch * cfg.limit + cfg.limit + (b.epoch - a.epoch - 1) * cfg.limit;
    }
  }

  lemma {:induction false} LogOrdered(starts: seq<int>, hits: seq<Hit>, i: nat, j: nat)
    requires Logged(starts, hits) && i < j < |hits|
    ensures hits[i].at <= hits[j].at
    ensures hits[i].epoch < hits[j].epoch || (hits[i].epoch == hits[j].epoch && hits[i].ordinal < hits[j].ordinal)
  {
    assert Consecutive(hits[j - 1], hits[j]);
    if i < j - 1 { LogOrdered(starts, hits, i, j - 1); }
  }

  // The first and last admissions of a window, whose ranks bound how many there are.
  lemma {:induction false} WindowEnds(cfg: Config, starts: seq<int>, hits: seq<Hit>, lo: int, hi: int)
    returns (first: nat, last: nat)
    requires cfg.limit >= 1 && Logged(starts, hits) && Admissions(cfg, hits, lo, hi) > 0
    ensures first <= last < |hits|
    ensures IsAdmission(cfg, hits[first]) && InWindow(hits[first], lo, hi)
    ensures IsAdmission(cfg, hits[last]) && InWindow(hits[last], lo, hi)
    ensures Admissions(cfg, hits, lo, hi) <= Rank(cfg, hits[last]) - Rank(cfg, hits[first]) + 1
  {
    var n := |hits| - 1;
    var front := hits[..n];
    if Admissions(cfg, front, lo, hi) == 0 {
      first, last := n, n;
    } else {
      first, last := WindowEnds(cfg, starts, front, lo, hi);
      if IsAdmission(cfg, hits[n]) && InWindow(hits[n], lo, hi) {
        LogOrdered(starts, hits, last, n);
        assert Placed(starts, hits[n]);
        RankGrows(cfg, hits[last], hits[n]);
        last := n;
      }
    }
  }

  lemma {:induction false} StartsSpread(cfg: Config, starts: seq<int>, i: nat, j: nat)
    requires cfg.ttl > 0 && Spaced(cfg, starts) && i <= j < |starts|
    ensures starts[i] + (j - i) * cfg.ttl <= starts[j]
  {
    if i < j {
      StartsSpread(cfg, starts, i, j - 1);
      assert starts[j - 1] + cfg.ttl <= starts[j];
      assert (j - i) * cfg.ttl == (j - 1 - i) * cfg.ttl + cfg.ttl;
    }
  }

  lemma MulMonotone(a: int, b: int, m: int)
    requires m >= 0
    ensures a <= b ==> a * m <= b * m
  {
    if a <= b { assert (b - a) * m >= 0; }
  }

  // How many epochs a window of `n * ttl` can reach: n + 1, or n when it holds the first hit of the first.
  lemma EpochsInWindow(cfg: Config, starts: seq<int>, hits: seq<Hit>, first: nat, last: nat, lo: int, n: nat)
    requires cfg.Valid() && Spaced(cfg, starts) && Logged(starts, hits) && first <= last < |hits|
    requires InWindow(hits[first], lo, lo + n * cfg.ttl) && InWindow(hits[last], lo, lo + n * cfg.ttl)
    ensures 0 <= hits[last].epoch - hits[first].epoch <= n
    ensures hits[first].ordinal == 1 ==> hits[last].epoch - hits[first].epoch < n
  {
    var a, b := hits[first], hits[last];
    if first < last { LogOrdered(starts, hits, first, last); }
    assert Placed(starts, a) && Placed(starts, b);
    var gap := b.epoch - a.epoch;
    if a.ordinal == 1 {
      StartsSpread(cfg, starts, a.epoch, b.epoch);
      MulMonotone(n, gap, cfg.ttl);
    } else if gap > 0 {
      StartsSpread(cfg, starts, a.epoch + 1, b.epoch);
      MulMonotone(n, gap - 1, cfg.ttl);
    }
  }

  lemma RankSpan(cfg: Config, a: Hit, b: Hit, n: nat)
    requires cfg.limit >= 1 && n >= 1 && 1 <= a.ordinal && b.ordinal <= cfg.limit
    requires b.epoch - a.epoch <= n && (a.ordinal == 1 ==> b.epoch - a.epoch < n)
    ensures Rank(cfg, b) - Rank(cfg, a) + 1 <= (n + 1) * cfg.limit - 1
  {
    var gap := b.epoch - a.epoch;
    assert b.epoch * cfg.limit == a.epoch * cfg.limit + gap * cfg.limit;
    assert (n + 1) * cfg.limit == n * cfg.limit + cfg.limit == (n - 1) * cfg.limit + cfg.limit + cfg.limit;
    MulMonotone(gap, n, cfg.limit);
    MulMonotone(gap, n - 1, cfg.limit);
  }

  // For every interleaving: fewer than (n + 1) * limit admissions in any window of n * ttl.
  lemma WindowBound(cfg: Config, steps: seq<Step>, lo: int, n: nat)
    requires cfg.Valid() && n >= 1
    ensures Admissions(cfg, Run(cfg, steps).hits, lo, lo + n * cfg.ttl) <= (n + 1) * cfg.limit - 1
  {
    RunKeeps(cfg, steps);
    var s := Run(cfg, steps);
    var hi := lo + n * cfg.ttl;
    if Admissions(cfg, s.hits, lo, hi) > 0 {
      var first, last := WindowEnds(cfg, s.starts, s.hits, lo, hi);
      EpochsInWindow(cfg, s.starts, s.hits, first, last, lo, n);
      assert Placed(s.starts, s.hits[first]);
      RankSpan(cfg, s.hits[first], s.hits[last], n);
    } else {
      MulMonotone(1, n + 1, cfg.limit);
    }
  }

  // ── The bound is reached ───────────────────────────────────────────────────

  function Request(c: Client): seq<Step> { [CheckBlock(c), Count(c), Repair(c), Finish(c)] }

  function Burst(k: nat): seq<Step> { if k == 0 then [] else Burst(k - 1) + Request(0) }

  lemma {:induction false} RunConcat(cfg: Config, s: State, a: seq<Step>, b: seq<Step>)
    ensures RunFrom(cfg, s, a + b) == RunFrom(cfg, RunFrom(cfg, s, a), b)
  {
    if b == [] {
      assert a + b == a;
    } else {
      assert (a + b)[..|a + b| - 1] == a + b[..|b| - 1];
      RunConcat(cfg, s, a, b[..|b| - 1]);
    }
  }

  lemma RunFour(cfg: Config, s: State, a: Step, b: Step, c: Step, d: Step)
    ensures RunFrom(cfg, s, [a, b, c, d]) == Next(cfg, Next(cfg, Next(cfg, Next(cfg, s, a), b), c), d)
  {
    var all := [a, b, c, d];
    assert all[..3] == [a, b, c] && [a, b, c][..2] == [a, b] && [a, b][..1] == [a] && [a][..0] == [];
    assert RunFrom(cfg, s, [a]) == Next(cfg, s, a);
    assert RunFrom(cfg, s, [a, b]) == Next(cfg, Next(cfg, s, a), b);
  }

  // The four awaits of one client, run back to back, are the uninterrupted request.
  lemma RequestIsAtomic(cfg: Config, s: State, c: Client)
    requires cfg.Valid() && c !in s.clients
    ensures var s' := RunFrom(cfg, s, Request(c));
            && s'.keys == After(cfg, s.keys, s.now)
            && s'.clients == s.clients && s'.now == s.now
            && (if Decide(cfg, s.keys, s.now) == AlreadyBlocked then s'.hits == s.hits
                else |s'.hits| == |s.hits| + 1 && s'.hits[..|s.hits|] == s.hits && s'.hits[|s.hits|].at == s.now
                     && (IsAdmission(cfg, s'.hits[|s.hits|]) <==> Decide(cfg, s.keys, s.now) == Admitted))
  {
    RunFour(cfg, s, CheckBlock(c), Count(c), Repair(c), Finish(c));
    if !Blocked(s.keys, s.now) {
      var s1 := Next(cfg, s, CheckBlock(c));
      var s2 := Next(cfg, s1, Count(c));
      var s3 := Next(cfg, s2, Repair(c));
      var s4 := Next(cfg, s3, Finish(c));
      assert s4.clients == s.clients;
      assert s4.hits == s.hits + [s4.hits[|s.hits|]];
    }
  }

  function SlowRequest(c: Client, a: nat, b: nat, d: nat): seq<Step> {
    [CheckBlock(c), Tick(a), Count(c), Tick(b)] + [Repair(c), Tick(d), Finish(c), Tick(0)]
  }

  lemma SlowCount(cfg: Config, s: State, c: Client, a: nat, b: nat)
    requires cfg.Valid() && c !in s.clients && !Blocked(s.keys, s.now)
    ensures var s' := RunFrom(cfg, s, [CheckBlock(c), Tick(a), Count(c), Tick(b)]);
            var keys := Incr(s.keys, s.now + a); var n := keys.counter.value.hits;
            && s'.keys == keys && s'.now == s.now + a + b
            && s'.clients == s.clients[c := Counted(n, Pttl(keys, s.now + a))]
            && |s'.hits| == |s.hits| + 1 && s'.hits[..|s.hits|] == s.hits
            && s'.hits[|s.hits|].at == s.now + a && s'.hits[|s.hits|].ordinal == n
  {
    RunFour(cfg, s, CheckBlock(c), Tick(a), Count(c), Tick(b));
  }

  // The same with time passing at every await, and nobody else stepping in.
  lemma RequestTakesTime(cfg: Config, s: State, c: Client, a: nat, b: nat, d: nat)
    requires cfg.Valid() && c !in s.clients && !Blocked(s.keys, s.now)
    ensures var t := Times(s.now, s.now + a, s.now + a + b, s.now + a + b + d, s.now + a + b + d);
            var s' := RunFrom(cfg, s, SlowRequest(c, a, b, d));
            && s'.keys == AfterAt(cfg, s.keys, t) && s'.clients == s.clients && s'.now == t.block
            && |s'.hits| == |s.hits| + 1 && s'.hits[..|s.hits|] == s.hits && s'.hits[|s.hits|].at == t.multi
            && (IsAdmission(cfg, s'.hits[|s.hits|]) <==> DecideAt(cfg, s.keys, t) == Admitted)
  {
    var first := [CheckBlock(c), Tick(a), Count(c), Tick(b)];
    SlowCount(cfg, s, c, a, b);
    var mid := RunFrom(cfg, s, first);
    RunConcat(cfg, s, first, [Repair(c), Tick(d), Finish(c), Tick(0)]);
    RunFour(cfg, mid, Repair(c), Tick(d), Finish(c), Tick(0));
    var s' := RunFrom(cfg, s, SlowRequest(c, a, b, d));
    assert s'.hits == mid.hits && s'.clients == s.clients;
  }

  // Nothing in flight, nothing blocked; `room` more requests fit in the current counter.
  predicate Quiet(s: State) { s.clients == map[] && s.keys.block.None? }

  predicate Room(cfg: Config, s: State, used: nat) {
    s.keys.counter.Some? && s.keys.counter.value.hits == used
    && s.keys.counter.value.expires.Some? && s.now < s.keys.counter.value.expires.value
  }

  function Gain(at: int, lo: int, hi: int, k: nat): nat { if lo <= at < hi then k else 0 }

  lemma {:induction false} BurstAdmits(cfg: Config, s: State, used: nat, k: nat, lo: int, hi: int)
    requires cfg.Valid() && Quiet(s) && 1 <= used && used + k <= cfg.limit && Room(cfg, s, used)
    ensures var s' := RunFrom(cfg, s, Burst(k));
            && Quiet(s') && Room(cfg, s', used + k) && s'.now == s.now
            && s'.keys.counter.value.expires == s.keys.counter.value.expires
            && Admissions(cfg, s'.hits, lo, hi) == Admissions(cfg, s.hits, lo, hi) + Gain(s.now, lo, hi, k)
  {
    if k > 0 {
      BurstAdmits(cfg, s, used, k - 1, lo, hi);
      var mid := RunFrom(cfg, s, Burst(k - 1));
      RunConcat(cfg, s, Burst(k - 1), Request(0));
      RequestIsAtomic(cfg, mid, 0);
    }
  }

  // A first request, the clock, the rest of the limit, the clock again.
  function Round(cfg: Config, before: nat, after: nat): seq<Step>
    requires cfg.Valid()
  {
    Request(0) + [Tick(before)] + Burst(cfg.limit - 1) + [Tick(after)]
  }

  lemma Opens(cfg: Config, s: State, before: nat, lo: int, hi: int)
    requires cfg.Valid() && Quiet(s) && !CounterLive(s.keys, s.now) && before < cfg.ttl
    ensures var s' := RunFrom(cfg, s, Request(0) + [Tick(before)]);
            && Quiet(s') && Room(cfg, s', 1) && s'.now == s.now + before
            && s'.keys.counter.value.expires == Some(s.now + cfg.ttl)
            && Admissions(cfg, s'.hits, lo, hi) == Admissions(cfg, s.hits, lo, hi) + Gain(s.now, lo, hi, 1)
  {
    RequestIsAtomic(cfg, s, 0);
    assert (Request(0) + [Tick(before)])[..4] == Request(0);
  }

  lemma RoundAdmits(cfg: Config, s: State, before: nat, after: nat, lo: int, hi: int)
    requires cfg.Valid() && Quiet(s) && !CounterLive(s.keys, s.now)
    requires before < cfg.ttl && before + after == cfg.ttl
    ensures var s' := RunFrom(cfg, s, Round(cfg, before, after));
            && Quiet(s') && !CounterLive(s'.keys, s'.now) && s'.now == s.now + cfg.ttl
            && Admissions(cfg, s'.hits, lo, hi)
               == Admissions(cfg, s.hits, lo, hi) + Gain(s.now, lo, hi, 1) + Gain(s.now + before, lo, hi, cfg.limit - 1)
  {
    var b := Request(0) + [Tick(before)];
    var c := b + Burst(cfg.limit - 1);
    Opens(cfg, s, before, lo, hi);
    RunConcat(cfg, s, b, Burst(cfg.limit - 1));
    BurstAdmits(cfg, RunFrom(cfg, s, b), 1, cfg.limit - 1, lo, hi);
    var s3 := RunFrom(cfg, s, c);
    assert Round(cfg, before, after) == c + [Tick(after)];
    assert (c + [Tick(after)])[..|c|] == c;
    assert RunFrom(cfg, s, c + [Tick(after)]) == Next(cfg, s3, Tick(after));
  }

  function Rounds(cfg: Config, n: nat): seq<Step>
    requires cfg.Valid()
  {
    if n == 0 then Round(cfg, cfg.ttl - 1, 1) else Rounds(cfg, n - 1) + Round(cfg, 0, cfg.ttl)
  }

  lemma {:induction false} RoundsAdmit(cfg: Config, n: nat, hi: int)
    requires cfg.Valid() && cfg.ttl >= 2 && n * cfg.ttl < hi
    ensures var s := Run(cfg, Rounds(cfg, n));
            && Quiet(s) && !CounterLive(s.keys, s.now) && s.now == (n + 1) * cfg.ttl
            && (hi > cfg.ttl - 1 ==> Admissions(cfg, s.hits, 1, hi) == (n + 1) * cfg.limit - 1)
  {
    if n == 0 {
      RoundAdmits(cfg, INITIAL, cfg.ttl - 1, 1, 1, hi);
    } else {
      assert n * cfg.ttl == (n - 1) * cfg.ttl + cfg.ttl && (n + 1) * cfg.ttl == n * cfg.ttl + cfg.ttl;
      assert (n + 1) * cfg.limit == n * cfg.limit + cfg.limit;
      MulMonotone(1, n, cfg.ttl);
      RoundsAdmit(cfg, n - 1, hi);
      RunConcat(cfg, INITIAL, Rounds(cfg, n - 1), Round(cfg, 0, cfg.ttl));
      RoundAdmits(cfg, Run(cfg, Rounds(cfg, n - 1)), 0, cfg.ttl, 1, hi);
    }
  }

  // WindowBound is exact: for every limit, and every number of windows, one run attains it.
  lemma WindowBoundIsTight(cfg: Config, n: nat)
    requires cfg.Valid() && cfg.ttl >= 2 && n >= 1
    ensures Admissions(cfg, Run(cfg, Rounds(cfg, n)).hits, 1, 1 + n * cfg.ttl) == (n + 1) * cfg.limit - 1
  {
    MulMonotone(1, n, cfg.ttl);
    RoundsAdmit(cfg, n, 1 + n * cfg.ttl);
  }

  // ── No lockout ─────────────────────────────────────────────────────────────

  // Uninterrupted requests of one key, and the clock between them.
  datatype Event = Arrive | Wait(elapsed: nat)

  datatype Outcome = Outcome(at: int, verdict: Verdict)

  datatype Limiter = Limiter(now: int, keys: Keys, log: seq<Outcome>)

  function React(cfg: Config, s: Limiter, e: Event): Limiter {
    match e
    case Arrive => Limiter(s.now, After(cfg, s.keys, s.now), s.log + [Outcome(s.now, Decide(cfg, s.keys, s.now))])
    case Wait(elapsed) => s.(now := s.now + elapsed)
  }

  function Serve(cfg: Config, s: Limiter, events: seq<Event>): Limiter {
    if events == [] then s else React(cfg, Serve(cfg, s, events[..|events| - 1]), events[|events| - 1])
  }

  predicate AdmittedWithin(log: seq<Outcome>, before: int, span: int) {
    exists i | 0 <= i < |log| :: log[i].verdict == Admitted && log[i].at <= before < log[i].at + span
  }

  predicate CounterFrom(cfg: Config, s: Limiter, expires: Option<int>) {
    expires.Some? && exists i | 0 <= i < |s.log| ::
      s.log[i].verdict == Admitted && s.log[i].at <= s.now && expires.value == s.log[i].at + cfg.ttl
  }

  predicate BlockFrom(cfg: Config, s: Limiter, until: int) {
    exists i | 0 <= i < |s.log| ::
      s.log[i].verdict == Admitted && s.log[i].at <= s.now && until < s.log[i].at + cfg.ttl + cfg.blockFor
  }

  predicate RefusalsExplained(cfg: Config, log: seq<Outcome>) {
    forall j | 0 <= j < |log| && log[j].verdict != Admitted ::
      AdmittedWithin(log[..j], log[j].at, cfg.ttl + cfg.blockFor)
  }

  predicate Explained(cfg: Config, s: Limiter) {
    && (s.keys.counter.Some? ==> s.keys.counter.value.hits >= 1 && CounterFrom(cfg, s, s.keys.counter.value.expires))
    && (s.keys.block.Some? ==> BlockFrom(cfg, s, s.keys.block.value))
    && RefusalsExplained(cfg, s.log)
  }

  lemma CounterExplained(cfg: Config, s: Limiter)
    requires cfg.Valid() && Explained(cfg, s)
    ensures var s' := React(cfg, s, Arrive);
      s'.keys.counter.Some? ==> s'.keys.counter.value.hits >= 1 && CounterFrom(cfg, s', s'.keys.counter.value.expires)
  {
    var s' := React(cfg, s, Arrive);
    if s'.keys.counter.Some? {
      var expires := s'.keys.counter.value.expires;
      if s.keys.counter.Some? && expires == s.keys.counter.value.expires {
        var i :| 0 <= i < |s.log| && s.log[i].verdict == Admitted && s.log[i].at <= s.now
                 && expires.value == s.log[i].at + cfg.ttl;
        assert s'.log[i] == s.log[i];
      } else {
        assert s'.log[|s.log|] == Outcome(s.now, Admitted);
      }
    }
  }

  lemma BlockExplained(cfg: Config, s: Limiter)
    requires cfg.Valid() && Explained(cfg, s)
    ensures var s' := React(cfg, s, Arrive); s'.keys.block.Some? ==> BlockFrom(cfg, s', s'.keys.block.value)
  {
    var s' := React(cfg, s, Arrive);
    if s'.keys.block.Some? {
      if s.keys.block == s'.keys.block {
        var i :| 0 <= i < |s.log| && s.log[i].verdict == Admitted && s.log[i].at <= s.now
                 && s'.keys.block.value < s.log[i].at + cfg.ttl + cfg.blockFor;
        assert s'.log[i] == s.log[i];
      } else {
        var i :| 0 <= i < |s.log| && s.log[i].verdict == Admitted && s.log[i].at <= s.now
                 && s.keys.counter.value.expires.value == s.log[i].at + cfg.ttl;
        assert s'.log[i] == s.log[i];
      }
    }
  }

  lemma ReactExplained(cfg: Config, s: Limiter, e: Event)
    requires cfg.Valid() && Explained(cfg, s)
    ensures Explained(cfg, React(cfg, s, e))
  {
    if e.Arrive? {
      CounterExplained(cfg, s);
      BlockExplained(cfg, s);
      var s', n := React(cfg, s, e), |s.log|;
      forall j | 0 <= j < |s'.log| && s'.log[j].verdict != Admitted
        ensures AdmittedWithin(s'.log[..j], s'.log[j].at, cfg.ttl + cfg.blockFor)
      {
        assert s'.log[..j] == s.log[..j];
        if j == n {
          assert s.log[..n] == s.log;
        }
      }
    }
  }

  // Over all runs of uninterrupted requests: every refusal follows an admission made
  // strictly less than ttl + blockFor before it.
  lemma {:induction false} NoLockout(cfg: Config, events: seq<Event>)
    requires cfg.Valid()
    ensures var s := Serve(cfg, Limiter(0, Keys(None, None), []), events);
            Explained(cfg, s) && RefusalsExplained(cfg, s.log)
  {
    if events != [] {
      NoLockout(cfg, events[..|events| - 1]);
      ReactExplained(cfg, Serve(cfg, Limiter(0, Keys(None, None), []), events[..|events| - 1]), events[|events| - 1]);
    }
  }

  // While the block key lives, no sequence of requests extends it or moves the counter.
  lemma {:induction false} BlockIsInert(cfg: Config, s: Limiter, events: seq<Event>)
    requires Blocked(s.keys, Serve(cfg, s, events).now)
    ensures Serve(cfg, s, events).keys == s.keys && s.now <= Serve(cfg, s, events).now
  {
    if events != [] {
      var front := events[..|events| - 1];
      assert Serve(cfg, s, front).now <= Serve(cfg, s, events).now;
      BlockIsInert(cfg, s, front);
    }
  }

  // Interleaved or not, a block that is set is not moved: requests that were past their check
  // find it there.
  lemma {:induction false} BlockStands(cfg: Config, s: State, steps: seq<Step>)
    requires Blocked(s.keys, RunFrom(cfg, s, steps).now)
    ensures RunFrom(cfg, s, steps).keys.block == s.keys.block && s.now <= RunFrom(cfg, s, steps).now
  {
    if steps != [] {
      var front := steps[..|steps| - 1];
      assert RunFrom(cfg, s, front).now <= RunFrom(cfg, s, steps).now;
      BlockStands(cfg, s, front);
    }
  }
}
