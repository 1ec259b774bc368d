/** The Redis rate limiter: a counter per window and a block key, driven by clients
  * whose requests interleave at every await. */
module Throttler {
  import opened Basics

  // Milliseconds, except `limit`. `limit >= 1` and `blockFor > 0` are what the guard configures.
  datatype Config = Config(limit: nat, ttl: int, blockFor: int) {
    predicate Valid() { ttl > 0 && blockFor > 0 && limit >= 1 }
  }

  // A key that exists without an expiry has PTTL -1.
  datatype Counter = Counter(hits: nat, expires: Option<int>)

  datatype Keys = Keys(counter: Option<Counter>, block: Option<int>)

  datatype Record = Record(totalHits: nat, timeToExpire: int, isBlocked: bool, timeToBlockExpire: int)

  function CeilSeconds(ms: int): int { (ms + 999) / 1000 }

  predicate Alive(expires: Option<int>, now: int) { expires.None? || now < expires.value }

  predicate CounterLive(k: Keys, now: int) { k.counter.Some? && Alive(k.counter.value.expires, now) }

  predicate NoExpiry(k: Keys) { k.counter.Some? && k.counter.value.expires.None? }

  predicate Blocked(k: Keys, now: int) { k.block.Some? && now < k.block.value }

  // INCR: a missing or expired counter restarts at 1 without an expiry.
  function Incr(k: Keys, now: int): Keys {
    k.(counter := Some(if CounterLive(k, now)
                       then k.counter.value.(hits := k.counter.value.hits + 1)
                       else Counter(1, None)))
  }

  function Pttl(k: Keys, now: int): int {
    if !CounterLive(k, now) then -2
    else if k.counter.value.expires.None? then -1
    else k.counter.value.expires.value - now
  }

  // PEXPIRE: no effect on a missing key.
  function Pexpire(k: Keys, now: int, ttl: int): Keys {
    if CounterLive(k, now) then k.(counter := Some(k.counter.value.(expires := Some(now + ttl)))) else k
  }

  // SET ... PX NX
  function SetBlock(k: Keys, now: int, blockFor: int): Keys {
    if Blocked(k, now) then k else k.(block := Some(now + blockFor))
  }

  function BlockPttl(k: Keys, now: int): int {
    if Blocked(k, now) then k.block.value - now else -2
  }

  predicate NeedsExpiry(hits: nat, left: int) { hits == 1 || left < 0 }

  // ── One request ────────────────────────────────────────────────────────────

  datatype Verdict = AlreadyBlocked | Admitted | Rejected

  // The instants of the round trips of one request that nobody interrupts.
  datatype Times = Times(check: int, multi: int, repair: int, block: int, answer: int) {
    predicate Ordered() { check <= multi <= repair <= block <= answer }
  }

  function AtOnce(now: int): Times { Times(now, now, now, now, now) }

  function DecideAt(cfg: Config, k: Keys, t: Times): Verdict {
    if Blocked(k, t.check) then AlreadyBlocked
    else if Incr(k, t.multi).counter.value.hits > cfg.limit then Rejected else Admitted
  }

  function AfterAt(cfg: Config, k: Keys, t: Times): Keys {
    if Blocked(k, t.check) then k
    else
      var k1 := Incr(k, t.multi);
      var k2 := if NeedsExpiry(k1.counter.value.hits, Pttl(k1, t.multi)) then Pexpire(k1, t.repair, cfg.ttl) else k1;
      if k1.counter.value.hits > cfg.limit then SetBlock(k2, t.block, cfg.blockFor) else k2
  }

  function Decide(cfg: Config, k: Keys, now: int): Verdict { DecideAt(cfg, k, AtOnce(now)) }

  function After(cfg: Config, k: Keys, now: int): Keys { AfterAt(cfg, k, AtOnce(now)) }

  // Whole seconds that cover `ms` milliseconds, and no more than they must.
  predicate RoundsUp(seconds: int, ms: int) { (seconds - 1) * 1000 < ms <= seconds * 1000 }

  // A key with this expiry is still there; without one there is no key.
  predicate Until(expires: Option<int>, now: int) { expires.Some? && now < expires.value }

  // The counter key is there, perhaps without an expiry.
  predicate Stored(counter: Option<Counter>, now: int) {
    counter.Some? && (counter.value.expires.None? || now < counter.value.expires.value)
  }

  // A stored counter has been incremented at least once.
  predicate Counting(counter: Option<Counter>) { counter.Some? ==> counter.value.hits > 0 }

  // The counter was there, with an expiry still ahead, when the MULTI ran.
  predicate Running(counter: Option<Counter>, t: Times) {
    counter.Some? && counter.value.hits > 0 && Until(counter.value.expires, t.multi)
  }

  // When the counter expires after the request: as before, or `ttl` after the PEXPIRE.
  function Deadline(cfg: Config, counter: Option<Counter>, t: Times): int {
    if Running(counter, t) then counter.value.expires.value else t.repair + cfg.ttl
  }

  // What is left of it: measured at the MULTI, or the whole `ttl` when it was just set.
  function MillisLeft(cfg: Config, counter: Option<Counter>, t: Times): int {
    if Running(counter, t) then counter.value.expires.value - t.multi else cfg.ttl
  }

  class RedisThrottlerStorage {
    var counter: Option<Counter>
    var block: Option<int>

    function State(): Keys reads this { Keys(counter, block) }

    // `answered` is false when the MULTI block comes back empty: the request is let through.
    method Increment(cfg: Config, t: Times, answered: bool) returns (r: Record)
      requires cfg.Valid() && t.Ordered()
      modifies this
      ensures State() == if answered then AfterAt(cfg, old(State()), t) else old(State())
      ensures Until(old(block), t.check) ==>
                r.isBlocked && r.totalHits == cfg.limit + 1 && r.timeToExpire == r.timeToBlockExpire
                && RoundsUp(r.timeToBlockExpire, old(block).value - t.check)
      ensures !Until(old(block), t.check) && !answered ==> r == Record(0, 0, false, 0)
      ensures !Until(old(block), t.check) && answered ==>
                && r.totalHits == (if Stored(old(counter), t.multi) then old(counter).value.hits + 1 else 1)
                && (r.isBlocked <==> r.totalHits > cfg.limit)
                && RoundsUp(r.timeToExpire, MillisLeft(cfg, old(counter), t))
                && (if r.isBlocked
                    then RoundsUp(r.timeToBlockExpire,
                                  if Until(block, t.answer) then block.value - t.answer else cfg.blockFor)
                    else r.timeToBlockExpire == 0)
                && counter.Some? && counter.value.hits == r.totalHits && counter.value.expires.Some?
                && (Counting(old(counter)) ==> counter.value.expires == Some(Deadline(cfg, old(counter), t)))
                && block == (if r.isBlocked && !Until(old(block), t.block) then Some(t.block + cfg.blockFor)
                             else old(block))
    {
      if Blocked(State(), t.check) {
        var blockedFor := block.value - t.check;
        r := Record(cfg.limit + 1, CeilSeconds(blockedFor), true, CeilSeconds(blockedFor));
        return;
      }
      if !answered { return Record(0, 0, false, 0); }
      counter := Incr(State(), t.multi).counter;
      var totalHits := counter.value.hits;
      var timeToExpireMs := Pttl(State(), t.multi);
      if totalHits == 1 || timeToExpireMs < 0 {
        timeToExpireMs := cfg.ttl;
        counter := Pexpire(State(), t.repair, cfg.ttl).counter;
      }
      if totalHits > cfg.limit {
        if !Blocked(State(), t.block) { block := Some(t.block + cfg.blockFor); }
        var blockTtl := BlockPttl(State(), t.answer);
        return Record(totalHits, CeilSeconds(timeToExpireMs), true,
                      CeilSeconds(if blockTtl > 0 then blockTtl else cfg.blockFor));
      }
      return Record(totalHits, CeilSeconds(timeToExpireMs), false, 0);
    }
  }

  // ── Interleaved requests ───────────────────────────────────────────────────

  // Where a client stands between two awaits.
  datatype Phase =
    | Checked                          // the block key was not live
    | Counted(hits: nat, left: int)    // MULTI returned, the expiry is not repaired yet
    | Repaired(hits: nat)              // past the PEXPIRE
  type Client = nat

  // A counted request: its instant, the counter's lifetime it fell in, its place there.
  datatype Hit = Hit(at: int, epoch: int, ordinal: nat)

  datatype State = State(now: int, keys: Keys, clients: map<Client, Phase>, starts: seq<int>, hits: seq<Hit>)

  datatype Step =
    | Tick(elapsed: nat)
    | CheckBlock(c: Client)
    | Count(c: Client)
    | Repair(c: Client)
    | Finish(c: Client)
    | Leave(c: Client)   // a crash, or a MULTI block that came back empty

  const INITIAL := State(0, Keys(None, None), map[], [], [])

  function Next(cfg: Config, s: State, step: Step): State {
    match step
    case Tick(elapsed) => s.(now := s.now + elapsed)
    case CheckBlock(c) =>
      if c in s.clients || Blocked(s.keys, s.now) then s else s.(clients := s.clients[c := Checked])
    case Count(c) =>
      if c !in s.clients || !s.clients[c].Checked? then s
      else
        var keys := Incr(s.keys, s.now);
        var starts := if CounterLive(s.keys, s.now) then s.starts else s.starts + [s.now];
        var ordinal := keys.counter.value.hits;
        s.(keys := keys,
           clients := s.clients[c := Counted(ordinal, Pttl(keys, s.now))],
           starts := starts,
           hits := s.hits + [Hit(s.now, |starts| - 1, ordinal)])
    case Repair(c) =>
      if c !in s.clients || !s.clients[c].Counted? then s
      else
        var p := s.clients[c];
        s.(keys := if NeedsExpiry(p.hits, p.left) then Pexpire(s.keys, s.now, cfg.ttl) else s.keys,
           clients := s.clients[c := Repaired(p.hits)])
    case Finish(c) =>
      if c !in s.clients || !s.clients[c].Repaired? then s
      else s.(keys := if s.clients[c].hits > cfg.limit then SetBlock(s.keys, s.now, cfg.blockFor) else s.keys,
              clients := s.clients - {c})
    case Leave(c) => s.(clients := s.clients - {c})
  }

  function RunFrom(cfg: Config, s: State, steps: seq<Step>): State {
    if steps == [] then s else Next(cfg, RunFrom(cfg, s, steps[..|steps| - 1]), steps[|steps| - 1])
  }

  function Run(cfg: Config, steps: seq<Step>): State { RunFrom(cfg, INITIAL, steps) }

  predicate IsAdmission(cfg: Config, h: Hit) { h.ordinal <= cfg.limit }

  predicate InWindow(h: Hit, lo: int, hi: int) { lo <= h.at < hi }

  function Admissions(cfg: Config, hits: seq<Hit>, lo: int, hi: int): nat {
    if hits == [] then 0
    else
      var last := hits[|hits| - 1];
      Admissions(cfg, hits[..|hits| - 1], lo, hi)
      + if IsAdmission(cfg, last) && InWindow(last, lo, hi) then 1 else 0
  }

  function AdmissionsOfEpoch(cfg: Config, hits: seq<Hit>, epoch: nat): nat {
    if hits == [] then 0
    else
      var last := hits[|hits| - 1];
      AdmissionsOfEpoch(cfg, hits[..|hits| - 1], epoch)
      + if IsAdmission(cfg, last) && last.epoch == epoch then 1 else 0
  }

  // ── Invariant ──────────────────────────────────────────────────────────────

  predicate Spaced(cfg: Config, starts: seq<int>) {
    forall i | 0 < i < |starts| :: starts[i - 1] + cfg.ttl <= starts[i]
  }

  // Consecutive hits: the next of the same epoch, or the first of the next one.
  predicate Consecutive(a: Hit, b: Hit) {
    a.at <= b.at && (if b.epoch == a.epoch then b.ordinal == a.ordinal + 1
                     else b.epoch == a.epoch + 1 && b.ordinal == 1)
  }

  predicate Placed(starts: seq<int>, h: Hit) {
    && h.ordinal >= 1
    && 0 <= h.epoch < |starts|
    && starts[h.epoch] <= h.at
    && (h.ordinal == 1 ==> h.at == starts[h.epoch])
    && (h.epoch + 1 < |starts| ==> h.at <= starts[h.epoch + 1])
  }

  predicate Logged(starts: seq<int>, hits: seq<Hit>) {
    && (forall i | 0 <= i < |hits| :: Placed(starts, hits[i]))
    && (forall i | 0 < i < |hits| :: Consecutive(hits[i - 1], hits[i]))
    && (hits != [] ==> hits[0].ordinal == 1)
  }

  // The live counter is the place of the latest hit, and lasts at least `ttl` from its start.
  predicate Current(cfg: Config, s: State) {
    match s.keys.counter
    case None => s.starts == [] && s.hits == []
    case Some(counter) =>
      && s.hits != [] && s.starts != []
      && s.hits[|s.hits| - 1].epoch == |s.starts| - 1
      && s.hits[|s.hits| - 1].ordinal == counter.hits
      && (counter.expires.Some? ==> s.starts[|s.starts| - 1] + cfg.ttl <= counter.expires.value)
  }

  predicate Inv(cfg: Config, s: State) {
    && Spaced(cfg, s.starts) && Logged(s.starts, s.hits) && Current(cfg, s)
    && (forall i | 0 <= i < |s.hits| :: s.hits[i].at <= s.now)
    && (forall i | 0 <= i < |s.starts| :: s.starts[i] <= s.now)
  }

  lemma LogSameEpoch(starts: seq<int>, hits: seq<Hit>, h: Hit)
    requires Logged(starts, hits) && hits != [] && Consecutive(hits[|hits| - 1], h)
    requires h.epoch == hits[|hits| - 1].epoch == |starts| - 1
    ensures Logged(starts, hits + [h])
  {
    var hits' := hits + [h];
    assert Placed(starts, hits[|hits| - 1]);
    forall i | 0 < i < |hits'| ensures Consecutive(hits'[i - 1], hits'[i]) {
      if i < |hits| { assert Consecutive(hits[i - 1], hits[i]); }
    }
    assert Placed(starts, h);
  }

  lemma LogNewEpoch(starts: seq<int>, hits: seq<Hit>, now: int)
    requires Logged(starts, hits)
    requires forall i | 0 <= i < |hits| :: hits[i].at <= now
    requires if hits == [] then starts == [] else hits[|hits| - 1].epoch == |starts| - 1
    ensures Logged(starts + [now], hits + [Hit(now, |starts|, 1)])
  {
    var starts', h := starts + [now], Hit(now, |starts|, 1);
    var hits' := hits + [h];
    forall i | 0 <= i < |hits'| ensures Placed(starts', hits'[i]) {
      if i < |hits| { assert Placed(starts, hits[i]); }
    }
    forall i | 0 < i < |hits'| ensures Consecutive(hits'[i - 1], hits'[i]) {
      if i < |hits| { assert Consecutive(hits[i - 1], hits[i]); }
    }
  }

  lemma CountOpensEpochKeeps(cfg: Config, s: State, c: Client)
    requires cfg.Valid() && Inv(cfg, s) && c in s.clients && s.clients[c].Checked? && !CounterLive(s.keys, s.now)
    ensures Inv(cfg, Next(cfg, s, Count(c)))
  {
    var s' := Next(cfg, s, Count(c));
    assert s'.starts == s.starts + [s.now] && s'.hits == s.hits + [Hit(s.now, |s.starts|, 1)];
    LogNewEpoch(s.starts, s.hits, s.now);
  }

  // Every other step leaves the log alone and at most lengthens the counter's life.
  lemma QuietStepKeeps(cfg: Config, s: State, step: Step)
    requires cfg.Valid() && Inv(cfg, s) && !step.Count?
    ensures Inv(cfg, Next(cfg, s, step))
  {
  }

  // The counter untouched, or given a lifetime that starts now.
  predicate Prolonged(cfg: Config, s: State, counter: Option<Counter>) {
    counter == s.keys.counter
    || (s.keys.counter.Some? && counter == Some(s.keys.counter.value.(expires := Some(s.now + cfg.ttl))))
  }

  lemma NextKeeps(cfg: Config, s: State, step: Step)
    requires cfg.Valid() && Inv(cfg, s)
    ensures Inv(cfg, Next(cfg, s, step))
  {
    if !step.Count? {
      QuietStepKeeps(cfg, s, step);
    } else if step.c in s.clients && s.clients[step.c].Checked? {
      if !CounterLive(s.keys, s.now) { CountOpensEpochKeeps(cfg, s, step.c); }
    } else {
      assert Next(cfg, s, step) == s;
    }
  }

  lemma {:induction false} RunKeeps(cfg: Config, steps: seq<Step>)
    requires cfg.Valid()
    ensures Inv(cfg, Run(cfg, steps))
  {
    if steps != [] {
      RunKeeps(cfg, steps[..|steps| - 1]);
      NextKeeps(cfg, Run(cfg, steps[..|steps| - 1]), steps[|steps| - 1]);
    }
  }
}
