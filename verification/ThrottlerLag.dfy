/** No lockout when requests interleave: if every client that got its MULTI back finishes or
  * crashes within `lag`, and none that opened a counter crashes before its PEXPIRE, no refusal
  * comes later than ttl + blockFor + 3 lag after an admission. */
module ThrottlerLag {
  import opened Basics
  import opened Throttler

  // When each client's latest MULTI returned.
  function Since(cfg: Config, steps: seq<Step>): map<Client, int> {
    if steps == [] then map[]
    else SinceAfter(Run(cfg, steps[..|steps| - 1]), Since(cfg, steps[..|steps| - 1]), steps[|steps| - 1])
  }

  function SinceAfter(s: State, since: map<Client, int>, step: Step): map<Client, int> {
    if step.Count? && step.c in s.clients && s.clients[step.c].Checked? then since[step.c := s.now] else since
  }

  // Between its MULTI and its answer.
  predicate InHand(s: State, c: Client) { c in s.clients && !s.clients[c].Checked? }

  // Time does not pass a client's deadline, and no client that opened a counter crashes before
  // its PEXPIRE. Any other may crash anywhere, and linger for any time before its MULTI.
  predicate PromptStep(lag: nat, s: State, since: map<Client, int>, step: Step) {
    match step
    case Tick(elapsed) => forall c | c in s.clients && c in since && InHand(s, c) :: s.now + elapsed <= since[c] + lag
    case Leave(c) => c in s.clients ==> !(s.clients[c].Counted? && s.clients[c].hits == 1)
    case _ => true
  }

  predicate Prompt(cfg: Config, lag: nat, steps: seq<Step>) {
    steps == []
    || (Prompt(cfg, lag, steps[..|steps| - 1])
        && PromptStep(lag, Run(cfg, steps[..|steps| - 1]), Since(cfg, steps[..|steps| - 1]), steps[|steps| - 1]))
  }

  // ── The invariant ──────────────────────────────────────────────────────────

  // Some admission at most `span` before `at`.
  predicate Recent(cfg: Config, hits: seq<Hit>, at: int, span: int) {
    exists i :: 0 <= i < |hits| && IsAdmission(cfg, hits[i]) && hits[i].at <= at < hits[i].at + span
  }

  // Each counter lifetime was opened by an admitted request.
  predicate Opened(s: State) {
    forall e | 0 <= e < |s.starts| :: Hit(s.starts[e], e, 1) in s.hits
  }

  // A lifetime takes hits for less than ttl + 2 lag.
  predicate HitsInTime(cfg: Config, lag: nat, s: State) {
    forall i | 0 <= i < |s.hits| ::
      0 <= s.hits[i].epoch < |s.starts| && s.hits[i].at < s.starts[s.hits[i].epoch] + cfg.ttl + 2 * lag
  }

  predicate OnTime(lag: nat, s: State, since: map<Client, int>) {
    forall c | c in s.clients && InHand(s, c) :: c in since && since[c] <= s.now <= since[c] + lag
  }

  predicate Opener(s: State, since: map<Client, int>, c: Client, start: int) {
    c in s.clients && s.clients[c].Counted? && s.clients[c].hits == 1 && c in since && since[c] == start
  }

  ghost predicate OpenerAtWork(s: State, since: map<Client, int>, start: int) {
    exists c: Client :: Opener(s, since, c, start)
  }

  function LastStart(s: State): int { if s.starts == [] then 0 else s.starts[|s.starts| - 1] }

  // A counter without an expiry still has its opener at work; one with an expiry has it by
  // ttl + 2 lag after its start.
  ghost predicate CounterTimed(cfg: Config, lag: nat, s: State, since: map<Client, int>) {
    && (s.keys.counter.Some? ==> s.starts != [])
    && (NoExpiry(s.keys) ==> OpenerAtWork(s, since, LastStart(s)))
    && (s.keys.counter.Some? && s.keys.counter.value.expires.Some? ==>
          s.keys.counter.value.expires.value <= LastStart(s) + cfg.ttl + 2 * lag)
  }

  // Who still has to repair counted by `lag` after the current start.
  predicate RepairsTimed(lag: nat, s: State, since: map<Client, int>) {
    forall c | c in s.clients && s.clients[c].Counted? && NeedsExpiry(s.clients[c].hits, s.clients[c].left) ::
      s.starts != [] && c in since && since[c] <= LastStart(s) + lag
  }

  function HitsOf(p: Phase): nat { if p.Checked? then 0 else p.hits }

  predicate RejectionsTimed(cfg: Config, lag: nat, s: State, since: map<Client, int>) {
    forall c | c in s.clients && HitsOf(s.clients[c]) > cfg.limit ::
      c in since && Recent(cfg, s.hits, since[c], cfg.ttl + 2 * lag)
  }

  // The block ends less than ttl + blockFor + 3 lag after some admission.
  predicate BlockTimed(cfg: Config, lag: nat, s: State) {
    s.keys.block.Some? ==>
      exists i :: 0 <= i < |s.hits| && IsAdmission(cfg, s.hits[i]) && s.hits[i].at <= s.now
                  && s.keys.block.value < s.hits[i].at + cfg.ttl + cfg.blockFor + 3 * lag
  }

  ghost predicate Timed(cfg: Config, lag: nat, s: State, since: map<Client, int>) {
    && Opened(s) && HitsInTime(cfg, lag, s) && OnTime(lag, s, since) && CounterTimed(cfg, lag, s, since)
    && RepairsTimed(lag, s, since) && RejectionsTimed(cfg, lag, s, since) && BlockTimed(cfg, lag, s)
  }

  // ── Counting ───────────────────────────────────────────────────────────────

  // A step that keeps the opener where it is.
  lemma OpenerStays(s: State, s': State, since: map<Client, int>, since': map<Client, int>, start: int, c: Client)
    requires OpenerAtWork(s, since, start)
    requires !Opener(s, since, c, start)
    requires forall d | d != c && d in s.clients :: d in s'.clients && s'.clients[d] == s.clients[d]
    requires forall d | d != c && d in since :: d in since' && since'[d] == since[d]
    ensures OpenerAtWork(s', since', start)
  {
    var d: Client :| Opener(s, since, d, start);
    assert Opener(s', since', d, start);
  }

  lemma RecentGrows(cfg: Config, hits: seq<Hit>, h: Hit, at: int, span: int)
    requires Recent(cfg, hits, at, span)
    ensures Recent(cfg, hits + [h], at, span)
  {
    var i :| 0 <= i < |hits| && IsAdmission(cfg, hits[i]) && hits[i].at <= at < hits[i].at + span;
    assert (hits + [h])[i] == hits[i];
  }

  lemma OpenerIsRecent(cfg: Config, s: State, e: nat, at: int, span: int)
    requires cfg.Valid() && Opened(s) && e < |s.starts| && s.starts[e] <= at < s.starts[e] + span
    ensures Recent(cfg, s.hits, at, span)
  {
    assert Hit(s.starts[e], e, 1) in s.hits;
    var i :| 0 <= i < |s.hits| && s.hits[i] == Hit(s.starts[e], e, 1);
    assert IsAdmission(cfg, s.hits[i]);
  }

  // What counting leaves of the state, apart from the log and the client itself.
  predicate Counts(s: State, since: map<Client, int>, c: Client, s': State, since': map<Client, int>, h: Hit) {
    && c in s.clients && s.clients[c].Checked? && s'.hits == s.hits + [h] && h.at == s.now == s'.now
    && s'.keys.block == s.keys.block && since' == since[c := s.now]
    && s'.clients == s.clients[c := Counted(h.ordinal, Pttl(s'.keys, s.now))]
  }

  lemma CountKeepsRest(cfg: Config, lag: nat, s: State, since: map<Client, int>, c: Client,
                       s': State, since': map<Client, int>, h: Hit)
    requires cfg.Valid() && Counts(s, since, c, s', since', h)
    requires OnTime(lag, s, since) && BlockTimed(cfg, lag, s)
    ensures OnTime(lag, s', since') && BlockTimed(cfg, lag, s')
  {
    forall d | d in s'.clients && InHand(s', d) ensures d in since' && since'[d] <= s'.now <= since'[d] + lag {
      assert d != c ==> InHand(s, d);
    }
    if s.keys.block.Some? {
      var i :| 0 <= i < |s.hits| && IsAdmission(cfg, s.hits[i]) && s.hits[i].at <= s.now
               && s.keys.block.value < s.hits[i].at + cfg.ttl + cfg.blockFor + 3 * lag;
      assert s'.hits[i] == s.hits[i];
    }
  }

  lemma CountKeepsRejections(cfg: Config, lag: nat, s: State, since: map<Client, int>, c: Client,
                             s': State, since': map<Client, int>, h: Hit)
    requires cfg.Valid() && Counts(s, since, c, s', since', h) && RejectionsTimed(cfg, lag, s, since)
    requires h.ordinal > cfg.limit ==> Recent(cfg, s.hits, s.now, cfg.ttl + 2 * lag)
    ensures RejectionsTimed(cfg, lag, s', since')
  {
    forall d | d in s'.clients && HitsOf(s'.clients[d]) > cfg.limit
      ensures d in since' && Recent(cfg, s'.hits, since'[d], cfg.ttl + 2 * lag)
    {
      if d != c { assert HitsOf(s.clients[d]) > cfg.limit; }
      RecentGrows(cfg, s.hits, h, since'[d], cfg.ttl + 2 * lag);
    }
  }

  lemma CountInEpochTimed(cfg: Config, lag: nat, s: State, since: map<Client, int>, c: Client,
                          s': State, since': map<Client, int>, h: Hit)
    requires cfg.Valid() && Timed(cfg, lag, s, since)
    requires Counts(s, since, c, s', since', h) && CounterLive(s.keys, s.now)
    requires s'.starts == s.starts && s.starts != [] && LastStart(s) <= s.now
    requires h.ordinal >= 2 && h.epoch == |s.starts| - 1
    requires s'.keys.counter == Some(Counter(h.ordinal, s.keys.counter.value.expires))
    requires Pttl(s'.keys, s.now) < 0 ==> NoExpiry(s.keys)
    ensures Timed(cfg, lag, s', since')
  {
    OpenerIsRecent(cfg, s, |s.starts| - 1, s.now, cfg.ttl + 2 * lag);
    CountKeepsRest(cfg, lag, s, since, c, s', since', h);
    CountKeepsRejections(cfg, lag, s, since, c, s', since', h);
    if NoExpiry(s.keys) { OpenerStays(s, s', since, since', LastStart(s), c); }
    HitsInTimeGrow(cfg, lag, s, s', h);
  }

  lemma HitsInTimeGrow(cfg: Config, lag: nat, s: State, s': State, h: Hit)
    requires HitsInTime(cfg, lag, s) && s'.hits == s.hits + [h] && s.starts <= s'.starts
    requires 0 <= h.epoch < |s'.starts| && h.at < s'.starts[h.epoch] + cfg.ttl + 2 * lag
    ensures HitsInTime(cfg, lag, s')
  {
    forall i | 0 <= i < |s.hits| ensures s'.hits[i] == s.hits[i] && 0 <= s.hits[i].epoch < |s.starts| { }
  }

  lemma CountOpensTimed(cfg: Config, lag: nat, s: State, since: map<Client, int>, c: Client,
                        s': State, since': map<Client, int>, h: Hit)
    requires cfg.Valid() && Timed(cfg, lag, s, since) && Counts(s, since, c, s', since', h)
    requires s'.starts == s.starts + [s.now] && h == Hit(s.now, |s.starts|, 1)
    requires s'.keys.counter == Some(Counter(1, None))
    ensures Timed(cfg, lag, s', since')
  {
    CountKeepsRest(cfg, lag, s, since, c, s', since', h);
    CountKeepsRejections(cfg, lag, s, since, c, s', since', h);
    assert Opener(s', since', c, LastStart(s'));
    OpenedGrows(s, s', h);
    HitsInTimeGrow(cfg, lag, s, s', h);
    assert RepairsTimed(lag, s', since') by {
      forall d | d in s.clients && d != c && s.clients[d].Counted? ensures d in since && since[d] <= s.now {
        assert InHand(s, d);
      }
    }
  }

  lemma OpenedGrows(s: State, s': State, h: Hit)
    requires Opened(s) && h == Hit(s.now, |s.starts|, 1)
    requires s'.starts == s.starts + [s.now] && s'.hits == s.hits + [h]
    ensures Opened(s')
  {
    assert s'.hits[|s.hits|] == h;
    forall e | 0 <= e < |s'.starts| ensures Hit(s'.starts[e], e, 1) in s'.hits {
      if e < |s.starts| { assert Hit(s.starts[e], e, 1) in s.hits; }
    }
  }

  // ── The other steps ────────────────────────────────────────────────────────

  // Clients that stay as they were, or pass from counted to repaired, or are gone.
  predicate Onward(s: State, s': State) {
    && s'.hits == s.hits && s'.starts == s.starts && s'.now == s.now
    && forall d | d in s'.clients && InHand(s', d) ::
         InHand(s, d) && (s'.clients[d] == s.clients[d] || s'.clients[d] == Repaired(HitsOf(s.clients[d])))
  }

  lemma OnwardTimed(cfg: Config, lag: nat, s: State, s': State, since: map<Client, int>)
    requires Onward(s, s') && OnTime(lag, s, since)
    requires RepairsTimed(lag, s, since) && RejectionsTimed(cfg, lag, s, since)
    ensures OnTime(lag, s', since) && RepairsTimed(lag, s', since) && RejectionsTimed(cfg, lag, s', since)
  {
    forall d | d in s'.clients && HitsOf(s'.clients[d]) > cfg.limit
      ensures InHand(s', d) && HitsOf(s.clients[d]) > cfg.limit
    {
      assert InHand(s', d);
    }
    forall d | d in s'.clients && s'.clients[d].Counted? ensures InHand(s', d) && s.clients[d] == s'.clients[d] {
      assert InHand(s', d);
    }
  }

  lemma RepairTimed(cfg: Config, lag: nat, s: State, since: map<Client, int>, c: Client)
    requires cfg.Valid() && Timed(cfg, lag, s, since) && c in s.clients && s.clients[c].Counted?
    ensures Timed(cfg, lag, Next(cfg, s, Repair(c)), since)
  {
    var s' := Next(cfg, s, Repair(c));
    assert InHand(s, c) && Onward(s, s') && s'.keys.block == s.keys.block;
    OnwardTimed(cfg, lag, s, s', since);
    if NoExpiry(s'.keys) {
      assert !Opener(s, since, c, LastStart(s));
      OpenerStays(s, s', since, since, LastStart(s), c);
    }
  }

  lemma BlockSetTimed(cfg: Config, lag: nat, s: State, s': State, at: int)
    requires s'.hits == s.hits && s'.now == s.now && at <= s.now <= at + lag
    requires Recent(cfg, s.hits, at, cfg.ttl + 2 * lag) && s'.keys.block == Some(s.now + cfg.blockFor)
    ensures BlockTimed(cfg, lag, s')
  {
    var i :| 0 <= i < |s.hits| && IsAdmission(cfg, s.hits[i])
             && s.hits[i].at <= at < s.hits[i].at + (cfg.ttl + 2 * lag);
    assert s'.keys.block.value < s'.hits[i].at + cfg.ttl + cfg.blockFor + 3 * lag;
  }

  lemma FinishTimed(cfg: Config, lag: nat, s: State, since: map<Client, int>, c: Client)
    requires cfg.Valid() && Timed(cfg, lag, s, since) && c in s.clients && s.clients[c].Repaired?
    ensures Timed(cfg, lag, Next(cfg, s, Finish(c)), since)
  {
    var s' := Next(cfg, s, Finish(c));
    assert InHand(s, c) && Onward(s, s') && s'.keys.counter == s.keys.counter;
    OnwardTimed(cfg, lag, s, s', since);
    if NoExpiry(s.keys) { OpenerStays(s, s', since, since, LastStart(s), c); }
    if s'.keys.block != s.keys.block {
      assert HitsOf(s.clients[c]) > cfg.limit;
      BlockSetTimed(cfg, lag, s, s', since[c]);
    }
  }

  lemma TickTimed(cfg: Config, lag: nat, s: State, since: map<Client, int>, elapsed: nat)
    requires cfg.Valid() && Timed(cfg, lag, s, since) && PromptStep(lag, s, since, Tick(elapsed))
    ensures Timed(cfg, lag, Next(cfg, s, Tick(elapsed)), since)
  {
    var s' := Next(cfg, s, Tick(elapsed));
    if NoExpiry(s.keys) {
      var d: Client :| Opener(s, since, d, LastStart(s));
      assert Opener(s', since, d, LastStart(s'));
    }
    forall d | d in s'.clients && InHand(s', d) ensures InHand(s, d) { }
  }

  lemma QuietTimed(cfg: Config, lag: nat, s: State, since: map<Client, int>, step: Step)
    requires cfg.Valid() && Timed(cfg, lag, s, since) && PromptStep(lag, s, since, step)
    requires step.CheckBlock? || step.Leave?
    ensures Timed(cfg, lag, Next(cfg, s, step), since)
  {
    var s' := Next(cfg, s, step);
    assert s' == s.(clients := s'.clients) && Onward(s, s');
    OnwardTimed(cfg, lag, s, s', since);
    if NoExpiry(s.keys) && s' != s { OpenerStays(s, s', since, since, LastStart(s), step.c); }
  }

  lemma CountTimed(cfg: Config, lag: nat, s: State, since: map<Client, int>, c: Client)
    requires cfg.Valid() && Inv(cfg, s) && Timed(cfg, lag, s, since) && c in s.clients && s.clients[c].Checked?
    ensures Timed(cfg, lag, Next(cfg, s, Count(c)), since[c := s.now])
  {
    var s', since' := Next(cfg, s, Count(c)), since[c := s.now];
    if CounterLive(s.keys, s.now) {
      var h := Hit(s.now, |s.starts| - 1, s.keys.counter.value.hits + 1);
      CountInEpochTimed(cfg, lag, s, since, c, s', since', h);
    } else {
      CountOpensTimed(cfg, lag, s, since, c, s', since', Hit(s.now, |s.starts|, 1));
    }
  }

  lemma RequestStepTimed(cfg: Config, lag: nat, s: State, since: map<Client, int>, step: Step)
    requires cfg.Valid() && Inv(cfg, s) && Timed(cfg, lag, s, since)
    requires step.Count? || step.Repair? || step.Finish?
    ensures Timed(cfg, lag, Next(cfg, s, step), SinceAfter(s, since, step))
  {
    match step
    case Count(c) => if c in s.clients && s.clients[c].Checked? { CountTimed(cfg, lag, s, since, c); }
    case Repair(c) => if c in s.clients && s.clients[c].Counted? { RepairTimed(cfg, lag, s, since, c); }
    case Finish(c) => if c in s.clients && s.clients[c].Repaired? { FinishTimed(cfg, lag, s, since, c); }
  }

  lemma {:induction false} PromptRunTimed(cfg: Config, lag: nat, steps: seq<Step>)
    requires cfg.Valid() && Prompt(cfg, lag, steps)
    ensures Timed(cfg, lag, Run(cfg, steps), Since(cfg, steps))
  {
    if steps != [] {
      var front := steps[..|steps| - 1];
      PromptRunTimed(cfg, lag, front);
      RunKeeps(cfg, front);
      var s, since, step := Run(cfg, front), Since(cfg, front), steps[|steps| - 1];
      if step.Tick? {
        TickTimed(cfg, lag, s, since, step.elapsed);
      } else if step.CheckBlock? || step.Leave? {
        QuietTimed(cfg, lag, s, since, step);
      } else {
        RequestStepTimed(cfg, lag, s, since, step);
      }
    }
  }

  // For every interleaving in which no client that opened a counter crashes before its PEXPIRE
  // and none lives on for longer than `lag` between its MULTI and its answer: a counted refusal
  // follows an admission by less than ttl + 2 lag, and one at the block key by less than
  // ttl + blockFor + 3 lag - 1.
  lemma PromptNoLockout(cfg: Config, lag: nat, steps: seq<Step>)
    requires cfg.Valid() && Prompt(cfg, lag, steps)
    ensures var s := Run(cfg, steps);
      && (forall i | 0 <= i < |s.hits| && !IsAdmission(cfg, s.hits[i]) ::
            Recent(cfg, s.hits, s.hits[i].at, cfg.ttl + 2 * lag))
      && (Blocked(s.keys, s.now) ==> Recent(cfg, s.hits, s.now, cfg.ttl + cfg.blockFor + 3 * lag - 1))
  {
    PromptRunTimed(cfg, lag, steps);
    RunKeeps(cfg, steps);
    var s := Run(cfg, steps);
    forall i | 0 <= i < |s.hits| ensures Recent(cfg, s.hits, s.hits[i].at, cfg.ttl + 2 * lag) {
      assert Placed(s.starts, s.hits[i]);
      OpenerIsRecent(cfg, s, s.hits[i].epoch, s.hits[i].at, cfg.ttl + 2 * lag);
    }
    if Blocked(s.keys, s.now) {
      var i :| 0 <= i < |s.hits| && IsAdmission(cfg, s.hits[i]) && s.hits[i].at <= s.now
               && s.keys.block.value < s.hits[i].at + cfg.ttl + cfg.blockFor + 3 * lag;
    }
  }
}
