/** The span of ThrottlerLag is exact: for every limit a prompt run, without any crash, in which
  * a request is refused as late as the bound lets it be. */
module ThrottlerLagTight {
  import opened Basics
  import opened Throttler
  import opened ThrottlerLag

  // A state and the clients' clocks.
  datatype Stop = Stop(state: State, since: map<Client, int>)

  // A step of a prompt run, unless it is a crash.
  function Move(cfg: Config, lag: nat, at: Stop, step: Step): Option<Stop> {
    if step.Leave? || !PromptStep(lag, at.state, at.since, step) then None
    else Some(Stop(Next(cfg, at.state, step), SinceAfter(at.state, at.since, step)))
  }

  // A run with the stops it makes.
  datatype Trail = Start | Then(before: Trail, step: Step, stop: Stop)

  function StopOf(t: Trail): Stop { if t.Start? then Stop(INITIAL, map[]) else t.stop }

  function StepsOf(t: Trail): seq<Step> { if t.Start? then [] else StepsOf(t.before) + [t.step] }

  predicate Holds(cfg: Config, lag: nat, t: Trail) {
    t.Then? ==> Holds(cfg, lag, t.before) && Move(cfg, lag, StopOf(t.before), t.step) == Some(t.stop)
  }

  lemma {:induction false} TrailIsRun(cfg: Config, lag: nat, t: Trail)
    requires Holds(cfg, lag, t)
    ensures var steps := StepsOf(t);
      Prompt(cfg, lag, steps) && Stop(Run(cfg, steps), Since(cfg, steps)) == StopOf(t)
    ensures forall i | 0 <= i < |StepsOf(t)| :: !StepsOf(t)[i].Leave?
  {
    if t.Then? {
      TrailIsRun(cfg, lag, t.before);
      assert StepsOf(t)[..|StepsOf(t)| - 1] == StepsOf(t.before);
    }
  }

  lemma TwoMore(cfg: Config, lag: nat, t: Trail, a: Step, s1: Stop, b: Step, s2: Stop) returns (t': Trail)
    requires Holds(cfg, lag, t)
    requires Move(cfg, lag, StopOf(t), a) == Some(s1) && Move(cfg, lag, s1, b) == Some(s2)
    ensures Holds(cfg, lag, t') && StopOf(t') == s2
  {
    t' := Then(Then(t, a, s1), b, s2);
  }

  // ── Using up the limit at time 0 ───────────────────────────────────────────

  // Client 0 opens the window and the clients from 3 on use up the limit; none has set the
  // expiry yet.
  const OPEN: map<Client, Phase> := map[0 := Counted(1, -1), 1 := Checked, 2 := Checked]

  function Fillers(k: nat): map<Client, Phase> {
    if k == 0 then map[] else Fillers(k - 1)[k + 2 := Counted(k + 1, -1)]
  }

  function FillHits(k: nat): seq<Hit> {
    if k == 0 then [Hit(0, 0, 1)] else FillHits(k - 1) + [Hit(0, 0, k + 1)]
  }

  function FillSince(k: nat): map<Client, int> {
    if k == 0 then map[0 := 0] else FillSince(k - 1)[k + 2 := 0]
  }

  lemma {:induction false} FillersAre(k: nat)
    ensures forall c | c in Fillers(k) :: 3 <= c <= k + 2
    ensures forall c | c in FillSince(k) :: (c == 0 || 3 <= c <= k + 2) && FillSince(k)[c] == 0
    ensures forall i | 0 <= i < |FillHits(k)| :: FillHits(k)[i].at == 0
  {
    if k > 0 { FillersAre(k - 1); }
  }

  function CrowdOf(k: nat, clients: map<Client, Phase>): State {
    State(0, Keys(Some(Counter(k + 1, None)), None), clients, [0], FillHits(k))
  }

  function Filled(k: nat): Stop { Stop(CrowdOf(k, Fillers(k) + OPEN), FillSince(k)) }

  function Filling(k: nat): Stop { Stop(CrowdOf(k, (Fillers(k) + OPEN)[k + 3 := Checked]), FillSince(k)) }

  function Unopened(clients: map<Client, Phase>): Stop { Stop(State(0, Keys(None, None), clients, [], []), map[]) }

  lemma OpeningMoves(cfg: Config, lag: nat)
    ensures var one, two := Unopened(map[0 := Checked]), Unopened(map[0 := Checked, 1 := Checked]);
            var three := Unopened(map[0 := Checked, 1 := Checked, 2 := Checked]);
      && Move(cfg, lag, StopOf(Start), CheckBlock(0)) == Some(one)
      && Move(cfg, lag, one, CheckBlock(1)) == Some(two)
      && Move(cfg, lag, two, CheckBlock(2)) == Some(three)
      && Move(cfg, lag, three, Count(0)) == Some(Filled(0))
  {
    assert map[0 := Checked, 1 := Checked, 2 := Checked][0 := Counted(1, -1)] == Fillers(0) + OPEN;
    var three := Unopened(map[0 := Checked, 1 := Checked, 2 := Checked]);
    var s := Next(cfg, three.state, Count(0));
    assert s.starts == [0] && s.hits == FillHits(0) && s.keys == Keys(Some(Counter(1, None)), None);
    assert s.clients == Fillers(0) + OPEN;
    assert SinceAfter(three.state, three.since, Count(0)) == FillSince(0);
  }

  lemma Open(cfg: Config, lag: nat) returns (t: Trail)
    ensures Holds(cfg, lag, t) && StopOf(t) == Filled(0)
  {
    var one, two := Unopened(map[0 := Checked]), Unopened(map[0 := Checked, 1 := Checked]);
    var three := Unopened(map[0 := Checked, 1 := Checked, 2 := Checked]);
    OpeningMoves(cfg, lag);
    t := TwoMore(cfg, lag, Start, CheckBlock(0), one, CheckBlock(1), two);
    t := TwoMore(cfg, lag, t, CheckBlock(2), three, Count(0), Filled(0));
  }

  lemma FillMoves(cfg: Config, lag: nat, k: nat)
    requires k > 0
    ensures Move(cfg, lag, Filled(k - 1), CheckBlock(k + 2)) == Some(Filling(k - 1))
    ensures Move(cfg, lag, Filling(k - 1), Count(k + 2)) == Some(Filled(k))
  {
    FillersAre(k - 1);
    assert (Fillers(k - 1) + OPEN)[k + 2 := Checked][k + 2 := Counted(k + 1, -1)] == Fillers(k) + OPEN;
  }

  lemma {:induction false} Fill(cfg: Config, lag: nat, k: nat) returns (t: Trail)
    ensures Holds(cfg, lag, t) && StopOf(t) == Filled(k)
  {
    if k == 0 {
      t := Open(cfg, lag);
    } else {
      t := Fill(cfg, lag, k - 1);
      FillMoves(cfg, lag, k);
      t := TwoMore(cfg, lag, t, CheckBlock(k + 2), Filling(k - 1), Count(k + 2), Filled(k));
    }
  }

  // ── One more, and the expiry ───────────────────────────────────────────────

  // From here on the log and the clocks are those of the moment after client 1 counted.
  datatype Past = Past(hits: seq<Hit>, since: map<Client, int>)

  function At(cfg: Config, r: Past, now: int, expires: Option<int>, block: Option<int>,
              clients: map<Client, Phase>): Stop {
    Stop(State(now, Keys(Some(Counter(cfg.limit + 1, expires)), block), clients, [0], r.hits), r.since)
  }

  function Late(cfg: Config): map<Client, Phase> { map[1 := Counted(cfg.limit + 1, -1), 2 := Checked] }

  function CrowdClients(cfg: Config, k: nat): map<Client, Phase> { Fillers(k) + OPEN[1 := Counted(cfg.limit + 1, -1)] }

  function PastOf(k: nat, lag: nat): Past {
    Past(FillHits(k) + [Hit(lag, 0, k + 2)], FillSince(k)[1 := lag])
  }

  // `lag` later client 1 counts.
  function Waited(lag: nat, k: nat): Stop { Stop(Filled(k).state.(now := lag), FillSince(k)) }

  function Crowd(cfg: Config, lag: nat, k: nat, r: Past): Stop {
    At(cfg, r, lag, None, None, CrowdClients(cfg, k))
  }

  lemma OverfillMoves(cfg: Config, lag: nat, k: nat)
    requires cfg.limit == k + 1
    ensures Move(cfg, lag, Filled(k), Tick(lag)) == Some(Waited(lag, k))
    ensures Move(cfg, lag, Waited(lag, k), Count(1)) == Some(Crowd(cfg, lag, k, PastOf(k, lag)))
  {
    FillersAre(k);
    assert (Fillers(k) + OPEN)[1 := Counted(cfg.limit + 1, -1)] == CrowdClients(cfg, k);
  }

  lemma Overfill(cfg: Config, lag: nat, k: nat) returns (t: Trail)
    requires cfg.limit == k + 1
    ensures Holds(cfg, lag, t) && StopOf(t) == Crowd(cfg, lag, k, PastOf(k, lag))
  {
    t := Fill(cfg, lag, k);
    OverfillMoves(cfg, lag, k);
    t := TwoMore(cfg, lag, t, Tick(lag), Waited(lag, k), Count(1), Crowd(cfg, lag, k, PastOf(k, lag)));
  }

  // Then all but client 1 set the expiry and finish; the clients from 3 to k + 2 are left.
  function Draining(cfg: Config, lag: nat, k: nat, r: Past): Stop {
    At(cfg, r, lag, Some(lag + cfg.ttl), None, Fillers(k) + Late(cfg))
  }

  function OpenerRepaired(cfg: Config, lag: nat, k: nat, r: Past): Stop {
    At(cfg, r, lag, Some(lag + cfg.ttl), None, CrowdClients(cfg, k)[0 := Repaired(1)])
  }

  function FillerRepaired(cfg: Config, lag: nat, k: nat, r: Past): Stop {
    At(cfg, r, lag, Some(lag + cfg.ttl), None, (Fillers(k) + Late(cfg))[k + 2 := Repaired(k + 1)])
  }

  lemma OpenerMoves(cfg: Config, lag: nat, k: nat, r: Past)
    requires cfg.Valid()
    ensures Move(cfg, lag, Crowd(cfg, lag, k, r), Repair(0)) == Some(OpenerRepaired(cfg, lag, k, r))
    ensures Move(cfg, lag, OpenerRepaired(cfg, lag, k, r), Finish(0)) == Some(Draining(cfg, lag, k, r))
  {
    OpenerGoes(cfg, k);
  }

  lemma OpenerGoes(cfg: Config, k: nat)
    ensures var clients := CrowdClients(cfg, k);
      && 0 in clients && clients[0] == Counted(1, -1)
      && clients[0 := Repaired(1)] - {0} == Fillers(k) + Late(cfg)
  {
    FillersAre(k);
  }

  lemma DrainOpener(cfg: Config, lag: nat, k: nat, r: Past, t: Trail) returns (t': Trail)
    requires cfg.Valid() && Holds(cfg, lag, t) && StopOf(t) == Crowd(cfg, lag, k, r)
    ensures Holds(cfg, lag, t') && StopOf(t') == Draining(cfg, lag, k, r)
  {
    OpenerMoves(cfg, lag, k, r);
    t' := TwoMore(cfg, lag, t, Repair(0), OpenerRepaired(cfg, lag, k, r), Finish(0), Draining(cfg, lag, k, r));
  }

  lemma FillerMoves(cfg: Config, lag: nat, k: nat, r: Past)
    requires cfg.Valid() && 0 < k < cfg.limit
    ensures Move(cfg, lag, Draining(cfg, lag, k, r), Repair(k + 2)) == Some(FillerRepaired(cfg, lag, k, r))
    ensures Move(cfg, lag, FillerRepaired(cfg, lag, k, r), Finish(k + 2)) == Some(Draining(cfg, lag, k - 1, r))
  {
    FillersAre(k - 1);
    var clients, c := Fillers(k) + Late(cfg), k + 2;
    assert clients[c] == Counted(k + 1, -1);
    assert clients[c := Repaired(k + 1)] - {c} == Fillers(k - 1) + Late(cfg);
  }

  lemma {:induction false} Drain(cfg: Config, lag: nat, k: nat, r: Past, t: Trail) returns (t': Trail)
    requires cfg.Valid() && k < cfg.limit && Holds(cfg, lag, t) && StopOf(t) == Draining(cfg, lag, k, r)
    ensures Holds(cfg, lag, t') && StopOf(t') == Draining(cfg, lag, 0, r)
    decreases k
  {
    t' := t;
    if k > 0 {
      t' := DrainOne(cfg, lag, k, r, t);
      t' := Drain(cfg, lag, k - 1, r, t');
    }
  }

  lemma DrainOne(cfg: Config, lag: nat, k: nat, r: Past, t: Trail) returns (t': Trail)
    requires cfg.Valid() && 0 < k < cfg.limit && Holds(cfg, lag, t) && StopOf(t) == Draining(cfg, lag, k, r)
    ensures Holds(cfg, lag, t') && StopOf(t') == Draining(cfg, lag, k - 1, r)
  {
    FillerMoves(cfg, lag, k, r);
    t' := TwoMore(cfg, lag, t, Repair(k + 2), FillerRepaired(cfg, lag, k, r), Finish(k + 2),
                  Draining(cfg, lag, k - 1, r));
  }

  // ── As late as can be ──────────────────────────────────────────────────────

  // `lag` later still client 1 sets the expiry again, and the block; then the window runs out
  // but for a millisecond.
  function Waiting(cfg: Config, lag: nat, r: Past): Stop {
    At(cfg, r, 2 * lag, Some(lag + cfg.ttl), None, Late(cfg))
  }

  function Extended(cfg: Config, lag: nat, r: Past): Stop {
    At(cfg, r, 2 * lag, Some(2 * lag + cfg.ttl), None, map[1 := Repaired(cfg.limit + 1), 2 := Checked])
  }

  function BlockSet(cfg: Config, lag: nat, r: Past, now: int): Stop {
    At(cfg, r, now, Some(2 * lag + cfg.ttl), Some(2 * lag + cfg.blockFor), map[2 := Checked])
  }

  function LastInstant(cfg: Config, lag: nat): int { 2 * lag + cfg.ttl - 1 }

  predicate Dated(lag: nat, r: Past) { 1 in r.since && r.since[1] == lag }

  lemma StretchMoves(cfg: Config, lag: nat, r: Past)
    requires cfg.Valid() && lag < cfg.ttl && Dated(lag, r)
    ensures Move(cfg, lag, Draining(cfg, lag, 0, r), Tick(lag)) == Some(Waiting(cfg, lag, r))
    ensures Move(cfg, lag, Waiting(cfg, lag, r), Repair(1)) == Some(Extended(cfg, lag, r))
  {
    assert Fillers(0) + Late(cfg) == Late(cfg);
    assert Late(cfg)[1 := Repaired(cfg.limit + 1)] == map[1 := Repaired(cfg.limit + 1), 2 := Checked];
  }

  lemma ElapseMoves(cfg: Config, lag: nat, r: Past)
    requires cfg.Valid()
    ensures Move(cfg, lag, Extended(cfg, lag, r), Finish(1)) == Some(BlockSet(cfg, lag, r, 2 * lag))
    ensures Move(cfg, lag, BlockSet(cfg, lag, r, 2 * lag), Tick(cfg.ttl - 1))
            == Some(BlockSet(cfg, lag, r, LastInstant(cfg, lag)))
  {
    assert map[1 := Repaired(cfg.limit + 1), 2 := Checked] - {1} == map[2 := Checked];
  }

  lemma Elapse(cfg: Config, lag: nat, r: Past, t: Trail) returns (t': Trail)
    requires cfg.Valid() && lag < cfg.ttl && Dated(lag, r)
    requires Holds(cfg, lag, t) && StopOf(t) == Draining(cfg, lag, 0, r)
    ensures Holds(cfg, lag, t') && StopOf(t') == BlockSet(cfg, lag, r, LastInstant(cfg, lag))
  {
    StretchMoves(cfg, lag, r);
    ElapseMoves(cfg, lag, r);
    t' := TwoMore(cfg, lag, t, Tick(lag), Waiting(cfg, lag, r), Repair(1), Extended(cfg, lag, r));
    t' := TwoMore(cfg, lag, t', Finish(1), BlockSet(cfg, lag, r, 2 * lag), Tick(cfg.ttl - 1),
                  BlockSet(cfg, lag, r, LastInstant(cfg, lag)));
  }

  // Client 2, let through by the block check long ago, counts in that millisecond and sets the
  // block `lag` later.
  function LastAt(cfg: Config, lag: nat, r: Past, now: int, until: int, clients: map<Client, Phase>): Stop {
    var last := LastInstant(cfg, lag);
    Stop(State(now, Keys(Some(Counter(cfg.limit + 2, Some(last + 1))), Some(until)), clients, [0],
               r.hits + [Hit(last, 0, cfg.limit + 2)]),
         r.since[2 := last])
  }

  function LastCounted(cfg: Config, lag: nat, r: Past): Stop {
    LastAt(cfg, lag, r, LastInstant(cfg, lag), 2 * lag + cfg.blockFor, map[2 := Counted(cfg.limit + 2, 1)])
  }

  function LastRepaired(cfg: Config, lag: nat, r: Past, now: int): Stop {
    LastAt(cfg, lag, r, now, 2 * lag + cfg.blockFor, map[2 := Repaired(cfg.limit + 2)])
  }

  function Refusing(cfg: Config, lag: nat, r: Past, now: int): Stop {
    LastAt(cfg, lag, r, now, LastInstant(cfg, lag) + lag + cfg.blockFor, map[])
  }

  lemma LastCountMoves(cfg: Config, lag: nat, r: Past)
    requires cfg.Valid()
    ensures var now := LastInstant(cfg, lag);
      && Move(cfg, lag, BlockSet(cfg, lag, r, now), Count(2)) == Some(LastCounted(cfg, lag, r))
      && Move(cfg, lag, LastCounted(cfg, lag, r), Repair(2)) == Some(LastRepaired(cfg, lag, r, now))
  {
    assert map[2 := Checked][2 := Counted(cfg.limit + 2, 1)] == map[2 := Counted(cfg.limit + 2, 1)];
    assert map[2 := Counted(cfg.limit + 2, 1)][2 := Repaired(cfg.limit + 2)] == map[2 := Repaired(cfg.limit + 2)];
  }

  lemma LastBlockMoves(cfg: Config, lag: nat, r: Past)
    requires cfg.Valid() && cfg.blockFor < cfg.ttl + lag
    ensures var now := LastInstant(cfg, lag) + lag;
      && Move(cfg, lag, LastRepaired(cfg, lag, r, now - lag), Tick(lag)) == Some(LastRepaired(cfg, lag, r, now))
      && Move(cfg, lag, LastRepaired(cfg, lag, r, now), Finish(2)) == Some(Refusing(cfg, lag, r, now))
  {
    assert map[2 := Repaired(cfg.limit + 2)] - {2} == map[];
  }

  lemma LastBlock(cfg: Config, lag: nat, r: Past, t: Trail) returns (t': Trail)
    requires cfg.Valid() && cfg.blockFor < cfg.ttl + lag && Holds(cfg, lag, t)
    requires StopOf(t) == BlockSet(cfg, lag, r, LastInstant(cfg, lag))
    ensures Holds(cfg, lag, t') && StopOf(t') == Refusing(cfg, lag, r, LastInstant(cfg, lag) + lag)
  {
    var now := LastInstant(cfg, lag);
    LastCountMoves(cfg, lag, r);
    LastBlockMoves(cfg, lag, r);
    t' := TwoMore(cfg, lag, t, Count(2), LastCounted(cfg, lag, r), Repair(2), LastRepaired(cfg, lag, r, now));
    t' := TwoMore(cfg, lag, t', Tick(lag), LastRepaired(cfg, lag, r, now + lag), Finish(2),
                  Refusing(cfg, lag, r, now + lag));
  }

  // And a last request comes just before the block ends.
  lemma LastRefusal(cfg: Config, lag: nat, r: Past, t: Trail) returns (t': Trail)
    requires cfg.Valid() && Holds(cfg, lag, t)
    requires StopOf(t) == Refusing(cfg, lag, r, LastInstant(cfg, lag) + lag)
    ensures Holds(cfg, lag, t')
    ensures StopOf(t') == Refusing(cfg, lag, r, LastInstant(cfg, lag) + lag + cfg.blockFor - 1)
  {
    t' := Then(t, Tick(cfg.blockFor - 1), Refusing(cfg, lag, r, LastInstant(cfg, lag) + lag + cfg.blockFor - 1));
  }

  lemma LateRun(cfg: Config, lag: nat, k: nat) returns (t: Trail)
    requires cfg.Valid() && cfg.limit == k + 1 && lag < cfg.ttl && cfg.blockFor < cfg.ttl + lag
    ensures Holds(cfg, lag, t)
    ensures StopOf(t) == Refusing(cfg, lag, PastOf(k, lag), LastInstant(cfg, lag) + lag + cfg.blockFor - 1)
  {
    var r := PastOf(k, lag);
    t := Overfill(cfg, lag, k);
    t := DrainOpener(cfg, lag, k, r, t);
    t := Drain(cfg, lag, k, r, t);
    t := Elapse(cfg, lag, r, t);
    t := LastBlock(cfg, lag, r, t);
    t := LastRefusal(cfg, lag, r, t);
  }

  // For every limit the span of PromptNoLockout is reached to the millisecond, without any
  // crash: the only admissions are at 0, and a request is still refused at
  // ttl + blockFor + 3 lag - 2.
  lemma PromptBoundIsTight(cfg: Config, lag: nat) returns (steps: seq<Step>)
    requires cfg.Valid() && lag < cfg.ttl && cfg.blockFor < cfg.ttl + lag
    ensures Prompt(cfg, lag, steps) && forall i | 0 <= i < |steps| :: !steps[i].Leave?
    ensures var s := Run(cfg, steps);
      && s.now == cfg.ttl + cfg.blockFor + 3 * lag - 2 && Blocked(s.keys, s.now)
      && forall i | 0 <= i < |s.hits| && IsAdmission(cfg, s.hits[i]) :: s.hits[i].at == 0
  {
    var t := LateRun(cfg, lag, cfg.limit - 1);
    TrailIsRun(cfg, lag, t);
    steps := StepsOf(t);
    LateAdmissions(cfg, lag, cfg.limit - 1);
    assert Run(cfg, steps).hits
           == PastOf(cfg.limit - 1, lag).hits + [Hit(LastInstant(cfg, lag), 0, cfg.limit + 2)];
  }

  lemma LateAdmissions(cfg: Config, lag: nat, k: nat)
    requires cfg.limit == k + 1
    ensures var hits := PastOf(k, lag).hits + [Hit(LastInstant(cfg, lag), 0, cfg.limit + 2)];
            forall i | 0 <= i < |hits| && IsAdmission(cfg, hits[i]) :: hits[i].at == 0
  {
    FillersAre(k);
  }
}
