/** Refusal without end: clients that crash between their MULTI and their PEXPIRE leave a counter
  * that never expires. Exactly when that shuts a key out, and how many crashes it takes. */
module ThrottlerCrashes {
  import opened Basics
  import opened Throttler
  import opened ThrottlerBounds

  // No expiry, and the limit used up. The refused request, unless it crashes too, sets an expiry.
  predicate ShutOut(cfg: Config, k: Keys) { NoExpiry(k) && k.counter.value.hits >= cfg.limit }

  // Whatever the keys: the next request outside a block is refused however late it comes if and
  // only if the counter has no expiry and the limit is used up.
  lemma RefusedHoweverLate(cfg: Config, k: Keys)
    requires cfg.Valid()
    ensures ShutOut(cfg, k) <==> forall now: int | !Blocked(k, now) :: Decide(cfg, k, now) == Rejected
  {
    if !ShutOut(cfg, k) {
      var unblocked := if k.block.Some? then k.block.value else 0;
      var expired := if k.counter.Some? && k.counter.value.expires.Some? then k.counter.value.expires.value else 0;
      var now := if unblocked < expired then expired else unblocked;
      assert !Blocked(k, now) && Decide(cfg, k, now) == Admitted;
    }
  }

  // ── How many crashes it takes ──────────────────────────────────────────────

  // Clients that still have to set an expiry.
  predicate Owes(s: State, c: Client) {
    c in s.clients && s.clients[c].Counted? && NeedsExpiry(s.clients[c].hits, s.clients[c].left)
  }

  function Owing(s: State): set<Client> { set c | c in s.clients && Owes(s, c) }

  predicate Crash(s: State, step: Step) { step.Leave? && Owes(s, step.c) }

  function Crashes(cfg: Config, steps: seq<Step>): nat {
    if steps == [] then 0
    else
      var front := steps[..|steps| - 1];
      Crashes(cfg, front) + if Crash(Run(cfg, front), steps[|steps| - 1]) then 1 else 0
  }

  predicate PaidFor(s: State, crashes: nat) {
    NoExpiry(s.keys) ==> s.keys.counter.value.hits <= |Owing(s)| + crashes
  }

  lemma CountPaidFor(cfg: Config, s: State, c: Client, crashes: nat)
    requires PaidFor(s, crashes) && c in s.clients && s.clients[c].Checked?
    ensures PaidFor(Next(cfg, s, Count(c)), crashes)
  {
    var s' := Next(cfg, s, Count(c));
    if NoExpiry(s'.keys) {
      assert Owing(s') == Owing(s) + {c};
      assert c !in Owing(s);
    }
  }

  lemma RepairPaidFor(cfg: Config, s: State, c: Client, crashes: nat)
    requires PaidFor(s, crashes) && c in s.clients && s.clients[c].Counted?
    ensures PaidFor(Next(cfg, s, Repair(c)), crashes)
  {
    var s' := Next(cfg, s, Repair(c));
    if !Owes(s, c) { assert Owing(s') == Owing(s); }
  }

  lemma FinishPaidFor(cfg: Config, s: State, c: Client, crashes: nat)
    requires PaidFor(s, crashes) && c in s.clients && s.clients[c].Repaired?
    ensures PaidFor(Next(cfg, s, Finish(c)), crashes)
  {
    assert Owing(Next(cfg, s, Finish(c))) == Owing(s);
  }

  lemma LeavePaidFor(cfg: Config, s: State, c: Client, crashes: nat)
    requires PaidFor(s, crashes)
    ensures PaidFor(Next(cfg, s, Leave(c)), crashes + if Crash(s, Leave(c)) then 1 else 0)
  {
    assert Owing(Next(cfg, s, Leave(c))) == Owing(s) - {c};
  }

  lemma StepPaidFor(cfg: Config, s: State, step: Step, crashes: nat)
    requires PaidFor(s, crashes)
    ensures PaidFor(Next(cfg, s, step), crashes + if Crash(s, step) then 1 else 0)
  {
    match step
    case Count(c) => if c in s.clients && s.clients[c].Checked? { CountPaidFor(cfg, s, c, crashes); }
    case Repair(c) => if c in s.clients && s.clients[c].Counted? { RepairPaidFor(cfg, s, c, crashes); }
    case Finish(c) => if c in s.clients && s.clients[c].Repaired? { FinishPaidFor(cfg, s, c, crashes); }
    case Leave(c) => LeavePaidFor(cfg, s, c, crashes);
    case _ => assert Owing(Next(cfg, s, step)) == Owing(s);
  }

  lemma {:induction false} RunPaidFor(cfg: Config, steps: seq<Step>)
    ensures PaidFor(Run(cfg, steps), Crashes(cfg, steps))
  {
    if steps != [] {
      var front := steps[..|steps| - 1];
      RunPaidFor(cfg, front);
      StepPaidFor(cfg, Run(cfg, front), steps[|steps| - 1], Crashes(cfg, front));
    }
  }

  // Over all interleavings: with no client about to set an expiry, a key that refuses the next
  // request however late it comes has cost `limit` crashes between MULTI and PEXPIRE. One crash
  // alone shuts nobody out unless the limit is one.
  lemma ShutOutTakesCrashes(cfg: Config, steps: seq<Step>)
    requires cfg.Valid()
    ensures var s := Run(cfg, steps);
      Owing(s) == {} && (forall now: int | !Blocked(s.keys, now) :: Decide(cfg, s.keys, now) == Rejected) ==>
        Crashes(cfg, steps) >= cfg.limit
  {
    RunPaidFor(cfg, steps);
    RefusedHoweverLate(cfg, Run(cfg, steps).keys);
  }

  // ── And that many do it ────────────────────────────────────────────────────

  // One client after another is counted and crashes.
  function Crashing(k: nat): seq<Step> {
    if k == 0 then [] else Crashing(k - 1) + [CheckBlock(0)] + [Count(0)] + [Leave(0)]
  }

  predicate CrashedOut(s: State, k: nat) {
    && s.keys == Keys(if k == 0 then None else Some(Counter(k, None)), None)
    && s.clients == map[] && s.now == 0 && |s.hits| == k
    && forall i | 0 <= i < k :: s.hits[i].at == 0 && s.hits[i].ordinal == i + 1
  }

  lemma CrashOnce(cfg: Config, s: State, k: nat)
    requires CrashedOut(s, k)
    ensures var counted := Next(cfg, Next(cfg, s, CheckBlock(0)), Count(0));
            Crash(counted, Leave(0)) && CrashedOut(Next(cfg, counted, Leave(0)), k + 1)
  {
  }

  lemma OneMore(cfg: Config, steps: seq<Step>, step: Step)
    ensures Run(cfg, steps + [step]) == Next(cfg, Run(cfg, steps), step)
    ensures Crashes(cfg, steps + [step]) == Crashes(cfg, steps) + if Crash(Run(cfg, steps), step) then 1 else 0
  {
    assert (steps + [step])[..|steps|] == steps;
  }

  lemma {:induction false} CrashingCrashes(cfg: Config, k: nat)
    ensures CrashedOut(Run(cfg, Crashing(k)), k) && Crashes(cfg, Crashing(k)) == k
  {
    if k > 0 {
      CrashingCrashes(cfg, k - 1);
      var before := Crashing(k - 1);
      OneMore(cfg, before, CheckBlock(0));
      OneMore(cfg, before + [CheckBlock(0)], Count(0));
      OneMore(cfg, before + [CheckBlock(0)] + [Count(0)], Leave(0));
      CrashOnce(cfg, Run(cfg, before), k - 1);
    }
  }

  // For every limit, that many crashes and no more: all of them were admitted at the start, and
  // the next request is refused however late it comes.
  lemma CrashedCounterRefusesLate(cfg: Config, delay: nat)
    requires cfg.Valid()
    ensures var steps := Crashing(cfg.limit); var s := Run(cfg, steps + [Tick(delay)] + Request(1));
      && Crashes(cfg, steps) == cfg.limit && |s.hits| == cfg.limit + 1
      && (forall i | 0 <= i < cfg.limit :: IsAdmission(cfg, s.hits[i]) && s.hits[i].at == 0)
      && !IsAdmission(cfg, s.hits[cfg.limit]) && s.hits[cfg.limit].at == delay && Blocked(s.keys, s.now)
  {
    CrashingCrashes(cfg, cfg.limit);
    var steps := Crashing(cfg.limit);
    var crashed := Run(cfg, steps);
    assert (steps + [Tick(delay)])[..|steps|] == steps;
    var late := Run(cfg, steps + [Tick(delay)]);
    assert late == crashed.(now := delay);
    RunConcat(cfg, INITIAL, steps + [Tick(delay)], Request(1));
    RequestIsAtomic(cfg, late, 1);
    var s := Run(cfg, steps + [Tick(delay)] + Request(1));
    assert forall i | 0 <= i < cfg.limit :: s.hits[i] == s.hits[..|late.hits|][i];
  }
}
