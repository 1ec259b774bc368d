/** The promise chain in front of the embedding pipeline. `embed` first awaits the model; when
  * it resumes it joins the chain: its own run waits for the promise that was last in line,
  * and becomes the last in line itself, failures swallowed. Each run of the pipeline throws or
  * returns a vector of its own, even for a text it has seen before. */
module Serializer {
  import opened Basics
  import Text

  type Caller = nat

  datatype Outcome = Threw | Returned(vector: seq<int>)

  datatype Status = Waiting | Running | Resolved(vector: seq<int>) | Rejected

  // `after` is the link whose settling lets this one start; None for a resolved promise.
  datatype Link = Link(caller: Caller, text: string, after: Option<nat>, status: Status)

  datatype Model = Loading | Ready | Broken

  datatype State = State(
    model: Model,
    arrived: map<Caller, string>,   // calls awaiting the model
    refused: set<Caller>,           // calls the model's failure rejected
    chain: seq<Link>,
    inflight: Option<nat>)

  const START := State(Loading, map[], {}, [], None)

  predicate Settled(s: Status) { s.Resolved? || s.Rejected? }

  // A throw or a vector of the wrong length rejects the caller.
  function Settle(outcome: Outcome, dimensions: nat): Status {
    if outcome.Threw? || |outcome.vector| != dimensions then Rejected else Resolved(outcome.vector)
  }

  predicate CanStart(s: State, i: nat) {
    && i < |s.chain| && s.chain[i].status.Waiting?
    && (s.chain[i].after.Some? ==>
          s.chain[i].after.value < |s.chain| && Settled(s.chain[s.chain[i].after.value].status))
  }

  predicate CanFinish(s: State, i: nat) { i < |s.chain| && s.chain[i].status.Running? }

  function SetStatus(s: State, i: nat, status: Status): State
    requires i < |s.chain|
  {
    s.(chain := s.chain[i := s.chain[i].(status := status)])
  }

  function Join(s: State, c: Caller): State
    requires c in s.arrived
  {
    s.(arrived := s.arrived - {c}, chain := s.chain + [Link(c, s.arrived[c], s.inflight, Waiting)],
       inflight := Some(|s.chain|))
  }

  datatype Step = Arrive(c: Caller, text: string) | Load(ok: bool) | DoJoin(c: Caller) | Refuse(c: Caller)
                | Begin(i: nat) | Finish(i: nat, outcome: Outcome)

  predicate Known(s: State, c: Caller) {
    c in s.arrived || c in s.refused || exists i | 0 <= i < |s.chain| :: s.chain[i].caller == c
  }

  // A step that is not enabled does nothing. A model that failed to load stays failed: the
  // rejected promise is kept.
  function Next(s: State, step: Step, dimensions: nat): State {
    match step
    case Arrive(c, text) => if Known(s, c) then s else s.(arrived := s.arrived[c := text])
    case Load(ok) => if s.model != Loading then s else s.(model := if ok then Ready else Broken)
    case DoJoin(c) => if s.model == Ready && c in s.arrived then Join(s, c) else s
    case Refuse(c) =>
      if s.model == Broken && c in s.arrived then s.(arrived := s.arrived - {c}, refused := s.refused + {c}) else s
    case Begin(i) => if CanStart(s, i) then SetStatus(s, i, Running) else s
    case Finish(i, outcome) => if CanFinish(s, i) then SetStatus(s, i, Settle(outcome, dimensions)) else s
  }

  function Run(steps: seq<Step>, dimensions: nat): State {
    if steps == [] then START
    else Next(Run(steps[..|steps| - 1], dimensions), steps[|steps| - 1], dimensions)
  }

  // ── The invariant ──────────────────────────────────────────────────────────

  predicate Linked(s: State) {
    && s.inflight == (if s.chain == [] then None else Some(|s.chain| - 1))
    && forall i | 0 <= i < |s.chain| :: s.chain[i].after == if i == 0 then None else Some(i - 1)
  }

  // Settled links, then at most one running, then waiting ones.
  predicate InLine(s: State) {
    forall i | 1 <= i < |s.chain| :: !s.chain[i].status.Waiting? ==> Settled(s.chain[i - 1].status)
  }

  predicate Inv(s: State) { Linked(s) && InLine(s) }

  lemma LinkedKeeps(s: State, step: Step, dimensions: nat)
    requires Linked(s)
    ensures Linked(Next(s, step, dimensions))
  {
  }

  lemma InLineKeeps(s: State, step: Step, dimensions: nat)
    requires Linked(s) && InLine(s)
    ensures InLine(Next(s, step, dimensions))
  {
  }

  lemma {:induction false} RunKeeps(steps: seq<Step>, dimensions: nat)
    ensures Inv(Run(steps, dimensions))
  {
    if steps != [] {
      RunKeeps(steps[..|steps| - 1], dimensions);
      LinkedKeeps(Run(steps[..|steps| - 1], dimensions), steps[|steps| - 1], dimensions);
      InLineKeeps(Run(steps[..|steps| - 1], dimensions), steps[|steps| - 1], dimensions);
    }
  }

  lemma {:induction false} AllAheadSettled(s: State, i: nat, j: nat)
    requires InLine(s) && i < j < |s.chain| && !s.chain[j].status.Waiting?
    ensures Settled(s.chain[i].status)
    decreases j
  {
    if i < j - 1 { AllAheadSettled(s, i, j - 1); }
  }

  function SettledCount(chain: seq<Link>): nat {
    if chain == [] then 0
    else SettledCount(chain[..|chain| - 1]) + if Settled(chain[|chain| - 1].status) then 1 else 0
  }

  lemma {:induction false} CountSettledPrefix(chain: seq<Link>, k: nat)
    requires k <= |chain|
    requires forall i | 0 <= i < |chain| :: Settled(chain[i].status) <==> i < k
    ensures SettledCount(chain) == k
  {
    if |chain| > 0 {
      var front := chain[..|chain| - 1];
      CountSettledPrefix(front, if k == |chain| then k - 1 else k);
    }
  }

  // ── What the chain guarantees ──────────────────────────────────────────────

  // At most one call is in the pipeline, and calls enter it in the order they joined.
  lemma OneAtATimeInOrder(steps: seq<Step>, dimensions: nat, i: nat, j: nat)
    ensures var s := Run(steps, dimensions);
      i < j < |s.chain| && !s.chain[j].status.Waiting? ==> Settled(s.chain[i].status)
  {
    RunKeeps(steps, dimensions);
    var s := Run(steps, dimensions);
    if i < j < |s.chain| && !s.chain[j].status.Waiting? { AllAheadSettled(s, i, j); }
  }

  // A waiting call may start exactly when all the calls ahead of it, and no others, are done.
  lemma WaitsForExactlyThoseAhead(steps: seq<Step>, dimensions: nat, i: nat)
    ensures var s := Run(steps, dimensions);
      i < |s.chain| && s.chain[i].status.Waiting? ==> (CanStart(s, i) <==> SettledCount(s.chain) == i)
  {
    RunKeeps(steps, dimensions);
    var s := Run(steps, dimensions);
    if i < |s.chain| && s.chain[i].status.Waiting? {
      var k := FirstUnsettled(s);
      if CanStart(s, i) && i > 0 {
        assert s.chain[i].after == Some(i - 1);
      }
    }
  }

  // The settled calls are a prefix of the chain.
  lemma FirstUnsettled(s: State) returns (k: nat)
    requires InLine(s)
    ensures k <= |s.chain| && forall i | 0 <= i < |s.chain| :: Settled(s.chain[i].status) <==> i < k
    ensures SettledCount(s.chain) == k
  {
    k := 0;
    while k < |s.chain| && Settled(s.chain[k].status)
      invariant k <= |s.chain| && forall i | 0 <= i < k :: Settled(s.chain[i].status)
    {
      k := k + 1;
    }
    forall i | k <= i < |s.chain| ensures !Settled(s.chain[i].status) {
      if Settled(s.chain[i].status) && k < i { AllAheadSettled(s, k, i); }
    }
    CountSettledPrefix(s.chain, k);
  }

  // The text a caller came with.
  function TextOf(steps: seq<Step>, c: Caller): Option<string> {
    if steps == [] then None
    else
      var before, last := TextOf(steps[..|steps| - 1], c), steps[|steps| - 1];
      if before.None? && last.Arrive? && last.c == c then Some(last.text) else before
  }

  // What the pipeline did in the run of link `i`, once that run has ended.
  function OutcomeOf(steps: seq<Step>, i: nat, dimensions: nat): Option<Outcome> {
    if steps == [] then None
    else
      var front, last := steps[..|steps| - 1], steps[|steps| - 1];
      if last.Finish? && last.i == i && CanFinish(Run(front, dimensions), i) then Some(last.outcome)
      else OutcomeOf(front, i, dimensions)
  }

  predicate OwnTexts(s: State, steps: seq<Step>) {
    && (forall c | c in s.arrived :: TextOf(steps, c) == Some(s.arrived[c]))
    && (forall c | c in s.refused :: TextOf(steps, c).Some?)
    && (forall i | 0 <= i < |s.chain| :: TextOf(steps, s.chain[i].caller) == Some(s.chain[i].text))
  }

  predicate OneLinkEach(s: State) {
    && (forall i, j | 0 <= i < j < |s.chain| :: s.chain[i].caller != s.chain[j].caller)
    && (forall i | 0 <= i < |s.chain| :: s.chain[i].caller !in s.arrived)
  }

  lemma KnownStays(s: State, step: Step, dimensions: nat, c: Caller)
    requires Known(s, c)
    ensures Known(Next(s, step, dimensions), c)
  {
    var s' := Next(s, step, dimensions);
    if i :| 0 <= i < |s.chain| && s.chain[i].caller == c {
      assert s'.chain[i].caller == c;
    } else if step.DoJoin? && s.model == Ready && step.c == c && c in s.arrived {
      assert s'.chain[|s.chain|].caller == c;
    }
  }

  // Nobody who came gets lost.
  lemma {:induction false} RunKnown(steps: seq<Step>, dimensions: nat, c: Caller)
    ensures TextOf(steps, c).Some? ==> Known(Run(steps, dimensions), c)
  {
    if steps != [] {
      var front := steps[..|steps| - 1];
      RunKnown(front, dimensions, c);
      if Known(Run(front, dimensions), c) { KnownStays(Run(front, dimensions), steps[|steps| - 1], dimensions, c); }
    }
  }

  lemma {:induction false} RunOwnTexts(steps: seq<Step>, dimensions: nat)
    ensures OwnTexts(Run(steps, dimensions), steps) && OneLinkEach(Run(steps, dimensions))
  {
    if steps != [] {
      var front, step := steps[..|steps| - 1], steps[|steps| - 1];
      RunOwnTexts(front, dimensions);
      if step.Arrive? { RunKnown(front, dimensions, step.c); }
      TextsKeep(Run(front, dimensions), steps, dimensions);
      OneLinkKeeps(Run(front, dimensions), step, dimensions);
    }
  }

  lemma TextsKeep(s: State, steps: seq<Step>, dimensions: nat)
    requires steps != [] && OwnTexts(s, steps[..|steps| - 1])
    requires var step := steps[|steps| - 1];
             step.Arrive? && TextOf(steps[..|steps| - 1], step.c).Some? ==> Known(s, step.c)
    ensures OwnTexts(Next(s, steps[|steps| - 1], dimensions), steps)
  {
    var s' := Next(s, steps[|steps| - 1], dimensions);
    forall i | 0 <= i < |s'.chain| ensures TextOf(steps, s'.chain[i].caller) == Some(s'.chain[i].text) {
      if i < |s.chain| { assert s'.chain[i].caller == s.chain[i].caller && s'.chain[i].text == s.chain[i].text; }
    }
  }

  lemma OneLinkKeeps(s: State, step: Step, dimensions: nat)
    requires OneLinkEach(s)
    ensures OneLinkEach(Next(s, step, dimensions))
  {
    if step.Arrive? && !Known(s, step.c) {
      forall i | 0 <= i < |s.chain| ensures s.chain[i].caller != step.c { }
    }
  }

  lemma {:induction false} RunOwnOutcomes(steps: seq<Step>, dimensions: nat, i: nat)
    ensures var s, outcome := Run(steps, dimensions), OutcomeOf(steps, i, dimensions);
      && (outcome.Some? ==> i < |s.chain| && s.chain[i].status == Settle(outcome.value, dimensions))
      && (i < |s.chain| && Settled(s.chain[i].status) ==> outcome.Some?)
  {
    if steps != [] { RunOwnOutcomes(steps[..|steps| - 1], dimensions, i); }
  }

  // Each caller has at most one link, with its own text; the link is settled if and only if its
  // own run has ended, and by what that run gave: neither the calls before it nor their failures
  // show, nor an equal text of somebody else.
  lemma OwnResultOnly(steps: seq<Step>, dimensions: nat, i: nat)
    ensures var s, outcome := Run(steps, dimensions), OutcomeOf(steps, i, dimensions);
      i < |s.chain| ==>
        && TextOf(steps, s.chain[i].caller) == Some(s.chain[i].text)
        && (forall j | 0 <= j < |s.chain| && s.chain[j].caller == s.chain[i].caller :: j == i)
        && (Settled(s.chain[i].status) <==> outcome.Some?)
        && (outcome.Some? ==>
              && (s.chain[i].status.Rejected? <==> outcome.value.Threw? || |outcome.value.vector| != dimensions)
              && (s.chain[i].status.Resolved? ==> Returned(s.chain[i].status.vector) == outcome.value))
  {
    RunOwnTexts(steps, dimensions);
    RunOwnOutcomes(steps, dimensions, i);
  }

  // No deadlock: while a joined call is unsettled, exactly one Begin or Finish is enabled,
  // that of the first unsettled call.
  lemma AlwaysOneEnabled(steps: seq<Step>, dimensions: nat)
    ensures var s := Run(steps, dimensions); var k := SettledCount(s.chain);
      && k <= |s.chain|
      && (k < |s.chain| ==> CanStart(s, k) != CanFinish(s, k))
      && (forall i: nat | i != k :: !CanStart(s, i) && !CanFinish(s, i))
  {
    RunKeeps(steps, dimensions);
    var s := Run(steps, dimensions);
    var k := FirstUnsettled(s);
    forall i: nat | i < |s.chain| && i != k ensures !CanStart(s, i) && !CanFinish(s, i) {
      if i > k && !s.chain[i].status.Waiting? { AllAheadSettled(s, k, i); }
    }
  }

  // ── What is sent ───────────────────────────────────────────────────────────

  function Clip(text: string, limit: nat): string {
    var trimmed := Text.Trim(text);
    if |trimmed| <= limit then trimmed else trimmed[..limit]
  }

  // Clipped text fits. Clipping it again changes it exactly when the cut left a space at
  // the end, and never a third time.
  lemma ClipSettles(text: string, limit: nat)
    ensures var once := Clip(text, limit); var twice := Clip(once, limit);
      && |once| <= limit
      && (twice == once <==> once == [] || !Text.IsSpace(once[|once| - 1]))
      && Clip(twice, limit) == twice
  {
    var once := Clip(text, limit);
    Text.TrimMeans(text);
    Text.TrimMeans(once);
    Text.TrimMeans(Text.Trim(once));
    TrimShrinks(once);
    if once != [] { assert once[0] == Text.Trim(text)[0]; }
  }

  // What survives: the text without the white space around it, or its first `limit` characters.
  lemma ClipKeeps(text: string, limit: nat) returns (from: nat, to: nat)
    ensures from <= to <= |text| && Clip(text, limit) == text[from..to]
    ensures forall k | 0 <= k < from :: Text.IsSpace(text[k])
    ensures to == from || !Text.IsSpace(text[from])
    ensures to - from == limit || (to - from < limit && forall k | to <= k < |text| :: Text.IsSpace(text[k]))
    ensures to == from && limit > 0 ==> forall k | 0 <= k < |text| :: Text.IsSpace(text[k])
    ensures to > from && to - from < limit ==> !Text.IsSpace(text[to - 1])
  {
    var i, j := Text.TrimKeeps(text);
    from, to := i, if j - i <= limit then j else i + limit;
    assert text[i..j][..to - i] == text[i..to];
    if j > i { assert text[i..j][0] == text[i] && text[i..j][j - i - 1] == text[j - 1]; }
  }

  lemma TrimShrinks(s: string)
    ensures |Text.Trim(s)| <= |s|
  {
    Text.TrimEndMeans(Text.TrimStart(s));
    TrimStartShrinks(s);
  }

  lemma {:induction false} TrimStartShrinks(s: string)
    ensures |Text.TrimStart(s)| <= |s|
  {
    if s != [] { TrimStartShrinks(s[1..]); }
  }
}
