/** One row behind a cache when everything interleaves: a reader asks the cache, reads the row and
  * stores what it read, with awaits in between; a writer changes the row and drops the entry,
  * and the dropping may fail. How stale an answer can be. */
module ReadThrough {
  import opened Basics

  // `lag`: the longest time from a reader's row read to its cache write. `ttl`: milliseconds.
  // `stores`: which rows are cached at all.
  datatype Config<!R> = Config(lag: nat, ttl: nat, stores: R -> bool)

  // A reader between its awaits. `began` is when it asked the cache.
  datatype Phase<R> = Missed(began: int) | Loaded(began: int, row: R, readAt: int)

  datatype Entry<R> = Entry(row: R, expires: int)

  // What a finished reader got, and whether from the cache.
  datatype Answer<R> = Answer(began: int, row: Option<R>, cached: bool)

  // `row` is None when it is missing or deleted.
  datatype State<R> = State(
    now: int, row: Option<R>, entry: Option<Entry<R>>, readers: map<nat, Phase<R>>, answers: seq<Answer<R>>)

  datatype Step<R> =
    | Tick(elapsed: nat)
    | Ask(r: nat)              // cache GET
    | Read(r: nat)             // row SELECT
    | Store(r: nat)            // cache SET where the row is cached, then return
    | Skip(r: nat)             // cache SET failed: return anyway
    | Abandon(r: nat)
    | Lose                     // eviction, or any part of any invalidation
    | Write(row: Option<R>)    // any committed change of the row

  function Fetched<R>(s: State<R>): Option<R> {
    if s.entry.Some? && s.now < s.entry.value.expires then Some(s.entry.value.row) else None
  }

  // A reader stores what it read at most `lag` after reading it; later than that it does not.
  function Next<R>(cfg: Config<R>, s: State<R>, step: Step<R>): State<R> {
    match step
    case Tick(elapsed) => s.(now := s.now + elapsed)
    case Ask(r) =>
      if r in s.readers then s
      else if Fetched(s).Some? then s.(answers := s.answers + [Answer(s.now, Fetched(s), true)])
      else s.(readers := s.readers[r := Missed(s.now)])
    case Read(r) =>
      if r !in s.readers || !s.readers[r].Missed? then s
      else if s.row.None? then
        s.(readers := s.readers - {r}, answers := s.answers + [Answer(s.readers[r].began, None, false)])
      else s.(readers := s.readers[r := Loaded(s.readers[r].began, s.row.value, s.now)])
    case Store(r) =>
      if r !in s.readers || !s.readers[r].Loaded? || s.now > s.readers[r].readAt + cfg.lag then s
      else
        var p := s.readers[r];
        s.(readers := s.readers - {r}, answers := s.answers + [Answer(p.began, Some(p.row), false)],
           entry := if cfg.stores(p.row) then Some(Entry(p.row, s.now + cfg.ttl)) else s.entry)
    case Skip(r) =>
      if r !in s.readers || !s.readers[r].Loaded? then s
      else
        var p := s.readers[r];
        s.(readers := s.readers - {r}, answers := s.answers + [Answer(p.began, Some(p.row), false)])
    case Abandon(r) => s.(readers := s.readers - {r})
    case Lose => s.(entry := None)
    case Write(row) => s.(row := row)
  }

  function RunFrom<R>(cfg: Config<R>, s: State<R>, steps: seq<Step<R>>): State<R> {
    if steps == [] then s else Next(cfg, RunFrom(cfg, s, steps[..|steps| - 1]), steps[|steps| - 1])
  }

  function Initial<R>(row: Option<R>): State<R> { State(0, row, None, map[], []) }

  // ── Invariants ─────────────────────────────────────────────────────────────

  // Nothing carries a date from the future, and only rows to be cached come from the cache.
  predicate Sound<R>(cfg: Config<R>, s: State<R>) {
    && (s.entry.Some? ==> s.entry.value.expires <= s.now + cfg.ttl && cfg.stores(s.entry.value.row))
    && (forall r | r in s.readers :: s.readers[r].began <= s.now)
    && (forall r | r in s.readers && s.readers[r].Loaded? ::
          s.readers[r].began <= s.readers[r].readAt <= s.now)
    && (forall i | 0 <= i < |s.answers| :: s.answers[i].began <= s.now)
    && (forall i | 0 <= i < |s.answers| && s.answers[i].cached ::
          s.answers[i].row.Some? && cfg.stores(s.answers[i].row.value))
  }

  lemma NextSound<R>(cfg: Config<R>, s: State<R>, step: Step<R>)
    requires Sound(cfg, s)
    ensures Sound(cfg, Next(cfg, s, step))
  {
  }

  lemma {:induction false} RunSound<R>(cfg: Config<R>, s: State<R>, steps: seq<Step<R>>)
    requires Sound(cfg, s)
    ensures Sound(cfg, RunFrom(cfg, s, steps))
  {
    if steps != [] {
      RunSound(cfg, s, steps[..|steps| - 1]);
      NextSound(cfg, RunFrom(cfg, s, steps[..|steps| - 1]), steps[|steps| - 1]);
    }
  }

  // Since a change committed at `at` that gave the row a property it has kept: whatever lacks
  // the property is about to expire.
  predicate Settling<R>(cfg: Config<R>, s: State<R>, at: int, kept: Option<R> -> bool) {
    var deadline := at + cfg.lag + cfg.ttl;
    && at <= s.now && kept(s.row)
    && (s.entry.Some? ==> kept(Some(s.entry.value.row)) || s.entry.value.expires <= deadline)
    && (forall r | r in s.readers && s.readers[r].Loaded? ::
          kept(Some(s.readers[r].row)) || s.readers[r].began <= s.readers[r].readAt <= at)
    && (forall r | r in s.readers && s.readers[r].Missed? :: s.readers[r].began <= s.now)
    && (forall i | 0 <= i < |s.answers| :: s.answers[i].began >= deadline ==> kept(s.answers[i].row))
  }

  predicate Keeps<R>(step: Step<R>, kept: Option<R> -> bool) { step.Write? ==> kept(step.row) }

  lemma NextSettling<R>(cfg: Config<R>, s: State<R>, at: int, kept: Option<R> -> bool, step: Step<R>)
    requires cfg.ttl > 0 && Settling(cfg, s, at, kept) && Keeps(step, kept)
    ensures Settling(cfg, Next(cfg, s, step), at, kept)
  {
  }

  lemma {:induction false} StaysSettling<R>(cfg: Config<R>, s: State<R>, at: int, kept: Option<R> -> bool,
                                            steps: seq<Step<R>>)
    requires cfg.ttl > 0 && Settling(cfg, s, at, kept) && forall i | 0 <= i < |steps| :: Keeps(steps[i], kept)
    ensures Settling(cfg, RunFrom(cfg, s, steps), at, kept)
  {
    if steps != [] {
      StaysSettling(cfg, s, at, kept, steps[..|steps| - 1]);
      NextSettling(cfg, RunFrom(cfg, s, steps[..|steps| - 1]), at, kept, steps[|steps| - 1]);
    }
  }

  // ── Main results ───────────────────────────────────────────────────────────

  // Every interleaving before and after, every invalidation lost or half done: a reader that
  // begins `lag` plus the TTL after a change, or later, gets a row with any property that the
  // change established and every change since has kept.
  lemma BoundedStaleness<R>(cfg: Config<R>, row: Option<R>, before: seq<Step<R>>, change: Option<R>,
                            after: seq<Step<R>>, kept: Option<R> -> bool)
    requires cfg.ttl > 0 && kept(change) && forall i | 0 <= i < |after| :: Keeps(after[i], kept)
    ensures var s := RunFrom(cfg, Initial(row), before);
            var s' := RunFrom(cfg, Next(cfg, s, Write(change)), after);
            && Sound(cfg, s')
            && forall i | 0 <= i < |s'.answers| && s'.answers[i].began >= s.now + cfg.lag + cfg.ttl ::
                 kept(s'.answers[i].row)
  {
    var s := RunFrom(cfg, Initial(row), before);
    RunSound(cfg, Initial(row), before);
    NextSound(cfg, s, Write(change));
    RunSound(cfg, Next(cfg, s, Write(change)), after);
    StaysSettling(cfg, Next(cfg, s, Write(change)), s.now, kept, after);
  }

  // The bound is exact: a reader has the old row in hand when the change commits, stores it as
  // late as it may, over a cache invalidated in full, and the next one asks a millisecond early.
  function StaleRun<R>(cfg: Config<R>): seq<Step<R>>
    requires cfg.ttl > 0
  {
    [Step.Tick(cfg.lag), Lose, Store(0)] + [Step.Tick(cfg.ttl - 1), Ask(1)]
  }

  lemma RunTwo<R>(cfg: Config<R>, s: State<R>, a: Step<R>, b: Step<R>)
    ensures RunFrom(cfg, s, [a, b]) == Next(cfg, Next(cfg, s, a), b)
  {
    assert [a, b][..1] == [a] && [a][..0] == [];
    assert RunFrom(cfg, s, [a]) == Next(cfg, s, a);
  }

  lemma RunThree<R>(cfg: Config<R>, s: State<R>, a: Step<R>, b: Step<R>, c: Step<R>)
    ensures RunFrom(cfg, s, [a, b, c]) == Next(cfg, Next(cfg, Next(cfg, s, a), b), c)
  {
    assert [a, b, c][..2] == [a, b];
    RunTwo(cfg, s, a, b);
  }

  lemma {:induction false} RunConcat<R>(cfg: Config<R>, s: State<R>, a: seq<Step<R>>, b: seq<Step<R>>)
    ensures RunFrom(cfg, s, a + b) == RunFrom(cfg, RunFrom(cfg, s, a), b)
  {
    if b == [] {
      assert a + b == a;
    } else {
      assert (a + b)[..|a + b| - 1] == a + b[..|b| - 1];
      RunConcat(cfg, s, a, b[..|b| - 1]);
    }
  }

  lemma StalenessIsTight<R>(cfg: Config<R>, prior: R, change: Option<R>)
    requires cfg.ttl > 0 && cfg.stores(prior)
    ensures var s := RunFrom(cfg, Initial(Some(prior)), [Ask(0), Read(0)]);
            var s' := RunFrom(cfg, Next(cfg, s, Write(change)), StaleRun(cfg));
            && s'.row == change && s'.now == s.now + cfg.lag + cfg.ttl - 1
            && |s'.answers| == 2 && s'.answers[1] == Answer(s.now + cfg.lag + cfg.ttl - 1, Some(prior), true)
  {
    RunTwo(cfg, Initial(Some(prior)), Ask(0), Read(0));
    var s := RunFrom(cfg, Initial(Some(prior)), [Ask(0), Read(0)]);
    var t := Next(cfg, s, Write(change));
    RunThree(cfg, t, Step.Tick(cfg.lag), Lose, Store(0));
    var t3 := RunFrom(cfg, t, [Step.Tick(cfg.lag), Lose, Store(0)]);
    RunConcat(cfg, t, [Step.Tick(cfg.lag), Lose, Store(0)], [Step.Tick(cfg.ttl - 1), Ask(1)]);
    RunTwo(cfg, t3, Step.Tick(cfg.ttl - 1), Ask(1));
  }
}
