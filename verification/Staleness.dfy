/** How stale a session, and how stale a component, can be when reads, cache writes and
  * invalidations interleave freely. */
module Staleness {
  import opened Basics
  import Accounts
  import Cache
  import Catalog
  import opened ReadThrough

  // ── Sessions ───────────────────────────────────────────────────────────────

  // `hydrate` caches every session it finds.
  function Sessions(lag: nat): Config<Accounts.SessionState> {
    Config(lag, Cache.SESSION_TTL * Cache.SECOND, s => true)
  }

  predicate Suspended(session: Option<Accounts.SessionState>, until: int) {
    session.Some? && session.value.suspendedUntil == Some(until)
  }

  // Every interleaving before and after, every invalidation lost or half done: a `hydrate` that
  // begins `lag` plus 30 seconds after a suspension, or later, sees it, and the guard refuses,
  // as long as nothing lifts the suspension.
  lemma SuspensionSeen(lag: nat, row: Option<Accounts.SessionState>, before: seq<Step<Accounts.SessionState>>,
                       until: int, after: seq<Step<Accounts.SessionState>>)
    requires RunFrom(Sessions(lag), Initial(row), before).row.Some?
    requires forall i | 0 <= i < |after| && after[i].Write? :: Suspended(after[i].row, until)
    ensures var s := RunFrom(Sessions(lag), Initial(row), before);
            var suspended := s.row.value.(suspendedUntil := Some(until));
            var s' := RunFrom(Sessions(lag), Next(Sessions(lag), s, Write(Some(suspended))), after);
            forall i | 0 <= i < |s'.answers| && s'.answers[i].began >= s.now + lag + 30_000 ::
              && Suspended(s'.answers[i].row, until)
              && forall later: int | later < until ::
                   Accounts.Guard(s'.answers[i].row, later) == Accounts.RejectSuspended
  {
    var s := RunFrom(Sessions(lag), Initial(row), before);
    var suspended := s.row.value.(suspendedUntil := Some(until));
    var kept: Option<Accounts.SessionState> -> bool := r => Suspended(r, until);
    BoundedStaleness(Sessions(lag), row, before, Some(suspended), after, kept);
    var s' := RunFrom(Sessions(lag), Next(Sessions(lag), s, Write(Some(suspended))), after);
    forall i | 0 <= i < |s'.answers| && s'.answers[i].began >= s.now + lag + 30_000
      ensures Suspended(s'.answers[i].row, until)
    {
      assert kept(s'.answers[i].row);
    }
  }

  // With the invalidation done in full right after the commit, a request begun one millisecond
  // earlier can still be let in.
  lemma SuspensionSeenNoSooner(lag: nat, until: int)
    ensures var row := Accounts.SessionState(Accounts.User, None, None, None);
            var s := RunFrom(Sessions(lag), Initial(Some(row)), [Ask(0), Read(0)]);
            var suspended := row.(suspendedUntil := Some(until));
            var s' := RunFrom(Sessions(lag), Next(Sessions(lag), s, Write(Some(suspended))), StaleRun(Sessions(lag)));
            && |s'.answers| == 2 && s'.answers[1].began == s.now + lag + 30_000 - 1
            && Accounts.Guard(s'.answers[1].row, s'.now) == Accounts.AdmitAs(Accounts.User)
  {
    var row := Accounts.SessionState(Accounts.User, None, None, None);
    StalenessIsTight(Sessions(lag), row, Some(row.(suspendedUntil := Some(until))));
  }

  // ── Components ─────────────────────────────────────────────────────────────

  predicate Open(c: Catalog.Component) { c.isPublic && !c.isDraft }

  // `findById` caches what everybody may see.
  function Components(lag: nat): Config<Catalog.Component> {
    Config(lag, Cache.PUBLIC_TTL * Cache.SECOND, c => Open(c))
  }

  predicate VisibleTo(c: Catalog.Component, viewer: Option<Catalog.Id>) { Open(c) || viewer == Some(c.author) }

  // The verdict of `findById` apart from blocks, which both its branches check against the
  // blocks of the moment: a cached row is shown as it is.
  predicate Shown(a: Answer<Catalog.Component>, viewer: Option<Catalog.Id>) {
    a.row.Some? && (a.cached || VisibleTo(a.row.value, viewer))
  }

  lemma VisibleIsUncachedVerdict(w: Catalog.World, id: Catalog.Id, viewer: Option<Catalog.Id>)
    ensures Catalog.FindUncached(w, id, viewer).Ok? <==>
            Catalog.Found(w, id) && VisibleTo(w.rows[id], viewer)
            && !(viewer.Some? && viewer.value != w.rows[id].author
                 && BlockedEitherWay(w.blocks, viewer.value, w.rows[id].author))
  {
  }

  predicate Hidden(row: Option<Catalog.Component>) { row.Some? ==> !Open(row.value) }

  // The same for a component: `lag` plus 120 seconds after it was made private or removed, or
  // later, and until it is public again, `findById` shows it to its author alone, whatever
  // invalidations were lost.
  lemma HidingSeen(lag: nat, row: Option<Catalog.Component>, before: seq<Step<Catalog.Component>>,
                   hidden: Option<Catalog.Component>, after: seq<Step<Catalog.Component>>,
                   viewer: Option<Catalog.Id>)
    requires Hidden(hidden) && forall i | 0 <= i < |after| && after[i].Write? :: Hidden(after[i].row)
    ensures var s := RunFrom(Components(lag), Initial(row), before);
            var s' := RunFrom(Components(lag), Next(Components(lag), s, Write(hidden)), after);
            forall i | 0 <= i < |s'.answers| && s'.answers[i].began >= s.now + lag + 120_000 ::
              Shown(s'.answers[i], viewer) ==> viewer == Some(s'.answers[i].row.value.author)
  {
    var kept: Option<Catalog.Component> -> bool := r => Hidden(r);
    BoundedStaleness(Components(lag), row, before, hidden, after, kept);
    var s := RunFrom(Components(lag), Initial(row), before);
    var s' := RunFrom(Components(lag), Next(Components(lag), s, Write(hidden)), after);
    forall i | 0 <= i < |s'.answers| && s'.answers[i].began >= s.now + lag + 120_000
      ensures Hidden(s'.answers[i].row) && !s'.answers[i].cached
    {
      assert kept(s'.answers[i].row);
    }
  }

  // A millisecond earlier anyone may still be shown the public row, after an invalidation done
  // in full.
  lemma HidingSeenNoSooner(lag: nat, public: Catalog.Component, hidden: Option<Catalog.Component>,
                           viewer: Option<Catalog.Id>)
    requires Open(public) && Hidden(hidden)
    ensures var s := RunFrom(Components(lag), Initial(Some(public)), [Ask(0), Read(0)]);
            var s' := RunFrom(Components(lag), Next(Components(lag), s, Write(hidden)), StaleRun(Components(lag)));
            && |s'.answers| == 2 && s'.answers[1].began == s.now + lag + 120_000 - 1
            && s'.row == hidden && s'.answers[1].row == Some(public) && Shown(s'.answers[1], viewer)
  {
    StalenessIsTight(Components(lag), public, hidden);
  }
}
