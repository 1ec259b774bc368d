/** What every run of the account services keeps: sessions equal to their rows, an audit
  * log that replays to the privileged columns, and a live administrator. */
module AccountRuns {
  import opened Basics
  import opened Cache
  import Coverage
  import opened Accounts
  import Text

  // ── Session coherence ──────────────────────────────────────────────────────

  predicate SessionCoherent(w: World, id: Id) {
    var k := EntryKey(SessionKey(id));
    Live(w.cache, k) ==>
      && w.cache.cells[k].value.Blob?
      && SessionTag(id) in w.cache.cells[k].labels
      && Fresh(w, id) == Some(w.cache.cells[k].value.payload)
  }

  ghost predicate Coherent(w: World) {
    Coverage.Inv(w.cache, TtlsOf) && forall id: Id :: SessionCoherent(w, id)
  }

  lemma SessionKeyIsPlain(id: Id)
    ensures Plain(SessionKey(id))
  {
    assert SessionKey(id)[0] == 's' && "tag:"[0] == 't';
  }

  lemma SessionKeyInjective(a: Id, b: Id)
    ensures EntryKey(SessionKey(a)) == EntryKey(SessionKey(b)) ==> a == b
  {
    assert EntryKey(SessionKey(a))[14..] == a && EntryKey(SessionKey(b))[14..] == b;
  }

  // A change to one row followed by dropping its session: the other rows did not move.
  lemma DropSessionKeeps(w: World, w': World, id: Id)
    requires Coherent(w) && w'.cache == w.cache
    requires forall other | other != id :: Fresh(w', other) == Fresh(w, other)
    ensures Coherent(DropSession(w', id))
    ensures Lookup(DropSession(w', id).cache, SessionKey(id)).None?
  {
    Coverage.InvalidateKeeps(w.cache, TtlsOf, [SessionTag(id)]);
    var w'' := DropSession(w', id);
    assert SessionTag(id) in [SessionTag(id)];
    forall other: Id ensures SessionCoherent(w'', other) {
      assert SessionCoherent(w, other);
    }
    assert SessionCoherent(w, id);
  }

  lemma HydrateKeeps(w: World, id: Id)
    requires Coherent(w)
    ensures Coherent(Hydrate(w, id))
  {
    if Lookup(w.cache, SessionKey(id)).None? && Fresh(w, id).Some? {
      SessionKeyIsPlain(id);
      assert SessionTag(id)[0] == 'u';
      var w' := Hydrate(w, id);
      Coverage.PutKeeps(w.cache, TtlsOf, SessionKey(id), Fresh(w, id).value, 0, SESSION_TTL, [SessionTag(id)]);
      forall other: Id ensures SessionCoherent(w', other) {
        SessionKeyIsPlain(other);
        Coverage.EntryKeyIsTagKey(SessionKey(other));
        SessionKeyInjective(id, other);
        Coverage.PutEffect(
          w.cache, SessionKey(id), Fresh(w, id).value, 0, SESSION_TTL, SessionTag(id), EntryKey(SessionKey(other)));
        assert SessionCoherent(w, other);
      }
    }
  }

  lemma NextCoherent(w: World, step: Step)
    requires Coherent(w)
    ensures Coherent(Next(w, step))
  {
    var w' := Next(w, step);
    match step
    case Provision(id) =>
      forall other: Id ensures SessionCoherent(w', other) { assert SessionCoherent(w, other); }
    case DoSuspend(actor, role, target, hours, reason) =>
      if SuspendError(w, actor, role, target, hours, reason).None? {
        DropSessionKeeps(w, World(w'.accounts, w'.log, w.cache), target);
      }
    case DoUnsuspend(actor, target, reason) =>
      if target in w.accounts { DropSessionKeeps(w, World(w'.accounts, w'.log, w.cache), target); }
    case DoSetRole(actor, target, newRole, reason) =>
      if SetRoleError(w, actor, target, newRole, reason).None? {
        DropSessionKeeps(w, World(w'.accounts, w'.log, w.cache), target);
      }
    case DoDeleteAccount(id) =>
      if Exists(w, id) { DropSessionKeeps(w, World(w'.accounts, w'.log, w.cache), id); }
    case DoAccept(id, current, privacy, terms) =>
      if (privacy || terms) && id in w.accounts { DropSessionKeeps(w, World(w'.accounts, w'.log, w.cache), id); }
    case DoHydrate(id) => HydrateKeeps(w, id);
    case Evict(id) => EvictKeeps(w, id);
    case Elsewhere(op) => ElsewhereKeeps(w, op);
    case Tick(elapsed) =>
      forall other: Id ensures SessionCoherent(w', other) { assert SessionCoherent(w, other); }
  }

  lemma EvictKeeps(w: World, id: Id)
    requires Coherent(w)
    ensures Coherent(Next(w, Evict(id)))
  {
    var w' := Next(w, Evict(id));
    SessionKeyIsPlain(id);
    Coverage.DropEntryKeeps(w.cache, TtlsOf, SessionKey(id));
    forall other: Id ensures SessionCoherent(w', other) { assert SessionCoherent(w, other); }
  }

  // Other services cannot make a session wrong: at worst it vanishes.
  lemma ElsewhereKeeps(w: World, op: Coverage.Op<SessionState>)
    requires Coherent(w)
    ensures Coherent(Next(w, Elsewhere(op)))
  {
    var w' := Next(w, Elsewhere(op));
    if Coverage.Foreign(op, SESSIONS) {
      forall id: Id ensures SessionCoherent(w', id) && Coverage.Inv(w'.cache, TtlsOf) {
        SessionKeyIsPlain(id);
        Coverage.ForeignLeavesEntry(w.cache, op, SESSIONS, SessionKey(id));
        assert SessionCoherent(w, id);
      }
      assert SessionCoherent(w', []);
    }
  }

  lemma {:induction false} RunCoherent(accounts: map<Id, Account>, now: int, steps: seq<Step>)
    ensures Coherent(Run(Start(accounts, now), steps))
  {
    var start := Start(accounts, now);
    if steps == [] {
      assert forall id: Id :: SessionCoherent(start, id);
    } else {
      RunCoherent(accounts, now, steps[..|steps| - 1]);
      NextCoherent(Run(start, steps[..|steps| - 1]), steps[|steps| - 1]);
    }
  }

  // In every reachable state `hydrate` answers, for everyone, what the row says now:
  // the cache cannot be told apart from reading the table.
  lemma HydrateIsTransparent(accounts: map<Id, Account>, now: int, steps: seq<Step>, id: Id)
    ensures var w := Run(Start(accounts, now), steps); Hydrated(w, id) == Fresh(w, id)
  {
    RunCoherent(accounts, now, steps);
    assert SessionCoherent(Run(Start(accounts, now), steps), id);
  }

  // Right after a suspension the target is refused until it ends. After an erasure there is
  // no session, which the guard does not refuse: it lets the token in as a plain user.
  lemma GuardAfterwards(accounts: map<Id, Account>, now: int, steps: seq<Step>,
                        actor: Id, role: Role, target: Id, hours: int, reason: string)
    ensures var w := Run(Start(accounts, now), steps);
            var suspended := Suspend(w, actor, role, target, hours, reason);
            var erased := DeleteAccount(w, target);
            && (suspended.result.Ok? ==> forall later: int | later < SuspensionEnd(w.cache.now, hours) ::
                  Guard(Hydrated(suspended.world, target), later) == RejectSuspended)
            && (erased.result.Ok? ==> Hydrated(erased.world, target) == None)
            && (erased.result.Ok? ==>
                  forall later: int :: Guard(Hydrated(erased.world, target), later) == AdmitAs(User))
  {
    var start := Start(accounts, now);
    var w := Run(start, steps);
    var byAdmin, bySelf := [DoSuspend(actor, role, target, hours, reason)], [DoDeleteAccount(target)];
    HydrateIsTransparent(accounts, now, steps + byAdmin, target);
    HydrateIsTransparent(accounts, now, steps + bySelf, target);
    assert (steps + byAdmin)[..|steps|] == steps && (steps + bySelf)[..|steps|] == steps;
    assert Run(start, steps + byAdmin) == Next(w, byAdmin[0]);
    assert Run(start, steps + bySelf) == Next(w, bySelf[0]);
  }

  // The next `hydrate` after a role change, a lifted suspension or a consent shows it,
  // and shows the rest of the session as it was.
  lemma SessionAfterwards(accounts: map<Id, Account>, now: int, steps: seq<Step>, actor: Id, target: Id,
                          role: Role, reason: string, current: Versions, privacy: bool, terms: bool)
    ensures var w := Run(Start(accounts, now), steps);
            var was := Hydrated(w, target);
            var promoted := SetRole(w, actor, target, role, reason);
            var lifted := Unsuspend(w, actor, target, reason);
            var accepted := Accept(w, target, current, privacy, terms);
      && (promoted.result.Ok? ==> was.Some? && Hydrated(promoted.world, target) == Some(was.value.(role := role)))
      && (was.Some? ==> lifted.result.Ok? && Hydrated(lifted.world, target) == Some(was.value.(suspendedUntil := None)))
      && (was.Some? ==> accepted.result.Ok? && Hydrated(accepted.world, target) == Some(was.value.(
            privacyVersion := if privacy then Some(current.privacy) else was.value.privacyVersion,
            termsVersion := if terms then Some(current.terms) else was.value.termsVersion)))
  {
    HydrateIsTransparent(accounts, now, steps, target);
    HydrateAfter(accounts, now, steps, DoSetRole(actor, target, role, reason), target);
    HydrateAfter(accounts, now, steps, DoUnsuspend(actor, target, reason), target);
    HydrateAfter(accounts, now, steps, DoAccept(target, current, privacy, terms), target);
  }

  lemma HydrateAfter(accounts: map<Id, Account>, now: int, steps: seq<Step>, step: Step, id: Id)
    ensures var w := Next(Run(Start(accounts, now), steps), step); Hydrated(w, id) == Fresh(w, id)
  {
    assert (steps + [step])[..|steps|] == steps;
    HydrateIsTransparent(accounts, now, steps + [step], id);
  }

  // ── Audit replay ───────────────────────────────────────────────────────────

  datatype Privileged = Privileged(role: Role, suspendedUntil: Option<int>)

  function ColumnsOf(accounts: map<Id, Account>, id: Id): Privileged {
    var a := if id in accounts then accounts[id] else NEW_ACCOUNT;
    Privileged(a.role, a.suspendedUntil)
  }

  // The log alone: what each entry did to the columns of its target.
  function Replay(start: Privileged, log: seq<Entry>, id: Id): Privileged {
    if log == [] then start
    else
      var p, e := Replay(start, log[..|log| - 1], id), log[|log| - 1];
      if e.target != id then p
      else match e.action
        case SuspendUser => if e.metadata.Suspension? then p.(suspendedUntil := Some(e.metadata.until)) else p
        case BanUser => if e.metadata.Suspension? then p.(suspendedUntil := Some(e.metadata.until)) else p
        case UnsuspendUser => p.(suspendedUntil := None)
        case EraseUser => p.(suspendedUntil := None)
        case PromoteRole => if e.metadata.RoleChange? then p.(role := e.metadata.newRole) else p
        case DemoteRole => if e.metadata.RoleChange? then p.(role := e.metadata.newRole) else p
  }

  // An entry is honest against the entries before it.
  predicate Honest(start: map<Id, Account>, log: seq<Entry>, i: nat)
    requires i < |log|
  {
    var e := log[i];
    && (RequiresReason(e.action) ==> e.reason.Some? && e.reason.value != [])
    && (e.action.PromoteRole? || e.action.DemoteRole? ==>
          && e.metadata.RoleChange?
          && e.metadata.previousRole == Replay(ColumnsOf(start, e.target), log[..i], e.target).role
          && (if e.action.PromoteRole? then Rank(e.metadata.newRole) > Rank(e.metadata.previousRole)
              else Rank(e.metadata.newRole) < Rank(e.metadata.previousRole)))
  }

  ghost predicate Audited(start: map<Id, Account>, w: World) {
    && (forall id: Id :: ColumnsOf(w.accounts, id) == Replay(ColumnsOf(start, id), w.log, id))
    && (forall i | 0 <= i < |w.log| :: Honest(start, w.log, i))
  }

  lemma AppendAudited(start: map<Id, Account>, w: World, w': World, e: Entry)
    requires Audited(start, w) && w'.log == w.log + [e]
    requires Honest(start, w'.log, |w.log|)
    requires forall id: Id | id != e.target :: ColumnsOf(w'.accounts, id) == ColumnsOf(w.accounts, id)
    requires ColumnsOf(w'.accounts, e.target) == Replay(ColumnsOf(w.accounts, e.target), [e], e.target)
    ensures Audited(start, w')
  {
    assert w'.log[..|w.log|] == w.log && [e][..0] == [];
    assert Replay(ColumnsOf(w.accounts, e.target), [e][..0], e.target) == ColumnsOf(w.accounts, e.target);
    forall i | 0 <= i < |w'.log| ensures Honest(start, w'.log, i) {
      if i < |w.log| {
        assert Honest(start, w.log, i);
        assert w'.log[..i] == w.log[..i];
      }
    }
  }

  // The one entry a step appends, and what it says about the columns of its target.
  lemma EntryTells(w: World, step: Step)
    requires Next(w, step).log != w.log
    ensures var w' := Next(w, step); |w'.log| == |w.log| + 1 && w'.log == w.log + [w'.log[|w.log|]]
    ensures var w' := Next(w, step); var e := w'.log[|w.log|];
      && (forall id: Id | id != e.target :: ColumnsOf(w'.accounts, id) == ColumnsOf(w.accounts, id))
      && ColumnsOf(w'.accounts, e.target) == Replay(ColumnsOf(w.accounts, e.target), [e], e.target)
  {
    var e := Next(w, step).log[|w.log|];
    assert [e][..0] == [];
  }

  lemma NextAudited(start: map<Id, Account>, w: World, step: Step)
    requires Audited(start, w)
    ensures Audited(start, Next(w, step))
  {
    var w' := Next(w, step);
    if w'.log != w.log {
      var e := w'.log[|w.log|];
      assert w'.log[..|w.log|] == w.log;
      assert [e][..0] == [];
      assert ColumnsOf(w.accounts, e.target) == Replay(ColumnsOf(start, e.target), w.log, e.target);
      if step.DoDeleteAccount? { SelfDeletionIsLoggable(); }
      EntryTells(w, step);
      assert Honest(start, w'.log, |w.log|);
      AppendAudited(start, w, w', e);
    } else {
      assert forall id: Id :: ColumnsOf(w'.accounts, id) == ColumnsOf(w.accounts, id);
    }
  }

  // Over all runs: folding the log from the initial columns rebuilds every account's role
  // and suspension, and each role entry names the role the entries before it lead to.
  lemma {:induction false} AuditReplays(accounts: map<Id, Account>, now: int, steps: seq<Step>)
    ensures Audited(accounts, Run(Start(accounts, now), steps))
  {
    if steps != [] {
      AuditReplays(accounts, now, steps[..|steps| - 1]);
      NextAudited(accounts, Run(Start(accounts, now), steps[..|steps| - 1]), steps[|steps| - 1]);
    }
  }

  lemma {:induction false} RunConcat(start: World, a: seq<Step>, b: seq<Step>)
    ensures Run(start, a + b) == Run(Run(start, a), b)
  {
    if b == [] {
      assert a + b == a;
    } else {
      assert (a + b)[..|a + b| - 1] == a + b[..|b| - 1];
      RunConcat(start, a, b[..|b| - 1]);
    }
  }

  lemma {:induction false} ReplayConcat(p: Privileged, a: seq<Entry>, b: seq<Entry>, id: Id)
    ensures Replay(p, a + b, id) == Replay(Replay(p, a, id), b, id)
  {
    if b == [] {
      assert a + b == a;
    } else {
      assert (a + b)[..|a + b| - 1] == a + b[..|b| - 1];
      ReplayConcat(p, a, b[..|b| - 1], id);
    }
  }

  lemma {:induction false} LogGrows(start: World, steps: seq<Step>)
    ensures start.log <= Run(start, steps).log
  {
    if steps != [] { LogGrows(start, steps[..|steps| - 1]); }
  }

  // Append-only, from any moment on: the log keeps its past, and the entries since then
  // account for every privileged change since then.
  lemma AuditExplainsEveryInterval(accounts: map<Id, Account>, now: int, before: seq<Step>, since: seq<Step>, id: Id)
    ensures var w, w' := Run(Start(accounts, now), before), Run(Start(accounts, now), before + since);
            && w.log <= w'.log
            && ColumnsOf(w'.accounts, id) == Replay(ColumnsOf(w.accounts, id), w'.log[|w.log|..], id)
  {
    var start := Start(accounts, now);
    AuditReplays(accounts, now, before);
    AuditReplays(accounts, now, before + since);
    RunConcat(start, before, since);
    var w, w' := Run(start, before), Run(start, before + since);
    LogGrows(w, since);
    assert w'.log == w.log + w'.log[|w.log|..];
    ReplayConcat(ColumnsOf(accounts, id), w.log, w'.log[|w.log|..], id);
  }

  // The calls that are refused in `w`, by what a caller could look up beforehand.
  predicate Refused(w: World, step: Step) {
    match step
    case DoSuspend(actor, role, target, hours, reason) => SuspendError(w, actor, role, target, hours, reason).Some?
    case DoUnsuspend(_, target, _) => target !in w.accounts
    case DoSetRole(actor, target, newRole, reason) => SetRoleError(w, actor, target, newRole, reason).Some?
    case DoDeleteAccount(id) => !Exists(w, id)
    case _ => false
  }

  // A refused call, a blank reason included, can be taken out of any run: rows, log, cache and
  // every later answer are the same without it.
  lemma RefusalIsInvisible(start: World, before: seq<Step>, step: Step, after: seq<Step>)
    requires Refused(Run(start, before), step)
    ensures Run(start, before + [step] + after) == Run(start, before + after)
  {
    assert (before + [step])[..|before|] == before;
    assert Run(start, before + [step]) == Run(start, before);
    RunConcat(start, before + [step], after);
    RunConcat(start, before, after);
  }

  // ── The admin floor ────────────────────────────────────────────────────────

  lemma KeepsAdmin(w: World, step: Step, id: Id)
    requires id in LiveAdmins(w)
    requires !(step.DoDeleteAccount? && step.id == id) && !(step.DoSetRole? && step.target == id)
    ensures id in LiveAdmins(Next(w, step))
  {
    var w' := Next(w, step);
    assert id in w'.accounts && w'.accounts[id].role == Admin && !w'.accounts[id].deleted;
  }

  // A demotion of an administrator goes through only if another one remains.
  lemma DemotionLeavesAdmin(w: World, step: Step)
    requires step.DoSetRole? && step.target in LiveAdmins(w)
    ensures LiveAdmins(Next(w, step)) != {}
  {
    var w' := Next(w, step);
    if SetRoleError(w, step.actor, step.target, step.newRole, step.reason).None? && step.newRole != Admin {
      var id :| id in w.accounts && id != step.target && !w.accounts[id].deleted && w.accounts[id].role == Admin;
      assert id in LiveAdmins(w');
    } else {
      assert w'.accounts == w.accounts && step.target in LiveAdmins(w');
    }
  }

  lemma ErasureEffect(w: World, id: Id)
    ensures LiveAdmins(DeleteAccount(w, id).world) == LiveAdmins(w) - {id}
  {
  }

  // The floor gives way exactly when the only live administrator erases their own account.
  lemma FloorStep(w: World, step: Step)
    requires LiveAdmins(w) != {}
    ensures LiveAdmins(Next(w, step)) != {} <==> !(step.DoDeleteAccount? && LiveAdmins(w) == {step.id})
  {
    var a :| a in LiveAdmins(w);
    if step.DoDeleteAccount? {
      ErasureEffect(w, step.id);
    } else if step.DoSetRole? && step.target == a {
      DemotionLeavesAdmin(w, step);
    } else {
      KeepsAdmin(w, step, a);
    }
  }

  // Over all runs without self-erasure, whoever acts and whatever role they believe they have.
  lemma {:induction false} FloorHolds(accounts: map<Id, Account>, now: int, steps: seq<Step>)
    requires LiveAdmins(Start(accounts, now)) != {}
    requires forall i | 0 <= i < |steps| :: !steps[i].DoDeleteAccount?
    ensures LiveAdmins(Run(Start(accounts, now), steps)) != {}
  {
    if steps != [] {
      FloorHolds(accounts, now, steps[..|steps| - 1]);
      FloorStep(Run(Start(accounts, now), steps[..|steps| - 1]), steps[|steps| - 1]);
    }
  }

  // What one demotion asks for.
  datatype Demotion = Demotion(actor: Id, newRole: Role, reason: string)

  // The updates of some demotions, on checks made earlier.
  function Demoted(w: World, calls: map<Id, Demotion>): World {
    w.(accounts := map id | id in w.accounts ::
                     if id in calls then w.accounts[id].(role := calls[id].newRole) else w.accounts[id])
  }

  predicate Demotes(calls: map<Id, Demotion>) { forall a | a in calls :: calls[a].newRole != Admin }

  lemma DemotedAdmins(w: World, calls: map<Id, Demotion>)
    requires Demotes(calls)
    ensures LiveAdmins(Demoted(w, calls)) == LiveAdmins(w) - calls.Keys
  {
  }

  // A demotion committed on an earlier count leaves an administrator if and only if a fresh
  // count would still find one.
  lemma DelayedDemotionKeepsFloor(w: World, a: Id, call: Demotion)
    requires LiveAdmins(w) != {} && call.newRole != Admin
    ensures LiveAdmins(Demoted(w, map[a := call])) != {} <==> OtherAdmin(w, a)
  {
    DemotedAdmins(w, map[a := call]);
    if OtherAdmin(w, a) {
      var id :| id in w.accounts && id != a && !w.accounts[id].deleted && w.accounts[id].role == Admin;
      assert id in LiveAdmins(w) - {a};
    }
  }

  lemma AnotherAdmin(w: World, a: Id)
    requires |LiveAdmins(w)| >= 2 && a in LiveAdmins(w)
    ensures OtherAdmin(w, a)
  {
    var rest := LiveAdmins(w) - {a};
    assert |rest| == |LiveAdmins(w)| - 1;
    var id :| id in rest;
  }

  // Any number of demotions that all counted before any of them committed, each with its own
  // actor, role and reason: each passes its own check, and together they leave an administrator
  // if and only if they do not name them all. The administrators may demote each other in a ring.
  lemma OverlappingDemotions(w: World, calls: map<Id, Demotion>)
    requires |LiveAdmins(w)| >= 2 && calls.Keys <= LiveAdmins(w) && Demotes(calls)
    requires forall a | a in calls :: calls[a].actor != a && !Text.Blank(calls[a].reason)
    ensures forall a | a in calls :: SetRoleError(w, calls[a].actor, a, calls[a].newRole, calls[a].reason).None?
    ensures LiveAdmins(Demoted(w, calls)) != {} <==> calls.Keys != LiveAdmins(w)
  {
    DemotedAdmins(w, calls);
    forall a | a in calls ensures OtherAdmin(w, a) { AnotherAdmin(w, a); }
    assert LiveAdmins(w) - calls.Keys == {} <==> LiveAdmins(w) <= calls.Keys by {
      if LiveAdmins(w) - calls.Keys == {} {
        forall id | id in LiveAdmins(w) ensures id in calls { assert id !in LiveAdmins(w) - calls.Keys; }
      }
    }
  }

  // The floor rests on the transaction being serial. Under read-committed isolation two
  // overlapping demotions both count the other's target and both commit.
  lemma OverlappingDemotionsBreakFloor(w: World, a: Id, b: Id, reason: string)
    requires a != b && LiveAdmins(w) == {a, b} && !Text.Blank(reason)
    ensures SetRoleError(w, b, a, User, reason).None? && SetRoleError(w, a, b, User, reason).None?
    ensures var demoted := w.accounts[a := w.accounts[a].(role := User)];
            LiveAdmins(w.(accounts := demoted[b := demoted[b].(role := User)])) == {}
  {
    assert a in LiveAdmins(w) && b in LiveAdmins(w);
    assert OtherAdmin(w, a) && OtherAdmin(w, b);
    forall id | id in w.accounts && !w.accounts[id].deleted && w.accounts[id].role == Admin ensures id == a || id == b {
      assert id in LiveAdmins(w);
    }
  }
}
