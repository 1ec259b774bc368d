/** What the account services do to whom, told column by column and entry by entry: who may
  * call, what exactly changes, what the log says, and how long a suspension is served. */
module AccountEffects {
  import opened Basics
  import opened Cache
  import Coverage
  import opened Accounts
  import opened AccountRuns
  import Text

  // ── Answers ────────────────────────────────────────────────────────────────

  predicate Stored(w: World, id: Id) { id in w.accounts && !w.accounts[id].deleted }

  // A moderator may suspend for up to 30 days, only an administrator for good, nobody
  // themselves and nobody without a reason.
  lemma WhoMaySuspend(w: World, actor: Id, role: Role, target: Id, hours: int, reason: string)
    ensures var r := Suspend(w, actor, role, target, hours, reason).result;
            var allowed := (hours == 0 ==> role == Admin) && (role == Moderator ==> hours <= 720);
      && (r.Ok? <==> actor != target && allowed && Stored(w, target) && Text.Trim(reason) != [])
      && (r == Err(Forbidden) <==> actor != target && !allowed)
      && (r == Err(NotFound) <==> actor != target && allowed && !Stored(w, target))
      && (r == Err(BadRequest) <==> actor == target || (allowed && Stored(w, target) && Text.Trim(reason) == []))
  {
  }

  // Nobody gives up their own administration, nobody takes the last one, and a change of role
  // needs a reason.
  lemma WhoMaySetRole(w: World, actor: Id, target: Id, role: Role, reason: string)
    ensures var r := SetRole(w, actor, target, role, reason).result;
      && (r.Ok? <==>
            && (role == Admin || actor != target) && Stored(w, target)
            && (w.accounts[target].role == role
                || (Text.Trim(reason) != []
                    && (w.accounts[target].role == Admin ==>
                          exists id | id in w.accounts ::
                            id != target && !w.accounts[id].deleted && w.accounts[id].role == Admin))))
      && (r == Err(NotFound) <==> (role == Admin || actor != target) && !Stored(w, target))
      && (r.Ok? || r == Err(NotFound) || r == Err(BadRequest))
  {
  }

  // The rest is refused for want of a row and for nothing else.
  lemma OthersNeedARow(w: World, actor: Id, id: Id, reason: string, current: Versions, privacy: bool, terms: bool)
    ensures Unsuspend(w, actor, id, reason).result == if id in w.accounts then Ok(()) else Err(NotFound)
    ensures DeleteAccount(w, id).result == if Stored(w, id) then Ok(()) else Err(NotFound)
    ensures Accept(w, id, current, privacy, terms).result == if Stored(w, id) then Ok(()) else Err(NotFound)
  {
  }

  // A failed insert into the audit table takes the whole call with it: nothing changes and the
  // caller is told. Calls that leave no entry, and a working audit table, make no difference.
  lemma AuditIsAllOrNothing(w: World, actor: Id, role: Role, target: Id, hours: int, reason: string, works: bool)
    ensures forall reply | reply in [Suspend(w, actor, role, target, hours, reason),
                                     Unsuspend(w, actor, target, reason),
                                     SetRole(w, actor, target, role, reason), DeleteAccount(w, target)] ::
      var committed := Committed(w, reply, works);
      && (works || reply.result.Err? || |reply.world.log| == |w.log| ==> committed == reply)
      && (!works && reply.result.Ok? && |reply.world.log| > |w.log| ==>
            committed.world == w && committed.result == Err(Failure))
      && |w.log| <= |reply.world.log| <= |w.log| + 1
  {
  }

  // ── Columns and entries ────────────────────────────────────────────────────

  predicate Succeeds(w: World, step: Step) {
    match step
    case DoSuspend(actor, role, target, hours, reason) => Suspend(w, actor, role, target, hours, reason).result.Ok?
    case DoUnsuspend(actor, target, reason) => Unsuspend(w, actor, target, reason).result.Ok?
    case DoSetRole(actor, target, role, reason) => SetRole(w, actor, target, role, reason).result.Ok?
    case DoDeleteAccount(id) => DeleteAccount(w, id).result.Ok?
    case _ => false
  }

  predicate SuspendsWell(w: World, step: Step, id: Id) {
    step.DoSuspend? && step.target == id && Succeeds(w, step)
  }

  predicate Frees(w: World, step: Step, id: Id) {
    (step.DoUnsuspend? && step.target == id) || (step.DoDeleteAccount? && step.id == id && Stored(w, id))
  }

  predicate Accepts(step: Step, id: Id) { step.DoAccept? && step.id == id }

  // Column by column, which steps change a row and to what: milliseconds, with an hour of
  // 3 600 000 and a permanent ban that ends with the year 9999.
  lemma EveryColumn(w: World, step: Step, id: Id)
    requires id in w.accounts
    ensures var a, w' := w.accounts[id], Next(w, step);
      && id in w'.accounts
      && w'.accounts[id].role ==
           (if step.DoSetRole? && step.target == id && Succeeds(w, step) then step.newRole else a.role)
      && w'.accounts[id].suspendedUntil ==
           (if SuspendsWell(w, step, id)
            then Some(if step.hours == 0 then 253402300799000 else w.cache.now + step.hours * 3_600_000)
            else if Frees(w, step, id) then None else a.suspendedUntil)
      && w'.accounts[id].suspensionReason ==
           (if SuspendsWell(w, step, id) then Some(Text.Trim(step.reason))
            else if Frees(w, step, id) then None else a.suspensionReason)
      && w'.accounts[id].privacyVersion ==
           (if Accepts(step, id) && step.privacy then Some(step.current.privacy) else a.privacyVersion)
      && w'.accounts[id].termsVersion ==
           (if Accepts(step, id) && step.terms then Some(step.current.terms) else a.termsVersion)
      && (w'.accounts[id].deleted <==> a.deleted || (step.DoDeleteAccount? && step.id == id))
  {
  }

  // Rows appear by provisioning alone, as plain users, and never go.
  lemma RowsAppear(w: World, step: Step, id: Id)
    requires id !in w.accounts
    ensures id in Next(w, step).accounts <==> step == Provision(id)
    ensures id in Next(w, step).accounts ==> Next(w, step).accounts[id] == Account(User, None, None, None, None, false)
  {
  }

  // Who called, on whom, with what reason.
  function CallOf(w: World, step: Step): Option<(Id, Id, string)> {
    match step
    case DoSuspend(actor, _, target, _, reason) => Some((actor, target, reason))
    case DoUnsuspend(actor, target, reason) => Some((actor, target, reason))
    case DoSetRole(actor, target, role, reason) =>
      if target in w.accounts && w.accounts[target].role == role then None else Some((actor, target, reason))
    case DoDeleteAccount(id) => Some((id, id, "user-requested-self-deletion"))
    case _ => None
  }

  // A call that goes through leaves one entry and any other step none; the entry names its
  // actor, its target, the trimmed reason if there is one, and what was done.
  lemma EntrySays(w: World, step: Step)
    ensures var w' := Next(w, step); var call := CallOf(w, step);
      if !Succeeds(w, step) || call.None? then w'.log == w.log
      else
        && |w'.log| == |w.log| + 1 && w.log <= w'.log
        && var e := w'.log[|w.log|]; var (actor, target, reason) := call.value;
           && e.actor == actor && e.target == target
           && e.reason == (if Text.Trim(reason) == [] then None else Some(Text.Trim(reason)))
           && match step
              case DoSuspend(_, _, _, hours, _) =>
                && e.action == (if hours == 0 then BanUser else SuspendUser)
                && e.metadata == Suspension(hours, if hours == 0 then 253402300799000
                                                   else w.cache.now + hours * 3_600_000)
              case DoUnsuspend(_, _, _) => e.action == UnsuspendUser
              case DoSetRole(_, _, role, _) =>
                && e.metadata == RoleChange(w.accounts[target].role, role)
                && (e.action == PromoteRole <==>
                      role == Admin || (role == Moderator && w.accounts[target].role == User))
                && (e.action.PromoteRole? || e.action.DemoteRole?)
              case _ => e.action == EraseUser
  {
    if step.DoDeleteAccount? { SelfDeletionIsTight(); }
  }

  lemma SelfDeletionIsTight()
    ensures Text.Trim("user-requested-self-deletion") == "user-requested-self-deletion"
  {
    var s := "user-requested-self-deletion";
    assert s[0] == 'u' && s[|s| - 1] == 'n';
    Text.TrimMeans(s);
  }

  // ── How long a suspension is served ────────────────────────────────────────

  predicate Rules(step: Step, target: Id) {
    || (step.DoSuspend? && step.target == target) || (step.DoUnsuspend? && step.target == target)
    || (step.DoDeleteAccount? && step.id == target)
  }

  lemma {:induction false} SuspensionStays(w: World, steps: seq<Step>, target: Id, until: int)
    requires Stored(w, target) && w.accounts[target].suspendedUntil == Some(until)
    requires forall i | 0 <= i < |steps| :: !Rules(steps[i], target)
    ensures var w' := Run(w, steps); Stored(w', target) && w'.accounts[target].suspendedUntil == Some(until)
  {
    if steps != [] {
      var before, step := Run(w, steps[..|steps| - 1]), steps[|steps| - 1];
      SuspensionStays(w, steps[..|steps| - 1], target, until);
      EveryColumn(before, step, target);
    }
  }

  lemma SuspensionBegins(w: World, actor: Id, role: Role, target: Id, hours: int, reason: string)
    requires Suspend(w, actor, role, target, hours, reason).result.Ok?
    ensures var w' := Suspend(w, actor, role, target, hours, reason).world;
            var end := if hours == 0 then 253402300799000 else w.cache.now + hours * 3_600_000;
            Stored(w', target) && w'.accounts[target].suspendedUntil == Some(end)
  {
  }

  lemma GuardReads(w: World, target: Id, end: int, later: int)
    requires Hydrated(w, target) == Fresh(w, target)
    requires Stored(w, target) && w.accounts[target].suspendedUntil == Some(end)
    ensures Guard(Hydrated(w, target), later) == RejectSuspended <==> later < end
  {
  }

  lemma RunThrough(start: World, before: seq<Step>, step: Step, since: seq<Step>)
    ensures Run(start, before + [step] + since) == Run(Next(Run(start, before), step), since)
  {
    assert (before + [step])[..|before|] == before;
    RunConcat(start, before + [step], since);
  }

  // From a suspension on, through any run in which nobody suspends, frees or erases the target
  // again, the guard turns the target away exactly until the hours are over.
  lemma SuspensionIsServed(accounts: map<Id, Account>, now: int, before: seq<Step>, actor: Id, role: Role, target: Id,
                           hours: int, reason: string, since: seq<Step>, later: int)
    requires Suspend(Run(Start(accounts, now), before), actor, role, target, hours, reason).result.Ok?
    requires forall i | 0 <= i < |since| :: !Rules(since[i], target)
    ensures var w := Run(Start(accounts, now), before);
            var w' := Run(Start(accounts, now), before + [DoSuspend(actor, role, target, hours, reason)] + since);
            var end := if hours == 0 then 253402300799000 else w.cache.now + hours * 3_600_000;
            Guard(Hydrated(w', target), later) == RejectSuspended <==> later < end
  {
    var start := Start(accounts, now);
    var w, step := Run(start, before), DoSuspend(actor, role, target, hours, reason);
    var end := if hours == 0 then 253402300799000 else w.cache.now + hours * 3_600_000;
    SuspensionBegins(w, actor, role, target, hours, reason);
    SuspensionStays(Next(w, step), since, target, end);
    RunThrough(start, before, step, since);
    var steps := before + [step] + since;
    HydrateIsTransparent(accounts, now, steps, target);
    GuardReads(Run(start, steps), target, end, later);
  }

  // ── The session cache ──────────────────────────────────────────────────────

  // `hydrate` answers from the cache if it can, and otherwise reads a live row and leaves it there
  // for 30 seconds; what was cached, and what is missing or erased, leaves the cache as it was.
  lemma HydrateCaches(w: World, id: Id, later: nat)
    ensures var w' := Hydrate(w, id); var hit := Lookup(w.cache, SessionKey(id));
      && w'.accounts == w.accounts && w'.log == w.log
      && Hydrated(w, id) == (if hit.Some? then hit
                             else if Stored(w, id) then Some(StateOf(w.accounts[id])) else None)
      && (hit.Some? || !Stored(w, id) ==> w' == w)
      && (hit.None? && Stored(w, id) ==>
            var a := w.accounts[id];
            Lookup(w'.cache.(now := w'.cache.now + later), SessionKey(id)) ==
            if later < 30_000
            then Some(SessionState(a.role, a.suspendedUntil, a.privacyVersion, a.termsVersion)) else None)
  {
    if Lookup(w.cache, SessionKey(id)).None? && Stored(w, id) {
      SessionKeyIsPlain(id);
      Coverage.EntryKeyIsTagKey(SessionKey(id));
      Coverage.PutEffect(w.cache, SessionKey(id), Fresh(w, id).value, 0, SESSION_TTL, SessionTag(id),
                         EntryKey(SessionKey(id)));
    }
  }
}
