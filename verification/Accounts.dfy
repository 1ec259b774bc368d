/** Accounts, their privileged columns, the audit log and the session cache in front of
  * them. Every transaction, with the invalidation that follows it, is one step. */
module Accounts {
  import opened Basics
  import opened Cache
  import Coverage
  import Text

  const MODERATOR_MAX_SUSPEND_HOURS := 720
  const PERMANENT_BAN_TIMESTAMP := 253402300799000   // 9999-12-31T23:59:59Z
  const HOUR := 60 * 60 * 1000
  const SELF_DELETION := "user-requested-self-deletion"

  datatype Role = User | Moderator | Admin

  type Id = string

  datatype Account = Account(
    role: Role,
    suspendedUntil: Option<int>,
    suspensionReason: Option<string>,
    privacyVersion: Option<string>,
    termsVersion: Option<string>,
    deleted: bool)

  const NEW_ACCOUNT := Account(User, None, None, None, None, false)

  datatype SessionState = SessionState(
    role: Role,
    suspendedUntil: Option<int>,
    privacyVersion: Option<string>,
    termsVersion: Option<string>)

  function StateOf(a: Account): SessionState {
    SessionState(a.role, a.suspendedUntil, a.privacyVersion, a.termsVersion)
  }

  datatype Action = SuspendUser | BanUser | UnsuspendUser | PromoteRole | DemoteRole | EraseUser

  datatype Metadata =
    | Suspension(hours: int, until: int)
    | RoleChange(previousRole: Role, newRole: Role)
    | Nothing

  datatype Entry = Entry(actor: Id, action: Action, target: Id, reason: Option<string>, metadata: Metadata)

  datatype World = World(accounts: map<Id, Account>, log: seq<Entry>, cache: Store<SessionState>)

  datatype Reply = Reply(world: World, result: Result<()>)

  predicate Exists(w: World, id: Id) { id in w.accounts && !w.accounts[id].deleted }

  // ── Audit log ──────────────────────────────────────────────────────────────

  predicate RequiresReason(action: Action) { action != UnsuspendUser }

  predicate Loggable(action: Action, reason: string) { RequiresReason(action) ==> !Text.Blank(reason) }

  function MakeEntry(actor: Id, action: Action, target: Id, reason: string, metadata: Metadata): Entry {
    Entry(actor, action, target, if Text.Blank(reason) then None else Some(Text.Trim(reason)), metadata)
  }

  // ── Session cache ──────────────────────────────────────────────────────────

  const SESSIONS := "session:"

  function SessionKey(id: Id): string { SESSIONS + id }

  function SessionTag(id: Id): string { "user:" + id + ":session" }

  function DropSession(w: World, id: Id): World {
    w.(cache := Invalidate(w.cache, [SessionTag(id)]))
  }

  // The uncached read behind `hydrate`.
  function Fresh(w: World, id: Id): Option<SessionState> {
    if Exists(w, id) then Some(StateOf(w.accounts[id])) else None
  }

  function Hydrated(w: World, id: Id): Option<SessionState> {
    var hit := Lookup(w.cache, SessionKey(id));
    if hit.Some? then hit else Fresh(w, id)
  }

  function Hydrate(w: World, id: Id): World {
    if Lookup(w.cache, SessionKey(id)).Some? || Fresh(w, id).None? then w
    else w.(cache := Put(w.cache, SessionKey(id), Fresh(w, id).value, 0, SESSION_TTL, [SessionTag(id)]))
  }

  datatype Decision = AdmitAs(role: Role) | RejectSuspended

  // The guard on a verified token: an unknown session is let in as a plain user.
  function Guard(session: Option<SessionState>, now: int): Decision {
    match session
    case None => AdmitAs(User)
    case Some(s) =>
      if s.suspendedUntil.Some? && s.suspendedUntil.value > now then RejectSuspended else AdmitAs(s.role)
  }

  // ── Administrative operations ──────────────────────────────────────────────

  function SuspensionEnd(now: int, hours: int): int {
    if hours == 0 then PERMANENT_BAN_TIMESTAMP else now + hours * HOUR
  }

  function SuspendError(w: World, actor: Id, actorRole: Role, target: Id, hours: int, reason: string): Option<Error> {
    if actor == target then Some(BadRequest)
    else if hours == 0 && actorRole != Admin then Some(Forbidden)
    else if hours != 0 && actorRole == Moderator && hours > MODERATOR_MAX_SUSPEND_HOURS then Some(Forbidden)
    else if !Exists(w, target) then Some(NotFound)
    else if !Loggable(if hours == 0 then BanUser else SuspendUser, reason) then Some(BadRequest)
    else None
  }

  function Suspend(w: World, actor: Id, actorRole: Role, target: Id, hours: int, reason: string): Reply {
    var err := SuspendError(w, actor, actorRole, target, hours, reason);
    if err.Some? then Reply(w, Err(err.value))
    else
      var until := SuspensionEnd(w.cache.now, hours);
      var row := w.accounts[target].(suspendedUntil := Some(until), suspensionReason := Some(Text.Trim(reason)));
      var action := if hours == 0 then BanUser else SuspendUser;
      var entry := MakeEntry(actor, action, target, reason, Suspension(hours, until));
      Reply(DropSession(w.(accounts := w.accounts[target := row], log := w.log + [entry]), target), Ok(()))
  }

  // Reaches soft-deleted rows too: its UPDATE does not test `deletedAt`.
  function Unsuspend(w: World, actor: Id, target: Id, reason: string): Reply {
    if target !in w.accounts then Reply(w, Err(NotFound))
    else
      var row := w.accounts[target].(suspendedUntil := None, suspensionReason := None);
      var entry := MakeEntry(actor, UnsuspendUser, target, reason, Nothing);
      Reply(DropSession(w.(accounts := w.accounts[target := row], log := w.log + [entry]), target), Ok(()))
  }

  function Rank(role: Role): nat {
    match role case User => 0 case Moderator => 1 case Admin => 2
  }

  function RoleAction(previous: Role, next: Role): Action {
    if Rank(next) > Rank(previous) then PromoteRole else DemoteRole
  }

  function LiveAdmins(w: World): set<Id> {
    set id | id in w.accounts && !w.accounts[id].deleted && w.accounts[id].role == Admin
  }

  predicate OtherAdmin(w: World, target: Id) {
    exists id | id in w.accounts :: id != target && !w.accounts[id].deleted && w.accounts[id].role == Admin
  }

  function SetRoleError(w: World, actor: Id, target: Id, newRole: Role, reason: string): Option<Error> {
    if actor == target && newRole != Admin then Some(BadRequest)
    else if !Exists(w, target) then Some(NotFound)
    else
      var previous := w.accounts[target].role;
      if previous == newRole then None
      else if previous == Admin && !OtherAdmin(w, target) then Some(BadRequest)
      else if !Loggable(RoleAction(previous, newRole), reason) then Some(BadRequest)
      else None
  }

  function SetRole(w: World, actor: Id, target: Id, newRole: Role, reason: string): Reply {
    var err := SetRoleError(w, actor, target, newRole, reason);
    if err.Some? then Reply(w, Err(err.value))
    else
      var previous := w.accounts[target].role;
      if previous == newRole then Reply(DropSession(w, target), Ok(()))
      else
        var entry := MakeEntry(actor, RoleAction(previous, newRole), target, reason, RoleChange(previous, newRole));
        var row := w.accounts[target].(role := newRole);
        Reply(DropSession(w.(accounts := w.accounts[target := row], log := w.log + [entry]), target), Ok(()))
  }

  function DeleteAccount(w: World, id: Id): Reply {
    if !Exists(w, id) then Reply(w, Err(NotFound))
    else
      var row := w.accounts[id].(suspendedUntil := None, suspensionReason := None, deleted := true);
      var entry := MakeEntry(id, EraseUser, id, SELF_DELETION, Nothing);
      Reply(DropSession(w.(accounts := w.accounts[id := row], log := w.log + [entry]), id), Ok(()))
  }

  // The versions recorded are the server's. The final status read fails on an erased
  // account, after the update has gone through.
  datatype Versions = Versions(privacy: string, terms: string)

  function Accept(w: World, id: Id, current: Versions, privacy: bool, terms: bool): Reply {
    if (privacy || terms) && id !in w.accounts then Reply(w, Err(NotFound))
    else
      var w' :=
        if !privacy && !terms then w
        else
          var row := w.accounts[id].(
            privacyVersion := if privacy then Some(current.privacy) else w.accounts[id].privacyVersion,
            termsVersion := if terms then Some(current.terms) else w.accounts[id].termsVersion);
          DropSession(w.(accounts := w.accounts[id := row]), id);
      Reply(w', if Exists(w, id) then Ok(()) else Err(NotFound))
  }

  // An insert into the audit table that fails is rethrown and takes the transaction with it.
  function Committed(before: World, reply: Reply, auditWorks: bool): Reply {
    if reply.result.Ok? && reply.world.log != before.log && !auditWorks then Reply(before, Err(Failure)) else reply
  }

  lemma SelfDeletionIsLoggable()
    ensures Loggable(EraseUser, SELF_DELETION)
  {
    assert Text.TrimStart(SELF_DELETION) == SELF_DELETION;
    assert SELF_DELETION[|SELF_DELETION| - 1] == 'n';
    assert Text.TrimEnd(SELF_DELETION) == SELF_DELETION;
  }

  // ── Runs ───────────────────────────────────────────────────────────────────

  datatype Step =
    | Provision(id: Id)
    | DoSuspend(actor: Id, actorRole: Role, target: Id, hours: int, reason: string)
    | DoUnsuspend(actor: Id, target: Id, reason: string)
    | DoSetRole(actor: Id, target: Id, newRole: Role, reason: string)
    | DoDeleteAccount(id: Id)
    | DoAccept(id: Id, current: Versions, privacy: bool, terms: bool)
    | DoHydrate(id: Id)
    | Evict(id: Id)         // Redis loses, or fails to store, a session
    | Elsewhere(op: Coverage.Op<SessionState>)   // other services in the same Redis
    | Tick(elapsed: nat)

  function Next(w: World, step: Step): World {
    match step
    case Provision(id) => if id in w.accounts then w else w.(accounts := w.accounts[id := NEW_ACCOUNT])
    case DoSuspend(actor, role, target, hours, reason) => Suspend(w, actor, role, target, hours, reason).world
    case DoUnsuspend(actor, target, reason) => Unsuspend(w, actor, target, reason).world
    case DoSetRole(actor, target, newRole, reason) => SetRole(w, actor, target, newRole, reason).world
    case DoDeleteAccount(id) => DeleteAccount(w, id).world
    case DoAccept(id, current, privacy, terms) => Accept(w, id, current, privacy, terms).world
    case DoHydrate(id) => Hydrate(w, id)
    case Evict(id) => w.(cache := Delete(w.cache, [SessionKey(id)]))
    case Elsewhere(op) =>
      if Coverage.Foreign(op, SESSIONS) then w.(cache := Coverage.Apply(w.cache, op)) else w
    case Tick(elapsed) => w.(cache := w.cache.(now := w.cache.now + elapsed))
  }

  function Start(accounts: map<Id, Account>, now: int): World { World(accounts, [], Store(map[], now)) }

  function Run(start: World, steps: seq<Step>): World {
    if steps == [] then start else Next(Run(start, steps[..|steps| - 1]), steps[|steps| - 1])
  }
}
