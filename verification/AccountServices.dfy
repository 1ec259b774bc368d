/** The account services statement by statement: role and suspension changes, erasure,
  * consent and session hydration over mutable tables and the shared cache. */
module AccountServices {
  import opened Basics
  import opened Cache
  import opened Accounts
  import Text

  class AdminService {
    var accounts: map<Id, Account>
    var log: seq<Entry>
    const cache: CacheService<SessionState>

    constructor (cache: CacheService<SessionState>)
      ensures this.cache == cache && accounts == map[] && log == []
    {
      this.cache := cache;
      accounts, log := map[], [];
    }

    function Snapshot(): World reads this, cache { World(accounts, log, cache.store) }

    // The reason gate, then the insert, which may fail.
    method AppendEntry(actor: Id, action: Action, target: Id, reason: string, metadata: Metadata, works: bool)
      returns (r: Result<()>)
      modifies this`log
      ensures r == if !Loggable(action, reason) then Err(BadRequest) else if !works then Err(Failure) else Ok(())
      ensures log == if r.Ok? then old(log) + [MakeEntry(actor, action, target, reason, metadata)] else old(log)
    {
      if RequiresReason(action) && Text.Blank(reason) { return Err(BadRequest); }
      if !works { return Err(Failure); }
      log := log + [MakeEntry(actor, action, target, reason, metadata)];
      return Ok(());
    }

    method Suspend(actor: Id, actorRole: Role, target: Id, hours: int, reason: string, auditWorks: bool)
      returns (r: Result<()>)
      modifies this, cache
      ensures Reply(Snapshot(), r) ==
               Committed(old(Snapshot()),
                         Accounts.Suspend(old(Snapshot()), actor, actorRole, target, hours, reason),
                         auditWorks)
    {
      if actor == target { return Err(BadRequest); }
      var isPermanent := hours == 0;
      if isPermanent && actorRole != Admin { return Err(Forbidden); }
      if !isPermanent && actorRole == Moderator && hours > MODERATOR_MAX_SUSPEND_HOURS { return Err(Forbidden); }
      var until := if isPermanent then PERMANENT_BAN_TIMESTAMP else cache.store.now + hours * HOUR;
      var before := accounts;
      if target !in accounts || accounts[target].deleted { return Err(NotFound); }
      accounts := accounts[target := accounts[target].(suspendedUntil := Some(until),
                                                      suspensionReason := Some(Text.Trim(reason)))];
      r := AppendEntry(actor, if isPermanent then BanUser else SuspendUser, target, reason,
                       Suspension(hours, until), auditWorks);
      if r.Err? {
        accounts := before;   // the transaction rolls back
        return;
      }
      cache.InvalidateTags([SessionTag(target)], None);
    }

    method Unsuspend(actor: Id, target: Id, reason: string, auditWorks: bool) returns (r: Result<()>)
      modifies this, cache
      ensures Reply(Snapshot(), r) ==
              Committed(old(Snapshot()), Accounts.Unsuspend(old(Snapshot()), actor, target, reason), auditWorks)
    {
      if target !in accounts { return Err(NotFound); }
      var before := accounts;
      accounts := accounts[target := accounts[target].(suspendedUntil := None, suspensionReason := None)];
      r := AppendEntry(actor, UnsuspendUser, target, reason, Nothing, auditWorks);
      if r.Err? {
        accounts := before;
        return;
      }
      cache.InvalidateTags([SessionTag(target)], None);
    }

    method SetRole(actor: Id, target: Id, newRole: Role, reason: string, auditWorks: bool) returns (r: Result<()>)
      modifies this, cache
      ensures Reply(Snapshot(), r) ==
              Committed(old(Snapshot()), Accounts.SetRole(old(Snapshot()), actor, target, newRole, reason), auditWorks)
    {
      if actor == target && newRole != Admin { return Err(BadRequest); }
      if target !in accounts || accounts[target].deleted { return Err(NotFound); }
      var previousRole := accounts[target].role;
      if previousRole != newRole {
        if previousRole == Admin && newRole != Admin {
          var remaining := CountOtherAdmins(target);
          if remaining == 0 { return Err(BadRequest); }
        }
        var before := accounts;
        accounts := accounts[target := accounts[target].(role := newRole)];
        r := AppendEntry(actor, RoleAction(previousRole, newRole), target, reason,
                         RoleChange(previousRole, newRole), auditWorks);
        if r.Err? {
          accounts := before;
          return;
        }
      }
      cache.InvalidateTags([SessionTag(target)], None);
      return Ok(());
    }

    method CountOtherAdmins(target: Id) returns (remaining: nat)
      ensures remaining == |LiveAdmins(Snapshot()) - {target}|
      ensures remaining == 0 <==> !OtherAdmin(Snapshot(), target)
    {
      var others := set id | id in accounts && id != target && !accounts[id].deleted && accounts[id].role == Admin;
      remaining := |others|;
      assert others == LiveAdmins(Snapshot()) - {target};
      if remaining == 0 {
        assert forall id | id in accounts :: id !in others;
      } else {
        assert exists id :: id in others;
      }
    }

    method DeleteAccount(id: Id, auditWorks: bool) returns (r: Result<()>)
      modifies this, cache
      ensures Reply(Snapshot(), r) ==
              Committed(old(Snapshot()), Accounts.DeleteAccount(old(Snapshot()), id), auditWorks)
    {
      if id !in accounts || accounts[id].deleted { return Err(NotFound); }
      var before := accounts;
      accounts := accounts[id := accounts[id].(suspendedUntil := None, suspensionReason := None, deleted := true)];
      SelfDeletionIsLoggable();
      r := AppendEntry(id, EraseUser, id, SELF_DELETION, Nothing, auditWorks);
      if r.Err? {
        accounts := before;
        return;
      }
      cache.InvalidateTags([SessionTag(id)], None);
    }

    method Accept(id: Id, current: Versions, privacy: bool, terms: bool) returns (r: Result<()>)
      modifies this, cache
      ensures Reply(Snapshot(), r) == Accounts.Accept(old(Snapshot()), id, current, privacy, terms)
    {
      if privacy || terms {
        if id !in accounts { return Err(NotFound); }
        var row := accounts[id];
        if privacy { row := row.(privacyVersion := Some(current.privacy)); }
        if terms { row := row.(termsVersion := Some(current.terms)); }
        accounts := accounts[id := row];
        cache.InvalidateTags([SessionTag(id)], None);
      }
      return if id in accounts && !accounts[id].deleted then Ok(()) else Err(NotFound);
    }

    method Hydrate(id: Id) returns (r: Option<SessionState>)
      modifies cache
      ensures r == Hydrated(old(Snapshot()), id)
      ensures Snapshot() == Accounts.Hydrate(old(Snapshot()), id)
    {
      r := cache.Get(SessionKey(id), true);
      if r.Some? { return; }
      if id !in accounts || accounts[id].deleted { return; }
      var a := accounts[id];
      var state := SessionState(a.role, a.suspendedUntil, a.privacyVersion, a.termsVersion);
      cache.Set(SessionKey(id), state, 0, SESSION_TTL, [SessionTag(id)], true);
      r := Some(state);
    }
  }
}
