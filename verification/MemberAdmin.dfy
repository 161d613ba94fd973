/**
 The organization member API (api/app/api/auth.py) and the role hierarchy that guards it
 (api/app/auth/admin_rbac.py).
 */
module MemberAdmin {
  import opened Wrappers

  datatype MemberRole = OrgOwner | OrgAdmin | Developer | TeamMember | Auditor | Viewer | BillingAdmin

  function Level(role: MemberRole): int {
    match role
    case OrgOwner => 100
    case OrgAdmin => 80
    case Developer => 60
    case TeamMember => 50
    case Auditor => 40
    case Viewer => 30
    case BillingAdmin => 20
  }

  datatype Member = Member(tenant: string, subject: string, role: MemberRole, team: Option<string>)

  /** The member rows of all tenants, by id. */
  type Members = map<string, Member>

  // ----- the guards --------------------------------------------------------------------------

  predicate BelowAdmin(role: MemberRole) {
    role in {Developer, TeamMember, Viewer, Auditor, BillingAdmin}
  }

  predicate CanManage(managerId: string, manager: Member, targetId: string, target: Member) {
    if managerId == targetId then false
    else if manager.role == OrgOwner then target.role != OrgOwner
    else if manager.role == OrgAdmin then BelowAdmin(target.role)
    else false
  }

  predicate CanInvite(inviter: Member, role: MemberRole) {
    if inviter.role == OrgOwner then role != OrgOwner
    else if inviter.role == OrgAdmin then BelowAdmin(role)
    else false
  }

  /** The branch-only guards are the hierarchy: owners and admins act on strictly lower
      levels, and nobody on their own row. */
  lemma GuardsFollowLevels(managerId: string, manager: Member, targetId: string, target: Member)
    ensures CanManage(managerId, manager, targetId, target) <==>
      managerId != targetId && manager.role in {OrgOwner, OrgAdmin} && Level(target.role) < Level(manager.role)
    ensures CanInvite(manager, target.role) <==>
      manager.role in {OrgOwner, OrgAdmin} && Level(target.role) < Level(manager.role)
  {
    match target.role
    case OrgOwner =>
    case OrgAdmin =>
    case Developer =>
    case TeamMember =>
    case Auditor =>
    case Viewer =>
    case BillingAdmin =>
  }

  // ----- requests --------------------------------------------------------------------------------

  /** A field of a partial update: absent, explicitly null, or a value. */
  datatype Patch<T> = Unset | Null | Value(value: T)

  datatype Action =
    | Create(newId: string, subject: string, role: MemberRole, team: Option<string>)
    | Update(memberId: string, newRole: Patch<MemberRole>, newTeam: Patch<string>)
    | Delete(memberId: string)

  datatype Response = Done | NotFound | Forbidden | Conflict | ServerError

  /** A caller of a tenant; `current` is the id of the caller's own member row, if any. */
  datatype Caller = Caller(tenant: string, current: Option<string>)

  ghost predicate KnownSubject(ms: Members, tenant: string, subject: string) {
    exists id :: id in ms && ms[id].tenant == tenant && ms[id].subject == subject
  }

  /** The caller's row exists and belongs to the caller's tenant. */
  ghost predicate HasRow(ms: Members, caller: Caller) {
    caller.current.Some? && caller.current.value in ms && ms[caller.current.value].tenant == caller.tenant
  }

  ghost predicate Valid(ms: Members, caller: Caller, a: Action) {
    && (caller.current.Some? ==> HasRow(ms, caller))
    && (a.Create? ==> a.newId !in ms)
  }

  predicate InTenant(ms: Members, tenant: string, id: string) {
    id in ms && ms[id].tenant == tenant
  }

  function Patched<T>(p: Patch<T>, before: Option<T>): Option<T> {
    match p
    case Unset => before
    case Null => None
    case Value(v) => Some(v)
  }

  /** What a request answers and leaves behind. A null role violates the column's constraint,
      so the request fails and nothing changes. */
  ghost function Apply(ms: Members, caller: Caller, a: Action): (Members, Response)
    requires Valid(ms, caller, a)
  {
    match a
    case Create(newId, subject, role, team) =>
      if KnownSubject(ms, caller.tenant, subject) then (ms, Conflict)
      else if caller.current.Some? && !CanInvite(ms[caller.current.value], role) then (ms, Forbidden)
      else (ms[newId := Member(caller.tenant, subject, role, team)], Done)
    case Update(id, newRole, newTeam) =>
      if !InTenant(ms, caller.tenant, id) then (ms, NotFound)
      else if caller.current.Some? && !CanManage(caller.current.value, ms[caller.current.value], id, ms[id]) then
        (ms, Forbidden)
      else if caller.current.Some? && newRole.Value? && !CanInvite(ms[caller.current.value], newRole.value) then
        (ms, Forbidden)
      else if newRole.Null? then (ms, ServerError)
      else (ms[id := ms[id].(role := if newRole.Value? then newRole.value else ms[id].role,
                             team := Patched(newTeam, ms[id].team))], Done)
    case Delete(id) =>
      if !InTenant(ms, caller.tenant, id) then (ms, NotFound)
      else if caller.current.Some? && !CanManage(caller.current.value, ms[caller.current.value], id, ms[id]) then
        (ms, Forbidden)
      else (ms - {id}, Done)
  }

  /** An update changes what was sent and nothing else: an absent field stays, a null team is cleared. */
  lemma UpdateChangesSent(ms: Members, caller: Caller, id: string, newRole: Patch<MemberRole>, newTeam: Patch<string>)
    requires Valid(ms, caller, Update(id, newRole, newTeam))
    requires Apply(ms, caller, Update(id, newRole, newTeam)).1 == Done
    ensures
      var ms' := Apply(ms, caller, Update(id, newRole, newTeam)).0;
      && id in ms && ms'.Keys == ms.Keys && (forall other :: other in ms && other != id ==> ms'[other] == ms[other])
      && ms'[id].tenant == ms[id].tenant && ms'[id].subject == ms[id].subject
      && (newRole == Unset ==> ms'[id].role == ms[id].role)
      && (forall role :: newRole == Value(role) ==> ms'[id].role == role)
      && (newTeam == Unset ==> ms'[id].team == ms[id].team) && (newTeam == Null ==> ms'[id].team == None)
      && (forall team :: newTeam == Value(team) ==> ms'[id].team == Some(team))
  {
  }

  // ----- what every request keeps -------------------------------------------------------------------

  function Owners(ms: Members): set<string> {
    set id | id in ms && ms[id].role == OrgOwner
  }

  /** The row was added, changed or removed. */
  ghost predicate Touched(ms: Members, ms': Members, id: string) {
    (id in ms) != (id in ms') || (id in ms && ms[id] != ms'[id])
  }

  /** Whatever a caller with a row touches lies in its own tenant, is not its own row, and sits
      strictly below it, before and after. Failed requests touch nothing. */
  lemma GuardedStep(ms: Members, caller: Caller, a: Action, id: string)
    requires Valid(ms, caller, a) && HasRow(ms, caller)
    requires Touched(ms, Apply(ms, caller, a).0, id)
    ensures
      var ms', actor := Apply(ms, caller, a).0, ms[caller.current.value];
      && Apply(ms, caller, a).1 == Done && id != caller.current.value
      && (id in ms ==> ms[id].tenant == caller.tenant && Level(ms[id].role) < Level(actor.role))
      && (id in ms' ==> ms'[id].tenant == caller.tenant && Level(ms'[id].role) < Level(actor.role))
  {
    var current := caller.current.value;
    var actor := ms[current];
    if a.Create? {
      GuardsFollowLevels(current, actor, a.newId, Member(caller.tenant, a.subject, a.role, a.team));
    } else {
      GuardsFollowLevels(current, actor, a.memberId, ms[a.memberId]);
      if a.Update? && a.newRole.Value? {
        GuardsFollowLevels(current, actor, a.memberId, ms[a.memberId].(role := a.newRole.value));
      }
    }
  }

  /** Org admins are added, changed or removed only by owners. */
  lemma AdminsOnlyByOwners(ms: Members, caller: Caller, a: Action, id: string)
    requires Valid(ms, caller, a) && HasRow(ms, caller)
    requires Touched(ms, Apply(ms, caller, a).0, id)
    requires
      || (id in ms && ms[id].role == OrgAdmin)
      || (id in Apply(ms, caller, a).0 && Apply(ms, caller, a).0[id].role == OrgAdmin)
    ensures ms[caller.current.value].role == OrgOwner
  {
    GuardedStep(ms, caller, a, id);
  }

  /** The request names a new owner, or a member of the caller's tenant whom it makes or unmakes an
      owner. */
  ghost predicate MovesOwners(ms: Members, tenant: string, a: Action) {
    match a
    case Create(_, subject, role, _) => role == OrgOwner && !KnownSubject(ms, tenant, subject)
    case Update(id, newRole, _) =>
      InTenant(ms, tenant, id) && newRole.Value? && (ms[id].role == OrgOwner) != (newRole.value == OrgOwner)
    case Delete(id) => InTenant(ms, tenant, id) && ms[id].role == OrgOwner
  }

  /** The owners change exactly when a caller without a member row makes a request that moves them:
      the role guards apply only to callers with a row. */
  lemma OwnersChangeIff(ms: Members, caller: Caller, a: Action)
    requires Valid(ms, caller, a)
    ensures Owners(Apply(ms, caller, a).0) != Owners(ms) <==>
            caller.current.None? && MovesOwners(ms, caller.tenant, a)
  {
    var ms' := Apply(ms, caller, a).0;
    var id := if a.Create? then a.newId else a.memberId;
    assert forall k :: k != id ==> (k in Owners(ms') <==> k in Owners(ms));
    if caller.current.Some? && Touched(ms, ms', id) {
      GuardedStep(ms, caller, a, id);
      assert Level(OrgOwner) >= Level(ms[caller.current.value].role);
    }
    assert Owners(ms') == Owners(ms) <==> (id in Owners(ms') <==> id in Owners(ms));
  }

  // ----- runs -----------------------------------------------------------------------------------------

  datatype Request = Request(caller: Caller, action: Action)

  ghost predicate ValidRun(ms: Members, run: seq<Request>)
    decreases |run|
  {
    run == [] ||
    (Valid(ms, run[0].caller, run[0].action) && ValidRun(Apply(ms, run[0].caller, run[0].action).0, run[1..]))
  }

  ghost function After(ms: Members, run: seq<Request>): Members
    requires ValidRun(ms, run)
    decreases |run|
  {
    if run == [] then ms else After(Apply(ms, run[0].caller, run[0].action).0, run[1..])
  }

  ghost predicate AllHaveRows(run: seq<Request>) {
    forall i :: 0 <= i < |run| ==> run[i].caller.current.Some?
  }

  /** Every run of the member API by callers with a member row keeps the set of owners. */
  lemma {:induction false} OwnersAreFixed(ms: Members, run: seq<Request>)
    requires ValidRun(ms, run) && AllHaveRows(run)
    ensures Owners(After(ms, run)) == Owners(ms)
    decreases |run|
  {
    if run != [] {
      OwnersChangeIff(ms, run[0].caller, run[0].action);
      OwnersAreFixed(Apply(ms, run[0].caller, run[0].action).0, run[1..]);
    }
  }

  /** A run by callers of other tenants leaves a tenant's members alone. */
  lemma {:induction false} TenantsAreIsolated(ms: Members, run: seq<Request>, tenant: string, id: string)
    requires ValidRun(ms, run) && forall i :: 0 <= i < |run| ==> run[i].caller.tenant != tenant
    ensures InTenant(After(ms, run), tenant, id) <==> InTenant(ms, tenant, id)
    ensures InTenant(ms, tenant, id) ==> After(ms, run)[id] == ms[id]
    decreases |run|
  {
    if run != [] {
      TenantsAreIsolated(Apply(ms, run[0].caller, run[0].action).0, run[1..], tenant, id);
    }
  }

  /** Why the member row matters: an administrator without one can create an owner. */
  lemma RowlessCallerCreatesOwner(ms: Members, tenant: string, newId: string, subject: string)
    requires newId !in ms && !KnownSubject(ms, tenant, subject)
    ensures
      var caller, a := Caller(tenant, None), Create(newId, subject, OrgOwner, None);
      Owners(Apply(ms, caller, a).0) == Owners(ms) + {newId}
  {
  }

  // ----- the endpoints ------------------------------------------------------------------------------------

  class MemberApi {
    var members: Members

    constructor ()
      ensures members == map[]
    {
      members := map[];
    }

    /** `get_by_subject`. */
    method FindBySubject(tenant: string, subject: string) returns (found: Option<string>)
      ensures found.Some? ==> InTenant(members, tenant, found.value) && members[found.value].subject == subject
      ensures found.None? ==> !KnownSubject(members, tenant, subject)
    {
      var todo := members.Keys;
      while todo != {}
        invariant todo <= members.Keys
        invariant forall id :: id in members && id !in todo ==>
          !(members[id].tenant == tenant && members[id].subject == subject)
        decreases todo
      {
        var id :| id in todo;
        if members[id].tenant == tenant && members[id].subject == subject {
          return Some(id);
        }
        todo := todo - {id};
      }
      return None;
    }

    method CreateMember(caller: Caller, newId: string, subject: string, role: MemberRole, team: Option<string>)
      returns (r: Response)
      requires Valid(members, caller, Create(newId, subject, role, team))
      modifies this
      ensures (members, r) == Apply(old(members), caller, Create(newId, subject, role, team))
    {
      var existing := FindBySubject(caller.tenant, subject);
      if existing.Some? {
        return Conflict;
      }
      if caller.current.Some? {
        if !CanInvite(members[caller.current.value], role) {
          return Forbidden;
        }
      }
      members := members[newId := Member(caller.tenant, subject, role, team)];
      return Done;
    }

    method UpdateMember(caller: Caller, memberId: string, newRole: Patch<MemberRole>, newTeam: Patch<string>)
      returns (r: Response)
      requires Valid(members, caller, Update(memberId, newRole, newTeam))
      modifies this
      ensures (members, r) == Apply(old(members), caller, Update(memberId, newRole, newTeam))
    {
      if !InTenant(members, caller.tenant, memberId) {
        return NotFound;
      }
      var member := members[memberId];
      if caller.current.Some? {
        if !CanManage(caller.current.value, members[caller.current.value], memberId, member) {
          return Forbidden;
        }
        if newRole.Value? && !CanInvite(members[caller.current.value], newRole.value) {
          return Forbidden;
        }
      }
      if newRole.Null? {
        return ServerError;
      }
      if newRole.Value? {
        member := member.(role := newRole.value);
      }
      member := member.(team := Patched(newTeam, member.team));
      members := members[memberId := member];
      return Done;
    }

    method DeleteMember(caller: Caller, memberId: string) returns (r: Response)
      requires Valid(members, caller, Delete(memberId))
      modifies this
      ensures (members, r) == Apply(old(members), caller, Delete(memberId))
    {
      if !InTenant(members, caller.tenant, memberId) {
        return NotFound;
      }
      if caller.current.Some? {
        if !CanManage(caller.current.value, members[caller.current.value], memberId, members[memberId]) {
          return Forbidden;
        }
      }
      members := members - {memberId};
      return Done;
    }
  }
}
