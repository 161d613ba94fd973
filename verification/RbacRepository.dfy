/**
 Roles, bindings and permissions (api/app/repositories/rbac.py) and the bootstrap that
 gives every organization its default roles (api/app/auth/org_bootstrap.py).
 */
module RbacRepositories {
  import opened Wrappers
  import opened Subjects
  import opened Ranking
  import opened Permissions

  datatype Role = Role(id: int, tenant: string, name: string)

  datatype Binding = Binding(roleId: int, subjectType: SubjectType, subjectId: string)

  /** The tables. Row ids are drawn from a counter, so they never repeat. */
  datatype Tables = Tables(roles: seq<Role>, permissions: seq<Rule>, bindings: seq<Binding>, nextId: int)

  // ----- queries -----------------------------------------------------------------------

  function FindRole(roles: seq<Role>, tenant: string, name: string): Option<Role> {
    if roles == [] then None
    else if roles[0].tenant == tenant && roles[0].name == name then Some(roles[0])
    else FindRole(roles[1..], tenant, name)
  }

  predicate HasPatterns(rule: Rule, roleId: int, server: string, tool: string) {
    rule.roleId == roleId && rule.serverPattern == server && rule.toolPattern == tool
  }

  function FindPermission(rules: seq<Rule>, roleId: int, server: string, tool: string): Option<Rule> {
    if rules == [] then None
    else if HasPatterns(rules[0], roleId, server, tool) then Some(rules[0])
    else FindPermission(rules[1..], roleId, server, tool)
  }

  /** Permissions are found by role and both patterns. */
  lemma {:induction false} FindPermissionIff(rules: seq<Rule>, roleId: int, server: string, tool: string)
    ensures FindPermission(rules, roleId, server, tool).Some? <==>
      exists rule :: rule in rules && rule.roleId == roleId && rule.serverPattern == server && rule.toolPattern == tool
    ensures FindPermission(rules, roleId, server, tool).Some? ==>
      var rule := FindPermission(rules, roleId, server, tool).value;
      rule in rules && rule.roleId == roleId && rule.serverPattern == server && rule.toolPattern == tool
  {
    if rules != [] {
      FindPermissionIff(rules[1..], roleId, server, tool);
      assert rules[0] in rules;
      assert forall rule :: rule in rules <==> rule == rules[0] || rule in rules[1..];
    }
  }

  /** The rule belongs to a role of the tenant that is bound to the subject. */
  ghost predicate Applies(t: Tables, tenant: string, subjectType: SubjectType, subjectId: string, rule: Rule) {
    exists role :: role in t.roles && role.id == rule.roleId && role.tenant == tenant
                   && Binding(role.id, subjectType, subjectId) in t.bindings
  }

  predicate RoleReaches(roles: seq<Role>, bindings: seq<Binding>, tenant: string, subjectType: SubjectType,
                        subjectId: string, roleId: int) {
    && roles != []
    && ((roles[0].id == roleId && roles[0].tenant == tenant && Binding(roleId, subjectType, subjectId) in bindings)
        || RoleReaches(roles[1..], bindings, tenant, subjectType, subjectId, roleId))
  }

  function Reached(t: Tables, tenant: string, subjectType: SubjectType, subjectId: string): Rule -> bool {
    (rule: Rule) => RoleReaches(t.roles, t.bindings, tenant, subjectType, subjectId, rule.roleId)
  }

  /** `get_permissions_for_subject`: the join of permissions, roles and bindings. */
  function PermissionsForSubject(t: Tables, tenant: string, subjectType: SubjectType, subjectId: string): seq<Rule> {
    Filter(Reached(t, tenant, subjectType, subjectId), t.permissions)
  }

  lemma {:induction false} RoleReachesIff(roles: seq<Role>, bindings: seq<Binding>, tenant: string,
                                          subjectType: SubjectType, subjectId: string, roleId: int)
    ensures RoleReaches(roles, bindings, tenant, subjectType, subjectId, roleId) <==>
      exists role :: role in roles && role.id == roleId && role.tenant == tenant
                     && Binding(role.id, subjectType, subjectId) in bindings
  {
    if roles != [] {
      RoleReachesIff(roles[1..], bindings, tenant, subjectType, subjectId, roleId);
      if role :| role in roles && role.id == roleId && role.tenant == tenant
                 && Binding(role.id, subjectType, subjectId) in bindings {
        assert role == roles[0] || role in roles[1..];
      }
    }
  }

  /** A subject gets exactly the rules of the roles bound to it in its own tenant. */
  lemma PermissionsAreTenantScoped(t: Tables, tenant: string, subjectType: SubjectType, subjectId: string, rule: Rule)
    ensures rule in PermissionsForSubject(t, tenant, subjectType, subjectId) <==>
            rule in t.permissions && Applies(t, tenant, subjectType, subjectId, rule)
  {
    FilterMember(Reached(t, tenant, subjectType, subjectId), t.permissions, rule);
    RoleReachesIff(t.roles, t.bindings, tenant, subjectType, subjectId, rule.roleId);
  }

  // ----- get or create ----------------------------------------------------------------------

  function EnsureRole(t: Tables, tenant: string, name: string): (Tables, Role) {
    match FindRole(t.roles, tenant, name)
    case Some(role) => (t, role)
    case None =>
      var role := Role(t.nextId, tenant, name);
      (t.(roles := t.roles + [role], nextId := t.nextId + 1), role)
  }

  /** A default permission: every one of them is for all servers. */
  datatype Grant = Grant(tool: string, effect: Effect, priority: int)

  const ALL_SERVERS := "*"

  function EnsureGrant(t: Tables, roleId: int, g: Grant): Tables {
    if FindPermission(t.permissions, roleId, ALL_SERVERS, g.tool).Some? then t
    else t.(permissions := t.permissions + [Rule(t.nextId, roleId, ALL_SERVERS, g.tool, g.effect, g.priority)],
            nextId := t.nextId + 1)
  }

  function EnsureGrants(t: Tables, roleId: int, grants: seq<Grant>): Tables
    decreases |grants|
  {
    if grants == [] then t else EnsureGrants(EnsureGrant(t, roleId, grants[0]), roleId, grants[1..])
  }

  const SUPER_ADMIN_GRANTS := [Grant("*", Allow, 200), Grant("billing_*", Deny, 300)]
  const OWNER_GRANTS := [Grant("*", Allow, 100)]
  const ADMIN_GRANTS := [Grant("*", Allow, 50), Grant("billing_*", Deny, 100), Grant("org_delete*", Deny, 100)]
  const DEVELOPER_GRANTS := [
    Grant("server_*", Allow, 50), Grant("tool_*", Allow, 50),
    Grant("rate_limit_*", Allow, 50), Grant("audit_*", Allow, 50),
    Grant("billing_*", Deny, 100), Grant("org_*", Deny, 100), Grant("user_*", Deny, 100), Grant("role_*", Deny, 100)]
  const VIEWER_GRANTS := [
    Grant("server_list*", Allow, 50), Grant("tool_list*", Allow, 50), Grant("audit_list*", Allow, 50),
    Grant("*_create*", Deny, 100), Grant("*_update*", Deny, 100), Grant("*_delete*", Deny, 100),
    Grant("billing_*", Deny, 100), Grant("org_*", Deny, 100)]

  datatype DefaultRole = SuperAdmin | Owner | Admin | Developer | Viewer {
    function Name(): string {
      match this
      case SuperAdmin => "super_admin"
      case Owner => "org_owner"
      case Admin => "org_admin"
      case Developer => "developer"
      case Viewer => "viewer"
    }

    function Grants(): seq<Grant> {
      match this
      case SuperAdmin => SUPER_ADMIN_GRANTS
      case Owner => OWNER_GRANTS
      case Admin => ADMIN_GRANTS
      case Developer => DEVELOPER_GRANTS
      case Viewer => VIEWER_GRANTS
    }
  }

  const DEFAULT_ROLES := [SuperAdmin, Owner, Admin, Developer, Viewer]

  function EnsureRoles(t: Tables, tenant: string, roles: seq<DefaultRole>): Tables
    decreases |roles|
  {
    if roles == [] then t else EnsureRoles(EnsureRole(t, tenant, roles[0].Name()).0, tenant, roles[1..])
  }

  /** The grants of each role, given to the role row of that name. */
  function EnsureAllGrants(t: Tables, tenant: string, roles: seq<DefaultRole>): Tables
    decreases |roles|
  {
    if roles == [] then t
    else
      match FindRole(t.roles, tenant, roles[0].Name())
      case None => EnsureAllGrants(t, tenant, roles[1..])
      case Some(role) => EnsureAllGrants(EnsureGrants(t, role.id, roles[0].Grants()), tenant, roles[1..])
  }

  /** `create_default_roles`. */
  function Bootstrap(t: Tables, tenant: string): Tables {
    EnsureAllGrants(EnsureRoles(t, tenant, DEFAULT_ROLES), tenant, DEFAULT_ROLES)
  }

  // ----- running it again changes nothing ----------------------------------------------------

  /** Rows are only ever added at the end. */
  ghost predicate Grows(t: Tables, t': Tables) {
    t.roles <= t'.roles && t.permissions <= t'.permissions && t.bindings == t'.bindings
  }

  lemma {:induction false} FoundRoleStays(roles: seq<Role>, roles': seq<Role>, tenant: string, name: string)
    requires roles <= roles' && FindRole(roles, tenant, name).Some?
    ensures FindRole(roles', tenant, name) == FindRole(roles, tenant, name)
  {
    if !(roles[0].tenant == tenant && roles[0].name == name) {
      FoundRoleStays(roles[1..], roles'[1..], tenant, name);
    }
  }

  lemma {:induction false} FoundPermissionStays(rules: seq<Rule>, rules': seq<Rule>, roleId: int, server: string,
                                                tool: string)
    requires rules <= rules' && FindPermission(rules, roleId, server, tool).Some?
    ensures FindPermission(rules', roleId, server, tool) == FindPermission(rules, roleId, server, tool)
  {
    if !HasPatterns(rules[0], roleId, server, tool) {
      FoundPermissionStays(rules[1..], rules'[1..], roleId, server, tool);
    }
  }

  lemma {:induction false} AddedRoleIsFound(roles: seq<Role>, role: Role)
    requires FindRole(roles, role.tenant, role.name).None?
    ensures FindRole(roles + [role], role.tenant, role.name) == Some(role)
  {
    if roles != [] {
      AddedRoleIsFound(roles[1..], role);
      assert (roles + [role])[1..] == roles[1..] + [role];
    }
  }

  lemma {:induction false} AddedPermissionIsFound(rules: seq<Rule>, rule: Rule)
    requires FindPermission(rules, rule.roleId, rule.serverPattern, rule.toolPattern).None?
    ensures FindPermission(rules + [rule], rule.roleId, rule.serverPattern, rule.toolPattern) == Some(rule)
  {
    if rules != [] {
      AddedPermissionIsFound(rules[1..], rule);
      assert (rules + [rule])[1..] == rules[1..] + [rule];
    }
  }

  /** Every grant of the list has its row. */
  ghost predicate Granted(t: Tables, roleId: int, grants: seq<Grant>) {
    forall g :: g in grants ==> FindPermission(t.permissions, roleId, ALL_SERVERS, g.tool).Some?
  }

  ghost predicate RolesPresent(t: Tables, tenant: string, roles: seq<DefaultRole>) {
    forall r :: r in roles ==> FindRole(t.roles, tenant, r.Name()).Some?
  }

  ghost predicate AllGranted(t: Tables, tenant: string, roles: seq<DefaultRole>) {
    && RolesPresent(t, tenant, roles)
    && forall r :: r in roles ==> Granted(t, FindRole(t.roles, tenant, r.Name()).value.id, r.Grants())
  }

  lemma {:induction false} EnsureGrantsGrants(t: Tables, roleId: int, grants: seq<Grant>)
    ensures Grows(t, EnsureGrants(t, roleId, grants)) && EnsureGrants(t, roleId, grants).roles == t.roles
    ensures Granted(EnsureGrants(t, roleId, grants), roleId, grants)
    decreases |grants|
  {
    if grants != [] {
      var t1 := EnsureGrant(t, roleId, grants[0]);
      var rest := EnsureGrants(t1, roleId, grants[1..]);
      EnsureGrantsGrants(t1, roleId, grants[1..]);
      if t1 != t {
        AddedPermissionIsFound(t.permissions, t1.permissions[|t.permissions|]);
      }
      FoundPermissionStays(t1.permissions, rest.permissions, roleId, ALL_SERVERS, grants[0].tool);
      assert forall g :: g in grants ==> g == grants[0] || g in grants[1..];
    }
  }

  lemma GrantedStays(t: Tables, t': Tables, roleId: int, grants: seq<Grant>)
    requires Granted(t, roleId, grants) && Grows(t, t')
    ensures Granted(t', roleId, grants)
  {
    forall g | g in grants
      ensures FindPermission(t'.permissions, roleId, ALL_SERVERS, g.tool).Some?
    {
      FoundPermissionStays(t.permissions, t'.permissions, roleId, ALL_SERVERS, g.tool);
    }
  }

  lemma {:induction false} EnsureRolesCreates(t: Tables, tenant: string, roles: seq<DefaultRole>)
    ensures Grows(t, EnsureRoles(t, tenant, roles)) && RolesPresent(EnsureRoles(t, tenant, roles), tenant, roles)
    decreases |roles|
  {
    if roles != [] {
      var (t1, role) := EnsureRole(t, tenant, roles[0].Name());
      EnsureRolesCreates(t1, tenant, roles[1..]);
      if t1 != t {
        AddedRoleIsFound(t.roles, role);
      }
      FoundRoleStays(t1.roles, EnsureRoles(t1, tenant, roles[1..]).roles, tenant, roles[0].Name());
      assert forall r :: r in roles ==> r == roles[0] || r in roles[1..];
    }
  }

  lemma {:induction false} EnsureAllGrantsGrants(t: Tables, tenant: string, roles: seq<DefaultRole>)
    requires RolesPresent(t, tenant, roles)
    ensures Grows(t, EnsureAllGrants(t, tenant, roles)) && EnsureAllGrants(t, tenant, roles).roles == t.roles
    ensures AllGranted(EnsureAllGrants(t, tenant, roles), tenant, roles)
    decreases |roles|
  {
    if roles != [] {
      assert roles[0] in roles;
      var role := FindRole(t.roles, tenant, roles[0].Name()).value;
      var t1 := EnsureGrants(t, role.id, roles[0].Grants());
      EnsureGrantsGrants(t, role.id, roles[0].Grants());
      EnsureAllGrantsGrants(t1, tenant, roles[1..]);
      GrantedStays(t1, EnsureAllGrants(t1, tenant, roles[1..]), role.id, roles[0].Grants());
      assert forall r :: r in roles ==> r == roles[0] || r in roles[1..];
    }
  }

  lemma {:induction false} EnsureGrantsIdle(t: Tables, roleId: int, grants: seq<Grant>)
    requires Granted(t, roleId, grants)
    ensures EnsureGrants(t, roleId, grants) == t
    decreases |grants|
  {
    if grants != [] {
      assert grants[0] in grants;
      EnsureGrantsIdle(t, roleId, grants[1..]);
    }
  }

  lemma {:induction false} EnsureRolesIdle(t: Tables, tenant: string, roles: seq<DefaultRole>)
    requires RolesPresent(t, tenant, roles)
    ensures EnsureRoles(t, tenant, roles) == t
    decreases |roles|
  {
    if roles != [] {
      assert roles[0] in roles;
      EnsureRolesIdle(t, tenant, roles[1..]);
    }
  }

  lemma {:induction false} EnsureAllGrantsIdle(t: Tables, tenant: string, roles: seq<DefaultRole>)
    requires AllGranted(t, tenant, roles)
    ensures EnsureAllGrants(t, tenant, roles) == t
    decreases |roles|
  {
    if roles != [] {
      assert roles[0] in roles;
      EnsureGrantsIdle(t, FindRole(t.roles, tenant, roles[0].Name()).value.id, roles[0].Grants());
      EnsureAllGrantsIdle(t, tenant, roles[1..]);
    }
  }

  /** Running the bootstrap again changes nothing, whatever the tables held before. */
  lemma BootstrapIsIdempotent(t: Tables, tenant: string)
    ensures Bootstrap(Bootstrap(t, tenant), tenant) == Bootstrap(t, tenant)
    ensures Grows(t, Bootstrap(t, tenant)) && AllGranted(Bootstrap(t, tenant), tenant, DEFAULT_ROLES)
  {
    var withRoles := EnsureRoles(t, tenant, DEFAULT_ROLES);
    EnsureRolesCreates(t, tenant, DEFAULT_ROLES);
    EnsureAllGrantsGrants(withRoles, tenant, DEFAULT_ROLES);
    EnsureRolesIdle(Bootstrap(t, tenant), tenant, DEFAULT_ROLES);
    EnsureAllGrantsIdle(Bootstrap(t, tenant), tenant, DEFAULT_ROLES);
  }

  // ----- what a fresh tenant gets ------------------------------------------------------------

  function OfRole(roleId: int): Rule -> bool {
    (rule: Rule) => rule.roleId == roleId
  }

  function RulesOf(t: Tables, roleId: int): seq<Rule> {
    Filter(OfRole(roleId), t.permissions)
  }

  /** The rules are the grants, in order, for all servers. */
  ghost predicate Carries(rules: seq<Rule>, grants: seq<Grant>) {
    && |rules| == |grants|
    && forall i :: 0 <= i < |rules| ==>
         && rules[i].serverPattern == ALL_SERVERS
         && Grant(rules[i].toolPattern, rules[i].effect, rules[i].priority) == grants[i]
  }

  ghost predicate DistinctTools(grants: seq<Grant>) {
    forall i, j :: 0 <= i < j < |grants| ==> grants[i].tool != grants[j].tool
  }

  lemma {:induction false} FoundPermissionIsOfRole(t: Tables, roleId: int, server: string, tool: string)
    requires FindPermission(t.permissions, roleId, server, tool).Some?
    ensures exists rule :: rule in RulesOf(t, roleId) && rule.toolPattern == tool
  {
    var rule := FoundRow(t.permissions, roleId, server, tool);
    FilterMember(OfRole(roleId), t.permissions, rule);
  }

  lemma {:induction false} FoundRow(rules: seq<Rule>, roleId: int, server: string, tool: string) returns (rule: Rule)
    requires FindPermission(rules, roleId, server, tool).Some?
    ensures rule in rules && HasPatterns(rule, roleId, server, tool)
  {
    if HasPatterns(rules[0], roleId, server, tool) {
      rule := rules[0];
    } else {
      rule := FoundRow(rules[1..], roleId, server, tool);
    }
  }

  lemma {:induction false} EnsureGrantExact(t: Tables, roleId: int, done: seq<Grant>, g: Grant)
    requires Carries(RulesOf(t, roleId), done) && DistinctTools(done + [g])
    ensures Carries(RulesOf(EnsureGrant(t, roleId, g), roleId), done + [g])
  {
    assert forall i :: 0 <= i < |done| ==> done[i] == (done + [g])[i] && done[i].tool != (done + [g])[|done|].tool;
    if FindPermission(t.permissions, roleId, ALL_SERVERS, g.tool).Some? {
      FoundPermissionIsOfRole(t, roleId, ALL_SERVERS, g.tool);
      assert false;
    } else {
      FilterAppend(OfRole(roleId), t.permissions, [Rule(t.nextId, roleId, ALL_SERVERS, g.tool, g.effect, g.priority)]);
    }
  }

  lemma {:induction false} EnsureGrantsElsewhere(t: Tables, roleId: int, grants: seq<Grant>, other: int)
    requires other != roleId
    ensures RulesOf(EnsureGrants(t, roleId, grants), other) == RulesOf(t, other)
    decreases |grants|
  {
    if grants != [] {
      var g := grants[0];
      FilterAppend(OfRole(other), t.permissions, [Rule(t.nextId, roleId, ALL_SERVERS, g.tool, g.effect, g.priority)]);
      EnsureGrantsElsewhere(EnsureGrant(t, roleId, g), roleId, grants[1..], other);
    }
  }

  lemma {:induction false} EnsureGrantsExact(t: Tables, roleId: int, done: seq<Grant>, grants: seq<Grant>)
    requires Carries(RulesOf(t, roleId), done) && DistinctTools(done + grants)
    ensures Carries(RulesOf(EnsureGrants(t, roleId, grants), roleId), done + grants)
    decreases |grants|
  {
    if grants == [] {
      assert done + grants == done;
    } else {
      var t1, done1 := EnsureGrant(t, roleId, grants[0]), done + [grants[0]];
      assert done + grants == done1 + grants[1..];
      assert forall i :: 0 <= i < |done1| ==> done1[i] == (done + grants)[i];
      EnsureGrantExact(t, roleId, done, grants[0]);
      EnsureGrantsExact(t1, roleId, done1, grants[1..]);
    }
  }

  /** Role ids are unique and were drawn from the counter, and so were those that permissions
      and bindings refer to. */
  ghost predicate WellNumbered(t: Tables) {
    && (forall i, j :: 0 <= i < j < |t.roles| ==> t.roles[i].id != t.roles[j].id)
    && (forall i :: 0 <= i < |t.roles| ==> t.roles[i].id < t.nextId)
    && (forall i :: 0 <= i < |t.permissions| ==> t.permissions[i].roleId < t.nextId)
    && (forall i :: 0 <= i < |t.bindings| ==> t.bindings[i].roleId < t.nextId)
  }

  ghost predicate FreshTenant(t: Tables, tenant: string) {
    forall i :: 0 <= i < |t.roles| ==> t.roles[i].tenant != tenant
  }

  lemma {:induction false} FoundRoleRow(roles: seq<Role>, tenant: string, name: string)
    requires FindRole(roles, tenant, name).Some?
    ensures
      var role := FindRole(roles, tenant, name).value;
      role in roles && role.tenant == tenant && role.name == name
  {
    if !(roles[0].tenant == tenant && roles[0].name == name) {
      FoundRoleRow(roles[1..], tenant, name);
    }
  }

  lemma NamesDiffer(r: DefaultRole, r': DefaultRole)
    requires r != r'
    ensures r.Name() != r'.Name()
  {
    assert SuperAdmin.Name()[0] == 's' && Owner.Name()[4] == 'o' && Admin.Name()[4] == 'a';
    assert Developer.Name()[0] == 'd' && Viewer.Name()[0] == 'v' && Owner.Name()[0] == 'o' && Admin.Name()[0] == 'o';
  }

  lemma GrantToolsDiffer(r: DefaultRole)
    ensures DistinctTools(r.Grants())
  {
    match r
    case Developer => DeveloperToolsDiffer();
    case Viewer => ViewerToolsDiffer();
    case _ => assert "billing_*"[0] == 'b' && "org_delete*"[0] == 'o' && "*"[0] == '*';
  }

  lemma DeveloperToolsDiffer()
    ensures DistinctTools(Developer.Grants())
  {
    assert "server_*"[0] == 's' && "tool_*"[0] == 't' && "rate_limit_*"[1] == 'a' && "audit_*"[0] == 'a';
    assert "billing_*"[0] == 'b' && "org_*"[0] == 'o' && "user_*"[0] == 'u';
    assert "role_*"[1] == 'o' && "rate_limit_*"[0] == 'r' && "role_*"[0] == 'r';
  }

  lemma ViewerToolsDiffer()
    ensures DistinctTools(Viewer.Grants())
  {
    assert "server_list*"[0] == 's' && "tool_list*"[0] == 't' && "audit_list*"[0] == 'a';
    assert "*_create*"[2] == 'c' && "*_update*"[2] == 'u' && "*_delete*"[2] == 'd';
    assert "*_create*"[0] == '*' && "*_update*"[0] == '*' && "*_delete*"[0] == '*';
    assert "billing_*"[0] == 'b' && "org_*"[0] == 'o';
  }

  /** The id of the tenant's row for a default role. */
  ghost function RoleId(t: Tables, tenant: string, r: DefaultRole): int
    requires FindRole(t.roles, tenant, r.Name()).Some?
  {
    FindRole(t.roles, tenant, r.Name()).value.id
  }

  lemma RoleIdsDiffer(t: Tables, tenant: string, r: DefaultRole, r': DefaultRole)
    requires WellNumbered(t) && r != r'
    requires FindRole(t.roles, tenant, r.Name()).Some? && FindRole(t.roles, tenant, r'.Name()).Some?
    ensures RoleId(t, tenant, r) != RoleId(t, tenant, r')
  {
    NamesDiffer(r, r');
    FoundRoleRow(t.roles, tenant, r.Name());
    FoundRoleRow(t.roles, tenant, r'.Name());
    var i :| 0 <= i < |t.roles| && t.roles[i] == FindRole(t.roles, tenant, r.Name()).value;
    var j :| 0 <= j < |t.roles| && t.roles[j] == FindRole(t.roles, tenant, r'.Name()).value;
    assert i != j;
  }

  lemma {:induction false} GrantsKeepRoles(t: Tables, roleId: int, grants: seq<Grant>)
    ensures EnsureGrants(t, roleId, grants).roles == t.roles
    decreases |grants|
  {
    if grants != [] {
      GrantsKeepRoles(EnsureGrant(t, roleId, grants[0]), roleId, grants[1..]);
    }
  }

  lemma {:induction false} AllGrantsKeepRoles(t: Tables, tenant: string, roles: seq<DefaultRole>)
    requires RolesPresent(t, tenant, roles)
    ensures EnsureAllGrants(t, tenant, roles).roles == t.roles
    decreases |roles|
  {
    if roles != [] {
      assert roles[0] in roles;
      var id := RoleId(t, tenant, roles[0]);
      GrantsKeepRoles(t, id, roles[0].Grants());
      AllGrantsKeepRoles(EnsureGrants(t, id, roles[0].Grants()), tenant, roles[1..]);
    }
  }

  ghost predicate NotAmong(t: Tables, tenant: string, roles: seq<DefaultRole>, id: int) {
    forall r :: r in roles && FindRole(t.roles, tenant, r.Name()).Some? ==> RoleId(t, tenant, r) != id
  }

  /** Only the listed roles get grants. */
  lemma {:induction false} AllGrantsElsewhere(t: Tables, tenant: string, roles: seq<DefaultRole>, id: int)
    requires NotAmong(t, tenant, roles, id)
    ensures RulesOf(EnsureAllGrants(t, tenant, roles), id) == RulesOf(t, id)
    decreases |roles|
  {
    if roles != [] {
      var found := FindRole(t.roles, tenant, roles[0].Name());
      if found.None? {
        AllGrantsElsewhere(t, tenant, roles[1..], id);
      } else {
        assert roles[0] in roles;
        AllGrantsStep(t, tenant, roles, id, found.value.id);
        AllGrantsElsewhere(EnsureGrants(t, found.value.id, roles[0].Grants()), tenant, roles[1..], id);
      }
    }
  }

  lemma {:induction false} AllGrantsStep(t: Tables, tenant: string, roles: seq<DefaultRole>, id: int, id0: int)
    requires roles != [] && NotAmong(t, tenant, roles, id) && id0 != id
    ensures
      var t1 := EnsureGrants(t, id0, roles[0].Grants());
      RulesOf(t1, id) == RulesOf(t, id) && NotAmong(t1, tenant, roles[1..], id)
  {
    EnsureGrantsElsewhere(t, id0, roles[0].Grants(), id);
    GrantsKeepRoles(t, id0, roles[0].Grants());
  }

  /** A listed role that had no rules ends with exactly its grants. */
  lemma {:induction false} AllGrantsExact(t: Tables, tenant: string, roles: seq<DefaultRole>, r: DefaultRole)
    requires WellNumbered(t) && RolesPresent(t, tenant, roles)
    requires DistinctRoles(roles)
    requires r in roles && RulesOf(t, RoleId(t, tenant, r)) == []
    ensures Carries(RulesOf(EnsureAllGrants(t, tenant, roles), RoleId(t, tenant, r)), r.Grants())
    decreases |roles|
  {
    var r0, rest := roles[0], roles[1..];
    assert r0 in roles;
    var id0 := RoleId(t, tenant, r0);
    var t1 := EnsureGrants(t, id0, r0.Grants());
    GrantsKeepRoles(t, id0, r0.Grants());
    if r == r0 {
      FirstRoleExact(t, tenant, roles);
    } else {
      RoleIdsDiffer(t, tenant, r0, r);
      EnsureGrantsElsewhere(t, id0, r0.Grants(), RoleId(t, tenant, r));
      FoundRoleRow(t.roles, tenant, r0.Name());
      WellNumberedAfterGrants(t, id0, r0.Grants());
      assert r in rest && DistinctRoles(rest);
      AllGrantsExact(t1, tenant, rest, r);
    }
  }

  lemma {:induction false} FirstRoleExact(t: Tables, tenant: string, roles: seq<DefaultRole>)
    requires WellNumbered(t) && RolesPresent(t, tenant, roles) && DistinctRoles(roles)
    requires roles != [] && RulesOf(t, RoleId(t, tenant, roles[0])) == []
    ensures Carries(RulesOf(EnsureAllGrants(t, tenant, roles), RoleId(t, tenant, roles[0])), roles[0].Grants())
  {
    var r0, rest := roles[0], roles[1..];
    var id0 := RoleId(t, tenant, r0);
    GrantsKeepRoles(t, id0, r0.Grants());
    GrantToolsDiffer(r0);
    assert [] + r0.Grants() == r0.Grants();
    EnsureGrantsExact(t, id0, [], r0.Grants());
    var t1 := EnsureGrants(t, id0, r0.Grants());
    forall other | other in rest
      ensures RoleId(t1, tenant, other) != id0
    {
      RoleIdsDiffer(t, tenant, r0, other);
    }
    AllGrantsElsewhere(t1, tenant, rest, id0);
  }

  ghost predicate DistinctRoles(roles: seq<DefaultRole>) {
    forall i, j :: 0 <= i < j < |roles| ==> roles[i] != roles[j]
  }

  lemma {:induction false} WellNumberedAfterGrants(t: Tables, roleId: int, grants: seq<Grant>)
    requires WellNumbered(t) && roleId < t.nextId
    ensures WellNumbered(EnsureGrants(t, roleId, grants))
    decreases |grants|
  {
    if grants != [] {
      WellNumberedAfterGrants(EnsureGrant(t, roleId, grants[0]), roleId, grants[1..]);
    }
  }

  /** New role rows keep the numbering and carry ids that nothing refers to yet. */
  lemma {:induction false} NewRolesAreUnused(t: Tables, tenant: string, roles: seq<DefaultRole>, floor: int)
    requires WellNumbered(t) && floor <= t.nextId
    requires forall i :: 0 <= i < |t.roles| && t.roles[i].tenant == tenant ==> t.roles[i].id >= floor
    ensures
      var t' := EnsureRoles(t, tenant, roles);
      && WellNumbered(t') && t'.permissions == t.permissions && t'.bindings == t.bindings
      && forall i :: 0 <= i < |t'.roles| && t'.roles[i].tenant == tenant ==> t'.roles[i].id >= floor
    decreases |roles|
  {
    if roles != [] {
      NewRolesAreUnused(EnsureRole(t, tenant, roles[0].Name()).0, tenant, roles[1..], floor);
    }
  }

  lemma {:induction false} NoRulesForNewId(rules: seq<Rule>, id: int)
    requires forall i :: 0 <= i < |rules| ==> rules[i].roleId < id
    ensures Filter(OfRole(id), rules) == []
  {
    if rules != [] {
      NoRulesForNewId(rules[1..], id);
    }
  }

  lemma DefaultRolesDiffer()
    ensures DistinctRoles(DEFAULT_ROLES)
  {
  }

  /** On a fresh tenant, the bootstrap gives every default role exactly its grants. */
  lemma {:induction false} BootstrapOfFreshTenant(t: Tables, tenant: string, r: DefaultRole)
    requires WellNumbered(t) && FreshTenant(t, tenant)
    ensures
      var t' := Bootstrap(t, tenant);
      && FindRole(t'.roles, tenant, r.Name()).Some?
      && RoleId(t', tenant, r) >= t.nextId
      && Carries(RulesOf(t', RoleId(t', tenant, r)), r.Grants())
  {
    var withRoles := EnsureRoles(t, tenant, DEFAULT_ROLES);
    RolesOfFreshTenant(t, tenant, r);
    AllGrantsKeepRoles(withRoles, tenant, DEFAULT_ROLES);
    DefaultRolesDiffer();
    AllGrantsExact(withRoles, tenant, DEFAULT_ROLES, r);
  }

  lemma {:induction false} RolesOfFreshTenant(t: Tables, tenant: string, r: DefaultRole)
    requires WellNumbered(t) && FreshTenant(t, tenant)
    ensures
      var t' := EnsureRoles(t, tenant, DEFAULT_ROLES);
      && WellNumbered(t') && RolesPresent(t', tenant, DEFAULT_ROLES) && r in DEFAULT_ROLES
      && RoleId(t', tenant, r) >= t.nextId && RulesOf(t', RoleId(t', tenant, r)) == []
  {
    var t' := EnsureRoles(t, tenant, DEFAULT_ROLES);
    EnsureRolesCreates(t, tenant, DEFAULT_ROLES);
    NewRolesAreUnused(t, tenant, DEFAULT_ROLES, t.nextId);
    assert r in DEFAULT_ROLES by {
      assert DEFAULT_ROLES[0] == SuperAdmin && DEFAULT_ROLES[1] == Owner && DEFAULT_ROLES[2] == Admin;
      assert DEFAULT_ROLES[3] == Developer && DEFAULT_ROLES[4] == Viewer;
    }
    FoundRoleRow(t'.roles, tenant, r.Name());
    NoRulesForNewId(t.permissions, RoleId(t', tenant, r));
  }
}
