/**
 What the default roles of a bootstrapped organization allow: the rules that
 api/app/auth/org_bootstrap.py creates, under the evaluator of api/app/auth/rbac.py.
 */
module OrgBootstrap {
  import opened Wrappers
  import opened Subjects
  import opened Patterns
  import opened Ranking
  import opened Permissions
  import opened RbacRepositories

  // ----- the repository, changed in place ------------------------------------------------------

  class RbacRepository {
    var t: Tables

    constructor ()
      ensures t == Tables([], [], [], 0)
    {
      t := Tables([], [], [], 0);
    }

    /** `_get_or_create_role`. */
    method GetOrCreateRole(tenant: string, name: string) returns (role: Role)
      modifies this
      ensures (t, role) == EnsureRole(old(t), tenant, name)
    {
      var existing := FindRole(t.roles, tenant, name);
      if existing.Some? {
        return existing.value;
      }
      role := Role(t.nextId, tenant, name);
      t := t.(roles := t.roles + [role], nextId := t.nextId + 1);
    }

    /** `_upsert_permission`, which leaves an existing permission as it is. */
    method UpsertPermission(roleId: int, g: Grant)
      modifies this
      ensures t == EnsureGrant(old(t), roleId, g)
    {
      var existing := FindPermission(t.permissions, roleId, ALL_SERVERS, g.tool);
      if existing.Some? {
        return;
      }
      t := t.(permissions := t.permissions + [Rule(t.nextId, roleId, ALL_SERVERS, g.tool, g.effect, g.priority)],
              nextId := t.nextId + 1);
    }

    method CreateBinding(roleId: int, subjectType: SubjectType, subjectId: string)
      modifies this
      ensures t == Bind(old(t), roleId, subjectType, subjectId)
    {
      t := t.(bindings := t.bindings + [Binding(roleId, subjectType, subjectId)]);
    }

    method GrantSuperAdmin(id: int)
      modifies this
      ensures t == EnsureGrants(old(t), id, SuperAdmin.Grants())
    {
      UpsertPermission(id, Grant("*", Allow, 200));
      UpsertPermission(id, Grant("billing_*", Deny, 300));
      UnfoldGrants(old(t), id, SuperAdmin.Grants());
    }

    method GrantOwner(id: int)
      modifies this
      ensures t == EnsureGrants(old(t), id, Owner.Grants())
    {
      UpsertPermission(id, Grant("*", Allow, 100));
      UnfoldGrants(old(t), id, Owner.Grants());
    }

    method GrantAdmin(id: int)
      modifies this
      ensures t == EnsureGrants(old(t), id, Admin.Grants())
    {
      UpsertPermission(id, Grant("*", Allow, 50));
      UpsertPermission(id, Grant("billing_*", Deny, 100));
      UpsertPermission(id, Grant("org_delete*", Deny, 100));
      UnfoldGrants(old(t), id, Admin.Grants());
    }

    method GrantDeveloper(id: int)
      modifies this
      ensures t == EnsureGrants(old(t), id, Developer.Grants())
    {
      UpsertPermission(id, Grant("server_*", Allow, 50));
      UpsertPermission(id, Grant("tool_*", Allow, 50));
      UpsertPermission(id, Grant("rate_limit_*", Allow, 50));
      UpsertPermission(id, Grant("audit_*", Allow, 50));
      UpsertPermission(id, Grant("billing_*", Deny, 100));
      UpsertPermission(id, Grant("org_*", Deny, 100));
      UpsertPermission(id, Grant("user_*", Deny, 100));
      UpsertPermission(id, Grant("role_*", Deny, 100));
      UnfoldGrants(old(t), id, Developer.Grants());
    }

    method GrantViewer(id: int)
      modifies this
      ensures t == EnsureGrants(old(t), id, Viewer.Grants())
    {
      UpsertPermission(id, Grant("server_list*", Allow, 50));
      UpsertPermission(id, Grant("tool_list*", Allow, 50));
      UpsertPermission(id, Grant("audit_list*", Allow, 50));
      UpsertPermission(id, Grant("*_create*", Deny, 100));
      UpsertPermission(id, Grant("*_update*", Deny, 100));
      UpsertPermission(id, Grant("*_delete*", Deny, 100));
      UpsertPermission(id, Grant("billing_*", Deny, 100));
      UpsertPermission(id, Grant("org_*", Deny, 100));
      UnfoldGrants(old(t), id, Viewer.Grants());
    }

    method GetOrCreateRoles(tenant: string)
      returns (superAdmin: Role, owner: Role, admin: Role, developer: Role, viewer: Role)
      modifies this
      ensures t == EnsureRoles(old(t), tenant, DEFAULT_ROLES)
      ensures FindRole(t.roles, tenant, SuperAdmin.Name()) == Some(superAdmin)
      ensures FindRole(t.roles, tenant, Owner.Name()) == Some(owner)
      ensures FindRole(t.roles, tenant, Admin.Name()) == Some(admin)
      ensures FindRole(t.roles, tenant, Developer.Name()) == Some(developer)
      ensures FindRole(t.roles, tenant, Viewer.Name()) == Some(viewer)
    {
      superAdmin := GetOrCreateRole(tenant, "super_admin");
      owner := GetOrCreateRole(tenant, "org_owner");
      admin := GetOrCreateRole(tenant, "org_admin");
      developer := GetOrCreateRole(tenant, "developer");
      viewer := GetOrCreateRole(tenant, "viewer");
      UnfoldRoles(old(t), tenant);
    }

    /** `create_default_roles`. */
    method CreateDefaultRoles(tenant: string)
      modifies this
      ensures t == Bootstrap(old(t), tenant)
    {
      var superAdmin, owner, admin, developer, viewer := GetOrCreateRoles(tenant);
      GrantsInTurn(t, tenant, superAdmin, owner, admin, developer, viewer);
      GrantSuperAdmin(superAdmin.id);
      GrantOwner(owner.id);
      GrantAdmin(admin.id);
      GrantDeveloper(developer.id);
      GrantViewer(viewer.id);
    }

    /** `bind_owner_to_org_owner`: without the role, nothing is bound. */
    method BindOwner(tenant: string, keyId: string)
      modifies this
      ensures t == BindToRole(old(t), tenant, Owner, keyId)
    {
      var role := FindRole(t.roles, tenant, "org_owner");
      if role.None? {
        return;
      }
      CreateBinding(role.value.id, ApiKey, keyId);
    }

    /** The roles of a new organization (`provision_tenant`): the default roles, then the owner's
        key. The key may call every tool of every server. */
    method Provision(tenant: string, keyId: string)
      requires WellNumbered(t) && FreshTenant(t, tenant)
      modifies this
      ensures t == BindToRole(Bootstrap(old(t), tenant), tenant, Owner, keyId)
      ensures forall server, tool ::
        Evaluate(StarGlob, server, tool, PermissionsForSubject(t, tenant, ApiKey, keyId)).allowed
    {
      FreshRolesUnbound(t, tenant, Owner);
      CreateDefaultRoles(tenant);
      BindOwner(tenant, keyId);
      forall server, tool
        ensures Evaluate(StarGlob, server, tool, PermissionsForSubject(t, tenant, ApiKey, keyId)).allowed
      {
        DefaultRolesAllowExactly(old(t), tenant, Owner, ApiKey, keyId, server, tool);
      }
    }
  }

  function Bind(t: Tables, roleId: int, subjectType: SubjectType, subjectId: string): Tables {
    t.(bindings := t.bindings + [Binding(roleId, subjectType, subjectId)])
  }

  /** An API key is bound to a default role, if the tenant has it. */
  function BindToRole(t: Tables, tenant: string, r: DefaultRole, keyId: string): Tables {
    match FindRole(t.roles, tenant, r.Name())
    case None => t
    case Some(role) => Bind(t, role.id, ApiKey, keyId)
  }

  /** Up to eight grants, one after the other. */
  lemma UnfoldGrants(t: Tables, id: int, grants: seq<Grant>)
    requires 1 <= |grants| <= 8
    ensures
      var t1 := EnsureGrant(t, id, grants[0]);
      var t2 := if |grants| > 1 then EnsureGrant(t1, id, grants[1]) else t1;
      var t3 := if |grants| > 2 then EnsureGrant(t2, id, grants[2]) else t2;
      var t4 := if |grants| > 3 then EnsureGrant(t3, id, grants[3]) else t3;
      var t5 := if |grants| > 4 then EnsureGrant(t4, id, grants[4]) else t4;
      var t6 := if |grants| > 5 then EnsureGrant(t5, id, grants[5]) else t5;
      var t7 := if |grants| > 6 then EnsureGrant(t6, id, grants[6]) else t6;
      var t8 := if |grants| > 7 then EnsureGrant(t7, id, grants[7]) else t7;
      EnsureGrants(t, id, grants) == t8
    decreases |grants|
  {
    if |grants| > 1 {
      UnfoldGrants(EnsureGrant(t, id, grants[0]), id, grants[1..]);
    }
  }

  /** The role rows after the five lookups. */
  lemma {:induction false} UnfoldRoles(t: Tables, tenant: string)
    ensures
      var (t1, r1) := EnsureRole(t, tenant, SuperAdmin.Name());
      var (t2, r2) := EnsureRole(t1, tenant, Owner.Name());
      var (t3, r3) := EnsureRole(t2, tenant, Admin.Name());
      var (t4, r4) := EnsureRole(t3, tenant, Developer.Name());
      var (t5, r5) := EnsureRole(t4, tenant, Viewer.Name());
      && EnsureRoles(t, tenant, DEFAULT_ROLES) == t5
      && FindRole(t5.roles, tenant, SuperAdmin.Name()) == Some(r1)
      && FindRole(t5.roles, tenant, Owner.Name()) == Some(r2)
      && FindRole(t5.roles, tenant, Admin.Name()) == Some(r3)
      && FindRole(t5.roles, tenant, Developer.Name()) == Some(r4)
      && FindRole(t5.roles, tenant, Viewer.Name()) == Some(r5)
  {
    var (t1, r1) := EnsureRole(t, tenant, SuperAdmin.Name());
    var (t2, r2) := EnsureRole(t1, tenant, Owner.Name());
    var (t3, r3) := EnsureRole(t2, tenant, Admin.Name());
    var (t4, r4) := EnsureRole(t3, tenant, Developer.Name());
    var (t5, r5) := EnsureRole(t4, tenant, Viewer.Name());
    EnsuredRoleStays(t, tenant, SuperAdmin, t5);
    EnsuredRoleStays(t1, tenant, Owner, t5);
    EnsuredRoleStays(t2, tenant, Admin, t5);
    EnsuredRoleStays(t3, tenant, Developer, t5);
    EnsuredRoleStays(t4, tenant, Viewer, t5);
    DefaultRoleTails();
    assert EnsureRoles(t4, tenant, [Viewer]) == EnsureRoles(t5, tenant, []);
    assert EnsureRoles(t3, tenant, [Developer, Viewer]) == EnsureRoles(t4, tenant, [Viewer]);
    assert EnsureRoles(t2, tenant, [Admin, Developer, Viewer]) == EnsureRoles(t3, tenant, [Developer, Viewer]);
    assert EnsureRoles(t1, tenant, [Owner, Admin, Developer, Viewer])
        == EnsureRoles(t2, tenant, [Admin, Developer, Viewer]);
  }

  lemma DefaultRoleTails()
    ensures DEFAULT_ROLES[1..] == [Owner, Admin, Developer, Viewer]
    ensures [Owner, Admin, Developer, Viewer][1..] == [Admin, Developer, Viewer]
    ensures [Admin, Developer, Viewer][1..] == [Developer, Viewer]
    ensures [Developer, Viewer][1..] == [Viewer] && [Viewer][1..] == []
  {
  }

  lemma EnsuredRoleStays(t: Tables, tenant: string, r: DefaultRole, later: Tables)
    requires EnsureRole(t, tenant, r.Name()).0.roles <= later.roles
    ensures FindRole(later.roles, tenant, r.Name()) == Some(EnsureRole(t, tenant, r.Name()).1)
  {
    var (t1, role) := EnsureRole(t, tenant, r.Name());
    if t1 != t {
      AddedRoleIsFound(t.roles, role);
    }
    FoundRoleStays(t1.roles, later.roles, tenant, r.Name());
  }

  lemma GrantsOfFoundRole(t: Tables, tenant: string, r: DefaultRole, rest: seq<DefaultRole>, role: Role)
    requires FindRole(t.roles, tenant, r.Name()) == Some(role)
    ensures EnsureAllGrants(t, tenant, [r] + rest)
         == EnsureAllGrants(EnsureGrants(t, role.id, r.Grants()), tenant, rest)
    ensures EnsureGrants(t, role.id, r.Grants()).roles == t.roles
  {
    GrantsKeepRoles(t, role.id, r.Grants());
    assert ([r] + rest)[1..] == rest;
  }

  /** The grants, role by role, as the source spells them out. */
  lemma {:induction false} GrantsInTurn(t: Tables, tenant: string, r1: Role, r2: Role, r3: Role, r4: Role, r5: Role)
    requires FindRole(t.roles, tenant, SuperAdmin.Name()) == Some(r1)
    requires FindRole(t.roles, tenant, Owner.Name()) == Some(r2)
    requires FindRole(t.roles, tenant, Admin.Name()) == Some(r3)
    requires FindRole(t.roles, tenant, Developer.Name()) == Some(r4)
    requires FindRole(t.roles, tenant, Viewer.Name()) == Some(r5)
    ensures
      var g1 := EnsureGrants(t, r1.id, SuperAdmin.Grants());
      var g2 := EnsureGrants(g1, r2.id, Owner.Grants());
      var g3 := EnsureGrants(g2, r3.id, Admin.Grants());
      var g4 := EnsureGrants(g3, r4.id, Developer.Grants());
      EnsureAllGrants(t, tenant, DEFAULT_ROLES) == EnsureGrants(g4, r5.id, Viewer.Grants())
  {
    var g1 := EnsureGrants(t, r1.id, SuperAdmin.Grants());
    var g2 := EnsureGrants(g1, r2.id, Owner.Grants());
    var g3 := EnsureGrants(g2, r3.id, Admin.Grants());
    var g4 := EnsureGrants(g3, r4.id, Developer.Grants());
    var rest4, rest3 := [Viewer], [Developer, Viewer];
    var rest2, rest1 := [Admin, Developer, Viewer], [Owner, Admin, Developer, Viewer];
    GrantsOfFoundRole(t, tenant, SuperAdmin, rest1, r1);
    GrantsOfFoundRole(g1, tenant, Owner, rest2, r2);
    GrantsOfFoundRole(g2, tenant, Admin, rest3, r3);
    GrantsOfFoundRole(g3, tenant, Developer, rest4, r4);
    GrantsOfFoundRole(g4, tenant, Viewer, [], r5);
    assert [SuperAdmin] + rest1 == DEFAULT_ROLES && [Owner] + rest2 == rest1 && [Admin] + rest3 == rest2;
    assert [Developer] + rest4 == rest3 && [Viewer] + [] == rest4;
  }

  // ----- what the default roles allow ----------------------------------------------------------

  /** The tool names that a default role may call, on any server. */
  predicate Allows(r: DefaultRole, tool: string) {
    match r
    case Owner => true
    case SuperAdmin => !("billing_" <= tool)
    case Admin => !("billing_" <= tool) && !("org_delete" <= tool)
    case Developer => "server_" <= tool || "tool_" <= tool || "rate_limit_" <= tool || "audit_" <= tool
    case Viewer => "server_list" <= tool || "tool_list" <= tool || "audit_list" <= tool
  }

  /** A rule for all servers whose pattern is a literal prefix and a star. */
  lemma {:induction false} PrefixRule(server: string, tool: string, rule: Rule, prefix: string)
    requires rule.serverPattern == ALL_SERVERS && rule.toolPattern == prefix + "*" && Literal(prefix)
    ensures Matches(StarGlob, server, tool, rule) <==> prefix <= tool
    ensures RuleRank(rule) == Rank(-|prefix|, -rule.priority, 0)
  {
    StarMatchesAll(server);
    PrefixGlob(tool, prefix);
    assert "" + "*" == "*";
    PrefixGlob("", "");
  }

  lemma {:induction false} GrantRule(server: string, tool: string, rules: seq<Rule>, grants: seq<Grant>, i: nat,
                                     prefix: string)
    requires Carries(rules, grants) && i < |grants|
    requires grants[i].tool == prefix + "*" && Literal(prefix)
    ensures Matches(StarGlob, server, tool, rules[i]) <==> prefix <= tool
    ensures RuleRank(rules[i]).first == -|prefix| && rules[i].effect == grants[i].effect
  {
    PrefixRule(server, tool, rules[i], prefix);
  }

  /** One rule for everything, then denials of some prefixes: a name is allowed exactly when
      no denied prefix matches. */
  lemma {:induction false} AllButVerdict(server: string, tool: string, rules: seq<Rule>)
    requires rules != [] && rules[0].effect == Allow && Matches(StarGlob, server, tool, rules[0])
    requires forall i :: 1 <= i < |rules| ==>
      rules[i].effect == Deny && RuleRank(rules[i]).first < RuleRank(rules[0]).first
    ensures Evaluate(StarGlob, server, tool, rules).allowed <==>
            forall i :: 1 <= i < |rules| ==> !Matches(StarGlob, server, tool, rules[i])
  {
    if i :| 1 <= i < |rules| && Matches(StarGlob, server, tool, rules[i]) {
      assert rules[i] in rules;
      OutrankedAllowsAreDenied(StarGlob, server, tool, rules);
    } else {
      OutrankingAllowPermits(StarGlob, server, tool, rules, rules[0]);
    }
  }

  /** Allowed prefixes that no matching denial outranks: a name is allowed exactly when an
      allowed prefix matches. */
  lemma {:induction false} OnlyVerdict(server: string, tool: string, rules: seq<Rule>, n: nat)
    requires n <= |rules|
    requires forall i :: 0 <= i < n ==> rules[i].effect == Allow
    requires forall j :: n <= j < |rules| ==> rules[j].effect == Deny
    requires forall i, j :: 0 <= i < n <= j < |rules| ==>
      !(Matches(StarGlob, server, tool, rules[i]) && Matches(StarGlob, server, tool, rules[j])
        && Leq(RuleRank(rules[j]), RuleRank(rules[i])))
    ensures Evaluate(StarGlob, server, tool, rules).allowed <==>
            exists i :: 0 <= i < n && Matches(StarGlob, server, tool, rules[i])
  {
    if i :| 0 <= i < n && Matches(StarGlob, server, tool, rules[i]) {
      OutrankingAllowPermits(StarGlob, server, tool, rules, rules[i]);
    } else {
      OutrankedAllowsAreDenied(StarGlob, server, tool, rules);
    }
  }

  lemma {:induction false} OnlyByRankVerdict(server: string, tool: string, rules: seq<Rule>, n: nat)
    requires n <= |rules|
    requires forall i :: 0 <= i < |rules| ==> rules[i].effect == (if i < n then Allow else Deny)
    requires forall i :: 0 <= i < |rules| ==> (i < n <==> RuleRank(rules[i]).first <= -9)
    ensures Evaluate(StarGlob, server, tool, rules).allowed <==>
            exists i :: 0 <= i < n && Matches(StarGlob, server, tool, rules[i])
  {
    forall i, j | 0 <= i < n <= j < |rules|
      ensures !Leq(RuleRank(rules[j]), RuleRank(rules[i]))
    {
    }
    OnlyVerdict(server, tool, rules, n);
  }

  lemma {:induction false} OwnerVerdict(server: string, tool: string, rules: seq<Rule>)
    requires Carries(rules, OWNER_GRANTS)
    ensures Evaluate(StarGlob, server, tool, rules).allowed
  {
    GrantRule(server, tool, rules, OWNER_GRANTS, 0, "");
    AllButVerdict(server, tool, rules);
  }

  function AdminPrefix(i: nat): string {
    if i == 0 then "" else if i == 1 then "billing_" else "org_delete"
  }

  lemma {:induction false} AdminPattern(i: nat)
    requires i < 3
    ensures ADMIN_GRANTS[i].tool == AdminPrefix(i) + "*" && Literal(AdminPrefix(i))
    ensures ADMIN_GRANTS[i].effect == (if i < 1 then Allow else Deny) && (i > 0 ==> |AdminPrefix(i)| > 0)
  {
    if i == 0 { assert "" + "*" == "*"; }
    else if i == 1 { assert "billing_" + "*" == "billing_*"; }
    else { assert "org_delete" + "*" == "org_delete*"; }
  }

  /** The super admin's rules are the first two of these, with other priorities. */
  lemma {:induction false} SuperAdminPattern(i: nat)
    requires i < 2
    ensures SUPER_ADMIN_GRANTS[i].tool == AdminPrefix(i) + "*" && Literal(AdminPrefix(i))
    ensures SUPER_ADMIN_GRANTS[i].effect == (if i < 1 then Allow else Deny) && (i > 0 ==> |AdminPrefix(i)| > 0)
  {
    AdminPattern(i);
    assert SUPER_ADMIN_GRANTS[i].tool == ADMIN_GRANTS[i].tool && SUPER_ADMIN_GRANTS[i].effect == ADMIN_GRANTS[i].effect;
  }

  lemma {:induction false} SuperAdminVerdict(server: string, tool: string, rules: seq<Rule>)
    requires Carries(rules, SUPER_ADMIN_GRANTS)
    ensures Evaluate(StarGlob, server, tool, rules).allowed <==> !(AdminPrefix(1) <= tool)
  {
    forall i: nat | i < 2
      ensures |rules| == 2 && rules[i].effect == (if i < 1 then Allow else Deny)
      ensures RuleRank(rules[i]).first == -|AdminPrefix(i)| && (i > 0 ==> |AdminPrefix(i)| > 0)
      ensures Matches(StarGlob, server, tool, rules[i]) <==> AdminPrefix(i) <= tool
    {
      SuperAdminPattern(i);
      GrantRule(server, tool, rules, SUPER_ADMIN_GRANTS, i, AdminPrefix(i));
    }
    AllButVerdict(server, tool, rules);
  }

  lemma {:induction false} AdminVerdict(server: string, tool: string, rules: seq<Rule>)
    requires Carries(rules, ADMIN_GRANTS)
    ensures Evaluate(StarGlob, server, tool, rules).allowed <==> !(AdminPrefix(1) <= tool) && !(AdminPrefix(2) <= tool)
  {
    forall i: nat | i < 3
      ensures |rules| == 3 && rules[i].effect == (if i < 1 then Allow else Deny)
      ensures RuleRank(rules[i]).first == -|AdminPrefix(i)| && (i > 0 ==> |AdminPrefix(i)| > 0)
      ensures Matches(StarGlob, server, tool, rules[i]) <==> AdminPrefix(i) <= tool
    {
      AdminPattern(i);
      GrantRule(server, tool, rules, ADMIN_GRANTS, i, AdminPrefix(i));
    }
    AllButVerdict(server, tool, rules);
  }

  function DeveloperPrefix(i: nat): string {
    if i == 0 then "server_" else if i == 1 then "tool_" else if i == 2 then "rate_limit_" else if i == 3 then "audit_"
    else if i == 4 then "billing_" else if i == 5 then "org_" else if i == 6 then "user_" else "role_"
  }

  lemma {:induction false} DeveloperPattern(i: nat)
    requires i < 8
    ensures DEVELOPER_GRANTS[i].tool == DeveloperPrefix(i) + "*" && Literal(DeveloperPrefix(i))
    ensures DEVELOPER_GRANTS[i].effect == (if i < 4 then Allow else Deny)
  {
    if i == 0 { assert "server_" + "*" == "server_*"; }
    else if i == 1 { assert "tool_" + "*" == "tool_*"; }
    else if i == 2 { assert "rate_limit_" + "*" == "rate_limit_*"; }
    else if i == 3 { assert "audit_" + "*" == "audit_*"; }
    else if i == 4 { assert "billing_" + "*" == "billing_*"; }
    else if i == 5 { assert "org_" + "*" == "org_*"; }
    else if i == 6 { assert "user_" + "*" == "user_*"; }
    else { assert "role_" + "*" == "role_*"; }
  }

  /** No name has both an allowed and a denied prefix: their first two letters differ. */
  lemma {:induction false} DeveloperPrefixesExclude(tool: string, i: nat, j: nat)
    requires i < 4 <= j < 8 && DeveloperPrefix(i) <= tool
    ensures !(DeveloperPrefix(j) <= tool)
  {
    var p, q := DeveloperPrefix(i), DeveloperPrefix(j);
    assert |p| >= 2 && |q| >= 2 && (p[0] != q[0] || p[1] != q[1]);
  }

  lemma {:induction false} DeveloperVerdict(server: string, tool: string, rules: seq<Rule>)
    requires Carries(rules, DEVELOPER_GRANTS)
    ensures Evaluate(StarGlob, server, tool, rules).allowed <==> exists i :: 0 <= i < 4 && DeveloperPrefix(i) <= tool
  {
    forall i: nat | i < 8
      ensures |rules| == 8 && rules[i].effect == (if i < 4 then Allow else Deny)
      ensures Matches(StarGlob, server, tool, rules[i]) <==> DeveloperPrefix(i) <= tool
    {
      DeveloperPattern(i);
      GrantRule(server, tool, rules, DEVELOPER_GRANTS, i, DeveloperPrefix(i));
    }
    forall i: nat, j: nat | i < 4 <= j < 8
      ensures !(Matches(StarGlob, server, tool, rules[i]) && Matches(StarGlob, server, tool, rules[j]))
    {
      if DeveloperPrefix(i) <= tool {
        DeveloperPrefixesExclude(tool, i, j);
      }
    }
    OnlyVerdict(server, tool, rules, 4);
  }

  function ViewerPrefix(i: nat): string {
    if i == 0 then "server_list" else if i == 1 then "tool_list" else if i == 2 then "audit_list"
    else if i == 6 then "billing_" else "org_"
  }

  function ViewerWord(i: nat): string {
    if i == 3 then "create" else if i == 4 then "update" else "delete"
  }

  lemma {:induction false} ViewerPattern(i: nat)
    requires i < 3 || 6 <= i < 8
    ensures VIEWER_GRANTS[i].tool == ViewerPrefix(i) + "*" && Literal(ViewerPrefix(i))
    ensures VIEWER_GRANTS[i].effect == (if i < 3 then Allow else Deny)
    ensures i < 3 <==> |ViewerPrefix(i)| >= 9
  {
    if i == 0 { assert "server_list" + "*" == "server_list*"; }
    else if i == 1 { assert "tool_list" + "*" == "tool_list*"; }
    else if i == 2 { assert "audit_list" + "*" == "audit_list*"; }
    else if i == 6 { assert "billing_" + "*" == "billing_*"; }
    else { assert "org_" + "*" == "org_*"; }
  }

  lemma {:induction false} ViewerWordPattern(i: nat)
    requires 3 <= i < 6
    ensures VIEWER_GRANTS[i].tool == "*_" + ViewerWord(i) + "*" && Literal(ViewerWord(i))
    ensures VIEWER_GRANTS[i].effect == Deny && |ViewerWord(i)| == 6
  {
    if i == 3 { assert "*_" + "create" + "*" == "*_create*"; }
    else if i == 4 { assert "*_" + "update" + "*" == "*_update*"; }
    else { assert "*_" + "delete" + "*" == "*_delete*"; }
  }

  lemma {:induction false} WordRule(rule: Rule, word: string)
    requires rule.serverPattern == ALL_SERVERS && rule.toolPattern == "*_" + word + "*" && Literal(word)
    ensures RuleRank(rule).first == -(1 + |word|)
  {
    var pattern := rule.toolPattern;
    assert pattern[0] == '*' && pattern[1..][0] == '_' && pattern[1..][1..] == word + "*";
    PrefixGlob("", word);
    assert Specificity(pattern) == Specificity(pattern[1..]) == 1 + |word|;
    assert ALL_SERVERS[1..] == "" && Specificity(ALL_SERVERS) == 0;
  }

  lemma {:induction false} ViewerRule(server: string, tool: string, rules: seq<Rule>, i: nat)
    requires Carries(rules, VIEWER_GRANTS) && i < 8
    ensures |rules| == 8 && rules[i].effect == (if i < 3 then Allow else Deny)
    ensures i < 3 <==> RuleRank(rules[i]).first <= -9
    ensures i < 3 ==> (Matches(StarGlob, server, tool, rules[i]) <==> ViewerPrefix(i) <= tool)
  {
    if 3 <= i < 6 {
      ViewerWordPattern(i);
      WordRule(rules[i], ViewerWord(i));
    } else {
      ViewerPattern(i);
      GrantRule(server, tool, rules, VIEWER_GRANTS, i, ViewerPrefix(i));
    }
  }

  /** Three allowed prefixes, all more specific than every denial. */
  ghost predicate ViewerShape(server: string, tool: string, rules: seq<Rule>, i: int)
    requires 0 <= i < |rules|
  {
    && rules[i].effect == (if i < 3 then Allow else Deny)
    && (i < 3 <==> RuleRank(rules[i]).first <= -9)
    && (i < 3 ==> (Matches(StarGlob, server, tool, rules[i]) <==> ViewerPrefix(i) <= tool))
  }

  /** The write denials are less specific than every allowed prefix, so they never outrank it. */
  lemma {:induction false} ViewerShapeVerdict(server: string, tool: string, rules: seq<Rule>)
    requires |rules| == 8
    requires forall i {:trigger ViewerShape(server, tool, rules, i)} :: 0 <= i < 8 ==>
      ViewerShape(server, tool, rules, i)
    ensures Evaluate(StarGlob, server, tool, rules).allowed <==> exists i :: 0 <= i < 3 && ViewerPrefix(i) <= tool
  {
    forall i | 0 <= i < 8
      ensures rules[i].effect == (if i < 3 then Allow else Deny)
      ensures i < 3 <==> RuleRank(rules[i]).first <= -9
      ensures i < 3 ==> (Matches(StarGlob, server, tool, rules[i]) <==> ViewerPrefix(i) <= tool)
    {
      assert ViewerShape(server, tool, rules, i);
    }
    OnlyByRankVerdict(server, tool, rules, 3);
  }

  lemma {:induction false} ViewerVerdict(server: string, tool: string, rules: seq<Rule>)
    requires Carries(rules, VIEWER_GRANTS)
    ensures Evaluate(StarGlob, server, tool, rules).allowed <==> exists i :: 0 <= i < 3 && ViewerPrefix(i) <= tool
  {
    forall i: nat | i < 8
      ensures |rules| == 8 && ViewerShape(server, tool, rules, i)
    {
      ViewerRule(server, tool, rules, i);
    }
    ViewerShapeVerdict(server, tool, rules);
  }

  lemma {:induction false} NamedPrefixes(tool: string)
    ensures Allows(Developer, tool) <==> exists i :: 0 <= i < 4 && DeveloperPrefix(i) <= tool
    ensures Allows(Viewer, tool) <==> exists i :: 0 <= i < 3 && ViewerPrefix(i) <= tool
  {
    if Allows(Developer, tool) {
      var i := if "server_" <= tool then 0 else if "tool_" <= tool then 1 else if "rate_limit_" <= tool then 2 else 3;
      assert DeveloperPrefix(i) <= tool;
    }
    if Allows(Viewer, tool) {
      var i := if "server_list" <= tool then 0 else if "tool_list" <= tool then 1 else 2;
      assert ViewerPrefix(i) <= tool;
    }
  }

  lemma {:induction false} RoleVerdict(r: DefaultRole, server: string, tool: string, rules: seq<Rule>)
    requires Carries(rules, r.Grants())
    ensures Evaluate(StarGlob, server, tool, rules).allowed <==> Allows(r, tool)
  {
    NamedPrefixes(tool);
    match r
    case Owner => OwnerVerdict(server, tool, rules);
    case SuperAdmin => SuperAdminVerdict(server, tool, rules);
    case Admin => AdminVerdict(server, tool, rules);
    case Developer => DeveloperVerdict(server, tool, rules);
    case Viewer => ViewerVerdict(server, tool, rules);
  }

  /** The roles of a freshly bootstrapped tenant are bound to nobody yet. */
  lemma {:induction false} FreshRolesUnbound(t: Tables, tenant: string, r: DefaultRole)
    requires WellNumbered(t) && FreshTenant(t, tenant)
    ensures
      var t' := Bootstrap(t, tenant);
      && t'.bindings == t.bindings
      && FindRole(t'.roles, tenant, r.Name()).Some?
      && (forall i :: 0 <= i < |t'.roles| && t'.roles[i].tenant == tenant ==> t'.roles[i].id >= t.nextId)
  {
    BootstrapIsIdempotent(t, tenant);
    BootstrapOfFreshTenant(t, tenant, r);
    NewRolesAreUnused(t, tenant, DEFAULT_ROLES, t.nextId);
    EnsureRolesCreates(t, tenant, DEFAULT_ROLES);
    AllGrantsKeepRoles(EnsureRoles(t, tenant, DEFAULT_ROLES), tenant, DEFAULT_ROLES);
  }

  /** A subject bound to one default role gets exactly that role's rules. */
  lemma {:induction false} BoundSubjectGetsRoleRules(t: Tables, tenant: string, r: DefaultRole,
                                                     subjectType: SubjectType, subjectId: string)
    requires WellNumbered(t) && FreshTenant(t, tenant)
    ensures
      var t' := Bootstrap(t, tenant);
      && FindRole(t'.roles, tenant, r.Name()).Some?
      && PermissionsForSubject(Bind(t', RoleId(t', tenant, r), subjectType, subjectId), tenant, subjectType, subjectId)
         == RulesOf(t', RoleId(t', tenant, r))
  {
    var t' := Bootstrap(t, tenant);
    FreshRolesUnbound(t, tenant, r);
    var id := RoleId(t', tenant, r);
    var t'' := Bind(t', id, subjectType, subjectId);
    FoundRoleRow(t'.roles, tenant, r.Name());
    forall rule | rule in t''.permissions
      ensures Reached(t'', tenant, subjectType, subjectId)(rule) == OfRole(id)(rule)
    {
      OnlyBoundRoleReaches(t', tenant, id, t.nextId, subjectType, subjectId, rule.roleId);
    }
    FilterAgrees(Reached(t'', tenant, subjectType, subjectId), OfRole(id), t''.permissions);
  }

  /** When no role of the tenant is bound yet, a new binding reaches its own role and no other. */
  lemma {:induction false} OnlyBoundRoleReaches(t: Tables, tenant: string, id: int, floor: int,
                                                subjectType: SubjectType, subjectId: string, roleId: int)
    requires forall i :: 0 <= i < |t.roles| && t.roles[i].tenant == tenant ==> t.roles[i].id >= floor
    requires forall i :: 0 <= i < |t.bindings| ==> t.bindings[i].roleId < floor
    requires exists role :: role in t.roles && role.id == id && role.tenant == tenant
    ensures
      var t' := Bind(t, id, subjectType, subjectId);
      RoleReaches(t'.roles, t'.bindings, tenant, subjectType, subjectId, roleId) <==> roleId == id
  {
    var t' := Bind(t, id, subjectType, subjectId);
    RoleReachesIff(t'.roles, t'.bindings, tenant, subjectType, subjectId, roleId);
    if roleId == id {
      assert Binding(id, subjectType, subjectId) == t'.bindings[|t.bindings|];
    }
  }

  /** Default roles on a fresh tenant: a subject bound to one of them may call exactly the
      tools that the role's description promises, on every server. */
  lemma {:induction false} DefaultRolesAllowExactly(t: Tables, tenant: string, r: DefaultRole,
                                                    subjectType: SubjectType, subjectId: string, server: string,
                                                    tool: string)
    requires WellNumbered(t) && FreshTenant(t, tenant)
    ensures
      var t' := Bootstrap(t, tenant);
      && FindRole(t'.roles, tenant, r.Name()).Some?
      && var bound := Bind(t', RoleId(t', tenant, r), subjectType, subjectId);
         Evaluate(StarGlob, server, tool, PermissionsForSubject(bound, tenant, subjectType, subjectId)).allowed
         <==> Allows(r, tool)
  {
    BootstrapOfFreshTenant(t, tenant, r);
    BoundSubjectGetsRoleRules(t, tenant, r, subjectType, subjectId);
    var t' := Bootstrap(t, tenant);
    RoleVerdict(r, server, tool, RulesOf(t', RoleId(t', tenant, r)));
  }
}
