// prisma/seeds/iam.seed.ts: the two synchronisers of role permissions, seedTenantRoles (onboarding and the seed
// runner) and reconcileSystemRolePermissions (every boot), for any list of role definitions.
module RoleSync {
  import opened Basics

  type Tenant = Id
  type Permission = string
  type Name = string

  /** Roles are unique on (tenant, name); grants on (role, permission). */
  datatype Role = Role(tenant: Tenant, name: Name)
  datatype Grant = Grant(role: Role, permission: Permission)

  datatype RoleDef = RoleDef(name: Name, isSystem: bool, permissions: seq<Permission>)

  datatype Outcome = Ok | PlatformRefused

  datatype Db = Db(roles: set<Role>, grants: set<Grant>)

  function Pairs(role: Role, permissions: seq<Permission>): set<Grant> {
    set p | p in permissions :: Grant(role, p)
  }

  /** The grants of `role` that its definition no longer lists. */
  function Extra(grants: set<Grant>, role: Role, permissions: seq<Permission>): set<Grant> {
    set g | g in grants && g.role == role && g.permission !in permissions
  }

  // ----- What each synchroniser does, definition by definition -----

  function SeedOne(db: Db, t: Tenant, def: RoleDef): Db {
    var role := Role(t, def.name);
    var granted := db.grants + Pairs(role, def.permissions);
    Db(db.roles + {role}, if def.isSystem then granted - Extra(granted, role, def.permissions) else granted)
  }

  function Seeded(db: Db, t: Tenant, defs: seq<RoleDef>): Db {
    if defs == [] then db else SeedOne(Seeded(db, t, defs[..|defs| - 1]), t, defs[|defs| - 1])
  }

  function ReconcileOne(db: Db, t: Tenant, def: RoleDef): Db {
    var role := Role(t, def.name);
    if !def.isSystem || role !in db.roles then db
    else db.(grants := db.grants + Pairs(role, def.permissions) - Extra(db.grants, role, def.permissions))
  }

  function Reconciled(db: Db, t: Tenant, defs: seq<RoleDef>): Db {
    if defs == [] then db else ReconcileOne(Reconciled(db, t, defs[..|defs| - 1]), t, defs[|defs| - 1])
  }

  function ReconciledAll(db: Db, tenants: seq<Tenant>, defs: seq<RoleDef>): Db {
    if tenants == [] then db
    else
      var (before, t) := (ReconciledAll(db, tenants[..|tenants| - 1], defs), tenants[|tenants| - 1]);
      if t == PLATFORM_TENANT then before else Reconciled(before, t, defs)
  }

  // ----- Counters -----

  /** The entries of the definition the database lacks, each as often as it is listed. */
  function Missing(grants: set<Grant>, role: Role, permissions: seq<Permission>): seq<Permission> {
    if permissions == [] then []
    else
      var (before, p) := (Missing(grants, role, permissions[..|permissions| - 1]), permissions[|permissions| - 1]);
      if Grant(role, p) in grants then before else before + [p]
  }

  datatype Report = Report(rolesTouched: int, permsAdded: int, permsRemoved: int)

  function Plus(a: Report, b: Report): Report {
    Report(a.rolesTouched + b.rolesTouched, a.permsAdded + b.permsAdded, a.permsRemoved + b.permsRemoved)
  }

  ghost function CountOne(db: Db, t: Tenant, def: RoleDef): Report {
    var role := Role(t, def.name);
    if !def.isSystem || role !in db.roles then Report(0, 0, 0)
    else
      var (added, removed) := (|Missing(db.grants, role, def.permissions)|, |Extra(db.grants, role, def.permissions)|);
      Report(if added > 0 || removed > 0 then 1 else 0, added, removed)
  }

  ghost function Count(db: Db, t: Tenant, defs: seq<RoleDef>): Report {
    if defs == [] then Report(0, 0, 0)
    else
      var front := defs[..|defs| - 1];
      Plus(Count(db, t, front), CountOne(Reconciled(db, t, front), t, defs[|defs| - 1]))
  }

  ghost function CountAll(db: Db, tenants: seq<Tenant>, defs: seq<RoleDef>): Report {
    if tenants == [] then Report(0, 0, 0)
    else
      var (front, t) := (tenants[..|tenants| - 1], tenants[|tenants| - 1]);
      if t == PLATFORM_TENANT then CountAll(db, front, defs)
      else Plus(CountAll(db, front, defs), Count(ReconciledAll(db, front, defs), t, defs))
  }

  class RoleDb {
    var roles: set<Role>
    var grants: set<Grant>

    ghost function Value(): Db
      reads this
    {
      Db(roles, grants)
    }

    /** The upsert loop over a definition's permissions. */
    method UpsertGrants(role: Role, permissions: seq<Permission>)
      modifies this`grants
      ensures grants == old(grants) + Pairs(role, permissions)
    {
      for i := 0 to |permissions|
        invariant grants == old(grants) + Pairs(role, permissions[..i])
      {
        grants := grants + {Grant(role, permissions[i])};
      }
      assert permissions[..|permissions|] == permissions;
    }

    method SeedTenantRoles(t: Tenant, defs: seq<RoleDef>) returns (r: Outcome)
      modifies this
      ensures r == if t == PLATFORM_TENANT then PlatformRefused else Ok
      ensures Value() == if t == PLATFORM_TENANT then old(Value()) else Seeded(old(Value()), t, defs)
    {
      if t == PLATFORM_TENANT {
        return PlatformRefused;
      }
      for i := 0 to |defs|
        invariant Value() == Seeded(old(Value()), t, defs[..i])
      {
        assert defs[..i + 1][..i] == defs[..i];
        var role := Role(t, defs[i].name);
        roles := roles + {role};
        UpsertGrants(role, defs[i].permissions);
        if defs[i].isSystem {
          grants := grants - Extra(grants, role, defs[i].permissions);
        }
      }
      assert defs[..|defs|] == defs;
      r := Ok;
    }

    method ReconcileRole(t: Tenant, def: RoleDef, ghost db: Db) returns (report: Report)
      requires Value() == db
      modifies this`grants
      ensures Value() == ReconcileOne(db, t, def) && report == CountOne(db, t, def)
    {
      report := Report(0, 0, 0);
      var role := Role(t, def.name);
      if !def.isSystem || role !in roles {
        return;
      }
      var toAdd := Missing(grants, role, def.permissions);
      var toRemove := Extra(grants, role, def.permissions);
      AddedAre(grants, role, def.permissions);
      grants := grants + Pairs(role, toAdd);
      grants := grants - toRemove;
      report := Report(if |toAdd| > 0 || |toRemove| > 0 then 1 else 0, |toAdd|, |toRemove|);
    }

    method ReconcileSystemRolePermissions(tenants: seq<Tenant>, defs: seq<RoleDef>)
      returns (scanned: nat, report: Report)
      modifies this
      ensures Value() == ReconciledAll(old(Value()), tenants, defs)
      ensures scanned == |tenants| && report == CountAll(old(Value()), tenants, defs)
    {
      report := Report(0, 0, 0);
      for i := 0 to |tenants|
        invariant Value() == ReconciledAll(old(Value()), tenants[..i], defs)
        invariant report == CountAll(old(Value()), tenants[..i], defs)
      {
        assert tenants[..i + 1][..i] == tenants[..i];
        if tenants[i] == PLATFORM_TENANT {
          continue;
        }
        var more := ReconcileTenant(tenants[i], defs);
        report := Plus(report, more);
      }
      assert tenants[..|tenants|] == tenants;
      scanned := |tenants|;
    }

    method ReconcileTenant(t: Tenant, defs: seq<RoleDef>) returns (report: Report)
      modifies this`grants
      ensures Value() == Reconciled(old(Value()), t, defs) && report == Count(old(Value()), t, defs)
    {
      report := Report(0, 0, 0);
      for i := 0 to |defs|
        invariant Value() == Reconciled(old(Value()), t, defs[..i])
        invariant report == Count(old(Value()), t, defs[..i])
      {
        assert defs[..i + 1][..i] == defs[..i];
        var one := ReconcileRole(t, defs[i], Value());
        report := Plus(report, one);
      }
      assert defs[..|defs|] == defs;
    }
  }

  /** Inserting only what is missing is inserting everything. */
  lemma {:induction false} AddedAre(grants: set<Grant>, role: Role, permissions: seq<Permission>)
    ensures forall p :: p in Missing(grants, role, permissions) <==> p in permissions && Grant(role, p) !in grants
    ensures grants + Pairs(role, Missing(grants, role, permissions)) == grants + Pairs(role, permissions)
  {
    if permissions != [] {
      var front := permissions[..|permissions| - 1];
      AddedAre(grants, role, front);
      assert permissions == front + [permissions[|permissions| - 1]];
    }
  }

  // ----- What they leave in the table -----

  ghost predicate DistinctNames(defs: seq<RoleDef>) {
    forall i :: 0 <= i < |defs| ==> !Names(defs[..i], defs[i].name)
  }

  ghost predicate Names(defs: seq<RoleDef>, name: Name) {
    exists i :: 0 <= i < |defs| && defs[i].name == name
  }

  lemma NamesFront(defs: seq<RoleDef>, name: Name)
    requires defs != []
    ensures Names(defs, name) <==> Names(defs[..|defs| - 1], name) || defs[|defs| - 1].name == name
  {
    var front := defs[..|defs| - 1];
    if Names(defs, name) && defs[|defs| - 1].name != name {
      var i :| 0 <= i < |defs| && defs[i].name == name;
      assert front[i].name == name;
    }
    if Names(front, name) {
      var i :| 0 <= i < |front| && front[i].name == name;
      assert defs[i].name == name;
    }
  }

  lemma DistinctFront(defs: seq<RoleDef>)
    requires DistinctNames(defs) && defs != []
    ensures DistinctNames(defs[..|defs| - 1]) && !Names(defs[..|defs| - 1], defs[|defs| - 1].name)
  {
    var front := defs[..|defs| - 1];
    forall i | 0 <= i < |front| ensures !Names(front[..i], front[i].name) {
      assert front[..i] == defs[..i];
    }
  }

  /** A role no definition names, or of another tenant, keeps its grants. */
  lemma {:induction false} OthersUntouched(db: Db, t: Tenant, defs: seq<RoleDef>, g: Grant)
    requires g.role.tenant != t || !Names(defs, g.role.name)
    ensures g in Seeded(db, t, defs).grants <==> g in db.grants
    ensures g in Reconciled(db, t, defs).grants <==> g in db.grants
    ensures g.role in Seeded(db, t, defs).roles <==> g.role in db.roles
  {
    if defs != [] {
      NamesFront(defs, g.role.name);
      OthersUntouched(db, t, defs[..|defs| - 1], g);
    }
  }

  /** After a seed the tenant has the roles it had and every role a definition names; no other tenant gains one. */
  lemma {:induction false} SeededRoles(db: Db, t: Tenant, defs: seq<RoleDef>, role: Role)
    ensures role in Seeded(db, t, defs).roles <==> role in db.roles || (role.tenant == t && Names(defs, role.name))
  {
    if defs != [] {
      NamesFront(defs, role.name);
      SeededRoles(db, t, defs[..|defs| - 1], role);
    }
  }

  lemma {:induction false} ReconcileKeepsRoles(db: Db, t: Tenant, defs: seq<RoleDef>)
    ensures Reconciled(db, t, defs).roles == db.roles
  {
    if defs != [] {
      ReconcileKeepsRoles(db, t, defs[..|defs| - 1]);
    }
  }

  /** A system role the database has ends with exactly its definition's permissions, by either synchroniser. */
  lemma {:induction false} SystemRolesExact(db: Db, t: Tenant, defs: seq<RoleDef>, i: nat, p: Permission)
    requires DistinctNames(defs) && i < |defs| && defs[i].isSystem
    ensures Grant(Role(t, defs[i].name), p) in Seeded(db, t, defs).grants <==> p in defs[i].permissions
    ensures Role(t, defs[i].name) in db.roles ==>
      (Grant(Role(t, defs[i].name), p) in Reconciled(db, t, defs).grants <==> p in defs[i].permissions)
    decreases |defs|
  {
    var (front, last, g) := (defs[..|defs| - 1], defs[|defs| - 1], Grant(Role(t, defs[i].name), p));
    DistinctFront(defs);
    ReconcileKeepsRoles(db, t, front);
    if i < |front| {
      assert front[i] == defs[i];
      SystemRolesExact(db, t, front, i, p);
    } else {
      OthersUntouched(db, t, front, g);
    }
  }

  /** A custom role in the list only gains from the seed and is left alone by the reconciler. */
  lemma {:induction false} CustomRolesKept(db: Db, t: Tenant, defs: seq<RoleDef>, i: nat, p: Permission)
    requires DistinctNames(defs) && i < |defs| && !defs[i].isSystem
    ensures Grant(Role(t, defs[i].name), p) in Seeded(db, t, defs).grants
       <==> Grant(Role(t, defs[i].name), p) in db.grants || p in defs[i].permissions
    ensures Grant(Role(t, defs[i].name), p) in Reconciled(db, t, defs).grants
       <==> Grant(Role(t, defs[i].name), p) in db.grants
    decreases |defs|
  {
    var (front, last, g) := (defs[..|defs| - 1], defs[|defs| - 1], Grant(Role(t, defs[i].name), p));
    DistinctFront(defs);
    if i < |front| {
      assert front[i] == defs[i];
      CustomRolesKept(db, t, front, i, p);
    } else {
      OthersUntouched(db, t, front, g);
    }
  }

  ghost predicate AllSystem(defs: seq<RoleDef>) {
    forall i :: 0 <= i < |defs| ==> defs[i].isSystem
  }

  ghost predicate AllPresent(db: Db, t: Tenant, defs: seq<RoleDef>) {
    forall i :: 0 <= i < |defs| ==> Role(t, defs[i].name) in db.roles
  }

  /** From any drifted table that has the roles, the two synchronisers reach the same table. */
  lemma SynchronisersAgree(db: Db, t: Tenant, defs: seq<RoleDef>)
    requires DistinctNames(defs) && AllSystem(defs) && AllPresent(db, t, defs)
    ensures Seeded(db, t, defs).grants == Reconciled(db, t, defs).grants
  {
    hide Seeded, Reconciled, DistinctNames;
    forall g: Grant
      ensures g in Seeded(db, t, defs).grants <==> g in Reconciled(db, t, defs).grants
    {
      if g.role.tenant == t && Names(defs, g.role.name) {
        var i :| 0 <= i < |defs| && defs[i].name == g.role.name;
        SystemRolesExact(db, t, defs, i, g.permission);
        assert Role(t, defs[i].name) in db.roles;
        assert g == Grant(Role(t, defs[i].name), g.permission);
      } else {
        OthersUntouched(db, t, defs, g);
      }
    }
  }

  // ----- A second run -----

  /** Every system role of the tenant that exists holds exactly its definition. */
  ghost predicate Exact(db: Db, t: Tenant, defs: seq<RoleDef>) {
    forall i :: 0 <= i < |defs| && defs[i].isSystem && Role(t, defs[i].name) in db.roles ==>
      RoleExact(db.grants, Role(t, defs[i].name), defs[i].permissions)
  }

  ghost predicate RoleExact(grants: set<Grant>, role: Role, permissions: seq<Permission>) {
    forall p :: Grant(role, p) in grants <==> p in permissions
  }

  /** System definitions that share the name of a role the tenant has list the same permissions. */
  ghost predicate NamesakesAgree(db: Db, t: Tenant, defs: seq<RoleDef>) {
    forall i, j :: 0 <= i < |defs| && 0 <= j < |defs| && Namesakes(db, t, defs[i], defs[j]) ==>
      SamePermissions(defs[i], defs[j])
  }

  predicate Namesakes(db: Db, t: Tenant, d: RoleDef, e: RoleDef) {
    d.isSystem && e.isSystem && d.name == e.name && Role(t, d.name) in db.roles
  }

  ghost predicate SamePermissions(d: RoleDef, e: RoleDef) {
    forall p :: p in d.permissions <==> p in e.permissions
  }

  lemma DistinctNamesakesAgree(db: Db, t: Tenant, defs: seq<RoleDef>)
    requires DistinctNames(defs)
    ensures NamesakesAgree(db, t, defs)
  {
    forall i, j | 0 <= i < j < |defs| ensures defs[i].name != defs[j].name {
      assert defs[..j][i] == defs[i];
    }
  }

  /** The last system definition of a name decides. */
  lemma ReconcileOneExact(db: Db, t: Tenant, def: RoleDef)
    requires def.isSystem && Role(t, def.name) in db.roles
    ensures RoleExact(ReconcileOne(db, t, def).grants, Role(t, def.name), def.permissions)
  {
  }

  lemma ReconcileOneElsewhere(db: Db, t: Tenant, def: RoleDef, role: Role, permissions: seq<Permission>)
    requires RoleExact(db.grants, role, permissions)
    requires def.isSystem ==> role != Role(t, def.name) || forall p :: p in def.permissions <==> p in permissions
    ensures RoleExact(ReconcileOne(db, t, def).grants, role, permissions)
  {
  }

  lemma {:induction false} AgreeingIsExact(db: Db, t: Tenant, defs: seq<RoleDef>, i: nat)
    requires NamesakesAgree(db, t, defs) && i < |defs| && defs[i].isSystem && Role(t, defs[i].name) in db.roles
    ensures RoleExact(Reconciled(db, t, defs).grants, Role(t, defs[i].name), defs[i].permissions)
    decreases |defs|
  {
    hide RoleExact, ReconcileOne;
    var (front, last) := (defs[..|defs| - 1], defs[|defs| - 1]);
    ReconcileKeepsRoles(db, t, front);
    if i == |front| {
      ReconcileOneExact(Reconciled(db, t, front), t, last);
    } else {
      assert forall k :: 0 <= k < |front| ==> front[k] == defs[k];
      AgreeingIsExact(db, t, front, i);
      if last.isSystem && last.name == defs[i].name {
        assert Namesakes(db, t, last, defs[i]);
      }
      ReconcileOneElsewhere(Reconciled(db, t, front), t, last, Role(t, defs[i].name), defs[i].permissions);
    }
  }

  lemma ReconciledIsExact(db: Db, t: Tenant, defs: seq<RoleDef>)
    requires NamesakesAgree(db, t, defs)
    ensures Exact(Reconciled(db, t, defs), t, defs)
  {
    hide Reconciled, NamesakesAgree, RoleExact;
    ReconcileKeepsRoles(db, t, defs);
    forall i | 0 <= i < |defs| && defs[i].isSystem && Role(t, defs[i].name) in db.roles
      ensures RoleExact(Reconciled(db, t, defs).grants, Role(t, defs[i].name), defs[i].permissions)
    {
      AgreeingIsExact(db, t, defs, i);
    }
  }

  lemma SeededIsExact(db: Db, t: Tenant, defs: seq<RoleDef>)
    requires DistinctNames(defs)
    ensures Exact(Seeded(db, t, defs), t, defs)
  {
    hide Seeded, DistinctNames;
    forall i, p | 0 <= i < |defs| && defs[i].isSystem
      ensures Grant(Role(t, defs[i].name), p) in Seeded(db, t, defs).grants <==> p in defs[i].permissions
    {
      SystemRolesExact(db, t, defs, i, p);
    }
  }

  lemma ExactOneQuiet(db: Db, t: Tenant, def: RoleDef)
    requires def.isSystem && Role(t, def.name) in db.roles ==> RoleExact(db.grants, Role(t, def.name), def.permissions)
    ensures ReconcileOne(db, t, def) == db && CountOne(db, t, def) == Report(0, 0, 0)
  {
    var role := Role(t, def.name);
    if def.isSystem && role in db.roles {
      NoneMissing(db.grants, role, def.permissions);
      forall g ensures g !in Extra(db.grants, role, def.permissions) {
        assert g.role == role ==> g == Grant(role, g.permission);
      }
      assert Extra(db.grants, role, def.permissions) == {};
    }
  }

  lemma {:induction false} NoneMissing(grants: set<Grant>, role: Role, permissions: seq<Permission>)
    requires forall p :: p in permissions ==> Grant(role, p) in grants
    ensures Missing(grants, role, permissions) == [] && grants + Pairs(role, permissions) == grants
  {
    if permissions != [] {
      NoneMissing(grants, role, permissions[..|permissions| - 1]);
      assert permissions[|permissions| - 1] in permissions;
    }
  }

  lemma {:induction false} ExactQuiet(db: Db, t: Tenant, defs: seq<RoleDef>)
    requires Exact(db, t, defs)
    ensures Reconciled(db, t, defs) == db && Count(db, t, defs) == Report(0, 0, 0)
  {
    hide RoleExact, ReconcileOne, CountOne;
    if defs != [] {
      var (front, last) := (defs[..|defs| - 1], defs[|defs| - 1]);
      forall i | 0 <= i < |front| && front[i].isSystem && Role(t, front[i].name) in db.roles
        ensures RoleExact(db.grants, Role(t, front[i].name), front[i].permissions)
      {
        assert front[i] == defs[i];
      }
      ExactQuiet(db, t, front);
      ExactOneQuiet(db, t, last);
    }
  }

  lemma OtherTenantStaysExact(db: Db, t: Tenant, other: Tenant, defs: seq<RoleDef>)
    requires Exact(db, other, defs) && t != other
    ensures Exact(Reconciled(db, t, defs), other, defs)
  {
    hide Reconciled, RoleExact;
    ReconcileKeepsRoles(db, t, defs);
    var after := Reconciled(db, t, defs);
    forall i | 0 <= i < |defs| && defs[i].isSystem && Role(other, defs[i].name) in after.roles
      ensures RoleExact(after.grants, Role(other, defs[i].name), defs[i].permissions)
    {
      OtherRoleStaysExact(db, t, Role(other, defs[i].name), defs[i].permissions, defs);
    }
  }

  lemma OtherRoleStaysExact(db: Db, t: Tenant, role: Role, permissions: seq<Permission>, defs: seq<RoleDef>)
    requires role.tenant != t && RoleExact(db.grants, role, permissions)
    ensures RoleExact(Reconciled(db, t, defs).grants, role, permissions)
  {
    forall p ensures Grant(role, p) in Reconciled(db, t, defs).grants <==> p in permissions {
      OthersUntouched(db, t, defs, Grant(role, p));
    }
  }

  lemma {:induction false} AllKeepRoles(db: Db, tenants: seq<Tenant>, defs: seq<RoleDef>)
    ensures ReconciledAll(db, tenants, defs).roles == db.roles
  {
    hide Reconciled;
    if tenants != [] {
      var (front, last) := (tenants[..|tenants| - 1], tenants[|tenants| - 1]);
      AllKeepRoles(db, front, defs);
      ReconcileKeepsRoles(ReconciledAll(db, front, defs), last, defs);
    }
  }

  lemma AgreementIsAboutRoles(db: Db, other: Db, t: Tenant, defs: seq<RoleDef>)
    requires db.roles == other.roles && NamesakesAgree(db, t, defs)
    ensures NamesakesAgree(other, t, defs)
  {
    forall i, j | 0 <= i < |defs| && 0 <= j < |defs| && Namesakes(other, t, defs[i], defs[j])
      ensures SamePermissions(defs[i], defs[j])
    {
      assert Namesakes(db, t, defs[i], defs[j]);
    }
  }

  lemma {:induction false} AllExact(db: Db, tenants: seq<Tenant>, defs: seq<RoleDef>, t: Tenant)
    requires NamesakesAgree(db, t, defs) && t in tenants && t != PLATFORM_TENANT
    ensures Exact(ReconciledAll(db, tenants, defs), t, defs)
  {
    hide Exact, NamesakesAgree, Reconciled;
    var (front, last) := (tenants[..|tenants| - 1], tenants[|tenants| - 1]);
    assert tenants == front + [last];
    var before := ReconciledAll(db, front, defs);
    if last == t {
      AllKeepRoles(db, front, defs);
      AgreementIsAboutRoles(db, before, t, defs);
      ReconciledIsExact(before, t, defs);
    } else {
      AllExact(db, front, defs, t);
      if last != PLATFORM_TENANT {
        OtherTenantStaysExact(before, last, t, defs);
      }
    }
  }

  lemma {:induction false} AllExactQuiet(db: Db, tenants: seq<Tenant>, defs: seq<RoleDef>)
    requires forall t :: t in tenants && t != PLATFORM_TENANT ==> Exact(db, t, defs)
    ensures ReconciledAll(db, tenants, defs) == db && CountAll(db, tenants, defs) == Report(0, 0, 0)
  {
    hide Exact, Reconciled, Count;
    if tenants != [] {
      var (front, last) := (tenants[..|tenants| - 1], tenants[|tenants| - 1]);
      assert tenants == front + [last];
      AllExactQuiet(db, front, defs);
      if last != PLATFORM_TENANT {
        ExactQuiet(db, last, defs);
      }
    }
  }

  /** The second run reports zero and writes nothing, even if it lists the tenants in another order or fewer. */
  lemma SecondRunReportsZero(db: Db, tenants: seq<Tenant>, later: seq<Tenant>, defs: seq<RoleDef>)
    requires DistinctNames(defs) && forall t :: t in later ==> t in tenants
    ensures var once := ReconciledAll(db, tenants, defs);
      ReconciledAll(once, later, defs) == once && CountAll(once, later, defs) == Report(0, 0, 0)
  {
    hide DistinctNames, Exact, ReconciledAll, CountAll;
    var once := ReconciledAll(db, tenants, defs);
    forall t | t in later && t != PLATFORM_TENANT ensures Exact(once, t, defs) {
      DistinctNamesakesAgree(db, t, defs);
      AllExact(db, tenants, defs, t);
    }
    AllExactQuiet(once, later, defs);
  }

  /** Nor does a boot find anything to do after a seed. */
  lemma BootAfterSeedIsQuiet(db: Db, t: Tenant, defs: seq<RoleDef>)
    requires DistinctNames(defs)
    ensures var seeded := Seeded(db, t, defs);
      Reconciled(seeded, t, defs) == seeded && Count(seeded, t, defs) == Report(0, 0, 0)
  {
    SeededIsExact(db, t, defs);
    ExactQuiet(Seeded(db, t, defs), t, defs);
  }

  lemma ZeroOneExact(db: Db, t: Tenant, def: RoleDef)
    requires CountOne(db, t, def).permsAdded == 0 && CountOne(db, t, def).permsRemoved == 0
    requires def.isSystem && Role(t, def.name) in db.roles
    ensures RoleExact(db.grants, Role(t, def.name), def.permissions)
  {
    var role := Role(t, def.name);
    AddedAre(db.grants, role, def.permissions);
    assert Missing(db.grants, role, def.permissions) == [] && Extra(db.grants, role, def.permissions) == {};
    forall p ensures Grant(role, p) in db.grants <==> p in def.permissions {
      assert Grant(role, p) !in Extra(db.grants, role, def.permissions);
      assert p !in Missing(db.grants, role, def.permissions);
    }
  }

  lemma {:induction false} CountsAreCounts(db: Db, t: Tenant, defs: seq<RoleDef>)
    ensures Count(db, t, defs).permsAdded >= 0 && Count(db, t, defs).permsRemoved >= 0
  {
    if defs != [] {
      CountsAreCounts(db, t, defs[..|defs| - 1]);
    }
  }

  ghost predicate NothingCounted(r: Report) {
    r.permsAdded == 0 && r.permsRemoved == 0
  }

  /** A run that adds and removes nothing found every role as its definitions have it. */
  lemma {:induction false} ZeroMeansExact(db: Db, t: Tenant, defs: seq<RoleDef>)
    requires NothingCounted(Count(db, t, defs))
    ensures Exact(db, t, defs)
  {
    hide RoleExact, ReconcileOne, CountOne;
    if defs != [] {
      var (front, last) := (defs[..|defs| - 1], defs[|defs| - 1]);
      CountsAreCounts(db, t, front);
      CountOneIsCount(Reconciled(db, t, front), t, last);
      ZeroMeansExact(db, t, front);
      ExactQuiet(db, t, front);
      assert forall k :: 0 <= k < |front| ==> front[k] == defs[k];
      if last.isSystem && Role(t, last.name) in db.roles {
        ZeroOneExact(db, t, last);
      }
    }
  }

  lemma CountOneIsCount(db: Db, t: Tenant, def: RoleDef)
    ensures CountOne(db, t, def).permsAdded >= 0 && CountOne(db, t, def).permsRemoved >= 0
  {
  }

  lemma ExactAgrees(db: Db, t: Tenant, defs: seq<RoleDef>)
    requires Exact(db, t, defs)
    ensures NamesakesAgree(db, t, defs)
  {
    forall i, j | 0 <= i < |defs| && 0 <= j < |defs| && Namesakes(db, t, defs[i], defs[j])
      ensures SamePermissions(defs[i], defs[j])
    {
      assert RoleExact(db.grants, Role(t, defs[i].name), defs[i].permissions);
      assert RoleExact(db.grants, Role(t, defs[j].name), defs[j].permissions);
    }
  }

  lemma {:induction false} AllCountsAreCounts(db: Db, tenants: seq<Tenant>, defs: seq<RoleDef>)
    ensures CountAll(db, tenants, defs).permsAdded >= 0 && CountAll(db, tenants, defs).permsRemoved >= 0
  {
    hide Count, Reconciled;
    if tenants != [] {
      var (front, last) := (tenants[..|tenants| - 1], tenants[|tenants| - 1]);
      AllCountsAreCounts(db, front, defs);
      CountsAreCounts(ReconciledAll(db, front, defs), last, defs);
    }
  }

  lemma {:induction false} AllZeroMeansExact(db: Db, tenants: seq<Tenant>, defs: seq<RoleDef>, t: Tenant)
    requires NothingCounted(CountAll(db, tenants, defs)) && t in tenants && t != PLATFORM_TENANT
    ensures Exact(db, t, defs)
  {
    hide Exact, Count, Reconciled;
    var (front, last) := (tenants[..|tenants| - 1], tenants[|tenants| - 1]);
    assert tenants == front + [last];
    AllCountsAreCounts(db, front, defs);
    if last != PLATFORM_TENANT {
      CountsAreCounts(ReconciledAll(db, front, defs), last, defs);
    }
    if t in front {
      AllZeroMeansExact(db, front, defs, t);
    } else {
      forall u | u in front && u != PLATFORM_TENANT ensures Exact(db, u, defs) {
        AllZeroMeansExact(db, front, defs, u);
      }
      AllExactQuiet(db, front, defs);
      ZeroMeansExact(db, t, defs);
    }
  }

  /**
   * For any tables and any list of definitions: the second run adds and removes nothing exactly when, in every tenant,
   * the system definitions that share the name of a role it has list the same permissions.
   */
  lemma SecondRunZeroIff(db: Db, tenants: seq<Tenant>, defs: seq<RoleDef>)
    ensures NothingCounted(CountAll(ReconciledAll(db, tenants, defs), tenants, defs))
       <==> forall t :: t in tenants && t != PLATFORM_TENANT ==> NamesakesAgree(db, t, defs)
  {
    hide NamesakesAgree, Exact, ReconciledAll, CountAll;
    var once := ReconciledAll(db, tenants, defs);
    AllKeepRoles(db, tenants, defs);
    if NothingCounted(CountAll(once, tenants, defs)) {
      forall t | t in tenants && t != PLATFORM_TENANT ensures NamesakesAgree(db, t, defs) {
        AllZeroMeansExact(once, tenants, defs, t);
        ExactAgrees(once, t, defs);
        AgreementIsAboutRoles(once, db, t, defs);
      }
    }
    if forall t :: t in tenants && t != PLATFORM_TENANT ==> NamesakesAgree(db, t, defs) {
      forall t | t in tenants && t != PLATFORM_TENANT ensures Exact(once, t, defs) {
        AllExact(db, tenants, defs, t);
      }
      AllExactQuiet(once, tenants, defs);
    }
  }

  // ----- The counters are the net change -----

  ghost predicate NoDuplicates(permissions: seq<Permission>) {
    forall i :: 0 <= i < |permissions| ==> permissions[i] !in permissions[..i]
  }

  /** The missing grants, as a set. */
  function Lacking(grants: set<Grant>, role: Role, permissions: seq<Permission>): set<Grant> {
    Pairs(role, permissions) - grants
  }

  lemma LackingStep(grants: set<Grant>, role: Role, front: seq<Permission>, p: Permission)
    requires p !in front
    ensures Size(Lacking(grants, role, front + [p]))
         == Size(Lacking(grants, role, front)) + if Grant(role, p) in grants then 0 else 1
  {
    assert Pairs(role, front + [p]) == Pairs(role, front) + {Grant(role, p)};
    if Grant(role, p) in grants {
      assert Lacking(grants, role, front + [p]) == Lacking(grants, role, front);
    } else {
      assert Lacking(grants, role, front + [p]) == Lacking(grants, role, front) + {Grant(role, p)};
    }
  }

  lemma {:induction false} MissingCount(grants: set<Grant>, role: Role, permissions: seq<Permission>)
    requires NoDuplicates(permissions)
    ensures |Missing(grants, role, permissions)| == Size(Lacking(grants, role, permissions))
  {
    if permissions == [] {
      assert Pairs(role, permissions) == {};
    } else {
      hide NoDuplicates, Lacking, Pairs, Size;
      var (front, p) := (permissions[..|permissions| - 1], permissions[|permissions| - 1]);
      NoDuplicatesFront(permissions);
      MissingCount(grants, role, front);
      LackingStep(grants, role, front, p);
      assert permissions == front + [p];
    }
  }

  lemma NoDuplicatesFront(permissions: seq<Permission>)
    requires NoDuplicates(permissions) && permissions != []
    ensures NoDuplicates(permissions[..|permissions| - 1])
    ensures permissions[|permissions| - 1] !in permissions[..|permissions| - 1]
  {
    var front := permissions[..|permissions| - 1];
    assert forall i :: 0 <= i < |front| ==> front[i] == permissions[i] && front[..i] == permissions[..i];
  }

  lemma NetOne(db: Db, t: Tenant, def: RoleDef)
    requires NoDuplicates(def.permissions)
    ensures var c := CountOne(db, t, def);
      c.permsAdded - c.permsRemoved == |ReconcileOne(db, t, def).grants| - |db.grants|
  {
    var role := Role(t, def.name);
    if def.isSystem && role in db.roles {
      MissingCount(db.grants, role, def.permissions);
      var added := Lacking(db.grants, role, def.permissions);
      var removed := Extra(db.grants, role, def.permissions);
      assert db.grants + Pairs(role, def.permissions) == db.grants + added;
      assert removed <= db.grants;
      assert removed !! added;
      assert db.grants + added - removed == (db.grants - removed) + added;
    }
  }

  ghost predicate ListsAreSets(defs: seq<RoleDef>) {
    forall i :: 0 <= i < |defs| ==> NoDuplicates(defs[i].permissions)
  }

  lemma {:induction false} NetTenant(db: Db, t: Tenant, defs: seq<RoleDef>)
    requires ListsAreSets(defs)
    ensures var c := Count(db, t, defs);
      c.permsAdded - c.permsRemoved == |Reconciled(db, t, defs).grants| - |db.grants|
  {
    hide NoDuplicates, ReconcileOne, CountOne;
    if defs != [] {
      var front := defs[..|defs| - 1];
      assert forall i :: 0 <= i < |front| ==> front[i] == defs[i];
      NetTenant(db, t, front);
      NetOne(Reconciled(db, t, front), t, defs[|defs| - 1]);
    }
  }

  /** Permissions added minus permissions removed is the net change of the table, when no definition lists one twice. */
  lemma {:induction false} NetChange(db: Db, tenants: seq<Tenant>, defs: seq<RoleDef>)
    requires ListsAreSets(defs)
    ensures var c := CountAll(db, tenants, defs);
      c.permsAdded - c.permsRemoved == |ReconciledAll(db, tenants, defs).grants| - |db.grants|
  {
    hide ListsAreSets, Reconciled, Count;
    if tenants != [] {
      var (front, t) := (tenants[..|tenants| - 1], tenants[|tenants| - 1]);
      NetChange(db, front, defs);
      if t != PLATFORM_TENANT {
        NetTenant(ReconciledAll(db, front, defs), t, defs);
      }
    }
  }

  // ----- What a whole reconciliation leaves, grant by grant -----

  /** A definition that makes the reconciler decide the role's grants. */
  predicate Decides(db: Db, def: RoleDef, role: Role) {
    def.isSystem && def.name == role.name && role in db.roles
  }

  lemma {:induction false} ReconciledAt(db: Db, t: Tenant, defs: seq<RoleDef>, g: Grant)
    requires DistinctNames(defs) && g.role.tenant == t
    ensures g in Reconciled(db, t, defs).grants <==>
      if exists d :: d in defs && Decides(db, d, g.role)
      then exists d :: d in defs && Decides(db, d, g.role) && g.permission in d.permissions
      else g in db.grants
  {
    if !Names(defs, g.role.name) {
      OthersUntouched(db, t, defs, g);
    } else {
      var i :| 0 <= i < |defs| && defs[i].name == g.role.name;
      assert g.role == Role(t, defs[i].name) && g == Grant(g.role, g.permission);
      forall d | d in defs && d.name == g.role.name ensures d == defs[i] {
        OneOfEachName(defs, i, d);
      }
      if !defs[i].isSystem {
        CustomRolesKept(db, t, defs, i, g.permission);
      } else if g.role in db.roles {
        SystemRolesExact(db, t, defs, i, g.permission);
      } else {
        AbsentUntouched(db, t, defs, g);
      }
    }
  }

  lemma OneOfEachName(defs: seq<RoleDef>, i: nat, d: RoleDef)
    requires DistinctNames(defs) && i < |defs| && d in defs && d.name == defs[i].name
    ensures d == defs[i]
  {
    var j :| 0 <= j < |defs| && defs[j] == d;
  }

  lemma {:induction false} AbsentUntouched(db: Db, t: Tenant, defs: seq<RoleDef>, g: Grant)
    requires g.role !in db.roles
    ensures g in Reconciled(db, t, defs).grants <==> g in db.grants
  {
    if defs != [] {
      AbsentUntouched(db, t, defs[..|defs| - 1], g);
      ReconcileKeepsRoles(db, t, defs[..|defs| - 1]);
    }
  }

  /**
   * A grant of a role that a system definition names and a tenant of the run has is there at the end exactly when the
   * definition lists it; every other grant, and every grant of the platform, is there exactly when it was.
   */
  lemma {:induction false} ReconciledAllAt(db: Db, tenants: seq<Tenant>, defs: seq<RoleDef>, g: Grant)
    requires DistinctNames(defs)
    ensures g in ReconciledAll(db, tenants, defs).grants <==>
      if g.role.tenant in tenants && g.role.tenant != PLATFORM_TENANT
         && exists d :: d in defs && Decides(db, d, g.role)
      then exists d :: d in defs && Decides(db, d, g.role) && g.permission in d.permissions
      else g in db.grants
  {
    hide DistinctNames, Reconciled;
    if tenants != [] {
      var (front, last) := (tenants[..|tenants| - 1], tenants[|tenants| - 1]);
      assert tenants == front + [last];
      ReconciledAllAt(db, front, defs, g);
      AllKeepRoles(db, front, defs);
      if last == g.role.tenant {
        ReconciledAt(ReconciledAll(db, front, defs), last, defs, g);
      } else {
        OthersUntouched(ReconciledAll(db, front, defs), last, defs, g);
      }
    }
  }

  // ----- What the report counts -----

  function GrantsOf(grants: set<Grant>, role: Role): set<Grant> {
    set g | g in grants && g.role == role
  }

  /** The roles whose grants are not what they were. */
  ghost function Changed(before: Db, after: Db): set<Role> {
    set role | role in before.roles && GrantsOf(before.grants, role) != GrantsOf(after.grants, role)
  }

  /** The report says how many grants were added and removed, and of how many roles. */
  ghost predicate Measures(r: Report, before: Db, after: Db) {
    && r.permsAdded == Size(after.grants - before.grants)
    && r.permsRemoved == Size(before.grants - after.grants)
    && r.rolesTouched == Size(Changed(before, after))
  }

  /** The two tables differ in the grants of those roles at most. */
  ghost predicate OnlyAt(before: Db, after: Db, roles: set<Role>) {
    before.roles == after.roles && forall g: Grant :: g.role !in roles ==> (g in before.grants <==> g in after.grants)
  }

  lemma SizeAdds<T>(a: set<T>, b: set<T>)
    requires a !! b
    ensures Size(a + b) == Size(a) + Size(b)
  {
  }

  lemma SameElsewhere(before: Db, after: Db, roles: set<Role>, role: Role)
    requires OnlyAt(before, after, roles) && role !in roles
    ensures GrantsOf(before.grants, role) == GrantsOf(after.grants, role)
  {
    forall g ensures g in GrantsOf(before.grants, role) <==> g in GrantsOf(after.grants, role) {
    }
  }

  /** Changes of different roles add up. */
  lemma ChangesAdd(a: Db, b: Db, c: Db, first: set<Role>, second: set<Role>)
    requires OnlyAt(a, b, first) && OnlyAt(b, c, second) && first !! second
    ensures c.grants - a.grants == (b.grants - a.grants) + (c.grants - b.grants)
    ensures a.grants - c.grants == (a.grants - b.grants) + (b.grants - c.grants)
    ensures (b.grants - a.grants) !! (c.grants - b.grants) && (a.grants - b.grants) !! (b.grants - c.grants)
  {
    forall g ensures (g in a.grants <==> g in b.grants) || (g in b.grants <==> g in c.grants) {
      assert g.role !in first || g.role !in second;
    }
  }

  lemma RolesAdd(a: Db, b: Db, c: Db, first: set<Role>, second: set<Role>)
    requires OnlyAt(a, b, first) && OnlyAt(b, c, second) && first !! second
    ensures Changed(a, c) == Changed(a, b) + Changed(b, c) && Changed(a, b) !! Changed(b, c)
  {
    forall role ensures role !in first || role !in second {
    }
    forall role | role !in first ensures GrantsOf(a.grants, role) == GrantsOf(b.grants, role) {
      SameElsewhere(a, b, first, role);
    }
    forall role | role !in second ensures GrantsOf(b.grants, role) == GrantsOf(c.grants, role) {
      SameElsewhere(b, c, second, role);
    }
  }

  lemma MeasuresAdd(x: Report, y: Report, a: Db, b: Db, c: Db, first: set<Role>, second: set<Role>)
    requires Measures(x, a, b) && Measures(y, b, c)
    requires OnlyAt(a, b, first) && OnlyAt(b, c, second) && first !! second
    ensures Measures(Plus(x, y), a, c) && OnlyAt(a, c, first + second)
  {
    hide Size, Changed, OnlyAt;
    ChangesAdd(a, b, c, first, second);
    RolesAdd(a, b, c, first, second);
    SizeAdds(b.grants - a.grants, c.grants - b.grants);
    SizeAdds(a.grants - b.grants, b.grants - c.grants);
    SizeAdds(Changed(a, b), Changed(b, c));
    OnlyAtBoth(a, b, c, first, second);
  }

  lemma OnlyAtBoth(a: Db, b: Db, c: Db, first: set<Role>, second: set<Role>)
    requires OnlyAt(a, b, first) && OnlyAt(b, c, second)
    ensures OnlyAt(a, c, first + second)
  {
  }

  lemma NothingMeasured(db: Db, roles: set<Role>)
    ensures Measures(Report(0, 0, 0), db, db) && OnlyAt(db, db, roles)
  {
    assert Changed(db, db) == {};
    assert db.grants - db.grants == {};
  }

  lemma OneMeasures(db: Db, t: Tenant, def: RoleDef)
    requires NoDuplicates(def.permissions)
    ensures Measures(CountOne(db, t, def), db, ReconcileOne(db, t, def))
    ensures OnlyAt(db, ReconcileOne(db, t, def), {Role(t, def.name)})
  {
    var role := Role(t, def.name);
    if !def.isSystem || role !in db.roles {
      NothingMeasured(db, {role});
    } else {
      var after := ReconcileOne(db, t, def);
      MissingCount(db.grants, role, def.permissions);
      assert after.grants - db.grants == Lacking(db.grants, role, def.permissions);
      assert db.grants - after.grants == Extra(db.grants, role, def.permissions);
      OneChanges(db, t, def);
    }
  }

  lemma OneChanges(db: Db, t: Tenant, def: RoleDef)
    requires NoDuplicates(def.permissions) && def.isSystem && Role(t, def.name) in db.roles
    ensures Size(Changed(db, ReconcileOne(db, t, def))) == CountOne(db, t, def).rolesTouched
  {
    var (role, after) := (Role(t, def.name), ReconcileOne(db, t, def));
    var (missing, extra) := (Missing(db.grants, role, def.permissions), Extra(db.grants, role, def.permissions));
    assert OnlyAt(db, after, {role});
    forall other | other != role ensures GrantsOf(db.grants, other) == GrantsOf(after.grants, other) {
      SameElsewhere(db, after, {role}, other);
    }
    AddedAre(db.grants, role, def.permissions);
    if missing != [] {
      assert missing[0] in missing;
      assert Grant(role, missing[0]) in GrantsOf(after.grants, role) - GrantsOf(db.grants, role);
      assert Changed(db, after) == {role};
    } else if g :| g in extra {
      assert g in GrantsOf(db.grants, role) - GrantsOf(after.grants, role);
      assert Changed(db, after) == {role};
    } else {
      NoneMissing(db.grants, role, def.permissions);
      assert Changed(db, after) == {};
    }
  }

  function RolesOf(t: Tenant, defs: seq<RoleDef>): set<Role> {
    set i | 0 <= i < |defs| :: Role(t, defs[i].name)
  }

  lemma {:induction false} TenantMeasures(db: Db, t: Tenant, defs: seq<RoleDef>)
    requires DistinctNames(defs) && ListsAreSets(defs)
    ensures Measures(Count(db, t, defs), db, Reconciled(db, t, defs))
    ensures OnlyAt(db, Reconciled(db, t, defs), RolesOf(t, defs))
  {
    hide Measures, OnlyAt, ReconcileOne, CountOne, NoDuplicates;
    if defs == [] {
      NothingMeasured(db, RolesOf(t, defs));
    } else {
      var (front, last) := (defs[..|defs| - 1], defs[|defs| - 1]);
      DistinctFront(defs);
      assert forall i :: 0 <= i < |front| ==> front[i] == defs[i];
      TenantMeasures(db, t, front);
      OneMeasures(Reconciled(db, t, front), t, last);
      assert RolesOf(t, defs) == RolesOf(t, front) + {Role(t, last.name)};
      MeasuresAdd(Count(db, t, front), CountOne(Reconciled(db, t, front), t, last), db, Reconciled(db, t, front),
                  Reconciled(db, t, defs), RolesOf(t, front), {Role(t, last.name)});
    }
  }

  function RolesOfAll(tenants: seq<Tenant>, defs: seq<RoleDef>): set<Role> {
    set i, j | 0 <= i < |tenants| && 0 <= j < |defs| :: Role(tenants[i], defs[j].name)
  }

  /** The whole report: so many grants are there that were not, so many are gone, and so many roles were changed. */
  lemma {:induction false} ReportMeasures(db: Db, tenants: seq<Tenant>, defs: seq<RoleDef>)
    requires DistinctNames(defs) && ListsAreSets(defs)
    ensures Measures(CountAll(db, tenants, defs), db, ReconciledAll(db, tenants, defs))
    ensures OnlyAt(db, ReconciledAll(db, tenants, defs), RolesOfAll(tenants, defs))
  {
    hide Measures, Reconciled, Count, DistinctNames, ListsAreSets;
    if tenants == [] {
      NothingMeasured(db, RolesOfAll(tenants, defs));
    } else {
      var (front, t) := (tenants[..|tenants| - 1], tenants[|tenants| - 1]);
      var before := ReconciledAll(db, front, defs);
      ReportMeasures(db, front, defs);
      assert RolesOfAll(front, defs) <= RolesOfAll(tenants, defs);
      if t != PLATFORM_TENANT {
        if t in front {
          DistinctNamesakesAgree(db, t, defs);
          AllExact(db, front, defs, t);
          ExactQuiet(before, t, defs);
        } else {
          TenantMeasures(before, t, defs);
          assert RolesOfAll(tenants, defs) == RolesOfAll(front, defs) + RolesOf(t, defs);
          MeasuresAdd(CountAll(db, front, defs), Count(before, t, defs), db, before, Reconciled(before, t, defs),
                      RolesOfAll(front, defs), RolesOf(t, defs));
        }
      }
    }
  }
}
