// prisma/seeds/staff-rbac-sync.backfill.ts: the three-phase repair that keeps User.role and the
// primary StaffAssignment.role in step, as a dry run or for real.
//
// Staff.userId is @unique, so a user and its staff row are one row here, and the assignments of a staff
// row are nested in it, as the Prisma relations nest them.
module StaffSync {
  import opened Basics

  datatype Role = Role(id: Id, tenantId: Id, name: string)
  datatype Assignment = Assignment(role: string, agencyId: Option<Id>, status: string, startDate: int)
  datatype Staff = Staff(tenantId: Id, agencyId: Option<Id>, status: string, assignments: seq<Assignment>)
  datatype User = User(
    tenantId: Id, userType: string, agencyId: Option<Id>, roleId: Option<Id>, staff: Option<Staff>)

  const EXTERNAL_ROLES: set<string> := {"CUSTOMER", "PUBLIC_REPORTER"}

  // ----- Queries -----

  predicate DistinctIds(roles: seq<Role>) {
    forall i, j :: 0 <= i < j < |roles| ==> roles[i].id != roles[j].id
  }

  /** `user.role?.name`, with "" for a missing role: the script treats the two alike. */
  function RoleName(roles: seq<Role>, roleId: Option<Id>): (name: string)
    ensures DistinctIds(roles) && roleId.Some? ==>
      forall i :: 0 <= i < |roles| && roles[i].id == roleId.value ==> name == roles[i].name
    ensures (roleId.None? || forall i :: 0 <= i < |roles| ==> roles[i].id != roleId.value) ==> name == ""
  {
    if roleId.None? || |roles| == 0 then ""
    else if roles[0].id == roleId.value then roles[0].name
    else
      assert forall i :: 1 <= i < |roles| ==> roles[i] == roles[1..][i - 1];
      RoleName(roles[1..], roleId)
  }

  /** `role.findFirst({ where: { tenantId, name } })`. */
  function FindRole(roles: seq<Role>, tenant: Id, name: string): (r: Option<Id>)
    ensures r.None? <==> forall i :: 0 <= i < |roles| ==> !(roles[i].tenantId == tenant && roles[i].name == name)
    ensures r.Some? ==> exists i :: 0 <= i < |roles| && roles[i] == Role(r.value, tenant, name)
  {
    if |roles| == 0 then None
    else if roles[0].tenantId == tenant && roles[0].name == name then Some(roles[0].id)
    else
      assert forall i :: 1 <= i < |roles| ==> roles[i] == roles[1..][i - 1];
      FindRole(roles[1..], tenant, name)
  }

  predicate Internal(name: string) {
    name != "" && name !in EXTERNAL_ROLES
  }

  predicate Active(a: Assignment) {
    a.status == "ACTIVE"
  }

  /** Position of the ACTIVE assignment with the latest start date, the earliest listed on a tie; -1 if none. */
  function Primary(s: seq<Assignment>): (i: int)
    ensures -1 <= i < |s|
    ensures i == -1 <==> forall k :: 0 <= k < |s| ==> !Active(s[k])
    ensures i >= 0 ==> Active(s[i])
    ensures i >= 0 ==> forall k :: 0 <= k < |s| && Active(s[k]) ==>
      s[k].startDate < s[i].startDate || (s[k].startDate == s[i].startDate && i <= k)
  {
    if |s| == 0 then -1
    else
      var n := |s| - 1;
      var p := Primary(s[..n]);
      assert forall k :: 0 <= k < n ==> s[..n][k] == s[k];
      if Active(s[n]) && (p == -1 || s[p].startDate < s[n].startDate) then n else p
  }

  // The `where` clauses of the three findMany calls.

  predicate Orphan(tenant: Id, u: User) {
    u.tenantId == tenant && u.userType == "STAFF" && u.staff.None?
  }

  predicate Bare(tenant: Id, u: User) {
    u.staff.Some? && u.staff.value.tenantId == tenant && Primary(u.staff.value.assignments) == -1
  }

  predicate ActiveStaff(tenant: Id, u: User) {
    u.staff.Some? && u.staff.value.tenantId == tenant && u.staff.value.status == "ACTIVE"
  }

  predicate HasPrimary(u: User) {
    u.staff.Some? && Primary(u.staff.value.assignments) >= 0
  }

  function PrimaryRole(u: User): string
    requires HasPrimary(u)
  {
    u.staff.value.assignments[Primary(u.staff.value.assignments)].role
  }

  /** Phase 3 sees two different roles, neither of them external: it gets past its four `continue`s. */
  predicate Misaligned(roles: seq<Role>, tenant: Id, u: User) {
    && ActiveStaff(tenant, u) && HasPrimary(u)
    && Internal(RoleName(roles, u.roleId))
    && PrimaryRole(u) !in EXTERNAL_ROLES
    && PrimaryRole(u) != RoleName(roles, u.roleId)
  }

  // ----- What each phase writes to one user -----

  function NewAssignment(roles: seq<Role>, u: User, agency: Option<Id>, now: int): Assignment {
    Assignment(RoleName(roles, u.roleId), agency, "ACTIVE", now)
  }

  function Provision(roles: seq<Role>, tenant: Id, now: int, u: User): User {
    if Orphan(tenant, u) && Internal(RoleName(roles, u.roleId))
    then u.(staff := Some(Staff(tenant, u.agencyId, "ACTIVE", [NewAssignment(roles, u, u.agencyId, now)])))
    else u
  }

  function Assign(roles: seq<Role>, tenant: Id, now: int, u: User): User {
    if Bare(tenant, u) && Internal(RoleName(roles, u.roleId))
    then
      var s := u.staff.value;
      u.(staff := Some(s.(assignments := s.assignments + [NewAssignment(roles, u, s.agencyId, now)])))
    else u
  }

  function WithPrimaryRole(u: User, role: string): User
    requires HasPrimary(u)
  {
    var s := u.staff.value;
    var p := Primary(s.assignments);
    u.(staff := Some(s.(assignments := s.assignments[p := s.assignments[p].(role := role)])))
  }

  function Realign(roles: seq<Role>, tenant: Id, preferRh: bool, u: User): User {
    if !Misaligned(roles, tenant, u) then u
    else if !preferRh then WithPrimaryRole(u, RoleName(roles, u.roleId))
    else
      var target := FindRole(roles, tenant, PrimaryRole(u));
      if target.None? then u else u.(roleId := target)
  }

  function Repair(roles: seq<Role>, tenant: Id, preferRh: bool, now: int, u: User): User {
    Realign(roles, tenant, preferRh, Assign(roles, tenant, now, Provision(roles, tenant, now, u)))
  }

  // ----- What each phase reports about one user -----

  datatype Created = Created(staff: nat, assignments: nat)
  datatype Realigned = Realigned(iamWon: nat, rhWon: nat)
  datatype Skipped = Skipped(noTargetRole: nat, externalRole: nat, roleNotFound: nat)
  datatype Counts = Counts(created: Created, realigned: Realigned, skipped: Skipped) {
    function Plus(c: Counts): Counts {
      Counts(
        Created(created.staff + c.created.staff, created.assignments + c.created.assignments),
        Realigned(realigned.iamWon + c.realigned.iamWon, realigned.rhWon + c.realigned.rhWon),
        Skipped(skipped.noTargetRole + c.skipped.noTargetRole, skipped.externalRole + c.skipped.externalRole,
                skipped.roleNotFound + c.skipped.roleNotFound))
    }
  }

  const NO_CREATED := Created(0, 0)
  const NO_REALIGNED := Realigned(0, 0)
  const NO_SKIPPED := Skipped(0, 0, 0)
  const ZERO := Counts(NO_CREATED, NO_REALIGNED, NO_SKIPPED)
  const STAFF_CREATED := Counts(Created(1, 1), NO_REALIGNED, NO_SKIPPED)
  const ASSIGNMENT_CREATED := Counts(Created(0, 1), NO_REALIGNED, NO_SKIPPED)
  const IAM_WON := Counts(NO_CREATED, Realigned(1, 0), NO_SKIPPED)
  const RH_WON := Counts(NO_CREATED, Realigned(0, 1), NO_SKIPPED)
  const NO_TARGET_ROLE := Counts(NO_CREATED, NO_REALIGNED, Skipped(1, 0, 0))
  const EXTERNAL_ROLE := Counts(NO_CREATED, NO_REALIGNED, Skipped(0, 1, 0))
  const ROLE_NOT_FOUND := Counts(NO_CREATED, NO_REALIGNED, Skipped(0, 0, 1))

  /** The three-way branch at the top of the loops of phases 1 and 2. */
  function BranchCount(name: string, created: Counts): Counts {
    if name == "" then NO_TARGET_ROLE else if name in EXTERNAL_ROLES then EXTERNAL_ROLE else created
  }

  function ProvisionCount(roles: seq<Role>, tenant: Id, u: User): Counts {
    if Orphan(tenant, u) then BranchCount(RoleName(roles, u.roleId), STAFF_CREATED) else ZERO
  }

  function AssignCount(roles: seq<Role>, tenant: Id, u: User): Counts {
    if Bare(tenant, u) then BranchCount(RoleName(roles, u.roleId), ASSIGNMENT_CREATED) else ZERO
  }

  function RealignCount(roles: seq<Role>, tenant: Id, preferRh: bool, u: User): Counts {
    if !Misaligned(roles, tenant, u) then ZERO
    else if !preferRh then IAM_WON
    else if FindRole(roles, tenant, PrimaryRole(u)).None? then ROLE_NOT_FOUND
    else RH_WON
  }

  // ----- Whole tables -----

  /** The script's options: which tenant, who wins, whether to write, and what now() answers. */
  datatype RunOptions = RunOptions(tenant: Id, preferRh: bool, apply: bool, now: int)

  datatype Phase = PROVISION | ASSIGN | REALIGN

  function Write(roles: seq<Role>, o: RunOptions, phase: Phase, u: User): User {
    if !o.apply then u
    else match phase
      case PROVISION => Provision(roles, o.tenant, o.now, u)
      case ASSIGN => Assign(roles, o.tenant, o.now, u)
      case REALIGN => Realign(roles, o.tenant, o.preferRh, u)
  }

  function Count(roles: seq<Role>, o: RunOptions, phase: Phase, u: User): Counts {
    match phase
    case PROVISION => ProvisionCount(roles, o.tenant, u)
    case ASSIGN => AssignCount(roles, o.tenant, u)
    case REALIGN => RealignCount(roles, o.tenant, o.preferRh, u)
  }

  function WriteAll(roles: seq<Role>, o: RunOptions, phase: Phase, users: seq<User>): (r: seq<User>)
    ensures |r| == |users|
    ensures forall i :: 0 <= i < |r| ==> r[i] == Write(roles, o, phase, users[i])
  {
    seq(|users|, i requires 0 <= i < |users| => Write(roles, o, phase, users[i]))
  }

  function CountAll(roles: seq<Role>, o: RunOptions, phase: Phase, users: seq<User>): Counts {
    if users == [] then ZERO
    else CountAll(roles, o, phase, users[..|users| - 1]).Plus(Count(roles, o, phase, users[|users| - 1]))
  }

  /** One call of backfillTenant: the tables it leaves. */
  function RunTables(roles: seq<Role>, o: RunOptions, users: seq<User>): (r: seq<User>)
    ensures |r| == |users|
  {
    WriteAll(roles, o, REALIGN, WriteAll(roles, o, ASSIGN, WriteAll(roles, o, PROVISION, users)))
  }

  /** One call of backfillTenant: what it reports, each phase counting over the tables as they then stand. */
  function RunCounts(roles: seq<Role>, o: RunOptions, users: seq<User>): Counts {
    var users1 := WriteAll(roles, o, PROVISION, users);
    var users2 := WriteAll(roles, o, ASSIGN, users1);
    CountAll(roles, o, PROVISION, users)
      .Plus(CountAll(roles, o, ASSIGN, users1))
      .Plus(CountAll(roles, o, REALIGN, users2))
  }

  lemma {:induction false} CountAllCongruence(
    roles: seq<Role>, o: RunOptions, o': RunOptions, phase: Phase, a: seq<User>, b: seq<User>)
    requires |a| == |b|
    requires forall i :: 0 <= i < |a| ==> Count(roles, o, phase, a[i]) == Count(roles, o', phase, b[i])
    ensures CountAll(roles, o, phase, a) == CountAll(roles, o', phase, b)
  {
    if a != [] {
      var n := |a| - 1;
      assert forall i :: 0 <= i < n ==> a[..n][i] == a[i] && b[..n][i] == b[i];
      CountAllCongruence(roles, o, o', phase, a[..n], b[..n]);
    }
  }

  // ----- A dry run foretells the real one -----

  lemma AppendActive(s: seq<Assignment>, a: Assignment)
    requires Primary(s) == -1 && Active(a)
    ensures Primary(s + [a]) == |s|
  {
    var t := s + [a];
    assert t[|s|] == a;
    assert forall k :: 0 <= k < |s| ==> t[k] == s[k];
  }

  lemma PrimaryKept(s: seq<Assignment>, role: string)
    requires Primary(s) >= 0
    ensures var p := Primary(s); Primary(s[p := s[p].(role := role)]) == p
  {
    var p := Primary(s);
    var s' := s[p := s[p].(role := role)];
    assert Active(s'[p]);
    var q := Primary(s');
    assert forall k :: 0 <= k < |s| ==> Active(s[k]) == Active(s'[k]) && s[k].startDate == s'[k].startDate;
  }

  /** A row that phase 1 or 2 gives an assignment has a primary with the user's own role. */
  lemma EarlyWrites(roles: seq<Role>, tenant: Id, now: int, u: User)
    ensures var u1 := Provision(roles, tenant, now, u);
      u1 != u ==> HasPrimary(u1) && PrimaryRole(u1) == RoleName(roles, u1.roleId)
    ensures var u2 := Assign(roles, tenant, now, u);
      u2 != u ==> HasPrimary(u2) && PrimaryRole(u2) == RoleName(roles, u2.roleId)
  {
    if u.staff.None? {
      AppendActive([], NewAssignment(roles, u, u.agencyId, now));
    } else if Primary(u.staff.value.assignments) == -1 {
      AppendActive(u.staff.value.assignments, NewAssignment(roles, u, u.staff.value.agencyId, now));
    }
  }

  /** For one user: what phases 1 and 2 write leaves phases 2 and 3 the work they would have had anyway. */
  lemma EarlyPhasesAddNoWork(roles: seq<Role>, tenant: Id, preferRh: bool, now: int, u: User)
    ensures var u1 := Provision(roles, tenant, now, u);
      AssignCount(roles, tenant, u1) == AssignCount(roles, tenant, u)
    ensures var u2 := Assign(roles, tenant, now, Provision(roles, tenant, now, u));
      && (Misaligned(roles, tenant, u2) <==> Misaligned(roles, tenant, u))
      && RealignCount(roles, tenant, preferRh, u2) == RealignCount(roles, tenant, preferRh, u)
  {
    var u1 := Provision(roles, tenant, now, u);
    EarlyWrites(roles, tenant, now, u);
    EarlyWrites(roles, tenant, now, u1);
  }

  /** The report of a dry run is the report of the real run, whatever the tables hold. */
  lemma DryRunForetellsApply(roles: seq<Role>, o: RunOptions, users: seq<User>)
    ensures RunCounts(roles, o.(apply := false), users) == RunCounts(roles, o.(apply := true), users)
  {
    var dry, wet := o.(apply := false), o.(apply := true);
    var users1 := WriteAll(roles, wet, PROVISION, users);
    var users2 := WriteAll(roles, wet, ASSIGN, users1);
    forall i | 0 <= i < |users|
      ensures Count(roles, dry, ASSIGN, users[i]) == Count(roles, wet, ASSIGN, users1[i])
      ensures Count(roles, dry, REALIGN, users[i]) == Count(roles, wet, REALIGN, users2[i])
    {
      EarlyPhasesAddNoWork(roles, o.tenant, o.preferRh, o.now, users[i]);
    }
    assert WriteAll(roles, dry, PROVISION, users) == users;
    assert WriteAll(roles, dry, ASSIGN, users) == users;
    CountAllCongruence(roles, dry, wet, PROVISION, users, users);
    CountAllCongruence(roles, dry, wet, ASSIGN, users, users1);
    CountAllCongruence(roles, dry, wet, REALIGN, users, users2);
  }

  // ----- What one real pass achieves -----

  /** No two ACTIVE assignments of one staff row start on the same date. */
  predicate DistinctStarts(s: seq<Assignment>) {
    forall i, j :: 0 <= i < j < |s| && Active(s[i]) && Active(s[j]) ==> s[i].startDate != s[j].startDate
  }

  /** `i` is an ACTIVE assignment no other ACTIVE one is later than: a first row the query may return. */
  predicate Latest(s: seq<Assignment>, i: nat) {
    i < |s| && Active(s[i]) && forall k :: 0 <= k < |s| && Active(s[k]) ==> s[k].startDate <= s[i].startDate
  }

  /** With distinct dates the query has one possible answer, so nothing below depends on the tie-break. */
  lemma LatestIsPrimary(s: seq<Assignment>, i: nat)
    requires DistinctStarts(s) && Latest(s, i)
    ensures Primary(s) == i
  {
    var p := Primary(s);
    assert Active(s[i]) && p >= 0;
    assert s[p].startDate <= s[i].startDate;
  }

  lemma FoundRoleHasName(roles: seq<Role>, tenant: Id, name: string)
    requires DistinctIds(roles) && FindRole(roles, tenant, name).Some?
    ensures RoleName(roles, FindRole(roles, tenant, name)) == name
  {
  }

  lemma RealignSettles(roles: seq<Role>, tenant: Id, preferRh: bool, u: User)
    requires DistinctIds(roles)
    ensures var u' := Realign(roles, tenant, preferRh, u);
      && Bare(tenant, u') == Bare(tenant, u) && Orphan(tenant, u') == Orphan(tenant, u)
      && ((Bare(tenant, u) || Orphan(tenant, u)) ==> u' == u)
      && (Misaligned(roles, tenant, u') <==>
           preferRh && Misaligned(roles, tenant, u) && FindRole(roles, tenant, PrimaryRole(u)).None?)
      && Realign(roles, tenant, preferRh, u') == u'
  {
    if Misaligned(roles, tenant, u) {
      if preferRh {
        if FindRole(roles, tenant, PrimaryRole(u)).Some? {
          FoundRoleHasName(roles, tenant, PrimaryRole(u));
        }
      } else {
        PrimaryKept(u.staff.value.assignments, RoleName(roles, u.roleId));
      }
    }
  }

  /**
   * Exactly the rows one pass leaves misaligned: none when IAM wins; when RH wins, those it found
   * misaligned and whose tenant has no role named after the primary assignment.
   */
  lemma PassAligns(roles: seq<Role>, tenant: Id, preferRh: bool, now: int, u: User)
    requires DistinctIds(roles)
    ensures Misaligned(roles, tenant, Repair(roles, tenant, preferRh, now, u)) <==>
      preferRh && Misaligned(roles, tenant, u) && FindRole(roles, tenant, PrimaryRole(u)).None?
  {
    var u1 := Provision(roles, tenant, now, u);
    var u2 := Assign(roles, tenant, now, u1);
    EarlyWrites(roles, tenant, now, u);
    EarlyWrites(roles, tenant, now, u1);
    EarlyPhasesAddNoWork(roles, tenant, preferRh, now, u);
    RealignSettles(roles, tenant, preferRh, u2);
  }

  /** The same, as the design document states it: the latest ACTIVE assignment names the user's role. */
  lemma RolesAgree(roles: seq<Role>, tenant: Id, preferRh: bool, now: int, u: User, i: nat)
    requires DistinctIds(roles)
    requires var u' := Repair(roles, tenant, preferRh, now, u);
      && ActiveStaff(tenant, u')
      && DistinctStarts(u'.staff.value.assignments) && Latest(u'.staff.value.assignments, i)
      && Internal(RoleName(roles, u'.roleId)) && u'.staff.value.assignments[i].role !in EXTERNAL_ROLES
      && (preferRh ==> FindRole(roles, tenant, u'.staff.value.assignments[i].role).Some?)
    ensures var u' := Repair(roles, tenant, preferRh, now, u);
      u'.staff.value.assignments[i].role == RoleName(roles, u'.roleId)
  {
    var u2 := Assign(roles, tenant, now, Provision(roles, tenant, now, u));
    LatestIsPrimary(Repair(roles, tenant, preferRh, now, u).staff.value.assignments, i);
    RealignSettles(roles, tenant, preferRh, u2);
  }

  /** After a pass no phase has anything left to write to a user, under the same arbitration or RH after IAM. */
  lemma SecondPassWritesNothing(
    roles: seq<Role>, tenant: Id, first: bool, second: bool, now: int, later: int, u: User)
    requires DistinctIds(roles) && (first ==> second)
    ensures var u' := Repair(roles, tenant, first, now, u);
      && Provision(roles, tenant, later, u') == u' && Assign(roles, tenant, later, u') == u'
      && Realign(roles, tenant, second, u') == u'
      && ProvisionCount(roles, tenant, u').created == NO_CREATED
      && AssignCount(roles, tenant, u').created == NO_CREATED
      && RealignCount(roles, tenant, second, u').realigned == NO_REALIGNED
  {
    var u1 := Provision(roles, tenant, now, u);
    var u2 := Assign(roles, tenant, now, u1);
    EarlyWrites(roles, tenant, now, u);
    EarlyWrites(roles, tenant, now, u1);
    assert Provision(roles, tenant, later, u2) == u2 && Assign(roles, tenant, later, u2) == u2;
    RealignSettles(roles, tenant, first, u2);
  }

  lemma {:induction false} QuietCounts(roles: seq<Role>, o: RunOptions, phase: Phase, users: seq<User>)
    requires forall i :: 0 <= i < |users| ==>
      var c := Count(roles, o, phase, users[i]); c.created == NO_CREATED && c.realigned == NO_REALIGNED
    ensures var c := CountAll(roles, o, phase, users); c.created == NO_CREATED && c.realigned == NO_REALIGNED
  {
    hide Count;
    if users != [] {
      var n := |users| - 1;
      assert forall i :: 0 <= i < n ==> users[..n][i] == users[i];
      QuietCounts(roles, o, phase, users[..n]);
    }
  }

  lemma SecondPassQuietRow(roles: seq<Role>, o: RunOptions, second: RunOptions, users: seq<User>, i: nat)
    requires DistinctIds(roles) && i < |users|
    requires o.apply && second.tenant == o.tenant && (o.preferRh ==> second.preferRh)
    ensures var u := RunTables(roles, o, users)[i];
      forall phase :: Write(roles, second, phase, u) == u
    ensures var u := RunTables(roles, o, users)[i];
      forall phase :: var c := Count(roles, second, phase, u); c.created == NO_CREATED && c.realigned == NO_REALIGNED
  {
    SecondPassWritesNothing(roles, o.tenant, o.preferRh, second.preferRh, o.now, second.now, users[i]);
    assert RunTables(roles, o, users)[i] == Repair(roles, o.tenant, o.preferRh, o.now, users[i]);
  }

  /** A second real pass over the tables writes nothing and reports no creation and no realignment. */
  lemma SecondPassIsQuiet(roles: seq<Role>, o: RunOptions, second: RunOptions, users: seq<User>)
    requires DistinctIds(roles)
    requires o.apply && second.tenant == o.tenant && (o.preferRh ==> second.preferRh)
    ensures var users' := RunTables(roles, o, users); RunTables(roles, second, users') == users'
    ensures var c := RunCounts(roles, second, RunTables(roles, o, users));
      c.created == NO_CREATED && c.realigned == NO_REALIGNED
  {
    hide Write, Count;
    var users' := RunTables(roles, o, users);
    forall i, phase | 0 <= i < |users|
      ensures Write(roles, second, phase, users'[i]) == users'[i]
      ensures var c := Count(roles, second, phase, users'[i]);
        c.created == NO_CREATED && c.realigned == NO_REALIGNED
    {
      SecondPassQuietRow(roles, o, second, users, i);
    }
    assert WriteAll(roles, second, PROVISION, users') == users';
    assert WriteAll(roles, second, ASSIGN, users') == users';
    assert WriteAll(roles, second, REALIGN, users') == users';
    QuietCounts(roles, second, PROVISION, users');
    QuietCounts(roles, second, ASSIGN, users');
    QuietCounts(roles, second, REALIGN, users');
  }

  // ----- All tenants in one run -----

  /** Repairing tenant `a` leaves every user as it was in all that tenant `b`'s call reads, writes or counts. */
  lemma TenantsAreIndependent(roles: seq<Role>, o: RunOptions, b: RunOptions, phase: Phase, u: User)
    requires o.tenant != b.tenant
    ensures Count(roles, b, phase, Repair(roles, o.tenant, o.preferRh, o.now, u)) == Count(roles, b, phase, u)
  {
  }

  /** The whole run over a list of tenants: the tables it leaves. */
  function RunAllTables(roles: seq<Role>, o: RunOptions, tenants: seq<Id>, users: seq<User>): (r: seq<User>)
    ensures |r| == |users|
  {
    if tenants == [] then users
    else
      var n := |tenants| - 1;
      RunTables(roles, o.(tenant := tenants[n]), RunAllTables(roles, o, tenants[..n], users))
  }

  /** What a dry run over each tenant alone, on the tables before the run, would report in total. */
  function Forecast(roles: seq<Role>, o: RunOptions, tenants: seq<Id>, users: seq<User>): Counts {
    if tenants == [] then ZERO
    else
      var n := |tenants| - 1;
      Forecast(roles, o, tenants[..n], users)
        .Plus(RunCounts(roles, o.(tenant := tenants[n], apply := false), users))
  }

  lemma {:induction false} EarlierTenantsKeepCounts(
    roles: seq<Role>, o: RunOptions, tenants: seq<Id>, b: RunOptions, phase: Phase, users: seq<User>, i: nat)
    requires o.apply && b.tenant !in tenants && i < |users|
    ensures Count(roles, b, phase, RunAllTables(roles, o, tenants, users)[i]) == Count(roles, b, phase, users[i])
  {
    if tenants != [] {
      var n := |tenants| - 1;
      var before := RunAllTables(roles, o, tenants[..n], users);
      EarlierTenantsKeepCounts(roles, o, tenants[..n], b, phase, users, i);
      TenantsAreIndependent(roles, o.(tenant := tenants[n]), b, phase, before[i]);
      assert RunTables(roles, o.(tenant := tenants[n]), before)[i]
          == Repair(roles, tenants[n], o.preferRh, o.now, before[i]);
    }
  }

  /** However many other tenants were repaired before, a tenant's call reports what it would have at the start. */
  lemma EarlierTenantsChangeNoReport(roles: seq<Role>, o: RunOptions, tenants: seq<Id>, b: Id, users: seq<User>)
    requires b !in tenants
    ensures RunCounts(roles, o.(tenant := b), if o.apply then RunAllTables(roles, o, tenants, users) else users)
         == RunCounts(roles, o.(tenant := b, apply := false), users)
  {
    if o.apply {
      var ob := o.(tenant := b);
      var dry := ob.(apply := false);
      var done := RunAllTables(roles, o, tenants, users);
      DryRunForetellsApply(roles, ob, done);
      forall phase
        ensures CountAll(roles, dry, phase, done) == CountAll(roles, dry, phase, users)
      {
        forall i | 0 <= i < |users|
          ensures Count(roles, dry, phase, done[i]) == Count(roles, dry, phase, users[i])
        {
          EarlierTenantsKeepCounts(roles, o, tenants, dry, phase, users, i);
        }
        CountAllCongruence(roles, dry, dry, phase, done, users);
      }
      assert WriteAll(roles, dry, PROVISION, users) == users && WriteAll(roles, dry, PROVISION, done) == done;
      assert WriteAll(roles, dry, ASSIGN, users) == users && WriteAll(roles, dry, ASSIGN, done) == done;
    }
  }

  /** No phase of the tenant's call creates or realigns anything for the user. */
  ghost predicate Quiet(roles: seq<Role>, o: RunOptions, u: User) {
    forall phase :: QuietCount(Count(roles, o, phase, u))
  }

  predicate QuietCount(c: Counts) {
    c.created == NO_CREATED && c.realigned == NO_REALIGNED
  }

  /** What counts nothing writes nothing. */
  lemma QuietWritesNothing(roles: seq<Role>, o: RunOptions, phase: Phase, u: User)
    requires QuietCount(Count(roles, o, phase, u))
    ensures Write(roles, o, phase, u) == u
  {
  }

  lemma {:induction false} RunQuiets(
    roles: seq<Role>, o: RunOptions, second: RunOptions, tenants: seq<Id>, users: seq<User>, i: nat, t: Id)
    requires DistinctIds(roles) && o.apply && (o.preferRh ==> second.preferRh) && t in tenants && i < |users|
    ensures Quiet(roles, second.(tenant := t), RunAllTables(roles, o, tenants, users)[i])
  {
    hide Count, Write, QuietCount;
    var n := |tenants| - 1;
    var (before, b) := (RunAllTables(roles, o, tenants[..n], users), second.(tenant := t));
    assert tenants == tenants[..n] + [tenants[n]];
    if tenants[n] == t {
      CallQuiets(roles, o.(tenant := t), b, before, i);
    } else {
      RunQuiets(roles, o, second, tenants[..n], users, i, t);
      forall phase ensures QuietCount(Count(roles, b, phase, RunAllTables(roles, o, tenants, users)[i])) {
        assert QuietCount(Count(roles, b, phase, before[i]));
        TenantsAreIndependent(roles, o.(tenant := tenants[n]), b, phase, before[i]);
        RunIsRepair(roles, o.(tenant := tenants[n]), before, i);
      }
    }
  }

  lemma RunIsRepair(roles: seq<Role>, o: RunOptions, users: seq<User>, i: nat)
    requires o.apply && i < |users|
    ensures RunTables(roles, o, users)[i] == Repair(roles, o.tenant, o.preferRh, o.now, users[i])
  {
  }

  lemma CallQuiets(roles: seq<Role>, o: RunOptions, second: RunOptions, users: seq<User>, i: nat)
    requires DistinctIds(roles) && i < |users|
    requires o.apply && second.tenant == o.tenant && (o.preferRh ==> second.preferRh)
    ensures Quiet(roles, second, RunTables(roles, o, users)[i])
  {
    hide Count, RunTables;
    SecondPassQuietRow(roles, o, second, users, i);
  }

  lemma QuietCall(roles: seq<Role>, o: RunOptions, users: seq<User>)
    requires forall i :: 0 <= i < |users| ==> Quiet(roles, o, users[i])
    ensures RunTables(roles, o, users) == users && QuietCount(RunCounts(roles, o, users))
  {
    hide Count, Write;
    forall i, phase | 0 <= i < |users| ensures Write(roles, o, phase, users[i]) == users[i] {
      QuietWritesNothing(roles, o, phase, users[i]);
    }
    assert WriteAll(roles, o, PROVISION, users) == users;
    assert WriteAll(roles, o, ASSIGN, users) == users;
    assert WriteAll(roles, o, REALIGN, users) == users;
    forall phase ensures QuietCount(CountAll(roles, o, phase, users)) {
      QuietCounts(roles, o, phase, users);
    }
  }

  lemma {:induction false} QuietRun(roles: seq<Role>, o: RunOptions, tenants: seq<Id>, users: seq<User>)
    requires forall t, i :: t in tenants && 0 <= i < |users| ==> Quiet(roles, o.(tenant := t), users[i])
    ensures RunAllTables(roles, o, tenants, users) == users && QuietCount(Forecast(roles, o, tenants, users))
  {
    hide Quiet, RunTables, RunCounts;
    if tenants != [] {
      var n := |tenants| - 1;
      assert tenants == tenants[..n] + [tenants[n]];
      QuietRun(roles, o, tenants[..n], users);
      QuietCall(roles, o.(tenant := tenants[n]), users);
      DryRunForetellsApply(roles, o.(tenant := tenants[n]), users);
    }
  }

  /**
   * A second whole run over the same tenants, or some of them in any order, writes nothing and reports no creation and
   * no realignment, under the same arbitration or RH after IAM.
   */
  lemma SecondRunIsQuiet(
    roles: seq<Role>, o: RunOptions, second: RunOptions, tenants: seq<Id>, later: seq<Id>, users: seq<User>)
    requires DistinctIds(roles) && o.apply && (o.preferRh ==> second.preferRh)
    requires forall t :: t in later ==> t in tenants
    ensures var users' := RunAllTables(roles, o, tenants, users);
      RunAllTables(roles, second, later, users') == users' && QuietCount(Forecast(roles, second, later, users'))
  {
    hide Quiet, RunAllTables, Forecast, QuietCount;
    var users' := RunAllTables(roles, o, tenants, users);
    forall t, i | t in later && 0 <= i < |users| ensures Quiet(roles, second.(tenant := t), users'[i]) {
      RunQuiets(roles, o, second, tenants, users, i, t);
    }
    QuietRun(roles, second, later, users');
  }

  /** One more tenant: the run's tables and its forecast advance together. */
  lemma NextTenant(roles: seq<Role>, o: RunOptions, tenants: seq<Id>, i: nat, users: seq<User>)
    requires i < |tenants| && tenants[i] !in tenants[..i]
    ensures var o' := o.(tenant := tenants[i]);
      var now := if o.apply then RunAllTables(roles, o, tenants[..i], users) else users;
      && Forecast(roles, o, tenants[..i + 1], users)
         == Forecast(roles, o, tenants[..i], users).Plus(RunCounts(roles, o', now))
      && RunTables(roles, o', now) == if o.apply then RunAllTables(roles, o, tenants[..i + 1], users) else users
  {
    assert tenants[..i + 1][..i] == tenants[..i];
    EarlierTenantsChangeNoReport(roles, o, tenants[..i], tenants[i], users);
  }

  // ----- What becomes of each user, and what the report says of it -----

  /** A role of the staff, as the script has it. */
  predicate Inside(name: string) {
    name != "" && name != "CUSTOMER" && name != "PUBLIC_REPORTER"
  }

  /** The tenant has a role of that name and id. */
  predicate NamedRole(roles: seq<Role>, tenant: Id, name: string, id: Id) {
    Role(id, tenant, name) in roles
  }

  /** A STAFF user without a staff row gets one, with the user's agency, and one assignment in the user's role. */
  lemma OrphanRepaired(roles: seq<Role>, tenant: Id, preferRh: bool, now: int, u: User)
    requires u.tenantId == tenant && u.userType == "STAFF" && u.staff.None? && Inside(RoleName(roles, u.roleId))
    ensures Repair(roles, tenant, preferRh, now, u) == u.(staff := Some(
      Staff(tenant, u.agencyId, "ACTIVE", [Assignment(RoleName(roles, u.roleId), u.agencyId, "ACTIVE", now)])))
  {
    AppendActive([], NewAssignment(roles, u, u.agencyId, now));
    EarlyWrites(roles, tenant, now, u);
  }

  /** A staff row without an ACTIVE assignment keeps what it has and gains one, with the row's own agency. */
  lemma BareRepaired(roles: seq<Role>, tenant: Id, preferRh: bool, now: int, u: User)
    requires u.staff.Some? && u.staff.value.tenantId == tenant && Inside(RoleName(roles, u.roleId))
    requires forall k :: 0 <= k < |u.staff.value.assignments| ==> u.staff.value.assignments[k].status != "ACTIVE"
    ensures var s := u.staff.value;
      Repair(roles, tenant, preferRh, now, u) == u.(staff := Some(s.(assignments :=
        s.assignments + [Assignment(RoleName(roles, u.roleId), s.agencyId, "ACTIVE", now)])))
  {
    EarlyWrites(roles, tenant, now, u);
  }

  /**
   * A user whose two roles differ: if IAM wins, the primary assignment alone takes the user's role; if RH wins, the
   * user alone takes the tenant's role named after the primary assignment, where there is one.
   */
  lemma MisalignedRepaired(roles: seq<Role>, tenant: Id, preferRh: bool, now: int, u: User)
    requires Misaligned(roles, tenant, u)
    ensures var u' := Repair(roles, tenant, preferRh, now, u);
      var (s, name) := (u.staff.value.assignments, PrimaryRole(u));
      if !preferRh then
        u' == u.(staff := Some(u.staff.value.(assignments :=
          s[Primary(s) := s[Primary(s)].(role := RoleName(roles, u.roleId))])))
      else if exists id :: NamedRole(roles, tenant, name, id) then
        u'.roleId.Some? && NamedRole(roles, tenant, name, u'.roleId.value) && u' == u.(roleId := u'.roleId)
      else u' == u
  {
    var found := FindRole(roles, tenant, PrimaryRole(u));
    assert found.Some? ==> NamedRole(roles, tenant, PrimaryRole(u), found.value);
    assert forall id :: NamedRole(roles, tenant, PrimaryRole(u), id) ==> found.Some?;
  }

  /** An ACTIVE staff row of the tenant whose latest ACTIVE assignment names another staff role than the user's. */
  predicate TwoRoles(roles: seq<Role>, tenant: Id, u: User) {
    && u.staff.Some? && u.staff.value.tenantId == tenant && u.staff.value.status == "ACTIVE"
    && var (s, name) := (u.staff.value.assignments, RoleName(roles, u.roleId));
      Primary(s) >= 0 && Inside(name) && s[Primary(s)].role != name
      && s[Primary(s)].role != "CUSTOMER" && s[Primary(s)].role != "PUBLIC_REPORTER"
  }

  /** Who is written to: staff of the tenant without a row or an ACTIVE assignment, and those whose roles differ. */
  lemma WrittenIff(roles: seq<Role>, tenant: Id, preferRh: bool, now: int, u: User)
    requires DistinctIds(roles)
    ensures Repair(roles, tenant, preferRh, now, u) != u <==>
      || (u.staff.None? && u.userType == "STAFF" && u.tenantId == tenant && Inside(RoleName(roles, u.roleId)))
      || (u.staff.Some? && u.staff.value.tenantId == tenant && Inside(RoleName(roles, u.roleId))
          && forall k :: 0 <= k < |u.staff.value.assignments| ==> u.staff.value.assignments[k].status != "ACTIVE")
      || (TwoRoles(roles, tenant, u) && (preferRh ==> exists id :: NamedRole(roles, tenant, PrimaryRole(u), id)))
  {
    hide Repair, RoleName, FindRole;
    assert Misaligned(roles, tenant, u) == TwoRoles(roles, tenant, u);
    if Orphan(tenant, u) && Internal(RoleName(roles, u.roleId)) {
      OrphanRepaired(roles, tenant, preferRh, now, u);
    } else if Bare(tenant, u) && Internal(RoleName(roles, u.roleId)) {
      BareRepaired(roles, tenant, preferRh, now, u);
    } else if Misaligned(roles, tenant, u) {
      MisalignedRepaired(roles, tenant, preferRh, now, u);
      FoundIffNamed(roles, tenant, PrimaryRole(u));
      if FindRole(roles, tenant, PrimaryRole(u)).Some? {
        MisalignedSeen(roles, RunOptions(tenant, preferRh, true, now), u);
      }
    } else {
      OthersKept(roles, tenant, preferRh, now, u);
    }
  }

  /** Nobody else is written to, neither in this tenant nor in another. */
  lemma OthersKept(roles: seq<Role>, tenant: Id, preferRh: bool, now: int, u: User)
    requires !((Orphan(tenant, u) || Bare(tenant, u)) && Internal(RoleName(roles, u.roleId)))
    requires !Misaligned(roles, tenant, u)
    ensures Repair(roles, tenant, preferRh, now, u) == u
  {
  }

  /** The tenant whose call may write to the user: their staff row's, or their own if they have none. */
  function Home(u: User): Id {
    if u.staff.Some? then u.staff.value.tenantId else u.tenantId
  }

  lemma OnlyHomeWrites(roles: seq<Role>, tenant: Id, preferRh: bool, now: int, u: User)
    ensures Home(Repair(roles, tenant, preferRh, now, u)) == Home(u)
    ensures tenant != Home(u) ==> Repair(roles, tenant, preferRh, now, u) == u
  {
  }

  /** Over a whole run each user is repaired by their own tenant's call, and by no other. */
  lemma {:induction false} RunAllAt(roles: seq<Role>, o: RunOptions, tenants: seq<Id>, users: seq<User>, i: nat)
    requires o.apply && i < |users| && forall j, k :: 0 <= j < k < |tenants| ==> tenants[j] != tenants[k]
    ensures RunAllTables(roles, o, tenants, users)[i]
         == if Home(users[i]) in tenants then Repair(roles, Home(users[i]), o.preferRh, o.now, users[i]) else users[i]
  {
    if tenants != [] {
      hide Repair, RunTables, Home;
      var (front, last) := (tenants[..|tenants| - 1], tenants[|tenants| - 1]);
      assert tenants == front + [last];
      var before := RunAllTables(roles, o, front, users);
      RunAllAt(roles, o, front, users, i);
      RunIsRepair(roles, o.(tenant := last), before, i);
      OneMoreCall(roles, o, Home(users[i]) in front, last, users[i]);
    }
  }

  lemma OneMoreCall(roles: seq<Role>, o: RunOptions, called: bool, tenant: Id, u: User)
    requires called ==> tenant != Home(u)
    ensures var before := if called then Repair(roles, Home(u), o.preferRh, o.now, u) else u;
      Repair(roles, tenant, o.preferRh, o.now, before)
      == if called || tenant == Home(u) then Repair(roles, Home(u), o.preferRh, o.now, u) else u
  {
    hide Repair, Home;
    OnlyHomeWrites(roles, Home(u), o.preferRh, o.now, u);
    OnlyHomeWrites(roles, tenant, o.preferRh, o.now, u);
    OnlyHomeWrites(roles, tenant, o.preferRh, o.now, Repair(roles, Home(u), o.preferRh, o.now, u));
  }

  function Assignments(u: User): seq<Assignment> {
    if u.staff.Some? then u.staff.value.assignments else []
  }

  /** Some assignment the user had has changed. */
  predicate Rewritten(u: User, u': User) {
    exists k :: 0 <= k < |Assignments(u)| && (k >= |Assignments(u')| || Assignments(u')[k] != Assignments(u)[k])
  }

  function Gained(u: User, u': User): nat {
    if |Assignments(u')| >= |Assignments(u)| then |Assignments(u')| - |Assignments(u)| else 0
  }

  function One(b: bool): nat {
    if b then 1 else 0
  }

  /** What can be seen to have been done to a user. */
  function Seen(u: User, u': User): (Created, Realigned) {
    (Created(One(u.staff.None? && u'.staff.Some?), Gained(u, u')),
     Realigned(One(Rewritten(u, u')), One(u'.roleId != u.roleId)))
  }

  predicate Unplaced(tenant: Id, u: User) {
    Orphan(tenant, u) || Bare(tenant, u)
  }

  /** Why a user who is not as they should be is left so: no role, an external one, or no role of that name. */
  ghost function Reasons(roles: seq<Role>, tenant: Id, preferRh: bool, u: User): Skipped {
    var name := RoleName(roles, u.roleId);
    Skipped(One(Unplaced(tenant, u) && name == ""),
            One(Unplaced(tenant, u) && (name == "CUSTOMER" || name == "PUBLIC_REPORTER")),
            One(preferRh && Misaligned(roles, tenant, u)
                && !exists id :: NamedRole(roles, tenant, PrimaryRole(u), id)))
  }

  function OneCount(roles: seq<Role>, o: RunOptions, u: User): Counts {
    Count(roles, o, PROVISION, u).Plus(Count(roles, o, ASSIGN, u)).Plus(Count(roles, o, REALIGN, u))
  }

  lemma PlusZero(a: Counts)
    ensures a.Plus(ZERO) == a && ZERO.Plus(a) == a
  {
  }

  /** No user is counted by two of the phases. */
  lemma OnePhaseCounts(roles: seq<Role>, o: RunOptions, u: User)
    ensures OneCount(roles, o, u) ==
      if Orphan(o.tenant, u) then ProvisionCount(roles, o.tenant, u)
      else if Bare(o.tenant, u) then AssignCount(roles, o.tenant, u)
      else RealignCount(roles, o.tenant, o.preferRh, u)
  {
    hide Counts.Plus, RoleName, FindRole, BranchCount;
    PlusZero(ProvisionCount(roles, o.tenant, u));
    PlusZero(AssignCount(roles, o.tenant, u));
    PlusZero(RealignCount(roles, o.tenant, o.preferRh, u));
    PlusZero(ZERO);
  }

  /** What the three phases report about one user is what can be seen of them afterwards, and why not more. */
  lemma CountIsSeen(roles: seq<Role>, o: RunOptions, u: User)
    requires DistinctIds(roles)
    ensures var c := OneCount(roles, o, u);
      && (c.created, c.realigned) == Seen(u, Repair(roles, o.tenant, o.preferRh, o.now, u))
      && c.skipped == Reasons(roles, o.tenant, o.preferRh, u)
  {
    hide OneCount, Repair, RoleName, FindRole, Misaligned;
    OnePhaseCounts(roles, o, u);
    if Orphan(o.tenant, u) && Internal(RoleName(roles, u.roleId)) {
      OrphanRepaired(roles, o.tenant, o.preferRh, o.now, u);
      UnplacedIsAligned(roles, o.tenant, u);
    } else if Bare(o.tenant, u) && Internal(RoleName(roles, u.roleId)) {
      BareRepaired(roles, o.tenant, o.preferRh, o.now, u);
      UnplacedIsAligned(roles, o.tenant, u);
    } else if Misaligned(roles, o.tenant, u) {
      MisalignedSeen(roles, o, u);
    } else {
      OthersKept(roles, o.tenant, o.preferRh, o.now, u);
    }
  }

  lemma UnplacedIsAligned(roles: seq<Role>, tenant: Id, u: User)
    requires Unplaced(tenant, u)
    ensures !Misaligned(roles, tenant, u)
  {
  }

  lemma MisalignedSeen(roles: seq<Role>, o: RunOptions, u: User)
    requires DistinctIds(roles) && Misaligned(roles, o.tenant, u)
    ensures !Unplaced(o.tenant, u)
    ensures var c := RealignCount(roles, o.tenant, o.preferRh, u);
      && (c.created, c.realigned) == Seen(u, Repair(roles, o.tenant, o.preferRh, o.now, u))
      && c.skipped == Reasons(roles, o.tenant, o.preferRh, u)
  {
    hide Repair, FindRole, RoleName;
    MisalignedRepaired(roles, o.tenant, o.preferRh, o.now, u);
    var found := FindRole(roles, o.tenant, PrimaryRole(u));
    FoundIffNamed(roles, o.tenant, PrimaryRole(u));
    if found.Some? {
      FoundRoleHasName(roles, o.tenant, PrimaryRole(u));
    }
    if !o.preferRh {
      var u' := Repair(roles, o.tenant, o.preferRh, o.now, u);
      assert Assignments(u')[Primary(Assignments(u))] != Assignments(u)[Primary(Assignments(u))];
    }
  }

  lemma FoundIffNamed(roles: seq<Role>, tenant: Id, name: string)
    ensures FindRole(roles, tenant, name).Some? <==> exists id :: NamedRole(roles, tenant, name, id)
    ensures var found := FindRole(roles, tenant, name); found.Some? ==> NamedRole(roles, tenant, name, found.value)
  {
  }

  /** The same for a whole table: the sum, user by user. */
  ghost function SumSeen(roles: seq<Role>, o: RunOptions, tenants: seq<Id>, before: seq<User>, after: seq<User>): Counts
    requires |before| == |after|
  {
    if before == [] then ZERO
    else
      var n := |before| - 1;
      var (created, realigned) := Seen(before[n], after[n]);
      var home := Home(before[n]);
      var skipped := if home in tenants then Reasons(roles, home, o.preferRh, before[n]) else NO_SKIPPED;
      SumSeen(roles, o, tenants, before[..n], after[..n]).Plus(Counts(created, realigned, skipped))
  }

  lemma PlusSwaps(a: Counts, b: Counts, c: Counts, d: Counts)
    ensures a.Plus(b).Plus(c.Plus(d)) == a.Plus(c).Plus(b.Plus(d))
  {
  }

  lemma DryTables(roles: seq<Role>, o: RunOptions, users: seq<User>)
    requires !o.apply
    ensures RunCounts(roles, o, users) ==
      CountAll(roles, o, PROVISION, users)
        .Plus(CountAll(roles, o, ASSIGN, users))
        .Plus(CountAll(roles, o, REALIGN, users))
  {
    assert WriteAll(roles, o, PROVISION, users) == users;
    assert WriteAll(roles, o, ASSIGN, users) == users;
  }

  lemma LastCounted(roles: seq<Role>, o: RunOptions, users: seq<User>)
    requires !o.apply && users != []
    ensures RunCounts(roles, o, users)
         == RunCounts(roles, o, users[..|users| - 1]).Plus(OneCount(roles, o, users[|users| - 1]))
  {
    hide Count, RunCounts;
    var (front, last) := (users[..|users| - 1], users[|users| - 1]);
    DryTables(roles, o, users);
    DryTables(roles, o, front);
    var (p, a) := (CountAll(roles, o, PROVISION, front), CountAll(roles, o, ASSIGN, front));
    PlusSwaps(p, Count(roles, o, PROVISION, last), a, Count(roles, o, ASSIGN, last));
    PlusSwaps(p.Plus(a), Count(roles, o, PROVISION, last).Plus(Count(roles, o, ASSIGN, last)),
              CountAll(roles, o, REALIGN, front), Count(roles, o, REALIGN, last));
  }

  ghost function ForecastOne(roles: seq<Role>, o: RunOptions, tenants: seq<Id>, u: User): Counts {
    if tenants == [] then ZERO
    else
      var n := |tenants| - 1;
      ForecastOne(roles, o, tenants[..n], u).Plus(OneCount(roles, o.(tenant := tenants[n], apply := false), u))
  }

  lemma {:induction false} ForecastAdds(roles: seq<Role>, o: RunOptions, tenants: seq<Id>, users: seq<User>)
    requires users != []
    ensures Forecast(roles, o, tenants, users)
         == Forecast(roles, o, tenants, users[..|users| - 1]).Plus(ForecastOne(roles, o, tenants, users[|users| - 1]))
  {
    hide RunCounts, OneCount, Counts.Plus;
    PlusZero(ZERO);
    if tenants != [] {
      var (front, o') := (tenants[..|tenants| - 1], o.(tenant := tenants[|tenants| - 1], apply := false));
      var (some, last) := (users[..|users| - 1], users[|users| - 1]);
      ForecastAdds(roles, o, front, users);
      LastCounted(roles, o', users);
      PlusSwaps(Forecast(roles, o, front, some), ForecastOne(roles, o, front, last), RunCounts(roles, o', some),
                OneCount(roles, o', last));
    }
  }

  lemma AwayCountsNothing(roles: seq<Role>, o: RunOptions, u: User)
    requires o.tenant != Home(u)
    ensures OneCount(roles, o, u) == ZERO
  {
    hide OneCount, RoleName, FindRole, Primary, Misaligned;
    OnePhaseCounts(roles, o, u);
    AwayIsAligned(roles, o.tenant, u);
  }

  lemma AwayIsAligned(roles: seq<Role>, tenant: Id, u: User)
    requires tenant != Home(u)
    ensures !Misaligned(roles, tenant, u)
  {
  }

  lemma {:induction false} ForecastOneIsHome(roles: seq<Role>, o: RunOptions, tenants: seq<Id>, u: User)
    requires forall j, k :: 0 <= j < k < |tenants| ==> tenants[j] != tenants[k]
    ensures ForecastOne(roles, o, tenants, u)
         == if Home(u) in tenants then OneCount(roles, o.(tenant := Home(u), apply := false), u) else ZERO
  {
    hide OneCount, Counts.Plus, Home;
    if tenants != [] {
      var (front, last) := (tenants[..|tenants| - 1], tenants[|tenants| - 1]);
      assert tenants == front + [last];
      ForecastOneIsHome(roles, o, front, u);
      PlusZero(ForecastOne(roles, o, front, u));
      PlusZero(OneCount(roles, o.(tenant := last, apply := false), u));
      if last != Home(u) {
        AwayCountsNothing(roles, o.(tenant := last, apply := false), u);
      }
    }
  }

  lemma NothingSeen(u: User)
    ensures Seen(u, u) == (NO_CREATED, NO_REALIGNED)
  {
  }

  /** The whole run's report is the sum of what can be seen of each user, and of why others were left as they were. */
  lemma {:induction false} ReportIsSeen(
    roles: seq<Role>, o: RunOptions, tenants: seq<Id>, users: seq<User>, after: seq<User>)
    requires DistinctIds(roles) && o.apply
    requires forall j, k :: 0 <= j < k < |tenants| ==> tenants[j] != tenants[k]
    requires |after| == |users|
    requires forall i :: 0 <= i < |users| ==>
      after[i] ==
        if Home(users[i]) in tenants then Repair(roles, Home(users[i]), o.preferRh, o.now, users[i]) else users[i]
    ensures Forecast(roles, o, tenants, users) == SumSeen(roles, o, tenants, users, after)
  {
    hide Repair, OneCount, Reasons, Seen, DistinctIds;
    if users == [] {
      NobodyForecast(roles, o, tenants);
    } else {
      var n := |users| - 1;
      var home := Home(users[n]);
      ReportIsSeen(roles, o, tenants, users[..n], after[..n]);
      ForecastAdds(roles, o, tenants, users);
      ForecastOneIsHome(roles, o, tenants, users[n]);
      NothingSeen(users[n]);
      CountIsSeen(roles, o.(tenant := home, apply := false), users[n]);
    }
  }

  lemma {:induction false} NobodyForecast(roles: seq<Role>, o: RunOptions, tenants: seq<Id>)
    ensures Forecast(roles, o, tenants, []) == ZERO
  {
    if tenants != [] {
      hide RunCounts, Counts.Plus;
      NobodyForecast(roles, o, tenants[..|tenants| - 1]);
      NobodyCounted(roles, o.(tenant := tenants[|tenants| - 1], apply := false));
      PlusZero(ZERO);
    }
  }

  lemma NobodyCounted(roles: seq<Role>, o: RunOptions)
    ensures RunCounts(roles, o, []) == ZERO
  {
    hide Counts.Plus;
    PlusZero(ZERO);
  }

  /** What a run reports, dry or real, is the difference a real run makes between the tables. */
  lemma ReportIsDifference(roles: seq<Role>, o: RunOptions, tenants: seq<Id>, users: seq<User>)
    requires DistinctIds(roles) && o.apply
    requires forall j, k :: 0 <= j < k < |tenants| ==> tenants[j] != tenants[k]
    ensures Forecast(roles, o, tenants, users)
         == SumSeen(roles, o, tenants, users, RunAllTables(roles, o, tenants, users))
  {
    hide RunAllTables, Repair, Forecast, SumSeen, DistinctIds;
    forall i | 0 <= i < |users|
      ensures RunAllTables(roles, o, tenants, users)[i] ==
        if Home(users[i]) in tenants then Repair(roles, Home(users[i]), o.preferRh, o.now, users[i]) else users[i]
    {
      RunAllAt(roles, o, tenants, users, i);
    }
    ReportIsSeen(roles, o, tenants, users, RunAllTables(roles, o, tenants, users));
  }

  // ----- The boot-time backfill, prisma/seeds/iam.seed.ts backfillStaffFromUsers -----

  /** An ACTIVE staff row without assignment, for a STAFF user of any tenant that has none. */
  function BootBackfill(u: User): User {
    if NeedsStaff(u)
    then u.(staff := Some(Staff(u.tenantId, u.agencyId, "ACTIVE", []))) else u
  }

  predicate NeedsStaff(u: User) {
    u.userType == "STAFF" && u.staff.None?
  }

  /** A STAFF user keeps their staff row or gets a bare one, with their tenant and agency; nothing else changes. */
  lemma BootGivesStaff(u: User)
    ensures var u' := BootBackfill(u);
      && u' == u.(staff := u'.staff)
      && (u.staff.Some? || u.userType != "STAFF" ==> u' == u)
      && (u.staff.None? && u.userType == "STAFF" ==> u'.staff == Some(Staff(u.tenantId, u.agencyId, "ACTIVE", [])))
  {
  }

  /** The places before `n` of STAFF users, and of those of them without a staff row. */
  ghost function StaffUsers(users: seq<User>, n: nat): set<int>
    requires n <= |users|
  {
    set i | 0 <= i < n && users[i].userType == "STAFF"
  }

  ghost function Unstaffed(users: seq<User>, n: nat): set<int>
    requires n <= |users|
  {
    set i | 0 <= i < n && users[i].userType == "STAFF" && users[i].staff.None?
  }

  lemma NobodyYet(users: seq<User>)
    ensures Size(StaffUsers(users, 0)) == 0 && Size(Unstaffed(users, 0)) == 0
  {
    assert StaffUsers(users, 0) == {} && Unstaffed(users, 0) == {};
  }

  lemma SizeOfMore(places: set<int>, n: int)
    requires n !in places
    ensures Size(places + {n}) == Size(places) + 1
  {
  }

  lemma StaffUsersStep(users: seq<User>, n: nat)
    requires n < |users|
    ensures Size(StaffUsers(users, n + 1)) == Size(StaffUsers(users, n)) + if users[n].userType == "STAFF" then 1 else 0
  {
    hide Size;
    SizeOfMore(StaffUsers(users, n), n);
    if users[n].userType == "STAFF" {
      assert StaffUsers(users, n + 1) == StaffUsers(users, n) + {n};
    } else {
      assert StaffUsers(users, n + 1) == StaffUsers(users, n);
    }
  }

  lemma UnstaffedStep(users: seq<User>, n: nat)
    requires n < |users|
    ensures Size(Unstaffed(users, n + 1)) == Size(Unstaffed(users, n)) + if NeedsStaff(users[n]) then 1 else 0
  {
    hide Size;
    SizeOfMore(Unstaffed(users, n), n);
    if NeedsStaff(users[n]) {
      assert Unstaffed(users, n + 1) == Unstaffed(users, n) + {n};
    } else {
      assert Unstaffed(users, n + 1) == Unstaffed(users, n);
    }
  }

  /**
   * Whether or not the boot backfill ran first, the sync creates the same number of assignments and leaves
   * every user with an internal role the same row; only the phase that creates the staff row differs.
   */
  lemma BootThenSyncAgree(roles: seq<Role>, tenant: Id, preferRh: bool, now: int, u: User)
    ensures var b := BootBackfill(u);
      && ProvisionCount(roles, tenant, b) == ZERO
      && ProvisionCount(roles, tenant, u).Plus(AssignCount(roles, tenant, u)).created.assignments
         == AssignCount(roles, tenant, b).created.assignments
      && (u.tenantId == tenant && Internal(RoleName(roles, u.roleId)) ==>
           Repair(roles, tenant, preferRh, now, b) == Repair(roles, tenant, preferRh, now, u))
  {
    var b := BootBackfill(u);
    if Orphan(tenant, u) {
      AppendActive([], NewAssignment(roles, u, u.agencyId, now));
      assert [] + [NewAssignment(roles, u, u.agencyId, now)] == [NewAssignment(roles, u, u.agencyId, now)];
    }
  }

  // ----- The script -----

  lemma PlusSteps(a: Counts, b: Counts, c: Counts)
    ensures a.Plus(b.Plus(c)) == a.Plus(b).Plus(c)
    ensures a.Plus(ZERO) == a
  {
  }

  /** The table and the counts of a phase whose loop has done `i` rows. */
  ghost function Partway(roles: seq<Role>, o: RunOptions, phase: Phase, users: seq<User>, i: nat): (seq<User>, Counts)
    requires i <= |users|
  {
    (WriteAll(roles, o, phase, users[..i]) + users[i..], CountAll(roles, o, phase, users[..i]))
  }

  lemma PartwayEnds(roles: seq<Role>, o: RunOptions, phase: Phase, users: seq<User>)
    ensures var (now, counts) := Partway(roles, o, phase, users, 0); now == users && counts == ZERO
    ensures var (now, counts) := Partway(roles, o, phase, users, |users|);
      now == WriteAll(roles, o, phase, users) && counts == CountAll(roles, o, phase, users)
  {
    assert users[..|users|] == users && users[..0] == [];
    assert WriteAll(roles, o, phase, []) + users[0..] == users;
    assert WriteAll(roles, o, phase, users) + users[|users|..] == WriteAll(roles, o, phase, users);
  }

  lemma PartwayStep(roles: seq<Role>, o: RunOptions, phase: Phase, users: seq<User>, i: nat, c: Counts)
    requires i < |users|
    ensures var (now, counts), (next, more) :=
      Partway(roles, o, phase, users, i), Partway(roles, o, phase, users, i + 1);
      && |now| == |users| && now[i] == users[i]
      && next == now[i := Write(roles, o, phase, users[i])]
      && c.Plus(more) == c.Plus(counts).Plus(Count(roles, o, phase, users[i]))
  {
    hide Write, Count, Counts.Plus;
    assert users[..i + 1][..i] == users[..i];
    PlusSteps(c, CountAll(roles, o, phase, users[..i]), Count(roles, o, phase, users[i]));
  }

  class Report {
    var tenantsScanned: nat
    var counts: Counts

    constructor ()
      ensures tenantsScanned == 0 && counts == ZERO
    {
      tenantsScanned, counts := 0, ZERO;
    }
  }

  class StaffDb {
    const roles: seq<Role>
    const users: array<User>

    constructor (roles: seq<Role>, users: array<User>)
      ensures this.roles == roles && this.users == users
    {
      this.roles, this.users := roles, users;
    }

    /** The body of the phase 1 loop: a STAFF user without a staff row. */
    method ProvisionOne(o: RunOptions, user: User) returns (user': User, count: Counts)
      requires Orphan(o.tenant, user)
      ensures user' == Write(roles, o, PROVISION, user) && count == Count(roles, o, PROVISION, user)
    {
      user' := user;
      var roleName := RoleName(roles, user.roleId);
      if roleName == "" {
        return user, NO_TARGET_ROLE;
      }
      if roleName in EXTERNAL_ROLES {
        return user, EXTERNAL_ROLE;
      }
      if o.apply {
        var assignment := Assignment(roleName, user.agencyId, "ACTIVE", o.now);
        user' := user.(staff := Some(Staff(o.tenant, user.agencyId, "ACTIVE", [assignment])));
      }
      count := STAFF_CREATED;
    }

    /** The body of the phase 2 loop: a staff row without an ACTIVE assignment. */
    method AssignOne(o: RunOptions, user: User) returns (user': User, count: Counts)
      requires Bare(o.tenant, user)
      ensures user' == Write(roles, o, ASSIGN, user) && count == Count(roles, o, ASSIGN, user)
    {
      user' := user;
      var roleName := RoleName(roles, user.roleId);
      if roleName == "" {
        return user, NO_TARGET_ROLE;
      }
      if roleName in EXTERNAL_ROLES {
        return user, EXTERNAL_ROLE;
      }
      if o.apply {
        var staff := user.staff.value;
        var assignment := Assignment(roleName, staff.agencyId, "ACTIVE", o.now);
        user' := user.(staff := Some(staff.(assignments := staff.assignments + [assignment])));
      }
      count := ASSIGNMENT_CREATED;
    }

    /** The body of the phase 3 loop: an ACTIVE staff row whose two roles may differ. */
    method RealignOne(o: RunOptions, user: User) returns (user': User, count: Counts)
      requires ActiveStaff(o.tenant, user)
      ensures user' == Write(roles, o, REALIGN, user) && count == Count(roles, o, REALIGN, user)
    {
      user', count := user, ZERO;
      var p := Primary(user.staff.value.assignments);
      if p < 0 {
        return;
      }
      var primary := user.staff.value.assignments[p];
      var roleName := RoleName(roles, user.roleId);
      if roleName == "" {
        return;
      }
      if roleName in EXTERNAL_ROLES || primary.role in EXTERNAL_ROLES {
        return;
      }
      if roleName == primary.role {
        return;
      }
      if o.preferRh {
        var targetRole := FindRole(roles, o.tenant, primary.role);
        if targetRole.None? {
          return user, ROLE_NOT_FOUND;
        }
        if o.apply {
          user' := user.(roleId := targetRole);
        }
        count := RH_WON;
      } else {
        if o.apply {
          user' := WithPrimaryRole(user, roleName);
        }
        count := IAM_WON;
      }
    }

    /** A phase meets row `i`: nothing unless the phase's query selects it, else the loop body. */
    method Turn(o: RunOptions, phase: Phase, i: nat, report: Report)
      requires i < users.Length
      modifies users, report`counts
      ensures users[..] == old(users[..])[i := Write(roles, o, phase, old(users[i]))]
      ensures report.counts == old(report.counts).Plus(Count(roles, o, phase, old(users[i])))
    {
      var user, count := users[i], ZERO;
      match phase {
        case PROVISION =>
          if Orphan(o.tenant, user) {
            user, count := ProvisionOne(o, user);
          }
        case ASSIGN =>
          if Bare(o.tenant, user) {
            user, count := AssignOne(o, user);
          }
        case REALIGN =>
          if ActiveStaff(o.tenant, user) {
            user, count := RealignOne(o, user);
          }
      }
      assert user == Write(roles, o, phase, users[i]) && count == Count(roles, o, phase, users[i]);
      users[i] := user;
      report.counts := report.counts.Plus(count);
    }

    /** One phase over the table, writing and counting row by row. */
    method RunPhase(o: RunOptions, phase: Phase, report: Report)
      modifies users, report`counts
      ensures users[..] == WriteAll(roles, o, phase, old(users[..]))
      ensures report.counts == old(report.counts).Plus(CountAll(roles, o, phase, old(users[..])))
    {
      ghost var before, c := users[..], report.counts;
      PlusSteps(c, ZERO, ZERO);
      PartwayEnds(roles, o, phase, before);
      hide Partway;
      for i := 0 to users.Length
        invariant users[..] == Partway(roles, o, phase, before, i).0
        invariant report.counts == c.Plus(Partway(roles, o, phase, before, i).1)
      {
        PartwayStep(roles, o, phase, before, i, c);
        Turn(o, phase, i, report);
      }
    }

    method BackfillTenant(o: RunOptions, report: Report)
      modifies users, report`counts
      ensures users[..] == RunTables(roles, o, old(users[..]))
      ensures report.counts == old(report.counts).Plus(RunCounts(roles, o, old(users[..])))
    {
      ghost var c, users0 := report.counts, users[..];
      RunPhase(o, PROVISION, report);
      ghost var users1 := users[..];
      RunPhase(o, ASSIGN, report);
      ghost var users2 := users[..];
      RunPhase(o, REALIGN, report);
      PlusSteps(c, CountAll(roles, o, PROVISION, users0), CountAll(roles, o, ASSIGN, users1));
      PlusSteps(c, CountAll(roles, o, PROVISION, users0).Plus(CountAll(roles, o, ASSIGN, users1)),
        CountAll(roles, o, REALIGN, users2));
    }

    /** The script: one call per tenant. What it reports is what was forecast on the tables before it started. */
    method Run(tenants: seq<Id>, o: RunOptions) returns (report: Report)
      requires forall i, j :: 0 <= i < j < |tenants| ==> tenants[i] != tenants[j]
      modifies users
      ensures fresh(report) && report.tenantsScanned == |tenants|
      ensures report.counts == Forecast(roles, o, tenants, old(users[..]))
      ensures users[..] == if o.apply then RunAllTables(roles, o, tenants, old(users[..])) else old(users[..])
    {
      report := new Report();
      ghost var before := users[..];
      for i := 0 to |tenants|
        invariant fresh(report) && report.tenantsScanned == i
        invariant report.counts == Forecast(roles, o, tenants[..i], before)
        invariant users[..] == if o.apply then RunAllTables(roles, o, tenants[..i], before) else before
      {
        NextTenant(roles, o, tenants, i, before);
        BackfillTenant(o.(tenant := tenants[i]), report);
        report.tenantsScanned := report.tenantsScanned + 1;
      }
      assert tenants[..|tenants|] == tenants;
    }

    method BackfillStaffFromUsers() returns (usersScanned: nat, staffCreated: nat)
      modifies users
      ensures forall i :: 0 <= i < users.Length ==> users[i] == BootBackfill(old(users[i]))
      ensures usersScanned == Size(StaffUsers(old(users[..]), users.Length))
      ensures staffCreated == Size(Unstaffed(old(users[..]), users.Length))
    {
      usersScanned, staffCreated := 0, 0;
      ghost var before := users[..];
      hide Size, StaffUsers, Unstaffed;
      NobodyYet(before);
      for i := 0 to users.Length
        invariant forall k :: 0 <= k < i ==> users[k] == BootBackfill(before[k])
        invariant forall k :: i <= k < users.Length ==> users[k] == before[k]
        invariant usersScanned == Size(StaffUsers(before, i)) && staffCreated == Size(Unstaffed(before, i))
      {
        var user := users[i];
        StaffUsersStep(before, i);
        UnstaffedStep(before, i);
        if user.userType == "STAFF" {
          usersScanned := usersScanned + 1;
          if user.staff.None? {
            users[i] := user.(staff := Some(Staff(user.tenantId, user.agencyId, "ACTIVE", [])));
            staffCreated := staffCreated + 1;
          }
        }
      }
    }
  }
}
