// prisma/seeds/iam.seed.ts: the backfills that give every tenant an agency, every staff member an agency of their
// own tenant, and every agency a virtual cash register.
module Agencies {
  import opened Basics

  datatype Language = Fr | En

  function DefaultAgencyName(language: Language): string {
    if language.Fr? then "Agence principale" else "Main Agency"
  }

  const LEGACY_DEFAULT_AGENCY_NAMES := {"Siège", "Headquarters"}

  const PLATFORM_AGENCY_NAME := "Main"

  datatype Agency = Agency(id: Id, tenant: Id, name: string)

  datatype User = User(tenant: Id, agency: Option<Id>, isStaff: bool)

  datatype Register = Register(tenant: Id, agency: Id, isVirtual: bool)

  /** `nextId` is an id no row has yet. */
  datatype Db = Db(agencies: seq<Agency>, users: seq<User>, nextId: Id)

  /** Ids are unique and `nextId` is new. */
  ghost predicate Valid(db: Db) {
    && (forall i :: 0 <= i < |db.agencies| ==> db.agencies[i].id < db.nextId)
    && (forall i, j :: 0 <= i < j < |db.agencies| ==> db.agencies[i].id != db.agencies[j].id)
  }

  function NameFor(t: Id, language: Language): string {
    if t == PLATFORM_TENANT then PLATFORM_AGENCY_NAME else DefaultAgencyName(language)
  }

  /** findMany where tenantId: the table's rows in its order. */
  function OfTenant(agencies: seq<Agency>, t: Id): seq<Agency> {
    if agencies == [] then []
    else
      var (before, a) := (OfTenant(agencies[..|agencies| - 1], t), agencies[|agencies| - 1]);
      if a.tenant == t then before + [a] else before
  }

  function FindName(agencies: seq<Agency>, name: string): Option<Id> {
    if agencies == [] then None
    else if agencies[0].name == name then Some(agencies[0].id)
    else FindName(agencies[1..], name)
  }

  predicate HasLegacyName(t: Id, found: seq<Agency>) {
    t != PLATFORM_TENANT && |found| == 1 && found[0].name in LEGACY_DEFAULT_AGENCY_NAMES
  }

  function Rename(agencies: seq<Agency>, id: Id, name: string): seq<Agency> {
    seq(|agencies|, i requires 0 <= i < |agencies| =>
      if agencies[i].id == id then agencies[i].(name := name) else agencies[i])
  }

  predicate Unassigned(u: User, t: Id) {
    u.tenant == t && u.agency.None? && u.isStaff
  }

  /** updateMany where tenantId, agencyId null, userType STAFF. */
  function Assign(users: seq<User>, t: Id, agency: Id): seq<User> {
    seq(|users|, i requires 0 <= i < |users| =>
      if Unassigned(users[i], t) then users[i].(agency := Some(agency)) else users[i])
  }

  function CountUnassigned(users: seq<User>, t: Id): nat {
    if users == [] then 0
    else CountUnassigned(users[..|users| - 1], t) + if Unassigned(users[|users| - 1], t) then 1 else 0
  }

  /** What one turn of the tenant loop leaves. */
  function Settled(db: Db, t: Id, language: Language): Db {
    var found := OfTenant(db.agencies, t);
    var name := NameFor(t, language);
    if found == [] then
      Db(db.agencies + [Agency(db.nextId, t, name)], Assign(db.users, t, db.nextId), db.nextId + 1)
    else
      var home := match FindName(found, name) case Some(id) => id case None => found[0].id;
      Db(if HasLegacyName(t, found) then Rename(db.agencies, found[0].id, name) else db.agencies,
         Assign(db.users, t, home), db.nextId)
  }

  function SettledAll(db: Db, tenants: seq<Id>, language: Language): Db {
    if tenants == [] then db
    else Settled(SettledAll(db, tenants[..|tenants| - 1], language), tenants[|tenants| - 1], language)
  }

  datatype Report = Report(agenciesCreated: int, agenciesRenamed: int, usersAssigned: int)

  function Plus(a: Report, b: Report): Report {
    Report(a.agenciesCreated + b.agenciesCreated, a.agenciesRenamed + b.agenciesRenamed,
           a.usersAssigned + b.usersAssigned)
  }

  function Work(db: Db, t: Id): Report {
    var found := OfTenant(db.agencies, t);
    Report(if found == [] then 1 else 0, if HasLegacyName(t, found) then 1 else 0, CountUnassigned(db.users, t))
  }

  function WorkAll(db: Db, tenants: seq<Id>, language: Language): Report {
    if tenants == [] then Report(0, 0, 0)
    else
      var front := tenants[..|tenants| - 1];
      Plus(WorkAll(db, front, language), Work(SettledAll(db, front, language), tenants[|tenants| - 1]))
  }

  /** One VIRTUAL register for each agency that has none, in the order of the agencies. */
  function WithRegisters(registers: seq<Register>, agencies: seq<Agency>): seq<Register> {
    if agencies == [] then registers
    else
      var (before, a) := (WithRegisters(registers, agencies[..|agencies| - 1]), agencies[|agencies| - 1]);
      if HasVirtual(before, a) then before else before + [Register(a.tenant, a.id, true)]
  }

  predicate HasVirtual(registers: seq<Register>, a: Agency) {
    exists i :: 0 <= i < |registers| && registers[i] == Register(a.tenant, a.id, true)
  }

  class AgencyDb {
    var agencies: seq<Agency>
    var users: seq<User>
    var registers: seq<Register>
    var nextId: Id

    ghost function Value(): Db
      reads this
    {
      Db(agencies, users, nextId)
    }

    method BackfillTenant(t: Id, language: Language) returns (work: Report)
      modifies this`agencies, this`users, this`nextId
      ensures Value() == Settled(old(Value()), t, language) && work == Work(old(Value()), t)
    {
      var name := NameFor(t, language);
      var found := OfTenant(agencies, t);
      work := Report(0, 0, 0);
      if t != PLATFORM_TENANT && |found| == 1 && found[0].name in LEGACY_DEFAULT_AGENCY_NAMES {
        agencies := Rename(agencies, found[0].id, name);
        work := work.(agenciesRenamed := 1);
      }
      var home;
      if |found| == 0 {
        agencies := agencies + [Agency(nextId, t, name)];
        work := work.(agenciesCreated := 1);
        home := nextId;
        nextId := nextId + 1;
      } else {
        home := match FindName(found, name) case Some(id) => id case None => found[0].id;
      }
      work := work.(usersAssigned := CountUnassigned(users, t));
      users := Assign(users, t, home);
    }

    method BackfillDefaultAgencies(tenants: seq<Id>, language: Language) returns (scanned: nat, work: Report)
      modifies this`agencies, this`users, this`nextId
      ensures Value() == SettledAll(old(Value()), tenants, language)
      ensures scanned == |tenants| && work == WorkAll(old(Value()), tenants, language)
    {
      work := Report(0, 0, 0);
      for i := 0 to |tenants|
        invariant Value() == SettledAll(old(Value()), tenants[..i], language)
        invariant work == WorkAll(old(Value()), tenants[..i], language)
      {
        assert tenants[..i + 1][..i] == tenants[..i];
        var one := BackfillTenant(tenants[i], language);
        work := Plus(work, one);
      }
      assert tenants[..|tenants|] == tenants;
      scanned := |tenants|;
    }

    method BackfillVirtualRegisters() returns (scanned: nat, created: int)
      modifies this`registers
      ensures registers == WithRegisters(old(registers), agencies)
      ensures scanned == |agencies| && created == |registers| - |old(registers)|
    {
      created := 0;
      for i := 0 to |agencies|
        invariant registers == WithRegisters(old(registers), agencies[..i])
        invariant created == |registers| - |old(registers)|
      {
        assert agencies[..i + 1][..i] == agencies[..i];
        if !HasVirtual(registers, agencies[i]) {
          registers := registers + [Register(agencies[i].tenant, agencies[i].id, true)];
          created := created + 1;
        }
      }
      assert agencies[..|agencies|] == agencies;
      scanned := |agencies|;
    }
  }

  // ----- Lists of agencies -----

  lemma {:induction false} OfTenantMeans(agencies: seq<Agency>, t: Id)
    ensures forall a :: a in OfTenant(agencies, t) <==> a in agencies && a.tenant == t
  {
    if agencies != [] {
      OfTenantMeans(agencies[..|agencies| - 1], t);
      assert agencies == agencies[..|agencies| - 1] + [agencies[|agencies| - 1]];
    }
  }

  lemma OfTenantAppend(agencies: seq<Agency>, a: Agency, t: Id)
    ensures OfTenant(agencies + [a], t) == OfTenant(agencies, t) + if a.tenant == t then [a] else []
  {
    assert (agencies + [a])[..|agencies|] == agencies;
  }

  lemma {:induction false} OfTenantRenamed(agencies: seq<Agency>, id: Id, name: string, t: Id)
    ensures OfTenant(Rename(agencies, id, name), t) == Rename(OfTenant(agencies, t), id, name)
  {
    if agencies != [] {
      var (front, last) := (agencies[..|agencies| - 1], agencies[|agencies| - 1]);
      OfTenantRenamed(front, id, name, t);
      assert Rename(agencies, id, name)[..|agencies| - 1] == Rename(front, id, name);
      assert agencies == front + [last];
      var found := OfTenant(front, t);
      assert Rename(found + [last], id, name) == Rename(found, id, name) + Rename([last], id, name);
    }
  }

  lemma RenameAbsent(agencies: seq<Agency>, id: Id, name: string)
    requires forall a :: a in agencies ==> a.id != id
    ensures Rename(agencies, id, name) == agencies
  {
  }

  /** A tenant's turn leaves the other tenants' agencies alone and settles its own. */
  lemma AgenciesAfter(db: Db, t: Id, language: Language, other: Id)
    requires Valid(db)
    ensures var found := OfTenant(db.agencies, t);
      OfTenant(Settled(db, t, language).agencies, other)
      == if other != t then OfTenant(db.agencies, other)
         else if found == [] then [Agency(db.nextId, t, NameFor(t, language))]
         else if HasLegacyName(t, found) then [found[0].(name := NameFor(t, language))]
         else found
  {
    hide Assign, FindName, OfTenant, NameFor;
    var found := OfTenant(db.agencies, t);
    OfTenantMeans(db.agencies, t);
    if found == [] {
      OfTenantAppend(db.agencies, Agency(db.nextId, t, NameFor(t, language)), other);
    } else if HasLegacyName(t, found) {
      OfTenantRenamed(db.agencies, found[0].id, NameFor(t, language), other);
      if other != t {
        OfTenantMeans(db.agencies, other);
        assert found[0] in db.agencies;
        RenameAbsent(OfTenant(db.agencies, other), found[0].id, NameFor(t, language));
      }
    }
  }

  lemma SettledValid(db: Db, t: Id, language: Language)
    requires Valid(db)
    ensures Valid(Settled(db, t, language))
  {
    hide Assign, FindName, OfTenant, NameFor;
  }

  // ----- Nothing left to do -----

  ghost predicate Quiet(db: Db, t: Id) {
    && OfTenant(db.agencies, t) != []
    && !HasLegacyName(t, OfTenant(db.agencies, t))
    && forall i :: 0 <= i < |db.users| ==> !Unassigned(db.users[i], t)
  }

  lemma NewNamesAreNotLegacy(language: Language)
    ensures DefaultAgencyName(language) !in LEGACY_DEFAULT_AGENCY_NAMES
  {
    assert DefaultAgencyName(language)[0] in {'A', 'M'};
    assert "Siège"[0] == 'S' && "Headquarters"[0] == 'H';
  }

  lemma TurnQuiets(db: Db, t: Id, language: Language)
    requires Valid(db)
    ensures Quiet(Settled(db, t, language), t)
  {
    hide OfTenant, FindName;
    AgenciesAfter(db, t, language, t);
    NewNamesAreNotLegacy(language);
  }

  lemma TurnKeepsQuiet(db: Db, t: Id, language: Language, other: Id)
    requires Valid(db) && Quiet(db, other)
    ensures Quiet(Settled(db, t, language), other)
  {
    hide OfTenant, FindName;
    if other == t {
      TurnQuiets(db, t, language);
    } else {
      AgenciesAfter(db, t, language, other);
    }
  }

  lemma {:induction false} CountNone(users: seq<User>, t: Id)
    requires forall i :: 0 <= i < |users| ==> !Unassigned(users[i], t)
    ensures CountUnassigned(users, t) == 0
  {
    if users != [] {
      CountNone(users[..|users| - 1], t);
    }
  }

  lemma QuietTurn(db: Db, t: Id, language: Language)
    requires Quiet(db, t)
    ensures Settled(db, t, language) == db && Work(db, t) == Report(0, 0, 0)
  {
    hide OfTenant, FindName;
    CountNone(db.users, t);
    forall id ensures Assign(db.users, t, id) == db.users {
    }
  }

  lemma {:induction false} PassValid(db: Db, tenants: seq<Id>, language: Language)
    requires Valid(db)
    ensures Valid(SettledAll(db, tenants, language))
  {
    hide Valid, Settled;
    if tenants != [] {
      PassValid(db, tenants[..|tenants| - 1], language);
      SettledValid(SettledAll(db, tenants[..|tenants| - 1], language), tenants[|tenants| - 1], language);
    }
  }

  lemma {:induction false} PassQuiets(db: Db, tenants: seq<Id>, language: Language, t: Id)
    requires Valid(db) && t in tenants
    ensures Quiet(SettledAll(db, tenants, language), t)
  {
    hide Valid, Settled, Quiet;
    var (front, last) := (tenants[..|tenants| - 1], tenants[|tenants| - 1]);
    assert tenants == front + [last];
    PassValid(db, front, language);
    if last == t {
      TurnQuiets(SettledAll(db, front, language), t, language);
    } else {
      PassQuiets(db, front, language, t);
      TurnKeepsQuiet(SettledAll(db, front, language), last, language, t);
    }
  }

  lemma {:induction false} QuietPass(db: Db, tenants: seq<Id>, language: Language)
    requires forall t :: t in tenants ==> Quiet(db, t)
    ensures SettledAll(db, tenants, language) == db && WorkAll(db, tenants, language) == Report(0, 0, 0)
  {
    hide Settled, Quiet, Work;
    if tenants != [] {
      var (front, last) := (tenants[..|tenants| - 1], tenants[|tenants| - 1]);
      assert tenants == front + [last];
      QuietPass(db, front, language);
      QuietTurn(db, last, language);
    }
  }

  // ----- Where the users end up -----

  /** The agency is one of the tenant's. */
  ghost predicate Owns(agencies: seq<Agency>, t: Id, id: Id) {
    exists i :: 0 <= i < |agencies| && agencies[i].id == id && agencies[i].tenant == t
  }

  /** A user keeps what they had, or gets an agency of their own tenant if they were unassigned staff. */
  ghost predicate Moved(before: User, after: User, agencies: seq<Agency>, tenants: seq<Id>) {
    if before.isStaff && before.agency.None? && before.tenant in tenants then
      after.agency.Some? && Owns(agencies, before.tenant, after.agency.value)
      && after == before.(agency := after.agency)
    else after == before
  }

  lemma {:induction false} FindNameFinds(agencies: seq<Agency>, name: string)
    ensures FindName(agencies, name).Some? ==> exists a :: a in agencies && a.id == FindName(agencies, name).value
  {
    if agencies != [] && agencies[0].name != name {
      FindNameFinds(agencies[1..], name);
      assert forall a :: a in agencies[1..] ==> a in agencies;
    }
  }

  function Home(db: Db, t: Id, language: Language): Id {
    var found := OfTenant(db.agencies, t);
    if found == [] then db.nextId
    else match FindName(found, NameFor(t, language)) case Some(id) => id case None => found[0].id
  }

  lemma {:induction false} FindNameByName(agencies: seq<Agency>, name: string)
    ensures var r := FindName(agencies, name);
      if r.Some? then exists a :: a in agencies && a.id == r.value && a.name == name
      else forall a :: a in agencies ==> a.name != name
  {
    if agencies != [] && agencies[0].name != name {
      FindNameByName(agencies[1..], name);
      assert agencies == [agencies[0]] + agencies[1..];
    }
  }

  /** Unassigned staff go to an agency of theirs with the default name if there is one when the turn ends. */
  lemma StaffGoHome(db: Db, t: Id, language: Language, i: nat)
    requires Valid(db) && i < |db.users| && Unassigned(db.users[i], t)
    ensures var after := Settled(db, t, language);
      && |after.users| == |db.users| && after.users[i].agency.Some?
      && ((exists a :: a in OfTenant(after.agencies, t) && a.name == NameFor(t, language)) ==>
          exists a :: a in OfTenant(after.agencies, t) && a.name == NameFor(t, language)
                      && after.users[i].agency == Some(a.id))
  {
    hide FindName, OfTenant, NameFor;
    var found := OfTenant(db.agencies, t);
    var after := Settled(db, t, language);
    AgenciesAfter(db, t, language, t);
    FindNameByName(found, NameFor(t, language));
    if found == [] {
      assert OfTenant(after.agencies, t)[0] in OfTenant(after.agencies, t);
    } else if HasLegacyName(t, found) {
      assert OfTenant(after.agencies, t)[0] in OfTenant(after.agencies, t);
    }
  }

  lemma TurnOwns(db: Db, t: Id, language: Language, other: Id, id: Id)
    requires Owns(db.agencies, other, id) || (other == t && id == Home(db, t, language))
    ensures Owns(Settled(db, t, language).agencies, other, id)
  {
    hide OfTenant, FindName, Assign, NameFor, LEGACY_DEFAULT_AGENCY_NAMES;
    var after := Settled(db, t, language).agencies;
    var found := OfTenant(db.agencies, t);
    OfTenantMeans(db.agencies, t);
    FindNameFinds(found, NameFor(t, language));
    if found == [] && other == t && id == db.nextId {
      assert after[|db.agencies|].id == id;
    } else {
      assert Owns(db.agencies, other, id);
      var i :| 0 <= i < |db.agencies| && db.agencies[i].id == id && db.agencies[i].tenant == other;
      assert after[i].id == id && after[i].tenant == other;
    }
  }

  /**
   * Every staff member of the tenants gone through who had no agency now belongs to one of their own tenant's, and
   * nobody else is touched.
   */
  lemma {:induction false} UsersAfter(db: Db, tenants: seq<Id>, language: Language, i: nat)
    requires i < |db.users|
    ensures |SettledAll(db, tenants, language).users| == |db.users|
    ensures Moved(db.users[i], SettledAll(db, tenants, language).users[i],
                  SettledAll(db, tenants, language).agencies, tenants)
  {
    hide OfTenant, FindName, NameFor, Owns, LEGACY_DEFAULT_AGENCY_NAMES;
    if tenants != [] {
      var (front, t) := (tenants[..|tenants| - 1], tenants[|tenants| - 1]);
      assert tenants == front + [t];
      UsersAfter(db, front, language, i);
      var mid := SettledAll(db, front, language);
      assert Settled(mid, t, language).users == Assign(mid.users, t, Home(mid, t, language));
      TurnOwns(mid, t, language, t, Home(mid, t, language));
      if mid.users[i].agency.Some? {
        if Owns(mid.agencies, mid.users[i].tenant, mid.users[i].agency.value) {
          TurnOwns(mid, t, language, mid.users[i].tenant, mid.users[i].agency.value);
        }
      }
    }
  }

  // ----- The counters -----

  predicate Homeless(u: User) {
    u.isStaff && u.agency.None?
  }

  ghost function CountHomeless(users: seq<User>): nat {
    if users == [] then 0 else CountHomeless(users[..|users| - 1]) + if Homeless(users[|users| - 1]) then 1 else 0
  }

  lemma {:induction false} AssignHouses(users: seq<User>, t: Id, agency: Id)
    ensures CountHomeless(Assign(users, t, agency)) == CountHomeless(users) - CountUnassigned(users, t)
  {
    if users != [] {
      var front := users[..|users| - 1];
      AssignHouses(front, t, agency);
      assert Assign(users, t, agency)[..|users| - 1] == Assign(front, t, agency);
    }
  }

  /** Agencies created are the growth of the table; users assigned are the staff who no longer lack an agency. */
  lemma {:induction false} CountersAreChanges(db: Db, tenants: seq<Id>, language: Language)
    ensures var (after, work) := (SettledAll(db, tenants, language), WorkAll(db, tenants, language));
      && work.agenciesCreated == |after.agencies| - |db.agencies|
      && work.usersAssigned == CountHomeless(db.users) - CountHomeless(after.users)
  {
    hide OfTenant, FindName, NameFor, Assign, CountHomeless, CountUnassigned, LEGACY_DEFAULT_AGENCY_NAMES;
    if tenants != [] {
      var (front, t) := (tenants[..|tenants| - 1], tenants[|tenants| - 1]);
      CountersAreChanges(db, front, language);
      var mid := SettledAll(db, front, language);
      assert Settled(mid, t, language).users == Assign(mid.users, t, Home(mid, t, language));
      AssignHouses(mid.users, t, Home(mid, t, language));
    }
  }

  // ----- Virtual registers -----

  ghost function VirtualCount(registers: seq<Register>, t: Id, agency: Id): nat {
    if registers == [] then 0
    else
      VirtualCount(registers[..|registers| - 1], t, agency)
      + if registers[|registers| - 1] == Register(t, agency, true) then 1 else 0
  }

  lemma {:induction false} HasVirtualCounts(registers: seq<Register>, a: Agency)
    ensures HasVirtual(registers, a) <==> VirtualCount(registers, a.tenant, a.id) > 0
  {
    if registers != [] {
      var (front, last) := (registers[..|registers| - 1], registers[|registers| - 1]);
      HasVirtualCounts(front, a);
      if HasVirtual(front, a) {
        var i :| 0 <= i < |front| && front[i] == Register(a.tenant, a.id, true);
        assert registers[i] == Register(a.tenant, a.id, true);
      } else if HasVirtual(registers, a) {
        var i :| 0 <= i < |registers| && registers[i] == Register(a.tenant, a.id, true);
        assert i < |front| ==> front[i] == Register(a.tenant, a.id, true);
      }
    }
  }

  /** Each listed agency ends with one virtual register, or as many as it had; nothing else gains any. */
  lemma {:induction false} RegistersAfter(registers: seq<Register>, agencies: seq<Agency>, t: Id, agency: Id)
    ensures var before := VirtualCount(registers, t, agency);
      VirtualCount(WithRegisters(registers, agencies), t, agency)
      == if Owns(agencies, t, agency) && before == 0 then 1 else before
  {
    if agencies != [] {
      var (front, a) := (agencies[..|agencies| - 1], agencies[|agencies| - 1]);
      RegistersAfter(registers, front, t, agency);
      var mid := WithRegisters(registers, front);
      HasVirtualCounts(mid, a);
      OwnsFront(agencies, t, agency);
      assert (mid + [Register(a.tenant, a.id, true)])[..|mid|] == mid;
    }
  }

  lemma OwnsFront(agencies: seq<Agency>, t: Id, id: Id)
    requires agencies != []
    ensures var last := agencies[|agencies| - 1];
      Owns(agencies, t, id) <==> Owns(agencies[..|agencies| - 1], t, id) || (last.id == id && last.tenant == t)
  {
    var front := agencies[..|agencies| - 1];
    if Owns(agencies, t, id) {
      var i :| 0 <= i < |agencies| && agencies[i].id == id && agencies[i].tenant == t;
      assert i < |front| ==> front[i] == agencies[i];
    }
    if Owns(front, t, id) {
      var i :| 0 <= i < |front| && front[i].id == id && front[i].tenant == t;
      assert agencies[i] == front[i];
    }
  }

  lemma {:induction false} NoRegisterMissing(registers: seq<Register>, agencies: seq<Agency>)
    requires forall i :: 0 <= i < |agencies| ==> HasVirtual(registers, agencies[i])
    ensures WithRegisters(registers, agencies) == registers
  {
    hide HasVirtual;
    if agencies != [] {
      var front := agencies[..|agencies| - 1];
      assert forall i :: 0 <= i < |front| ==> front[i] == agencies[i];
      NoRegisterMissing(registers, front);
    }
  }

  /** Repeating both backfills, in whatever language, writes nothing and reports nothing. */
  lemma RepeatingWritesNothing(
      db: Db, registers: seq<Register>, tenants: seq<Id>, later: seq<Id>, was: Language, now: Language)
    requires Valid(db) && forall t :: t in later ==> t in tenants
    ensures var once := SettledAll(db, tenants, was);
      && SettledAll(once, later, now) == once
      && WorkAll(once, later, now) == Report(0, 0, 0)
      && WithRegisters(WithRegisters(registers, once.agencies), once.agencies)
         == WithRegisters(registers, once.agencies)
  {
    hide Settled, Quiet, Work, HasVirtual;
    var once := SettledAll(db, tenants, was);
    forall t | t in later ensures Quiet(once, t) {
      PassQuiets(db, tenants, was, t);
    }
    QuietPass(once, later, now);
    EveryAgencyHasOne(registers, once.agencies);
    NoRegisterMissing(WithRegisters(registers, once.agencies), once.agencies);
  }

  lemma EveryAgencyHasOne(registers: seq<Register>, agencies: seq<Agency>)
    ensures forall i :: 0 <= i < |agencies| ==> HasVirtual(WithRegisters(registers, agencies), agencies[i])
  {
    hide HasVirtual, WithRegisters;
    forall i | 0 <= i < |agencies| ensures HasVirtual(WithRegisters(registers, agencies), agencies[i]) {
      RegistersAfter(registers, agencies, agencies[i].tenant, agencies[i].id);
      HasVirtualCounts(WithRegisters(registers, agencies), agencies[i]);
    }
  }

  // ----- Renaming -----

  /** The default name of an agency, as onboarding gives it; the platform's never changes. */
  lemma DefaultNames(t: Id)
    ensures NameFor(t, Fr) == if t == PLATFORM_TENANT then "Main" else "Agence principale"
    ensures NameFor(t, En) == if t == PLATFORM_TENANT then "Main" else "Main Agency"
  {
  }

  /** The tenant's one agency still has a name of the days before. */
  predicate LoneLegacy(db: Db, t: Id) {
    var found := OfTenant(db.agencies, t);
    t != PLATFORM_TENANT && |found| == 1 && (found[0].name == "Siège" || found[0].name == "Headquarters")
  }

  /** A lone agency with a legacy name gets the default name and is counted once; no other agency changes its name. */
  lemma LoneLegacyRenamed(db: Db, t: Id, language: Language)
    requires Valid(db)
    ensures Work(db, t).agenciesRenamed == if LoneLegacy(db, t) then 1 else 0
    ensures var after := Settled(db, t, language).agencies;
      && |after| >= |db.agencies|
      && forall i :: 0 <= i < |db.agencies| ==>
           after[i] == if LoneLegacy(db, t) && db.agencies[i].tenant == t
                       then db.agencies[i].(name := DefaultAgencyName(language)) else db.agencies[i]
  {
    hide FindName, Assign, DefaultAgencyName, OfTenant;
    var found := OfTenant(db.agencies, t);
    OfTenantMeans(db.agencies, t);
    if LoneLegacy(db, t) {
      assert found[0] in found;
      forall i | 0 <= i < |db.agencies| ensures db.agencies[i].id == found[0].id <==> db.agencies[i].tenant == t {
        assert db.agencies[i].tenant == t ==> db.agencies[i] in found;
        assert found[0] in db.agencies;
      }
    }
  }

  /** How many of the first `n` agencies have another name than before. */
  ghost function CountRenamed(before: seq<Agency>, after: seq<Agency>, n: nat): nat
    requires n <= |before| && n <= |after|
  {
    if n == 0 then 0 else CountRenamed(before, after, n - 1) + if after[n - 1].name != before[n - 1].name then 1 else 0
  }

  predicate IsLegacy(name: string) {
    name == "Siège" || name == "Headquarters"
  }

  /** An agency with a legacy name is one there was, and has had it all along. */
  ghost predicate LegacyIsOld(before: seq<Agency>, after: seq<Agency>) {
    && |before| <= |after|
    && forall i :: 0 <= i < |after| && IsLegacy(after[i].name) ==> i < |before| && after[i].name == before[i].name
  }

  lemma {:induction false} SameRenamed(before: seq<Agency>, mid: seq<Agency>, after: seq<Agency>, n: nat)
    requires n <= |before| && n <= |mid| && n <= |after| && forall i :: 0 <= i < n ==> after[i].name == mid[i].name
    ensures CountRenamed(before, after, n) == CountRenamed(before, mid, n)
  {
    if n > 0 {
      SameRenamed(before, mid, after, n - 1);
    }
  }

  lemma {:induction false} NoneRenamed(agencies: seq<Agency>, n: nat)
    requires n <= |agencies|
    ensures CountRenamed(agencies, agencies, n) == 0
  {
    if n > 0 {
      NoneRenamed(agencies, n - 1);
    }
  }

  lemma {:induction false} OneMoreRenamed(before: seq<Agency>, mid: seq<Agency>, after: seq<Agency>, n: nat, i: nat)
    requires i < n && n <= |before| && n <= |mid| && n <= |after|
    requires mid[i].name == before[i].name != after[i].name
    requires forall j :: 0 <= j < n && j != i ==> after[j].name == mid[j].name
    ensures CountRenamed(before, after, n) == CountRenamed(before, mid, n) + 1
  {
    if i == n - 1 {
      SameRenamed(before, mid, after, i);
    } else {
      OneMoreRenamed(before, mid, after, n - 1, i);
    }
  }

  lemma NewNamesAreNew(t: Id, language: Language)
    ensures !IsLegacy(NameFor(t, language)) && !IsLegacy(DefaultAgencyName(language))
  {
    NewNamesAreNotLegacy(language);
    assert "Main"[0] == 'M' && "Siège"[0] == 'S' && "Headquarters"[0] == 'H';
  }

  lemma NewestAgency(db: Db, t: Id, language: Language)
    ensures var after := Settled(db, t, language).agencies;
      && |db.agencies| <= |after| <= |db.agencies| + 1
      && (|after| > |db.agencies| ==> after[|db.agencies|].name == NameFor(t, language))
  {
    hide OfTenant, FindName, NameFor;
  }

  /** What a turn makes of the names, agency by agency. */
  ghost predicate NamesAfter(db: Db, t: Id, language: Language, after: seq<Agency>) {
    && |db.agencies| <= |after| <= |db.agencies| + 1
    && (|after| > |db.agencies| ==> !IsLegacy(after[|db.agencies|].name))
    && forall i :: 0 <= i < |db.agencies| ==>
         after[i].name == if LoneLegacy(db, t) && db.agencies[i].tenant == t
                          then DefaultAgencyName(language) else db.agencies[i].name
  }

  lemma TurnNames(db: Db, t: Id, language: Language)
    requires Valid(db)
    ensures NamesAfter(db, t, language, Settled(db, t, language).agencies)
  {
    hide Settled, Work, LoneLegacy, NameFor, DefaultAgencyName, IsLegacy, Valid;
    LoneLegacyRenamed(db, t, language);
    NewNamesAreNew(t, language);
    NewestAgency(db, t, language);
  }

  lemma LegacyStaysOld(before: seq<Agency>, db: Db, t: Id, language: Language, after: seq<Agency>)
    requires LegacyIsOld(before, db.agencies) && NamesAfter(db, t, language, after)
    ensures LegacyIsOld(before, after)
  {
    hide LoneLegacy, DefaultAgencyName, IsLegacy;
    NewNamesAreNew(t, language);
  }

  lemma NamesCounted(before: seq<Agency>, db: Db, t: Id, language: Language, after: seq<Agency>)
    requires Valid(db) && LegacyIsOld(before, db.agencies) && NamesAfter(db, t, language, after)
    ensures |before| <= |db.agencies| && |before| <= |after|
    ensures CountRenamed(before, after, |before|)
         == CountRenamed(before, db.agencies, |before|) + if LoneLegacy(db, t) then 1 else 0
  {
    hide LoneLegacy, DefaultAgencyName, IsLegacy, Valid, CountRenamed;
    NewNamesAreNew(t, language);
    if LoneLegacy(db, t) {
      var i := LoneLegacyAt(db, t);
      OneMoreRenamed(before, db.agencies, after, |before|, i);
    } else {
      SameRenamed(before, db.agencies, after, |before|);
    }
  }

  lemma TurnRenames(before: seq<Agency>, db: Db, t: Id, language: Language)
    requires Valid(db) && LegacyIsOld(before, db.agencies)
    ensures var after := Settled(db, t, language).agencies;
      && |before| <= |db.agencies| && LegacyIsOld(before, after)
      && CountRenamed(before, after, |before|)
         == CountRenamed(before, db.agencies, |before|) + Work(db, t).agenciesRenamed
  {
    hide Settled, Work, LoneLegacy, NamesAfter, Valid, LegacyIsOld, CountRenamed;
    var after := Settled(db, t, language).agencies;
    TurnNames(db, t, language);
    LegacyStaysOld(before, db, t, language, after);
    LegacyIsLonger(before, after);
    NamesCounted(before, db, t, language, after);
    LoneLegacyRenamed(db, t, language);
  }

  lemma LoneLegacyAt(db: Db, t: Id) returns (i: nat)
    requires LoneLegacy(db, t)
    ensures i < |db.agencies| && db.agencies[i].tenant == t && IsLegacy(db.agencies[i].name)
    ensures Valid(db) ==> forall j :: 0 <= j < |db.agencies| && db.agencies[j].tenant == t ==> j == i
  {
    hide OfTenant;
    var found := OfTenant(db.agencies, t);
    OfTenantMeans(db.agencies, t);
    assert found[0] in found;
    i :| 0 <= i < |db.agencies| && db.agencies[i] == found[0];
    forall j | 0 <= j < |db.agencies| && db.agencies[j].tenant == t ensures db.agencies[j] == found[0] {
      assert db.agencies[j] in found;
    }
  }

  /** The agencies counted as renamed are those that end with another name than they had. */
  lemma {:induction false} RenamedAreCounted(db: Db, tenants: seq<Id>, language: Language)
    requires Valid(db)
    ensures LegacyIsOld(db.agencies, SettledAll(db, tenants, language).agencies)
    ensures WorkAll(db, tenants, language).agenciesRenamed
         == CountRenamed(db.agencies, SettledAll(db, tenants, language).agencies, |db.agencies|)
  {
    hide Settled, Work, Valid, IsLegacy, LegacyIsOld;
    if tenants == [] {
      NoneRenamed(db.agencies, |db.agencies|);
      assert LegacyIsOld(db.agencies, db.agencies) by {
        LegacyAtFirst(db.agencies);
      }
    } else {
      var (front, t) := (tenants[..|tenants| - 1], tenants[|tenants| - 1]);
      RenamedAreCounted(db, front, language);
      PassValid(db, front, language);
      assert |db.agencies| <= |SettledAll(db, front, language).agencies| by {
        LegacyIsLonger(db.agencies, SettledAll(db, front, language).agencies);
      }
      TurnRenames(db.agencies, SettledAll(db, front, language), t, language);
      LegacyIsLonger(db.agencies, SettledAll(db, tenants, language).agencies);
    }
  }

  lemma LegacyAtFirst(agencies: seq<Agency>)
    ensures LegacyIsOld(agencies, agencies)
  {
  }

  lemma LegacyIsLonger(before: seq<Agency>, after: seq<Agency>)
    requires LegacyIsOld(before, after)
    ensures |before| <= |after|
  {
  }

  // ----- Registers are only added -----

  /** The registers there were stay, and each one added is a virtual one of a listed agency. */
  lemma {:induction false} RegistersAdded(registers: seq<Register>, agencies: seq<Agency>)
    ensures registers <= WithRegisters(registers, agencies)
    ensures forall r :: r in WithRegisters(registers, agencies)[|registers|..] ==>
      r.isVirtual && Owns(agencies, r.tenant, r.agency)
  {
    hide HasVirtual, Owns;
    if agencies != [] {
      var (front, a) := (agencies[..|agencies| - 1], agencies[|agencies| - 1]);
      RegistersAdded(registers, front);
      forall r: Register | Owns(front, r.tenant, r.agency) || (r.tenant == a.tenant && r.agency == a.id)
        ensures Owns(agencies, r.tenant, r.agency)
      {
        OwnsFront(agencies, r.tenant, r.agency);
      }
      var before := WithRegisters(registers, front);
      var r := Register(a.tenant, a.id, true);
      assert (before + [r])[|registers|..] == before[|registers|..] + [r];
    }
  }
}
