// prisma/seeds/crm-customer.backfill.ts: the loop that gives each CUSTOMER user of a tenant a CRM customer row, the
// links from tickets and parcels to those rows, and the counters of the rows.
// A row's place in the table stands for its id; the table is in whatever order the queries see it.
module CrmBackfill {
  import opened Basics

  /** `link` is the user id, unique in the table; phone and email are unique too, deleted rows included. */
  datatype Customer = Customer(link: Option<Id>, phone: Option<string>, email: Option<string>, deleted: bool)

  /** Every user has an email; `phone` is theirs after normalisation, None if there is none or it does not normalise. */
  datatype User = User(id: Id, phone: Option<string>, email: string)

  /** Neither null nor empty, as the source tests it. */
  predicate Given(k: Option<string>) {
    k.Some? && k.value != ""
  }

  predicate HasPhone(c: Customer, phone: Option<string>) {
    !c.deleted && Given(phone) && c.phone == phone
  }

  predicate HasEmail(c: Customer, email: Option<string>) {
    !c.deleted && Given(email) && c.email == email
  }

  /** A live row with the user's phone or email. */
  predicate Carries(c: Customer, u: User) {
    HasPhone(c, u.phone) || HasEmail(c, Some(u.email))
  }

  /** findFirst by phone. */
  function ByPhone(cs: seq<Customer>, phone: Option<string>): (r: Option<nat>)
    ensures r.Some? ==> r.value < |cs| && HasPhone(cs[r.value], phone)
    ensures r.None? ==> forall i :: 0 <= i < |cs| ==> !HasPhone(cs[i], phone)
  {
    if cs == [] then None
    else
      var before := ByPhone(cs[..|cs| - 1], phone);
      if before.Some? then before else if HasPhone(cs[|cs| - 1], phone) then Some(|cs| - 1) else None
  }

  /** findFirst by email. */
  function ByEmail(cs: seq<Customer>, email: Option<string>): (r: Option<nat>)
    ensures r.Some? ==> r.value < |cs| && HasEmail(cs[r.value], email)
    ensures r.None? ==> forall i :: 0 <= i < |cs| ==> !HasEmail(cs[i], email)
  {
    if cs == [] then None
    else
      var before := ByEmail(cs[..|cs| - 1], email);
      if before.Some? then before else if HasEmail(cs[|cs| - 1], email) then Some(|cs| - 1) else None
  }

  /** By phone first, then by email. */
  function Lookup(cs: seq<Customer>, u: User): Option<nat> {
    if ByPhone(cs, u.phone).Some? then ByPhone(cs, u.phone) else ByEmail(cs, Some(u.email))
  }

  /** The row relinked to the user, with the keys it lacked. */
  function Filled(c: Customer, u: User): Customer {
    Customer(Some(u.id), if Given(u.phone) && !Given(c.phone) then u.phone else c.phone,
             if u.email != "" && !Given(c.email) then Some(u.email) else c.email, c.deleted)
  }

  function NewRow(u: User): Customer {
    Customer(Some(u.id), u.phone, Some(u.email), false)
  }

  /** A unique constraint the row would break if it stood at place `i`. */
  predicate Clashes(cs: seq<Customer>, i: nat, c: Customer) {
    exists j :: 0 <= j < |cs| && j != i && SharesKey(cs[j], c)
  }

  predicate SharesKey(c: Customer, d: Customer) {
    || (c.link.Some? && c.link == d.link)
    || (c.phone.Some? && c.phone == d.phone)
    || (c.email.Some? && c.email == d.email)
  }

  /** The table, the counters, and whether a unique constraint has ended the run. */
  datatype Pass = Pass(cs: seq<Customer>, created: nat, linked: nat, crashed: bool)

  /** What one turn of the loop does for a user who had no customer. */
  function Turn(p: Pass, u: User): Pass {
    if p.crashed then p
    else match Lookup(p.cs, u)
      case Some(i) =>
        var c := Filled(p.cs[i], u);
        if Clashes(p.cs, i, c) then p.(crashed := true) else p.(cs := p.cs[i := c], linked := p.linked + 1)
      case None =>
        var c := NewRow(u);
        if Clashes(p.cs, |p.cs|, c) then p.(crashed := true) else p.(cs := p.cs + [c], created := p.created + 1)
  }

  /** The user had a customer when the users were read. */
  predicate Linked(cs: seq<Customer>, u: User) {
    exists i :: 0 <= i < |cs| && cs[i].link == Some(u.id)
  }

  function Run(cs: seq<Customer>, users: seq<User>): Pass {
    if users == [] then Pass(cs, 0, 0, false)
    else
      var (before, u) := (Run(cs, users[..|users| - 1]), users[|users| - 1]);
      if Linked(cs, u) then before else Turn(before, u)
  }

  class CustomerDb {
    var cs: seq<Customer>

    method LinkUser(u: User, ghost p: Pass) returns (created: nat, linked: nat, crashed: bool)
      requires !p.crashed && p.cs == cs
      modifies this
      ensures Turn(p, u) == Pass(cs, p.created + created, p.linked + linked, crashed)
    {
      created, linked, crashed := 0, 0, false;
      var existing := ByPhone(cs, u.phone);
      if existing.None? {
        existing := ByEmail(cs, Some(u.email));
      }
      match existing {
        case Some(i) =>
          var c := Filled(cs[i], u);
          if Clashes(cs, i, c) {
            crashed := true;
          } else {
            cs := cs[i := c];
            linked := 1;
          }
        case None =>
          var c := NewRow(u);
          if Clashes(cs, |cs|, c) {
            crashed := true;
          } else {
            cs := cs + [c];
            created := 1;
          }
      }
    }

    method LinkUsers(users: seq<User>) returns (created: nat, linked: nat, crashed: bool)
      modifies this
      ensures Run(old(cs), users) == Pass(cs, created, linked, crashed)
    {
      var snapshot := cs;
      created, linked, crashed := 0, 0, false;
      for i := 0 to |users|
        invariant Run(snapshot, users[..i]) == Pass(cs, created, linked, crashed)
      {
        assert users[..i + 1][..i] == users[..i];
        if !crashed && !Linked(snapshot, users[i]) {
          var c, l, x := LinkUser(users[i], Pass(cs, created, linked, false));
          created, linked, crashed := created + c, linked + l, x;
        }
      }
      assert users[..|users|] == users;
    }
  }

  // ----- Nothing is overwritten -----

  /** No row disappears, none is undeleted, and no phone or email that was given changes. */
  ghost predicate Grows(before: seq<Customer>, after: seq<Customer>) {
    |before| <= |after| && forall i :: 0 <= i < |before| ==> KeepsKeys(before[i], after[i])
  }

  predicate KeepsKeys(c: Customer, d: Customer) {
    d.deleted == c.deleted && (Given(c.phone) ==> d.phone == c.phone) && (Given(c.email) ==> d.email == c.email)
  }

  lemma TurnGrows(p: Pass, u: User)
    ensures Grows(p.cs, Turn(p, u).cs)
  {
    hide Clashes;
  }

  lemma GrowsOn(a: seq<Customer>, b: seq<Customer>, c: seq<Customer>)
    requires Grows(a, b) && Grows(b, c)
    ensures Grows(a, c)
  {
    forall i | 0 <= i < |a| ensures KeepsKeys(a[i], c[i]) {
      assert KeepsKeys(a[i], b[i]) && KeepsKeys(b[i], c[i]);
    }
  }

  lemma {:induction false} NothingOverwritten(cs: seq<Customer>, users: seq<User>)
    ensures Grows(cs, Run(cs, users).cs)
  {
    hide Turn;
    if users != [] {
      var before := Run(cs, users[..|users| - 1]);
      NothingOverwritten(cs, users[..|users| - 1]);
      TurnGrows(before, users[|users| - 1]);
      GrowsOn(cs, before.cs, Turn(before, users[|users| - 1]).cs);
    }
  }

  // ----- Which row a turn takes, and what it writes -----

  /** A key keeps its value if it was given one, else takes the user's if they have one. */
  predicate KeyAfter(was: Option<string>, mine: Option<string>, now: Option<string>) {
    now == if was.Some? && was.value != "" then was else if mine.Some? && mine.value != "" then mine else was
  }

  /** The row is the user's now, with the keys it lacked, and nothing else about it changed. */
  predicate TakenBy(was: Customer, u: User, now: Customer) {
    && now.link == Some(u.id) && now.deleted == was.deleted
    && KeyAfter(was.phone, u.phone, now.phone) && KeyAfter(was.email, Some(u.email), now.email)
  }

  ghost predicate Unique(cs: seq<Customer>) {
    forall i, j :: 0 <= i < |cs| && 0 <= j < |cs| && i != j ==> !SharesKey(cs[i], cs[j])
  }

  lemma WriteUnique(cs: seq<Customer>, i: nat, c: Customer)
    requires Unique(cs) && i <= |cs| && !Clashes(cs, i, c)
    ensures i < |cs| ==> Unique(cs[i := c])
    ensures i == |cs| ==> Unique(cs + [c])
  {
    assert forall j :: 0 <= j < |cs| && j != i ==> !SharesKey(cs[j], c);
  }

  /** The row is taken by the user, or the run ends where that would put a key on two rows. */
  ghost predicate Takes(p: Pass, u: User, i: nat, q: Pass)
    requires i < |p.cs|
  {
    exists now :: TakenBy(p.cs[i], u, now)
      && q == if Unique(p.cs[i := now]) then p.(cs := p.cs[i := now], linked := p.linked + 1) else p.(crashed := true)
  }

  lemma ClashIffShared(cs: seq<Customer>, i: nat, c: Customer)
    requires Unique(cs) && i <= |cs|
    ensures i < |cs| ==> (Clashes(cs, i, c) <==> !Unique(cs[i := c]))
    ensures i == |cs| ==> (Clashes(cs, i, c) <==> !Unique(cs + [c]))
  {
    var after := if i < |cs| then cs[i := c] else cs + [c];
    if j :| 0 <= j < |cs| && j != i && SharesKey(cs[j], c) {
      assert SharesKey(after[j], after[i]);
    } else {
      WriteUnique(cs, i, c);
    }
  }

  /** A live row with the user's phone is taken, whoever has their email. */
  lemma PhoneBeforeEmail(p: Pass, u: User, i: nat)
    requires Unique(p.cs) && !p.crashed && i < |p.cs|
    requires u.phone.Some? && u.phone.value != "" && p.cs[i].phone == u.phone && !p.cs[i].deleted
    ensures Takes(p, u, i, Turn(p, u))
  {
    assert HasPhone(p.cs[i], u.phone);
    var found := ByPhone(p.cs, u.phone);
    assert found == Some(i) by {
      assert found.Some? && (found.value == i || !SharesKey(p.cs[found.value], p.cs[i]));
    }
    TurnTakes(p, u, i);
  }

  lemma TurnTakes(p: Pass, u: User, i: nat)
    requires Unique(p.cs) && !p.crashed && i < |p.cs| && Lookup(p.cs, u) == Some(i)
    ensures Takes(p, u, i, Turn(p, u))
  {
    hide Unique, Clashes, Lookup;
    ClashIffShared(p.cs, i, Filled(p.cs[i], u));
    assert TakenBy(p.cs[i], u, Filled(p.cs[i], u));
  }

  /** Where no live row has their phone, a live row with their email is taken. */
  lemma ThenByEmail(p: Pass, u: User, i: nat)
    requires Unique(p.cs) && !p.crashed && i < |p.cs|
    requires u.phone.Some? && u.phone.value != "" ==>
      forall j :: 0 <= j < |p.cs| && !p.cs[j].deleted ==> p.cs[j].phone != u.phone
    requires u.email != "" && p.cs[i].email == Some(u.email) && !p.cs[i].deleted
    ensures Takes(p, u, i, Turn(p, u))
  {
    assert ByPhone(p.cs, u.phone).None?;
    assert HasEmail(p.cs[i], Some(u.email));
    var found := ByEmail(p.cs, Some(u.email));
    assert found == Some(i) by {
      assert found.Some? && (found.value == i || !SharesKey(p.cs[found.value], p.cs[i]));
    }
    TurnTakes(p, u, i);
  }

  /** Where no live row has either, a new one is made of what is known of the user. */
  lemma ElseNewRow(p: Pass, u: User)
    requires Unique(p.cs) && !p.crashed
    requires u.phone.Some? && u.phone.value != "" ==>
      forall j :: 0 <= j < |p.cs| && !p.cs[j].deleted ==> p.cs[j].phone != u.phone
    requires u.email != "" ==> forall j :: 0 <= j < |p.cs| && !p.cs[j].deleted ==> p.cs[j].email != Some(u.email)
    ensures var more := p.cs + [Customer(Some(u.id), u.phone, Some(u.email), false)];
      Turn(p, u) == if Unique(more) then p.(cs := more, created := p.created + 1) else p.(crashed := true)
  {
    assert ByPhone(p.cs, u.phone).None? && ByEmail(p.cs, Some(u.email)).None?;
    ClashIffShared(p.cs, |p.cs|, NewRow(u));
  }

  function CountUnlinked(cs: seq<Customer>, users: seq<User>): nat {
    if users == [] then 0
    else CountUnlinked(cs, users[..|users| - 1]) + if Linked(cs, users[|users| - 1]) then 0 else 1
  }

  /** The rows created are the growth of the table, and a completed pass serves each user who had no row once. */
  lemma {:induction false} PassCounts(cs: seq<Customer>, users: seq<User>)
    ensures var p := Run(cs, users);
      && |p.cs| == |cs| + p.created
      && (!p.crashed ==> p.created + p.linked == CountUnlinked(cs, users))
  {
    hide Linked, Clashes, Lookup;
    if users != [] {
      PassCounts(cs, users[..|users| - 1]);
      FoundInTable(Run(cs, users[..|users| - 1]).cs, users[|users| - 1]);
    }
  }

  // ----- Everyone is linked, and no key is shared -----

  /** At most one row has a given user, phone or email, before and after. */
  lemma {:induction false} RunUnique(cs: seq<Customer>, users: seq<User>)
    requires Unique(cs)
    ensures Unique(Run(cs, users).cs)
  {
    hide Unique, Clashes, Lookup, Filled;
    if users != [] {
      var (p, u) := (Run(cs, users[..|users| - 1]), users[|users| - 1]);
      RunUnique(cs, users[..|users| - 1]);
      FoundInTable(p.cs, u);
      match Lookup(p.cs, u) {
        case Some(i) =>
          if !Clashes(p.cs, i, Filled(p.cs[i], u)) {
            WriteUnique(p.cs, i, Filled(p.cs[i], u));
          }
        case None =>
          var c := NewRow(u);
          if !Clashes(p.cs, |p.cs|, c) {
            WriteUnique(p.cs, |p.cs|, c);
          }
      }
    }
  }

  lemma FoundInTable(cs: seq<Customer>, u: User)
    ensures Lookup(cs, u).Some? ==> Lookup(cs, u).value < |cs|
  {
  }

  /** A live row linked to the user that has a phone if the user has one, and an email likewise. */
  ghost predicate Served(cs: seq<Customer>, u: User) {
    exists i :: 0 <= i < |cs| && Serves(cs[i], u)
  }

  predicate Serves(c: Customer, u: User) {
    !c.deleted && c.link == Some(u.id) && (Given(u.phone) ==> Given(c.phone)) && (u.email != "" ==> Given(c.email))
  }

  lemma TurnServes(p: Pass, u: User)
    requires !Turn(p, u).crashed
    ensures Served(Turn(p, u).cs, u)
  {
    hide Clashes, ByPhone, ByEmail;
    match Lookup(p.cs, u) {
      case Some(i) => assert Serves(Turn(p, u).cs[i], u);
      case None => assert Serves(Turn(p, u).cs[|p.cs|], u);
    }
  }

  /** The last user of a completed pass is linked at the end, whoever held the row before. */
  lemma LastIsServed(cs: seq<Customer>, users: seq<User>, u: User)
    requires !Linked(cs, u) && !Run(cs, users + [u]).crashed
    ensures Served(Run(cs, users + [u]).cs, u)
  {
    hide Turn, Served;
    assert (users + [u])[..|users|] == users;
    TurnServes(Run(cs, users), u);
  }

  // ----- A second pass -----

  /** Some live row carries the user's phone or email. */
  ghost predicate Matched(cs: seq<Customer>, u: User) {
    exists i :: 0 <= i < |cs| && Carries(cs[i], u)
  }

  /** No lookup can find the row, by anyone whose email is not one of those `taken`. */
  predicate OutOfReach(c: Customer, taken: set<string>) {
    c.deleted || (!Given(c.phone) && (!Given(c.email) || c.email.value in taken))
  }

  /** The user's row can never be relinked. */
  ghost predicate Held(cs: seq<Customer>, u: User, taken: set<string>) {
    exists i :: 0 <= i < |cs| && cs[i].link == Some(u.id) && OutOfReach(cs[i], taken)
  }

  ghost predicate Safe(cs: seq<Customer>, u: User, taken: set<string>) {
    Matched(cs, u) || Held(cs, u, taken)
  }

  lemma FoundIffMatched(cs: seq<Customer>, u: User)
    ensures Lookup(cs, u).Some? <==> Matched(cs, u)
    ensures Lookup(cs, u).Some? ==> Lookup(cs, u).value < |cs| && Carries(cs[Lookup(cs, u).value], u)
  {
  }

  lemma MatchedStays(a: seq<Customer>, b: seq<Customer>, u: User)
    requires Matched(a, u) && Grows(a, b)
    ensures Matched(b, u)
  {
    var i :| 0 <= i < |a| && Carries(a[i], u);
    assert KeepsKeys(a[i], b[i]);
  }

  lemma SafeStays(p: Pass, u: User, other: User, taken: set<string>)
    requires Safe(p.cs, other, taken) && u.email !in taken
    ensures Safe(Turn(p, u).cs, other, taken)
  {
    hide Lookup, Clashes, Matched, Filled;
    FoundIffMatched(p.cs, u);
    TurnGrows(p, u);
    if Matched(p.cs, other) {
      MatchedStays(p.cs, Turn(p, u).cs, other);
    } else {
      var i :| 0 <= i < |p.cs| && p.cs[i].link == Some(other.id) && OutOfReach(p.cs[i], taken);
      assert Turn(p, u).cs[i] == p.cs[i];
    }
  }

  /** A user whose turn came is safe from then on. */
  lemma TurnMakesSafe(p: Pass, u: User, taken: set<string>)
    requires !Turn(p, u).crashed
    ensures Safe(Turn(p, u).cs, u, taken)
  {
    hide Lookup, Clashes, Matched;
    FoundIffMatched(p.cs, u);
    TurnGrows(p, u);
    if Matched(p.cs, u) {
      MatchedStays(p.cs, Turn(p, u).cs, u);
    } else {
      NewRowSafe(p.cs, u, taken);
    }
  }

  lemma NewRowSafe(cs: seq<Customer>, u: User, taken: set<string>)
    ensures Safe(cs + [NewRow(u)], u, taken)
  {
    assert (cs + [NewRow(u)])[|cs|] == NewRow(u);
  }

  /** Whoever has no customer yet does not have an email that is taken. */
  ghost predicate NewToAll(cs: seq<Customer>, users: seq<User>, taken: set<string>) {
    forall u :: u in users && !Linked(cs, u) ==> u.email !in taken
  }

  lemma {:induction false} RunMakesSafe(cs: seq<Customer>, users: seq<User>, u: User, taken: set<string>)
    requires !Run(cs, users).crashed && NewToAll(cs, users, taken)
    requires (u in users && !Linked(cs, u)) || Safe(cs, u, taken)
    ensures Safe(Run(cs, users).cs, u, taken)
  {
    hide Safe, Linked, Turn;
    if users != [] {
      var (front, last) := (users[..|users| - 1], users[|users| - 1]);
      assert users == front + [last];
      var before := Run(cs, front);
      StaysCrashed(before, last);
      if u == last && !Linked(cs, u) {
        TurnMakesSafe(before, u, taken);
      } else {
        RunMakesSafe(cs, front, u, taken);
        if !Linked(cs, last) {
          SafeStays(before, last, u, taken);
        }
      }
    }
  }

  /** A violated constraint ends the run: nobody after it is looked at. */
  lemma {:induction false} CrashEndsRun(cs: seq<Customer>, users: seq<User>, more: seq<User>)
    requires Run(cs, users).crashed
    ensures Run(cs, users + more) == Run(cs, users)
  {
    hide Linked, Lookup, Clashes;
    if more == [] {
      assert users + more == users;
    } else {
      CrashEndsRun(cs, users, more[..|more| - 1]);
      assert (users + more)[..|users + more| - 1] == users + more[..|more| - 1];
    }
  }

  lemma StaysCrashed(p: Pass, u: User)
    ensures p.crashed ==> Turn(p, u).crashed
  {
  }

  /** A run over safe users creates nothing. */
  lemma {:induction false} SafeRunCreatesNone(cs: seq<Customer>, users: seq<User>)
    requires forall u :: u in users ==> Safe(cs, u, {})
    ensures Run(cs, users).created == 0
  {
    hide Safe, Linked, Turn;
    if users != [] {
      var (front, last) := (users[..|users| - 1], users[|users| - 1]);
      assert users == front + [last];
      SafeRunCreatesNone(cs, front);
      if !Linked(cs, last) {
        UnlinkedSafeIsMatched(cs, last);
        NothingOverwritten(cs, front);
        MatchedStays(cs, Run(cs, front).cs, last);
        MatchedTurnCreatesNone(Run(cs, front), last);
      }
    }
  }

  lemma UnlinkedSafeIsMatched(cs: seq<Customer>, u: User)
    requires Safe(cs, u, {}) && !Linked(cs, u)
    ensures Matched(cs, u)
  {
  }

  lemma MatchedTurnCreatesNone(p: Pass, u: User)
    requires Matched(p.cs, u)
    ensures Turn(p, u).created == p.created
  {
    hide Lookup, Matched, Clashes;
    FoundIffMatched(p.cs, u);
  }

  /** Every live row linked to one of the users carries that user's phone or email. */
  ghost predicate LinksCarryKeys(cs: seq<Customer>, users: seq<User>) {
    forall i, u :: 0 <= i < |cs| && u in users && cs[i].link == Some(u.id) && !cs[i].deleted ==>
      Carries(cs[i], u)
  }

  /**
   * After a completed pass over a table whose links carry their users' keys, a second pass over the same users, in
   * any order, creates no customer, even where users who share a phone keep taking the row from each other.
   */
  lemma SecondPassCreatesNone(cs: seq<Customer>, users: seq<User>, later: seq<User>)
    requires LinksCarryKeys(cs, users) && !Run(cs, users).crashed
    requires forall u :: u in later ==> u in users
    ensures Run(Run(cs, users).cs, later).created == 0
  {
    hide Run;
    forall u | u in later ensures Safe(Run(cs, users).cs, u, {}) {
      if Linked(cs, u) {
        var i :| 0 <= i < |cs| && cs[i].link == Some(u.id);
        assert cs[i].deleted ==> OutOfReach(cs[i], {});
        assert Safe(cs, u, {});
      }
      RunMakesSafe(cs, users, u, {});
    }
    SafeRunCreatesNone(Run(cs, users).cs, later);
  }

  // ----- Exactly which linked users are at risk -----

  /** The user lost their row and no lookup will find another: their next turn creates one, or breaks a constraint. */
  ghost predicate NeedsNew(cs: seq<Customer>, u: User) {
    !Linked(cs, u) && !Matched(cs, u)
  }

  lemma NeedsNewGetsNew(cs: seq<Customer>, u: User)
    requires NeedsNew(cs, u)
    ensures Run(cs, [u]).created == 1 || Run(cs, [u]).crashed
  {
    hide Lookup, Matched, Clashes;
    FoundIffMatched(cs, u);
    assert [u][..0] == [];
    assert Run(cs, []) == Pass(cs, 0, 0, false);
  }

  lemma {:induction false} FreshId(cs: seq<Customer>) returns (id: Id)
    ensures forall i :: 0 <= i < |cs| && cs[i].link.Some? ==> cs[i].link.value < id
  {
    if cs == [] {
      id := 0;
    } else {
      id := FreshId(cs[..|cs| - 1]);
      var last := cs[|cs| - 1];
      if last.link.Some? && id <= last.link.value {
        id := last.link.value + 1;
      }
    }
  }

  /** The emails on the rows and of the users. */
  function EmailsOf(cs: seq<Customer>, users: seq<User>): set<string> {
    (set i | 0 <= i < |cs| && cs[i].email.Some? :: cs[i].email.value) + Emails(users)
  }

  function Emails(users: seq<User>): set<string> {
    set u | u in users :: u.email
  }

  /** An email longer than all of them. */
  lemma {:induction false} FreshEmail(emails: set<string>) returns (email: string)
    ensures forall e :: e in emails ==> |e| < |email|
    ensures email != ""
    decreases emails
  {
    if emails == {} {
      email := "@";
    } else {
      var e :| e in emails;
      email := FreshEmail(emails - {e});
      if |email| <= |e| {
        email := e + "@";
      }
      forall d | d in emails ensures |d| < |email| {
        assert d == e || d in emails - {e};
      }
    }
  }

  /** No two accounts share an id or an email. */
  ghost predicate Accounts(users: seq<User>) {
    forall i, j :: 0 <= i < j < |users| ==> users[i].id != users[j].id && users[i].email != users[j].email
  }

  /** Users who have a customer are passed over. */
  lemma {:induction false} LinkedArePassed(cs: seq<Customer>, users: seq<User>)
    requires forall u :: u in users ==> Linked(cs, u)
    ensures Run(cs, users) == Pass(cs, 0, 0, false)
  {
    hide Linked;
    if users != [] {
      assert users == users[..|users| - 1] + [users[|users| - 1]];
      LinkedArePassed(cs, users[..|users| - 1]);
    }
  }

  /** The one user who does not have a customer takes the row they find, and nothing else changes. */
  lemma OneTakes(cs: seq<Customer>, linked: seq<User>, w: User, i: nat)
    requires (forall u :: u in linked ==> Linked(cs, u)) && !Linked(cs, w)
    requires Lookup(cs, w) == Some(i) && i < |cs| && !Clashes(cs, i, Filled(cs[i], w))
    ensures !Run(cs, linked + [w]).crashed && Run(cs, linked + [w]).cs == cs[i := Filled(cs[i], w)]
  {
    hide Clashes, Lookup, Linked, Filled;
    LinkedArePassed(cs, linked);
    assert (linked + [w])[..|linked|] == linked;
  }

  /** A newcomer: the row's phone and an email nobody has, or no phone and the row's email. */
  function Newcomer(c: Customer, id: Id, email: string): User {
    if Given(c.phone) then User(id, c.phone, email) else User(id, None, if c.email.Some? then c.email.value else "")
  }

  lemma NewcomerFinds(cs: seq<Customer>, i: nat, id: Id, email: string)
    requires Unique(cs) && i < |cs| && !cs[i].deleted && (Given(cs[i].phone) || Given(cs[i].email))
    ensures Lookup(cs, Newcomer(cs[i], id, email)) == Some(i)
  {
    var w := Newcomer(cs[i], id, email);
    assert Carries(cs[i], w);
    FoundIffMatched(cs, w);
  }

  lemma NewcomerFits(cs: seq<Customer>, i: nat, id: Id, email: string)
    requires Unique(cs) && i < |cs| && !cs[i].deleted && (Given(cs[i].phone) || Given(cs[i].email))
    requires forall j :: 0 <= j < |cs| ==> cs[j].link != Some(id) && cs[j].email != Some(email)
    ensures !Clashes(cs, i, Filled(cs[i], Newcomer(cs[i], id, email)))
  {
    var c := Filled(cs[i], Newcomer(cs[i], id, email));
    forall j | 0 <= j < |cs| && j != i ensures !SharesKey(cs[j], c) {
      assert !SharesKey(cs[j], cs[i]);
    }
  }

  /** A user whose row someone else has taken, leaving it without the user's keys. */
  lemma RobbedNeedsNew(cs: seq<Customer>, i: nat, v: User, c: Customer)
    requires Unique(cs) && i < |cs| && cs[i].link == Some(v.id) && !Matched(cs, v)
    requires c.link != Some(v.id) && !Carries(c, v)
    ensures NeedsNew(cs[i := c], v)
  {
    var after := cs[i := c];
    forall j | 0 <= j < |after| ensures after[j].link != Some(v.id) && !Carries(after[j], v) {
      assert j != i ==> !SharesKey(cs[j], cs[i]) && !Carries(cs[j], v);
    }
  }

  /** Another account can sign up, with an email of its own, and take the row from a linked user who is not safe. */
  lemma UnsafeCanBeRobbed(cs: seq<Customer>, linked: seq<User>, v: User) returns (w: User)
    requires Unique(cs) && Accounts(linked) && v in linked && forall u :: u in linked ==> Linked(cs, u)
    requires !Safe(cs, v, Emails(linked))
    ensures w.email != "" && Accounts(linked + [w]) && !Linked(cs, w)
    ensures !Run(cs, linked + [w]).crashed && NeedsNew(Run(cs, linked + [w]).cs, v)
  {
    hide Run, Matched, Lookup, Clashes, Unique;
    var i :| 0 <= i < |cs| && cs[i].link == Some(v.id);
    assert !OutOfReach(cs[i], Emails(linked));
    var id := FreshId(cs);
    var email := FreshEmail(EmailsOf(cs, linked));
    w := Newcomer(cs[i], id, email);
    forall j | 0 <= j < |cs| ensures cs[j].link != Some(id) && cs[j].email != Some(email) {
      assert cs[j].email.Some? ==> cs[j].email.value in EmailsOf(cs, linked);
    }
    forall u | u in linked ensures u.id != id && u.email != w.email {
      assert u.email in Emails(linked) && u.email in EmailsOf(cs, linked);
    }
    NewcomerFinds(cs, i, id, email);
    NewcomerFits(cs, i, id, email);
    OneTakes(cs, linked, w, i);
    NotCarried(cs, i, v);
    RobbedNeedsNew(cs, i, v, Filled(cs[i], w));
  }

  lemma NotCarried(cs: seq<Customer>, i: nat, v: User)
    requires !Matched(cs, v) && i < |cs|
    ensures !Carries(cs[i], v)
  {
  }

  /**
   * Whoever else has an account or signs up, a completed pass leaves a linked user with a customer to find exactly
   * when some live row carries their phone or email, or their own row is out of everyone's reach.
   */
  lemma LinkLastsIffSafe(cs: seq<Customer>, linked: seq<User>, v: User)
    requires Unique(cs) && Accounts(linked) && v in linked && forall u :: u in linked ==> Linked(cs, u)
    ensures Safe(cs, v, Emails(linked)) <==>
      forall users :: Accounts(users) && (forall u :: u in linked ==> u in users) && !Run(cs, users).crashed ==>
        !NeedsNew(Run(cs, users).cs, v)
  {
    hide Run, Linked;
    if Safe(cs, v, Emails(linked)) {
      forall users | Accounts(users) && (forall u :: u in linked ==> u in users) && !Run(cs, users).crashed
        ensures !NeedsNew(Run(cs, users).cs, v)
      {
        RestAreNew(cs, linked, users);
        RunMakesSafe(cs, users, v, Emails(linked));
        SafeNeedsNone(Run(cs, users).cs, v, Emails(linked));
      }
    } else {
      var w := UnsafeCanBeRobbed(cs, linked, v);
    }
  }

  lemma SafeNeedsNone(cs: seq<Customer>, v: User, taken: set<string>)
    requires Safe(cs, v, taken)
    ensures !NeedsNew(cs, v)
  {
  }

  lemma RestAreNew(cs: seq<Customer>, linked: seq<User>, users: seq<User>)
    requires Accounts(users) && (forall u :: u in linked ==> u in users && Linked(cs, u))
    ensures NewToAll(cs, users, Emails(linked))
  {
  }

  // ----- A second whole call -----

  /** What a call makes of a ticket or a parcel, it makes nothing more of when the table has become `after`. */
  ghost predicate NothingFurther(before: seq<Customer>, after: seq<Customer>, ids: set<Id>) {
    && (forall t :: LinkedTicket(after, ids, LinkedTicket(before, ids, t)) == LinkedTicket(before, ids, t))
    && (forall p :: LinkedParcel(after, ids, LinkedParcel(before, ids, p)) == LinkedParcel(before, ids, p))
  }

  function Ids(users: seq<User>): set<Id> {
    set u | u in users :: u.id
  }

  lemma {:induction false} SomeoneGetsLinked(cs: seq<Customer>, users: seq<User>, u: User) returns (w: User)
    requires u in users && !Linked(cs, u) && !Run(cs, users).crashed
    ensures w in users && !Linked(cs, w) && Linked(Run(cs, users).cs, w)
  {
    hide Linked, Turn;
    var (front, last) := (users[..|users| - 1], users[|users| - 1]);
    assert users == front + [last];
    if !Linked(cs, last) {
      LastIsServed(cs, front, last);
      ServedIsLinked(Run(cs, users).cs, last);
      w := last;
    } else {
      w := SomeoneGetsLinked(cs, front, u);
    }
  }

  lemma ServedIsLinked(cs: seq<Customer>, u: User)
    requires Served(cs, u)
    ensures Linked(cs, u)
  {
  }

  lemma StillNothing(cs: seq<Customer>, ids: set<Id>)
    ensures NothingFurther(cs, cs, ids)
  {
  }

  /** A user who had no customer and then has one leaves a ticket of theirs to be linked. */
  lemma NewLinkFindsTicket(before: seq<Customer>, after: seq<Customer>, ids: set<Id>, u: User)
    requires u.id in ids && !Linked(before, u) && Linked(after, u)
    ensures !NothingFurther(before, after, ids)
  {
    var t := Ticket(None, Some(u.id), None, true, 0.0);
    assert OwnerOf(before, ids, t) == None;
    assert OwnerOf(after, ids, t).Some?;
    assert LinkedTicket(before, ids, t) == t;
  }

  /**
   * Of the tickets and parcels a first call has gone through, whatever they are, a second call over the same users
   * links none further exactly when the first call left every user with a customer.
   */
  lemma NothingFurtherIffAllLinked(cs: seq<Customer>, users: seq<User>)
    requires !Run(cs, users).crashed
    ensures NothingFurther(cs, Run(cs, users).cs, Ids(users)) <==> forall u :: u in users ==> Linked(cs, u)
  {
    hide Run, Linked, NothingFurther;
    if u :| u in users && !Linked(cs, u) {
      var w := SomeoneGetsLinked(cs, users, u);
      NewLinkFindsTicket(cs, Run(cs, users).cs, Ids(users), w);
    } else {
      LinkedArePassed(cs, users);
      StillNothing(cs, Ids(users));
    }
  }

  /** The row is the user's, or a lookup could make it theirs. */
  predicate Claims(c: Customer, u: User) {
    !c.deleted && (c.link == Some(u.id) || Carries(c, u))
  }

  /** No live row is claimed by two of the users. */
  ghost predicate Apart(cs: seq<Customer>, users: seq<User>) {
    forall i, u, v :: 0 <= i < |cs| && u in users && v in users && Claims(cs[i], u) && Claims(cs[i], v) ==> u == v
  }

  predicate SharePhone(u: User, v: User) {
    Given(u.phone) && u.phone == v.phone
  }

  /** Distinct accounts no two of which share a phone either. */
  ghost predicate Strangers(users: seq<User>) {
    && Accounts(users)
    && forall u, v :: u in users && v in users && SharePhone(u, v) ==> u == v
  }

  lemma StrangersDiffer(users: seq<User>, u: User, v: User)
    requires Strangers(users) && u in users && v in users && u != v
    ensures u.id != v.id && u.email != v.email && !SharePhone(v, u)
  {
  }

  lemma TurnKeepsApart(p: Pass, users: seq<User>, u: User)
    requires Strangers(users) && Apart(p.cs, users) && u in users
    ensures Apart(Turn(p, u).cs, users)
    ensures forall v :: v in users && v != u && Linked(p.cs, v) ==> Linked(Turn(p, u).cs, v)
  {
    hide Clashes, Lookup, Strangers;
    FoundIffMatched(p.cs, u);
    var after := Turn(p, u).cs;
    forall i, v | 0 <= i < |after| && v in users && v != u && Claims(after[i], v)
      ensures i < |p.cs| && after[i] == p.cs[i] && !Claims(after[i], u)
    {
      StrangersDiffer(users, u, v);
    }
    forall v | v in users && v != u && Linked(p.cs, v) ensures Linked(after, v) {
      var i :| 0 <= i < |p.cs| && p.cs[i].link == Some(v.id);
      assert after[i] == p.cs[i];
    }
  }

  lemma TurnLinks(p: Pass, u: User)
    requires !Turn(p, u).crashed
    ensures Linked(Turn(p, u).cs, u)
  {
    TurnServes(p, u);
    ServedIsLinked(Turn(p, u).cs, u);
  }

  /** Where no live row is claimed by two users, a completed pass leaves every user with a customer. */
  lemma {:induction false} ApartAllLinked(cs: seq<Customer>, all: seq<User>, users: seq<User>)
    requires Strangers(all) && Apart(cs, all) && !Run(cs, users).crashed && forall u :: u in users ==> u in all
    ensures Apart(Run(cs, users).cs, all)
    ensures forall u :: u in all && (u in users || Linked(cs, u)) ==> Linked(Run(cs, users).cs, u)
  {
    hide Strangers, Apart, Linked, Turn;
    if users != [] {
      var (front, last) := (users[..|users| - 1], users[|users| - 1]);
      assert users == front + [last];
      var before := Run(cs, front);
      StaysCrashed(before, last);
      ApartAllLinked(cs, all, front);
      if !Linked(cs, last) {
        TurnKeepsApart(before, all, last);
        TurnLinks(before, last);
      }
    }
  }

  /** So after such a first call a second one changes no customer and links no further ticket or parcel. */
  lemma SecondCallIsQuiet(cs: seq<Customer>, users: seq<User>)
    requires Strangers(users) && Apart(cs, users) && !Run(cs, users).crashed
    ensures var first := Run(cs, users).cs;
      Run(first, users) == Pass(first, 0, 0, false) && NothingFurther(first, Run(first, users).cs, Ids(users))
  {
    hide Run, NothingFurther, Strangers, Apart, Linked;
    ApartAllLinked(cs, users, users);
    LinkedArePassed(Run(cs, users).cs, users);
    NothingFurtherIffAllLinked(Run(cs, users).cs, users);
  }

  // ----- Tickets -----

  /** `customer` is a place in the table, `passenger` a user id; a cancelled or expired ticket does not count. */
  datatype Ticket = Ticket(
    customer: Option<nat>, passenger: Option<Id>, phone: Option<string>, counts: bool, price: real)

  /** customerProfile of the passenger, if they are a CUSTOMER user of the tenant: the row linked to them. */
  function Profile(cs: seq<Customer>, users: set<Id>, id: Id): (r: Option<nat>)
    ensures r.Some? ==> r.value < |cs| && cs[r.value].link == Some(id) && id in users
    ensures r.None? ==> id !in users || forall i :: 0 <= i < |cs| ==> cs[i].link != Some(id)
  {
    if cs == [] || id !in users then None
    else
      var before := Profile(cs[..|cs| - 1], users, id);
      if before.Some? then before else if cs[|cs| - 1].link == Some(id) then Some(|cs| - 1) else None
  }

  /** The passenger's own row first, then the live row with the passenger's phone. */
  function OwnerOf(cs: seq<Customer>, users: set<Id>, t: Ticket): Option<nat> {
    var own := if t.passenger.Some? then Profile(cs, users, t.passenger.value) else None;
    if own.Some? then own else ByPhone(cs, t.phone)
  }

  /** The row of that user, who must be one of the tenant's CUSTOMER users. */
  predicate IsProfile(cs: seq<Customer>, users: set<Id>, user: Option<Id>, c: nat) {
    c < |cs| && user.Some? && user.value in users && cs[c].link == user
  }

  predicate AnswersPhone(cs: seq<Customer>, phone: Option<string>, c: nat) {
    c < |cs| && HasPhone(cs[c], phone)
  }

  predicate AnswersEmail(cs: seq<Customer>, email: Option<string>, c: nat) {
    c < |cs| && HasEmail(cs[c], email)
  }

  /** The owner is the passenger's own row if there is one, else a live row with the ticket's phone, else nobody. */
  lemma OwnerIsTheirs(cs: seq<Customer>, users: set<Id>, t: Ticket)
    ensures var q := LinkedTicket(cs, users, t); q == t.(customer := q.customer) && (t.customer.Some? ==> q == t)
    ensures t.customer.None? ==> var owner := LinkedTicket(cs, users, t).customer;
      if exists c :: IsProfile(cs, users, t.passenger, c)
      then owner.Some? && IsProfile(cs, users, t.passenger, owner.value)
      else if exists c :: AnswersPhone(cs, t.phone, c) then owner.Some? && AnswersPhone(cs, t.phone, owner.value)
      else owner.None?
  {
    var own := if t.passenger.Some? then Profile(cs, users, t.passenger.value) else None;
    assert own.Some? ==> IsProfile(cs, users, t.passenger, own.value);
    var byPhone := ByPhone(cs, t.phone);
    assert byPhone.Some? ==> AnswersPhone(cs, t.phone, byPhone.value);
  }

  function LinkedTicket(cs: seq<Customer>, users: set<Id>, t: Ticket): Ticket {
    if t.customer.Some? then t else t.(customer := OwnerOf(cs, users, t))
  }

  /** The places before `n` at which two lists differ. */
  ghost function Changed<T>(was: seq<T>, now: seq<T>, n: nat): set<int>
    requires n <= |was| && n <= |now|
  {
    set i | 0 <= i < n && now[i] != was[i]
  }

  lemma ChangedStep<T>(was: seq<T>, before: seq<T>, now: seq<T>, n: nat)
    requires n < |was| == |before| == |now| && forall i :: 0 <= i < n ==> now[i] == before[i]
    ensures Size(Changed(was, now, n + 1)) == Size(Changed(was, before, n)) + if now[n] != was[n] then 1 else 0
  {
    if now[n] != was[n] {
      assert Changed(was, now, n + 1) == Changed(was, before, n) + {n};
    } else {
      assert Changed(was, now, n + 1) == Changed(was, before, n);
    }
  }

  /** Every unlinked ticket gets its owner if it has one; the rest, and the linked ones, stay as they are. */
  method LinkTickets(cs: seq<Customer>, users: set<Id>, tickets: array<Ticket>) returns (linked: nat)
    modifies tickets
    ensures forall i :: 0 <= i < tickets.Length ==> tickets[i] == LinkedTicket(cs, users, old(tickets[i]))
    ensures linked == Size(Changed(old(tickets[..]), tickets[..], tickets.Length))
  {
    linked := 0;
    ghost var was := tickets[..];
    for k := 0 to tickets.Length
      invariant forall i :: 0 <= i < k ==> tickets[i] == LinkedTicket(cs, users, was[i])
      invariant forall i :: k <= i < tickets.Length ==> tickets[i] == was[i]
      invariant linked == Size(Changed(was, tickets[..], k))
    {
      hide Size, Changed, OwnerOf;
      ghost var done := tickets[..];
      if tickets[k].customer.None? {
        var owner := OwnerOf(cs, users, tickets[k]);
        if owner.Some? {
          tickets[k] := tickets[k].(customer := owner);
          linked := linked + 1;
        }
      }
      ChangedStep(was, done, tickets[..], k);
    }
  }

  // ----- Parcels -----

  /** `phone` is the recipient's after normalisation, `email` theirs in lower case. */
  datatype Parcel = Parcel(sender: Option<nat>, recipient: Option<nat>, from: Option<Id>, to: Contact)

  datatype Contact = Contact(phone: Option<string>, email: Option<string>)

  function SenderOf(cs: seq<Customer>, users: set<Id>, p: Parcel): Option<nat> {
    if p.sender.Some? || p.from.None? then p.sender else Profile(cs, users, p.from.value)
  }

  /** The email is only looked at if there is no phone to look for. */
  function RecipientOf(cs: seq<Customer>, p: Parcel): Option<nat> {
    if p.recipient.Some? then p.recipient
    else if Given(p.to.phone) then ByPhone(cs, p.to.phone)
    else ByEmail(cs, p.to.email)
  }

  function LinkedParcel(cs: seq<Customer>, users: set<Id>, p: Parcel): Parcel {
    p.(sender := SenderOf(cs, users, p), recipient := RecipientOf(cs, p))
  }

  /** Each parcel gets the links it lacks and can have; the counter is how many changed. */
  method LinkParcels(cs: seq<Customer>, users: set<Id>, parcels: array<Parcel>) returns (linked: nat)
    modifies parcels
    ensures forall i :: 0 <= i < parcels.Length ==> parcels[i] == LinkedParcel(cs, users, old(parcels[i]))
    ensures linked == Size(Changed(old(parcels[..]), parcels[..], parcels.Length))
  {
    linked := 0;
    ghost var was := parcels[..];
    for k := 0 to parcels.Length
      invariant forall i :: 0 <= i < k ==> parcels[i] == LinkedParcel(cs, users, was[i])
      invariant forall i :: k <= i < parcels.Length ==> parcels[i] == was[i]
      invariant linked == Size(Changed(was, parcels[..], k))
    {
      hide Size, Changed, SenderOf, RecipientOf;
      ghost var done := parcels[..];
      var p := parcels[k];
      var sender, recipient := SenderOf(cs, users, p), RecipientOf(cs, p);
      if sender != p.sender || recipient != p.recipient {
        parcels[k] := p.(sender := sender, recipient := recipient);
        linked := linked + 1;
      }
      ChangedStep(was, done, parcels[..], k);
    }
  }

  /** A new sender is the sending user's row; a new recipient a live row with the phone, or the email if no phone. */
  lemma PartiesAreTheirs(cs: seq<Customer>, users: set<Id>, p: Parcel)
    ensures var q := LinkedParcel(cs, users, p);
      && q == p.(sender := q.sender, recipient := q.recipient)
      && (p.sender.Some? ==> q.sender == p.sender) && (p.recipient.Some? ==> q.recipient == p.recipient)
      && (p.sender.None? ==>
            if exists c :: IsProfile(cs, users, p.from, c)
            then q.sender.Some? && IsProfile(cs, users, p.from, q.sender.value) else q.sender.None?)
      && (p.recipient.None? && Given(p.to.phone) ==>
            if exists c :: AnswersPhone(cs, p.to.phone, c)
            then q.recipient.Some? && AnswersPhone(cs, p.to.phone, q.recipient.value) else q.recipient.None?)
      && (p.recipient.None? && !Given(p.to.phone) ==>
            if exists c :: AnswersEmail(cs, p.to.email, c)
            then q.recipient.Some? && AnswersEmail(cs, p.to.email, q.recipient.value) else q.recipient.None?)
  {
    var q := LinkedParcel(cs, users, p);
    if p.sender.None? && q.sender.Some? {
      assert IsProfile(cs, users, p.from, q.sender.value);
    }
    if p.recipient.None? && q.recipient.Some? {
      assert AnswersPhone(cs, p.to.phone, q.recipient.value) || AnswersEmail(cs, p.to.email, q.recipient.value);
    }
  }

  // ----- Counters -----

  datatype Counters = Counters(totalTickets: nat, totalParcels: nat, totalSpentCents: int)

  /** Whom each valid ticket, each parcel sent and each parcel received counts for. */
  function TicketOwners(ts: seq<Ticket>): seq<Option<nat>> {
    seq(|ts|, i requires 0 <= i < |ts| => if ts[i].counts then ts[i].customer else None)
  }

  function Senders(ps: seq<Parcel>): seq<Option<nat>> {
    seq(|ps|, i requires 0 <= i < |ps| => ps[i].sender)
  }

  function Recipients(ps: seq<Parcel>): seq<Option<nat>> {
    seq(|ps|, i requires 0 <= i < |ps| => ps[i].recipient)
  }

  function Times(owners: seq<Option<nat>>, c: nat): nat {
    if owners == [] then 0 else Times(owners[..|owners| - 1], c) + if owners[|owners| - 1] == Some(c) then 1 else 0
  }

  function Spent(ts: seq<Ticket>, c: nat): real {
    if ts == [] then 0.0
    else
      var t := ts[|ts| - 1];
      Spent(ts[..|ts| - 1], c) + if t.counts && t.customer == Some(c) then t.price else 0.0
  }

  function CountersOf(ts: seq<Ticket>, ps: seq<Parcel>, c: nat): Counters {
    Counters(Times(TicketOwners(ts), c), Times(Senders(ps), c) + Times(Recipients(ps), c), Round(Spent(ts, c) * 100.0))
  }

  ghost function LiveRows(cs: seq<Customer>, n: nat): set<int>
    requires n <= |cs|
  {
    set c | 0 <= c < n && !cs[c].deleted
  }

  lemma LiveRowsStep(cs: seq<Customer>, n: nat)
    requires n < |cs|
    ensures LiveRows(cs, 0) == {} && Size(LiveRows(cs, 0)) == 0
    ensures Size(LiveRows(cs, n + 1)) == Size(LiveRows(cs, n)) + if cs[n].deleted then 0 else 1
  {
    if cs[n].deleted {
      assert LiveRows(cs, n + 1) == LiveRows(cs, n);
    } else {
      assert LiveRows(cs, n + 1) == LiveRows(cs, n) + {n};
    }
  }

  /** Every live row's counters are recomputed; a deleted row keeps what it had. */
  method RefreshCounters(cs: seq<Customer>, ts: seq<Ticket>, ps: seq<Parcel>, counters: array<Counters>)
    returns (refreshed: nat)
    requires counters.Length == |cs|
    modifies counters
    ensures forall c :: 0 <= c < |cs| ==>
      counters[c] == if cs[c].deleted then old(counters[c]) else CountersOf(ts, ps, c)
    ensures refreshed == Size(LiveRows(cs, |cs|))
    ensures CountersAddUp(cs, ts, ps, counters[..])
  {
    refreshed := 0;
    for k := 0 to |cs|
      invariant forall c :: 0 <= c < k ==>
        counters[c] == if cs[c].deleted then old(counters[c]) else CountersOf(ts, ps, c)
      invariant forall c :: k <= c < |cs| ==> counters[c] == old(counters[c])
      invariant refreshed == Size(LiveRows(cs, k))
    {
      hide Size, LiveRows, CountersOf;
      LiveRowsStep(cs, k);
      if !cs[k].deleted {
        counters[k] := CountersOf(ts, ps, k);
        refreshed := refreshed + 1;
      }
    }
    RefreshedAddUp(cs, ts, ps, counters[..]);
  }

  predicate Live(cs: seq<Customer>, owner: Option<nat>, n: nat) {
    owner.Some? && owner.value < n && owner.value < |cs| && !cs[owner.value].deleted
  }

  /** How often the live rows before place `n` are owners, row by row, and owner by owner. */
  ghost function SumTimes(cs: seq<Customer>, owners: seq<Option<nat>>, n: nat): nat
    requires n <= |cs|
  {
    if n == 0 then 0 else SumTimes(cs, owners, n - 1) + if cs[n - 1].deleted then 0 else Times(owners, n - 1)
  }

  ghost function LiveOwners(cs: seq<Customer>, owners: seq<Option<nat>>, n: nat): nat {
    if owners == [] then 0
    else LiveOwners(cs, owners[..|owners| - 1], n) + if Live(cs, owners[|owners| - 1], n) then 1 else 0
  }

  lemma {:induction false} LiveOwnersStep(cs: seq<Customer>, owners: seq<Option<nat>>, n: nat)
    requires n < |cs|
    ensures LiveOwners(cs, owners, 0) == 0
    ensures LiveOwners(cs, owners, n + 1)
         == LiveOwners(cs, owners, n) + if cs[n].deleted then 0 else Times(owners, n)
  {
    if owners != [] {
      LiveOwnersStep(cs, owners[..|owners| - 1], n);
    }
  }

  /**
   * Whatever is counted, tickets, parcels sent or parcels received: the counters add up to the ones whose owner is
   * live. None is missed and none counted twice.
   */
  lemma {:induction false} CountersConserve(cs: seq<Customer>, owners: seq<Option<nat>>, n: nat)
    requires n <= |cs|
    ensures SumTimes(cs, owners, n) == LiveOwners(cs, owners, n)
  {
    if n == 0 {
      NoneLive(cs, owners);
    } else {
      CountersConserve(cs, owners, n - 1);
      LiveOwnersStep(cs, owners, n - 1);
    }
  }

  lemma {:induction false} NoneLive(cs: seq<Customer>, owners: seq<Option<nat>>)
    ensures LiveOwners(cs, owners, 0) == 0
  {
    if owners != [] {
      NoneLive(cs, owners[..|owners| - 1]);
    }
  }

  /** The rounded amounts of the live rows before place `n`, in cents. */
  ghost function SumCents(cs: seq<Customer>, ts: seq<Ticket>, n: nat): int
    requires n <= |cs|
  {
    if n == 0 then 0 else SumCents(cs, ts, n - 1) + if cs[n - 1].deleted then 0 else Round(Spent(ts, n - 1) * 100.0)
  }

  ghost function LiveSpent(cs: seq<Customer>, ts: seq<Ticket>, n: nat): real {
    if ts == [] then 0.0
    else
      var t := ts[|ts| - 1];
      LiveSpent(cs, ts[..|ts| - 1], n) + if t.counts && Live(cs, t.customer, n) then t.price else 0.0
  }

  lemma {:induction false} LiveSpentStep(cs: seq<Customer>, ts: seq<Ticket>, n: nat)
    requires n < |cs|
    ensures LiveSpent(cs, ts, n + 1) == LiveSpent(cs, ts, n) + if cs[n].deleted then 0.0 else Spent(ts, n)
  {
    if ts != [] {
      LiveSpentStep(cs, ts[..|ts| - 1], n);
    }
  }

  lemma {:induction false} NothingLiveSpent(cs: seq<Customer>, ts: seq<Ticket>)
    ensures LiveSpent(cs, ts, 0) == 0.0
  {
    if ts != [] {
      NothingLiveSpent(cs, ts[..|ts| - 1]);
    }
  }

  /** The amounts add up to what the valid tickets of live customers cost, within half a cent a row. */
  lemma {:induction false} AmountsConserve(cs: seq<Customer>, ts: seq<Ticket>, n: nat)
    requires n <= |cs|
    ensures var exact := LiveSpent(cs, ts, n) * 100.0;
      exact - n as real / 2.0 <= SumCents(cs, ts, n) as real <= exact + n as real / 2.0
  {
    if n == 0 {
      NothingLiveSpent(cs, ts);
    } else {
      AmountsConserve(cs, ts, n - 1);
      LiveSpentStep(cs, ts, n - 1);
      RoundedIsClose(Spent(ts, n - 1) * 100.0);
    }
  }

  // ----- The counters the refresh leaves -----

  /** A row's counters, as cardinalities: its valid tickets, and the parcels it sent and received. */
  lemma CountersAre(ts: seq<Ticket>, ps: seq<Parcel>, c: nat)
    ensures var r := CountersOf(ts, ps, c);
      && r.totalTickets == Size(set i | 0 <= i < |ts| && ts[i].counts && ts[i].customer == Some(c))
      && r.totalParcels == Size(set i | 0 <= i < |ps| && ps[i].sender == Some(c))
         + Size(set i | 0 <= i < |ps| && ps[i].recipient == Some(c))
  {
    hide Times, Size, Spent;
    TimesIsSize(TicketOwners(ts), c);
    TimesIsSize(Senders(ps), c);
    TimesIsSize(Recipients(ps), c);
    assert Places(TicketOwners(ts), c) == set i | 0 <= i < |ts| && ts[i].counts && ts[i].customer == Some(c);
    assert Places(Senders(ps), c) == set i | 0 <= i < |ps| && ps[i].sender == Some(c);
    assert Places(Recipients(ps), c) == set i | 0 <= i < |ps| && ps[i].recipient == Some(c);
  }

  ghost function Places(owners: seq<Option<nat>>, c: nat): set<int> {
    set i | 0 <= i < |owners| && owners[i] == Some(c)
  }

  lemma {:induction false} TimesIsSize(owners: seq<Option<nat>>, c: nat)
    ensures Times(owners, c) == Size(Places(owners, c))
  {
    if owners == [] {
      assert Places(owners, c) == {};
    } else {
      var n := |owners| - 1;
      TimesIsSize(owners[..n], c);
      if owners[n] == Some(c) {
        assert Places(owners, c) == Places(owners[..n], c) + {n};
      } else {
        assert Places(owners, c) == Places(owners[..n], c);
      }
    }
  }

  predicate IsLive(cs: seq<Customer>, owner: Option<nat>) {
    owner.Some? && owner.value < |cs| && !cs[owner.value].deleted
  }

  /** The sum over the live rows before place `n`. */
  ghost function LiveSum(cs: seq<Customer>, xs: seq<int>, n: nat): int
    requires n <= |cs| == |xs|
  {
    if n == 0 then 0 else LiveSum(cs, xs, n - 1) + if cs[n - 1].deleted then 0 else xs[n - 1]
  }

  function TicketCounts(counters: seq<Counters>): (r: seq<int>)
    ensures |r| == |counters|
  {
    seq(|counters|, i requires 0 <= i < |counters| => counters[i].totalTickets)
  }

  function ParcelCounts(counters: seq<Counters>): (r: seq<int>)
    ensures |r| == |counters|
  {
    seq(|counters|, i requires 0 <= i < |counters| => counters[i].totalParcels)
  }

  function CentCounts(counters: seq<Counters>): (r: seq<int>)
    ensures |r| == |counters|
  {
    seq(|counters|, i requires 0 <= i < |counters| => counters[i].totalSpentCents)
  }

  /** What the valid tickets of live customers cost. */
  ghost function LivePrice(cs: seq<Customer>, ts: seq<Ticket>): real {
    if ts == [] then 0.0
    else
      var t := ts[|ts| - 1];
      LivePrice(cs, ts[..|ts| - 1]) + if t.counts && IsLive(cs, t.customer) then t.price else 0.0
  }

  /**
   * Over the live rows: the tickets add up to the valid ones whose customer is live, the parcels to those with a live
   * sender plus those with a live recipient, and the cents to those tickets' price, within half a cent a row.
   */
  ghost predicate CountersAddUp(cs: seq<Customer>, ts: seq<Ticket>, ps: seq<Parcel>, counters: seq<Counters>)
    requires |counters| == |cs|
  {
    && LiveSum(cs, TicketCounts(counters), |cs|)
       == Size(set i | 0 <= i < |ts| && ts[i].counts && IsLive(cs, ts[i].customer))
    && LiveSum(cs, ParcelCounts(counters), |cs|)
       == Size(set i | 0 <= i < |ps| && IsLive(cs, ps[i].sender))
          + Size(set i | 0 <= i < |ps| && IsLive(cs, ps[i].recipient))
    && var (cents, exact) := (LiveSum(cs, CentCounts(counters), |cs|) as real, LivePrice(cs, ts) * 100.0);
       exact - |cs| as real / 2.0 <= cents <= exact + |cs| as real / 2.0
  }

  ghost predicate Refreshed(cs: seq<Customer>, ts: seq<Ticket>, ps: seq<Parcel>, counters: seq<Counters>)
    requires |counters| == |cs|
  {
    forall c :: 0 <= c < |cs| && !cs[c].deleted ==> counters[c] == CountersOf(ts, ps, c)
  }

  lemma RefreshedAddUp(cs: seq<Customer>, ts: seq<Ticket>, ps: seq<Parcel>, counters: seq<Counters>)
    requires |counters| == |cs| && Refreshed(cs, ts, ps, counters)
    ensures CountersAddUp(cs, ts, ps, counters)
  {
    hide Size, CountersOf, LiveSum, LiveOwners;
    var n := |cs|;
    SumsAre(cs, ts, ps, counters, n);
    CountersConserve(cs, TicketOwners(ts), n);
    CountersConserve(cs, Senders(ps), n);
    CountersConserve(cs, Recipients(ps), n);
    AmountsConserve(cs, ts, n);
    LiveOwnersAre(cs, TicketOwners(ts));
    LiveOwnersAre(cs, Senders(ps));
    LiveOwnersAre(cs, Recipients(ps));
    LivePriceIs(cs, ts);
    assert LivePlaces(cs, TicketOwners(ts)) == set i | 0 <= i < |ts| && ts[i].counts && IsLive(cs, ts[i].customer);
    assert LivePlaces(cs, Senders(ps)) == set i | 0 <= i < |ps| && IsLive(cs, ps[i].sender);
    assert LivePlaces(cs, Recipients(ps)) == set i | 0 <= i < |ps| && IsLive(cs, ps[i].recipient);
  }

  lemma {:induction false} SumsAre(
      cs: seq<Customer>, ts: seq<Ticket>, ps: seq<Parcel>, counters: seq<Counters>, n: nat)
    requires n <= |cs| == |counters| && Refreshed(cs, ts, ps, counters)
    ensures LiveSum(cs, TicketCounts(counters), n) == SumTimes(cs, TicketOwners(ts), n)
    ensures LiveSum(cs, ParcelCounts(counters), n) == SumTimes(cs, Senders(ps), n) + SumTimes(cs, Recipients(ps), n)
    ensures LiveSum(cs, CentCounts(counters), n) == SumCents(cs, ts, n)
  {
    hide Times, Spent, TicketOwners, Senders, Recipients, Round;
    if n > 0 {
      SumsAre(cs, ts, ps, counters, n - 1);
    }
  }

  ghost function LivePlaces(cs: seq<Customer>, owners: seq<Option<nat>>): set<int> {
    set i | 0 <= i < |owners| && IsLive(cs, owners[i])
  }

  lemma {:induction false} LiveOwnersAre(cs: seq<Customer>, owners: seq<Option<nat>>)
    ensures LiveOwners(cs, owners, |cs|) == Size(LivePlaces(cs, owners))
  {
    if owners == [] {
      assert LivePlaces(cs, owners) == {};
    } else {
      var n := |owners| - 1;
      LiveOwnersAre(cs, owners[..n]);
      if IsLive(cs, owners[n]) {
        assert LivePlaces(cs, owners) == LivePlaces(cs, owners[..n]) + {n};
      } else {
        assert LivePlaces(cs, owners) == LivePlaces(cs, owners[..n]);
      }
    }
  }

  lemma {:induction false} LivePriceIs(cs: seq<Customer>, ts: seq<Ticket>)
    ensures LiveSpent(cs, ts, |cs|) == LivePrice(cs, ts)
  {
    if ts != [] {
      LivePriceIs(cs, ts[..|ts| - 1]);
    }
  }
}
