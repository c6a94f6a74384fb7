// src/core/workflow/workflow.engine.ts and io/live-workflow.io.ts: any number of concurrent calls of transition()
// on shared rows, with the checks made outside the transaction, the row lock and the idempotency key, beside services
// that write a row's status themselves.
module WorkflowEngine {
  import opened Basics
  import opened WorkflowTable
  import opened WorkflowLoader

  type CallId = nat
  type IdemKey = nat
  type RoleId = nat

  datatype Record = Record(kind: Entity, tenant: Tenant, status: State, version: int)

  datatype Actor = Actor(role: RoleId, hasAgency: bool)

  /** A recorded transition, with the permission its audit line names. */
  datatype Entry = Entry(target: Id, step: Step, actor: Actor, key: IdemKey)

  /** How far a call has got. `snap` is the row as its caller once read it; a call without a key is given a new one. */
  datatype Call =
    | Held(id: Id, snap: Record, key: IdemKey)
    | Resolved(id: Id, snap: Record, entry: Entry)
    | Allowed(id: Id, snap: Record, entry: Entry)
    | Open(id: Id, snap: Record, entry: Entry)
    | Answered(id: Id, key: IdemKey, from: State, to: State)
    | Refused

  datatype Policy = Policy(configs: Table, grants: set<(RoleId, Permission)>)

  /** The rows, the rows as they were first inserted, and the transition log. */
  datatype Store = Store(rows: map<Id, Record>, born: map<Id, Record>, log: seq<Entry>)

  datatype World = World(db: Store, calls: map<CallId, Call>, policy: Policy)

  /** `WriteOutside` is a service updating the row without the engine, raising the version or not. */
  datatype Event =
    | Insert(id: Id, record: Record)
    | WriteOutside(id: Id, status: State, raises: bool)
    | ChangePolicy(policy: Policy)
    | Read(call: CallId, id: Id, key: IdemKey)
    | FindReplay(call: CallId, n: nat)
    | LoadConfig(call: CallId, version: nat, entry: Entry)
    | CheckPermission(call: CallId)
    | Begin(call: CallId)
    | Commit(call: CallId)
    | Refuse(call: CallId)

  /** The kinds the engine has a database table for: Driver has default transitions but no table. */
  predicate Supported(e: Entity) {
    !e.Driver?
  }

  /** findFirst of an active configuration, any version. */
  predicate InForce(p: Policy, kind: Entity, tenant: Tenant, version: nat, s: Step) {
    var ck := ConfigKey(tenant, Key(kind, s.from, s.action), version);
    ck in p.configs && p.configs[ck] == Config(s.to, s.perm, true)
  }

  predicate Permits(p: Policy, a: Actor, perm: Permission) {
    (a.role, perm) in p.grants && (perm.scope.Agency? ==> a.hasAgency)
  }

  predicate Logged(log: seq<Entry>, key: IdemKey) {
    exists i :: 0 <= i < |log| && log[i].key == key
  }

  predicate Locked(calls: map<CallId, Call>, id: Id) {
    exists c :: c in calls && calls[c].Open? && calls[c].id == id
  }

  function After(r: Record, s: Step): Record {
    r.(status := s.to, version := r.version + 1)
  }

  function Rewritten(r: Record, status: State, raises: bool): Record {
    r.(status := status, version := if raises then r.version + 1 else r.version)
  }

  predicate Enabled(w: World, ev: Event) {
    match ev
    case Insert(id, _) => id !in w.db.rows
    // an update waits for the row lock
    case WriteOutside(id, _, _) => id in w.db.rows && !Locked(w.calls, id)
    case ChangePolicy(_) => true
    case Read(c, id, _) => c !in w.calls && id in w.db.rows && Supported(w.db.rows[id].kind)
    // the early exit, the check inside the transaction, and the unique key failing at the insert
    case FindReplay(c, n) =>
      c in w.calls && n < |w.db.log|
      && ((w.calls[c].Held? && w.calls[c].key == w.db.log[n].key)
          || ((w.calls[c].Allowed? || w.calls[c].Open?) && w.calls[c].entry.key == w.db.log[n].key))
    case LoadConfig(c, version, entry) =>
      c in w.calls && w.calls[c].Held? && entry.target == w.calls[c].id && entry.key == w.calls[c].key
      && entry.step.from == w.calls[c].snap.status
      && InForce(w.policy, w.calls[c].snap.kind, w.calls[c].snap.tenant, version, entry.step)
    case CheckPermission(c) =>
      c in w.calls && w.calls[c].Resolved?
      && Permits(w.policy, w.calls[c].entry.actor, w.calls[c].entry.step.perm)
    case Begin(c) =>
      c in w.calls && w.calls[c].Allowed? && !Logged(w.db.log, w.calls[c].entry.key)
      && w.calls[c].id in w.db.rows && !Locked(w.calls, w.calls[c].id)
      && w.db.rows[w.calls[c].id].version == w.calls[c].snap.version
    case Commit(c) =>
      c in w.calls && w.calls[c].Open? && w.calls[c].entry.target in w.db.rows
      && !Logged(w.db.log, w.calls[c].entry.key)
    // unknown type, missing configuration, permission or guard, lock or version conflict, failed side effect
    case Refuse(c) => c in w.calls && !w.calls[c].Answered?
  }

  function Inserted(db: Store, id: Id, record: Record): Store {
    db.(rows := db.rows[id := record], born := db.born[id := record])
  }

  /** persist and recordTransition, in one transaction: the row moves on, its version by one. */
  function Committed(db: Store, entry: Entry): Store
    requires entry.target in db.rows
  {
    db.(rows := db.rows[entry.target := After(db.rows[entry.target], entry.step)], log := db.log + [entry])
  }

  function Do(w: World, ev: Event): World
    requires Enabled(w, ev)
  {
    match ev
    case Insert(id, record) => w.(db := Inserted(w.db, id, record))
    case WriteOutside(id, status, raises) =>
      w.(db := w.db.(rows := w.db.rows[id := Rewritten(w.db.rows[id], status, raises)]))
    case ChangePolicy(p) => w.(policy := p)
    case Read(c, id, key) => w.(calls := w.calls[c := Held(id, w.db.rows[id], key)])
    case FindReplay(c, n) =>
      var found := w.db.log[n];
      w.(calls := w.calls[c := Answered(w.calls[c].id, found.key, found.step.from, found.step.to)])
    case LoadConfig(c, _, entry) => w.(calls := w.calls[c := Resolved(w.calls[c].id, w.calls[c].snap, entry)])
    case CheckPermission(c) =>
      w.(calls := w.calls[c := Allowed(w.calls[c].id, w.calls[c].snap, w.calls[c].entry)])
    case Begin(c) => w.(calls := w.calls[c := Open(w.calls[c].id, w.calls[c].snap, w.calls[c].entry)])
    case Commit(c) =>
      var entry := w.calls[c].entry;
      w.(db := Committed(w.db, entry),
         calls := w.calls[c := Answered(w.calls[c].id, entry.key, entry.step.from, entry.step.to)])
    case Refuse(c) => w.(calls := w.calls[c := Refused])
  }

  // ----- What every event keeps, whoever else writes rows -----

  /** Nobody changes what kind of row it is or whose. */
  predicate SameOrigin(b: Record, r: Record) {
    r.kind == b.kind && r.tenant == b.tenant
  }

  ghost predicate RowsOk(db: Store) {
    && db.rows.Keys == db.born.Keys
    && (forall i :: 0 <= i < |db.log| ==> db.log[i].target in db.rows)
    && forall id :: id in db.rows ==> SameOrigin(db.born[id], db.rows[id])
  }

  ghost predicate KeysUnique(log: seq<Entry>) {
    forall i, j :: 0 <= i < j < |log| ==> log[i].key != log[j].key
  }

  /** A call acts on its own row, from the state it read; while it holds the lock the row keeps the version it read. */
  ghost predicate CallOk(db: Store, call: Call) {
    match call
    case Held(id, snap, _) => id in db.born && SameOrigin(db.born[id], snap)
    case Answered(_, key, from, to) =>
      exists i :: 0 <= i < |db.log| && db.log[i].key == key && db.log[i].step.from == from && db.log[i].step.to == to
    case Refused => true
    case _ =>
      && call.id in db.born && call.id in db.rows && SameOrigin(db.born[call.id], call.snap)
      && call.entry.target == call.id && call.entry.step.from == call.snap.status
      && (call.Open? ==> call.snap.version == db.rows[call.id].version)
  }

  ghost predicate LocksExclude(calls: map<CallId, Call>) {
    forall c, d :: c in calls && d in calls && calls[c].Open? && calls[d].Open? && calls[c].id == calls[d].id ==> c == d
  }

  ghost predicate Inv(w: World) {
    && RowsOk(w.db)
    && KeysUnique(w.db.log)
    && LocksExclude(w.calls)
    && forall c :: c in w.calls ==> CallOk(w.db, w.calls[c])
  }

  lemma CallMoves(w: World, c: CallId, call: Call)
    requires Inv(w) && CallOk(w.db, call)
    requires call.Open? ==> !Locked(w.calls, call.id)
    ensures Inv(w.(calls := w.calls[c := call]))
  {
    hide CallOk, RowsOk, KeysUnique;
  }

  lemma InsertKeeps(w: World, id: Id, record: Record)
    requires Inv(w) && id !in w.db.rows
    ensures Inv(w.(db := Inserted(w.db, id, record)))
  {
  }

  lemma WriteKeeps(w: World, id: Id, status: State, raises: bool)
    requires Inv(w) && Enabled(w, WriteOutside(id, status, raises))
    ensures Inv(Do(w, WriteOutside(id, status, raises)))
  {
    hide KeysUnique, LocksExclude;
  }

  lemma CommitKeeps(w: World, c: CallId)
    requires Inv(w) && Enabled(w, Commit(c))
    ensures Inv(Do(w, Commit(c)))
  {
    hide CallOk;
    var call := w.calls[c];
    var w' := Do(w, Commit(c));
    OpenTargetsOwn(w.db, call);
    forall d | d in w'.calls ensures CallOk(w'.db, w'.calls[d]) {
      if d == c {
        AnswerLogged(w.db, call.entry, call.id);
      } else {
        CallOkAfterCommit(w.db, call.entry, w.calls[d]);
      }
    }
  }

  lemma OpenTargetsOwn(db: Store, call: Call)
    requires CallOk(db, call) && call.Open?
    ensures call.id == call.entry.target && call.id in db.rows
  {
  }

  lemma CallOkAfterCommit(db: Store, entry: Entry, call: Call)
    requires CallOk(db, call) && entry.target in db.rows && (call.Open? ==> call.id != entry.target)
    ensures CallOk(Committed(db, entry), call)
  {
    if call.Answered? {
      var i :| 0 <= i < |db.log| && db.log[i].key == call.key && db.log[i].step.from == call.from
        && db.log[i].step.to == call.to;
      assert Committed(db, entry).log[i] == db.log[i];
    }
  }

  lemma AnswerLogged(db: Store, entry: Entry, id: Id)
    requires entry.target in db.rows
    ensures CallOk(Committed(db, entry), Answered(id, entry.key, entry.step.from, entry.step.to))
  {
    assert Committed(db, entry).log[|db.log|] == entry;
  }

  /** Every event keeps the invariant. */
  lemma EventKeeps(w: World, ev: Event)
    requires Inv(w) && Enabled(w, ev)
    ensures Inv(Do(w, ev))
  {
    match ev {
      case Insert(id, record) => InsertKeeps(w, id, record);
      case WriteOutside(id, status, raises) => WriteKeeps(w, id, status, raises);
      case ChangePolicy(_) =>
      case Read(c, id, key) => CallMoves(w, c, Held(id, w.db.rows[id], key));
      case FindReplay(c, n) =>
        var e := w.db.log[n];
        CallMoves(w, c, Answered(w.calls[c].id, e.key, e.step.from, e.step.to));
      case LoadConfig(c, _, entry) => CallMoves(w, c, Resolved(w.calls[c].id, w.calls[c].snap, entry));
      case CheckPermission(c) => CallMoves(w, c, Allowed(w.calls[c].id, w.calls[c].snap, w.calls[c].entry));
      case Begin(c) => CallMoves(w, c, Open(w.calls[c].id, w.calls[c].snap, w.calls[c].entry));
      case Commit(c) => CommitKeeps(w, c);
      case Refuse(c) => CallMoves(w, c, Refused);
    }
  }

  // ----- Behaviours: any interleaving of any number of calls and outside writes -----

  ghost predicate Start(w: World) {
    w.db.rows == w.db.born && w.db.log == [] && w.calls == map[]
  }

  ghost predicate Happens(w: World, ev: Event, w': World) {
    Enabled(w, ev) && Do(w, ev) == w'
  }

  /** The worlds gone through and the events between them. */
  ghost predicate Behaviour(tr: seq<World>, evs: seq<Event>) {
    && |tr| == |evs| + 1
    && Start(tr[0])
    && forall i :: 0 <= i < |evs| ==> Happens(tr[i], evs[i], tr[i + 1])
  }

  lemma {:induction false} Reached(tr: seq<World>, evs: seq<Event>, k: nat)
    requires Behaviour(tr, evs) && k < |tr|
    ensures Inv(tr[k])
    decreases k
  {
    hide Enabled, Do;
    if k > 0 {
      Reached(tr, evs, k - 1);
      assert Happens(tr[k - 1], evs[k - 1], tr[k]);
      EventKeeps(tr[k - 1], evs[k - 1]);
    }
  }

  ghost predicate LoggedOnce(log: seq<Entry>, key: IdemKey) {
    exists i :: 0 <= i < |log| && log[i].key == key && (forall j :: 0 <= j < |log| && log[j].key == key ==> j == i)
  }

  predicate SameResult(c: Call, d: Call) {
    c.Answered? && d.Answered? && c.from == d.from && c.to == d.to
  }

  /** A key takes effect once, and whoever asks with it gets the same answer. */
  lemma OneEffectPerKey(tr: seq<World>, evs: seq<Event>, k: nat, c: CallId, d: CallId)
    requires Behaviour(tr, evs) && k < |tr| && c in tr[k].calls && d in tr[k].calls
    requires tr[k].calls[c].Answered? && tr[k].calls[d].Answered? && tr[k].calls[c].key == tr[k].calls[d].key
    ensures SameResult(tr[k].calls[c], tr[k].calls[d])
    ensures LoggedOnce(tr[k].db.log, tr[k].calls[c].key)
  {
    Reached(tr, evs, k);
    SameAnswer(tr[k], c, d);
  }

  lemma SameAnswer(w: World, c: CallId, d: CallId)
    requires Inv(w) && c in w.calls && d in w.calls
    requires w.calls[c].Answered? && w.calls[d].Answered? && w.calls[c].key == w.calls[d].key
    ensures SameResult(w.calls[c], w.calls[d])
    ensures LoggedOnce(w.db.log, w.calls[c].key)
  {
    hide RowsOk, LocksExclude;
    assert CallOk(w.db, w.calls[c]) && CallOk(w.db, w.calls[d]);
  }

  // ----- No transition without a configuration and a permission -----

  /** The step was an active configuration of the tenant at some moment up to `k`. */
  ghost predicate WasInForce(tr: seq<World>, k: nat, kind: Entity, tenant: Tenant, s: Step)
    requires k < |tr|
  {
    exists i, v :: 0 <= i <= k && InForce(tr[i].policy, kind, tenant, v, s)
  }

  /** The actor held the permission at some moment up to `k`, with an agency if its scope asks for one. */
  ghost predicate WasPermitted(tr: seq<World>, k: nat, a: Actor, perm: Permission)
    requires k < |tr|
  {
    exists i :: 0 <= i <= k && Permits(tr[i].policy, a, perm)
  }

  ghost predicate CallBacked(tr: seq<World>, k: nat, call: Call)
    requires k < |tr|
  {
    && (call.Resolved? || call.Allowed? || call.Open? ==>
          WasInForce(tr, k, call.snap.kind, call.snap.tenant, call.entry.step))
    && (call.Allowed? || call.Open? ==> WasPermitted(tr, k, call.entry.actor, call.entry.step.perm))
  }

  ghost predicate EntryBacked(tr: seq<World>, k: nat, e: Entry)
    requires k < |tr|
  {
    && e.target in tr[k].db.born
    && WasInForce(tr, k, tr[k].db.born[e.target].kind, tr[k].db.born[e.target].tenant, e.step)
    && WasPermitted(tr, k, e.actor, e.step.perm)
  }

  lemma CallStaysBacked(tr: seq<World>, k: nat, call: Call)
    requires k + 1 < |tr| && CallBacked(tr, k, call)
    ensures CallBacked(tr, k + 1, call)
  {
  }

  lemma EntryStaysBacked(tr: seq<World>, k: nat, e: Entry)
    requires k + 1 < |tr| && EntryBacked(tr, k, e)
    requires e.target in tr[k + 1].db.born && tr[k + 1].db.born[e.target] == tr[k].db.born[e.target]
    ensures EntryBacked(tr, k + 1, e)
  {
  }

  lemma CallsBacked(tr: seq<World>, k: nat, ev: Event, c: CallId)
    requires k + 1 < |tr| && Enabled(tr[k], ev) && Do(tr[k], ev) == tr[k + 1]
    requires forall d :: d in tr[k].calls ==> CallBacked(tr, k, tr[k].calls[d])
    requires c in tr[k + 1].calls
    ensures CallBacked(tr, k + 1, tr[k + 1].calls[c])
  {
    hide InForce, Permits;
    if c in tr[k].calls {
      CallStaysBacked(tr, k, tr[k].calls[c]);
    }
    if ev.LoadConfig? && ev.call == c {
      var snap := tr[k].calls[c].snap;
      assert InForce(tr[k].policy, snap.kind, snap.tenant, ev.version, ev.entry.step);
    }
    if ev.CheckPermission? && ev.call == c {
      var entry := tr[k].calls[c].entry;
      assert Permits(tr[k].policy, entry.actor, entry.step.perm);
    }
  }

  lemma EntriesBacked(tr: seq<World>, k: nat, ev: Event, n: nat)
    requires k + 1 < |tr| && Inv(tr[k]) && Enabled(tr[k], ev) && Do(tr[k], ev) == tr[k + 1]
    requires forall d :: d in tr[k].calls ==> CallBacked(tr, k, tr[k].calls[d])
    requires forall m :: 0 <= m < |tr[k].db.log| ==> EntryBacked(tr, k, tr[k].db.log[m])
    requires n < |tr[k + 1].db.log|
    ensures EntryBacked(tr, k + 1, tr[k + 1].db.log[n])
  {
    hide InForce, Permits;
    var (db, db') := (tr[k].db, tr[k + 1].db);
    if n < |db.log| {
      assert db'.log[n] == db.log[n];
      EntryStaysBacked(tr, k, db.log[n]);
    } else {
      var call := tr[k].calls[ev.call];
      assert CallOk(db, call) && CallBacked(tr, k, call);
    }
  }

  /** Every logged transition was configured, and its actor permitted, at some moment before it was recorded. */
  lemma {:induction false} AlwaysBacked(tr: seq<World>, evs: seq<Event>, k: nat)
    requires Behaviour(tr, evs) && k < |tr|
    ensures forall c :: c in tr[k].calls ==> CallBacked(tr, k, tr[k].calls[c])
    ensures forall n :: 0 <= n < |tr[k].db.log| ==> EntryBacked(tr, k, tr[k].db.log[n])
    decreases k
  {
    hide Enabled, Do, Inv, CallBacked, EntryBacked;
    if k > 0 {
      AlwaysBacked(tr, evs, k - 1);
      Reached(tr, evs, k - 1);
      var ev := evs[k - 1];
      assert Happens(tr[k - 1], ev, tr[k]);
      forall c | c in tr[k].calls ensures CallBacked(tr, k, tr[k].calls[c]) {
        CallsBacked(tr, k - 1, ev, c);
      }
      forall n | 0 <= n < |tr[k].db.log| ensures EntryBacked(tr, k, tr[k].db.log[n]) {
        EntriesBacked(tr, k - 1, ev, n);
      }
    }
  }

  /** In so many words: a logged step was an active row of the tenant's configuration when the call loaded it. */
  lemma LoggedWasConfigured(tr: seq<World>, evs: seq<Event>, k: nat, n: nat) returns (i: nat, v: nat)
    requires Behaviour(tr, evs) && k < |tr| && n < |tr[k].db.log|
    ensures i <= k && tr[k].db.log[n].target in tr[k].db.born
    ensures var (s, b) := (tr[k].db.log[n].step, tr[k].db.born[tr[k].db.log[n].target]);
      var ck := ConfigKey(b.tenant, Key(b.kind, s.from, s.action), v);
      ck in tr[i].policy.configs && tr[i].policy.configs[ck] == Config(s.to, s.perm, true)
  {
    AlwaysBacked(tr, evs, k);
    var e := tr[k].db.log[n];
    assert EntryBacked(tr, k, e);
    var b := tr[k].db.born[e.target];
    i, v :| 0 <= i <= k && InForce(tr[i].policy, b.kind, b.tenant, v, e.step);
  }

  /** And its actor's role held the permission, and the actor had an agency if the permission's scope asks for one. */
  lemma LoggedWasGranted(tr: seq<World>, evs: seq<Event>, k: nat, n: nat) returns (i: nat)
    requires Behaviour(tr, evs) && k < |tr| && n < |tr[k].db.log|
    ensures var e := tr[k].db.log[n];
      && i <= k && (e.actor.role, e.step.perm) in tr[i].policy.grants
      && (e.step.perm.scope == Agency ==> e.actor.hasAgency)
  {
    AlwaysBacked(tr, evs, k);
    var e := tr[k].db.log[n];
    assert EntryBacked(tr, k, e);
    i :| 0 <= i <= k && Permits(tr[i].policy, e.actor, e.step.perm);
  }

  // ----- No lost update -----

  /** The call can no longer take effect: its snapshot is older than the row. */
  ghost predicate Outdated(w: World, d: CallId, id: Id, version: int) {
    && id in w.db.rows && version < w.db.rows[id].version
    && d in w.calls && !w.calls[d].Open?
    && (w.calls[d].Answered? || w.calls[d].Refused? || (w.calls[d].id == id && w.calls[d].snap.version == version))
  }

  lemma OutdatedStays(w: World, ev: Event, d: CallId, id: Id, version: int)
    requires Enabled(w, ev) && Outdated(w, d, id, version)
    ensures Outdated(Do(w, ev), d, id, version)
  {
    hide InForce, Permits, Locked, Logged;
  }

  lemma {:induction false} OutdatedForever(
      tr: seq<World>, evs: seq<Event>, i: nat, j: nat, d: CallId, id: Id, version: int)
    requires Behaviour(tr, evs) && i <= j < |tr| && Outdated(tr[i], d, id, version)
    ensures Outdated(tr[j], d, id, version)
    decreases j
  {
    hide Enabled, Do, Outdated;
    if i < j {
      OutdatedForever(tr, evs, i, j - 1, d, id, version);
      assert Happens(tr[j - 1], evs[j - 1], tr[j]);
      OutdatedStays(tr[j - 1], evs[j - 1], d, id, version);
    }
  }

  ghost predicate Waiting(call: Call, id: Id, version: int) {
    (call.Held? || call.Resolved? || call.Allowed?) && call.id == id && call.snap.version == version
  }

  /** Of two calls that read the same version of a row, once one has committed the other never even gets the lock. */
  lemma NoLostUpdate(tr: seq<World>, evs: seq<Event>, i: nat, c: CallId, d: CallId)
    requires Behaviour(tr, evs) && i < |evs|
    requires evs[i] == Commit(c) && c in tr[i].calls && tr[i].calls[c].Open?
    requires d in tr[i].calls && Waiting(tr[i].calls[d], tr[i].calls[c].id, tr[i].calls[c].snap.version)
    ensures forall k :: i < k < |tr| ==> d in tr[k].calls && !tr[k].calls[d].Open?
  {
    hide Do;
    Reached(tr, evs, i);
    assert Happens(tr[i], evs[i], tr[i + 1]);
    var call := tr[i].calls[c];
    CommitWins(tr[i], c, d);
    forall k | i < k < |tr| ensures d in tr[k].calls && !tr[k].calls[d].Open? {
      OutdatedForever(tr, evs, i + 1, k, d, call.id, call.snap.version);
    }
  }

  lemma CommitWins(w: World, c: CallId, d: CallId)
    requires Inv(w) && Enabled(w, Commit(c))
    requires d in w.calls && Waiting(w.calls[d], w.calls[c].id, w.calls[c].snap.version)
    ensures Outdated(Do(w, Commit(c)), d, w.calls[c].id, w.calls[c].snap.version)
  {
    assert CallOk(w.db, w.calls[c]);
  }
}
