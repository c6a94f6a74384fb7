// src/core/workflow/workflow.engine.ts: what becomes of one call of transition() among all the others.
module WorkflowCalls {
  import opened Basics
  import opened WorkflowTable
  import opened WorkflowLoader
  import opened WorkflowEngine

  // ----- A call keeps its row and its key, and its end -----

  function KeyOf(call: Call): Option<IdemKey> {
    match call
    case Held(_, _, key) => Some(key)
    case Answered(_, key, _, _) => Some(key)
    case Refused => None
    case _ => Some(call.entry.key)
  }

  /** The call is about that row under that key, unless it was refused. */
  predicate Asks(call: Call, id: Id, key: IdemKey) {
    call.Refused? || (call.id == id && KeyOf(call) == Some(key))
  }

  lemma AsksStays(w: World, ev: Event, c: CallId, id: Id, key: IdemKey)
    requires Enabled(w, ev) && c in w.calls && Asks(w.calls[c], id, key)
    ensures c in Do(w, ev).calls && Asks(Do(w, ev).calls[c], id, key)
  {
    hide InForce, Permits, Locked, Logged;
  }

  /** Whatever answers a call, it answers for the row and under the key the call came with. */
  lemma {:induction false} CallKeepsRequest(
      tr: seq<World>, evs: seq<Event>, i: nat, k: nat, c: CallId, id: Id, key: IdemKey)
    requires Behaviour(tr, evs) && i < k < |tr| && evs[i] == Read(c, id, key)
    ensures c in tr[k].calls && Asks(tr[k].calls[c], id, key)
    decreases k
  {
    assert Happens(tr[k - 1], evs[k - 1], tr[k]);
    if i + 1 < k {
      hide Enabled, Do, Asks;
      CallKeepsRequest(tr, evs, i, k - 1, c, id, key);
      AsksStays(tr[k - 1], evs[k - 1], c, id, key);
    }
  }

  lemma EndStays(w: World, ev: Event, c: CallId)
    requires Enabled(w, ev) && c in w.calls && (w.calls[c].Answered? || w.calls[c].Refused?)
    ensures c in Do(w, ev).calls && Do(w, ev).calls[c] == w.calls[c]
  {
    hide InForce, Permits, Locked, Logged;
  }

  /** A call that was refused never takes effect afterwards, and one that was answered keeps its answer. */
  lemma {:induction false} EndIsFinal(tr: seq<World>, evs: seq<Event>, i: nat, k: nat, c: CallId)
    requires Behaviour(tr, evs) && i <= k < |tr|
    requires c in tr[i].calls && (tr[i].calls[c].Answered? || tr[i].calls[c].Refused?)
    ensures c in tr[k].calls && tr[k].calls[c] == tr[i].calls[c]
    decreases k
  {
    hide Enabled, Do;
    if i < k {
      EndIsFinal(tr, evs, i, k - 1, c);
      assert Happens(tr[k - 1], evs[k - 1], tr[k]);
      EndStays(tr[k - 1], evs[k - 1], c);
    }
  }

  lemma RefusedForGood(tr: seq<World>, evs: seq<Event>, i: nat, k: nat, c: CallId)
    requires Behaviour(tr, evs) && i < k < |tr| && evs[i] == Refuse(c)
    ensures c in tr[k].calls && tr[k].calls[c] == Refused
  {
    assert Happens(tr[i], evs[i], tr[i + 1]);
    EndIsFinal(tr, evs, i + 1, k, c);
  }

  // ----- Kinds without a table -----

  ghost predicate NoDrivers(w: World) {
    && (forall c :: c in w.calls && !w.calls[c].Answered? && !w.calls[c].Refused? ==> w.calls[c].snap.kind != Driver)
    && (forall n :: 0 <= n < |w.db.log| ==>
          w.db.log[n].target in w.db.born && w.db.born[w.db.log[n].target].kind != Driver)
  }

  lemma EventKeepsNoDrivers(w: World, ev: Event)
    requires Inv(w) && Enabled(w, ev) && NoDrivers(w)
    ensures NoDrivers(Do(w, ev))
  {
    hide InForce, Permits, Locked, Logged, KeysUnique, LocksExclude;
    if ev.Commit? {
      assert CallOk(w.db, w.calls[ev.call]);
    }
  }

  /** Transitions of drivers are configured for every tenant, but none is ever logged. */
  lemma {:induction false} DriversNeverMove(tr: seq<World>, evs: seq<Event>, k: nat)
    requires Behaviour(tr, evs) && k < |tr|
    ensures NoDrivers(tr[k])
    decreases k
  {
    hide Enabled, Do, Inv;
    if k > 0 {
      hide NoDrivers;
      DriversNeverMove(tr, evs, k - 1);
      Reached(tr, evs, k - 1);
      assert Happens(tr[k - 1], evs[k - 1], tr[k]);
      EventKeepsNoDrivers(tr[k - 1], evs[k - 1]);
    }
  }

  // ----- A key that is logged -----

  /** Some transition was logged under the call's key, and the call does not hold the lock. */
  ghost predicate Barred(w: World, c: CallId, key: IdemKey) {
    && (exists n :: 0 <= n < |w.db.log| && w.db.log[n].key == key)
    && c in w.calls && !w.calls[c].Open? && (w.calls[c].Refused? || KeyOf(w.calls[c]) == Some(key))
  }

  lemma BarredStays(w: World, ev: Event, c: CallId, key: IdemKey)
    requires Enabled(w, ev) && Barred(w, c, key)
    ensures Barred(Do(w, ev), c, key)
  {
    hide InForce, Permits, Locked;
    var n :| 0 <= n < |w.db.log| && w.db.log[n].key == key;
    assert Do(w, ev).db.log[n] == w.db.log[n];
  }

  /** Once a key is logged no other call with it gets as far as the lock, let alone a second effect. */
  lemma {:induction false} LoggedKeyNeverLocks(
      tr: seq<World>, evs: seq<Event>, i: nat, k: nat, c: CallId, key: IdemKey)
    requires Behaviour(tr, evs) && i <= k < |tr| && Barred(tr[i], c, key)
    ensures c in tr[k].calls && !tr[k].calls[c].Open?
    ensures Barred(tr[k], c, key)
    decreases k
  {
    hide Enabled, Do;
    if i < k {
      LoggedKeyNeverLocks(tr, evs, i, k - 1, c, key);
      assert Happens(tr[k - 1], evs[k - 1], tr[k]);
      BarredStays(tr[k - 1], evs[k - 1], c, key);
    }
  }

  /** A call under a logged key can be answered before its transaction, in it, and at its insert. */
  lemma ReplayIsPossible(w: World, c: CallId, n: nat)
    requires c in w.calls && (w.calls[c].Held? || w.calls[c].Allowed? || w.calls[c].Open?)
    requires n < |w.db.log| && KeyOf(w.calls[c]) == Some(w.db.log[n].key)
    ensures Enabled(w, FindReplay(c, n))
    ensures var e := w.db.log[n];
      Do(w, FindReplay(c, n)) == w.(calls := w.calls[c := Answered(w.calls[c].id, e.key, e.step.from, e.step.to)])
  {
  }

  // ----- An uncontested call -----

  /** The events happen one after the other and lead from the one world to the other. */
  ghost predicate Leads(w: World, evs: seq<Event>, w': World)
    decreases |evs|
  {
    if evs == [] then w' == w else Enabled(w, evs[0]) && Leads(Do(w, evs[0]), evs[1..], w')
  }

  /** The tenant has that transition, active, and the actor may make it. */
  predicate Allows(p: Policy, row: Record, v: nat, entry: Entry) {
    var (s, ck) := (entry.step, ConfigKey(row.tenant, Key(row.kind, entry.step.from, entry.step.action), v));
    && s.from == row.status && ck in p.configs && p.configs[ck] == Config(s.to, s.perm, true)
    && (entry.actor.role, s.perm) in p.grants && (s.perm.scope == Agency ==> entry.actor.hasAgency)
  }

  lemma Prepares(w: World, c: CallId, v: nat, entry: Entry)
    requires c !in w.calls && entry.target in w.db.rows && w.db.rows[entry.target].kind != Driver
    requires Allows(w.policy, w.db.rows[entry.target], v, entry)
    ensures var (id, row) := (entry.target, w.db.rows[entry.target]);
      && Happens(w, Read(c, id, entry.key), w.(calls := w.calls[c := Held(id, row, entry.key)]))
      && Happens(w.(calls := w.calls[c := Held(id, row, entry.key)]), LoadConfig(c, v, entry),
                 w.(calls := w.calls[c := Resolved(id, row, entry)]))
      && Happens(w.(calls := w.calls[c := Resolved(id, row, entry)]), CheckPermission(c),
                 w.(calls := w.calls[c := Allowed(id, row, entry)]))
  {
  }

  /** Nobody else holds the row's lock or has logged the key. */
  ghost predicate Uncontested(w: World, entry: Entry) {
    && (forall d :: d in w.calls && w.calls[d].Open? ==> w.calls[d].id != entry.target)
    && (forall n :: 0 <= n < |w.db.log| ==> w.db.log[n].key != entry.key)
  }

  lemma Completes(w: World, c: CallId, entry: Entry)
    requires c !in w.calls && entry.target in w.db.rows && Uncontested(w, entry)
    ensures var (id, row) := (entry.target, w.db.rows[entry.target]);
      && Happens(w.(calls := w.calls[c := Allowed(id, row, entry)]), Begin(c),
                 w.(calls := w.calls[c := Open(id, row, entry)]))
      && Happens(w.(calls := w.calls[c := Open(id, row, entry)]), Commit(c),
                 w.(db := Committed(w.db, entry),
                    calls := w.calls[c := Answered(id, entry.key, entry.step.from, entry.step.to)]))
  {
  }

  /**
   * Whatever else is going on, a call on a row of a supported kind that is configured, permitted and uncontested can
   * go through: its row moves on by one version, its transition is logged, and nothing else changes.
   */
  lemma CallGoesThrough(w: World, c: CallId, v: nat, entry: Entry) returns (w': World)
    requires c !in w.calls && entry.target in w.db.rows && w.db.rows[entry.target].kind != Driver
    requires Allows(w.policy, w.db.rows[entry.target], v, entry) && Uncontested(w, entry)
    ensures Leads(
      w, [Read(c, entry.target, entry.key), LoadConfig(c, v, entry), CheckPermission(c), Begin(c), Commit(c)], w')
    ensures var row := w.db.rows[entry.target];
      && w'.db.rows == w.db.rows[entry.target := row.(status := entry.step.to, version := row.version + 1)]
      && w'.db.log == w.db.log + [entry] && w'.db.born == w.db.born && w'.policy == w.policy
      && w'.calls == w.calls[c := Answered(entry.target, entry.key, entry.step.from, entry.step.to)]
  {
    var (id, row) := (entry.target, w.db.rows[entry.target]);
    w' := w.(db := Committed(w.db, entry),
             calls := w.calls[c := Answered(id, entry.key, entry.step.from, entry.step.to)]);
    Prepares(w, c, v, entry);
    Completes(w, c, entry);
    hide Enabled, Do;
    LeadsNowhere(w');
    LeadsOne(w.(calls := w.calls[c := Open(id, row, entry)]), Commit(c), w', [], w');
    LeadsOne(w.(calls := w.calls[c := Allowed(id, row, entry)]), Begin(c),
             w.(calls := w.calls[c := Open(id, row, entry)]), [Commit(c)], w');
    LeadsOne(w.(calls := w.calls[c := Resolved(id, row, entry)]), CheckPermission(c),
             w.(calls := w.calls[c := Allowed(id, row, entry)]), [Begin(c), Commit(c)], w');
    LeadsOne(w.(calls := w.calls[c := Held(id, row, entry.key)]), LoadConfig(c, v, entry),
             w.(calls := w.calls[c := Resolved(id, row, entry)]), [CheckPermission(c), Begin(c), Commit(c)], w');
    LeadsOne(w, Read(c, id, entry.key), w.(calls := w.calls[c := Held(id, row, entry.key)]),
             [LoadConfig(c, v, entry), CheckPermission(c), Begin(c), Commit(c)], w');
    assert [Read(c, id, entry.key)] + [LoadConfig(c, v, entry), CheckPermission(c), Begin(c), Commit(c)]
        == [Read(c, id, entry.key), LoadConfig(c, v, entry), CheckPermission(c), Begin(c), Commit(c)];
  }

  lemma LeadsNowhere(w: World)
    ensures Leads(w, [], w)
  {
  }

  lemma LeadsOne(w: World, ev: Event, mid: World, evs: seq<Event>, w': World)
    requires Happens(w, ev, mid) && Leads(mid, evs, w')
    ensures Leads(w, [ev] + evs, w')
  {
    assert ([ev] + evs)[1..] == evs;
  }

  // ----- What is not the engine's -----

  /** Policies may change at any time, rows be inserted, unlocked rows be written, and unanswered calls fail. */
  lemma OthersAreFree(w: World, p: Policy, id: Id, record: Record, status: State, raises: bool, c: CallId)
    ensures Enabled(w, ChangePolicy(p)) && Do(w, ChangePolicy(p)) == World(w.db, w.calls, p)
    ensures id !in w.db.rows ==>
      && Enabled(w, Insert(id, record))
      && Do(w, Insert(id, record)) ==
           World(Store(w.db.rows[id := record], w.db.born[id := record], w.db.log), w.calls, w.policy)
    ensures id in w.db.rows && (forall d :: d in w.calls && w.calls[d].Open? ==> w.calls[d].id != id) ==>
      && Enabled(w, WriteOutside(id, status, raises))
      && var (r, w') := (w.db.rows[id], Do(w, WriteOutside(id, status, raises)));
         w' == w.(db := w.db.(rows := w.db.rows[
           id := r.(status := status, version := if raises then r.version + 1 else r.version)]))
    ensures c in w.calls && !w.calls[c].Answered? ==>
      Enabled(w, Refuse(c)) && Do(w, Refuse(c)) == World(w.db, w.calls[c := Refused], w.policy)
  {
  }
}
