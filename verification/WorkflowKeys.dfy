// Whose transition an idempotency key answers with. The key is looked up without the row it was used for
// (src/core/workflow/io/live-workflow.io.ts:150-156), and src/modules/ticketing/ticketing.service.ts confirms all the
// tickets of a batch under one key.
module WorkflowKeys {
  import opened Basics
  import opened WorkflowTable
  import opened WorkflowLoader
  import opened WorkflowEngine

  /** What was logged under the call's key is a transition of the call's own row. */
  ghost predicate OwnAnswer(log: seq<Entry>, call: Call)
    requires call.Answered?
  {
    exists n :: 0 <= n < |log| && log[n].key == call.key && log[n].target == call.id
  }

  /** Some call on the entry's row was answered under the entry's key: the one that logged it. */
  ghost predicate HasAuthor(w: World, e: Entry) {
    exists c :: c in w.calls && w.calls[c].Answered? && w.calls[c].key == e.key && w.calls[c].id == e.target
  }

  lemma AuthorStays(w: World, ev: Event, e: Entry)
    requires Enabled(w, ev) && HasAuthor(w, e)
    ensures HasAuthor(Do(w, ev), e)
  {
    hide InForce, Permits, Locked, Logged;
    var c :| c in w.calls && w.calls[c].Answered? && w.calls[c].key == e.key && w.calls[c].id == e.target;
    assert Do(w, ev).calls[c] == w.calls[c];
  }

  lemma CommitIsAuthor(w: World, c: CallId)
    requires Inv(w) && Enabled(w, Commit(c))
    ensures HasAuthor(Do(w, Commit(c)), w.calls[c].entry)
  {
    hide Locked, Logged, KeysUnique, LocksExclude;
    assert CallOk(w.db, w.calls[c]);
    assert Do(w, Commit(c)).calls[c].Answered?;
  }

  lemma LogGrew(w: World, ev: Event, n: nat)
    requires Enabled(w, ev) && n < |Do(w, ev).db.log|
    ensures n < |w.db.log| ==> Do(w, ev).db.log[n] == w.db.log[n]
    ensures n >= |w.db.log| ==> ev.Commit? && Do(w, ev).db.log[n] == w.calls[ev.call].entry
  {
    hide InForce, Permits, Locked, Logged;
  }

  lemma {:induction false} EveryEntryHasAuthor(tr: seq<World>, evs: seq<Event>, k: nat)
    requires Behaviour(tr, evs) && k < |tr|
    ensures forall n :: 0 <= n < |tr[k].db.log| ==> HasAuthor(tr[k], tr[k].db.log[n])
    decreases k
  {
    hide Enabled, Do, Inv, HasAuthor;
    if k > 0 {
      var (w, ev) := (tr[k - 1], evs[k - 1]);
      EveryEntryHasAuthor(tr, evs, k - 1);
      Reached(tr, evs, k - 1);
      assert Happens(w, ev, tr[k]);
      forall n | 0 <= n < |tr[k].db.log| ensures HasAuthor(tr[k], tr[k].db.log[n]) {
        LogGrew(w, ev, n);
        if n < |w.db.log| {
          AuthorStays(w, ev, w.db.log[n]);
        } else {
          CommitIsAuthor(w, ev.call);
        }
      }
    }
  }

  predicate SameKey(c: Call, d: Call) {
    c.Answered? && d.Answered? && c.key == d.key
  }

  /** No two answered calls used one key for two rows. */
  ghost predicate KeysNameRows(calls: map<CallId, Call>) {
    forall c, d :: c in calls && d in calls && SameKey(calls[c], calls[d]) ==> calls[c].id == calls[d].id
  }

  /**
   * Every answer concerns the caller's own row, and so the caller's own tenant, exactly when no key was used for two
   * rows.
   */
  lemma AnswersOwnIffKeysNameRows(tr: seq<World>, evs: seq<Event>, k: nat)
    requires Behaviour(tr, evs) && k < |tr|
    ensures (forall c :: c in tr[k].calls && tr[k].calls[c].Answered? ==> OwnAnswer(tr[k].db.log, tr[k].calls[c]))
       <==> KeysNameRows(tr[k].calls)
  {
    hide Behaviour;
    var (log, calls) := (tr[k].db.log, tr[k].calls);
    Reached(tr, evs, k);
    EveryEntryHasAuthor(tr, evs, k);
    if KeysNameRows(calls) {
      forall c | c in calls && calls[c].Answered? ensures OwnAnswer(log, calls[c]) {
        assert CallOk(tr[k].db, calls[c]);
        var n :| 0 <= n < |log| && log[n].key == calls[c].key;
        assert HasAuthor(tr[k], log[n]);
      }
    }
  }

  // ----- A batch under one key -----

  function Rows(a: Id, row: Record, b: Id, other: Record): map<Id, Record> {
    map[a := row, b := other]
  }

  /** Two rows, of which a call takes the first through `entry` and a second call then asks for the other. */
  function BatchWorlds(p: Policy, a: Id, row: Record, b: Id, other: Record, entry: Entry): seq<World> {
    var (born, moved) := (Rows(a, row, b, other), Rows(a, After(row, entry.step), b, other));
    var (before, after) := (Store(born, born, []), Store(moved, born, [entry]));
    var done := Answered(a, entry.key, entry.step.from, entry.step.to);
    [
      World(before, map[], p), World(before, map[0 := Held(a, row, entry.key)], p),
      World(before, map[0 := Resolved(a, row, entry)], p), World(before, map[0 := Allowed(a, row, entry)], p),
      World(before, map[0 := Open(a, row, entry)], p), World(after, map[0 := done], p),
      World(after, map[0 := done, 1 := Held(b, other, entry.key)], p),
      World(after, map[0 := done, 1 := done.(id := b)], p)
    ]
  }

  function BatchEvents(a: Id, b: Id, v: nat, entry: Entry): seq<Event> {
    [
      Read(0, a, entry.key), LoadConfig(0, v, entry), CheckPermission(0), Begin(0), Commit(0), Read(1, b, entry.key),
      FindReplay(1, 0)
    ]
  }

  lemma FirstPrepares(db: Store, p: Policy, row: Record, v: nat, entry: Entry)
    requires entry.target in db.rows && db.rows[entry.target] == row && Supported(row.kind)
    requires entry.step.from == row.status && InForce(p, row.kind, row.tenant, v, entry.step)
    requires Permits(p, entry.actor, entry.step.perm)
    ensures var a := entry.target;
      && Happens(World(db, map[], p), Read(0, a, entry.key), World(db, map[0 := Held(a, row, entry.key)], p))
      && Happens(World(db, map[0 := Held(a, row, entry.key)], p), LoadConfig(0, v, entry),
                 World(db, map[0 := Resolved(a, row, entry)], p))
      && Happens(World(db, map[0 := Resolved(a, row, entry)], p), CheckPermission(0),
                 World(db, map[0 := Allowed(a, row, entry)], p))
  {
    hide InForce, Permits;
  }

  lemma FirstCommits(db: Store, p: Policy, row: Record, entry: Entry)
    requires entry.target in db.rows && db.rows[entry.target] == row && db.log == []
    ensures var a := entry.target;
      && Happens(World(db, map[0 := Allowed(a, row, entry)], p), Begin(0),
                 World(db, map[0 := Open(a, row, entry)], p))
      && Happens(World(db, map[0 := Open(a, row, entry)], p), Commit(0),
                 World(Committed(db, entry), map[0 := Answered(a, entry.key, entry.step.from, entry.step.to)], p))
  {
  }

  lemma SecondIsAnswered(db: Store, p: Policy, done: Call, b: Id, other: Record, entry: Entry)
    requires b in db.rows && db.rows[b] == other && Supported(other.kind) && db.log == [entry]
    ensures Happens(World(db, map[0 := done], p), Read(1, b, entry.key),
                    World(db, map[0 := done, 1 := Held(b, other, entry.key)], p))
    ensures Happens(World(db, map[0 := done, 1 := Held(b, other, entry.key)], p), FindReplay(1, 0),
                    World(db, map[0 := done, 1 := Answered(b, entry.key, entry.step.from, entry.step.to)], p))
  {
  }

  lemma BatchHappens(p: Policy, a: Id, row: Record, b: Id, other: Record, v: nat, entry: Entry)
    requires a != b && Supported(row.kind) && Supported(other.kind)
    requires entry.target == a && entry.step.from == row.status
    requires InForce(p, row.kind, row.tenant, v, entry.step) && Permits(p, entry.actor, entry.step.perm)
    ensures Behaviour(BatchWorlds(p, a, row, b, other, entry), BatchEvents(a, b, v, entry))
  {
    hide InForce, Permits, Happens;
    var (born, moved) := (Rows(a, row, b, other), Rows(a, After(row, entry.step), b, other));
    var (before, after) := (Store(born, born, []), Store(moved, born, [entry]));
    FirstPrepares(before, p, row, v, entry);
    FirstCommits(before, p, row, entry);
    assert Committed(before, entry) == after by {
      assert born[a := After(row, entry.step)] == moved;
    }
    SecondIsAnswered(after, p, Answered(a, entry.key, entry.step.from, entry.step.to), b, other, entry);
  }

  /**
   * Two rows, whoever they belong to, and one key for both: the second call is answered that its row reached the
   * state the first row reached, and its row stays as it was. confirmBatch does this to every ticket but the first.
   */
  lemma SharedKeyLeavesRow(p: Policy, a: Id, row: Record, b: Id, other: Record, v: nat, entry: Entry)
    returns (tr: seq<World>, evs: seq<Event>)
    requires a != b && Supported(row.kind) && Supported(other.kind)
    requires entry.target == a && entry.step.from == row.status
    requires InForce(p, row.kind, row.tenant, v, entry.step) && Permits(p, entry.actor, entry.step.perm)
    ensures Behaviour(tr, evs) && |evs| == 7 && evs[5] == Read(1, b, entry.key)
    ensures 1 in tr[7].calls && tr[7].calls[1] == Answered(b, entry.key, entry.step.from, entry.step.to)
    ensures !OwnAnswer(tr[7].db.log, tr[7].calls[1])
    ensures tr[7].db.rows == map[a := After(row, entry.step), b := other]
  {
    hide InForce, Permits, Behaviour;
    tr, evs := BatchWorlds(p, a, row, b, other, entry), BatchEvents(a, b, v, entry);
    BatchHappens(p, a, row, b, other, v, entry);
  }
}
