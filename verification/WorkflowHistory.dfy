// What a row's version and the transition log tell about the row in the behaviours of the workflow engine, given that
// src/modules/public-portal/public-portal.service.ts and src/modules/staff/staff-assignment.service.ts write rows
// beside it.
module WorkflowHistory {
  import opened Basics
  import opened WorkflowTable
  import opened WorkflowRuns
  import opened WorkflowLoader
  import opened WorkflowEngine

  // ----- What versions and the log are worth -----

  /** An outside write that changes the row's status under an unchanged version. */
  predicate Silent(w: World, ev: Event, id: Id) {
    ev.WriteOutside? && ev.id == id && !ev.raises && id in w.db.rows && ev.status != w.db.rows[id].status
  }

  /** An outside write that changes the row at all. */
  predicate Alters(w: World, ev: Event, id: Id) {
    ev.WriteOutside? && ev.id == id && id in w.db.rows && (ev.raises || ev.status != w.db.rows[id].status)
  }

  ghost predicate NoneSilent(tr: seq<World>, evs: seq<Event>, k: nat, id: Id)
    requires k <= |evs| <= |tr|
  {
    forall m :: 0 <= m < k ==> !Silent(tr[m], evs[m], id)
  }

  ghost predicate NoneAlters(tr: seq<World>, evs: seq<Event>, k: nat, id: Id)
    requires k <= |evs| <= |tr|
  {
    forall m :: 0 <= m < k ==> !Alters(tr[m], evs[m], id)
  }

  /** Whenever the row had one version it was one and the same row. */
  ghost predicate VersionsIdentify(tr: seq<World>, k: nat, id: Id)
    requires k < |tr|
  {
    forall i, j :: 0 <= i <= j <= k ==> SameIfSameVersion(tr[i], tr[j], id)
  }

  predicate SameIfSameVersion(w: World, w': World, id: Id) {
    id in w.db.rows && id in w'.db.rows && w.db.rows[id].version == w'.db.rows[id].version ==>
      w.db.rows[id] == w'.db.rows[id]
  }

  /** A row stays, and either stays as it is or rises in version, unless it is written silently. */
  lemma RowRises(w: World, ev: Event, id: Id)
    requires Enabled(w, ev) && id in w.db.rows
    ensures id in Do(w, ev).db.rows
    ensures var (r, r') := (w.db.rows[id], Do(w, ev).db.rows[id]);
      && r.version <= r'.version
      && (r.version == r'.version && !Silent(w, ev, id) ==> r == r')
  {
    hide InForce, Permits, Locked, Logged;
  }

  lemma {:induction false} RowRose(tr: seq<World>, evs: seq<Event>, i: nat, j: nat, id: Id)
    requires Behaviour(tr, evs) && i <= j < |tr| && id in tr[i].db.rows
    ensures id in tr[j].db.rows && tr[i].db.rows[id].version <= tr[j].db.rows[id].version
    ensures NoneSilent(tr, evs, j, id) && tr[i].db.rows[id].version == tr[j].db.rows[id].version ==>
      tr[i].db.rows[id] == tr[j].db.rows[id]
    decreases j
  {
    hide Enabled, Do, Silent;
    if i < j {
      RowRose(tr, evs, i, j - 1, id);
      assert Happens(tr[j - 1], evs[j - 1], tr[j]);
      RowRises(tr[j - 1], evs[j - 1], id);
    }
  }

  /** Versions identify a row's states exactly when no outside write changed its status and left the version. */
  lemma VersionsIdentifyIffNoneSilent(tr: seq<World>, evs: seq<Event>, k: nat, id: Id)
    requires Behaviour(tr, evs) && k < |tr|
    ensures VersionsIdentify(tr, k, id) <==> NoneSilent(tr, evs, k, id)
  {
    hide Enabled, Do, Start;
    if NoneSilent(tr, evs, k, id) {
      forall i, j | 0 <= i <= j <= k ensures SameIfSameVersion(tr[i], tr[j], id) {
        if id in tr[i].db.rows {
          RowRose(tr, evs, i, j, id);
        }
      }
    }
    if m :| 0 <= m < k && Silent(tr[m], evs[m], id) {
      assert Happens(tr[m], evs[m], tr[m + 1]);
      SilentHides(tr[m], evs[m], id);
      assert !SameIfSameVersion(tr[m], tr[m + 1], id);
    }
  }

  lemma SilentHides(w: World, ev: Event, id: Id)
    requires Enabled(w, ev) && Silent(w, ev, id)
    ensures id in Do(w, ev).db.rows
    ensures Do(w, ev).db.rows[id].version == w.db.rows[id].version && Do(w, ev).db.rows[id] != w.db.rows[id]
  {
  }

  /** The row as it was when the call read it. */
  ghost predicate ReadAt(tr: seq<World>, k: nat, call: Call)
    requires k < |tr|
  {
    call.Answered? || call.Refused?
    || exists i :: 0 <= i <= k && call.id in tr[i].db.rows && tr[i].db.rows[call.id] == call.snap
  }

  lemma ReadAtLater(tr: seq<World>, k: nat, call: Call)
    requires k + 1 < |tr| && ReadAt(tr, k, call)
    ensures ReadAt(tr, k + 1, call)
  {
  }

  lemma {:induction false} SnapshotsAreReadings(tr: seq<World>, evs: seq<Event>, k: nat)
    requires Behaviour(tr, evs) && k < |tr|
    ensures forall c :: c in tr[k].calls ==> ReadAt(tr, k, tr[k].calls[c])
    decreases k
  {
    if k > 0 {
      SnapshotsAreReadings(tr, evs, k - 1);
      assert Happens(tr[k - 1], evs[k - 1], tr[k]);
      forall c | c in tr[k].calls ensures ReadAt(tr, k, tr[k].calls[c]) {
        SnapshotKept(tr, k - 1, evs[k - 1], c);
      }
    }
  }

  lemma SnapshotKept(tr: seq<World>, k: nat, ev: Event, c: CallId)
    requires k + 1 < |tr| && Happens(tr[k], ev, tr[k + 1]) && c in tr[k + 1].calls
    requires c in tr[k].calls ==> ReadAt(tr, k, tr[k].calls[c])
    ensures ReadAt(tr, k + 1, tr[k + 1].calls[c])
  {
    hide InForce, Permits, Locked, Logged;
    if c in tr[k].calls {
      ReadAtLater(tr, k, tr[k].calls[c]);
    }
  }

  /** Where no write was silent, a call that holds the lock starts from the row as it is. */
  lemma LockMeansCurrent(tr: seq<World>, evs: seq<Event>, k: nat, c: CallId)
    requires Behaviour(tr, evs) && k < |tr| && c in tr[k].calls && tr[k].calls[c].Open?
    requires NoneSilent(tr, evs, k, tr[k].calls[c].id)
    ensures tr[k].calls[c].id in tr[k].db.rows && tr[k].calls[c].snap == tr[k].db.rows[tr[k].calls[c].id]
  {
    var call := tr[k].calls[c];
    Reached(tr, evs, k);
    assert CallOk(tr[k].db, call);
    SnapshotsAreReadings(tr, evs, k);
    assert ReadAt(tr, k, call);
    var i :| 0 <= i <= k && call.id in tr[i].db.rows && tr[i].db.rows[call.id] == call.snap;
    RowRose(tr, evs, i, k, call.id);
  }

  /** The transitions of one row, in the order they were recorded. */
  function Of(log: seq<Entry>, id: Id): seq<Step> {
    if log == [] then []
    else
      var (before, last) := (Of(log[..|log| - 1], id), log[|log| - 1]);
      if last.target == id then before + [last.step] else before
  }

  lemma OfAppend(log: seq<Entry>, e: Entry, id: Id)
    ensures Of(log + [e], id) == if e.target == id then Of(log, id) + [e.step] else Of(log, id)
  {
    assert (log + [e])[..|log|] == log;
  }

  /** `b` becomes `r` by the steps, one after the other, each starting in the state the one before it reached. */
  ghost predicate Becomes(b: Record, steps: seq<Step>, r: Record) {
    if steps == [] then r == b
    else
      var last := steps[|steps| - 1];
      var before := r.(status := last.from, version := r.version - 1);
      r.status == last.to && Becomes(b, steps[..|steps| - 1], before)
  }

  lemma {:induction false} BecomesCounts(b: Record, steps: seq<Step>, r: Record)
    requires Becomes(b, steps, r)
    ensures r.version == b.version + |steps| && r.kind == b.kind && r.tenant == b.tenant
    ensures r.status == if steps == [] then b.status else steps[|steps| - 1].to
  {
    if steps != [] {
      var last := steps[|steps| - 1];
      BecomesCounts(b, steps[..|steps| - 1], r.(status := last.from, version := r.version - 1));
    }
  }

  lemma BecomesMore(b: Record, steps: seq<Step>, r: Record, s: Step)
    requires Becomes(b, steps, r) && s.from == r.status
    ensures Becomes(b, steps + [s], After(r, s))
  {
    assert (steps + [s])[..|steps|] == steps;
    assert After(r, s).(status := s.from, version := r.version) == r;
  }

  /** The steps say what the row became. */
  lemma {:induction false} BecomesOne(b: Record, steps: seq<Step>, r: Record, q: Record)
    requires Becomes(b, steps, r) && Becomes(b, steps, q)
    ensures r == q
  {
    if steps != [] {
      var last := steps[|steps| - 1];
      BecomesOne(b, steps[..|steps| - 1], r.(status := last.from, version := r.version - 1),
                 q.(status := last.from, version := q.version - 1));
    }
  }

  /** The row is its birth record carried along its own logged transitions, and its version counts them. */
  ghost predicate Explained(w: World, id: Id) {
    id in w.db.rows ==>
      id in w.db.born && Becomes(w.db.born[id], Of(w.db.log, id), w.db.rows[id])
  }

  lemma {:induction false} OfNew(log: seq<Entry>, id: Id)
    requires forall i :: 0 <= i < |log| ==> log[i].target != id
    ensures Of(log, id) == []
  {
    if log != [] {
      OfNew(log[..|log| - 1], id);
    }
  }

  /** An event that neither commits nor alters the row leaves it explained. */
  lemma EventExplains(w: World, ev: Event, id: Id)
    requires Inv(w) && Enabled(w, ev) && Explained(w, id) && !Alters(w, ev, id) && !ev.Commit?
    ensures Explained(Do(w, ev), id)
  {
    hide InForce, Permits, Locked, Logged, Becomes, Of, KeysUnique, LocksExclude, CallOk;
    if ev.Insert? && ev.id == id {
      OfNew(w.db.log, id);
      NothingYet(ev.record);
    }
  }

  lemma NothingYet(r: Record)
    ensures Becomes(r, [], r)
  {
  }

  lemma AlterationUnexplained(w: World, ev: Event, id: Id)
    requires Enabled(w, ev) && Alters(w, ev, id) && Explained(w, id)
    ensures !Explained(Do(w, ev), id)
  {
    hide Becomes, Of, Locked;
    var w' := Do(w, ev);
    if Explained(w', id) {
      BecomesOne(w.db.born[id], Of(w.db.log, id), w.db.rows[id], w'.db.rows[id]);
    }
  }

  lemma NoneAltersNoneSilent(tr: seq<World>, evs: seq<Event>, k: nat, id: Id)
    requires k <= |evs| <= |tr| && NoneAlters(tr, evs, k, id)
    ensures NoneSilent(tr, evs, k, id)
  {
    forall m | 0 <= m < k ensures !Silent(tr[m], evs[m], id) {
      assert !Alters(tr[m], evs[m], id);
    }
  }

  lemma StartExplained(w: World, id: Id)
    requires Start(w)
    ensures Explained(w, id)
  {
  }

  lemma {:induction false} UnalteredIsExplained(tr: seq<World>, evs: seq<Event>, k: nat, id: Id)
    requires Behaviour(tr, evs) && k < |tr| && NoneAlters(tr, evs, k, id)
    ensures Explained(tr[k], id)
    decreases k
  {
    hide Enabled, Do, Start, Explained, Inv, Alters;
    if k == 0 {
      StartExplained(tr[0], id);
    } else {
      var (w, ev) := (tr[k - 1], evs[k - 1]);
      UnalteredIsExplained(tr, evs, k - 1, id);
      Reached(tr, evs, k - 1);
      assert Happens(w, ev, tr[k]);
      if ev.Commit? {
        CommitExplains(tr, evs, k - 1, id);
      } else {
        EventExplains(w, ev, id);
      }
    }
  }

  lemma CommitExplains(tr: seq<World>, evs: seq<Event>, k: nat, id: Id)
    requires Behaviour(tr, evs) && k < |evs| && evs[k].Commit? && NoneAlters(tr, evs, k, id) && Explained(tr[k], id)
    ensures Explained(tr[k + 1], id)
  {
    hide Becomes, Of, Start, InForce, Permits, KeysUnique, LocksExclude;
    var (w, c) := (tr[k], evs[k].call);
    Reached(tr, evs, k);
    assert Happens(w, evs[k], tr[k + 1]);
    var call := w.calls[c];
    assert CallOk(w.db, call);
    OfAppend(w.db.log, call.entry, id);
    if call.entry.target == id {
      NoneAltersNoneSilent(tr, evs, k, id);
      LockMeansCurrent(tr, evs, k, c);
      BecomesMore(w.db.born[id], Of(w.db.log, id), w.db.rows[id], call.entry.step);
    }
  }

  /**
   * At every moment the log is the row's history, each transition starting where the one before it ended and the
   * version counting them, exactly when no outside write ever altered the row.
   */
  lemma LogIsHistoryIffNoneAlters(tr: seq<World>, evs: seq<Event>, k: nat, id: Id)
    requires Behaviour(tr, evs) && k < |tr|
    ensures (forall j :: 0 <= j <= k ==> Explained(tr[j], id)) <==> NoneAlters(tr, evs, k, id)
  {
    hide Enabled, Do, Start, Explained, Alters;
    if NoneAlters(tr, evs, k, id) {
      forall j | 0 <= j <= k ensures Explained(tr[j], id) {
        UnalteredIsExplained(tr, evs, j, id);
      }
    }
    if m :| 0 <= m < k && Alters(tr[m], evs[m], id) {
      assert Happens(tr[m], evs[m], tr[m + 1]);
      if Explained(tr[m], id) {
        AlterationUnexplained(tr[m], evs[m], id);
      }
    }
  }

  // ----- Two services that write beside the engine -----

  /** A world of one row and at most one call. */
  function Scene(id: Id, born: Record, row: Record, log: seq<Entry>, calls: map<CallId, Call>, p: Policy): World {
    World(Store(map[id := row], map[id := born], log), calls, p)
  }

  function Empty(p: Policy): World {
    World(Store(map[], map[], []), map[], p)
  }

  /** What one call does before its transaction. */
  lemma CallPrepares(id: Id, born: Record, row: Record, v: nat, entry: Entry, p: Policy)
    requires entry.target == id && entry.step.from == row.status && Supported(row.kind)
    requires InForce(p, row.kind, row.tenant, v, entry.step) && Permits(p, entry.actor, entry.step.perm)
    ensures Happens(Scene(id, born, row, [], map[], p), Read(0, id, entry.key),
                    Scene(id, born, row, [], map[0 := Held(id, row, entry.key)], p))
    ensures Happens(Scene(id, born, row, [], map[0 := Held(id, row, entry.key)], p), LoadConfig(0, v, entry),
                    Scene(id, born, row, [], map[0 := Resolved(id, row, entry)], p))
    ensures Happens(Scene(id, born, row, [], map[0 := Resolved(id, row, entry)], p), CheckPermission(0),
                    Scene(id, born, row, [], map[0 := Allowed(id, row, entry)], p))
  {
    hide InForce, Permits;
  }

  /** And in it, if the row has become `now` under the version it read. */
  lemma CallCommits(id: Id, born: Record, row: Record, now: Record, end: Record, entry: Entry, p: Policy)
    requires entry.target == id && entry.step.from == row.status && row.version == now.version
    requires end == After(now, entry.step)
    ensures Happens(Scene(id, born, now, [], map[0 := Allowed(id, row, entry)], p), Begin(0),
                    Scene(id, born, now, [], map[0 := Open(id, row, entry)], p))
    ensures Happens(Scene(id, born, now, [], map[0 := Open(id, row, entry)], p), Commit(0),
                    Scene(id, born, end, [entry],
                          map[0 := Answered(id, entry.key, entry.step.from, entry.step.to)], p))
  {
  }

  lemma InsertScene(id: Id, born: Record, p: Policy)
    ensures Happens(Empty(p), Insert(id, born), Scene(id, born, born, [], map[], p))
  {
  }

  lemma WriteScene(id: Id, born: Record, row: Record, now: Record, calls: map<CallId, Call>, p: Policy,
      status: State, raises: bool)
    requires !Locked(calls, id) && now == Rewritten(row, status, raises)
    ensures Happens(Scene(id, born, row, [], calls, p), WriteOutside(id, status, raises),
                    Scene(id, born, now, [], calls, p))
  {
  }

  lemma EmptyStarts(p: Policy)
    ensures Start(Empty(p))
  {
  }

  function PortalWorlds(p: Policy, id: Id, t: Tenant, entry: Entry): seq<World> {
    var (born, row) := (Record(Ticket, t, PENDING_PAYMENT, 0), Record(Ticket, t, CONFIRMED, 1));
    [
      Empty(p), Scene(id, born, born, [], map[], p), Scene(id, born, row, [], map[], p),
      Scene(id, born, row, [], map[0 := Held(id, row, entry.key)], p),
      Scene(id, born, row, [], map[0 := Resolved(id, row, entry)], p),
      Scene(id, born, row, [], map[0 := Allowed(id, row, entry)], p),
      Scene(id, born, row, [], map[0 := Open(id, row, entry)], p),
      Scene(id, born, Record(Ticket, t, CHECKED_IN, 2), [entry],
            map[0 := Answered(id, entry.key, CONFIRMED, CHECKED_IN)], p)
    ]
  }

  function PortalEvents(id: Id, t: Tenant, v: nat, entry: Entry): seq<Event> {
    [
      Insert(id, Record(Ticket, t, PENDING_PAYMENT, 0)), WriteOutside(id, CONFIRMED, true),
      Read(0, id, entry.key), LoadConfig(0, v, entry), CheckPermission(0), Begin(0), Commit(0)
    ]
  }

  lemma PortalHappens(p: Policy, id: Id, t: Tenant, v: nat, entry: Entry)
    requires InForce(p, Ticket, t, v, TICKET_CHECK_IN) && Permits(p, entry.actor, TICKET_CHECK_IN.perm)
    requires entry.target == id && entry.step == TICKET_CHECK_IN
    ensures Behaviour(PortalWorlds(p, id, t, entry), PortalEvents(id, t, v, entry))
  {
    hide InForce, Permits, Happens, Scene, Start;
    var (born, row) := (Record(Ticket, t, PENDING_PAYMENT, 0), Record(Ticket, t, CONFIRMED, 1));
    EmptyStarts(p);
    InsertScene(id, born, p);
    WriteScene(id, born, born, row, map[], p, CONFIRMED, true);
    CallPrepares(id, born, row, v, entry, p);
    CallCommits(id, born, row, row, Record(Ticket, t, CHECKED_IN, 2), entry, p);
  }

  /**
   * The public portal confirms a ticket by itself, raising the version. Checked in through the engine afterwards, the
   * ticket has a log that starts in a state nothing logged brought it to.
   */
  lemma PortalTicket(p: Policy, id: Id, t: Tenant, v: nat, entry: Entry) returns (tr: seq<World>, evs: seq<Event>)
    requires InForce(p, Ticket, t, v, TICKET_CHECK_IN) && Permits(p, entry.actor, TICKET_CHECK_IN.perm)
    requires entry.target == id && entry.step == TICKET_CHECK_IN
    ensures Behaviour(tr, evs) && |evs| == 7 && evs[1] == WriteOutside(id, CONFIRMED, true)
    ensures tr[7].db == Store(map[id := Record(Ticket, t, CHECKED_IN, 2)],
                              map[id := Record(Ticket, t, PENDING_PAYMENT, 0)], [entry])
    ensures NoneSilent(tr, evs, 7, id) && !Explained(tr[7], id)
  {
    hide InForce, Permits, Scene, Behaviour, Explained;
    var (born, end) := (Record(Ticket, t, PENDING_PAYMENT, 0), Record(Ticket, t, CHECKED_IN, 2));
    tr, evs := PortalWorlds(p, id, t, entry), PortalEvents(id, t, v, entry);
    PortalHappens(p, id, t, v, entry);
    SceneStore(id, born, end, [entry], map[0 := Answered(id, entry.key, CONFIRMED, CHECKED_IN)], p);
    OneStepLogged(tr[7], id, entry);
  }

  lemma SceneStore(id: Id, born: Record, row: Record, log: seq<Entry>, calls: map<CallId, Call>, p: Policy)
    ensures var w := Scene(id, born, row, log, calls, p);
      w.db == Store(map[id := row], map[id := born], log) && w.calls == calls
  {
  }

  lemma OneStepLogged(w: World, id: Id, entry: Entry)
    requires entry.target == id && w.db.log == [entry] && id in w.db.rows && id in w.db.born
    requires w.db.rows[id].version != w.db.born[id].version + 1
    ensures !Explained(w, id)
  {
    OfAppend([], entry, id);
    assert [] + [entry] == [entry];
    if Explained(w, id) {
      BecomesCounts(w.db.born[id], Of(w.db.log, id), w.db.rows[id]);
    }
  }

  function ClosingWorlds(p: Policy, id: Id, t: Tenant, entry: Entry): seq<World> {
    var (row, now) := (Record(StaffAssignment, t, ACTIVE, 1), Record(StaffAssignment, t, CLOSED, 1));
    [
      Empty(p), Scene(id, row, row, [], map[], p), Scene(id, row, row, [], map[0 := Held(id, row, entry.key)], p),
      Scene(id, row, row, [], map[0 := Resolved(id, row, entry)], p),
      Scene(id, row, row, [], map[0 := Allowed(id, row, entry)], p),
      Scene(id, row, now, [], map[0 := Allowed(id, row, entry)], p),
      Scene(id, row, now, [], map[0 := Open(id, row, entry)], p),
      Scene(id, row, Record(StaffAssignment, t, SUSPENDED, 2), [entry],
            map[0 := Answered(id, entry.key, ACTIVE, SUSPENDED)], p)
    ]
  }

  function ClosingEvents(id: Id, t: Tenant, v: nat, entry: Entry): seq<Event> {
    [
      Insert(id, Record(StaffAssignment, t, ACTIVE, 1)), Read(0, id, entry.key), LoadConfig(0, v, entry),
      CheckPermission(0), WriteOutside(id, CLOSED, false), Begin(0), Commit(0)
    ]
  }

  lemma ClosingHappens(p: Policy, id: Id, t: Tenant, v: nat, entry: Entry)
    requires InForce(p, StaffAssignment, t, v, ASSIGNMENT_SUSPEND) && Permits(p, entry.actor, ASSIGNMENT_SUSPEND.perm)
    requires entry.target == id && entry.step == ASSIGNMENT_SUSPEND
    ensures Behaviour(ClosingWorlds(p, id, t, entry), ClosingEvents(id, t, v, entry))
  {
    hide InForce, Permits, Happens, Scene, Start;
    var (row, now) := (Record(StaffAssignment, t, ACTIVE, 1), Record(StaffAssignment, t, CLOSED, 1));
    EmptyStarts(p);
    InsertScene(id, row, p);
    WriteScene(id, row, row, now, map[0 := Allowed(id, row, entry)], p, CLOSED, false);
    CallPrepares(id, row, row, v, entry, p);
    CallCommits(id, row, row, now, Record(StaffAssignment, t, SUSPENDED, 2), entry, p);
  }

  /**
   * The staff service closes an assignment and leaves its version. A call that read it before still finds the version
   * it expects, and takes the closed assignment to SUSPENDED, although no default transition leaves CLOSED.
   */
  lemma ClosedAssignment(p: Policy, id: Id, t: Tenant, v: nat, entry: Entry) returns (tr: seq<World>, evs: seq<Event>)
    requires InForce(p, StaffAssignment, t, v, ASSIGNMENT_SUSPEND) && Permits(p, entry.actor, ASSIGNMENT_SUSPEND.perm)
    requires entry.target == id && entry.step == ASSIGNMENT_SUSPEND
    ensures Behaviour(tr, evs) && |evs| == 7 && evs[4] == WriteOutside(id, CLOSED, false) && evs[5] == Begin(0)
    ensures tr[4].db.rows == map[id := Record(StaffAssignment, t, ACTIVE, 1)]
    ensures tr[5].db.rows == map[id := Record(StaffAssignment, t, CLOSED, 1)]
    ensures tr[5].calls == map[0 := Allowed(id, Record(StaffAssignment, t, ACTIVE, 1), entry)]
    ensures tr[7].db.rows == map[id := Record(StaffAssignment, t, SUSPENDED, 2)]
  {
    hide InForce, Permits, Scene, Behaviour;
    var (row, now) := (Record(StaffAssignment, t, ACTIVE, 1), Record(StaffAssignment, t, CLOSED, 1));
    tr, evs := ClosingWorlds(p, id, t, entry), ClosingEvents(id, t, v, entry);
    ClosingHappens(p, id, t, v, entry);
    SceneStore(id, row, row, [], map[0 := Allowed(id, row, entry)], p);
    SceneStore(id, row, now, [], map[0 := Allowed(id, row, entry)], p);
    SceneStore(id, row, Record(StaffAssignment, t, SUSPENDED, 2), [entry],
               map[0 := Answered(id, entry.key, ACTIVE, SUSPENDED)], p);
  }

  /** So there the version does not tell the closed row from the active one. */
  lemma ClosedLooksActive(p: Policy, id: Id, t: Tenant, v: nat, entry: Entry) returns (tr: seq<World>, evs: seq<Event>)
    requires InForce(p, StaffAssignment, t, v, ASSIGNMENT_SUSPEND) && Permits(p, entry.actor, ASSIGNMENT_SUSPEND.perm)
    requires entry.target == id && entry.step == ASSIGNMENT_SUSPEND
    ensures Behaviour(tr, evs) && |evs| == 7 && !VersionsIdentify(tr, 7, id)
  {
    hide InForce, Permits, Behaviour;
    tr, evs := ClosedAssignment(p, id, t, v, entry);
    assert |tr| == 8 by { BehaviourLength(tr, evs); }
    assert !SameIfSameVersion(tr[4], tr[5], id);
  }

  lemma BehaviourLength(tr: seq<World>, evs: seq<Event>)
    requires Behaviour(tr, evs)
    ensures |tr| == |evs| + 1
  {
  }

  lemma NothingLeavesClosed(s: Step)
    requires s in StepsOf(StaffAssignment)
    ensures s.from != CLOSED
  {
    hide StepsOf;
    StepsListed(StaffAssignment, s);
  }

  // ----- Doors: what a state proves about the log, whoever writes beside the engine -----

  /** Among the first `n` entries is one of the row's that goes through the gate. */
  ghost predicate Gated(log: seq<Entry>, n: nat, id: Id, g: Step -> bool) {
    exists x :: 0 <= x < n <= |log| && log[x].target == id && g(log[x].step)
  }

  /** If the row, a reading of it, or the start of a logged transition of it lies in `d`, the gate was passed before. */
  ghost predicate Watched(w: World, id: Id, d: State -> bool, g: Step -> bool) {
    && (id in w.db.rows && d(w.db.rows[id].status) ==> Gated(w.db.log, |w.db.log|, id, g))
    && (forall c :: c in w.calls && Reading(w.calls[c], id) && d(w.calls[c].snap.status) ==>
          Gated(w.db.log, |w.db.log|, id, g))
    && (forall y :: 0 <= y < |w.db.log| && w.db.log[y].target == id && d(w.db.log[y].step.from) ==>
          Gated(w.db.log, y, id, g))
  }

  predicate Reading(call: Call, id: Id) {
    !call.Answered? && !call.Refused? && call.id == id
  }

  /** The event neither inserts the row in `d` nor writes it into `d` outside the engine. */
  predicate NoBackDoor(ev: Event, id: Id, d: State -> bool) {
    match ev
    case Insert(i, r) => i == id ==> !d(r.status)
    case WriteOutside(i, status, _) => i == id ==> !d(status)
    case _ => true
  }

  predicate OnlyThrough(s: Step, d: State -> bool, g: Step -> bool) {
    !d(s.from) && d(s.to) ==> g(s)
  }

  lemma GatedLater(log: seq<Entry>, e: Entry, n: nat, id: Id, g: Step -> bool)
    requires Gated(log, n, id, g)
    ensures Gated(log + [e], n, id, g) && Gated(log + [e], |log| + 1, id, g)
  {
    var x :| 0 <= x < n <= |log| && log[x].target == id && g(log[x].step);
    assert (log + [e])[x] == log[x];
  }

  lemma StepWatched(w: World, ev: Event, id: Id, d: State -> bool, g: Step -> bool)
    requires Inv(w) && Enabled(w, ev) && Watched(w, id, d, g) && NoBackDoor(ev, id, d)
    requires ev.Commit? && w.calls[ev.call].id == id ==> OnlyThrough(w.calls[ev.call].entry.step, d, g)
    ensures Watched(Do(w, ev), id, d, g)
  {
    hide InForce, Permits, Locked, Logged, Gated;
    if ev.Commit? {
      var call := w.calls[ev.call];
      assert CallOk(w.db, call);
      CommitWatched(w, ev.call, id, d, g);
    }
  }

  lemma CommitWatched(w: World, c: CallId, id: Id, d: State -> bool, g: Step -> bool)
    requires Inv(w) && Enabled(w, Commit(c)) && Watched(w, id, d, g)
    requires w.calls[c].id == id ==> OnlyThrough(w.calls[c].entry.step, d, g)
    ensures Watched(Do(w, Commit(c)), id, d, g)
  {
    hide Gated, Locked, Logged, KeysUnique, LocksExclude;
    var (log, entry, w') := (w.db.log, w.calls[c].entry, Do(w, Commit(c)));
    assert CallOk(w.db, w.calls[c]);
    forall n: nat | Gated(log, n, id, g)
      ensures Gated(log + [entry], n, id, g) && Gated(log + [entry], |log| + 1, id, g)
    {
      GatedLater(log, entry, n, id, g);
    }
    if entry.target == id && g(entry.step) {
      GatedNow(log, entry, g);
    }
  }

  lemma GatedNow(log: seq<Entry>, e: Entry, g: Step -> bool)
    requires g(e.step)
    ensures Gated(log + [e], |log| + 1, e.target, g)
  {
    assert (log + [e])[|log|] == e;
  }

  /** Every logged transition of the row that enters `d` goes through the gate. */
  ghost predicate LogOnlyThrough(log: seq<Entry>, id: Id, d: State -> bool, g: Step -> bool) {
    forall n :: 0 <= n < |log| && log[n].target == id ==> OnlyThrough(log[n].step, d, g)
  }

  /** The log only grows, by the entry of the call that commits. */
  lemma LogGrows(w: World, ev: Event)
    requires Enabled(w, ev)
    ensures w.db.log <= Do(w, ev).db.log
    ensures ev.Commit? ==> Do(w, ev).db.log == w.db.log + [w.calls[ev.call].entry]
  {
    hide InForce, Permits, Locked, Logged;
  }

  lemma StartWatched(w: World, id: Id, d: State -> bool, g: Step -> bool)
    requires Start(w) && (id in w.db.rows ==> !d(w.db.rows[id].status))
    ensures Watched(w, id, d, g)
  {
  }

  /**
   * Whatever else is written beside the engine: if the row neither begins in `d` nor is written into it outside, and
   * its logged transitions enter `d` only through the gate, then whenever the row is in `d`, or someone acts on a
   * reading of it in `d`, the gate was passed before.
   */
  lemma {:induction false} DoorsWatched(
      tr: seq<World>, evs: seq<Event>, k: nat, id: Id, d: State -> bool, g: Step -> bool)
    requires Behaviour(tr, evs) && k < |tr|
    requires id in tr[0].db.rows ==> !d(tr[0].db.rows[id].status)
    requires forall m :: 0 <= m < k ==> NoBackDoor(evs[m], id, d)
    requires LogOnlyThrough(tr[k].db.log, id, d, g)
    ensures Watched(tr[k], id, d, g)
    decreases k
  {
    hide Enabled, Do, Inv, Start, Watched, OnlyThrough, NoBackDoor;
    if k == 0 {
      StartWatched(tr[0], id, d, g);
    } else {
      var (w, ev) := (tr[k - 1], evs[k - 1]);
      assert Happens(w, ev, tr[k]);
      LogGrows(w, ev);
      assert forall n :: 0 <= n < |w.db.log| ==> w.db.log[n] == tr[k].db.log[n];
      DoorsWatched(tr, evs, k - 1, id, d, g);
      Reached(tr, evs, k - 1);
      if ev.Commit? {
        CommitsOwn(w, ev.call);
        assert tr[k].db.log[|w.db.log|] == w.calls[ev.call].entry;
      }
      StepWatched(w, ev, id, d, g);
    }
  }

  lemma CommitsOwn(w: World, c: CallId)
    requires Inv(w) && Enabled(w, Commit(c))
    ensures c in w.calls && w.calls[c].Open? && w.calls[c].entry.target == w.calls[c].id
  {
    assert CallOk(w.db, w.calls[c]);
  }

  // ----- With the default configuration -----

  /** The tenant's configurations are rows of the default table. */
  ghost predicate DefaultsOnly(p: Policy, tenant: Tenant) {
    forall ck :: ck in p.configs && ck.tenant == tenant ==>
      Row(ck.key, p.configs[ck].to, p.configs[ck].perm) in DEFAULT_WORKFLOW_CONFIGS
  }

  /** What a boot leaves a tenant that had no configuration is rows of the default table. */
  lemma BootedIsDefaultsOnly(table: Table, tenants: seq<Tenant>, grants: set<(RoleId, Permission)>, t: Tenant)
    requires Unconfigured(table, t)
    ensures DefaultsOnly(Policy(Booted(table, tenants, DEFAULT_WORKFLOW_CONFIGS), grants), t)
  {
    hide Booted, FirstRow, DEFAULT_WORKFLOW_CONFIGS;
    var after := Booted(table, tenants, DEFAULT_WORKFLOW_CONFIGS);
    forall ck | ck in after && ck.tenant == t
      ensures Row(ck.key, after[ck].to, after[ck].perm) in DEFAULT_WORKFLOW_CONFIGS
    {
      BootedAt(table, tenants, DEFAULT_WORKFLOW_CONFIGS, ck);
      FirstRowIsFirst(DEFAULT_WORKFLOW_CONFIGS, ck.key);
    }
  }

  lemma InForceIsListed(p: Policy, kind: Entity, tenant: Tenant, v: nat, s: Step)
    requires DefaultsOnly(p, tenant) && InForce(p, kind, tenant, v, s)
    ensures s in StepsOf(kind)
  {
    hide DEFAULT_WORKFLOW_CONFIGS, StepsOf;
    TableByEntity(Row(Key(kind, s.from, s.action), s.to, s.perm));
  }

  lemma {:induction false} OfLogged(log: seq<Entry>, id: Id, m: nat) returns (n: nat)
    requires m < |Of(log, id)|
    ensures n < |log| && log[n].target == id && log[n].step == Of(log, id)[m]
  {
    var front := log[..|log| - 1];
    if m < |Of(front, id)| {
      n := OfLogged(front, id, m);
    } else {
      n := |log| - 1;
    }
  }

  lemma {:induction false} BecomesRuns(steps: seq<Step>, b: Record, run: seq<Step>, r: Record)
    requires Becomes(b, run, r) && forall i :: 0 <= i < |run| ==> run[i] in steps
    ensures IsRun(steps, b.status, run, r.status)
  {
    if run != [] {
      var last := run[|run| - 1];
      BecomesRuns(steps, b, run[..|run| - 1], r.(status := last.from, version := r.version - 1));
    }
  }

  /** Whatever else is written, every logged transition of the row is a step of its default machine. */
  lemma LoggedIsListed(tr: seq<World>, evs: seq<Event>, k: nat, id: Id, n: nat)
    requires Behaviour(tr, evs) && k < |tr| && n < |tr[k].db.log| && tr[k].db.log[n].target == id
    requires id in tr[k].db.born
    requires forall i :: 0 <= i <= k ==> DefaultsOnly(tr[i].policy, tr[k].db.born[id].tenant)
    ensures tr[k].db.log[n].step in StepsOf(tr[k].db.born[id].kind)
  {
    hide DefaultsOnly, StepsOf, InForce, Permits, Behaviour;
    var (b, e) := (tr[k].db.born[id], tr[k].db.log[n]);
    AlwaysBacked(tr, evs, k);
    assert EntryBacked(tr, k, e);
    var i, v :| 0 <= i <= k && InForce(tr[i].policy, b.kind, b.tenant, v, e.step);
    InForceIsListed(tr[i].policy, b.kind, b.tenant, v, e.step);
  }

  /** If no outside write altered the row, its logged transitions are a run of its default machine. */
  lemma RowsRun(tr: seq<World>, evs: seq<Event>, k: nat, id: Id)
    requires Behaviour(tr, evs) && k < |tr| && id in tr[k].db.rows && id in tr[k].db.born && NoneAlters(tr, evs, k, id)
    requires forall i :: 0 <= i <= k ==> DefaultsOnly(tr[i].policy, tr[k].db.born[id].tenant)
    ensures var b := tr[k].db.born[id];
      IsRun(StepsOf(b.kind), b.status, Of(tr[k].db.log, id), tr[k].db.rows[id].status)
  {
    hide DefaultsOnly, StepsOf, Of, Becomes, IsRun, InForce, Permits, Behaviour, Alters;
    var (b, log) := (tr[k].db.born[id], tr[k].db.log);
    UnalteredIsExplained(tr, evs, k, id);
    forall m | 0 <= m < |Of(log, id)| ensures Of(log, id)[m] in StepsOf(b.kind) {
      var n := OfLogged(log, id, m);
      LoggedIsListed(tr, evs, k, id, n);
    }
    BecomesRuns(StepsOf(b.kind), b, Of(log, id), tr[k].db.rows[id]);
  }

  predicate IsRefunded(s: State) {
    s.REFUNDED?
  }

  /** No one inserts the ticket decided or writes it so beside the engine. */
  ghost predicate DecidedInside(tr: seq<World>, evs: seq<Event>, k: nat, id: Id)
    requires k <= |evs| && |tr| > 0
  {
    && (id in tr[0].db.rows ==> !Decided(tr[0].db.rows[id].status))
    && forall m :: 0 <= m < k ==> NoBackDoor(evs[m], id, Decided)
  }

  lemma RefundDoors(tr: seq<World>, evs: seq<Event>, k: nat, id: Id)
    requires Behaviour(tr, evs) && k < |tr| && id in tr[k].db.born && DecidedInside(tr, evs, k, id)
    requires forall i :: 0 <= i <= k ==> DefaultsOnly(tr[i].policy, tr[k].db.born[id].tenant)
    requires tr[k].db.born[id].kind == Ticket
    ensures Watched(tr[k], id, Decided, Approves) && Watched(tr[k], id, IsRefunded, PaysOut)
  {
    hide DefaultsOnly, StepsOf, Behaviour, Watched, Decided, Approves, PaysOut;
    var log := tr[k].db.log;
    BehaviourLength(tr, evs);
    forall n | 0 <= n < |log| && log[n].target == id
      ensures OnlyThrough(log[n].step, Decided, Approves) && OnlyThrough(log[n].step, IsRefunded, PaysOut)
    {
      LoggedIsListed(tr, evs, k, id, n);
      TicketMoneyLaw(log[n].step);
    }
    forall m | 0 <= m < k ensures NoBackDoor(evs[m], id, IsRefunded) {
      assert NoBackDoor(evs[m], id, Decided);
      RefundedIsDecided(evs[m], id);
    }
    RefundedStatusIsDecided();
    DoorsWatched(tr, evs, k, id, Decided, Approves);
    DoorsWatched(tr, evs, k, id, IsRefunded, PaysOut);
  }

  lemma RefundedStatusIsDecided()
    ensures Decided(REFUNDED)
  {
  }

  lemma RefundedIsDecided(ev: Event, id: Id)
    requires NoBackDoor(ev, id, Decided)
    ensures NoBackDoor(ev, id, IsRefunded)
  {
  }

  /**
   * However a ticket was born and whoever writes it beside the engine, as long as none of them decides its refund: a
   * refunded ticket has in its log an approval and after it a payout, each by an actor who at some moment before held
   * data.refund.approve.tenant or data.refund.process.tenant.
   */
  lemma RefundsWereDecided(tr: seq<World>, evs: seq<Event>, k: nat, id: Id) returns (x: nat, y: nat)
    requires Behaviour(tr, evs) && k < |tr| && id in tr[k].db.rows && id in tr[k].db.born
    requires DecidedInside(tr, evs, k, id)
    requires forall i :: 0 <= i <= k ==> DefaultsOnly(tr[i].policy, tr[k].db.born[id].tenant)
    requires tr[k].db.born[id].kind == Ticket && tr[k].db.rows[id].status == REFUNDED
    ensures x < y < |tr[k].db.log|
    ensures tr[k].db.log[x].target == id && Approves(tr[k].db.log[x].step)
    ensures tr[k].db.log[y].target == id && PaysOut(tr[k].db.log[y].step)
    ensures WasPermitted(tr, k, tr[k].db.log[x].actor, Perm(data_refund_approve, Tenant))
    ensures WasPermitted(tr, k, tr[k].db.log[y].actor, Perm(data_refund_process, Tenant))
  {
    hide DefaultsOnly, StepsOf, Behaviour, WasPermitted, WasInForce, DecidedInside;
    var log := tr[k].db.log;
    RefundDoors(tr, evs, k, id);
    assert Gated(log, |log|, id, PaysOut);
    y :| 0 <= y < |log| && log[y].target == id && PaysOut(log[y].step);
    assert Gated(log, y, id, Approves);
    x :| 0 <= x < y && log[x].target == id && Approves(log[x].step);
    AlwaysBacked(tr, evs, k);
    assert EntryBacked(tr, k, log[x]) && EntryBacked(tr, k, log[y]);
  }
}
