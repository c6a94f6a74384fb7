// prisma/seeds/iam.seed.ts:1440-1467: the backfill that gives every tenant the default transitions at each boot.
module WorkflowLoader {
  import opened Basics
  import opened WorkflowTable

  type Tenant = Id

  /** The unique key of workflow_configs. */
  datatype ConfigKey = ConfigKey(tenant: Tenant, key: Key, version: nat)

  datatype Config = Config(to: State, perm: Permission, isActive: bool)

  type Table = map<ConfigKey, Config>

  function KeyOf(t: Tenant, r: Row): ConfigKey {
    ConfigKey(t, r.key, 1)
  }

  function ConfigOf(r: Row): Config {
    Config(r.to, r.perm, true)
  }

  /** One row of an insert with skipDuplicates. */
  function Put(table: Table, t: Tenant, r: Row): Table {
    if KeyOf(t, r) in table then table else table[KeyOf(t, r) := ConfigOf(r)]
  }

  function Loaded(table: Table, t: Tenant, rows: seq<Row>): Table {
    if rows == [] then table else Put(Loaded(table, t, rows[..|rows| - 1]), t, rows[|rows| - 1])
  }

  function Booted(table: Table, tenants: seq<Tenant>, rows: seq<Row>): Table {
    if tenants == [] then table
    else
      var (before, t) := (Booted(table, tenants[..|tenants| - 1], rows), tenants[|tenants| - 1]);
      if t == PLATFORM_TENANT then before else Loaded(before, t, rows)
  }

  class WorkflowConfigs {
    var table: Table

    method CreateMany(t: Tenant, rows: seq<Row>) returns (count: nat)
      modifies this
      ensures table == Loaded(old(table), t, rows)
      ensures count == |table| - |old(table)|
    {
      count := 0;
      for i := 0 to |rows|
        invariant table == Loaded(old(table), t, rows[..i])
        invariant count == |table| - |old(table)|
      {
        assert rows[..i + 1][..i] == rows[..i];
        if KeyOf(t, rows[i]) !in table {
          table := table[KeyOf(t, rows[i]) := ConfigOf(rows[i])];
          count := count + 1;
        }
      }
      assert rows[..|rows|] == rows;
    }

    /** backfillDefaultWorkflows. */
    method BackfillDefaultWorkflows(tenants: seq<Tenant>) returns (scanned: nat, rowsCreated: nat)
      modifies this
      ensures table == Booted(old(table), tenants, DEFAULT_WORKFLOW_CONFIGS)
      ensures scanned == |tenants| && rowsCreated == |table| - |old(table)|
    {
      rowsCreated := 0;
      for i := 0 to |tenants|
        invariant table == Booted(old(table), tenants[..i], DEFAULT_WORKFLOW_CONFIGS)
        invariant rowsCreated == |table| - |old(table)|
      {
        assert tenants[..i + 1][..i] == tenants[..i];
        if tenants[i] == PLATFORM_TENANT {
          continue;
        }
        var count := CreateMany(tenants[i], DEFAULT_WORKFLOW_CONFIGS);
        rowsCreated := rowsCreated + count;
      }
      assert tenants[..|tenants|] == tenants;
      scanned := |tenants|;
    }
  }

  // ----- What a load does -----

  function FirstRow(rows: seq<Row>, k: Key): Option<Row> {
    if rows == [] then None
    else
      var (before, last) := (FirstRow(rows[..|rows| - 1], k), rows[|rows| - 1]);
      if before.Some? then before else if last.key == k then Some(last) else None
  }

  /** It is the row of that key with no other of that key before it. */
  lemma {:induction false} FirstRowIsFirst(rows: seq<Row>, k: Key)
    ensures FirstRow(rows, k).None? <==> forall r :: r in rows ==> r.key != k
    ensures FirstRow(rows, k).Some? ==>
      exists i :: 0 <= i < |rows| && FirstRow(rows, k) == Some(rows[i]) && rows[i].key == k
        && forall j :: 0 <= j < i ==> rows[j].key != k
  {
    if rows != [] {
      var front := rows[..|rows| - 1];
      FirstRowIsFirst(front, k);
      assert rows == front + [rows[|rows| - 1]];
      if FirstRow(front, k).Some? {
        var i :| 0 <= i < |front| && FirstRow(front, k) == Some(front[i]) && front[i].key == k
          && forall j :: 0 <= j < i ==> front[j].key != k;
        assert rows[i] == front[i];
      } else {
        assert rows[..|rows| - 1] == front;
      }
    }
  }

  function Default(t: Tenant, rows: seq<Row>, ck: ConfigKey): Option<Config> {
    if ck.tenant != t || ck.version != 1 then None
    else match FirstRow(rows, ck.key) case None => None case Some(r) => Some(ConfigOf(r))
  }

  /** Under every key a load leaves what was there, else the first row listed under it, else nothing. */
  lemma {:induction false} LoadedAt(table: Table, t: Tenant, rows: seq<Row>, ck: ConfigKey)
    ensures Get(Loaded(table, t, rows), ck) == if ck in table then Some(table[ck]) else Default(t, rows, ck)
  {
    if rows != [] {
      LoadedAt(table, t, rows[..|rows| - 1], ck);
    }
  }

  /** Loading again changes nothing. */
  lemma ReloadAddsNone(table: Table, t: Tenant, rows: seq<Row>)
    ensures Loaded(Loaded(table, t, rows), t, rows) == Loaded(table, t, rows)
  {
    var once := Loaded(table, t, rows);
    forall ck ensures Get(Loaded(once, t, rows), ck) == Get(once, ck) {
      LoadedAt(table, t, rows, ck);
      LoadedAt(once, t, rows, ck);
    }
    SameMaps(Loaded(once, t, rows), once);
  }

  // ----- A whole boot -----

  /** Every tenant's rows are decided by its own load, the platform tenant's by none. */
  lemma {:induction false} BootedAt(table: Table, tenants: seq<Tenant>, rows: seq<Row>, ck: ConfigKey)
    ensures Get(Booted(table, tenants, rows), ck)
         == if ck in table then Some(table[ck])
            else if ck.tenant in tenants && ck.tenant != PLATFORM_TENANT then Default(ck.tenant, rows, ck)
            else None
  {
    if tenants != [] {
      var (front, t) := (tenants[..|tenants| - 1], tenants[|tenants| - 1]);
      assert tenants == front + [t];
      BootedAt(table, front, rows, ck);
      LoadedAt(Booted(table, front, rows), t, rows, ck);
    }
  }

  /** The second boot creates nothing, whatever the order of the tenants and even if some have gone. */
  lemma SecondBootAddsNone(table: Table, tenants: seq<Tenant>, later: seq<Tenant>, rows: seq<Row>)
    requires forall t :: t in later ==> t in tenants
    ensures Booted(Booted(table, tenants, rows), later, rows) == Booted(table, tenants, rows)
  {
    var once := Booted(table, tenants, rows);
    forall ck ensures Get(Booted(once, later, rows), ck) == Get(once, ck) {
      BootedAt(table, tenants, rows, ck);
      BootedAt(once, later, rows, ck);
    }
    SameMaps(Booted(once, later, rows), once);
  }

  // ----- What the engine can do with a loaded table -----

  /** The full list lets an entity of kind `e` go from `from` by `a` to `to`. */
  ghost predicate Listed(rows: seq<Row>, k: Key, to: State) {
    exists r :: r in rows && r.key == k && r.to == to
  }

  /** The tenant's active configuration does. */
  ghost predicate Configured(table: Table, t: Tenant, k: Key, to: State) {
    exists v: nat :: ConfigKey(t, k, v) in table && table[ConfigKey(t, k, v)].isActive
      && table[ConfigKey(t, k, v)].to == to
  }

  ghost predicate Unconfigured(table: Table, t: Tenant) {
    forall ck :: ck in table ==> ck.tenant != t
  }

  /** Rows with one key lead to one state. */
  ghost predicate KeysAgree(rows: seq<Row>) {
    forall r, q :: r in rows && q in rows && r.key == q.key ==> r.to == q.to
  }

  lemma DefaultKeysAgree()
    ensures KeysAgree(DEFAULT_WORKFLOW_CONFIGS)
  {
    hide DEFAULT_WORKFLOW_CONFIGS, StepsOf;
    forall r, q | r in DEFAULT_WORKFLOW_CONFIGS && q in DEFAULT_WORKFLOW_CONFIGS && r.key == q.key
      ensures r.to == q.to
    {
      TableByEntity(r);
      TableByEntity(q);
      VerbDecides(r.key.entity, StepOf(r), StepOf(q));
    }
  }

  lemma FirstDecides(rows: seq<Row>, k: Key, to: State)
    requires KeysAgree(rows)
    ensures Listed(rows, k, to) <==> FirstRow(rows, k).Some? && FirstRow(rows, k).value.to == to
  {
    hide FirstRow;
    FirstRowIsFirst(rows, k);
  }

  lemma LoadedMoves(table: Table, t: Tenant, rows: seq<Row>, k: Key, to: State)
    requires Unconfigured(table, t) && KeysAgree(rows)
    ensures Configured(Loaded(table, t, rows), t, k, to) <==> Listed(rows, k, to)
  {
    hide Loaded, FirstRow, Listed, KeysAgree;
    var after := Loaded(table, t, rows);
    FirstDecides(rows, k, to);
    LoadedAt(table, t, rows, ConfigKey(t, k, 1));
    forall v: nat | v != 1 ensures ConfigKey(t, k, v) !in after {
      LoadedAt(table, t, rows, ConfigKey(t, k, v));
    }
  }

  /** A run seen as the states it visits and the actions between them. */
  datatype Move = Move(from: State, action: Action, to: State)

  ghost predicate ListedRun(rows: seq<Row>, e: Entity, run: seq<Move>) {
    forall i :: 0 <= i < |run| ==>
      Listed(rows, Key(e, run[i].from, run[i].action), run[i].to) && (i > 0 ==> run[i - 1].to == run[i].from)
  }

  ghost predicate ConfiguredRun(table: Table, t: Tenant, e: Entity, run: seq<Move>) {
    forall i :: 0 <= i < |run| ==>
      Configured(table, t, Key(e, run[i].from, run[i].action), run[i].to) && (i > 0 ==> run[i - 1].to == run[i].from)
  }

  /**
   * A tenant that started with no configuration admits exactly the state and action runs of the full list, although
   * the load dropped the rows whose key came up a second time.
   */
  lemma SameRuns(table: Table, t: Tenant, e: Entity, run: seq<Move>)
    requires Unconfigured(table, t)
    ensures ConfiguredRun(Loaded(table, t, DEFAULT_WORKFLOW_CONFIGS), t, e, run)
       <==> ListedRun(DEFAULT_WORKFLOW_CONFIGS, e, run)
  {
    hide DEFAULT_WORKFLOW_CONFIGS, Configured, Listed;
    DefaultKeysAgree();
    forall i | 0 <= i < |run| {
      LoadedMoves(table, t, DEFAULT_WORKFLOW_CONFIGS, Key(e, run[i].from, run[i].action), run[i].to);
    }
  }

  // ----- What the dropped alternatives cost -----

  lemma {:induction false} FirstRowAppend(a: seq<Row>, b: seq<Row>, k: Key)
    ensures FirstRow(a + b, k) == if FirstRow(a, k).Some? then FirstRow(a, k) else FirstRow(b, k)
  {
    if b == [] {
      assert a + b == a;
    } else {
      assert (a + b)[..|a + b| - 1] == a + b[..|b| - 1];
      FirstRowAppend(a, b[..|b| - 1], k);
    }
  }

  predicate Rebooks(a: Action) {
    a.REBOOK_NEXT_AVAILABLE? || a.REBOOK_LATER?
  }

  lemma ElsewhereNoRebooking(s: Step)
    requires s in TICKET_STEPS
    ensures !Rebooks(s.action)
  {
  }

  /** Each rebooking step is an agent's, or repeats the key of an agent's step listed before it. */
  lemma AgentsComeFirst(i: nat) returns (j: nat)
    requires i < |TICKET_NO_SHOW_STEPS| && Rebooks(TICKET_NO_SHOW_STEPS[i].action)
    ensures j <= i && TICKET_NO_SHOW_STEPS[j].perm == AGENTS_REBOOK
    ensures TICKET_NO_SHOW_STEPS[j].from == TICKET_NO_SHOW_STEPS[i].from
    ensures TICKET_NO_SHOW_STEPS[j].action == TICKET_NO_SHOW_STEPS[i].action
  {
    j := if i == 9 then 5 else if i == 10 then 8 else if i == 11 then 3 else i;
  }

  const AGENTS_REBOOK := Perm(data_ticket_rebook, Agency)

  lemma FirstRebookingRow(k: Key)
    requires k.entity.Ticket? && Rebooks(k.action)
    ensures FirstRow(DEFAULT_WORKFLOW_CONFIGS, k) == FirstRow(Of(Ticket, TICKET_NO_SHOW_STEPS), k)
  {
    hide FirstRow, Of, StepsOf, LIFECYCLE_ROWS, BLUEPRINT_ROWS, BUSINESS_ROWS;
    hide TICKET_STEPS, TICKET_NO_SHOW_STEPS;
    var (trips, noShow, hubs) :=
      (Of(Trip, TRIP_INCIDENTS_STEPS), Of(Ticket, TICKET_NO_SHOW_STEPS), Of(Parcel, PARCEL_HUBS_STEPS));
    forall rows | rows in {LIFECYCLE_ROWS, BLUEPRINT_ROWS, BUSINESS_ROWS, trips, hubs}
      ensures FirstRow(rows, k).None?
    {
      FirstRowIsFirst(rows, k);
      forall r | r in rows ensures r.key != k {
        NotThere(r, rows);
      }
    }
    FirstRowAppend(trips, noShow, k);
    FirstRowAppend(trips + noShow, hubs, k);
    FirstRowAppend(LIFECYCLE_ROWS, BLUEPRINT_ROWS, k);
    FirstRowAppend(LIFECYCLE_ROWS + BLUEPRINT_ROWS, JOURNEY_ROWS, k);
    FirstRowAppend(LIFECYCLE_ROWS + BLUEPRINT_ROWS + JOURNEY_ROWS, BUSINESS_ROWS, k);
  }

  lemma NotThere(r: Row, rows: seq<Row>)
    requires r in rows
    requires rows in {
      LIFECYCLE_ROWS, BLUEPRINT_ROWS, BUSINESS_ROWS, Of(Trip, TRIP_INCIDENTS_STEPS), Of(Parcel, PARCEL_HUBS_STEPS)
    }
    ensures !(r.key.entity.Ticket? && Rebooks(r.key.action))
  {
    hide Of, StepsOf, LIFECYCLE_ROWS, BLUEPRINT_ROWS, BUSINESS_ROWS, TICKET_STEPS;
    InLifecycleRows(r);
    InBlueprintRows(r);
    InBusinessRows(r);
    InOf(r, Trip, TRIP_INCIDENTS_STEPS);
    InOf(r, Parcel, PARCEL_HUBS_STEPS);
    if StepOf(r) in TICKET_STEPS {
      ElsewhereNoRebooking(StepOf(r));
    }
  }

  lemma FirstRebookingIsAgents(k: Key)
    requires k.entity.Ticket? && Rebooks(k.action)
    ensures var r := FirstRow(DEFAULT_WORKFLOW_CONFIGS, k); r.Some? ==> r.value.perm == AGENTS_REBOOK
  {
    hide FirstRow, DEFAULT_WORKFLOW_CONFIGS, TICKET_NO_SHOW_STEPS;
    FirstRebookingRow(k);
    var rows := Of(Ticket, TICKET_NO_SHOW_STEPS);
    FirstRowIsFirst(rows, k);
    if FirstRow(rows, k).Some? {
      var i :| 0 <= i < |rows| && FirstRow(rows, k) == Some(rows[i]) && rows[i].key == k
        && forall j :: 0 <= j < i ==> rows[j].key != k;
      var j := AgentsComeFirst(i);
      assert rows[j].key == k;
    }
  }

  /**
   * From any table: after a load a rebooking asks for the agents' permission exactly when the tenant had no row under
   * its key or one that already asked for it. So a tenant that had no configuration lets no passenger rebook: the rows
   * meant for passengers repeat an agent's key, and the seeded CUSTOMER role does not hold the agents' permission.
   */
  lemma RebookingNeedsAnAgent(table: Table, t: Tenant, ck: ConfigKey)
    requires ck in Loaded(table, t, DEFAULT_WORKFLOW_CONFIGS)
    requires ck.tenant == t && ck.key.entity.Ticket? && Rebooks(ck.key.action)
    ensures Loaded(table, t, DEFAULT_WORKFLOW_CONFIGS)[ck].perm == AGENTS_REBOOK
       <==> ck !in table || table[ck].perm == AGENTS_REBOOK
    ensures !Holds(CUSTOMER, AGENTS_REBOOK)
  {
    hide Loaded, FirstRow, DEFAULT_WORKFLOW_CONFIGS;
    LoadedAt(table, t, DEFAULT_WORKFLOW_CONFIGS, ck);
    FirstRebookingIsAgents(ck.key);
  }
}
