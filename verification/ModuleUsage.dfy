// prisma/seeds/module-usage.backfill.ts: the daily usage rows rebuilt from the audit log. Times are milliseconds
// since the epoch; a row's date is the UTC day its start falls in.
module ModuleUsage {
  import opened Basics

  const MS_PER_DAY := 86400000

  datatype Log = Log(tenant: Id, action: string, user: Option<Id>, at: int)

  /** A module and the action prefixes that make up its usage. */
  datatype Module = Module(name: string, prefixes: seq<string>)

  /** The unique key of the table. */
  datatype Key = Key(tenant: Id, name: string, date: int)

  datatype Usage = Usage(actionCount: nat, uniqueUsers: nat)

  type Table = map<Key, Usage>

  /** Euclidean division by a positive divisor is the floor. */
  function Date(time: int): int {
    time / MS_PER_DAY
  }

  function StartOfUtcDay(time: int): int {
    Date(time) * MS_PER_DAY
  }

  /** An empty list of prefixes matches nothing. */
  predicate Matches(prefixes: seq<string>, action: string) {
    exists i :: 0 <= i < |prefixes| && prefixes[i] <= action
  }

  predicate InWindow(l: Log, t: Id, m: Module, from: int, to: int) {
    l.tenant == t && from <= l.at < to && Matches(m.prefixes, l.action)
  }

  function CountIn(logs: seq<Log>, t: Id, m: Module, from: int, to: int): nat {
    if logs == [] then 0
    else CountIn(logs[..|logs| - 1], t, m, from, to) + if InWindow(logs[|logs| - 1], t, m, from, to) then 1 else 0
  }

  function UsersIn(logs: seq<Log>, t: Id, m: Module, from: int, to: int): set<Id> {
    if logs == [] then {}
    else
      var (before, l) := (UsersIn(logs[..|logs| - 1], t, m, from, to), logs[|logs| - 1]);
      if InWindow(l, t, m, from, to) && l.user.Some? then before + {l.user.value} else before
  }

  // ----- The three loops -----

  datatype Work = Work(table: Table, written: nat)

  function Upsert(w: Work, logs: seq<Log>, day: int, t: Id, m: Module): Work {
    var count := CountIn(logs, t, m, day, day + MS_PER_DAY);
    if count == 0 then w
    else
      var users := UsersIn(logs, t, m, day, day + MS_PER_DAY);
      Work(w.table[Key(t, m.name, Date(day)) := Usage(count, |users|)], w.written + 1)
  }

  function Modules(w: Work, logs: seq<Log>, day: int, t: Id, registry: seq<Module>): Work {
    if registry == [] then w
    else Upsert(Modules(w, logs, day, t, registry[..|registry| - 1]), logs, day, t, registry[|registry| - 1])
  }

  function Tenants(w: Work, logs: seq<Log>, day: int, tenants: seq<Id>, registry: seq<Module>): Work {
    if tenants == [] then w
    else Modules(Tenants(w, logs, day, tenants[..|tenants| - 1], registry), logs, day, tenants[|tenants| - 1], registry)
  }

  function Days(w: Work, logs: seq<Log>, first: int, n: nat, tenants: seq<Id>, registry: seq<Module>): Work {
    if n == 0 then w
    else Tenants(Days(w, logs, first, n - 1, tenants, registry), logs, first + (n - 1) * MS_PER_DAY, tenants, registry)
  }

  /** The first moment of the window, for `period` days back from the start of today. */
  function FirstDay(now: int, period: real): int {
    (StartOfUtcDay(now) as real - period * MS_PER_DAY as real).Floor
  }

  /** How often `for (i = 0; i < period; i++)` goes round. */
  function Rounds(period: real): (n: nat)
    requires ValidPeriod(period)
    ensures (n - 1) as real < period <= n as real
  {
    -((-period).Floor)
  }

  predicate ValidPeriod(period: real) {
    0.0 < period <= 365.0
  }

  class UsageDb {
    var table: Table

    method BackfillTenant(logs: seq<Log>, day: int, t: Id, registry: seq<Module>) returns (written: nat)
      modifies this
      ensures Modules(Work(old(table), 0), logs, day, t, registry) == Work(table, written)
    {
      written := 0;
      for k := 0 to |registry|
        invariant Modules(Work(old(table), 0), logs, day, t, registry[..k]) == Work(table, written)
      {
        assert registry[..k + 1][..k] == registry[..k];
        var m := registry[k];
        var actionCount := CountIn(logs, t, m, day, day + MS_PER_DAY);
        var users := UsersIn(logs, t, m, day, day + MS_PER_DAY);
        if actionCount == 0 {
          continue;
        }
        table := table[Key(t, m.name, Date(day)) := Usage(actionCount, |users|)];
        written := written + 1;
      }
      assert registry[..|registry|] == registry;
    }

    method BackfillDay(logs: seq<Log>, day: int, tenants: seq<Id>, registry: seq<Module>) returns (written: nat)
      modifies this
      ensures Tenants(Work(old(table), 0), logs, day, tenants, registry) == Work(table, written)
    {
      written := 0;
      for k := 0 to |tenants|
        invariant Tenants(Work(old(table), 0), logs, day, tenants[..k], registry) == Work(table, written)
      {
        assert tenants[..k + 1][..k] == tenants[..k];
        ghost var was := table;
        var more := BackfillTenant(logs, day, tenants[k], registry);
        ModulesCount(was, 0, written, logs, day, tenants[k], registry);
        written := written + more;
      }
      assert tenants[..|tenants|] == tenants;
    }

    /** Refused, or the whole window gone through. */
    method Backfill(logs: seq<Log>, now: int, period: real, tenants: seq<Id>, registry: seq<Module>)
      returns (total: Option<nat>)
      modifies this
      ensures total.Some? <==> 0.0 < period && period <= 365.0
      ensures total.None? ==> table == old(table)
      ensures ValidPeriod(period) ==>
        Days(Work(old(table), 0), logs, FirstDay(now, period), Rounds(period), tenants, registry)
        == Work(table, total.value)
    {
      if !ValidPeriod(period) {
        return None;
      }
      var first := FirstDay(now, period);
      var sum := 0;
      var i := 0;
      while i as real < period
        invariant 0 <= i <= Rounds(period)
        invariant Days(Work(old(table), 0), logs, first, i, tenants, registry) == Work(table, sum)
        decreases Rounds(period) - i
      {
        ghost var was := table;
        var n := BackfillDay(logs, first + i * MS_PER_DAY, tenants, registry);
        TenantsCount(was, 0, sum, logs, first + i * MS_PER_DAY, tenants, registry);
        sum := sum + n;
        i := i + 1;
      }
      total := Some(sum);
    }
  }

  /** Counting from a later start only shifts the counter. */
  lemma {:induction false} ModulesCount(
      table: Table, a: nat, b: nat, logs: seq<Log>, day: int, t: Id, registry: seq<Module>)
    ensures var x := Modules(Work(table, a), logs, day, t, registry);
      Modules(Work(table, a + b), logs, day, t, registry) == Work(x.table, x.written + b)
  {
    hide CountIn, UsersIn;
    if registry != [] {
      ModulesCount(table, a, b, logs, day, t, registry[..|registry| - 1]);
    }
  }

  lemma {:induction false} TenantsCount(
      table: Table, a: nat, b: nat, logs: seq<Log>, day: int, tenants: seq<Id>, registry: seq<Module>)
    ensures var x := Tenants(Work(table, a), logs, day, tenants, registry);
      Tenants(Work(table, a + b), logs, day, tenants, registry) == Work(x.table, x.written + b)
  {
    hide Modules;
    if tenants != [] {
      var front := tenants[..|tenants| - 1];
      TenantsCount(table, a, b, logs, day, front, registry);
      var x := Tenants(Work(table, a), logs, day, front, registry);
      ModulesCount(x.table, x.written, b, logs, day, tenants[|tenants| - 1], registry);
    }
  }

  // ----- What the table holds afterwards -----

  function Find(registry: seq<Module>, name: string): Option<Module> {
    if registry == [] then None
    else if registry[|registry| - 1].name == name then Some(registry[|registry| - 1])
    else Find(registry[..|registry| - 1], name)
  }

  /** What one day has to say under a key: nothing if the module is unknown or was not used. */
  function Cell(logs: seq<Log>, day: int, registry: seq<Module>, k: Key): Option<Usage> {
    match Find(registry, k.name)
    case None => None
    case Some(m) =>
      var count := CountIn(logs, k.tenant, m, day, day + MS_PER_DAY);
      if count == 0 then None else Some(Usage(count, |UsersIn(logs, k.tenant, m, day, day + MS_PER_DAY)|))
  }

  ghost predicate DistinctNames(registry: seq<Module>) {
    registry == [] ||
      (Find(registry[..|registry| - 1], registry[|registry| - 1].name).None?
       && DistinctNames(registry[..|registry| - 1]))
  }

  lemma {:induction false} ModulesAt(w: Work, logs: seq<Log>, day: int, t: Id, registry: seq<Module>, k: Key)
    requires DistinctNames(registry)
    ensures Get(Modules(w, logs, day, t, registry).table, k)
         == if k.tenant == t && k.date == Date(day) && Cell(logs, day, registry, k).Some?
            then Cell(logs, day, registry, k) else Get(w.table, k)
  {
    hide CountIn, UsersIn, Date;
    if registry != [] {
      ModulesAt(w, logs, day, t, registry[..|registry| - 1], k);
    }
  }

  lemma {:induction false} TenantsAt(w: Work, logs: seq<Log>, day: int, tenants: seq<Id>, registry: seq<Module>, k: Key)
    requires DistinctNames(registry)
    ensures Get(Tenants(w, logs, day, tenants, registry).table, k)
         == if k.tenant in tenants && k.date == Date(day) && Cell(logs, day, registry, k).Some?
            then Cell(logs, day, registry, k) else Get(w.table, k)
  {
    hide Modules, Cell, Date, DistinctNames;
    if tenants != [] {
      var (front, t) := (tenants[..|tenants| - 1], tenants[|tenants| - 1]);
      assert tenants == front + [t];
      TenantsAt(w, logs, day, front, registry, k);
      ModulesAt(Tenants(w, logs, day, front, registry), logs, day, t, registry, k);
    }
  }

  lemma DateOfDay(first: int, i: int)
    ensures Date(first + i * MS_PER_DAY) == Date(first) + i
  {
  }

  /** Each key of the window is decided by its own day; every other key is left as it was. */
  lemma {:induction false} DaysAt(
      w: Work, logs: seq<Log>, first: int, n: nat, tenants: seq<Id>, registry: seq<Module>, k: Key)
    requires DistinctNames(registry)
    ensures var i := k.date - Date(first);
      var cell := Cell(logs, first + i * MS_PER_DAY, registry, k);
      Get(Days(w, logs, first, n, tenants, registry).table, k)
      == if k.tenant in tenants && 0 <= i < n && cell.Some? then cell else Get(w.table, k)
  {
    hide Tenants, Cell, Date, DistinctNames;
    if n > 0 {
      DaysAt(w, logs, first, n - 1, tenants, registry, k);
      var before := Days(w, logs, first, n - 1, tenants, registry);
      TenantsAt(before, logs, first + (n - 1) * MS_PER_DAY, tenants, registry, k);
      DateOfDay(first, n - 1);
    }
  }

  /** A rerun on the same log leaves the table as it is. */
  lemma RerunChangesNothing(w: Work, logs: seq<Log>, first: int, n: nat, tenants: seq<Id>, registry: seq<Module>)
    requires DistinctNames(registry)
    ensures var once := Days(w, logs, first, n, tenants, registry);
      Days(once, logs, first, n, tenants, registry).table == once.table
  {
    hide Days, DistinctNames, Cell, Date;
    var once := Days(w, logs, first, n, tenants, registry);
    var twice := Days(once, logs, first, n, tenants, registry);
    forall k ensures Get(twice.table, k) == Get(once.table, k) {
      DaysAt(w, logs, first, n, tenants, registry, k);
      DaysAt(once, logs, first, n, tenants, registry, k);
    }
    SameMaps(twice.table, once.table);
  }

  // ----- Conservation -----

  /** The actions written for one tenant and module, over the days of the window. */
  ghost function WrittenActions(logs: seq<Log>, first: int, n: nat, registry: seq<Module>, t: Id, name: string): nat {
    if n == 0 then 0
    else
      var cell := Cell(logs, first + (n - 1) * MS_PER_DAY, registry, Key(t, name, Date(first) + n - 1));
      WrittenActions(logs, first, n - 1, registry, t, name) + if cell.Some? then cell.value.actionCount else 0
  }

  lemma {:induction false} WindowsJoin(logs: seq<Log>, t: Id, m: Module, from: int, mid: int, to: int)
    requires from <= mid <= to
    ensures CountIn(logs, t, m, from, mid) + CountIn(logs, t, m, mid, to) == CountIn(logs, t, m, from, to)
  {
    hide Matches;
    if logs != [] {
      WindowsJoin(logs[..|logs| - 1], t, m, from, mid, to);
    }
  }

  lemma {:induction false} EmptyWindow(logs: seq<Log>, t: Id, m: Module, from: int)
    ensures CountIn(logs, t, m, from, from) == 0
  {
    if logs != [] {
      EmptyWindow(logs[..|logs| - 1], t, m, from);
    }
  }

  /** The daily counts written add up to the matching logs of the whole half-open window. */
  lemma {:induction false} WrittenIsWindow(logs: seq<Log>, first: int, n: nat, registry: seq<Module>, t: Id, m: Module)
    requires Find(registry, m.name) == Some(m)
    ensures WrittenActions(logs, first, n, registry, t, m.name) == CountIn(logs, t, m, first, first + n * MS_PER_DAY)
  {
    hide CountIn, UsersIn, Find, Date;
    if n == 0 {
      EmptyWindow(logs, t, m, first);
    } else {
      WrittenIsWindow(logs, first, n - 1, registry, t, m);
      WindowsJoin(logs, t, m, first, first + (n - 1) * MS_PER_DAY, first + n * MS_PER_DAY);
    }
  }

  /** The actions the table holds for one tenant and module, over the days of the window. */
  ghost function TableActions(table: Table, first: int, n: nat, t: Id, name: string): nat {
    if n == 0 then 0
    else
      var row := Get(table, Key(t, name, Date(first) + n - 1));
      TableActions(table, first, n - 1, t, name) + if row.Some? then row.value.actionCount else 0
  }

  function DayKey(first: int, i: int, t: Id, name: string): Key {
    Key(t, name, Date(first) + i)
  }

  function DayCell(logs: seq<Log>, first: int, i: int, registry: seq<Module>, t: Id, name: string): Option<Usage> {
    Cell(logs, first + i * MS_PER_DAY, registry, DayKey(first, i, t, name))
  }

  /** A row held before the run for a day that has no logs now. */
  predicate Stale(table: Table, logs: seq<Log>, first: int, i: int, registry: seq<Module>, t: Id, name: string) {
    DayKey(first, i, t, name) in table && DayCell(logs, first, i, registry, t, name).None?
  }

  function StaleCount(
      table: Table, logs: seq<Log>, first: int, i: int, registry: seq<Module>, t: Id, name: string): nat
  {
    if Stale(table, logs, first, i, registry, t, name) then table[DayKey(first, i, t, name)].actionCount else 0
  }

  /** The actions of the stale rows of the window. */
  ghost function StaleActions(
      table: Table, logs: seq<Log>, first: int, n: nat, registry: seq<Module>, t: Id, name: string): nat
  {
    if n == 0 then 0
    else
      StaleActions(table, logs, first, n - 1, registry, t, name)
      + StaleCount(table, logs, first, n - 1, registry, t, name)
  }

  ghost predicate DayDecided(
      before: Table, after: Table, logs: seq<Log>, first: int, i: int, registry: seq<Module>, t: Id, name: string)
  {
    var cell := DayCell(logs, first, i, registry, t, name);
    Get(after, DayKey(first, i, t, name)) == if cell.Some? then cell else Get(before, DayKey(first, i, t, name))
  }

  lemma {:induction false} TableIsWrittenAndStale(
      before: Table, after: Table, logs: seq<Log>, first: int, n: nat, registry: seq<Module>, t: Id, name: string)
    requires forall i :: 0 <= i < n ==> DayDecided(before, after, logs, first, i, registry, t, name)
    ensures TableActions(after, first, n, t, name)
         == WrittenActions(logs, first, n, registry, t, name) + StaleActions(before, logs, first, n, registry, t, name)
  {
    hide Cell, Date;
    if n > 0 {
      TableIsWrittenAndStale(before, after, logs, first, n - 1, registry, t, name);
      assert DayDecided(before, after, logs, first, n - 1, registry, t, name);
    }
  }

  /**
   * After a run the rows of one tenant and module add up to the matching logs of the window, and beyond them exactly
   * the actions of its stale rows, which the run skips and does not clear.
   */
  lemma TableConserves(
      w: Work, logs: seq<Log>, first: int, n: nat, tenants: seq<Id>, registry: seq<Module>, t: Id, m: Module)
    requires DistinctNames(registry) && Find(registry, m.name) == Some(m) && t in tenants
    ensures TableActions(Days(w, logs, first, n, tenants, registry).table, first, n, t, m.name)
         == CountIn(logs, t, m, first, first + n * MS_PER_DAY)
            + StaleActions(w.table, logs, first, n, registry, t, m.name)
  {
    hide Days, DistinctNames, Cell, Get, Date, CountIn, Find, StaleActions;
    var after := Days(w, logs, first, n, tenants, registry).table;
    forall i | 0 <= i < n ensures DayDecided(w.table, after, logs, first, i, registry, t, m.name) {
      DaysAt(w, logs, first, n, tenants, registry, DayKey(first, i, t, m.name));
    }
    TableIsWrittenAndStale(w.table, after, logs, first, n, registry, t, m.name);
    WrittenIsWindow(logs, first, n, registry, t, m);
  }

  lemma {:induction false} StaleZeroIff(
      table: Table, logs: seq<Log>, first: int, n: nat, registry: seq<Module>, t: Id, name: string)
    ensures StaleActions(table, logs, first, n, registry, t, name) == 0 <==>
      forall i :: 0 <= i < n ==> StaleCount(table, logs, first, i, registry, t, name) == 0
  {
    hide StaleCount;
    if n > 0 {
      StaleZeroIff(table, logs, first, n - 1, registry, t, name);
      if StaleActions(table, logs, first, n, registry, t, name) == 0 {
        forall i | 0 <= i < n ensures StaleCount(table, logs, first, i, registry, t, name) == 0 {
          assert i == n - 1 || i < n - 1;
        }
      }
    }
  }

  /** The table adds up exactly when every row it held for a day of the window without logs counts no action. */
  lemma TableAddsUpIff(
      w: Work, logs: seq<Log>, first: int, n: nat, tenants: seq<Id>, registry: seq<Module>, t: Id, m: Module)
    requires DistinctNames(registry) && Find(registry, m.name) == Some(m) && t in tenants
    ensures TableActions(Days(w, logs, first, n, tenants, registry).table, first, n, t, m.name)
         == CountIn(logs, t, m, first, first + n * MS_PER_DAY)
       <==> forall i :: 0 <= i < n ==> StaleCount(w.table, logs, first, i, registry, t, m.name) == 0
  {
    hide Days, DistinctNames, StaleCount, CountIn, Find, StaleActions, TableActions;
    TableConserves(w, logs, first, n, tenants, registry, t, m);
    StaleZeroIff(w.table, logs, first, n, registry, t, m.name);
  }

  /** A row of five actions for a day whose logs are gone survives the run, and the table counts five too many. */
  lemma StaleRowSurvives(t: Id, day: int, m: Module)
    ensures var table := map[Key(t, m.name, Date(day)) := Usage(5, 1)];
      && TableActions(Days(Work(table, 0), [], day, 1, [t], [m]).table, day, 1, t, m.name) == 5
      && CountIn([], t, m, day, day + MS_PER_DAY) == 0
  {
    var table := map[Key(t, m.name, Date(day)) := Usage(5, 1)];
    assert [m][..0] == [];
    assert Find([], m.name).None? && DistinctNames([]);
    TableConserves(Work(table, 0), [], day, 1, [t], [m], t, m);
    assert StaleActions(table, [], day, 0, [m], t, m.name) == 0;
  }

  /** Each moment of the window falls in exactly one of its days. */
  lemma OneDayEach(first: int, n: nat, at: int) returns (i: nat)
    requires first <= at < first + n * MS_PER_DAY
    ensures i < n && first + i * MS_PER_DAY <= at < first + (i + 1) * MS_PER_DAY
    ensures forall j :: 0 <= j < n && first + j * MS_PER_DAY <= at < first + (j + 1) * MS_PER_DAY ==> j == i
  {
    i := (at - first) / MS_PER_DAY;
  }

  /** There are never more users than actions, and some user only if some action has one. */
  lemma {:induction false} UsersWithinActions(logs: seq<Log>, t: Id, m: Module, from: int, to: int)
    ensures |UsersIn(logs, t, m, from, to)| <= CountIn(logs, t, m, from, to)
  {
    hide InWindow;
    if logs != [] {
      UsersWithinActions(logs[..|logs| - 1], t, m, from, to);
    }
  }

  /** A user is counted exactly when one of the window's matching logs names them. */
  lemma {:induction false} UsersAreNamed(logs: seq<Log>, t: Id, m: Module, from: int, to: int, id: Id)
    ensures id in UsersIn(logs, t, m, from, to)
       <==> exists i :: 0 <= i < |logs| && InWindow(logs[i], t, m, from, to) && logs[i].user == Some(id)
  {
    hide InWindow;
    if logs != [] {
      var front := logs[..|logs| - 1];
      UsersAreNamed(front, t, m, from, to, id);
      assert forall i :: 0 <= i < |front| ==> front[i] == logs[i];
    }
  }

  /** The window ends at the start of today exactly when the period is whole to the millisecond; else it goes on. */
  lemma WholeDaysEndToday(now: int, period: real)
    requires ValidPeriod(period)
    ensures var end := FirstDay(now, period) + Rounds(period) * MS_PER_DAY;
      && end >= StartOfUtcDay(now)
      && (end == StartOfUtcDay(now) <==>
          (Rounds(period) * MS_PER_DAY - 1) as real < period * MS_PER_DAY as real)
  {
    var (today, n) := (StartOfUtcDay(now), Rounds(period));
    var x := today as real - period * MS_PER_DAY as real;
    assert x.Floor as real <= x < x.Floor as real + 1.0;
    assert period * MS_PER_DAY as real <= (n * MS_PER_DAY) as real;
  }

  // ----- Days, and what a row counts -----

  /** The start of the day is the midnight at or before the moment, less than a day earlier; dates count midnights. */
  lemma MidnightBefore(time: int)
    ensures StartOfUtcDay(time) % 86400000 == 0 && StartOfUtcDay(time) <= time < StartOfUtcDay(time) + 86400000
    ensures Date(time) == Date(StartOfUtcDay(time)) && StartOfUtcDay(time) == Date(time) * 86400000
  {
  }

  /** A whole number of days goes back from the start of today by that many days, one round each. */
  lemma WholePeriod(now: int, days: nat)
    requires 1 <= days <= 365
    ensures FirstDay(now, days as real) == StartOfUtcDay(now) - days * 86400000 && Rounds(days as real) == days
  {
    assert StartOfUtcDay(now) as real - days as real * MS_PER_DAY as real
        == (StartOfUtcDay(now) - days * 86400000) as real;
  }

  /** The log entry is of the tenant and the window, and its action starts with one of the module's prefixes. */
  predicate Hit(l: Log, t: Id, m: Module, from: int, to: int) {
    l.tenant == t && from <= l.at && l.at < to && exists i :: 0 <= i < |m.prefixes| && m.prefixes[i] <= l.action
  }

  ghost function Hits(logs: seq<Log>, t: Id, m: Module, from: int, to: int): set<int> {
    set i | 0 <= i < |logs| && Hit(logs[i], t, m, from, to)
  }

  lemma {:induction false} CountIsHits(logs: seq<Log>, t: Id, m: Module, from: int, to: int)
    ensures CountIn(logs, t, m, from, to) == Size(Hits(logs, t, m, from, to))
  {
    hide Matches;
    if logs == [] {
      assert Hits(logs, t, m, from, to) == {};
    } else {
      var n := |logs| - 1;
      CountIsHits(logs[..n], t, m, from, to);
      HitIsInWindow(logs[n], t, m, from, to);
      if Hit(logs[n], t, m, from, to) {
        assert Hits(logs, t, m, from, to) == Hits(logs[..n], t, m, from, to) + {n};
      } else {
        assert Hits(logs, t, m, from, to) == Hits(logs[..n], t, m, from, to);
      }
    }
  }

  lemma HitIsInWindow(l: Log, t: Id, m: Module, from: int, to: int)
    ensures Hit(l, t, m, from, to) <==> InWindow(l, t, m, from, to)
  {
  }

  /**
   * The row a run writes for a day: the number of hits of that day, and of the users they name. A day without hits
   * writes none.
   */
  lemma RowCounts(
      w: Work, logs: seq<Log>, first: int, n: nat, tenants: seq<Id>, registry: seq<Module>, t: Id, m: Module, i: nat)
    requires DistinctNames(registry) && Find(registry, m.name) == Some(m) && t in tenants && i < n
    ensures var day := first + i * 86400000;
      var row := Get(Days(w, logs, first, n, tenants, registry).table, Key(t, m.name, Date(first) + i));
      var hits := Hits(logs, t, m, day, day + 86400000);
      if hits == {} then row == Get(w.table, Key(t, m.name, Date(first) + i))
      else row == Some(Usage(Size(hits), Size(set h | h in hits && logs[h].user.Some? :: logs[h].user.value)))
  {
    hide Days, DistinctNames, CountIn, UsersIn, Find, Date, Hit;
    var day := first + i * MS_PER_DAY;
    DaysAt(w, logs, first, n, tenants, registry, Key(t, m.name, Date(first) + i));
    CountIsHits(logs, t, m, day, day + MS_PER_DAY);
    UsersAreOfHits(logs, t, m, day, day + MS_PER_DAY);
    assert Size(Hits(logs, t, m, day, day + MS_PER_DAY)) == 0 <==> Hits(logs, t, m, day, day + MS_PER_DAY) == {};
  }

  lemma UsersAreOfHits(logs: seq<Log>, t: Id, m: Module, from: int, to: int)
    ensures UsersIn(logs, t, m, from, to)
         == set h | h in Hits(logs, t, m, from, to) && logs[h].user.Some? :: logs[h].user.value
  {
    hide UsersIn, Hit, InWindow;
    var named := set h | h in Hits(logs, t, m, from, to) && logs[h].user.Some? :: logs[h].user.value;
    forall id ensures id in UsersIn(logs, t, m, from, to) <==> id in named {
      UsersAreNamed(logs, t, m, from, to, id);
      forall l ensures Hit(l, t, m, from, to) <==> InWindow(l, t, m, from, to) {
        HitIsInWindow(l, t, m, from, to);
      }
    }
  }

  /** The modules a tenant used on a day. */
  ghost function Used(logs: seq<Log>, day: int, t: Id, registry: seq<Module>): set<int> {
    set k | 0 <= k < |registry| && Hits(logs, t, registry[k], day, day + 86400000) != {}
  }

  lemma {:induction false} ModulesWritten(w: Work, logs: seq<Log>, day: int, t: Id, registry: seq<Module>)
    ensures Modules(w, logs, day, t, registry).written == w.written + Size(Used(logs, day, t, registry))
  {
    hide CountIn, UsersIn, Hits;
    if registry == [] {
      assert Used(logs, day, t, registry) == {};
    } else {
      var (n, m) := (|registry| - 1, registry[|registry| - 1]);
      var front := registry[..n];
      ModulesWritten(w, logs, day, t, front);
      CountIsHits(logs, t, m, day, day + MS_PER_DAY);
      assert Size(Hits(logs, t, m, day, day + MS_PER_DAY)) == 0 <==> Hits(logs, t, m, day, day + MS_PER_DAY) == {};
      if Hits(logs, t, m, day, day + MS_PER_DAY) == {} {
        assert Used(logs, day, t, registry) == Used(logs, day, t, front);
      } else {
        assert Used(logs, day, t, registry) == Used(logs, day, t, front) + {n};
      }
    }
  }

  ghost function UsedByAll(logs: seq<Log>, day: int, tenants: seq<Id>, registry: seq<Module>): nat {
    if tenants == [] then 0
    else
      UsedByAll(logs, day, tenants[..|tenants| - 1], registry)
      + Size(Used(logs, day, tenants[|tenants| - 1], registry))
  }

  lemma {:induction false} TenantsWritten(w: Work, logs: seq<Log>, day: int, tenants: seq<Id>, registry: seq<Module>)
    ensures Tenants(w, logs, day, tenants, registry).written == w.written + UsedByAll(logs, day, tenants, registry)
  {
    hide Modules, Used, Size;
    if tenants != [] {
      var (front, t) := (tenants[..|tenants| - 1], tenants[|tenants| - 1]);
      TenantsWritten(w, logs, day, front, registry);
      ModulesWritten(Tenants(w, logs, day, front, registry), logs, day, t, registry);
    }
  }

  ghost function UsedOverDays(logs: seq<Log>, first: int, n: nat, tenants: seq<Id>, registry: seq<Module>): nat {
    if n == 0 then 0
    else
      UsedOverDays(logs, first, n - 1, tenants, registry)
      + UsedByAll(logs, first + (n - 1) * 86400000, tenants, registry)
  }

  /** The total a run reports: day by day and tenant by tenant, how many modules were used. */
  lemma {:induction false} TotalIsUsed(
      w: Work, logs: seq<Log>, first: int, n: nat, tenants: seq<Id>, registry: seq<Module>)
    ensures Days(w, logs, first, n, tenants, registry).written
         == w.written + UsedOverDays(logs, first, n, tenants, registry)
  {
    hide Tenants, UsedByAll;
    if n > 0 {
      TotalIsUsed(w, logs, first, n - 1, tenants, registry);
      var before := Days(w, logs, first, n - 1, tenants, registry);
      TenantsWritten(before, logs, first + (n - 1) * MS_PER_DAY, tenants, registry);
    }
  }
}
