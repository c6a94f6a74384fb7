// scripts/audit-endpoints.py: which backend routes the frontend calls. The regular expressions are taken as
// given: a file is its list of literal base declarations and its list of derived ones, tails normalised.
module EndpointAudit {
  import opened Basics

  // ----- Base variables: the closure loop of extract_frontend -----

  /** `const name = \`/api/...\`` */
  datatype Literal = Literal(name: string, base: string)

  /** `const name = \`${ref}tail\`` */
  datatype Derived = Derived(name: string, ref: string, tail: string)

  type Vars = map<string, string>

  /**
   * Follow a chain of declarations from the literal variable `start`: each step derives a new name from the
   * one reached so far. The name reached and its expansion, if every step applies.
   */
  ghost function Follow(base: Vars, ds: seq<Derived>, start: string, chain: seq<nat>): Option<(string, string)> {
    if chain == [] then (if start in base then Some((start, base[start])) else None)
    else
      var n := |chain| - 1;
      var k := chain[n];
      match Follow(base, ds, start, chain[..n])
      case None => None
      case Some((name, value)) =>
        if k < |ds| && ds[k].ref == name then Some((ds[k].name, value + ds[k].tail)) else None
  }

  ghost predicate Reaches(base: Vars, ds: seq<Derived>, name: string, value: string) {
    exists start, chain :: Follow(base, ds, start, chain) == Some((name, value))
  }

  /** The tails of the declarations a chain goes through, one after the other. */
  ghost function Tails(ds: seq<Derived>, chain: seq<nat>): string
  {
    if chain == [] || chain[|chain| - 1] >= |ds| then ""
    else Tails(ds, chain[..|chain| - 1]) + ds[chain[|chain| - 1]].tail
  }

  predicate RefersBack(ds: seq<Derived>, start: string, chain: seq<nat>, i: nat)
    requires i < |chain|
  {
    && chain[i] < |ds|
    && if i == 0 then ds[chain[i]].ref == start else chain[i - 1] < |ds| && ds[chain[i]].ref == ds[chain[i - 1]].name
  }

  /** Each declaration of the chain refers to the name before it, the first to `start`. */
  ghost predicate Linked(ds: seq<Derived>, start: string, chain: seq<nat>) {
    forall i :: 0 <= i < |chain| ==> RefersBack(ds, start, chain, i)
  }

  function LastName(ds: seq<Derived>, start: string, chain: seq<nat>): string
  {
    if chain == [] || chain[|chain| - 1] >= |ds| then start else ds[chain[|chain| - 1]].name
  }

  lemma LinkedMore(ds: seq<Derived>, start: string, chain: seq<nat>)
    requires chain != []
    ensures var (front, k) := (chain[..|chain| - 1], chain[|chain| - 1]);
      Linked(ds, start, chain) <==> Linked(ds, start, front) && k < |ds| && ds[k].ref == LastName(ds, start, front)
  {
    var (front, n) := (chain[..|chain| - 1], |chain| - 1);
    forall i | 0 <= i < n ensures RefersBack(ds, start, front, i) == RefersBack(ds, start, chain, i) {
      assert front[i] == chain[i];
    }
    if Linked(ds, start, chain) {
      assert RefersBack(ds, start, chain, n);
    }
    if Linked(ds, start, front) && n > 0 {
      assert RefersBack(ds, start, front, n - 1);
    }
  }

  /** A chain applies exactly when its declarations refer to one another, and expands to its base and its tails. */
  lemma {:induction false} FollowExpands(base: Vars, ds: seq<Derived>, start: string, chain: seq<nat>)
    ensures Follow(base, ds, start, chain).Some? <==> start in base && Linked(ds, start, chain)
    ensures start in base && Linked(ds, start, chain) ==>
      Follow(base, ds, start, chain) == Some((LastName(ds, start, chain), base[start] + Tails(ds, chain)))
    decreases |chain|
  {
    hide Linked;
    if chain == [] {
      assert Linked(ds, start, []) by {
        LinkedNone(ds, start);
      }
      assert start in base ==> base[start] + "" == base[start];
    } else {
      FollowExpands(base, ds, start, chain[..|chain| - 1]);
      LinkedMore(ds, start, chain);
      if start in base && Linked(ds, start, chain) {
        Concats(base[start], Tails(ds, chain[..|chain| - 1]), ds[chain[|chain| - 1]].tail);
      }
    }
  }

  lemma LinkedNone(ds: seq<Derived>, start: string)
    ensures Linked(ds, start, [])
  {
  }

  ghost predicate Sound(base: Vars, ds: seq<Derived>, vars: Vars) {
    forall n :: n in vars ==> Reaches(base, ds, n, vars[n])
  }

  ghost predicate Extends(base: Vars, vars: Vars) {
    forall n :: n in base ==> n in vars && vars[n] == base[n]
  }

  /** No derived declaration among the first `k` has a bound reference and an unbound name. */
  predicate Closed(ds: seq<Derived>, k: nat, vars: Vars)
    requires k <= |ds|
  {
    forall j :: 0 <= j < k ==> ds[j].ref in vars ==> ds[j].name in vars
  }

  function Unbound(ds: seq<Derived>, vars: Vars): set<string> {
    set j | 0 <= j < |ds| && ds[j].name !in vars :: ds[j].name
  }

  lemma SoundLiterals(base: Vars, ds: seq<Derived>)
    ensures Sound(base, ds, base)
  {
    forall n | n in base ensures Reaches(base, ds, n, base[n]) {
      assert Follow(base, ds, n, []) == Some((n, base[n]));
    }
  }

  lemma SoundStep(base: Vars, ds: seq<Derived>, vars: Vars, k: nat)
    requires Sound(base, ds, vars) && k < |ds| && ds[k].ref in vars
    ensures Sound(base, ds, vars[ds[k].name := vars[ds[k].ref] + ds[k].tail])
  {
    var start, chain :| Follow(base, ds, start, chain) == Some((ds[k].ref, vars[ds[k].ref]));
    var longer := chain + [k];
    assert longer[..|longer| - 1] == chain;
    assert Follow(base, ds, start, longer) == Some((ds[k].name, vars[ds[k].ref] + ds[k].tail));
  }

  /** A closed table that keeps the literals binds whatever a chain reaches. */
  lemma {:induction false} ClosedIsComplete(base: Vars, ds: seq<Derived>, vars: Vars, start: string, chain: seq<nat>)
    requires Extends(base, vars) && Closed(ds, |ds|, vars)
    ensures var r := Follow(base, ds, start, chain); r.Some? ==> r.value.0 in vars
    decreases |chain|
  {
    if chain != [] {
      ClosedIsComplete(base, ds, vars, start, chain[..|chain| - 1]);
    }
  }

  /** The last of the declarations of a name is the one that stays. */
  predicate LastOfItsName(literals: seq<Literal>, i: nat)
    requires i < |literals|
  {
    forall j :: i < j < |literals| ==> literals[j].name != literals[i].name
  }

  predicate KeepsLast(literals: seq<Literal>, base: Vars) {
    forall i :: 0 <= i < |literals| && LastOfItsName(literals, i) ==> (literals[i].name, literals[i].base) in base.Items
  }

  method LiteralVars(literals: seq<Literal>) returns (base: Vars)
    ensures base.Keys == set i | 0 <= i < |literals| :: literals[i].name
    ensures KeepsLast(literals, base)
  {
    base := map[];
    for k := 0 to |literals|
      invariant base.Keys == set i | 0 <= i < k :: literals[i].name
      invariant KeepsLast(literals[..k], base)
    {
      LaterDeclarationWins(literals, k, base);
      base := base[literals[k].name := literals[k].base];
    }
    assert literals[..|literals|] == literals;
  }

  lemma LaterDeclarationWins(literals: seq<Literal>, k: nat, base: Vars)
    requires k < |literals| && KeepsLast(literals[..k], base)
    ensures KeepsLast(literals[..k + 1], base[literals[k].name := literals[k].base])
  {
    var after := base[literals[k].name := literals[k].base];
    var (was, now) := (literals[..k], literals[..k + 1]);
    forall i | 0 <= i <= k && LastOfItsName(now, i) ensures (now[i].name, now[i].base) in after.Items {
      if i < k {
        assert now[k] == literals[k];
        assert forall j :: i < j < k ==> was[j] == now[j];
        assert LastOfItsName(was, i);
      }
    }
  }

  /** One pass of the `for` inside the `while changed`. */
  method Sweep(ghost base: Vars, ds: seq<Derived>, vars: Vars) returns (vars': Vars, changed: bool)
    requires Sound(base, ds, vars) && Extends(base, vars)
    ensures Sound(base, ds, vars') && Extends(base, vars') && Extends(vars, vars')
    ensures !changed ==> vars' == vars && Closed(ds, |ds|, vars)
    ensures changed ==> Unbound(ds, vars') < Unbound(ds, vars)
  {
    vars', changed := vars, false;
    for k := 0 to |ds|
      invariant Sound(base, ds, vars') && Extends(base, vars') && Extends(vars, vars')
      invariant !changed ==> vars' == vars && Closed(ds, k, vars)
      invariant changed ==> exists j :: 0 <= j < |ds| && ds[j].name in vars' && ds[j].name !in vars
    {
      var d := ds[k];
      if d.ref in vars' && d.name !in vars' {
        SoundStep(base, ds, vars', k);
        vars' := vars'[d.name := vars'[d.ref] + d.tail];
        changed := true;
      }
    }
    if changed {
      var j :| 0 <= j < |ds| && ds[j].name in vars' && ds[j].name !in vars;
      assert ds[j].name in Unbound(ds, vars);
      assert ds[j].name !in Unbound(ds, vars');
    }
  }

  /**
   * The loop ends, keeps the literal bases, binds exactly the names some reference chain reaches from one of
   * them, and gives each the expansion of such a chain.
   */
  method BaseVars(base: Vars, ds: seq<Derived>) returns (vars: Vars)
    ensures Extends(base, vars)
    ensures forall n :: n in vars ==> Reaches(base, ds, n, vars[n])
    ensures forall n, v :: Reaches(base, ds, n, v) ==> n in vars
  {
    vars := base;
    SoundLiterals(base, ds);
    var changed := true;
    while changed
      invariant Sound(base, ds, vars) && Extends(base, vars)
      invariant !changed ==> Closed(ds, |ds|, vars)
      decreases Unbound(ds, vars), changed
    {
      vars, changed := Sweep(base, ds, vars);
    }
    forall n, v | Reaches(base, ds, n, v) ensures n in vars {
      var start, chain :| Follow(base, ds, start, chain) == Some((n, v));
      ClosedIsComplete(base, ds, vars, start, chain);
    }
  }

  // ----- Paths -----

  const ANY := "ANY"
  const WILD := ":X"

  function StripLeft(p: string): string {
    if p != [] && p[0] == '/' then StripLeft(p[1..]) else p
  }

  function StripRight(p: string): string {
    if p != [] && p[|p| - 1] == '/' then StripRight(p[..|p| - 1]) else p
  }

  /** `p.split('/')`: never empty. */
  function Split(p: string): (r: seq<string>)
    ensures r != []
  {
    if p == [] then [[]]
    else
      var r := Split(p[1..]);
      if p[0] == '/' then [[]] + r else [[p[0]] + r[0]] + r[1..]
  }

  function Segments(p: string): seq<string> {
    var q := if "/api" <= p then p[4..] else p;
    if q == [] then [] else Split(StripRight(StripLeft(q)))
  }

  /** The parts with a slash between every two. */
  function Join(parts: seq<string>): string
    requires parts != []
  {
    if |parts| == 1 then parts[0] else parts[0] + "/" + Join(parts[1..])
  }

  predicate NoSlash(part: string) {
    forall i :: 0 <= i < |part| ==> part[i] != '/'
  }

  ghost predicate SlashFree(parts: seq<string>) {
    forall i :: 0 <= i < |parts| ==> NoSlash(parts[i])
  }

  lemma JoinSlash(parts: seq<string>)
    requires parts != []
    ensures Join([[]] + parts) == ['/'] + Join(parts)
  {
    assert ([[]] + parts)[1..] == parts;
    assert [] + "/" + Join(parts) == ['/'] + Join(parts);
  }

  lemma JoinChar(c: char, parts: seq<string>)
    requires parts != []
    ensures Join([[c] + parts[0]] + parts[1..]) == [c] + Join(parts)
  {
    var (first, rest) := ([c] + parts[0], parts[1..]);
    assert ([first] + rest)[1..] == rest;
    if rest != [] {
      hide Join;
      Concats([c], parts[0], "/" + Join(rest));
      Concats(first, "/", Join(rest));
      Concats(parts[0], "/", Join(rest));
      JoinTwo(parts);
      JoinTwo([first] + rest);
    }
  }

  lemma Concats(a: string, b: string, c: string)
    ensures a + b + c == a + (b + c)
  {
  }

  lemma JoinTwo(parts: seq<string>)
    requires |parts| > 1
    ensures Join(parts) == parts[0] + "/" + Join(parts[1..])
  {
  }

  lemma SlashFreeMore(c: char, parts: seq<string>)
    requires parts != [] && SlashFree(parts)
    ensures SlashFree([[]] + parts)
    ensures c != '/' ==> SlashFree([[c] + parts[0]] + parts[1..])
  {
    assert NoSlash(parts[0]);
  }

  lemma {:induction false} SplitJoins(p: string)
    ensures SlashFree(Split(p)) && Join(Split(p)) == p
  {
    hide Join, SlashFree;
    if p == [] {
      NoParts();
    } else {
      SplitJoins(p[1..]);
      JoinSlash(Split(p[1..]));
      JoinChar(p[0], Split(p[1..]));
      SlashFreeMore(p[0], Split(p[1..]));
      assert p == [p[0]] + p[1..];
    }
  }

  lemma NoParts()
    ensures SlashFree([[]]) && Join([[]]) == []
  {
  }

  lemma {:induction false} SplitOfPart(part: string, rest: string)
    requires NoSlash(part)
    ensures Split(part) == [part]
    ensures Split(part + "/" + rest) == [part] + Split(rest)
  {
    if part == [] {
      assert ("/" + rest)[1..] == rest;
      assert part + "/" + rest == "/" + rest;
    } else {
      SplitOfPart(part[1..], rest);
      assert (part + "/" + rest)[1..] == part[1..] + "/" + rest;
      assert part == [part[0]] + part[1..];
    }
  }

  lemma {:induction false} SplitOfJoin(parts: seq<string>)
    requires parts != [] && SlashFree(parts)
    ensures Split(Join(parts)) == parts
  {
    hide Split;
    if |parts| == 1 {
      SplitOfPart(parts[0], "");
      assert parts == [parts[0]];
    } else {
      SplitOfJoin(parts[1..]);
      SplitOfPart(parts[0], Join(parts[1..]));
      assert parts == [parts[0]] + parts[1..];
    }
  }

  /** Cutting at the slashes is the one way to read a text as slash-free parts with slashes between. */
  lemma SplitIffJoin(p: string, parts: seq<string>)
    requires parts != [] && SlashFree(parts)
    ensures Split(p) == parts <==> Join(parts) == p
  {
    SplitJoins(p);
    SplitOfJoin(parts);
  }

  function Slashes(n: nat): string {
    seq(n, _ => '/')
  }

  predicate Bare(p: string) {
    p == "" || (p[0] != '/' && p[|p| - 1] != '/')
  }

  lemma {:induction false} StripLeftOf(n: nat, p: string)
    requires p == "" || p[0] != '/'
    ensures StripLeft(Slashes(n) + p) == p
  {
    if n == 0 {
      assert Slashes(0) + p == p;
    } else {
      assert (Slashes(n) + p)[1..] == Slashes(n - 1) + p;
      StripLeftOf(n - 1, p);
    }
  }

  lemma {:induction false} StripRightOf(p: string, n: nat)
    requires p == "" || p[|p| - 1] != '/'
    ensures StripRight(p + Slashes(n)) == p
  {
    if n == 0 {
      assert p + Slashes(0) == p;
    } else {
      var q := p + Slashes(n);
      assert q[..|q| - 1] == p + Slashes(n - 1);
      StripRightOf(p, n - 1);
    }
  }

  /** `p.strip('/')` drops the slashes at both ends and nothing else. */
  lemma StripOf(left: nat, p: string, right: nat)
    requires Bare(p)
    ensures StripRight(StripLeft(Slashes(left) + p + Slashes(right))) == p
  {
    if p == "" {
      assert Slashes(left) + p + Slashes(right) == Slashes(left + right) + "";
      StripLeftOf(left + right, "");
    } else {
      assert Slashes(left) + p + Slashes(right) == Slashes(left) + (p + Slashes(right));
      StripLeftOf(left, p + Slashes(right));
      StripRightOf(p, right);
    }
  }

  /** The parts of a path: at least one, none empty, none with a slash. */
  ghost predicate Parts(parts: seq<string>) {
    parts != [] && SlashFree(parts) && forall i :: 0 <= i < |parts| ==> parts[i] != ""
  }

  lemma {:induction false} JoinIsBare(parts: seq<string>)
    requires Parts(parts)
    ensures Join(parts) != "" && Bare(Join(parts))
  {
    if |parts| > 1 {
      JoinIsBare(parts[1..]);
      var rest := Join(parts[1..]);
      assert Join(parts)[|Join(parts)| - 1] == rest[|rest| - 1];
      assert NoSlash(parts[0]);
    } else {
      assert NoSlash(parts[0]);
    }
  }

  /** A path under /api, with a slash at the end or without: its segments are its parts. */
  lemma SegmentsOfPath(parts: seq<string>, slashes: nat)
    requires Parts(parts)
    ensures Segments("/api/" + Join(parts) + Slashes(slashes)) == parts
  {
    hide Split, StripLeft, StripRight, Join;
    JoinIsBare(parts);
    var p := "/api/" + Join(parts) + Slashes(slashes);
    assert p[..4] == "/api" && p[4..] == Slashes(1) + Join(parts) + Slashes(slashes);
    StripOf(1, Join(parts), slashes);
    SplitOfJoin(parts);
  }

  /** A path that does not start with /api: likewise. */
  lemma SegmentsElsewhere(parts: seq<string>, slashes: nat)
    requires Parts(parts) && !("/api" <= "/" + Join(parts) + Slashes(slashes))
    ensures Segments("/" + Join(parts) + Slashes(slashes)) == parts
  {
    hide Split, StripLeft, StripRight, Join;
    JoinIsBare(parts);
    assert "/" + Join(parts) + Slashes(slashes) == Slashes(1) + Join(parts) + Slashes(slashes);
    StripOf(1, Join(parts), slashes);
    SplitOfJoin(parts);
  }

  /** No segment of any path holds a slash; only the bare prefix has none. */
  lemma SegmentsSlashFree(p: string)
    ensures SlashFree(Segments(p)) && (Segments(p) == [] <==> p == "/api" || p == "")
  {
    hide Split, StripLeft, StripRight;
    var q := if "/api" <= p then p[4..] else p;
    SplitJoins(StripRight(StripLeft(q)));
    assert "/api" <= p && q == "" ==> p == "/api";
  }

  /** The test in the inner loops of match and main. */
  predicate Fits(a: string, c: string) {
    a == c || a == WILD || c == WILD
  }

  predicate Compatible(sb: seq<string>, sc: seq<string>) {
    |sb| == |sc| && forall i :: 0 <= i < |sb| ==> Fits(sb[i], sc[i])
  }

  /** An actual path, no segment of which is the wildcard, and the patterns that cover it. */
  predicate Concrete(path: seq<string>) {
    forall i :: 0 <= i < |path| ==> path[i] != WILD
  }

  predicate Covers(pattern: seq<string>, path: seq<string>) {
    |pattern| == |path| && forall i :: 0 <= i < |path| ==> pattern[i] == WILD || pattern[i] == path[i]
  }

  ghost predicate Meet(sb: seq<string>, sc: seq<string>) {
    exists path :: Concrete(path) && Covers(sb, path) && Covers(sc, path)
  }

  /** `:X` stands for any one segment, and every other pattern for itself; an actual path has none. */
  lemma WildcardIsAnySegment(p: string, segment: string)
    ensures Covers([p], [segment]) <==> p == ":X" || p == segment
    ensures Concrete([segment]) <==> segment != ":X"
  {
    var (pattern, path) := ([p], [segment]);
    assert pattern[0] == p && path[0] == segment;
  }

  /** Two patterns are compatible exactly when some actual path is covered by both. */
  lemma CompatibleIffMeet(sb: seq<string>, sc: seq<string>)
    ensures Compatible(sb, sc) <==> Meet(sb, sc)
  {
    if Compatible(sb, sc) {
      var path := seq(|sb|, i requires 0 <= i < |sb| =>
        if sb[i] != WILD then sb[i] else if sc[i] != WILD then sc[i] else "x");
      forall i | 0 <= i < |sb|
        ensures path[i] != WILD && (sb[i] == WILD || sb[i] == path[i]) && (sc[i] == WILD || sc[i] == path[i])
      {
        assert Fits(sb[i], sc[i]);
        assert |"x"| != |WILD|;
      }
      assert Concrete(path) && Covers(sb, path) && Covers(sc, path);
    }
    if Meet(sb, sc) {
      var path :| Concrete(path) && Covers(sb, path) && Covers(sc, path);
      assert forall i :: 0 <= i < |sb| ==> Fits(sb[i], sc[i]);
    }
  }

  method SegmentsFit(sb: seq<string>, sc: seq<string>) returns (ok: bool)
    requires |sb| == |sc|
    ensures ok <==> Compatible(sb, sc)
  {
    for i := 0 to |sb|
      invariant forall k :: 0 <= k < i ==> Fits(sb[k], sc[k])
    {
      if !(sb[i] == sc[i] || sb[i] == WILD || sc[i] == WILD) {
        return false;
      }
    }
    ok := true;
  }

  // ----- match -----

  type Claim = (string, string)

  /** The claim's verb suits the route's and one path is covered by both patterns. */
  ghost predicate Claims(c: Claim, verb: string, norm: string) {
    (c.0 == verb || c.0 == ANY) && Meet(Segments(norm), Segments(c.1))
  }

  /** On the URLs the frontend and the backend write: one path has the shape of both. */
  lemma ClaimsPaths(verb: string, route: seq<string>, claimed: string, url: seq<string>)
    requires Parts(route) && Parts(url)
    ensures Claims((claimed, "/api/" + Join(url)), verb, "/api/" + Join(route))
       <==> (claimed == verb || claimed == "ANY") && Meet(route, url)
  {
    hide Join, Meet, Segments;
    assert Slashes(0) == "";
    assert "/api/" + Join(url) + Slashes(0) == "/api/" + Join(url);
    assert "/api/" + Join(route) + Slashes(0) == "/api/" + Join(route);
    SegmentsOfPath(url, 0);
    SegmentsOfPath(route, 0);
  }

  /** A call of a concrete path claims exactly the routes whose pattern covers it. */
  lemma ConcreteCall(verb: string, route: seq<string>, path: seq<string>)
    requires Parts(route) && Parts(path) && Concrete(path)
    ensures Claims((verb, "/api/" + Join(path)), verb, "/api/" + Join(route)) <==> Covers(route, path)
  {
    hide Join, Claims;
    ClaimsPaths(verb, route, verb, path);
    if Meet(route, path) {
      var actual :| Concrete(actual) && Covers(route, actual) && Covers(path, actual);
      assert actual == path;
    }
    if Covers(route, path) {
      assert Covers(path, path);
    }
  }

  /** True exactly when some claim has a suitable verb and shares an actual path with the route. */
  method Match(verb: string, norm: string, claims: set<Claim>) returns (b: bool)
    ensures b <==> exists c :: c in claims && Claims(c, verb, norm)
  {
    var sb := Segments(norm);
    var rest := claims;
    while rest != {}
      invariant rest <= claims
      invariant forall c :: c in claims - rest ==> !Claims(c, verb, norm)
      decreases rest
    {
      var c :| c in rest;
      rest := rest - {c};
      var sc := Segments(c.1);
      CompatibleIffMeet(sb, sc);
      if |sc| != |sb| {
        continue;
      }
      if !(c.0 == verb || c.0 == ANY) {
        continue;
      }
      var ok := SegmentsFit(sb, sc);
      if ok {
        return true;
      }
    }
    b := false;
  }

  // ----- The partition in main -----

  datatype Route = Route(verb: string, norm: string)

  ghost predicate Mounted(r: Route, claims: set<Claim>) {
    exists c :: c in claims && Claims(c, r.verb, r.norm)
  }

  /** The routes no claim mounts, in the order they were read. */
  ghost function Unmatched(routes: seq<Route>, claims: set<Claim>): seq<Route> {
    if routes == [] then []
    else
      var (rest, r) := (Unmatched(routes[..|routes| - 1], claims), routes[|routes| - 1]);
      if Mounted(r, claims) then rest else rest + [r]
  }

  /** Those of them that leave a literal trace in the frontend text, or those that do not. */
  function Traced(routes: seq<Route>, literal: string -> bool, trace: bool): seq<Route> {
    if routes == [] then []
    else
      var (rest, r) := (Traced(routes[..|routes| - 1], literal, trace), routes[|routes| - 1]);
      if literal(r.norm) == trace then rest + [r] else rest
  }

  lemma TracedStep(routes: seq<Route>, i: nat, literal: string -> bool, trace: bool)
    requires i < |routes|
    ensures Traced(routes[..i + 1], literal, trace)
         == Traced(routes[..i], literal, trace) + if literal(routes[i].norm) == trace then [routes[i]] else []
  {
    assert routes[..i + 1][..i] == routes[..i];
  }

  lemma TracedNone(literal: string -> bool)
    ensures forall trace :: Traced([], literal, trace) == []
  {
  }

  method UnmatchedRoutes(routes: seq<Route>, claims: set<Claim>) returns (strict: seq<Route>)
    ensures strict == Unmatched(routes, claims)
  {
    strict := [];
    for i := 0 to |routes|
      invariant strict == Unmatched(routes[..i], claims)
    {
      assert routes[..i + 1][..i] == routes[..i];
      var m := Match(routes[i].verb, routes[i].norm, claims);
      if !m {
        strict := strict + [routes[i]];
      }
    }
    assert routes[..|routes|] == routes;
  }

  /** `literal_in_source` for a given frontend text is any test on the route's normal form. */
  method Partition(routes: seq<Route>, claims: set<Claim>, literal: string -> bool)
    returns (likely: seq<Route>, unmounted: seq<Route>, mounted: int)
    ensures likely == Traced(Unmatched(routes, claims), literal, true)
    ensures unmounted == Traced(Unmatched(routes, claims), literal, false)
    ensures mounted + |likely| + |unmounted| == |routes|
  {
    hide Unmatched, Traced;
    var strict := UnmatchedRoutes(routes, claims);
    TracedNone(literal);
    likely, unmounted := [], [];
    for i := 0 to |strict|
      invariant likely == Traced(strict[..i], literal, true)
      invariant unmounted == Traced(strict[..i], literal, false)
      invariant |likely| + |unmounted| == i
    {
      TracedStep(strict, i, literal, true);
      TracedStep(strict, i, literal, false);
      if literal(strict[i].norm) {
        likely := likely + [strict[i]];
      } else {
        unmounted := unmounted + [strict[i]];
      }
    }
    assert strict[..|strict|] == strict;
    mounted := |routes| - |strict|;
  }

  /** The three parts of a list are the parts of its pieces, in order. */
  lemma {:induction false} PartsInOrder(a: seq<Route>, b: seq<Route>, claims: set<Claim>)
    ensures Unmatched(a + b, claims) == Unmatched(a, claims) + Unmatched(b, claims)
  {
    hide Mounted;
    if b == [] {
      assert a + b == a;
    } else {
      assert (a + b)[..|a + b| - 1] == a + b[..|b| - 1];
      PartsInOrder(a, b[..|b| - 1], claims);
    }
  }

  lemma {:induction false} TracedInOrder(a: seq<Route>, b: seq<Route>, literal: string -> bool, trace: bool)
    ensures Traced(a + b, literal, trace) == Traced(a, literal, trace) + Traced(b, literal, trace)
  {
    if b == [] {
      assert a + b == a;
    } else {
      assert (a + b)[..|a + b| - 1] == a + b[..|b| - 1];
      TracedInOrder(a, b[..|b| - 1], literal, trace);
    }
  }

  /** How often a route occurs. */
  ghost function Times(routes: seq<Route>, r: Route): nat {
    if routes == [] then 0 else Times(routes[..|routes| - 1], r) + (if routes[|routes| - 1] == r then 1 else 0)
  }

  lemma TimesAppend(routes: seq<Route>, last: Route, r: Route)
    ensures Times(routes + [last], r) == Times(routes, r) + (if last == r then 1 else 0)
  {
    assert (routes + [last])[..|routes|] == routes;
  }

  lemma {:induction false} TracedTimes(routes: seq<Route>, literal: string -> bool, trace: bool, r: Route)
    ensures Times(Traced(routes, literal, trace), r) == if literal(r.norm) == trace then Times(routes, r) else 0
  {
    if routes != [] {
      TracedTimes(routes[..|routes| - 1], literal, trace, r);
      TimesAppend(Traced(routes[..|routes| - 1], literal, trace), routes[|routes| - 1], r);
    }
  }

  lemma {:induction false} UnmatchedTimes(routes: seq<Route>, claims: set<Claim>, r: Route)
    ensures Times(Unmatched(routes, claims), r) == if Mounted(r, claims) then 0 else Times(routes, r)
  {
    hide Mounted;
    if routes != [] {
      UnmatchedTimes(routes[..|routes| - 1], claims, r);
      TimesAppend(Unmatched(routes[..|routes| - 1], claims), routes[|routes| - 1], r);
    }
  }

  /** Every occurrence of a route lands in exactly one part: mounted, likely or unmounted. */
  lemma EachRouteInOnePart(routes: seq<Route>, claims: set<Claim>, literal: string -> bool, r: Route)
    ensures var strict := Unmatched(routes, claims);
      && Times(Traced(strict, literal, true), r)
         == (if !Mounted(r, claims) && literal(r.norm) then Times(routes, r) else 0)
      && Times(Traced(strict, literal, false), r)
         == (if !Mounted(r, claims) && !literal(r.norm) then Times(routes, r) else 0)
  {
    hide Mounted, Unmatched, Traced, Times;
    var strict := Unmatched(routes, claims);
    UnmatchedTimes(routes, claims, r);
    TracedTimes(strict, literal, true, r);
    TracedTimes(strict, literal, false, r);
  }

  /** Some route answers the call: same verb, and a path both patterns cover. */
  ghost predicate Answered(c: Claim, routes: seq<Route>) {
    exists i :: 0 <= i < |routes| && routes[i].verb == c.0 && Meet(Segments(routes[i].norm), Segments(c.1))
  }

  /** The calls with a definite verb that no route answers. */
  method MissingBackend(routes: seq<Route>, claims: set<Claim>) returns (missing: set<Claim>)
    ensures missing == set c | c in claims && c.0 != ANY && !Answered(c, routes)
  {
    missing := {};
    var rest := claims;
    while rest != {}
      invariant rest <= claims
      invariant missing == set c | c in claims - rest && c.0 != ANY && !Answered(c, routes)
      decreases rest
    {
      var c :| c in rest;
      rest := rest - {c};
      if c.0 == ANY {
        continue;
      }
      var found := IsAnswered(c, routes);
      if !found {
        missing := missing + {c};
      }
    }
  }

  method IsAnswered(c: Claim, routes: seq<Route>) returns (found: bool)
    ensures found <==> Answered(c, routes)
  {
    var sp := Segments(c.1);
    for i := 0 to |routes|
      invariant forall k :: 0 <= k < i ==>
        !(routes[k].verb == c.0 && Meet(Segments(routes[k].norm), Segments(c.1)))
    {
      var sb := Segments(routes[i].norm);
      CompatibleIffMeet(sb, sp);
      if routes[i].verb != c.0 || |sb| != |sp| {
        continue;
      }
      var ok := SegmentsFit(sb, sp);
      if ok {
        return true;
      }
    }
    found := false;
  }

  /** The two halves of the report agree: a call is answered exactly when it mounts some route of its verb. */
  lemma AnsweredIffMounts(c: Claim, routes: seq<Route>)
    ensures Answered(c, routes) <==>
      exists i :: 0 <= i < |routes| && routes[i].verb == c.0 && Mounted(routes[i], {c})
  {
    if Answered(c, routes) {
      var i :| 0 <= i < |routes| && routes[i].verb == c.0 && Meet(Segments(routes[i].norm), Segments(c.1));
      assert Claims(c, routes[i].verb, routes[i].norm);
      assert Mounted(routes[i], {c});
    }
  }
}
