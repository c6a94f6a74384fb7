// scripts/test-google-maps-route.ts: from an ordered list of stops to priced, tolled segments.
//
// Distances and prices are reals; Math.round is the floor of x + 1/2. What the distance provider answers
// for segment i is google(i).
module Itinerary {
  import opened Basics

  datatype Stop = Stop(name: string, coords: bool, distanceKm: real, toll: real, kind: string)

  /** The route as loaded: the origin and destination stations around the waypoints, in order. */
  datatype Route = Route(origin: Stop, waypoints: seq<Stop>, destination: Stop, distanceKm: real, basePrice: real)

  datatype Row = Row(
    from: string, to: string, distDb: real, distGoogle: real, priceBefore: int, priceAfter: int, toll: real)

  function AllStops(r: Route): seq<Stop> {
    [r.origin.(distanceKm := 0.0, toll := 0.0, kind := "STATION")]
    + r.waypoints
    + [r.destination.(distanceKm := r.distanceKm, toll := 0.0, kind := "STATION")]
  }

  predicate Kept(s: Stop) {
    s.kind == "STATION" && s.coords
  }

  /** Positions of the stations with coordinates. `stops[p]` in the script is the object at position KeptAt[p]. */
  function KeptAt(all: seq<Stop>): seq<nat> {
    if all == [] then []
    else KeptAt(all[..|all| - 1]) + if Kept(all[|all| - 1]) then [|all| - 1] else []
  }

  ghost predicate Increasing(ks: seq<nat>) {
    forall p, q :: 0 <= p < q < |ks| ==> ks[p] < ks[q]
  }

  /** `ks` lists, in order, exactly the positions of the kept stops. */
  ghost predicate Selects(all: seq<Stop>, ks: seq<nat>) {
    && Increasing(ks)
    && (forall p :: 0 <= p < |ks| ==> ks[p] < |all| && Kept(all[ks[p]]))
    && (forall j :: 0 <= j < |all| && Kept(all[j]) ==> j in ks)
  }

  lemma {:induction false} KeptAtSelects(all: seq<Stop>)
    ensures Selects(all, KeptAt(all))
  {
    if all != [] {
      var n := |all| - 1;
      KeptAtSelects(all[..n]);
      assert forall j :: 0 <= j < n ==> all[..n][j] == all[j];
    }
  }

  // ----- Tolls -----

  /** Which stops a sum of tolls takes in. UNLOCATED: stations without coordinates, which the script drops. */
  datatype Part = MARKER | KEPT | UNLOCATED | ANY

  function Toll(part: Part, s: Stop): real {
    var counted := match part
      case MARKER => s.kind != "STATION"
      case KEPT => Kept(s)
      case UNLOCATED => s.kind == "STATION" && !s.coords
      case ANY => true;
    if counted then s.toll else 0.0
  }

  /** The tolls of that part of the stops at positions lo..hi. */
  function Tolls(part: Part, all: seq<Stop>, lo: nat, hi: nat): real
    requires hi <= |all|
  {
    if hi <= lo then 0.0 else Tolls(part, all, lo, hi - 1) + Toll(part, all[hi - 1])
  }

  lemma {:induction false} TollsSplit(part: Part, all: seq<Stop>, lo: nat, mid: nat, hi: nat)
    requires lo <= mid <= hi <= |all|
    ensures Tolls(part, all, lo, hi) == Tolls(part, all, lo, mid) + Tolls(part, all, mid, hi)
  {
    if mid < hi {
      TollsSplit(part, all, lo, mid, hi - 1);
    }
  }

  lemma {:induction false} TollsByPart(all: seq<Stop>, lo: nat, hi: nat)
    requires hi <= |all|
    ensures Tolls(ANY, all, lo, hi)
         == Tolls(MARKER, all, lo, hi) + Tolls(KEPT, all, lo, hi) + Tolls(UNLOCATED, all, lo, hi)
  {
    if lo < hi {
      TollsByPart(all, lo, hi - 1);
    }
  }

  lemma {:induction false} NoneKept(all: seq<Stop>, lo: nat, hi: nat)
    requires hi <= |all| && forall j :: lo <= j < hi ==> !Kept(all[j])
    ensures Tolls(KEPT, all, lo, hi) == 0.0
  {
    if lo < hi {
      NoneKept(all, lo, hi - 1);
    }
  }

  function TollAt(tolls: map<nat, real>, i: nat): real {
    if i in tolls then tolls[i] else 0.0
  }

  /** Position `k` lies strictly inside segment `i`. */
  predicate Inside(ks: seq<nat>, i: nat, k: nat) {
    i + 1 < |ks| && ks[i] < k < ks[i + 1]
  }

  lemma InsideOnce(ks: seq<nat>, i: nat, j: nat, k: nat)
    requires Increasing(ks) && Inside(ks, i, k) && Inside(ks, j, k)
    ensures i == j
  {
  }

  /** The tolls of segment `i` once the first `k` stops have been looked at. */
  function MarksSoFar(all: seq<Stop>, ks: seq<nat>, i: nat, k: nat): real
    requires i + 1 < |ks| && k <= |all|
  {
    Tolls(MARKER, all, ks[i] + 1, Min(k, ks[i + 1]))
  }

  ghost predicate Imputed(all: seq<Stop>, ks: seq<nat>, k: nat, tolls: map<nat, real>)
    requires k <= |all|
  {
    && (forall i :: i in tolls ==> i + 1 < |ks|)
    && (forall i: nat {:trigger TollAt(tolls, i)} :: i + 1 < |ks| ==> TollAt(tolls, i) == MarksSoFar(all, ks, i, k))
  }

  /** Looking at stop `k` adds its toll to the segment it lies in, if any. */
  lemma MarksStep(all: seq<Stop>, ks: seq<nat>, i: nat, k: nat)
    requires i + 1 < |ks| && k < |all|
    ensures MarksSoFar(all, ks, i, k + 1)
         == MarksSoFar(all, ks, i, k) + if Inside(ks, i, k) then Toll(MARKER, all[k]) else 0.0
  {
  }

  /** A stop without a marker toll, or outside every segment, leaves the imputation as it is. */
  lemma SkipStop(all: seq<Stop>, ks: seq<nat>, k: nat, tolls: map<nat, real>)
    requires k < |all| && Imputed(all, ks, k, tolls)
    requires Toll(MARKER, all[k]) == 0.0 || forall i: nat :: !Inside(ks, i, k)
    ensures Imputed(all, ks, k + 1, tolls)
  {
    forall i: nat {:trigger TollAt(tolls, i)} | i + 1 < |ks|
      ensures TollAt(tolls, i) == MarksSoFar(all, ks, i, k + 1)
    {
      MarksStep(all, ks, i, k);
    }
  }

  lemma ChargeStop(all: seq<Stop>, ks: seq<nat>, k: nat, tolls: map<nat, real>, seg: nat)
    requires k < |all| && Imputed(all, ks, k, tolls) && Increasing(ks) && Inside(ks, seg, k)
    ensures Imputed(all, ks, k + 1, tolls[seg := TollAt(tolls, seg) + Toll(MARKER, all[k])])
  {
    var tolls' := tolls[seg := TollAt(tolls, seg) + Toll(MARKER, all[k])];
    forall i: nat {:trigger TollAt(tolls', i)} | i + 1 < |ks|
      ensures TollAt(tolls', i) == MarksSoFar(all, ks, i, k + 1)
    {
      MarksStep(all, ks, i, k);
      assert TollAt(tolls, i) == MarksSoFar(all, ks, i, k);
      if Inside(ks, i, k) {
        InsideOnce(ks, i, seg, k);
      }
    }
  }

  method LastKeptBefore(all: seq<Stop>, k: nat) returns (before: int)
    requires k <= |all|
    ensures -1 <= before < k && (before >= 0 ==> Kept(all[before]))
    ensures forall m :: before < m < k ==> !Kept(all[m])
  {
    before := -1;
    var j := k - 1;
    while j >= 0
      invariant -1 <= j < k
      invariant forall m :: j < m < k ==> !Kept(all[m])
    {
      if Kept(all[j]) {
        return j;
      }
      j := j - 1;
    }
  }

  method IndexOf(stops: seq<nat>, stop: nat) returns (i: nat)
    requires stop in stops
    ensures i < |stops| && stops[i] == stop
  {
    i := 0;
    while stops[i] != stop
      invariant i < |stops| && stop in stops[i..]
      decreases |stops| - i
    {
      i := i + 1;
    }
  }

  /** The segment of the last kept station before `k`, or -1 if there is none or no segment follows it. */
  method SegmentOf(all: seq<Stop>, stops: seq<nat>, k: nat) returns (seg: int)
    requires Selects(all, stops) && k < |all| && !Kept(all[k])
    ensures -1 <= seg && (seg >= 0 ==> Inside(stops, seg, k))
    ensures seg == -1 ==> forall i: nat :: !Inside(stops, i, k)
  {
    var before := LastKeptBefore(all, k);
    assert forall i: nat :: i < |stops| ==> stops[i] != k && (stops[i] <= before || k < stops[i]) by {
      assert forall i: nat :: i < |stops| ==> Kept(all[stops[i]]);
    }
    if before < 0 {
      return -1;
    }
    seg := IndexOf(stops, before);
    if seg >= |stops| - 1 {
      return -1;
    }
    assert stops[seg] < stops[seg + 1];
  }

  lemma AllImputed(all: seq<Stop>, ks: seq<nat>, tolls: map<nat, real>)
    requires Selects(all, ks) && Imputed(all, ks, |all|, tolls)
    ensures Final(all, ks, tolls)
  {
    forall i: nat {:trigger TollAt(tolls, i)} | i + 1 < |ks|
      ensures TollAt(tolls, i) == Tolls(MARKER, all, ks[i] + 1, ks[i + 1])
    {
      assert Min(|all|, ks[i + 1]) == ks[i + 1];
    }
  }

  /** Each marker's toll is charged to the segment whose two kept stations bracket it, and to no other. */
  ghost predicate Final(all: seq<Stop>, ks: seq<nat>, tolls: map<nat, real>)
    requires Selects(all, ks)
  {
    && (forall i :: i in tolls ==> i + 1 < |ks|)
    && (forall i: nat {:trigger TollAt(tolls, i)} :: i + 1 < |ks| ==>
          TollAt(tolls, i) == Tolls(MARKER, all, ks[i] + 1, ks[i + 1]))
  }

  method ImputeTolls(all: seq<Stop>, stops: seq<nat>) returns (tolls: map<nat, real>)
    requires Selects(all, stops)
    ensures Final(all, stops, tolls)
  {
    tolls := map[];
    for k := 0 to |all|
      invariant Imputed(all, stops, k, tolls)
    {
      var s := all[k];
      if s.kind == "STATION" || s.toll == 0.0 {
        SkipStop(all, stops, k, tolls);
        continue;
      }
      var seg := SegmentOf(all, stops, k);
      if seg < 0 {
        SkipStop(all, stops, k, tolls);
        continue;
      }
      ChargeStop(all, stops, k, tolls, seg);
      tolls := tolls[seg := TollAt(tolls, seg) + s.toll];
    }
    AllImputed(all, stops, tolls);
  }

  // ----- The rows -----

  function Clamp(x: real): real {
    if x < 0.0 then 0.0 else x
  }

  function Share(distance: real, total: real, base: real): real
    requires total != 0.0
  {
    (distance / total) * base
  }

  /** The prorata formula. */
  function Price(distance: real, total: real, base: real): int
    requires total != 0.0
  {
    Round(Share(distance, total, base))
  }

  /** JavaScript's `x || 1` on a number. */
  function OrOne(x: real): (r: real)
    ensures r != 0.0
  {
    if x == 0.0 then 1.0 else x
  }

  function Sum(xs: seq<real>): real {
    if xs == [] then 0.0 else Sum(xs[..|xs| - 1]) + xs[|xs| - 1]
  }

  function DbDistances(rows: seq<Row>): (r: seq<real>)
    ensures |r| == |rows|
  {
    seq(|rows|, i requires 0 <= i < |rows| => rows[i].distDb)
  }

  function GoogleDistances(rows: seq<Row>): (r: seq<real>)
    ensures |r| == |rows|
  {
    seq(|rows|, i requires 0 <= i < |rows| => rows[i].distGoogle)
  }

  /** Row `i` before it is priced. */
  ghost predicate IsRow(all: seq<Stop>, ks: seq<nat>, google: nat -> real, i: nat, row: Row)
    requires i + 1 < |ks|
  {
    var a, b := ks[i], ks[i + 1];
    && a < |all| && b < |all|
    && row.from == all[a].name && row.to == all[b].name
    && row.distDb == Clamp(all[b].distanceKm - all[a].distanceKm)
    && row.distGoogle == google(i)
    && row.toll == all[b].toll + Tolls(MARKER, all, a + 1, b)
  }

  ghost predicate IsTable(all: seq<Stop>, google: nat -> real, rows: seq<Row>) {
    var ks := KeptAt(all);
    && |rows| == (if |ks| == 0 then 0 else |ks| - 1)
    && forall i :: 0 <= i < |rows| ==> IsRow(all, ks, google, i, rows[i])
  }

  method BuildRows(all: seq<Stop>, google: nat -> real) returns (rows: seq<Row>)
    ensures IsTable(all, google, rows)
  {
    KeptAtSelects(all);
    var stops := KeptAt(all);
    var tolls := ImputeTolls(all, stops);
    rows := [];
    var i := 0;
    while i < |stops| - 1
      invariant |rows| == i && (i == 0 || i <= |stops| - 1)
      invariant forall k :: 0 <= k < i ==> IsRow(all, stops, google, k, rows[k])
    {
      var a, b := all[stops[i]], all[stops[i + 1]];
      var row := Row(a.name, b.name, Clamp(b.distanceKm - a.distanceKm), google(i), 0, 0, b.toll + TollAt(tolls, i));
      assert IsRow(all, stops, google, i, row);
      rows := rows + [row];
      i := i + 1;
    }
  }

  method TotalGoogle(rows: array<Row>) returns (total: real)
    ensures total == Sum(GoogleDistances(rows[..]))
  {
    total := 0.0;
    ghost var ds := GoogleDistances(rows[..]);
    for i := 0 to rows.Length
      invariant total == Sum(ds[..i])
    {
      assert ds[..i + 1][..i] == ds[..i];
      total := total + rows[i].distGoogle;
    }
    assert ds[..rows.Length] == ds;
  }

  /** Prices every row in place, from the database distances and from the provider's. */
  method PriceRows(rows: array<Row>, totalDb: real, totalGoogle: real, base: real)
    requires totalDb != 0.0 && totalGoogle != 0.0
    modifies rows
    ensures forall i :: 0 <= i < rows.Length ==> rows[i] == old(rows[i]).(
      priceBefore := Price(old(rows[i]).distDb, totalDb, base),
      priceAfter := Price(old(rows[i]).distGoogle, totalGoogle, base))
  {
    for i := 0 to rows.Length
      invariant forall k :: 0 <= k < i ==> rows[k] == old(rows[k]).(
        priceBefore := Price(old(rows[k]).distDb, totalDb, base),
        priceAfter := Price(old(rows[k]).distGoogle, totalGoogle, base))
      invariant forall k :: i <= k < rows.Length ==> rows[k] == old(rows[k])
    {
      var r := rows[i];
      rows[i] := r.(
        priceBefore := Price(r.distDb, totalDb, base),
        priceAfter := Price(r.distGoogle, totalGoogle, base));
    }
  }

  function Prices(ds: seq<real>, total: real, base: real): (r: seq<int>)
    requires total != 0.0
    ensures |r| == |ds|
  {
    seq(|ds|, i requires 0 <= i < |ds| => Price(ds[i], total, base))
  }

  function PricesBefore(rows: seq<Row>): seq<int> {
    seq(|rows|, i requires 0 <= i < |rows| => rows[i].priceBefore)
  }

  function PricesAfter(rows: seq<Row>): seq<int> {
    seq(|rows|, i requires 0 <= i < |rows| => rows[i].priceAfter)
  }

  ghost predicate IsComparison(route: Route, google: nat -> real, rows: seq<Row>) {
    && IsTable(AllStops(route), google, rows)
    && PricesBefore(rows) == Prices(DbDistances(rows), OrOne(route.distanceKm), route.basePrice)
    && PricesAfter(rows) == Prices(GoogleDistances(rows), OrOne(Sum(GoogleDistances(rows))), route.basePrice)
  }

  method Compare(route: Route, google: nat -> real) returns (rows: array<Row>)
    ensures IsComparison(route, google, rows[..])
  {
    var built := BuildRows(AllStops(route), google);
    rows := new Row[|built|](i requires 0 <= i < |built| => built[i]);
    assert rows[..] == built;
    var totalGoogle := TotalGoogle(rows);
    PriceRows(rows, OrOne(route.distanceKm), OrOne(totalGoogle), route.basePrice);
    assert GoogleDistances(rows[..]) == GoogleDistances(built);
  }

  // ----- Tolls are conserved -----

  function SumTolls(rows: seq<Row>): real {
    if rows == [] then 0.0 else SumTolls(rows[..|rows| - 1]) + rows[|rows| - 1].toll
  }

  lemma GapHasNone(all: seq<Stop>, i: nat)
    requires Selects(all, KeptAt(all)) && i + 1 < |KeptAt(all)|
    ensures var (a, b) := (KeptAt(all)[i], KeptAt(all)[i + 1]);
      a < b < |all| && Kept(all[b]) && forall j :: a < j < b ==> !Kept(all[j])
  {
    hide KeptAt;
    var ks := KeptAt(all);
    forall j | ks[i] < j < ks[i + 1] ensures !Kept(all[j]) {
      assert forall q :: 0 <= q < |ks| ==> if q <= i then ks[q] <= ks[i] else ks[i + 1] <= ks[q];
    }
  }

  /** Nothing kept lies between two successive kept stations, and a kept station is no marker. */
  lemma NextSegment(all: seq<Stop>, p: nat)
    requires Selects(all, KeptAt(all)) && 0 < p < |KeptAt(all)|
    ensures var first, a, b := KeptAt(all)[0], KeptAt(all)[p - 1], KeptAt(all)[p];
      && first <= a < b
      && Tolls(MARKER, all, first + 1, b) == Tolls(MARKER, all, first + 1, a) + Tolls(MARKER, all, a + 1, b)
      && Tolls(KEPT, all, first + 1, b + 1) == Tolls(KEPT, all, first + 1, a + 1) + all[b].toll
  {
    hide KeptAt;
    var first, a, b := KeptAt(all)[0], KeptAt(all)[p - 1], KeptAt(all)[p];
    GapHasNone(all, p - 1);
    TollsSplit(MARKER, all, first + 1, a + 1, b);
    TollsSplit(KEPT, all, first + 1, a + 1, b);
    NoneKept(all, a + 1, b);
  }

  lemma {:induction false} TollsUpTo(all: seq<Stop>, google: nat -> real, rows: seq<Row>, p: nat)
    requires IsTable(all, google, rows) && p < |KeptAt(all)| && Selects(all, KeptAt(all))
    ensures var first, last := KeptAt(all)[0], KeptAt(all)[p];
      SumTolls(rows[..p]) == Tolls(KEPT, all, first + 1, last + 1) + Tolls(MARKER, all, first + 1, last)
  {
    if p > 0 {
      hide Tolls, Selects, KeptAt;
      TollsUpTo(all, google, rows, p - 1);
      assert rows[..p][..p - 1] == rows[..p - 1];
      assert IsRow(all, KeptAt(all), google, p - 1, rows[p - 1]);
      NextSegment(all, p);
    }
  }

  /**
   * The rows' tolls add up to the tolls of all kept stations but the first, plus all markers between the
   * first and the last kept station: nothing in there is lost or charged twice.
   */
  lemma TollsConserved(all: seq<Stop>, google: nat -> real, rows: seq<Row>)
    requires IsTable(all, google, rows) && |KeptAt(all)| >= 1
    ensures var first, last := KeptAt(all)[0], KeptAt(all)[|KeptAt(all)| - 1];
      && last < |all|
      && SumTolls(rows) == Tolls(KEPT, all, first + 1, last + 1) + Tolls(MARKER, all, first + 1, last)
  {
    hide KeptAt, Tolls;
    KeptAtSelects(all);
    TollsUpTo(all, google, rows, |rows|);
    assert rows[..|rows|] == rows;
  }

  lemma FirstAndLast(all: seq<Stop>)
    requires |KeptAt(all)| >= 1
    ensures var first, last := KeptAt(all)[0], KeptAt(all)[|KeptAt(all)| - 1];
      first <= last < |all| && Kept(all[last])
  {
    KeptAtSelects(all);
  }

  /**
   * The whole account: the tolls the table leaves out are those up to the first kept station, those after
   * the last, and those of stations without coordinates in between. So it shows every toll of the route
   * exactly when these add up to nothing.
   */
  lemma TollsAccountedFor(all: seq<Stop>, google: nat -> real, rows: seq<Row>)
    requires IsTable(all, google, rows) && |KeptAt(all)| >= 1
    ensures var first, last := KeptAt(all)[0], KeptAt(all)[|KeptAt(all)| - 1];
      && first <= last < |all|
      && Tolls(ANY, all, 0, |all|) == SumTolls(rows) + Tolls(ANY, all, 0, first + 1)
           + Tolls(UNLOCATED, all, first + 1, last + 1) + Tolls(ANY, all, last + 1, |all|)
  {
    hide KeptAt, IsTable;
    FirstAndLast(all);
    TollsConserved(all, google, rows);
    var first, last := KeptAt(all)[0], KeptAt(all)[|KeptAt(all)| - 1];
    TollsSplit(ANY, all, 0, first + 1, last + 1);
    TollsSplit(ANY, all, 0, last + 1, |all|);
    TollsByPart(all, first + 1, last + 1);
  }

  /** Each marker between the first and the last kept station lies in exactly one segment. */
  lemma EveryMarkerBracketed(all: seq<Stop>, k: nat) returns (i: nat)
    requires |KeptAt(all)| >= 2 && KeptAt(all)[0] < k < KeptAt(all)[|KeptAt(all)| - 1]
    requires k < |all| && !Kept(all[k])
    ensures Inside(KeptAt(all), i, k)
    ensures forall j: nat :: Inside(KeptAt(all), j, k) ==> j == i
  {
    var ks := KeptAt(all);
    KeptAtSelects(all);
    i := 0;
    while ks[i + 1] < k
      invariant i + 1 < |ks| && ks[i] < k
      decreases |ks| - i
    {
      i := i + 1;
    }
    assert Kept(all[ks[i + 1]]);
    forall j: nat | Inside(ks, j, k) ensures j == i {
      InsideOnce(ks, i, j, k);
    }
  }

  // ----- Rounded prices stay within half a unit a segment -----

  function SumInts(xs: seq<int>): int {
    if xs == [] then 0 else SumInts(xs[..|xs| - 1]) + xs[|xs| - 1]
  }

  /** `rounded` is `exact` up to half a unit for each of `n` roundings. */
  predicate Within(rounded: int, exact: real, n: nat) {
    exact - n as real / 2.0 <= rounded as real <= exact + n as real / 2.0
  }

  lemma ShareAdds(a: real, b: real, total: real, base: real)
    requires total != 0.0
    ensures Share(a + b, total, base) == Share(a, total, base) + Share(b, total, base)
  {
    assert (a + b) / total == a / total + b / total;
  }

  lemma ShareOfAll(total: real, base: real)
    requires total != 0.0
    ensures Share(total, total, base) == base
  {
  }

  /** However the distances arise, the rounded prices add up to within n/2 of the unrounded ones. */
  lemma {:induction false} RoundingBound(ds: seq<real>, total: real, base: real)
    requires total != 0.0
    ensures Within(SumInts(Prices(ds, total, base)), Share(Sum(ds), total, base), |ds|)
  {
    if ds != [] {
      var n := |ds| - 1;
      RoundingBound(ds[..n], total, base);
      ShareAdds(Sum(ds[..n]), ds[n], total, base);
      assert Prices(ds, total, base)[..n] == Prices(ds[..n], total, base);
      RoundedIsClose(Share(ds[n], total, base));
    }
  }

  /** The provider's distances: with a positive total the prices add up to the base price, within n/2. */
  lemma GooglePricesAddUp(ds: seq<real>, base: real)
    requires Sum(ds) != 0.0
    ensures Within(SumInts(Prices(ds, OrOne(Sum(ds)), base)), base, |ds|)
  {
    RoundingBound(ds, Sum(ds), base);
    ShareOfAll(Sum(ds), base);
  }

  /** By how much the kept stations' distances run backwards, in all. */
  function Regress(all: seq<Stop>, ks: seq<nat>, p: nat): real
    requires p < |ks| && forall i :: 0 <= i < |ks| ==> ks[i] < |all|
  {
    if p == 0 then 0.0
    else Regress(all, ks, p - 1) + Clamp(all[ks[p - 1]].distanceKm - all[ks[p]].distanceKm)
  }

  predicate MonotoneKept(all: seq<Stop>, ks: seq<nat>, p: nat)
    requires p < |ks| && forall i :: 0 <= i < |ks| ==> ks[i] < |all|
  {
    forall i :: 0 < i <= p ==> all[ks[i - 1]].distanceKm <= all[ks[i]].distanceKm
  }

  lemma {:induction false} RegressZero(all: seq<Stop>, ks: seq<nat>, p: nat)
    requires p < |ks| && forall i :: 0 <= i < |ks| ==> ks[i] < |all|
    ensures Regress(all, ks, p) >= 0.0
    ensures Regress(all, ks, p) == 0.0 <==> MonotoneKept(all, ks, p)
  {
    if p > 0 {
      RegressZero(all, ks, p - 1);
    }
  }

  /** The clamped differences telescope, up to what the distances regress. */
  lemma {:induction false} Telescope(all: seq<Stop>, google: nat -> real, rows: seq<Row>, p: nat)
    requires IsTable(all, google, rows) && p < |KeptAt(all)| && Selects(all, KeptAt(all))
    ensures Sum(DbDistances(rows)[..p]) == all[KeptAt(all)[p]].distanceKm - all[KeptAt(all)[0]].distanceKm
      + Regress(all, KeptAt(all), p)
  {
    if p > 0 {
      Telescope(all, google, rows, p - 1);
      assert DbDistances(rows)[..p][..p - 1] == DbDistances(rows)[..p - 1];
      assert IsRow(all, KeptAt(all), google, p - 1, rows[p - 1]);
    }
  }

  lemma EndsKept(route: Route)
    requires Selects(AllStops(route), KeptAt(AllStops(route)))
    requires route.origin.coords && route.destination.coords
    ensures var all := AllStops(route); var ks := KeptAt(all);
      |ks| >= 1 && ks[0] == 0 && ks[|ks| - 1] == |all| - 1
  {
    var all := AllStops(route);
    var ks := KeptAt(all);
    assert Kept(all[0]) && Kept(all[|all| - 1]);
    assert forall q :: 0 < q < |ks| ==> ks[0] < ks[q];
    assert forall q :: 0 <= q < |ks| - 1 ==> ks[q] < ks[|ks| - 1];
  }

  /** When both ends of the route are kept, the database distances add up to its length plus the regress. */
  lemma DbDistancesAddUp(route: Route, google: nat -> real, rows: seq<Row>)
    requires IsTable(AllStops(route), google, rows) && route.origin.coords && route.destination.coords
    ensures var all := AllStops(route); var ks := KeptAt(all);
      && Selects(all, ks) && |ks| == |rows| + 1
      && Sum(DbDistances(rows)) == route.distanceKm + Regress(all, ks, |rows|)
      && (Sum(DbDistances(rows)) == route.distanceKm <==> MonotoneKept(all, ks, |rows|))
  {
    hide KeptAt, Regress, Sum, IsRow;
    var all := AllStops(route);
    var ks := KeptAt(all);
    KeptAtSelects(all);
    EndsKept(route);
    Telescope(all, google, rows, |rows|);
    RegressZero(all, ks, |rows|);
    assert DbDistances(rows)[..|rows|] == DbDistances(rows);
  }

  /** The sum of the prices before, and what the prorata of the whole route would be without rounding. */
  function PricedBefore(route: Route, rows: seq<Row>): int {
    SumInts(Prices(DbDistances(rows), OrOne(route.distanceKm), route.basePrice))
  }

  function ExactBefore(route: Route, regress: real): real {
    Share(route.distanceKm + regress, OrOne(route.distanceKm), route.basePrice)
  }

  lemma PricedBeforeIsClose(route: Route, rows: seq<Row>, regress: real)
    requires Sum(DbDistances(rows)) == route.distanceKm + regress
    ensures Within(PricedBefore(route, rows), ExactBefore(route, regress), |rows|)
  {
    RoundingBound(DbDistances(rows), OrOne(route.distanceKm), route.basePrice);
  }

  /** Without rounding the prices before reach the base price exactly when nothing runs backwards, or it is zero. */
  lemma ExactIffNoRegress(route: Route, regress: real)
    requires route.distanceKm != 0.0
    ensures ExactBefore(route, regress) == route.basePrice <==> regress == 0.0 || route.basePrice == 0.0
  {
    var (d, base) := (route.distanceKm, route.basePrice);
    ShareAdds(d, regress, d, base);
    ShareOfAll(d, base);
    assert ExactBefore(route, regress) == base + Share(regress, d, base);
    ShareZeroIff(regress, d, base);
  }

  lemma ShareZeroIff(x: real, total: real, base: real)
    requires total != 0.0
    ensures Share(x, total, base) == 0.0 <==> x == 0.0 || base == 0.0
  {
    var q := x / total;
    assert q * total == x;
    if q != 0.0 && base != 0.0 {
      assert q * base != 0.0;
    }
  }

  /**
   * The prices before: with both ends kept they add up, within n/2, to the prorata of the travelled over the
   * stated distance, and that is the base price itself exactly when no kept distance runs backwards, or it is zero.
   */
  lemma DbPricesAddUp(route: Route, google: nat -> real, rows: seq<Row>)
    requires IsTable(AllStops(route), google, rows) && route.origin.coords && route.destination.coords
    requires route.distanceKm != 0.0
    ensures var all := AllStops(route); var ks := KeptAt(all);
      && Selects(all, ks) && |ks| == |rows| + 1
      && Within(PricedBefore(route, rows), ExactBefore(route, Regress(all, ks, |rows|)), |rows|)
      && (ExactBefore(route, Regress(all, ks, |rows|)) == route.basePrice
          <==> MonotoneKept(all, ks, |rows|) || route.basePrice == 0.0)
  {
    hide PricedBefore, ExactBefore, Within;
    var all := AllStops(route);
    var ks := KeptAt(all);
    DbDistancesAddUp(route, google, rows);
    PricedBeforeIsClose(route, rows, Regress(all, ks, |rows|));
    RegressZero(all, ks, |rows|);
    ExactIffNoRegress(route, Regress(all, ks, |rows|));
  }

  // ----- The script's own warning -----

  predicate Backward(all: seq<Stop>, i: nat) {
    0 < i < |all| && all[i].distanceKm < all[i - 1].distanceKm
  }

  /** Positions whose distance is below the previous one: the `monotonyBreaks` the script prints. */
  method MonotonyBreaks(all: seq<Stop>) returns (breaks: seq<nat>)
    ensures forall i: nat :: i in breaks <==> 0 < i < |all| && all[i].distanceKm < all[i - 1].distanceKm
    ensures forall p, q :: 0 <= p < q < |breaks| ==> breaks[p] < breaks[q]
  {
    breaks := [];
    var i: nat := 1;
    while i < |all|
      invariant 1 <= i
      invariant forall k: nat :: k in breaks <==> k < i && Backward(all, k)
      invariant forall p :: 0 <= p < |breaks| ==> breaks[p] < i
      invariant forall p, q :: 0 <= p < q < |breaks| ==> breaks[p] < breaks[q]
    {
      if all[i].distanceKm < all[i - 1].distanceKm {
        breaks := breaks + [i];
      }
      i := i + 1;
    }
  }

  lemma {:induction false} NoBreaksMonotone(all: seq<Stop>, a: nat, b: nat)
    requires a <= b < |all|
    requires forall i: nat :: !Backward(all, i)
    ensures all[a].distanceKm <= all[b].distanceKm
  {
    if a < b {
      NoBreaksMonotone(all, a, b - 1);
      assert !Backward(all, b);
    }
  }

  /** A route about which the script prints no warning is priced to its base price, within n/2. */
  lemma NoWarningNoDrift(route: Route, google: nat -> real, rows: seq<Row>)
    requires IsTable(AllStops(route), google, rows) && route.origin.coords && route.destination.coords
    requires route.distanceKm != 0.0
    requires forall i: nat :: !Backward(AllStops(route), i)
    ensures Within(PricedBefore(route, rows), route.basePrice, |rows|)
  {
    var all := AllStops(route);
    var ks := KeptAt(all);
    DbPricesAddUp(route, google, rows);
    forall i | 0 < i <= |rows| ensures all[ks[i - 1]].distanceKm <= all[ks[i]].distanceKm {
      NoBreaksMonotone(all, ks[i - 1], ks[i]);
    }
  }

  // ----- The route as its waypoints have it -----

  /** The tolls of the markers and of the stations with coordinates. */
  function PricedTolls(stops: seq<Stop>): real {
    if stops == [] then 0.0
    else
      var s := stops[|stops| - 1];
      PricedTolls(stops[..|stops| - 1]) + if s.kind != "STATION" || s.coords then s.toll else 0.0
  }

  lemma {:induction false} StretchTolls(all: seq<Stop>, lo: nat, hi: nat)
    requires lo <= hi <= |all|
    ensures PricedTolls(all[lo..hi]) == Tolls(MARKER, all, lo, hi) + Tolls(KEPT, all, lo, hi)
  {
    if lo < hi {
      assert all[lo..hi][..hi - lo - 1] == all[lo..hi - 1];
      StretchTolls(all, lo, hi - 1);
    }
  }

  lemma {:induction false} PricedTollsAdd(a: seq<Stop>, b: seq<Stop>)
    ensures PricedTolls(a + b) == PricedTolls(a) + PricedTolls(b)
  {
    if b == [] {
      assert a + b == a;
    } else {
      assert (a + b)[..|a + b| - 1] == a + b[..|b| - 1];
      PricedTollsAdd(a, b[..|b| - 1]);
    }
  }

  /** A segment is charged for the stretch after its first station up to and with its second. */
  lemma SegmentToll(all: seq<Stop>, google: nat -> real, rows: seq<Row>, i: nat)
    requires IsTable(all, google, rows) && i < |rows|
    ensures i + 1 < |KeptAt(all)|
    ensures var (a, b) := (KeptAt(all)[i], KeptAt(all)[i + 1]);
      a < b < |all| && rows[i].toll == PricedTolls(all[a + 1..b + 1])
  {
    hide Tolls, PricedTolls, Selects, KeptAt, IsTable, IsRow;
    KeptAtSelects(all);
    ChargedAs(all, google, rows, i);
    var (a, b) := (KeptAt(all)[i], KeptAt(all)[i + 1]);
    GapHasNone(all, i);
    StretchTolls(all, a + 1, b + 1);
    NoneKept(all, a + 1, b);
    ArrivalToll(all, a, b);
  }

  lemma ChargedAs(all: seq<Stop>, google: nat -> real, rows: seq<Row>, i: nat)
    requires IsTable(all, google, rows) && i < |rows| && Selects(all, KeptAt(all))
    ensures i + 1 < |KeptAt(all)|
    ensures var (a, b) := (KeptAt(all)[i], KeptAt(all)[i + 1]);
      b < |all| && rows[i].toll == all[b].toll + Tolls(MARKER, all, a + 1, b)
  {
    hide KeptAt, Tolls;
    assert IsRow(all, KeptAt(all), google, i, rows[i]);
  }

  lemma ArrivalToll(all: seq<Stop>, a: nat, b: nat)
    requires a < b < |all| && Kept(all[b])
    ensures Tolls(MARKER, all, a + 1, b + 1) == Tolls(MARKER, all, a + 1, b)
    ensures Tolls(KEPT, all, a + 1, b + 1) == Tolls(KEPT, all, a + 1, b) + all[b].toll
  {
  }

  /** With both ends located, the tolls of the rows are those of all waypoints but the stations without coordinates. */
  lemma WaypointTolls(route: Route, google: nat -> real, rows: seq<Row>)
    requires IsTable(AllStops(route), google, rows) && route.origin.coords && route.destination.coords
    ensures SumTolls(rows) == PricedTolls(route.waypoints)
  {
    hide Tolls, PricedTolls, Selects, KeptAt, IsTable, SumTolls;
    var all := AllStops(route);
    KeptAtSelects(all);
    EndsKept(route);
    TollsConserved(all, google, rows);
    StretchTolls(all, 1, |all|);
    StationIsNoMarker(all, |all| - 1);
    assert all[1..|all|] == route.waypoints + [all[|all| - 1]];
    PricedTollsAdd(route.waypoints, [all[|all| - 1]]);
    NoTollNoPrice(all[|all| - 1]);
  }

  lemma StationIsNoMarker(all: seq<Stop>, k: nat)
    requires 0 < k < |all| && all[k].kind == "STATION"
    ensures Tolls(MARKER, all, 1, k + 1) == Tolls(MARKER, all, 1, k)
  {
  }

  lemma NoTollNoPrice(s: Stop)
    requires s.toll == 0.0
    ensures PricedTolls([s]) == 0.0
  {
    assert [s][..0] == [];
  }

  /** Where a segment can begin or end: the name of the stop and its distance from the origin. */
  type Halt = (string, real)

  function Located(stops: seq<Stop>): seq<Halt> {
    if stops == [] then []
    else
      var s := stops[|stops| - 1];
      Located(stops[..|stops| - 1]) + if s.kind == "STATION" && s.coords then [(s.name, s.distanceKm)] else []
  }

  lemma {:induction false} LocatedAdd(a: seq<Stop>, b: seq<Stop>)
    ensures Located(a + b) == Located(a) + Located(b)
  {
    if b == [] {
      assert a + b == a;
    } else {
      assert (a + b)[..|a + b| - 1] == a + b[..|b| - 1];
      LocatedAdd(a, b[..|b| - 1]);
    }
  }

  lemma LocatedOne(s: Stop)
    ensures Located([s]) == if s.kind == "STATION" && s.coords then [(s.name, s.distanceKm)] else []
  {
    assert [s][..0] == [];
  }

  lemma {:induction false} LocatedAtKept(all: seq<Stop>)
    ensures |Located(all)| == |KeptAt(all)|
    ensures forall i :: 0 <= i < |KeptAt(all)| ==>
      KeptAt(all)[i] < |all| && Located(all)[i] == (all[KeptAt(all)[i]].name, all[KeptAt(all)[i]].distanceKm)
  {
    if all != [] {
      LocatedAtKept(all[..|all| - 1]);
    }
  }

  /** The row leads from one halt to the next, over their distance or over nothing if that runs backwards. */
  predicate Leads(row: Row, a: Halt, b: Halt) {
    row.from == a.0 && row.to == b.0 && row.distDb == if a.1 <= b.1 then b.1 - a.1 else 0.0
  }

  /**
   * With both ends located, the rows lead from the origin, at 0, through exactly the waypoints that are stations with
   * coordinates, in order, to the destination at the route's length; row `i` has the provider's answer for segment `i`.
   */
  lemma RowsFollowRoute(route: Route, google: nat -> real, rows: seq<Row>)
    requires IsTable(AllStops(route), google, rows) && route.origin.coords && route.destination.coords
    ensures var line :=
        [(route.origin.name, 0.0)] + Located(route.waypoints) + [(route.destination.name, route.distanceKm)];
      && |rows| == |line| - 1
      && forall i :: 0 <= i < |rows| ==> Leads(rows[i], line[i], line[i + 1]) && rows[i].distGoogle == google(i)
  {
    var (all, w) := (AllStops(route), route.waypoints);
    var (first, last) := (all[0], all[|all| - 1]);
    assert all == [first] + w + [last];
    LocatedAdd([first] + w, [last]);
    LocatedAdd([first], w);
    LocatedOne(first);
    LocatedOne(last);
    LocatedAtKept(all);
    forall i | 0 <= i < |rows| ensures Leads(rows[i], Located(all)[i], Located(all)[i + 1]) {
      assert IsRow(all, KeptAt(all), google, i, rows[i]);
    }
    forall i | 0 <= i < |rows| ensures rows[i].distGoogle == google(i) {
      assert IsRow(all, KeptAt(all), google, i, rows[i]);
    }
  }

  predicate Nearest(rounded: int, exact: real) {
    exact - 0.5 < rounded as real <= exact + 0.5
  }

  /** The price is the distance's part of the base price, of a total of 1 if it is zero, to the nearest unit. */
  predicate Prorated(price: int, distance: real, sum: real, base: real) {
    var total := if sum == 0.0 then 1.0 else sum;
    Nearest(price, distance / total * base)
  }

  /** Each of a row's two prices is its distance's part of the base price. */
  lemma RowPrices(route: Route, google: nat -> real, rows: seq<Row>, i: nat)
    requires IsComparison(route, google, rows) && i < |rows|
    ensures Prorated(rows[i].priceBefore, rows[i].distDb, route.distanceKm, route.basePrice)
    ensures Prorated(rows[i].priceAfter, rows[i].distGoogle, Sum(GoogleDistances(rows)), route.basePrice)
  {
    hide KeptAt, IsTable, Price, Prorated, Sum;
    var (db, google') := (DbDistances(rows), GoogleDistances(rows));
    assert rows[i].priceBefore == PricesBefore(rows)[i] == Price(db[i], OrOne(route.distanceKm), route.basePrice);
    assert rows[i].priceAfter == PricesAfter(rows)[i] == Price(google'[i], OrOne(Sum(google')), route.basePrice);
    PriceIsProrated(db[i], route.distanceKm, route.basePrice);
    PriceIsProrated(google'[i], Sum(google'), route.basePrice);
  }

  lemma PriceIsProrated(distance: real, sum: real, base: real)
    ensures Prorated(Price(distance, OrOne(sum), base), distance, sum, base)
  {
    PriceIsNearest(distance, OrOne(sum), base);
  }

  lemma PriceIsNearest(distance: real, total: real, base: real)
    requires total != 0.0
    ensures Nearest(Price(distance, total, base), distance / total * base)
  {
    RoundedIsClose(Share(distance, total, base));
  }

  /** The prices shown: after, and before if the route draws no warning, they add up to the base price within n/2. */
  lemma ComparisonAddsUp(route: Route, google: nat -> real, rows: seq<Row>)
    requires IsComparison(route, google, rows)
    ensures Sum(GoogleDistances(rows)) != 0.0 ==> Within(SumInts(PricesAfter(rows)), route.basePrice, |rows|)
    ensures (route.origin.coords && route.destination.coords && route.distanceKm != 0.0
             && forall i: nat :: !Backward(AllStops(route), i)) ==>
      Within(SumInts(PricesBefore(rows)), route.basePrice, |rows|)
  {
    if Sum(GoogleDistances(rows)) != 0.0 {
      GooglePricesAddUp(GoogleDistances(rows), route.basePrice);
    }
    if route.origin.coords && route.destination.coords && route.distanceKm != 0.0
       && (forall i: nat :: !Backward(AllStops(route), i)) {
      NoWarningNoDrift(route, google, rows);
    }
  }
}
