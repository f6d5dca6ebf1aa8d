/** The selection stage of the map: the minimum-volume cuts (scaled by the
 *  number of months covered), the left join that attaches the first/business
 *  fraction to delay and occupancy routes, the top-N selections by a metric,
 *  and the inner-join "overlap" selections between the top-40 lists. Routes
 *  are matched on 10 columns: the route key without the two states. */
module RouteSelection {
  import opened Frames
  import opened Routes
  import D = DelayRoutes
  import O = OccupancyRoutes
  import C = ClassRoutes
  import S = StopoverRoutes

  /** `if args.quarter:` on the command-line string: any non-empty quarter
   *  covers 3 months, no quarter covers 12. */
  function Months(quarter: Option<string>): (m: int)
    ensures m == 3 || m == 12
    ensures m == 3 <==> quarter.Some? && quarter.value != ""
  {
    if quarter.Some? && quarter.value != "" then 3 else 12
  }

  /** A monthly minimum (of flights or of passengers) scaled to the period
   *  covered: `flight_cut` and `pass_cut`. */
  function PeriodCut(monthly: int, quarter: Option<string>): (r: int)
    ensures r == if quarter.Some? && quarter.value != "" then 3 * monthly else 12 * monthly
  {
    monthly * Months(quarter)
  }

  predicate FlownEnough(cut: int, r: D.DelayRoute) { r.flightCount > cut }
  predicate DepartedEnough(cut: int, r: O.OccupancyRoute) { r.departuresSum > cut as real }
  /** The ticket data are a 10% sample, hence the factor 0.1. */
  predicate BookedEnough(cut: int, r: C.ClassRoute) { r.passengersSum > cut as real * 0.1 }
  predicate BookedEnoughStop(cut: int, r: S.StopoverRoute) { r.passengersSum > cut as real * 0.1 }

  /** `Flight_Count > flight_cut`, strictly; order is kept. */
  function DelayCut(rs: seq<D.DelayRoute>, flightCut: int): (r: seq<D.DelayRoute>)
    ensures forall x :: x in r <==> x in rs && x.flightCount > flightCut
  {
    Where(rs, x => FlownEnough(flightCut, x))
  }

  /** `DEPARTURES_PERFORMED_sum > flight_cut`, strictly. */
  function OccupancyCut(rs: seq<O.OccupancyRoute>, flightCut: int): (r: seq<O.OccupancyRoute>)
    ensures forall x :: x in r <==> x in rs && x.departuresSum > flightCut as real
  {
    Where(rs, x => DepartedEnough(flightCut, x))
  }

  /** `PASSENGERS_sum > pass_cut * 0.1`, strictly. */
  function ClassCut(rs: seq<C.ClassRoute>, passCut: int): (r: seq<C.ClassRoute>)
    ensures forall x :: x in r <==> x in rs && x.passengersSum > passCut as real * 0.1
  {
    Where(rs, x => BookedEnough(passCut, x))
  }

  function StopoverCut(rs: seq<S.StopoverRoute>, passCut: int): (r: seq<S.StopoverRoute>)
    ensures forall x :: x in r <==> x in rs && x.passengersSum > passCut as real * 0.1
  {
    Where(rs, x => BookedEnoughStop(passCut, x))
  }

  /** The 10 columns the map stage merges on. */
  datatype MapKey = MapKey(origCode: string, origName: string, origCity: string, origLat: real, origLon: real,
                           destCode: string, destName: string, destCity: string, destLat: real, destLon: real)

  function MapKeyOf(k: RouteKey): MapKey
  {
    MapKey(k.origCode, k.origName, k.origCity, k.origLat, k.origLon,
           k.destCode, k.destName, k.destCity, k.destLat, k.destLon)
  }

  function SomeRight<A, B>(p: (A, B)): (A, Option<B>) { (p.0, Some(p.1)) }

  /** The rows the left join makes for one left row `a` with key `k`. */
  function Attach<A(==,!new), B(==,!new), K(==,!new)>(a: A, k: K, right: seq<B>, kr: B -> K): (r: seq<(A, Option<B>)>)
    ensures |r| >= 1
  {
    var ms := Matching(a, k, right, kr);
    if ms == [] then [(a, None)] else MapSeq(ms, SomeRight)
  }

  lemma AttachSpec<A(!new), B(!new), K(!new)>(a: A, k: K, right: seq<B>, kr: B -> K)
    ensures forall x, b :: (x, Some(b)) in Attach(a, k, right, kr) <==> x == a && b in right && kr(b) == k
    ensures forall x :: (x, None) in Attach(a, k, right, kr) <==> x == a && forall b :: b in right ==> kr(b) != k
  {
    var ms := Matching(a, k, right, kr);
    var here := Attach(a, k, right, kr);
    if ms == [] {
      assert here == [(a, None)];
      forall b | b in right
        ensures kr(b) != k
      {
        assert (a, b) !in ms;
      }
    } else {
      forall x, b
        ensures (x, Some(b)) in here <==> x == a && b in right && kr(b) == k
      {
        if (x, Some(b)) in here {
          var i :| 0 <= i < |here| && here[i] == (x, Some(b));
          assert ms[i] == (x, b) && ms[i] in ms;
        }
        if x == a && b in right && kr(b) == k {
          assert (a, b) in ms;
          var i :| 0 <= i < |ms| && ms[i] == (a, b);
          assert here[i] == (a, Some(b));
        }
      }
      assert ms[0] in ms;
    }
  }

  /** Left join `pd.merge(left, right, on=key, how='left')`: each left row
   *  with every matching right row, or once with nothing when no right row
   *  matches; in the order of the left rows. */
  function LeftJoin<A(==,!new), B(==,!new), K(==,!new)>(left: seq<A>, kl: A -> K, right: seq<B>, kr: B -> K): (r: seq<(A, Option<B>)>)
    ensures |r| >= |left|
  {
    if left == [] then []
    else Attach(left[0], kl(left[0]), right, kr) + LeftJoin(left[1..], kl, right, kr)
  }

  /** A left row is paired with exactly the right rows on its key, and it
   *  appears with nothing exactly when there is no such right row; so no
   *  left row is lost. */
  lemma {:induction false} LeftJoinSpec<A(!new), B(!new), K(!new)>(left: seq<A>, kl: A -> K, right: seq<B>, kr: B -> K)
    ensures forall a, b :: (a, Some(b)) in LeftJoin(left, kl, right, kr) <==> a in left && b in right && kl(a) == kr(b)
    ensures forall a :: (a, None) in LeftJoin(left, kl, right, kr) <==> a in left && forall b :: b in right ==> kr(b) != kl(a)
  {
    if left != [] {
      assert left == [left[0]] + left[1..];
      LeftJoinSpec(left[1..], kl, right, kr);
      AttachSpec(left[0], kl(left[0]), right, kr);
    }
  }

  /** Each pair of the left join holds a left row and, if any, a right row
   *  with the same key. */
  lemma LeftJoinPair<A(!new), B(!new), K(!new)>(left: seq<A>, kl: A -> K, right: seq<B>, kr: B -> K, q: (A, Option<B>))
    requires q in LeftJoin(left, kl, right, kr)
    ensures q.0 in left
    ensures q.1.Some? ==> q.1.value in right && kl(q.0) == kr(q.1.value)
  {
    LeftJoinSpec(left, kl, right, kr);
    if q.1.Some? {
      assert (q.0, Some(q.1.value)) in LeftJoin(left, kl, right, kr);
    } else {
      assert (q.0, None) in LeftJoin(left, kl, right, kr);
    }
  }

  /** `class_bf_frac`, or the `'no data'` filler of the left join. */
  datatype ClassInfo = NoData | BfFrac(value: real)

  /** A delay or occupancy route with the class information attached. */
  datatype Annotated<R> = Annotated(route: R, classBf: ClassInfo)

  function Annotate<R>(p: (R, Option<C.ClassRoute>)): (a: Annotated<R>)
    ensures a.route == p.0
    ensures a.classBf.NoData? <==> p.1.None?
    ensures p.1.Some? ==> a.classBf == BfFrac(p.1.value.premiumFrac)
  {
    Annotated(p.0, if p.1.None? then NoData else BfFrac(p.1.value.premiumFrac))
  }

  function ClassKey(c: C.ClassRoute): MapKey { MapKeyOf(c.key) }

  /** The left join with the class routes on the 10 columns, followed by the
   *  `'no data'` fill. */
  function WithClass<R(==,!new)>(rs: seq<R>, key: R -> MapKey, cl: seq<C.ClassRoute>): (r: seq<Annotated<R>>)
    ensures |r| >= |rs|
  {
    MapSeq(LeftJoin(rs, key, cl, ClassKey), Annotate)
  }

  /** Attaching the class fraction adds no route: each annotated route is
   *  one of the input routes, and a fraction it carries is that of a class
   *  route on the same 10 columns. */
  lemma WithClassSound<R(!new)>(rs: seq<R>, key: R -> MapKey, cl: seq<C.ClassRoute>, a: Annotated<R>)
    requires a in WithClass(rs, key, cl)
    ensures a.route in rs
    ensures a.classBf.BfFrac? ==> exists c :: c in cl && ClassKey(c) == key(a.route) && c.premiumFrac == a.classBf.value
  {
    var j := LeftJoin(rs, key, cl, ClassKey);
    var r := WithClass(rs, key, cl);
    var i :| 0 <= i < |r| && r[i] == a;
    var q := j[i];
    assert q in j && a == Annotate(q);
    LeftJoinPair(rs, key, cl, ClassKey, q);
  }

  /** Attaching the class fraction loses no route: a route is kept with
   *  `'no data'` exactly when no class route has its 10 columns. */
  lemma WithClassNoData<R(!new)>(rs: seq<R>, key: R -> MapKey, cl: seq<C.ClassRoute>, x: R)
    requires x in rs
    ensures Annotated(x, NoData) in WithClass(rs, key, cl) <==> forall c :: c in cl ==> ClassKey(c) != key(x)
  {
    var j := LeftJoin(rs, key, cl, ClassKey);
    var r := WithClass(rs, key, cl);
    LeftJoinSpec(rs, key, cl, ClassKey);
    if (x, None) in j {
      var i :| 0 <= i < |j| && j[i] == (x, None);
      assert r[i] == Annotated(x, NoData);
    }
    if Annotated(x, NoData) in r {
      var i :| 0 <= i < |r| && r[i] == Annotated(x, NoData);
      assert j[i] in j && Annotate(j[i]) == Annotated(x, NoData);
      assert j[i] == (x, None);
    }
  }

  /** A route that has a class route on its 10 columns is kept with that
   *  route's `class_bf_frac`. */
  lemma WithClassMatched<R(!new)>(rs: seq<R>, key: R -> MapKey, cl: seq<C.ClassRoute>, x: R, c: C.ClassRoute)
    requires x in rs && c in cl && ClassKey(c) == key(x)
    ensures Annotated(x, BfFrac(c.premiumFrac)) in WithClass(rs, key, cl)
  {
    var j := LeftJoin(rs, key, cl, ClassKey);
    LeftJoinSpec(rs, key, cl, ClassKey);
    assert (x, Some(c)) in j;
    var i :| 0 <= i < |j| && j[i] == (x, Some(c));
    assert WithClass(rs, key, cl)[i] == Annotated(x, BfFrac(c.premiumFrac));
  }

  predicate SortedDown<T>(s: seq<T>, metric: T -> real) {
    forall i, j :: 0 <= i < j < |s| ==> metric(s[i]) >= metric(s[j])
  }

  lemma ConsSortedDown<T>(a: T, t: seq<T>, metric: T -> real)
    requires SortedDown(t, metric) && (t != [] ==> metric(a) >= metric(t[0]))
    ensures SortedDown([a] + t, metric)
  {
    var r := [a] + t;
    forall i, j | 0 <= i < j < |r| ensures metric(r[i]) >= metric(r[j]) {
      if i == 0 { assert metric(t[0]) >= metric(t[j - 1]); }
    }
  }

  function InsertDown<T(==)>(x: T, s: seq<T>, metric: T -> real): (r: seq<T>)
    requires SortedDown(s, metric)
    ensures SortedDown(r, metric)
    ensures |r| == |s| + 1 && (r[0] == x || (s != [] && r[0] == s[0]))
  {
    if s == [] then [x]
    else if metric(x) >= metric(s[0]) then
      ConsSortedDown(x, s, metric);
      [x] + s
    else
      assert s == [s[0]] + s[1..];
      var t := InsertDown(x, s[1..], metric);
      assert metric(s[0]) >= metric(t[0]);
      ConsSortedDown(s[0], t, metric);
      [s[0]] + t
  }

  /** Inserting adds exactly the one row. */
  lemma {:induction false} InsertDownPermutes<T>(x: T, s: seq<T>, metric: T -> real)
    requires SortedDown(s, metric)
    ensures multiset(InsertDown(x, s, metric)) == multiset(s) + multiset{x}
  {
    if s != [] && metric(x) < metric(s[0]) {
      assert s == [s[0]] + s[1..];
      InsertDownPermutes(x, s[1..], metric);
    }
  }

  /** `sort_values([metric], ascending=False)`. */
  function SortDown<T(==)>(xs: seq<T>, metric: T -> real): (r: seq<T>)
    ensures SortedDown(r, metric)
    ensures multiset(r) == multiset(xs)
  {
    if xs == [] then []
    else
      assert xs == [xs[0]] + xs[1..];
      InsertDownPermutes(xs[0], SortDown(xs[1..], metric), metric);
      InsertDown(xs[0], SortDown(xs[1..], metric), metric)
  }

  /** `.sort_values(..., ascending=False).iloc[:n]`: the `n` rows with the
   *  largest metric (all rows when there are fewer), largest first. */
  function TopN<T(==)>(xs: seq<T>, n: nat, metric: T -> real): (r: seq<T>)
    ensures |r| == if |xs| < n then |xs| else n
    ensures SortedDown(r, metric)
    ensures multiset(r) <= multiset(xs)
    ensures |xs| <= n ==> multiset(r) == multiset(xs)
  {
    var s := SortDown(xs, metric);
    var m := if |s| < n then |s| else n;
    assert s == s[..m] + s[m..];
    assert multiset(s) == multiset(s[..m]) + multiset(s[m..]);
    s[..m]
  }

  /** A row with more copies in a sequence than in its first `m` rows
   *  occurs after them. */
  lemma InRest<T>(s: seq<T>, m: nat, x: T) returns (j: nat)
    requires m <= |s| && multiset(s)[x] > multiset(s[..m])[x]
    ensures m <= j < |s| && s[j] == x
  {
    assert s == s[..m] + s[m..];
    assert multiset(s) == multiset(s[..m]) + multiset(s[m..]);
    assert x in s[m..];
    var k :| 0 <= k < |s[m..]| && s[m..][k] == x;
    j := m + k;
  }

  /** No row left out of a top-N selection has a strictly larger metric than
   *  any selected row. */
  lemma TopNExcluded<T>(xs: seq<T>, n: nat, metric: T -> real, x: T, y: T)
    requires multiset(xs)[x] > multiset(TopN(xs, n, metric))[x]
    requires y in TopN(xs, n, metric)
    ensures metric(x) <= metric(y)
  {
    var s := SortDown(xs, metric);
    var m := if |s| < n then |s| else n;
    assert TopN(xs, n, metric) == s[..m];
    var j := InRest(s, m, x);
    var i :| 0 <= i < m && s[..m][i] == y;
    assert s[i] == y;
  }

  /** One Amtrak station with its two nearest airports. */
  datatype Station = Station(city: string, code: string, users: real, delayAvg: real, lat: real, lon: real,
                             a1Code: string, a1Name: string, a1City: string, a1Dist: real,
                             a2Code: string, a2Name: string, a2City: string, a2Dist: real)

  function DelayAvg(s: Station): real { s.delayAvg }
  function Frac20(a: Annotated<D.DelayRoute>): real { a.route.frac20 }
  function OccupancyMean(a: Annotated<O.OccupancyRoute>): real { a.route.occupancyMean }
  function PremiumFrac(c: C.ClassRoute): real { c.premiumFrac }
  function StopoverFrac(s: S.StopoverRoute): real { s.stopoverFrac }

  function DelayKey(a: Annotated<D.DelayRoute>): MapKey { MapKeyOf(a.route.key) }
  function OccKey(a: Annotated<O.OccupancyRoute>): MapKey { MapKeyOf(a.route.key) }
  function StopKey(s: S.StopoverRoute): MapKey { MapKeyOf(s.key) }
  function D2Key(p: (Annotated<D.DelayRoute>, Annotated<O.OccupancyRoute>)): MapKey { DelayKey(p.0) }
  function DelayRouteKey(r: D.DelayRoute): MapKey { MapKeyOf(r.key) }
  function OccRouteKey(r: O.OccupancyRoute): MapKey { MapKeyOf(r.key) }

  /** The command-line thresholds of a map. */
  datatype Params = Params(quarter: Option<string>, monthlyFlights: int, monthlyPassengers: int)

  /** Everything the map layers are drawn from. */
  datatype Selection = Selection(
    delay20: seq<Annotated<D.DelayRoute>>, occupancy20: seq<Annotated<O.OccupancyRoute>>,
    class20: seq<C.ClassRoute>, stopover20: seq<S.StopoverRoute>,
    stations: seq<Station>, stations20: seq<Station>,
    delayOcc: seq<(Annotated<D.DelayRoute>, Annotated<O.OccupancyRoute>)>,
    delayClass: seq<(Annotated<D.DelayRoute>, C.ClassRoute)>,
    occClass: seq<(Annotated<O.OccupancyRoute>, C.ClassRoute)>,
    delayOccClass: seq<((Annotated<D.DelayRoute>, Annotated<O.OccupancyRoute>), C.ClassRoute)>)

  /** The delay and occupancy routes after the cut, with class information. */
  function DelayRoutes(delay: seq<D.DelayRoute>, cls: seq<C.ClassRoute>, p: Params): seq<Annotated<D.DelayRoute>>
  {
    var passCut := PeriodCut(p.monthlyPassengers, p.quarter);
    WithClass(DelayCut(delay, PeriodCut(p.monthlyFlights, p.quarter)), DelayRouteKey, ClassCut(cls, passCut))
  }

  function OccupancyRoutes(occ: seq<O.OccupancyRoute>, cls: seq<C.ClassRoute>, p: Params): seq<Annotated<O.OccupancyRoute>>
  {
    var passCut := PeriodCut(p.monthlyPassengers, p.quarter);
    WithClass(OccupancyCut(occ, PeriodCut(p.monthlyFlights, p.quarter)), OccRouteKey, ClassCut(cls, passCut))
  }

  function Select(delay: seq<D.DelayRoute>, occ: seq<O.OccupancyRoute>, cls: seq<C.ClassRoute>,
                  stop: seq<S.StopoverRoute>, amtrak: seq<Station>, p: Params): Selection
  {
    var passCut := PeriodCut(p.monthlyPassengers, p.quarter);
    var ot := DelayRoutes(delay, cls, p);
    var oc := OccupancyRoutes(occ, cls, p);
    var cl := ClassCut(cls, passCut);
    var so := StopoverCut(stop, passCut);
    var ot40, oc40, cl40 := TopN(ot, 40, Frac20), TopN(oc, 40, OccupancyMean), TopN(cl, 40, PremiumFrac);
    var otOcc := Join(ot40, DelayKey, oc40, OccKey);
    Selection(TopN(ot, 20, Frac20), TopN(oc, 20, OccupancyMean), TopN(cl, 20, PremiumFrac),
              TopN(so, 20, StopoverFrac), amtrak, TopN(amtrak, 20, DelayAvg),
              otOcc, Join(ot40, DelayKey, cl40, ClassKey), Join(oc40, OccKey, cl40, ClassKey),
              Join(otOcc, D2Key, cl40, ClassKey))
  }

  lemma InTop<T>(xs: seq<T>, n: nat, metric: T -> real, x: T)
    requires x in TopN(xs, n, metric)
    ensures x in xs
  {
    assert x in multiset(TopN(xs, n, metric));
  }

  /** A delay route on the map passed the flight cut. */
  lemma DelayRouteKept(delay: seq<D.DelayRoute>, cls: seq<C.ClassRoute>, p: Params, a: Annotated<D.DelayRoute>)
    requires a in DelayRoutes(delay, cls, p)
    ensures a.route in delay && a.route.flightCount > PeriodCut(p.monthlyFlights, p.quarter)
  {
    var passCut := PeriodCut(p.monthlyPassengers, p.quarter);
    WithClassSound(DelayCut(delay, PeriodCut(p.monthlyFlights, p.quarter)), DelayRouteKey, ClassCut(cls, passCut), a);
  }

  /** An occupancy route on the map passed the departures cut. */
  lemma OccupancyRouteKept(occ: seq<O.OccupancyRoute>, cls: seq<C.ClassRoute>, p: Params, b: Annotated<O.OccupancyRoute>)
    requires b in OccupancyRoutes(occ, cls, p)
    ensures b.route in occ && b.route.departuresSum > PeriodCut(p.monthlyFlights, p.quarter) as real
  {
    var passCut := PeriodCut(p.monthlyPassengers, p.quarter);
    WithClassSound(OccupancyCut(occ, PeriodCut(p.monthlyFlights, p.quarter)), OccRouteKey, ClassCut(cls, passCut), b);
  }

  /** A row of the three-way join of top-40 lists takes one route from each
   *  list, all on the same 10 columns. */
  lemma TripleJoin(ot: seq<Annotated<D.DelayRoute>>, oc: seq<Annotated<O.OccupancyRoute>>, cl: seq<C.ClassRoute>,
                   a: Annotated<D.DelayRoute>, b: Annotated<O.OccupancyRoute>, c: C.ClassRoute)
    requires ((a, b), c) in Join(Join(ot, DelayKey, oc, OccKey), D2Key, cl, ClassKey)
    ensures a in ot && b in oc && c in cl
    ensures DelayKey(a) == OccKey(b) == ClassKey(c)
  {
  }

  /** Each route of the three-way overlap layer is among the top-40 delay,
   *  occupancy and class routes, all three on the same 10 columns, and it
   *  passed the volume cuts of all three datasets. */
  lemma TripleOverlap(delay: seq<D.DelayRoute>, occ: seq<O.OccupancyRoute>, cls: seq<C.ClassRoute>,
                      stop: seq<S.StopoverRoute>, amtrak: seq<Station>, p: Params,
                      a: Annotated<D.DelayRoute>, b: Annotated<O.OccupancyRoute>, c: C.ClassRoute)
    requires ((a, b), c) in Select(delay, occ, cls, stop, amtrak, p).delayOccClass
    ensures a in TopN(DelayRoutes(delay, cls, p), 40, Frac20)
    ensures b in TopN(OccupancyRoutes(occ, cls, p), 40, OccupancyMean)
    ensures c in TopN(ClassCut(cls, PeriodCut(p.monthlyPassengers, p.quarter)), 40, PremiumFrac)
    ensures DelayKey(a) == OccKey(b) == ClassKey(c)
    ensures a.route in delay && a.route.flightCount > PeriodCut(p.monthlyFlights, p.quarter)
    ensures b.route in occ && b.route.departuresSum > PeriodCut(p.monthlyFlights, p.quarter) as real
    ensures c in cls && c.passengersSum > PeriodCut(p.monthlyPassengers, p.quarter) as real * 0.1
  {
    var passCut := PeriodCut(p.monthlyPassengers, p.quarter);
    var ot40 := TopN(DelayRoutes(delay, cls, p), 40, Frac20);
    var oc40 := TopN(OccupancyRoutes(occ, cls, p), 40, OccupancyMean);
    var cl40 := TopN(ClassCut(cls, passCut), 40, PremiumFrac);
    TripleJoin(ot40, oc40, cl40, a, b, c);
    InTop(DelayRoutes(delay, cls, p), 40, Frac20, a);
    InTop(OccupancyRoutes(occ, cls, p), 40, OccupancyMean, b);
    InTop(ClassCut(cls, passCut), 40, PremiumFrac, c);
    DelayRouteKept(delay, cls, p, a);
    OccupancyRouteKept(occ, cls, p, b);
  }

  /** Each top-20 list has at most 20 rows, largest metric first, drawn from
   *  the routes that passed the cut. */
  lemma TopLayers(delay: seq<D.DelayRoute>, occ: seq<O.OccupancyRoute>, cls: seq<C.ClassRoute>,
                  stop: seq<S.StopoverRoute>, amtrak: seq<Station>, p: Params)
    ensures var sel := Select(delay, occ, cls, stop, amtrak, p);
      && |sel.delay20| <= 20 && SortedDown(sel.delay20, Frac20)
      && |sel.occupancy20| <= 20 && SortedDown(sel.occupancy20, OccupancyMean)
      && |sel.class20| <= 20 && SortedDown(sel.class20, PremiumFrac)
      && |sel.stopover20| <= 20 && SortedDown(sel.stopover20, StopoverFrac)
      && |sel.stations20| <= 20 && SortedDown(sel.stations20, DelayAvg)
      && (forall a :: a in sel.delay20 ==> a.route in delay && a.route.flightCount > PeriodCut(p.monthlyFlights, p.quarter))
      && (forall b :: b in sel.occupancy20 ==> b.route in occ && b.route.departuresSum > PeriodCut(p.monthlyFlights, p.quarter) as real)
      && (forall c :: c in sel.class20 ==> c in cls && c.passengersSum > PeriodCut(p.monthlyPassengers, p.quarter) as real * 0.1)
      && (forall s :: s in sel.stopover20 ==> s in stop && s.passengersSum > PeriodCut(p.monthlyPassengers, p.quarter) as real * 0.1)
  {
    var sel := Select(delay, occ, cls, stop, amtrak, p);
    forall a | a in sel.delay20
      ensures a.route in delay && a.route.flightCount > PeriodCut(p.monthlyFlights, p.quarter)
    {
      InTop(DelayRoutes(delay, cls, p), 20, Frac20, a);
      DelayRouteKept(delay, cls, p, a);
    }
    forall b | b in sel.occupancy20
      ensures b.route in occ && b.route.departuresSum > PeriodCut(p.monthlyFlights, p.quarter) as real
    {
      InTop(OccupancyRoutes(occ, cls, p), 20, OccupancyMean, b);
      OccupancyRouteKept(occ, cls, p, b);
    }
    forall c | c in sel.class20
      ensures c in cls && c.passengersSum > PeriodCut(p.monthlyPassengers, p.quarter) as real * 0.1
    {
      InTop(ClassCut(cls, PeriodCut(p.monthlyPassengers, p.quarter)), 20, PremiumFrac, c);
    }
    forall s | s in sel.stopover20
      ensures s in stop && s.passengersSum > PeriodCut(p.monthlyPassengers, p.quarter) as real * 0.1
    {
      InTop(StopoverCut(stop, PeriodCut(p.monthlyPassengers, p.quarter)), 20, StopoverFrac, s);
    }
  }
}
