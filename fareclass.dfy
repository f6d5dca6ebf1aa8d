/** The flyer fare-class dataset: coupons bucketed by fare class (business,
 *  first, coach) and summarised per route as passenger-weighted fractions,
 *  by a `sum()` and a `mean()` group-by merged on the route key. */
module ClassRoutes {
  import opened Frames
  import opened Stats
  import opened Routes
  import opened Coupons

  /** The boolean columns `class_b`, `class_f`, `class_bf` and `class_c`. */
  datatype ClassFlags = ClassFlags(business: bool, first: bool, premium: bool, coach: bool)

  /** A known fare class code. */
  predicate KnownClass(c: Option<string>) {
    c.None? || c.value in {"C", "D", "F", "G", "X", "Y"}
  }

  /** C and D are business, F and G first, X, Y and a missing code coach;
   *  premium is business or first. The buckets are exclusive, and a known
   *  code falls into exactly one of premium and coach. */
  function Buckets(c: Option<string>): (fl: ClassFlags)
    ensures !(fl.business && fl.first)
    ensures fl.premium <==> fl.business || fl.first
    ensures !(fl.premium && fl.coach)
    ensures KnownClass(c) ==> (fl.premium <==> !fl.coach)
    ensures c.None? ==> fl.coach
    ensures fl.business <==> c == Some("C") || c == Some("D")
    ensures fl.first <==> c == Some("F") || c == Some("G")
    ensures fl.coach <==> c == Some("X") || c == Some("Y") || c.None?
  {
    var b := c == Some("C") || c == Some("D");
    var f := c == Some("F") || c == Some("G");
    ClassFlags(b, f, b || f, c == Some("X") || c == Some("Y") || c.None?)
  }

  /** `class_bf * PASSENGERS` and `class_c * PASSENGERS`. */
  function PremiumWeight(e: Enriched<Coupon>): real { Indicator(Buckets(RowOf(e).data.fareClass).premium) * Passengers(e) }
  function CoachWeight(e: Enriched<Coupon>): real { Indicator(Buckets(RowOf(e).data.fareClass).coach) * Passengers(e) }
  function DistanceOf(e: Enriched<Coupon>): real { RowOf(e).distance }

  /** A route group: non-empty, every coupon with passengers. */
  predicate Boarded(g: seq<Enriched<Coupon>>) {
    |g| > 0 && forall x :: x in g ==> Passengers(x) > 0.0
  }

  /** The columns kept from the `sum()` group-by, with the weighted fractions. */
  datatype ClassSums = ClassSums(passengersSum: real, premiumFrac: real, coachFrac: real)

  function SumReducer(g: seq<Enriched<Coupon>>): ClassSums
    requires Boarded(g)
  {
    var p := MapSeq(g, Passengers);
    assert forall i :: 0 <= i < |p| ==> p[i] > 0.0 by {
      forall i | 0 <= i < |p| ensures p[i] > 0.0 { assert g[i] in g; }
    }
    SumPositive(p);
    ClassSums(Sum(p), Sum(MapSeq(g, PremiumWeight)) / Sum(p), Sum(MapSeq(g, CoachWeight)) / Sum(p))
  }

  /** The `mean()` group-by, of which `DISTANCE_mean` is kept. */
  function MeanReducer(g: seq<Enriched<Coupon>>): real
    requires |g| > 0
  {
    Mean(MapSeq(g, DistanceOf))
  }

  /** One output row of the fare-class dataset. */
  datatype ClassRoute = ClassRoute(key: RouteKey, passengersSum: real, premiumFrac: real, coachFrac: real,
                                   distanceMean: real)

  function Assemble(m: ((RouteKey, ClassSums), (RouteKey, real))): ClassRoute
  {
    var s := m.0.1;
    ClassRoute(m.0.0, s.passengersSum, s.premiumFrac, s.coachFrac, m.1.1)
  }

  lemma AllGroupsTicketed(rows: seq<Row<Coupon>>, airports: seq<Airport>, cfg: FilterConfig)
    ensures var e := FilteredCoupons(rows, airports, cfg);
      forall k :: k in DistinctKeys(e, KeyOf) ==> Boarded(Group(e, KeyOf, k))
  {
    AllGroupsNonEmpty(FilteredCoupons(rows, airports, cfg), KeyOf);
    FilteredTicketed(rows, airports, cfg);
  }

  /** The fare-class routes: the two group-bys merged on the route key. */
  function ClassRoutes(rows: seq<Row<Coupon>>, airports: seq<Airport>, cfg: FilterConfig): seq<ClassRoute>
  {
    var e := FilteredCoupons(rows, airports, cfg);
    AllGroupsTicketed(rows, airports, cfg);
    var sum := Reduce(e, KeyOf, SumReducer);
    var mean := Reduce(e, KeyOf, MeanReducer);
    MapSeq(Join(sum, Fst, mean, Fst), Assemble)
  }

  /** The summary of one route group computed in one pass. */
  function Summarize(k: RouteKey, g: seq<Enriched<Coupon>>): ClassRoute
    requires Boarded(g)
  {
    var s := SumReducer(g);
    ClassRoute(k, s.passengersSum, s.premiumFrac, s.coachFrac, MeanReducer(g))
  }

  /** Merging the two group-bys gives one row per distinct route key, in
   *  first-appearance order, each the one-pass summary of its group. */
  lemma ClassRoutesByGroup(rows: seq<Row<Coupon>>, airports: seq<Airport>, cfg: FilterConfig)
    ensures var e := FilteredCoupons(rows, airports, cfg);
      var ks := DistinctKeys(e, KeyOf);
      var r := ClassRoutes(rows, airports, cfg);
      |r| == |ks| &&
      forall i :: 0 <= i < |ks| ==> Boarded(Group(e, KeyOf, ks[i])) && r[i] == Summarize(ks[i], Group(e, KeyOf, ks[i]))
  {
    var e := FilteredCoupons(rows, airports, cfg);
    AllGroupsTicketed(rows, airports, cfg);
    MergeTwo(e, KeyOf, SumReducer, MeanReducer);
  }

  /** The passenger-weighted premium and coach fractions of a route lie in
   *  [0, 1] and add up to at most 1, and to exactly 1 when every coupon's
   *  fare class is known. */
  lemma ClassFractions(k: RouteKey, g: seq<Enriched<Coupon>>)
    requires Boarded(g)
    ensures var r := Summarize(k, g);
      && 0.0 <= r.premiumFrac <= 1.0
      && 0.0 <= r.coachFrac <= 1.0
      && r.premiumFrac + r.coachFrac <= 1.0
      && ((forall x :: x in g ==> KnownClass(RowOf(x).data.fareClass)) ==> r.premiumFrac + r.coachFrac == 1.0)
  {
    var p, wb, wc := MapSeq(g, Passengers), MapSeq(g, PremiumWeight), MapSeq(g, CoachWeight);
    var both := seq(|g|, i requires 0 <= i < |g| => wb[i] + wc[i]);
    forall i | 0 <= i < |g|
      ensures 0.0 <= wb[i] && 0.0 <= wc[i] && both[i] <= p[i]
    {
      assert g[i] in g;
    }
    SumAdd(wb, wc, both);
    SumLe(both, p);
    SumNonNegative(wb);
    SumNonNegative(wc);
    SumPositive(p);
    FractionBounds(Sum(wb), Sum(wc), Sum(p));
    if forall x :: x in g ==> KnownClass(RowOf(x).data.fareClass) {
      forall i | 0 <= i < |g|
        ensures both[i] == p[i]
      {
        assert g[i] in g;
      }
      assert both == p;
    }
  }

  lemma FractionBounds(b: real, c: real, p: real)
    requires 0.0 <= b && 0.0 <= c && b + c <= p && p > 0.0
    ensures 0.0 <= b / p <= 1.0 && 0.0 <= c / p <= 1.0 && b / p + c / p <= 1.0
    ensures b + c == p ==> b / p + c / p == 1.0
  {
    assert b / p + c / p == (b + c) / p;
    DivLe(b, p, p);
    DivLe(c, p, p);
    DivLe(b + c, p, p);
    DivLe(0.0, b, p);
    DivLe(0.0, c, p);
  }
}
