/** The flyer stopover dataset. Coupons are grouped by market (itinerary):
 *  the number of coupons gives the number of stopovers, the first coupon by
 *  sequence number gives the route origin, the last one the destination,
 *  the passengers and the "stopover" airport. Markets are then summarised
 *  per route by a `sum()`, a `mean()` and a collect-as-set group-by merged
 *  on the route key; the route origin is removed from the stopover list, and
 *  routes are cut again on anchor state and straight-line distance. */
module StopoverRoutes {
  import opened Frames
  import opened Stats
  import opened Routes
  import opened Coupons

  function MktOf(e: Enriched<Coupon>): int { RowOf(e).data.mktId }
  function SeqNum(e: Enriched<Coupon>): int { RowOf(e).data.seqNum }

  /** The coupon of a market with the smallest sequence number (the earliest
   *  such coupon when several share it). */
  function FirstBySeq(g: seq<Enriched<Coupon>>): (c: Enriched<Coupon>)
    requires |g| > 0
    ensures c in g
    ensures forall x :: x in g ==> SeqNum(c) <= SeqNum(x)
  {
    if |g| == 1 then g[0]
    else
      assert g == [g[0]] + g[1..];
      var rest := FirstBySeq(g[1..]);
      if SeqNum(g[0]) <= SeqNum(rest) then g[0] else rest
  }

  /** The coupon of a market with the largest sequence number (the latest
   *  such coupon when several share it). */
  function LastBySeq(g: seq<Enriched<Coupon>>): (c: Enriched<Coupon>)
    requires |g| > 0
    ensures c in g
    ensures forall x :: x in g ==> SeqNum(x) <= SeqNum(c)
  {
    if |g| == 1 then g[0]
    else
      assert g == [g[0]] + g[1..];
      var rest := LastBySeq(g[1..]);
      if SeqNum(rest) >= SeqNum(g[0]) then rest else g[0]
  }

  /** `count()` of `SEQ_NUM` per market. */
  function CountReducer(g: seq<Enriched<Coupon>>): nat { |g| }

  /** One row of the merged per-market table: the coupon count and the first
   *  and last coupon. */
  datatype Market = Market(mktId: int, rowCount: nat, first: CouponRecord, last: CouponRecord)

  /** An enriched coupon as one record: the raw row and its two airports. */
  datatype CouponRecord = CouponRecord(row: Row<Coupon>, orig: Airport, dest: Airport)

  function Record(e: Enriched<Coupon>): CouponRecord
  {
    CouponRecord(RowOf(e), OrigAirport(e), DestAirport(e))
  }

  function AssembleMarket(m: (((int, nat), (int, Enriched<Coupon>)), (int, Enriched<Coupon>))): Market
  {
    Market(m.0.0.0, m.0.0.1, Record(m.0.1.1), Record(m.1.1))
  }

  /** The per-market table: count, first and last merged on `MKT_ID`. */
  function Markets(e: seq<Enriched<Coupon>>): seq<Market>
  {
    AllGroupsNonEmpty(e, MktOf);
    var count := Reduce(e, MktOf, CountReducer);
    var first := Reduce(e, MktOf, FirstBySeq);
    var last := Reduce(e, MktOf, LastBySeq);
    MapSeq(Join(Join(count, Fst, first, Fst), Fst3, last, Fst), AssembleMarket)
  }

  /** The market of one group of coupons, computed in one pass. */
  function MarketOf(id: int, g: seq<Enriched<Coupon>>): Market
    requires |g| > 0
  {
    Market(id, |g|, Record(FirstBySeq(g)), Record(LastBySeq(g)))
  }

  /** `mkt_row_count - 1`. */
  function Stopovers(m: Market): int { m.rowCount - 1 }
  predicate StopoverTrue(m: Market) { Stopovers(m) > 0 }
  predicate StopoverFalse(m: Market) { Stopovers(m) == 0 }

  /** Merging the three per-market group-bys gives one row per market, each
   *  the one-pass market of its coupons. */
  lemma MarketsByGroup(e: seq<Enriched<Coupon>>)
    ensures var ks := DistinctKeys(e, MktOf);
      |Markets(e)| == |ks| &&
      forall i :: 0 <= i < |ks| ==> |Group(e, MktOf, ks[i])| > 0 && Markets(e)[i] == MarketOf(ks[i], Group(e, MktOf, ks[i]))
  {
    AllGroupsNonEmpty(e, MktOf);
    MergeThree(e, MktOf, CountReducer, FirstBySeq, LastBySeq);
  }

  /** Each market counts its coupons (at least one), so its number of
   *  stopovers is non-negative and exactly one of the two stopover flags
   *  holds; its first and last coupons belong to it and bound the sequence
   *  numbers of all its coupons. */
  lemma MarketFacts(e: seq<Enriched<Coupon>>, i: nat)
    requires i < |Markets(e)|
    ensures var m := Markets(e)[i];
      && m.rowCount == |Group(e, MktOf, m.mktId)| >= 1
      && Stopovers(m) >= 0
      && (StopoverTrue(m) <==> Stopovers(m) > 0)
      && (StopoverTrue(m) <==> !StopoverFalse(m))
      && (exists x :: x in e && MktOf(x) == m.mktId && Record(x) == m.first)
      && (exists x :: x in e && MktOf(x) == m.mktId && Record(x) == m.last)
      && (forall x :: x in e && MktOf(x) == m.mktId ==>
            m.first.row.data.seqNum <= SeqNum(x) <= m.last.row.data.seqNum)
  {
    MarketsByGroup(e);
  }

  /** The route key of a market: origin columns from its first coupon,
   *  destination columns from its last. */
  function MarketKey(m: Market): RouteKey
  {
    var o, d := m.first.orig, m.last.dest;
    RouteKey(o.code, o.name, o.city, m.first.row.originState, o.lat, o.lon,
             d.code, d.name, d.city, m.last.row.destState, d.lat, d.lon)
  }

  /** `orig_code_so`: the origin of the market's last coupon. */
  function StopoverAirport(m: Market): string { m.last.orig.code }
  function LastPassengers(m: Market): real { m.last.row.data.passengers }
  function StopoversReal(m: Market): real { Stopovers(m) as real }

  /** The `sum()` group-by over markets, of which `PASSENGERS_sum` is kept. */
  function SumReducer(g: seq<Market>): real
  {
    Sum(MapSeq(g, LastPassengers))
  }

  /** The columns kept from the `mean()` group-by over markets. */
  datatype StopoverMeans = StopoverMeans(stopoverFrac: real, noStopoverFrac: real, stopoversMean: real)

  function MeanReducer(g: seq<Market>): StopoverMeans
    requires |g| > 0
  {
    StopoverMeans(Fraction(MapSeq(g, StopoverTrue)), Fraction(MapSeq(g, StopoverFalse)),
                  Mean(MapSeq(g, StopoversReal)))
  }

  /** `apply(set)` of the stopover airports, listed in order of first appearance. */
  function SetReducer(g: seq<Market>): (r: seq<string>)
    ensures NoDup(r)
    ensures forall a :: a in r <==> exists m :: m in g && m.last.orig.code == a
  {
    DistinctKeys(g, StopoverAirport)
  }

  /** Python's `list.remove`: the list without its first occurrence of `el`. */
  function RemoveFirst(l: seq<string>, el: string): (r: seq<string>)
    ensures el in l ==> |r| == |l| - 1
    ensures el in l ==> multiset(r) == multiset(l) - multiset{el}
    ensures el !in l ==> r == l
  {
    if l == [] then []
    else
      assert l == [l[0]] + l[1..];
      if l[0] == el then l[1..] else [l[0]] + RemoveFirst(l[1..], el)
  }

  /** `remove_return_list(l, el)`: scan for the first occurrence of `el`,
   *  remove it and return the list. The caller guarantees `el in l`. */
  method RemoveReturnList(l: seq<string>, el: string) returns (r: seq<string>)
    requires el in l
    ensures r == RemoveFirst(l, el)
  {
    var i := 0;
    while l[i] != el
      invariant 0 <= i < |l|
      invariant el in l[i..]
      invariant el !in l[..i]
      decreases |l| - i
    {
      assert l[i..] == [l[i]] + l[i + 1..];
      i := i + 1;
    }
    r := l[..i] + l[i + 1..];
    RemoveFirstAt(l, el, i);
  }

  lemma {:induction false} RemoveFirstAt(l: seq<string>, el: string, i: nat)
    requires i < |l| && l[i] == el && el !in l[..i]
    ensures RemoveFirst(l, el) == l[..i] + l[i + 1..]
  {
    if i > 0 {
      var t := l[1..];
      assert l[0] != el by { assert l[0] in l[..i]; }
      assert el !in t[..i - 1] by { assert t[..i - 1] == l[..i][1..]; }
      RemoveFirstAt(t, el, i - 1);
      RemoveFirstCons(l, el, i);
    }
  }

  /** One step of `RemoveFirstAt`: past an element that is not removed. */
  lemma RemoveFirstCons(l: seq<string>, el: string, i: nat)
    requires 0 < i < |l| && l[0] != el && RemoveFirst(l[1..], el) == l[1..][..i - 1] + l[1..][i..]
    ensures RemoveFirst(l, el) == l[..i] + l[i + 1..]
  {
    var p, q := l[1..][..i - 1], l[1..][i..];
    assert [l[0]] + (p + q) == ([l[0]] + p) + q;
    assert [l[0]] + p == l[..i] && q == l[i + 1..];
  }

  /** `stopover_airports_clean`: the route origin removed when listed. */
  function Clean(l: seq<string>, orig: string): (r: seq<string>)
    ensures multiset(r) == multiset(l) - multiset{orig}
    ensures orig !in l ==> r == l
  {
    if orig in l then RemoveFirst(l, orig) else l
  }

  /** On a list without repeats, cleaning leaves exactly the other airports,
   *  still without repeats, and never the route origin. */
  lemma CleanSpec(l: seq<string>, orig: string)
    requires NoDup(l)
    ensures var c := Clean(l, orig);
      && orig !in c
      && (forall x :: x in c <==> x in l && x != orig)
      && NoDup(c)
  {
    RemoveFirstNoDup(l, orig);
  }

  /** Removing from a list without repeats removes every occurrence. */
  lemma {:induction false} RemoveFirstNoDup(l: seq<string>, el: string)
    requires NoDup(l)
    ensures forall x :: x in RemoveFirst(l, el) <==> x in l && x != el
    ensures NoDup(RemoveFirst(l, el))
  {
    if l != [] {
      assert l == [l[0]] + l[1..];
      var t := l[1..];
      assert NoDup(t) by {
        forall i, j | 0 <= i < j < |t| ensures t[i] != t[j] {
          assert t[i] == l[i + 1] && t[j] == l[j + 1];
        }
      }
      assert l[0] !in t by {
        forall j | 0 <= j < |t| ensures t[j] != l[0] {
          assert t[j] == l[j + 1];
        }
      }
      if l[0] != el {
        RemoveFirstNoDup(t, el);
        var rt := RemoveFirst(t, el);
        var r := [l[0]] + rt;
        forall i, j | 0 <= i < j < |r|
          ensures r[i] != r[j]
        {
          if i == 0 {
            assert r[j] == rt[j - 1] && rt[j - 1] in rt;
          } else {
            assert r[i] == rt[i - 1] && r[j] == rt[j - 1];
          }
        }
      }
    }
  }

  /** One output row of the stopover dataset. */
  datatype StopoverRoute = StopoverRoute(key: RouteKey, passengersSum: real, stopoverFrac: real,
                                         noStopoverFrac: real, stopoversMean: real,
                                         stopoverAirports: seq<string>, stopoverAirportsClean: seq<string>,
                                         distCalc: real)

  /** The great-circle distance function, left uninterpreted. */
  type Geo = (real, real, real, real) -> real

  function AssembleRoute(geo: Geo, m: (((RouteKey, real), (RouteKey, StopoverMeans)), (RouteKey, seq<string>))): StopoverRoute
  {
    var k, means, l := m.0.0.0, m.0.1.1, m.1.1;
    StopoverRoute(k, m.0.0.1, means.stopoverFrac, means.noStopoverFrac, means.stopoversMean,
                  l, Clean(l, k.origCode), geo(k.origLat, k.origLon, k.destLat, k.destLon))
  }

  /** The route table before the final cut: the three group-bys over markets
   *  merged on the route key, with the cleaned list and the computed distance. */
  function RouteSummaries(ms: seq<Market>, geo: Geo): seq<StopoverRoute>
  {
    AllGroupsNonEmpty(ms, MarketKey);
    var sum := Reduce(ms, MarketKey, SumReducer);
    var mean := Reduce(ms, MarketKey, MeanReducer);
    var set_ := Reduce(ms, MarketKey, SetReducer);
    MapSeq(Join(Join(sum, Fst, mean, Fst), Fst3, set_, Fst), r => AssembleRoute(geo, r))
  }

  /** The final cut: still anchored, and short by the computed distance. */
  predicate ShortAnchored(cfg: FilterConfig, r: StopoverRoute) {
    (r.key.origState == cfg.anchorState || r.key.destState == cfg.anchorState) && r.distCalc < cfg.maxDist
  }

  /** The stopover routes. */
  function StopoverRoutes(rows: seq<Row<Coupon>>, airports: seq<Airport>, cfg: FilterConfig, geo: Geo): (r: seq<StopoverRoute>)
    ensures forall x :: x in r <==> x in RouteSummaries(Markets(FilteredCoupons(rows, airports, cfg)), geo) && ShortAnchored(cfg, x)
  {
    Where(RouteSummaries(Markets(FilteredCoupons(rows, airports, cfg)), geo), r => ShortAnchored(cfg, r))
  }

  /** The summary of one route's markets computed in one pass. */
  function SummarizeRoute(k: RouteKey, g: seq<Market>, geo: Geo): StopoverRoute
    requires |g| > 0
  {
    var means, l := MeanReducer(g), SetReducer(g);
    StopoverRoute(k, SumReducer(g), means.stopoverFrac, means.noStopoverFrac, means.stopoversMean,
                  l, Clean(l, k.origCode), geo(k.origLat, k.origLon, k.destLat, k.destLon))
  }

  /** Merging the three group-bys over markets gives one row per distinct
   *  route key, each the one-pass summary of its markets. */
  lemma RouteSummariesByGroup(ms: seq<Market>, geo: Geo)
    ensures var ks := DistinctKeys(ms, MarketKey);
      var r := RouteSummaries(ms, geo);
      |r| == |ks| &&
      forall i :: 0 <= i < |ks| ==> |Group(ms, MarketKey, ks[i])| > 0 && r[i] == SummarizeRoute(ks[i], Group(ms, MarketKey, ks[i]), geo)
  {
    AllGroupsNonEmpty(ms, MarketKey);
    MergeThree(ms, MarketKey, SumReducer, MeanReducer, SetReducer);
  }

  /** Over markets that each have at least one coupon, the stopover and
   *  no-stopover fractions of a route lie in [0, 1] and add up to 1, and
   *  the mean number of stopovers is non-negative. */
  lemma StopoverFractions(k: RouteKey, g: seq<Market>, geo: Geo)
    requires |g| > 0
    requires forall m :: m in g ==> m.rowCount >= 1
    ensures var r := SummarizeRoute(k, g, geo);
      && 0.0 <= r.stopoverFrac <= 1.0 && 0.0 <= r.noStopoverFrac <= 1.0
      && r.stopoverFrac + r.noStopoverFrac == 1.0
      && r.stopoversMean >= 0.0
  {
    MeanFractions(g);
  }

  lemma MeanFractions(g: seq<Market>)
    requires |g| > 0
    requires forall m :: m in g ==> m.rowCount >= 1
    ensures var means := MeanReducer(g);
      && 0.0 <= means.stopoverFrac <= 1.0 && 0.0 <= means.noStopoverFrac <= 1.0
      && means.stopoverFrac + means.noStopoverFrac == 1.0
      && means.stopoversMean >= 0.0
  {
    var t, f := MapSeq(g, StopoverTrue), MapSeq(g, StopoverFalse);
    forall i | 0 <= i < |g|
      ensures f[i] == !t[i] && StopoversReal(g[i]) >= 0.0
    {
      assert g[i] in g;
    }
    assert f == Not(t);
    FractionComplement(t);
    var s := MapSeq(g, StopoversReal);
    SumNonNegative(s);
  }

  /** The stopover list of a route names, once each, the last-coupon origin
   *  of its markets; the cleaned list is that list without the route origin. */
  lemma StopoverLists(k: RouteKey, g: seq<Market>, geo: Geo)
    requires |g| > 0
    ensures var r := SummarizeRoute(k, g, geo);
      && NoDup(r.stopoverAirports)
      && (forall a :: a in r.stopoverAirports <==> exists m :: m in g && StopoverAirport(m) == a)
      && NoDup(r.stopoverAirportsClean)
      && k.origCode !in r.stopoverAirportsClean
      && (forall a :: a in r.stopoverAirportsClean <==> a in r.stopoverAirports && a != k.origCode)
  {
    CleanSpec(SetReducer(g), k.origCode);
  }

  /** Every market of the table has at least one coupon. */
  lemma MarketsNonEmpty(e: seq<Enriched<Coupon>>)
    ensures forall m :: m in Markets(e) ==> m.rowCount >= 1
  {
    forall m | m in Markets(e)
      ensures m.rowCount >= 1
    {
      var j :| 0 <= j < |Markets(e)| && Markets(e)[j] == m;
      MarketFacts(e, j);
    }
  }

  /** Each route summary over markets with at least one coupon each has
   *  complementary stopover fractions, the distance of its own two airports,
   *  and a cleaned list without its origin. */
  lemma SummaryFacts(ms: seq<Market>, geo: Geo, i: nat)
    requires forall m :: m in ms ==> m.rowCount >= 1
    requires i < |RouteSummaries(ms, geo)|
    ensures var r := RouteSummaries(ms, geo)[i];
      && r.distCalc == geo(r.key.origLat, r.key.origLon, r.key.destLat, r.key.destLon)
      && r.stopoverFrac + r.noStopoverFrac == 1.0
      && r.key.origCode !in r.stopoverAirportsClean
  {
    RouteSummariesByGroup(ms, geo);
    var k := DistinctKeys(ms, MarketKey)[i];
    var g := Group(ms, MarketKey, k);
    StopoverFractions(k, g, geo);
    StopoverLists(k, g, geo);
  }

  /** Every stopover route is anchored and short by its computed distance,
   *  which is the distance between its two airports, its stopover and
   *  no-stopover fractions add up to 1, and its cleaned stopover list does
   *  not name its origin. */
  lemma StopoverRouteFacts(rows: seq<Row<Coupon>>, airports: seq<Airport>, cfg: FilterConfig, geo: Geo, r: StopoverRoute)
    requires r in StopoverRoutes(rows, airports, cfg, geo)
    ensures r.key.origState == cfg.anchorState || r.key.destState == cfg.anchorState
    ensures r.distCalc == geo(r.key.origLat, r.key.origLon, r.key.destLat, r.key.destLon) < cfg.maxDist
    ensures r.stopoverFrac + r.noStopoverFrac == 1.0
    ensures r.key.origCode !in r.stopoverAirportsClean
  {
    var e := FilteredCoupons(rows, airports, cfg);
    var pre := RouteSummaries(Markets(e), geo);
    assert r in pre && ShortAnchored(cfg, r);
    var i :| 0 <= i < |pre| && pre[i] == r;
    MarketsNonEmpty(e);
    SummaryFacts(Markets(e), geo, i);
  }
}
