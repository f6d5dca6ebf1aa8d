/** The aircraft delay (on-time performance) dataset: single flights cut to
 *  the anchor state and short haul, enriched with airports, given an
 *  airline-caused delay and delay flags, and summarised per route by three
 *  group-bys (median, mean, count) merged on the route key. */
module DelayRoutes {
  import opened Frames
  import opened Stats
  import opened Routes

  /** The measurements of one on-time-performance record; a NaN cell is `None`. */
  datatype Flight = Flight(flights: real, carrierDelay: Option<real>, lateAircraftDelay: Option<real>,
                           airTime: Option<real>, actualElapsedTime: Option<real>)

  /** The activity condition of the delay cut: `Flights == 1.0`. */
  predicate SingleFlight(f: Flight) {
    f.flights == 1.0
  }

  /** Late-aircraft delay plus carrier delay; NaN when either is NaN. */
  function AirlineDelay(f: Flight): (d: Option<real>)
    ensures d.None? <==> f.lateAircraftDelay.None? || f.carrierDelay.None?
    ensures d.Some? ==> d.value == f.lateAircraftDelay.value + f.carrierDelay.value
  {
    if f.lateAircraftDelay.Some? && f.carrierDelay.Some? then
      Some(f.lateAircraftDelay.value + f.carrierDelay.value)
    else None
  }

  /** `delay > t` on a float column: false for NaN. */
  predicate Exceeds(d: Option<real>, t: real) {
    d.Some? && d.value > t
  }

  /** The four boolean columns `AirlineDelay_5` .. `AirlineDelay_30`. */
  datatype DelayFlags = DelayFlags(over5: bool, over10: bool, over20: bool, over30: bool)

  /** Each flag is a strict comparison on the same delay, so the flags are
   *  nested, and a missing delay clears all of them. */
  function Flags(f: Flight): (fl: DelayFlags)
    ensures fl.over30 ==> fl.over20
    ensures fl.over20 ==> fl.over10
    ensures fl.over10 ==> fl.over5
    ensures fl.over5 ==> AirlineDelay(f).Some?
    ensures fl.over5 <==> AirlineDelay(f).Some? && AirlineDelay(f).value > 5.0
    ensures fl.over10 <==> AirlineDelay(f).Some? && AirlineDelay(f).value > 10.0
    ensures fl.over20 <==> AirlineDelay(f).Some? && AirlineDelay(f).value > 20.0
    ensures fl.over30 <==> AirlineDelay(f).Some? && AirlineDelay(f).value > 30.0
  {
    var d := AirlineDelay(f);
    DelayFlags(Exceeds(d, 5.0), Exceeds(d, 10.0), Exceeds(d, 20.0), Exceeds(d, 30.0))
  }

  /** The filtered, enriched flight rows. */
  function FilteredFlights(rows: seq<Row<Flight>>, airports: seq<Airport>, cfg: FilterConfig): seq<Enriched<Flight>>
  {
    Enrich(Cut(rows, cfg, SingleFlight), airports)
  }

  function DelayOf(e: Enriched<Flight>): Option<real> { AirlineDelay(RowOf(e).data) }
  function Over10(e: Enriched<Flight>): bool { Flags(RowOf(e).data).over10 }
  function Over20(e: Enriched<Flight>): bool { Flags(RowOf(e).data).over20 }
  function Over30(e: Enriched<Flight>): bool { Flags(RowOf(e).data).over30 }
  function DistanceOf(e: Enriched<Flight>): real { RowOf(e).distance }
  function AirTimeOf(e: Enriched<Flight>): Option<real> { RowOf(e).data.airTime }
  function ElapsedOf(e: Enriched<Flight>): Option<real> { RowOf(e).data.actualElapsedTime }

  /** The `median()` group-by, of which `AirlineDelay_med` is kept. */
  function MedianReducer(g: seq<Enriched<Flight>>): Option<real>
  {
    MedianSkipNaN(MapSeq(g, DelayOf))
  }

  /** The columns kept from the `mean()` group-by. */
  datatype DelayMeans = DelayMeans(frac10: real, frac20: real, frac30: real, delayMean: Option<real>,
                                   distanceMean: real, airTimeMean: Option<real>, elapsedMean: Option<real>)

  function MeanReducer(g: seq<Enriched<Flight>>): DelayMeans
    requires |g| > 0
  {
    DelayMeans(Fraction(MapSeq(g, Over10)), Fraction(MapSeq(g, Over20)), Fraction(MapSeq(g, Over30)),
               MeanSkipNaN(MapSeq(g, DelayOf)), Mean(MapSeq(g, DistanceOf)),
               MeanSkipNaN(MapSeq(g, AirTimeOf)), MeanSkipNaN(MapSeq(g, ElapsedOf)))
  }

  /** The `count()` group-by: `Flights` is never NaN after the cut, so its
   *  count is the number of rows. */
  function CountReducer(g: seq<Enriched<Flight>>): nat
  {
    |g|
  }

  /** One output row of the delay dataset. */
  datatype DelayRoute = DelayRoute(key: RouteKey, delayMed: Option<real>,
                                   frac10: real, frac20: real, frac30: real, delayMean: Option<real>,
                                   distanceMean: real, airTimeMean: Option<real>, elapsedMean: Option<real>,
                                   flightCount: nat)

  function Assemble(m: (((RouteKey, Option<real>), (RouteKey, DelayMeans)), (RouteKey, nat))): DelayRoute
  {
    var mean := m.0.1.1;
    DelayRoute(m.0.0.0, m.0.0.1, mean.frac10, mean.frac20, mean.frac30, mean.delayMean,
               mean.distanceMean, mean.airTimeMean, mean.elapsedMean, m.1.1)
  }

  /** The delay routes: the three group-bys merged on the route key. */
  function DelayRoutes(rows: seq<Row<Flight>>, airports: seq<Airport>, cfg: FilterConfig): seq<DelayRoute>
  {
    var e := FilteredFlights(rows, airports, cfg);
    AllGroupsNonEmpty(e, KeyOf);
    var med := Reduce(e, KeyOf, MedianReducer);
    var mean := Reduce(e, KeyOf, MeanReducer);
    var count := Reduce(e, KeyOf, CountReducer);
    MapSeq(Join(Join(med, Fst, mean, Fst), Fst3, count, Fst), Assemble)
  }

  /** The summary of one route group computed in one pass: the reference the
   *  merged group-bys are checked against. */
  function Summarize(k: RouteKey, g: seq<Enriched<Flight>>): DelayRoute
    requires |g| > 0
  {
    var m := MeanReducer(g);
    DelayRoute(k, MedianReducer(g), m.frac10, m.frac20, m.frac30, m.delayMean,
               m.distanceMean, m.airTimeMean, m.elapsedMean, |g|)
  }

  /** Merging the three group-bys gives one row per distinct route key, in
   *  first-appearance order, each the one-pass summary of its group. */
  lemma DelayRoutesByGroup(rows: seq<Row<Flight>>, airports: seq<Airport>, cfg: FilterConfig)
    ensures var e := FilteredFlights(rows, airports, cfg);
      var ks := DistinctKeys(e, KeyOf);
      var r := DelayRoutes(rows, airports, cfg);
      |r| == |ks| &&
      forall i :: 0 <= i < |ks| ==> |Group(e, KeyOf, ks[i])| > 0 && r[i] == Summarize(ks[i], Group(e, KeyOf, ks[i]))
  {
    var e := FilteredFlights(rows, airports, cfg);
    AllGroupsNonEmpty(e, KeyOf);
    MergeThree(e, KeyOf, MedianReducer, MeanReducer, CountReducer);
  }

  function KeyOfRoute(r: DelayRoute): RouteKey { r.key }

  /** The route keys of the output are the distinct keys of the filtered,
   *  enriched rows: each occurs once, and no other occurs. */
  lemma DelayRouteKeys(rows: seq<Row<Flight>>, airports: seq<Airport>, cfg: FilterConfig)
    ensures MapSeq(DelayRoutes(rows, airports, cfg), KeyOfRoute)
         == DistinctKeys(FilteredFlights(rows, airports, cfg), KeyOf)
  {
    DelayRoutesByGroup(rows, airports, cfg);
  }

  /** The delay fractions of a group are nested within [0, 1]. */
  lemma FractionsNested(g: seq<Enriched<Flight>>)
    requires |g| > 0
    ensures var m := MeanReducer(g);
      0.0 <= m.frac30 <= m.frac20 <= m.frac10 <= 1.0
  {
    FractionMonotone(MapSeq(g, Over30), MapSeq(g, Over20));
    FractionMonotone(MapSeq(g, Over20), MapSeq(g, Over10));
  }

  /** For a route flown once, median and mean delay are that flight's delay. */
  lemma SingleFlightRoute(k: RouteKey, x: Enriched<Flight>)
    ensures Summarize(k, [x]).delayMed == Summarize(k, [x]).delayMean == DelayOf(x)
  {
    var col := MapSeq([x], DelayOf);
    assert col == [DelayOf(x)];
    if DelayOf(x).Some? {
      PresentAll([DelayOf(x).value], col);
      MedianSingleton(DelayOf(x).value);
      MeanSingleton(DelayOf(x).value);
    }
  }

  /** Every delay route counts the filtered, enriched flights with its key,
   *  at least one, and its delay fractions are nested within [0, 1]. */
  lemma DelayRouteFacts(rows: seq<Row<Flight>>, airports: seq<Airport>, cfg: FilterConfig, i: nat)
    requires i < |DelayRoutes(rows, airports, cfg)|
    ensures var e := FilteredFlights(rows, airports, cfg);
      var r := DelayRoutes(rows, airports, cfg)[i];
      && r.flightCount == |Group(e, KeyOf, r.key)| > 0
      && 0.0 <= r.frac30 <= r.frac20 <= r.frac10 <= 1.0
  {
    var e := FilteredFlights(rows, airports, cfg);
    DelayRoutesByGroup(rows, airports, cfg);
    FractionsNested(Group(e, KeyOf, DistinctKeys(e, KeyOf)[i]));
  }
}
