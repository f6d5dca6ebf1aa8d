/** The aircraft occupancy (T-100 segment) dataset: segments that carried
 *  passengers, cut to the anchor state and short haul, enriched with
 *  airports, given a per-row occupancy, and summarised per route by three
 *  group-bys (sum, median, mean) merged on the route key. */
module OccupancyRoutes {
  import opened Frames
  import opened Stats
  import opened Routes

  /** The measurements of one segment record. */
  datatype Segment = Segment(departuresPerformed: real, seats: real, passengers: real,
                             rampToRamp: real, airTime: real)

  /** The activity condition of the occupancy cut: `PASSENGERS > 0`. */
  predicate Carried(s: Segment) {
    s.passengers > 0.0
  }

  function FilteredSegments(rows: seq<Row<Segment>>, airports: seq<Airport>, cfg: FilterConfig): seq<Enriched<Segment>>
  {
    Enrich(Cut(rows, cfg, Carried), airports)
  }

  /** Every row that passes the cut offers seats, so that occupancy is defined. */
  predicate SeatsOffered(rows: seq<Row<Segment>>, cfg: FilterConfig) {
    forall r :: r in rows && Keep(cfg, Carried, r) ==> r.data.seats > 0.0
  }

  predicate HasSeats(e: Enriched<Segment>) {
    RowOf(e).data.seats > 0.0
  }

  /** `PASSENGERS / SEATS` of one row. */
  function Occupancy(e: Enriched<Segment>): (occ: real)
    requires HasSeats(e)
    ensures occ * RowOf(e).data.seats == RowOf(e).data.passengers
  {
    RowOf(e).data.passengers / RowOf(e).data.seats
  }

  function Departures(e: Enriched<Segment>): real { RowOf(e).data.departuresPerformed }
  function Seats(e: Enriched<Segment>): real { RowOf(e).data.seats }
  function Passengers(e: Enriched<Segment>): real { RowOf(e).data.passengers }
  function DistanceOf(e: Enriched<Segment>): real { RowOf(e).distance }
  function RampToRamp(e: Enriched<Segment>): real { RowOf(e).data.rampToRamp }
  function AirTime(e: Enriched<Segment>): real { RowOf(e).data.airTime }

  /** A route group: non-empty, every row with seats. */
  predicate Seated(g: seq<Enriched<Segment>>) {
    |g| > 0 && forall x :: x in g ==> HasSeats(x)
  }

  /** The columns kept from the `sum()` group-by, with the overall occupancy. */
  datatype OccSums = OccSums(departuresSum: real, seatsSum: real, passengersSum: real, occupancyTotal: real)

  function SumReducer(g: seq<Enriched<Segment>>): OccSums
    requires Seated(g)
  {
    var seats := MapSeq(g, Seats);
    assert forall i :: 0 <= i < |seats| ==> seats[i] > 0.0 by {
      forall i | 0 <= i < |seats| ensures seats[i] > 0.0 { assert g[i] in g; }
    }
    SumPositive(seats);
    OccSums(Sum(MapSeq(g, Departures)), Sum(seats), Sum(MapSeq(g, Passengers)),
            Sum(MapSeq(g, Passengers)) / Sum(seats))
  }

  /** The `median()` group-by, of which `occupancy_med` is kept. */
  function MedianReducer(g: seq<Enriched<Segment>>): real
    requires Seated(g)
  {
    Median(MapSeq(g, Occupancy))
  }

  /** The columns kept from the `mean()` group-by. */
  datatype OccMeans = OccMeans(occupancyMean: real, distanceMean: real, rampMean: real, airTimeMean: real)

  function MeanReducer(g: seq<Enriched<Segment>>): OccMeans
    requires Seated(g)
  {
    OccMeans(Mean(MapSeq(g, Occupancy)), Mean(MapSeq(g, DistanceOf)),
             Mean(MapSeq(g, RampToRamp)), Mean(MapSeq(g, AirTime)))
  }

  /** One output row of the occupancy dataset. */
  datatype OccupancyRoute = OccupancyRoute(key: RouteKey, departuresSum: real, seatsSum: real,
                                           passengersSum: real, occupancyTotal: real, occupancyMed: real,
                                           occupancyMean: real, distanceMean: real, rampMean: real,
                                           airTimeMean: real)

  function Assemble(m: (((RouteKey, OccSums), (RouteKey, real)), (RouteKey, OccMeans))): OccupancyRoute
  {
    var s, mean := m.0.0.1, m.1.1;
    OccupancyRoute(m.0.0.0, s.departuresSum, s.seatsSum, s.passengersSum, s.occupancyTotal, m.0.1.1,
                   mean.occupancyMean, mean.distanceMean, mean.rampMean, mean.airTimeMean)
  }

  lemma AllGroupsSeated(rows: seq<Row<Segment>>, airports: seq<Airport>, cfg: FilterConfig)
    requires SeatsOffered(rows, cfg)
    ensures var e := FilteredSegments(rows, airports, cfg);
      forall k :: k in DistinctKeys(e, KeyOf) ==> Seated(Group(e, KeyOf, k))
  {
    var e := FilteredSegments(rows, airports, cfg);
    AllGroupsNonEmpty(e, KeyOf);
    forall x | x in e
      ensures HasSeats(x)
    {
      CutSpec(rows, cfg, Carried, RowOf(x));
    }
  }

  /** The occupancy routes: the three group-bys merged on the route key. */
  function OccupancyRoutes(rows: seq<Row<Segment>>, airports: seq<Airport>, cfg: FilterConfig): seq<OccupancyRoute>
    requires SeatsOffered(rows, cfg)
  {
    var e := FilteredSegments(rows, airports, cfg);
    AllGroupsSeated(rows, airports, cfg);
    var sum := Reduce(e, KeyOf, SumReducer);
    var med := Reduce(e, KeyOf, MedianReducer);
    var mean := Reduce(e, KeyOf, MeanReducer);
    MapSeq(Join(Join(sum, Fst, med, Fst), Fst3, mean, Fst), Assemble)
  }

  /** The summary of one route group computed in one pass. */
  function Summarize(k: RouteKey, g: seq<Enriched<Segment>>): OccupancyRoute
    requires Seated(g)
  {
    var s, m := SumReducer(g), MeanReducer(g);
    OccupancyRoute(k, s.departuresSum, s.seatsSum, s.passengersSum, s.occupancyTotal, MedianReducer(g),
                   m.occupancyMean, m.distanceMean, m.rampMean, m.airTimeMean)
  }

  /** Merging the three group-bys gives one row per distinct route key, in
   *  first-appearance order, each the one-pass summary of its group. */
  lemma OccupancyRoutesByGroup(rows: seq<Row<Segment>>, airports: seq<Airport>, cfg: FilterConfig)
    requires SeatsOffered(rows, cfg)
    ensures var e := FilteredSegments(rows, airports, cfg);
      var ks := DistinctKeys(e, KeyOf);
      var r := OccupancyRoutes(rows, airports, cfg);
      |r| == |ks| &&
      forall i :: 0 <= i < |ks| ==> Seated(Group(e, KeyOf, ks[i])) && r[i] == Summarize(ks[i], Group(e, KeyOf, ks[i]))
  {
    var e := FilteredSegments(rows, airports, cfg);
    AllGroupsSeated(rows, airports, cfg);
    MergeThree(e, KeyOf, SumReducer, MedianReducer, MeanReducer);
  }

  /** The per-row occupancies of a group where every row carried passengers
   *  on at most its seats lie in (0, 1]; the lower bound needs only passengers. */
  lemma OccupancyColumn(g: seq<Enriched<Segment>>, capped: bool)
    requires Seated(g)
    requires forall x :: x in g ==> Passengers(x) > 0.0
    requires capped ==> forall x :: x in g ==> Passengers(x) <= Seats(x)
    ensures forall i :: 0 <= i < |g| ==> MapSeq(g, Occupancy)[i] > 0.0
    ensures capped ==> forall i :: 0 <= i < |g| ==> MapSeq(g, Occupancy)[i] <= 1.0
  {
    var occ := MapSeq(g, Occupancy);
    forall i | 0 <= i < |occ|
      ensures occ[i] > 0.0 && (capped ==> occ[i] <= 1.0)
    {
      assert g[i] in g;
      RatioBounds(Passengers(g[i]), Seats(g[i]));
    }
  }

  /** All three occupancy measures of a route are positive, because every
   *  row carried passengers on offered seats. */
  lemma OccupancyPositive(k: RouteKey, g: seq<Enriched<Segment>>)
    requires Seated(g)
    requires forall x :: x in g ==> Passengers(x) > 0.0
    ensures var r := Summarize(k, g);
      r.occupancyTotal > 0.0 && r.occupancyMed > 0.0 && r.occupancyMean > 0.0
  {
    var occ := MapSeq(g, Occupancy);
    OccupancyColumn(g, false);
    MeanPositive(occ);
    TotalPositive(g);
  }

  lemma TotalPositive(g: seq<Enriched<Segment>>)
    requires Seated(g)
    requires forall x :: x in g ==> Passengers(x) > 0.0
    ensures SumReducer(g).occupancyTotal > 0.0 && SumReducer(g).passengersSum > 0.0
  {
    var p, s := MapSeq(g, Passengers), MapSeq(g, Seats);
    forall i | 0 <= i < |g|
      ensures p[i] > 0.0 && s[i] > 0.0
    {
      assert g[i] in g;
    }
    SumPositive(p);
    SumPositive(s);
    RatioBounds(Sum(p), Sum(s));
  }

  /** When no row carried more passengers than seats, all three occupancy
   *  measures of the route are at most 1. */
  lemma OccupancyAtMostOne(k: RouteKey, g: seq<Enriched<Segment>>)
    requires Seated(g)
    requires forall x :: x in g ==> 0.0 < Passengers(x) <= Seats(x)
    ensures var r := Summarize(k, g);
      r.occupancyTotal <= 1.0 && r.occupancyMed <= 1.0 && r.occupancyMean <= 1.0
  {
    var occ := MapSeq(g, Occupancy);
    OccupancyColumn(g, true);
    MeanBounds(occ, 0.0, 1.0);
    MedianBounds(occ, 0.0, 1.0);
    TotalAtMostOne(g);
  }

  lemma TotalAtMostOne(g: seq<Enriched<Segment>>)
    requires Seated(g)
    requires forall x :: x in g ==> 0.0 < Passengers(x) <= Seats(x)
    ensures SumReducer(g).occupancyTotal <= 1.0
  {
    var p, s := MapSeq(g, Passengers), MapSeq(g, Seats);
    forall i | 0 <= i < |g|
      ensures 0.0 < p[i] <= s[i]
    {
      assert g[i] in g;
    }
    SumLe(p, s);
    SumPositive(p);
    SumPositive(s);
    RatioBounds(Sum(p), Sum(s));
  }

  lemma RatioBounds(p: real, s: real)
    requires 0.0 < p && 0.0 < s
    ensures 0.0 < p / s
    ensures p <= s ==> p / s <= 1.0
  {
  }

  /** Every occupancy route comes from rows with positive passengers on
   *  offered seats, so its occupancy measures are positive. */
  lemma OccupancyRouteFacts(rows: seq<Row<Segment>>, airports: seq<Airport>, cfg: FilterConfig, i: nat)
    requires SeatsOffered(rows, cfg)
    requires i < |OccupancyRoutes(rows, airports, cfg)|
    ensures var r := OccupancyRoutes(rows, airports, cfg)[i];
      r.occupancyTotal > 0.0 && r.occupancyMed > 0.0 && r.occupancyMean > 0.0 && r.passengersSum > 0.0
  {
    var e := FilteredSegments(rows, airports, cfg);
    OccupancyRoutesByGroup(rows, airports, cfg);
    var ks := DistinctKeys(e, KeyOf);
    var g := Group(e, KeyOf, ks[i]);
    forall x | x in g
      ensures Passengers(x) > 0.0
    {
      CutSpec(rows, cfg, Carried, RowOf(x));
    }
    OccupancyPositive(ks[i], g);
    TotalPositive(g);
  }
}
