/** What the four route datasets share: the anchor-state / short-haul cut on
 *  raw rows, the enrichment of each row with its origin and destination
 *  airport, and the 12-column directed route key rows are grouped by. */
module Routes {
  import opened Frames

  /** One line of the airport table (the columns the pipeline reads). */
  datatype Airport = Airport(id: string, name: string, city: string, country: string,
                             code: string, lat: real, lon: real)

  /** A raw record: the columns every dataset has (origin and destination
   *  airport codes and states, distance in miles, quarter) plus the
   *  dataset's own measurements `data`. */
  datatype Row<P> = Row(origin: string, dest: string, originState: string, destState: string,
                        distance: real, quarter: int, data: P)

  /** The command-line settings of a run: the anchor state, the maximum
   *  route distance, and the quarter (`None` when not given). */
  datatype FilterConfig = FilterConfig(anchorState: string, maxDist: real, quarter: Option<int>)

  /** `if quarter:` — an absent quarter and quarter 0 both mean "all quarters". */
  predicate QuarterGiven(q: Option<int>) {
    q.Some? && q.value != 0
  }

  /** The row mask of the four loaders; `active` is `Flights == 1.0` for
   *  flights and `PASSENGERS > 0` for the passenger datasets. */
  predicate Keep<P>(cfg: FilterConfig, active: P -> bool, r: Row<P>) {
    && (r.originState == cfg.anchorState || r.destState == cfg.anchorState)
    && r.distance < cfg.maxDist
    && r.distance > 0.0
    && active(r.data)
    && (QuarterGiven(cfg.quarter) ==> r.quarter == cfg.quarter.value)
  }

  function Cut<P(==,!new)>(rows: seq<Row<P>>, cfg: FilterConfig, active: P -> bool): (r: seq<Row<P>>)
    ensures |r| <= |rows|
    ensures forall x :: x in r <==> x in rows && Keep(cfg, active, x)
  {
    Where(rows, x => Keep(cfg, active, x))
  }

  /** A row survives the cut iff one end is in the anchor state, the
   *  distance is strictly between 0 and the maximum, the row is active and,
   *  when a quarter is given, it is from that quarter. */
  lemma CutSpec<P(!new)>(rows: seq<Row<P>>, cfg: FilterConfig, active: P -> bool, x: Row<P>)
    ensures x in Cut(rows, cfg, active) <==>
      && x in rows
      && (x.originState == cfg.anchorState || x.destState == cfg.anchorState)
      && 0.0 < x.distance < cfg.maxDist
      && active(x.data)
      && (cfg.quarter.Some? && cfg.quarter.value != 0 ==> x.quarter == cfg.quarter.value)
    ensures multiset(Cut(rows, cfg, active))[x] == if Keep(cfg, active, x) then multiset(rows)[x] else 0
  {
    WhereCount(rows, x => Keep(cfg, active, x), x);
  }

  /** The cut keeps the order of the input: cutting a concatenation is
   *  concatenating the cuts. */
  lemma CutAppend<P(!new)>(a: seq<Row<P>>, b: seq<Row<P>>, cfg: FilterConfig, active: P -> bool)
    ensures Cut(a + b, cfg, active) == Cut(a, cfg, active) + Cut(b, cfg, active)
  {
    WhereAppend(a, b, x => Keep(cfg, active, x));
  }

  /** Cutting a second time changes nothing. */
  lemma CutIdempotent<P(!new)>(rows: seq<Row<P>>, cfg: FilterConfig, active: P -> bool)
    ensures Cut(Cut(rows, cfg, active), cfg, active) == Cut(rows, cfg, active)
  {
    WhereIdempotent(rows, x => Keep(cfg, active, x));
  }

  /** A row together with its origin airport and then its destination airport. */
  type Enriched<P> = ((Row<P>, Airport), Airport)

  function RowOf<P>(e: Enriched<P>): Row<P> { e.0.0 }
  function OrigAirport<P>(e: Enriched<P>): Airport { e.0.1 }
  function DestAirport<P>(e: Enriched<P>): Airport { e.1 }

  function Code(a: Airport): string { a.code }
  function OriginCode<P>(r: Row<P>): string { r.origin }
  function DestCode<P>(p: (Row<P>, Airport)): string { p.0.dest }

  /** The two inner merges with the airport table, first on the origin code,
   *  then on the destination code. */
  function Enrich<P(==,!new)>(rows: seq<Row<P>>, airports: seq<Airport>): (r: seq<Enriched<P>>)
    ensures forall e :: e in r <==>
      && RowOf(e) in rows && OrigAirport(e) in airports && DestAirport(e) in airports
      && OrigAirport(e).code == RowOf(e).origin && DestAirport(e).code == RowOf(e).dest
  {
    Join(Join(rows, OriginCode, airports, Code), DestCode, airports, Code)
  }

  /** Enrichment yields each (row, origin airport, destination airport)
   *  triple with matching codes exactly (row count) * (origin airport count)
   *  * (destination airport count) times, and nothing else: duplicate codes
   *  fan out, unknown codes drop the row. */
  lemma EnrichCount<P(!new)>(rows: seq<Row<P>>, airports: seq<Airport>, x: Row<P>, a: Airport, b: Airport)
    ensures multiset(Enrich(rows, airports))[((x, a), b)]
         == if a.code == x.origin && b.code == x.dest
            then multiset(rows)[x] * multiset(airports)[a] * multiset(airports)[b]
            else 0
  {
    var j1 := Join(rows, OriginCode, airports, Code);
    JoinMultiplicity(rows, OriginCode, airports, Code, x, a);
    JoinMultiplicity(j1, DestCode, airports, Code, (x, a), b);
  }

  /** With an airport table whose codes are unique, every row whose two
   *  codes are known gives exactly one enriched row. */
  lemma EnrichUnique<P(!new)>(rows: seq<Row<P>>, airports: seq<Airport>, x: Row<P>, a: Airport, b: Airport)
    requires forall i, j :: 0 <= i < j < |airports| ==> airports[i].code != airports[j].code
    requires a in airports && b in airports && a.code == x.origin && b.code == x.dest
    ensures multiset(Enrich(rows, airports))[((x, a), b)] == multiset(rows)[x]
  {
    EnrichCount(rows, airports, x, a, b);
    CountOne(airports, a);
    CountOne(airports, b);
    TimesOnes(multiset(rows)[x], multiset(airports)[a], multiset(airports)[b]);
  }

  lemma TimesOnes(n: int, p: int, q: int)
    requires p == 1 && q == 1
    ensures n * p * q == n
  {
  }

  lemma {:induction false} CountOne(airports: seq<Airport>, a: Airport)
    requires forall i, j :: 0 <= i < j < |airports| ==> airports[i].code != airports[j].code
    requires a in airports
    ensures multiset(airports)[a] == 1
  {
    assert airports == [airports[0]] + airports[1..];
    if airports[0] == a {
      forall j | 0 <= j < |airports[1..]|
        ensures airports[1..][j] != a
      {
        assert airports[1..][j] == airports[j + 1];
      }
    } else {
      CountOne(airports[1..], a);
    }
  }

  /** The 12 group-by columns: origin code, name, city, state, latitude,
   *  longitude, and the same six for the destination. */
  datatype RouteKey = RouteKey(
    origCode: string, origName: string, origCity: string, origState: string, origLat: real, origLon: real,
    destCode: string, destName: string, destCity: string, destState: string, destLat: real, destLon: real)

  /** The route key of an enriched row: airport columns from the airport
   *  table, state columns from the raw row. */
  function KeyOf<P>(e: Enriched<P>): RouteKey
  {
    var o, d, r := OrigAirport(e), DestAirport(e), RowOf(e);
    RouteKey(o.code, o.name, o.city, r.originState, o.lat, o.lon,
             d.code, d.name, d.city, r.destState, d.lat, d.lon)
  }
}
