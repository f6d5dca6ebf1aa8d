# route_mapper in Dafny

This project models the core of route_mapper, a two-stage pipeline over US airline data.

The aggregation stage (`data_aggregator.py`) builds four per-route datasets:

- aircraft delays, from on-time performance records;
- aircraft occupancy, from T-100 segment records;
- flyer fare class, from ticket coupons;
- flyer stopovers, from the same ticket coupons.

Each dataset goes through the same steps:

1. Cut the raw rows to routes anchored in one state, shorter than a maximum distance, active, and optionally from one quarter.
2. Enrich each row with its origin and destination airport by two inner merges with the airport table.
3. Summarise per directed 12-column route key with several group-bys (median, mean, sum, count, collect-as-set).
4. Merge those group-bys on the route key.

The map stage (`map_creator.py`) then:

1. Cuts routes with too few flights or passengers for the period.
2. Left-joins the first/business fraction onto the delay and occupancy routes.
3. Takes the top-20 and top-40 routes by each metric, and inner-joins the top-40 lists into "overlap" selections.
4. Draws ten feature groups. Each route layer is filled by two plotting loops: one origin marker per origin airport, a line and a midpoint marker per route, then a marker for each destination that is not an origin. The midpoint marker is shifted east when the same two airports were already joined. Each station layer draws every Amtrak station, lines to its two nearest airports, and those airports once each.

## How the model is organised

- **Value code** (the data-frame pipeline) is modelled with datatypes and functions over sequences. The modules are `Frames`, `Stats`, `Routes`, `Coupons`, `DelayRoutes`, `OccupancyRoutes`, `ClassRoutes`, `StopoverRoutes` and `RouteSelection`. Data-frame operations are modelled in `Frames`:
  - `Where`: a boolean-mask selection.
  - `DistinctKeys`, `Group` and `Reduce`: a group-by.
  - `Join`: an inner merge.
  - `RouteSelection.LeftJoin`: a left merge.
- **Each merged group-by** is proved equal to a one-pass `Summarize` of each group.
- **The plotting loops** are imperative. They are modelled in `MapLayers`:
  - `FeatureGroup` is a class whose `children` field the methods extend.
  - Each loop is a `while` loop with invariants. It is proved against a specification function (`Layer`, `FirstPass`, `StationLayer`), and the lemmas state what those functions contain.

## Model

| member | source | states |
|---|---|---|
| Frames.MapSeq | data_aggregator.py:100-104 | a computed column has one entry per row, the function applied to that row |
| Frames.Where | data_aggregator.py:71-78 | a masked selection holds exactly the input rows satisfying the mask, and is no longer than the input |
| Frames.WhereCount | data_aggregator.py:71-78 | each selected row is kept as often as it occurs; each rejected row is dropped entirely |
| Frames.WhereAppend | data_aggregator.py:71-78 | selection distributes over concatenation, so it keeps row order |
| Frames.WhereAll | data_aggregator.py:71-78 | a mask every row satisfies selects the whole input |
| Frames.WhereIdempotent | data_aggregator.py:71-78 | applying the same mask twice is applying it once |
| Frames.DistinctKeys | data_aggregator.py:119-122 | the group keys are pairwise distinct, and are exactly the keys occurring in the rows |
| Frames.Group | data_aggregator.py:119-122 | a group holds exactly the rows with its key |
| Frames.GroupNonEmpty | data_aggregator.py:119-122 | a key that occurs has a non-empty group |
| Frames.AllGroupsNonEmpty | data_aggregator.py:119-122 | every group of a group-by is non-empty |
| Frames.Reduce | data_aggregator.py:119-141 | a group-by reduction has one row per distinct key, in key order, holding the reducer applied to that key's group |
| Frames.Matching | data_aggregator.py:81-84 | the rows one left row meets in a merge are exactly the right rows with its key |
| Frames.MatchingCount | data_aggregator.py:81-84 | one left row meets each right row with its key as often as that right row occurs |
| Frames.MatchingNone | data_aggregator.py:81-84 | a left row whose key no right row has meets nothing |
| Frames.Join | data_aggregator.py:81-84 | an inner merge holds exactly the pairs of a left and a right row with equal keys |
| Frames.JoinStep | data_aggregator.py:81-84 | the merge's rows are the first left row's matches followed by the merge of the remaining rows |
| Frames.JoinMultiplicity | data_aggregator.py:81-97 | each pair with equal keys occurs (left count) × (right count) times, and no other pair occurs (merges fan out on duplicate keys) |
| Frames.LookupAt | data_aggregator.py:156-160 | in a table with distinct keys, the value looked up under a row's key is that row's value |
| Frames.MatchingUnique | data_aggregator.py:156-160 | a left row meets exactly one row of a table with distinct keys that holds its key |
| Frames.JoinUnique | data_aggregator.py:156-160 | merging with such a table keeps the left rows one-to-one and in order, each with the value for its key |
| Frames.ReduceHasKeys | data_aggregator.py:156-166 | a group-by result has distinct keys and holds every key of the rows |
| Frames.ReduceLookup | data_aggregator.py:156-166 | the group-by value under the i-th key is the reducer applied to that key's group |
| Frames.MergeTwo | data_aggregator.py:373-376 | two group-bys of the same rows, merged on the key, give one row per key, each with both reductions of that key's group |
| Frames.MergeThree | data_aggregator.py:156-166 | the same for three group-bys merged by two successive inner merges |
| Frames.MergeThird | data_aggregator.py:162-166 | merging a per-key table with a third group-by attaches that key's third reduction row by row |
| Stats.SumBounds | data_aggregator.py:233-236 | bounding every term bounds a column sum by count × bound |
| Stats.SumPositive | data_aggregator.py:233-236 | a sum of positive terms is positive once there is one term |
| Stats.SumNonNegative | data_aggregator.py:233-236 | a sum of non-negative terms is non-negative |
| Stats.SumLe | data_aggregator.py:233-236 | a column sum is monotone in each term |
| Stats.SumAdd | data_aggregator.py:233-236 | the sum of a row-wise sum of two columns is the sum of their sums |
| Stats.MeanBounds | data_aggregator.py:125-128 | the mean lies within any bounds of the column |
| Stats.MeanPositive | data_aggregator.py:250-254 | the mean of positive values is positive |
| Stats.MeanSingleton | data_aggregator.py:125-128 | a one-row column has that row as its mean |
| Stats.Indicator | data_aggregator.py:129-131 | a boolean averages as 1.0 exactly when true, and as 0.0 exactly when false |
| Stats.Fraction | data_aggregator.py:129-131 | the mean of a boolean column lies in [0, 1] |
| Stats.FractionMonotone | data_aggregator.py:101-104 | a flag implied row by row by another has at least that other flag's fraction |
| Stats.FractionComplement | data_aggregator.py:463-464 | the fractions of a flag and of its negation add up to 1 |
| Stats.Present | data_aggregator.py:125-128 | the NaN-skipped column holds each present value exactly as often as the column does, and nothing else |
| Stats.PresentAppend | data_aggregator.py:125-128 | skipping NaN distributes over concatenation, so the present values keep their order |
| Stats.PresentCell | data_aggregator.py:125-128 | a present cell is kept and a NaN cell is dropped |
| Stats.PresentAll | data_aggregator.py:125-128 | a column with no NaN keeps all its values |
| Stats.MeanSkipNaN | data_aggregator.py:125-128 | a NaN-skipping mean is NaN exactly when every value is NaN |
| Stats.Insert | data_aggregator.py:119-122 | inserting into a sorted column keeps it sorted and adds one value |
| Stats.InsertPermutes | data_aggregator.py:119-122 | insertion adds exactly the inserted value to the multiset |
| Stats.SortUp | data_aggregator.py:119-122 | sorting gives an ascending permutation of the column |
| Stats.Median | data_aggregator.py:119-122 | the median lies between the column's values: some value is at most it and some value at least it |
| Stats.SortedUnique | data_aggregator.py:119-122 | two ascending arrangements of the same values are equal, so a column has one sorted order |
| Stats.MedianSpec | data_aggregator.py:119-123 | for any ascending arrangement of the column, the median is its middle value (odd count) or the mean of its two middle values (even count) |
| Stats.MedianBounds | data_aggregator.py:244-248 | the median lies within any bounds of the column |
| Stats.MedianSingleton | data_aggregator.py:119-123 | a one-row column has that row as its median |
| Stats.MedianSkipNaN | data_aggregator.py:119-123 | a NaN-skipping median is NaN exactly when every value is NaN |
| Routes.Keep | data_aggregator.py:71-78 | no contract of its own: the row filter of the cut; CutSpec states it condition by condition |
| Routes.QuarterGiven | data_aggregator.py:71-74 | no contract of its own: the `if quarter:` test, false for a missing quarter and for quarter 0; CutSpec states how it gates the quarter condition |
| Routes.Cut | data_aggregator.py:71-78 | the cut holds exactly the input rows that pass the filter (Keep: anchored, 0 < distance < max, active, in the quarter), and is no longer than the input |
| Routes.CutSpec | data_aggregator.py:71-78 | a row survives the cut iff one end is in the anchor state, 0 < distance < max, the row is active and, for a truthy quarter, the row is in it; surviving rows keep their multiplicity |
| Routes.CutAppend | data_aggregator.py:71-78 | the cut keeps row order |
| Routes.CutIdempotent | data_aggregator.py:71-78 | cutting twice is cutting once |
| Routes.Enrich | data_aggregator.py:81-97 | an enriched row is a cut row with an origin airport and a destination airport whose codes match its own |
| Routes.EnrichCount | data_aggregator.py:81-97 | each (row, origin airport, destination airport) triple occurs (row count) × (origin count) × (destination count) times; unknown codes drop the row |
| Routes.EnrichUnique | data_aggregator.py:81-97 | with unique airport codes, each row with two known codes is enriched exactly as often as it occurs |
| Routes.KeyOf | data_aggregator.py:119-121 | no contract of its own: the 12 group-by columns of an enriched row; DelayRoutesByGroup, OccupancyRoutesByGroup, ClassRoutesByGroup and DelayRouteKeys state the grouping by it |
| Coupons.FilteredTicketed | data_aggregator.py:304-311 | every coupon that passes the cut has passengers |
| DelayRoutes.AirlineDelay | data_aggregator.py:100 | the airline delay is late-aircraft delay plus carrier delay, and NaN exactly when either summand is NaN |
| DelayRoutes.Flags | data_aggregator.py:101-104 | each flag holds exactly when the airline delay is present and strictly above its threshold (5, 10, 20, 30), so the flags are nested and false on NaN |
| DelayRoutes.DelayRoutes | data_aggregator.py:100-166 | no contract of its own: the delay route table (median, mean and count group-bys merged on the route key); DelayRoutesByGroup, DelayRouteKeys and DelayRouteFacts state its rows |
| DelayRoutes.Summarize | data_aggregator.py:119-141 | no contract of its own: the one-pass summary of one route's flights that DelayRoutesByGroup equates with the merged row |
| DelayRoutes.MedianReducer | data_aggregator.py:119-123 | no contract of its own: AirlineDelay_med, the NaN-skipping median of a route's airline delays; MedianSkipNaN, MedianBounds and SingleFlightRoute state it |
| DelayRoutes.MeanReducer | data_aggregator.py:125-135 | no contract of its own: the delay fractions and NaN-skipping means of a route; FractionsNested, SingleFlightRoute and MeanSkipNaN state them |
| DelayRoutes.CountReducer | data_aggregator.py:137-141 | no contract of its own: Flight_Count, the number of a route's flights; DelayRouteFacts states it |
| DelayRoutes.DelayRoutesByGroup | data_aggregator.py:119-166 | the merged median/mean/count tables give one row per distinct route key, each the one-pass summary of its group |
| DelayRoutes.DelayRouteKeys | data_aggregator.py:119-171 | the output's route keys are the distinct keys of the filtered, enriched flights |
| DelayRoutes.FractionsNested | data_aggregator.py:129-131 | 0 ≤ frac30 ≤ frac20 ≤ frac10 ≤ 1 for every route |
| DelayRoutes.SingleFlightRoute | data_aggregator.py:119-132 | a route flown once has that flight's delay as its median and mean |
| DelayRoutes.DelayRouteFacts | data_aggregator.py:137-141 | each route's Flight_Count is the number of its flights (≥ 1), and its fractions are nested |
| OccupancyRoutes.OccupancyRoutes | data_aggregator.py:191-277 | no contract of its own beyond SEATS > 0: the occupancy route table; OccupancyRoutesByGroup and OccupancyRouteFacts state its rows |
| OccupancyRoutes.Occupancy | data_aggregator.py:222 | a row's occupancy times its seats is its passengers; OccupancyColumn states its bounds |
| OccupancyRoutes.SumReducer | data_aggregator.py:233-241 | no contract of its own: the summed columns and occupancy_total; TotalPositive and TotalAtMostOne state them |
| OccupancyRoutes.MedianReducer | data_aggregator.py:244-248 | no contract of its own: occupancy_med; OccupancyPositive and OccupancyAtMostOne state it |
| OccupancyRoutes.MeanReducer | data_aggregator.py:250-257 | no contract of its own: occupancy_mean and the other kept means; OccupancyPositive and OccupancyAtMostOne state the occupancy mean |
| OccupancyRoutes.Summarize | data_aggregator.py:233-277 | no contract of its own: the one-pass summary of one route that OccupancyRoutesByGroup equates with the merged row |
| OccupancyRoutes.AllGroupsSeated | data_aggregator.py:222 | when cut rows offer seats, every route group is non-empty with seats, so occupancy is defined |
| OccupancyRoutes.OccupancyRoutesByGroup | data_aggregator.py:233-277 | the merged sum/median/mean tables give one row per distinct route key, each the one-pass summary of its group |
| OccupancyRoutes.OccupancyColumn | data_aggregator.py:222 | per-row occupancies are positive, and at most 1 when passengers never exceed seats |
| OccupancyRoutes.OccupancyPositive | data_aggregator.py:242-254 | a route's total, median and mean occupancy are positive |
| OccupancyRoutes.TotalPositive | data_aggregator.py:237-242 | a route's total passengers and total occupancy are positive |
| OccupancyRoutes.OccupancyAtMostOne | data_aggregator.py:240-254 | when no row carried more passengers than seats, all three occupancy measures are at most 1 |
| OccupancyRoutes.TotalAtMostOne | data_aggregator.py:240-242 | the same for occupancy_total |
| OccupancyRoutes.OccupancyRouteFacts | data_aggregator.py:191-277 | every occupancy route has positive passengers and positive occupancy measures |
| ClassRoutes.Buckets | data_aggregator.py:332-338 | class_b holds exactly for C and D, class_f exactly for F and G, class_c exactly for X, Y and a missing code; class_bf is class_b or class_f; so business and first, and premium and coach, are exclusive, and a known code is premium xor coach |
| ClassRoutes.ClassRoutes | data_aggregator.py:304-376 | no contract of its own: the fare-class route table; ClassRoutesByGroup and ClassFractions state its rows |
| ClassRoutes.PremiumWeight | data_aggregator.py:340 | no contract of its own: class_bf_w, class_bf times PASSENGERS; ClassFractions states the fraction built from it |
| ClassRoutes.CoachWeight | data_aggregator.py:341 | no contract of its own: class_c_w, class_c times PASSENGERS; ClassFractions states the fraction built from it |
| ClassRoutes.SumReducer | data_aggregator.py:351-357 | no contract of its own: PASSENGERS_sum, class_bf_frac and class_c_frac; ClassFractions states them |
| ClassRoutes.MeanReducer | data_aggregator.py:359-363 | no contract of its own: DISTANCE_mean, the mean distance of a route's coupons; Stats.MeanBounds states it |
| ClassRoutes.Summarize | data_aggregator.py:351-376 | no contract of its own: the one-pass summary of one route that ClassRoutesByGroup equates with the merged row |
| ClassRoutes.AllGroupsTicketed | data_aggregator.py:351-356 | every fare-class route group is non-empty with passengers, so its fractions are defined |
| ClassRoutes.ClassRoutesByGroup | data_aggregator.py:351-376 | the merged sum/mean tables give one row per distinct route key, each the one-pass summary of its group |
| ClassRoutes.ClassFractions | data_aggregator.py:339-357 | the passenger-weighted premium and coach fractions lie in [0, 1] and add up to at most 1; exactly 1 when every fare class is known |
| StopoverRoutes.FirstBySeq | data_aggregator.py:444 | a market's first coupon belongs to it and has the smallest sequence number |
| StopoverRoutes.LastBySeq | data_aggregator.py:446 | a market's last coupon belongs to it and has the largest sequence number |
| StopoverRoutes.Markets | data_aggregator.py:439-459 | no contract of its own: the per-market table (count, first and last coupon merged on MKT_ID); MarketsByGroup and MarketFacts state its rows |
| StopoverRoutes.MarketKey | data_aggregator.py:475-478 | no contract of its own: a market's route key, origin columns from its first coupon and destination columns from its last, as the merged columns are |
| StopoverRoutes.MarketOf | data_aggregator.py:439-459 | no contract of its own: one market's row computed in one pass; MarketsByGroup equates it with the merged row and MarketFacts states its contents |
| StopoverRoutes.Stopovers | data_aggregator.py:441 | no contract of its own: mkt_row_count - 1; MarketFacts states it is non-negative |
| StopoverRoutes.StopoverFalse | data_aggregator.py:463 | no contract of its own: stopovers == 0; MarketFacts states it is the negation of stopover_true |
| StopoverRoutes.StopoverTrue | data_aggregator.py:464 | no contract of its own: stopovers > 0; MarketFacts states it |
| StopoverRoutes.StopoverAirport | data_aggregator.py:446-450 | no contract of its own: orig_code_so, the origin of the market's last coupon; SetReducer and StopoverLists state how it is collected |
| StopoverRoutes.MarketsByGroup | data_aggregator.py:439-459 | the merged count/first/last tables give one row per market, each computed from that market's coupons |
| StopoverRoutes.SetReducer | data_aggregator.py:489-493 | a route's stopover_airports list has no repeats and holds exactly the last-coupon origins of its markets |
| StopoverRoutes.MarketFacts | data_aggregator.py:439-464 | a market counts its coupons (≥ 1); stopovers ≥ 0; exactly one of stopover_true and stopover_false holds; first and last are coupons of the market bounding all sequence numbers |
| StopoverRoutes.RemoveFirst | data_aggregator.py:27-30 | removing a present element drops exactly one occurrence; an absent element leaves the list unchanged |
| StopoverRoutes.RemoveReturnList | data_aggregator.py:27-30 | the scan-and-remove loop returns the list without the first occurrence of the element |
| StopoverRoutes.RemoveFirstAt | data_aggregator.py:29 | removing the first occurrence at index i keeps everything before and after i |
| StopoverRoutes.RemoveFirstCons | data_aggregator.py:27-30 | removing past a first element that differs keeps that element in front |
| StopoverRoutes.Clean | data_aggregator.py:522-523 | the cleaned list is the stopover list with one occurrence of the route origin removed when present, and unchanged otherwise |
| StopoverRoutes.CleanSpec | data_aggregator.py:522-523 | the cleaned stopover list holds exactly the listed airports other than the route origin, without repeats |
| StopoverRoutes.RemoveFirstNoDup | data_aggregator.py:522-523 | on a list without repeats, removing an element removes all of it and keeps the list without repeats |
| StopoverRoutes.RouteSummaries | data_aggregator.py:475-526 | no contract of its own: the route table before the final cut; RouteSummariesByGroup and SummaryFacts state its rows |
| StopoverRoutes.SumReducer | data_aggregator.py:483-487 | no contract of its own: PASSENGERS_sum over a route's markets; RouteSummariesByGroup states which markets it sums |
| StopoverRoutes.MeanReducer | data_aggregator.py:475-481 | no contract of its own: stopover_frac, no_stopover_frac and stopovers_mean; MeanFractions states them |
| StopoverRoutes.AssembleRoute | data_aggregator.py:505-525 | no contract of its own: one merged row with its cleaned list and computed distance; RouteSummariesByGroup equates it with SummarizeRoute |
| StopoverRoutes.SummarizeRoute | data_aggregator.py:475-525 | no contract of its own: the one-pass summary of one route's markets; StopoverFractions, StopoverLists and SummaryFacts state it |
| StopoverRoutes.ShortAnchored | data_aggregator.py:527-528 | no contract of its own: the final mask, anchored and dist_calc < max_dist; StopoverRoutes and StopoverRouteFacts state it |
| StopoverRoutes.RouteSummariesByGroup | data_aggregator.py:475-516 | the merged sum/mean/set tables over markets give one row per distinct route key, each the one-pass summary of its markets |
| StopoverRoutes.StopoverFractions | data_aggregator.py:463-481 | stopover_frac and no_stopover_frac lie in [0, 1] and add up to 1; the mean stopover count is non-negative |
| StopoverRoutes.MeanFractions | data_aggregator.py:463-481 | the mean() group-by over markets gives complementary fractions in [0, 1] and a non-negative mean stopover count |
| StopoverRoutes.StopoverLists | data_aggregator.py:489-523 | stopover_airports lists each market's stopover airport once; the cleaned list is it without the route origin |
| StopoverRoutes.MarketsNonEmpty | data_aggregator.py:439-441 | every market has at least one coupon |
| StopoverRoutes.SummaryFacts | data_aggregator.py:475-526 | each route summary has complementary fractions, the computed distance of its own airports, and no origin in its cleaned list |
| StopoverRoutes.StopoverRouteFacts | data_aggregator.py:475-528 | every output route is anchored and shorter than the maximum by its computed distance, has complementary fractions, and excludes its origin from the cleaned list |
| StopoverRoutes.StopoverRoutes | data_aggregator.py:525-528 | the stopover table holds exactly the merged route summaries that are anchored and shorter than the maximum by their computed distance |
| RouteSelection.Months | map_creator.py:67-74 | a truthy quarter covers 3 months, otherwise 12 |
| RouteSelection.PeriodCut | map_creator.py:97-98 | the flight cut and the passenger cut are the monthly minimum times 3 for a quarter, times 12 for a full year |
| RouteSelection.DelayCut | map_creator.py:100 | kept delay routes are exactly those with Flight_Count > flight_cut |
| RouteSelection.OccupancyCut | map_creator.py:102 | kept occupancy routes are exactly those with DEPARTURES_PERFORMED_sum > flight_cut |
| RouteSelection.ClassCut | map_creator.py:104 | kept class routes are exactly those with PASSENGERS_sum > pass_cut × 0.1 |
| RouteSelection.StopoverCut | map_creator.py:106 | kept stopover routes are exactly those with PASSENGERS_sum > pass_cut × 0.1 |
| RouteSelection.Attach | map_creator.py:112-115 | a left row yields at least one row of the left merge |
| RouteSelection.AttachSpec | map_creator.py:112-115 | one left row is paired with exactly the matching right rows, or with nothing exactly when none matches |
| RouteSelection.LeftJoin | map_creator.py:112-115 | a left merge has at least as many rows as its left side |
| RouteSelection.LeftJoinSpec | map_creator.py:112-115 | a left row is paired with exactly the right rows on its key, and with nothing exactly when there are none; no left row is lost |
| RouteSelection.LeftJoinPair | map_creator.py:112-115 | each row of the left merge holds a left row and, if any, a right row with the same key |
| RouteSelection.WithClass | map_creator.py:112-126 | attaching class data keeps at least every route |
| RouteSelection.Annotate | map_creator.py:112-118 | a merged row keeps its route, is 'no data' exactly when no class route matched, and otherwise carries the matched class_bf_frac |
| RouteSelection.WithClassSound | map_creator.py:112-126 | each annotated route is an input route, and an attached fraction is the class_bf_frac of a class route on the same 10 columns |
| RouteSelection.WithClassNoData | map_creator.py:118 | a route gets 'no data' exactly when no class route has its 10 columns |
| RouteSelection.WithClassMatched | map_creator.py:112-118 | a route with a class route on its 10 columns is kept with that class route's class_bf_frac |
| RouteSelection.InsertDown | map_creator.py:129-137 | inserting into a descending list keeps it descending and adds one row |
| RouteSelection.InsertDownPermutes | map_creator.py:129-137 | insertion adds exactly the inserted row |
| RouteSelection.SortDown | map_creator.py:129-137 | sorting by a metric gives a descending permutation |
| RouteSelection.TopN | map_creator.py:129-137 | a top-n list has min(n, count) rows, is descending, is a sub-multiset of the input, and is all of it when there are at most n rows |
| RouteSelection.InRest | map_creator.py:129-137 | a row with more copies in the sorted list than in its first n rows occurs after them |
| RouteSelection.TopNExcluded | map_creator.py:129-137 | no row left out of a top-n list has a larger metric than any selected row |
| RouteSelection.DelayRoutes | map_creator.py:100-118 | no contract of its own: ot_routes, the cut delay routes with class_bf_frac attached; DelayRouteKept, WithClassMatched and WithClassNoData state its rows |
| RouteSelection.OccupancyRoutes | map_creator.py:102-126 | no contract of its own: occ_routes, the cut occupancy routes with class_bf_frac attached; OccupancyRouteKept states its rows |
| RouteSelection.Select | map_creator.py:97-167 | no contract of its own: every list the layers are drawn from; TopLayers and TripleOverlap state them |
| RouteSelection.InTop | map_creator.py:129-137 | every row of a top-n list is an input row |
| RouteSelection.DelayRouteKept | map_creator.py:100-118 | a delay route on the map is a delay dataset row that passed the flight cut |
| RouteSelection.OccupancyRouteKept | map_creator.py:102-126 | an occupancy route on the map passed the departures cut |
| RouteSelection.TripleJoin | map_creator.py:161-164 | a three-way overlap row takes one route from each top-40 list, all on the same 10 columns |
| RouteSelection.TripleOverlap | map_creator.py:139-167 | each three-way overlap route is in all three top-40 lists with equal 10 columns, and passed all three volume cuts |
| RouteSelection.TopLayers | map_creator.py:129-137 | each of the five top-20 lists (delay, occupancy, class, stopover, stations) has at most 20 rows and is descending by its metric; the four route lists hold only routes that passed their volume cut |
| MapLayers.FeatureGroup.constructor | map_creator.py:173-182 | a new group has its name and no features |
| MapLayers.FeatureGroup.AddChild | map_creator.py:209 | add_child appends exactly one feature |
| MapLayers.Origins | map_creator.py:327-333 | no contract of its own: orig_list after a prefix of the routes; OriginsDistinct states it |
| MapLayers.Pairs | map_creator.py:340-363 | no contract of its own: orig_dest_list after a prefix of the routes; PairsSpec states it |
| MapLayers.Midpoint | map_creator.py:27-28 | the midpoint is equally far, in latitude and in longitude, from both ends of the route |
| MapLayers.OriginMarkers | map_creator.py:327-333 | no contract of its own: the origin markers of the first loop; OriginMarkersSpec and OriginMarkersCodes state them |
| MapLayers.RouteFeatures | map_creator.py:335-363 | no contract of its own: the lines and midpoint markers of the first loop; RouteFeaturesLength and RouteFeaturesAt state them |
| MapLayers.DestMarkers | map_creator.py:365-374 | no contract of its own: the markers of the second loop; PlotDestMarkers, DestMarkersSnoc and DestMarkerCount state them |
| MapLayers.OriginsDistinct | map_creator.py:327-333 | orig_list is the distinct origin codes in order of first appearance |
| MapLayers.PairsSpec | map_creator.py:340-363 | orig_dest_list holds each route's unordered name pair, in order |
| MapLayers.DestMarkersSnoc | map_creator.py:365-374 | the second loop over one more route adds that route's destination marker only when its code is not an origin |
| MapLayers.FirstPass | map_creator.py:319-363 | no contract of its own: what the first loop of a one-group layer draws; FirstPassOrigins and FirstPassRoutes state it |
| MapLayers.Layer | map_creator.py:314-374 | no contract of its own: a whole one-group route layer; PlotRouteLayer is proved to draw exactly it |
| MapLayers.FirstPassStep | map_creator.py:319-363 | one more route of the first loop adds its origin step and then its route step |
| MapLayers.SplitStep | map_creator.py:189-236 | the same, with origin markers and routes in separate groups |
| MapLayers.PlotDestMarkers | map_creator.py:365-374 | the second loop appends exactly the destination markers of routes whose destination is not in orig_list |
| MapLayers.PlotOrigin | map_creator.py:327-333 | an origin marker is added and orig_list extended exactly for an origin not seen before |
| MapLayers.PlotRoute | map_creator.py:335-363 | a route adds its line and its midpoint marker, shifted when its name pair was seen, and extends orig_dest_list |
| MapLayers.PlotFirstPassStep | map_creator.py:319-363 | one iteration of the first loop extends the group and both lists by that route |
| MapLayers.PlotRouteLayer | map_creator.py:314-374 | a route layer drawn into one group appends exactly Layer(routes, offset) |
| MapLayers.PlotSplitLayer | map_creator.py:184-247 | the delay layer puts its origin markers into the other group, and its lines, midpoint markers and destination markers into its own |
| MapLayers.PlotSplitStep | map_creator.py:189-236 | one iteration of the delay layer's first loop extends both groups and both lists by that route |
| MapLayers.OriginMarkersSpec | map_creator.py:327-333 | there is one origin marker per distinct origin code, in order of first appearance |
| MapLayers.OriginMarkersCodes | map_creator.py:327-333 | the i-th origin marker is an airport marker for the i-th code of orig_list |
| MapLayers.RouteFeaturesLength | map_creator.py:335-363 | the first loop adds exactly two non-origin features per route |
| MapLayers.RouteFeaturesAt | map_creator.py:335-363 | route i adds a line from its origin to its destination, then a marker at its midpoint with the shift its predecessors decide |
| MapLayers.PairSame | map_creator.py:340-341 | two routes have the same name pair exactly when they join the same two airports in either direction |
| MapLayers.Offset | map_creator.py:340-344 | no contract of its own: the eastward shift of a midpoint marker; OffsetSpec states when it applies |
| MapLayers.OffsetSpec | map_creator.py:340-344 | a midpoint marker is shifted exactly when an earlier route joined the same two airports in either direction |
| MapLayers.StepKinds | map_creator.py:319-363 | an origin step adds only airport markers, and a route step adds none |
| MapLayers.FirstPassOrigins | map_creator.py:319-363 | the airport markers of a one-group first loop are exactly the origin markers, in order |
| MapLayers.FirstPassRoutes | map_creator.py:319-363 | its other features are exactly the lines and midpoint markers, in order |
| MapLayers.DestMarkerCount | map_creator.py:365-374 | the second loop marks a non-origin code once per route ending there, and an origin code never |
| MapLayers.FindByName | map_creator.py:440-443 | an airport the name lookup returns is in the table and has the name looked for |
| MapLayers.FindByNameSpec | map_creator.py:440 | the name lookup succeeds exactly when some airport has that name, and returns the first such airport |
| MapLayers.FoundInUSA | map_creator.py:94 | a looked-up airport is a United States airport of the table with the requested name |
| MapLayers.StationLayer | map_creator.py:433-478 | no contract of its own: a whole station layer; PlotStationLayer is proved to draw it, and StationLayerNames, StationAirportMarked and StationAirportsOnce state its airport markers |
| MapLayers.NearestNames | map_creator.py:477-478 | no contract of its own: a_list after a prefix of the stations; NearestNamesStep and StationLayerNames state it |
| MapLayers.StationStep | map_creator.py:455-476 | no contract of its own: what one resolved station adds; DrawStation and StepNames state it |
| MapLayers.StationPrefix | map_creator.py:436-478 | one more station adds its station step after the stations before it |
| MapLayers.DrawStation | map_creator.py:455-476 | one station adds its marker, two lines, and markers for those of its airports not named before |
| MapLayers.NearestNamesStep | map_creator.py:477-478 | a_list grows by the station's two airport names |
| MapLayers.PlotStation | map_creator.py:436-478 | one station iteration draws the station exactly when both airports are found, and otherwise changes nothing |
| MapLayers.PlotResolved | map_creator.py:455-478 | once both airports are found, one station iteration extends the group and a_list by exactly that station's step |
| MapLayers.PlotStationLayer | map_creator.py:433-478 | the station loop draws every station until the first one whose airport is not found, and reports that station |
| MapLayers.StepNames | map_creator.py:463-478 | a station adds airport markers exactly for those of its two names not in a_list |
| MapLayers.StationLayerNames | map_creator.py:433-478 | a station layer's airport names are those of the prefix followed by the new station's unseen names |
| MapLayers.StationAirportMarked | map_creator.py:463-478 | an airport gets a marker in a station layer exactly when it is a nearest airport of some station |
| MapLayers.StationAirportsOnce | map_creator.py:467-478 | when no station names the same airport twice, no airport gets two markers |
| MapLayers.PlotTopLayers | map_creator.py:184-431 | g1 gets the delay routes and destinations; g2 gets the delay origin markers followed by the occupancy layer (shift 0.3); g3 and g4 get the class and stopover layers (shift 0.2) |
| MapLayers.PlotStationLayers | map_creator.py:433-525 | g5 gets every station and g6 the twenty most delayed; the result is ok exactly when all their airports are found |
| MapLayers.PlotOverlapLayers | map_creator.py:527-805 | g7 to g10 get the four overlap layers (shift 0.2) |
| MapLayers.RenderMap | map_creator.py:169-816 | the ten groups carry the source's names, in order, with the contents above; stations are looked up among US airports |

## Left out

- File I/O, CSV reading and writing, the command line, `print`, and the folium map object are not modelled. Popups, icons, colours, line weights and the zoom are not modelled either; features keep only their kind and coordinates.
- `geocalc` (floating-point trigonometry) is not modelled. The stopover distance is a parameter `geo` of type `Geo`, left uninterpreted.
- `midpoint` is not modelled as floating point: it is an exact average over reals. All arithmetic is exact over the reals; rounding and NaN propagation of floats are not modelled, except NaN cells in the delay columns (`Option`).
- The airport table's columns are strings in the source (`dtype=str`). The model carries `lat`/`lon` as reals, so the string/float conversions (`float(orig_lat)`) are not modelled.
- Row order is modelled as first appearance, which differs from the source in three places. pandas sorts group keys; `set(...)` has no order; `sort_values` is not a stable sort. Every stated property holds whatever the order. Ties in a top-n list are broken by the model's own insertion order.
- `groupby(...).first()` and `.last()` take the first or last non-null value per column. The model takes whole coupons, and assumes the columns are non-null.
- Rows whose group-by keys contain NaN are dropped by pandas. The model has no NaN in keys.
- OccupancyRoutes.OccupancyRoutes: requires that every cut row offers seats (SEATS > 0). Otherwise the source divides by zero and gets inf/NaN, which the exact-real model cannot represent.
- The Amtrak table's `City`/`code` columns are read swapped (map_creator.py:437). This only affects popups, so it is not modelled.
- `dest_no_orig_list` is appended to but never read, so it is not modelled.
- StopoverRoutes.SetReducer: a route's stopover airports are the origins of the LAST coupon of each market, because `orig_code_so` comes from the `.last()` table (data_aggregator.py:446-450). Origins of the other non-first coupons of a market are not collected.
- ClassRoutes.Buckets: the comment at data_aggregator.py:332-333 names C, D, F, G, X, Y and NaN; a code outside these is in no bucket, as in the code. ClassFractions proves the fractions add up to 1 only when every code is one of these.
- MapLayers.RenderMap: a station airport missing from the US table raises an error in the source and no map is written. The model reports `ok == false`; the remaining station layer and the overlap layers stay empty. The ValueError that `int(delay_mean_route)` raises at map_creator.py:231, 583, 649 and 788 when a route's delay mean is NaN is not modelled either; popup text is not modelled.
- MapLayers.FindByName: `.values[0]` is modelled as the first matching airport; returning `None` stands for the source's IndexError.
- Both scripts' `airport_data` loaders and the Amtrak nearest-airport preparation (done outside the code) are not modelled. The map stage's inputs are modelled as the route datasets these aggregations produce (`Select`).
