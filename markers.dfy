/** The marker stage of the map: each layer is a feature group that the
 *  plotting loops fill one feature at a time. A route layer gets one origin
 *  marker per origin airport, a line and a midpoint marker per route (moved
 *  east when the same two airports were already joined), and then a marker
 *  for every route whose destination is not an origin. A station layer gets
 *  the station, lines to its two nearest airports, and a marker for each
 *  nearest airport not named before. */
module MapLayers {
  import opened Frames
  import opened Routes
  import opened RouteSelection

  /** The map features; popups and styling are not modelled. */
  datatype Feature =
    | AirportMarker(code: string, name: string, lat: real, lon: real)
    | RouteMarker(lat: real, lon: real)
    | StationMarker(lat: real, lon: real)
    | Line(fromLat: real, fromLon: real, toLat: real, toLon: real)

  /** A named layer of the map, holding its features in the order added. */
  class FeatureGroup {
    const name: string
    var children: seq<Feature>

    constructor (name: string)
      ensures this.name == name && children == []
    {
      this.name := name;
      children := [];
    }

    /** `add_child`: append one feature. */
    method AddChild(f: Feature)
      modifies this
      ensures children == old(children) + [f]
    {
      children := children + [f];
    }
  }

  function OrigCode(r: MapKey): string { r.origCode }

  /** `set([orig_name, dest_name])`: the unordered pair of airport names. */
  function Pair(r: MapKey): set<string> { {r.origName, r.destName} }

  /** `midpoint`: the coordinate-wise average of the two airports. */
  function Midpoint(r: MapKey): (m: (real, real))
    ensures m.0 - r.origLat == r.destLat - m.0 && m.1 - r.origLon == r.destLon - m.1
  {
    ((r.origLat + r.destLat) / 2.0, (r.origLon + r.destLon) / 2.0)
  }

  /** `orig_list`: the origin codes of the routes so far, each once. */
  function Origins(rs: seq<MapKey>): seq<string>
  {
    if rs == [] then []
    else
      var ks := Origins(rs[..|rs| - 1]);
      if rs[|rs| - 1].origCode in ks then ks else ks + [rs[|rs| - 1].origCode]
  }

  /** `orig_dest_list`: the name pairs of the routes so far. */
  function Pairs(rs: seq<MapKey>): seq<set<string>>
  {
    if rs == [] then [] else Pairs(rs[..|rs| - 1]) + [Pair(rs[|rs| - 1])]
  }

  /** `orig_list` is the list of distinct origin codes in order of first
   *  appearance. */
  lemma {:induction false} OriginsDistinct(rs: seq<MapKey>)
    ensures Origins(rs) == DistinctKeys(rs, OrigCode)
  {
    if rs != [] {
      OriginsDistinct(rs[..|rs| - 1]);
    }
  }

  /** `orig_dest_list` holds the name pair of each route so far, in order. */
  lemma {:induction false} PairsSpec(rs: seq<MapKey>)
    ensures Pairs(rs) == MapSeq(rs, Pair)
  {
    if rs != [] {
      PairsSpec(rs[..|rs| - 1]);
    }
  }

  /** The origin marker a route adds after the routes `seen`, if any. */
  function OriginStep(seen: seq<MapKey>, r: MapKey): seq<Feature>
  {
    if r.origCode in Origins(seen) then [] else [AirportMarker(r.origCode, r.origName, r.origLat, r.origLon)]
  }

  /** The longitude shift of a route's midpoint marker after the routes `seen`. */
  function Offset(seen: seq<MapKey>, r: MapKey, offset: real): real
  {
    if Pair(r) in Pairs(seen) then offset else 0.0
  }

  /** The line and midpoint marker a route adds after the routes `seen`. */
  function RouteStep(seen: seq<MapKey>, r: MapKey, offset: real): seq<Feature>
  {
    var mid := Midpoint(r);
    [Line(r.origLat, r.origLon, r.destLat, r.destLon), RouteMarker(mid.0, mid.1 + Offset(seen, r, offset))]
  }

  /** The origin markers of the first loop. */
  function OriginMarkers(rs: seq<MapKey>): seq<Feature>
  {
    if rs == [] then []
    else
      var prefix := rs[..|rs| - 1];
      OriginMarkers(prefix) + OriginStep(prefix, rs[|rs| - 1])
  }

  /** The lines and midpoint markers of the first loop. */
  function RouteFeatures(rs: seq<MapKey>, offset: real): seq<Feature>
  {
    if rs == [] then []
    else
      var prefix := rs[..|rs| - 1];
      RouteFeatures(prefix, offset) + RouteStep(prefix, rs[|rs| - 1], offset)
  }

  /** Everything the first loop adds when all of it goes to one group. */
  function FirstPass(rs: seq<MapKey>, offset: real): seq<Feature>
  {
    if rs == [] then []
    else
      var prefix := rs[..|rs| - 1];
      FirstPass(prefix, offset) + OriginStep(prefix, rs[|rs| - 1]) + RouteStep(prefix, rs[|rs| - 1], offset)
  }

  function DestMarker(r: MapKey): Feature { AirportMarker(r.destCode, r.destName, r.destLat, r.destLon) }

  /** The second loop: a marker for each route whose destination is not
   *  among `origins`; destinations are not deduplicated. */
  function DestMarkers(rs: seq<MapKey>, origins: seq<string>): seq<Feature>
  {
    if rs == [] then []
    else (if rs[0].destCode in origins then [] else [DestMarker(rs[0])]) + DestMarkers(rs[1..], origins)
  }

  /** A whole route layer drawn into one group. */
  function Layer(rs: seq<MapKey>, offset: real): seq<Feature>
  {
    FirstPass(rs, offset) + DestMarkers(rs, Origins(rs))
  }

  lemma {:induction false} DestMarkersSnoc(rs: seq<MapKey>, r: MapKey, origins: seq<string>)
    ensures DestMarkers(rs + [r], origins)
         == DestMarkers(rs, origins) + (if r.destCode in origins then [] else [DestMarker(r)])
  {
    if rs != [] {
      assert (rs + [r])[1..] == rs[1..] + [r];
      DestMarkersSnoc(rs[1..], r, origins);
    }
  }

  /** One more route of the first loop, drawn into one group. */
  lemma FirstPassStep(rs: seq<MapKey>, i: nat, offset: real)
    requires i < |rs|
    ensures FirstPass(rs[..i + 1], offset) == FirstPass(rs[..i], offset) + OriginStep(rs[..i], rs[i]) + RouteStep(rs[..i], rs[i], offset)
  {
    assert rs[..i + 1][..i] == rs[..i];
  }

  /** One more route of the first loop, drawn into two groups. */
  lemma SplitStep(rs: seq<MapKey>, i: nat, offset: real)
    requires i < |rs|
    ensures OriginMarkers(rs[..i + 1]) == OriginMarkers(rs[..i]) + OriginStep(rs[..i], rs[i])
    ensures RouteFeatures(rs[..i + 1], offset) == RouteFeatures(rs[..i], offset) + RouteStep(rs[..i], rs[i], offset)
  {
    assert rs[..i + 1][..i] == rs[..i];
  }

  /** The second loop of a route layer: a marker for each route whose
   *  destination is not in `origList`. */
  method PlotDestMarkers(rs: seq<MapKey>, origList: seq<string>, g: FeatureGroup)
    modifies g
    ensures g.children == old(g.children) + DestMarkers(rs, origList)
  {
    var j := 0;
    while j < |rs|
      invariant 0 <= j <= |rs|
      invariant g.children == old(g.children) + DestMarkers(rs[..j], origList)
    {
      var r := rs[j];
      if r.destCode !in origList {
        g.AddChild(DestMarker(r));
      }
      assert rs[..j + 1] == rs[..j] + [r];
      DestMarkersSnoc(rs[..j], r, origList);
      j := j + 1;
    }
    assert rs[..j] == rs;
  }

  /** The first half of the first loop's body for route `rs[i]`: an origin
   *  marker unless its origin is among those of the routes before it. */
  method PlotOrigin(ghost rs: seq<MapKey>, ghost i: nat, r: MapKey, origList: seq<string>, og: FeatureGroup)
    returns (origList': seq<string>)
    requires i < |rs| && r == rs[i] && origList == Origins(rs[..i])
    modifies og
    ensures origList' == Origins(rs[..i + 1])
    ensures og.children == old(og.children) + OriginStep(rs[..i], r)
  {
    assert rs[..i + 1][..i] == rs[..i];
    origList' := origList;
    if r.origCode !in origList {
      og.AddChild(AirportMarker(r.origCode, r.origName, r.origLat, r.origLon));
      origList' := origList + [r.origCode];
    }
  }

  /** The second half: the route's line and its midpoint marker, shifted by
   *  `offset` when an earlier route joined the same pair of names. */
  method PlotRoute(ghost rs: seq<MapKey>, ghost i: nat, r: MapKey, pairList: seq<set<string>>, g: FeatureGroup, offset: real)
    returns (pairList': seq<set<string>>)
    requires i < |rs| && r == rs[i] && pairList == Pairs(rs[..i])
    modifies g
    ensures pairList' == Pairs(rs[..i + 1])
    ensures g.children == old(g.children) + RouteStep(rs[..i], r, offset)
  {
    assert rs[..i + 1][..i] == rs[..i];
    g.AddChild(Line(r.origLat, r.origLon, r.destLat, r.destLon));
    var p := if Pair(r) !in pairList then 0.0 else offset;
    var mid := Midpoint(r);
    g.AddChild(RouteMarker(mid.0, mid.1 + p));
    pairList' := pairList + [Pair(r)];
  }

  /** The first loop's body for route `rs[i]`, drawn into one group. */
  method PlotFirstPassStep(rs: seq<MapKey>, i: nat, origList: seq<string>, pairList: seq<set<string>>,
                           g: FeatureGroup, offset: real, ghost before: seq<Feature>)
    returns (origList': seq<string>, pairList': seq<set<string>>)
    requires i < |rs| && origList == Origins(rs[..i]) && pairList == Pairs(rs[..i])
    requires g.children == before + FirstPass(rs[..i], offset)
    modifies g
    ensures origList' == Origins(rs[..i + 1]) && pairList' == Pairs(rs[..i + 1])
    ensures g.children == before + FirstPass(rs[..i + 1], offset)
  {
    FirstPassStep(rs, i, offset);
    origList' := PlotOrigin(rs, i, rs[i], origList, g);
    pairList' := PlotRoute(rs, i, rs[i], pairList, g, offset);
  }

  /** A route layer drawn into one group. */
  method PlotRouteLayer(rs: seq<MapKey>, g: FeatureGroup, offset: real)
    modifies g
    ensures g.children == old(g.children) + Layer(rs, offset)
  {
    var origList: seq<string> := [];
    var pairList: seq<set<string>> := [];
    var i := 0;
    while i < |rs|
      invariant 0 <= i <= |rs|
      invariant origList == Origins(rs[..i])
      invariant pairList == Pairs(rs[..i])
      invariant g.children == old(g.children) + FirstPass(rs[..i], offset)
    {
      origList, pairList := PlotFirstPassStep(rs, i, origList, pairList, g, offset, old(g.children));
      i := i + 1;
    }
    assert rs[..i] == rs;
    PlotDestMarkers(rs, origList, g);
  }

  /** A route layer whose origin markers go to another group `og`. */
  method PlotSplitLayer(rs: seq<MapKey>, g: FeatureGroup, og: FeatureGroup, offset: real)
    requires g != og
    modifies g, og
    ensures og.children == old(og.children) + OriginMarkers(rs)
    ensures g.children == old(g.children) + (RouteFeatures(rs, offset) + DestMarkers(rs, Origins(rs)))
  {
    var origList: seq<string> := [];
    var pairList: seq<set<string>> := [];
    var i := 0;
    while i < |rs|
      invariant 0 <= i <= |rs|
      invariant origList == Origins(rs[..i])
      invariant pairList == Pairs(rs[..i])
      invariant og.children == old(og.children) + OriginMarkers(rs[..i])
      invariant g.children == old(g.children) + RouteFeatures(rs[..i], offset)
    {
      origList, pairList := PlotSplitStep(rs, i, origList, pairList, g, og, offset, old(g.children), old(og.children));
      i := i + 1;
    }
    assert rs[..i] == rs;
    PlotDestMarkers(rs, origList, g);
    AppendAssoc(old(g.children), RouteFeatures(rs, offset), DestMarkers(rs, origList));
  }

  /** One iteration of the first loop of `PlotSplitLayer`. */
  method PlotSplitStep(rs: seq<MapKey>, i: nat, origList: seq<string>, pairList: seq<set<string>>,
                       g: FeatureGroup, og: FeatureGroup, offset: real, ghost before: seq<Feature>, ghost oBefore: seq<Feature>)
    returns (origList': seq<string>, pairList': seq<set<string>>)
    requires g != og
    requires i < |rs| && origList == Origins(rs[..i]) && pairList == Pairs(rs[..i])
    requires og.children == oBefore + OriginMarkers(rs[..i])
    requires g.children == before + RouteFeatures(rs[..i], offset)
    modifies g, og
    ensures origList' == Origins(rs[..i + 1]) && pairList' == Pairs(rs[..i + 1])
    ensures og.children == oBefore + OriginMarkers(rs[..i + 1])
    ensures g.children == before + RouteFeatures(rs[..i + 1], offset)
  {
    SplitStep(rs, i, offset);
    origList' := PlotOrigin(rs, i, rs[i], origList, og);
    pairList' := PlotRoute(rs, i, rs[i], pairList, g, offset);
  }

  lemma AppendAssoc(a: seq<Feature>, b: seq<Feature>, c: seq<Feature>)
    ensures a + b + c == a + (b + c)
  {
  }

  /** One origin marker per distinct origin code, in order of first
   *  appearance, each an airport marker for that code. */
  lemma OriginMarkersSpec(rs: seq<MapKey>)
    ensures |OriginMarkers(rs)| == |DistinctKeys(rs, OrigCode)|
    ensures forall i :: 0 <= i < |OriginMarkers(rs)| ==>
      OriginMarkers(rs)[i].AirportMarker? && OriginMarkers(rs)[i].code == DistinctKeys(rs, OrigCode)[i]
  {
    OriginMarkersCodes(rs);
    OriginsDistinct(rs);
  }

  lemma {:induction false} OriginMarkersCodes(rs: seq<MapKey>)
    ensures |OriginMarkers(rs)| == |Origins(rs)|
    ensures forall i :: 0 <= i < |OriginMarkers(rs)| ==>
      OriginMarkers(rs)[i].AirportMarker? && OriginMarkers(rs)[i].code == Origins(rs)[i]
  {
    if rs != [] {
      OriginMarkersCodes(rs[..|rs| - 1]);
    }
  }

  lemma {:induction false} RouteFeaturesLength(rs: seq<MapKey>, offset: real)
    ensures |RouteFeatures(rs, offset)| == 2 * |rs|
  {
    if rs != [] {
      RouteFeaturesLength(rs[..|rs| - 1], offset);
    }
  }

  /** Route `i` adds a line from its origin to its destination and a
   *  midpoint marker shifted as the routes before it decide. */
  lemma {:induction false} RouteFeaturesAt(rs: seq<MapKey>, offset: real, i: nat)
    requires i < |rs|
    ensures |RouteFeatures(rs, offset)| == 2 * |rs|
    ensures RouteFeatures(rs, offset)[2 * i] == Line(rs[i].origLat, rs[i].origLon, rs[i].destLat, rs[i].destLon)
    ensures RouteFeatures(rs, offset)[2 * i + 1]
         == RouteMarker(Midpoint(rs[i]).0, Midpoint(rs[i]).1 + Offset(rs[..i], rs[i], offset))
  {
    RouteFeaturesLength(rs, offset);
    var n := |rs| - 1;
    var prefix := rs[..n];
    RouteFeaturesLength(prefix, offset);
    if i < n {
      RouteFeaturesAt(prefix, offset, i);
      assert prefix[i] == rs[i] && prefix[..i] == rs[..i];
    }
  }

  /** The same two airports, in the same or the opposite direction. */
  predicate SameOrReturn(a: MapKey, b: MapKey) {
    (a.origName == b.origName && a.destName == b.destName) ||
    (a.origName == b.destName && a.destName == b.origName)
  }

  lemma PairSame(a: MapKey, b: MapKey)
    ensures Pair(a) == Pair(b) <==> SameOrReturn(a, b)
  {
    if Pair(a) == Pair(b) {
      assert a.origName in Pair(b) && a.destName in Pair(b);
      assert b.origName in Pair(a) && b.destName in Pair(a);
    }
  }

  /** The midpoint marker of a route is shifted exactly when an earlier
   *  route of the layer joined the same two airports, in either direction. */
  lemma OffsetSpec(seen: seq<MapKey>, r: MapKey, offset: real)
    ensures Offset(seen, r, offset) == if exists j :: 0 <= j < |seen| && SameOrReturn(seen[j], r) then offset else 0.0
  {
    PairsSpec(seen);
    var ps := MapSeq(seen, Pair);
    if Pair(r) in ps {
      var j :| 0 <= j < |ps| && ps[j] == Pair(r);
      PairSame(seen[j], r);
    } else {
      forall j | 0 <= j < |seen|
        ensures !SameOrReturn(seen[j], r)
      {
        assert ps[j] in ps;
        PairSame(seen[j], r);
      }
    }
  }

  predicate IsAirportMarker(f: Feature) { f.AirportMarker? }
  predicate NotAirportMarker(f: Feature) { !f.AirportMarker? }

  /** A step of the first loop, filtered: what passes the filter from the
   *  origin step and from the route step. */
  lemma WhereStep(before: seq<Feature>, o: seq<Feature>, s: seq<Feature>, p: Feature -> bool)
    ensures Where(before + o + s, p) == Where(before, p) + Where(o, p) + Where(s, p)
  {
    WhereAppend(before + o, s, p);
    WhereAppend(before, o, p);
  }

  /** An origin step adds only airport markers, a route step none. */
  lemma StepKinds(seen: seq<MapKey>, r: MapKey, offset: real)
    ensures Where(OriginStep(seen, r), IsAirportMarker) == OriginStep(seen, r)
    ensures Where(OriginStep(seen, r), NotAirportMarker) == []
    ensures Where(RouteStep(seen, r, offset), IsAirportMarker) == []
    ensures Where(RouteStep(seen, r, offset), NotAirportMarker) == RouteStep(seen, r, offset)
  {
    var o, s := OriginStep(seen, r), RouteStep(seen, r, offset);
    assert forall f :: f in o ==> f.AirportMarker?;
    assert forall f :: f in s ==> !f.AirportMarker?;
    WhereAll(o, IsAirportMarker);
    NoneKept(o, NotAirportMarker);
    NoneKept(s, IsAirportMarker);
    WhereAll(s, NotAirportMarker);
  }

  /** When a layer's first loop writes to one group, its airport markers are
   *  exactly the origin markers, in order. */
  lemma {:induction false} FirstPassOrigins(rs: seq<MapKey>, offset: real)
    ensures Where(FirstPass(rs, offset), IsAirportMarker) == OriginMarkers(rs)
  {
    if rs != [] {
      var prefix, r := rs[..|rs| - 1], rs[|rs| - 1];
      FirstPassOrigins(prefix, offset);
      WhereStep(FirstPass(prefix, offset), OriginStep(prefix, r), RouteStep(prefix, r, offset), IsAirportMarker);
      StepKinds(prefix, r, offset);
    }
  }

  /** ... and its other features are exactly the lines and midpoint markers,
   *  in order. */
  lemma {:induction false} FirstPassRoutes(rs: seq<MapKey>, offset: real)
    ensures Where(FirstPass(rs, offset), NotAirportMarker) == RouteFeatures(rs, offset)
  {
    if rs != [] {
      var prefix, r := rs[..|rs| - 1], rs[|rs| - 1];
      FirstPassRoutes(prefix, offset);
      WhereStep(FirstPass(prefix, offset), OriginStep(prefix, r), RouteStep(prefix, r, offset), NotAirportMarker);
      StepKinds(prefix, r, offset);
    }
  }

  lemma NoneKept(xs: seq<Feature>, p: Feature -> bool)
    requires forall x :: x in xs ==> !p(x)
    ensures Where(xs, p) == []
  {
    if Where(xs, p) != [] {
      assert Where(xs, p)[0] in Where(xs, p);
    }
  }

  /** The airport markers for code `c` among some features. */
  function CountCode(fs: seq<Feature>, c: string): (n: nat)
    ensures n <= |fs|
  {
    if fs == [] then 0 else (if fs[0].AirportMarker? && fs[0].code == c then 1 else 0) + CountCode(fs[1..], c)
  }

  /** The routes ending at code `c`. */
  function CountDest(rs: seq<MapKey>, c: string): (n: nat)
    ensures n <= |rs|
  {
    if rs == [] then 0 else (if rs[0].destCode == c then 1 else 0) + CountDest(rs[1..], c)
  }

  /** A destination that is not an origin of the layer gets one marker per
   *  route ending there; an origin gets none from the second loop. */
  lemma {:induction false} DestMarkerCount(rs: seq<MapKey>, origins: seq<string>, c: string)
    ensures CountCode(DestMarkers(rs, origins), c) == if c in origins then 0 else CountDest(rs, c)
  {
    if rs != [] {
      DestMarkerCount(rs[1..], origins, c);
      var head := if rs[0].destCode in origins then [] else [DestMarker(rs[0])];
      CountCodeAppend(head, DestMarkers(rs[1..], origins), c);
    }
  }

  lemma {:induction false} CountCodeAppend(a: seq<Feature>, b: seq<Feature>, c: string)
    ensures CountCode(a + b, c) == CountCode(a, c) + CountCode(b, c)
  {
    if a != [] {
      assert (a + b)[0] == a[0] && (a + b)[1..] == a[1..] + b;
      CountCodeAppend(a[1..], b, c);
    } else {
      assert a + b == b;
    }
  }

  /** The US part of the airport table. */
  predicate InUSA(a: Airport) { a.country == "United States" }

  /** `airports_usa.loc[airports_usa['name'] == name].values[0]`: the first
   *  airport of that name, or none (where the source raises an error). */
  function FindByName(us: seq<Airport>, name: string): (r: Option<Airport>)
    ensures r.Some? ==> r.value in us && r.value.name == name
  {
    if us == [] then None
    else if us[0].name == name then Some(us[0])
    else FindByName(us[1..], name)
  }

  /** The lookup finds an airport of that name exactly when there is one,
   *  and the first of them. */
  lemma {:induction false} FindByNameSpec(us: seq<Airport>, name: string)
    ensures FindByName(us, name).Some? <==> exists i :: 0 <= i < |us| && us[i].name == name
    ensures FindByName(us, name).Some? ==>
      exists i :: (0 <= i < |us| && us[i] == FindByName(us, name).value
        && us[i].name == name && forall j :: 0 <= j < i ==> us[j].name != name)
  {
    if us != [] && us[0].name != name {
      FindByNameSpec(us[1..], name);
      if FindByName(us, name).Some? {
        var i :| 0 <= i < |us[1..]| && us[1..][i] == FindByName(us, name).value
          && us[1..][i].name == name && forall j :: 0 <= j < i ==> us[1..][j].name != name;
        assert us[i + 1] == us[1..][i];
        forall j | 0 <= j < i + 1 ensures us[j].name != name {
          if j > 0 { assert us[j] == us[1..][j - 1]; }
        }
      } else {
        forall i | 0 <= i < |us| ensures us[i].name != name {
          if i > 0 { assert us[i] == us[1..][i - 1]; }
        }
      }
    }
  }

  /** An airport found in the US part of the airport table is a US airport
   *  of the table with the name looked for. */
  lemma FoundInUSA(airports: seq<Airport>, name: string)
    requires FindByName(Where(airports, InUSA), name).Some?
    ensures var a := FindByName(Where(airports, InUSA), name).value;
      a in airports && a.country == "United States" && a.name == name
  {
    var us := Where(airports, InUSA);
    FindByNameSpec(us, name);
    var i :| 0 <= i < |us| && us[i] == FindByName(us, name).value && us[i].name == name;
    assert us[i] in us;
  }

  predicate Resolvable(s: Station, us: seq<Airport>) {
    FindByName(us, s.a1Name).Some? && FindByName(us, s.a2Name).Some?
  }

  /** `a_list`: the names of the nearest airports of the stations so far. */
  function NearestNames(ss: seq<Station>): seq<string>
  {
    if ss == [] then [] else NearestNames(ss[..|ss| - 1]) + [ss[|ss| - 1].a1Name, ss[|ss| - 1].a2Name]
  }

  /** What one station adds after stations whose nearest airports are `seen`. */
  function StationStep(seen: seq<string>, s: Station, a1: Airport, a2: Airport): seq<Feature>
  {
    [StationMarker(s.lat, s.lon), Line(s.lat, s.lon, a1.lat, a1.lon), Line(s.lat, s.lon, a2.lat, a2.lon)]
    + (if s.a1Name in seen then [] else [AirportMarker(s.a1Code, s.a1Name, a1.lat, a1.lon)])
    + (if s.a2Name in seen then [] else [AirportMarker(s.a2Code, s.a2Name, a2.lat, a2.lon)])
  }

  /** A station layer whose airports are all found. */
  function StationLayer(ss: seq<Station>, us: seq<Airport>): seq<Feature>
    requires forall i :: 0 <= i < |ss| ==> Resolvable(ss[i], us)
  {
    if ss == [] then []
    else
      var prefix, s := ss[..|ss| - 1], ss[|ss| - 1];
      assert Resolvable(ss[|ss| - 1], us);
      StationLayer(prefix, us) + StationStep(NearestNames(prefix), s, FindByName(us, s.a1Name).value, FindByName(us, s.a2Name).value)
  }

  /** One more station of the station loop, in each of its views. */
  lemma StationPrefix(ss: seq<Station>, i: nat, us: seq<Airport>)
    requires i < |ss|
    requires forall k :: 0 <= k <= i ==> Resolvable(ss[k], us)
    ensures StationLayer(ss[..i + 1], us) == StationLayer(ss[..i], us)
      + StationStep(NearestNames(ss[..i]), ss[i], FindByName(us, ss[i].a1Name).value, FindByName(us, ss[i].a2Name).value)
  {
    assert ss[..i + 1][..i] == ss[..i];
  }

  /** Draw one station whose nearest airports `a1` and `a2` were found:
   *  the station, its two lines, and the airports not named in `seen`. */
  method DrawStation(s: Station, a1: Airport, a2: Airport, seen: seq<string>, g: FeatureGroup)
    modifies g
    ensures g.children == old(g.children) + StationStep(seen, s, a1, a2)
  {
    g.AddChild(StationMarker(s.lat, s.lon));
    g.AddChild(Line(s.lat, s.lon, a1.lat, a1.lon));
    g.AddChild(Line(s.lat, s.lon, a2.lat, a2.lon));
    if s.a1Name !in seen {
      g.AddChild(AirportMarker(s.a1Code, s.a1Name, a1.lat, a1.lon));
    }
    if s.a2Name !in seen {
      g.AddChild(AirportMarker(s.a2Code, s.a2Name, a2.lat, a2.lon));
    }
  }

  lemma NearestNamesStep(ss: seq<Station>, i: nat)
    requires i < |ss|
    ensures NearestNames(ss[..i + 1]) == NearestNames(ss[..i]) + [ss[i].a1Name, ss[i].a2Name]
  {
    assert ss[..i + 1][..i] == ss[..i];
  }

  /** The body of the station loop for station `ss[i]`: look up its two
   *  nearest airports by name and, when both are found, draw it. */
  method PlotStation(ss: seq<Station>, i: nat, us: seq<Airport>, aList: seq<string>, g: FeatureGroup,
                     ghost before: seq<Feature>) returns (found: bool, aList': seq<string>)
    requires i < |ss| && forall k :: 0 <= k < i ==> Resolvable(ss[k], us)
    requires aList == NearestNames(ss[..i]) && g.children == before + StationLayer(ss[..i], us)
    modifies g
    ensures found <==> Resolvable(ss[i], us)
    ensures !found ==> g.children == old(g.children)
    ensures found ==> forall k :: 0 <= k < i + 1 ==> Resolvable(ss[k], us)
    ensures found ==> aList' == NearestNames(ss[..i + 1]) && g.children == before + StationLayer(ss[..i + 1], us)
  {
    var a1 := FindByName(us, ss[i].a1Name);
    var a2 := FindByName(us, ss[i].a2Name);
    if a1.None? || a2.None? {
      return false, aList;
    }
    aList' := PlotResolved(ss, i, us, aList, g, before);
    found := true;
  }

  /** The drawing part of one station iteration, once both airports are found. */
  method PlotResolved(ss: seq<Station>, i: nat, us: seq<Airport>, aList: seq<string>, g: FeatureGroup,
                      ghost before: seq<Feature>) returns (aList': seq<string>)
    requires i < |ss| && forall k :: 0 <= k < i + 1 ==> Resolvable(ss[k], us)
    requires aList == NearestNames(ss[..i]) && g.children == before + StationLayer(ss[..i], us)
    modifies g
    ensures aList' == NearestNames(ss[..i + 1]) && g.children == before + StationLayer(ss[..i + 1], us)
  {
    DrawStation(ss[i], FindByName(us, ss[i].a1Name).value, FindByName(us, ss[i].a2Name).value, aList, g);
    StationPrefix(ss, i, us);
    NearestNamesStep(ss, i);
    aList' := aList + [ss[i].a1Name, ss[i].a2Name];
  }

  /** The station loop. It stops at the first station one of whose nearest
   *  airports is not in the US table, where the source raises an error;
   *  `plotted` counts the stations drawn. */
  method PlotStationLayer(ss: seq<Station>, us: seq<Airport>, g: FeatureGroup) returns (ok: bool, plotted: nat)
    modifies g
    ensures plotted <= |ss|
    ensures forall i :: 0 <= i < plotted ==> Resolvable(ss[i], us)
    ensures ok <==> plotted == |ss|
    ensures !ok ==> !Resolvable(ss[plotted], us)
    ensures g.children == old(g.children) + StationLayer(ss[..plotted], us)
  {
    var aList: seq<string> := [];
    var i := 0;
    while i < |ss|
      invariant 0 <= i <= |ss|
      invariant forall k :: 0 <= k < i ==> Resolvable(ss[k], us)
      invariant aList == NearestNames(ss[..i])
      invariant g.children == old(g.children) + StationLayer(ss[..i], us)
    {
      var found;
      found, aList := PlotStation(ss, i, us, aList, g, old(g.children));
      if !found {
        return false, i;
      }
      i := i + 1;
    }
    assert ss[..i] == ss;
    return true, i;
  }

  /** The names of the airport markers among some features. */
  function AirportNames(fs: seq<Feature>): seq<string>
  {
    if fs == [] then [] else (if fs[0].AirportMarker? then [fs[0].name] else []) + AirportNames(fs[1..])
  }

  lemma {:induction false} AirportNamesAppend(a: seq<Feature>, b: seq<Feature>)
    ensures AirportNames(a + b) == AirportNames(a) + AirportNames(b)
  {
    if a != [] {
      assert (a + b)[0] == a[0] && (a + b)[1..] == a[1..] + b;
      AirportNamesAppend(a[1..], b);
    } else {
      assert a + b == b;
    }
  }

  lemma {:induction false} NoAirportNames(fs: seq<Feature>)
    requires forall i :: 0 <= i < |fs| ==> !fs[i].AirportMarker?
    ensures AirportNames(fs) == []
  {
    if fs != [] {
      NoAirportNames(fs[1..]);
    }
  }

  /** A station adds markers for those of its two nearest airports not named
   *  before, in order. */
  lemma StepNames(seen: seq<string>, s: Station, a1: Airport, a2: Airport)
    ensures AirportNames(StationStep(seen, s, a1, a2))
         == (if s.a1Name in seen then [] else [s.a1Name]) + (if s.a2Name in seen then [] else [s.a2Name])
  {
    var fixed := [StationMarker(s.lat, s.lon), Line(s.lat, s.lon, a1.lat, a1.lon), Line(s.lat, s.lon, a2.lat, a2.lon)];
    var m1 := if s.a1Name in seen then [] else [AirportMarker(s.a1Code, s.a1Name, a1.lat, a1.lon)];
    var m2 := if s.a2Name in seen then [] else [AirportMarker(s.a2Code, s.a2Name, a2.lat, a2.lon)];
    AirportNamesAppend(fixed + m1, m2);
    AirportNamesAppend(fixed, m1);
    NoAirportNames(fixed);
    assert AirportNames(m1) == if s.a1Name in seen then [] else [s.a1Name];
    assert AirportNames(m2) == if s.a2Name in seen then [] else [s.a2Name];
  }

  lemma StationLayerNames(ss: seq<Station>, us: seq<Airport>)
    requires ss != []
    requires forall i :: 0 <= i < |ss| ==> Resolvable(ss[i], us)
    ensures var prefix, s := ss[..|ss| - 1], ss[|ss| - 1];
      AirportNames(StationLayer(ss, us)) == AirportNames(StationLayer(prefix, us))
        + (if s.a1Name in NearestNames(prefix) then [] else [s.a1Name])
        + (if s.a2Name in NearestNames(prefix) then [] else [s.a2Name])
  {
    var prefix, s := ss[..|ss| - 1], ss[|ss| - 1];
    var step := StationStep(NearestNames(prefix), s, FindByName(us, s.a1Name).value, FindByName(us, s.a2Name).value);
    AirportNamesAppend(StationLayer(prefix, us), step);
    StepNames(NearestNames(prefix), s, FindByName(us, s.a1Name).value, FindByName(us, s.a2Name).value);
  }

  /** Every nearest airport of a station layer gets a marker, and only those. */
  lemma {:induction false} StationAirportMarked(ss: seq<Station>, us: seq<Airport>, n: string)
    requires forall i :: 0 <= i < |ss| ==> Resolvable(ss[i], us)
    ensures n in AirportNames(StationLayer(ss, us)) <==> n in NearestNames(ss)
  {
    if ss != [] {
      StationAirportMarked(ss[..|ss| - 1], us, n);
      StationLayerNames(ss, us);
    }
  }

  /** When no station has the same airport as both of its nearest airports,
   *  no airport of a station layer gets two markers. */
  lemma {:induction false} StationAirportsOnce(ss: seq<Station>, us: seq<Airport>)
    requires forall i :: 0 <= i < |ss| ==> Resolvable(ss[i], us)
    requires forall i :: 0 <= i < |ss| ==> ss[i].a1Name != ss[i].a2Name
    ensures NoDup(AirportNames(StationLayer(ss, us)))
  {
    if ss != [] {
      var prefix, s := ss[..|ss| - 1], ss[|ss| - 1];
      StationAirportsOnce(prefix, us);
      StationLayerNames(ss, us);
      var before := AirportNames(StationLayer(prefix, us));
      var names := AirportNames(StationLayer(ss, us));
      forall i, j | 0 <= i < j < |names|
        ensures names[i] != names[j]
      {
        if i < |before| <= j {
          StationAirportMarked(prefix, us, names[i]);
        }
      }
    }
  }

  /** The names of the ten layers, in the order they are created. */
  const LayerNames: seq<string> := [
    "Airline Delays (top 20 routes)", "Aircraft Occupancy (top 20 routes)",
    "First/Business Class (top 20 routes)", "Stopovers (top 20 routes)",
    "Amtrak Stations and Nearest Airports", "Amtrak Delays (top 20 stations)",
    "Airline Delays & Occupancy (in top 40 of each)", "Airline Delays & First/Business (in top 40 of each)",
    "Occupancy & First/Business (in top 40 of each)",
    "Airline Delays & Occupancy & First/Business (in top 40 of each)"]

  function DelayClassKey(p: (Annotated<D.DelayRoute>, C.ClassRoute)): MapKey { DelayKey(p.0) }
  function OccClassKey(p: (Annotated<O.OccupancyRoute>, C.ClassRoute)): MapKey { OccKey(p.0) }
  function TripleKey(p: ((Annotated<D.DelayRoute>, Annotated<O.OccupancyRoute>), C.ClassRoute)): MapKey { DelayKey(p.0.0) }

  /** The four top-20 route layers. The delay layer's origin markers go to
   *  the occupancy group; the occupancy layer shifts repeated midpoint
   *  markers by 0.3 degrees, the others by 0.2. */
  method PlotTopLayers(delay: seq<MapKey>, occupancy: seq<MapKey>, premium: seq<MapKey>, stopover: seq<MapKey>)
    returns (g1: FeatureGroup, g2: FeatureGroup, g3: FeatureGroup, g4: FeatureGroup)
    ensures fresh(g1) && fresh(g2) && fresh(g3) && fresh(g4)
    ensures g1.name == LayerNames[0] && g2.name == LayerNames[1] && g3.name == LayerNames[2] && g4.name == LayerNames[3]
    ensures g1.children == RouteFeatures(delay, 0.2) + DestMarkers(delay, Origins(delay))
    ensures g2.children == OriginMarkers(delay) + Layer(occupancy, 0.3)
    ensures g3.children == Layer(premium, 0.2)
    ensures g4.children == Layer(stopover, 0.2)
  {
    g1 := new FeatureGroup(LayerNames[0]);
    g2 := new FeatureGroup(LayerNames[1]);
    PlotSplitLayer(delay, g1, g2, 0.2);
    assert g1.children == RouteFeatures(delay, 0.2) + DestMarkers(delay, Origins(delay));
    assert g2.children == OriginMarkers(delay);
    PlotRouteLayer(occupancy, g2, 0.3);
    g3 := new FeatureGroup(LayerNames[2]);
    PlotRouteLayer(premium, g3, 0.2);
    g4 := new FeatureGroup(LayerNames[3]);
    PlotRouteLayer(stopover, g4, 0.2);
  }

  /** The two station layers: every station, then the twenty most delayed;
   *  drawing stops at the first station whose airports are not found. */
  method PlotStationLayers(stations: seq<Station>, stations20: seq<Station>, us: seq<Airport>)
    returns (g5: FeatureGroup, g6: FeatureGroup, ok: bool)
    ensures fresh(g5) && fresh(g6)
    ensures g5.name == LayerNames[4] && g6.name == LayerNames[5]
    ensures ok <==> (forall s :: s in stations ==> Resolvable(s, us)) && (forall s :: s in stations20 ==> Resolvable(s, us))
    ensures ok ==> g5.children == StationLayer(stations, us) && g6.children == StationLayer(stations20, us)
  {
    g5 := new FeatureGroup(LayerNames[4]);
    g6 := new FeatureGroup(LayerNames[5]);
    var ok5, n5 := PlotStationLayer(stations, us, g5);
    if !ok5 {
      assert stations[n5] in stations;
      return g5, g6, false;
    }
    assert stations[..n5] == stations;
    var ok6, n6 := PlotStationLayer(stations20, us, g6);
    if !ok6 {
      assert stations20[n6] in stations20;
      return g5, g6, false;
    }
    assert stations20[..n6] == stations20;
    ok := true;
    forall s | s in stations ensures Resolvable(s, us) {
      var k :| 0 <= k < |stations| && stations[k] == s;
    }
    forall s | s in stations20 ensures Resolvable(s, us) {
      var k :| 0 <= k < |stations20| && stations20[k] == s;
    }
  }

  /** The four overlap layers. */
  method PlotOverlapLayers(delayOcc: seq<MapKey>, delayClass: seq<MapKey>, occClass: seq<MapKey>, all: seq<MapKey>)
    returns (g7: FeatureGroup, g8: FeatureGroup, g9: FeatureGroup, g10: FeatureGroup)
    ensures fresh(g7) && fresh(g8) && fresh(g9) && fresh(g10)
    ensures g7.name == LayerNames[6] && g8.name == LayerNames[7] && g9.name == LayerNames[8] && g10.name == LayerNames[9]
    ensures g7.children == Layer(delayOcc, 0.2)
    ensures g8.children == Layer(delayClass, 0.2)
    ensures g9.children == Layer(occClass, 0.2)
    ensures g10.children == Layer(all, 0.2)
  {
    g7 := new FeatureGroup(LayerNames[6]);
    PlotRouteLayer(delayOcc, g7, 0.2);
    g8 := new FeatureGroup(LayerNames[7]);
    PlotRouteLayer(delayClass, g8, 0.2);
    g9 := new FeatureGroup(LayerNames[8]);
    PlotRouteLayer(occClass, g9, 0.2);
    g10 := new FeatureGroup(LayerNames[9]);
    PlotRouteLayer(all, g10, 0.2);
  }

  /** The route lists of the eight route layers, in layer order. */
  function RouteLists(sel: Selection): (ls: seq<seq<MapKey>>)
    ensures |ls| == 8
  {
    [MapSeq(sel.delay20, DelayKey), MapSeq(sel.occupancy20, OccKey), MapSeq(sel.class20, ClassKey),
     MapSeq(sel.stopover20, StopKey), MapSeq(sel.delayOcc, D2Key), MapSeq(sel.delayClass, DelayClassKey),
     MapSeq(sel.occClass, OccClassKey), MapSeq(sel.delayOccClass, TripleKey)]
  }

  /** Draws the ten layers in order, looking station airports up in the US
   *  part of the airport table. When a station's airport is not found the
   *  source stops with an error; here `ok` is false and the overlap layers
   *  stay empty. */
  method RenderMap(sel: Selection, airports: seq<Airport>)
    returns (g1: FeatureGroup, g2: FeatureGroup, g3: FeatureGroup, g4: FeatureGroup, g5: FeatureGroup,
             g6: FeatureGroup, g7: FeatureGroup, g8: FeatureGroup, g9: FeatureGroup, g10: FeatureGroup, ok: bool)
    ensures g1.name == LayerNames[0] && g2.name == LayerNames[1] && g3.name == LayerNames[2] && g4.name == LayerNames[3]
    ensures g5.name == LayerNames[4] && g6.name == LayerNames[5]
    ensures g7.name == LayerNames[6] && g8.name == LayerNames[7] && g9.name == LayerNames[8] && g10.name == LayerNames[9]
    ensures ok <==> (forall s :: s in sel.stations ==> Resolvable(s, Where(airports, InUSA))) && (forall s :: s in sel.stations20 ==> Resolvable(s, Where(airports, InUSA)))
    ensures g1.children == RouteFeatures(RouteLists(sel)[0], 0.2) + DestMarkers(RouteLists(sel)[0], Origins(RouteLists(sel)[0]))
    ensures g2.children == OriginMarkers(RouteLists(sel)[0]) + Layer(RouteLists(sel)[1], 0.3)
    ensures g3.children == Layer(RouteLists(sel)[2], 0.2)
    ensures g4.children == Layer(RouteLists(sel)[3], 0.2)
    ensures ok ==> g5.children == StationLayer(sel.stations, Where(airports, InUSA))
    ensures ok ==> g6.children == StationLayer(sel.stations20, Where(airports, InUSA))
    ensures ok ==> g7.children == Layer(RouteLists(sel)[4], 0.2)
    ensures ok ==> g8.children == Layer(RouteLists(sel)[5], 0.2)
    ensures ok ==> g9.children == Layer(RouteLists(sel)[6], 0.2)
    ensures ok ==> g10.children == Layer(RouteLists(sel)[7], 0.2)
  {
    var us := Where(airports, InUSA);
    var ls := RouteLists(sel);
    g1, g2, g3, g4 := PlotTopLayers(ls[0], ls[1], ls[2], ls[3]);
    g5, g6, ok := PlotStationLayers(sel.stations, sel.stations20, us);
    if ok {
      g7, g8, g9, g10 := PlotOverlapLayers(ls[4], ls[5], ls[6], ls[7]);
    } else {
      g7 := new FeatureGroup(LayerNames[6]);
      g8 := new FeatureGroup(LayerNames[7]);
      g9 := new FeatureGroup(LayerNames[8]);
      g10 := new FeatureGroup(LayerNames[9]);
    }
  }
}
