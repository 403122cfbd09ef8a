/**
 * The ward boundary layer of the map: GeoJSON polygons flattened into one
 * line trace per ring, coloured by ward.
 */
module Boundary {
  import opened Wrappers
  import opened Text

  /** A GeoJSON position; only its first two numbers, longitude then latitude, are read. */
  datatype Position = Position(lon: real, lat: real)

  type Ring = seq<Position>

  datatype Geometry =
    | Polygon(rings: seq<Ring>)
    | MultiPolygon(polygons: seq<seq<Ring>>)
    | OtherGeometry

  /** The coordinate arrays of one ring. */
  datatype CoordSet = CoordSet(lats: seq<real>, lons: seq<real>)

  /** The rings of a polygon list, polygon after polygon. */
  function Flatten(polygons: seq<seq<Ring>>): seq<Ring> {
    if polygons == [] then []
    else
      var n := |polygons| - 1;
      Flatten(polygons[..n]) + polygons[n]
  }

  /** The rings a geometry draws: those of a polygon, or of each polygon of a multipolygon in order. */
  function Rings(g: Geometry): seq<Ring> {
    match g
    case Polygon(rings) => rings
    case MultiPolygon(polygons) => Flatten(polygons)
    case OtherGeometry => []
  }

  /** Number of rings over all polygons. */
  function RingCount(polygons: seq<seq<Ring>>): nat {
    if polygons == [] then 0
    else RingCount(polygons[..|polygons| - 1]) + |polygons[|polygons| - 1]|
  }

  /** A multipolygon draws one ring per ring of each of its polygons. */
  lemma {:induction false} FlattenCount(polygons: seq<seq<Ring>>)
    ensures |Flatten(polygons)| == RingCount(polygons)
    ensures forall p, k :: 0 <= p < |polygons| && 0 <= k < |polygons[p]| ==> polygons[p][k] in Flatten(polygons)
  {
    if polygons != [] {
      var n := |polygons| - 1;
      FlattenCount(polygons[..n]);
      forall p, k | 0 <= p < |polygons| && 0 <= k < |polygons[p]|
        ensures polygons[p][k] in Flatten(polygons)
      {
        if p < n {
          assert polygons[..n][p] == polygons[p];
          assert polygons[p][k] in Flatten(polygons[..n]);
        } else {
          assert Flatten(polygons)[|Flatten(polygons[..n])| + k] == polygons[p][k];
        }
      }
    }
  }

  /** The coordinate arrays of `ring`, longitudes and latitudes position by position. */
  function CoordsOf(ring: Ring): (c: CoordSet)
    ensures |c.lons| == |c.lats| == |ring|
    ensures forall i :: 0 <= i < |ring| ==> c.lons[i] == ring[i].lon && c.lats[i] == ring[i].lat
  {
    CoordSet(seq(|ring|, i requires 0 <= i < |ring| => ring[i].lat), seq(|ring|, i requires 0 <= i < |ring| => ring[i].lon))
  }

  /** The coordinate sets of some rings, ring by ring. */
  function Coords(rings: seq<Ring>): (r: seq<CoordSet>)
    ensures |r| == |rings|
    ensures forall i :: 0 <= i < |rings| ==> r[i] == CoordsOf(rings[i])
  {
    seq(|rings|, i requires 0 <= i < |rings| => CoordsOf(rings[i]))
  }

  lemma CoordsAppend(a: seq<Ring>, b: seq<Ring>)
    ensures Coords(a + b) == Coords(a) + Coords(b)
  {
    assert forall i :: 0 <= i < |b| ==> (a + b)[|a| + i] == b[i];
  }

  /** The coordinate sets of a geometry, one per ring it draws. */
  function CoordSets(g: Geometry): seq<CoordSet> {
    Coords(Rings(g))
  }

  /** `ring => coordSets.push(...)` over the rings of one polygon. */
  method PushRings(result: seq<CoordSet>, rings: seq<Ring>) returns (pushed: seq<CoordSet>)
    ensures pushed == result + Coords(rings)
  {
    pushed := result;
    var r := 0;
    while r < |rings|
      invariant 0 <= r <= |rings|
      invariant pushed == result + Coords(rings[..r])
    {
      var ring := rings[r];
      var lons := seq(|ring|, i requires 0 <= i < |ring| => ring[i].lon);
      var lats := seq(|ring|, i requires 0 <= i < |ring| => ring[i].lat);
      assert rings[..r + 1] == rings[..r] + [ring];
      CoordsAppend(rings[..r], [ring]);
      pushed := pushed + [CoordSet(lats, lons)];
      r := r + 1;
    }
    assert rings[..r] == rings;
  }

  /**
   * `extractCoordinates`: pushes the coordinate arrays of each ring of a
   * polygon, or of each ring of each polygon of a multipolygon.
   */
  method ExtractCoordinates(g: Geometry) returns (result: seq<CoordSet>)
    ensures result == CoordSets(g)
  {
    result := [];
    match g {
      case Polygon(rings) =>
        result := PushRings(result, rings);
      case MultiPolygon(polygons) =>
        var p := 0;
        while p < |polygons|
          invariant 0 <= p <= |polygons|
          invariant result == Coords(Flatten(polygons[..p]))
        {
          assert Flatten(polygons[..p + 1]) == Flatten(polygons[..p]) + polygons[p] by {
            assert polygons[..p + 1][..p] == polygons[..p];
          }
          CoordsAppend(Flatten(polygons[..p]), polygons[p]);
          result := PushRings(result, polygons[p]);
          p := p + 1;
        }
        assert polygons[..p] == polygons;
      case OtherGeometry =>
    }
  }

  /** A feature's `WARD` and `NAME` properties, when it has properties. */
  datatype Properties = Properties(ward: Option<string>, name: Option<string>)

  datatype Feature = Feature(properties: Option<Properties>, geometry: Geometry)

  datatype GeoJson =
    | FeatureCollection(features: seq<Feature>)
    | OtherGeoJson

  const WARD7_COLOR := "#2563eb"
  const WARD8_COLOR := "#7c3aed"

  /** `WARD || NAME.replace('Ward ', '')`: an empty or missing `WARD` falls back to the name. */
  function WardOf(f: Feature): Option<string> {
    if f.properties.None? then None
    else if f.properties.value.ward.Some? && f.properties.value.ward.value != "" then f.properties.value.ward
    else if f.properties.value.name.Some? then Some(ReplaceFirst(f.properties.value.name.value, "Ward ", ""))
    else None
  }

  /** Ward 7 when the ward is exactly "7" or mentions a 7. */
  predicate IsWard7(ward: Option<string>) {
    ward == Some("7") || (ward.Some? && Contains(ward.value, "7"))
  }

  function WardColor(ward: Option<string>): (r: string)
    ensures r == WARD7_COLOR <==> IsWard7(ward)
    ensures r == WARD8_COLOR <==> !IsWard7(ward)
  {
    if IsWard7(ward) then WARD7_COLOR else WARD8_COLOR
  }

  /** The ward as the template literal renders it; a missing one reads "undefined". */
  function WardText(ward: Option<string>): string {
    if ward.Some? then ward.value else "undefined"
  }

  /** One outline trace: the ring's arrays, the ward's colour, its translucent fill and its name. */
  datatype LineTrace = LineTrace(lat: seq<real>, lon: seq<real>, color: string, fillcolor: string, name: string)

  function TraceOf(ward: Option<string>, c: CoordSet): LineTrace {
    var color := WardColor(ward);
    LineTrace(c.lats, c.lons, color, color + "1A", "Ward " + WardText(ward))
  }

  function FeatureTraces(f: Feature): seq<LineTrace> {
    var sets := CoordSets(f.geometry);
    seq(|sets|, i requires 0 <= i < |sets| => TraceOf(WardOf(f), sets[i]))
  }

  /** The traces of the features, feature after feature. */
  function AllTraces(features: seq<Feature>): seq<LineTrace> {
    if features == [] then []
    else
      var n := |features| - 1;
      AllTraces(features[..n]) + FeatureTraces(features[n])
  }

  /** What `createWardBoundaryTraces` returns: nothing unless visible and given a feature collection. */
  function BoundaryTraces(geojson: Option<GeoJson>, visible: bool): seq<LineTrace> {
    if !visible || geojson.None? || !geojson.value.FeatureCollection? then []
    else AllTraces(geojson.value.features)
  }

  /** The inner loop of `createWardBoundaryTraces`: one trace per coordinate set of a feature. */
  method TracesOfFeature(feature: Feature) returns (added: seq<LineTrace>)
    ensures added == FeatureTraces(feature)
  {
    var ward := WardOf(feature);
    var color := if IsWard7(ward) then WARD7_COLOR else WARD8_COLOR;
    var coordSets := ExtractCoordinates(feature.geometry);
    added := [];
    var j := 0;
    while j < |coordSets|
      invariant 0 <= j <= |coordSets|
      invariant |added| == j
      invariant forall i :: 0 <= i < j ==> added[i] == TraceOf(ward, coordSets[i])
    {
      var c := coordSets[j];
      added := added + [LineTrace(c.lats, c.lons, color, color + "1A", "Ward " + WardText(ward))];
      j := j + 1;
    }
  }

  /** `createWardBoundaryTraces`: one trace per ring of each feature, in order. */
  method CreateWardBoundaryTraces(geojson: Option<GeoJson>, visible: bool) returns (traces: seq<LineTrace>)
    ensures traces == BoundaryTraces(geojson, visible)
  {
    if !visible || geojson.None? {
      return [];
    }
    traces := [];
    if geojson.value.FeatureCollection? {
      var features := geojson.value.features;
      var k := 0;
      while k < |features|
        invariant 0 <= k <= |features|
        invariant traces == AllTraces(features[..k])
      {
        assert features[..k + 1][..k] == features[..k];
        var added := TracesOfFeature(features[k]);
        traces := traces + added;
        k := k + 1;
      }
      assert features[..k] == features;
    }
  }

  /** Number of rings over all features. */
  function TotalRings(features: seq<Feature>): nat {
    if features == [] then 0
    else TotalRings(features[..|features| - 1]) + |Rings(features[|features| - 1].geometry)|
  }

  /**
   * There is one trace per ring over all features, and every trace carries
   * the colour and name of the ward of some feature.
   */
  lemma {:induction false} AllTracesSpec(features: seq<Feature>)
    ensures |AllTraces(features)| == TotalRings(features)
    ensures forall t :: t in AllTraces(features) ==>
      exists k :: 0 <= k < |features| && t.color == WardColor(WardOf(features[k]))
                  && t.name == "Ward " + WardText(WardOf(features[k]))
  {
    if features != [] {
      var n := |features| - 1;
      AllTracesSpec(features[..n]);
      forall t | t in AllTraces(features)
        ensures exists k :: 0 <= k < |features| && t.color == WardColor(WardOf(features[k]))
                            && t.name == "Ward " + WardText(WardOf(features[k]))
      {
        if t in AllTraces(features[..n]) {
          var k :| 0 <= k < n && t.color == WardColor(WardOf(features[..n][k]))
                   && t.name == "Ward " + WardText(WardOf(features[..n][k]));
          assert features[..n][k] == features[k];
        } else {
          assert t in FeatureTraces(features[n]);
        }
      }
    }
  }
}
