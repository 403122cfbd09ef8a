/**
 * The SNAP retailer layer of the map: its own store-type colour table,
 * searched first-match in declaration order, and the marker arrays of the
 * retailers that have coordinates.
 */
module SnapLayer {
  import opened Wrappers
  import opened Text
  import opened Grouping
  import opened Snap

  /** `STORE_TYPE_COLORS`: upper-case store types and their colours, in declaration order. */
  const STORE_TYPE_COLORS: seq<(string, string)> := [
    ("SUPER MARKET", "#22c55e"),
    ("SUPERMARKET", "#22c55e"),
    ("LARGE GROCERY STORE", "#16a34a"),
    ("MEDIUM GROCERY STORE", "#65a30d"),
    ("SMALL GROCERY STORE", "#84cc16"),
    ("CONVENIENCE STORE", "#f59e0b"),
    ("COMBINATION GROCERY/OTHER", "#eab308"),
    ("SPECIALTY FOOD STORE", "#06b6d4"),
    ("FARMERS MARKET", "#10b981"),
    ("DELIVERY ROUTE", "#8b5cf6"),
    ("MILITARY COMMISSARY", "#6366f1")
  ]

  const UNKNOWN_COLOR := "#94a3b8"

  /** A key matches when either of the two texts contains the other. */
  predicate KeyMatches(normalized: string, key: string) {
    Contains(normalized, key) || Contains(key, normalized)
  }

  /** `i` is the first entry of `table` whose key matches. */
  ghost predicate FirstKey(normalized: string, table: seq<(string, string)>, i: int) {
    0 <= i < |table| && KeyMatches(normalized, table[i].0)
    && forall j :: 0 <= j < i ==> !KeyMatches(normalized, table[j].0)
  }

  /** The colour of the first matching entry, or the colour for unknown types. */
  function FirstColor(normalized: string, table: seq<(string, string)>): (r: string)
    ensures (exists i :: FirstKey(normalized, table, i) && r == table[i].1)
         || ((forall i :: 0 <= i < |table| ==> !KeyMatches(normalized, table[i].0)) && r == UNKNOWN_COLOR)
  {
    if table == [] then UNKNOWN_COLOR
    else if KeyMatches(normalized, table[0].0) then
      assert FirstKey(normalized, table, 0);
      table[0].1
    else
      var r := FirstColor(normalized, table[1..]);
      assert forall i :: 1 <= i < |table| ==> table[i] == table[1..][i - 1];
      assert (exists i :: FirstKey(normalized, table, i) && r == table[i].1)
          || ((forall i :: 0 <= i < |table| ==> !KeyMatches(normalized, table[i].0)) && r == UNKNOWN_COLOR) by {
        if exists i :: FirstKey(normalized, table[1..], i) && r == table[1..][i].1 {
          var i :| FirstKey(normalized, table[1..], i) && r == table[1..][i].1;
          assert FirstKey(normalized, table, i + 1);
        }
      }
      r
  }

  /**
   * `getStoreTypeColor` of the map layer: the colour of the first key, in
   * declaration order, that contains the upper-cased type or is contained in
   * it; with no such key, the colour for unknown types.
   */
  function GetStoreTypeColor(storeType: string): (r: string)
    ensures (exists i :: FirstKey(Upper(storeType), STORE_TYPE_COLORS, i) && r == STORE_TYPE_COLORS[i].1)
         || ((forall i :: 0 <= i < |STORE_TYPE_COLORS| ==> !KeyMatches(Upper(storeType), STORE_TYPE_COLORS[i].0))
             && r == UNKNOWN_COLOR)
  {
    FirstColor(Upper(storeType), STORE_TYPE_COLORS)
  }

  /** Every key contains the empty text, so an empty type takes the first colour. */
  lemma EmptyTypeMatchesFirst()
    ensures GetStoreTypeColor("") == "#22c55e"
  {
    assert Upper("") == "";
    ContainsSelf(STORE_TYPE_COLORS[0].0);
  }

  /** JavaScript truthiness of both coordinates: present and nonzero. */
  predicate HasCoordinates(r: Retailer) {
    r.latitude.Some? && r.latitude.value != 0.0 && r.longitude.Some? && r.longitude.value != 0.0
  }

  /** Marker size: larger for super and large stores. */
  function MarkerSize(r: Retailer): int {
    var t := Upper(r.storeType);
    if Contains(t, "SUPER") || Contains(t, "LARGE") then 16 else 12
  }

  function HoverText(r: Retailer): string {
    "<b>" + r.storeName + "</b><br>" + r.storeType + "<br>" + r.streetNumber + " " + r.streetName
    + "<br>" + r.city + ", " + r.state + " " + r.zipCode
  }

  /** The arrays of a scatter trace, one entry per marker. */
  datatype MarkerTrace = MarkerTrace(lat: seq<real>, lon: seq<real>, color: seq<string>, size: seq<int>, hovertext: seq<string>)

  /** The marker arrays of retailers whose coordinates are all present, one entry per retailer. */
  function Markers(valid: seq<Retailer>): (t: MarkerTrace)
    requires forall i :: 0 <= i < |valid| ==> valid[i].latitude.Some? && valid[i].longitude.Some?
    ensures |t.lat| == |t.lon| == |t.color| == |t.size| == |t.hovertext| == |valid|
    ensures forall i :: 0 <= i < |valid| ==>
      && t.lat[i] == valid[i].latitude.value
      && t.lon[i] == valid[i].longitude.value
      && t.color[i] == GetStoreTypeColor(valid[i].storeType)
      && t.size[i] == (if Contains(Upper(valid[i].storeType), "SUPER") || Contains(Upper(valid[i].storeType), "LARGE") then 16 else 12)
      && t.hovertext[i] == HoverText(valid[i])
  {
    MarkerTrace(
      seq(|valid|, i requires 0 <= i < |valid| => valid[i].latitude.value),
      seq(|valid|, i requires 0 <= i < |valid| => valid[i].longitude.value),
      seq(|valid|, i requires 0 <= i < |valid| => GetStoreTypeColor(valid[i].storeType)),
      seq(|valid|, i requires 0 <= i < |valid| => MarkerSize(valid[i])),
      seq(|valid|, i requires 0 <= i < |valid| => HoverText(valid[i])))
  }

  /**
   * `createSNAPTrace`: no trace when hidden, given no retailers, or when no
   * retailer has coordinates; otherwise the markers of the retailers with
   * coordinates, in input order.
   */
  function CreateSnapTrace(retailers: seq<Retailer>, visible: bool): (r: Option<MarkerTrace>)
    ensures r.None? <==> !visible || retailers == [] || forall i :: 0 <= i < |retailers| ==> !HasCoordinates(retailers[i])
    ensures r.Some? ==> r.value == Markers(Keep(retailers, HasCoordinates))
  {
    if !visible || retailers == [] then None
    else
      var valid := Keep(retailers, HasCoordinates);
      assert valid == [] <==> forall i :: 0 <= i < |retailers| ==> !HasCoordinates(retailers[i]) by {
        KeepMembers(retailers, HasCoordinates);
        if valid != [] {
          assert valid[0] in valid;
        }
        if exists i :: 0 <= i < |retailers| && HasCoordinates(retailers[i]) {
          var i :| 0 <= i < |retailers| && HasCoordinates(retailers[i]);
          assert retailers[i] in valid;
        }
      }
      if valid == [] then None else Some(Markers(valid))
  }
}
