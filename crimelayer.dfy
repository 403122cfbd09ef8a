/**
 * The crime layer of the map: the violent-offense test, the marker colour
 * and the marker arrays of the incidents that have coordinates.
 */
module CrimeLayer {
  import opened Wrappers
  import opened Text
  import opened Grouping
  import opened Crime

  /** Whether the upper-cased `offense` contains one of `names`, upper-cased. */
  function ContainsAny(offense: string, names: seq<string>): (r: bool)
    ensures r <==> exists k :: 0 <= k < |names| && Contains(Upper(offense), Upper(names[k]))
  {
    if names == [] then false
    else
      assert forall k :: 1 <= k < |names| ==> names[k] == names[1..][k - 1];
      Contains(Upper(offense), Upper(names[0])) || ContainsAny(offense, names[1..])
  }

  /** `isViolentOffense`: the offense mentions one of the violent offense names, ignoring case. */
  function IsViolentOffense(offense: string): (r: bool)
    ensures r <==> exists k :: 0 <= k < |VIOLENT_OFFENSES| && Contains(Upper(offense), Upper(VIOLENT_OFFENSES[k]))
  {
    ContainsAny(offense, VIOLENT_OFFENSES)
  }

  /** Any offense text that mentions a violent offense name is violent, whatever surrounds it. */
  lemma ViolentNamesAreViolent(before: string, k: nat, after: string)
    requires k < |VIOLENT_OFFENSES|
    ensures IsViolentOffense(before + VIOLENT_OFFENSES[k] + after)
  {
    var name := VIOLENT_OFFENSES[k];
    var s := before + name + after;
    assert Upper(s)[|before|..|before| + |name|] == Upper(name) by {
      forall j | 0 <= j < |name|
        ensures Upper(s)[|before| + j] == Upper(name)[j]
      {
        assert s[|before| + j] == name[j];
      }
    }
    ContainsAt(Upper(s), Upper(name), |before|);
  }

  const VIOLENT_COLOR := "#dc2626"
  const PROPERTY_COLOR := "#f97316"

  /** `getCrimeColor`: red for a violent offense, orange otherwise. */
  function GetCrimeColor(offense: string): (r: string)
    ensures r == VIOLENT_COLOR <==> IsViolentOffense(offense)
    ensures r == PROPERTY_COLOR <==> !IsViolentOffense(offense)
  {
    if IsViolentOffense(offense) then VIOLENT_COLOR else PROPERTY_COLOR
  }

  /** JavaScript truthiness of both coordinates: present and nonzero. */
  predicate HasCoordinates(c: Incident) {
    c.latitude.Some? && c.latitude.value != 0.0 && c.longitude.Some? && c.longitude.value != 0.0
  }

  function MarkerSize(c: Incident): int {
    if IsViolentOffense(c.offense) then 10 else 8
  }

  /** The hover text; `formatDate` stands for the locale date rendering of the timestamp. */
  function HoverText(c: Incident, formatDate: int -> string): string {
    var kind := if IsViolentOffense(c.offense) then "Violent" else "Property";
    "<b>" + c.offense + "</b><br>" + kind + " Crime<br>" + c.block + "<br>Ward " + c.ward + "<br>" + formatDate(c.reportDat)
  }

  datatype CrimeTrace = CrimeTrace(lat: seq<real>, lon: seq<real>, color: seq<string>, size: seq<int>, hovertext: seq<string>)

  /** The marker arrays of incidents whose coordinates are all present, one entry per incident. */
  function Markers(valid: seq<Incident>, formatDate: int -> string): (t: CrimeTrace)
    requires forall i :: 0 <= i < |valid| ==> valid[i].latitude.Some? && valid[i].longitude.Some?
    ensures |t.lat| == |t.lon| == |t.color| == |t.size| == |t.hovertext| == |valid|
    ensures forall i :: 0 <= i < |valid| ==>
      && t.lat[i] == valid[i].latitude.value
      && t.lon[i] == valid[i].longitude.value
      && t.color[i] == GetCrimeColor(valid[i].offense)
      && t.size[i] == (if IsViolentOffense(valid[i].offense) then 10 else 8)
      && t.hovertext[i] == HoverText(valid[i], formatDate)
  {
    CrimeTrace(
      seq(|valid|, i requires 0 <= i < |valid| => valid[i].latitude.value),
      seq(|valid|, i requires 0 <= i < |valid| => valid[i].longitude.value),
      seq(|valid|, i requires 0 <= i < |valid| => GetCrimeColor(valid[i].offense)),
      seq(|valid|, i requires 0 <= i < |valid| => MarkerSize(valid[i])),
      seq(|valid|, i requires 0 <= i < |valid| => HoverText(valid[i], formatDate)))
  }

  /**
   * `createCrimeTrace`: null only when hidden or given no incidents; the
   * arrays follow the incidents with coordinates one to one, in input order.
   */
  function CreateCrimeTrace(crimes: seq<Incident>, visible: bool, formatDate: int -> string): (r: Option<CrimeTrace>)
    ensures r.None? <==> !visible || crimes == []
    ensures r.Some? ==> r.value == Markers(Keep(crimes, HasCoordinates), formatDate)
  {
    if !visible || crimes == [] then None
    else Some(Markers(Keep(crimes, HasCoordinates), formatDate))
  }

  /** Unlike the SNAP layer, incidents without coordinates still give a trace, with empty arrays. */
  lemma NoCoordinatesEmptyTrace(crimes: seq<Incident>, formatDate: int -> string)
    requires crimes != []
    requires forall i :: 0 <= i < |crimes| ==> !HasCoordinates(crimes[i])
    ensures CreateCrimeTrace(crimes, true, formatDate) == Some(CrimeTrace([], [], [], [], []))
  {
    CountIfNone(crimes, HasCoordinates);
  }
}
