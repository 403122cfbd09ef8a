/**
 * The survey (ACS) transformer: it joins the economic, housing and social
 * extracts by ward, derives the homeownership and bachelor's-or-higher rates,
 * and shapes the comparison, chart and education-breakdown series.
 *
 * A raw record is its GEOID (as the string the source builds with
 * `String(geoid)`) and its numeric fields by survey code; `record.CODE || 0`
 * reads a missing field as 0.
 */
module Census {
  import opened Wrappers
  import opened Text
  import opened Sorting
  import opened Formatters
  import opened Averages

  type WardNumber = w: int | w == 7 || w == 8 witness 7

  datatype AcsRecord = AcsRecord(geoid: string, fields: map<string, real>)

  /** `record[code] || 0`. */
  function Field(r: AcsRecord, code: string): real {
    if code in r.fields then r.fields[code] else 0.0
  }

  /** `getWardFromGEOID`: a GEOID ending in '7' is ward 7; every other GEOID is ward 8. */
  function WardFromGeoid(geoid: string): (w: WardNumber)
    ensures w == 7 <==> EndsWith(geoid, "7")
    ensures w == 8 <==> !EndsWith(geoid, "7")
  {
    if EndsWith(geoid, "7") then 7 else 8
  }

  /** `Ward ${ward}`. */
  function WardName(w: WardNumber): string {
    if w == 7 then "Ward 7" else "Ward 8"
  }

  datatype WardComparison = WardComparison(
    ward: WardNumber,
    wardName: string,
    medianIncome: real,
    homeownershipRate: real,
    bachelorsDegreeRate: real,
    unemploymentRate: real,
    povertyRate: real,
    population: real)

  /** `records.find(r => getWardFromGEOID(r.GEOID) === ward)`: the first record of that ward. */
  function FindWard(records: seq<AcsRecord>, ward: WardNumber): (r: Option<AcsRecord>)
    ensures r.Some? <==> exists i :: 0 <= i < |records| && WardFromGeoid(records[i].geoid) == ward
    ensures r.Some? ==> r.value in records && WardFromGeoid(r.value.geoid) == ward
  {
    if records == [] then None
    else if WardFromGeoid(records[0].geoid) == ward then Some(records[0])
    else
      var r := FindWard(records[1..], ward);
      assert forall i :: 1 <= i < |records| ==> records[i] == records[1..][i - 1];
      r
  }

  /** The record found is the first of its ward: no earlier record belongs to that ward. */
  lemma {:induction false} FindWardFirst(records: seq<AcsRecord>, ward: WardNumber, i: nat)
    requires i < |records| && WardFromGeoid(records[i].geoid) == ward
    ensures FindWard(records, ward).Some?
    ensures (forall j :: 0 <= j < i ==> WardFromGeoid(records[j].geoid) != ward) ==> FindWard(records, ward) == Some(records[i])
  {
    if i > 0 && WardFromGeoid(records[0].geoid) != ward {
      FindWardFirst(records[1..], ward, i - 1);
      assert forall j :: 1 <= j < |records| ==> records[j] == records[1..][j - 1];
    }
  }

  /** Owner-occupied units (DP04_0046E) as a share of owner- plus renter-occupied units (DP04_0047E). */
  function HomeownershipRate(housing: AcsRecord): real {
    var owner := Field(housing, "DP04_0046E");
    var renter := Field(housing, "DP04_0047E");
    CalculatePercent(owner, owner + renter)
  }

  /** The seven attainment fields DP02_0059E to DP02_0065E that the rate adds up. */
  function EducationTotal(social: AcsRecord): real {
    Field(social, "DP02_0059E") + Field(social, "DP02_0060E") + Field(social, "DP02_0061E")
    + Field(social, "DP02_0062E") + Field(social, "DP02_0063E")
    + Field(social, "DP02_0064E") + Field(social, "DP02_0065E")
  }

  /** DP02_0064E plus DP02_0065E as a share of the seven-field total. */
  function BachelorsPlusRate(social: AcsRecord): real {
    CalculatePercent(Field(social, "DP02_0064E") + Field(social, "DP02_0065E"), EducationTotal(social))
  }

  /** The comparison record of one ward, from its three matched extracts. */
  function Compare(ward: WardNumber, econ: AcsRecord, housing: AcsRecord, social: AcsRecord): (c: WardComparison)
    ensures c.ward == ward && c.wardName == WardName(ward)
    ensures c.medianIncome == Field(econ, "DP03_0063E")
    ensures c.unemploymentRate == Field(econ, "DP03_0009PE")
    ensures c.povertyRate == Field(econ, "DP03_0128PE")
    ensures c.population == Field(econ, "DP03_0001E")
    ensures c.homeownershipRate == HomeownershipRate(housing)
    ensures c.bachelorsDegreeRate == BachelorsPlusRate(social)
  {
    WardComparison(ward, WardName(ward), Field(econ, "DP03_0063E"), HomeownershipRate(housing),
                   BachelorsPlusRate(social), Field(econ, "DP03_0009PE"), Field(econ, "DP03_0128PE"),
                   Field(econ, "DP03_0001E"))
  }

  /** What one economic record contributes: its comparison, or nothing when a counterpart is missing. */
  function JoinOne(e: AcsRecord, housing: seq<AcsRecord>, social: seq<AcsRecord>): seq<WardComparison> {
    var w := WardFromGeoid(e.geoid);
    var h := FindWard(housing, w);
    var s := FindWard(social, w);
    if h.Some? && s.Some? then [Compare(w, e, h.value, s.value)] else []
  }

  /** The records the loop pushes, in economic-record order, before sorting. */
  function JoinWards(econ: seq<AcsRecord>, housing: seq<AcsRecord>, social: seq<AcsRecord>): seq<WardComparison> {
    if econ == [] then []
    else
      var n := |econ| - 1;
      JoinWards(econ[..n], housing, social) + JoinOne(econ[n], housing, social)
  }

  function ComparisonWard(c: WardComparison): int {
    c.ward
  }

  /**
   * `transformToWardComparison`: one comparison per economic record whose
   * ward has both a housing and a social record, sorted by ward (stably, so
   * records of the same ward keep their economic-record order).
   */
  method TransformToWardComparison(econ: seq<AcsRecord>, housing: seq<AcsRecord>, social: seq<AcsRecord>)
    returns (results: seq<WardComparison>)
    ensures results == SortBy(JoinWards(econ, housing, social), ComparisonWard)
    ensures forall i, j :: 0 <= i < j < |results| ==> results[i].ward <= results[j].ward
    ensures multiset(results) == multiset(JoinWards(econ, housing, social))
  {
    results := [];
    var i := 0;
    while i < |econ|
      invariant 0 <= i <= |econ|
      invariant results == JoinWards(econ[..i], housing, social)
    {
      var e := econ[i];
      var wardNum := WardFromGeoid(e.geoid);
      var h := FindWard(housing, wardNum);
      var s := FindWard(social, wardNum);
      assert econ[..i + 1][..i] == econ[..i];
      if h.Some? && s.Some? {
        results := results + [Compare(wardNum, e, h.value, s.value)];
      }
      i := i + 1;
    }
    assert econ[..|econ|] == econ;
    results := SortBy(results, ComparisonWard);
  }

  /**
   * The join emits at most one record per economic record; every emitted
   * record comes from an economic record of its ward whose housing and social
   * counterparts exist, and is computed from the first of each.
   */
  lemma {:induction false} JoinWardsSpec(econ: seq<AcsRecord>, housing: seq<AcsRecord>, social: seq<AcsRecord>)
    ensures |JoinWards(econ, housing, social)| <= |econ|
    ensures forall c :: c in JoinWards(econ, housing, social) ==>
      FindWard(housing, c.ward).Some? && FindWard(social, c.ward).Some?
      && exists e :: e in econ && WardFromGeoid(e.geoid) == c.ward
                    && c == Compare(c.ward, e, FindWard(housing, c.ward).value, FindWard(social, c.ward).value)
  {
    if econ != [] {
      var n := |econ| - 1;
      JoinWardsSpec(econ[..n], housing, social);
      assert forall e :: e in econ[..n] ==> e in econ;
    }
  }

  /** Whatever the join emits for one economic record is in the join of all of them. */
  lemma {:induction false} JoinOneIncluded(econ: seq<AcsRecord>, housing: seq<AcsRecord>, social: seq<AcsRecord>, i: nat)
    requires i < |econ|
    ensures forall c :: c in JoinOne(econ[i], housing, social) ==> c in JoinWards(econ, housing, social)
  {
    var n := |econ| - 1;
    var before := JoinWards(econ[..n], housing, social);
    assert JoinWards(econ, housing, social) == before + JoinOne(econ[n], housing, social);
    if i < n {
      assert econ[..n][i] == econ[i];
      JoinOneIncluded(econ[..n], housing, social, i);
    }
  }

  /** An economic record whose ward has both counterparts is never skipped. */
  lemma JoinWardsKeeps(econ: seq<AcsRecord>, housing: seq<AcsRecord>, social: seq<AcsRecord>, i: nat)
    requires i < |econ|
    requires FindWard(housing, WardFromGeoid(econ[i].geoid)).Some?
    requires FindWard(social, WardFromGeoid(econ[i].geoid)).Some?
    ensures var w := WardFromGeoid(econ[i].geoid);
      Compare(w, econ[i], FindWard(housing, w).value, FindWard(social, w).value) in JoinWards(econ, housing, social)
  {
    JoinOneIncluded(econ, housing, social, i);
    var w := WardFromGeoid(econ[i].geoid);
    assert JoinOne(econ[i], housing, social) == [Compare(w, econ[i], FindWard(housing, w).value, FindWard(social, w).value)];
  }

  /** With no housing (or no social) extract every ward is skipped. */
  lemma {:induction false} JoinWardsMissing(econ: seq<AcsRecord>, social: seq<AcsRecord>)
    ensures JoinWards(econ, [], social) == []
    ensures JoinWards(econ, social, []) == []
  {
    if econ != [] {
      JoinWardsMissing(econ[..|econ| - 1], social);
    }
  }

  /** Homeownership: owner 40 and renter 60 give 40; no units at all gives 0, not a division by zero. */
  lemma HomeownershipExamples()
    ensures HomeownershipRate(AcsRecord("11007", map["DP04_0046E" := 40.0, "DP04_0047E" := 60.0])) == 40.0
    ensures HomeownershipRate(AcsRecord("11007", map[])) == 0.0
  {
  }

  /** The homeownership rate is a percentage when the unit counts are not negative. */
  lemma HomeownershipBounds(housing: AcsRecord)
    requires Field(housing, "DP04_0046E") >= 0.0 && Field(housing, "DP04_0047E") >= 0.0
    ensures 0.0 <= HomeownershipRate(housing) <= 100.0
  {
    var owner, renter := Field(housing, "DP04_0046E"), Field(housing, "DP04_0047E");
    if owner + renter > 0.0 {
      PercentBounds(owner, owner + renter);
    }
  }

  /**
   * The worked example: income 97410, 34 owner and 66 renter units, and 20
   * bachelor's plus 10 graduate degrees out of 100 give rates 34 and 30.
   */
  lemma EndToEndExample()
    ensures
      var econ := AcsRecord("11007", map["DP03_0063E" := 97410.0]);
      var housing := AcsRecord("11007", map["DP04_0046E" := 34.0, "DP04_0047E" := 66.0]);
      var social := AcsRecord("11007", map["DP02_0059E" := 10.0, "DP02_0060E" := 10.0, "DP02_0061E" := 20.0,
                                           "DP02_0062E" := 20.0, "DP02_0063E" := 10.0,
                                           "DP02_0064E" := 20.0, "DP02_0065E" := 10.0]);
      JoinWards([econ], [housing], [social])
        == [WardComparison(7, "Ward 7", 97410.0, 34.0, 30.0, 0.0, 0.0, 0.0)]
  {
    var econ := AcsRecord("11007", map["DP03_0063E" := 97410.0]);
    var housing := AcsRecord("11007", map["DP04_0046E" := 34.0, "DP04_0047E" := 66.0]);
    var social := AcsRecord("11007", map["DP02_0059E" := 10.0, "DP02_0060E" := 10.0, "DP02_0061E" := 20.0,
                                         "DP02_0062E" := 20.0, "DP02_0063E" := 10.0,
                                         "DP02_0064E" := 20.0, "DP02_0065E" := 10.0]);
    assert EndsWith("11007", "7");
    assert [econ][..0] == [];
    assert EducationTotal(social) == 100.0;
  }

  // ---------------------------------------------------------------------
  // Chart series

  datatype BarPoint = BarPoint(category: string, ward7: real, ward8: real, dcAverage: real)

  datatype GroupedBars = GroupedBars(
    income: seq<BarPoint>,
    housing: seq<BarPoint>,
    education: seq<BarPoint>,
    employment: seq<BarPoint>)

  /** `wardData.find(w => w.ward === ward)`: the first comparison of that ward, if any. */
  function FindComparison(data: seq<WardComparison>, ward: WardNumber): (r: Option<WardComparison>)
    ensures r.Some? <==> exists i :: 0 <= i < |data| && data[i].ward == ward
    ensures r.Some? ==> r.value.ward == ward && r.value in data
    ensures r.Some? ==> exists i :: 0 <= i < |data| && data[i] == r.value && forall j :: 0 <= j < i ==> data[j].ward != ward
  {
    if data == [] then None
    else if data[0].ward == ward then Some(data[0])
    else
      var r := FindComparison(data[1..], ward);
      assert forall i :: 1 <= i < |data| ==> data[i] == data[1..][i - 1];
      assert r.Some? ==> exists i :: 0 <= i < |data| && data[i] == r.value && forall j :: 0 <= j < i ==> data[j].ward != ward by {
        if r.Some? {
          var i :| 0 <= i < |data[1..]| && data[1..][i] == r.value && forall j :: 0 <= j < i ==> data[1..][j].ward != ward;
          assert data[i + 1] == r.value;
          assert forall j :: 0 <= j < i + 1 ==> data[j].ward != ward by {
            forall j | 0 <= j < i + 1 ensures data[j].ward != ward {
              if j > 0 { assert data[j] == data[1..][j - 1]; }
            }
          }
        }
      }
      r
  }

  /**
   * `transformToGroupedBarData`: all four series are empty unless both wards
   * are present; then income, housing and education have one point each and
   * employment two, with the wards' figures and the city-wide average.
   */
  function TransformToGroupedBarData(data: seq<WardComparison>): (r: GroupedBars)
    ensures FindComparison(data, 7).None? || FindComparison(data, 8).None? ==> r == GroupedBars([], [], [], [])
    ensures FindComparison(data, 7).Some? && FindComparison(data, 8).Some? ==>
      var w7, w8 := FindComparison(data, 7).value, FindComparison(data, 8).value;
      && |r.income| == 1 && |r.housing| == 1 && |r.education| == 1 && |r.employment| == 2
      && r.income[0].ward7 == w7.medianIncome && r.income[0].ward8 == w8.medianIncome
      && r.income[0].dcAverage == DC_AVERAGES.medianHouseholdIncome
      && r.housing[0].ward7 == w7.homeownershipRate && r.housing[0].ward8 == w8.homeownershipRate
      && r.housing[0].dcAverage == DC_AVERAGES.homeownershipRate
      && r.education[0].ward7 == w7.bachelorsDegreeRate && r.education[0].ward8 == w8.bachelorsDegreeRate
      && r.education[0].dcAverage == DC_AVERAGES.bachelorsDegreeRate
      && r.employment[0].ward7 == w7.unemploymentRate && r.employment[0].ward8 == w8.unemploymentRate
      && r.employment[0].dcAverage == DC_AVERAGES.unemploymentRate
      && r.employment[1].ward7 == w7.povertyRate && r.employment[1].ward8 == w8.povertyRate
      && r.employment[1].dcAverage == DC_AVERAGES.povertyRate
  {
    match (FindComparison(data, 7), FindComparison(data, 8))
    case (Some(w7), Some(w8)) =>
      GroupedBars(
        [BarPoint("Median Household Income", w7.medianIncome, w8.medianIncome, DC_AVERAGES.medianHouseholdIncome)],
        [BarPoint("Homeownership Rate (%)", w7.homeownershipRate, w8.homeownershipRate, DC_AVERAGES.homeownershipRate)],
        [BarPoint("Bachelor's Degree or Higher (%)", w7.bachelorsDegreeRate, w8.bachelorsDegreeRate, DC_AVERAGES.bachelorsDegreeRate)],
        [BarPoint("Unemployment Rate (%)", w7.unemploymentRate, w8.unemploymentRate, DC_AVERAGES.unemploymentRate),
         BarPoint("Poverty Rate (%)", w7.povertyRate, w8.povertyRate, DC_AVERAGES.povertyRate)])
    case _ => GroupedBars([], [], [], [])
  }

  /**
   * `getComparisonChartData`: empty unless both wards are present; then the
   * income, homeownership and bachelor's points, each with its city average.
   */
  function GetComparisonChartData(data: seq<WardComparison>): (r: seq<BarPoint>)
    ensures r == [] <==> FindComparison(data, 7).None? || FindComparison(data, 8).None?
    ensures r != [] ==>
      var w7, w8 := FindComparison(data, 7).value, FindComparison(data, 8).value;
      && |r| == 3
      && r[0].ward7 == w7.medianIncome && r[0].ward8 == w8.medianIncome
      && r[1].ward7 == w7.homeownershipRate && r[1].ward8 == w8.homeownershipRate
      && r[2].ward7 == w7.bachelorsDegreeRate && r[2].ward8 == w8.bachelorsDegreeRate
      && r[0].dcAverage == DC_AVERAGES.medianHouseholdIncome
      && r[1].dcAverage == DC_AVERAGES.homeownershipRate
      && r[2].dcAverage == DC_AVERAGES.bachelorsDegreeRate
  {
    match (FindComparison(data, 7), FindComparison(data, 8))
    case (Some(w7), Some(w8)) =>
      [BarPoint("Median Income ($)", w7.medianIncome, w8.medianIncome, DC_AVERAGES.medianHouseholdIncome),
       BarPoint("Homeownership (%)", w7.homeownershipRate, w8.homeownershipRate, DC_AVERAGES.homeownershipRate),
       BarPoint("Bachelor's+ (%)", w7.bachelorsDegreeRate, w8.bachelorsDegreeRate, DC_AVERAGES.bachelorsDegreeRate)]
    case _ => []
  }

  // ---------------------------------------------------------------------
  // Education breakdown

  datatype EducationBreakdown = EducationBreakdown(
    ward: WardNumber,
    wardName: string,
    lessHighSchool: real,
    highSchool: real,
    someCollege: real,
    associates: real,
    bachelors: real,
    graduate: real)

  /** The six buckets' total: DP02_0059E and DP02_0060E form the first bucket. */
  function BucketTotal(social: AcsRecord): real {
    (Field(social, "DP02_0059E") + Field(social, "DP02_0060E")) + Field(social, "DP02_0061E")
    + Field(social, "DP02_0062E") + Field(social, "DP02_0063E")
    + Field(social, "DP02_0064E") + Field(social, "DP02_0065E")
  }

  function Breakdown(social: AcsRecord): EducationBreakdown {
    var total := BucketTotal(social);
    var w := WardFromGeoid(social.geoid);
    EducationBreakdown(
      w, WardName(w),
      CalculatePercent(Field(social, "DP02_0059E") + Field(social, "DP02_0060E"), total),
      CalculatePercent(Field(social, "DP02_0061E"), total),
      CalculatePercent(Field(social, "DP02_0062E"), total),
      CalculatePercent(Field(social, "DP02_0063E"), total),
      CalculatePercent(Field(social, "DP02_0064E"), total),
      CalculatePercent(Field(social, "DP02_0065E"), total))
  }

  function ShareSum(b: EducationBreakdown): real {
    b.lessHighSchool + b.highSchool + b.someCollege + b.associates + b.bachelors + b.graduate
  }

  function BreakdownWard(b: EducationBreakdown): int {
    b.ward
  }

  /**
   * `transformToEducationBreakdown`: exactly one breakdown per social record
   * (none is skipped), sorted by ward; records of one ward keep their input
   * order, as the sort is stable.
   */
  function TransformToEducationBreakdown(social: seq<AcsRecord>): (r: seq<EducationBreakdown>)
    ensures |r| == |social|
    ensures forall i, j :: 0 <= i < j < |r| ==> r[i].ward <= r[j].ward
    ensures forall s :: s in social ==> Breakdown(s) in r
    ensures forall b :: b in r ==> exists s :: s in social && b == Breakdown(s)
    ensures multiset(r) == multiset(Breakdowns(social))
    ensures forall w :: WithKey(r, BreakdownWard, w) == WithKey(Breakdowns(social), BreakdownWard, w)
  {
    var mapped := Breakdowns(social);
    var r := SortBy(mapped, BreakdownWard);
    SortedMembers(mapped, r);
    r
  }

  function Breakdowns(social: seq<AcsRecord>): (r: seq<EducationBreakdown>)
    ensures |r| == |social|
    ensures forall i :: 0 <= i < |social| ==> r[i] == Breakdown(social[i])
  {
    seq(|social|, i requires 0 <= i < |social| => Breakdown(social[i]))
  }

  lemma SortedMembers<T>(xs: seq<T>, ys: seq<T>)
    requires multiset(xs) == multiset(ys)
    ensures forall x :: x in xs <==> x in ys
  {
    forall x ensures x in xs <==> x in ys {
      assert x in xs <==> x in multiset(xs);
      assert x in ys <==> x in multiset(ys);
    }
  }

  /**
   * The six shares of a breakdown sum to 100 when the bucket total is
   * nonzero, and are all 0 when it is zero.
   */
  lemma BreakdownShares(social: AcsRecord)
    ensures BucketTotal(social) != 0.0 ==> ShareSum(Breakdown(social)) == 100.0
    ensures BucketTotal(social) == 0.0 ==>
      var b := Breakdown(social);
      b.lessHighSchool == 0.0 && b.highSchool == 0.0 && b.someCollege == 0.0
      && b.associates == 0.0 && b.bachelors == 0.0 && b.graduate == 0.0
  {
    var total := BucketTotal(social);
    var a := Field(social, "DP02_0059E") + Field(social, "DP02_0060E");
    var h, c, s := Field(social, "DP02_0061E"), Field(social, "DP02_0062E"), Field(social, "DP02_0063E");
    var ba, g := Field(social, "DP02_0064E"), Field(social, "DP02_0065E");
    PercentAdd(a, h, total);
    PercentAdd(a + h, c, total);
    PercentAdd(a + h + c, s, total);
    PercentAdd(a + h + c + s, ba, total);
    PercentAdd(a + h + c + s + ba, g, total);
    PercentWhole(total);
  }
}
