/**
 * The metric comparison builder of the data dictionary: for every field of a
 * table, the ward 7 and ward 8 values, their gap and the gap relative to
 * ward 8; the grouping of the rows by category; and the rows of all four
 * tables put together once they have loaded.
 */
module Metrics {
  import opened Wrappers
  import opened Text
  import opened FieldMappings
  import opened Grouping

  /**
   * One record of a ward table: its GEOID (as `String(GEOID)` renders it), its
   * optional NAMELSAD and its numeric properties by field code.
   */
  datatype WardRaw = WardRaw(geoid: string, namelsad: Option<string>, values: map<string, real>)

  /** The record of ward `digit`: a GEOID ending in the digit, or a NAMELSAD mentioning the ward. */
  predicate IsWardRecord(d: WardRaw, digit: string, name: string) {
    EndsWith(d.geoid, digit) || (d.namelsad.Some? && Contains(d.namelsad.value, name))
  }

  predicate IsWard7Record(d: WardRaw) {
    IsWardRecord(d, "7", "Ward 7")
  }

  predicate IsWard8Record(d: WardRaw) {
    IsWardRecord(d, "8", "Ward 8")
  }

  /** `i` is the first position whose record satisfies `p`. */
  ghost predicate FirstMatch(data: seq<WardRaw>, p: WardRaw -> bool, i: int) {
    0 <= i < |data| && p(data[i]) && forall j :: 0 <= j < i ==> !p(data[j])
  }

  /** `data.find(p)`. */
  function Find(data: seq<WardRaw>, p: WardRaw -> bool): (r: Option<WardRaw>)
    ensures r.Some? ==> exists i :: FirstMatch(data, p, i) && data[i] == r.value
    ensures r.None? ==> forall i :: 0 <= i < |data| ==> !p(data[i])
  {
    if data == [] then None
    else if p(data[0]) then
      assert FirstMatch(data, p, 0);
      Some(data[0])
    else
      var r := Find(data[1..], p);
      assert forall i :: 1 <= i < |data| ==> data[i] == data[1..][i - 1];
      assert r.Some? ==> exists i :: FirstMatch(data, p, i) && data[i] == r.value by {
        if r.Some? {
          var i :| FirstMatch(data[1..], p, i) && data[1..][i] == r.value;
          assert FirstMatch(data, p, i + 1);
        }
      }
      r
  }

  /** `record?.[fieldCode] ?? null`: a missing record or a missing property is null, a 0 stays 0. */
  function ValueOf(record: Option<WardRaw>, code: string): Option<real> {
    if record.Some? && code in record.value.values then Some(record.value.values[code]) else None
  }

  datatype WardValues = WardValues(ward7: Option<real>, ward8: Option<real>)

  /** The value of `code` in the first record of ward `p`, if both exist. */
  ghost predicate ValueInFirst(data: seq<WardRaw>, p: WardRaw -> bool, code: string, v: Option<real>) {
    && (v.Some? ==> exists i :: FirstMatch(data, p, i) && code in data[i].values && data[i].values[code] == v.value)
    && (v.None? ==> forall i :: FirstMatch(data, p, i) ==> code !in data[i].values)
  }

  /** `extractWardValues`: the value of `code` in the first ward 7 and the first ward 8 record. */
  function ExtractWardValues(data: seq<WardRaw>, code: string): (r: WardValues)
    ensures ValueInFirst(data, IsWard7Record, code, r.ward7)
    ensures ValueInFirst(data, IsWard8Record, code, r.ward8)
  {
    var w7 := Find(data, IsWard7Record);
    var w8 := Find(data, IsWard8Record);
    FirstMatchUnique(data, IsWard7Record);
    FirstMatchUnique(data, IsWard8Record);
    WardValues(ValueOf(w7, code), ValueOf(w8, code))
  }

  lemma FirstMatchUnique(data: seq<WardRaw>, p: WardRaw -> bool)
    ensures forall i, j :: FirstMatch(data, p, i) && FirstMatch(data, p, j) ==> i == j
  {
  }

  /** `ward7 - ward8` when both are known, otherwise null. */
  function Gap(ward7: Option<real>, ward8: Option<real>): (r: Option<real>)
    ensures r.Some? <==> ward7.Some? && ward8.Some?
  {
    if ward7.Some? && ward8.Some? then Some(ward7.value - ward8.value) else None
  }

  /** The gap is antisymmetric: exchanging the wards negates it. */
  lemma GapSwap(ward7: Option<real>, ward8: Option<real>)
    ensures Gap(ward8, ward7).Some? <==> Gap(ward7, ward8).Some?
    ensures Gap(ward7, ward8).Some? ==> Gap(ward8, ward7).value == -Gap(ward7, ward8).value
    ensures Gap(ward7, ward8).Some? ==> Gap(ward7, ward8).value + ward8.value == ward7.value
  {
  }

  /**
   * `(gap / ward8) * 100` when the gap is known and ward 8 is a nonzero
   * number, otherwise null; so the percentage is never a division by zero.
   */
  function GapPercent(gap: Option<real>, ward8: Option<real>): (r: Option<real>)
    ensures r.Some? <==> gap.Some? && ward8.Some? && ward8.value != 0.0
    ensures r.Some? ==> r.value * ward8.value == gap.value * 100.0
  {
    if gap.Some? && ward8.Some? && ward8.value != 0.0 then Some(gap.value / ward8.value * 100.0) else None
  }

  datatype MetricComparison = MetricComparison(
    fieldCode: string,
    title: string,
    description: string,
    format: FieldFormat,
    category: Option<string>,
    ward7Value: Option<real>,
    ward8Value: Option<real>,
    gap: Option<real>,
    gapPercent: Option<real>)

  /** Whether either ward has a value for `code`. */
  predicate Reported(data: seq<WardRaw>, code: string) {
    var v := ExtractWardValues(data, code);
    v.ward7.Some? || v.ward8.Some?
  }

  /** The row of one field, with the mapping's texts copied. */
  function Row(data: seq<WardRaw>, f: Field): MetricComparison {
    var v := ExtractWardValues(data, f.code);
    var gap := Gap(v.ward7, v.ward8);
    MetricComparison(f.code, f.mapping.title, f.mapping.description, f.mapping.format, f.mapping.category,
                     v.ward7, v.ward8, gap, GapPercent(gap, v.ward8))
  }

  /** The rows of the fields that either ward reports, in the order of the fields. */
  function MetricComparisons(data: seq<WardRaw>, fields: seq<Field>): seq<MetricComparison> {
    if fields == [] then []
    else
      var n := |fields| - 1;
      MetricComparisons(data, fields[..n]) + (if Reported(data, fields[n].code) then [Row(data, fields[n])] else [])
  }

  /** `transformToMetricComparisons`: pushes one row per reported field. */
  method TransformToMetricComparisons(data: seq<WardRaw>, fieldMappings: seq<Field>) returns (metrics: seq<MetricComparison>)
    ensures metrics == MetricComparisons(data, fieldMappings)
  {
    metrics := [];
    var i := 0;
    while i < |fieldMappings|
      invariant 0 <= i <= |fieldMappings|
      invariant metrics == MetricComparisons(data, fieldMappings[..i])
    {
      assert fieldMappings[..i + 1][..i] == fieldMappings[..i];
      var field := fieldMappings[i];
      var v := ExtractWardValues(data, field.code);
      if v.ward7.Some? || v.ward8.Some? {
        var gap := if v.ward7.Some? && v.ward8.Some? then Some(v.ward7.value - v.ward8.value) else None;
        var gapPercent := if gap.Some? && v.ward8.Some? && v.ward8.value != 0.0 then Some(gap.value / v.ward8.value * 100.0) else None;
        var row := MetricComparison(field.code, field.mapping.title, field.mapping.description,
                                    field.mapping.format, field.mapping.category,
                                    v.ward7, v.ward8, gap, gapPercent);
        assert row == Row(data, field) by {
          assert gap == Gap(v.ward7, v.ward8);
          assert gapPercent == GapPercent(gap, v.ward8);
        }
        metrics := metrics + [row];
      }
      i := i + 1;
    }
    assert fieldMappings[..i] == fieldMappings;
  }

  /** The positions of the reported fields, ascending. */
  ghost function Kept(data: seq<WardRaw>, fields: seq<Field>): seq<nat> {
    if fields == [] then []
    else
      var n := |fields| - 1;
      Kept(data, fields[..n]) + (if Reported(data, fields[n].code) then [n] else [])
  }

  /**
   * The kept positions ascend and are exactly the positions of the fields
   * that either ward reports, so a field is left out iff both of its values
   * are null.
   */
  lemma {:induction false} KeptSpec(data: seq<WardRaw>, fields: seq<Field>)
    ensures forall k :: 0 <= k < |Kept(data, fields)| ==> Kept(data, fields)[k] < |fields|
    ensures forall k, l :: 0 <= k < l < |Kept(data, fields)| ==> Kept(data, fields)[k] < Kept(data, fields)[l]
    ensures forall j :: 0 <= j < |fields| ==> (j in Kept(data, fields) <==> Reported(data, fields[j].code))
  {
    if fields != [] {
      var n := |fields| - 1;
      var before := Kept(data, fields[..n]);
      var last := if Reported(data, fields[n].code) then [n] else [];
      var kept := before + last;
      assert Kept(data, fields) == kept;
      KeptSpec(data, fields[..n]);
      forall k | 0 <= k < |kept|
        ensures kept[k] < |fields|
      {
        if k < |before| {
          assert kept[k] == before[k];
        }
      }
      forall k, l | 0 <= k < l < |kept|
        ensures kept[k] < kept[l]
      {
        assert kept[k] == before[k];
        if l < |before| {
          assert kept[l] == before[l];
        }
      }
      forall j | 0 <= j < |fields|
        ensures j in kept <==> Reported(data, fields[j].code)
      {
        if j < n {
          assert fields[..n][j] == fields[j];
          assert j in kept <==> j in before;
        } else {
          assert n !in before;
        }
      }
    }
  }

  /** Row `k` of the output is the row of the field at kept position `k`. */
  lemma {:induction false} MetricComparisonsSpec(data: seq<WardRaw>, fields: seq<Field>)
    ensures |MetricComparisons(data, fields)| == |Kept(data, fields)|
    ensures forall k :: 0 <= k < |Kept(data, fields)| ==>
      Kept(data, fields)[k] < |fields| && MetricComparisons(data, fields)[k] == Row(data, fields[Kept(data, fields)[k]])
  {
    KeptSpec(data, fields);
    if fields != [] {
      var n := |fields| - 1;
      MetricComparisonsSpec(data, fields[..n]);
      var kept, rows := Kept(data, fields[..n]), MetricComparisons(data, fields[..n]);
      forall k | 0 <= k < |kept|
        ensures MetricComparisons(data, fields)[k] == Row(data, fields[Kept(data, fields)[k]])
      {
        assert Kept(data, fields)[k] == kept[k];
        assert MetricComparisons(data, fields)[k] == rows[k];
        assert fields[..n][kept[k]] == fields[kept[k]];
      }
    }
  }

  /** `metric.category || 'Other'`: a missing or empty category falls back to 'Other'. */
  function CategoryKey(m: MetricComparison): (r: string)
    ensures r != ""
    ensures m.category.Some? && m.category.value != "" ==> r == m.category.value
    ensures m.category.None? || m.category.value == "" ==> r == "Other"
  {
    if m.category.Some? && m.category.value != "" then m.category.value else "Other"
  }

  /** The grouping `groupMetricsByCategory` computes, as a fold from the empty object. */
  function ByCategory(metrics: seq<MetricComparison>): Groups<string, MetricComparison> {
    GroupBy(Groups([], map[]), metrics, CategoryKey)
  }

  /** `groupMetricsByCategory`: the reduce creates a group on first sight of a key and pushes onto it. */
  method GroupMetricsByCategory(metrics: seq<MetricComparison>) returns (groups: Groups<string, MetricComparison>)
    ensures groups == ByCategory(metrics)
  {
    var order: seq<string> := [];
    var members: map<string, seq<MetricComparison>> := map[];
    var i := 0;
    while i < |metrics|
      invariant 0 <= i <= |metrics|
      invariant Groups(order, members) == GroupBy(Groups([], map[]), metrics[..i], CategoryKey)
    {
      assert metrics[..i + 1][..i] == metrics[..i];
      ghost var before := Groups(order, members);
      var category := CategoryKey(metrics[i]);
      if category !in members {
        order := order + [category];
        members := members[category := []];
      }
      members := members[category := members[category] + [metrics[i]]];
      assert category !in before.members ==> members == before.members[category := [metrics[i]]] by {
        assert [] + [metrics[i]] == [metrics[i]];
      }
      assert Groups(order, members) == Add(before, category, metrics[i]);
      i := i + 1;
    }
    assert metrics[..i] == metrics;
    groups := Groups(order, members);
  }

  /**
   * Every metric lands in exactly one group, the one of its category key;
   * each group keeps input order; no group is empty; and the group sizes sum
   * to the number of metrics.
   */
  lemma ByCategorySpec(metrics: seq<MetricComparison>)
    ensures Valid(ByCategory(metrics))
    ensures forall k :: Lookup(ByCategory(metrics), k) == Select(metrics, CategoryKey, k)
    ensures forall k, m :: m in Lookup(ByCategory(metrics), k) ==> m in metrics && k == CategoryKey(m)
    ensures forall k :: k in ByCategory(metrics).members ==> ByCategory(metrics).members[k] != []
    ensures SumCount(ByCategory(metrics).order, ByCategory(metrics).members, Always) == |metrics|
  {
    var empty: Groups<string, MetricComparison> := Groups([], map[]);
    GroupByMembers(empty, metrics, CategoryKey);
    forall k ensures Lookup(ByCategory(metrics), k) == Select(metrics, CategoryKey, k) {
      assert Lookup(empty, k) == [];
    }
    forall k ensures forall m :: m in Lookup(ByCategory(metrics), k) ==> m in metrics && k == CategoryKey(m) {
      SelectHasKey(metrics, CategoryKey, k);
    }
    GroupByNonEmpty(empty, metrics, CategoryKey);
    GroupBySum(empty, metrics, CategoryKey, Always);
    CountAlways(metrics);
  }

  /** Every metric is in the group of its own category key, which is listed. */
  lemma ByCategoryHas(metrics: seq<MetricComparison>, i: nat)
    requires i < |metrics|
    ensures CategoryKey(metrics[i]) in ByCategory(metrics).order
    ensures metrics[i] in Lookup(ByCategory(metrics), CategoryKey(metrics[i]))
  {
    var empty: Groups<string, MetricComparison> := Groups([], map[]);
    GroupByKeys(empty, metrics, CategoryKey, CategoryKey(metrics[i]));
    ByCategorySpec(metrics);
    SelectHas(metrics, CategoryKey, i);
  }

  lemma {:induction false} SelectHas<K, T>(xs: seq<T>, keyOf: T -> K, i: nat)
    requires i < |xs|
    ensures xs[i] in Select(xs, keyOf, keyOf(xs[i]))
  {
    var n := |xs| - 1;
    if i < n {
      SelectHas(xs[..n], keyOf, i);
      assert xs[..n][i] == xs[i];
    }
  }

  // ----- The data dictionary -----

  /** A row tagged with the table it comes from (`{ ...m, source }`). */
  datatype SourcedMetric = SourcedMetric(metric: MetricComparison, source: string)

  datatype DataSource = DataSource(name: string, file: string, prefix: string, description: string, metricsCount: nat)

  /** The state of one table's query: its data, once there is any, and whether it is loading. */
  datatype Query = Query(data: Option<seq<WardRaw>>, isLoading: bool)

  datatype Dictionary =
    | Loading
    | Loaded(allMetrics: seq<SourcedMetric>, dataSources: seq<DataSource>)

  const DEMOGRAPHIC_SOURCE := "ACS Demographic (DP05)"
  const ECONOMIC_SOURCE := "ACS Economic (DP03)"
  const HOUSING_SOURCE := "ACS Housing (DP04)"
  const SOCIAL_SOURCE := "ACS Social (DP02)"

  function Tag(ms: seq<MetricComparison>, source: string): (r: seq<SourcedMetric>) {
    seq(|ms|, i requires 0 <= i < |ms| => SourcedMetric(ms[i], source))
  }

  /** `data ? transformToMetricComparisons(data, fields) : []`. */
  function RowsOf(q: Query, fields: seq<Field>): seq<MetricComparison> {
    if q.data.Some? then MetricComparisons(q.data.value, fields) else []
  }

  /** The post-load part of `useAllDataForDictionary`. */
  function AllDataForDictionary(demographic: Query, economic: Query, housing: Query, social: Query): (r: Dictionary)
    ensures r.Loading? <==> demographic.isLoading || economic.isLoading || housing.isLoading || social.isLoading
    ensures r.Loaded? ==> |r.dataSources| == 4
  {
    if demographic.isLoading || economic.isLoading || housing.isLoading || social.isLoading then Loading
    else
      var d := RowsOf(demographic, DEMOGRAPHIC_FIELDS);
      var e := RowsOf(economic, ECONOMIC_FIELDS);
      var h := RowsOf(housing, HOUSING_FIELDS);
      var s := RowsOf(social, SOCIAL_FIELDS);
      Loaded(
        Tag(d, DEMOGRAPHIC_SOURCE) + Tag(e, ECONOMIC_SOURCE) + Tag(h, HOUSING_SOURCE) + Tag(s, SOCIAL_SOURCE),
        [ DataSource("ACS Demographic Characteristics", "ward7-8_acs_demographic_5year_20251103.json", "DP05",
                     "American Community Survey 5-Year Estimates - Demographic Characteristics", |d|),
          DataSource("ACS Economic Characteristics", "ward7-8_acs_economic_5year_20251103.json", "DP03",
                     "American Community Survey 5-Year Estimates - Economic Characteristics", |e|),
          DataSource("ACS Housing Characteristics", "ward7-8_acs_housing_5year_20251103.json", "DP04",
                     "American Community Survey 5-Year Estimates - Housing Characteristics", |h|),
          DataSource("ACS Social Characteristics", "ward7-8_acs_social_5year_20251103.json", "DP02",
                     "American Community Survey 5-Year Estimates - Social Characteristics", |s|) ])
  }

  /** Number of rows tagged `source`. */
  function CountSource(ms: seq<SourcedMetric>, source: string): nat {
    if ms == [] then 0
    else CountSource(ms[..|ms| - 1], source) + (if ms[|ms| - 1].source == source then 1 else 0)
  }

  lemma {:induction false} CountSourceAppend(xs: seq<SourcedMetric>, ys: seq<SourcedMetric>, source: string)
    ensures CountSource(xs + ys, source) == CountSource(xs, source) + CountSource(ys, source)
  {
    if ys == [] {
      assert xs + ys == xs;
    } else {
      var n := |ys| - 1;
      assert (xs + ys)[..|xs + ys| - 1] == xs + ys[..n];
      assert (xs + ys)[|xs + ys| - 1] == ys[n];
      CountSourceAppend(xs, ys[..n], source);
    }
  }

  lemma {:induction false} CountTag(ms: seq<MetricComparison>, tag: string, source: string)
    ensures CountSource(Tag(ms, tag), source) == if tag == source then |ms| else 0
  {
    if ms != [] {
      var n := |ms| - 1;
      assert Tag(ms, tag)[..n] == Tag(ms[..n], tag);
      CountTag(ms[..n], tag, source);
    }
  }

  /**
   * Once loaded, the dictionary lists the demographic, economic, housing and
   * social rows in that order, each tagged with its table, and each data
   * source's metrics count is the number of rows carrying that table's tag.
   */
  lemma DictionaryCounts(demographic: Query, economic: Query, housing: Query, social: Query)
    requires !(demographic.isLoading || economic.isLoading || housing.isLoading || social.isLoading)
    ensures var r := AllDataForDictionary(demographic, economic, housing, social);
      && |r.allMetrics| == r.dataSources[0].metricsCount + r.dataSources[1].metricsCount
                           + r.dataSources[2].metricsCount + r.dataSources[3].metricsCount
      && r.dataSources[0].metricsCount == CountSource(r.allMetrics, DEMOGRAPHIC_SOURCE)
      && r.dataSources[1].metricsCount == CountSource(r.allMetrics, ECONOMIC_SOURCE)
      && r.dataSources[2].metricsCount == CountSource(r.allMetrics, HOUSING_SOURCE)
      && r.dataSources[3].metricsCount == CountSource(r.allMetrics, SOCIAL_SOURCE)
  {
    var d := RowsOf(demographic, DEMOGRAPHIC_FIELDS);
    var e := RowsOf(economic, ECONOMIC_FIELDS);
    var h := RowsOf(housing, HOUSING_FIELDS);
    var s := RowsOf(social, SOCIAL_FIELDS);
    var td, te, th, ts := Tag(d, DEMOGRAPHIC_SOURCE), Tag(e, ECONOMIC_SOURCE), Tag(h, HOUSING_SOURCE), Tag(s, SOCIAL_SOURCE);
    var sources := [DEMOGRAPHIC_SOURCE, ECONOMIC_SOURCE, HOUSING_SOURCE, SOCIAL_SOURCE];
    forall source | source in sources
      ensures CountSource(td + te + th + ts, source)
           == CountSource(td, source) + CountSource(te, source) + CountSource(th, source) + CountSource(ts, source)
    {
      CountSourceAppend(td + te + th, ts, source);
      CountSourceAppend(td + te, th, source);
      CountSourceAppend(td, te, source);
    }
    forall source | source in sources
      ensures CountSource(td, source) == (if source == DEMOGRAPHIC_SOURCE then |d| else 0)
      ensures CountSource(te, source) == (if source == ECONOMIC_SOURCE then |e| else 0)
      ensures CountSource(th, source) == (if source == HOUSING_SOURCE then |h| else 0)
      ensures CountSource(ts, source) == (if source == SOCIAL_SOURCE then |s| else 0)
    {
      CountTag(d, DEMOGRAPHIC_SOURCE, source);
      CountTag(e, ECONOMIC_SOURCE, source);
      CountTag(h, HOUSING_SOURCE, source);
      CountTag(s, SOCIAL_SOURCE, source);
    }
  }
}
