/**
 * The crime transformer: incidents counted per year, offense, shift and
 * method, each bucket split into a ward-7 and a ward-8 column; the
 * year-over-year trend; and the summary statistics built from them.
 *
 * `yearOf` stands for the runtime's local-time year of a millisecond
 * timestamp.
 */
module Crime {
  import opened Wrappers
  import opened Sorting
  import opened Grouping
  import opened Formatters

  /** An incident with the fields the transformer and the map layer read. */
  datatype Incident = Incident(
    reportDat: int,
    shift: string,
    weapon: string,
    offense: string,
    block: string,
    ward: string,
    latitude: Option<real>,
    longitude: Option<real>)

  /** `OFFENSE_CATEGORIES.violent` and `.property`. */
  const VIOLENT_OFFENSES: seq<string> := ["HOMICIDE", "ASSAULT W/DANGEROUS WEAPON", "ROBBERY", "SEX ABUSE"]
  const PROPERTY_OFFENSES: seq<string> := ["THEFT/OTHER", "THEFT F/AUTO", "MOTOR VEHICLE THEFT", "BURGLARY", "ARSON"]

  /** One aggregation bucket: its key and the two wards' counts. */
  datatype Bucket<K> = Bucket(key: K, ward7: nat, ward8: nat, total: nat)

  predicate IsWard7(i: Incident) {
    i.ward == "7"
  }

  predicate IsWard8(i: Incident) {
    i.ward == "8"
  }

  function Ward7Of<K>(b: Bucket<K>): int {
    b.ward7
  }

  function Ward8Of<K>(b: Bucket<K>): int {
    b.ward8
  }

  /** The bucket of key `k`: the incidents with that key, counted per ward. */
  function BucketFor<K(==)>(xs: seq<Incident>, keyOf: Incident -> K, k: K): Bucket<K> {
    var stores := Select(xs, keyOf, k);
    var w7 := CountIf(stores, IsWard7);
    var w8 := CountIf(stores, IsWard8);
    Bucket(k, w7, w8, w7 + w8)
  }

  function Buckets<K(==)>(keys: seq<K>, xs: seq<Incident>, keyOf: Incident -> K): (r: seq<Bucket<K>>)
    ensures |r| == |keys|
    ensures forall i :: 0 <= i < |keys| ==> r[i] == BucketFor(xs, keyOf, keys[i])
  {
    seq(|keys|, i requires 0 <= i < |keys| => BucketFor(xs, keyOf, keys[i]))
  }

  /** A map whose keys `init` are set up front, each with no element yet. */
  function Start<K(==)>(init: seq<K>): Groups<K, Incident> {
    Groups(init, map k | k in init :: [])
  }

  /** The `Map`'s keys after the loop: `init`, then each new key in order of first occurrence. */
  function Keys<K(==)>(init: seq<K>, xs: seq<Incident>, keyOf: Incident -> K): seq<K> {
    GroupBy(Start(init), xs, keyOf).order
  }

  ghost predicate Distinct<K>(ks: seq<K>) {
    forall i, j :: 0 <= i < j < |ks| ==> ks[i] != ks[j]
  }

  /** The keys are distinct, start with `init`, and are exactly `init` plus the keys that occur. */
  lemma KeysSpec<K>(init: seq<K>, xs: seq<Incident>, keyOf: Incident -> K)
    requires Distinct(init)
    ensures Distinct(Keys(init, xs, keyOf))
    ensures init <= Keys(init, xs, keyOf)
    ensures forall k :: k in Keys(init, xs, keyOf) ==> k in init || exists i :: 0 <= i < |xs| && keyOf(xs[i]) == k
    ensures forall i :: 0 <= i < |xs| ==> keyOf(xs[i]) in Keys(init, xs, keyOf)
  {
    GroupByMembers(Start(init), xs, keyOf);
    forall k | k in Keys(init, xs, keyOf) ensures k in init || exists i :: 0 <= i < |xs| && keyOf(xs[i]) == k {
      GroupByKeys(Start(init), xs, keyOf, k);
    }
    forall i | 0 <= i < |xs| ensures keyOf(xs[i]) in Keys(init, xs, keyOf) {
      GroupByKeys(Start(init), xs, keyOf, keyOf(xs[i]));
    }
  }

  /** The running counters of one key. */
  datatype WardCounts = WardCounts(ward7: nat, ward8: nat)

  function CountsOf(xs: seq<Incident>): WardCounts {
    WardCounts(CountIf(xs, IsWard7), CountIf(xs, IsWard8))
  }

  /** One more incident: a new key is appended, a known one keeps its place. */
  lemma KeysStep<K>(init: seq<K>, xs: seq<Incident>, x: Incident, keyOf: Incident -> K)
    requires Distinct(init)
    ensures Keys(init, xs + [x], keyOf)
         == if keyOf(x) in Keys(init, xs, keyOf) then Keys(init, xs, keyOf) else Keys(init, xs, keyOf) + [keyOf(x)]
  {
    assert (xs + [x])[..|xs|] == xs;
    GroupByMembers(Start(init), xs, keyOf);
  }

  lemma SelectStep<K>(xs: seq<Incident>, x: Incident, keyOf: Incident -> K, k: K)
    ensures Select(xs + [x], keyOf, k) == Select(xs, keyOf, k) + (if keyOf(x) == k then [x] else [])
  {
    assert (xs + [x])[..|xs|] == xs;
  }

  /** The counter update of one incident: ward 7, ward 8, or neither. */
  function Bump(c: WardCounts, x: Incident): WardCounts {
    if IsWard7(x) then c.(ward7 := c.ward7 + 1)
    else if IsWard8(x) then c.(ward8 := c.ward8 + 1)
    else c
  }

  lemma CountsStep(xs: seq<Incident>, x: Incident)
    ensures CountsOf(xs + [x]) == Bump(CountsOf(xs), x)
  {
    assert (xs + [x])[..|xs|] == xs;
  }

  /** `counts` holds the counters of exactly the keys of `xs`'s incidents. */
  ghost predicate Counted<K(!new)>(counts: map<K, WardCounts>, xs: seq<Incident>, keyOf: Incident -> K) {
    && (forall k :: k in counts ==> counts[k] == CountsOf(Select(xs, keyOf, k)))
    && (forall k :: k !in counts ==> Select(xs, keyOf, k) == [])
  }

  /** The counters stay those of the incidents seen so far. */
  lemma TallyStep<K(!new)>(counts: map<K, WardCounts>, xs: seq<Incident>, x: Incident, keyOf: Incident -> K)
    requires Counted(counts, xs, keyOf)
    ensures var c := if keyOf(x) in counts then counts[keyOf(x)] else WardCounts(0, 0);
      Counted(counts[keyOf(x) := Bump(c, x)], xs + [x], keyOf)
  {
    var c := if keyOf(x) in counts then counts[keyOf(x)] else WardCounts(0, 0);
    var next := counts[keyOf(x) := Bump(c, x)];
    forall k
      ensures k in next ==> next[k] == CountsOf(Select(xs + [x], keyOf, k))
      ensures k !in next ==> Select(xs + [x], keyOf, k) == []
    {
      SelectStep(xs, x, keyOf, k);
      if k == keyOf(x) {
        CountsStep(Select(xs, keyOf, k), x);
        assert c == CountsOf(Select(xs, keyOf, k)) by {
          if k !in counts {
            assert CountsOf([]) == WardCounts(0, 0);
          }
        }
        assert next[k] == Bump(c, x);
      } else {
        assert Select(xs + [x], keyOf, k) == Select(xs, keyOf, k);
      }
    }
  }

  /**
   * The loop every aggregation runs: create a key's counters the first time
   * the key is seen, then count the incident under ward 7 or ward 8 (or
   * under neither).
   */
  method TallyByKey<K(==, !new)>(incidents: seq<Incident>, keyOf: Incident -> K, init: seq<K>)
    returns (order: seq<K>, counts: map<K, WardCounts>)
    requires Distinct(init)
    ensures order == Keys(init, incidents, keyOf)
    ensures forall k :: k in counts <==> k in order
    ensures forall k :: k in counts ==> counts[k] == CountsOf(Select(incidents, keyOf, k))
  {
    order := init;
    counts := map k | k in init :: WardCounts(0, 0);
    var i := 0;
    ghost var seen: seq<Incident> := [];
    while i < |incidents|
      invariant 0 <= i <= |incidents|
      invariant seen == incidents[..i]
      invariant order == Keys(init, seen, keyOf)
      invariant forall k :: k in counts <==> k in order
      invariant Counted(counts, seen, keyOf)
    {
      var inc := incidents[i];
      assert incidents[..i + 1] == seen + [inc];
      KeysStep(init, seen, inc, keyOf);
      TallyStep(counts, seen, inc, keyOf);
      var key := keyOf(inc);
      if key !in counts {
        order := order + [key];
        counts := counts[key := WardCounts(0, 0)];
      }
      counts := counts[key := Bump(counts[key], inc)];
      seen := seen + [inc];
      i := i + 1;
    }
    assert incidents[..|incidents|] == incidents;
  }

  /**
   * The counting loop followed by `Array.from(map.entries()).map(...)`: one
   * bucket per key, in the `Map`'s order, with `total = ward7 + ward8`.
   */
  method CountByKey<K(==, !new)>(incidents: seq<Incident>, keyOf: Incident -> K, init: seq<K>)
    returns (rows: seq<Bucket<K>>)
    requires Distinct(init)
    ensures rows == Tally(init, incidents, keyOf)
  {
    var order, counts := TallyByKey(incidents, keyOf, init);
    ghost var all := Tally(init, incidents, keyOf);
    rows := [];
    var j := 0;
    while j < |order|
      invariant 0 <= j <= |order|
      invariant rows == all[..j]
    {
      var c := counts[order[j]];
      var row := Bucket(order[j], c.ward7, c.ward8, c.ward7 + c.ward8);
      assert row == all[j];
      assert all[..j + 1] == all[..j] + [row];
      rows := rows + [row];
      j := j + 1;
    }
    assert all[..j] == all;
  }

  /** The buckets' ward columns add up to the per-key counts. */
  lemma {:induction false} BucketsSum<K>(keys: seq<K>, xs: seq<Incident>, keyOf: Incident -> K)
    ensures SumOf(Buckets(keys, xs, keyOf), Ward7Of) == SelectCount(keys, xs, keyOf, IsWard7)
    ensures SumOf(Buckets(keys, xs, keyOf), Ward8Of) == SelectCount(keys, xs, keyOf, IsWard8)
  {
    if keys != [] {
      assert Buckets(keys, xs, keyOf)[1..] == Buckets(keys[1..], xs, keyOf);
      BucketsSum(keys[1..], xs, keyOf);
    }
  }

  /**
   * Conservation: over the buckets of all keys, the ward-7 column adds up to
   * the number of ward-7 incidents, and likewise for ward 8.
   */
  lemma Conservation<K>(init: seq<K>, xs: seq<Incident>, keyOf: Incident -> K)
    requires Distinct(init)
    ensures SumOf(Tally(init, xs, keyOf), Ward7Of) == CountIf(xs, IsWard7)
    ensures SumOf(Tally(init, xs, keyOf), Ward8Of) == CountIf(xs, IsWard8)
  {
    var keys := Keys(init, xs, keyOf);
    KeysSpec(init, xs, keyOf);
    SelectCountAll(keys, xs, keyOf, IsWard7);
    SelectCountAll(keys, xs, keyOf, IsWard8);
    BucketsSum(keys, xs, keyOf);
  }

  /** `b` is the bucket of its key: the ward counts of the incidents with that key. */
  ghost predicate Tallied<K>(xs: seq<Incident>, keyOf: Incident -> K, b: Bucket<K>) {
    b == BucketFor(xs, keyOf, b.key)
  }

  /** The buckets in the order the counting loop created their keys. */
  function Tally<K(==)>(init: seq<K>, xs: seq<Incident>, keyOf: Incident -> K): seq<Bucket<K>> {
    Buckets(Keys(init, xs, keyOf), xs, keyOf)
  }

  function KeyOf<K>(b: Bucket<K>): K {
    b.key
  }

  /**
   * Each bucket is its key's, its key is preset or some incident's, every
   * incident's key has a bucket, and no key has two.
   */
  lemma TallyKeys<K>(init: seq<K>, xs: seq<Incident>, keyOf: Incident -> K)
    requires Distinct(init)
    ensures forall b :: b in Tally(init, xs, keyOf) ==> Tallied(xs, keyOf, b)
    ensures forall b :: b in Tally(init, xs, keyOf) ==>
      b.key in init || exists i :: 0 <= i < |xs| && keyOf(xs[i]) == b.key
    ensures forall i :: 0 <= i < |xs| ==> exists b :: b in Tally(init, xs, keyOf) && b.key == keyOf(xs[i])
    ensures DistinctBy(Tally(init, xs, keyOf), KeyOf)
  {
    var keys := Keys(init, xs, keyOf);
    var t := Tally(init, xs, keyOf);
    KeysSpec(init, xs, keyOf);
    forall b | b in t ensures b.key in keys && Tallied(xs, keyOf, b) {
      var k :| 0 <= k < |t| && t[k] == b;
      assert keys[k] in keys;
    }
    forall i | 0 <= i < |xs| ensures exists b :: b in t && b.key == keyOf(xs[i]) {
      var k :| 0 <= k < |keys| && keys[k] == keyOf(xs[i]);
      assert t[k] in t;
    }
  }

  // ---------------------------------------------------------------------
  // By year

  function YearKey(yearOf: int -> int): Incident -> int {
    (i: Incident) => yearOf(i.reportDat)
  }

  function BucketYear(b: Bucket<int>): int {
    b.key
  }

  /** `aggregateCrimeByYear`'s result: the year buckets, in strictly ascending year order. */
  function CrimeByYear(xs: seq<Incident>, yearOf: int -> int): (r: seq<Bucket<int>>)
    ensures forall i, j :: 0 <= i < j < |r| ==> r[i].key < r[j].key
  {
    var pre := Tally([], xs, YearKey(yearOf));
    TallyKeys([], xs, YearKey(yearOf));
    assert forall i, j :: 0 <= i < j < |pre| ==> BucketYear(pre[i]) != BucketYear(pre[j]) by {
      assert DistinctBy(pre, KeyOf);
    }
    SortByStrict(pre, BucketYear);
    SortBy(pre, BucketYear)
  }

  /** There is a bucket for exactly the years that occur, each holding that year's counts. */
  lemma CrimeByYearKeys(xs: seq<Incident>, yearOf: int -> int)
    ensures forall b :: b in CrimeByYear(xs, yearOf) ==>
      Tallied(xs, YearKey(yearOf), b) && exists i :: 0 <= i < |xs| && yearOf(xs[i].reportDat) == b.key
    ensures forall i :: 0 <= i < |xs| ==> exists b :: b in CrimeByYear(xs, yearOf) && b.key == yearOf(xs[i].reportDat)
  {
    TallyKeys([], xs, YearKey(yearOf));
    SortByMembers(Tally([], xs, YearKey(yearOf)), BucketYear);
  }

  /** Conservation: the year buckets' columns add up to the ward-7 and ward-8 incident counts. */
  lemma CrimeByYearTotals(xs: seq<Incident>, yearOf: int -> int)
    ensures SumOf(CrimeByYear(xs, yearOf), Ward7Of) == CountIf(xs, IsWard7)
    ensures SumOf(CrimeByYear(xs, yearOf), Ward8Of) == CountIf(xs, IsWard8)
  {
    Conservation([], xs, YearKey(yearOf));
    SortBySum(Tally([], xs, YearKey(yearOf)), BucketYear, Ward7Of);
    SortBySum(Tally([], xs, YearKey(yearOf)), BucketYear, Ward8Of);
  }

  /** `aggregateCrimeByYear`: the counting loop, then the sort by year. */
  method AggregateCrimeByYear(xs: seq<Incident>, yearOf: int -> int) returns (result: seq<Bucket<int>>)
    ensures result == CrimeByYear(xs, yearOf)
  {
    var rows := CountByKey(xs, YearKey(yearOf), []);
    result := SortBy(rows, BucketYear);
  }

  /** An incident outside wards 7 and 8 still opens its year, with both columns at zero. */
  lemma OtherWardOpensBucket(i: Incident, yearOf: int -> int)
    requires !IsWard7(i) && !IsWard8(i)
    ensures CrimeByYear([i], yearOf) == [Bucket(yearOf(i.reportDat), 0, 0, 0)]
  {
    var keyOf := YearKey(yearOf);
    var y := yearOf(i.reportDat);
    assert [i][..0] == [];
    assert keyOf(i) == y;
    assert y !in Start<int>([]).members;
    assert GroupBy(Start([]), [i], keyOf) == Add(Start([]), y, i);
    assert Keys([], [i], keyOf) == [y];
    assert Select([i], keyOf, y) == Select([], keyOf, y) + [i] == [i];
    assert CountIf([i], IsWard7) == CountIf([], IsWard7) + 0;
    assert CountIf([i], IsWard8) == CountIf([], IsWard8) + 0;
    assert BucketFor([i], keyOf, y) == Bucket(y, 0, 0, 0);
    assert Tally([], [i], keyOf) == [Bucket(y, 0, 0, 0)];
  }

  // ---------------------------------------------------------------------
  // By offense and by method

  function OffenseOf(i: Incident): string {
    i.offense
  }

  function MethodOf(i: Incident): string {
    i.weapon
  }

  function NegTotal<K>(b: Bucket<K>): int {
    -(b.total as int)
  }

  /** `aggregateCrimeByOffense`'s result: the offense buckets, largest total first. */
  function CrimeByOffense(xs: seq<Incident>): (r: seq<Bucket<string>>)
    ensures forall i, j :: 0 <= i < j < |r| ==> r[i].total >= r[j].total
    ensures multiset(r) == multiset(Tally([], xs, OffenseOf))
  {
    var r := SortBy(Tally([], xs, OffenseOf), NegTotal);
    assert SortedBy(r, NegTotal);
    r
  }

  /** There is one bucket for exactly the offenses that occur, each holding that offense's counts. */
  lemma CrimeByOffenseKeys(xs: seq<Incident>)
    ensures forall b :: b in CrimeByOffense(xs) ==>
      Tallied(xs, OffenseOf, b) && exists i :: 0 <= i < |xs| && xs[i].offense == b.key
    ensures forall i :: 0 <= i < |xs| ==> exists b :: b in CrimeByOffense(xs) && b.key == xs[i].offense
    ensures DistinctBy(CrimeByOffense(xs), KeyOf)
  {
    var t := Tally([], xs, OffenseOf);
    var r := CrimeByOffense(xs);
    TallyKeys([], xs, OffenseOf);
    assert r == SortBy(t, NegTotal);
    SortByDistinct(t, NegTotal, KeyOf);
    forall b | b in r
      ensures Tallied(xs, OffenseOf, b) && exists i :: 0 <= i < |xs| && xs[i].offense == b.key
    {
      assert b in multiset(r);
    }
    forall i | 0 <= i < |xs|
      ensures exists b :: b in r && b.key == xs[i].offense
    {
      var b :| b in t && b.key == xs[i].offense;
      assert b in multiset(t);
    }
  }

  /** Conservation: the offense buckets' columns add up to the ward-7 and ward-8 incident counts. */
  lemma CrimeByOffenseTotals(xs: seq<Incident>)
    ensures SumOf(CrimeByOffense(xs), Ward7Of) == CountIf(xs, IsWard7)
    ensures SumOf(CrimeByOffense(xs), Ward8Of) == CountIf(xs, IsWard8)
  {
    Conservation([], xs, OffenseOf);
    SortBySum(Tally([], xs, OffenseOf), NegTotal, Ward7Of);
    SortBySum(Tally([], xs, OffenseOf), NegTotal, Ward8Of);
  }

  /** `aggregateCrimeByOffense`: the counting loop, then the sort by total, largest first. */
  method AggregateCrimeByOffense(xs: seq<Incident>) returns (result: seq<Bucket<string>>)
    ensures result == CrimeByOffense(xs)
  {
    var rows := CountByKey(xs, OffenseOf, []);
    result := SortBy(rows, NegTotal);
  }

  /** `methodLabels` of `aggregateCrimeByMethod`. */
  const METHOD_LABELS: map<string, string> := map["GUN" := "Gun", "KNIFE" := "Knife", "OTHERS" := "Other"]

  /** `methodLabels[method] || method`: the label of a known method, any other unchanged. */
  function MethodLabel(m: string): (l: string)
    ensures m in METHOD_LABELS ==> l == METHOD_LABELS[m]
    ensures m !in METHOD_LABELS ==> l == m
  {
    if m in METHOD_LABELS then METHOD_LABELS[m] else m
  }

  function Relabel(b: Bucket<string>): Bucket<string> {
    b.(key := MethodLabel(b.key))
  }

  function Relabelled(bs: seq<Bucket<string>>): (r: seq<Bucket<string>>)
    ensures |r| == |bs|
    ensures forall i :: 0 <= i < |bs| ==> r[i] == Relabel(bs[i])
  {
    seq(|bs|, i requires 0 <= i < |bs| => Relabel(bs[i]))
  }

  lemma {:induction false} RelabelledSum(bs: seq<Bucket<string>>, f: Bucket<string> -> int)
    requires forall b :: f(Relabel(b)) == f(b)
    ensures SumOf(Relabelled(bs), f) == SumOf(bs, f)
  {
    if bs != [] {
      assert Relabelled(bs)[1..] == Relabelled(bs[1..]);
      RelabelledSum(bs[1..], f);
    }
  }

  /** `aggregateCrimeByMethod`'s result: the method buckets under their labels, largest total first. */
  function CrimeByMethod(xs: seq<Incident>): (r: seq<Bucket<string>>)
    ensures forall i, j :: 0 <= i < j < |r| ==> r[i].total >= r[j].total
    ensures multiset(r) == multiset(Relabelled(Tally([], xs, MethodOf)))
  {
    var r := SortBy(Relabelled(Tally([], xs, MethodOf)), NegTotal);
    assert SortedBy(r, NegTotal);
    r
  }

  /** Each bucket is the bucket of some incident's method, under that method's label. */
  lemma CrimeByMethodSound(xs: seq<Incident>)
    ensures forall b :: b in CrimeByMethod(xs) ==>
      exists i :: 0 <= i < |xs| && b == Relabel(BucketFor(xs, MethodOf, xs[i].weapon))
  {
    var raw := Tally([], xs, MethodOf);
    var pre := Relabelled(raw);
    var r := CrimeByMethod(xs);
    forall k | 0 <= k < |pre| ensures exists i :: 0 <= i < |xs| && pre[k] == Relabel(BucketFor(xs, MethodOf, xs[i].weapon)) {
      var b := raw[k];
      assert b in raw;
      TallyKeys([], xs, MethodOf);
      assert b.key in [] || exists i :: 0 <= i < |xs| && MethodOf(xs[i]) == b.key;
      var i :| 0 <= i < |xs| && MethodOf(xs[i]) == b.key;
      assert Tallied(xs, MethodOf, b);
      assert pre[k] == Relabel(BucketFor(xs, MethodOf, xs[i].weapon));
    }
    forall b | b in r ensures exists i :: 0 <= i < |xs| && b == Relabel(BucketFor(xs, MethodOf, xs[i].weapon)) {
      assert b in multiset(pre) by {
        assert b in multiset(r);
      }
      var k :| 0 <= k < |pre| && pre[k] == b;
    }
  }

  /** Every incident's method has its bucket, under the method's label. */
  lemma CrimeByMethodComplete(xs: seq<Incident>)
    ensures forall i :: 0 <= i < |xs| ==> Relabel(BucketFor(xs, MethodOf, xs[i].weapon)) in CrimeByMethod(xs)
  {
    var raw := Tally([], xs, MethodOf);
    var pre := Relabelled(raw);
    TallyKeys([], xs, MethodOf);
    SortByMembers(pre, NegTotal);
    forall i | 0 <= i < |xs| ensures Relabel(BucketFor(xs, MethodOf, xs[i].weapon)) in pre {
      var b :| b in raw && b.key == MethodOf(xs[i]);
      var k :| 0 <= k < |raw| && raw[k] == b;
      assert pre[k] == Relabel(b);
    }
  }

  /** Conservation: the method buckets' columns add up to the ward-7 and ward-8 incident counts. */
  lemma CrimeByMethodTotals(xs: seq<Incident>)
    ensures SumOf(CrimeByMethod(xs), Ward7Of) == CountIf(xs, IsWard7)
    ensures SumOf(CrimeByMethod(xs), Ward8Of) == CountIf(xs, IsWard8)
  {
    var raw := Tally([], xs, MethodOf);
    Conservation([], xs, MethodOf);
    RelabelledSum(raw, Ward7Of);
    RelabelledSum(raw, Ward8Of);
    SortBySum(Relabelled(raw), NegTotal, Ward7Of);
    SortBySum(Relabelled(raw), NegTotal, Ward8Of);
  }

  /** `aggregateCrimeByMethod`: the counting loop, the labels, then the sort by total. */
  method AggregateCrimeByMethod(xs: seq<Incident>) returns (result: seq<Bucket<string>>)
    ensures result == CrimeByMethod(xs)
  {
    var rows := CountByKey(xs, MethodOf, []);
    result := SortBy(Relabelled(rows), NegTotal);
  }

  // ---------------------------------------------------------------------
  // By shift

  /** The shifts reported, in order; the counters start with them. */
  const SHIFTS: seq<string> := ["DAY", "EVENING", "MIDNIGHT"]

  /** `shiftLabels` of `aggregateCrimeByShift`. */
  const SHIFT_LABELS: map<string, string> :=
    map["DAY" := "Day (7am-3pm)", "EVENING" := "Evening (3pm-11pm)", "MIDNIGHT" := "Midnight (11pm-7am)"]

  function ShiftOf(i: Incident): string {
    i.shift
  }

  /** `shiftLabels[shift] || shift`. */
  function ShiftLabel(s: string): (l: string)
    ensures s in SHIFT_LABELS ==> l == SHIFT_LABELS[s]
    ensures s !in SHIFT_LABELS ==> l == s
  {
    if s in SHIFT_LABELS then SHIFT_LABELS[s] else s
  }

  lemma ShiftsDistinct()
    ensures Distinct(SHIFTS)
    ensures forall k :: 0 <= k < |SHIFTS| ==> SHIFTS[k] in SHIFT_LABELS
  {
  }

  /** The row of one shift: its counts, under its label. */
  function ShiftRow(xs: seq<Incident>, s: string): Bucket<string> {
    BucketFor(xs, ShiftOf, s).(key := ShiftLabel(s))
  }

  function ShiftRows(shifts: seq<string>, xs: seq<Incident>): (r: seq<Bucket<string>>)
    ensures |r| == |shifts|
    ensures forall k :: 0 <= k < |shifts| ==> r[k] == ShiftRow(xs, shifts[k])
  {
    seq(|shifts|, k requires 0 <= k < |shifts| => ShiftRow(xs, shifts[k]))
  }

  /**
   * `aggregateCrimeByShift`'s result: always one row per shift of `SHIFTS`,
   * in that order, under its label, with that shift's counts; an incident
   * of any other shift is counted in none of them.
   */
  function CrimeByShift(xs: seq<Incident>): (r: seq<Bucket<string>>)
    ensures |r| == |SHIFTS|
    ensures forall k :: 0 <= k < |SHIFTS| ==>
      r[k].key == SHIFT_LABELS[SHIFTS[k]] && Tallied(xs, ShiftOf, r[k].(key := SHIFTS[k]))
  {
    ShiftsDistinct();
    ShiftRows(SHIFTS, xs)
  }

  /** `aggregateCrimeByShift`: the counters start with the three shifts, and only those are reported. */
  method AggregateCrimeByShift(xs: seq<Incident>) returns (result: seq<Bucket<string>>)
    ensures result == CrimeByShift(xs)
  {
    ShiftsDistinct();
    var order, counts := TallyByKey(xs, ShiftOf, SHIFTS);
    assert forall k :: 0 <= k < |SHIFTS| ==> SHIFTS[k] in counts by {
      KeysSpec(SHIFTS, xs, ShiftOf);
      assert SHIFTS <= order;
    }
    result := [];
    var j := 0;
    while j < |SHIFTS|
      invariant 0 <= j <= |SHIFTS|
      invariant |result| == j
      invariant forall k :: 0 <= k < j ==> result[k] == ShiftRow(xs, SHIFTS[k])
    {
      var s := SHIFTS[j];
      var data := counts[s];
      var row := Bucket(ShiftLabel(s), data.ward7, data.ward8, data.ward7 + data.ward8);
      assert row == ShiftRow(xs, s);
      result := result + [row];
      j := j + 1;
    }
  }

  /** An incident whose shift is none of the three changes nothing in the result. */
  lemma OffShiftIgnored(xs: seq<Incident>, i: Incident)
    requires i.shift !in SHIFTS
    ensures CrimeByShift(xs + [i]) == CrimeByShift(xs)
  {
    forall k | 0 <= k < |SHIFTS| ensures ShiftRow(xs + [i], SHIFTS[k]) == ShiftRow(xs, SHIFTS[k]) {
      SelectStep(xs, i, ShiftOf, SHIFTS[k]);
      assert Select(xs + [i], ShiftOf, SHIFTS[k]) == Select(xs, ShiftOf, SHIFTS[k]);
    }
  }

  lemma {:induction false} ShiftRowsSum(shifts: seq<string>, xs: seq<Incident>)
    ensures SumOf(ShiftRows(shifts, xs), Ward7Of) == SelectCount(shifts, xs, ShiftOf, IsWard7)
    ensures SumOf(ShiftRows(shifts, xs), Ward8Of) == SelectCount(shifts, xs, ShiftOf, IsWard8)
  {
    if shifts != [] {
      assert ShiftRows(shifts, xs)[1..] == ShiftRows(shifts[1..], xs);
      ShiftRowsSum(shifts[1..], xs);
    }
  }

  /** When every incident is of one of the three shifts, the shift rows account for all of them. */
  lemma ShiftConservation(xs: seq<Incident>)
    requires forall i :: 0 <= i < |xs| ==> xs[i].shift in SHIFTS
    ensures SumOf(CrimeByShift(xs), Ward7Of) == CountIf(xs, IsWard7)
    ensures SumOf(CrimeByShift(xs), Ward8Of) == CountIf(xs, IsWard8)
  {
    ShiftsDistinct();
    SelectCountAll(SHIFTS, xs, ShiftOf, IsWard7);
    SelectCountAll(SHIFTS, xs, ShiftOf, IsWard8);
    ShiftRowsSum(SHIFTS, xs);
  }

  // ---------------------------------------------------------------------
  // Trend

  datatype Direction = Up | Down | Stable

  /** `change > 0 ? 'up' : change < 0 ? 'down' : 'stable'`. */
  function DirectionOf(change: int): (d: Direction)
    ensures d == Up <==> change > 0
    ensures d == Down <==> change < 0
    ensures d == Stable <==> change == 0
  {
    if change > 0 then Up else if change < 0 then Down else Stable
  }

  datatype CrimeTrend = CrimeTrend(
    ward7Change: int,
    ward8Change: int,
    ward7Percent: real,
    ward8Percent: real,
    direction7: Direction,
    direction8: Direction)

  function NegYear(b: Bucket<int>): int {
    -b.key
  }

  /**
   * `current` and `previous` are two of the buckets, `current`'s year is
   * not earlier than `previous`'s, and every other bucket's year is not
   * later than `previous`'s: they are the latest and second-latest years.
   */
  ghost predicate LatestTwo(yearly: seq<Bucket<int>>, current: Bucket<int>, previous: Bucket<int>) {
    && multiset{current, previous} <= multiset(yearly)
    && previous.key <= current.key
    && forall b :: b in multiset(yearly) - multiset{current, previous} ==> b.key <= previous.key
  }

  lemma FirstTwo<T>(s: seq<T>)
    requires |s| >= 2
    ensures multiset(s) == multiset{s[0], s[1]} + multiset(s[2..])
  {
    assert s == [s[0], s[1]] + s[2..];
  }

  /** The first two buckets of the descending sort by year are the latest two. */
  lemma SortedLatestTwo(yearly: seq<Bucket<int>>)
    requires |yearly| >= 2
    ensures LatestTwo(yearly, SortBy(yearly, NegYear)[0], SortBy(yearly, NegYear)[1])
  {
    DescendingLatestTwo(yearly, SortBy(yearly, NegYear));
  }

  lemma DescendingLatestTwo(yearly: seq<Bucket<int>>, sorted: seq<Bucket<int>>)
    requires |sorted| >= 2 && multiset(sorted) == multiset(yearly) && SortedBy(sorted, NegYear)
    ensures LatestTwo(yearly, sorted[0], sorted[1])
  {
    var current, previous := sorted[0], sorted[1];
    var rest := sorted[2..];
    FirstTwo(sorted);
    assert multiset(yearly) - multiset{current, previous} == multiset(rest);
    forall k | 0 <= k < |rest| ensures rest[k].key <= previous.key {
      assert rest[k] == sorted[k + 2];
      assert NegYear(sorted[1]) <= NegYear(sorted[k + 2]);
    }
    assert NegYear(sorted[0]) <= NegYear(sorted[1]);
  }

  /**
   * `getCrimeTrend`: with fewer than two years, no change; otherwise the
   * change from the second-latest to the latest year present (adjacent or
   * not), per ward, with the percentage taken on the earlier year (0 when
   * that is 0) and the direction of the change.
   */
  function GetCrimeTrend(yearly: seq<Bucket<int>>): (t: CrimeTrend)
    ensures |yearly| < 2 ==> t == CrimeTrend(0, 0, 0.0, 0.0, Stable, Stable)
    ensures |yearly| >= 2 ==>
      exists current, previous ::
        && LatestTwo(yearly, current, previous)
        && t.ward7Change == current.ward7 - previous.ward7
        && t.ward8Change == current.ward8 - previous.ward8
        && t.ward7Percent == CalculatePercent(t.ward7Change as real, previous.ward7 as real)
        && t.ward8Percent == CalculatePercent(t.ward8Change as real, previous.ward8 as real)
    ensures t.direction7 == DirectionOf(t.ward7Change) && t.direction8 == DirectionOf(t.ward8Change)
  {
    if |yearly| < 2 then CrimeTrend(0, 0, 0.0, 0.0, Stable, Stable)
    else
      var sorted := SortBy(yearly, NegYear);
      var current := sorted[0];
      var previous := sorted[1];
      var change7 := current.ward7 - previous.ward7;
      var change8 := current.ward8 - previous.ward8;
      SortedLatestTwo(yearly);
      CrimeTrend(change7, change8,
                 CalculatePercent(change7 as real, previous.ward7 as real),
                 CalculatePercent(change8 as real, previous.ward8 as real),
                 DirectionOf(change7), DirectionOf(change8))
  }

  // ---------------------------------------------------------------------
  // Top offenses, year filter, statistics

  /** `getTopCrimeTypes`'s default `limit`. */
  const DEFAULT_TOP_LIMIT := 8

  /**
   * `byOffense.slice(0, limit)`: the first `limit` entries (all when there
   * are fewer); a negative limit counts from the end, as `slice` does.
   */
  function GetTopCrimeTypes(byOffense: seq<Bucket<string>>, limit: int): (r: seq<Bucket<string>>)
    ensures r <= byOffense
    ensures limit >= 0 ==> |r| == if limit < |byOffense| then limit else |byOffense|
    ensures limit < 0 ==> |r| == if |byOffense| + limit > 0 then |byOffense| + limit else 0
  {
    var end := if limit >= 0 then (if limit < |byOffense| then limit else |byOffense|)
               else (if |byOffense| + limit > 0 then |byOffense| + limit else 0);
    byOffense[..end]
  }

  /** `filterByYear`: the incidents of one year, in input order. */
  function FilterByYear(xs: seq<Incident>, year: int, yearOf: int -> int): (r: seq<Incident>)
    ensures |r| <= |xs|
    ensures forall i :: i in r <==> i in xs && yearOf(i.reportDat) == year
  {
    if xs == [] then []
    else
      var n := |xs| - 1;
      assert xs == xs[..n] + [xs[n]];
      FilterByYear(xs[..n], year, yearOf) + (if yearOf(xs[n].reportDat) == year then [xs[n]] else [])
  }

  /** Filtering a concatenation filters each part and keeps them in order. */
  lemma {:induction false} FilterByYearAppend(xs: seq<Incident>, ys: seq<Incident>, year: int, yearOf: int -> int)
    ensures FilterByYear(xs + ys, year, yearOf) == FilterByYear(xs, year, yearOf) + FilterByYear(ys, year, yearOf)
  {
    if ys == [] {
      assert xs + ys == xs;
    } else {
      var n := |ys| - 1;
      assert (xs + ys)[..|xs + ys| - 1] == xs + ys[..n];
      FilterByYearAppend(xs, ys[..n], year, yearOf);
    }
  }

  /** A single incident is kept exactly when it is of that year. */
  lemma FilterByYearOne(x: Incident, year: int, yearOf: int -> int)
    ensures FilterByYear([x], year, yearOf) == if yearOf(x.reportDat) == year then [x] else []
  {
    assert [x][..0] == [];
  }

  /** After filtering by a year, the yearly aggregation has only that year. */
  lemma FilterByYearSingle(xs: seq<Incident>, year: int, yearOf: int -> int)
    ensures forall b :: b in CrimeByYear(FilterByYear(xs, year, yearOf), yearOf) ==> b.key == year
  {
    var ys := FilterByYear(xs, year, yearOf);
    CrimeByYearKeys(ys, yearOf);
    AscendingSingle(CrimeByYear(ys, yearOf), ys, year, yearOf);
  }

  lemma AscendingSingle(r: seq<Bucket<int>>, ys: seq<Incident>, year: int, yearOf: int -> int)
    requires forall i, j :: 0 <= i < j < |r| ==> r[i].key < r[j].key
    requires forall b :: b in r ==> exists i :: 0 <= i < |ys| && yearOf(ys[i].reportDat) == b.key
    requires forall y :: y in ys ==> yearOf(y.reportDat) == year
    ensures forall b :: b in r ==> b.key == year
  {
    forall k | 0 <= k < |r| ensures r[k].key == year {
      assert r[k] in r;
      var i :| 0 <= i < |ys| && yearOf(ys[i].reportDat) == r[k].key;
      assert ys[i] in ys;
    }
  }

  datatype Totals = Totals(ward7: nat, ward8: nat, all: nat)

  datatype LatestYear = LatestYear(year: int, ward7: nat, ward8: nat)

  datatype CrimeStats = CrimeStats(
    totalByYear: seq<Bucket<int>>,
    byOffense: seq<Bucket<string>>,
    byShift: seq<Bucket<string>>,
    byMethod: seq<Bucket<string>>,
    trend: CrimeTrend,
    totals: Totals,
    latestYear: LatestYear)

  /**
   * `getCrimeStats`: the four aggregations and the trend; totals counting
   * the ward-7 and ward-8 incidents (which the yearly buckets add up to);
   * and the latest year, which is the largest year present, or zeros.
   */
  function GetCrimeStats(xs: seq<Incident>, yearOf: int -> int): (s: CrimeStats)
    ensures s.totals.ward7 == CountIf(xs, IsWard7) && s.totals.ward8 == CountIf(xs, IsWard8)
    ensures s.totals.all == s.totals.ward7 + s.totals.ward8
    ensures s.totals.ward7 == SumOf(s.totalByYear, Ward7Of) && s.totals.ward8 == SumOf(s.totalByYear, Ward8Of)
    ensures xs == [] ==> s.latestYear == LatestYear(0, 0, 0)
    ensures xs != [] ==>
      (exists b :: b in s.totalByYear && s.latestYear == LatestYear(b.key, b.ward7, b.ward8))
      && forall i :: 0 <= i < |xs| ==> yearOf(xs[i].reportDat) <= s.latestYear.year
    ensures s.totalByYear == CrimeByYear(xs, yearOf) && s.byOffense == CrimeByOffense(xs)
    ensures s.byShift == CrimeByShift(xs) && s.byMethod == CrimeByMethod(xs)
    ensures s.trend == GetCrimeTrend(s.totalByYear)
  {
    var totalByYear := CrimeByYear(xs, yearOf);
    var w7 := CountIf(xs, IsWard7);
    var w8 := CountIf(xs, IsWard8);
    var latest :=
      if |totalByYear| > 0 then
        var b := totalByYear[|totalByYear| - 1];
        LatestYear(b.key, b.ward7, b.ward8)
      else LatestYear(0, 0, 0);
    LatestIsMax(xs, yearOf);
    CrimeByYearTotals(xs, yearOf);
    assert |totalByYear| > 0 ==> totalByYear[|totalByYear| - 1] in totalByYear;
    CrimeStats(totalByYear, CrimeByOffense(xs), CrimeByShift(xs), CrimeByMethod(xs),
               GetCrimeTrend(totalByYear), Totals(w7, w8, w7 + w8), latest)
  }

  /** The last yearly bucket is that of the largest year; there is none without incidents. */
  lemma LatestIsMax(xs: seq<Incident>, yearOf: int -> int)
    ensures xs == [] <==> |CrimeByYear(xs, yearOf)| == 0
    ensures forall i :: 0 <= i < |xs| ==>
      yearOf(xs[i].reportDat) <= CrimeByYear(xs, yearOf)[|CrimeByYear(xs, yearOf)| - 1].key
  {
    CrimeByYearKeys(xs, yearOf);
    if xs == [] {
      assert Keys([], xs, YearKey(yearOf)) == [];
    }
    AscendingLast(CrimeByYear(xs, yearOf), xs, yearOf);
  }

  lemma AscendingLast(r: seq<Bucket<int>>, xs: seq<Incident>, yearOf: int -> int)
    requires forall i, j :: 0 <= i < j < |r| ==> r[i].key < r[j].key
    requires forall i :: 0 <= i < |xs| ==> exists b :: b in r && b.key == yearOf(xs[i].reportDat)
    ensures xs != [] ==> |r| > 0
    ensures forall i :: 0 <= i < |xs| ==> yearOf(xs[i].reportDat) <= r[|r| - 1].key
  {
    if xs != [] {
      assert exists b :: b in r && b.key == yearOf(xs[0].reportDat);
    }
    forall i | 0 <= i < |xs| ensures yearOf(xs[i].reportDat) <= r[|r| - 1].key {
      var b :| b in r && b.key == yearOf(xs[i].reportDat);
      var k :| 0 <= k < |r| && r[k] == b;
      if k < |r| - 1 {
        assert r[k].key < r[|r| - 1].key;
      }
    }
  }

  // ---------------------------------------------------------------------
  // Chart data

  datatype ChartPoint = ChartPoint(category: string, ward7: nat, ward8: nat)

  /** `nameMap` of `formatOffenseName`. */
  const OFFENSE_NAMES: map<string, string> := map[
    "THEFT/OTHER" := "Theft",
    "THEFT F/AUTO" := "Theft from Auto",
    "MOTOR VEHICLE THEFT" := "Motor Vehicle Theft",
    "ASSAULT W/DANGEROUS WEAPON" := "Assault w/ Weapon",
    "SEX ABUSE" := "Sex Abuse",
    "HOMICIDE" := "Homicide",
    "ROBBERY" := "Robbery",
    "BURGLARY" := "Burglary",
    "ARSON" := "Arson"]

  /** `nameMap[offense] || offense`: the display name of a known offense, any other unchanged. */
  function FormatOffenseName(offense: string): (r: string)
    ensures offense in OFFENSE_NAMES ==> r == OFFENSE_NAMES[offense]
    ensures offense !in OFFENSE_NAMES ==> r == offense
  {
    if offense in OFFENSE_NAMES then OFFENSE_NAMES[offense] else offense
  }

  /** No display name is itself a raw name, so formatting twice changes nothing more. */
  lemma FormatOffenseNameIdempotent(offense: string)
    ensures FormatOffenseName(FormatOffenseName(offense)) == FormatOffenseName(offense)
  {
    assert forall k :: k in OFFENSE_NAMES ==> OFFENSE_NAMES[k] !in OFFENSE_NAMES;
  }

  function OffensePoint(b: Bucket<string>): ChartPoint {
    ChartPoint(FormatOffenseName(b.key), b.ward7, b.ward8)
  }

  function LabelPoint(b: Bucket<string>): ChartPoint {
    ChartPoint(b.key, b.ward7, b.ward8)
  }

  /** `getCrimeOffenseChartData`: one point per bucket, under the offense's display name. */
  function GetCrimeOffenseChartData(byOffense: seq<Bucket<string>>): (r: seq<ChartPoint>)
    ensures |r| == |byOffense|
    ensures forall i :: 0 <= i < |r| ==> r[i] == ChartPoint(FormatOffenseName(byOffense[i].key), byOffense[i].ward7, byOffense[i].ward8)
  {
    seq(|byOffense|, i requires 0 <= i < |byOffense| => OffensePoint(byOffense[i]))
  }

  /** `getCrimeShiftChartData` and `getCrimeMethodChartData`: one point per bucket, under its label. */
  function GetLabelChartData(buckets: seq<Bucket<string>>): (r: seq<ChartPoint>)
    ensures |r| == |buckets|
    ensures forall i :: 0 <= i < |r| ==> r[i] == ChartPoint(buckets[i].key, buckets[i].ward7, buckets[i].ward8)
  {
    seq(|buckets|, i requires 0 <= i < |buckets| => LabelPoint(buckets[i]))
  }

  /** The shift chart always has the three shift points, in order. */
  lemma ShiftChartShape(xs: seq<Incident>)
    ensures |GetLabelChartData(CrimeByShift(xs))| == 3
    ensures GetLabelChartData(CrimeByShift(xs))[0].category == "Day (7am-3pm)"
    ensures GetLabelChartData(CrimeByShift(xs))[1].category == "Evening (3pm-11pm)"
    ensures GetLabelChartData(CrimeByShift(xs))[2].category == "Midnight (11pm-7am)"
  {
  }

  datatype WardColumn = Ward7Column | Ward8Column

  /** `getYearlySparkline`: one ward's column of the yearly buckets. */
  function GetYearlySparkline(yearly: seq<Bucket<int>>, ward: WardColumn): (r: seq<nat>)
    ensures |r| == |yearly|
    ensures forall i :: 0 <= i < |r| ==> r[i] == if ward == Ward7Column then yearly[i].ward7 else yearly[i].ward8
  {
    seq(|yearly|, i requires 0 <= i < |yearly| => if ward == Ward7Column then yearly[i].ward7 else yearly[i].ward8)
  }
}
