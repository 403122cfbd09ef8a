/**
 * The SNAP retailer transformer: store-type classification, the active
 * filter, per-ZIP summaries for the wards' three ZIP codes, the category
 * distribution and the headline statistics.
 */
module Snap {
  import opened Wrappers
  import opened Text
  import opened Sorting
  import opened Grouping
  import opened Formatters

  /** The five categories `normalizeStoreType` returns. */
  datatype StoreCategory = Supermarket | GroceryStore | ConvenienceStore | FarmersMarket | OtherStore

  /** The category's name as the dashboard shows it. */
  function Label(c: StoreCategory): string {
    match c
    case Supermarket => "Supermarket"
    case GroceryStore => "Grocery Store"
    case ConvenienceStore => "Convenience Store"
    case FarmersMarket => "Farmers Market"
    case OtherStore => "Other"
  }

  /**
   * A retailer as the dashboard reads it. A coordinate that is missing is
   * `None`; an `End Date` that is missing is the empty string, since both are
   * falsy there.
   */
  datatype Retailer = Retailer(
    storeName: string,
    storeType: string,
    streetNumber: string,
    streetName: string,
    city: string,
    state: string,
    zipCode: string,
    latitude: Option<real>,
    longitude: Option<real>,
    endDate: string)

  /**
   * `normalizeStoreType`: case-insensitive substring rules tried in order,
   * the first that matches deciding.
   */
  function NormalizeStoreType(storeType: string): StoreCategory {
    var t := Lower(storeType);
    if Contains(t, "supermarket") || Contains(t, "super store") then Supermarket
    else if Contains(t, "large grocery") || Contains(t, "medium grocery") || Contains(t, "small grocery") then GroceryStore
    else if Contains(t, "convenience") then ConvenienceStore
    else if Contains(t, "farmer") then FarmersMarket
    else OtherStore
  }

  /**
   * The classification depends on the lower-cased text only, and a rule
   * decides only when every earlier rule has failed.
   */
  lemma NormalizeRules(storeType: string, other: string)
    ensures Lower(storeType) == Lower(other) ==> NormalizeStoreType(storeType) == NormalizeStoreType(other)
    ensures var t, c := Lower(storeType), NormalizeStoreType(storeType);
      && (c == Supermarket <==> Contains(t, "supermarket") || Contains(t, "super store"))
      && (c == GroceryStore <==>
            (!(Contains(t, "supermarket") || Contains(t, "super store"))
             && (Contains(t, "large grocery") || Contains(t, "medium grocery") || Contains(t, "small grocery"))))
      && (c == ConvenienceStore <==> c != Supermarket && c != GroceryStore && Contains(t, "convenience"))
      && (c == FarmersMarket <==> c != Supermarket && c != GroceryStore && c != ConvenienceStore && Contains(t, "farmer"))
      && (c == OtherStore <==> c != Supermarket && c != GroceryStore && c != ConvenienceStore && !Contains(t, "farmer"))
  {
  }

  /**
   * "Combination Grocery/Other" matches no rule (its "grocery" has no size
   * in front of it) and falls to Other.
   */
  lemma NormalizeCombination(storeType: string)
    requires Lower(storeType) == "combination grocery/other"
    ensures NormalizeStoreType(storeType) == OtherStore
  {
    LacksLetters(Lower(storeType));
    NoRuleMatches(Lower(storeType));
  }

  lemma LacksLetters(t: string)
    requires t == "combination grocery/other"
    ensures 's' !in t && 'l' !in t && 'd' !in t && 'v' !in t && 'f' !in t
  {
  }

  /** The rule patterns between them hold the letters s, l, d, v and f. */
  lemma NoRuleMatches(t: string)
    requires 's' !in t && 'l' !in t && 'd' !in t && 'v' !in t && 'f' !in t
    ensures !Contains(t, "supermarket") && !Contains(t, "super store")
    ensures !Contains(t, "large grocery") && !Contains(t, "medium grocery") && !Contains(t, "small grocery")
    ensures !Contains(t, "convenience") && !Contains(t, "farmer")
  {
    MissingChar(t, "supermarket", 's');
    MissingChar(t, "super store", 's');
    MissingChar(t, "large grocery", 'l');
    MissingChar(t, "medium grocery", 'd');
    MissingChar(t, "small grocery", 's');
    MissingChar(t, "convenience", 'v');
    MissingChar(t, "farmer", 'f');
  }

  /** A large grocery store is a grocery store. */
  lemma NormalizeLargeGrocery(storeType: string)
    requires Lower(storeType) == "large grocery store"
    ensures NormalizeStoreType(storeType) == GroceryStore
  {
    var t := Lower(storeType);
    assert 'p' !in t;
    MissingChar(t, "supermarket", 'p');
    MissingChar(t, "super store", 'p');
    ContainsAt(t, "large grocery", 0);
  }

  function CategoryOf(r: Retailer): StoreCategory {
    NormalizeStoreType(r.storeType)
  }

  function ZipOf(r: Retailer): string {
    r.zipCode
  }

  /** Number of retailers of category `c`. */
  function CountCategory(rs: seq<Retailer>, c: StoreCategory): nat {
    if rs == [] then 0
    else
      var n := |rs| - 1;
      CountCategory(rs[..n], c) + (if CategoryOf(rs[n]) == c then 1 else 0)
  }

  /** Every retailer falls in exactly one category. */
  lemma {:induction false} CountCategorySum(rs: seq<Retailer>)
    ensures CountCategory(rs, Supermarket) + CountCategory(rs, GroceryStore) + CountCategory(rs, ConvenienceStore)
            + CountCategory(rs, FarmersMarket) + CountCategory(rs, OtherStore) == |rs|
  {
    if rs != [] {
      CountCategorySum(rs[..|rs| - 1]);
    }
  }

  // ---------------------------------------------------------------------
  // Active filter

  /**
   * A retailer without an end date is active; otherwise it is active iff its
   * end date parses to an instant strictly after `now`. `parseDate` is the
   * runtime's date parser, with `None` for an invalid date (every comparison
   * with which is false).
   */
  predicate IsActive(r: Retailer, now: int, parseDate: string -> Option<int>) {
    r.endDate == "" || (parseDate(r.endDate).Some? && parseDate(r.endDate).value > now)
  }

  /** `filterActiveRetailers`, with the clock reading passed in. */
  function FilterActiveRetailers(rs: seq<Retailer>, now: int, parseDate: string -> Option<int>): (r: seq<Retailer>)
    ensures |r| <= |rs|
  {
    if rs == [] then []
    else
      var n := |rs| - 1;
      FilterActiveRetailers(rs[..n], now, parseDate) + (if IsActive(rs[n], now, parseDate) then [rs[n]] else [])
  }

  /** The filter keeps exactly the active retailers. */
  lemma {:induction false} FilterActiveMembers(rs: seq<Retailer>, now: int, parseDate: string -> Option<int>)
    ensures forall x :: x in FilterActiveRetailers(rs, now, parseDate) <==> x in rs && IsActive(x, now, parseDate)
  {
    if rs != [] {
      var n := |rs| - 1;
      assert rs == rs[..n] + [rs[n]];
      FilterActiveMembers(rs[..n], now, parseDate);
    }
  }

  /** The filter keeps the input order: filtering a concatenation filters each part. */
  lemma {:induction false} FilterActiveAppend(xs: seq<Retailer>, ys: seq<Retailer>, now: int, parseDate: string -> Option<int>)
    ensures FilterActiveRetailers(xs + ys, now, parseDate)
         == FilterActiveRetailers(xs, now, parseDate) + FilterActiveRetailers(ys, now, parseDate)
  {
    if ys == [] {
      assert xs + ys == xs;
    } else {
      var n := |ys| - 1;
      assert (xs + ys)[..|xs + ys| - 1] == xs + ys[..n];
      FilterActiveAppend(xs, ys[..n], now, parseDate);
    }
  }

  /** An end date equal to the current instant already counts as ended. */
  lemma FilterActiveBoundary(r: Retailer, now: int, parseDate: string -> Option<int>)
    requires r.endDate != "" && parseDate(r.endDate) == Some(now)
    ensures FilterActiveRetailers([r], now, parseDate) == []
  {
    assert [r][..0] == [];
  }

  // ---------------------------------------------------------------------
  // Per-ZIP summaries

  /** The ZIP codes of wards 7 and 8, in ascending order. */
  const ALLOWED_ZIPS: seq<string> := ["20019", "20020", "20032"]

  datatype ZipSummary = ZipSummary(
    zipCode: string,
    total: nat,
    supermarkets: nat,
    grocery: nat,
    convenience: nat,
    farmersMarket: nat,
    other: nat)

  /** The summary of one ZIP's stores. */
  function Summarize(zip: string, stores: seq<Retailer>): (s: ZipSummary)
    ensures s.total == s.supermarkets + s.grocery + s.convenience + s.farmersMarket + s.other
  {
    CountCategorySum(stores);
    ZipSummary(zip, |stores|, CountCategory(stores, Supermarket), CountCategory(stores, GroceryStore),
               CountCategory(stores, ConvenienceStore), CountCategory(stores, FarmersMarket),
               CountCategory(stores, OtherStore))
  }

  /** The counting loop over one ZIP's stores. */
  method CountTypes(zip: string, stores: seq<Retailer>) returns (s: ZipSummary)
    ensures s == Summarize(zip, stores)
  {
    var supermarkets, grocery, convenience, farmersMarket, other := 0, 0, 0, 0, 0;
    var i := 0;
    while i < |stores|
      invariant 0 <= i <= |stores|
      invariant supermarkets == CountCategory(stores[..i], Supermarket)
      invariant grocery == CountCategory(stores[..i], GroceryStore)
      invariant convenience == CountCategory(stores[..i], ConvenienceStore)
      invariant farmersMarket == CountCategory(stores[..i], FarmersMarket)
      invariant other == CountCategory(stores[..i], OtherStore)
    {
      assert stores[..i + 1][..i] == stores[..i];
      match NormalizeStoreType(stores[i].storeType) {
        case Supermarket => supermarkets := supermarkets + 1;
        case GroceryStore => grocery := grocery + 1;
        case ConvenienceStore => convenience := convenience + 1;
        case FarmersMarket => farmersMarket := farmersMarket + 1;
        case OtherStore => other := other + 1;
      }
      i := i + 1;
    }
    assert stores[..|stores|] == stores;
    s := ZipSummary(zip, |stores|, supermarkets, grocery, convenience, farmersMarket, other);
  }

  /** One summary per ZIP of `zips` that some retailer has, in the order of `zips`. */
  function ZipSummaries(zips: seq<string>, rs: seq<Retailer>): seq<ZipSummary> {
    if zips == [] then []
    else
      var n := |zips| - 1;
      var stores := Select(rs, ZipOf, zips[n]);
      ZipSummaries(zips[..n], rs) + (if stores != [] then [Summarize(zips[n], stores)] else [])
  }

  function NegTotal(s: ZipSummary): int {
    -(s.total as int)
  }

  function SummaryZip(s: ZipSummary): string {
    s.zipCode
  }

  /** A summary of the right ZIP's retailers, for one of the allowed ZIPs. */
  ghost predicate SummaryOf(rs: seq<Retailer>, zips: seq<string>, s: ZipSummary) {
    s.zipCode in zips && s == Summarize(s.zipCode, Select(rs, ZipOf, s.zipCode)) && s.total >= 1
  }

  /** Each summary is that of a listed ZIP, computed from exactly the retailers with that ZIP. */
  lemma {:induction false} ZipSummariesSound(zips: seq<string>, rs: seq<Retailer>)
    ensures forall s :: s in ZipSummaries(zips, rs) ==> SummaryOf(rs, zips, s)
  {
    if zips != [] {
      var n := |zips| - 1;
      ZipSummariesSound(zips[..n], rs);
      assert forall z :: z in zips[..n] ==> z in zips;
    }
  }

  /** Every listed ZIP that some retailer has gets a summary. */
  lemma {:induction false} ZipSummariesComplete(zips: seq<string>, rs: seq<Retailer>, z: string)
    requires z in zips && Select(rs, ZipOf, z) != []
    ensures exists s :: s in ZipSummaries(zips, rs) && s.zipCode == z
  {
    var n := |zips| - 1;
    if zips[n] == z {
      assert Summarize(z, Select(rs, ZipOf, z)) in ZipSummaries(zips, rs);
    } else {
      assert z in zips[..n] by {
        var k :| 0 <= k < |zips| && zips[k] == z;
        assert zips[..n][k] == z;
      }
      ZipSummariesComplete(zips[..n], rs, z);
      var s :| s in ZipSummaries(zips[..n], rs) && s.zipCode == z;
      assert s in ZipSummaries(zips, rs);
    }
  }

  /** A list of ZIPs without repeats yields at most one summary per ZIP. */
  lemma {:induction false} ZipSummariesDistinct(zips: seq<string>, rs: seq<Retailer>)
    requires forall i, j :: 0 <= i < j < |zips| ==> zips[i] != zips[j]
    ensures DistinctBy(ZipSummaries(zips, rs), SummaryZip)
  {
    if zips != [] {
      var n := |zips| - 1;
      ZipSummariesDistinct(zips[..n], rs);
      ZipSummariesSound(zips[..n], rs);
      assert forall i :: 0 <= i < n ==> zips[..n][i] != zips[n];
      var pre := ZipSummaries(zips[..n], rs);
      var stores := Select(rs, ZipOf, zips[n]);
      if stores != [] {
        var all := pre + [Summarize(zips[n], stores)];
        forall i, j | 0 <= i < j < |all|
          ensures SummaryZip(all[i]) != SummaryZip(all[j])
        {
          assert all[i] == pre[i];
          if j < |pre| {
            assert all[j] == pre[j];
          } else {
            assert pre[i] in pre;
            assert SummaryOf(rs, zips[..n], pre[i]);
          }
        }
      }
    }
  }

  /**
   * `transformSNAPByZip`'s result: the summaries of the allowed ZIPs that
   * occur, by total, largest first. The grouping object enumerates its
   * integer-like keys in ascending order, so before the (stable) sort the
   * summaries come in the allow-list's ascending order.
   */
  function SnapByZip(rs: seq<Retailer>): (r: seq<ZipSummary>)
    ensures forall i, j :: 0 <= i < j < |r| ==> r[i].total >= r[j].total
    ensures forall s :: s in r ==>
      s.zipCode in ALLOWED_ZIPS && s == Summarize(s.zipCode, Select(rs, ZipOf, s.zipCode))
    ensures forall z :: z in ALLOWED_ZIPS && Select(rs, ZipOf, z) != [] ==> exists s :: s in r && s.zipCode == z
    ensures DistinctBy(r, SummaryZip)
    ensures forall v :: WithKey(r, NegTotal, v) == WithKey(ZipSummaries(ALLOWED_ZIPS, rs), NegTotal, v)
  {
    var pre := ZipSummaries(ALLOWED_ZIPS, rs);
    ZipSummariesSound(ALLOWED_ZIPS, rs);
    ZipSummariesDistinct(ALLOWED_ZIPS, rs);
    SortByDistinct(pre, NegTotal, SummaryZip);
    SortByMembers(pre, NegTotal);
    forall z | z in ALLOWED_ZIPS && Select(rs, ZipOf, z) != [] {
      ZipSummariesComplete(ALLOWED_ZIPS, rs, z);
    }
    SortBy(pre, NegTotal)
  }

  /** Every summary's total is the number of retailers with its ZIP, and its counts add up to it. */
  lemma SnapByZipTotals(rs: seq<Retailer>)
    ensures forall s :: s in SnapByZip(rs) ==>
      s.total == |Select(rs, ZipOf, s.zipCode)|
      && s.total == s.supermarkets + s.grocery + s.convenience + s.farmersMarket + s.other
      && s.supermarkets == CountCategory(Select(rs, ZipOf, s.zipCode), Supermarket)
      && s.other == CountCategory(Select(rs, ZipOf, s.zipCode), OtherStore)
  {
  }

  /** `transformSNAPByZip`: group by ZIP, count each allowed ZIP's categories, sort by total descending. */
  method TransformSnapByZip(rs: seq<Retailer>) returns (result: seq<ZipSummary>)
    ensures result == SnapByZip(rs)
  {
    var groups := GroupByZip(rs);
    var summaries := SummarizeAllowed(rs, groups);
    result := SortBy(summaries, NegTotal);
  }

  /** The loop that pushes each retailer onto its ZIP's list. */
  method GroupByZip(rs: seq<Retailer>) returns (groups: Groups<string, Retailer>)
    ensures groups == GroupBy(Groups([], map[]), rs, ZipOf)
  {
    groups := Groups([], map[]);
    var i := 0;
    while i < |rs|
      invariant 0 <= i <= |rs|
      invariant groups == GroupBy(Groups([], map[]), rs[..i], ZipOf)
    {
      assert rs[..i + 1][..i] == rs[..i];
      groups := Add(groups, rs[i].zipCode, rs[i]);
      i := i + 1;
    }
    assert rs[..|rs|] == rs;
  }

  /** A ZIP has a group exactly when some retailer has it, and the group holds those retailers. */
  lemma ZipGroup(rs: seq<Retailer>, groups: Groups<string, Retailer>, zip: string)
    requires groups == GroupBy(Groups([], map[]), rs, ZipOf)
    ensures zip in groups.members <==> Select(rs, ZipOf, zip) != []
    ensures zip in groups.members ==> groups.members[zip] == Select(rs, ZipOf, zip)
  {
    GroupByMembers(Groups([], map[]), rs, ZipOf);
    GroupByNonEmpty(Groups([], map[]), rs, ZipOf);
    assert Lookup(groups, zip) == Select(rs, ZipOf, zip);
  }

  /** The summaries of the allowed ZIPs that have a group, in allow-list order. */
  method SummarizeAllowed(rs: seq<Retailer>, groups: Groups<string, Retailer>) returns (summaries: seq<ZipSummary>)
    requires groups == GroupBy(Groups([], map[]), rs, ZipOf)
    ensures summaries == ZipSummaries(ALLOWED_ZIPS, rs)
  {
    summaries := [];
    var j := 0;
    while j < |ALLOWED_ZIPS|
      invariant 0 <= j <= |ALLOWED_ZIPS|
      invariant summaries == ZipSummaries(ALLOWED_ZIPS[..j], rs)
    {
      var zip := ALLOWED_ZIPS[j];
      assert ALLOWED_ZIPS[..j + 1][..j] == ALLOWED_ZIPS[..j];
      ZipGroup(rs, groups, zip);
      if zip in groups.members {
        var s := CountTypes(zip, groups.members[zip]);
        summaries := summaries + [s];
      }
      j := j + 1;
    }
    assert ALLOWED_ZIPS[..|ALLOWED_ZIPS|] == ALLOWED_ZIPS;
  }

  /** `getZipCodeChartData`: one chart row per summary, the counts under the category names. */
  datatype ZipChartRow = ZipChartRow(
    zipCode: string,
    total: nat,
    supermarket: nat,
    groceryStore: nat,
    convenienceStore: nat,
    farmersMarket: nat,
    other: nat)

  function ZipChartRowOf(s: ZipSummary): ZipChartRow {
    ZipChartRow(s.zipCode, s.total, s.supermarkets, s.grocery, s.convenience, s.farmersMarket, s.other)
  }

  function GetZipCodeChartData(summaries: seq<ZipSummary>): (r: seq<ZipChartRow>)
    ensures |r| == |summaries|
    ensures forall i :: 0 <= i < |r| ==> r[i] == ZipChartRowOf(summaries[i])
  {
    seq(|summaries|, i requires 0 <= i < |summaries| => ZipChartRowOf(summaries[i]))
  }

  /** On the transformer's output every chart row's stacked counts add up to its total. */
  lemma ZipChartStacks(rs: seq<Retailer>)
    ensures forall row :: row in GetZipCodeChartData(SnapByZip(rs)) ==>
      row.total == row.supermarket + row.groceryStore + row.convenienceStore + row.farmersMarket + row.other
  {
    var summaries := SnapByZip(rs);
    var rows := GetZipCodeChartData(summaries);
    forall row | row in rows
      ensures row.total == row.supermarket + row.groceryStore + row.convenienceStore + row.farmersMarket + row.other
    {
      var i :| 0 <= i < |rows| && rows[i] == row;
      assert summaries[i] in summaries;
    }
  }

  // ---------------------------------------------------------------------
  // Category distribution

  datatype StoreTypeCount = StoreTypeCount(category: StoreCategory, count: nat, percentage: real)

  /** The categories that occur, in order of first occurrence (the counting object's key order). */
  function CategoriesOf(rs: seq<Retailer>): seq<StoreCategory> {
    if rs == [] then []
    else
      var n := |rs| - 1;
      var prefix := CategoriesOf(rs[..n]);
      if CategoryOf(rs[n]) in prefix then prefix else prefix + [CategoryOf(rs[n])]
  }

  lemma {:induction false} CategoriesOfSpec(rs: seq<Retailer>)
    ensures forall i, j :: 0 <= i < j < |CategoriesOf(rs)| ==> CategoriesOf(rs)[i] != CategoriesOf(rs)[j]
    ensures forall c :: c in CategoriesOf(rs) <==> CountCategory(rs, c) >= 1
  {
    if rs != [] {
      CategoriesOfSpec(rs[..|rs| - 1]);
    }
  }

  function CountEntry(rs: seq<Retailer>, c: StoreCategory): StoreTypeCount {
    var count := CountCategory(rs, c);
    StoreTypeCount(c, count, CalculatePercent(count as real, |rs| as real))
  }

  function CountEntries(cats: seq<StoreCategory>, rs: seq<Retailer>): (r: seq<StoreTypeCount>)
    ensures |r| == |cats|
    ensures forall i :: 0 <= i < |cats| ==> r[i] == CountEntry(rs, cats[i])
  {
    seq(|cats|, i requires 0 <= i < |cats| => CountEntry(rs, cats[i]))
  }

  function NegCount(e: StoreTypeCount): int {
    -(e.count as int)
  }

  function EntryCategory(e: StoreTypeCount): StoreCategory {
    e.category
  }

  function EntryCount(e: StoreTypeCount): int {
    e.count
  }

  /** Number of retailers whose category is one of `cats`. */
  function CountIn(rs: seq<Retailer>, cats: seq<StoreCategory>): nat {
    if rs == [] then 0
    else
      var n := |rs| - 1;
      CountIn(rs[..n], cats) + (if CategoryOf(rs[n]) in cats then 1 else 0)
  }

  lemma {:induction false} CountInSplit(rs: seq<Retailer>, c: StoreCategory, cats: seq<StoreCategory>)
    requires c !in cats
    ensures CountIn(rs, [c] + cats) == CountCategory(rs, c) + CountIn(rs, cats)
  {
    if rs != [] {
      CountInSplit(rs[..|rs| - 1], c, cats);
    }
  }

  lemma {:induction false} CountInAll(rs: seq<Retailer>, cats: seq<StoreCategory>)
    requires forall i :: 0 <= i < |rs| ==> CategoryOf(rs[i]) in cats
    ensures CountIn(rs, cats) == |rs|
  {
    if rs != [] {
      var n := |rs| - 1;
      assert forall i :: 0 <= i < n ==> rs[..n][i] == rs[i];
      CountInAll(rs[..n], cats);
    }
  }

  /** Summed over distinct categories, the entries count the retailers of those categories. */
  lemma {:induction false} CountEntriesSum(cats: seq<StoreCategory>, rs: seq<Retailer>)
    requires forall i, j :: 0 <= i < j < |cats| ==> cats[i] != cats[j]
    ensures SumOf(CountEntries(cats, rs), EntryCount) == CountIn(rs, cats)
  {
    if cats == [] {
      assert CountIn(rs, cats) == 0 by {
        CountInNone(rs, cats);
      }
    } else {
      assert CountEntries(cats, rs)[1..] == CountEntries(cats[1..], rs);
      CountEntriesSum(cats[1..], rs);
      assert cats == [cats[0]] + cats[1..];
      assert cats[0] !in cats[1..];
      CountInSplit(rs, cats[0], cats[1..]);
    }
  }

  lemma {:induction false} CountInNone(rs: seq<Retailer>, cats: seq<StoreCategory>)
    requires cats == []
    ensures CountIn(rs, cats) == 0
  {
    if rs != [] {
      CountInNone(rs[..|rs| - 1], cats);
    }
  }

  /**
   * `getStoreTypeDistribution`'s result: each category that occurs, once,
   * with its count and its share of all retailers, largest count first;
   * the counts add up to the number of retailers.
   */
  function Distribution(rs: seq<Retailer>): (r: seq<StoreTypeCount>)
    ensures forall i, j :: 0 <= i < j < |r| ==> r[i].count >= r[j].count
    ensures DistinctBy(r, EntryCategory)
    ensures forall e :: e in r ==> e == CountEntry(rs, e.category) && e.count >= 1
    ensures forall c :: CountCategory(rs, c) >= 1 ==> CountEntry(rs, c) in r
    ensures SumOf(r, EntryCount) == |rs|
  {
    var pre := CountEntries(CategoriesOf(rs), rs);
    var r := SortBy(pre, NegCount);
    assert SortedBy(r, NegCount);
    assert DistinctBy(r, EntryCategory) by {
      CategoriesOfSpec(rs);
      assert DistinctBy(pre, EntryCategory);
      SortByDistinct(pre, NegCount, EntryCategory);
    }
    assert SumOf(r, EntryCount) == |rs| by {
      SortBySum(pre, NegCount, EntryCount);
      DistributionSum(rs);
    }
    SortedEntries(rs);
    r
  }

  /** The sorted entries are exactly the entries of the categories that occur. */
  lemma SortedEntries(rs: seq<Retailer>)
    ensures forall e :: e in SortBy(CountEntries(CategoriesOf(rs), rs), NegCount) ==>
      e == CountEntry(rs, e.category) && e.count >= 1
    ensures forall c :: CountCategory(rs, c) >= 1 ==> CountEntry(rs, c) in SortBy(CountEntries(CategoriesOf(rs), rs), NegCount)
  {
    var pre := CountEntries(CategoriesOf(rs), rs);
    var r := SortBy(pre, NegCount);
    forall e | e in r
      ensures e == CountEntry(rs, e.category) && e.count >= 1
    {
      assert e in multiset(pre) by {
        assert e in multiset(r);
      }
      var k :| 0 <= k < |pre| && pre[k] == e;
      CategoriesOfSpec(rs);
    }
    forall c | CountCategory(rs, c) >= 1
      ensures CountEntry(rs, c) in r
    {
      CountEntriesComplete(rs, c);
      assert CountEntry(rs, c) in multiset(r) by {
        assert CountEntry(rs, c) in multiset(pre);
      }
    }
  }

  /** Before sorting, the entries' counts add up to the number of retailers. */
  lemma DistributionSum(rs: seq<Retailer>)
    ensures SumOf(CountEntries(CategoriesOf(rs), rs), EntryCount) == |rs|
  {
    var cats := CategoriesOf(rs);
    CategoriesOfSpec(rs);
    CountEntriesSum(cats, rs);
    forall i | 0 <= i < |rs|
      ensures CategoryOf(rs[i]) in cats
    {
      CountCategoryHas(rs, i);
    }
    CountInAll(rs, cats);
  }

  /** Every category that occurs has its entry. */
  lemma CountEntriesComplete(rs: seq<Retailer>, c: StoreCategory)
    requires CountCategory(rs, c) >= 1
    ensures CountEntry(rs, c) in CountEntries(CategoriesOf(rs), rs)
  {
    var cats := CategoriesOf(rs);
    CategoriesOfSpec(rs);
    var k :| 0 <= k < |cats| && cats[k] == c;
    assert CountEntries(cats, rs)[k] == CountEntry(rs, c);
  }

  lemma {:induction false} CountCategoryHas(rs: seq<Retailer>, i: nat)
    requires i < |rs|
    ensures CountCategory(rs, CategoryOf(rs[i])) >= 1
  {
    var n := |rs| - 1;
    if i < n {
      assert rs[..n][i] == rs[i];
      CountCategoryHas(rs[..n], i);
    }
  }

  /**
   * The counting loop of `getStoreTypeDistribution`: an object keyed by
   * category, whose keys come in first-occurrence order, holding each
   * category's count.
   */
  method CountByCategory(rs: seq<Retailer>) returns (order: seq<StoreCategory>, counts: map<StoreCategory, nat>)
    ensures order == CategoriesOf(rs)
    ensures forall c :: c in counts <==> c in order
    ensures forall c :: c in counts ==> counts[c] == CountCategory(rs, c)
  {
    order := [];
    counts := map[];
    var i := 0;
    while i < |rs|
      invariant 0 <= i <= |rs|
      invariant order == CategoriesOf(rs[..i])
      invariant forall c :: c in counts <==> c in order
      invariant forall c :: c in counts ==> counts[c] == CountCategory(rs[..i], c)
    {
      var t := NormalizeStoreType(rs[i].storeType);
      ghost var seen := rs[..i + 1];
      CategoriesOfStep(rs, i);
      assert t in counts <==> CountCategory(rs[..i], t) >= 1 by {
        CategoriesOfSpec(rs[..i]);
      }
      if t in counts {
        counts := counts[t := counts[t] + 1];
      } else {
        order := order + [t];
        counts := counts[t := 1];
      }
      forall c | c in counts
        ensures counts[c] == CountCategory(seen, c)
      {
        CountCategoryStep(rs, i, c);
      }
      i := i + 1;
    }
    assert rs[..|rs|] == rs;
  }

  /** One retailer more adds its category at the end, unless it is already listed. */
  lemma CategoriesOfStep(rs: seq<Retailer>, i: nat)
    requires i < |rs|
    ensures CategoriesOf(rs[..i + 1]) == if CategoryOf(rs[i]) in CategoriesOf(rs[..i])
      then CategoriesOf(rs[..i]) else CategoriesOf(rs[..i]) + [CategoryOf(rs[i])]
  {
    assert rs[..i + 1][..i] == rs[..i];
  }

  /** Counting one retailer more adds one to its own category only. */
  lemma CountCategoryStep(rs: seq<Retailer>, i: nat, c: StoreCategory)
    requires i < |rs|
    ensures CountCategory(rs[..i + 1], c) == CountCategory(rs[..i], c) + (if CategoryOf(rs[i]) == c then 1 else 0)
  {
    assert rs[..i + 1][..i] == rs[..i];
  }

  lemma CountEntriesAppend(cats: seq<StoreCategory>, c: StoreCategory, rs: seq<Retailer>)
    ensures CountEntries(cats + [c], rs) == CountEntries(cats, rs) + [CountEntry(rs, c)]
  {
    assert forall i :: 0 <= i < |cats| ==> (cats + [c])[i] == cats[i];
  }

  /** `getStoreTypeDistribution`: the counting loop, one entry per category, then a sort. */
  method GetStoreTypeDistribution(rs: seq<Retailer>) returns (result: seq<StoreTypeCount>)
    ensures result == Distribution(rs)
  {
    var order, counts := CountByCategory(rs);
    var entries: seq<StoreTypeCount> := [];
    var j := 0;
    while j < |order|
      invariant 0 <= j <= |order|
      invariant entries == CountEntries(order[..j], rs)
    {
      var c := order[j];
      assert order[..j + 1] == order[..j] + [c];
      CountEntriesAppend(order[..j], c, rs);
      entries := entries + [StoreTypeCount(c, counts[c], CalculatePercent(counts[c] as real, |rs| as real))];
      j := j + 1;
    }
    assert order[..|order|] == order;
    result := SortBy(entries, NegCount);
  }

  // ---------------------------------------------------------------------
  // Headline statistics

  datatype SnapStats = SnapStats(
    totalRetailers: nat,
    supermarketCount: nat,
    supermarketPercent: real,
    convenienceCount: nat,
    conveniencePercent: real)

  /** `distribution.find(d => d.type === label)`. */
  function FindCategory(dist: seq<StoreTypeCount>, c: StoreCategory): (r: Option<StoreTypeCount>)
    ensures r.Some? ==> r.value in dist && r.value.category == c
    ensures r.None? ==> forall e :: e in dist ==> e.category != c
  {
    if dist == [] then None
    else if dist[0].category == c then Some(dist[0])
    else
      var r := FindCategory(dist[1..], c);
      assert forall e :: e in dist ==> e == dist[0] || e in dist[1..];
      r
  }

  /** `found?.count || 0` and `found?.percentage || 0`. */
  function CountOrZero(e: Option<StoreTypeCount>): nat {
    if e.Some? then e.value.count else 0
  }

  function PercentOrZero(e: Option<StoreTypeCount>): real {
    if e.Some? then e.value.percentage else 0.0
  }

  /**
   * `getSNAPStats`: the supermarket and convenience figures are those
   * categories' counts and shares of all retailers, zero when the category
   * does not occur.
   */
  function GetSnapStats(rs: seq<Retailer>): (s: SnapStats)
    ensures s.totalRetailers == |rs|
    ensures s.supermarketCount == CountCategory(rs, Supermarket)
    ensures s.supermarketPercent == CalculatePercent(CountCategory(rs, Supermarket) as real, |rs| as real)
    ensures s.convenienceCount == CountCategory(rs, ConvenienceStore)
    ensures s.conveniencePercent == CalculatePercent(CountCategory(rs, ConvenienceStore) as real, |rs| as real)
  {
    var dist := Distribution(rs);
    var supermarkets := FindCategory(dist, Supermarket);
    var convenience := FindCategory(dist, ConvenienceStore);
    FoundOrZero(rs, Supermarket);
    FoundOrZero(rs, ConvenienceStore);
    SnapStats(|rs|, CountOrZero(supermarkets), PercentOrZero(supermarkets),
              CountOrZero(convenience), PercentOrZero(convenience))
  }

  /** Looking a category up in the distribution gives its count and share, or zero when it is absent. */
  lemma FoundOrZero(rs: seq<Retailer>, c: StoreCategory)
    ensures CountOrZero(FindCategory(Distribution(rs), c)) == CountCategory(rs, c)
    ensures PercentOrZero(FindCategory(Distribution(rs), c)) == CalculatePercent(CountCategory(rs, c) as real, |rs| as real)
  {
    var dist := Distribution(rs);
    var found := FindCategory(dist, c);
    if found.Some? {
      assert found.value == CountEntry(rs, c) by {
        assert found.value in dist;
      }
    } else {
      assert CountCategory(rs, c) == 0 by {
        assert CountEntry(rs, c).category == c;
        assert CountEntry(rs, c) !in dist;
      }
    }
  }
}
