# Ward 7 / Ward 8 dashboard: the data-transformation layer in Dafny

This project models the data-transformation layer of a dashboard that compares
Wards 7 and 8 of Washington, DC. That layer turns raw, loosely keyed records
into comparison rows, percentages, counts and rankings. The model covers:

- the survey (ACS) transformer: it derives the ward from a GEOID, joins the
  economic, housing and social extracts by ward, computes the homeownership
  and bachelor's-or-higher rates, and builds the chart series and the
  education breakdown;
- the SNAP retailer transformer: store-type classification, the active
  filter, grouping by ZIP code, the category distribution and the summary
  statistics;
- the crime transformer: counts by year, offense, shift and method; the
  year-over-year trend; the top-N list; the statistics; and the chart mappers;
- the metric comparison builder: finding a ward's record, the nullable gap and
  gap percentage, grouping by category, and the data dictionary assembled
  after loading;
- the field dictionary: the union of the five tables, filtering by category,
  and the category list;
- the formatting helpers, the reference constants, both store-type colour
  rules, and the array builders of the three map layers.

Each module sits in its own file. `Sorting` models the runtime's stable
`Array.prototype.sort`. `Grouping` models `Map` and plain-object grouping in
insertion order. `Text` covers `includes`, `endsWith`, `replace` and ASCII
case conversion. Raw survey records are maps from field code to `real`:
`x || 0` reads a missing field as 0, and `x ?? null` reads it as `None`.
Rates are exact `real`s.

Where the source works by a loop that updates variables or pushes into an
array, the model is a `method` with a loop. Each such method is proved equal
to a specification function, and the properties are proved about that
function. Where the source is an expression over `map`, `filter` or `find`,
the model is a function.

## Model

| member | source | states |
|---|---|---|
| Census.WardFromGeoid | src/data/transformers/censusTransformer.ts:12-15 | The ward is 7 exactly when the GEOID's text ends in '7' and 8 otherwise; no GEOID is rejected |
| Census.FindWard | src/data/transformers/censusTransformer.ts:30-31 | A record is found iff some record has that ward; the one found is in the list and has that ward |
| Census.FindWardFirst | src/data/transformers/censusTransformer.ts:30-31 | The record found is the first record of that ward |
| Census.Compare | src/data/transformers/censusTransformer.ts:35-62 | Income, unemployment, poverty and population come from DP03_0063E, DP03_0009PE, DP03_0128PE and DP03_0001E (missing reads 0); the rates come from the housing and social records; the name is "Ward n" |
| Census.TransformToWardComparison | src/data/transformers/censusTransformer.ts:18-66 | The loop's output is the stable sort by ward of the joined rows; it is ascending by ward and a permutation of the join |
| Census.JoinWardsSpec | src/data/transformers/censusTransformer.ts:25-33 | At most one row per economic record; each row's ward has both a housing and a social record; each row is computed from an economic record of that ward and the first housing and social records of that ward |
| Census.JoinWardsKeeps | src/data/transformers/censusTransformer.ts:25-33 | An economic record whose ward has both counterparts is never skipped |
| Census.JoinWardsMissing | src/data/transformers/censusTransformer.ts:33 | With no housing records, or no social records, every ward is skipped |
| Census.HomeownershipExamples | src/data/transformers/censusTransformer.ts:36-39 | Owner 40 and renter 60 give 40; missing unit counts give 0 |
| Census.HomeownershipBounds | src/data/transformers/censusTransformer.ts:36-39 | Non-negative unit counts give a rate between 0 and 100 |
| Census.EndToEndExample | src/data/transformers/censusTransformer.ts:25-62 | A worked join: DP02_0059E counts toward the education total, giving rates 34 and 30 |
| Census.FindComparison | src/data/transformers/censusTransformer.ts:75-76 | A comparison is found iff one has that ward; the one found has that ward and is the first such entry of the list |
| Census.TransformToGroupedBarData | src/data/transformers/censusTransformer.ts:69-116 | All four series are empty unless both wards are present. Otherwise income, housing and education have one point each and employment has two. Each point carries both wards' figures and the matching city-wide average |
| Census.GetComparisonChartData | src/data/transformers/censusTransformer.ts:147-173 | Empty iff a ward is missing; otherwise three points (income, homeownership, bachelor's), each with both wards and the city-wide average |
| Census.Breakdowns | src/data/transformers/censusTransformer.ts:120-142 | One breakdown per social record, position by position |
| Census.TransformToEducationBreakdown | src/data/transformers/censusTransformer.ts:119-144 | Exactly as many entries as social records, ordered by ward; the entries are a permutation of the records' breakdowns, and the entries of each ward appear in their input order (stable sort) |
| Census.BreakdownShares | src/data/transformers/censusTransformer.ts:124-141 | The six shares sum to 100 when the bucket total is nonzero and are all 0 when it is zero |
| Formatters.CalculatePercent | src/utils/formatters.ts:45-48 | A zero denominator gives 0, and so does a zero numerator; otherwise result × denominator = numerator × 100 |
| Formatters.PercentBounds | src/utils/formatters.ts:45-48 | A part of a positive whole gives a percentage in [0, 100] |
| Formatters.PercentAdd | src/utils/formatters.ts:45-48 | Percentages of one denominator add like their numerators |
| Formatters.PercentWhole | src/utils/formatters.ts:45-48 | A nonzero value is 100 percent of itself; 0 of 0 is 0 |
| Formatters.FormatBoolean | src/utils/formatters.ts:37-38 | 'Yes' iff the value is nonzero, 'No' iff it is 0 |
| Formatters.GapSign | src/utils/formatters.ts:52 | The prefix is '+' iff the gap is positive, and empty otherwise |
| Averages.KeyGapValues | src/data/dcAverages.ts:44-49 | The income, homeownership and education gaps are ward 7 minus ward 8 (16224, 19.4, 11.3); the poverty gap is ward 8 minus ward 7 (5.0), in exact arithmetic |
| Snap.NormalizeRules | src/data/transformers/snapTransformer.ts:5-20 | The category depends only on the lower-cased type. Each category is chosen iff its rule matches and no earlier rule does. Unmatched types are Other |
| Snap.NormalizeCombination | src/data/transformers/snapTransformer.ts:5-20 | 'Combination Grocery/Other', in any case, is classified Other |
| Snap.NormalizeLargeGrocery | src/data/transformers/snapTransformer.ts:10-11 | 'Large Grocery Store' is classified Grocery Store |
| Snap.CountCategorySum | src/data/transformers/snapTransformer.ts:54-72 | The five category counts add up to the number of stores |
| Snap.FilterActiveRetailers | src/data/transformers/snapTransformer.ts:23-30 | The filter never lengthens the list |
| Snap.FilterActiveMembers | src/data/transformers/snapTransformer.ts:23-30 | A retailer is kept iff its end date is empty, or parses to a time strictly after now |
| Snap.FilterActiveAppend | src/data/transformers/snapTransformer.ts:25-29 | Filtering distributes over concatenation, so the output is an order-preserving subsequence |
| Snap.FilterActiveBoundary | src/data/transformers/snapTransformer.ts:27-28 | An end date equal to now is dropped |
| Snap.Summarize | src/data/transformers/snapTransformer.ts:45-78 | A ZIP's total equals the sum of its five category counts |
| Snap.CountTypes | src/data/transformers/snapTransformer.ts:54-72 | The counting loop's `switch` yields the ZIP summary |
| Snap.GroupByZip | src/data/transformers/snapTransformer.ts:34-42 | The grouping loop gives the insertion-ordered grouping by ZIP |
| Snap.ZipGroup | src/data/transformers/snapTransformer.ts:34-42 | A ZIP has a group iff some retailer has it; the group holds exactly that ZIP's retailers, in input order |
| Snap.SummarizeAllowed | src/data/transformers/snapTransformer.ts:44-80 | Enumerating the groups and keeping allowed ZIPs gives the summaries of the allowed ZIPs present, in ascending ZIP order |
| Snap.ZipSummariesSound | src/data/transformers/snapTransformer.ts:44-80 | Each summary is of an allowed ZIP with at least one retailer, and is computed from exactly that ZIP's retailers |
| Snap.ZipSummariesComplete | src/data/transformers/snapTransformer.ts:44-80 | Every allowed ZIP that has retailers gets a summary |
| Snap.ZipSummariesDistinct | src/data/transformers/snapTransformer.ts:34-44 | No ZIP appears twice |
| Snap.SnapByZip | src/data/transformers/snapTransformer.ts:33-82 | The output is non-increasing by total and has only allowed ZIPs, each at most once. Every allowed ZIP present appears, summarised from its own retailers. Equal totals keep ascending-ZIP order |
| Snap.SnapByZipTotals | src/data/transformers/snapTransformer.ts:74-78 | Each total is the number of retailers with that ZIP, which is the sum of the five category counts |
| Snap.TransformSnapByZip | src/data/transformers/snapTransformer.ts:33-82 | The group, count, filter and sort loops compute the specified summary list |
| Snap.GetZipCodeChartData | src/data/transformers/snapTransformer.ts:105-115 | One row per summary, copying its ZIP, total and five counts |
| Snap.ZipChartStacks | src/data/transformers/snapTransformer.ts:105-115 | Each chart row's stacks add up to its total |
| Snap.CategoriesOfSpec | src/data/transformers/snapTransformer.ts:86-91 | The counting object's keys are distinct and are exactly the categories with count ≥ 1 |
| Snap.CountByCategory | src/data/transformers/snapTransformer.ts:86-91 | The counting loop yields the first-occurrence key order and each key's count |
| Snap.CountEntries | src/data/transformers/snapTransformer.ts:95-100 | One entry per key: the count and calculatePercent(count, length) |
| Snap.DistributionSum | src/data/transformers/snapTransformer.ts:85-101 | The entries' counts add up to the number of retailers |
| Snap.CountEntriesComplete | src/data/transformers/snapTransformer.ts:85-100 | Every category with count ≥ 1 has an entry |
| Snap.Distribution | src/data/transformers/snapTransformer.ts:85-102 | The list is non-increasing by count, with each category at most once. Each entry is its category's count and percentage, with count ≥ 1. Every occurring category is listed. Counts sum to the number of retailers |
| Snap.GetStoreTypeDistribution | src/data/transformers/snapTransformer.ts:85-102 | The counting and sorting loops compute the specified distribution |
| Snap.FindCategory | src/data/transformers/snapTransformer.ts:120-121 | A found entry is in the list and has the category; otherwise no entry has it |
| Snap.GetSnapStats | src/data/transformers/snapTransformer.ts:118-130 | The total is the number of retailers. The supermarket and convenience counts are their category counts, and each percentage is calculatePercent(count, total) |
| Snap.FoundOrZero | src/data/transformers/snapTransformer.ts:120-128 | Reading the distribution with a fallback to 0 gives the category count and percentage, and 0 when the category is absent |
| Crime.KeysSpec | src/data/transformers/crimeTransformer.ts:18-34 | The map's keys are distinct and start with the preset keys. They are exactly the preset keys plus each key that occurs |
| Crime.KeysStep | src/data/transformers/crimeTransformer.ts:20-26 | One more incident appends its key when the key is new and leaves the keys unchanged otherwise, so keys are in order of first occurrence |
| Crime.TallyByKey | src/data/transformers/crimeTransformer.ts:18-34 | The counting loop yields the map's key order, and each key's counts are its incidents' ward-7 and ward-8 counts |
| Crime.CountByKey | src/data/transformers/crimeTransformer.ts:36-42 | Enumerating the map's entries gives one bucket per key in key order, with total = ward7 + ward8 |
| Crime.TallyKeys | src/data/transformers/crimeTransformer.ts:18-42 | Every bucket counts exactly its key's incidents, and buckets have distinct keys. Every incident's key has a bucket, and no bucket is invented |
| Crime.Conservation | src/data/transformers/crimeTransformer.ts:20-34 | Summed over the buckets, ward7 is the number of WARD '7' incidents and ward8 the number of WARD '8' incidents |
| Crime.CrimeByYear | src/data/transformers/crimeTransformer.ts:17-44 | The yearly buckets are strictly ascending by year |
| Crime.CrimeByYearKeys | src/data/transformers/crimeTransformer.ts:17-44 | Each bucket counts exactly the incidents of its year, which occurs among the incidents; every incident's year has a bucket |
| Crime.CrimeByYearTotals | src/data/transformers/crimeTransformer.ts:20-34 | Yearly ward-7 and ward-8 counts are conserved |
| Crime.AggregateCrimeByYear | src/data/transformers/crimeTransformer.ts:17-44 | The loop and sort compute the yearly buckets |
| Crime.OtherWardOpensBucket | src/data/transformers/crimeTransformer.ts:24-33 | An incident of neither ward opens its year's bucket with zero counts |
| Crime.CrimeByOffense | src/data/transformers/crimeTransformer.ts:47-74 | The output is non-increasing by total and a permutation of the per-offense buckets |
| Crime.CrimeByOffenseKeys | src/data/transformers/crimeTransformer.ts:47-74 | Each bucket counts exactly its offense's incidents; offenses are distinct; every incident's offense has a bucket |
| Crime.CrimeByOffenseTotals | src/data/transformers/crimeTransformer.ts:50-64 | Per-offense ward counts are conserved |
| Crime.AggregateCrimeByOffense | src/data/transformers/crimeTransformer.ts:47-74 | The loop and sort compute the offense buckets |
| Crime.MethodLabel | src/data/transformers/crimeTransformer.ts:139-147 | GUN, KNIFE and OTHERS become Gun, Knife and Other; any other method passes through |
| Crime.Relabelled | src/data/transformers/crimeTransformer.ts:146-151 | Each bucket keeps its counts and has its method relabelled |
| Crime.CrimeByMethod | src/data/transformers/crimeTransformer.ts:120-153 | The output is non-increasing by total and a permutation of the relabelled per-method buckets |
| Crime.CrimeByMethodSound | src/data/transformers/crimeTransformer.ts:120-153 | Every output bucket is the relabelled bucket of some incident's method |
| Crime.CrimeByMethodComplete | src/data/transformers/crimeTransformer.ts:120-153 | Every incident's method bucket appears, relabelled |
| Crime.CrimeByMethodTotals | src/data/transformers/crimeTransformer.ts:123-137 | Per-method ward counts are conserved |
| Crime.AggregateCrimeByMethod | src/data/transformers/crimeTransformer.ts:120-153 | The loop, relabel and sort compute the method buckets |
| Crime.ShiftLabel | src/data/transformers/crimeTransformer.ts:102-111 | A known shift gets its fixed label, any other passes through |
| Crime.ShiftsDistinct | src/data/transformers/crimeTransformer.ts:81-84 | The three preset shifts are distinct and all have labels |
| Crime.ShiftRows | src/data/transformers/crimeTransformer.ts:108-116 | One row per listed shift, in order |
| Crime.CrimeByShift | src/data/transformers/crimeTransformer.ts:77-117 | Exactly three rows, DAY, EVENING and MIDNIGHT in order, each with its fixed label, and each counting exactly that shift's incidents |
| Crime.AggregateCrimeByShift | src/data/transformers/crimeTransformer.ts:77-117 | The preset-then-count loops compute the three shift rows |
| Crime.OffShiftIgnored | src/data/transformers/crimeTransformer.ts:90-116 | An incident with any other shift changes no output row |
| Crime.ShiftConservation | src/data/transformers/crimeTransformer.ts:86-116 | When every shift is one of the three, ward counts are conserved |
| Crime.DirectionOf | src/data/transformers/crimeTransformer.ts:184-185 | 'up' iff change > 0, 'down' iff change < 0, 'stable' iff change = 0 |
| Crime.SortedLatestTwo | src/data/transformers/crimeTransformer.ts:169-171 | The first two of the year-descending sort are the two largest years, in order |
| Crime.GetCrimeTrend | src/data/transformers/crimeTransformer.ts:156-187 | Fewer than two years give zero changes and 'stable'. Otherwise the changes are current − previous over the two largest years, adjacent or not. Each percent is change/previous·100, or 0 when previous is 0. Directions follow the changes' signs |
| Crime.GetTopCrimeTypes | src/data/transformers/crimeTransformer.ts:190-195 | A prefix of the input of length min(limit, n); a negative limit drops that many from the end |
| Crime.FilterByYear | src/data/transformers/crimeTransformer.ts:198-200 | Keeps exactly the incidents of that year, and no more of them than the input has |
| Crime.FilterByYearAppend | src/data/transformers/crimeTransformer.ts:198-200 | Filtering a concatenation is the concatenation of the filtered parts, so the kept incidents stay in input order |
| Crime.FilterByYearOne | src/data/transformers/crimeTransformer.ts:198-200 | A single incident is kept exactly when it is of that year |
| Crime.FilterByYearSingle | src/data/transformers/crimeTransformer.ts:198-200 | Aggregating one year's incidents by year yields buckets of that year only |
| Crime.GetCrimeStats | src/data/transformers/crimeTransformer.ts:203-236 | The yearly, offense, shift and method aggregations and the trend are those of the incidents. The totals are the WARD '7' and '8' incident counts, all = ward7 + ward8, and they equal the yearly sums. The latest year is {0,0,0} when there are no incidents; otherwise it is a yearly bucket no earlier than any incident's year |
| Crime.LatestIsMax | src/data/transformers/crimeTransformer.ts:215 | The yearly list is empty iff there are no incidents, and its last bucket has the largest year |
| Crime.FormatOffenseName | src/data/transformers/crimeTransformer.ts:266-279 | The nine known offenses get display names; any other passes through |
| Crime.FormatOffenseNameIdempotent | src/data/transformers/crimeTransformer.ts:266-279 | Formatting a formatted name changes nothing |
| Crime.GetCrimeOffenseChartData | src/data/transformers/crimeTransformer.ts:239-245 | One point per bucket: the formatted offense and both ward counts |
| Crime.GetLabelChartData | src/data/transformers/crimeTransformer.ts:248-263 | One point per bucket: the label and both ward counts |
| Crime.ShiftChartShape | src/data/transformers/crimeTransformer.ts:248-254 | The shift chart always has three points with the three fixed labels |
| Crime.GetYearlySparkline | src/data/transformers/crimeTransformer.ts:282-284 | One value per year: the chosen ward's count |
| CrimeLayer.ContainsAny | src/components/map/CrimeMarkerLayer.tsx:7-9 | True iff the upper-cased offense contains some upper-cased name |
| CrimeLayer.IsViolentOffense | src/components/map/CrimeMarkerLayer.tsx:6-10 | True iff the upper-cased offense contains one of the four violent names |
| CrimeLayer.ViolentNamesAreViolent | src/components/map/CrimeMarkerLayer.tsx:6-10 | Any offense text that mentions one of the four violent names is violent, whatever surrounds the name |
| CrimeLayer.GetCrimeColor | src/components/map/CrimeMarkerLayer.tsx:13-18 | '#dc2626' iff violent, '#f97316' iff not |
| CrimeLayer.Markers | src/components/map/CrimeMarkerLayer.tsx:40-48 | All arrays have one entry per incident. Entry i is that incident's coordinates, its colour, size 10 (violent) or 8, and its hover text |
| CrimeLayer.CreateCrimeTrace | src/components/map/CrimeMarkerLayer.tsx:34-48 | No trace iff hidden or given no incidents; otherwise the markers of the incidents with truthy coordinates, in input order |
| CrimeLayer.NoCoordinatesEmptyTrace | src/components/map/CrimeMarkerLayer.tsx:35-43 | With incidents but none with coordinates, the trace exists with empty arrays |
| SnapLayer.FirstColor | src/components/map/SNAPMarkerLayer.tsx:21-26 | The colour of the first table entry whose key contains the text or is contained in it; with none, the unknown colour |
| SnapLayer.GetStoreTypeColor | src/components/map/SNAPMarkerLayer.tsx:19-27 | First match in declaration order on the upper-cased type, else '#94a3b8' |
| SnapLayer.EmptyTypeMatchesFirst | src/components/map/SNAPMarkerLayer.tsx:22 | An empty type gets the first key's colour, because every key contains '' |
| SnapLayer.Markers | src/components/map/SNAPMarkerLayer.tsx:42-53 | All arrays have one entry per retailer. Entry i is its coordinates, its colour, size 16 when the type contains SUPER or LARGE (else 12), and its hover text |
| SnapLayer.CreateSnapTrace | src/components/map/SNAPMarkerLayer.tsx:34-53 | No trace iff hidden, given no retailers, or no retailer has truthy coordinates; otherwise the markers of those that do, in input order |
| Boundary.FlattenCount | src/components/map/WardBoundaryLayer.tsx:24-31 | A multipolygon yields as many rings as its polygons hold, and every ring of every polygon appears |
| Boundary.CoordsOf | src/components/map/WardBoundaryLayer.tsx:20-22 | lons[i] is ring[i][0] and lats[i] is ring[i][1]; both have the ring's length |
| Boundary.Coords | src/components/map/WardBoundaryLayer.tsx:19-23 | One coordinate set per ring, in order |
| Boundary.PushRings | src/components/map/WardBoundaryLayer.tsx:19-23 | The ring loop appends the rings' coordinate sets |
| Boundary.ExtractCoordinates | src/components/map/WardBoundaryLayer.tsx:15-35 | One set per ring of a polygon, or per ring of each polygon of a multipolygon in order; any other geometry gives none |
| Boundary.WardColor | src/components/map/WardBoundaryLayer.tsx:48-49 | The ward-7 colour iff the ward is '7' or contains '7', else the ward-8 colour |
| Boundary.TracesOfFeature | src/components/map/WardBoundaryLayer.tsx:47-69 | One trace per coordinate set of the feature, with its ward's colour and name |
| Boundary.CreateWardBoundaryTraces | src/components/map/WardBoundaryLayer.tsx:37-74 | Nothing when hidden, missing or not a feature collection; otherwise each feature's traces, in order |
| Boundary.AllTracesSpec | src/components/map/WardBoundaryLayer.tsx:46-70 | The number of traces is the total ring count, and each trace carries the colour and name of some feature's ward |
| Metrics.Find | src/hooks/useData.ts:53-54 | A found record is the first that matches; none is found iff none matches |
| Metrics.ExtractWardValues | src/hooks/useData.ts:52-60 | Each ward's value is the field of the first matching record (by GEOID suffix or NAMELSAD). A missing record or field gives null, and 0 stays 0 |
| Metrics.FirstMatchUnique | src/hooks/useData.ts:53-54 | The first match is unique |
| Metrics.Gap | src/hooks/useData.ts:73 | The gap is non-null iff both values are |
| Metrics.GapSwap | src/hooks/useData.ts:73 | Swapping the wards negates the gap, and gap + ward8 = ward7 |
| Metrics.GapPercent | src/hooks/useData.ts:74-76 | Non-null iff the gap is non-null and ward8 is non-null and nonzero; then it × ward8 = gap × 100 |
| Metrics.TransformToMetricComparisons | src/hooks/useData.ts:63-93 | The loop pushes exactly the specified rows |
| Metrics.KeptSpec | src/hooks/useData.ts:69-72 | The kept fields are, in ascending order, exactly those with a non-null value in either ward |
| Metrics.MetricComparisonsSpec | src/hooks/useData.ts:69-90 | The k-th row is built from the k-th kept field, copying its label, description, format and category |
| Metrics.CategoryKey | src/hooks/useData.ts:98 | The category, or 'Other' when it is missing or empty; never empty |
| Metrics.GroupMetricsByCategory | src/hooks/useData.ts:96-103 | The reduce loop yields the specified grouping |
| Metrics.ByCategorySpec | src/hooks/useData.ts:96-103 | Each group holds exactly its category's metrics, in input order. No group is empty. Group sizes sum to the input length |
| Metrics.ByCategoryHas | src/hooks/useData.ts:96-103 | Every metric is in its category's group |
| Metrics.AllDataForDictionary | src/hooks/useData.ts:424-481 | Loading iff any query is loading; once loaded there are four data sources |
| Metrics.CountTag | src/hooks/useData.ts:445-450 | Tagging a table's rows gives that many rows with its source and none with any other |
| Metrics.DictionaryCounts | src/hooks/useData.ts:440-481 | Each source's metricsCount is the number of rows tagged with it, and together they count all rows |
| FieldMappings.Assign | src/data/comprehensiveFieldMappings.ts:516-522 | A new key goes to the end, and an existing key keeps its place |
| FieldMappings.AssignGet | src/data/comprehensiveFieldMappings.ts:516-522 | After assignment the key reads the new mapping, and other keys are unchanged |
| FieldMappings.Spread | src/data/comprehensiveFieldMappings.ts:516-522 | Spreading keeps the existing keys in front, and the keys are the union of both records |
| FieldMappings.SpreadGet | src/data/comprehensiveFieldMappings.ts:516-522 | A key of the spread record reads its value; other keys read the old value |
| FieldMappings.GetAllFieldMappings | src/data/comprehensiveFieldMappings.ts:515-523 | The union is a record whose keys are exactly those of the five tables |
| FieldMappings.AllFieldMappingsGet | src/data/comprehensiveFieldMappings.ts:515-523 | On a duplicate key the later table wins, in the order social, economic, housing, demographic, food access |
| FieldMappings.GetFieldsByCategory | src/data/comprehensiveFieldMappings.ts:525-529 | Exactly the entries of that category, with mappings unchanged |
| FieldMappings.FieldsByCategoryRecord | src/data/comprehensiveFieldMappings.ts:525-529 | The filtered entries still have distinct keys |
| FieldMappings.Categories | src/data/comprehensiveFieldMappings.ts:531-537 | Each non-empty category appears exactly once, and uncategorised entries are ignored |
| FieldMappings.CategoriesPrefix | src/data/comprehensiveFieldMappings.ts:531-537 | Later entries only append categories, so the order is first occurrence |
| FieldMappings.CategoriesRun | src/data/comprehensiveFieldMappings.ts:531-537 | A run of one category adds it at the end only if it is new |
| FieldMappings.GetCategoriesFromFields | src/data/comprehensiveFieldMappings.ts:531-537 | The Set-building loop yields the specified category list |
| Colors.GetStoreTypeColor | src/utils/colors.ts:38-53 | Always one of the five store palette colours |
| Colors.StoreTypeColorRules | src/utils/colors.ts:38-53 | The colour depends on the lower-cased type only, and the rules apply in order: supermarket or super store, grocery, convenience, farmer, otherwise COLORS.other |
| Colors.CombinationDisagrees | src/utils/colors.ts:43-45 | 'Combination Grocery/Other' gets the grocery colour, while the SNAP transformer classifies it Other |
| Sorting.SortBy | src/data/transformers/crimeTransformer.ts:73 | The comparator sort is ordered by key and a permutation of the input, and it is stable: the elements of each key keep their input order |
| Sorting.SortByStrict | src/data/transformers/crimeTransformer.ts:43 | Sorting distinct keys gives strictly ascending keys |
| Sorting.SortByDistinct | src/data/transformers/snapTransformer.ts:81 | Sorting keeps elements that were pairwise apart still apart |
| Grouping.GroupByMembers | src/data/transformers/crimeTransformer.ts:18-34 | After the get-or-create loop, each key's group is its old group followed by the new elements with that key |
| Grouping.GroupByKeys | src/data/transformers/crimeTransformer.ts:24-26 | A key is present iff it was already present or some element has it |
| Grouping.GroupBySum | src/data/transformers/crimeTransformer.ts:18-34 | Summed over the groups, the members passing a test are those of the old groups plus the new elements passing it, each counted once |
| Grouping.Keep | src/components/map/SNAPMarkerLayer.tsx:38 | The filter keeps as many elements as satisfy the test, and only those |
| Grouping.KeepMembers | src/components/map/SNAPMarkerLayer.tsx:38 | An element is kept iff it is in the input and passes the test |

## Left out

- Fetching, query hooks and loading and error state are not modelled. Each table arrives as a `Query` value holding its data and a loading flag.
- Snap.FilterActiveRetailers: the clock (`new Date()`) and end-date parsing are parameters (`now`, `parseDate`). An unparseable date is modelled as `None` and dropped, the way an invalid `Date` compares false.
- Crime.CrimeByYear: `getFullYear` in the local time zone is the parameter `yearOf`, so time-zone behaviour is not modelled.
- CrimeLayer.HoverText: `toLocaleDateString` is the parameter `formatDate`.
- Number and currency formatting (`Intl`, `toFixed`) is not modelled; Formatters keeps the boolean branch and the sign rule only.
- All rates are exact `real`s, so IEEE rounding is not modelled: KEY_GAPS values such as 19.4 hold exactly in the model and only approximately in the runtime.
- GEOIDs are given as the string `String(geoid)` produces; the number-to-string conversion is not modelled.
- NaN is not modelled; truthiness tests treat only 0 and a missing value as false.
- Case conversion covers ASCII letters only.
- The Plotly trace objects are reduced to the arrays and strings the builders compute. Fixed fields such as `mode`, `opacity` and `width` are not modelled.
- SnapLayer.Markers and CrimeLayer.Markers require only that coordinates be present, not that they be nonzero. Their callers pass only retailers and incidents with truthy coordinates.
- Boundary.WardOf reads a missing or empty WARD as absent and models WARD as a string only. With a numeric WARD such as 7, the source keeps the number, names the trace "Ward 7" and gives it the ward-8 colour, because a number has no `includes` (src/components/map/WardBoundaryLayer.tsx:47-49); the model does not represent that case.
- Prototype keys (`toString`, `__proto__`) in object grouping are not modelled.
- Snap.SnapByZip relies on the runtime enumerating integer-like keys in ascending order. All three allowed ZIPs are integer-like, so the allow-list order holds; other keys' order is not modelled because they are filtered out.
- FieldMappings.GetFieldsByCategory states membership and key distinctness, but not that the filter keeps record order.
- The contents of the literal field tables and of SOCIAL/ECONOMIC/HOUSING/DEMOGRAPHIC_CATEGORIES are not proved (for example, that the social list begins with 'Households' and 'Relationship'). These constants are defined through `Categories`, whose first-occurrence property is proved in general by CategoriesPrefix and CategoriesRun.
- That every mapping's format is one of the five formats holds by the `FieldFormat` type rather than by a lemma.
- `label` is a reserved word in Dafny, so a mapping's label is the field `title`, and a method of attack is the field `weapon`.
- Crime.FilterByYearSingle states that every bucket has the chosen year, but not that there is at most one bucket.
- The legacy field table, the page components (including their own filtering, sorting and card-level gaps), the map rendering components and `extractWardStats`/`calculateKeyGaps` are not part of this model. The last two are imported by pages but defined nowhere.
