/**
 * The ACS field dictionary: per-table records from field code to a
 * human-readable mapping, their union, filtering by category and the list of
 * categories in first-occurrence order.
 *
 * A `Record<string, FieldMapping>` is modelled as the sequence of its
 * properties in enumeration order. No field code is integer-like, so that
 * order is insertion order.
 */
module FieldMappings {
  import opened Wrappers

  datatype FieldFormat = Number | Currency | Percent | Boolean | Ratio

  /** `label` is a reserved word in Dafny, so the label is called `title` here. */
  datatype FieldMapping = FieldMapping(title: string, description: string, format: FieldFormat, category: Option<string>)

  /** One property of a record: a field code and its mapping. */
  datatype Field = Field(code: string, mapping: FieldMapping)

  function Codes(fs: seq<Field>): seq<string> {
    seq(|fs|, i requires 0 <= i < |fs| => fs[i].code)
  }

  lemma CodesAppend(xs: seq<Field>, f: Field)
    ensures Codes(xs + [f]) == Codes(xs) + [f.code]
  {
  }

  lemma CodesCons(f: Field, xs: seq<Field>)
    ensures Codes([f] + xs) == [f.code] + Codes(xs)
  {
  }

  /** A record holds each field code at most once. */
  ghost predicate Record(fs: seq<Field>) {
    forall i, j :: 0 <= i < j < |fs| ==> fs[i].code != fs[j].code
  }

  /** `fields[code]`: the mapping stored under `code`, if any. */
  function Get(fs: seq<Field>, code: string): (r: Option<FieldMapping>)
    ensures r.Some? <==> code in Codes(fs)
    ensures r.Some? ==> Field(code, r.value) in fs
  {
    if fs == [] then None
    else
      assert Codes(fs) == [fs[0].code] + Codes(fs[1..]);
      if fs[0].code == code then Some(fs[0].mapping) else Get(fs[1..], code)
  }

  /** The mapping of the last property listed under `code`, if any. */
  function GetLast(fs: seq<Field>, code: string): (r: Option<FieldMapping>)
    ensures r.Some? <==> code in Codes(fs)
    ensures r.Some? ==> Field(code, r.value) in fs
  {
    if fs == [] then None
    else
      var n := |fs| - 1;
      assert Codes(fs) == Codes(fs[..n]) + [fs[n].code];
      if fs[n].code == code then Some(fs[n].mapping) else GetLast(fs[..n], code)
  }

  /** In a record there is one property per code, so the first is the last. */
  lemma {:induction false} GetLastOfRecord(fs: seq<Field>, code: string)
    requires Record(fs)
    ensures GetLast(fs, code) == Get(fs, code)
  {
    if fs != [] {
      var n := |fs| - 1;
      assert Record(fs[..n]);
      GetLastOfRecord(fs[..n], code);
      if fs[n].code == code {
        assert code !in Codes(fs[..n]);
        GetAppend(fs[..n], fs[n], code);
        assert fs == fs[..n] + [fs[n]];
      } else {
        GetAppend(fs[..n], fs[n], code);
        assert fs == fs[..n] + [fs[n]];
      }
    }
  }

  lemma {:induction false} GetAppend(fs: seq<Field>, f: Field, code: string)
    ensures Get(fs + [f], code) == (if code in Codes(fs) then Get(fs, code) else if f.code == code then Some(f.mapping) else None)
  {
    if fs == [] {
      assert [] + [f] == [f];
    } else {
      assert (fs + [f])[1..] == fs[1..] + [f];
      assert Codes(fs) == [fs[0].code] + Codes(fs[1..]);
      GetAppend(fs[1..], f, code);
    }
  }

  /**
   * `obj[f.code] = f.mapping`: a code already present keeps its position and
   * takes the new mapping; a new code is appended.
   */
  function Assign(obj: seq<Field>, f: Field): (r: seq<Field>)
    ensures Codes(r) == if f.code in Codes(obj) then Codes(obj) else Codes(obj) + [f.code]
    ensures f.code !in Codes(obj) ==> r == obj + [f]
  {
    if obj == [] then [f]
    else
      assert obj == [obj[0]] + obj[1..];
      CodesCons(obj[0], obj[1..]);
      if obj[0].code == f.code then
        CodesCons(f, obj[1..]);
        [f] + obj[1..]
      else
        var rest := Assign(obj[1..], f);
        CodesCons(obj[0], rest);
        [obj[0]] + rest
  }

  /** After the assignment, `code` reads the assigned mapping and every other code reads as before. */
  lemma {:induction false} AssignGet(obj: seq<Field>, f: Field, code: string)
    ensures Get(Assign(obj, f), code) == if code == f.code then Some(f.mapping) else Get(obj, code)
  {
    if obj != [] && obj[0].code != f.code {
      AssignGet(obj[1..], f, code);
      assert ([obj[0]] + Assign(obj[1..], f))[1..] == Assign(obj[1..], f);
    }
  }

  /** Assigning keeps a record a record. */
  lemma AssignRecord(obj: seq<Field>, f: Field)
    ensures Record(obj) ==> Record(Assign(obj, f))
  {
    var r := Assign(obj, f);
    assert forall i :: 0 <= i < |r| ==> Codes(r)[i] == r[i].code;
    assert forall i :: 0 <= i < |obj| ==> Codes(obj)[i] == obj[i].code;
  }

  /** `{ ...obj, ...src }`: the properties of `src` assigned onto `obj`, first to last. */
  function Spread(obj: seq<Field>, src: seq<Field>): (r: seq<Field>)
    ensures Codes(obj) <= Codes(r)
    ensures forall c :: c in Codes(r) <==> c in Codes(obj) || c in Codes(src)
    ensures Record(obj) ==> Record(r)
  {
    if src == [] then obj
    else
      var n := |src| - 1;
      assert src == src[..n] + [src[n]];
      CodesAppend(src[..n], src[n]);
      var before := Spread(obj, src[..n]);
      AssignRecord(before, src[n]);
      Assign(before, src[n])
  }

  /** Spreading makes the last property of `src` under a code win over `obj`. */
  lemma {:induction false} SpreadGet(obj: seq<Field>, src: seq<Field>, code: string)
    ensures Get(Spread(obj, src), code) == if code in Codes(src) then GetLast(src, code) else Get(obj, code)
  {
    if src != [] {
      var n := |src| - 1;
      assert src == src[..n] + [src[n]];
      CodesAppend(src[..n], src[n]);
      var before := Spread(obj, src[..n]);
      SpreadGet(obj, src[..n], code);
      AssignGet(before, src[n], code);
      if src[n].code == code {
        assert GetLast(src, code) == Some(src[n].mapping);
      } else {
        assert GetLast(src, code) == GetLast(src[..n], code);
        assert code in Codes(src) <==> code in Codes(src[..n]);
      }
    }
  }

  /** Spreading a record into an empty object copies it. */
  lemma {:induction false} SpreadCopies(src: seq<Field>)
    requires Record(src)
    ensures Spread([], src) == src
  {
    if src != [] {
      var n := |src| - 1;
      assert Record(src[..n]);
      SpreadCopies(src[..n]);
      assert src[n].code !in Codes(src[..n]) by {
        forall i | 0 <= i < n ensures Codes(src[..n])[i] != src[n].code {
          assert Codes(src[..n])[i] == src[i].code;
        }
      }
      assert src == src[..n] + [src[n]];
    }
  }

  /** The union of the five tables, later tables overriding earlier ones. */
  function GetAllFieldMappings(): (r: seq<Field>)
    ensures Record(r)
    ensures forall c :: c in Codes(r) <==>
      || c in Codes(SOCIAL_FIELDS)
      || c in Codes(ECONOMIC_FIELDS)
      || c in Codes(HOUSING_FIELDS)
      || c in Codes(DEMOGRAPHIC_FIELDS)
      || c in Codes(FOOD_ACCESS_FIELDS)
  {
    var social := Spread([], SOCIAL_FIELDS);
    var economic := Spread(social, ECONOMIC_FIELDS);
    var housing := Spread(economic, HOUSING_FIELDS);
    var demographic := Spread(housing, DEMOGRAPHIC_FIELDS);
    Spread(demographic, FOOD_ACCESS_FIELDS)
  }

  /**
   * A code's mapping in the union comes from the last table, in the order
   * social, economic, housing, demographic, food access, that lists it.
   */
  lemma AllFieldMappingsGet(code: string)
    ensures Get(GetAllFieldMappings(), code) ==
      if code in Codes(FOOD_ACCESS_FIELDS) then GetLast(FOOD_ACCESS_FIELDS, code)
      else if code in Codes(DEMOGRAPHIC_FIELDS) then GetLast(DEMOGRAPHIC_FIELDS, code)
      else if code in Codes(HOUSING_FIELDS) then GetLast(HOUSING_FIELDS, code)
      else if code in Codes(ECONOMIC_FIELDS) then GetLast(ECONOMIC_FIELDS, code)
      else if code in Codes(SOCIAL_FIELDS) then GetLast(SOCIAL_FIELDS, code)
      else None
  {
    var social := Spread([], SOCIAL_FIELDS);
    var economic := Spread(social, ECONOMIC_FIELDS);
    var housing := Spread(economic, HOUSING_FIELDS);
    var demographic := Spread(housing, DEMOGRAPHIC_FIELDS);
    SpreadGet([], SOCIAL_FIELDS, code);
    SpreadGet(social, ECONOMIC_FIELDS, code);
    SpreadGet(economic, HOUSING_FIELDS, code);
    SpreadGet(housing, DEMOGRAPHIC_FIELDS, code);
    SpreadGet(demographic, FOOD_ACCESS_FIELDS, code);
  }

  /** `Object.fromEntries(Object.entries(fields).filter(...))`: the properties whose category is `category`. */
  function GetFieldsByCategory(fields: seq<Field>, category: string): (r: seq<Field>)
    ensures forall f :: f in r <==> f in fields && f.mapping.category == Some(category)
  {
    if fields == [] then []
    else
      var n := |fields| - 1;
      assert fields == fields[..n] + [fields[n]];
      GetFieldsByCategory(fields[..n], category) + (if fields[n].mapping.category == Some(category) then [fields[n]] else [])
  }

  /** Filtering a record keeps the relative order of what it keeps: the result is a record again. */
  lemma {:induction false} FieldsByCategoryRecord(fields: seq<Field>, category: string)
    requires Record(fields)
    ensures Record(GetFieldsByCategory(fields, category))
  {
    if fields != [] {
      var n := |fields| - 1;
      assert Record(fields[..n]);
      FieldsByCategoryRecord(fields[..n], category);
      var before := GetFieldsByCategory(fields[..n], category);
      assert forall f :: f in before ==> f in fields[..n];
      forall f | f in before ensures f.code != fields[n].code {
        var i :| 0 <= i < n && fields[..n][i] == f;
        assert fields[i] == f;
      }
    }
  }

  /** Whether a mapping has a category that counts: JavaScript treats `''` like a missing one. */
  predicate HasCategory(m: FieldMapping) {
    m.category.Some? && m.category.value != ""
  }

  /** The distinct non-empty categories of `fields`, in order of first occurrence. */
  function Categories(fields: seq<Field>): (r: seq<string>)
    ensures forall i, j :: 0 <= i < j < |r| ==> r[i] != r[j]
    ensures forall c :: c in r <==> c != "" && exists i :: 0 <= i < |fields| && fields[i].mapping.category == Some(c)
  {
    if fields == [] then []
    else
      var n := |fields| - 1;
      var before := Categories(fields[..n]);
      var m := fields[n].mapping;
      assert forall i :: 0 <= i < n ==> fields[..n][i] == fields[i];
      if HasCategory(m) && m.category.value !in before then before + [m.category.value] else before
  }

  /** Categories met earlier keep their places when more fields follow. */
  lemma {:induction false} CategoriesPrefix(xs: seq<Field>, ys: seq<Field>)
    ensures Categories(xs) <= Categories(xs + ys)
  {
    if ys == [] {
      assert xs + ys == xs;
    } else {
      var n := |ys| - 1;
      CategoriesPrefix(xs, ys[..n]);
      assert (xs + ys)[..|xs + ys| - 1] == xs + ys[..n];
    }
  }

  /** Every field of `fs` has category `c`. */
  ghost predicate InCategory(fs: seq<Field>, c: string) {
    forall i :: 0 <= i < |fs| ==> fs[i].mapping.category == Some(c)
  }

  /** A run of fields sharing one category adds that category once, unless it was met before. */
  lemma {:induction false} CategoriesRun(xs: seq<Field>, c: string, run: seq<Field>)
    requires InCategory(run, c) && c != ""
    ensures Categories(xs + run) == Categories(xs) + (if run == [] || c in Categories(xs) then [] else [c])
  {
    if run == [] {
      assert xs + run == xs;
    } else {
      var n := |run| - 1;
      assert InCategory(run[..n], c);
      CategoriesRun(xs, c, run[..n]);
      assert (xs + run)[..|xs + run| - 1] == xs + run[..n];
      if run[..n] != [] {
        assert c in Categories(xs + run[..n]) by {
          assert (xs + run[..n])[|xs|].mapping.category == Some(c);
        }
      }
    }
  }

  /** `getCategoriesFromFields`: adds each non-empty category to an insertion-ordered set. */
  method GetCategoriesFromFields(fields: seq<Field>) returns (categories: seq<string>)
    ensures categories == Categories(fields)
  {
    categories := [];
    var i := 0;
    while i < |fields|
      invariant 0 <= i <= |fields|
      invariant categories == Categories(fields[..i])
    {
      assert fields[..i + 1][..i] == fields[..i];
      var m := fields[i].mapping;
      if m.category.Some? && m.category.value != "" && m.category.value !in categories {
        categories := categories + [m.category.value];
      }
      i := i + 1;
    }
    assert fields[..i] == fields;
  }

  const SOCIAL_CATEGORIES: seq<string> := Categories(SOCIAL_FIELDS)
  const ECONOMIC_CATEGORIES: seq<string> := Categories(ECONOMIC_FIELDS)
  const HOUSING_CATEGORIES: seq<string> := Categories(HOUSING_FIELDS)
  const DEMOGRAPHIC_CATEGORIES: seq<string> := Categories(DEMOGRAPHIC_FIELDS)

  // ----- The tables -----

  // SOCIAL_FIELDS (comprehensiveFieldMappings.ts:17)

  const SOCIAL_HOUSEHOLDS: seq<Field> := [
    Field("DP02_0001E", FieldMapping("Total Households", "Total number of households", Number, Some("Households"))),
    Field("DP02_0002E", FieldMapping("Married-couple Family Households", "Married-couple family households", Number, Some("Households"))),
    Field("DP02_0003E", FieldMapping("With Own Children Under 18", "Married-couple family with own children under 18", Number, Some("Households"))),
    Field("DP02_0004E", FieldMapping("Cohabiting Couple Households", "Cohabiting couple households", Number, Some("Households"))),
    Field("DP02_0005E", FieldMapping("Cohabiting with Own Children", "Cohabiting couple with own children under 18", Number, Some("Households"))),
    Field("DP02_0006E", FieldMapping("Male Householder, No Spouse", "Male householder, no spouse/partner present", Number, Some("Households"))),
    Field("DP02_0007E", FieldMapping("Male Householder with Children", "Male householder with own children under 18", Number, Some("Households"))),
    Field("DP02_0008E", FieldMapping("Female Householder, No Spouse", "Female householder, no spouse/partner present", Number, Some("Households"))),
    Field("DP02_0009E", FieldMapping("Female Householder with Children", "Female householder with own children under 18", Number, Some("Households"))),
    Field("DP02_0010E", FieldMapping("Nonfamily Households", "Nonfamily households", Number, Some("Households"))),
    Field("DP02_0011E", FieldMapping("Householder Living Alone", "Householder living alone", Number, Some("Households"))),
    Field("DP02_0012E", FieldMapping("Householder 65+ Living Alone", "Householder 65 years and over living alone", Number, Some("Households"))),
    Field("DP02_0013E", FieldMapping("Households with Children Under 18", "Households with one or more people under 18 years", Number, Some("Households"))),
    Field("DP02_0014E", FieldMapping("Households with 65+ Member", "Households with one or more people 65 years and over", Number, Some("Households"))),
    Field("DP02_0015E", FieldMapping("Average Household Size", "Average household size", Ratio, Some("Households"))),
    Field("DP02_0016E", FieldMapping("Average Family Size", "Average family size", Ratio, Some("Households")))
  ]

  const SOCIAL_RELATIONSHIP: seq<Field> := [
    Field("DP02_0017E", FieldMapping("Population in Households", "Population in households", Number, Some("Relationship"))),
    Field("DP02_0018E", FieldMapping("Householder", "Householder", Number, Some("Relationship"))),
    Field("DP02_0019E", FieldMapping("Spouse", "Spouse", Number, Some("Relationship"))),
    Field("DP02_0020E", FieldMapping("Unmarried Partner", "Unmarried partner", Number, Some("Relationship"))),
    Field("DP02_0021E", FieldMapping("Child", "Child", Number, Some("Relationship"))),
    Field("DP02_0022E", FieldMapping("Other Relatives", "Other relatives", Number, Some("Relationship"))),
    Field("DP02_0023E", FieldMapping("Nonrelatives", "Nonrelatives", Number, Some("Relationship"))),
    Field("DP02_0024E", FieldMapping("Unmarried Partner (Nonrelative)", "Unmarried partner (nonrelative)", Number, Some("Relationship")))
  ]

  const SOCIAL_MARITAL_STATUS: seq<Field> := [
    Field("DP02_0025E", FieldMapping("Males 15+ Population", "Males 15 years and over", Number, Some("Marital Status"))),
    Field("DP02_0026E", FieldMapping("Males Never Married", "Males never married", Number, Some("Marital Status"))),
    Field("DP02_0027E", FieldMapping("Males Now Married", "Males now married, except separated", Number, Some("Marital Status"))),
    Field("DP02_0028E", FieldMapping("Males Separated", "Males separated", Number, Some("Marital Status"))),
    Field("DP02_0029E", FieldMapping("Males Widowed", "Males widowed", Number, Some("Marital Status"))),
    Field("DP02_0030E", FieldMapping("Males Divorced", "Males divorced", Number, Some("Marital Status"))),
    Field("DP02_0031E", FieldMapping("Females 15+ Population", "Females 15 years and over", Number, Some("Marital Status"))),
    Field("DP02_0032E", FieldMapping("Females Never Married", "Females never married", Number, Some("Marital Status"))),
    Field("DP02_0033E", FieldMapping("Females Now Married", "Females now married, except separated", Number, Some("Marital Status"))),
    Field("DP02_0034E", FieldMapping("Females Separated", "Females separated", Number, Some("Marital Status"))),
    Field("DP02_0035E", FieldMapping("Females Widowed", "Females widowed", Number, Some("Marital Status"))),
    Field("DP02_0036E", FieldMapping("Females Divorced", "Females divorced", Number, Some("Marital Status")))
  ]

  const SOCIAL_FERTILITY: seq<Field> := [
    Field("DP02_0037E", FieldMapping("Women 15-50 Who Had Birth", "Women 15 to 50 years who had a birth in past 12 months", Number, Some("Fertility"))),
    Field("DP02_0038E", FieldMapping("Unmarried Women Who Had Birth", "Unmarried women who had a birth in past 12 months", Number, Some("Fertility"))),
    Field("DP02_0039E", FieldMapping("Per 1,000 Unmarried Women", "Per 1,000 unmarried women 15 to 50 years", Ratio, Some("Fertility"))),
    Field("DP02_0040E", FieldMapping("Per 1,000 Women 15-19", "Per 1,000 women 15 to 19 years", Ratio, Some("Fertility"))),
    Field("DP02_0041E", FieldMapping("Per 1,000 Women 20-34", "Per 1,000 women 20 to 34 years", Ratio, Some("Fertility"))),
    Field("DP02_0042E", FieldMapping("Per 1,000 Women 35-50", "Per 1,000 women 35 to 50 years", Ratio, Some("Fertility")))
  ]

  const SOCIAL_GRANDPARENTS: seq<Field> := [
    Field("DP02_0043E", FieldMapping("Grandparents Living with Grandchildren", "Grandparents living with own grandchildren under 18", Number, Some("Grandparents"))),
    Field("DP02_0044E", FieldMapping("Grandparents Responsible for Grandchildren", "Grandparents responsible for grandchildren", Number, Some("Grandparents")))
  ]

  const SOCIAL_SCHOOL_ENROLLMENT: seq<Field> := [
    Field("DP02_0053E", FieldMapping("Population 3+ Enrolled in School", "Population 3 years and over enrolled in school", Number, Some("School Enrollment"))),
    Field("DP02_0054E", FieldMapping("Nursery School, Preschool", "Nursery school, preschool", Number, Some("School Enrollment"))),
    Field("DP02_0055E", FieldMapping("Kindergarten", "Kindergarten", Number, Some("School Enrollment"))),
    Field("DP02_0056E", FieldMapping("Elementary School (Grades 1-8)", "Elementary school (grades 1-8)", Number, Some("School Enrollment"))),
    Field("DP02_0057E", FieldMapping("High School (Grades 9-12)", "High school (grades 9-12)", Number, Some("School Enrollment"))),
    Field("DP02_0058E", FieldMapping("College or Graduate School", "College or graduate school", Number, Some("School Enrollment")))
  ]

  const SOCIAL_EDUCATION: seq<Field> := [
    Field("DP02_0059E", FieldMapping("Population 25+ Years", "Population 25 years and over", Number, Some("Education"))),
    Field("DP02_0060E", FieldMapping("Less than 9th Grade", "Less than 9th grade", Number, Some("Education"))),
    Field("DP02_0061E", FieldMapping("9th-12th Grade (No Diploma)", "9th to 12th grade, no diploma", Number, Some("Education"))),
    Field("DP02_0062E", FieldMapping("High School Graduate", "High school graduate (includes equivalency)", Number, Some("Education"))),
    Field("DP02_0063E", FieldMapping("Some College (No Degree)", "Some college, no degree", Number, Some("Education"))),
    Field("DP02_0064E", FieldMapping("Associate's Degree", "Associate's degree", Number, Some("Education"))),
    Field("DP02_0065E", FieldMapping("Bachelor's Degree", "Bachelor's degree", Number, Some("Education"))),
    Field("DP02_0066E", FieldMapping("Graduate/Professional Degree", "Graduate or professional degree", Number, Some("Education"))),
    Field("DP02_0067E", FieldMapping("High School Graduate or Higher", "High school graduate or higher", Percent, Some("Education"))),
    Field("DP02_0068E", FieldMapping("Bachelor's Degree or Higher", "Bachelor's degree or higher", Percent, Some("Education")))
  ]

  const SOCIAL_VETERANS: seq<Field> := [
    Field("DP02_0069E", FieldMapping("Civilian Veterans", "Civilian veterans 18 years and over", Number, Some("Veterans")))
  ]

  const SOCIAL_DISABILITY: seq<Field> := [
    Field("DP02_0071E", FieldMapping("Total Civilian Noninstitutionalized", "Total civilian noninstitutionalized population", Number, Some("Disability"))),
    Field("DP02_0072E", FieldMapping("With a Disability", "With a disability", Number, Some("Disability"))),
    Field("DP02_0073E", FieldMapping("Under 18 With Disability", "Under 18 years with disability", Number, Some("Disability"))),
    Field("DP02_0074E", FieldMapping("18-64 With Disability", "18 to 64 years with disability", Number, Some("Disability"))),
    Field("DP02_0075E", FieldMapping("65+ With Disability", "65 years and over with disability", Number, Some("Disability")))
  ]

  const SOCIAL_RESIDENCE: seq<Field> := [
    Field("DP02_0079E", FieldMapping("Population 1+ Years", "Population 1 year and over", Number, Some("Residence"))),
    Field("DP02_0080E", FieldMapping("Same House", "Same house 1 year ago", Number, Some("Residence"))),
    Field("DP02_0081E", FieldMapping("Different House in U.S.", "Different house in U.S.", Number, Some("Residence"))),
    Field("DP02_0082E", FieldMapping("Same County", "Same county", Number, Some("Residence"))),
    Field("DP02_0083E", FieldMapping("Different County, Same State", "Different county, same state", Number, Some("Residence"))),
    Field("DP02_0084E", FieldMapping("Different State", "Different state", Number, Some("Residence"))),
    Field("DP02_0085E", FieldMapping("Abroad", "Abroad", Number, Some("Residence")))
  ]

  const SOCIAL_PLACE_OF_BIRTH: seq<Field> := [
    Field("DP02_0088E", FieldMapping("Total Population", "Total population", Number, Some("Place of Birth"))),
    Field("DP02_0089E", FieldMapping("Native", "Native", Number, Some("Place of Birth"))),
    Field("DP02_0090E", FieldMapping("Born in U.S.", "Born in United States", Number, Some("Place of Birth"))),
    Field("DP02_0091E", FieldMapping("Born in State of Residence", "Born in state of residence", Number, Some("Place of Birth"))),
    Field("DP02_0092E", FieldMapping("Born in Different State", "Born in different state", Number, Some("Place of Birth"))),
    Field("DP02_0093E", FieldMapping("Born in Puerto Rico/U.S. Islands", "Born in Puerto Rico, U.S. Island areas, or born abroad to American parent(s)", Number, Some("Place of Birth"))),
    Field("DP02_0094E", FieldMapping("Foreign Born", "Foreign born", Number, Some("Place of Birth")))
  ]

  const SOCIAL_CITIZENSHIP: seq<Field> := [
    Field("DP02_0095E", FieldMapping("Foreign-Born Population", "Foreign-born population", Number, Some("Citizenship"))),
    Field("DP02_0096E", FieldMapping("Naturalized U.S. Citizen", "Naturalized U.S. citizen", Number, Some("Citizenship"))),
    Field("DP02_0097E", FieldMapping("Not a U.S. Citizen", "Not a U.S. citizen", Number, Some("Citizenship")))
  ]

  const SOCIAL_LANGUAGE: seq<Field> := [
    Field("DP02_0112E", FieldMapping("Population 5+ Years", "Population 5 years and over", Number, Some("Language"))),
    Field("DP02_0113E", FieldMapping("English Only", "English only", Number, Some("Language"))),
    Field("DP02_0114E", FieldMapping("Language Other than English", "Language other than English", Number, Some("Language"))),
    Field("DP02_0115E", FieldMapping("Speak English Less than Very Well", "Speak English less than \"very well\"", Number, Some("Language")))
  ]

  const SOCIAL_ANCESTRY: seq<Field> := [
    Field("DP02_0124E", FieldMapping("Total Population for Ancestry", "Total population", Number, Some("Ancestry"))),
    Field("DP02_0125E", FieldMapping("American", "American ancestry", Number, Some("Ancestry"))),
    Field("DP02_0126E", FieldMapping("Arab", "Arab ancestry", Number, Some("Ancestry"))),
    Field("DP02_0127E", FieldMapping("Czech", "Czech ancestry", Number, Some("Ancestry"))),
    Field("DP02_0128E", FieldMapping("Danish", "Danish ancestry", Number, Some("Ancestry"))),
    Field("DP02_0129E", FieldMapping("Dutch", "Dutch ancestry", Number, Some("Ancestry"))),
    Field("DP02_0130E", FieldMapping("English", "English ancestry", Number, Some("Ancestry"))),
    Field("DP02_0131E", FieldMapping("French (Except Basque)", "French (except Basque) ancestry", Number, Some("Ancestry"))),
    Field("DP02_0132E", FieldMapping("French Canadian", "French Canadian ancestry", Number, Some("Ancestry"))),
    Field("DP02_0133E", FieldMapping("German", "German ancestry", Number, Some("Ancestry"))),
    Field("DP02_0134E", FieldMapping("Greek", "Greek ancestry", Number, Some("Ancestry"))),
    Field("DP02_0135E", FieldMapping("Hungarian", "Hungarian ancestry", Number, Some("Ancestry"))),
    Field("DP02_0136E", FieldMapping("Irish", "Irish ancestry", Number, Some("Ancestry"))),
    Field("DP02_0137E", FieldMapping("Italian", "Italian ancestry", Number, Some("Ancestry"))),
    Field("DP02_0138E", FieldMapping("Lithuanian", "Lithuanian ancestry", Number, Some("Ancestry"))),
    Field("DP02_0139E", FieldMapping("Norwegian", "Norwegian ancestry", Number, Some("Ancestry"))),
    Field("DP02_0140E", FieldMapping("Polish", "Polish ancestry", Number, Some("Ancestry"))),
    Field("DP02_0141E", FieldMapping("Portuguese", "Portuguese ancestry", Number, Some("Ancestry"))),
    Field("DP02_0142E", FieldMapping("Russian", "Russian ancestry", Number, Some("Ancestry"))),
    Field("DP02_0143E", FieldMapping("Scotch-Irish", "Scotch-Irish ancestry", Number, Some("Ancestry"))),
    Field("DP02_0144E", FieldMapping("Scottish", "Scottish ancestry", Number, Some("Ancestry"))),
    Field("DP02_0145E", FieldMapping("Slovak", "Slovak ancestry", Number, Some("Ancestry"))),
    Field("DP02_0146E", FieldMapping("Sub-Saharan African", "Sub-Saharan African ancestry", Number, Some("Ancestry"))),
    Field("DP02_0147E", FieldMapping("Swedish", "Swedish ancestry", Number, Some("Ancestry"))),
    Field("DP02_0148E", FieldMapping("Swiss", "Swiss ancestry", Number, Some("Ancestry"))),
    Field("DP02_0149E", FieldMapping("Ukrainian", "Ukrainian ancestry", Number, Some("Ancestry"))),
    Field("DP02_0150E", FieldMapping("Welsh", "Welsh ancestry", Number, Some("Ancestry"))),
    Field("DP02_0151E", FieldMapping("West Indian", "West Indian (excluding Hispanic origin groups) ancestry", Number, Some("Ancestry")))
  ]

  const SOCIAL_TECHNOLOGY: seq<Field> := [
    Field("DP02_0152E", FieldMapping("Total Households (Computers)", "Total households", Number, Some("Technology"))),
    Field("DP02_0153E", FieldMapping("With a Computer", "With a computer", Number, Some("Technology"))),
    Field("DP02_0154E", FieldMapping("With Broadband Internet", "With a broadband Internet subscription", Number, Some("Technology")))
  ]

  const SOCIAL_FIELDS: seq<Field> :=
    SOCIAL_HOUSEHOLDS
    + SOCIAL_RELATIONSHIP
    + SOCIAL_MARITAL_STATUS
    + SOCIAL_FERTILITY
    + SOCIAL_GRANDPARENTS
    + SOCIAL_SCHOOL_ENROLLMENT
    + SOCIAL_EDUCATION
    + SOCIAL_VETERANS
    + SOCIAL_DISABILITY
    + SOCIAL_RESIDENCE
    + SOCIAL_PLACE_OF_BIRTH
    + SOCIAL_CITIZENSHIP
    + SOCIAL_LANGUAGE
    + SOCIAL_ANCESTRY
    + SOCIAL_TECHNOLOGY

  // ECONOMIC_FIELDS (comprehensiveFieldMappings.ts:170)

  const ECONOMIC_EMPLOYMENT: seq<Field> := [
    Field("DP03_0001E", FieldMapping("Population 16+ Years", "Population 16 years and over", Number, Some("Employment"))),
    Field("DP03_0002E", FieldMapping("In Labor Force", "In labor force", Number, Some("Employment"))),
    Field("DP03_0003E", FieldMapping("Civilian Labor Force", "Civilian labor force", Number, Some("Employment"))),
    Field("DP03_0004E", FieldMapping("Employed", "Employed", Number, Some("Employment"))),
    Field("DP03_0005E", FieldMapping("Unemployed", "Unemployed", Number, Some("Employment"))),
    Field("DP03_0006E", FieldMapping("Armed Forces", "Armed Forces", Number, Some("Employment"))),
    Field("DP03_0007E", FieldMapping("Not in Labor Force", "Not in labor force", Number, Some("Employment"))),
    Field("DP03_0008E", FieldMapping("Civilian Labor Force (16+)", "Civilian labor force", Number, Some("Employment"))),
    Field("DP03_0009PE", FieldMapping("Unemployment Rate", "Unemployment rate", Percent, Some("Employment"))),
    Field("DP03_0010E", FieldMapping("Females 16+ Years", "Females 16 years and over", Number, Some("Employment"))),
    Field("DP03_0011E", FieldMapping("Females in Labor Force", "Females in labor force", Number, Some("Employment"))),
    Field("DP03_0012E", FieldMapping("Females Civilian Labor Force", "Females civilian labor force", Number, Some("Employment"))),
    Field("DP03_0013E", FieldMapping("Females Employed", "Females employed", Number, Some("Employment")))
  ]

  const ECONOMIC_COMMUTING: seq<Field> := [
    Field("DP03_0018E", FieldMapping("Workers 16+ Years", "Workers 16 years and over", Number, Some("Commuting"))),
    Field("DP03_0019E", FieldMapping("Car, Truck, or Van - Drove Alone", "Car, truck, or van -- drove alone", Number, Some("Commuting"))),
    Field("DP03_0020E", FieldMapping("Car, Truck, or Van - Carpooled", "Car, truck, or van -- carpooled", Number, Some("Commuting"))),
    Field("DP03_0021E", FieldMapping("Public Transportation", "Public transportation (excluding taxicab)", Number, Some("Commuting"))),
    Field("DP03_0022E", FieldMapping("Walked", "Walked", Number, Some("Commuting"))),
    Field("DP03_0023E", FieldMapping("Other Means", "Other means", Number, Some("Commuting"))),
    Field("DP03_0024E", FieldMapping("Worked from Home", "Worked from home", Number, Some("Commuting"))),
    Field("DP03_0025E", FieldMapping("Mean Travel Time (Minutes)", "Mean travel time to work (minutes)", Number, Some("Commuting")))
  ]

  const ECONOMIC_OCCUPATION: seq<Field> := [
    Field("DP03_0026E", FieldMapping("Civilian Employed 16+ Years", "Civilian employed population 16 years and over", Number, Some("Occupation"))),
    Field("DP03_0027E", FieldMapping("Management, Business, Science, Arts", "Management, business, science, and arts occupations", Number, Some("Occupation"))),
    Field("DP03_0028E", FieldMapping("Service Occupations", "Service occupations", Number, Some("Occupation"))),
    Field("DP03_0029E", FieldMapping("Sales and Office", "Sales and office occupations", Number, Some("Occupation"))),
    Field("DP03_0030E", FieldMapping("Natural Resources, Construction, Maintenance", "Natural resources, construction, and maintenance occupations", Number, Some("Occupation"))),
    Field("DP03_0031E", FieldMapping("Production, Transportation, Material Moving", "Production, transportation, and material moving occupations", Number, Some("Occupation")))
  ]

  const ECONOMIC_INDUSTRY: seq<Field> := [
    Field("DP03_0032E", FieldMapping("Civilian Employed (Industry)", "Civilian employed population 16 years and over", Number, Some("Industry"))),
    Field("DP03_0033E", FieldMapping("Agriculture, Forestry, Fishing, Hunting, Mining", "Agriculture, forestry, fishing and hunting, and mining", Number, Some("Industry"))),
    Field("DP03_0034E", FieldMapping("Construction", "Construction", Number, Some("Industry"))),
    Field("DP03_0035E", FieldMapping("Manufacturing", "Manufacturing", Number, Some("Industry"))),
    Field("DP03_0036E", FieldMapping("Wholesale Trade", "Wholesale trade", Number, Some("Industry"))),
    Field("DP03_0037E", FieldMapping("Retail Trade", "Retail trade", Number, Some("Industry"))),
    Field("DP03_0038E", FieldMapping("Transportation, Warehousing, Utilities", "Transportation and warehousing, and utilities", Number, Some("Industry"))),
    Field("DP03_0039E", FieldMapping("Information", "Information", Number, Some("Industry"))),
    Field("DP03_0040E", FieldMapping("Finance, Insurance, Real Estate", "Finance and insurance, and real estate and rental and leasing", Number, Some("Industry"))),
    Field("DP03_0041E", FieldMapping("Professional, Scientific, Management", "Professional, scientific, and management, and administrative and waste management services", Number, Some("Industry"))),
    Field("DP03_0042E", FieldMapping("Educational Services, Health Care", "Educational services, and health care and social assistance", Number, Some("Industry"))),
    Field("DP03_0043E", FieldMapping("Arts, Entertainment, Recreation, Food", "Arts, entertainment, and recreation, and accommodation and food services", Number, Some("Industry"))),
    Field("DP03_0044E", FieldMapping("Other Services", "Other services, except public administration", Number, Some("Industry"))),
    Field("DP03_0045E", FieldMapping("Public Administration", "Public administration", Number, Some("Industry")))
  ]

  const ECONOMIC_CLASS_OF_WORKER: seq<Field> := [
    Field("DP03_0046E", FieldMapping("Civilian Employed (Class)", "Civilian employed population 16 years and over", Number, Some("Class of Worker"))),
    Field("DP03_0047E", FieldMapping("Private Wage and Salary", "Private wage and salary workers", Number, Some("Class of Worker"))),
    Field("DP03_0048E", FieldMapping("Government Workers", "Government workers", Number, Some("Class of Worker"))),
    Field("DP03_0049E", FieldMapping("Self-Employed (Not Incorporated)", "Self-employed in own not incorporated business workers", Number, Some("Class of Worker"))),
    Field("DP03_0050E", FieldMapping("Unpaid Family Workers", "Unpaid family workers", Number, Some("Class of Worker")))
  ]

  const ECONOMIC_INCOME: seq<Field> := [
    Field("DP03_0051E", FieldMapping("Total Households", "Total households", Number, Some("Income"))),
    Field("DP03_0052E", FieldMapping("Less than $10,000", "Less than $10,000", Number, Some("Income"))),
    Field("DP03_0053E", FieldMapping("$10,000 to $14,999", "$10,000 to $14,999", Number, Some("Income"))),
    Field("DP03_0054E", FieldMapping("$15,000 to $24,999", "$15,000 to $24,999", Number, Some("Income"))),
    Field("DP03_0055E", FieldMapping("$25,000 to $34,999", "$25,000 to $34,999", Number, Some("Income"))),
    Field("DP03_0056E", FieldMapping("$35,000 to $49,999", "$35,000 to $49,999", Number, Some("Income"))),
    Field("DP03_0057E", FieldMapping("$50,000 to $74,999", "$50,000 to $74,999", Number, Some("Income"))),
    Field("DP03_0058E", FieldMapping("$75,000 to $99,999", "$75,000 to $99,999", Number, Some("Income"))),
    Field("DP03_0059E", FieldMapping("$100,000 to $149,999", "$100,000 to $149,999", Number, Some("Income"))),
    Field("DP03_0060E", FieldMapping("$150,000 to $199,999", "$150,000 to $199,999", Number, Some("Income"))),
    Field("DP03_0061E", FieldMapping("$200,000 or More", "$200,000 or more", Number, Some("Income"))),
    Field("DP03_0062E", FieldMapping("Median Household Income", "Median household income (dollars)", Currency, Some("Income"))),
    Field("DP03_0063E", FieldMapping("Mean Household Income", "Mean household income (dollars)", Currency, Some("Income")))
  ]

  const ECONOMIC_INCOME_SOURCES: seq<Field> := [
    Field("DP03_0064E", FieldMapping("With Earnings", "With earnings", Number, Some("Income Sources"))),
    Field("DP03_0065E", FieldMapping("Mean Earnings", "Mean earnings (dollars)", Currency, Some("Income Sources"))),
    Field("DP03_0066E", FieldMapping("With Social Security", "With Social Security", Number, Some("Income Sources"))),
    Field("DP03_0067E", FieldMapping("Mean Social Security Income", "Mean Social Security income (dollars)", Currency, Some("Income Sources"))),
    Field("DP03_0068E", FieldMapping("With Retirement Income", "With retirement income", Number, Some("Income Sources"))),
    Field("DP03_0069E", FieldMapping("Mean Retirement Income", "Mean retirement income (dollars)", Currency, Some("Income Sources"))),
    Field("DP03_0070E", FieldMapping("With Supplemental Security Income", "With Supplemental Security Income", Number, Some("Income Sources"))),
    Field("DP03_0071E", FieldMapping("Mean SSI", "Mean Supplemental Security Income (dollars)", Currency, Some("Income Sources"))),
    Field("DP03_0072E", FieldMapping("With Cash Public Assistance", "With cash public assistance income", Number, Some("Income Sources"))),
    Field("DP03_0073E", FieldMapping("Mean Cash Public Assistance", "Mean cash public assistance income (dollars)", Currency, Some("Income Sources"))),
    Field("DP03_0074E", FieldMapping("With Food Stamp/SNAP Benefits", "With Food Stamp/SNAP benefits in past 12 months", Number, Some("Income Sources")))
  ]

  const ECONOMIC_FAMILY_INCOME: seq<Field> := [
    Field("DP03_0075E", FieldMapping("Families", "Families", Number, Some("Family Income"))),
    Field("DP03_0086E", FieldMapping("Median Family Income", "Median family income (dollars)", Currency, Some("Family Income"))),
    Field("DP03_0087E", FieldMapping("Mean Family Income", "Mean family income (dollars)", Currency, Some("Family Income")))
  ]

  const ECONOMIC_INCOME_2: seq<Field> := [
    Field("DP03_0088E", FieldMapping("Per Capita Income", "Per capita income (dollars)", Currency, Some("Income"))),
    Field("DP03_0089E", FieldMapping("Nonfamily Households", "Nonfamily households", Number, Some("Income"))),
    Field("DP03_0090E", FieldMapping("Median Nonfamily Income", "Median nonfamily income (dollars)", Currency, Some("Income"))),
    Field("DP03_0091E", FieldMapping("Mean Nonfamily Income", "Mean nonfamily income (dollars)", Currency, Some("Income")))
  ]

  const ECONOMIC_EARNINGS: seq<Field> := [
    Field("DP03_0092E", FieldMapping("Median Earnings for Workers", "Median earnings for workers (dollars)", Currency, Some("Earnings"))),
    Field("DP03_0093E", FieldMapping("Median Earnings for Male Full-Time", "Median earnings for male full-time, year-round workers (dollars)", Currency, Some("Earnings"))),
    Field("DP03_0094E", FieldMapping("Median Earnings for Female Full-Time", "Median earnings for female full-time, year-round workers (dollars)", Currency, Some("Earnings")))
  ]

  const ECONOMIC_HEALTH_INSURANCE: seq<Field> := [
    Field("DP03_0095E", FieldMapping("Civilian Noninstitutionalized", "Civilian noninstitutionalized population", Number, Some("Health Insurance"))),
    Field("DP03_0096E", FieldMapping("With Health Insurance", "With health insurance coverage", Number, Some("Health Insurance"))),
    Field("DP03_0097E", FieldMapping("With Private Health Insurance", "With private health insurance", Number, Some("Health Insurance"))),
    Field("DP03_0098E", FieldMapping("With Public Coverage", "With public coverage", Number, Some("Health Insurance"))),
    Field("DP03_0099E", FieldMapping("No Health Insurance", "No health insurance coverage", Number, Some("Health Insurance")))
  ]

  const ECONOMIC_POVERTY: seq<Field> := [
    Field("DP03_0119PE", FieldMapping("Families Below Poverty", "Percent of families with income below poverty level", Percent, Some("Poverty"))),
    Field("DP03_0128PE", FieldMapping("Individuals Below Poverty", "Percent of population with income below poverty level", Percent, Some("Poverty")))
  ]

  const ECONOMIC_FIELDS: seq<Field> :=
    ECONOMIC_EMPLOYMENT
    + ECONOMIC_COMMUTING
    + ECONOMIC_OCCUPATION
    + ECONOMIC_INDUSTRY
    + ECONOMIC_CLASS_OF_WORKER
    + ECONOMIC_INCOME
    + ECONOMIC_INCOME_SOURCES
    + ECONOMIC_FAMILY_INCOME
    + ECONOMIC_INCOME_2
    + ECONOMIC_EARNINGS
    + ECONOMIC_HEALTH_INSURANCE
    + ECONOMIC_POVERTY

  // HOUSING_FIELDS (comprehensiveFieldMappings.ts:290)

  const HOUSING_OCCUPANCY: seq<Field> := [
    Field("DP04_0001E", FieldMapping("Total Housing Units", "Total housing units", Number, Some("Occupancy"))),
    Field("DP04_0002E", FieldMapping("Occupied Housing Units", "Occupied housing units", Number, Some("Occupancy"))),
    Field("DP04_0003E", FieldMapping("Vacant Housing Units", "Vacant housing units", Number, Some("Occupancy"))),
    Field("DP04_0004E", FieldMapping("Homeowner Vacancy Rate", "Homeowner vacancy rate", Percent, Some("Occupancy"))),
    Field("DP04_0005E", FieldMapping("Rental Vacancy Rate", "Rental vacancy rate", Percent, Some("Occupancy")))
  ]

  const HOUSING_STRUCTURE: seq<Field> := [
    Field("DP04_0006E", FieldMapping("Total Housing Units (Structure)", "Total housing units", Number, Some("Structure"))),
    Field("DP04_0007E", FieldMapping("1-Unit Detached", "1-unit, detached", Number, Some("Structure"))),
    Field("DP04_0008E", FieldMapping("1-Unit Attached", "1-unit, attached", Number, Some("Structure"))),
    Field("DP04_0009E", FieldMapping("2 Units", "2 units", Number, Some("Structure"))),
    Field("DP04_0010E", FieldMapping("3 or 4 Units", "3 or 4 units", Number, Some("Structure"))),
    Field("DP04_0011E", FieldMapping("5 to 9 Units", "5 to 9 units", Number, Some("Structure"))),
    Field("DP04_0012E", FieldMapping("10 to 19 Units", "10 to 19 units", Number, Some("Structure"))),
    Field("DP04_0013E", FieldMapping("20 or More Units", "20 or more units", Number, Some("Structure"))),
    Field("DP04_0014E", FieldMapping("Mobile Home", "Mobile home", Number, Some("Structure"))),
    Field("DP04_0015E", FieldMapping("Boat, RV, Van, etc.", "Boat, RV, van, etc.", Number, Some("Structure")))
  ]

  const HOUSING_YEAR_BUILT: seq<Field> := [
    Field("DP04_0016E", FieldMapping("Total Housing Units (Year Built)", "Total housing units", Number, Some("Year Built"))),
    Field("DP04_0017E", FieldMapping("Built 2020 or Later", "Built 2020 or later", Number, Some("Year Built"))),
    Field("DP04_0018E", FieldMapping("Built 2010 to 2019", "Built 2010 to 2019", Number, Some("Year Built"))),
    Field("DP04_0019E", FieldMapping("Built 2000 to 2009", "Built 2000 to 2009", Number, Some("Year Built"))),
    Field("DP04_0020E", FieldMapping("Built 1990 to 1999", "Built 1990 to 1999", Number, Some("Year Built"))),
    Field("DP04_0021E", FieldMapping("Built 1980 to 1989", "Built 1980 to 1989", Number, Some("Year Built"))),
    Field("DP04_0022E", FieldMapping("Built 1970 to 1979", "Built 1970 to 1979", Number, Some("Year Built"))),
    Field("DP04_0023E", FieldMapping("Built 1960 to 1969", "Built 1960 to 1969", Number, Some("Year Built"))),
    Field("DP04_0024E", FieldMapping("Built 1950 to 1959", "Built 1950 to 1959", Number, Some("Year Built"))),
    Field("DP04_0025E", FieldMapping("Built 1940 to 1949", "Built 1940 to 1949", Number, Some("Year Built"))),
    Field("DP04_0026E", FieldMapping("Built 1939 or Earlier", "Built 1939 or earlier", Number, Some("Year Built")))
  ]

  const HOUSING_ROOMS: seq<Field> := [
    Field("DP04_0027E", FieldMapping("Total Housing Units (Rooms)", "Total housing units", Number, Some("Rooms"))),
    Field("DP04_0028E", FieldMapping("1 Room", "1 room", Number, Some("Rooms"))),
    Field("DP04_0029E", FieldMapping("2 Rooms", "2 rooms", Number, Some("Rooms"))),
    Field("DP04_0030E", FieldMapping("3 Rooms", "3 rooms", Number, Some("Rooms"))),
    Field("DP04_0031E", FieldMapping("4 Rooms", "4 rooms", Number, Some("Rooms"))),
    Field("DP04_0032E", FieldMapping("5 Rooms", "5 rooms", Number, Some("Rooms"))),
    Field("DP04_0033E", FieldMapping("6 Rooms", "6 rooms", Number, Some("Rooms"))),
    Field("DP04_0034E", FieldMapping("7 Rooms", "7 rooms", Number, Some("Rooms"))),
    Field("DP04_0035E", FieldMapping("8 Rooms", "8 rooms", Number, Some("Rooms"))),
    Field("DP04_0036E", FieldMapping("9 or More Rooms", "9 or more rooms", Number, Some("Rooms"))),
    Field("DP04_0037E", FieldMapping("Median Rooms", "Median rooms", Number, Some("Rooms")))
  ]

  const HOUSING_BEDROOMS: seq<Field> := [
    Field("DP04_0038E", FieldMapping("Total Housing Units (Bedrooms)", "Total housing units", Number, Some("Bedrooms"))),
    Field("DP04_0039E", FieldMapping("No Bedroom", "No bedroom", Number, Some("Bedrooms"))),
    Field("DP04_0040E", FieldMapping("1 Bedroom", "1 bedroom", Number, Some("Bedrooms"))),
    Field("DP04_0041E", FieldMapping("2 Bedrooms", "2 bedrooms", Number, Some("Bedrooms"))),
    Field("DP04_0042E", FieldMapping("3 Bedrooms", "3 bedrooms", Number, Some("Bedrooms"))),
    Field("DP04_0043E", FieldMapping("4 Bedrooms", "4 bedrooms", Number, Some("Bedrooms"))),
    Field("DP04_0044E", FieldMapping("5 or More Bedrooms", "5 or more bedrooms", Number, Some("Bedrooms")))
  ]

  const HOUSING_TENURE: seq<Field> := [
    Field("DP04_0045E", FieldMapping("Occupied Housing Units", "Occupied housing units", Number, Some("Tenure"))),
    Field("DP04_0046E", FieldMapping("Owner-Occupied", "Owner-occupied", Number, Some("Tenure"))),
    Field("DP04_0047E", FieldMapping("Renter-Occupied", "Renter-occupied", Number, Some("Tenure"))),
    Field("DP04_0048E", FieldMapping("Average Household Size (Owner)", "Average household size of owner-occupied unit", Ratio, Some("Tenure"))),
    Field("DP04_0049E", FieldMapping("Average Household Size (Renter)", "Average household size of renter-occupied unit", Ratio, Some("Tenure")))
  ]

  const HOUSING_YEAR_MOVED: seq<Field> := [
    Field("DP04_0050E", FieldMapping("Occupied Housing Units (Year Moved)", "Occupied housing units", Number, Some("Year Moved"))),
    Field("DP04_0051E", FieldMapping("Moved in 2021 or Later", "Moved in 2021 or later", Number, Some("Year Moved"))),
    Field("DP04_0052E", FieldMapping("Moved in 2018 to 2020", "Moved in 2018 to 2020", Number, Some("Year Moved"))),
    Field("DP04_0053E", FieldMapping("Moved in 2010 to 2017", "Moved in 2010 to 2017", Number, Some("Year Moved"))),
    Field("DP04_0054E", FieldMapping("Moved in 2000 to 2009", "Moved in 2000 to 2009", Number, Some("Year Moved"))),
    Field("DP04_0055E", FieldMapping("Moved in 1990 to 1999", "Moved in 1990 to 1999", Number, Some("Year Moved"))),
    Field("DP04_0056E", FieldMapping("Moved in 1989 or Earlier", "Moved in 1989 or earlier", Number, Some("Year Moved")))
  ]

  const HOUSING_VEHICLES: seq<Field> := [
    Field("DP04_0057E", FieldMapping("Occupied Housing Units (Vehicles)", "Occupied housing units", Number, Some("Vehicles"))),
    Field("DP04_0058E", FieldMapping("No Vehicles", "No vehicles available", Number, Some("Vehicles"))),
    Field("DP04_0059E", FieldMapping("1 Vehicle", "1 vehicle available", Number, Some("Vehicles"))),
    Field("DP04_0060E", FieldMapping("2 Vehicles", "2 vehicles available", Number, Some("Vehicles"))),
    Field("DP04_0061E", FieldMapping("3 or More Vehicles", "3 or more vehicles available", Number, Some("Vehicles")))
  ]

  const HOUSING_HEATING_FUEL: seq<Field> := [
    Field("DP04_0062E", FieldMapping("Occupied Housing Units (Fuel)", "Occupied housing units", Number, Some("Heating Fuel"))),
    Field("DP04_0063E", FieldMapping("Utility Gas", "Utility gas", Number, Some("Heating Fuel"))),
    Field("DP04_0064E", FieldMapping("Bottled/Tank/LP Gas", "Bottled, tank, or LP gas", Number, Some("Heating Fuel"))),
    Field("DP04_0065E", FieldMapping("Electricity", "Electricity", Number, Some("Heating Fuel"))),
    Field("DP04_0066E", FieldMapping("Fuel Oil/Kerosene", "Fuel oil, kerosene, etc.", Number, Some("Heating Fuel"))),
    Field("DP04_0067E", FieldMapping("Coal/Coke", "Coal or coke", Number, Some("Heating Fuel"))),
    Field("DP04_0068E", FieldMapping("Wood", "Wood", Number, Some("Heating Fuel"))),
    Field("DP04_0069E", FieldMapping("Solar Energy", "Solar energy", Number, Some("Heating Fuel"))),
    Field("DP04_0070E", FieldMapping("Other Fuel", "Other fuel", Number, Some("Heating Fuel"))),
    Field("DP04_0071E", FieldMapping("No Fuel Used", "No fuel used", Number, Some("Heating Fuel")))
  ]

  const HOUSING_CHARACTERISTICS: seq<Field> := [
    Field("DP04_0072E", FieldMapping("Occupied Housing Units (Characteristics)", "Occupied housing units", Number, Some("Characteristics"))),
    Field("DP04_0073E", FieldMapping("Lacking Complete Plumbing", "Lacking complete plumbing facilities", Number, Some("Characteristics"))),
    Field("DP04_0074E", FieldMapping("Lacking Complete Kitchen", "Lacking complete kitchen facilities", Number, Some("Characteristics"))),
    Field("DP04_0075E", FieldMapping("No Telephone Service", "No telephone service available", Number, Some("Characteristics")))
  ]

  const HOUSING_VALUE: seq<Field> := [
    Field("DP04_0080E", FieldMapping("Owner-Occupied Units (Value)", "Owner-occupied units", Number, Some("Value"))),
    Field("DP04_0081E", FieldMapping("Less than $50,000", "Less than $50,000", Number, Some("Value"))),
    Field("DP04_0082E", FieldMapping("$50,000 to $99,999", "$50,000 to $99,999", Number, Some("Value"))),
    Field("DP04_0083E", FieldMapping("$100,000 to $149,999", "$100,000 to $149,999", Number, Some("Value"))),
    Field("DP04_0084E", FieldMapping("$150,000 to $199,999", "$150,000 to $199,999", Number, Some("Value"))),
    Field("DP04_0085E", FieldMapping("$200,000 to $299,999", "$200,000 to $299,999", Number, Some("Value"))),
    Field("DP04_0086E", FieldMapping("$300,000 to $499,999", "$300,000 to $499,999", Number, Some("Value"))),
    Field("DP04_0087E", FieldMapping("$500,000 to $999,999", "$500,000 to $999,999", Number, Some("Value"))),
    Field("DP04_0088E", FieldMapping("$1,000,000 or More", "$1,000,000 or more", Number, Some("Value"))),
    Field("DP04_0089E", FieldMapping("Median Home Value", "Median (dollars)", Currency, Some("Value")))
  ]

  const HOUSING_RENT: seq<Field> := [
    Field("DP04_0126E", FieldMapping("Renter-Occupied Units (Rent)", "Occupied units paying rent", Number, Some("Rent"))),
    Field("DP04_0127E", FieldMapping("Less than $500", "Less than $500", Number, Some("Rent"))),
    Field("DP04_0128E", FieldMapping("$500 to $999", "$500 to $999", Number, Some("Rent"))),
    Field("DP04_0129E", FieldMapping("$1,000 to $1,499", "$1,000 to $1,499", Number, Some("Rent"))),
    Field("DP04_0130E", FieldMapping("$1,500 to $1,999", "$1,500 to $1,999", Number, Some("Rent"))),
    Field("DP04_0131E", FieldMapping("$2,000 to $2,499", "$2,000 to $2,499", Number, Some("Rent"))),
    Field("DP04_0132E", FieldMapping("$2,500 to $2,999", "$2,500 to $2,999", Number, Some("Rent"))),
    Field("DP04_0133E", FieldMapping("$3,000 or More", "$3,000 or more", Number, Some("Rent"))),
    Field("DP04_0134E", FieldMapping("Median Gross Rent", "Median (dollars)", Currency, Some("Rent")))
  ]

  const HOUSING_RENT_BURDEN: seq<Field> := [
    Field("DP04_0136E", FieldMapping("Occupied Units Paying Rent", "Occupied units paying rent (excluding units where GRAPI cannot be computed)", Number, Some("Rent Burden"))),
    Field("DP04_0137E", FieldMapping("Less than 15% Income", "Less than 15.0 percent", Number, Some("Rent Burden"))),
    Field("DP04_0138E", FieldMapping("15-19.9% Income", "15.0 to 19.9 percent", Number, Some("Rent Burden"))),
    Field("DP04_0139E", FieldMapping("20-24.9% Income", "20.0 to 24.9 percent", Number, Some("Rent Burden"))),
    Field("DP04_0140E", FieldMapping("25-29.9% Income", "25.0 to 29.9 percent", Number, Some("Rent Burden"))),
    Field("DP04_0141E", FieldMapping("30-34.9% Income", "30.0 to 34.9 percent", Number, Some("Rent Burden"))),
    Field("DP04_0142E", FieldMapping("35% or More Income", "35.0 percent or more", Number, Some("Rent Burden"))),
    Field("DP04_0143E", FieldMapping("Not Computed", "Not computed", Number, Some("Rent Burden")))
  ]

  const HOUSING_FIELDS: seq<Field> :=
    HOUSING_OCCUPANCY
    + HOUSING_STRUCTURE
    + HOUSING_YEAR_BUILT
    + HOUSING_ROOMS
    + HOUSING_BEDROOMS
    + HOUSING_TENURE
    + HOUSING_YEAR_MOVED
    + HOUSING_VEHICLES
    + HOUSING_HEATING_FUEL
    + HOUSING_CHARACTERISTICS
    + HOUSING_VALUE
    + HOUSING_RENT
    + HOUSING_RENT_BURDEN

  // DEMOGRAPHIC_FIELDS (comprehensiveFieldMappings.ts:423)

  const DEMOGRAPHIC_POPULATION: seq<Field> := [
    Field("DP05_0001E", FieldMapping("Total Population", "Total population", Number, Some("Population")))
  ]

  const DEMOGRAPHIC_SEX: seq<Field> := [
    Field("DP05_0002E", FieldMapping("Male", "Male", Number, Some("Sex"))),
    Field("DP05_0003E", FieldMapping("Female", "Female", Number, Some("Sex"))),
    Field("DP05_0004E", FieldMapping("Sex Ratio", "Sex ratio (males per 100 females)", Ratio, Some("Sex")))
  ]

  const DEMOGRAPHIC_AGE: seq<Field> := [
    Field("DP05_0005E", FieldMapping("Under 5 Years", "Under 5 years", Number, Some("Age"))),
    Field("DP05_0006E", FieldMapping("5 to 9 Years", "5 to 9 years", Number, Some("Age"))),
    Field("DP05_0007E", FieldMapping("10 to 14 Years", "10 to 14 years", Number, Some("Age"))),
    Field("DP05_0008E", FieldMapping("15 to 19 Years", "15 to 19 years", Number, Some("Age"))),
    Field("DP05_0009E", FieldMapping("20 to 24 Years", "20 to 24 years", Number, Some("Age"))),
    Field("DP05_0010E", FieldMapping("25 to 34 Years", "25 to 34 years", Number, Some("Age"))),
    Field("DP05_0011E", FieldMapping("35 to 44 Years", "35 to 44 years", Number, Some("Age"))),
    Field("DP05_0012E", FieldMapping("45 to 54 Years", "45 to 54 years", Number, Some("Age"))),
    Field("DP05_0013E", FieldMapping("55 to 59 Years", "55 to 59 years", Number, Some("Age"))),
    Field("DP05_0014E", FieldMapping("60 to 64 Years", "60 to 64 years", Number, Some("Age"))),
    Field("DP05_0015E", FieldMapping("65 to 74 Years", "65 to 74 years", Number, Some("Age"))),
    Field("DP05_0016E", FieldMapping("75 to 84 Years", "75 to 84 years", Number, Some("Age"))),
    Field("DP05_0017E", FieldMapping("85 Years and Over", "85 years and over", Number, Some("Age"))),
    Field("DP05_0018E", FieldMapping("Median Age", "Median age (years)", Number, Some("Age"))),
    Field("DP05_0019E", FieldMapping("Under 18 Years", "Under 18 years", Number, Some("Age"))),
    Field("DP05_0020E", FieldMapping("16 Years and Over", "16 years and over", Number, Some("Age"))),
    Field("DP05_0021E", FieldMapping("18 Years and Over", "18 years and over", Number, Some("Age"))),
    Field("DP05_0022E", FieldMapping("21 Years and Over", "21 years and over", Number, Some("Age"))),
    Field("DP05_0023E", FieldMapping("62 Years and Over", "62 years and over", Number, Some("Age"))),
    Field("DP05_0024E", FieldMapping("65 Years and Over", "65 years and over", Number, Some("Age")))
  ]

  const DEMOGRAPHIC_RACE: seq<Field> := [
    Field("DP05_0033E", FieldMapping("Total Population (Race)", "Total population", Number, Some("Race"))),
    Field("DP05_0034E", FieldMapping("One Race", "One race", Number, Some("Race"))),
    Field("DP05_0035E", FieldMapping("Two or More Races", "Two or more races", Number, Some("Race"))),
    Field("DP05_0037E", FieldMapping("White", "White", Number, Some("Race"))),
    Field("DP05_0038E", FieldMapping("Black or African American", "Black or African American", Number, Some("Race"))),
    Field("DP05_0039E", FieldMapping("American Indian and Alaska Native", "American Indian and Alaska Native", Number, Some("Race"))),
    Field("DP05_0044E", FieldMapping("Asian", "Asian", Number, Some("Race"))),
    Field("DP05_0052E", FieldMapping("Native Hawaiian and Pacific Islander", "Native Hawaiian and Other Pacific Islander", Number, Some("Race"))),
    Field("DP05_0057E", FieldMapping("Some Other Race", "Some other race", Number, Some("Race")))
  ]

  const DEMOGRAPHIC_HISPANIC_ORIGIN: seq<Field> := [
    Field("DP05_0070E", FieldMapping("Hispanic or Latino (Any Race)", "Hispanic or Latino (of any race)", Number, Some("Hispanic Origin"))),
    Field("DP05_0071E", FieldMapping("Not Hispanic or Latino", "Not Hispanic or Latino", Number, Some("Hispanic Origin")))
  ]

  const DEMOGRAPHIC_RACE_COMBINATION: seq<Field> := [
    Field("DP05_0076E", FieldMapping("White Alone or in Combination", "White alone or in combination with one or more other races", Number, Some("Race Combination"))),
    Field("DP05_0077E", FieldMapping("Black Alone or in Combination", "Black or African American alone or in combination with one or more other races", Number, Some("Race Combination"))),
    Field("DP05_0078E", FieldMapping("American Indian Alone or in Combination", "American Indian and Alaska Native alone or in combination with one or more other races", Number, Some("Race Combination"))),
    Field("DP05_0079E", FieldMapping("Asian Alone or in Combination", "Asian alone or in combination with one or more other races", Number, Some("Race Combination"))),
    Field("DP05_0080E", FieldMapping("Native Hawaiian Alone or in Combination", "Native Hawaiian and Other Pacific Islander alone or in combination with one or more other races", Number, Some("Race Combination"))),
    Field("DP05_0081E", FieldMapping("Some Other Race Alone or in Combination", "Some other race alone or in combination with one or more other races", Number, Some("Race Combination")))
  ]

  const DEMOGRAPHIC_VOTING: seq<Field> := [
    Field("DP05_0087E", FieldMapping("Citizen Voting Age Population", "Citizen, 18 and over population", Number, Some("Voting")))
  ]

  const DEMOGRAPHIC_FIELDS: seq<Field> :=
    DEMOGRAPHIC_POPULATION
    + DEMOGRAPHIC_SEX
    + DEMOGRAPHIC_AGE
    + DEMOGRAPHIC_RACE
    + DEMOGRAPHIC_HISPANIC_ORIGIN
    + DEMOGRAPHIC_RACE_COMBINATION
    + DEMOGRAPHIC_VOTING

  // FOOD_ACCESS_FIELDS (comprehensiveFieldMappings.ts:482)

  const FOOD_ACCESS_FOOD_ACCESS: seq<Field> := [
    Field("LILATracts_1And10", FieldMapping("LILA Tract (1mi/10mi)", "Low Income, Low Access at 1 mile (urban) / 10 miles (rural)", Boolean, Some("Food Access"))),
    Field("LILATracts_halfAnd10", FieldMapping("LILA Tract (0.5mi/10mi)", "Low Income, Low Access at 0.5 mile (urban) / 10 miles (rural)", Boolean, Some("Food Access"))),
    Field("LILATracts_Vehicle", FieldMapping("LILA Tract (Vehicle)", "Low Income, Low Access using vehicle access", Boolean, Some("Food Access"))),
    Field("TractLOWI", FieldMapping("Low Income Tract", "Low income census tract", Boolean, Some("Food Access"))),
    Field("TractHUNV", FieldMapping("Low Vehicle Access", "Census tract with many households without vehicles", Boolean, Some("Food Access"))),
    Field("PovertyRate", FieldMapping("Poverty Rate", "Tract poverty rate", Percent, Some("Food Access"))),
    Field("MedianFamilyIncome", FieldMapping("Median Family Income", "Tract median family income", Currency, Some("Food Access"))),
    Field("LA1and10", FieldMapping("Low Access (1mi/10mi)", "Low access at 1 mile (urban) / 10 miles (rural)", Boolean, Some("Food Access"))),
    Field("LAhalfand10", FieldMapping("Low Access (0.5mi/10mi)", "Low access at 0.5 mile (urban) / 10 miles (rural)", Boolean, Some("Food Access"))),
    Field("LAPOP1_10", FieldMapping("Low Access Population (1mi)", "Population with low access at 1 mile", Number, Some("Food Access"))),
    Field("LATracts1", FieldMapping("Low Access Tract (1mi)", "Low access tract at 1 mile", Boolean, Some("Food Access"))),
    Field("LATractsVehicle_20", FieldMapping("Vehicle Low Access Tract", "Low access tract using vehicle access", Boolean, Some("Food Access")))
  ]

  const FOOD_ACCESS_FIELDS: seq<Field> :=
    FOOD_ACCESS_FOOD_ACCESS
}
