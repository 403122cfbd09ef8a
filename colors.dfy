/**
 * The dashboard palette and its store-type colour rule: case-insensitive
 * substring tests tried in order, the first that matches deciding.
 */
module Colors {
  import opened Text
  import Snap

  const WARD7_COLOR := "#2563eb"
  const WARD8_COLOR := "#7c3aed"
  const DC_AVERAGE_COLOR := "#94a3b8"

  const SUPERMARKET_COLOR := "#22c55e"
  const GROCERY_COLOR := "#3b82f6"
  const CONVENIENCE_COLOR := "#f59e0b"
  const FARMERS_MARKET_COLOR := "#84cc16"
  const OTHER_COLOR := "#6b7280"

  /** The five store colours, in palette order. */
  const STORE_TYPE_COLORS: seq<string> := [SUPERMARKET_COLOR, GROCERY_COLOR, CONVENIENCE_COLOR, FARMERS_MARKET_COLOR, OTHER_COLOR]

  /** `getStoreTypeColor` of the palette module. */
  function GetStoreTypeColor(storeType: string): (r: string)
    ensures r in STORE_TYPE_COLORS
  {
    var t := Lower(storeType);
    if Contains(t, "supermarket") || Contains(t, "super store") then SUPERMARKET_COLOR
    else if Contains(t, "grocery") then GROCERY_COLOR
    else if Contains(t, "convenience") then CONVENIENCE_COLOR
    else if Contains(t, "farmer") then FARMERS_MARKET_COLOR
    else OTHER_COLOR
  }

  /**
   * The colour depends on the lower-cased text only; the supermarket rule
   * wins over every later one, and each later rule decides only when all
   * earlier rules fail; an unmatched type gets the "other" colour.
   */
  lemma StoreTypeColorRules(storeType: string, other: string)
    ensures Lower(storeType) == Lower(other) ==> GetStoreTypeColor(storeType) == GetStoreTypeColor(other)
    ensures var t, c := Lower(storeType), GetStoreTypeColor(storeType);
      var sup := Contains(t, "supermarket") || Contains(t, "super store");
      var gro, con, far := Contains(t, "grocery"), Contains(t, "convenience"), Contains(t, "farmer");
      && (sup ==> c == SUPERMARKET_COLOR)
      && (!sup && gro ==> c == GROCERY_COLOR)
      && (!sup && !gro && con ==> c == CONVENIENCE_COLOR)
      && (!sup && !gro && !con && far ==> c == FARMERS_MARKET_COLOR)
      && (!sup && !gro && !con && !far ==> c == OTHER_COLOR)
  {
  }

  /**
   * "Combination Grocery/Other" gets the grocery colour here, while the
   * SNAP transformer classifies it as Other.
   */
  lemma CombinationDisagrees(storeType: string)
    requires Lower(storeType) == "combination grocery/other"
    ensures GetStoreTypeColor(storeType) == GROCERY_COLOR
    ensures Snap.NormalizeStoreType(storeType) == Snap.OtherStore
  {
    var t := Lower(storeType);
    Snap.NormalizeCombination(storeType);
    Snap.LacksLetters(t);
    MissingChar(t, "supermarket", 's');
    MissingChar(t, "super store", 's');
    ContainsAt(t, "grocery", 12);
  }
}
