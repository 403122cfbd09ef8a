/**
 * The numeric helpers of the formatting utilities: the zero-guarded
 * percentage that every transformer uses, the boolean branch of value
 * formatting and the sign rule of gap formatting. Locale-dependent number
 * rendering is not part of this model.
 */
module Formatters {

  /**
   * `calculatePercent`: the numerator as a percentage of the denominator, and
   * 0 (not a division by zero) when the denominator is 0.
   */
  function CalculatePercent(numerator: real, denominator: real): (r: real)
    ensures denominator == 0.0 ==> r == 0.0
    ensures numerator == 0.0 ==> r == 0.0
    ensures denominator != 0.0 ==> r * denominator == numerator * 100.0
  {
    if denominator == 0.0 then 0.0 else numerator / denominator * 100.0
  }

  /** A part of a positive whole is a percentage between 0 and 100. */
  lemma PercentBounds(numerator: real, denominator: real)
    requires 0.0 <= numerator <= denominator && denominator > 0.0
    ensures 0.0 <= CalculatePercent(numerator, denominator) <= 100.0
  {
    var q := numerator / denominator;
    assert (1.0 - q) * denominator == denominator - numerator;
  }

  /** Percentages of the same whole add up like their parts. */
  lemma PercentAdd(a: real, b: real, denominator: real)
    ensures CalculatePercent(a, denominator) + CalculatePercent(b, denominator)
         == CalculatePercent(a + b, denominator)
  {
    if denominator != 0.0 {
      assert (a + b) / denominator == a / denominator + b / denominator;
    }
  }

  /** The whole is 100 percent of itself unless it is 0. */
  lemma PercentWhole(denominator: real)
    ensures CalculatePercent(denominator, denominator) == (if denominator == 0.0 then 0.0 else 100.0)
  {
  }

  /** `formatValue(value, 'boolean')`: any nonzero value reads 'Yes', zero reads 'No'. */
  function FormatBoolean(value: real): (s: string)
    ensures s == "Yes" <==> value != 0.0
    ensures s == "No" <==> value == 0.0
  {
    if value != 0.0 then "Yes" else "No"
  }

  /** The sign prefix of `formatGap`: '+' for a positive gap, nothing otherwise (a negative number carries its own '-'). */
  function GapSign(value: real): (s: string)
    ensures s == "+" <==> value > 0.0
    ensures s == "" <==> value <= 0.0
  {
    if value > 0.0 then "+" else ""
  }
}
