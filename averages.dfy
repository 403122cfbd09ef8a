/**
 * The constant reference figures: the city-wide averages used as the third
 * column of the comparison charts, the published ward figures and the
 * headline gaps derived from them. Numbers are exact reals here.
 */
module Averages {

  datatype CityAverages = CityAverages(
    medianHouseholdIncome: real,
    unemploymentRate: real,
    povertyRate: real,
    homeownershipRate: real,
    bachelorsDegreeRate: real,
    highSchoolGradRate: real,
    totalPopulation: real)

  const DC_AVERAGES := CityAverages(106287.0, 5.5, 14.0, 41.1, 63.0, 91.0, 672000.0)

  datatype WardProfile = WardProfile(
    population: real,
    medianIncome: real,
    homeownershipRate: real,
    bachelorsDegreeRate: real,
    unemploymentRate: real,
    povertyRate: real)

  datatype WardData = WardData(ward7: WardProfile, ward8: WardProfile)

  const WARD_DATA := WardData(
    WardProfile(85685.0, 97410.0, 39.8, 30.8, 14.3, 18.1),
    WardProfile(85246.0, 81186.0, 20.4, 19.5, 13.9, 23.1))

  datatype KeyGaps = KeyGaps(incomeGap: real, homeownershipGap: real, educationGap: real, povertyGap: real)

  /**
   * Income, homeownership and education gaps are ward 7 minus ward 8; the
   * poverty gap is taken the other way round, ward 8 minus ward 7.
   */
  const KEY_GAPS := KeyGaps(
    WARD_DATA.ward7.medianIncome - WARD_DATA.ward8.medianIncome,
    WARD_DATA.ward7.homeownershipRate - WARD_DATA.ward8.homeownershipRate,
    WARD_DATA.ward7.bachelorsDegreeRate - WARD_DATA.ward8.bachelorsDegreeRate,
    WARD_DATA.ward8.povertyRate - WARD_DATA.ward7.povertyRate)

  /** The headline gaps, in exact arithmetic. */
  lemma KeyGapValues()
    ensures KEY_GAPS.incomeGap == 16224.0
    ensures KEY_GAPS.homeownershipGap == 19.4
    ensures KEY_GAPS.educationGap == 11.3
    ensures KEY_GAPS.povertyGap == 5.0
  {
  }
}
