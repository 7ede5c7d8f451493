/** The category the results card gives a predicted yield (kg/ha). */
module ResultsCard {

  /** A category label with the text and background colour it is shown in. */
  datatype YieldInfo = YieldInfo(category: string, color: string, bg: string)

  const ExcellentInfo := YieldInfo("Excellent", "text-green-600", "bg-green-50")
  const GoodInfo := YieldInfo("Good", "text-blue-600", "bg-blue-50")
  const AverageInfo := YieldInfo("Average", "text-yellow-600", "bg-yellow-50")
  const BelowAverageInfo := YieldInfo("Below Average", "text-red-600", "bg-red-50")

  /**
   * Thresholds checked from the top, first match wins, each band closed
   * below: [8000, ∞) Excellent, [6000, 8000) Good, [4000, 6000) Average,
   * and everything lower, negative yields included, Below Average.
   */
  function GetYieldCategory(yieldValue: real): (r: YieldInfo)
    ensures r in {ExcellentInfo, GoodInfo, AverageInfo, BelowAverageInfo}
    ensures r == ExcellentInfo <==> 8000.0 <= yieldValue
    ensures r == GoodInfo <==> 6000.0 <= yieldValue < 8000.0
    ensures r == AverageInfo <==> 4000.0 <= yieldValue < 6000.0
    ensures r == BelowAverageInfo <==> yieldValue < 4000.0
  {
    if yieldValue >= 8000.0 then ExcellentInfo
    else if yieldValue >= 6000.0 then GoodInfo
    else if yieldValue >= 4000.0 then AverageInfo
    else BelowAverageInfo
  }

  /** The order of the categories, worst first. */
  function Rank(info: YieldInfo): nat {
    if info == ExcellentInfo then 3
    else if info == GoodInfo then 2
    else if info == AverageInfo then 1
    else 0
  }

  /** A larger yield never gets a worse category. */
  lemma CategoryMonotone(y1: real, y2: real)
    requires y1 <= y2
    ensures Rank(GetYieldCategory(y1)) <= Rank(GetYieldCategory(y2))
  {
  }

  /** The label alone fixes the colours: the four triples are never mixed. */
  lemma CategoryDeterminesColors(y1: real, y2: real)
    requires GetYieldCategory(y1).category == GetYieldCategory(y2).category
    ensures GetYieldCategory(y1) == GetYieldCategory(y2)
  {
  }

  /** The boundary values: each threshold belongs to the band above it. */
  lemma BoundaryYields()
    ensures GetYieldCategory(8000.0).category == "Excellent"
    ensures GetYieldCategory(7999.99).category == "Good"
    ensures GetYieldCategory(7200.0).category == "Good"
    ensures GetYieldCategory(6000.0).category == "Good"
    ensures GetYieldCategory(4000.0).category == "Average"
    ensures GetYieldCategory(3999.99).category == "Below Average"
    ensures GetYieldCategory(-1.0).category == "Below Average"
  {
  }
}
