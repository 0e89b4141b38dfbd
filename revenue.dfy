/** The recency-weighted revenue figure both engines start from: the current
    year counts three parts in five, the prior year two. */
module Revenue {

  /** `weighted_revenue(c24, c25) = (3*c25 + 2*c24) / 5`. */
  function WeightedRevenue(c24: real, c25: real): (wr: real)
    ensures (if c24 <= c25 then c24 else c25) <= wr <= (if c24 <= c25 then c25 else c24)
    ensures c24 == c25 ==> wr == c25
  {
    (c25 * 3.0 + c24 * 2.0) / 5.0
  }

  /** The current year weighs more: when revenue grew, the weighted figure
      lies above the plain two-year average, and below it when revenue fell. */
  lemma WeightedRevenueFavoursRecent(c24: real, c25: real)
    ensures c24 < c25 ==> WeightedRevenue(c24, c25) > (c24 + c25) / 2.0
    ensures c25 < c24 ==> WeightedRevenue(c24, c25) < (c24 + c25) / 2.0
  {
  }
}
