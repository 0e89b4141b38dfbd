/** The three rails of the app.py engine: goodwill from weighted revenue,
    tangible assets from floor area and treatment rooms (plus the goodwill
    figure), and income from a five-year DCF. */
module Rails {
  import opened Arith
  import opened Heuristics
  import opened Revenue
  import opened IncomeDcf

  // ---------- Goodwill rail ----------

  /** Ontario general-practice goodwill multiple of weighted revenue. */
  const ProvinceFactor: real := 0.95

  /** `goodwill_rail`: weighted revenue times the province factor, scaled by
      one plus the region and practice-type adjustments, floored at zero. */
  function GoodwillRail(c24: real, c25: real, region: string, practiceType: string): (goodwill: real)
    ensures goodwill >= 0.0
    ensures c24 >= 0.0 && c25 >= 0.0 ==>
      goodwill == WeightedRevenue(c24, c25) * ProvinceFactor * (1.0 + RegionAdjustment(region) + PracticeAdjustment(practiceType))
  {
    var wr := WeightedRevenue(c24, c25);
    var adj := RegionAdjustment(region) + PracticeAdjustment(practiceType);
    var goodwill := wr * ProvinceFactor * (1.0 + adj);
    if goodwill < 0.0 then 0.0 else goodwill
  }

  /** With non-negative collections the adjustments move goodwill between
      0.95 * 0.99 and 0.95 * 1.17 of weighted revenue. */
  lemma GoodwillRailBounds(c24: real, c25: real, region: string, practiceType: string)
    requires c24 >= 0.0 && c25 >= 0.0
    ensures var wr := WeightedRevenue(c24, c25);
      0.9405 * wr <= GoodwillRail(c24, c25, region, practiceType) <= 1.1115 * wr
  {
    var wr := WeightedRevenue(c24, c25);
    var f := 1.0 + RegionAdjustment(region) + PracticeAdjustment(practiceType);
    assert 0.99 <= f <= 1.17;
    assert wr * ProvinceFactor * f == wr * (ProvinceFactor * f);
  }

  /** With positive current-year collections goodwill is strictly positive. */
  lemma GoodwillRailPositive(c24: real, c25: real, region: string, practiceType: string)
    requires c24 >= 0.0 && c25 > 0.0
    ensures GoodwillRail(c24, c25, region, practiceType) > 0.0
  {
    GoodwillRailBounds(c24, c25, region, practiceType);
  }

  /** Two equal years and a region and practice type without adjustment give
      goodwill of exactly 95% of that year's collections. */
  lemma GoodwillRailSteady(c: real, region: string, practiceType: string)
    requires c >= 0.0
    requires RegionAdjustment(region) == 0.0 && PracticeAdjustment(practiceType) == 0.0
    ensures GoodwillRail(c, c, region, practiceType) == 0.95 * c
  {
  }

  // ---------- Asset rail ----------

  /** Leasehold improvements: $300 per square foot with 68.57% of their life left. */
  function Leaseholds(sqft: int): (l: real)
    ensures sqft >= 0 ==> l >= 0.0
    ensures sqft == 0 ==> l == 0.0
  {
    sqft as real * 300.0 * 0.6857
  }

  /** Equipped treatment rooms: the declared count, or when it is zero
      (missing) 70% of all rooms rounded to the nearest integer. */
  function EquippedOps(ops: int, equippedOps: int): (n: int)
    ensures equippedOps != 0 ==> n == equippedOps
    ensures equippedOps == 0 ==> -0.5 <= n as real - ops as real * 0.7 <= 0.5
    ensures equippedOps == 0 && ops >= 0 ==> n >= 0
  {
    if equippedOps != 0 then equippedOps else RoundHalfEven(ops as real * 0.7)
  }

  /** Equipment: $40,000 per equipped room; a negative count contributes nothing. */
  function Equipment(eqOps: int): (e: real)
    ensures e >= 0.0
    ensures eqOps <= 0 ==> e == 0.0
    ensures eqOps > 0 ==> e == eqOps as real * 40000.0
  {
    (if eqOps > 0 then eqOps else 0) as real * 40000.0
  }

  /** Supplies: a $35,000 baseline for a practice with rooms, $20,000 otherwise. */
  function Supplies(ops: int): (s: real)
    ensures s == 35000.0 <==> ops > 0
    ensures s == 20000.0 <==> ops <= 0
  {
    if ops > 0 then 35000.0 else 20000.0
  }

  /** `asset_rail`: leaseholds, equipment and supplies, plus the goodwill
      figure it is handed, floored at zero. */
  function AssetRail(goodwill: real, sqft: int, ops: int, equippedOps: int): (total: real)
    ensures total >= 0.0
    ensures goodwill >= 0.0 && sqft >= 0 ==>
      total == goodwill + Leaseholds(sqft) + Equipment(EquippedOps(ops, equippedOps)) + Supplies(ops)
    ensures goodwill >= 0.0 && sqft >= 0 ==> total >= goodwill + 20000.0
  {
    var sum := goodwill + Leaseholds(sqft) + Equipment(EquippedOps(ops, equippedOps)) + Supplies(ops);
    if sum < 0.0 then 0.0 else sum
  }

  /** A practice with no floor area and no rooms, and no goodwill, is worth
      exactly the $20,000 supplies baseline. */
  lemma AssetRailEmptyPractice()
    ensures AssetRail(0.0, 0, 0, 0) == 20000.0
  {
  }

  /** The goodwill handed in passes through one for one: the asset rail is
      the tangible value of the premises plus the goodwill. */
  lemma AssetRailAddsGoodwill(goodwill: real, sqft: int, ops: int, equippedOps: int)
    requires goodwill >= 0.0 && sqft >= 0
    ensures AssetRail(goodwill, sqft, ops, equippedOps) == goodwill + AssetRail(0.0, sqft, ops, equippedOps)
  {
  }

  /** A zero equipped count falls back to 70% of all rooms; for instance six
      rooms count as four equipped ones (4.2 rounds to 4). */
  lemma EquippedOpsFallback()
    ensures EquippedOps(6, 0) == 4
    ensures EquippedOps(5, 0) == 4
    ensures EquippedOps(15, 0) == 10
    ensures EquippedOps(6, -1) == -1 && Equipment(EquippedOps(6, -1)) == 0.0
  {
    RoundHalfEvenUnique(6.0 * 0.7, 4);
    RoundHalfEvenUnique(5.0 * 0.7, 4);
    RoundHalfEvenUnique(15.0 * 0.7, 10);
  }

  // ---------- Income rail ----------

  /** Forward revenue growth assumed by the income rail. */
  const ForwardGrowth: real := 0.03

  /** Discount rate of the income rail: 18% for Toronto and the GTA, 20% elsewhere. */
  function DiscountRate(region: string): (r: real)
    ensures r == 0.18 || r == 0.20
    ensures r > TerminalGrowth
  {
    if IsGta(region) then 0.18 else 0.20
  }

  /** The income rail's lower rate goes with exactly the regions that get
      the top goodwill adjustment, in any letter case. */
  lemma DiscountRateMatchesRegion(region: string)
    ensures DiscountRate(region) == 0.18 <==> RegionAdjustment(region) == 0.02
    ensures DiscountRate(region) == 0.18 <==> IsGta(region)
  {
  }

  /** `income_rail`: the five-year DCF of current-year collections at 3%
      growth and the region's discount rate. */
  method IncomeRail(c25: real, margin: real, region: string) returns (value: real)
    ensures value >= 0.0
    ensures value == Dcf5yUnfloored(c25, margin, ForwardGrowth, DiscountRate(region))
         || (value == 0.0 && Dcf5yUnfloored(c25, margin, ForwardGrowth, DiscountRate(region)) < 0.0)
    ensures c25 >= 0.0 && margin >= 0.0 ==> value == Dcf5yUnfloored(c25, margin, ForwardGrowth, DiscountRate(region))
    ensures c25 > 0.0 && margin > 0.0 ==> value > 0.0
  {
    var r := DiscountRate(region);
    value := Dcf5y(c25, margin, ForwardGrowth, r);
    if c25 >= 0.0 && margin >= 0.0 {
      Dcf5yFloorInactive(c25, margin, ForwardGrowth, r);
    }
    if c25 > 0.0 && margin > 0.0 {
      Dcf5yPositive(c25, margin, ForwardGrowth, r);
    }
  }
}
