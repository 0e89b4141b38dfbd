/** The override-driven two-rail variant (valuation.py): every assumption is
    an input, goodwill is a flat fraction of weighted revenue, tangible assets
    are given directly, the DCF uses a flat terminal-revenue fraction, and the
    final value is the plain average of the DCF and tangible-plus-goodwill. */
module Valuation {
  import opened Arith
  import opened Revenue
  import IncomeDcf

  /** The input record. */
  datatype Inputs = Inputs(
    collections2024: real,
    collections2025: real,
    equipmentValue: real,
    leaseholdValue: real,
    suppliesValue: real,
    benchmarkPct: real,
    adjustmentPct: real,
    goodwillPct: real,
    marginPct: real,
    growthPct: real,
    years: int,
    discountRate: real,
    terminalRevPct: real)

  /** The input record with every optional field at its default. */
  function DefaultInputs(c24: real, c25: real): (i: Inputs)
    ensures i.collections2024 == c24 && i.collections2025 == c25
    ensures i.equipmentValue == 0.0 && i.leaseholdValue == 0.0 && i.suppliesValue == 0.0
    ensures DcfDefined(i.years, i.discountRate)
  {
    Inputs(c24, c25, 0.0, 0.0, 0.0, 0.95, 0.02, 0.97, 0.20, 0.05, 5, 0.20, 0.80)
  }

  /** The one way the computation fails: Python's ZeroDivisionError. */
  datatype Error = ZeroDivision

  datatype Result<T> = Ok(value: T) | Err(error: Error)

  /** One rationale line, carrying the values it interpolates; the wording
      and number formatting are not modelled. The last line is the fixed
      sentence FinalText. */
  datatype Note =
    | WeightedRevenueNote(weightedRevenue: real)
    | BenchmarkNote(benchmarkPct: real, base: real, adjustmentPct: real, adjusted: real)
    | GoodwillNote(goodwillPct: real, goodwill: real)
    | TangibleNote(tangible: real)
    | DcfNote(marginPct: real, growthPct: real, discountRate: real, dcf: real)
    | FinalNote(text: string)

  const FinalText: string := "Final valuation = average of (DCF, Tangible+Goodwill)"

  /** The output record. */
  datatype Outputs = Outputs(
    weightedRevenue: real,
    goodwill: real,
    tangibleAssets: real,
    dcfValue: real,
    assetValueTotal: real,
    finalValue: real,
    rationale: seq<Note>)

  // ---------- Goodwill ----------

  /** The triple `goodwill_from_weighted` returns. */
  datatype GoodwillFigures = GoodwillFigures(goodwill: real, base: real, adjusted: real)

  /** `goodwill_from_weighted`: broker-style goodwill is a flat fraction of
      weighted revenue; the benchmark figure and its adjusted value are
      reported alongside. */
  function GoodwillFromWeighted(wr: real, benchmarkPct: real, adjustmentPct: real, goodwillPct: real): (f: GoodwillFigures)
    ensures f.base == wr * benchmarkPct
    ensures f.adjusted == wr * benchmarkPct * (1.0 + adjustmentPct)
    ensures f.adjusted - f.base == f.base * adjustmentPct
    ensures wr >= 0.0 && goodwillPct >= 0.0 ==> f.goodwill >= 0.0
  {
    var base := wr * benchmarkPct;
    var adjValue := base * (1.0 + adjustmentPct);
    var goodwill := goodwillPct * wr;
    GoodwillFigures(goodwill, base, adjValue)
  }

  /** The benchmark and the adjustment are informational only: goodwill
      depends on weighted revenue and the goodwill fraction alone. */
  lemma GoodwillIgnoresBenchmark(wr: real, goodwillPct: real, b1: real, a1: real, b2: real, a2: real)
    ensures GoodwillFromWeighted(wr, b1, a1, goodwillPct).goodwill == GoodwillFromWeighted(wr, b2, a2, goodwillPct).goodwill
    ensures GoodwillFromWeighted(wr, b1, a1, goodwillPct).goodwill == goodwillPct * wr
  {
  }

  // ---------- DCF ----------

  /** The DCF raises no ZeroDivisionError: either there is nothing to
      discount or the discount factor 1 + rate is not zero. */
  predicate DcfDefined(years: int, discountRate: real)
  {
    years == 0 || 1.0 + discountRate != 0.0
  }

  /** Cash flow of year t >= 1, on collections grown t-1 times. */
  function YearCashFlow(start: real, margin: real, growth: real, t: nat): real
    requires t >= 1
  {
    start * Pow(1.0 + growth, t - 1) * margin
  }

  /** Present value of years 1..n: year t's cash flow is taken on collections
      grown t-1 times, so year 1 is un-grown. */
  function YearsPv(start: real, margin: real, growth: real, discountRate: real, n: nat): real
    requires n == 0 || 1.0 + discountRate != 0.0
  {
    if n == 0 then 0.0
    else YearsPv(start, margin, growth, discountRate, n - 1) + YearCashFlow(start, margin, growth, n) / Pow(1.0 + discountRate, n)
  }

  /** Number of loop iterations of `range(1, years + 1)`. */
  function Iterations(years: int): (n: nat)
    ensures years >= 0 ==> n == years
    ensures years < 0 ==> n == 0
  {
    if years > 0 then years else 0
  }

  /** Closed form of `simple_dcf`: the explicit years plus the terminal
      fraction of collections grown over every iteration, discounted by
      (1 + rate) ** years (a negative `years` gives a reciprocal power). */
  function SimpleDcfValue(start: real, margin: real, growth: real, years: int, discountRate: real, terminalRevPct: real): real
    requires DcfDefined(years, discountRate)
  {
    var n := Iterations(years);
    YearsPv(start, margin, growth, discountRate, n)
      + terminalRevPct * (start * Pow(1.0 + growth, n)) / IntPow(1.0 + discountRate, years)
  }

  /** `simple_dcf`: the loop adds each year's discounted cash flow and then
      grows collections; the terminal value is added at the end. There is no
      floor at zero. */
  method SimpleDcf(start: real, margin: real, growth: real, years: int, discountRate: real, terminalRevPct: real)
    returns (res: Result<real>)
    ensures res.Ok? <==> DcfDefined(years, discountRate)
    ensures res.Ok? ==> res.value == SimpleDcfValue(start, margin, growth, years, discountRate, terminalRevPct)
    ensures res.Err? ==> res.error == ZeroDivision
  {
    var pv := 0.0;
    var collections := start;
    var t := 1;
    while t <= years
      invariant 1 <= t
      invariant t - 1 <= Iterations(years)
      invariant t > 1 ==> 1.0 + discountRate != 0.0
      invariant collections == start * Pow(1.0 + growth, t - 1)
      invariant pv == YearsPv(start, margin, growth, discountRate, t - 1)
    {
      var ocf := collections * margin;
      assert ocf == YearCashFlow(start, margin, growth, t);
      var denom := Pow(1.0 + discountRate, t);
      if 1.0 + discountRate == 0.0 {
        PowZero(t);
      }
      if denom == 0.0 {
        return Err(ZeroDivision);
      }
      pv := pv + ocf / denom;
      collections := collections * (1.0 + growth);
      assert collections == start * Pow(1.0 + growth, t);
      t := t + 1;
    }
    if years < 0 && 1.0 + discountRate == 0.0 {
      return Err(ZeroDivision);
    }
    assert t - 1 == Iterations(years);
    var terminalValue := terminalRevPct * collections;
    pv := pv + terminalValue / IntPow(1.0 + discountRate, years);
    return Ok(pv);
  }

  /** With no projection years the DCF is the terminal fraction of the
      starting collections, whatever the discount rate. */
  lemma SimpleDcfNoYears(start: real, margin: real, growth: real, discountRate: real, terminalRevPct: real)
    ensures SimpleDcfValue(start, margin, growth, 0, discountRate, terminalRevPct) == terminalRevPct * start
  {
  }

  /** Every explicit year contributes a non-negative amount when the inputs
      are non-negative and the discount rate exceeds -100%. */
  lemma {:induction false} YearsPvNonNegative(start: real, margin: real, growth: real, discountRate: real, n: nat)
    requires start >= 0.0 && margin >= 0.0 && growth >= -1.0 && discountRate > -1.0
    ensures YearsPv(start, margin, growth, discountRate, n) >= 0.0
  {
    if n > 0 {
      YearsPvNonNegative(start, margin, growth, discountRate, n - 1);
      var grown := start * Pow(1.0 + growth, n - 1);
      assert grown >= 0.0;
      assert YearCashFlow(start, margin, growth, n) == grown * margin;
    }
  }

  /** `simple_dcf` has no floor, yet with non-negative start, margin and
      terminal fraction, growth no worse than -100% and a discount rate
      above -100% its value is non-negative. */
  lemma SimpleDcfNonNegative(start: real, margin: real, growth: real, years: int, discountRate: real, terminalRevPct: real)
    requires start >= 0.0 && margin >= 0.0 && growth >= -1.0 && terminalRevPct >= 0.0 && discountRate > -1.0
    ensures SimpleDcfValue(start, margin, growth, years, discountRate, terminalRevPct) >= 0.0
  {
    var n := Iterations(years);
    YearsPvNonNegative(start, margin, growth, discountRate, n);
    var grown := start * Pow(1.0 + growth, n);
    assert grown >= 0.0;
    assert terminalRevPct * grown >= 0.0;
  }

  /** The two engines time their cash flows one year apart: the three-rail
      DCF's explicit years on rev0 are this DCF's explicit years on
      collections already grown once. */
  lemma {:induction false} TimingDiffersByOneYear(rev0: real, margin: real, g: real, r: real, n: nat)
    requires r > -1.0
    ensures IncomeDcf.ExplicitPv(rev0, margin, g, r, n) == YearsPv(rev0 * (1.0 + g), margin, g, r, n)
  {
    if n > 0 {
      TimingDiffersByOneYear(rev0, margin, g, r, n - 1);
      CashFlowTiming(rev0, margin, g, n);
    }
  }

  /** Year t of the three-rail DCF is year t here, one growth period ahead. */
  lemma CashFlowTiming(rev0: real, margin: real, g: real, t: nat)
    requires t >= 1
    ensures IncomeDcf.CashFlow(rev0, margin, g, t) == YearCashFlow(rev0 * (1.0 + g), margin, g, t)
  {
    GrowStep(rev0, 1.0 + g, t);
  }

  // ---------- compute ----------

  /** `compute`: weighted revenue, goodwill, tangible assets and the DCF,
      averaged; the six rationale lines are appended in a fixed order. */
  method Compute(inputs: Inputs) returns (res: Result<Outputs>)
    ensures res.Ok? <==> DcfDefined(inputs.years, inputs.discountRate)
    ensures res.Ok? ==>
      var o := res.value;
      && o.weightedRevenue == WeightedRevenue(inputs.collections2024, inputs.collections2025)
      && o.goodwill == inputs.goodwillPct * o.weightedRevenue
      && o.tangibleAssets == inputs.equipmentValue + inputs.leaseholdValue + inputs.suppliesValue
      && o.dcfValue == SimpleDcfValue(inputs.collections2025, inputs.marginPct, inputs.growthPct,
                                      inputs.years, inputs.discountRate, inputs.terminalRevPct)
      && o.assetValueTotal == o.tangibleAssets + o.goodwill
      && o.finalValue == (o.dcfValue + o.assetValueTotal) / 2.0
    ensures res.Ok? ==>
      var o := res.value;
      && (o.dcfValue <= o.finalValue <= o.assetValueTotal || o.assetValueTotal <= o.finalValue <= o.dcfValue)
      && |o.rationale| == 6
      && o.rationale[0].WeightedRevenueNote? && o.rationale[0].weightedRevenue == o.weightedRevenue
      && o.rationale[1].BenchmarkNote?
      && o.rationale[2] == GoodwillNote(inputs.goodwillPct, o.goodwill)
      && o.rationale[3] == TangibleNote(o.tangibleAssets)
      && o.rationale[4] == DcfNote(inputs.marginPct, inputs.growthPct, inputs.discountRate, o.dcfValue)
      && o.rationale[5] == FinalNote(FinalText)
  {
    var notes: seq<Note> := [];
    var wr := WeightedRevenue(inputs.collections2024, inputs.collections2025);
    notes := notes + [WeightedRevenueNote(wr)];

    var figures := GoodwillFromWeighted(wr, inputs.benchmarkPct, inputs.adjustmentPct, inputs.goodwillPct);
    notes := notes + [BenchmarkNote(inputs.benchmarkPct, figures.base, inputs.adjustmentPct, figures.adjusted)];
    notes := notes + [GoodwillNote(inputs.goodwillPct, figures.goodwill)];

    var tangible := inputs.equipmentValue + inputs.leaseholdValue + inputs.suppliesValue;
    notes := notes + [TangibleNote(tangible)];

    var dcfResult := SimpleDcf(inputs.collections2025, inputs.marginPct, inputs.growthPct,
                               inputs.years, inputs.discountRate, inputs.terminalRevPct);
    if dcfResult.Err? {
      return Err(dcfResult.error);
    }
    var dcf := dcfResult.value;
    notes := notes + [DcfNote(inputs.marginPct, inputs.growthPct, inputs.discountRate, dcf)];

    var assetTotal := tangible + figures.goodwill;
    var finalValue := (dcf + assetTotal) / 2.0;
    notes := notes + [FinalNote(FinalText)];

    return Ok(Outputs(wr, figures.goodwill, tangible, dcf, assetTotal, finalValue, notes));
  }
}
