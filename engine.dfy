/** `valuate_core` of app.py: clamps the collections, infers the margin,
    runs the three rails, picks profitability-tiered weights and blends. */
module Engine {
  import opened Heuristics
  import opened IncomeDcf
  import opened Rails

  /** The request record; a field the caller leaves blank is "" or 0. */
  datatype ValuationRequest = ValuationRequest(
    collections2024: real,
    collections2025: real,
    region: string,
    practiceType: string,
    ops: int,
    equippedOps: int,
    sqft: int,
    activePatients: int,
    hygienePct: real,
    ebitdaMarginPct: real)

  /** One rationale line, carrying the values it interpolates; the wording
      and number formatting are not modelled. */
  datatype Note =
    | GoodwillNote(region: string, practiceType: string)
    | AssetNote
    | IncomeNote(margin: real, discountRate: real)
    | WeightsNote(weights: Weights)

  datatype ValuationResponse = ValuationResponse(
    finalValue: real,
    dcfValue: real,
    assetValueTotal: real,
    goodwillValue: real,
    weights: Weights,
    rationale: seq<Note>)

  /** How a blank text field is shown in the rationale. */
  function OrNa(s: string): string
  {
    if s == "" then "n/a" else s
  }

  /** Negative collections are treated as none. */
  function NonNegative(x: real): (y: real)
    ensures y >= 0.0
    ensures x >= 0.0 ==> y == x
  {
    if x < 0.0 then 0.0 else x
  }

  /** The blended value: each rail's value times its weight. */
  function Blend(w: Weights, income: real, goodwill: real, asset: real): real
  {
    w.income * income + w.goodwill * goodwill + w.asset * asset
  }

  function Min3(a: real, b: real, c: real): real
  {
    if a <= b && a <= c then a else if b <= c then b else c
  }

  function Max3(a: real, b: real, c: real): real
  {
    if a >= b && a >= c then a else if b >= c then b else c
  }

  /** Non-negative weights of non-negative amounts sum to a non-negative amount. */
  lemma NonNegativeCombination(a: real, b: real, c: real, x: real, y: real, z: real)
    requires a >= 0.0 && b >= 0.0 && c >= 0.0
    requires x >= 0.0 && y >= 0.0 && z >= 0.0
    ensures a * x + b * y + c * z >= 0.0
  {
  }

  /** With weights summing to one, the distance of a weighted sum from v is
      the weighted sum of the distances. */
  lemma ShiftByWeights(a: real, b: real, c: real, x: real, y: real, z: real, v: real)
    requires a + b + c == 1.0
    ensures a * x + b * y + c * z - v == a * (x - v) + b * (y - v) + c * (z - v)
    ensures v - (a * x + b * y + c * z) == a * (v - x) + b * (v - y) + c * (v - z)
  {
    assert a * v + b * v + c * v == (a + b + c) * v;
  }

  /** Three non-negative weights summing to one keep a weighted sum of
      values between bounds of the values. */
  lemma WeightedSumBetween(a: real, b: real, c: real, x: real, y: real, z: real, lo: real, hi: real)
    requires a >= 0.0 && b >= 0.0 && c >= 0.0 && a + b + c == 1.0
    requires lo <= x <= hi && lo <= y <= hi && lo <= z <= hi
    ensures lo <= a * x + b * y + c * z <= hi
  {
    NonNegativeCombination(a, b, c, x - lo, y - lo, z - lo);
    ShiftByWeights(a, b, c, x, y, z, lo);
    NonNegativeCombination(a, b, c, hi - x, hi - y, hi - z);
    ShiftByWeights(a, b, c, x, y, z, hi);
  }

  /** A convex blend lies between the smallest and the largest rail value. */
  lemma BlendBetween(w: Weights, income: real, goodwill: real, asset: real)
    requires w.Convex()
    ensures Min3(income, goodwill, asset) <= Blend(w, income, goodwill, asset) <= Max3(income, goodwill, asset)
  {
    var lo, hi := Min3(income, goodwill, asset), Max3(income, goodwill, asset);
    WeightedSumBetween(w.income, w.goodwill, w.asset, income, goodwill, asset, lo, hi);
    var b := w.income * income + w.goodwill * goodwill + w.asset * asset;
    assert lo <= b <= hi;
    assert Blend(w, income, goodwill, asset) == b;
  }

  /** `valuate_core`. */
  method ValuateCore(req: ValuationRequest) returns (resp: ValuationResponse)
    ensures var c24 := NonNegative(req.collections2024);
      resp.goodwillValue == GoodwillRail(c24, NonNegative(req.collections2025), req.region, req.practiceType)
    ensures resp.assetValueTotal == AssetRail(resp.goodwillValue, req.sqft, req.ops, req.equippedOps)
    ensures var margin := InferMargin(req.hygienePct, req.ebitdaMarginPct);
      resp.dcfValue == Dcf5yUnfloored(NonNegative(req.collections2025), margin, ForwardGrowth, DiscountRate(req.region))
    ensures resp.weights == ChooseWeights(InferMargin(req.hygienePct, req.ebitdaMarginPct))
    ensures resp.weights.Convex()
    ensures resp.finalValue == Blend(resp.weights, resp.dcfValue, resp.goodwillValue, resp.assetValueTotal)
    ensures Min3(resp.dcfValue, resp.goodwillValue, resp.assetValueTotal) <= resp.finalValue
    ensures resp.finalValue <= Max3(resp.dcfValue, resp.goodwillValue, resp.assetValueTotal)
    ensures resp.finalValue >= 0.0
    ensures req.collections2025 > 0.0 ==> resp.dcfValue > 0.0 && resp.goodwillValue > 0.0
    ensures req.sqft >= 0 ==> resp.assetValueTotal >= resp.goodwillValue + 20000.0
    ensures |resp.rationale| == 4
    ensures resp.rationale[0] == GoodwillNote(OrNa(req.region), OrNa(req.practiceType))
    ensures resp.rationale[1] == AssetNote
    ensures resp.rationale[2] == IncomeNote(InferMargin(req.hygienePct, req.ebitdaMarginPct), DiscountRate(req.region))
    ensures resp.rationale[3] == WeightsNote(resp.weights)
  {
    var c24 := NonNegative(req.collections2024);
    var c25 := NonNegative(req.collections2025);

    var margin := InferMargin(req.hygienePct, req.ebitdaMarginPct);

    var goodwill := GoodwillRail(c24, c25, req.region, req.practiceType);
    var assetTotal := AssetRail(goodwill, req.sqft, req.ops, req.equippedOps);
    var dcfVal := IncomeRail(c25, margin, req.region);

    var w := ChooseWeights(margin);
    var finalVal := Blend(w, dcfVal, goodwill, assetTotal);
    BlendBetween(w, dcfVal, goodwill, assetTotal);

    if req.collections2025 > 0.0 {
      GoodwillRailPositive(c24, c25, req.region, req.practiceType);
    }

    var rationale := [
      GoodwillNote(OrNa(req.region), OrNa(req.practiceType)),
      AssetNote,
      IncomeNote(margin, DiscountRate(req.region)),
      WeightsNote(w)
    ];

    resp := ValuationResponse(finalVal, dcfVal, assetTotal, goodwill, w, rationale);
  }
}
