/** The helper heuristics of the three-rail engine (app.py): clamping, the
    region and practice-type keyword tables, margin inference and the
    profitability-tiered rail weights. */
module Heuristics {
  import opened Text

  /** `clamp(x, lo, hi) = max(lo, min(hi, x))`. */
  function Clamp(x: real, lo: real, hi: real): (r: real)
    ensures lo <= r
    ensures lo <= hi ==> r <= hi
    ensures lo <= x <= hi ==> r == x
    ensures x < lo ==> r == lo
    ensures lo <= hi < x ==> r == hi
  {
    var m := if hi < x then hi else x;
    if lo < m then m else lo
  }

  /** Clamping preserves order. */
  lemma ClampMonotone(x: real, y: real, lo: real, hi: real)
    requires x <= y
    ensures Clamp(x, lo, hi) <= Clamp(y, lo, hi)
  {
  }

  // ---------- Keyword tables ----------

  /** One row of a keyword table: any of `keywords` selects `adjustment`. */
  datatype Rule = Rule(keywords: seq<string>, adjustment: real)

  predicate MatchesAny(text: string, keywords: seq<string>)
  {
    exists k :: 0 <= k < |keywords| && Contains(text, keywords[k])
  }

  /** Reference semantics of an ordered keyword table: the first row with a
      matching keyword decides; no matching row means no adjustment. */
  function FirstMatch(text: string, rules: seq<Rule>): real
  {
    if rules == [] then 0.0
    else if MatchesAny(text, rules[0].keywords) then rules[0].adjustment
    else FirstMatch(text, rules[1..])
  }

  /** The first matching row wins, whatever later rows say. */
  lemma {:induction false} FirstMatchIsFirst(text: string, rules: seq<Rule>, k: nat)
    requires k < |rules| && MatchesAny(text, rules[k].keywords)
    requires forall j :: 0 <= j < k ==> !MatchesAny(text, rules[j].keywords)
    ensures FirstMatch(text, rules) == rules[k].adjustment
  {
    if k > 0 {
      assert !MatchesAny(text, rules[0].keywords);
      FirstMatchIsFirst(text, rules[1..], k - 1);
    }
  }

  /** With no matching row the table is neutral. */
  lemma {:induction false} FirstMatchNone(text: string, rules: seq<Rule>)
    requires forall j :: 0 <= j < |rules| ==> !MatchesAny(text, rules[j].keywords)
    ensures FirstMatch(text, rules) == 0.0
  {
    if rules != [] {
      assert !MatchesAny(text, rules[0].keywords);
      FirstMatchNone(text, rules[1..]);
    }
  }

  /** The region table, in the order the engine checks it. */
  const RegionRules: seq<Rule> := [
    Rule(["gta", "toronto"], 0.02),
    Rule(["ottawa", "waterloo"], 0.01),
    Rule(["muskoka", "simcoe"], 0.0),
    Rule(["northern"], -0.01)
  ]

  /** The practice-type table, in the order the engine checks it. */
  const PracticeRules: seq<Rule> := [
    Rule(["orth"], 0.15),
    Rule(["endo"], 0.10),
    Rule(["oral"], 0.10),
    Rule(["pedo"], 0.05),
    Rule(["perio"], 0.05)
  ]

  /** True when the lower-cased region names Toronto or the GTA; the income
      rail uses the same test to pick its discount rate. */
  predicate IsGta(region: string)
  {
    var r := Lower(region);
    Contains(r, "gta") || Contains(r, "toronto")
  }

  /** `region_adjustment`: a location premium or discount for goodwill. */
  function RegionAdjustment(region: string): (adj: real)
    ensures adj == -0.01 || adj == 0.0 || adj == 0.01 || adj == 0.02
    ensures adj == 0.02 <==> IsGta(region)
    ensures adj == FirstMatch(Lower(region), RegionRules)
  {
    var r := Lower(region);
    var adj :=
      if Contains(r, "gta") || Contains(r, "toronto") then 0.02
      else if Contains(r, "ottawa") || Contains(r, "waterloo") then 0.01
      else if Contains(r, "muskoka") || Contains(r, "simcoe") then 0.00
      else if Contains(r, "northern") then -0.01
      else 0.0;
    RegionIsTable(r, adj);
    adj
  }

  /** The if-chain of `region_adjustment` is the region table read first-match. */
  lemma RegionIsTable(r: string, adj: real)
    requires adj ==
      if Contains(r, "gta") || Contains(r, "toronto") then 0.02
      else if Contains(r, "ottawa") || Contains(r, "waterloo") then 0.01
      else if Contains(r, "muskoka") || Contains(r, "simcoe") then 0.00
      else if Contains(r, "northern") then -0.01
      else 0.0
    ensures adj == FirstMatch(r, RegionRules)
  {
    var rules := RegionRules;
    assert MatchesAny(r, rules[0].keywords) <==> Contains(r, "gta") || Contains(r, "toronto") by {
      assert rules[0].keywords[0] == "gta" && rules[0].keywords[1] == "toronto";
    }
    assert MatchesAny(r, rules[1].keywords) <==> Contains(r, "ottawa") || Contains(r, "waterloo") by {
      assert rules[1].keywords[0] == "ottawa" && rules[1].keywords[1] == "waterloo";
    }
    assert MatchesAny(r, rules[2].keywords) <==> Contains(r, "muskoka") || Contains(r, "simcoe") by {
      assert rules[2].keywords[0] == "muskoka" && rules[2].keywords[1] == "simcoe";
    }
    assert MatchesAny(r, rules[3].keywords) <==> Contains(r, "northern") by {
      assert rules[3].keywords[0] == "northern";
    }
    if Contains(r, "gta") || Contains(r, "toronto") {
      FirstMatchIsFirst(r, rules, 0);
    } else if Contains(r, "ottawa") || Contains(r, "waterloo") {
      FirstMatchIsFirst(r, rules, 1);
    } else if Contains(r, "muskoka") || Contains(r, "simcoe") {
      FirstMatchIsFirst(r, rules, 2);
    } else if Contains(r, "northern") {
      FirstMatchIsFirst(r, rules, 3);
    } else {
      FirstMatchNone(r, rules);
    }
  }

  /** A region text that matches no keyword is neutral. */
  lemma RegionUnknownIsNeutral(region: string)
    requires forall j :: 0 <= j < |RegionRules| ==> !MatchesAny(Lower(region), RegionRules[j].keywords)
    ensures RegionAdjustment(region) == 0.0
  {
    FirstMatchNone(Lower(region), RegionRules);
  }

  /** Empty region text is neutral. */
  lemma RegionEmptyIsNeutral()
    ensures RegionAdjustment("") == 0.0
  {
  }

  /** Case does not matter: a region text holding "gta" or "toronto" in any
      mix of upper and lower case gets the +2% premium, even if it also says
      "northern" (the GTA row comes first). */
  lemma RegionGtaAnyCase(region: string, word: string)
    requires Contains(region, word)
    requires Lower(word) == "gta" || Lower(word) == "toronto"
    ensures RegionAdjustment(region) == 0.02
  {
    ContainsLower(region, word);
  }

  /** `practice_adjustment`: a specialty premium for goodwill. */
  function PracticeAdjustment(practiceType: string): (adj: real)
    ensures adj == 0.0 || adj == 0.05 || adj == 0.10 || adj == 0.15
    ensures adj == 0.15 <==> Contains(Lower(practiceType), "orth")
    ensures adj == FirstMatch(Lower(practiceType), PracticeRules)
  {
    var pt := Lower(practiceType);
    var adj :=
      if Contains(pt, "orth") then 0.15
      else if Contains(pt, "endo") then 0.10
      else if Contains(pt, "oral") then 0.10
      else if Contains(pt, "pedo") then 0.05
      else if Contains(pt, "perio") then 0.05
      else 0.00;
    PracticeIsTable(pt, adj);
    adj
  }

  /** The if-chain of `practice_adjustment` is the practice table read first-match. */
  lemma PracticeIsTable(pt: string, adj: real)
    requires adj ==
      if Contains(pt, "orth") then 0.15
      else if Contains(pt, "endo") then 0.10
      else if Contains(pt, "oral") then 0.10
      else if Contains(pt, "pedo") then 0.05
      else if Contains(pt, "perio") then 0.05
      else 0.00
    ensures adj == FirstMatch(pt, PracticeRules)
  {
    var rules := PracticeRules;
    assert MatchesAny(pt, rules[0].keywords) <==> Contains(pt, "orth") by {
      assert rules[0].keywords[0] == "orth";
    }
    assert MatchesAny(pt, rules[1].keywords) <==> Contains(pt, "endo") by {
      assert rules[1].keywords[0] == "endo";
    }
    assert MatchesAny(pt, rules[2].keywords) <==> Contains(pt, "oral") by {
      assert rules[2].keywords[0] == "oral";
    }
    assert MatchesAny(pt, rules[3].keywords) <==> Contains(pt, "pedo") by {
      assert rules[3].keywords[0] == "pedo";
    }
    assert MatchesAny(pt, rules[4].keywords) <==> Contains(pt, "perio") by {
      assert rules[4].keywords[0] == "perio";
    }
    if Contains(pt, "orth") {
      FirstMatchIsFirst(pt, rules, 0);
    } else if Contains(pt, "endo") {
      FirstMatchIsFirst(pt, rules, 1);
    } else if Contains(pt, "oral") {
      FirstMatchIsFirst(pt, rules, 2);
    } else if Contains(pt, "pedo") {
      FirstMatchIsFirst(pt, rules, 3);
    } else if Contains(pt, "perio") {
      FirstMatchIsFirst(pt, rules, 4);
    } else {
      FirstMatchNone(pt, rules);
    }
  }

  /** An unrecognised practice type is the general-practice baseline. */
  lemma PracticeUnknownIsNeutral(practiceType: string)
    requires forall j :: 0 <= j < |PracticeRules| ==> !MatchesAny(Lower(practiceType), PracticeRules[j].keywords)
    ensures PracticeAdjustment(practiceType) == 0.0
  {
    FirstMatchNone(Lower(practiceType), PracticeRules);
  }

  /** Orthodontics wins over every other specialty, in any case. */
  lemma PracticeOrthAnyCase(practiceType: string, word: string)
    requires Contains(practiceType, word) && Lower(word) == "orth"
    ensures PracticeAdjustment(practiceType) == 0.15
  {
    ContainsLower(practiceType, word);
  }

  // ---------- Margin ----------

  /** `infer_margin`: a supplied positive EBITDA margin is used, clamped to
      [0.08, 0.35]; otherwise the margin is inferred from the hygiene share of
      revenue and clamped to [0.12, 0.28]. A missing figure is 0. */
  function InferMargin(hygienePct: real, ebitdaMarginPct: real): (m: real)
    ensures 0.08 <= m <= 0.35
    ensures ebitdaMarginPct > 0.0 && 0.08 <= ebitdaMarginPct <= 0.35 ==> m == ebitdaMarginPct
    ensures ebitdaMarginPct <= 0.0 ==> 0.12 <= m <= 0.28
    ensures ebitdaMarginPct > 0.35 ==> m == 0.35
    ensures 0.0 < ebitdaMarginPct < 0.08 ==> m == 0.08
    ensures ebitdaMarginPct <= 0.0 && hygienePct <= 0.30 ==> m == 0.16
    ensures ebitdaMarginPct <= 0.0 && hygienePct >= 0.30 && (hygienePct - 0.30) * 0.35 <= 0.12 ==>
      m == 0.16 + (hygienePct - 0.30) * 0.35
    ensures ebitdaMarginPct <= 0.0 && hygienePct >= 0.30 && (hygienePct - 0.30) * 0.35 >= 0.12 ==> m == 0.28
  {
    if ebitdaMarginPct > 0.0 then Clamp(ebitdaMarginPct, 0.08, 0.35)
    else
      var base := 0.16 + (if hygienePct - 0.30 > 0.0 then hygienePct - 0.30 else 0.0) * 0.35;
      Clamp(base, 0.12, 0.28)
  }

  /** On the hygiene path a better hygiene mix never lowers the margin. */
  lemma InferMarginMonotone(h1: real, h2: real, ebitdaMarginPct: real)
    requires h1 <= h2 && ebitdaMarginPct <= 0.0
    ensures InferMargin(h1, ebitdaMarginPct) <= InferMargin(h2, ebitdaMarginPct)
  {
    var b1 := 0.16 + (if h1 - 0.30 > 0.0 then h1 - 0.30 else 0.0) * 0.35;
    var b2 := 0.16 + (if h2 - 0.30 > 0.0 then h2 - 0.30 else 0.0) * 0.35;
    ClampMonotone(b1, b2, 0.12, 0.28);
  }

  // ---------- Weights ----------

  /** The blending weights of the three rails. */
  datatype Weights = Weights(income: real, goodwill: real, asset: real)
  {
    /** Every rail takes part and the weights sum to one. */
    predicate Convex()
    {
      income > 0.0 && goodwill > 0.0 && asset > 0.0 && income + goodwill + asset == 1.0
    }
  }

  /** `choose_weights`: four profitability tiers with strict upper bounds at
      0.12, 0.18 and 0.24; the more profitable, the more the income rail counts. */
  function ChooseWeights(margin: real): (w: Weights)
    ensures w.Convex()
    ensures margin < 0.12 <==> w.income == 0.20
    ensures 0.12 <= margin < 0.18 <==> w.income == 0.30
    ensures 0.18 <= margin < 0.24 <==> w.income == 0.45
    ensures 0.24 <= margin <==> w.income == 0.55
    ensures margin < 0.18 ==> w.goodwill == w.asset
    ensures 0.18 <= margin ==> w.goodwill == w.asset + 0.15
  {
    if margin < 0.12 then Weights(0.20, 0.40, 0.40)
    else if margin < 0.18 then Weights(0.30, 0.35, 0.35)
    else if margin < 0.24 then Weights(0.45, 0.35, 0.20)
    else Weights(0.55, 0.30, 0.15)
  }

  /** A higher margin never lowers the income weight, nor raises the
      goodwill or asset weight. */
  lemma ChooseWeightsMonotone(m1: real, m2: real)
    requires m1 <= m2
    ensures ChooseWeights(m1).income <= ChooseWeights(m2).income
    ensures ChooseWeights(m1).goodwill >= ChooseWeights(m2).goodwill
    ensures ChooseWeights(m1).asset >= ChooseWeights(m2).asset
  {
  }
}
