# Dental-practice valuation engines, modelled in Dafny

This project models the pricing core of a dental-practice appraiser. The
appraiser has two engines.

- The **three-rail engine** (`app.py`) takes a request with two years of
  collections, a free-text region and practice type, room counts, floor area
  and a hygiene share or EBITDA margin. It computes three values:
  - a **goodwill rail**: recency-weighted revenue times the Ontario factor
    0.95, scaled by region and practice-type adjustments that come from
    case-insensitive, first-match keyword tables;
  - an **asset rail**: leaseholds, equipment and supplies, plus the goodwill
    figure it is handed;
  - an **income rail**: a five-year DCF with a Gordon-growth terminal value.

  It then picks weights by profitability tier and blends the three values.
- The **override-driven engine** (`valuation.py`) takes every assumption as
  an input. Goodwill is a flat fraction of weighted revenue. Tangible assets
  are given directly. The DCF uses a flat terminal-revenue fraction and a
  different cash-flow timing. The final value is the plain average of the DCF
  and tangible assets plus goodwill.

Arithmetic is exact (`real`). Powers are a recursive `Pow`. Lower-casing is
an ASCII map over `string`. Python's `in` on strings is a recursive substring
predicate (`Text.Contains`), proved equal to "occurs at some index".

Modules, one per concern:

- `Arith`: powers, integer powers with negative exponents, and Python's
  `round`.
- `Text`: lower-casing and substring search.
- `Revenue`: weighted revenue, which both engines share.
- `Heuristics`: `clamp`, the keyword tables, `infer_margin` and
  `choose_weights`.
- `IncomeDcf`: `dcf_5y`.
- `Rails`: the goodwill, asset and income rails.
- `Engine`: `valuate_core`.
- `Valuation`: the `valuation.py` engine.

The two loops (`dcf_5y` and `simple_dcf`) are methods. Their loop invariants
tie the running present value to recursive closed-form functions. The
properties of the engines are proved about those functions. `compute` builds
its rationale by appending, as the source does.

## Model

| member | source | states |
|---|---|---|
| Arith.Pow | app.py:101 | `x ** n` for a natural exponent; positive, non-negative and non-zero bases keep that sign, and the zero power is 1 |
| Arith.IntPow | valuation.py:47 | `x ** n` for any integer exponent (a negative one is the reciprocal power); non-zero and positive bases give non-zero and positive results |
| Arith.RoundHalfEven | app.py:125 | Python's `round`: the result is within one half of x, and a tie goes to the even integer |
| Text.Lower | app.py:51 | ASCII lower-casing keeps the length and lower-cases every character |
| Text.LowerIdempotent | app.py:51 | lower-casing twice is lower-casing once |
| Text.ContainsIff | app.py:52 | the substring test `word in text` holds exactly when `word` occurs at some index of `text` |
| Text.ContainsLower | app.py:51-52 | a substring stays a substring after both sides are lower-cased, which makes the keyword tests case-insensitive |
| Heuristics.Clamp | app.py:43-44 | `max(lo, min(hi, x))` is at least lo, at most hi when lo <= hi, x itself when in range, and the violated bound otherwise |
| Heuristics.ClampMonotone | app.py:43-44 | clamping preserves order |
| Heuristics.FirstMatchIsFirst | app.py:51-60 | in a first-match table, the earliest row with a matching keyword gives the result |
| Heuristics.FirstMatchNone | app.py:60 | a text matching no row gets the neutral 0 |
| Heuristics.RegionAdjustment | app.py:46-60 | the result is one of -0.01, 0, 0.01 and 0.02; it is 0.02 exactly when the lower-cased region contains "gta" or "toronto"; it equals the region table read first-match on the lower-cased text |
| Heuristics.RegionIsTable | app.py:52-60 | the if-chain of `region_adjustment` and the ordered keyword table agree on every text |
| Heuristics.RegionUnknownIsNeutral | app.py:60 | a region that matches no keyword is adjusted by 0 |
| Heuristics.RegionEmptyIsNeutral | app.py:51 | an empty region is adjusted by 0 |
| Heuristics.RegionGtaAnyCase | app.py:51-53 | a region holding "gta" or "toronto" in any letter case gets +0.02, whatever else it says (for example "northern") |
| Heuristics.PracticeAdjustment | app.py:62-77 | the result is one of 0, 0.05, 0.10 and 0.15; it is 0.15 exactly when the lower-cased type contains "orth"; it equals the practice table read first-match |
| Heuristics.PracticeIsTable | app.py:66-77 | the if-chain of `practice_adjustment` and the ordered keyword table agree on every text |
| Heuristics.PracticeUnknownIsNeutral | app.py:77 | an unrecognised practice type is the general-practice baseline 0 |
| Heuristics.PracticeOrthAnyCase | app.py:66-68 | "orth" in any letter case wins 0.15 over every later specialty |
| Heuristics.InferMargin | app.py:79-89 | the margin lies in [0.08, 0.35]; a positive EBITDA margin is used as is when in range and otherwise pinned to the bound it violates; without one the margin lies in [0.12, 0.28], is exactly 0.16 when hygiene is at most 30%, 0.16 + 0.35 * (hygiene - 0.30) above that, and 0.28 once that exceeds the cap |
| Heuristics.InferMarginMonotone | app.py:87-89 | on the hygiene path a higher hygiene share never lowers the margin |
| Heuristics.ChooseWeights | app.py:142-152 | the weights are positive and sum to 1; the income weight is 0.20, 0.30, 0.45 or 0.55 exactly on the tiers split strictly at 0.12, 0.18 and 0.24; below 0.18 goodwill and asset weigh the same, from 0.18 up goodwill weighs 0.15 more than asset |
| Heuristics.ChooseWeightsMonotone | app.py:146-152 | a higher margin never lowers the income weight, nor raises the goodwill or asset weight |
| Revenue.WeightedRevenue | valuation.py:30-31 | `(3*c25 + 2*c24)/5` lies between the two years and equals c when both years are c |
| Revenue.WeightedRevenueFavoursRecent | app.py:112 | the current year weighs more: growing revenue puts the figure above the plain average, falling revenue below it |
| IncomeDcf.Dcf5y | app.py:91-107 | the result is never negative and is the closed form (five grown-then-discounted years plus the discounted Gordon terminal value), or 0 when that is negative |
| IncomeDcf.ExplicitPvNonNegative | app.py:98-101 | with non-negative revenue and margin and growth of at least -100%, the explicit years sum to a non-negative amount |
| IncomeDcf.Dcf5yFloorInactive | app.py:107 | under those conditions the floor at zero never binds |
| IncomeDcf.Dcf5yPositive | app.py:96-107 | with positive revenue and margin the DCF is strictly positive |
| IncomeDcf.DiscountedCashFlow | app.py:99-101 | a discounted year-t cash flow is rev0 * margin * ((1+g)/(1+r))^t |
| IncomeDcf.GeoSumClosed | app.py:98-101 | the geometric series q + ... + q^n satisfies sum * (1 - q) == q - q^(n+1) |
| IncomeDcf.ExplicitPvGeometric | app.py:98-101 | the explicit years are rev0 * margin times the geometric series in (1+g)/(1+r), which gives the loop a closed form |
| IncomeDcf.ExplicitPvClosedForm | app.py:98-101 | with q = (1+g)/(1+r), the explicit years satisfy ExplicitPv(n) * (1 - q) == rev0 * margin * (q - q^(n+1)) |
| IncomeDcf.ExplicitPvFlat | app.py:98-101 | when growth equals the discount rate, n explicit years are worth n * rev0 * margin |
| Rails.GoodwillRail | app.py:110-116 | goodwill is never negative and, for non-negative collections, is weighted revenue * 0.95 * (1 + region adjustment + practice adjustment) |
| Rails.GoodwillRailBounds | app.py:113-115 | for non-negative collections goodwill lies between 0.9405 and 1.1115 times weighted revenue |
| Rails.GoodwillRailPositive | app.py:110-116 | positive current-year collections give positive goodwill |
| Rails.GoodwillRailSteady | app.py:112-115 | equal years c in a neutral region and practice type give goodwill 0.95 * c |
| Rails.Leaseholds | app.py:120-122 | leaseholds are non-negative for non-negative floor area, and zero without it |
| Rails.EquippedOps | app.py:125 | a non-zero equipped count is used as given; zero falls back to 70% of all rooms rounded to the nearest integer |
| Rails.Equipment | app.py:126-127 | $40,000 per equipped room, and nothing for a count of zero or below |
| Rails.Supplies | app.py:130 | supplies are 35000 exactly when there are rooms, and 20000 exactly when there are none |
| Rails.AssetRail | app.py:118-132 | the total is never negative and, for non-negative goodwill and floor area, is goodwill plus leaseholds, equipment and supplies, so at least goodwill + 20000 |
| Rails.AssetRailEmptyPractice | app.py:118-132 | no floor area, no rooms and no goodwill give exactly 20000 |
| Rails.AssetRailAddsGoodwill | app.py:132 | the goodwill argument passes through one for one |
| Rails.EquippedOpsFallback | app.py:125-127 | six rooms with no equipped count give four equipped rooms; a negative equipped count contributes no equipment |
| Rails.DiscountRate | app.py:136-138 | the discount rate is 0.18 or 0.20, above the terminal growth of 0.02 |
| Rails.DiscountRateMatchesRegion | app.py:136-138 | the rate is 0.18 exactly for a GTA or Toronto region, which is exactly when the region adjustment is +0.02 |
| Rails.IncomeRail | app.py:134-140 | the value is the five-year DCF of current-year collections at 3% growth and the region's rate; never negative, equal to the unfloored DCF for non-negative inputs, positive for positive ones |
| Engine.NonNegative | app.py:155-156 | clamped collections are non-negative and unchanged when already non-negative |
| Engine.WeightedSumBetween | app.py:165 | a convex combination of three values lies between any common bounds of them |
| Engine.BlendBetween | app.py:165 | the blended value lies between the smallest and the largest rail value |
| Engine.ValuateCore | app.py:154-181 | each rail gets the clamped inputs; the weights are convex and chosen by the inferred margin; the final value is the weighted blend, between the smallest and largest rail, and never negative; positive current collections give positive DCF and goodwill; the four rationale notes come in a fixed order |
| Valuation.DefaultInputs | valuation.py:4-18 | default inputs keep the collections, zero the tangible overrides and leave the DCF defined |
| Valuation.GoodwillFromWeighted | valuation.py:33-37 | base == wr * benchmark, adjusted == wr * benchmark * (1 + adjustment), the adjustment adds base * adjustment, and goodwill is non-negative for non-negative inputs |
| Valuation.GoodwillIgnoresBenchmark | valuation.py:36 | goodwill is goodwill_pct * wr whatever the benchmark and adjustment |
| Valuation.SimpleDcf | valuation.py:39-48 | succeeds exactly when no ZeroDivisionError arises, and then returns the closed form: years 1..n on collections grown t-1 times, plus the terminal fraction of collections grown n times, discounted by (1 + rate) ** years |
| Valuation.SimpleDcfNoYears | valuation.py:46-47 | with zero years the DCF is terminal_rev_pct * start |
| Valuation.YearsPvNonNegative | valuation.py:42-45 | non-negative inputs and a rate above -100% give a non-negative sum of explicit years |
| Valuation.SimpleDcfNonNegative | valuation.py:40-48 | without any floor, the DCF is non-negative for non-negative start, margin and terminal fraction, growth of at least -100% and a rate above -100% |
| Valuation.CashFlowTiming | valuation.py:43-45 | year t of the three-rail DCF equals year t of this DCF started one growth period later |
| Valuation.TimingDiffersByOneYear | valuation.py:42-45 | the three-rail DCF's explicit years on rev0 equal this engine's explicit years on rev0 * (1 + g) |
| Valuation.Compute | valuation.py:50-86 | fails exactly on ZeroDivisionError; otherwise weighted revenue, goodwill, tangible assets, DCF, asset total and final average are as defined, the final value lies between the DCF and the asset total, and there are six notes in a fixed order ending with the fixed sentence |

## Left out

- The FastAPI application, the CORS middleware, the `/health` endpoint and its clock, and the `/api/valuate` handler (app.py:9-18, 184-190) are not modelled: they are I/O plumbing around `valuate_core`.
- Request and response validation by pydantic (app.py:21-40) is not modelled. The request is a plain record; a field the caller omits is `""` or `0`, which is what each `x or 0` in the source turns `None` into.
- Arithmetic is exact. IEEE-754 rounding, overflow (including the OverflowError float `**` raises for a very large `years`), infinities and NaN are not modelled. A product such as `ops * 0.7` that lands within one rounding error of a half may round differently in floating point.
- Text.Lower: lower-cases ASCII letters only; Python's `str.lower` also folds non-ASCII letters.
- The wording and number formatting of the rationale lines (app.py:167-172; valuation.py:53-76) are not modelled. Each note is a tag carrying the values it shows. `compute`'s last note is the fixed sentence.
- IncomeDcf.Dcf5y: requires a discount rate above the terminal growth of 0.02. The source divides by `r - 0.02` unguarded, and only 0.18 and 0.20 are ever passed.
- `active_patients` is carried in the request record but used by no computation.
- Rationale note for the DCF rate in `valuate_core` recomputes the GTA test inline (app.py:170); the model reuses `Rails.DiscountRate`, which performs the same test.
- Engine.ValuateCore: states `assetValueTotal >= goodwillValue + 20000` only for non-negative floor area, because a negative area can push the asset total to the zero floor.
- Valuation.Compute: states only the kind of the benchmark note (note 1), not the values it carries.
- `compute` always averages (valuation.py:75). The only failure modelled is ZeroDivisionError in `simple_dcf`, when `1 + discount_rate == 0` and `years != 0` (`Valuation.DcfDefined`).
