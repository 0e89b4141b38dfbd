/** The income rail's discounted-cash-flow engine of the three-rail valuation
    (app.py `dcf_5y`): five years of grown, margin-weighted revenue discounted
    at rate r, plus a Gordon-growth terminal value discounted back five years. */
module IncomeDcf {
  import opened Arith

  /** Length of the explicit projection. */
  const Horizon: nat := 5

  /** Perpetual growth assumed after the horizon. */
  const TerminalGrowth: real := 0.02

  /** Cash flow of year t: revenue is grown before each year's cash flow,
      so year t uses rev0 * (1+g)^t. */
  function CashFlow(rev0: real, margin: real, g: real, t: nat): real
  {
    rev0 * Pow(1.0 + g, t) * margin
  }

  /** Present value of the explicit years 1..n. */
  function ExplicitPv(rev0: real, margin: real, g: real, r: real, n: nat): real
    requires r > -1.0
  {
    if n == 0 then 0.0
    else ExplicitPv(rev0, margin, g, r, n - 1) + CashFlow(rev0, margin, g, n) / Pow(1.0 + r, n)
  }

  /** Gordon-growth value, at the end of the horizon, of a cash flow `cf`
      growing at TerminalGrowth forever. */
  function Gordon(cf: real, r: real): real
    requires r > TerminalGrowth
  {
    cf * (1.0 + TerminalGrowth) / (r - TerminalGrowth)
  }

  /** The terminal value on the last explicit year's cash flow, discounted
      back over the horizon. */
  function TerminalPv(rev0: real, margin: real, g: real, r: real): real
    requires r > TerminalGrowth
  {
    Gordon(CashFlow(rev0, margin, g, Horizon), r) / Pow(1.0 + r, Horizon)
  }

  /** The valuation before the floor at zero. */
  function Dcf5yUnfloored(rev0: real, margin: real, g: real, r: real): real
    requires r > TerminalGrowth
  {
    ExplicitPv(rev0, margin, g, r, Horizon) + TerminalPv(rev0, margin, g, r)
  }

  /** `dcf_5y`: the loop accumulates the explicit years, then adds the
      terminal value; a negative total is floored at zero. */
  method Dcf5y(rev0: real, margin: real, g: real, r: real) returns (pv: real)
    requires r > TerminalGrowth
    ensures pv >= 0.0
    ensures pv == Dcf5yUnfloored(rev0, margin, g, r) || (pv == 0.0 && Dcf5yUnfloored(rev0, margin, g, r) < 0.0)
  {
    pv := 0.0;
    var rev := rev0;
    for t := 1 to Horizon + 1
      invariant rev == rev0 * Pow(1.0 + g, t - 1)
      invariant pv == ExplicitPv(rev0, margin, g, r, t - 1)
    {
      rev := rev * (1.0 + g);
      assert rev == rev0 * Pow(1.0 + g, t);
      var cf := rev * margin;
      assert cf == CashFlow(rev0, margin, g, t);
      pv := pv + cf / Pow(1.0 + r, t);
    }
    var cf5 := rev * margin;
    var tv := cf5 * (1.0 + TerminalGrowth) / (r - TerminalGrowth);
    assert tv == Gordon(CashFlow(rev0, margin, g, Horizon), r);
    pv := pv + tv / Pow(1.0 + r, Horizon);
    if pv < 0.0 {
      pv := 0.0;
    }
  }

  /** With non-negative revenue and margin and growth no worse than -100%,
      every explicit year contributes a non-negative amount. */
  lemma {:induction false} ExplicitPvNonNegative(rev0: real, margin: real, g: real, r: real, n: nat)
    requires rev0 >= 0.0 && margin >= 0.0 && g >= -1.0 && r > -1.0
    ensures ExplicitPv(rev0, margin, g, r, n) >= 0.0
  {
    if n > 0 {
      ExplicitPvNonNegative(rev0, margin, g, r, n - 1);
      var grown := rev0 * Pow(1.0 + g, n);
      assert grown >= 0.0;
      assert grown * margin >= 0.0;
    }
  }

  /** Under the same conditions the floor never binds. */
  lemma Dcf5yFloorInactive(rev0: real, margin: real, g: real, r: real)
    requires rev0 >= 0.0 && margin >= 0.0 && g >= -1.0 && r > TerminalGrowth
    ensures Dcf5yUnfloored(rev0, margin, g, r) >= 0.0
  {
    ExplicitPvNonNegative(rev0, margin, g, r, Horizon);
    var grown := rev0 * Pow(1.0 + g, Horizon);
    assert grown >= 0.0;
    assert grown * margin >= 0.0;
    assert grown * margin * (1.0 + TerminalGrowth) >= 0.0;
  }

  /** And with positive revenue and margin the value is strictly positive. */
  lemma Dcf5yPositive(rev0: real, margin: real, g: real, r: real)
    requires rev0 > 0.0 && margin > 0.0 && g > -1.0 && r > TerminalGrowth
    ensures Dcf5yUnfloored(rev0, margin, g, r) > 0.0
  {
    ExplicitPvNonNegative(rev0, margin, g, r, Horizon);
    var grown := rev0 * Pow(1.0 + g, Horizon);
    assert grown > 0.0;
    assert grown * margin > 0.0;
    assert grown * margin * (1.0 + TerminalGrowth) > 0.0;
  }

  /** Each explicit year, discounted, is the first year's cash flow scaled
      by a power of the ratio q = (1+g)/(1+r). */
  lemma DiscountedCashFlow(rev0: real, margin: real, g: real, r: real, t: nat)
    requires r > -1.0
    ensures CashFlow(rev0, margin, g, t) / Pow(1.0 + r, t) == rev0 * margin * Pow((1.0 + g) / (1.0 + r), t)
  {
    var d := Pow(1.0 + r, t);
    var p := Pow((1.0 + g) / (1.0 + r), t);
    PowRatio(1.0 + g, 1.0 + r, t);
    assert CashFlow(rev0, margin, g, t) == (rev0 * margin * p) * d;
    DivCancel(CashFlow(rev0, margin, g, t), rev0 * margin * p, d);
  }

  /** The geometric series q + q^2 + ... + q^n. */
  function GeoSum(q: real, n: nat): real
  {
    if n == 0 then 0.0 else GeoSum(q, n - 1) + Pow(q, n)
  }

  /** Its closed form: (q + ... + q^n) * (1 - q) == q - q^(n+1). */
  lemma {:induction false} GeoSumClosed(q: real, n: nat)
    ensures GeoSum(q, n) * (1.0 - q) == q - Pow(q, n + 1)
  {
    if n > 0 {
      GeoSumClosed(q, n - 1);
      var prev := GeoSum(q, n - 1);
      var qn := Pow(q, n);
      assert Pow(q, n + 1) == q * qn;
      assert GeoSum(q, n) * (1.0 - q) == prev * (1.0 - q) + qn * (1.0 - q);
    }
  }

  /** The explicit years form a geometric series in q = (1+g)/(1+r), scaled
      by rev0 * margin. */
  lemma {:induction false} ExplicitPvGeometric(rev0: real, margin: real, g: real, r: real, n: nat)
    requires r > -1.0
    ensures ExplicitPv(rev0, margin, g, r, n) == rev0 * margin * GeoSum((1.0 + g) / (1.0 + r), n)
  {
    if n > 0 {
      var q := (1.0 + g) / (1.0 + r);
      var c := rev0 * margin;
      ExplicitPvGeometric(rev0, margin, g, r, n - 1);
      DiscountedCashFlow(rev0, margin, g, r, n);
      assert c * (GeoSum(q, n - 1) + Pow(q, n)) == c * GeoSum(q, n - 1) + c * Pow(q, n);
    }
  }

  /** Closed form of the explicit years, with q = (1+g)/(1+r):
      ExplicitPv(n) * (1 - q) == rev0 * margin * (q - q^(n+1)). */
  lemma ExplicitPvClosedForm(rev0: real, margin: real, g: real, r: real, n: nat)
    requires r > -1.0
    ensures var q := (1.0 + g) / (1.0 + r);
      ExplicitPv(rev0, margin, g, r, n) * (1.0 - q) == rev0 * margin * (q - Pow(q, n + 1))
  {
    var q := (1.0 + g) / (1.0 + r);
    var c := rev0 * margin;
    ExplicitPvGeometric(rev0, margin, g, r, n);
    GeoSumClosed(q, n);
    ScaleIdentity(ExplicitPv(rev0, margin, g, r, n), c, GeoSum(q, n), 1.0 - q, q - Pow(q, n + 1));
  }

  /** Scaling both sides of s * k == e by c. */
  lemma ScaleIdentity(pv: real, c: real, s: real, k: real, e: real)
    requires pv == c * s && s * k == e
    ensures pv * k == c * e
  {
    assert pv * k == c * (s * k);
  }

  /** When growth equals the discount rate every explicit year is worth the
      same: n years of rev0 * margin. */
  lemma {:induction false} ExplicitPvFlat(rev0: real, margin: real, r: real, n: nat)
    requires r > -1.0
    ensures ExplicitPv(rev0, margin, r, r, n) == n as real * (rev0 * margin)
  {
    if n > 0 {
      var c := rev0 * margin;
      ExplicitPvFlat(rev0, margin, r, n - 1);
      DiscountedCashFlow(rev0, margin, r, r, n);
      DivCancel(1.0 + r, 1.0, 1.0 + r);
      PowOne(n);
      var term := CashFlow(rev0, margin, r, n) / Pow(1.0 + r, n);
      assert term == c;
      var k := (n - 1) as real;
      assert ExplicitPv(rev0, margin, r, r, n) == k * c + c;
      assert k * c + c == (k + 1.0) * c;
    }
  }

  /** One to any power is one. */
  lemma {:induction false} PowOne(n: nat)
    ensures Pow(1.0, n) == 1.0
  {
    if n > 0 {
      PowOne(n - 1);
    }
  }
}
