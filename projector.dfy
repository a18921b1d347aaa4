/**
 * The wealth projector: month by month, add the month's contribution, then
 * compound at the monthly return rate; the real value discounts the nominal
 * one by the monthly inflation rate for every elapsed month.
 */
module Projector {
  import opened Config

  /** One row of the projection: 1-based month, nominal wealth, inflation-adjusted wealth. */
  datatype MonthRecord = MonthRecord(month: nat, nominal: real, inflationAdjusted: real)

  const MonthlyReturnRate: real := AnnualReturnRate / 12.0
  const MonthlyInflationRate: real := AnnualInflationRate / 12.0

  /** base raised to the k-th power. */
  function Pow(base: real, k: nat): (r: real)
    ensures base >= 1.0 ==> r >= 1.0
  {
    if k == 0 then 1.0
    else
      var p := Pow(base, k - 1);
      assert base >= 1.0 ==> base * p >= p by {
        if base >= 1.0 { assert base * p - p == (base - 1.0) * p; }
      }
      base * p
  }

  /** The discount factor after k months of inflation; it is never below one. */
  function InflationFactor(k: nat): (f: real)
    ensures f >= 1.0
  {
    Pow(1.0 + MonthlyInflationRate, k)
  }

  /** Nominal wealth after k months of contributing m at the start of each month. */
  function NominalWealth(m: real, k: nat): real
  {
    if k == 0 then 0.0 else (NominalWealth(m, k - 1) + m) * (1.0 + MonthlyReturnRate)
  }

  /** Nominal wealth after k months in today's money. */
  function RealWealth(m: real, k: nat): real
  {
    NominalWealth(m, k) / InflationFactor(k)
  }

  /** The record the engine produces for month k when monthly savings is m. */
  function RecordFor(m: real, k: nat): MonthRecord
  {
    if m <= 0.0 then MonthRecord(k, 0.0, 0.0) else MonthRecord(k, NominalWealth(m, k), RealWealth(m, k))
  }

  method ProjectWealthGrowth(monthlySavings: real, durationMonths: int := 12) returns (series: seq<MonthRecord>)
    // One record per month, numbered 1..durationMonths in order; none for a non-positive duration.
    ensures |series| == if durationMonths > 0 then durationMonths else 0
    ensures forall k :: 0 <= k < |series| ==> series[k].month == k + 1
    // Nothing saved, nothing grown.
    ensures monthlySavings <= 0.0 ==>
      forall k :: 0 <= k < |series| ==> series[k].nominal == 0.0 && series[k].inflationAdjusted == 0.0
    // Otherwise each month follows the contribute-then-compound recurrence and its discount.
    ensures monthlySavings > 0.0 ==>
      forall k :: 0 <= k < |series| ==>
        series[k].nominal == NominalWealth(monthlySavings, k + 1)
        && series[k].inflationAdjusted == RealWealth(monthlySavings, k + 1)
  {
    var n := if durationMonths > 0 then durationMonths else 0;
    if monthlySavings <= 0.0 {
      series := seq(n, k requires 0 <= k => MonthRecord(k + 1, 0.0, 0.0));
      return;
    }
    var records: seq<MonthRecord> := [];
    var currentWealth := 0.0;
    var month := 1;
    while month <= n
      invariant 1 <= month <= n + 1
      invariant |records| == month - 1
      invariant currentWealth == NominalWealth(monthlySavings, month - 1)
      invariant forall k :: 0 <= k < |records| ==> records[k] == RecordFor(monthlySavings, k + 1)
    {
      currentWealth := currentWealth + monthlySavings;
      var interest := currentWealth * MonthlyReturnRate;
      currentWealth := currentWealth + interest;
      var realWealth := currentWealth / Pow(1.0 + MonthlyInflationRate, month);
      records := records + [MonthRecord(month, currentWealth, realWealth)];
      month := month + 1;
    }
    series := records;
  }

  /** Nominal wealth is never negative when something is saved. */
  lemma {:induction false} NominalNonNegative(m: real, k: nat)
    requires m > 0.0
    ensures NominalWealth(m, k) >= 0.0
  {
    if k > 0 { NominalNonNegative(m, k - 1); }
  }

  /** Each month adds strictly to nominal wealth. */
  lemma NominalStep(m: real, k: nat)
    requires m > 0.0
    ensures NominalWealth(m, k) + m < NominalWealth(m, k + 1)
  {
    NominalNonNegative(m, k);
  }

  /** Nominal wealth is strictly increasing in the month. */
  lemma {:induction false} NominalStrictlyIncreasing(m: real, j: nat, k: nat)
    requires m > 0.0 && j < k
    ensures NominalWealth(m, j) < NominalWealth(m, k)
  {
    NominalStep(m, k - 1);
    if j < k - 1 { NominalStrictlyIncreasing(m, j, k - 1); }
  }

  /** After k months the balance is at least the k contributions. */
  lemma {:induction false} NominalAtLeastContributions(m: real, k: nat)
    requires m > 0.0
    ensures NominalWealth(m, k) >= (k as real) * m
  {
    if k > 0 {
      NominalAtLeastContributions(m, k - 1);
      NominalStep(m, k - 1);
      assert (k as real) * m == ((k - 1) as real) * m + m;
    }
  }

  /**
   * The recurrence agrees with the annuity-due formula:
   * w_k * r == m * (1 + r) * ((1 + r)^k - 1).
   */
  lemma {:induction false} NominalClosedForm(m: real, k: nat)
    ensures NominalWealth(m, k) * MonthlyReturnRate
         == m * (1.0 + MonthlyReturnRate) * (Pow(1.0 + MonthlyReturnRate, k) - 1.0)
  {
    if k > 0 {
      NominalClosedForm(m, k - 1);
      var r := MonthlyReturnRate;
      var p := Pow(1.0 + r, k - 1);
      var w := NominalWealth(m, k - 1);
      calc {
        NominalWealth(m, k) * r;
        (w + m) * (1.0 + r) * r;
        (w * r + m * r) * (1.0 + r);
        (m * (1.0 + r) * (p - 1.0) + m * r) * (1.0 + r);
        m * (1.0 + r) * ((1.0 + r) * p - 1.0);
        m * (1.0 + r) * (Pow(1.0 + r, k) - 1.0);
      }
    }
  }

  /** The real value is positive and never above the nominal one. */
  lemma RealWithinNominal(m: real, k: nat)
    requires m > 0.0
    ensures 0.0 <= RealWealth(m, k) <= NominalWealth(m, k)
    ensures k > 0 ==> 0.0 < RealWealth(m, k)
  {
    var w := NominalWealth(m, k);
    var f := InflationFactor(k);
    NominalNonNegative(m, k);
    if k > 0 { NominalStrictlyIncreasing(m, 0, k); }
    assert RealWealth(m, k) * f == w;
    assert w <= w * f by { assert w * f - w == w * (f - 1.0); }
  }

  /** Returns outpace inflation, so the real value is strictly increasing too. */
  lemma RealStrictlyIncreasing(m: real, k: nat)
    requires m > 0.0
    ensures RealWealth(m, k) < RealWealth(m, k + 1)
  {
    var b := 1.0 + MonthlyInflationRate;
    var w, w' := NominalWealth(m, k), NominalWealth(m, k + 1);
    var f := InflationFactor(k);
    assert InflationFactor(k + 1) == b * f;
    NominalNonNegative(m, k);
    // w' = (w + m) * (1 + return) > w * (1 + inflation)
    assert w' > w * b;
    var x, y := RealWealth(m, k), RealWealth(m, k + 1);
    assert x * f == w;
    assert y * (b * f) == w';
    assert (y - x) * (b * f) == w' - w * b;
    assert b * f > 0.0;
  }

  /**
   * Example: 1000 saved for one month grows to 1000 * (1 + 0.07 / 12) before
   * rounding; saving nothing gives twelve zero records by default.
   */
  method OneMonthScenario() returns (series: seq<MonthRecord>, empty: seq<MonthRecord>)
    ensures series == [MonthRecord(1, 1000.0 * (1.0 + 0.07 / 12.0), RealWealth(1000.0, 1))]
    ensures |empty| == 12 && empty[11] == MonthRecord(12, 0.0, 0.0)
  {
    series := ProjectWealthGrowth(1000.0, 1);
    empty := ProjectWealthGrowth(0.0);
  }
}
