/** The investment simulator: a year-by-year series of a balance compounded
    monthly, with the contribution paid in before each month's growth, and
    the totals shown beside the chart. */
module InvestmentSimulator {
  import opened Types

  /** One chart point: `{ year: "Thn <year>", balance }`. */
  datatype Sample = Sample(year: nat, balance: int)

  /** The two result cards: final balance, profit and its ROI percentage. */
  datatype Outcome = Outcome(finalBalance: int, totalInvested: real, totalProfit: real, roi: Option<real>)

  /** `Math.round`: the nearest integer, halves rounded up. */
  function Round(x: real): (r: int)
    ensures r as real - 0.5 <= x < r as real + 0.5
  {
    (x + 0.5).Floor
  }

  function MonthlyRate(annualReturn: real): real
  {
    annualReturn / 100.0 / 12.0
  }

  /** One month: the contribution is paid in, then the month's return accrues. */
  function Grow(balance: real, monthly: real, rate: real): real
  {
    (balance + monthly) * (1.0 + rate)
  }

  /** `n` months of growth. */
  function GrowMonths(balance: real, monthly: real, rate: real, n: nat): real
  {
    if n == 0 then balance else Grow(GrowMonths(balance, monthly, rate, n - 1), monthly, rate)
  }

  /** The unrounded balance at the start of year `year`: twelve months of
      growth per elapsed year, never rounded in between. */
  function BalanceAt(initial: real, monthly: real, rate: real, year: nat): real
  {
    if year == 0 then initial else GrowMonths(BalanceAt(initial, monthly, rate, year - 1), monthly, rate, 12)
  }

  /** What `projectionData` holds: for years 0 to `years`, the rounded
      balance at the start of that year. */
  function Series(initial: real, monthly: real, annualReturn: real, years: nat): seq<Sample>
  {
    seq(years + 1, k requires 0 <= k <= years =>
      Sample(k, Round(BalanceAt(initial, monthly, MonthlyRate(annualReturn), k))))
  }

  /** The `projectionData` memo, as the component's nested loops compute it. */
  method Projection(initialAmount: real, monthlyContribution: real, annualReturn: real, years: nat)
    returns (data: seq<Sample>)
    ensures |data| == years + 1
    ensures data == Series(initialAmount, monthlyContribution, annualReturn, years)
  {
    data := [];
    var currentBalance := initialAmount;
    var monthlyRate := annualReturn / 100.0 / 12.0;
    var year := 0;
    while year <= years
      invariant 0 <= year <= years + 1
      invariant |data| == year
      invariant forall k :: 0 <= k < year ==>
        data[k] == Sample(k, Round(BalanceAt(initialAmount, monthlyContribution, monthlyRate, k)))
      invariant currentBalance == BalanceAt(initialAmount, monthlyContribution, monthlyRate, year)
    {
      data := data + [Sample(year, Round(currentBalance))];
      ghost var start := currentBalance;
      var month := 1;
      while month <= 12
        invariant 1 <= month <= 13
        invariant currentBalance == GrowMonths(start, monthlyContribution, monthlyRate, month - 1)
      {
        currentBalance := (currentBalance + monthlyContribution) * (1.0 + monthlyRate);
        month := month + 1;
      }
      year := year + 1;
    }
    ghost var series := Series(initialAmount, monthlyContribution, annualReturn, years);
    forall k | 0 <= k <= years ensures data[k] == series[k] {
    }
  }

  /** `finalBalance`, `totalInvested`, `totalProfit` and the ROI card. The
      ROI is a percentage of what was paid in; it has no value when nothing
      was paid in. */
  function Results(initial: real, monthly: real, annualReturn: real, years: nat): (r: Outcome)
    ensures r.finalBalance == Series(initial, monthly, annualReturn, years)[years].balance
    ensures r.totalInvested == initial + monthly * 12.0 * years as real
    ensures r.totalProfit == r.finalBalance as real - r.totalInvested
    ensures r.roi.Some? <==> r.totalInvested != 0.0
    ensures r.roi.Some? ==> r.roi.value * r.totalInvested == r.totalProfit * 100.0
  {
    var data := Series(initial, monthly, annualReturn, years);
    var finalBalance := data[|data| - 1].balance;
    var totalInvested := initial + monthly * 12.0 * years as real;
    var totalProfit := finalBalance as real - totalInvested;
    var roi := if totalInvested == 0.0 then None else Some(totalProfit / totalInvested * 100.0);
    Outcome(finalBalance, totalInvested, totalProfit, roi)
  }

  // ---------------------------------------------------------------------------
  // Properties of the series

  /** The first sample is the rounded starting amount, and each later one
      rounds twelve monthly steps applied to the unrounded balance behind
      the sample before it. */
  lemma SeriesSteps(initial: real, monthly: real, annualReturn: real, years: nat)
    ensures Series(initial, monthly, annualReturn, years)[0] == Sample(0, Round(initial))
    ensures forall k :: 0 <= k < years ==>
      Series(initial, monthly, annualReturn, years)[k + 1].balance
        == Round(GrowMonths(BalanceAt(initial, monthly, MonthlyRate(annualReturn), k), monthly, MonthlyRate(annualReturn), 12))
  {
    var s, rate := Series(initial, monthly, annualReturn, years), MonthlyRate(annualReturn);
    forall k | 0 <= k < years
      ensures s[k + 1].balance == Round(GrowMonths(BalanceAt(initial, monthly, rate, k), monthly, rate, 12))
    {
      assert s[k + 1].balance == Round(BalanceAt(initial, monthly, rate, k + 1));
    }
  }

  lemma {:induction false} MonthsWithoutGrowth(balance: real, n: nat)
    ensures GrowMonths(balance, 0.0, 0.0, n) == balance
  {
    if n > 0 {
      MonthsWithoutGrowth(balance, n - 1);
    }
  }

  lemma {:induction false} YearsWithoutGrowth(initial: real, k: nat)
    ensures BalanceAt(initial, 0.0, 0.0, k) == initial
  {
    if k > 0 {
      YearsWithoutGrowth(initial, k - 1);
      MonthsWithoutGrowth(initial, 12);
    }
  }

  /** Zero return and zero contribution: every sample is the rounded
      starting amount. */
  lemma FlatWithoutGrowth(initial: real, years: nat)
    ensures forall k :: 0 <= k <= years ==> Series(initial, 0.0, 0.0, years)[k].balance == Round(initial)
  {
    forall k | 0 <= k <= years ensures Series(initial, 0.0, 0.0, years)[k].balance == Round(initial) {
      YearsWithoutGrowth(initial, k);
    }
  }

  lemma {:induction false} MonthsFromZero(rate: real, n: nat)
    ensures GrowMonths(0.0, 0.0, rate, n) == 0.0
  {
    if n > 0 {
      MonthsFromZero(rate, n - 1);
    }
  }

  lemma {:induction false} YearsFromZero(rate: real, k: nat)
    ensures BalanceAt(0.0, 0.0, rate, k) == 0.0
  {
    if k > 0 {
      YearsFromZero(rate, k - 1);
      MonthsFromZero(rate, 12);
    }
  }

  /** Nothing in and nothing paid in: every sample is zero, whatever the rate. */
  lemma ZeroStaysZero(annualReturn: real, years: nat)
    ensures forall k :: 0 <= k <= years ==> Series(0.0, 0.0, annualReturn, years)[k].balance == 0
  {
    forall k | 0 <= k <= years ensures Series(0.0, 0.0, annualReturn, years)[k].balance == 0 {
      YearsFromZero(MonthlyRate(annualReturn), k);
    }
  }

  lemma GrowNotBelow(balance: real, monthly: real, rate: real)
    requires balance >= 0.0 && monthly >= 0.0 && rate >= 0.0
    ensures Grow(balance, monthly, rate) >= balance
  {
    assert (balance + monthly) * rate >= 0.0;
  }

  lemma {:induction false} MonthsNotBelow(balance: real, monthly: real, rate: real, n: nat)
    requires balance >= 0.0 && monthly >= 0.0 && rate >= 0.0
    ensures GrowMonths(balance, monthly, rate, n) >= balance
  {
    if n > 0 {
      MonthsNotBelow(balance, monthly, rate, n - 1);
      GrowNotBelow(GrowMonths(balance, monthly, rate, n - 1), monthly, rate);
    }
  }

  lemma {:induction false} BalanceNonDecreasing(initial: real, monthly: real, rate: real, j: nat, k: nat)
    requires initial >= 0.0 && monthly >= 0.0 && rate >= 0.0
    requires j <= k
    ensures initial <= BalanceAt(initial, monthly, rate, j) <= BalanceAt(initial, monthly, rate, k)
  {
    if j < k {
      BalanceNonDecreasing(initial, monthly, rate, j, k - 1);
      MonthsNotBelow(BalanceAt(initial, monthly, rate, k - 1), monthly, rate, 12);
    } else if k > 0 {
      BalanceNonDecreasing(initial, monthly, rate, 0, k - 1);
      MonthsNotBelow(BalanceAt(initial, monthly, rate, k - 1), monthly, rate, 12);
    }
  }

  /** With a non-negative start, contribution and return the chart never
      goes down. */
  lemma SeriesNonDecreasing(initial: real, monthly: real, annualReturn: real, years: nat)
    requires initial >= 0.0 && monthly >= 0.0 && annualReturn >= 0.0
    ensures forall j, k :: 0 <= j <= k <= years ==>
      Series(initial, monthly, annualReturn, years)[j].balance <= Series(initial, monthly, annualReturn, years)[k].balance
  {
    var s := Series(initial, monthly, annualReturn, years);
    forall j, k | 0 <= j <= k <= years ensures s[j].balance <= s[k].balance {
      BalanceNonDecreasing(initial, monthly, MonthlyRate(annualReturn), j, k);
    }
  }

  lemma {:induction false} MonthsWithoutReturn(balance: real, monthly: real, n: nat)
    ensures GrowMonths(balance, monthly, 0.0, n) == balance + n as real * monthly
  {
    if n > 0 {
      MonthsWithoutReturn(balance, monthly, n - 1);
      assert (n - 1) as real * monthly + monthly == n as real * monthly;
    }
  }

  lemma {:induction false} YearsWithoutReturn(initial: real, monthly: real, k: nat)
    ensures BalanceAt(initial, monthly, 0.0, k) == initial + monthly * 12.0 * k as real
  {
    if k > 0 {
      YearsWithoutReturn(initial, monthly, k - 1);
      MonthsWithoutReturn(BalanceAt(initial, monthly, 0.0, k - 1), monthly, 12);
      assert monthly * 12.0 * (k - 1) as real + 12.0 * monthly == monthly * 12.0 * k as real;
    }
  }

  /** At a zero return the final balance is exactly what was paid in, so for
      whole-rupiah inputs (the sliders step by 1,000,000 and 100,000) the
      profit is zero. */
  lemma NoReturnNoProfit(initial: int, monthly: int, years: nat)
    ensures Results(initial as real, monthly as real, 0.0, years).totalProfit == 0.0
  {
    YearsWithoutReturn(initial as real, monthly as real, years);
    var n := initial + monthly * 12 * years;
    assert initial as real + monthly as real * 12.0 * years as real == n as real;
  }

  /** With the sliders' non-negative inputs, the ROI is missing exactly when
      nothing was paid in: no starting amount, and no contribution or no
      years. */
  lemma RoiDefinedUnlessNothingInvested(initial: real, monthly: real, annualReturn: real, years: nat)
    requires initial >= 0.0 && monthly >= 0.0
    ensures Results(initial, monthly, annualReturn, years).roi.None? <==>
            initial == 0.0 && (monthly == 0.0 || years == 0)
  {
    var invested := monthly * 12.0 * years as real;
    assert invested >= 0.0;
    assert invested == 0.0 <==> monthly == 0.0 || years == 0;
  }
}
