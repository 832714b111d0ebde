/** The rate half of `calculate()`: from income goals and working time to hourly rates. */
module RateEngine {
  import opened Numeric
  import opened Config

  /** The intermediate and final figures of the rate calculation. */
  datatype RateResult = RateResult(
    workingWeeks: real,
    annualHours: real,
    annualExpenses: real,
    taxReserve: real,
    totalNeeded: real,
    minRate: int,
    targetRate: int)

  /**
   * The division by the annual hours is unguarded in the source; the model
   * keeps to working time that leaves a positive number of billable hours.
   */
  predicate ValidWorkTime(weeksOff: real, hoursPerWeek: real)
  {
    weeksOff < WeeksPerYear && hoursPerWeek > 0.0
  }

  /** `Math.ceil(totalNeeded / annualHours)`: the least whole rate that covers the year. */
  function MinimumRate(totalNeeded: real, annualHours: real): (m: int)
    requires annualHours > 0.0
    ensures m as real * annualHours >= totalNeeded
    ensures (m - 1) as real * annualHours < totalNeeded
  {
    CeilOfQuotient(totalNeeded, annualHours);
    Ceil(totalNeeded / annualHours)
  }

  /** `Math.ceil(minRate * expMultiplier)`: the least whole rate at or above the scaled minimum. */
  function TargetRate(minRate: int, expMultiplier: real): (t: int)
    ensures t as real >= minRate as real * expMultiplier
    ensures (t - 1) as real < minRate as real * expMultiplier
  {
    Ceil(minRate as real * expMultiplier)
  }

  /** The rate engine, lines 110-118 of `calculate()`. */
  function ComputeRate(income: real, hoursPerWeek: real, weeksOff: real,
                       monthlyExpenses: real, expMultiplier: real): (r: RateResult)
    requires ValidWorkTime(weeksOff, hoursPerWeek)
    ensures r.workingWeeks == 52.0 - weeksOff && r.workingWeeks > 0.0
    ensures r.annualHours == (52.0 - weeksOff) * hoursPerWeek && r.annualHours > 0.0
    ensures r.annualExpenses == 12.0 * monthlyExpenses
    ensures r.taxReserve * 4.0 == income
    ensures r.totalNeeded == 1.25 * income + 12.0 * monthlyExpenses
    ensures r.minRate as real * r.annualHours >= r.totalNeeded
    ensures (r.minRate - 1) as real * r.annualHours < r.totalNeeded
    ensures r.targetRate as real >= r.minRate as real * expMultiplier
    ensures (r.targetRate - 1) as real < r.minRate as real * expMultiplier
  {
    var workingWeeks := WeeksPerYear - weeksOff;
    var annualHours := workingWeeks * hoursPerWeek;
    assert annualHours > 0.0;
    var annualExpenses := monthlyExpenses * 12.0;
    var taxReserve := income * TaxRate;
    var totalNeeded := income + annualExpenses + taxReserve;
    var minRate := MinimumRate(totalNeeded, annualHours);
    RateResult(workingWeeks, annualHours, annualExpenses, taxReserve, totalNeeded,
               minRate, TargetRate(minRate, expMultiplier))
  }

  /** Any whole rate that covers the year is at least the minimum rate. */
  lemma MinimumRateIsLeast(totalNeeded: real, annualHours: real, rate: int)
    requires annualHours > 0.0
    requires rate as real * annualHours >= totalNeeded
    ensures MinimumRate(totalNeeded, annualHours) <= rate
  {
    var q := totalNeeded / annualHours;
    assert q * annualHours == totalNeeded;
    assert (rate as real - q) * annualHours >= 0.0;
    assert rate as real >= q;
    CeilIsLeast(q, rate);
  }

  /** An experience multiplier of at least 1 never lowers a non-negative minimum rate. */
  lemma TargetAtLeastMinimum(minRate: int, expMultiplier: real)
    requires minRate >= 0 && expMultiplier >= 1.0
    ensures TargetRate(minRate, expMultiplier) >= minRate
  {
  }

  /** With non-negative money inputs both rates are non-negative, and the target is at least the minimum. */
  lemma RatesNonNegative(income: real, hoursPerWeek: real, weeksOff: real,
                         monthlyExpenses: real, expMultiplier: real)
    requires ValidWorkTime(weeksOff, hoursPerWeek)
    requires income >= 0.0 && monthlyExpenses >= 0.0 && expMultiplier >= 0.0
    ensures ComputeRate(income, hoursPerWeek, weeksOff, monthlyExpenses, expMultiplier).minRate >= 0
    ensures ComputeRate(income, hoursPerWeek, weeksOff, monthlyExpenses, expMultiplier).targetRate >= 0
    ensures expMultiplier >= 1.0 ==>
      ComputeRate(income, hoursPerWeek, weeksOff, monthlyExpenses, expMultiplier).targetRate
      >= ComputeRate(income, hoursPerWeek, weeksOff, monthlyExpenses, expMultiplier).minRate
  {
  }

  /** An example: £50,000, 30 hours a week, 5 weeks off, no expenses, multiplier 1. */
  lemma ExampleRate()
    ensures ComputeRate(50000.0, 30.0, 5.0, 0.0, 1.0)
         == RateResult(47.0, 1410.0, 0.0, 12500.0, 62500.0, 45, 45)
  {
  }
}
