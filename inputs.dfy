/**
 * Input defaulting in `calculate()`: each field is read as
 * `parseFloat(value) || fallback`, so both NaN and a parsed zero fall back.
 */
module Inputs {
  import opened Numeric

  /** What `parseFloat` made of each form field. */
  datatype RawInputs = RawInputs(
    income: Option<real>,
    hoursPerWeek: Option<real>,
    weeksOff: Option<real>,
    monthlyExpenses: Option<real>,
    experience: Option<real>,
    complexity: Option<real>)

  /** The numbers the rest of `calculate()` works with. */
  datatype Inputs = Inputs(
    income: real,
    hoursPerWeek: real,
    weeksOff: real,
    monthlyExpenses: real,
    expMultiplier: real,
    complexityMultiplier: real)

  /** JavaScript truthiness of a parsed number: neither NaN nor zero. */
  predicate Truthy(parsed: Option<real>)
  {
    parsed.Some? && parsed.value != 0.0
  }

  /** `parsed || fallback`. */
  function OrDefault(parsed: Option<real>, fallback: real): (r: real)
    ensures Truthy(parsed) ==> r == parsed.value
    ensures !Truthy(parsed) ==> r == fallback
    ensures r != 0.0 || fallback == 0.0
  {
    if Truthy(parsed) then parsed.value else fallback
  }

  /** The six reads at the top of `calculate()`, with their fallbacks 0, 30, 5, 0, 1 and 1. */
  function ReadInputs(raw: RawInputs): (r: Inputs)
    ensures r.income == OrDefault(raw.income, 0.0)
    ensures r.hoursPerWeek == OrDefault(raw.hoursPerWeek, 30.0)
    ensures r.weeksOff == OrDefault(raw.weeksOff, 5.0)
    ensures r.monthlyExpenses == OrDefault(raw.monthlyExpenses, 0.0)
    ensures r.expMultiplier == OrDefault(raw.experience, 1.0)
    ensures r.complexityMultiplier == OrDefault(raw.complexity, 1.0)
  {
    Inputs(
      OrDefault(raw.income, 0.0),
      OrDefault(raw.hoursPerWeek, 30.0),
      OrDefault(raw.weeksOff, 5.0),
      OrDefault(raw.monthlyExpenses, 0.0),
      OrDefault(raw.experience, 1.0),
      OrDefault(raw.complexity, 1.0))
  }

  /**
   * Four of the fields have a non-zero fallback, so after defaulting they are
   * never zero, whatever was typed.
   */
  lemma DefaultedFieldsNonZero(raw: RawInputs)
    ensures ReadInputs(raw).hoursPerWeek != 0.0
    ensures ReadInputs(raw).weeksOff != 0.0
    ensures ReadInputs(raw).expMultiplier != 0.0
    ensures ReadInputs(raw).complexityMultiplier != 0.0
  {
  }

  /** An entered 0 weeks off is read as 5, and 0 billable hours as 30. */
  lemma ZeroEntriesFallBack(raw: RawInputs)
    ensures raw.weeksOff == Some(0.0) ==> ReadInputs(raw).weeksOff == 5.0
    ensures raw.hoursPerWeek == Some(0.0) ==> ReadInputs(raw).hoursPerWeek == 30.0
  {
  }

  /** Every non-zero parsed value is taken as typed. */
  lemma TruthyValuesKept(raw: RawInputs)
    requires Truthy(raw.income) && Truthy(raw.hoursPerWeek) && Truthy(raw.weeksOff)
    requires Truthy(raw.monthlyExpenses) && Truthy(raw.experience) && Truthy(raw.complexity)
    ensures ReadInputs(raw) == Inputs(raw.income.value, raw.hoursPerWeek.value, raw.weeksOff.value,
                                      raw.monthlyExpenses.value, raw.experience.value, raw.complexity.value)
  {
  }
}
