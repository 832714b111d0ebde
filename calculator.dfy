/**
 * `calculate()` as a whole: read the inputs, compute the rates and the
 * project estimate, redraw the complexity meter and overwrite the stored
 * quote record; and the two quote actions that read that record.
 */
module Calculator {
  import opened Numeric
  import opened Inputs
  import opened RateEngine
  import opened ProjectEstimator
  import opened ComplexityMeter
  import opened Quote

  /** The figures `calculate()` displays. */
  datatype Results = Results(rate: RateResult, estimate: Estimate, level: int)

  /** The whole calculation as a function of the form's state. */
  function Evaluate(inputs: Inputs, projectKey: string, items: seq<CheckboxItem>): (r: Results)
    requires ValidWorkTime(inputs.weeksOff, inputs.hoursPerWeek)
    ensures r.rate == ComputeRate(inputs.income, inputs.hoursPerWeek, inputs.weeksOff,
                                  inputs.monthlyExpenses, inputs.expMultiplier)
    ensures r.estimate.baseHours == BaseHours(projectKey)
    ensures r.estimate.featureHours == SumChecked(items)
    ensures r.estimate.totalHours as real
         >= (r.estimate.baseHours + r.estimate.featureHours as real) * inputs.complexityMultiplier
    ensures (r.estimate.totalHours - 1) as real
         < (r.estimate.baseHours + r.estimate.featureHours as real) * inputs.complexityMultiplier
    ensures r.estimate.projectTotal == r.estimate.totalHours * r.rate.targetRate
    ensures r.level == Level(r.estimate.totalHours) && 1 <= r.level <= 5
  {
    var rate := ComputeRate(inputs.income, inputs.hoursPerWeek, inputs.weeksOff,
                            inputs.monthlyExpenses, inputs.expMultiplier);
    var estimate := EstimateProject(projectKey, SumChecked(items), inputs.complexityMultiplier,
                                    rate.targetRate);
    Results(rate, estimate, Level(estimate.totalHours))
  }

  /**
   * With non-negative money, a multiplier of at least 1 on both sides and no
   * negative feature hours, every displayed figure is sensible: the rates are
   * whole, non-negative and ordered, the hours cover base plus features, the
   * price is non-negative and the level lies in 1..5.
   */
  lemma EvaluateSensible(inputs: Inputs, projectKey: string, items: seq<CheckboxItem>)
    requires ValidWorkTime(inputs.weeksOff, inputs.hoursPerWeek)
    requires inputs.income >= 0.0 && inputs.monthlyExpenses >= 0.0
    requires inputs.expMultiplier >= 1.0 && inputs.complexityMultiplier >= 1.0
    requires forall i :: 0 <= i < |items| ==> ItemHours(items[i]) >= 0
    ensures var r := Evaluate(inputs, projectKey, items);
      && 0 <= r.rate.minRate <= r.rate.targetRate
      && r.estimate.totalHours as real >= r.estimate.baseHours + r.estimate.featureHours as real
      && r.estimate.totalHours >= 0
      && r.estimate.projectTotal >= 0
      && 1 <= r.level <= 5
  {
    var r := Evaluate(inputs, projectKey, items);
    RatesNonNegative(inputs.income, inputs.hoursPerWeek, inputs.weeksOff,
                     inputs.monthlyExpenses, inputs.expMultiplier);
    SumCheckedNonNegative(items);
    TotalHoursAtLeastUnscaled(r.estimate.baseHours, r.estimate.featureHours, inputs.complexityMultiplier);
    assert r.estimate.totalHours >= 0;
    assert r.estimate.totalHours * r.rate.targetRate >= 0;
  }

  /** Examples end to end: £45 an hour, a landing page at complexity 1 and 1.5. */
  lemma ExampleEndToEnd()
    ensures Evaluate(Inputs(50000.0, 30.0, 5.0, 0.0, 1.0, 1.0), "landing", []).estimate.projectTotal == 540
    ensures Evaluate(Inputs(50000.0, 30.0, 5.0, 0.0, 1.0, 1.5), "landing", []).estimate.projectTotal == 810
    ensures Evaluate(Inputs(50000.0, 30.0, 5.0, 0.0, 1.0, 1.5), "landing", []).level == 1
  {
    ExampleRate();
    ExampleLandingPage();
    LevelExamples();
  }

  /** The page: its complexity meter and the quote record `calculate()` keeps. */
  class App {
    var quoteData: QuoteData
    const bars: array<set<string>>

    constructor (bars: array<set<string>>)
      ensures this.bars == bars && quoteData == InitialQuoteData
    {
      this.bars := bars;
      quoteData := InitialQuoteData;
    }

    /** One run of `calculate()`. */
    method Calculate(raw: RawInputs, projectKey: string, projectLabel: string, items: seq<CheckboxItem>)
      returns (shown: Results)
      requires ValidWorkTime(ReadInputs(raw).weeksOff, ReadInputs(raw).hoursPerWeek)
      modifies this, bars
      ensures shown == Evaluate(ReadInputs(raw), projectKey, items)
      ensures quoteData == QuoteData(shown.rate.targetRate, shown.estimate.baseHours,
                                     shown.estimate.featureHours, ReadInputs(raw).complexityMultiplier,
                                     shown.estimate.totalHours, shown.estimate.projectTotal, projectLabel)
      ensures forall i :: 0 <= i < bars.Length ==> bars[i] - MeterClasses == old(bars[i]) - MeterClasses
      ensures forall i :: 0 <= i < bars.Length ==> ("active" in bars[i] <==> i < shown.level)
      ensures forall i :: 0 <= i < bars.Length ==> ("high" in bars[i] <==> i < shown.level && shown.level >= 4)
      ensures forall i :: 0 <= i < bars.Length ==> ("medium" in bars[i] <==> i < shown.level && shown.level == 3)
    {
      var inputs := ReadInputs(raw);
      var rate := ComputeRate(inputs.income, inputs.hoursPerWeek, inputs.weeksOff,
                              inputs.monthlyExpenses, inputs.expMultiplier);
      var featureHours := FeatureHours(items);
      var estimate := EstimateProject(projectKey, featureHours, inputs.complexityMultiplier,
                                      rate.targetRate);
      var level := UpdateComplexityMeter(bars, estimate.totalHours);
      shown := Results(rate, estimate, level);
      quoteData := QuoteData(rate.targetRate, estimate.baseHours, featureHours,
                             inputs.complexityMultiplier, estimate.totalHours,
                             estimate.projectTotal, projectLabel);
    }

    /** `generateQuote()`: the lines and total of the stored record. */
    method GenerateQuote() returns (lines: seq<QuoteLine>, total: int)
      ensures lines == QuoteLines(quoteData)
      ensures total == quoteData.projectTotal
    {
      lines, total := BuildQuote(quoteData);
    }

    /** `copyQuoteToClipboard()`: the text it hands to the clipboard. */
    method CopyQuote() returns (text: seq<TextLine>)
      ensures text == ClipboardText(quoteData)
    {
      text := ClipboardText(quoteData);
    }
  }

  /**
   * A quote generated after a calculation shows the project total that the
   * calculation displayed, and the copied text carries the same total and lines.
   */
  method QuoteAfterCalculate(app: App, raw: RawInputs, projectKey: string, projectLabel: string,
                             items: seq<CheckboxItem>)
    returns (displayed: int, lines: seq<QuoteLine>, quoted: int, text: seq<TextLine>)
    requires ValidWorkTime(ReadInputs(raw).weeksOff, ReadInputs(raw).hoursPerWeek)
    modifies app, app.bars
    ensures displayed == quoted
    ensures Items(text) == lines
    ensures |text| > 0 && text[|text| - 1] == TotalLine(quoted)
  {
    var shown := app.Calculate(raw, projectKey, projectLabel, items);
    displayed := shown.estimate.projectTotal;
    lines, quoted := app.GenerateQuote();
    text := app.CopyQuote();
    ClipboardMatchesQuote(app.quoteData);
  }
}
