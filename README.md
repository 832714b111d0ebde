# FreelanceCalc pricing core in Dafny

FreelanceCalc is a browser page that turns a freelancer's income goal and
working time into a minimum and a target hourly rate, estimates a project's
hours and price from a project type, ticked feature boxes and a complexity
multiplier, shows a five-bar complexity meter, and renders a quote. This
project models the arithmetic of `calculate()`, the level and bar logic of
`updateComplexityMeter()`, the stored quote record, and which lines the quote
and its copied plain text contain. All of it lives in `js/app.js`.

Modules, following the source's structure:

- `Numeric` (numeric.dfy): `Option` for `parseFloat`/`parseInt` results (`None` is NaN) and `Math.ceil` over exact reals.
- `Config` (config.dfy): the `CONFIG` table: base hours per project type, the 0.25 tax rate, 52 weeks.
- `Inputs` (inputs.dfy): the `parseFloat(v) || fallback` reads. NaN and 0 both fall back, so an entered 0 weeks off becomes 5.
- `RateEngine` (rate_engine.dfy): working weeks, annual hours, expenses, tax reserve, minimum and target rate.
- `ProjectEstimator` (project_estimator.dfy): base-hours lookup with the fallback of 40, the feature-hours loop, total hours and price.
- `ComplexityMeter` (complexity_meter.dfy): the level step function, the tier, and the loop that sets the bars' classes.
- `Quote` (quote.dfy): the `quoteData` record, the quote's lines and the layout of the copied text.
- `Calculator` (calculator.dfy): the whole calculation, and a class `App` holding the meter's bars and the `quoteData` record that `calculate()` overwrites.

Money, hours and multipliers are exact `real`s, so 0.25 × income or
1.5 × hours are exact. `Math.ceil` is `Numeric.Ceil`. The feature loop, the
level chain, the bar loop and the quote builder are methods:

- The feature loop is proved equal to the function `SumChecked`, and lemmas state that function's properties.
- The level chain is proved equal to the function `Level`, and lemmas state that function's properties.
- The quote builder is proved equal to `QuoteLines`, whose own ensures fix each line and the order of the lines.
- The bar loop has no specification function; its ensures state each bar's resulting classes directly.

## Model

| member | source | states |
|---|---|---|
| `Numeric.Ceil` | js/app.js:117-118 | `Math.ceil`, as used at lines 117, 118 and 130: the least integer at or above x |
| `Inputs.OrDefault` | js/app.js:98-103 | `parsed \|\| fallback`: a parsed non-zero value is kept; NaN or 0 gives the fallback; the result is zero only if the fallback is |
| `Inputs.ReadInputs` | js/app.js:98-103 | the six fields fall back to 0, 30, 5, 0, 1 and 1 respectively |
| `Inputs.DefaultedFieldsNonZero` | js/app.js:99-103 | after defaulting, hours per week, weeks off and both multipliers are never zero |
| `Inputs.ZeroEntriesFallBack` | js/app.js:99-100 | an entered 0 weeks off reads as 5, and 0 hours per week reads as 30, each whatever the other fields hold |
| `Inputs.TruthyValuesKept` | js/app.js:98-103 | when every field parses to a non-zero number, the inputs are exactly those numbers |
| `RateEngine.MinimumRate` | js/app.js:116-117 | the minimum rate is the least integer whose product with the annual hours covers the total needed |
| `RateEngine.TargetRate` | js/app.js:118 | the target rate is the least integer at or above minimum rate × experience multiplier |
| `RateEngine.ComputeRate` | js/app.js:110-118 | working weeks = 52 − weeks off > 0; annual hours = working weeks × hours per week > 0; expenses = 12 × monthly; tax reserve = income / 4; total needed = 1.25 × income + 12 × monthly; both rates are the least integers covering their targets |
| `RateEngine.MinimumRateIsLeast` | js/app.js:117 | any whole rate that covers the year is at least the minimum rate |
| `RateEngine.TargetAtLeastMinimum` | js/app.js:118 | an experience multiplier ≥ 1 gives a target rate ≥ a non-negative minimum rate |
| `RateEngine.RatesNonNegative` | js/app.js:110-118 | with non-negative income, expenses and multiplier, both rates are ≥ 0, and target ≥ minimum when the multiplier is ≥ 1 |
| `RateEngine.ExampleRate` | js/app.js:110-118 | £50,000, 30 h/week, 5 weeks off, no expenses, ×1 gives 47 weeks, 1410 hours, £12,500 tax, £62,500 needed, rates 45 and 45 |
| `ProjectEstimator.BaseHours` | js/app.js:121 | landing 12, brochure 24, blog 30, ecommerce 60, webapp 80, custom 40; any other key 40 |
| `ProjectEstimator.ItemHours` | js/app.js:126 | `parseInt(hours) \|\| 0`: an item's hours are its parsed value when it parses, otherwise 0 |
| `ProjectEstimator.SumChecked` | js/app.js:124-127 | the feature sum, accumulated over the items; with no item checked it is 0 |
| `ProjectEstimator.FeatureHours` | js/app.js:122-128 | the loop's total equals the feature sum `SumChecked` of the items |
| `ProjectEstimator.SumCheckedIsSumOfChecked` | js/app.js:124-127 | the feature sum is the sum of hour values over the checked items only, with an unparsable value counting 0 |
| `ProjectEstimator.SumCheckedAppend` | js/app.js:124-127 | the feature sum over a list is the sum over any two parts of it |
| `ProjectEstimator.SumCheckedNonNegative` | js/app.js:126 | with no negative hour values, the feature sum is ≥ 0 |
| `ProjectEstimator.ToggleChangesTotalByItem` | js/app.js:304-308 | clicking a checkbox changes the feature sum by exactly that item's hours, up when it becomes checked and down when unchecked |
| `ProjectEstimator.TotalHours` | js/app.js:130 | total hours is the least integer at or above (base + features) × complexity |
| `ProjectEstimator.TotalHoursAtLeastUnscaled` | js/app.js:130 | a complexity multiplier ≥ 1 never gives fewer hours than base + features (when that sum is ≥ 0) |
| `ProjectEstimator.TotalHoursMonotoneInComplexity` | js/app.js:130 | total hours never decrease as the complexity multiplier grows (for a non-negative hour sum) |
| `ProjectEstimator.TotalHoursMonotoneInHours` | js/app.js:130 | total hours never decrease as base + feature hours grow (for a non-negative multiplier) |
| `ProjectEstimator.EstimateProject` | js/app.js:121-131 | base hours come from the table, total hours are the ceiling of the scaled sum, and the price is total hours × target rate |
| `ProjectEstimator.ExampleLandingPage` | js/app.js:121-131 | landing page at £45: 12 hours and £540 at ×1, 18 hours and £810 at ×1.5; an unknown key gives 40 base hours |
| `ComplexityMeter.Level` | js/app.js:170-174 | the level is 1 plus the number of thresholds 20, 40, 60, 80 strictly exceeded, and lies in 1..5 |
| `ComplexityMeter.ComplexityLevel` | js/app.js:170-174 | the chain of `if (hours > t)` assignments yields `Level(hours)` |
| `ComplexityMeter.LevelMonotone` | js/app.js:170-174 | more hours never give a lower level |
| `ComplexityMeter.LevelStepsOnlyAtThresholds` | js/app.js:170-174 | hours with no threshold t in between (h1 ≤ t < h2) get the same level |
| `ComplexityMeter.LevelExamples` | js/app.js:170-174 | 20 → 1, 21 → 2, 45 → 3, 85 → 5 |
| `ComplexityMeter.TierOf` | js/app.js:182-183 | "high" iff level ≥ 4, "medium" iff level = 3 |
| `ComplexityMeter.TierOfHours` | js/app.js:170-183 | in hours: high iff > 60, medium iff in (40, 60], normal iff ≤ 40 |
| `ComplexityMeter.UpdateBars` | js/app.js:177-185 | afterwards bar i is active iff i < level, high iff also level ≥ 4, medium iff also level = 3, and its other classes are unchanged |
| `ComplexityMeter.UpdateComplexityMeter` | js/app.js:166-186 | computes `Level(hours)` and leaves the bars marked accordingly |
| `Quote.QuoteLines` | js/app.js:205-228 | the development line comes first; the features line appears iff feature hours > 0, and then it is second; the complexity line appears iff the multiplier > 1, and then it is last; there are no other lines |
| `Quote.BuildQuote` | js/app.js:204-231 | the appended lines are `QuoteLines` of the record, and the shown total is the stored project total |
| `Quote.ClipboardText` | js/app.js:248-256 | seven lines: title, underline, development line, then the features line if feature hours > 0 and otherwise a blank line, then the complexity line if the multiplier > 1 and otherwise a blank line, then the rule, then the stored project total |
| `Quote.ClipboardMatchesQuote` | js/app.js:248-256 | the itemised lines of the copied text are exactly the quote's lines, in the same order |
| `Calculator.Evaluate` | js/app.js:98-134 | the arithmetic of one calculation: minimum and target rate from `ComputeRate`, base hours from the table, feature hours the checked sum, total hours the least integer at or above the scaled sum, price = total hours × target rate, level = `Level(total hours)` in 1..5 |
| `Calculator.EvaluateSensible` | js/app.js:96-131 | with non-negative money, multipliers ≥ 1 and no negative feature hours: 0 ≤ minimum ≤ target rate, hours ≥ base + features, price ≥ 0, level in 1..5 |
| `Calculator.ExampleEndToEnd` | js/app.js:110-134 | examples through the whole pipeline: £540 and £810, level 1 |
| `Calculator.App.constructor` | js/app.js:78-86 | the quote record starts as rate 0, hours 0, multiplier 1, total 0, empty project type |
| `Calculator.App.Calculate` | js/app.js:96-160 | displays `Evaluate` of the defaulted inputs, marks the meter's bars for the level, and overwrites the quote record with this run's figures and the selected label |
| `Calculator.App.GenerateQuote` | js/app.js:195-235 | the quote shows `QuoteLines` of the stored record and its project total |
| `Calculator.App.CopyQuote` | js/app.js:247-256 | the copied text is `ClipboardText` of the stored record |
| `Calculator.QuoteAfterCalculate` | js/app.js:151-159 | after a calculation, the quote's total equals the project total just displayed; the copied text lists the quote's lines and ends with that total |

## Left out

- Reading and writing the page: `elements` lookups, `textContent`/`innerHTML` updates, the slider value labels and the breakdown lines (js/app.js:33-72, 105-107, 136-148). The breakdown's `Math.ceil(taxReserve)` is display only.
- Event wiring (js/app.js:286-342), except the effect of a checkbox click on the feature sum (`ToggleChangesTotalByItem`).
- Opening and closing the quote modal, and the Escape and overlay handling (js/app.js:234-242, 318-329).
- The clipboard write, its promise and the timed button feedback (js/app.js:258-266). These are asynchronous browser calls.
- The date (`toLocaleDateString`) and `formatCurrency`'s locale digit grouping (js/app.js:196-200, 279). These are locale functions. Quote and text lines carry the numbers they print, not the printed strings or the HTML markup.
- `parseFloat` and `parseInt` themselves, including `parseInt` truncating "7.5" to 7 and a parsed `Infinity`. Parse results are given as `Option` values.
- IEEE-754 rounding. The model computes over exact reals, so `Math.ceil` never sees a value like 18.000000000000004.
- RateEngine.ComputeRate: requires weeks off < 52 and hours per week > 0. The source divides without a guard. It is undefined (±Infinity or NaN) at zero annual hours. The requires also excludes two cases where the source divides by negative annual hours and shows finite negative rates: more than 52 weeks off with positive hours, and negative hours per week with fewer than 52 weeks off. Negative weeks and hours that multiply to a positive product are not modelled.
- Calculator.App.Calculate: carries the same requirement on the defaulted inputs.
- ProjectEstimator.BaseHours: models only the table's own keys. A key inherited from JavaScript's object prototype (such as "constructor") is looked up as the fallback here; in the source it yields a function and a NaN price.
- RateEngine.RatesNonNegative: proves the rates non-negative only for non-negative money inputs. The source accepts negative typed values, and then the rates can be negative.
- Idempotence of the calculation is not stated as a lemma. Every calculation is a Dafny function, and so is deterministic by construction.

Behaviour of the code worth noting:

- The quote record is overwritten by every `calculate()` (js/app.js:151-159). A quote therefore shows the last calculation's figures.
- Feature hours can be negative, because a box's hour value may parse to a negative number (js/app.js:126). The model keeps integers. `SumCheckedNonNegative` states non-negativity only when no hour value is negative.
- The copied text keeps an empty line for each optional line that is absent (js/app.js:252-253). The quote view omits such lines (js/app.js:212-228).
