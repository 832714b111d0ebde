/**
 * The quote: the record `calculate()` stores for it (`quoteData`), the lines
 * `generateQuote()` shows, and the plain-text layout `copyQuoteToClipboard()`
 * copies. Currency and number formatting are kept abstract: a line carries
 * the numbers it prints.
 */
module Quote {

  /** The stored quote record. */
  datatype QuoteData = QuoteData(
    targetRate: int,
    baseHours: real,
    featureHours: int,
    complexityMultiplier: real,
    totalProjectHours: int,
    projectTotal: int,
    projectType: string)

  /** The record before the first calculation. */
  const InitialQuoteData: QuoteData := QuoteData(0, 0.0, 0, 1.0, 0, 0, "")

  /** One itemised line of the quote. */
  datatype QuoteLine =
    | Development(projectType: string, baseHours: real, rate: int)
    | AdditionalFeatures(featureHours: int, rate: int)
    | ComplexityAdjustment(multiplier: real)

  /** The itemised lines of the quote, in the order they are shown. */
  function QuoteLines(q: QuoteData): (lines: seq<QuoteLine>)
    ensures |lines| >= 1 && lines[0] == Development(q.projectType, q.baseHours, q.targetRate)
    ensures AdditionalFeatures(q.featureHours, q.targetRate) in lines <==> q.featureHours > 0
    ensures ComplexityAdjustment(q.complexityMultiplier) in lines <==> q.complexityMultiplier > 1.0
    ensures forall i :: 0 <= i < |lines| ==>
      lines[i] in {Development(q.projectType, q.baseHours, q.targetRate),
                   AdditionalFeatures(q.featureHours, q.targetRate),
                   ComplexityAdjustment(q.complexityMultiplier)}
    ensures |lines| == 1 + (if q.featureHours > 0 then 1 else 0)
                         + (if q.complexityMultiplier > 1.0 then 1 else 0)
    ensures q.featureHours > 0 ==> lines[1] == AdditionalFeatures(q.featureHours, q.targetRate)
    ensures q.complexityMultiplier > 1.0 ==> lines[|lines| - 1] == ComplexityAdjustment(q.complexityMultiplier)
  {
    [Development(q.projectType, q.baseHours, q.targetRate)]
      + (if q.featureHours > 0 then [AdditionalFeatures(q.featureHours, q.targetRate)] else [])
      + (if q.complexityMultiplier > 1.0 then [ComplexityAdjustment(q.complexityMultiplier)] else [])
  }

  /** `generateQuote()`: appends the lines one by one and shows the stored total. */
  method BuildQuote(q: QuoteData) returns (lines: seq<QuoteLine>, total: int)
    ensures lines == QuoteLines(q)
    ensures total == q.projectTotal
  {
    lines := [Development(q.projectType, q.baseHours, q.targetRate)];
    if q.featureHours > 0 {
      lines := lines + [AdditionalFeatures(q.featureHours, q.targetRate)];
    }
    if q.complexityMultiplier > 1.0 {
      lines := lines + [ComplexityAdjustment(q.complexityMultiplier)];
    }
    total := q.projectTotal;
  }

  /** One line of the copied plain text. */
  datatype TextLine =
    | Title           // PROJECT QUOTE
    | Underline       // =============
    | Item(line: QuoteLine)
    | Blank           // an optional line that was left out stays as an empty line
    | Rule            // --------------
    | TotalLine(amount: int)

  /**
   * `copyQuoteToClipboard()`'s text, line by line. The optional lines are
   * conditional expressions inside one template, so a line that is left out
   * leaves an empty line behind; `trim()` only strips the ends.
   */
  function ClipboardText(q: QuoteData): (text: seq<TextLine>)
    ensures |text| == 7
    ensures text[0] == Title && text[1] == Underline && text[5] == Rule
    ensures text[2] == Item(Development(q.projectType, q.baseHours, q.targetRate))
    ensures text[3] == (if q.featureHours > 0 then Item(AdditionalFeatures(q.featureHours, q.targetRate)) else Blank)
    ensures text[4] == (if q.complexityMultiplier > 1.0 then Item(ComplexityAdjustment(q.complexityMultiplier)) else Blank)
    ensures text[6] == TotalLine(q.projectTotal)
  {
    [Title, Underline, Item(Development(q.projectType, q.baseHours, q.targetRate)),
     if q.featureHours > 0 then Item(AdditionalFeatures(q.featureHours, q.targetRate)) else Blank,
     if q.complexityMultiplier > 1.0 then Item(ComplexityAdjustment(q.complexityMultiplier)) else Blank,
     Rule, TotalLine(q.projectTotal)]
  }

  /** The itemised lines of a text, in order. */
  function Items(text: seq<TextLine>): (lines: seq<QuoteLine>)
    ensures |lines| <= |text|
  {
    if text == [] then []
    else (if text[0].Item? then [text[0].line] else []) + Items(text[1..])
  }

  /** The itemised lines of a text split at any point are the two halves' lines. */
  lemma {:induction false} ItemsAppend(a: seq<TextLine>, b: seq<TextLine>)
    ensures Items(a + b) == Items(a) + Items(b)
  {
    if a != [] {
      assert (a + b)[1..] == a[1..] + b;
      ItemsAppend(a[1..], b);
    } else {
      assert a + b == b;
    }
  }

  /** The copied text itemises exactly the lines the quote shows, in the same order. */
  lemma ClipboardMatchesQuote(q: QuoteData)
    ensures Items(ClipboardText(q)) == QuoteLines(q)
  {
    var text := ClipboardText(q);
    assert text == [text[0], text[1]] + [text[2]] + [text[3]] + [text[4]] + [text[5], text[6]];
    ItemsAppend([text[0], text[1]] + [text[2]] + [text[3]] + [text[4]], [text[5], text[6]]);
    ItemsAppend([text[0], text[1]] + [text[2]] + [text[3]], [text[4]]);
    ItemsAppend([text[0], text[1]] + [text[2]], [text[3]]);
    ItemsAppend([text[0], text[1]], [text[2]]);
    assert Items([text[5], text[6]]) == [] by {
      assert [text[5], text[6]][1..] == [text[6]];
    }
    assert Items([text[0], text[1]]) == [] by {
      assert [text[0], text[1]][1..] == [text[1]];
    }
  }
}
