/** The project half of `calculate()`: base hours, feature hours, total hours and price. */
module ProjectEstimator {
  import opened Numeric
  import opened Config

  /** `CONFIG.projectBaseHours[key] || 40`. */
  function BaseHours(key: string): (h: real)
    ensures key == "landing" ==> h == 12.0
    ensures key == "brochure" ==> h == 24.0
    ensures key == "blog" ==> h == 30.0
    ensures key == "ecommerce" ==> h == 60.0
    ensures key == "webapp" ==> h == 80.0
    ensures key == "custom" ==> h == 40.0
    ensures key !in {"landing", "brochure", "blog", "ecommerce", "webapp", "custom"} ==> h == 40.0
  {
    if key in ProjectBaseHours && ProjectBaseHours[key] != 0.0 then ProjectBaseHours[key]
    else FallbackBaseHours
  }

  /** A feature checkbox: whether it carries the `checked` class, and `parseInt` of its hours. */
  datatype CheckboxItem = CheckboxItem(checked: bool, hours: Option<int>)

  /** `parseInt(item.dataset.hours) || 0`: an unparsable value counts as 0. */
  function ItemHours(item: CheckboxItem): (h: int)
    ensures item.hours.Some? ==> h == item.hours.value
    ensures item.hours.None? ==> h == 0
  {
    match item.hours
    case Some(h) => h
    case None => 0
  }

  /** Hours of the checked items among `items`, summed from the end. */
  function SumChecked(items: seq<CheckboxItem>): (total: int)
    ensures (forall i :: 0 <= i < |items| ==> !items[i].checked) ==> total == 0
  {
    if items == [] then 0
    else
      var last := items[|items| - 1];
      SumChecked(items[..|items| - 1]) + (if last.checked then ItemHours(last) else 0)
  }

  /** The checked items, in order. */
  function Checked(items: seq<CheckboxItem>): (r: seq<CheckboxItem>)
    ensures forall i :: 0 <= i < |r| ==> r[i].checked
    ensures |r| <= |items|
  {
    if items == [] then []
    else
      var last := items[|items| - 1];
      Checked(items[..|items| - 1]) + (if last.checked then [last] else [])
  }

  /** Hours of every item, checked or not. */
  function SumHours(items: seq<CheckboxItem>): (total: int)
  {
    if items == [] then 0 else SumHours(items[..|items| - 1]) + ItemHours(items[|items| - 1])
  }

  /** The feature total is the plain sum over the checked items only. */
  lemma {:induction false} SumCheckedIsSumOfChecked(items: seq<CheckboxItem>)
    ensures SumChecked(items) == SumHours(Checked(items))
  {
    if items != [] {
      var init, last := items[..|items| - 1], items[|items| - 1];
      SumCheckedIsSumOfChecked(init);
      SumHoursAppend(Checked(init), if last.checked then [last] else []);
    }
  }

  lemma {:induction false} SumHoursAppend(a: seq<CheckboxItem>, b: seq<CheckboxItem>)
    ensures SumHours(a + b) == SumHours(a) + SumHours(b)
  {
    if b != [] {
      assert (a + b)[..|a + b| - 1] == a + b[..|b| - 1];
      SumHoursAppend(a, b[..|b| - 1]);
    } else {
      assert a + b == a;
    }
  }

  /** The feature total splits over any split of the checkbox list. */
  lemma {:induction false} SumCheckedAppend(a: seq<CheckboxItem>, b: seq<CheckboxItem>)
    ensures SumChecked(a + b) == SumChecked(a) + SumChecked(b)
  {
    if b != [] {
      assert (a + b)[..|a + b| - 1] == a + b[..|b| - 1];
      SumCheckedAppend(a, b[..|b| - 1]);
    } else {
      assert a + b == a;
    }
  }

  /** With no negative hour values on the page, the feature total is non-negative. */
  lemma {:induction false} SumCheckedNonNegative(items: seq<CheckboxItem>)
    requires forall i :: 0 <= i < |items| ==> ItemHours(items[i]) >= 0
    ensures SumChecked(items) >= 0
  {
    if items != [] {
      SumCheckedNonNegative(items[..|items| - 1]);
    }
  }

  /**
   * Clicking a checkbox toggles its `checked` class: the feature total moves
   * by exactly that item's hours, up when it becomes checked and down otherwise.
   */
  lemma ToggleChangesTotalByItem(items: seq<CheckboxItem>, k: nat)
    requires k < |items|
    ensures var toggled := items[k := items[k].(checked := !items[k].checked)];
      SumChecked(toggled)
      == SumChecked(items) + (if items[k].checked then -ItemHours(items[k]) else ItemHours(items[k]))
  {
    var toggled := items[k := items[k].(checked := !items[k].checked)];
    var pre, post := items[..k], items[k + 1..];
    assert items == pre + [items[k]] + post;
    assert toggled == pre + [toggled[k]] + post;
    SumCheckedAppend(pre + [items[k]], post);
    SumCheckedAppend(pre, [items[k]]);
    SumCheckedAppend(pre + [toggled[k]], post);
    SumCheckedAppend(pre, [toggled[k]]);
    assert SumChecked([items[k]]) == (if items[k].checked then ItemHours(items[k]) else 0);
    assert SumChecked([toggled[k]]) == (if toggled[k].checked then ItemHours(items[k]) else 0);
  }

  /** The `forEach` over the checkbox items that accumulates `featureHours`. */
  method FeatureHours(items: seq<CheckboxItem>) returns (featureHours: int)
    ensures featureHours == SumChecked(items)
  {
    featureHours := 0;
    var i := 0;
    while i < |items|
      invariant 0 <= i <= |items|
      invariant featureHours == SumChecked(items[..i])
    {
      var item := items[i];
      if item.checked {
        featureHours := featureHours + ItemHours(item);
      }
      assert items[..i + 1][..i] == items[..i];
      i := i + 1;
    }
    assert items[..i] == items;
  }

  /** `Math.ceil((baseHours + featureHours) * complexityMultiplier)`. */
  function TotalHours(baseHours: real, featureHours: int, complexity: real): (h: int)
    ensures h as real >= (baseHours + featureHours as real) * complexity
    ensures (h - 1) as real < (baseHours + featureHours as real) * complexity
  {
    Ceil((baseHours + featureHours as real) * complexity)
  }

  /** A multiplier of at least 1 never estimates fewer hours than base plus features. */
  lemma TotalHoursAtLeastUnscaled(baseHours: real, featureHours: int, complexity: real)
    requires baseHours + featureHours as real >= 0.0 && complexity >= 1.0
    ensures TotalHours(baseHours, featureHours, complexity) as real >= baseHours + featureHours as real
  {
  }

  /** More complexity never means fewer hours (for a non-negative hour sum). */
  lemma TotalHoursMonotoneInComplexity(baseHours: real, featureHours: int, c1: real, c2: real)
    requires baseHours + featureHours as real >= 0.0 && c1 <= c2
    ensures TotalHours(baseHours, featureHours, c1) <= TotalHours(baseHours, featureHours, c2)
  {
  }

  /** More base or feature hours never mean fewer total hours (for a non-negative multiplier). */
  lemma TotalHoursMonotoneInHours(base1: real, feature1: int, base2: real, feature2: int, complexity: real)
    requires base1 + feature1 as real <= base2 + feature2 as real && complexity >= 0.0
    ensures TotalHours(base1, feature1, complexity) <= TotalHours(base2, feature2, complexity)
  {
  }

  /** The project figures that `calculate()` computes and displays. */
  datatype Estimate = Estimate(baseHours: real, featureHours: int, totalHours: int, projectTotal: int)

  /** Lines 121 and 130-131, given the feature total from the loop. */
  function EstimateProject(key: string, featureHours: int, complexity: real, targetRate: int): (e: Estimate)
    ensures e.baseHours == BaseHours(key) && e.featureHours == featureHours
    ensures e.totalHours as real >= (e.baseHours + featureHours as real) * complexity
    ensures (e.totalHours - 1) as real < (e.baseHours + featureHours as real) * complexity
    ensures e.projectTotal == e.totalHours * targetRate
  {
    var baseHours := BaseHours(key);
    var totalHours := TotalHours(baseHours, featureHours, complexity);
    Estimate(baseHours, featureHours, totalHours, totalHours * targetRate)
  }

  /** Examples: a landing page at £45 an hour, plain and at complexity 1.5. */
  lemma ExampleLandingPage()
    ensures EstimateProject("landing", 0, 1.0, 45) == Estimate(12.0, 0, 12, 540)
    ensures EstimateProject("landing", 0, 1.5, 45) == Estimate(12.0, 0, 18, 810)
    ensures EstimateProject("unknown", 0, 1.0, 45).baseHours == 40.0
  {
  }
}
