/** `updateComplexityMeter`: hours to a level 1..5, and the classes of the meter's bars. */
module ComplexityMeter {

  /** The hour thresholds a project must strictly exceed to climb a level. */
  const Thresholds: seq<int> := [20, 40, 60, 80]

  /** How many of `thresholds` the hours strictly exceed. */
  function Exceeded(hours: int, thresholds: seq<int>): (n: nat)
    ensures n <= |thresholds|
  {
    if thresholds == [] then 0
    else (if hours > thresholds[0] then 1 else 0) + Exceeded(hours, thresholds[1..])
  }

  /** The level the meter shows: one plus the number of thresholds exceeded. */
  function Level(hours: int): (level: int)
    ensures 1 <= level <= 5
  {
    1 + Exceeded(hours, Thresholds)
  }

  /** The count of exceeded thresholds, one threshold at a time. */
  lemma ExceededEach(hours: int)
    ensures Exceeded(hours, Thresholds)
         == (if hours > 20 then 1 else 0) + (if hours > 40 then 1 else 0)
          + (if hours > 60 then 1 else 0) + (if hours > 80 then 1 else 0)
  {
    var one: seq<int>, two: seq<int>, three: seq<int> := [80], [60, 80], [40, 60, 80];
    assert one[1..] == [] && two[1..] == one && three[1..] == two && Thresholds[1..] == three;
    assert Exceeded(hours, one) == (if hours > 80 then 1 else 0);
    assert Exceeded(hours, two) == (if hours > 60 then 1 else 0) + Exceeded(hours, one);
    assert Exceeded(hours, three) == (if hours > 40 then 1 else 0) + Exceeded(hours, two);
  }

  /** The chain of `if (hours > t) level = …` statements. */
  method ComplexityLevel(hours: int) returns (level: int)
    ensures level == Level(hours)
    ensures 1 <= level <= 5
  {
    level := 1;
    if hours > 20 { level := 2; }
    if hours > 40 { level := 3; }
    if hours > 60 { level := 4; }
    if hours > 80 { level := 5; }
    ExceededEach(hours);
  }

  /** Exceeding is monotone in the hours. */
  lemma {:induction false} ExceededMonotone(h1: int, h2: int, thresholds: seq<int>)
    requires h1 <= h2
    ensures Exceeded(h1, thresholds) <= Exceeded(h2, thresholds)
  {
    if thresholds != [] {
      ExceededMonotone(h1, h2, thresholds[1..]);
    }
  }

  /** Hours that no threshold separates are counted alike. */
  lemma {:induction false} ExceededStepsOnlyAtThresholds(h1: int, h2: int, thresholds: seq<int>)
    requires h1 <= h2
    requires forall i :: 0 <= i < |thresholds| ==> !(h1 <= thresholds[i] < h2)
    ensures Exceeded(h1, thresholds) == Exceeded(h2, thresholds)
  {
    if thresholds != [] {
      assert !(h1 <= thresholds[0] < h2);
      forall i | 0 <= i < |thresholds[1..]|
        ensures !(h1 <= thresholds[1..][i] < h2)
      {
        assert thresholds[1..][i] == thresholds[i + 1];
      }
      ExceededStepsOnlyAtThresholds(h1, h2, thresholds[1..]);
    }
  }

  /** The level never drops as the hours grow. */
  lemma LevelMonotone(h1: int, h2: int)
    requires h1 <= h2
    ensures Level(h1) <= Level(h2)
  {
    ExceededMonotone(h1, h2, Thresholds);
  }

  /** The level changes only where an hour count crosses 20, 40, 60 or 80. */
  lemma LevelStepsOnlyAtThresholds(h1: int, h2: int)
    requires h1 <= h2
    requires forall t :: t in Thresholds ==> !(h1 <= t < h2)
    ensures Level(h1) == Level(h2)
  {
    forall i | 0 <= i < |Thresholds| ensures !(h1 <= Thresholds[i] < h2) {
      assert Thresholds[i] in Thresholds;
    }
    ExceededStepsOnlyAtThresholds(h1, h2, Thresholds);
  }

  /** The boundaries 20 and 21, and the examples 45 and 85. */
  lemma LevelExamples()
    ensures Level(20) == 1 && Level(21) == 2 && Level(45) == 3 && Level(85) == 5
  {
  }

  /** The colour of the active bars. */
  datatype Tier = Normal | Medium | High

  /** `high` from level 4, `medium` at level 3, neither below. */
  function TierOf(level: int): (t: Tier)
    ensures t == High <==> level >= 4
    ensures t == Medium <==> level == 3
  {
    if level >= 4 then High else if level >= 3 then Medium else Normal
  }

  /** In hours: high above 60, medium above 40 up to 60, normal up to 40. */
  lemma TierOfHours(hours: int)
    ensures TierOf(Level(hours)) == High <==> hours > 60
    ensures TierOf(Level(hours)) == Medium <==> 40 < hours <= 60
    ensures TierOf(Level(hours)) == Normal <==> hours <= 40
  {
    ExceededEach(hours);
  }

  /** The three classes the meter manages; a bar's other classes are left alone. */
  const MeterClasses: set<string> := {"active", "medium", "high"}

  /** The `forEach` over the bars: clear the meter classes, then mark the first `level` bars. */
  method UpdateBars(bars: array<set<string>>, level: int)
    modifies bars
    ensures forall i :: 0 <= i < bars.Length ==> bars[i] - MeterClasses == old(bars[i]) - MeterClasses
    ensures forall i :: 0 <= i < bars.Length ==> ("active" in bars[i] <==> i < level)
    ensures forall i :: 0 <= i < bars.Length ==> ("high" in bars[i] <==> i < level && level >= 4)
    ensures forall i :: 0 <= i < bars.Length ==> ("medium" in bars[i] <==> i < level && level == 3)
  {
    for index := 0 to bars.Length
      invariant forall i :: index <= i < bars.Length ==> bars[i] == old(bars[i])
      invariant forall i :: 0 <= i < index ==> bars[i] - MeterClasses == old(bars[i]) - MeterClasses
      invariant forall i :: 0 <= i < index ==> ("active" in bars[i] <==> i < level)
      invariant forall i :: 0 <= i < index ==> ("high" in bars[i] <==> i < level && level >= 4)
      invariant forall i :: 0 <= i < index ==> ("medium" in bars[i] <==> i < level && level == 3)
    {
      var classes := bars[index] - MeterClasses;
      if index < level {
        classes := classes + {"active"};
        if level >= 4 {
          classes := classes + {"high"};
        } else if level >= 3 {
          classes := classes + {"medium"};
        }
      }
      bars[index] := classes;
    }
  }

  /** `updateComplexityMeter(hours)`: the level, then the bars. */
  method UpdateComplexityMeter(bars: array<set<string>>, hours: int) returns (level: int)
    modifies bars
    ensures level == Level(hours)
    ensures forall i :: 0 <= i < bars.Length ==> bars[i] - MeterClasses == old(bars[i]) - MeterClasses
    ensures forall i :: 0 <= i < bars.Length ==> ("active" in bars[i] <==> i < level)
    ensures forall i :: 0 <= i < bars.Length ==> ("high" in bars[i] <==> i < level && TierOf(level) == High)
    ensures forall i :: 0 <= i < bars.Length ==> ("medium" in bars[i] <==> i < level && TierOf(level) == Medium)
  {
    level := ComplexityLevel(hours);
    UpdateBars(bars, level);
  }
}
