/** `AxisBase`: the settings every axis shares, namely the label count, granularity,
  * limit lines and the custom or computed axis range. */
module AxisBase {
  import opened Common

  /** A `ChartLimitLine`. Lines are compared by identity (`===`), as object references are. */
  class LimitLine {
    var limit: real
    var text: string

    constructor (limit: real, text: string)
      ensures this.limit == limit && this.text == text
    {
      this.limit := limit;
      this.text := text;
    }
  }

  /** The `labelCount` bounds: at most 25, at least 2. */
  function ClampLabelCount(count: int): (r: int)
    ensures 2 <= r <= 25
    ensures 2 <= count <= 25 ==> r == count
    ensures count > 25 ==> r == 25
    ensures count < 2 ==> r == 2
  {
    var c := if count > 25 then 25 else count;
    if c < 2 then 2 else c
  }

  /** Clamping twice is clamping once. */
  lemma ClampLabelCountIdempotent(count: int)
    ensures ClampLabelCount(ClampLabelCount(count)) == ClampLabelCount(count)
  {
  }

  /** The range `calculate(min:max:)` settles on: the start values, pushed one apart
    * each way when they coincide. */
  function WidenedRange(min: real, max: real): (r: (real, real))
    ensures Abs(max - min) != 0.0 ==> r == (min, max)
    ensures Abs(max - min) == 0.0 ==> r == (min - 1.0, max + 1.0)
    ensures Abs(r.1 - r.0) > 0.0
  {
    if Abs(max - min) == 0.0 then (min - 1.0, max + 1.0) else (min, max)
  }

  /** Widening a range that is not empty changes nothing, so widening is idempotent. */
  lemma WidenedRangeIdempotent(min: real, max: real)
    ensures var r := WidenedRange(min, max); WidenedRange(r.0, r.1) == r
  {
  }

  /** A first occurrence of `x` found by scanning is the one `IndexOf` names, and
    * dropping it takes exactly one `x` out of the multiset. */
  lemma FirstHitRemoved<T>(s: seq<T>, x: T, i: int)
    requires 0 <= i < |s| && s[i] == x && x !in s[..i]
    ensures IndexOf(s, x) == Some(i)
    ensures multiset(s[..i] + s[i + 1..]) + multiset{x} == multiset(s)
  {
    assert s == s[..i] + [s[i]] + s[i + 1..];
  }

  class AxisBase {
    var labelCount: int
    var forceLabelsEnabled: bool
    var granularityEnabled: bool
    var granularity: real
    /** `_isCenterAxisLabelsEnabled`, the stored flag. */
    var centerAxisLabelsFlag: bool
    var entries: seq<real>
    var limitLines: seq<LimitLine>
    var spaceMin: real
    var spaceMax: real
    var usingCustomAxisMin: bool
    var usingCustomAxisMax: bool
    var axisMinimum: real
    var axisMaximum: real
    var axisRange: real

    /** The label count stays within its bounds and the range is the distance
      * between the two ends. */
    ghost predicate Valid()
      reads this
    {
      2 <= labelCount <= 25 && axisRange == Abs(axisMaximum - axisMinimum)
    }

    /** `init()`: six labels, granularity 1 but off, no limit lines, a zero range. */
    constructor ()
      ensures Valid()
      ensures labelCount == 6 && !forceLabelsEnabled && !granularityEnabled && granularity == 1.0
      ensures !centerAxisLabelsFlag && entries == [] && limitLines == []
      ensures spaceMin == 0.0 && spaceMax == 0.0 && !usingCustomAxisMin && !usingCustomAxisMax
      ensures axisMinimum == 0.0 && axisMaximum == 0.0 && axisRange == 0.0
    {
      labelCount := 6;
      forceLabelsEnabled := false;
      granularityEnabled := false;
      granularity := 1.0;
      centerAxisLabelsFlag := false;
      entries := [];
      limitLines := [];
      spaceMin, spaceMax := 0.0, 0.0;
      usingCustomAxisMin, usingCustomAxisMax := false, false;
      axisMinimum, axisMaximum, axisRange := 0.0, 0.0, 0.0;
    }

    /** `entryCount`. */
    function EntryCount(): (n: nat)
      reads this
      ensures n == |entries|
    {
      |entries|
    }

    /** `isCenterAxisLabelsEnabled`: the flag, and only while there are entries. */
    predicate IsCenterAxisLabelsEnabled()
      reads this
      ensures IsCenterAxisLabelsEnabled() ==> centerAxisLabelsFlag
      ensures entries == [] ==> !IsCenterAxisLabelsEnabled()
      ensures centerAxisLabelsFlag && entries != [] ==> IsCenterAxisLabelsEnabled()
    {
      centerAxisLabelsFlag && EntryCount() > 0
    }

    /** The `labelCount` setter: clamped into [2, 25], and forcing is switched off. */
    method SetLabelCountProperty(newValue: int)
      requires Valid()
      modifies this
      ensures Valid()
      ensures labelCount == ClampLabelCount(newValue) && !forceLabelsEnabled
      ensures granularityEnabled == old(granularityEnabled) && granularity == old(granularity)
      ensures limitLines == old(limitLines) && entries == old(entries)
      ensures axisMinimum == old(axisMinimum) && axisMaximum == old(axisMaximum) && axisRange == old(axisRange)
      ensures usingCustomAxisMin == old(usingCustomAxisMin) && usingCustomAxisMax == old(usingCustomAxisMax)
    {
      labelCount := newValue;
      if labelCount > 25 {
        labelCount := 25;
      }
      if labelCount < 2 {
        labelCount := 2;
      }
      forceLabelsEnabled := false;
    }

    /** `setLabelCount(_:force:)`: the clamped count, and forcing as asked. */
    method SetLabelCount(count: int, force: bool)
      requires Valid()
      modifies this
      ensures Valid()
      ensures labelCount == ClampLabelCount(count) && forceLabelsEnabled == force
      ensures granularityEnabled == old(granularityEnabled) && granularity == old(granularity)
      ensures limitLines == old(limitLines) && entries == old(entries)
      ensures axisMinimum == old(axisMinimum) && axisMaximum == old(axisMaximum) && axisRange == old(axisRange)
      ensures usingCustomAxisMin == old(usingCustomAxisMin) && usingCustomAxisMax == old(usingCustomAxisMax)
    {
      SetLabelCountProperty(count);
      forceLabelsEnabled := force;
    }

    /** The `granularity` setter: stores the value and turns granularity on. */
    method SetGranularity(newValue: real)
      modifies this
      ensures granularity == newValue && granularityEnabled
      ensures labelCount == old(labelCount) && forceLabelsEnabled == old(forceLabelsEnabled)
      ensures limitLines == old(limitLines) && entries == old(entries)
      ensures axisMinimum == old(axisMinimum) && axisMaximum == old(axisMaximum) && axisRange == old(axisRange)
      ensures usingCustomAxisMin == old(usingCustomAxisMin) && usingCustomAxisMax == old(usingCustomAxisMax)
    {
      granularity := newValue;
      granularityEnabled := true;
    }

    /** `addLimitLine(_:)`. */
    method AddLimitLine(line: LimitLine)
      modifies this
      ensures limitLines == old(limitLines) + [line]
      ensures labelCount == old(labelCount) && axisRange == old(axisRange)
      ensures axisMinimum == old(axisMinimum) && axisMaximum == old(axisMaximum)
    {
      limitLines := limitLines + [line];
    }

    /** `removeLimitLine(_:)`: the first position holding this very line is dropped;
      * without one nothing changes. */
    method RemoveLimitLine(line: LimitLine)
      modifies this`limitLines
      ensures line !in old(limitLines) ==> limitLines == old(limitLines)
      ensures line in old(limitLines) ==> var i := IndexOf(old(limitLines), line).value;
        limitLines == old(limitLines)[..i] + old(limitLines)[i + 1..]
      ensures line in old(limitLines) ==> multiset(limitLines) + multiset{line} == multiset(old(limitLines))
    {
      var lines := limitLines;
      var i := 0;
      while i < |lines|
        invariant 0 <= i <= |lines|
        invariant line !in lines[..i]
      {
        if lines[i] == line {
          FirstHitRemoved(lines, line, i);
          limitLines := lines[..i] + lines[i + 1..];
          return;
        }
        assert lines[..i + 1] == lines[..i] + [lines[i]];
        i := i + 1;
      }
      assert lines[..i] == lines;
    }

    /** `removeAllLimitLines()`. */
    method RemoveAllLimitLines()
      modifies this
      ensures limitLines == []
      ensures labelCount == old(labelCount) && axisRange == old(axisRange)
      ensures axisMinimum == old(axisMinimum) && axisMaximum == old(axisMaximum)
    {
      limitLines := [];
    }

    /** `resetCustomAxisMin()`: the minimum is computed again, its value is kept. */
    method ResetCustomAxisMin()
      modifies this
      ensures !usingCustomAxisMin && usingCustomAxisMax == old(usingCustomAxisMax)
      ensures axisMinimum == old(axisMinimum) && axisMaximum == old(axisMaximum) && axisRange == old(axisRange)
      ensures labelCount == old(labelCount) && limitLines == old(limitLines)
    {
      usingCustomAxisMin := false;
    }

    /** `resetCustomAxisMax()`. */
    method ResetCustomAxisMax()
      modifies this
      ensures !usingCustomAxisMax && usingCustomAxisMin == old(usingCustomAxisMin)
      ensures axisMinimum == old(axisMinimum) && axisMaximum == old(axisMaximum) && axisRange == old(axisRange)
      ensures labelCount == old(labelCount) && limitLines == old(limitLines)
    {
      usingCustomAxisMax := false;
    }

    /** The `axisMinimum` setter: a custom minimum, and the range to the maximum. */
    method SetAxisMinimum(newValue: real)
      requires Valid()
      modifies this
      ensures Valid()
      ensures usingCustomAxisMin && axisMinimum == newValue && axisMaximum == old(axisMaximum)
      ensures axisRange == Abs(old(axisMaximum) - newValue)
      ensures usingCustomAxisMax == old(usingCustomAxisMax)
      ensures labelCount == old(labelCount) && limitLines == old(limitLines)
    {
      usingCustomAxisMin := true;
      axisMinimum := newValue;
      axisRange := Abs(axisMaximum - newValue);
    }

    /** The `axisMaximum` setter: a custom maximum, and the range from the minimum. */
    method SetAxisMaximum(newValue: real)
      requires Valid()
      modifies this
      ensures Valid()
      ensures usingCustomAxisMax && axisMaximum == newValue && axisMinimum == old(axisMinimum)
      ensures axisRange == Abs(newValue - old(axisMinimum))
      ensures usingCustomAxisMin == old(usingCustomAxisMin)
      ensures labelCount == old(labelCount) && limitLines == old(limitLines)
    {
      usingCustomAxisMax := true;
      axisMaximum := newValue;
      axisRange := Abs(newValue - axisMinimum);
    }

    /** The minimum `calculate` starts from: the custom one, or the data's pushed out
      * by `spaceMin`. */
    function StartMin(dataMin: real): real
      reads this
    {
      if usingCustomAxisMin then axisMinimum else dataMin - spaceMin
    }

    /** The maximum `calculate` starts from. */
    function StartMax(dataMax: real): real
      reads this
    {
      if usingCustomAxisMax then axisMaximum else dataMax + spaceMax
    }

    /** `calculate(min:max:)`: a custom end kept, a computed one from the data and its
      * space, both pushed one apart when they coincide; the range is then positive. */
    method Calculate(dataMin: real, dataMax: real)
      requires Valid()
      modifies this
      ensures Valid() && axisRange > 0.0
      ensures (axisMinimum, axisMaximum) == old(WidenedRange(StartMin(dataMin), StartMax(dataMax)))
      ensures old(usingCustomAxisMin) && old(StartMax(dataMax)) != old(axisMinimum) ==> axisMinimum == old(axisMinimum)
      ensures usingCustomAxisMin == old(usingCustomAxisMin) && usingCustomAxisMax == old(usingCustomAxisMax)
      ensures labelCount == old(labelCount) && limitLines == old(limitLines) && entries == old(entries)
      ensures spaceMin == old(spaceMin) && spaceMax == old(spaceMax)
    {
      var min := if usingCustomAxisMin then axisMinimum else dataMin - spaceMin;
      var max := if usingCustomAxisMax then axisMaximum else dataMax + spaceMax;
      var range := Abs(max - min);
      if range == 0.0 {
        max := max + 1.0;
        min := min - 1.0;
      }
      axisMinimum := min;
      axisMaximum := max;
      axisRange := Abs(max - min);
    }
  }

  /** With both ends custom and apart, `calculate` keeps them as they are, whatever
    * the data. */
  lemma CalculateKeepsCustomEnds(min: real, max: real)
    requires min != max
    ensures WidenedRange(min, max) == (min, max)
  {
  }
}
