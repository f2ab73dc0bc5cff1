/** The earlier `ChartYAxis`: a y axis whose computed range gets extra space above
  * and below, in proportion to the data range, together with the range handling it
  * inherits from its axis base class. */
module ChartYAxis {
  import opened Common
  import AxisBase

  datatype LabelPosition = OutsideChart | InsideChart

  /** The range the inherited `axisMaximum` setter records as written: the distance
    * from the new maximum to itself, since `_axisMaximum` already holds it. */
  function AxisMaximumRangeAsWritten(axisMinimum: real, newValue: real): (r: real)
  {
    var axisMaximum := newValue;
    Abs(axisMaximum - newValue)
  }

  /** As written, setting a maximum of 5 over a minimum of 0 records a range of 0
    * rather than 5. */
  lemma AxisMaximumRangeAsWrittenIsZero()
    ensures AxisMaximumRangeAsWritten(0.0, 5.0) == 0.0 != Abs(5.0 - 0.0)
  {
  }

  /** The minimum `calculate` computes for a non-custom minimum. */
  function SpacedMin(min: real, max: real, spaceBottom: real): real
  {
    AxisBase.WidenedRange(min, max).0 - Abs(max - min) * spaceBottom
  }

  /** The maximum `calculate` computes for a non-custom maximum. */
  function SpacedMax(min: real, max: real, spaceTop: real): real
  {
    AxisBase.WidenedRange(min, max).1 + Abs(max - min) * spaceTop
  }

  class ChartYAxis {
    /** `isEnabled`, from the component base class. */
    var enabled: bool
    var drawLabelsEnabled: bool
    var entries: seq<real>
    var labelCount: int
    var forceLabelsEnabled: bool
    var drawTopYLabelEntryEnabled: bool
    var showOnlyMinMaxEnabled: bool
    var inverted: bool
    var granularityEnabled: bool
    var granularity: real
    var spaceTop: real
    var spaceBottom: real
    var labelPosition: LabelPosition
    var axisDependency: AxisDependency
    var customAxisMin: bool
    var customAxisMax: bool
    var axisMinimum: real
    var axisMaximum: real
    var axisRange: real

    ghost predicate Valid()
      reads this
    {
      2 <= labelCount <= 25 && axisRange == Abs(axisMaximum - axisMinimum)
    }

    /** `init(position:)`; `init()` is the same with the left side. */
    constructor (position: AxisDependency)
      ensures Valid() && axisDependency == position
      ensures enabled && drawLabelsEnabled && entries == [] && labelCount == 6 && !forceLabelsEnabled
      ensures drawTopYLabelEntryEnabled && !showOnlyMinMaxEnabled && !inverted
      ensures !granularityEnabled && granularity == 1.0
      ensures spaceTop == 0.1 && spaceBottom == 0.1 && labelPosition == OutsideChart
      ensures !customAxisMin && !customAxisMax && axisMinimum == 0.0 && axisMaximum == 0.0 && axisRange == 0.0
    {
      enabled := true;
      drawLabelsEnabled := true;
      entries := [];
      labelCount := 6;
      forceLabelsEnabled := false;
      drawTopYLabelEntryEnabled := true;
      showOnlyMinMaxEnabled := false;
      inverted := false;
      granularityEnabled := false;
      granularity := 1.0;
      spaceTop, spaceBottom := 0.1, 0.1;
      labelPosition := OutsideChart;
      axisDependency := position;
      customAxisMin, customAxisMax := false, false;
      axisMinimum, axisMaximum, axisRange := 0.0, 0.0, 0.0;
    }

    /** `setLabelCount(_:force:)`: the count clamped into [2, 25], forcing as asked. */
    method SetLabelCount(count: int, force: bool)
      requires Valid()
      modifies this
      ensures Valid()
      ensures labelCount == AxisBase.ClampLabelCount(count) && forceLabelsEnabled == force
      ensures axisMinimum == old(axisMinimum) && axisMaximum == old(axisMaximum) && axisRange == old(axisRange)
      ensures customAxisMin == old(customAxisMin) && customAxisMax == old(customAxisMax)
      ensures granularityEnabled == old(granularityEnabled) && entries == old(entries)
    {
      labelCount := count;
      if labelCount > 25 {
        labelCount := 25;
      }
      if labelCount < 2 {
        labelCount := 2;
      }
      forceLabelsEnabled := force;
    }

    /** The `labelCount` setter: `setLabelCount` without forcing. */
    method SetLabelCountProperty(newValue: int)
      requires Valid()
      modifies this
      ensures Valid()
      ensures labelCount == AxisBase.ClampLabelCount(newValue) && !forceLabelsEnabled
      ensures axisMinimum == old(axisMinimum) && axisMaximum == old(axisMaximum) && axisRange == old(axisRange)
      ensures customAxisMin == old(customAxisMin) && customAxisMax == old(customAxisMax)
    {
      SetLabelCount(newValue, false);
    }

    /** The `granularity` setter: stores the value and turns granularity on. */
    method SetGranularity(newValue: real)
      modifies this
      ensures granularity == newValue && granularityEnabled
      ensures labelCount == old(labelCount) && forceLabelsEnabled == old(forceLabelsEnabled)
      ensures axisMinimum == old(axisMinimum) && axisMaximum == old(axisMaximum) && axisRange == old(axisRange)
    {
      granularity := newValue;
      granularityEnabled := true;
    }

    /** `needsOffset`: the axis takes horizontal room exactly when it is enabled,
      * draws its labels, and draws them outside the chart. */
    predicate NeedsOffset()
      reads this
      ensures NeedsOffset() <==> enabled && drawLabelsEnabled && labelPosition == OutsideChart
      ensures labelPosition == InsideChart ==> !NeedsOffset()
    {
      if enabled && drawLabelsEnabled && labelPosition == OutsideChart then true else false
    }

    /** `resetCustomAxisMin()`. */
    method ResetCustomAxisMin()
      modifies this
      ensures !customAxisMin && customAxisMax == old(customAxisMax)
      ensures axisMinimum == old(axisMinimum) && axisMaximum == old(axisMaximum) && axisRange == old(axisRange)
      ensures labelCount == old(labelCount)
    {
      customAxisMin := false;
    }

    /** `resetCustomAxisMax()`. */
    method ResetCustomAxisMax()
      modifies this
      ensures !customAxisMax && customAxisMin == old(customAxisMin)
      ensures axisMinimum == old(axisMinimum) && axisMaximum == old(axisMaximum) && axisRange == old(axisRange)
      ensures labelCount == old(labelCount)
    {
      customAxisMax := false;
    }

    /** The inherited `axisMinimum` (`axisMinValue`) setter: a custom minimum, and the
      * range to the maximum. */
    method SetAxisMinimum(newValue: real)
      requires Valid()
      modifies this
      ensures Valid()
      ensures customAxisMin && axisMinimum == newValue && axisMaximum == old(axisMaximum)
      ensures customAxisMax == old(customAxisMax) && labelCount == old(labelCount)
    {
      customAxisMin := true;
      axisMinimum := newValue;
      axisRange := Abs(axisMaximum - newValue);
    }

    /** The inherited `axisMaximum` (`axisMaxValue`) setter, recording the range from
      * the minimum (see Findings). */
    method SetAxisMaximum(newValue: real)
      requires Valid()
      modifies this
      ensures Valid()
      ensures customAxisMax && axisMaximum == newValue && axisMinimum == old(axisMinimum)
      ensures customAxisMin == old(customAxisMin) && labelCount == old(labelCount)
    {
      customAxisMax := true;
      axisMaximum := newValue;
      axisRange := Abs(axisMaximum - axisMinimum);
    }

    /** The `startAtZeroEnabled` getter: a custom minimum of 0. */
    predicate StartAtZeroEnabled()
      reads this
    {
      customAxisMin && axisMinimum == 0.0
    }

    /** The `startAtZeroEnabled` setter: true sets a custom minimum of 0, false drops
      * the custom minimum; either way the getter then reads back what was set. */
    method SetStartAtZeroEnabled(newValue: bool)
      requires Valid()
      modifies this
      ensures Valid()
      ensures StartAtZeroEnabled() == newValue
      ensures newValue ==> customAxisMin && axisMinimum == 0.0
      ensures !newValue ==> !customAxisMin && axisMinimum == old(axisMinimum)
      ensures axisMaximum == old(axisMaximum) && customAxisMax == old(customAxisMax)
    {
      if newValue {
        SetAxisMinimum(0.0);
      } else {
        ResetCustomAxisMin();
      }
    }

    /** `calculate(min:max:)`: custom ends kept as they are; a computed end is the
      * data's, widened when the ends coincide and then pushed out by `spaceBottom`
      * (`spaceTop`) times the range measured before widening. */
    method Calculate(dataMin: real, dataMax: real)
      requires Valid()
      modifies this
      ensures Valid()
      ensures old(customAxisMin) ==> axisMinimum == old(axisMinimum)
      ensures old(customAxisMax) ==> axisMaximum == old(axisMaximum)
      ensures var min := if old(customAxisMin) then old(axisMinimum) else dataMin;
        var max := if old(customAxisMax) then old(axisMaximum) else dataMax;
        (!old(customAxisMin) ==> axisMinimum == SpacedMin(min, max, spaceBottom)) &&
        (!old(customAxisMax) ==> axisMaximum == SpacedMax(min, max, spaceTop))
      ensures old(customAxisMin) && old(customAxisMax) ==> axisRange == old(Abs(axisMaximum - axisMinimum))
      ensures customAxisMin == old(customAxisMin) && customAxisMax == old(customAxisMax)
      ensures spaceTop == old(spaceTop) && spaceBottom == old(spaceBottom)
      ensures labelCount == old(labelCount) && entries == old(entries)
    {
      var min := if customAxisMin then axisMinimum else dataMin;
      var max := if customAxisMax then axisMaximum else dataMax;
      var range := Abs(max - min);
      if range == 0.0 {
        max := max + 1.0;
        min := min - 1.0;
      }
      if !customAxisMin {
        var bottomSpace := range * spaceBottom;
        axisMinimum := min - bottomSpace;
      }
      if !customAxisMax {
        var topSpace := range * spaceTop;
        axisMaximum := max + topSpace;
      }
      axisRange := Abs(axisMaximum - axisMinimum);
    }
  }

  /** With non-negative spaces and ordered data, the computed axis covers the data
    * and the range grows by the two spaces; for data of zero range the spaces add
    * nothing (the range is taken before widening) and the axis is the data ± 1. */
  lemma SpacedRangeCoversData(dataMin: real, dataMax: real, spaceBottom: real, spaceTop: real)
    requires dataMin <= dataMax && spaceBottom >= 0.0 && spaceTop >= 0.0
    ensures SpacedMin(dataMin, dataMax, spaceBottom) < dataMin
         || (dataMin < dataMax && spaceBottom == 0.0 && SpacedMin(dataMin, dataMax, spaceBottom) == dataMin)
    ensures SpacedMax(dataMin, dataMax, spaceTop) > dataMax
         || (dataMin < dataMax && spaceTop == 0.0 && SpacedMax(dataMin, dataMax, spaceTop) == dataMax)
    ensures dataMin < dataMax ==>
      SpacedMax(dataMin, dataMax, spaceTop) - SpacedMin(dataMin, dataMax, spaceBottom)
        == (dataMax - dataMin) * (1.0 + spaceBottom + spaceTop)
    ensures dataMin == dataMax ==>
      SpacedMin(dataMin, dataMax, spaceBottom) == dataMin - 1.0 &&
      SpacedMax(dataMin, dataMax, spaceTop) == dataMax + 1.0
  {
    if dataMin < dataMax {
      assert Abs(dataMax - dataMin) == dataMax - dataMin;
      assert (dataMax - dataMin) * spaceBottom >= 0.0;
      assert (dataMax - dataMin) * spaceTop >= 0.0;
    }
  }
}
