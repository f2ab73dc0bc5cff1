/** `ChartData`: the data sets of a chart and the bounds cached over them, overall
  * and per y axis. Data sets are values here, each with the axis it depends on, its
  * own cached bounds and its entries; a data set is identified by `id`, which stands
  * for object identity. */
module ChartData {
  import opened Common
  import DataSetCollection

  /** A data set as `ChartData` sees it. */
  datatype DataSet = DataSet(id: nat, axis: AxisDependency, bounds: Bounds, values: seq<Entry>)

  /** The bounds before anything is folded in. */
  const NoBounds := Bounds(GreatestFinite, -GreatestFinite, GreatestFinite, -GreatestFinite)

  /** `calcMinMax(dataSet:)` on the overall bounds: `b` widened to take in `d`. */
  function Widen(b: Bounds, d: Bounds): (r: Bounds)
    ensures r.xMin <= b.xMin && r.xMin <= d.xMin && (r.xMin == b.xMin || r.xMin == d.xMin)
    ensures r.xMax >= b.xMax && r.xMax >= d.xMax && (r.xMax == b.xMax || r.xMax == d.xMax)
    ensures r.yMin <= b.yMin && r.yMin <= d.yMin && (r.yMin == b.yMin || r.yMin == d.yMin)
    ensures r.yMax >= b.yMax && r.yMax >= d.yMax && (r.yMax == b.yMax || r.yMax == d.yMax)
  {
    Bounds(Min(b.xMin, d.xMin), Max(b.xMax, d.xMax), Min(b.yMin, d.yMin), Max(b.yMax, d.yMax))
  }

  /** The bounds of one entry. */
  function EntryBounds(e: Entry): Bounds
  {
    Bounds(e.x, e.x, e.y, e.y)
  }

  /** The overall bounds `calcMinMax()` folds over the data sets, in order. */
  function Overall(sets: seq<DataSet>): (b: Bounds)
    ensures forall k :: 0 <= k < |sets| ==>
      b.xMin <= sets[k].bounds.xMin && b.xMax >= sets[k].bounds.xMax &&
      b.yMin <= sets[k].bounds.yMin && b.yMax >= sets[k].bounds.yMax
    ensures b.xMin <= GreatestFinite && b.xMax >= -GreatestFinite
    ensures b.yMin <= GreatestFinite && b.yMax >= -GreatestFinite
    ensures sets == [] ==> b == NoBounds
  {
    if sets == [] then NoBounds
    else Widen(Overall(sets[..|sets| - 1]), sets[|sets| - 1].bounds)
  }

  /** `getFirstLeft`/`getFirstRight`: the first data set on `axis`. */
  function FirstOn(sets: seq<DataSet>, axis: AxisDependency): (r: Option<int>)
    ensures r.None? <==> forall k :: 0 <= k < |sets| ==> sets[k].axis != axis
    ensures r.Some? ==>
      0 <= r.value < |sets| && sets[r.value].axis == axis &&
      forall k :: 0 <= k < r.value ==> sets[k].axis != axis
  {
    if sets == [] then None
    else if sets[0].axis == axis then Some(0)
    else
      match FirstOn(sets[1..], axis)
      case None => None
      case Some(i) => Some(i + 1)
  }

  /** One pass of the per-axis loop of `calcMinMax()`: a data set on `axis` lowers
    * the minimum and raises the maximum, by `<` and `>`. */
  function AxisStep(p: (real, real), d: DataSet, axis: AxisDependency): (r: (real, real))
  {
    if d.axis != axis then p
    else (if d.bounds.yMin < p.0 then d.bounds.yMin else p.0,
          if d.bounds.yMax > p.1 then d.bounds.yMax else p.1)
  }

  /** The per-axis loop of `calcMinMax()`, from `(lo, hi)`, over the data sets in order. */
  function AxisFold(sets: seq<DataSet>, axis: AxisDependency, lo: real, hi: real): (r: (real, real))
    ensures r.0 <= lo && r.1 >= hi
    ensures forall k :: 0 <= k < |sets| && sets[k].axis == axis ==>
      r.0 <= sets[k].bounds.yMin && r.1 >= sets[k].bounds.yMax
  {
    if sets == [] then (lo, hi)
    else
      var init := sets[..|sets| - 1];
      assert forall k :: 0 <= k < |init| ==> init[k] == sets[k];
      AxisStep(AxisFold(init, axis, lo, hi), sets[|sets| - 1], axis)
  }

  /** The fold ends at its start or at a bound of a data set on the axis. */
  lemma {:induction false} AxisFoldAttained(sets: seq<DataSet>, axis: AxisDependency, lo: real, hi: real)
    ensures var r := AxisFold(sets, axis, lo, hi);
      (r.0 == lo || exists k :: 0 <= k < |sets| && sets[k].axis == axis && r.0 == sets[k].bounds.yMin) &&
      (r.1 == hi || exists k :: 0 <= k < |sets| && sets[k].axis == axis && r.1 == sets[k].bounds.yMax)
  {
    if sets != [] {
      var init := sets[..|sets| - 1];
      AxisFoldAttained(init, axis, lo, hi);
      assert forall k :: 0 <= k < |init| ==> init[k] == sets[k];
    }
  }

  /** The y range `calcMinMax()` caches for `axis`: folded from the first data set on
    * that axis, or `(DBL_MAX, -DBL_MAX)` when there is none. */
  function AxisRange(sets: seq<DataSet>, axis: AxisDependency): (r: (real, real))
  {
    match FirstOn(sets, axis)
    case None => (GreatestFinite, -GreatestFinite)
    case Some(i) => AxisFold(sets, axis, sets[i].bounds.yMin, sets[i].bounds.yMax)
  }

  /** The cached range of an axis is exact: with data sets on the axis, it is the
    * least minimum and the greatest maximum among them; without, `(DBL_MAX, -DBL_MAX)`. */
  lemma AxisRangeExact(sets: seq<DataSet>, axis: AxisDependency)
    ensures (forall k :: 0 <= k < |sets| ==> sets[k].axis != axis) ==>
      AxisRange(sets, axis) == (GreatestFinite, -GreatestFinite)
    ensures forall k :: 0 <= k < |sets| && sets[k].axis == axis ==>
      AxisRange(sets, axis).0 <= sets[k].bounds.yMin && AxisRange(sets, axis).1 >= sets[k].bounds.yMax
    ensures (exists k :: 0 <= k < |sets| && sets[k].axis == axis) ==>
      (exists k :: 0 <= k < |sets| && sets[k].axis == axis && AxisRange(sets, axis).0 == sets[k].bounds.yMin) &&
      (exists k :: 0 <= k < |sets| && sets[k].axis == axis && AxisRange(sets, axis).1 == sets[k].bounds.yMax)
  {
    match FirstOn(sets, axis)
    case None =>
    case Some(i) =>
      var r := AxisFold(sets, axis, sets[i].bounds.yMin, sets[i].bounds.yMax);
      AxisFoldAttained(sets, axis, sets[i].bounds.yMin, sets[i].bounds.yMax);
      if r.0 == sets[i].bounds.yMin {
        assert sets[i].axis == axis;
      }
      if r.1 == sets[i].bounds.yMax {
        assert sets[i].axis == axis;
      }
  }

  /** A data set on the other axis does not move an axis's range. */
  lemma AxisRangeIgnoresOtherAxis(sets: seq<DataSet>, d: DataSet, axis: AxisDependency)
    requires d.axis != axis
    ensures AxisRange(sets + [d], axis) == AxisRange(sets, axis)
  {
    var t := sets + [d];
    assert t[..|t| - 1] == sets;
    FirstOnPrefix(sets, [d], axis);
    match FirstOn(sets, axis)
    case None =>
      assert FirstOn(t, axis).None?;
    case Some(i) =>
  }

  /** A data set appended after one on the axis leaves the first one where it was. */
  lemma {:induction false} FirstOnPrefix(a: seq<DataSet>, b: seq<DataSet>, axis: AxisDependency)
    ensures FirstOn(a, axis).Some? ==> FirstOn(a + b, axis) == FirstOn(a, axis)
    ensures FirstOn(a, axis).None? ==>
      (FirstOn(b, axis).None? <==> FirstOn(a + b, axis).None?)
  {
    if a != [] {
      assert (a + b)[0] == a[0] && (a + b)[1..] == a[1..] + b;
      FirstOnPrefix(a[1..], b, axis);
    } else {
      assert a + b == b;
    }
  }

  /** `entryCount`: the entries of every data set, summed. */
  function EntryCount(sets: seq<DataSet>): (n: nat)
    ensures sets == [] ==> n == 0
    ensures forall k :: 0 <= k < |sets| ==> |sets[k].values| <= n
  {
    if sets == [] then 0 else EntryCount(sets[..|sets| - 1]) + |sets[|sets| - 1].values|
  }

  /** Replacing one data set changes the total by the difference of their counts. */
  lemma {:induction false} EntryCountUpdate(sets: seq<DataSet>, i: int, d: DataSet)
    requires 0 <= i < |sets|
    ensures EntryCount(sets[i := d]) == EntryCount(sets) - |sets[i].values| + |d.values|
    decreases |sets|
  {
    var t := sets[i := d];
    if i == |sets| - 1 {
      assert t[..|t| - 1] == sets[..|sets| - 1];
    } else {
      assert t[..|t| - 1] == sets[..|sets| - 1][i := d];
      EntryCountUpdate(sets[..|sets| - 1], i, d);
    }
  }

  /** Dropping one data set takes its entries off the total. */
  lemma {:induction false} EntryCountRemove(sets: seq<DataSet>, i: int)
    requires 0 <= i < |sets|
    ensures EntryCount(sets[..i] + sets[i + 1..]) == EntryCount(sets) - |sets[i].values|
    decreases |sets|
  {
    var t := sets[..i] + sets[i + 1..];
    if i == |sets| - 1 {
      assert t == sets[..|sets| - 1];
    } else {
      var init := sets[..|sets| - 1];
      assert t[..|t| - 1] == init[..i] + init[i + 1..];
      assert t[|t| - 1] == sets[|sets| - 1];
      EntryCountRemove(init, i);
    }
  }

  /** `t` is `sets` with the bounds of data set `i` widened to `e`, and possibly other
    * entries in it. */
  ghost predicate WidenedAt(sets: seq<DataSet>, t: seq<DataSet>, i: int, e: Entry)
  {
    |t| == |sets| && 0 <= i < |sets| &&
    (forall k :: 0 <= k < |sets| ==> t[k].axis == sets[k].axis) &&
    (forall k :: 0 <= k < |sets| && k != i ==> t[k].bounds == sets[k].bounds) &&
    t[i].bounds == Widen(sets[i].bounds, EntryBounds(e))
  }

  lemma WidenedAtPrefix(sets: seq<DataSet>, t: seq<DataSet>, i: int, e: Entry)
    requires WidenedAt(sets, t, i, e) && i < |sets| - 1
    ensures WidenedAt(sets[..|sets| - 1], t[..|t| - 1], i, e)
    ensures t[|t| - 1].bounds == sets[|sets| - 1].bounds && t[|t| - 1].axis == sets[|sets| - 1].axis
  {
  }

  /** Data sets with the same axes and bounds fold to the same bounds and ranges. */
  lemma {:induction false} OverallSameBounds(a: seq<DataSet>, b: seq<DataSet>)
    requires |a| == |b|
    requires forall k :: 0 <= k < |a| ==> a[k].bounds == b[k].bounds && a[k].axis == b[k].axis
    ensures Overall(a) == Overall(b)
    ensures forall axis, lo, hi :: AxisFold(a, axis, lo, hi) == AxisFold(b, axis, lo, hi)
  {
    if a != [] {
      OverallSameBounds(a[..|a| - 1], b[..|b| - 1]);
    }
  }

  /** Folding one entry into one data set's bounds widens the overall bounds by it. */
  lemma {:induction false} OverallWidenOne(sets: seq<DataSet>, t: seq<DataSet>, i: int, e: Entry)
    requires WidenedAt(sets, t, i, e)
    ensures Overall(t) == Widen(Overall(sets), EntryBounds(e))
    decreases |sets|
  {
    if i == |sets| - 1 {
      OverallSameBounds(sets[..|sets| - 1], t[..|t| - 1]);
    } else {
      WidenedAtPrefix(sets, t, i, e);
      OverallWidenOne(sets[..|sets| - 1], t[..|t| - 1], i, e);
    }
  }

  /** The data set's `addEntry(_:)` on a data set value: the entry appended and the set's
    * bounds widened to it. It always succeeds. */
  function AddEntryTo(d: DataSet, e: Entry): (r: DataSet)
    ensures r.values == d.values + [e] && r.id == d.id && r.axis == d.axis
    ensures r.bounds == Widen(d.bounds, EntryBounds(e))
  {
    d.(values := d.values + [e], bounds := Widen(d.bounds, EntryBounds(e)))
  }

  /** The data set's `removeEntry(_:)` on a data set value: false when absent; otherwise
    * the first occurrence dropped and the set's bounds recomputed from its entries. */
  function RemoveEntryFrom(d: DataSet, e: Entry): (r: (bool, DataSet))
    ensures r.0 <==> e in d.values
    ensures !r.0 ==> r.1 == d
    ensures r.0 ==> var i := IndexOf(d.values, e).value;
      r.1.values == d.values[..i] + d.values[i + 1..] && r.1.bounds == BoundsOf(r.1.values)
    ensures r.1.id == d.id && r.1.axis == d.axis
  {
    match IndexOf(d.values, e)
    case None => (false, d)
    case Some(i) =>
      var vs := d.values[..i] + d.values[i + 1..];
      (true, d.(values := vs, bounds := BoundsOf(vs)))
  }

  class ChartData {
    var xMax: real
    var xMin: real
    var yMax: real
    var yMin: real
    var leftAxisMax: real
    var leftAxisMin: real
    var rightAxisMax: real
    var rightAxisMin: real
    /** `_dataSets`. */
    var dataSets: seq<DataSet>

    function Current(): Bounds
      reads this
    {
      Bounds(xMin, xMax, yMin, yMax)
    }

    /** The cached bounds are those `calcMinMax()` computes from the data sets. */
    ghost predicate Synced()
      reads this
    {
      Current() == Overall(dataSets) &&
      (leftAxisMin, leftAxisMax) == AxisRange(dataSets, Left) &&
      (rightAxisMin, rightAxisMax) == AxisRange(dataSets, Right)
    }

    /** `init()`: no data sets and every bound at its starting value. */
    constructor Empty()
      ensures dataSets == [] && Synced() && Current() == NoBounds
    {
      xMax, xMin, yMax, yMin := -GreatestFinite, GreatestFinite, -GreatestFinite, GreatestFinite;
      leftAxisMax, leftAxisMin := -GreatestFinite, GreatestFinite;
      rightAxisMax, rightAxisMin := -GreatestFinite, GreatestFinite;
      dataSets := [];
    }

    /** `init(dataSets:)`: the data sets, through the setter, which recalculates. */
    constructor (sets: seq<DataSet>)
      ensures dataSets == sets && Synced()
    {
      xMax, xMin, yMax, yMin := -GreatestFinite, GreatestFinite, -GreatestFinite, GreatestFinite;
      leftAxisMax, leftAxisMin := -GreatestFinite, GreatestFinite;
      rightAxisMax, rightAxisMin := -GreatestFinite, GreatestFinite;
      dataSets := sets;
      new;
      CalcMinMax();
    }

    /** The `dataSets` setter: the new data sets, then `notifyDataChanged()`. */
    method SetDataSets(sets: seq<DataSet>)
      modifies this
      ensures dataSets == sets && Synced()
    {
      dataSets := sets;
      CalcMinMax();
    }

    /** `calcMinMax()`: every bound reset, each data set folded into the overall
      * bounds, and each axis range folded from its first data set. */
    method CalcMinMax()
      modifies this
      ensures dataSets == old(dataSets) && Synced()
    {
      leftAxisMax, leftAxisMin := -GreatestFinite, GreatestFinite;
      rightAxisMax, rightAxisMin := -GreatestFinite, GreatestFinite;
      yMax, yMin := -GreatestFinite, GreatestFinite;
      xMax, xMin := -GreatestFinite, GreatestFinite;
      var i := 0;
      while i < |dataSets|
        invariant 0 <= i <= |dataSets| && dataSets == old(dataSets)
        invariant Current() == Overall(dataSets[..i])
        invariant (forall k :: 0 <= k < i ==> dataSets[k].axis != Left) ==>
          leftAxisMin == GreatestFinite && leftAxisMax == -GreatestFinite
        invariant (forall k :: 0 <= k < i ==> dataSets[k].axis != Right) ==>
          rightAxisMin == GreatestFinite && rightAxisMax == -GreatestFinite
      {
        assert dataSets[..i + 1][..i] == dataSets[..i];
        CalcMinMaxDataSet(dataSets[i]);
        i := i + 1;
      }
      assert dataSets[..i] == dataSets;
      var firstLeft := FirstOn(dataSets, Left);
      if firstLeft.Some? {
        var first := dataSets[firstLeft.value];
        leftAxisMin, leftAxisMax := AxisLoop(Left, first.bounds.yMin, first.bounds.yMax);
      }
      var firstRight := FirstOn(dataSets, Right);
      if firstRight.Some? {
        var first := dataSets[firstRight.value];
        rightAxisMin, rightAxisMax := AxisLoop(Right, first.bounds.yMin, first.bounds.yMax);
      }
    }

    /** The `for dataSet in _dataSets where dataSet.axisDependency == axis` loop. */
    method AxisLoop(axis: AxisDependency, lo0: real, hi0: real) returns (lo: real, hi: real)
      ensures (lo, hi) == AxisFold(dataSets, axis, lo0, hi0)
    {
      lo, hi := lo0, hi0;
      var i := 0;
      while i < |dataSets|
        invariant 0 <= i <= |dataSets|
        invariant (lo, hi) == AxisFold(dataSets[..i], axis, lo0, hi0)
      {
        assert dataSets[..i + 1][..i] == dataSets[..i];
        var d := dataSets[i];
        if d.axis == axis {
          if d.bounds.yMin < lo {
            lo := d.bounds.yMin;
          }
          if d.bounds.yMax > hi {
            hi := d.bounds.yMax;
          }
        }
        i := i + 1;
      }
      assert dataSets[..i] == dataSets;
    }

    /** `calcMinMax(dataSet:)`: the overall bounds and those of `d`'s axis widened to
      * take in `d`. */
    method CalcMinMaxDataSet(d: DataSet)
      modifies this
      ensures dataSets == old(dataSets)
      ensures Current() == Widen(old(Current()), d.bounds)
      ensures d.axis == Left ==> leftAxisMax == Max(old(leftAxisMax), d.bounds.yMax) &&
                                 leftAxisMin == Min(old(leftAxisMin), d.bounds.yMin) &&
                                 rightAxisMax == old(rightAxisMax) && rightAxisMin == old(rightAxisMin)
      ensures d.axis == Right ==> rightAxisMax == Max(old(rightAxisMax), d.bounds.yMax) &&
                                  rightAxisMin == Min(old(rightAxisMin), d.bounds.yMin) &&
                                  leftAxisMax == old(leftAxisMax) && leftAxisMin == old(leftAxisMin)
    {
      xMax := Max(xMax, d.bounds.xMax);
      xMin := Min(xMin, d.bounds.xMin);
      yMax := Max(yMax, d.bounds.yMax);
      yMin := Min(yMin, d.bounds.yMin);
      match d.axis
      case Left =>
        leftAxisMax := Max(leftAxisMax, d.bounds.yMax);
        leftAxisMin := Min(leftAxisMin, d.bounds.yMin);
      case Right =>
        rightAxisMax := Max(rightAxisMax, d.bounds.yMax);
        rightAxisMin := Min(rightAxisMin, d.bounds.yMin);
    }

    /** `calcMinMax(entry:axis:)`: the overall bounds and those of `axis` widened to
      * take in `e`. */
    method CalcMinMaxEntry(e: Entry, axis: AxisDependency)
      modifies this
      ensures dataSets == old(dataSets)
      ensures Current() == Widen(old(Current()), EntryBounds(e))
      ensures axis == Left ==> leftAxisMax == Max(old(leftAxisMax), e.y) &&
                               leftAxisMin == Min(old(leftAxisMin), e.y) &&
                               rightAxisMax == old(rightAxisMax) && rightAxisMin == old(rightAxisMin)
      ensures axis == Right ==> rightAxisMax == Max(old(rightAxisMax), e.y) &&
                                rightAxisMin == Min(old(rightAxisMin), e.y) &&
                                leftAxisMax == old(leftAxisMax) && leftAxisMin == old(leftAxisMin)
    {
      xMax := Max(xMax, e.x);
      xMin := Min(xMin, e.x);
      yMax := Max(yMax, e.y);
      yMin := Min(yMin, e.y);
      match axis
      case Left =>
        leftAxisMax := Max(leftAxisMax, e.y);
        leftAxisMin := Min(leftAxisMin, e.y);
      case Right =>
        rightAxisMax := Max(rightAxisMax, e.y);
        rightAxisMin := Min(rightAxisMin, e.y);
    }

    /** `getYMin(axis:)`: the minimum of `axis`, or that of the other axis while the
      * requested one still holds `DBL_MAX`. */
    function GetYMin(axis: AxisDependency): (r: real)
      reads this
      ensures r == leftAxisMin || r == rightAxisMin
      ensures axis == Left ==> (r == leftAxisMin <==> leftAxisMin != GreatestFinite || rightAxisMin == GreatestFinite)
      ensures axis == Right ==> (r == rightAxisMin <==> rightAxisMin != GreatestFinite || leftAxisMin == GreatestFinite)
    {
      match axis
      case Left => if leftAxisMin == GreatestFinite then rightAxisMin else leftAxisMin
      case Right => if rightAxisMin == GreatestFinite then leftAxisMin else rightAxisMin
    }

    /** `getYMax(axis:)`: the maximum of `axis`, or that of the other axis while the
      * requested one still holds `-DBL_MAX`. */
    function GetYMax(axis: AxisDependency): (r: real)
      reads this
      ensures r == leftAxisMax || r == rightAxisMax
      ensures axis == Left ==> (r == leftAxisMax <==> leftAxisMax != -GreatestFinite || rightAxisMax == -GreatestFinite)
      ensures axis == Right ==> (r == rightAxisMax <==> rightAxisMax != -GreatestFinite || leftAxisMax == -GreatestFinite)
    {
      if axis == Left then
        (if leftAxisMax == -GreatestFinite then rightAxisMax else leftAxisMax)
      else
        (if rightAxisMax == -GreatestFinite then leftAxisMax else rightAxisMax)
    }

    /** With the bounds in sync: an axis without data sets reports the other axis's
      * range, and an axis whose data sets reach below `DBL_MAX` and above `-DBL_MAX`
      * reports a range that contains every one of them. */
    lemma YRangeFallsBack(axis: AxisDependency)
      requires Synced()
      ensures (forall k :: 0 <= k < |dataSets| ==> dataSets[k].axis != axis) ==>
        GetYMin(axis) == AxisRange(dataSets, Other(axis)).0 &&
        GetYMax(axis) == AxisRange(dataSets, Other(axis)).1
      ensures (exists k :: 0 <= k < |dataSets| && dataSets[k].axis == axis &&
                 dataSets[k].bounds.yMin < GreatestFinite && dataSets[k].bounds.yMax > -GreatestFinite) ==>
        forall k :: 0 <= k < |dataSets| && dataSets[k].axis == axis ==>
          GetYMin(axis) <= dataSets[k].bounds.yMin && GetYMax(axis) >= dataSets[k].bounds.yMax
    {
      AxisRangeExact(dataSets, Left);
      AxisRangeExact(dataSets, Right);
    }

    /** `dataSet(at:)`: nil outside the data sets. */
    function DataSetAt(index: int): (r: Option<DataSet>)
      reads this
      ensures r.None? <==> !(0 <= index < |dataSets|)
      ensures r.Some? ==> r.value == dataSets[index]
    {
      if 0 <= index < |dataSets| then Some(dataSets[index]) else None
    }

    /** `index(of:)`: the first position of `d`, or -1 when it is not there. */
    function IndexOfDataSet(d: DataSet): (r: int)
      reads this
      ensures r == -1 <==> d !in dataSets
      ensures r != -1 ==> 0 <= r < |dataSets| && dataSets[r] == d && d !in dataSets[..r]
    {
      match IndexOf(dataSets, d)
      case None => -1
      case Some(i) => i
    }

    /** `contains(dataSet:)`. */
    function ContainsDataSet(d: DataSet): (r: bool)
      reads this
      ensures r <==> IndexOfDataSet(d) != -1
    {
      d in dataSets
    }

    /** `entryCount`. */
    function TotalEntryCount(): (n: nat)
      reads this
      ensures n == EntryCount(dataSets)
      ensures forall k :: 0 <= k < |dataSets| ==> |dataSets[k].values| <= n
    {
      EntryCount(dataSets)
    }

    /** `append(_:)`: `d` added at the end and folded into the bounds, which stay in
      * sync when `d`'s own y bounds lie within `DBL_MAX`. */
    method Append(d: DataSet)
      modifies this
      ensures dataSets == old(dataSets) + [d]
      ensures Current() == Widen(old(Current()), d.bounds)
      ensures EntryCount(dataSets) == EntryCount(old(dataSets)) + |d.values|
      ensures old(Synced()) && d.bounds.yMin <= GreatestFinite && d.bounds.yMax >= -GreatestFinite ==> Synced()
    {
      ghost var before := dataSets;
      ghost var wasSynced := Synced();
      dataSets := dataSets + [d];
      assert dataSets[..|dataSets| - 1] == before;
      CalcMinMaxDataSet(d);
      if wasSynced && d.bounds.yMin <= GreatestFinite && d.bounds.yMax >= -GreatestFinite {
        AxisRangeAppend(before, d, Left);
        AxisRangeAppend(before, d, Right);
      }
    }

    /** `remove(at:)` (traps outside the data sets): the data set at `position`
      * removed and returned, and the bounds recalculated. */
    method RemoveAt(position: int) returns (element: DataSet)
      requires 0 <= position < |dataSets|
      modifies this
      ensures element == old(dataSets)[position]
      ensures dataSets == old(dataSets)[..position] + old(dataSets)[position + 1..] && Synced()
      ensures EntryCount(dataSets) == EntryCount(old(dataSets)) - |element.values|
    {
      element := dataSets[position];
      EntryCountRemove(dataSets, position);
      dataSets := dataSets[..position] + dataSets[position + 1..];
      CalcMinMax();
    }

    /** `removeDataSet(_:)`: nil and nothing changed when `d` is absent; otherwise its
      * first position removed. */
    method RemoveDataSet(d: DataSet) returns (r: Option<DataSet>)
      modifies this
      ensures r.None? <==> d !in old(dataSets)
      ensures r.None? ==> dataSets == old(dataSets) && unchanged(this)
      ensures r.Some? ==>
        r.value == d && Synced() &&
        var i := IndexOf(old(dataSets), d).value;
        dataSets == old(dataSets)[..i] + old(dataSets)[i + 1..]
    {
      match IndexOf(dataSets, d)
      case None =>
        return None;
      case Some(i) =>
        var e := RemoveAt(i);
        return Some(e);
    }

    /** `removeFirst()` (traps on no data sets). */
    method RemoveFirst() returns (element: DataSet)
      requires dataSets != []
      modifies this
      ensures element == old(dataSets)[0] && dataSets == old(dataSets)[1..] && Synced()
    {
      element := dataSets[0];
      dataSets := dataSets[1..];
      CalcMinMax();
    }

    /** `removeLast()` (traps on no data sets). */
    method RemoveLast() returns (element: DataSet)
      requires dataSets != []
      modifies this
      ensures element == old(dataSets)[|old(dataSets)| - 1]
      ensures dataSets == old(dataSets)[..|old(dataSets)| - 1] && Synced()
    {
      element := dataSets[|dataSets| - 1];
      dataSets := dataSets[..|dataSets| - 1];
      CalcMinMax();
    }

    /** `clearValues()`: no data sets, and every bound back at its starting value. */
    method ClearValues()
      modifies this
      ensures dataSets == [] && Synced() && Current() == NoBounds
      ensures leftAxisMin == GreatestFinite && rightAxisMin == GreatestFinite
      ensures leftAxisMax == -GreatestFinite && rightAxisMax == -GreatestFinite
    {
      dataSets := [];
      CalcMinMax();
    }

    /** `appendEntry(_:toDataSet:)`: outside the data sets nothing changes; otherwise
      * `e` goes to the end of that data set and the bounds of the data and of the set's
      * axis widen to it, which keeps them in sync. */
    method AppendEntry(e: Entry, dataSetIndex: int)
      modifies this
      ensures !(0 <= dataSetIndex < |old(dataSets)|) ==> unchanged(this)
      ensures 0 <= dataSetIndex < |old(dataSets)| ==>
        dataSets == old(dataSets)[dataSetIndex := AddEntryTo(old(dataSets)[dataSetIndex], e)] &&
        Current() == Widen(old(Current()), EntryBounds(e)) &&
        EntryCount(dataSets) == EntryCount(old(dataSets)) + 1
      ensures old(Synced()) ==> Synced()
    {
      if !(0 <= dataSetIndex < |dataSets|) {
        return;
      }
      ghost var before := dataSets;
      ghost var wasSynced := Synced();
      var target := dataSets[dataSetIndex];
      var updated := AddEntryTo(target, e);
      dataSets := dataSets[dataSetIndex := updated];
      EntryCountUpdate(before, dataSetIndex, updated);
      CalcMinMaxEntry(e, target.axis);
      assert WidenedAt(before, dataSets, dataSetIndex, e);
      OverallWidenOne(before, dataSets, dataSetIndex, e);
      if wasSynced {
        AxisRangeWidenOne(before, dataSets, dataSetIndex, e, Left);
        AxisRangeWidenOne(before, dataSets, dataSetIndex, e, Right);
      }
    }

    /** `removeEntry(_:dataSetIndex:)`: false and nothing changed outside the data sets
      * or when the set lacks `entry`; otherwise its first occurrence removed from the
      * set and the bounds recalculated. */
    method RemoveEntry(entry: Entry, dataSetIndex: int) returns (removed: bool)
      modifies this
      ensures removed <==> 0 <= dataSetIndex < |old(dataSets)| && entry in old(dataSets)[dataSetIndex].values
      ensures !removed ==> unchanged(this)
      ensures removed ==>
        dataSets == old(dataSets)[dataSetIndex := RemoveEntryFrom(old(dataSets)[dataSetIndex], entry).1] &&
        Synced() && EntryCount(dataSets) == EntryCount(old(dataSets)) - 1
    {
      if !(0 <= dataSetIndex < |dataSets|) {
        return false;
      }
      var r := RemoveEntryFrom(dataSets[dataSetIndex], entry);
      removed := r.0;
      if removed {
        EntryCountUpdate(dataSets, dataSetIndex, r.1);
        dataSets := dataSets[dataSetIndex := r.1];
        CalcMinMax();
      }
    }

    /** `removeEntry(xValue:dataSetIndex:)` over the collection data set, whose
      * `entryForXValue(_:closestToY:)` searches with `.closest`: false outside the data
      * sets or when no entry reaches `xValue` (the search answers `endIndex`, on which
      * `entryForXValue` as written traps, see Findings); otherwise the entry the search
      * answers removed, which on x-sorted entries is the first one reaching `xValue`
      * (`RemovedAtXIsFirstAtLeast`). */
    method RemoveEntryAtX(xValue: real, dataSetIndex: int) returns (removed: bool)
      modifies this
      ensures removed <==> (0 <= dataSetIndex < |old(dataSets)| &&
        DataSetCollection.EntryIndexSpec(old(dataSets)[dataSetIndex].values, xValue, None, Closest) <
          |old(dataSets)[dataSetIndex].values|)
      ensures !removed ==> unchanged(this)
      ensures removed ==>
        var ds := old(dataSets)[dataSetIndex];
        dataSets == old(dataSets)[dataSetIndex :=
          RemoveEntryFrom(ds, ds.values[DataSetCollection.EntryIndexSpec(ds.values, xValue, None, Closest)]).1] &&
        Synced() && EntryCount(dataSets) == EntryCount(old(dataSets)) - 1
    {
      if !(0 <= dataSetIndex < |dataSets|) {
        return false;
      }
      var vs := dataSets[dataSetIndex].values;
      var index := DataSetCollection.EntryIndexSpec(vs, xValue, None, Closest);
      if index < |vs| {
        removed := RemoveEntry(vs[index], dataSetIndex);
        return;
      }
      return false;
    }
  }

  /** On x-sorted entries the entry `removeEntry(xValue:dataSetIndex:)` removes exists
    * exactly when some entry reaches `xValue`, and it is the first such entry. */
  lemma RemovedAtXIsFirstAtLeast(vs: seq<Entry>, xValue: real)
    requires SortedByX(vs)
    ensures var i := DataSetCollection.EntryIndexSpec(vs, xValue, None, Closest);
      (i < |vs| <==> exists k :: 0 <= k < |vs| && vs[k].x >= xValue) &&
      (i < |vs| ==> vs[i].x >= xValue && forall k :: 0 <= k < i ==> vs[k].x < xValue)
  {
    DataSetCollection.EntryIndexClosestIsFirstAtLeast(vs, xValue);
  }

  /** x = 1, 10 searched at 2: the entry at 10 goes, not the nearer entry at 1. */
  lemma RemovedAtXIsNotNearest()
    ensures var vs := [Entry(1.0, 0.0), Entry(10.0, 0.0)];
      DataSetCollection.EntryIndexSpec(vs, 2.0, None, Closest) == 1
  {
    var vs := [Entry(1.0, 0.0), Entry(10.0, 0.0)];
    RemovedAtXIsFirstAtLeast(vs, 2.0);
  }

  /** The axis a data set does not depend on. */
  function Other(axis: AxisDependency): (r: AxisDependency)
    ensures r != axis
  {
    match axis
    case Left => Right
    case Right => Left
  }

  /** Appending a data set moves its axis's range as `calcMinMax(dataSet:)` does, as
    * long as its own y bounds lie within `DBL_MAX`, and leaves the other axis alone. */
  lemma AxisRangeAppend(sets: seq<DataSet>, d: DataSet, axis: AxisDependency)
    requires d.bounds.yMin <= GreatestFinite && d.bounds.yMax >= -GreatestFinite
    ensures d.axis == axis ==>
      AxisRange(sets + [d], axis) == (Min(AxisRange(sets, axis).0, d.bounds.yMin), Max(AxisRange(sets, axis).1, d.bounds.yMax))
    ensures d.axis != axis ==> AxisRange(sets + [d], axis) == AxisRange(sets, axis)
  {
    if d.axis != axis {
      AxisRangeIgnoresOtherAxis(sets, d, axis);
    } else {
      var t := sets + [d];
      assert t[..|t| - 1] == sets;
      FirstOnPrefix(sets, [d], axis);
      match FirstOn(sets, axis)
      case None =>
        assert FirstOn(t, axis) == Some(|sets|) by {
          assert forall k :: 0 <= k < |sets| ==> t[k].axis != axis;
        }
        assert AxisFold(sets, axis, d.bounds.yMin, d.bounds.yMax) == (d.bounds.yMin, d.bounds.yMax) by {
          AxisFoldNone(sets, axis, d.bounds.yMin, d.bounds.yMax);
        }
      case Some(i) =>
    }
  }

  /** Without data sets on the axis the fold leaves its start. */
  lemma {:induction false} AxisFoldNone(sets: seq<DataSet>, axis: AxisDependency, lo: real, hi: real)
    requires forall k :: 0 <= k < |sets| ==> sets[k].axis != axis
    ensures AxisFold(sets, axis, lo, hi) == (lo, hi)
  {
    if sets != [] {
      AxisFoldNone(sets[..|sets| - 1], axis, lo, hi);
    }
  }

  /** Folding one entry into one data set's bounds widens the range of that set's axis
    * by the entry's y, and leaves the other axis alone. */
  lemma AxisRangeWidenOne(sets: seq<DataSet>, t: seq<DataSet>, i: int, e: Entry, axis: AxisDependency)
    requires WidenedAt(sets, t, i, e)
    ensures AxisRange(t, axis) ==
      if sets[i].axis == axis then (Min(AxisRange(sets, axis).0, e.y), Max(AxisRange(sets, axis).1, e.y))
      else AxisRange(sets, axis)
  {
    FirstOnSameAxes(sets, t, axis);
    match FirstOn(sets, axis)
    case None =>
    case Some(f) =>
      var w := sets[f].bounds;
      if sets[i].axis == axis {
        AxisFoldWidenOne(sets, t, i, e, axis, w.yMin, w.yMax);
        if f == i {
          AxisFoldStartShift(t, axis, w.yMin, w.yMax, e.y);
        }
      } else {
        AxisFoldWidenOther(sets, t, i, e, axis, w.yMin, w.yMax);
      }
  }

  /** Data sets with the same axes have the same first data set on an axis. */
  lemma {:induction false} FirstOnSameAxes(a: seq<DataSet>, b: seq<DataSet>, axis: AxisDependency)
    requires |a| == |b| && forall k :: 0 <= k < |a| ==> a[k].axis == b[k].axis
    ensures FirstOn(a, axis) == FirstOn(b, axis)
  {
    if a != [] {
      FirstOnSameAxes(a[1..], b[1..], axis);
    }
  }

  lemma {:induction false} AxisFoldWidenOne(sets: seq<DataSet>, t: seq<DataSet>, i: int, e: Entry, axis: AxisDependency,
                                            lo: real, hi: real)
    requires WidenedAt(sets, t, i, e) && sets[i].axis == axis
    ensures var r := AxisFold(sets, axis, lo, hi);
      AxisFold(t, axis, lo, hi) == (Min(r.0, e.y), Max(r.1, e.y))
    decreases |sets|
  {
    if i == |sets| - 1 {
      OverallSameBounds(sets[..|sets| - 1], t[..|t| - 1]);
    } else {
      WidenedAtPrefix(sets, t, i, e);
      AxisFoldWidenOne(sets[..|sets| - 1], t[..|t| - 1], i, e, axis, lo, hi);
    }
  }

  lemma {:induction false} AxisFoldWidenOther(sets: seq<DataSet>, t: seq<DataSet>, i: int, e: Entry, axis: AxisDependency,
                                              lo: real, hi: real)
    requires WidenedAt(sets, t, i, e) && sets[i].axis != axis
    ensures AxisFold(t, axis, lo, hi) == AxisFold(sets, axis, lo, hi)
    decreases |sets|
  {
    if i == |sets| - 1 {
      OverallSameBounds(sets[..|sets| - 1], t[..|t| - 1]);
    } else {
      WidenedAtPrefix(sets, t, i, e);
      AxisFoldWidenOther(sets[..|sets| - 1], t[..|t| - 1], i, e, axis, lo, hi);
    }
  }

  /** Widening the start of the fold by `v` widens its result by `v`. */
  lemma {:induction false} AxisFoldStartShift(s: seq<DataSet>, axis: AxisDependency, lo: real, hi: real, v: real)
    ensures var r := AxisFold(s, axis, lo, hi);
      AxisFold(s, axis, Min(lo, v), Max(hi, v)) == (Min(r.0, v), Max(r.1, v))
  {
    if s != [] {
      AxisFoldStartShift(s[..|s| - 1], axis, lo, hi, v);
    }
  }
}
