/** The slice geometry of `PieChartView`: the angle each entry's slice spans, the
  * running angle at which each slice ends, the clamped maximum angle of the pie,
  * and finding the slice under a touch angle. */
module PieChartView {
  import opened Common
  import ChartUtils

  /** `calcAngle(value:yValueSum:)`: the share of `yValueSum` that `value` is, as a
    * part of `maxAngle` degrees. */
  function CalcAngle(value: real, yValueSum: real, maxAngle: real): (r: real)
    requires yValueSum != 0.0
  {
    value / yValueSum * maxAngle
  }

  /** A value that is the whole sum spans `maxAngle`, a zero value nothing, and the
    * angle of a sum of two values is the sum of their angles. */
  lemma CalcAngleShares(value: real, other: real, yValueSum: real, maxAngle: real)
    requires yValueSum != 0.0
    ensures CalcAngle(yValueSum, yValueSum, maxAngle) == maxAngle
    ensures CalcAngle(0.0, yValueSum, maxAngle) == 0.0
    ensures CalcAngle(value + other, yValueSum, maxAngle)
         == CalcAngle(value, yValueSum, maxAngle) + CalcAngle(other, yValueSum, maxAngle)
  {
    var q1 := value / yValueSum;
    var q2 := other / yValueSum;
    assert q1 * yValueSum == value && q2 * yValueSum == other;
    assert (q1 + q2) * yValueSum == value + other;
    assert (value + other) / yValueSum == q1 + q2;
    assert (q1 + q2) * maxAngle == q1 * maxAngle + q2 * maxAngle;
  }

  /** The y values of all entries of all data sets, data set by data set. */
  function Flatten(sets: seq<seq<real>>): (r: seq<real>)
  {
    if |sets| == 0 then [] else Flatten(sets[..|sets| - 1]) + sets[|sets| - 1]
  }

  /** The sum of `s`. */
  function Sum(s: seq<real>): real
  {
    if |s| == 0 then 0.0 else Sum(s[..|s| - 1]) + s[|s| - 1]
  }

  /** The slice angles for the entry values `ys`: one per entry, each the angle of the
    * entry's absolute value. */
  function DrawAngles(ys: seq<real>, yValueSum: real, maxAngle: real): (r: seq<real>)
    requires ys != [] ==> yValueSum != 0.0
    ensures |r| == |ys|
    ensures forall i :: 0 <= i < |ys| ==> r[i] == CalcAngle(Abs(ys[i]), yValueSum, maxAngle)
  {
    if |ys| == 0 then []
    else DrawAngles(ys[..|ys| - 1], yValueSum, maxAngle) + [CalcAngle(Abs(ys[|ys| - 1]), yValueSum, maxAngle)]
  }

  /** The running sums of `d`: the first is `d[0]`, each later one the previous plus
    * the next draw angle. */
  function Accumulated(d: seq<real>): (r: seq<real>)
    ensures |r| == |d|
    ensures |d| > 0 ==> r[0] == d[0]
  {
    if |d| == 0 then []
    else
      var a := Accumulated(d[..|d| - 1]);
      a + [if |a| == 0 then d[|d| - 1] else a[|a| - 1] + d[|d| - 1]]
  }

  /** Each running sum after the first is the previous one plus its own draw angle. */
  lemma {:induction false} AccumulatedStep(d: seq<real>, i: int)
    requires 0 < i < |d|
    ensures Accumulated(d)[i] == Accumulated(d)[i - 1] + d[i]
    decreases |d|
  {
    var p := d[..|d| - 1];
    if i < |d| - 1 {
      AccumulatedStep(p, i);
      assert p[i] == d[i];
    }
  }

  /** Each running sum is the sum of the draw angles up to and including its own. */
  lemma {:induction false} AccumulatedIsPrefixSum(d: seq<real>, i: int)
    requires 0 <= i < |d|
    ensures Accumulated(d)[i] == Sum(d[..i + 1])
    decreases i
  {
    if i == 0 {
      assert d[..1][..0] == [];
    } else {
      AccumulatedIsPrefixSum(d, i - 1);
      AccumulatedStep(d, i);
      assert d[..i + 1][..i] == d[..i];
    }
  }

  lemma CalcAngleNonNegative(value: real, yValueSum: real, maxAngle: real)
    requires value >= 0.0 && yValueSum > 0.0 && maxAngle >= 0.0
    ensures CalcAngle(value, yValueSum, maxAngle) >= 0.0
  {
    var q := value / yValueSum;
    assert q >= 0.0;
    assert q * maxAngle >= 0.0;
  }

  /** Summing the slice angles is taking the angle of the summed absolute values. */
  lemma {:induction false} SumOfDrawAngles(ys: seq<real>, yValueSum: real, maxAngle: real)
    requires yValueSum != 0.0
    ensures Sum(DrawAngles(ys, yValueSum, maxAngle)) == CalcAngle(Sum(AbsAll(ys)), yValueSum, maxAngle)
    decreases |ys|
  {
    if |ys| > 0 {
      var init := ys[..|ys| - 1];
      SumOfDrawAngles(init, yValueSum, maxAngle);
      var d := DrawAngles(ys, yValueSum, maxAngle);
      assert d[..|d| - 1] == DrawAngles(init, yValueSum, maxAngle);
      assert AbsAll(ys)[..|ys| - 1] == AbsAll(init);
      CalcAngleShares(Sum(AbsAll(init)), Abs(ys[|ys| - 1]), yValueSum, maxAngle);
    }
  }

  function AbsAll(ys: seq<real>): (r: seq<real>)
    ensures |r| == |ys| && forall i :: 0 <= i < |ys| ==> r[i] == Abs(ys[i])
  {
    seq(|ys|, i requires 0 <= i < |ys| => Abs(ys[i]))
  }

  lemma AbsAllOfNonNegative(ys: seq<real>)
    requires forall i :: 0 <= i < |ys| ==> ys[i] >= 0.0
    ensures AbsAll(ys) == ys
  {
  }

  /** With non-negative draw angles the running angles never decrease. */
  lemma {:induction false} AccumulatedNondecreasing(d: seq<real>, i: int, j: int)
    requires forall k :: 0 <= k < |d| ==> d[k] >= 0.0
    requires 0 <= i <= j < |d|
    ensures Accumulated(d)[i] <= Accumulated(d)[j]
    decreases j - i
  {
    if i < j {
      AccumulatedNondecreasing(d, i, j - 1);
      AccumulatedStep(d, j);
    }
  }

  lemma {:induction false} DrawAnglesSnoc(prefix: seq<real>, y: real, yValueSum: real, maxAngle: real)
    requires yValueSum != 0.0
    ensures DrawAngles(prefix + [y], yValueSum, maxAngle) ==
      DrawAngles(prefix, yValueSum, maxAngle) + [CalcAngle(Abs(y), yValueSum, maxAngle)]
  {
    assert (prefix + [y])[..|prefix|] == prefix;
  }

  lemma {:induction false} AccumulatedSnoc(d: seq<real>, x: real)
    ensures Accumulated(d + [x]) == Accumulated(d) + [if d == [] then x else Accumulated(d)[|d| - 1] + x]
  {
    var e := d + [x];
    assert e[..|e| - 1] == d;
    assert e[|e| - 1] == x;
  }

  lemma {:induction false} FlattenStep(sets: seq<seq<real>>, i: int)
    requires 0 <= i < |sets|
    ensures Flatten(sets[..i + 1]) == Flatten(sets[..i]) + sets[i]
  {
    assert sets[..i + 1][..i] == sets[..i];
  }

  /** The entries of the first `k` data sets are no more than those of all of them. */
  lemma {:induction false} FlattenPrefix(sets: seq<seq<real>>, k: int)
    requires 0 <= k <= |sets|
    ensures |Flatten(sets[..k])| <= |Flatten(sets)|
    decreases |sets|
  {
    if k < |sets| {
      var init := sets[..|sets| - 1];
      assert init[..k] == sets[..k];
      FlattenPrefix(init, k);
    } else {
      assert sets[..k] == sets;
    }
  }

  lemma PrefixStep(done: seq<real>, entries: seq<real>, i: int)
    requires 0 <= i < |entries|
    ensures done + entries[..i + 1] == (done + entries[..i]) + [entries[i]]
  {
    assert entries[..i + 1] == entries[..i] + [entries[i]];
  }

  /** The two sequences `calcAngles` appends to, one entry further on. */
  lemma {:induction false} AngleAppended(prefix: seq<real>, y: real, yValueSum: real, maxAngle: real,
                      d: seq<real>, acc: seq<real>, d': seq<real>, acc': seq<real>)
    requires yValueSum != 0.0
    requires d == DrawAngles(prefix, yValueSum, maxAngle) && acc == Accumulated(d)
    requires d' == d + [CalcAngle(Abs(y), yValueSum, maxAngle)]
    requires acc' == acc + [if |d| == 0 then d'[|d|] else acc[|d| - 1] + d'[|d|]]
    ensures d' == DrawAngles(prefix + [y], yValueSum, maxAngle)
    ensures acc' == Accumulated(d')
  {
    var x := CalcAngle(Abs(y), yValueSum, maxAngle);
    DrawAnglesSnoc(prefix, y, yValueSum, maxAngle);
    RunningAppended(d, acc, x, d', acc');
  }

  lemma {:induction false} RunningAppended(d: seq<real>, acc: seq<real>, x: real, d': seq<real>, acc': seq<real>)
    requires acc == Accumulated(d) && d' == d + [x]
    requires acc' == acc + [if |d| == 0 then x else acc[|d| - 1] + x]
    ensures acc' == Accumulated(d')
  {
    AccumulatedSnoc(d, x);
  }

  /** The first index of `s` holding a value above `a`, or `None` when there is none. */
  function FirstAbove(s: seq<real>, a: real): (r: Option<nat>)
    ensures r.None? <==> forall i :: 0 <= i < |s| ==> s[i] <= a
    ensures r.Some? ==> r.value < |s| && s[r.value] > a && forall j :: 0 <= j < r.value ==> s[j] <= a
  {
    if |s| == 0 then None
    else if s[0] > a then Some(0)
    else
      var rest := FirstAbove(s[1..], a);
      if rest.None? then None else Some(rest.value + 1)
  }

  /** A pie chart's slice angles and the maximum angle they are measured in. */
  class PieChartView {
    /** The y values of each data set's entries, or `None` when the chart has no data. */
    var data: Option<seq<seq<real>>>
    /** The data's `yValueSum`. */
    var yValueSum: real
    var drawAngles: seq<real>
    var absoluteAngles: seq<real>
    var maxAngle: real
    var rotationAngle: real
    var rawRotationAngle: real

    ghost predicate Valid()
      reads this
    {
      90.0 <= maxAngle <= 360.0 && 0.0 <= rotationAngle < 360.0
    }

    /** A chart without data: no slices, a full circle, the first slice at the top. */
    constructor ()
      ensures Valid()
      ensures data.None? && drawAngles == [] && absoluteAngles == []
      ensures maxAngle == 360.0 && rotationAngle == 270.0 && rawRotationAngle == 270.0
    {
      data := None;
      yValueSum := 0.0;
      drawAngles := [];
      absoluteAngles := [];
      maxAngle := 360.0;
      rotationAngle := 270.0;
      rawRotationAngle := 270.0;
    }

    /** The `maxAngle` setter: the value clamped into [90, 360]. */
    method SetMaxAngle(newValue: real)
      modifies this
      ensures Valid() == (0.0 <= rotationAngle < 360.0)
      ensures 90.0 <= maxAngle <= 360.0
      ensures 90.0 <= newValue <= 360.0 ==> maxAngle == newValue
      ensures newValue > 360.0 ==> maxAngle == 360.0
      ensures newValue < 90.0 ==> maxAngle == 90.0
      ensures data == old(data) && drawAngles == old(drawAngles) && absoluteAngles == old(absoluteAngles)
      ensures rotationAngle == old(rotationAngle) && rawRotationAngle == old(rawRotationAngle)
      ensures yValueSum == old(yValueSum)
    {
      maxAngle := newValue;
      if maxAngle > 360.0 {
        maxAngle := 360.0;
      }
      if maxAngle < 90.0 {
        maxAngle := 90.0;
      }
    }

    /** The `rotationAngle` setter: the raw value kept, the normalised one used. */
    method SetRotationAngle(newValue: real)
      modifies this
      ensures rawRotationAngle == newValue && rotationAngle == ChartUtils.Normalized(newValue)
      ensures Valid() == (90.0 <= maxAngle <= 360.0)
      ensures data == old(data) && drawAngles == old(drawAngles) && absoluteAngles == old(absoluteAngles)
      ensures maxAngle == old(maxAngle) && yValueSum == old(yValueSum)
    {
      rawRotationAngle := newValue;
      rotationAngle := ChartUtils.NormalizedAngleFromAngle(newValue);
    }

    /** `calcAngles()`: without data, no angles; otherwise one draw angle per entry,
      * the entries taken data set by data set, and the running angle at which each
      * slice ends. */
    method CalcAngles()
      requires data.Some? && Flatten(data.value) != [] ==> yValueSum != 0.0
      modifies this`drawAngles, this`absoluteAngles
      ensures data.None? ==> drawAngles == [] && absoluteAngles == []
      ensures data.Some? ==> drawAngles == DrawAngles(Flatten(data.value), yValueSum, maxAngle)
      ensures absoluteAngles == Accumulated(drawAngles)
    {
      drawAngles := [];
      absoluteAngles := [];
      if data.None? {
        return;
      }
      var sets := data.value;
      var cnt := 0;
      for si := 0 to |sets|
        invariant Flatten(sets[..si]) != [] ==> yValueSum != 0.0
        invariant drawAngles == DrawAngles(Flatten(sets[..si]), yValueSum, maxAngle)
        invariant absoluteAngles == Accumulated(drawAngles)
        invariant cnt == |drawAngles|
      {
        FlattenStep(sets, si);
        FlattenPrefix(sets, si + 1);
        cnt := AppendDataSet(Flatten(sets[..si]), sets[si], cnt);
      }
      assert sets[..|sets|] == sets;
    }

    /** The inner loop of `calcAngles`: the angles of one data set's entries appended. */
    method AppendDataSet(ghost done: seq<real>, entries: seq<real>, cnt0: int) returns (cnt: int)
      requires done + entries != [] ==> yValueSum != 0.0
      requires drawAngles == DrawAngles(done, yValueSum, maxAngle)
      requires absoluteAngles == Accumulated(drawAngles)
      requires cnt0 == |drawAngles|
      modifies this`drawAngles, this`absoluteAngles
      ensures drawAngles == DrawAngles(done + entries, yValueSum, maxAngle)
      ensures absoluteAngles == Accumulated(drawAngles)
      ensures cnt == |drawAngles|
    {
      cnt := cnt0;
      for ei := 0 to |entries|
        invariant drawAngles == DrawAngles(done + entries[..ei], yValueSum, maxAngle)
        invariant absoluteAngles == Accumulated(drawAngles)
        invariant cnt == |drawAngles|
      {
        PrefixStep(done, entries, ei);
        AppendAngle(done + entries[..ei], entries[ei], cnt);
        cnt := cnt + 1;
      }
      assert entries[..|entries|] == entries;
    }

    /** One step of `calcAngles`: the angle of `y` appended, and the running angle. */
    method AppendAngle(ghost prefix: seq<real>, y: real, cnt: int)
      requires yValueSum != 0.0 && cnt == |drawAngles|
      requires drawAngles == DrawAngles(prefix, yValueSum, maxAngle)
      requires absoluteAngles == Accumulated(drawAngles)
      modifies this`drawAngles, this`absoluteAngles
      ensures drawAngles == DrawAngles(prefix + [y], yValueSum, maxAngle)
      ensures absoluteAngles == Accumulated(drawAngles)
    {
      var angle := CalcAngle(Abs(y), yValueSum, maxAngle);
      var d, acc := drawAngles, absoluteAngles;
      var running := if cnt == 0 then angle else acc[cnt - 1] + angle;
      drawAngles, absoluteAngles := d + [angle], acc + [running];
      AngleAppended(prefix, y, yValueSum, maxAngle, d, acc, drawAngles, absoluteAngles);
    }

    /** `indexForAngle(_:)`: the first slice whose running angle lies beyond the touch
      * angle, taken relative to the rotation and normalised. */
    function IndexForAngle(angle: real): (r: Option<nat>)
      reads this
      ensures var a := ChartUtils.Normalized(angle - rotationAngle);
        (r.None? <==> forall i :: 0 <= i < |absoluteAngles| ==> absoluteAngles[i] <= a) &&
        (r.Some? ==>
          r.value < |absoluteAngles| && absoluteAngles[r.value] > a &&
          forall j :: 0 <= j < r.value ==> absoluteAngles[j] <= a)
    {
      FirstAbove(absoluteAngles, ChartUtils.Normalized(angle - rotationAngle))
    }
  }

  /** For non-negative values whose `yValueSum` is their sum, the slices fill the pie:
    * the last running angle is `maxAngle`. */
  lemma SlicesFillMaxAngle(ys: seq<real>, yValueSum: real, maxAngle: real)
    requires |ys| > 0 && yValueSum != 0.0
    requires forall i :: 0 <= i < |ys| ==> ys[i] >= 0.0
    requires yValueSum == Sum(ys)
    ensures Accumulated(DrawAngles(ys, yValueSum, maxAngle))[|ys| - 1] == maxAngle
  {
    var d := DrawAngles(ys, yValueSum, maxAngle);
    AccumulatedIsPrefixSum(d, |ys| - 1);
    assert d[..|ys|] == d;
    SumOfDrawAngles(ys, yValueSum, maxAngle);
    AbsAllOfNonNegative(ys);
    CalcAngleShares(yValueSum, 0.0, yValueSum, maxAngle);
  }

  /** With a positive `yValueSum` and running angles from `calcAngles`, the index
    * found for an angle is the slice that spans it: that slice ends beyond the angle,
    * and every slice before it ends at or before it, and every later one beyond it. */
  lemma IndexForAngleIsSpanningSlice(ys: seq<real>, yValueSum: real, maxAngle: real, a: real, k: nat)
    requires yValueSum > 0.0 && maxAngle >= 0.0
    requires FirstAbove(Accumulated(DrawAngles(ys, yValueSum, maxAngle)), a) == Some(k)
    ensures var abs := Accumulated(DrawAngles(ys, yValueSum, maxAngle));
      (k == 0 || abs[k - 1] <= a) && a < abs[k] &&
      forall j :: k <= j < |abs| ==> abs[j] > a
  {
    var d := DrawAngles(ys, yValueSum, maxAngle);
    DrawAnglesNonNegative(ys, yValueSum, maxAngle);
    FirstAboveOfRunningAngles(d, a, k);
  }

  lemma DrawAnglesNonNegative(ys: seq<real>, yValueSum: real, maxAngle: real)
    requires yValueSum > 0.0 && maxAngle >= 0.0
    ensures forall i :: 0 <= i < |ys| ==> DrawAngles(ys, yValueSum, maxAngle)[i] >= 0.0
  {
    forall i | 0 <= i < |ys|
      ensures DrawAngles(ys, yValueSum, maxAngle)[i] >= 0.0
    {
      CalcAngleNonNegative(Abs(ys[i]), yValueSum, maxAngle);
    }
  }

  lemma FirstAboveOfRunningAngles(d: seq<real>, a: real, k: nat)
    requires forall i :: 0 <= i < |d| ==> d[i] >= 0.0
    requires FirstAbove(Accumulated(d), a) == Some(k)
    ensures var abs := Accumulated(d);
      (k == 0 || abs[k - 1] <= a) && a < abs[k] &&
      forall j :: k <= j < |abs| ==> abs[j] > a
  {
    forall j | k <= j < |d|
      ensures Accumulated(d)[j] > a
    {
      AccumulatedNondecreasing(d, k, j);
    }
  }
}
