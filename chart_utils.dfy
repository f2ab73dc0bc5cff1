/** `ChartUtils`, the earlier utility class: angle normalisation, choosing the
  * selection detail closest to a value, and the conversions between Swift arrays of
  * optionals and Objective-C arrays that hold `NSNull` for a missing element. */
module ChartUtils {
  import opened Common

  // ---------------------------------------------------------------------------
  // Angles

  /** `truncatingRemainder(dividingBy:)`: the remainder of the quotient rounded toward zero. */
  function TruncatingRemainder(x: real, d: real): real
    requires d > 0.0
  {
    var q := x / d;
    var t := if q >= 0.0 then q.Floor else -((-q).Floor);
    x - d * (t as real)
  }

  /** The angle in [0, 360) that differs from `angle` by whole turns. */
  function Normalized(angle: real): (r: real)
    ensures 0.0 <= r < 360.0
    ensures r - angle == 360.0 * (((angle / 360.0).Floor) as real) * -1.0
  {
    var k := (angle / 360.0).Floor;
    assert (k as real) <= angle / 360.0 < (k as real) + 1.0;
    angle - 360.0 * (k as real)
  }

  /** `d` is a whole number of turns. */
  predicate WholeTurns(d: real)
  {
    ((d / 360.0).Floor as real) == d / 360.0
  }

  /** Whole turns do not change the normalised angle. */
  lemma NormalizedPeriodic(angle: real, k: int)
    ensures Normalized(angle + 360.0 * (k as real)) == Normalized(angle)
  {
    var q := angle / 360.0;
    assert (angle + 360.0 * (k as real)) / 360.0 == q + (k as real);
    FloorShift(q, k);
  }

  lemma FloorShift(q: real, k: int)
    ensures (q + (k as real)).Floor == q.Floor + k
  {
    var f := q.Floor;
    assert (f as real) <= q < (f as real) + 1.0;
    assert ((f + k) as real) <= q + (k as real) < ((f + k) as real) + 1.0;
  }

  /** An angle already in [0, 360) is its own normal form. */
  lemma NormalizedInRange(angle: real)
    requires 0.0 <= angle < 360.0
    ensures Normalized(angle) == angle
  {
    assert (angle / 360.0).Floor == 0;
  }

  /** `normalizedAngleFromAngle(_:)`: whole turns added until the angle is not
    * negative, then the remainder after whole turns; the result lies in [0, 360)
    * and differs from the input by a multiple of 360. */
  method NormalizedAngleFromAngle(angle0: real) returns (r: real)
    ensures r == Normalized(angle0)
    ensures 0.0 <= r < 360.0
    ensures WholeTurns(r - angle0)
  {
    var angle := angle0;
    ghost var turns: nat := 0;
    while angle < 0.0
      invariant angle == angle0 + 360.0 * (turns as real)
      decreases if angle < 0.0 then (-angle).Floor + 1 else 0
    {
      angle := angle + 360.0;
      turns := turns + 1;
    }
    r := TruncatingRemainder(angle, 360.0);
    RemainderOfNonNegative(angle);
    NormalizedPeriodic(angle0, turns);
    NormalizedWholeTurns(angle0);
  }

  /** For a non-negative angle the truncating remainder is the normalised angle. */
  lemma RemainderOfNonNegative(angle: real)
    requires angle >= 0.0
    ensures TruncatingRemainder(angle, 360.0) == Normalized(angle)
  {
    assert angle / 360.0 >= 0.0;
  }

  /** The normalised angle differs from the angle by whole turns. */
  lemma NormalizedWholeTurns(angle: real)
    ensures WholeTurns(Normalized(angle) - angle)
  {
    var k := -((angle / 360.0).Floor);
    var d := Normalized(angle) - angle;
    assert d == 360.0 * (k as real);
    assert d / 360.0 == k as real;
  }

  // ---------------------------------------------------------------------------
  // Selection details

  /** A `ChartSelectionDetail`: its value, its data set's index, and the axis of its
    * data set (`None` when it has no data set). */
  datatype SelectionDetail = SelectionDetail(value: real, dataSetIndex: int, axis: Option<AxisDependency>)

  /** The axis filter: no axis admits every detail, an axis only the details whose
    * data set depends on it. */
  predicate OnAxis(sel: SelectionDetail, axis: Option<AxisDependency>)
  {
    axis.None? || sel.axis == axis
  }

  /** The details `closestSelectionDetailByValue` can choose: admitted by the filter
    * and closer than `DBL_MAX`, the distance the search starts from. */
  predicate Candidate(sel: SelectionDetail, value: real, axis: Option<AxisDependency>)
  {
    OnAxis(sel, axis) && Abs(sel.value - value) < GreatestFinite
  }

  /** `i` holds the first candidate of `vals` at the least distance from `value`. */
  ghost predicate ClosestAt(vals: seq<SelectionDetail>, value: real, axis: Option<AxisDependency>, i: int)
  {
    0 <= i < |vals| && Candidate(vals[i], value, axis) &&
    (forall j :: 0 <= j < i && OnAxis(vals[j], axis) ==> Abs(vals[j].value - value) > Abs(vals[i].value - value)) &&
    (forall j :: i < j < |vals| && OnAxis(vals[j], axis) ==> Abs(vals[j].value - value) >= Abs(vals[i].value - value))
  }

  /** `closestSelectionDetailByValue(valsAtIndex:value:axis:)`: nil when no detail is a
    * candidate; otherwise the candidate closest to `value`, the first one on ties. */
  method ClosestSelectionDetailByValue(vals: seq<SelectionDetail>, value: real, axis: Option<AxisDependency>)
    returns (detail: Option<SelectionDetail>)
    ensures detail.None? <==> forall i :: 0 <= i < |vals| ==> !Candidate(vals[i], value, axis)
    ensures detail.Some? ==> exists i :: ClosestAt(vals, value, axis, i) && vals[i] == detail.value
  {
    var distance := GreatestFinite;
    detail := None;
    ghost var best := -1;
    var i := 0;
    while i < |vals|
      invariant 0 <= i <= |vals|
      invariant detail.None? <==> best == -1
      invariant best == -1 ==> distance == GreatestFinite && forall j :: 0 <= j < i ==> !Candidate(vals[j], value, axis)
      invariant best != -1 ==> 0 <= best < i && Candidate(vals[best], value, axis)
      invariant best != -1 ==> detail == Some(vals[best]) && distance == Abs(vals[best].value - value)
      invariant best != -1 ==> forall j :: 0 <= j < best && OnAxis(vals[j], axis) ==> Abs(vals[j].value - value) > distance
      invariant best != -1 ==> forall j :: best < j < i && OnAxis(vals[j], axis) ==> Abs(vals[j].value - value) >= distance
    {
      var sel := vals[i];
      if axis.None? || sel.axis == axis {
        var cdistance := Abs(sel.value - value);
        if cdistance < distance {
          detail := Some(sel);
          distance := cdistance;
          best := i;
        }
      }
      i := i + 1;
    }
    if best != -1 {
      assert ClosestAt(vals, value, axis, best);
    }
  }

  /** The choice is unique: two positions that are both "first closest" coincide. */
  lemma ClosestAtUnique(vals: seq<SelectionDetail>, value: real, axis: Option<AxisDependency>, i: int, j: int)
    requires ClosestAt(vals, value, axis, i) && ClosestAt(vals, value, axis, j)
    ensures i == j
  {
  }

  // ---------------------------------------------------------------------------
  // Bridging

  /** An element of an Objective-C array: `NSNull`, a colour or a string. */
  datatype ObjCObject = NSNull | ColorObject(color: Color) | StringObject(text: string)

  function BridgeColor(v: Option<Color>): ObjCObject
  {
    if v.None? then NSNull else ColorObject(v.value)
  }

  /** `object as? NSUIColor`. */
  function UnbridgeColor(o: ObjCObject): Option<Color>
  {
    if o.ColorObject? then Some(o.color) else None
  }

  function BridgeString(v: Option<string>): ObjCObject
  {
    if v.None? then NSNull else StringObject(v.value)
  }

  /** `object as? String`. */
  function UnbridgeString(o: ObjCObject): Option<string>
  {
    if o.StringObject? then Some(o.text) else None
  }

  /** Bridging an element there and back gives it back, nil included; a nil becomes
    * `NSNull`, and only `NSNull` (or an object of another kind) comes back as nil. */
  lemma BridgeRoundTrips(c: Option<Color>, s: Option<string>, o: ObjCObject)
    ensures UnbridgeColor(BridgeColor(c)) == c && UnbridgeString(BridgeString(s)) == s
    ensures BridgeColor(c) == NSNull <==> c.None?
    ensures BridgeString(s) == NSNull <==> s.None?
    ensures o.ColorObject? ==> BridgeColor(UnbridgeColor(o)) == o
    ensures o.StringObject? ==> BridgeString(UnbridgeString(o)) == o
  {
  }

  /** `bridgedObjCGetNSUIColorArray(swift:)`: one object per element, `NSNull` for nil. */
  method BridgedColorsToObjC(items: seq<Option<Color>>) returns (r: seq<ObjCObject>)
    ensures |r| == |items|
    ensures forall i :: 0 <= i < |r| ==> r[i] == BridgeColor(items[i])
  {
    r := [];
    for i := 0 to |items|
      invariant |r| == i && forall k :: 0 <= k < i ==> r[k] == BridgeColor(items[k])
    {
      var val := items[i];
      if val.None? {
        r := r + [NSNull];
      } else {
        r := r + [ColorObject(val.value)];
      }
    }
  }

  /** `bridgedObjCGetNSUIColorArray(objc:)`: one optional per object, nil where it is
    * not a colour. */
  method BridgedColorsFromObjC(items: seq<ObjCObject>) returns (r: seq<Option<Color>>)
    ensures |r| == |items|
    ensures forall i :: 0 <= i < |r| ==> r[i] == UnbridgeColor(items[i])
  {
    r := [];
    for i := 0 to |items|
      invariant |r| == i && forall k :: 0 <= k < i ==> r[k] == UnbridgeColor(items[k])
    {
      r := r + [UnbridgeColor(items[i])];
    }
  }

  /** `bridgedObjCGetStringArray(swift:)`. */
  method BridgedStringsToObjC(items: seq<Option<string>>) returns (r: seq<ObjCObject>)
    ensures |r| == |items|
    ensures forall i :: 0 <= i < |r| ==> r[i] == BridgeString(items[i])
  {
    r := [];
    for i := 0 to |items|
      invariant |r| == i && forall k :: 0 <= k < i ==> r[k] == BridgeString(items[k])
    {
      var val := items[i];
      if val.None? {
        r := r + [NSNull];
      } else {
        r := r + [StringObject(val.value)];
      }
    }
  }

  /** `bridgedObjCGetStringArray(objc:)`. */
  method BridgedStringsFromObjC(items: seq<ObjCObject>) returns (r: seq<Option<string>>)
    ensures |r| == |items|
    ensures forall i :: 0 <= i < |r| ==> r[i] == UnbridgeString(items[i])
  {
    r := [];
    for i := 0 to |items|
      invariant |r| == i && forall k :: 0 <= k < i ==> r[k] == UnbridgeString(items[k])
    {
      r := r + [UnbridgeString(items[i])];
    }
  }

  /** Bridging a string array to Objective-C and back returns it unchanged: the same
    * length, and nil exactly where it was nil. */
  method StringArrayRoundTrip(items: seq<Option<string>>) returns (back: seq<Option<string>>)
    ensures back == items
    ensures forall i :: 0 <= i < |back| ==> (back[i].None? <==> items[i].None?)
  {
    var objc := BridgedStringsToObjC(items);
    back := BridgedStringsFromObjC(objc);
    assert forall i :: 0 <= i < |back| ==> back[i] == UnbridgeString(BridgeString(items[i]));
  }

  /** The same for a colour array. */
  method ColorArrayRoundTrip(items: seq<Option<Color>>) returns (back: seq<Option<Color>>)
    ensures back == items
  {
    var objc := BridgedColorsToObjC(items);
    back := BridgedColorsFromObjC(objc);
    assert forall i :: 0 <= i < |back| ==> back[i] == UnbridgeColor(BridgeColor(items[i]));
  }
}
