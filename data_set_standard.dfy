/** The array-backed `ChartDataSet` (`_values`): cached x/y bounds, a halving search
  * for the entry closest to an x value with rounding and a y refinement, a binary
  * search for every entry at an x value, and the mutators that keep the bounds up
  * to date. A NaN `closestToY` is `None`. */
module DataSetStandard {
  import opened Common

  // ---------------------------------------------------------------------------
  // entryIndex(x:closestToY:rounding:)

  /** How far the entry at `k` lies from `v` along x. */
  function Dist(s: seq<Entry>, k: int, v: real): real
    requires 0 <= k < |s|
  {
    Abs(s[k].x - v)
  }

  /** What the search loop keeps on x-sorted entries: everything left of `low` lies
    * below `v` and is no closer than `low`; everything right of `high` lies at or
    * above `v` and is no closer than `high`. */
  ghost predicate SearchInv(s: seq<Entry>, v: real, low: int, high: int)
    requires 0 <= low <= high < |s|
  {
    (forall k :: 0 <= k < low ==> s[k].x < v && Dist(s, low, v) <= Dist(s, k, v)) &&
    (forall k :: high < k < |s| ==> s[k].x >= v && Dist(s, high, v) <= Dist(s, k, v))
  }

  /** One pass of the search loop (lines 275-302): compare the middle entry with its
    * right neighbour and keep the half holding the closer one; on a tie, go left
    * when the middle lies at or above `v`. The window shrinks. */
  function SearchStep(s: seq<Entry>, v: real, low: int, high: int): (w: (int, int))
    requires 0 <= low < high < |s|
    ensures low <= w.0 <= w.1 <= high && w.1 - w.0 < high - low
  {
    var m := (low + high) / 2;
    var d1 := s[m].x - v;
    var d2 := s[m + 1].x - v;
    if Abs(d2) < Abs(d1) then (m + 1, high)
    else if Abs(d1) < Abs(d2) then (low, m)
    else if d1 >= 0.0 then (low, m)
    else (m + 1, high)
  }

  lemma SearchStepKeepsInv(s: seq<Entry>, v: real, low: int, high: int)
    requires 0 <= low < high < |s|
    requires SortedByX(s) && SearchInv(s, v, low, high)
    ensures SearchInv(s, v, SearchStep(s, v, low, high).0, SearchStep(s, v, low, high).1)
  {
    var m := (low + high) / 2;
    var (l, h) := SearchStep(s, v, low, high);
    if l == m + 1 {
      // The middle lies below `v`, so everything up to it does and is farther away.
      assert s[m].x < v;
      forall k | 0 <= k < l ensures s[k].x < v && Dist(s, l, v) <= Dist(s, k, v) {
        assert s[k].x <= s[m].x;
      }
    } else {
      // Everything after the middle lies at or above `v` and is farther away.
      assert h == m;
      forall k | h < k < |s| ensures s[k].x >= v && Dist(s, h, v) <= Dist(s, k, v) {
        assert s[m].x <= s[m + 1].x <= s[k].x;
      }
    }
  }

  /** The search loop, run to its end: the final `high`, which the loop leaves in
    * `closest`. */
  function ClosestSearch(s: seq<Entry>, v: real, low: int, high: int): (r: int)
    requires 0 <= low <= high < |s|
    ensures low <= r <= high
    decreases high - low
  {
    if low < high then
      var w := SearchStep(s, v, low, high);
      ClosestSearch(s, v, w.0, w.1)
    else high
  }

  /** On x-sorted entries the search finds an entry closest to `v`, with every entry
    * before it below `v` and every entry after it at or above `v`. */
  lemma {:induction false} ClosestSearchIsClosest(s: seq<Entry>, v: real, low: int, high: int)
    requires 0 <= low <= high < |s|
    requires SortedByX(s) && SearchInv(s, v, low, high)
    ensures var r := ClosestSearch(s, v, low, high);
      (forall k :: 0 <= k < r ==> s[k].x < v) &&
      (forall k :: r < k < |s| ==> s[k].x >= v) &&
      (forall k :: 0 <= k < |s| ==> Dist(s, r, v) <= Dist(s, k, v))
    decreases high - low
  {
    if low < high {
      SearchStepKeepsInv(s, v, low, high);
      var w := SearchStep(s, v, low, high);
      ClosestSearchIsClosest(s, v, w.0, w.1);
    }
  }

  /** The rounding step (lines 312-325): step one entry up (down) when the found
    * entry lies below (above) `xValue` and there is an entry to step to. */
  function RoundedIndex(s: seq<Entry>, closest: int, xValue: real, rounding: Rounding): (r: int)
    requires 0 <= closest < |s|
    ensures 0 <= r < |s| && (r == closest || r == closest + 1 || r == closest - 1)
  {
    var closestXValue := s[closest].x;
    match rounding
    case Up => if closestXValue < xValue && closest < |s| - 1 then closest + 1 else closest
    case Down => if closestXValue > xValue && closest > 0 then closest - 1 else closest
    case Closest => closest
  }

  /** The forward y scan (lines 334-350) from `i`, over the entries at `xv`, keeping
    * `best` (whose y is `bestY`) unless an entry is strictly closer to `y`; a
    * replacement records that entry's own y (see Findings). */
  function ScanY(s: seq<Entry>, i: int, xv: real, y: real, bestY: real, best: int): (r: int)
    requires 0 <= best <= i < |s| && bestY == s[best].y
    ensures r == best || (i < r < RunEnd(s, i, xv) && s[r].x == xv)
    ensures Abs(s[r].y - y) <= Abs(bestY - y)
    decreases |s| - i
  {
    if i + 1 >= |s| then best
    else if s[i + 1].x != xv then best
    else
      if Abs(s[i + 1].y - y) < Abs(bestY - y) then ScanY(s, i + 1, xv, y, s[i + 1].y, i + 1)
      else ScanY(s, i + 1, xv, y, bestY, best)
  }

  /** One step of the forward y scan. */
  lemma ScanYUnfold(s: seq<Entry>, i: int, xv: real, y: real, bestY: real, best: int)
    requires 0 <= best <= i < |s| && bestY == s[best].y
    ensures ScanY(s, i, xv, y, bestY, best) ==
      if i + 1 >= |s| || s[i + 1].x != xv then best
      else if Abs(s[i + 1].y - y) < Abs(bestY - y) then ScanY(s, i + 1, xv, y, s[i + 1].y, i + 1)
      else ScanY(s, i + 1, xv, y, bestY, best)
  {
  }

  /** The scan ends on an entry no farther from `y` than any entry of the run after `i`. */
  lemma {:induction false} ScanYMinimal(s: seq<Entry>, i: int, xv: real, y: real, bestY: real, best: int)
    requires 0 <= best <= i < |s| && bestY == s[best].y
    ensures NoCloserIn(s, ScanY(s, i, xv, y, bestY, best), i, RunEnd(s, i, xv), y)
    decreases |s| - i
  {
    ScanYUnfold(s, i, xv, y, bestY, best);
    if i + 1 < |s| && s[i + 1].x == xv {
      var e := RunEnd(s, i + 1, xv);
      assert RunEnd(s, i, xv) == e;
      var r := ScanY(s, i, xv, y, bestY, best);
      if Abs(s[i + 1].y - y) < Abs(bestY - y) {
        ScanYMinimal(s, i + 1, xv, y, s[i + 1].y, i + 1);
      } else {
        ScanYMinimal(s, i + 1, xv, y, bestY, best);
      }
      NoCloserExtend(s, r, i, e, y);
    }
  }

  /** No entry strictly between `lo` and `hi` is closer to `y` than the entry at `r`. */
  ghost predicate NoCloserIn(s: seq<Entry>, r: int, lo: int, hi: int, y: real)
    requires 0 <= r < |s| && 0 <= lo && hi <= |s|
  {
    forall k :: lo < k < hi ==> Abs(s[r].y - y) <= Abs(s[k].y - y)
  }

  lemma NoCloserExtend(s: seq<Entry>, r: int, i: int, hi: int, y: real)
    requires 0 <= r < |s| && 0 <= i && i + 1 < hi <= |s|
    requires NoCloserIn(s, r, i + 1, hi, y) && Abs(s[r].y - y) <= Abs(s[i + 1].y - y)
    ensures NoCloserIn(s, r, i, hi, y)
  {
  }


  /** The scan only moves to a strictly closer entry, so on a tie it keeps the first. */
  lemma {:induction false} ScanYFirstOnTies(s: seq<Entry>, i: int, xv: real, y: real, bestY: real, best: int)
    requires 0 <= best <= i < |s| && bestY == s[best].y
    ensures var r := ScanY(s, i, xv, y, bestY, best);
      (r != best ==> Abs(s[r].y - y) < Abs(bestY - y)) &&
      (forall k :: i < k < r ==> Abs(s[r].y - y) < Abs(s[k].y - y))
    decreases |s| - i, 1
  {
    if i + 1 < |s| && s[i + 1].x == xv {
      if Abs(s[i + 1].y - y) < Abs(bestY - y) {
        ScanYTieReplaced(s, i, xv, y, bestY, best);
      } else {
        ScanYTieKept(s, i, xv, y, bestY, best);
      }
    }
  }

  /** The step of `ScanYFirstOnTies` where the next entry is strictly closer. */
  lemma {:induction false} ScanYTieReplaced(s: seq<Entry>, i: int, xv: real, y: real, bestY: real, best: int)
    requires 0 <= best <= i && i + 1 < |s| && bestY == s[best].y && s[i + 1].x == xv
    requires Abs(s[i + 1].y - y) < Abs(bestY - y)
    ensures var r := ScanY(s, i, xv, y, bestY, best);
      (r != best ==> Abs(s[r].y - y) < Abs(bestY - y)) &&
      (forall k :: i < k < r ==> Abs(s[r].y - y) < Abs(s[k].y - y))
    decreases |s| - i, 0
  {
    var r := ScanY(s, i + 1, xv, y, s[i + 1].y, i + 1);
    assert ScanY(s, i, xv, y, bestY, best) == r;
    ScanYFirstOnTies(s, i + 1, xv, y, s[i + 1].y, i + 1);
  }

  /** The step of `ScanYFirstOnTies` where the next entry is not strictly closer. */
  lemma {:induction false} ScanYTieKept(s: seq<Entry>, i: int, xv: real, y: real, bestY: real, best: int)
    requires 0 <= best <= i && i + 1 < |s| && bestY == s[best].y && s[i + 1].x == xv
    requires Abs(s[i + 1].y - y) >= Abs(bestY - y)
    ensures var r := ScanY(s, i, xv, y, bestY, best);
      (r != best ==> Abs(s[r].y - y) < Abs(bestY - y)) &&
      (forall k :: i < k < r ==> Abs(s[r].y - y) < Abs(s[k].y - y))
    decreases |s| - i, 0
  {
    var r := ScanY(s, i + 1, xv, y, bestY, best);
    assert ScanY(s, i, xv, y, bestY, best) == r;
    ScanYFirstOnTies(s, i + 1, xv, y, bestY, best);
  }

  /** The forward y scan as written: a replacement records the target `y` instead of
    * the entry's y, so later entries are compared against a distance of zero. */
  function ScanYAsWritten(s: seq<Entry>, i: int, xv: real, y: real, bestY: real, best: int): (r: int)
    requires 0 <= best <= i < |s|
    ensures best <= r < |s|
    decreases |s| - i
  {
    if i + 1 >= |s| || s[i + 1].x != xv then best
    else if Abs(s[i + 1].y - y) < Abs(bestY - y) then ScanYAsWritten(s, i + 1, xv, y, y, i + 1)
    else ScanYAsWritten(s, i + 1, xv, y, bestY, best)
  }

  /** Three entries at x = 1 with y 10, 7 and 5, looking for y = 0: the scan as written
    * settles on the 7, the intended scan on the 5. */
  lemma ScanYAsWrittenMissesClosest()
    ensures var s := [Entry(1.0, 10.0), Entry(1.0, 7.0), Entry(1.0, 5.0)];
      ScanYAsWritten(s, 0, 1.0, 0.0, 10.0, 0) == 1 && ScanY(s, 0, 1.0, 0.0, 10.0, 0) == 2
  {
  }

  /** `entryIndex(x:closestToY:rounding:)`: -1 on no entries, otherwise a position:
    * the search result, rounded, then moved to the entry of its run closest in y. */
  function EntryIndexSpec(s: seq<Entry>, xValue: real, yValue: Option<real>, rounding: Rounding): (r: int)
    ensures r == -1 <==> s == []
    ensures s != [] ==> 0 <= r < |s|
  {
    if |s| == 0 then -1
    else
      var found := ClosestSearch(s, xValue, 0, |s| - 1);
      var closestXValue := s[found].x;
      RefineY(s, RoundedIndex(s, found, xValue, rounding), closestXValue, yValue)
  }

  /** `entryIndex` on entries: the search, the rounding step, then the y refinement. */
  lemma EntryIndexSpecUnfold(s: seq<Entry>, xValue: real, yValue: Option<real>, rounding: Rounding)
    requires s != []
    ensures var found := ClosestSearch(s, xValue, 0, |s| - 1);
      var rounded := RoundedIndex(s, found, xValue, rounding);
      EntryIndexSpec(s, xValue, yValue, rounding) ==
        (if yValue.None? then rounded else RefineY(s, rounded, s[found].x, yValue))
  {
  }

  /** The y refinement (lines 327-353): with a y, back to the start of the run at
    * `closestXValue`, then the forward scan. */
  function RefineY(s: seq<Entry>, closest: int, closestXValue: real, yValue: Option<real>): (r: int)
    requires 0 <= closest < |s|
    ensures 0 <= r < |s|
  {
    match yValue
    case None => closest
    case Some(y) =>
      var start := RunStart(s, closest, closestXValue);
      ScanY(s, start, closestXValue, y, s[start].y, start)
  }

  /** Rounding `.closest` without a y: an entry of least x distance. */
  lemma EntryIndexClosest(s: seq<Entry>, xValue: real)
    requires SortedByX(s) && s != []
    ensures var r := EntryIndexSpec(s, xValue, None, Closest);
      forall k :: 0 <= k < |s| ==> Dist(s, r, xValue) <= Dist(s, k, xValue)
  {
    ClosestSearchIsClosest(s, xValue, 0, |s| - 1);
  }

  /** Rounding `.up` without a y: every entry before the result lies below `xValue`,
    * and the result lies at or above it whenever some entry does. */
  lemma EntryIndexUp(s: seq<Entry>, xValue: real)
    requires SortedByX(s) && s != []
    ensures var r := EntryIndexSpec(s, xValue, None, Up);
      (forall k :: 0 <= k < r ==> s[k].x < xValue) &&
      (s[|s| - 1].x >= xValue ==> s[r].x >= xValue)
  {
    ClosestSearchIsClosest(s, xValue, 0, |s| - 1);
    var found := ClosestSearch(s, xValue, 0, |s| - 1);
    if s[found].x < xValue && found < |s| - 1 {
      assert s[found + 1].x >= xValue;
    }
  }

  /** Rounding `.down` without a y: every entry after the result lies at or above
    * `xValue`, and the result lies at or below it whenever some entry does. */
  lemma EntryIndexDown(s: seq<Entry>, xValue: real)
    requires SortedByX(s) && s != []
    ensures var r := EntryIndexSpec(s, xValue, None, Down);
      (forall k :: r < k < |s| ==> s[k].x >= xValue) &&
      (s[0].x <= xValue ==> s[r].x <= xValue)
  {
    ClosestSearchIsClosest(s, xValue, 0, |s| - 1);
    var found := ClosestSearch(s, xValue, 0, |s| - 1);
    if s[found].x > xValue && found > 0 {
      assert s[found - 1].x < xValue;
    }
  }

  /** Position `r` holds an entry at `xv` closest to `y` among all entries at `xv`,
    * and the first such. */
  ghost predicate ClosestInY(s: seq<Entry>, r: int, xv: real, y: real)
  {
    0 <= r < |s| && s[r].x == xv &&
    (forall k :: 0 <= k < |s| && s[k].x == xv ==> Abs(s[r].y - y) <= Abs(s[k].y - y)) &&
    (forall k :: 0 <= k < r && s[k].x == xv ==> Abs(s[r].y - y) < Abs(s[k].y - y))
  }

  /** On x-sorted entries, refining at the x of `c` picks the entry closest to `y`
    * among all entries at that x, the first such on a tie. */
  lemma RefineYIsClosest(s: seq<Entry>, c: int, y: real)
    requires SortedByX(s) && 0 <= c < |s|
    ensures ClosestInY(s, RefineY(s, c, s[c].x, Some(y)), s[c].x, y)
  {
    var xv := s[c].x;
    var start := RunStart(s, c, xv);
    assert RefineY(s, c, xv, Some(y)) == ScanY(s, start, xv, y, s[start].y, start);
    RunHoldsAll(s, start, xv);
    ScanYClosestInRun(s, start, xv, y);
  }

  /** When the run from `start` holds every entry at `xv`, the scan from `start`
    * picks the entry at `xv` closest to `y`, the first such on a tie. */
  lemma ScanYClosestInRun(s: seq<Entry>, start: int, xv: real, y: real)
    requires 0 <= start < |s| && s[start].x == xv
    requires forall k :: 0 <= k < |s| && s[k].x == xv ==> start <= k < RunEnd(s, start, xv)
    ensures ClosestInY(s, ScanY(s, start, xv, y, s[start].y, start), xv, y)
  {
    var r := ScanY(s, start, xv, y, s[start].y, start);
    ScanYFirstOnTies(s, start, xv, y, s[start].y, start);
    ScanYMinimal(s, start, xv, y, s[start].y, start);
    forall k | 0 <= k < |s| && s[k].x == xv ensures Abs(s[r].y - y) <= Abs(s[k].y - y) {
      if k == start {
        assert Abs(s[r].y - y) <= Abs(s[start].y - y);
      }
    }
  }

  /** Rounding `.closest` with a y: the result shares the x of the closest entry, is
    * closest to `y` among all entries at that x, and is the first such on a tie. */
  lemma EntryIndexClosestY(s: seq<Entry>, xValue: real, y: real)
    requires SortedByX(s) && s != []
    ensures var c := EntryIndexSpec(s, xValue, None, Closest);
      ClosestInY(s, EntryIndexSpec(s, xValue, Some(y), Closest), s[c].x, y)
  {
    var c := EntryIndexSpec(s, xValue, None, Closest);
    assert c == ClosestSearch(s, xValue, 0, |s| - 1);
    assert EntryIndexSpec(s, xValue, Some(y), Closest) == RefineY(s, c, s[c].x, Some(y));
    RefineYIsClosest(s, c, y);
  }

  // ---------------------------------------------------------------------------
  // addEntryOrdered(_:)

  /** `while values[i].x < v { i += 1 }`, which stops because the last x exceeds `v`. */
  function Advance(s: seq<Entry>, i: int, v: real): (r: int)
    requires 0 <= i < |s| && s[|s| - 1].x > v
    ensures i <= r < |s| && s[r].x >= v
    ensures forall k :: i <= k < r ==> s[k].x < v
    decreases |s| - i
  {
    if s[i].x < v then Advance(s, i + 1, v) else i
  }

  /** Where `addEntryOrdered` inserts `e`: after a `.up` search for `e.x` with
    * closest-y `yValue`, moved past smaller x; at the end when `e` does not lie
    * before the last entry. */
  function OrderedPosition(s: seq<Entry>, e: Entry, yValue: Option<real>): (r: int)
    ensures 0 <= r <= |s|
  {
    if |s| > 0 && s[|s| - 1].x > e.x then Advance(s, EntryIndexSpec(s, e.x, yValue, Up), e.x)
    else |s|
  }

  /** Searching without a y, the insertion keeps x-sorted entries sorted. */
  lemma OrderedPositionKeepsSorted(s: seq<Entry>, e: Entry)
    requires SortedByX(s)
    ensures SortedByX(InsertAt(s, OrderedPosition(s, e, None), e))
  {
    var r := OrderedPosition(s, e, None);
    if |s| > 0 && s[|s| - 1].x > e.x {
      EntryIndexUp(s, e.x);
      var start := EntryIndexSpec(s, e.x, None, Up);
      assert r == start;
      forall k | r <= k < |s| ensures s[k].x >= e.x {
        assert s[r].x <= s[k].x;
      }
    } else {
      forall k | 0 <= k < |s| ensures s[k].x <= e.x {
        assert s[k].x <= s[|s| - 1].x;
      }
    }
    InsertAtKeepsSorted(s, r, e);
  }

  /** As written, the search takes `e.y` as its closest-y, which can move the start
    * into a run of larger x: inserting (4, 0) into (5, 10), (5, 0), (6, 0) lands
    * between the two entries at 5. */
  lemma AddEntryOrderedAsWrittenBreaksOrder()
    ensures var s := [Entry(5.0, 10.0), Entry(5.0, 0.0), Entry(6.0, 0.0)];
      var e := Entry(4.0, 0.0);
      SortedByX(s) && OrderedPosition(s, e, Some(e.y)) == 1 &&
      !SortedByX(InsertAt(s, OrderedPosition(s, e, Some(e.y)), e))
  {
    var s := [Entry(5.0, 10.0), Entry(5.0, 0.0), Entry(6.0, 0.0)];
    var e := Entry(4.0, 0.0);
    assert SearchStep(s, 4.0, 0, 2) == (0, 1);
    assert SearchStep(s, 4.0, 0, 1) == (0, 0);
    assert ClosestSearch(s, 4.0, 0, 2) == 0;
    assert RunStart(s, 0, 5.0) == 0;
    assert ScanY(s, 0, 5.0, 0.0, 10.0, 0) == 1;
    var t := InsertAt(s, 1, e);
    assert t[0].x > t[1].x;
  }

  // ---------------------------------------------------------------------------
  // calcMinMax()

  /** `calcMinMax()` as written: the empty check comes before the reset, so a data set
    * that has lost its last entry keeps the bounds it had. */
  function CalcMinMaxAsWritten(s: seq<Entry>, current: Bounds): (r: Bounds)
    ensures s != [] ==> r == BoundsOf(s)
    ensures s == [] ==> r == current
  {
    if s == [] then current else BoundsOf(s)
  }

  /** After removing the only entry (1, 1) the bounds stay at 1 instead of returning
    * to `±greatestFiniteMagnitude`. */
  lemma CalcMinMaxAsWrittenKeepsStaleBounds()
    ensures var stale := BoundsOf([Entry(1.0, 1.0)]);
      stale == Bounds(1.0, 1.0, 1.0, 1.0) && CalcMinMaxAsWritten([], stale) != BoundsOf([])
  {
    assert Xs([Entry(1.0, 1.0)]) == [1.0];
    assert Ys([Entry(1.0, 1.0)]) == [1.0];
  }

  // ---------------------------------------------------------------------------
  // The data set

  /** The forward y scan of the y refinement as a loop, from the run start `start`. */
  method ScanForward(vals: seq<Entry>, start: int, xv: real, yValue: real) returns (r: int)
    requires 0 <= start < |vals|
    ensures r == ScanY(vals, start, xv, yValue, vals[start].y, start)
  {
    var cur := start;
    var closestYValue := vals[cur].y;
    var closestYIndex := cur;
    while true
      invariant start <= closestYIndex <= cur < |vals|
      invariant closestYValue == vals[closestYIndex].y
      invariant ScanY(vals, cur, xv, yValue, closestYValue, closestYIndex)
             == ScanY(vals, start, xv, yValue, vals[start].y, start)
      decreases |vals| - cur
    {
      ScanYUnfold(vals, cur, xv, yValue, closestYValue, closestYIndex);
      if cur + 1 >= |vals| {
        break;
      }
      var value := vals[cur + 1];
      if value.x != xv {
        break;
      }
      cur := cur + 1;
      if Abs(value.y - yValue) < Abs(closestYValue - yValue) {
        closestYValue := value.y;
        closestYIndex := cur;
      }
    }
    r := closestYIndex;
  }

  class ChartDataSet {
    /** `_values`, expected in x order. */
    var values: seq<Entry>
    /** The cached bounds `_xMin`, `_xMax`, `_yMin`, `_yMax`. */
    var xMin: real
    var xMax: real
    var yMin: real
    var yMax: real

    function CurrentBounds(): Bounds
      reads this
    {
      Bounds(xMin, xMax, yMin, yMax)
    }

    /** Every entry lies inside the cached bounds. */
    ghost predicate BoundsCover()
      reads this
    {
      Covers(values, xMin, xMax, yMin, yMax)
    }

    /** `init()` and `init(label:)`: no entries and the initial bounds. */
    constructor Empty()
      ensures values == [] && CurrentBounds() == BoundsOf([])
    {
      values := [];
      xMin, xMax := GreatestFinite, -GreatestFinite;
      yMin, yMax := GreatestFinite, -GreatestFinite;
    }

    /** `init(values:label:)`: the entries, then `calcMinMax()`. */
    constructor (values: seq<Entry>)
      ensures this.values == values && CurrentBounds() == BoundsOf(values)
    {
      this.values := values;
      xMin, xMax := GreatestFinite, -GreatestFinite;
      yMin, yMax := GreatestFinite, -GreatestFinite;
      new;
      CalcMinMax();
    }

    /** The `values` setter: new entries, then `notifyDataSetChanged()`. */
    method SetValues(values: seq<Entry>)
      modifies this
      ensures this.values == values && CurrentBounds() == BoundsOf(values)
    {
      this.values := values;
      NotifyDataSetChanged();
    }

    /** `notifyDataSetChanged()`: recomputes the bounds. */
    method NotifyDataSetChanged()
      modifies this
      ensures values == old(values) && CurrentBounds() == BoundsOf(values)
    {
      CalcMinMax();
    }

    /** `calcMinMax()`, resetting the bounds before the empty check (see Findings):
      * the bounds become exactly those of the entries. */
    method CalcMinMax()
      modifies this
      ensures values == old(values)
      ensures CurrentBounds() == BoundsOf(values) && BoundsCover()
    {
      yMax := -GreatestFinite;
      yMin := GreatestFinite;
      xMax := -GreatestFinite;
      xMin := GreatestFinite;
      if |values| == 0 {
        return;
      }
      var i := 0;
      while i < |values|
        invariant 0 <= i <= |values| && values == old(values)
        invariant CurrentBounds() == BoundsOf(values[..i])
      {
        XsYsSnoc(values, i);
        FoldSnoc(Xs(values[..i]), values[i].x, GreatestFinite);
        FoldSnoc(Xs(values[..i]), values[i].x, -GreatestFinite);
        FoldSnoc(Ys(values[..i]), values[i].y, GreatestFinite);
        FoldSnoc(Ys(values[..i]), values[i].y, -GreatestFinite);
        CalcMinMaxForEntry(values[i]);
        i := i + 1;
      }
      assert values[..i] == values;
    }

    /** `calcMinMaxY(fromX:toX:)`: on a non-empty set, the y bounds of the entries from
      * the rounded-down position of `fromX` to the rounded-up position of `toX`
      * (initial when that range is empty); an empty set keeps its bounds. */
    method CalcMinMaxY(fromX: real, toX: real)
      modifies this
      ensures values == old(values) && xMin == old(xMin) && xMax == old(xMax)
      ensures values == [] ==> yMin == old(yMin) && yMax == old(yMax)
      ensures values != [] ==>
        var indexFrom := EntryIndexSpec(values, fromX, None, Down);
        var indexTo := EntryIndexSpec(values, toX, None, Up);
        if indexFrom <= indexTo then
          yMin == FoldMin(Ys(values[indexFrom..indexTo + 1]), GreatestFinite) &&
          yMax == FoldMax(Ys(values[indexFrom..indexTo + 1]), -GreatestFinite)
        else
          yMin == GreatestFinite && yMax == -GreatestFinite
    {
      if |values| == 0 {
        return;
      }
      yMax := -GreatestFinite;
      yMin := GreatestFinite;
      var indexFrom := EntryIndex(fromX, None, Down);
      var indexTo := EntryIndex(toX, None, Up);
      if indexTo < indexFrom {
        return;
      }
      FoldYRange(indexFrom, indexTo);
    }

    /** The loop of `calcMinMaxY(fromX:toX:)`: widens the y bounds by each entry of
      * `indexFrom...indexTo`. */
    method FoldYRange(indexFrom: int, indexTo: int)
      requires 0 <= indexFrom <= indexTo < |values|
      requires yMin == GreatestFinite && yMax == -GreatestFinite
      modifies this
      ensures values == old(values) && xMin == old(xMin) && xMax == old(xMax)
      ensures yMin == FoldMin(Ys(values[indexFrom..indexTo + 1]), GreatestFinite)
      ensures yMax == FoldMax(Ys(values[indexFrom..indexTo + 1]), -GreatestFinite)
    {
      var i := indexFrom;
      while i <= indexTo
        invariant indexFrom <= i <= indexTo + 1
        invariant values == old(values) && xMin == old(xMin) && xMax == old(xMax)
        invariant yMin == FoldMin(Ys(values[indexFrom..i]), GreatestFinite)
        invariant yMax == FoldMax(Ys(values[indexFrom..i]), -GreatestFinite)
      {
        FoldYSliceSnoc(values, indexFrom, i);
        CalcMinMaxYForEntry(values[i]);
        i := i + 1;
      }
    }

    /** `calcMinMaxX(entry:)`. */
    method CalcMinMaxXForEntry(e: Entry)
      modifies this
      ensures xMin == Min(e.x, old(xMin)) && xMax == Max(e.x, old(xMax))
      ensures values == old(values) && yMin == old(yMin) && yMax == old(yMax)
    {
      xMin := Min(e.x, xMin);
      xMax := Max(e.x, xMax);
    }

    /** `calcMinMaxY(entry:)`. */
    method CalcMinMaxYForEntry(e: Entry)
      modifies this
      ensures yMin == Min(e.y, old(yMin)) && yMax == Max(e.y, old(yMax))
      ensures values == old(values) && xMin == old(xMin) && xMax == old(xMax)
    {
      yMin := Min(e.y, yMin);
      yMax := Max(e.y, yMax);
    }

    /** `calcMinMax(entry:)`: widens all four bounds to include `e`. */
    method CalcMinMaxForEntry(e: Entry)
      modifies this
      ensures xMin == Min(e.x, old(xMin)) && xMax == Max(e.x, old(xMax))
      ensures yMin == Min(e.y, old(yMin)) && yMax == Max(e.y, old(yMax))
      ensures values == old(values)
    {
      CalcMinMaxXForEntry(e);
      CalcMinMaxYForEntry(e);
    }

    /** `entryForIndex(_:)`: the entry at `i`, or nil outside the entries. */
    function EntryForIndex(i: int): (r: Option<Entry>)
      reads this
      ensures r.None? <==> !(0 <= i < |values|)
      ensures r.Some? ==> r.value == values[i]
    {
      if 0 <= i < |values| then Some(values[i]) else None
    }

    /** `entryIndex(x:closestToY:rounding:)`. */
    method EntryIndex(xValue: real, yValue: Option<real>, rounding: Rounding) returns (r: int)
      ensures r == EntryIndexSpec(values, xValue, yValue, rounding)
    {
      var closest := SearchClosest(xValue);
      if closest == -1 {
        return closest;
      }
      ghost var found := closest;
      var closestXValue := values[closest].x;
      if rounding == Up && closestXValue < xValue && closest < |values| - 1 {
        closest := closest + 1;
      } else if rounding == Down && closestXValue > xValue && closest > 0 {
        closest := closest - 1;
      }
      assert closest == RoundedIndex(values, found, xValue, rounding);
      EntryIndexSpecUnfold(values, xValue, yValue, rounding);
      if yValue.Some? {
        closest := ClosestYIndex(closest, closestXValue, yValue.value);
      }
      return closest;
    }

    /** The search loop of `entryIndex` (lines 270-303): -1 on no entries. */
    method SearchClosest(xValue: real) returns (closest: int)
      ensures values == [] ==> closest == -1
      ensures values != [] ==> closest == ClosestSearch(values, xValue, 0, |values| - 1)
    {
      var low := 0;
      var high := |values| - 1;
      closest := high;
      while low < high
        invariant 0 <= low <= high < |values| || (|values| == 0 && low == 0 && high == -1)
        invariant closest == high
        invariant |values| > 0 ==> ClosestSearch(values, xValue, low, high) == ClosestSearch(values, xValue, 0, |values| - 1)
        decreases high - low
      {
        var m := (low + high) / 2;
        var d1 := values[m].x - xValue;
        var d2 := values[m + 1].x - xValue;
        var ad1, ad2 := Abs(d1), Abs(d2);
        ghost var w := SearchStep(values, xValue, low, high);
        if ad2 < ad1 {
          low := m + 1;
        } else if ad1 < ad2 {
          high := m;
        } else if d1 >= 0.0 {
          high := m;
        } else {
          low := m + 1;
        }
        assert (low, high) == w;
        closest := high;
      }
    }

    /** The y refinement of `entryIndex` (lines 327-353): back to the start of the
      * run at `closestXValue`, then forward keeping the entry strictly closer to
      * `yValue`, recording that entry's y (see Findings). */
    method ClosestYIndex(from: int, closestXValue: real, yValue: real) returns (r: int)
      requires 0 <= from < |values|
      ensures r == RefineY(values, from, closestXValue, Some(yValue))
    {
      var vals := values;
      var closest := StepBackOverRun(vals, from, closestXValue);
      r := ScanForward(vals, closest, closestXValue, yValue);
    }

    /** `entryForXValue(_:closestToY:rounding:)`: nil exactly when there are no entries,
      * otherwise the entry `entryIndex` picks. With `.closest` it is also
      * `entryForXValue(_:closestToY:)`. */
    method EntryForXValue(xValue: real, yValue: Option<real>, rounding: Rounding) returns (r: Option<Entry>)
      ensures r.None? <==> values == []
      ensures r.Some? ==> r.value == values[EntryIndexSpec(values, xValue, yValue, rounding)]
    {
      var index := EntryIndex(xValue, yValue, rounding);
      if index > -1 {
        return Some(values[index]);
      }
      return None;
    }

    /** `entriesForXValue(_:)`: every returned entry is at `xValue`, and on x-sorted
      * entries they are all the entries at `xValue`, in order. */
    method EntriesForXValue(xValue: real) returns (entries: seq<Entry>)
      ensures forall k :: 0 <= k < |entries| ==> entries[k].x == xValue
      ensures SortedByX(values) ==> entries == WithX(values, xValue)
    {
      var low := 0;
      var high := |values| - 1;
      while low <= high
        invariant 0 <= low <= high + 1 <= |values|
        invariant SortedByX(values) ==>
          (forall k :: 0 <= k < low ==> values[k].x < xValue) &&
          (forall k :: high < k < |values| ==> values[k].x > xValue)
        decreases high - low
      {
        var m := (high + low) / 2;
        var entry := values[m];
        if xValue == entry.x {
          entries := CollectRun(m, xValue);
          return;
        }
        if xValue > entry.x {
          if SortedByX(values) {
            assert forall k :: 0 <= k <= m ==> values[k].x <= values[m].x;
          }
          low := m + 1;
        } else {
          if SortedByX(values) {
            assert forall k :: m <= k < |values| ==> values[m].x <= values[k].x;
          }
          high := m - 1;
        }
      }
      entries := [];
      if SortedByX(values) {
        WithXNone(values, xValue);
      }
    }

    /** The match branch of `entriesForXValue`: back to the start of the run at
      * `xValue`, then collect forward while the x matches. */
    method CollectRun(from: int, xValue: real) returns (entries: seq<Entry>)
      requires 0 <= from < |values| && values[from].x == xValue
      ensures forall k :: 0 <= k < |entries| ==> entries[k].x == xValue
      ensures SortedByX(values) ==> entries == WithX(values, xValue)
    {
      var m := from;
      while m > 0 && values[m - 1].x == xValue
        invariant 0 <= m <= from && values[m].x == xValue
        decreases m
      {
        m := m - 1;
      }
      ghost var start := m;
      entries := [];
      var high := |values|;
      while m < high
        invariant start <= m <= high == |values|
        invariant entries == values[start..m]
        invariant forall k :: start <= k < m ==> values[k].x == xValue
        invariant m == start ==> m < |values|
        decreases high - m
      {
        var entry := values[m];
        if entry.x == xValue {
          entries := entries + [entry];
        } else {
          break;
        }
        m := m + 1;
      }
      if SortedByX(values) {
        WithXRun(values, xValue, start, m);
      }
    }

    /** `entryIndex(entry:)`: the first position holding `e`, or -1. */
    function EntryIndexOf(e: Entry): (r: int)
      reads this
      ensures r == -1 <==> e !in values
      ensures r != -1 ==> 0 <= r < |values| && values[r] == e && e !in values[..r]
    {
      match IndexOf(values, e)
      case None => -1
      case Some(i) => i
    }

    /** `addEntry(_:)`: widens the bounds to `e` and appends it; exact bounds stay exact. */
    method AddEntry(e: Entry) returns (ok: bool)
      modifies this
      ensures ok && values == old(values) + [e]
      ensures xMin == Min(e.x, old(xMin)) && xMax == Max(e.x, old(xMax))
      ensures yMin == Min(e.y, old(yMin)) && yMax == Max(e.y, old(yMax))
      ensures old(CurrentBounds()) == BoundsOf(old(values)) ==> CurrentBounds() == BoundsOf(values)
    {
      FoldEntrySnoc(values, e);
      CalcMinMaxForEntry(e);
      values := values + [e];
      return true;
    }

    /** `addEntryOrdered(_:)`, searching the start index without a y (see Findings):
      * widens the bounds to `e` and inserts it, keeping x-sorted entries sorted. */
    method AddEntryOrdered(e: Entry) returns (ok: bool)
      modifies this
      ensures ok && values == InsertAt(old(values), OrderedPosition(old(values), e, None), e)
      ensures xMin == Min(e.x, old(xMin)) && xMax == Max(e.x, old(xMax))
      ensures yMin == Min(e.y, old(yMin)) && yMax == Max(e.y, old(yMax))
      ensures SortedByX(old(values)) ==> SortedByX(values)
      ensures old(BoundsCover()) ==> BoundsCover()
    {
      if SortedByX(values) {
        OrderedPositionKeepsSorted(values, e);
      }
      var index := OrderedPosition(values, e, None);
      if BoundsCover() {
        CoversAfterInsert(values, index, e, xMin, xMax, yMin, yMax);
      }
      CalcMinMaxForEntry(e);
      if |values| > 0 && values[|values| - 1].x > e.x {
        var closestIndex := InsertionIndex(e);
        values := InsertAt(values, closestIndex, e);
      } else {
        assert InsertAt(values, |values|, e) == values + [e];
        values := values + [e];
      }
      return true;
    }

    /** The insertion index of `addEntryOrdered` when `e` lies before the last entry:
      * the `.up` search without a y, then forward past smaller x. */
    method InsertionIndex(e: Entry) returns (closestIndex: int)
      requires |values| > 0 && values[|values| - 1].x > e.x
      ensures closestIndex == OrderedPosition(values, e, None)
    {
      closestIndex := EntryIndex(e.x, None, Up);
      ghost var start := closestIndex;
      while values[closestIndex].x < e.x
        invariant 0 <= closestIndex < |values|
        invariant Advance(values, closestIndex, e.x) == Advance(values, start, e.x)
        decreases |values| - closestIndex
      {
        closestIndex := closestIndex + 1;
      }
    }

    /** `removeEntry(_:)`: false and nothing changed when `entry` is absent; otherwise
      * its first occurrence removed and the bounds recomputed. */
    method RemoveEntry(entry: Entry) returns (ok: bool)
      modifies this
      ensures ok <==> entry in old(values)
      ensures !ok ==> values == old(values) && CurrentBounds() == old(CurrentBounds())
      ensures ok ==> var i := IndexOf(old(values), entry).value;
        values == old(values)[..i] + old(values)[i + 1..] && CurrentBounds() == BoundsOf(values)
    {
      match IndexOf(values, entry)
      case None =>
        return false;
      case Some(i) =>
        values := values[..i] + values[i + 1..];
        CalcMinMax();
        return true;
    }

    /** `removeFirst()`: false on no entries; otherwise the first entry dropped and the
      * bounds recomputed. */
    method RemoveFirst() returns (ok: bool)
      modifies this
      ensures ok <==> old(values) != []
      ensures !ok ==> values == old(values) && CurrentBounds() == old(CurrentBounds())
      ensures ok ==> values == old(values)[1..] && CurrentBounds() == BoundsOf(values)
    {
      if values == [] {
        return false;
      }
      values := values[1..];
      CalcMinMax();
      return true;
    }

    /** `removeLast()`: false on no entries; otherwise the last entry dropped and the
      * bounds recomputed. */
    method RemoveLast() returns (ok: bool)
      modifies this
      ensures ok <==> old(values) != []
      ensures !ok ==> values == old(values) && CurrentBounds() == old(CurrentBounds())
      ensures ok ==> values == old(values)[..|old(values)| - 1] && CurrentBounds() == BoundsOf(values)
    {
      if values == [] {
        return false;
      }
      values := values[..|values| - 1];
      CalcMinMax();
      return true;
    }

    /** `contains(_:)`: some entry equals `e`. */
    function Contains(e: Entry): (r: bool)
      reads this
      ensures r <==> exists k :: 0 <= k < |values| && values[k] == e
    {
      e in values
    }

    /** `clear()`: no entries, and with the corrected `calcMinMax()` the initial bounds. */
    method Clear()
      modifies this
      ensures values == [] && CurrentBounds() == BoundsOf([])
    {
      values := [];
      NotifyDataSetChanged();
    }
  }
}
