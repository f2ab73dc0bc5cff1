/** The collection-based `ChartDataSet`: a list of entries kept in x order, cached
  * x/y bounds, a rounding search by x built on `partitioningIndex`, ordered
  * insertion and the range-replaceable mutators, each of which recomputes the bounds. */
module DataSetCollection {
  import opened Common

  /** The predicates the data set hands to `partitioningIndex`. */
  datatype XTest = AtLeast(v: real) | EqualTo(v: real)

  predicate Holds(t: XTest, e: Entry)
  {
    match t
    case AtLeast(v) => e.x >= v
    case EqualTo(v) => e.x == v
  }

  /** `t` is false on a prefix of `s` and true on the rest. */
  ghost predicate Partitioned(s: seq<Entry>, t: XTest)
  {
    forall i, j :: 0 <= i < j < |s| && Holds(t, s[i]) ==> Holds(t, s[j])
  }

  lemma SortedPartitionedAtLeast(s: seq<Entry>, v: real)
    requires SortedByX(s)
    ensures Partitioned(s, AtLeast(v))
  {
  }

  /** The swift-algorithms `partitioningIndex(where:)` on the window `l..<l+n`:
    * halve the window, keep the left half when the middle satisfies the test,
    * otherwise continue after the middle. On a partitioned list it is the first
    * position satisfying the test; on any list it stays inside the window. */
  function PartitionFrom(s: seq<Entry>, t: XTest, l: int, n: int): (r: int)
    requires 0 <= l && 0 <= n && l + n <= |s|
    ensures l <= r <= l + n
    ensures Partitioned(s, t) ==>
              (forall k :: l <= k < r ==> !Holds(t, s[k])) &&
              (forall k :: r <= k < l + n ==> Holds(t, s[k]))
    ensures l + n == |s| && n > 0 && Holds(t, s[|s| - 1]) ==> r < |s|
    decreases n
  {
    if n == 0 then l
    else
      var half := n / 2;
      var mid := l + half;
      if Holds(t, s[mid]) then PartitionFrom(s, t, l, half)
      else PartitionFrom(s, t, mid + 1, n - half - 1)
  }

  function PartitioningIndex(s: seq<Entry>, t: XTest): (r: int)
    ensures 0 <= r <= |s|
    ensures Partitioned(s, t) ==>
              (forall k :: 0 <= k < r ==> !Holds(t, s[k])) &&
              (forall k :: r <= k < |s| ==> Holds(t, s[k]))
    ensures |s| > 0 && Holds(t, s[|s| - 1]) ==> r < |s|
  {
    PartitionFrom(s, t, 0, |s|)
  }

  /** The search by x before the y refinement (lines 184-204): the first position
    * with `x >= xValue`, moved one step by the rounding rule. */
  function RoundedIndex(s: seq<Entry>, xValue: real, rounding: Rounding): (r: int)
    ensures 0 <= r <= |s|
    ensures r == |s| <==> PartitioningIndex(s, AtLeast(xValue)) == |s|
  {
    var c := PartitioningIndex(s, AtLeast(xValue));
    if c >= |s| then c
    else
      match rounding
      case Up => if s[c].x < xValue && c < |s| - 1 then c + 1 else c
      case Down => if s[c].x > xValue && c > 0 then c - 1 else c
      case Closest => c
  }

  /** The forward y scan of `entryIndex` from the last examined position `i`, with
    * the best candidate so far at `best`: it stops at the end of the list or of
    * the run of x equal to `xv`, and moves to any later entry whose y is at least
    * as close to `yValue`. No entry it passes is closer in y than the result. */
  function ScanY(s: seq<Entry>, i: int, xv: real, yValue: real, bestY: real, best: int): (r: int)
    requires 0 <= best <= i < |s| && bestY == s[best].y
    ensures best <= r < RunEnd(s, i, xv)
    ensures r == best || (i < r && s[r].x == xv)
    ensures Abs(s[r].y - yValue) <= Abs(s[best].y - yValue)
    decreases |s| - i
  {
    if i + 1 >= |s| then best
    else if s[i + 1].x != xv then best
    else if Abs(s[i + 1].y - yValue) <= Abs(bestY - yValue) then ScanY(s, i + 1, xv, yValue, s[i + 1].y, i + 1)
    else ScanY(s, i + 1, xv, yValue, bestY, best)
  }

  /** One step of the forward y scan. */
  lemma ScanYUnfold(s: seq<Entry>, i: int, xv: real, yValue: real, bestY: real, best: int)
    requires 0 <= best <= i < |s| && bestY == s[best].y
    ensures ScanY(s, i, xv, yValue, bestY, best) ==
      if i + 1 >= |s| || s[i + 1].x != xv then best
      else if Abs(s[i + 1].y - yValue) <= Abs(bestY - yValue) then ScanY(s, i + 1, xv, yValue, s[i + 1].y, i + 1)
      else ScanY(s, i + 1, xv, yValue, bestY, best)
  {
  }

  /** No entry the scan passes is closer in y than the result. */
  lemma {:induction false} ScanYMinimal(s: seq<Entry>, i: int, xv: real, yValue: real, bestY: real, best: int)
    requires 0 <= best <= i < |s| && bestY == s[best].y
    ensures NoCloserIn(s, ScanY(s, i, xv, yValue, bestY, best), i, RunEnd(s, i, xv), yValue)
    decreases |s| - i
  {
    ScanYUnfold(s, i, xv, yValue, bestY, best);
    if i + 1 < |s| && s[i + 1].x == xv {
      var e := RunEnd(s, i + 1, xv);
      assert RunEnd(s, i, xv) == e;
      var r := ScanY(s, i, xv, yValue, bestY, best);
      if Abs(s[i + 1].y - yValue) <= Abs(bestY - yValue) {
        ScanYMinimal(s, i + 1, xv, yValue, s[i + 1].y, i + 1);
      } else {
        ScanYMinimal(s, i + 1, xv, yValue, bestY, best);
      }
      NoCloserExtend(s, r, i, e, yValue);
    }
  }

  /** No entry strictly between `lo` and `hi` is closer to `y` than the entry at `r`. */
  ghost predicate NoCloserIn(s: seq<Entry>, r: int, lo: int, hi: int, y: real)
    requires 0 <= r < |s| && 0 <= lo && hi <= |s|
  {
    forall k :: lo < k < hi ==> Abs(s[r].y - y) <= Abs(s[k].y - y)
  }

  lemma NoCloserExtend(s: seq<Entry>, r: int, i: int, hi: int, y: real)
    requires 0 <= r < |s| && 0 <= i && i + 1 < hi <= |s|
    requires NoCloserIn(s, r, i + 1, hi, y) && Abs(s[r].y - y) <= Abs(s[i + 1].y - y)
    ensures NoCloserIn(s, r, i, hi, y)
  {
  }


  /** Reference definition of `entryIndex(x:closestToY:rounding:)`, with the y scan
    * stopping at the last entry and tracking the best y found (see Findings).
    * `yValue == None` stands for `.nan`. The y refinement runs over the entries
    * sharing the x found before rounding, starting from the rounded position. */
  function EntryIndexSpec(s: seq<Entry>, xValue: real, yValue: Option<real>, rounding: Rounding): (r: int)
    ensures 0 <= r <= |s|
    ensures r == |s| <==> PartitioningIndex(s, AtLeast(xValue)) == |s|
  {
    var p := PartitioningIndex(s, AtLeast(xValue));
    if p >= |s| then p
    else
      var c := RoundedIndex(s, xValue, rounding);
      match yValue
      case None => c
      case Some(y) => ClosestYInRun(s, c, s[p].x, y)
  }

  /** The y refinement: back over the entries before `c` whose x is `xv`, then
    * the forward scan over entries with that x. */
  function ClosestYInRun(s: seq<Entry>, c: int, xv: real, y: real): (r: int)
    requires 0 <= c < |s|
    ensures 0 <= r < |s|
  {
    var st := RunStart(s, c, xv);
    ScanY(s, st, xv, y, s[st].y, st)
  }

  /** On a list sorted by x, the y refinement from an entry lands on an entry with
    * the same x, and no entry with that x is closer in y. */
  lemma ClosestYInRunIsClosest(s: seq<Entry>, c: int, y: real)
    requires SortedByX(s) && 0 <= c < |s|
    ensures var r := ClosestYInRun(s, c, s[c].x, y);
      s[r].x == s[c].x &&
      forall k :: 0 <= k < |s| && s[k].x == s[c].x ==> Abs(s[r].y - y) <= Abs(s[k].y - y)
  {
    var xv := s[c].x;
    var st := RunStart(s, c, xv);
    RunHoldsAll(s, st, xv);
    ScanYMinimal(s, st, xv, y, s[st].y, st);
  }

  /** With `.closest` and a y value, the answer has the x of the first position
    * reaching `xValue`, and no entry with that x is closer in y. */
  lemma {:induction false} EntryIndexClosestY(s: seq<Entry>, xValue: real, y: real)
    requires SortedByX(s)
    requires PartitioningIndex(s, AtLeast(xValue)) < |s|
    ensures var p := PartitioningIndex(s, AtLeast(xValue));
      var r := EntryIndexSpec(s, xValue, Some(y), Closest);
      r < |s| && s[r].x == s[p].x &&
      forall k :: 0 <= k < |s| && s[k].x == s[p].x ==> Abs(s[r].y - y) <= Abs(s[k].y - y)
  {
    ClosestYInRunIsClosest(s, PartitioningIndex(s, AtLeast(xValue)), y);
  }

  /** With `.closest` and no y, the search answers the first position whose x
    * reaches `xValue`, or the end when there is none. */
  lemma {:induction false} EntryIndexClosestIsFirstAtLeast(s: seq<Entry>, xValue: real)
    requires SortedByX(s)
    ensures var r := EntryIndexSpec(s, xValue, None, Closest);
      (forall k :: 0 <= k < r ==> s[k].x < xValue) && (forall k :: r <= k < |s| ==> s[k].x >= xValue)
  {
    SortedPartitionedAtLeast(s, xValue);
  }

  /** With `.down` and no y, the search steps back one position exactly when the
    * first position reaching `xValue` overshoots it and is not the first entry. */
  lemma {:induction false} EntryIndexDownStepsBack(s: seq<Entry>, xValue: real)
    requires SortedByX(s)
    ensures var c := PartitioningIndex(s, AtLeast(xValue));
      var r := EntryIndexSpec(s, xValue, None, Down);
      (c < |s| && s[c].x > xValue && c > 0 ==> r == c - 1 && s[r].x < xValue) &&
      (!(c < |s| && s[c].x > xValue && c > 0) ==> r == c)
  {
    SortedPartitionedAtLeast(s, xValue);
  }

  // ---------------------------------------------------------------------------
  // The y scan as written

  /** The forward y scan as written (lines 214-228). The loop is guarded by
    * `closest < endIndex` but steps before reading `self[closest]`, and an
    * improvement records the target `yValue` instead of the entry's y.
    * `None` is the read one past the end, which traps. */
  function ScanYAsWritten(s: seq<Entry>, i: int, xv: real, yValue: real, closestYValue: real, closestYIndex: int): (r: Option<int>)
    requires 0 <= i < |s|
    ensures r.None? <==> RunEnd(s, i, xv) == |s|
    decreases |s| - i
  {
    if i + 1 >= |s| then None
    else if s[i + 1].x != xv then Some(closestYIndex)
    else if Abs(s[i + 1].y - yValue) <= Abs(closestYValue - yValue) then
      ScanYAsWritten(s, i + 1, xv, yValue, yValue, i + 1)
    else ScanYAsWritten(s, i + 1, xv, yValue, closestYValue, closestYIndex)
  }

  /** A one-entry data set searched with a y value: the scan as written reads past
    * the end, the bounded scan answers the entry. */
  lemma ScanYAsWrittenReadsPastEnd()
    ensures ScanYAsWritten([Entry(1.0, 0.0)], 0, 1.0, 0.0, 0.0, 0).None?
    ensures EntryIndexSpec([Entry(1.0, 0.0)], 1.0, Some(0.0), Closest) == 0
  {
    assert RunEnd([Entry(1.0, 0.0)], 0, 1.0) == 1;
    assert PartitioningIndex([Entry(1.0, 0.0)], AtLeast(1.0)) == 0;
  }

  /** Three entries at x = 1 with y = 10, 7, 5 and a target y of 0: after the first
    * improvement the scan as written compares against the target itself and stops
    * at y = 7; the corrected scan reaches y = 5. */
  lemma ScanYAsWrittenMissesClosest()
    ensures var s := [Entry(1.0, 10.0), Entry(1.0, 7.0), Entry(1.0, 5.0), Entry(2.0, 0.0)];
      ScanYAsWritten(s, 0, 1.0, 0.0, 10.0, 0) == Some(1) &&
      ClosestYInRun(s, 0, 1.0, 0.0) == 2 &&
      Abs(s[2].y - 0.0) < Abs(s[1].y - 0.0)
  {
    var s := [Entry(1.0, 10.0), Entry(1.0, 7.0), Entry(1.0, 5.0), Entry(2.0, 0.0)];
    assert RunStart(s, 0, 1.0) == 0;
    assert ScanY(s, 2, 1.0, 0.0, 5.0, 2) == 2;
    assert ScanY(s, 1, 1.0, 0.0, 7.0, 1) == 2;
  }

  // ---------------------------------------------------------------------------
  // entriesForXValue

  /** `prefix(while:)` of the entries from `i` whose x is `xv`. */
  function RunFrom(s: seq<Entry>, i: int, xv: real): (r: seq<Entry>)
    requires 0 <= i <= |s|
    ensures i + |r| <= |s| && r == s[i..i + |r|]
    ensures forall k :: i <= k < i + |r| ==> s[k].x == xv
    ensures i + |r| == |s| || s[i + |r|].x != xv
    decreases |s| - i
  {
    if i < |s| && s[i].x == xv then [s[i]] + RunFrom(s, i + 1, xv) else []
  }

  /** `entriesForXValue` as written: `partitioningIndex` with the test `x == xValue`,
    * which does not split a sorted list into two parts. */
  function EntriesForXValueAsWritten(s: seq<Entry>, xValue: real): (r: seq<Entry>)
  {
    var i := PartitioningIndex(s, EqualTo(xValue));
    if i >= |s| then [] else RunFrom(s, i, xValue)
  }

  /** Entries at x = 1..5 and the query x = 2: the partition search as written
    * probes x = 3 and x = 5, never sees a match, and answers nothing. */
  lemma EntriesForXValueAsWrittenMisses()
    ensures var s := [Entry(1.0, 0.0), Entry(2.0, 0.0), Entry(3.0, 0.0), Entry(4.0, 0.0), Entry(5.0, 0.0)];
      SortedByX(s) && s[1].x == 2.0 && EntriesForXValueAsWritten(s, 2.0) == []
  {
    var s := [Entry(1.0, 0.0), Entry(2.0, 0.0), Entry(3.0, 0.0), Entry(4.0, 0.0), Entry(5.0, 0.0)];
    assert PartitionFrom(s, EqualTo(2.0), 5, 0) == 5;
    assert PartitionFrom(s, EqualTo(2.0), 3, 2) == 5;
    assert PartitionFrom(s, EqualTo(2.0), 0, 5) == 5;
  }

  lemma RunFromIsWholeRun(s: seq<Entry>, xValue: real, i: int)
    requires i == PartitioningIndex(s, AtLeast(xValue)) && i < |s|
    ensures SortedByX(s) ==> var r := RunFrom(s, i, xValue);
      forall k :: 0 <= k < |s| && s[k].x == xValue ==> i <= k < i + |r|
  {
    if SortedByX(s) {
      SortedPartitionedAtLeast(s, xValue);
      var r := RunFrom(s, i, xValue);
      if i + |r| < |s| {
        assert s[i + |r|].x > xValue;
      }
    }
  }

  // ---------------------------------------------------------------------------
  // entryForXValue and calcMinMaxY(fromX:toX:)

  /** `entryForXValue` as written reads `self[index]` whenever `index > -1`, while
    * `entryIndex` reports "nothing at or after xValue" as `endIndex`. */
  predicate EntryForXValueReadsPastEnd(s: seq<Entry>, xValue: real, yValue: Option<real>, rounding: Rounding)
  {
    var index := EntryIndexSpec(s, xValue, yValue, rounding);
    index > -1 && index >= |s|
  }

  /** An empty data set, or an x beyond the last entry, makes the read go past the end. */
  lemma EntryForXValueAsWrittenTraps(xValue: real, rounding: Rounding)
    ensures EntryForXValueReadsPastEnd([], xValue, None, rounding)
    ensures EntryForXValueReadsPastEnd([Entry(1.0, 1.0)], 5.0, None, rounding)
  {
    assert PartitioningIndex([Entry(1.0, 1.0)], AtLeast(5.0)) == 1;
  }

  /** `calcMinMaxY(fromX:toX:)` as written visits `indexFrom ... indexTo`, a closed
    * range, and `indexTo` is `endIndex` when `toX` lies beyond the last entry. */
  predicate CalcMinMaxYReadsPastEnd(s: seq<Entry>, fromX: real, toX: real)
  {
    var indexFrom := EntryIndexSpec(s, fromX, None, Down);
    var indexTo := EntryIndexSpec(s, toX, None, Up);
    |s| > 0 && indexTo >= indexFrom && indexTo >= |s|
  }

  lemma CalcMinMaxYAsWrittenTraps()
    ensures CalcMinMaxYReadsPastEnd([Entry(1.0, 1.0)], 0.0, 5.0)
  {
    assert PartitioningIndex([Entry(1.0, 1.0)], AtLeast(0.0)) == 0;
    assert PartitioningIndex([Entry(1.0, 1.0)], AtLeast(5.0)) == 1;
  }

  /** The last position `calcMinMaxY(fromX:toX:)` visits once its closed range is
    * stopped at the last entry. */
  function LastVisited(s: seq<Entry>, toX: real): (r: int)
    ensures r < |s|
  {
    var indexTo := EntryIndexSpec(s, toX, None, Up);
    if indexTo >= |s| then |s| - 1 else indexTo
  }

  /** The y bounds `calcMinMaxY(fromX:toX:)` leaves: those of the entries from the
    * rounded-down position of `fromX` to the last visited position, or the initial
    * bounds when that range is empty. */
  function YRange(s: seq<Entry>, fromX: real, toX: real): (real, real)
  {
    var indexFrom := EntryIndexSpec(s, fromX, None, Down);
    var last := LastVisited(s, toX);
    if indexFrom <= last then
      (FoldMin(Ys(s[indexFrom..last + 1]), GreatestFinite), FoldMax(Ys(s[indexFrom..last + 1]), -GreatestFinite))
    else (GreatestFinite, -GreatestFinite)
  }

  /** `YRange` in terms of the two search results. */
  lemma YRangeUnfold(s: seq<Entry>, fromX: real, toX: real, indexFrom: int, last: int)
    requires indexFrom == EntryIndexSpec(s, fromX, None, Down)
    requires last == LastVisited(s, toX)
    ensures YRange(s, fromX, toX) ==
      if indexFrom <= last then
        (FoldMin(Ys(s[indexFrom..last + 1]), GreatestFinite), FoldMax(Ys(s[indexFrom..last + 1]), -GreatestFinite))
      else (GreatestFinite, -GreatestFinite)
  {
  }

  // ---------------------------------------------------------------------------
  // addEntryOrdered

  /** `self[from...].lastIndex { $0.x < v }`. */
  function LastIndexBelow(s: seq<Entry>, from: int, v: real): (r: Option<int>)
    requires 0 <= from <= |s|
    ensures r.Some? ==> from <= r.value < |s| && s[r.value].x < v
    ensures r.None? ==> forall k :: from <= k < |s| ==> s[k].x >= v
    decreases |s| - from
  {
    if from == |s| then None
    else
      match LastIndexBelow(s, from + 1, v)
      case Some(i) => Some(i)
      case None => if s[from].x < v then Some(from) else None
  }

  /** Where `addEntryOrdered` inserts when the start index comes from a search with
    * the given y: append unless the last entry lies beyond `e`, otherwise the last
    * position from the start whose x is below `e.x`, or the start itself. */
  function OrderedPosition(s: seq<Entry>, e: Entry, yValue: Option<real>): (r: int)
    ensures 0 <= r <= |s|
  {
    if |s| > 0 && s[|s| - 1].x > e.x then
      var start := EntryIndexSpec(s, e.x, yValue, Up);
      match LastIndexBelow(s, start, e.x)
      case Some(i) => i
      case None => start
    else |s|
  }

  /** Inserting at the position `addEntryOrdered` computes keeps an x-sorted list
    * sorted and keeps covering bounds covering once widened to the new entry. */
  lemma OrderedInsertKeeps(s: seq<Entry>, e: Entry, xMin: real, xMax: real, yMin: real, yMax: real)
    ensures var i := OrderedPosition(s, e, None);
      (SortedByX(s) ==> SortedByX(InsertAt(s, i, e))) &&
      (Covers(s, xMin, xMax, yMin, yMax) ==>
        Covers(InsertAt(s, i, e), Min(e.x, xMin), Max(e.x, xMax), Min(e.y, yMin), Max(e.y, yMax)))
  {
    if SortedByX(s) {
      OrderedPositionKeepsSorted(s, e);
    }
    if Covers(s, xMin, xMax, yMin, yMax) {
      CoversAfterInsert(s, OrderedPosition(s, e, None), e, xMin, xMax, yMin, yMax);
    }
  }

  /** x = 5, 5, 6 with y = 10, 0, 0. */
  const FivesThenSix := [Entry(5.0, 10.0), Entry(5.0, 0.0), Entry(6.0, 0.0)]

  /** As written the start index is searched with `closestToY: e.y`, which moves it
    * inside a run of equal x: with x = 5, 5, 6 (y = 10, 0, 0) and the entry (4, 0)
    * it lands at position 1 (`AddEntryOrderedAsWrittenPosition`), between the two
    * fives, and the list is out of x order afterwards. */
  lemma AddEntryOrderedAsWrittenBreaksOrder()
    ensures SortedByX(FivesThenSix) && !SortedByX(InsertAt(FivesThenSix, 1, Entry(4.0, 0.0)))
  {
    var t := InsertAt(FivesThenSix, 1, Entry(4.0, 0.0));
    assert t[0].x > t[1].x;
  }

  /** The position the insertion as written computes in that example, with the
    * corrected y scan (the scan as written can trap here, see
    * `AddEntryOrderedAsWrittenScanReadsPastEnd`). */
  lemma AddEntryOrderedAsWrittenPosition()
    ensures OrderedPosition(FivesThenSix, Entry(4.0, 0.0), Some(0.0)) == 1
  {
    var s := FivesThenSix;
    assert PartitioningIndex(s, AtLeast(4.0)) == 0;
    assert RoundedIndex(s, 4.0, Up) == 0;
    assert RunStart(s, 0, 5.0) == 0;
    assert ScanY(s, 1, 5.0, 0.0, 0.0, 1) == 1;
    ScanYUnfold(s, 0, 5.0, 0.0, 10.0, 0);
    assert ClosestYInRun(s, 0, 5.0, 0.0) == 1;
    assert EntryIndexSpec(s, 4.0, Some(0.0), Up) == 1;
    assert LastIndexBelow(s, 1, 4.0) == None;
  }

  /** The y search of the insertion as written also runs the scan of lines 216-219,
    * which reads past the end whenever the run at the found x reaches the last
    * entry: with x = 5, 5 (y = 0, 1) and the entry (4, 0) the run at 5 is the whole
    * list. `AddEntryOrderedAsWrittenPosition` uses the corrected scan instead. */
  lemma AddEntryOrderedAsWrittenScanReadsPastEnd()
    ensures var s := [Entry(5.0, 0.0), Entry(5.0, 1.0)];
      PartitioningIndex(s, AtLeast(4.0)) == 0 &&
      ScanYAsWritten(s, RunStart(s, 0, 5.0), 5.0, 0.0, s[0].y, 0).None?
  {
    var s := [Entry(5.0, 0.0), Entry(5.0, 1.0)];
    assert PartitioningIndex(s, AtLeast(4.0)) == 0;
    assert RunStart(s, 0, 5.0) == 0;
    assert RunEnd(s, 0, 5.0) == 2;
  }

  /** The corrected ordered insertion searches the start index without a y; it
    * keeps a list sorted by x sorted. */
  lemma {:induction false} OrderedPositionKeepsSorted(s: seq<Entry>, e: Entry)
    requires SortedByX(s)
    ensures SortedByX(InsertAt(s, OrderedPosition(s, e, None), e))
  {
    var r := OrderedPosition(s, e, None);
    if |s| > 0 && s[|s| - 1].x > e.x {
      SortedPartitionedAtLeast(s, e.x);
      var p := PartitioningIndex(s, AtLeast(e.x));
      assert RoundedIndex(s, e.x, Up) == p;
      assert r == p;
      assert forall k :: 0 <= k < r ==> s[k].x < e.x;
      assert forall k :: r <= k < |s| ==> s[k].x >= e.x;
    } else {
      forall k | 0 <= k < |s| ensures s[k].x <= e.x {
        assert s[k].x <= s[|s| - 1].x;
      }
    }
    InsertAtKeepsSorted(s, r, e);
  }

  // ---------------------------------------------------------------------------
  // The data set

  /** The forward y scan of the y refinement as a loop, from the run start `start`. */
  method ScanForward(vals: seq<Entry>, start: int, xv: real, yValue: real) returns (r: int)
    requires 0 <= start < |vals|
    ensures r == ScanY(vals, start, xv, yValue, vals[start].y, start)
  {
    var cur := start;
    var closestYValue := vals[cur].y;
    var closestYIndex := cur;
    while cur < |vals| - 1
      invariant start <= closestYIndex <= cur < |vals|
      invariant closestYValue == vals[closestYIndex].y
      invariant ScanY(vals, cur, xv, yValue, closestYValue, closestYIndex)
             == ScanY(vals, start, xv, yValue, vals[start].y, start)
      decreases |vals| - cur
    {
      ScanYUnfold(vals, cur, xv, yValue, closestYValue, closestYIndex);
      cur := cur + 1;
      var value := vals[cur];
      if value.x != xv {
        break;
      }
      if Abs(value.y - yValue) <= Abs(closestYValue - yValue) {
        closestYValue := value.y;
        closestYIndex := cur;
      }
    }
    r := closestYIndex;
  }

  class ChartDataSet {
    /** `entries`, expected in x order. */
    var entries: seq<Entry>
    /** The cached bounds `_xMin`, `_xMax`, `_yMin`, `_yMax`. */
    var xMin: real
    var xMax: real
    var yMin: real
    var yMax: real

    /** Every entry lies inside the cached bounds. */
    ghost predicate BoundsCover()
      reads this
    {
      Covers(entries, xMin, xMax, yMin, yMax)
    }

    /** The cached bounds are those `calcMinMax` computes from the entries. */
    ghost predicate BoundsExact()
      reads this
    {
      xMin == FoldMin(Xs(entries), GreatestFinite) && xMax == FoldMax(Xs(entries), -GreatestFinite) &&
      yMin == FoldMin(Ys(entries), GreatestFinite) && yMax == FoldMax(Ys(entries), -GreatestFinite)
    }

    /** `init()`: no entries and the initial bounds. */
    constructor Empty()
      ensures entries == [] && BoundsExact()
      ensures xMin == GreatestFinite && xMax == -GreatestFinite
      ensures yMin == GreatestFinite && yMax == -GreatestFinite
    {
      entries := [];
      xMin, xMax := GreatestFinite, -GreatestFinite;
      yMin, yMax := GreatestFinite, -GreatestFinite;
    }

    /** `init(entries:label:)`: the entries, then `calcMinMax()`. */
    constructor (entries: seq<Entry>)
      ensures this.entries == entries && BoundsExact()
    {
      this.entries := entries;
      xMin, xMax := GreatestFinite, -GreatestFinite;
      yMin, yMax := GreatestFinite, -GreatestFinite;
      new;
      CalcMinMax();
    }

    /** `replaceEntries(_:)`: new entries, then the bounds recomputed. */
    method ReplaceEntries(entries: seq<Entry>)
      modifies this
      ensures this.entries == entries && BoundsExact()
    {
      this.entries := entries;
      CalcMinMax();
    }

    /** `calcMinMaxX(entry:)`. */
    method CalcMinMaxXForEntry(e: Entry)
      modifies this
      ensures xMin == Min(e.x, old(xMin)) && xMax == Max(e.x, old(xMax))
      ensures entries == old(entries) && yMin == old(yMin) && yMax == old(yMax)
    {
      xMin := Min(e.x, xMin);
      xMax := Max(e.x, xMax);
    }

    /** `calcMinMaxY(entry:)`. */
    method CalcMinMaxYForEntry(e: Entry)
      modifies this
      ensures yMin == Min(e.y, old(yMin)) && yMax == Max(e.y, old(yMax))
      ensures entries == old(entries) && xMin == old(xMin) && xMax == old(xMax)
    {
      yMin := Min(e.y, yMin);
      yMax := Max(e.y, yMax);
    }

    /** `calcMinMax(entry:)`: widens all four bounds to include `e`. */
    method CalcMinMaxForEntry(e: Entry)
      modifies this
      ensures xMin == Min(e.x, old(xMin)) && xMax == Max(e.x, old(xMax))
      ensures yMin == Min(e.y, old(yMin)) && yMax == Max(e.y, old(yMax))
      ensures entries == old(entries)
    {
      CalcMinMaxXForEntry(e);
      CalcMinMaxYForEntry(e);
    }

    /** `calcMinMax()`: resets the bounds and folds every entry into them. */
    method CalcMinMax()
      modifies this
      ensures entries == old(entries)
      ensures BoundsExact() && BoundsCover()
    {
      yMax := -GreatestFinite;
      yMin := GreatestFinite;
      xMax := -GreatestFinite;
      xMin := GreatestFinite;
      if |entries| == 0 {
        return;
      }
      var i := 0;
      while i < |entries|
        invariant 0 <= i <= |entries| && entries == old(entries)
        invariant xMin == FoldMin(Xs(entries[..i]), GreatestFinite)
        invariant xMax == FoldMax(Xs(entries[..i]), -GreatestFinite)
        invariant yMin == FoldMin(Ys(entries[..i]), GreatestFinite)
        invariant yMax == FoldMax(Ys(entries[..i]), -GreatestFinite)
      {
        XsYsSnoc(entries, i);
        FoldSnoc(Xs(entries[..i]), entries[i].x, GreatestFinite);
        FoldSnoc(Xs(entries[..i]), entries[i].x, -GreatestFinite);
        FoldSnoc(Ys(entries[..i]), entries[i].y, GreatestFinite);
        FoldSnoc(Ys(entries[..i]), entries[i].y, -GreatestFinite);
        CalcMinMaxForEntry(entries[i]);
        i := i + 1;
      }
      assert entries[..i] == entries;
    }

    /** `calcMinMaxY(fromX:toX:)`, with the closed range stopped at the last entry
      * (see Findings): the y bounds of the entries from the rounded-down position
      * of `fromX` to the rounded-up position of `toX`. */
    method CalcMinMaxY(fromX: real, toX: real)
      modifies this
      ensures entries == old(entries) && xMin == old(xMin) && xMax == old(xMax)
      ensures (yMin, yMax) == YRange(entries, fromX, toX)
    {
      yMax := -GreatestFinite;
      yMin := GreatestFinite;
      if |entries| == 0 {
        return;
      }
      var indexFrom := EntryIndex(fromX, None, Down);
      var indexTo := EntryIndex(toX, None, Up);
      if indexTo >= |entries| {
        indexTo := |entries| - 1;
      }
      YRangeUnfold(entries, fromX, toX, indexFrom, indexTo);
      if indexTo < indexFrom {
        return;
      }
      FoldYOver(indexFrom, indexTo);
    }

    /** The `forEach(calcMinMaxY)` over the positions `indexFrom...indexTo`. */
    method FoldYOver(indexFrom: int, indexTo: int)
      requires 0 <= indexFrom <= indexTo < |entries|
      requires yMin == GreatestFinite && yMax == -GreatestFinite
      modifies this
      ensures entries == old(entries) && xMin == old(xMin) && xMax == old(xMax)
      ensures yMin == FoldMin(Ys(entries[indexFrom..indexTo + 1]), GreatestFinite)
      ensures yMax == FoldMax(Ys(entries[indexFrom..indexTo + 1]), -GreatestFinite)
    {
      var i := indexFrom;
      while i <= indexTo
        invariant indexFrom <= i <= indexTo + 1
        invariant entries == old(entries) && xMin == old(xMin) && xMax == old(xMax)
        invariant yMin == FoldMin(Ys(entries[indexFrom..i]), GreatestFinite)
        invariant yMax == FoldMax(Ys(entries[indexFrom..i]), -GreatestFinite)
      {
        FoldYSliceSnoc(entries, indexFrom, i);
        CalcMinMaxYForEntry(entries[i]);
        i := i + 1;
      }
    }

    /** `entryIndex(x:closestToY:rounding:)`, with the y scan stopping at the last
      * entry and recording the entry's y (see Findings); `yValue == None` is `.nan`. */
    method EntryIndex(xValue: real, yValue: Option<real>, rounding: Rounding) returns (r: int)
      ensures r == EntryIndexSpec(entries, xValue, yValue, rounding)
    {
      var closest := PartitioningIndex(entries, AtLeast(xValue));
      if closest >= |entries| {
        return closest;
      }
      var closestXValue := entries[closest].x;
      match rounding {
        case Up =>
          if closestXValue < xValue && closest < |entries| - 1 {
            closest := closest + 1;
          }
        case Down =>
          if closestXValue > xValue && closest > 0 {
            closest := closest - 1;
          }
        case Closest =>
      }
      assert closest == RoundedIndex(entries, xValue, rounding);
      if yValue.Some? {
        closest := ClosestYIndex(closest, closestXValue, yValue.value);
      }
      return closest;
    }

    /** The y refinement of `entryIndex` (lines 209-229), with the forward scan
      * stopping at the last entry and recording the entry's y. */
    method ClosestYIndex(from: int, closestXValue: real, yValue: real) returns (r: int)
      requires 0 <= from < |entries|
      ensures r == ClosestYInRun(entries, from, closestXValue, yValue)
    {
      var vals := entries;
      var closest := StepBackOverRun(vals, from, closestXValue);
      r := ScanForward(vals, closest, closestXValue, yValue);
    }

    /** `entryForXValue(_:closestToY:rounding:)`, answering nil when the search
      * finds nothing at or after `xValue` (see Findings). */
    method EntryForXValue(xValue: real, yValue: Option<real>, rounding: Rounding) returns (r: Option<Entry>)
      ensures r.None? <==> PartitioningIndex(entries, AtLeast(xValue)) == |entries|
      ensures r.Some? ==> r.value == entries[EntryIndexSpec(entries, xValue, yValue, rounding)]
      ensures SortedByX(entries) ==> (r.None? <==> forall k :: 0 <= k < |entries| ==> entries[k].x < xValue)
    {
      var index := EntryIndex(xValue, yValue, rounding);
      if SortedByX(entries) {
        SortedPartitionedAtLeast(entries, xValue);
      }
      if index < |entries| {
        return Some(entries[index]);
      }
      return None;
    }

    /** `entriesForXValue(_:)`, searching the run start with `x >= xValue` (see
      * Findings): on sorted entries, exactly the run of entries at `xValue`. */
    function EntriesForXValue(xValue: real): (r: seq<Entry>)
      reads this
      ensures SortedByX(entries) ==>
        var p := PartitioningIndex(entries, AtLeast(xValue));
        p + |r| <= |entries| && r == entries[p..p + |r|] &&
        (forall k :: p <= k < p + |r| ==> entries[k].x == xValue) &&
        (forall k :: 0 <= k < |entries| && entries[k].x == xValue ==> p <= k < p + |r|)
    {
      var i := PartitioningIndex(entries, AtLeast(xValue));
      if i >= |entries| then []
      else
        RunFromIsWholeRun(entries, xValue, i);
        RunFrom(entries, i, xValue)
    }

    /** `addEntryOrdered(_:)`, searching the start index without a y (see Findings):
      * widens the bounds to `e` and inserts it, keeping the entries in x order. */
    method AddEntryOrdered(e: Entry) returns (ok: bool)
      modifies this
      ensures ok
      ensures entries == InsertAt(old(entries), OrderedPosition(old(entries), e, None), e)
      ensures xMin == Min(e.x, old(xMin)) && xMax == Max(e.x, old(xMax))
      ensures yMin == Min(e.y, old(yMin)) && yMax == Max(e.y, old(yMax))
    {
      ghost var s := entries;
      if |entries| > 0 && entries[|entries| - 1].x > e.x {
        var startIndex := EntryIndex(e.x, None, Up);
        var closestIndex := match LastIndexBelow(entries, startIndex, e.x)
          case Some(i) => i
          case None => startIndex;
        CalcMinMaxForEntry(e);
        entries := InsertAt(entries, closestIndex, e);
      } else {
        Append(e);
        assert entries == InsertAt(s, |s|, e);
      }
      ok := true;
    }

    /** `remove(_:)`: removes the first equal entry; false when there is none. */
    method Remove(entry: Entry) returns (ok: bool)
      modifies this
      ensures ok <==> entry in old(entries)
      ensures !ok ==> entries == old(entries) && xMin == old(xMin) && xMax == old(xMax) && yMin == old(yMin) && yMax == old(yMax)
      ensures ok ==> var i := IndexOf(old(entries), entry).value;
        entries == old(entries)[..i] + old(entries)[i + 1..] && BoundsExact()
    {
      var index := IndexOf(entries, entry);
      if index.None? {
        return false;
      }
      var _ := RemoveAt(index.value);
      return true;
    }

    /** The subscript setter: widens the bounds to the new entry, then stores it. */
    method Set(position: int, e: Entry)
      requires 0 <= position < |entries|
      modifies this
      ensures entries == old(entries)[position := e]
      ensures xMin == Min(e.x, old(xMin)) && xMax == Max(e.x, old(xMax))
      ensures yMin == Min(e.y, old(yMin)) && yMax == Max(e.y, old(yMax))
      ensures old(BoundsCover()) ==> BoundsCover()
    {
      CalcMinMaxForEntry(e);
      entries := entries[position := e];
    }

    /** `append(_:)`: widens the bounds to `e` and adds it at the end. */
    method Append(e: Entry)
      modifies this
      ensures entries == old(entries) + [e]
      ensures xMin == Min(e.x, old(xMin)) && xMax == Max(e.x, old(xMax))
      ensures yMin == Min(e.y, old(yMin)) && yMax == Max(e.y, old(yMax))
      ensures old(BoundsCover()) ==> BoundsCover()
      ensures old(BoundsExact()) ==> BoundsExact()
    {
      FoldEntrySnoc(entries, e);
      CalcMinMaxForEntry(e);
      entries := entries + [e];
    }

    /** `remove(at:)`: removes and returns an entry, then recomputes the bounds. */
    method RemoveAt(position: int) returns (e: Entry)
      requires 0 <= position < |entries|
      modifies this
      ensures e == old(entries)[position]
      ensures entries == old(entries)[..position] + old(entries)[position + 1..]
      ensures BoundsExact()
    {
      e := entries[position];
      entries := entries[..position] + entries[position + 1..];
      CalcMinMax();
    }

    /** `removeFirst()` on a non-empty data set. */
    method RemoveFirst() returns (e: Entry)
      requires |entries| > 0
      modifies this
      ensures e == old(entries)[0] && entries == old(entries)[1..]
      ensures BoundsExact()
    {
      e := entries[0];
      entries := entries[1..];
      CalcMinMax();
    }

    /** `removeFirst(_:)`. */
    method RemoveFirstN(n: int)
      requires 0 <= n <= |entries|
      modifies this
      ensures entries == old(entries)[n..]
      ensures BoundsExact()
    {
      entries := entries[n..];
      CalcMinMax();
    }

    /** `removeLast()` on a non-empty data set. */
    method RemoveLast() returns (e: Entry)
      requires |entries| > 0
      modifies this
      ensures e == old(entries)[|old(entries)| - 1]
      ensures entries == old(entries)[..|old(entries)| - 1]
      ensures BoundsExact()
    {
      e := entries[|entries| - 1];
      entries := entries[..|entries| - 1];
      CalcMinMax();
    }

    /** `removeLast(_:)`. */
    method RemoveLastN(n: int)
      requires 0 <= n <= |entries|
      modifies this
      ensures entries == old(entries)[..|old(entries)| - n]
      ensures BoundsExact()
    {
      entries := entries[..|entries| - n];
      CalcMinMax();
    }

    /** `removeSubrange(_:)` for `lo..<hi`. */
    method RemoveSubrange(lo: int, hi: int)
      requires 0 <= lo <= hi <= |entries|
      modifies this
      ensures entries == old(entries)[..lo] + old(entries)[hi..]
      ensures BoundsExact()
    {
      entries := entries[..lo] + entries[hi..];
      CalcMinMax();
    }

    /** `removeAll(keepingCapacity:)`: afterwards the bounds are the initial ones. */
    method RemoveAll()
      modifies this
      ensures entries == []
      ensures xMin == GreatestFinite && xMax == -GreatestFinite
      ensures yMin == GreatestFinite && yMax == -GreatestFinite
    {
      entries := [];
      CalcMinMax();
    }
  }

  /** Exact bounds cover every entry, and an empty list has the initial bounds. */
  lemma BoundsExactCover(s: seq<Entry>, xMin: real, xMax: real, yMin: real, yMax: real)
    requires xMin == FoldMin(Xs(s), GreatestFinite) && xMax == FoldMax(Xs(s), -GreatestFinite)
    requires yMin == FoldMin(Ys(s), GreatestFinite) && yMax == FoldMax(Ys(s), -GreatestFinite)
    ensures forall i :: 0 <= i < |s| ==> xMin <= s[i].x <= xMax && yMin <= s[i].y <= yMax
    ensures s == [] ==> xMin == GreatestFinite && xMax == -GreatestFinite && yMin == GreatestFinite && yMax == -GreatestFinite
  {
  }
}
