/** The early xIndex-based `ChartDataSet`: entries carry an integer x index and a
  * double value, the set caches the y minimum, maximum and sum over a remembered
  * index range, searches by x index, and keeps a list of colours. */
module DataSetLegacy {
  import opened Common

  // ---------------------------------------------------------------------------
  // Values

  /** A `Double` as far as this data set cares: a real number or NaN. */
  datatype Double = NaN | Num(v: real)

  /** `+` on doubles: NaN in, NaN out. */
  function Plus(a: Double, b: Double): (r: Double)
    ensures r.NaN? <==> a.NaN? || b.NaN?
    ensures r.Num? ==> r.v == a.v + b.v
  {
    if a.NaN? || b.NaN? then NaN else Num(a.v + b.v)
  }

  /** `-` on doubles: NaN in, NaN out. */
  function Minus(a: Double, b: Double): (r: Double)
    ensures r.NaN? <==> a.NaN? || b.NaN?
    ensures r.Num? ==> r.v == a.v - b.v
  {
    if a.NaN? || b.NaN? then NaN else Num(a.v - b.v)
  }

  /** `a < b` on doubles: false whenever either side is NaN. */
  predicate Less(a: Double, b: Double)
  {
    a.Num? && b.Num? && a.v < b.v
  }

  /** A `ChartDataEntry` of this version: an x index and a value. */
  datatype IndexedEntry = IndexedEntry(xIndex: int, value: Double)

  ghost predicate SortedByXIndex(s: seq<IndexedEntry>)
  {
    forall i, j :: 0 <= i < j < |s| ==> s[i].xIndex <= s[j].xIndex
  }

  predicate NoNaN(s: seq<IndexedEntry>)
  {
    forall k :: 0 <= k < |s| ==> s[k].value.Num?
  }

  // ---------------------------------------------------------------------------
  // calcYValueSum

  /** The running sum of `calcYValueSum`, from 0, left to right. */
  function Sum(s: seq<IndexedEntry>): (r: Double)
    ensures NoNaN(s) <==> r.Num?
  {
    if s == [] then Num(0.0) else Plus(Sum(s[..|s| - 1]), s[|s| - 1].value)
  }

  /** Without NaN the sum splits over a concatenation. */
  lemma {:induction false} SumAppend(a: seq<IndexedEntry>, b: seq<IndexedEntry>)
    requires NoNaN(a) && NoNaN(b)
    ensures Sum(a + b).v == Sum(a).v + Sum(b).v
    decreases |b|
  {
    if b == [] {
      assert a + b == a;
    } else {
      var c := a + b;
      assert c[..|c| - 1] == a + b[..|b| - 1];
      assert c[|c| - 1] == b[|b| - 1];
      SumAppend(a, b[..|b| - 1]);
    }
  }

  /** Without NaN, removing the entry at `i` takes its value off the sum. */
  lemma SumRemoveAt(s: seq<IndexedEntry>, i: int)
    requires NoNaN(s) && 0 <= i < |s|
    ensures Sum(s[..i] + s[i + 1..]) == Minus(Sum(s), s[i].value)
  {
    SumAround(s, i);
  }

  /** Without NaN, the sum around the entry at `i` is the sums on either side plus
    * its value, and the sum without it is the sums on either side. */
  lemma SumAround(s: seq<IndexedEntry>, i: int)
    requires NoNaN(s) && 0 <= i < |s|
    ensures Sum(s).v == Sum(s[..i]).v + s[i].value.v + Sum(s[i + 1..]).v
    ensures Sum(s[..i] + s[i + 1..]) == Num(Sum(s[..i]).v + Sum(s[i + 1..]).v)
  {
    var a, e, b := s[..i], [s[i]], s[i + 1..];
    assert s == a + e + b;
    assert NoNaN(a) && NoNaN(e) && NoNaN(a + e) && NoNaN(b) && NoNaN(a + b);
    assert e[..0] == [];
    assert Sum(e) == s[i].value;
    SumAppend(a, e);
    SumAppend(a + e, b);
    SumAppend(a, b);
  }

  /** A NaN anywhere makes the sum NaN, and then removing a value keeps it NaN even
    * when the NaN itself is the removed value. */
  lemma SumWithNaNStaysNaN()
    ensures var s := [IndexedEntry(0, NaN), IndexedEntry(1, Num(2.0))];
      Sum(s).NaN? && Minus(Sum(s), s[0].value).NaN? && Sum(s[1..]) == Num(2.0)
  {
    var s := [IndexedEntry(0, NaN), IndexedEntry(1, Num(2.0))];
    assert s[..1] == [s[0]] && s[1..] == [s[1]];
    assert [s[1]][..0] == [];
  }

  // ---------------------------------------------------------------------------
  // calcMinMax(start:end:)

  /** The running minimum over the values that are not NaN, from `DBL_MAX`. */
  function CountedMin(s: seq<IndexedEntry>): (r: real)
    ensures r <= GreatestFinite
    ensures forall k :: 0 <= k < |s| && s[k].value.Num? ==> r <= s[k].value.v
    ensures (forall k :: 0 <= k < |s| ==> s[k].value.NaN?) ==> r == GreatestFinite
  {
    if s == [] then GreatestFinite
    else
      var m := CountedMin(s[..|s| - 1]);
      var e := s[|s| - 1];
      if e.value.Num? && e.value.v < m then e.value.v else m
  }

  /** The running maximum over the values that are not NaN, from `-DBL_MAX`. */
  function CountedMax(s: seq<IndexedEntry>): (r: real)
    ensures r >= -GreatestFinite
    ensures forall k :: 0 <= k < |s| && s[k].value.Num? ==> r >= s[k].value.v
    ensures (forall k :: 0 <= k < |s| ==> s[k].value.NaN?) ==> r == -GreatestFinite
  {
    if s == [] then -GreatestFinite
    else
      var m := CountedMax(s[..|s| - 1]);
      var e := s[|s| - 1];
      if e.value.Num? && e.value.v > m then e.value.v else m
  }

  /** The last index `calcMinMax(start:end:)` visits: the last entry when `end` is 0
    * or past the entries, otherwise `end`. */
  function EndValue(count: int, end: int): int
  {
    if end == 0 || end >= count then count - 1 else end
  }

  /** The entries `start...endValue` the loop visits, none when the range is empty. */
  function Visited(s: seq<IndexedEntry>, start: int, endValue: int): (r: seq<IndexedEntry>)
    requires 0 <= start && (start <= endValue ==> endValue < |s|)
  {
    if start <= endValue then s[start..endValue + 1] else []
  }

  /** The y minimum and maximum `calcMinMax` leaves: the bounds of the counted values,
    * or both 0 when the minimum is still `DBL_MAX`. */
  function RangeBounds(s: seq<IndexedEntry>): (b: (real, real))
  {
    var lo := CountedMin(s);
    if lo == GreatestFinite then (0.0, 0.0) else (lo, CountedMax(s))
  }

  /** One more visited entry folds into the running bounds. */
  lemma VisitedSnoc(s: seq<IndexedEntry>, start: int, i: int)
    requires 0 <= start <= i < |s|
    ensures var m := CountedMin(Visited(s, start, i - 1));
      CountedMin(Visited(s, start, i)) == (if s[i].value.Num? && s[i].value.v < m then s[i].value.v else m)
    ensures var m := CountedMax(Visited(s, start, i - 1));
      CountedMax(Visited(s, start, i)) == (if s[i].value.Num? && s[i].value.v > m then s[i].value.v else m)
  {
    var t := Visited(s, start, i);
    assert t[..|t| - 1] == Visited(s, start, i - 1);
  }

  /** NaN values do not count; with nothing counted both bounds are 0, otherwise every
    * counted value below `DBL_MAX` lies between them. */
  lemma RangeBoundsSkipNaN(s: seq<IndexedEntry>)
    ensures (forall k :: 0 <= k < |s| ==> s[k].value.NaN?) ==> RangeBounds(s) == (0.0, 0.0)
    ensures (exists k :: 0 <= k < |s| && s[k].value.Num? && s[k].value.v < GreatestFinite) ==>
      forall k :: 0 <= k < |s| && s[k].value.Num? ==>
        RangeBounds(s).0 <= s[k].value.v <= RangeBounds(s).1
    ensures RangeBounds(s + [IndexedEntry(0, NaN)]) == RangeBounds(s)
  {
    var t := s + [IndexedEntry(0, NaN)];
    assert t[..|t| - 1] == s;
  }

  // ---------------------------------------------------------------------------
  // entryIndex(xIndex:)

  /** Steps back over entries with the same x index. */
  function RunStartX(s: seq<IndexedEntry>, i: int, x: int): (r: int)
    requires 0 <= i < |s|
    ensures 0 <= r <= i
    ensures forall k :: r <= k < i ==> s[k].xIndex == x
    ensures r == 0 || s[r - 1].xIndex != x
    decreases i
  {
    if i > 0 && s[i - 1].xIndex == x then RunStartX(s, i - 1, x) else i
  }

  /** The search loop of `entryIndex(xIndex:)` from the window `low...high`, with the
    * last probed position in `closest`: on a hit, the first position of its run;
    * once the window is empty, the last probed position. */
  function XSearch(s: seq<IndexedEntry>, x: int, low: int, high: int, closest: int): (r: int)
    requires 0 <= low && high < |s| && -1 <= closest < |s|
    ensures -1 <= r < |s|
    ensures r == -1 ==> closest == -1 && low > high
    decreases high - low + 1
  {
    if low > high then closest
    else
      var m := (high + low) / 2;
      if x == s[m].xIndex then RunStartX(s, m, x)
      else if x > s[m].xIndex then XSearch(s, x, m + 1, high, m)
      else XSearch(s, x, low, m - 1, m)
  }

  /** The inner loop of `entryIndex(xIndex:)` after a hit: steps back while the
    * previous entry has the same x index. */
  method FirstOfRun(s: seq<IndexedEntry>, m0: int, x: int) returns (m: int)
    requires 0 <= m0 < |s|
    ensures m == RunStartX(s, m0, x)
  {
    m := m0;
    while m > 0 && s[m - 1].xIndex == x
      invariant 0 <= m < |s| && RunStartX(s, m, x) == RunStartX(s, m0, x)
      decreases m
    {
      m := m - 1;
    }
  }

  /** `entryIndex(xIndex:)`. */
  function EntryIndexSpec(s: seq<IndexedEntry>, x: int): (r: int)
    ensures r == -1 <==> s == []
    ensures s != [] ==> 0 <= r < |s|
  {
    XSearch(s, x, 0, |s| - 1, -1)
  }

  /** Where `x` belongs next to the search result `r`: after it when its x index is
    * smaller, otherwise at it. */
  function InsertionPoint(s: seq<IndexedEntry>, r: int, x: int): int
    requires 0 <= r < |s|
  {
    if s[r].xIndex < x then r + 1 else r
  }

  /** Position `p` splits the entries into those below `x` and those at or above it. */
  ghost predicate SplitsAt(s: seq<IndexedEntry>, x: int, p: int)
    requires 0 <= p <= |s|
  {
    (forall k :: 0 <= k < p ==> s[k].xIndex < x) &&
    (forall k :: p <= k < |s| ==> s[k].xIndex >= x)
  }

  /** What the search keeps on sorted entries: everything before the window is below
    * `x`, everything after it above, and the last probe sits next to the window. */
  ghost predicate XSearchInv(s: seq<IndexedEntry>, x: int, low: int, high: int, closest: int)
    requires 0 <= low <= high + 1 <= |s|
  {
    (forall k :: 0 <= k < low ==> s[k].xIndex < x) &&
    (forall k :: high < k < |s| ==> s[k].xIndex > x) &&
    ((closest == -1 && low == 0 && high == |s| - 1) ||
     (closest == low - 1 && 0 <= closest < |s| && s[closest].xIndex < x) ||
     (closest == high + 1 && 0 <= closest < |s| && s[closest].xIndex > x))
  }

  /** A hit returns the start of its run, which splits sorted entries at `x`. */
  lemma XSearchHit(s: seq<IndexedEntry>, x: int, m: int)
    requires SortedByXIndex(s) && 0 <= m < |s| && s[m].xIndex == x
    ensures var r := RunStartX(s, m, x);
      s[r].xIndex == x && InsertionPoint(s, r, x) == r && SplitsAt(s, x, r)
  {
    var r := RunStartX(s, m, x);
    assert s[r].xIndex == x;
    forall k | 0 <= k < r ensures s[k].xIndex < x {
      assert s[k].xIndex <= s[r - 1].xIndex <= s[r].xIndex;
    }
    forall k | r <= k < |s| ensures s[k].xIndex >= x {
      assert s[r].xIndex <= s[k].xIndex;
    }
  }

  /** Once the window is empty, the last probe lies next to where `x` belongs and no
    * entry is at `x`. */
  lemma XSearchMiss(s: seq<IndexedEntry>, x: int, low: int, closest: int)
    requires 0 <= low <= |s| && s != [] && -1 <= closest < |s|
    requires XSearchInv(s, x, low, low - 1, closest)
    ensures 0 <= closest < |s| && InsertionPoint(s, closest, x) == low && SplitsAt(s, x, low)
    ensures forall k :: 0 <= k < |s| ==> s[k].xIndex != x
  {
  }

  /** What the search promises about its result `r` on sorted entries. */
  ghost predicate XSearchGood(s: seq<IndexedEntry>, x: int, r: int)
  {
    0 <= r < |s| &&
    (s[r].xIndex == x || forall k :: 0 <= k < |s| ==> s[k].xIndex != x) &&
    SplitsAt(s, x, InsertionPoint(s, r, x))
  }

  lemma {:induction false} XSearchCorrect(s: seq<IndexedEntry>, x: int, low: int, high: int, closest: int)
    requires 0 <= low <= high + 1 <= |s| && -1 <= closest < |s|
    requires SortedByXIndex(s) && XSearchInv(s, x, low, high, closest)
    requires s != []
    ensures XSearchGood(s, x, XSearch(s, x, low, high, closest))
    decreases high - low + 1, 1
  {
    if low > high {
      XSearchMiss(s, x, low, closest);
      assert XSearch(s, x, low, high, closest) == closest;
    } else {
      var m := (high + low) / 2;
      if x == s[m].xIndex {
        XSearchHit(s, x, m);
        assert XSearch(s, x, low, high, closest) == RunStartX(s, m, x);
      } else if x > s[m].xIndex {
        XSearchRight(s, x, low, high, closest);
      } else {
        XSearchLeft(s, x, low, high, closest);
      }
    }
  }

  /** The step of the search that probes a position below `x`. */
  lemma {:induction false} XSearchRight(s: seq<IndexedEntry>, x: int, low: int, high: int, closest: int)
    requires 0 <= low <= high < |s| && -1 <= closest < |s|
    requires SortedByXIndex(s) && XSearchInv(s, x, low, high, closest)
    requires x > s[(high + low) / 2].xIndex
    ensures XSearchGood(s, x, XSearch(s, x, low, high, closest))
    decreases high - low + 1, 0
  {
    var m := (high + low) / 2;
    XSearchUnfold(s, x, low, high, closest);
    XSearchInvRight(s, x, low, high, m);
    XSearchCorrect(s, x, m + 1, high, m);
  }

  /** The step of the search that probes a position above `x`. */
  lemma {:induction false} XSearchLeft(s: seq<IndexedEntry>, x: int, low: int, high: int, closest: int)
    requires 0 <= low <= high < |s| && -1 <= closest < |s|
    requires SortedByXIndex(s) && XSearchInv(s, x, low, high, closest)
    requires x < s[(high + low) / 2].xIndex
    ensures XSearchGood(s, x, XSearch(s, x, low, high, closest))
    decreases high - low + 1, 0
  {
    var m := (high + low) / 2;
    XSearchUnfold(s, x, low, high, closest);
    XSearchInvLeft(s, x, low, high, m);
    XSearchCorrect(s, x, low, m - 1, m);
  }

  /** One probe of the search away from `x` narrows the window around the probe. */
  lemma XSearchUnfold(s: seq<IndexedEntry>, x: int, low: int, high: int, closest: int)
    requires 0 <= low <= high < |s| && -1 <= closest < |s|
    requires x != s[(high + low) / 2].xIndex
    ensures var m := (high + low) / 2;
      XSearch(s, x, low, high, closest) ==
        if x > s[m].xIndex then XSearch(s, x, m + 1, high, m) else XSearch(s, x, low, m - 1, m)
  {
  }

  /** A probe below `x` moves the window to its right and keeps the invariant. */
  lemma XSearchInvRight(s: seq<IndexedEntry>, x: int, low: int, high: int, m: int)
    requires 0 <= low <= m <= high < |s| && SortedByXIndex(s)
    requires forall k :: high < k < |s| ==> s[k].xIndex > x
    requires x > s[m].xIndex
    ensures XSearchInv(s, x, m + 1, high, m)
  {
    forall k | 0 <= k < m + 1 ensures s[k].xIndex < x {
      assert s[k].xIndex <= s[m].xIndex;
    }
  }

  /** A probe above `x` moves the window to its left and keeps the invariant. */
  lemma XSearchInvLeft(s: seq<IndexedEntry>, x: int, low: int, high: int, m: int)
    requires 0 <= low <= m <= high < |s| && SortedByXIndex(s)
    requires forall k :: 0 <= k < low ==> s[k].xIndex < x
    requires x < s[m].xIndex
    ensures XSearchInv(s, x, low, m - 1, m)
  {
    forall k | m - 1 < k < |s| ensures s[k].xIndex > x {
      assert s[m].xIndex <= s[k].xIndex;
    }
  }

  /** On sorted entries: a hit is the first entry at `x`; a miss lies next to where
    * `x` belongs, and everything before that point is below `x`, the rest at or above. */
  lemma EntryIndexFirstOrNeighbour(s: seq<IndexedEntry>, x: int)
    requires SortedByXIndex(s) && s != []
    ensures var r := EntryIndexSpec(s, x);
      (s[r].xIndex == x <==> exists k :: 0 <= k < |s| && s[k].xIndex == x) &&
      SplitsAt(s, x, InsertionPoint(s, r, x))
  {
    XSearchCorrect(s, x, 0, |s| - 1, -1);
  }

  /** A hit is the first entry with that x index. */
  lemma EntryIndexHitIsFirst(s: seq<IndexedEntry>, x: int)
    requires SortedByXIndex(s) && s != []
    requires exists k :: 0 <= k < |s| && s[k].xIndex == x
    ensures var r := EntryIndexSpec(s, x);
      s[r].xIndex == x && forall k :: 0 <= k < r ==> s[k].xIndex != x
  {
    EntryIndexFirstOrNeighbour(s, x);
  }

  // ---------------------------------------------------------------------------
  // entriesForXIndex(_:)

  /** The entries of `s` at x index `x`, in order. */
  function AtXIndex(s: seq<IndexedEntry>, x: int): (r: seq<IndexedEntry>)
    ensures |r| <= |s|
    ensures forall k :: 0 <= k < |r| ==> r[k].xIndex == x
  {
    if s == [] then []
    else (if s[0].xIndex == x then [s[0]] else []) + AtXIndex(s[1..], x)
  }

  lemma {:induction false} AtXIndexAppend(a: seq<IndexedEntry>, b: seq<IndexedEntry>, x: int)
    ensures AtXIndex(a + b, x) == AtXIndex(a, x) + AtXIndex(b, x)
  {
    if a == [] {
      assert a + b == b;
    } else {
      assert (a + b)[0] == a[0] && (a + b)[1..] == a[1..] + b;
      AtXIndexAppend(a[1..], b, x);
    }
  }

  lemma {:induction false} AtXIndexAll(s: seq<IndexedEntry>, x: int)
    requires forall k :: 0 <= k < |s| ==> s[k].xIndex == x
    ensures AtXIndex(s, x) == s
  {
    if s != [] {
      AtXIndexAll(s[1..], x);
    }
  }

  lemma {:induction false} AtXIndexNone(s: seq<IndexedEntry>, x: int)
    requires forall k :: 0 <= k < |s| ==> s[k].xIndex != x
    ensures AtXIndex(s, x) == []
  {
    if s != [] {
      AtXIndexNone(s[1..], x);
    }
  }

  lemma AtXIndexSlice(s: seq<IndexedEntry>, x: int, lo: int, hi: int)
    requires 0 <= lo <= hi <= |s|
    requires forall k :: 0 <= k < lo ==> s[k].xIndex != x
    requires forall k :: lo <= k < hi ==> s[k].xIndex == x
    requires forall k :: hi <= k < |s| ==> s[k].xIndex != x
    ensures AtXIndex(s, x) == s[lo..hi]
  {
    var before, run, after := s[..lo], s[lo..hi], s[hi..];
    assert s == before + run + after;
    AtXIndexAppend(before + run, after, x);
    AtXIndexAppend(before, run, x);
    AtXIndexNone(before, x);
    AtXIndexAll(run, x);
    AtXIndexNone(after, x);
  }

  /** On sorted entries, a maximal run at `x` is everything at `x`. */
  lemma AtXIndexRun(s: seq<IndexedEntry>, x: int, lo: int, hi: int)
    requires SortedByXIndex(s) && 0 <= lo < hi <= |s|
    requires forall k :: lo <= k < hi ==> s[k].xIndex == x
    requires lo == 0 || s[lo - 1].xIndex != x
    requires hi == |s| || s[hi].xIndex != x
    ensures AtXIndex(s, x) == s[lo..hi]
  {
    forall k | 0 <= k < lo ensures s[k].xIndex != x {
      assert s[k].xIndex <= s[lo - 1].xIndex <= s[lo].xIndex;
    }
    forall k | hi <= k < |s| ensures s[k].xIndex != x {
      assert s[hi - 1].xIndex <= s[hi].xIndex <= s[k].xIndex;
    }
    AtXIndexSlice(s, x, lo, hi);
  }

  /** The loop state of `entriesForXIndex`: the window and the entries collected. */
  datatype ScanState = ScanState(low: int, high: int, entries: seq<IndexedEntry>)

  /** The first position after `i` whose x index differs from `x`, or the end. */
  function RunEndX(s: seq<IndexedEntry>, i: int, x: int): (r: int)
    requires 0 <= i < |s|
    ensures i < r <= |s|
    ensures forall k :: i < k < r ==> s[k].xIndex == x
    ensures r == |s| || s[r].xIndex != x
    decreases |s| - i
  {
    if i + 1 < |s| && s[i + 1].xIndex == x then RunEndX(s, i + 1, x) else i + 1
  }

  /** One pass of the `entriesForXIndex` loop as written: after collecting a run the
    * loop goes on, comparing against the position just past the run; None is the
    * read past the last entry that this comparison makes when the run ends the list. */
  function EntriesStepAsWritten(s: seq<IndexedEntry>, x: int, st: ScanState): (r: Option<ScanState>)
    requires 0 <= st.low <= st.high < |s|
  {
    var m := (st.high + st.low) / 2;
    if x == s[m].xIndex then
      var end := RunEndX(s, RunStartX(s, m, x), x);
      var collected := st.entries + s[RunStartX(s, m, x)..end];
      if end >= |s| then None
      else if x > s[end].xIndex then Some(ScanState(end + 1, |s|, collected))
      else Some(ScanState(st.low, end - 1, collected))
    else if x > s[m].xIndex then Some(ScanState(m + 1, st.high, st.entries))
    else Some(ScanState(st.low, m - 1, st.entries))
  }

  /** With x indices 1, 2, 3: looking for 1, the loop narrows to the window `0...0`
    * and then returns to that same window on every pass, collecting the entry again
    * each time, so it never ends; looking for 3, it reads past the last entry. */
  lemma EntriesForXIndexAsWrittenNeverEnds(acc: seq<IndexedEntry>)
    ensures var s := [IndexedEntry(1, Num(0.0)), IndexedEntry(2, Num(0.0)), IndexedEntry(3, Num(0.0))];
      EntriesStepAsWritten(s, 1, ScanState(0, 2, [])) == Some(ScanState(0, 0, [])) &&
      EntriesStepAsWritten(s, 1, ScanState(0, 0, acc)) == Some(ScanState(0, 0, acc + [s[0]])) &&
      EntriesStepAsWritten(s, 3, ScanState(0, 2, [])) == Some(ScanState(2, 2, [])) &&
      EntriesStepAsWritten(s, 3, ScanState(2, 2, [])).None?
  {
    var s := [IndexedEntry(1, Num(0.0)), IndexedEntry(2, Num(0.0)), IndexedEntry(3, Num(0.0))];
    assert RunStartX(s, 0, 1) == 0 && RunEndX(s, 0, 1) == 1;
    assert s[0..1] == [s[0]];
    assert RunStartX(s, 2, 3) == 2 && RunEndX(s, 2, 3) == 3;
  }

  // ---------------------------------------------------------------------------
  // The data set

  class ChartDataSet {
    var colors: seq<Color>
    /** `_yVals`, expected in x-index order. */
    var yVals: seq<IndexedEntry>
    var yMax: Double
    var yMin: Double
    var yValueSum: Double
    /** The range of the last `calcMinMax(start:end:)`. */
    var lastStart: int
    var lastEnd: int

    /** The remembered range starts inside the entries' indices. */
    ghost predicate Valid()
      reads this
    {
      lastStart >= 0
    }

    /** The cached sum agrees with the entries. */
    ghost predicate SumTracks()
      reads this
    {
      yValueSum == Sum(yVals)
    }

    /** `init()`, with the entries empty rather than nil. */
    constructor Empty()
      ensures Valid() && yVals == [] && colors == [] && SumTracks()
      ensures yMin == Num(0.0) && yMax == Num(0.0) && lastStart == 0 && lastEnd == 0
    {
      colors := [];
      yVals := [];
      yMax, yMin, yValueSum := Num(0.0), Num(0.0), Num(0.0);
      lastStart, lastEnd := 0, 0;
    }

    /** `init(yVals:label:)`: the entries (none for nil), the default colour, then the
      * bounds over every entry and the sum. */
    constructor (yVals: Option<seq<IndexedEntry>>)
      ensures Valid() && SumTracks() && colors == [DefaultColor]
      ensures this.yVals == (if yVals.Some? then yVals.value else [])
      ensures this.yVals != [] ==>
        lastStart == 0 && lastEnd == |this.yVals| - 1 &&
        yMin.Num? && yMax.Num? && (yMin.v, yMax.v) == RangeBounds(this.yVals)
      ensures this.yVals == [] ==> yMin == Num(0.0) && yMax == Num(0.0)
    {
      colors := [DefaultColor];
      this.yVals := if yVals.Some? then yVals.value else [];
      yMax, yMin, yValueSum := Num(0.0), Num(0.0), Num(0.0);
      lastStart, lastEnd := 0, 0;
      new;
      CalcMinMax(lastStart, lastEnd);
      assert Visited(this.yVals, 0, |this.yVals| - 1) == this.yVals;
      CalcYValueSum();
    }

    /** `notifyDataSetChanged()`: the bounds over the remembered range, and the sum. */
    method NotifyDataSetChanged()
      requires Valid()
      modifies this
      ensures Valid() && SumTracks() && yVals == old(yVals) && colors == old(colors)
      ensures lastStart == old(lastStart)
      ensures yVals == [] ==> yMin == old(yMin) && yMax == old(yMax) && lastEnd == old(lastEnd)
      ensures yVals != [] ==>
        lastEnd == EndValue(|yVals|, old(lastEnd)) &&
        yMin.Num? && yMax.Num? && (yMin.v, yMax.v) == RangeBounds(Visited(yVals, lastStart, lastEnd))
    {
      CalcMinMax(lastStart, lastEnd);
      CalcYValueSum();
    }

    /** `calcMinMax(start:end:)`: with no entries nothing changes; otherwise the range
      * is remembered and the y bounds are taken over its values that are not NaN,
      * both 0 when none counts. */
    method CalcMinMax(start: int, end: int)
      requires start >= 0
      modifies this
      ensures yVals == old(yVals) && colors == old(colors) && yValueSum == old(yValueSum)
      ensures yVals == [] ==> unchanged(this)
      ensures yVals != [] ==>
        lastStart == start && lastEnd == EndValue(|yVals|, end) &&
        yMin.Num? && yMax.Num? && (yMin.v, yMax.v) == RangeBounds(Visited(yVals, start, lastEnd))
    {
      var yValCount := |yVals|;
      if yValCount == 0 {
        return;
      }
      var endValue: int;
      if end == 0 || end >= yValCount {
        endValue := yValCount - 1;
      } else {
        endValue := end;
      }
      lastStart := start;
      lastEnd := endValue;
      var lo, hi := RangeMinMax(start, endValue);
      if lo == GreatestFinite {
        lo, hi := 0.0, 0.0;
      }
      yMin, yMax := Num(lo), Num(hi);
    }

    /** The loop of `calcMinMax`: the least and greatest values of `start...endValue`
      * that are not NaN, from `DBL_MAX` and `-DBL_MAX`. */
    method RangeMinMax(start: int, endValue: int) returns (lo: real, hi: real)
      requires 0 <= start && endValue < |yVals|
      ensures lo == CountedMin(Visited(yVals, start, endValue))
      ensures hi == CountedMax(Visited(yVals, start, endValue))
    {
      lo, hi := GreatestFinite, -GreatestFinite;
      var vals := yVals;
      var i := start;
      while i <= endValue
        invariant start <= i <= (if start <= endValue then endValue + 1 else start)
        invariant lo == CountedMin(Visited(vals, start, i - 1))
        invariant hi == CountedMax(Visited(vals, start, i - 1))
        decreases endValue - i
      {
        var e := vals[i];
        VisitedSnoc(vals, start, i);
        if e.value.Num? {
          if e.value.v < lo {
            lo := e.value.v;
          }
          if e.value.v > hi {
            hi := e.value.v;
          }
        }
        i := i + 1;
      }
      if start > endValue {
        assert Visited(vals, start, i - 1) == [] == Visited(vals, start, endValue);
      } else {
        assert i - 1 == endValue;
      }
    }

    /** `calcYValueSum()`: the sum of every value. */
    method CalcYValueSum()
      modifies this
      ensures SumTracks()
      ensures yVals == old(yVals) && colors == old(colors) && yMin == old(yMin) && yMax == old(yMax)
      ensures lastStart == old(lastStart) && lastEnd == old(lastEnd)
    {
      var sum := Num(0.0);
      var i := 0;
      while i < |yVals|
        invariant 0 <= i <= |yVals| && sum == Sum(yVals[..i])
      {
        assert yVals[..i + 1][..i] == yVals[..i];
        sum := Plus(sum, yVals[i].value);
        i := i + 1;
      }
      assert yVals[..i] == yVals;
      yValueSum := sum;
    }

    /** `entryIndex(xIndex:)`: -1 on no entries; otherwise the first entry at `x` when
      * there is one, else the last position the binary search probed. */
    method EntryIndex(x: int) returns (r: int)
      ensures r == EntryIndexSpec(yVals, x)
    {
      var vals := yVals;
      var low := 0;
      var high := |vals| - 1;
      var closest := -1;
      while low <= high
        invariant 0 <= low && high < |vals| && -1 <= closest < |vals|
        invariant XSearch(vals, x, low, high, closest) == EntryIndexSpec(vals, x)
        decreases high - low + 1
      {
        var m := (high + low) / 2;
        var entry := vals[m];
        if x == entry.xIndex {
          r := FirstOfRun(vals, m, x);
          return;
        }
        if x > entry.xIndex {
          low := m + 1;
        } else {
          high := m - 1;
        }
        closest := m;
      }
      return closest;
    }

    /** `entryForXIndex(_:)`: nil exactly when there are no entries. */
    method EntryForXIndex(x: int) returns (r: Option<IndexedEntry>)
      ensures r.None? <==> yVals == []
      ensures r.Some? ==> r.value == yVals[EntryIndexSpec(yVals, x)]
    {
      var index := EntryIndex(x);
      if index > -1 {
        return Some(yVals[index]);
      }
      return None;
    }

    /** `yValForXIndex(_:)`: the value of an entry at `x`, NaN when the search lands
      * elsewhere; on sorted entries NaN exactly when no entry is at `x`. */
    method YValForXIndex(x: int) returns (r: Double)
      ensures yVals != [] && yVals[EntryIndexSpec(yVals, x)].xIndex == x ==>
        r == yVals[EntryIndexSpec(yVals, x)].value
      ensures yVals == [] || yVals[EntryIndexSpec(yVals, x)].xIndex != x ==> r == NaN
      ensures SortedByXIndex(yVals) && (forall k :: 0 <= k < |yVals| ==> yVals[k].xIndex != x) ==> r == NaN
    {
      var e := EntryForXIndex(x);
      if e.Some? && e.value.xIndex == x {
        return e.value.value;
      }
      return NaN;
    }

    /** `entriesForXIndex(_:)`, leaving the loop once the run is collected (see
      * Findings): on sorted entries, every entry at `x`, in order. */
    method EntriesForXIndex(x: int) returns (entries: seq<IndexedEntry>)
      ensures forall k :: 0 <= k < |entries| ==> entries[k].xIndex == x
      ensures SortedByXIndex(yVals) ==> entries == AtXIndex(yVals, x)
    {
      var low := 0;
      var high := |yVals| - 1;
      while low <= high
        invariant 0 <= low <= high + 1 <= |yVals|
        invariant SortedByXIndex(yVals) ==>
          (forall k :: 0 <= k < low ==> yVals[k].xIndex < x) &&
          (forall k :: high < k < |yVals| ==> yVals[k].xIndex > x)
        decreases high - low
      {
        var m := (high + low) / 2;
        var entry := yVals[m];
        if x == entry.xIndex {
          entries := CollectRun(m, x);
          return;
        }
        if x > entry.xIndex {
          if SortedByXIndex(yVals) {
            assert forall k :: 0 <= k <= m ==> yVals[k].xIndex <= yVals[m].xIndex;
          }
          low := m + 1;
        } else {
          if SortedByXIndex(yVals) {
            assert forall k :: m <= k < |yVals| ==> yVals[m].xIndex <= yVals[k].xIndex;
          }
          high := m - 1;
        }
      }
      entries := [];
      if SortedByXIndex(yVals) {
        AtXIndexNone(yVals, x);
      }
    }

    /** The match branch of `entriesForXIndex`: back to the start of the run at `x`,
      * then collect forward while the x index matches. */
    method CollectRun(from: int, x: int) returns (entries: seq<IndexedEntry>)
      requires 0 <= from < |yVals| && yVals[from].xIndex == x
      ensures forall k :: 0 <= k < |entries| ==> entries[k].xIndex == x
      ensures SortedByXIndex(yVals) ==> entries == AtXIndex(yVals, x)
    {
      var m := from;
      while m > 0 && yVals[m - 1].xIndex == x
        invariant 0 <= m <= from && yVals[m].xIndex == x
        decreases m
      {
        m := m - 1;
      }
      ghost var start := m;
      entries := [];
      var high := |yVals|;
      while m < high
        invariant start <= m <= high == |yVals|
        invariant entries == yVals[start..m]
        invariant forall k :: start <= k < m ==> yVals[k].xIndex == x
        invariant m == start ==> m < |yVals|
        decreases high - m
      {
        var entry := yVals[m];
        if entry.xIndex == x {
          entries := entries + [entry];
        } else {
          break;
        }
        m := m + 1;
      }
      if SortedByXIndex(yVals) {
        AtXIndexRun(yVals, x, start, m);
      }
    }

    /** `entryIndex(entry:isEqual:)`: the first position holding `e`, or -1. Identity
      * and `isEqual` both become equality of values. */
    function EntryIndexOf(e: IndexedEntry): (r: int)
      reads this
      ensures r == -1 <==> e !in yVals
      ensures r != -1 ==> 0 <= r < |yVals| && yVals[r] == e && e !in yVals[..r]
    {
      match IndexOf(yVals, e)
      case None => -1
      case Some(i) => i
    }

    /** The bounds update `addEntry` and `addEntryOrdered` share: the first value sets
      * both bounds, later ones widen them by `<` and `>` (which NaN never passes). */
    method WidenBounds(val: Double)
      modifies this
      ensures old(yVals) == [] ==> yMin == val && yMax == val
      ensures old(yVals) != [] ==> yMax == (if Less(old(yMax), val) then val else old(yMax)) &&
                                   yMin == (if Less(val, old(yMin)) then val else old(yMin))
      ensures yValueSum == Plus(old(yValueSum), val)
      ensures yVals == old(yVals) && colors == old(colors) && lastStart == old(lastStart) && lastEnd == old(lastEnd)
    {
      if |yVals| == 0 {
        yMax := val;
        yMin := val;
      } else {
        if Less(yMax, val) {
          yMax := val;
        }
        if Less(val, yMin) {
          yMin := val;
        }
      }
      yValueSum := Plus(yValueSum, val);
    }

    /** `addEntry(_:)`: appends `e`, adds its value to the sum and widens the bounds. */
    method AddEntry(e: IndexedEntry)
      requires Valid()
      modifies this
      ensures Valid() && yVals == old(yVals) + [e] && colors == old(colors)
      ensures yValueSum == Plus(old(yValueSum), e.value)
      ensures old(SumTracks()) ==> SumTracks()
      ensures old(yVals) == [] ==> yMin == e.value && yMax == e.value
      ensures old(yVals) != [] ==> yMax == (if Less(old(yMax), e.value) then e.value else old(yMax)) &&
                                   yMin == (if Less(e.value, old(yMin)) then e.value else old(yMin))
    {
      WidenBounds(e.value);
      assert (yVals + [e])[..|yVals|] == yVals;
      yVals := yVals + [e];
    }

    /** `addEntryOrdered(_:)`: like `addEntry`, but inserted before the first entry with
      * a larger x index when the last entry's is larger, which keeps sorted entries sorted. */
    method AddEntryOrdered(e: IndexedEntry)
      requires Valid()
      modifies this
      ensures Valid() && colors == old(colors)
      ensures multiset(yVals) == multiset(old(yVals)) + multiset{e}
      ensures yValueSum == Plus(old(yValueSum), e.value)
      ensures old(yVals) == [] ==> yMin == e.value && yMax == e.value
      ensures old(yVals) != [] ==> yMax == (if Less(old(yMax), e.value) then e.value else old(yMax)) &&
                                   yMin == (if Less(e.value, old(yMin)) then e.value else old(yMin))
      ensures exists p :: 0 <= p <= |old(yVals)| && yVals == old(yVals)[..p] + [e] + old(yVals)[p..]
      ensures old(yVals) != [] && old(yVals)[|old(yVals)| - 1].xIndex > e.xIndex ==>
        var p := InsertionPoint(old(yVals), EntryIndexSpec(old(yVals), e.xIndex), e.xIndex);
        yVals == old(yVals)[..p] + [e] + old(yVals)[p..]
      ensures old(yVals) == [] || old(yVals)[|old(yVals)| - 1].xIndex <= e.xIndex ==> yVals == old(yVals) + [e]
      ensures SortedByXIndex(old(yVals)) ==> SortedByXIndex(yVals)
    {
      WidenBounds(e.value);
      if |yVals| > 0 && yVals[|yVals| - 1].xIndex > e.xIndex {
        var closestIndex := InsertionIndex(e);
        InsertAt(closestIndex, e);
        return;
      }
      if SortedByXIndex(yVals) {
        AppendKeepsSortedByXIndex(yVals, e);
      }
      assert yVals + [e] == yVals[..|yVals|] + [e] + yVals[|yVals|..];
      yVals := yVals + [e];
    }

    /** `e` inserted into the entries before position `p`. */
    method InsertAt(p: int, e: IndexedEntry)
      requires 0 <= p <= |yVals|
      modifies this`yVals
      ensures yVals == old(yVals)[..p] + [e] + old(yVals)[p..]
      ensures multiset(yVals) == multiset(old(yVals)) + multiset{e}
    {
      assert yVals == yVals[..p] + yVals[p..];
      yVals := yVals[..p] + [e] + yVals[p..];
    }

    /** Where `addEntryOrdered` inserts: the search result, moved one on when its
      * x index is smaller; on sorted entries, the first position whose x index
      * reaches `e`'s (so after every entry below it and before every equal one),
      * which keeps them sorted. */
    method InsertionIndex(e: IndexedEntry) returns (p: int)
      requires yVals != []
      ensures 0 <= p <= |yVals|
      ensures p == InsertionPoint(yVals, EntryIndexSpec(yVals, e.xIndex), e.xIndex)
      ensures SortedByXIndex(yVals) ==> SplitsAt(yVals, e.xIndex, p)
      ensures SortedByXIndex(yVals) ==> SortedByXIndex(yVals[..p] + [e] + yVals[p..])
    {
      p := EntryIndex(e.xIndex);
      if yVals[p].xIndex < e.xIndex {
        p := p + 1;
      }
      if SortedByXIndex(yVals) {
        EntryIndexFirstOrNeighbour(yVals, e.xIndex);
        InsertKeepsSortedByXIndex(yVals, p, e);
      }
    }

    /** `removeEntry(_:)`: false and nothing changed when `entry` is absent; otherwise
      * its first occurrence removed, its value taken off the sum and the bounds
      * recomputed over the remembered range. */
    method RemoveEntry(entry: IndexedEntry) returns (removed: bool)
      requires Valid()
      modifies this
      ensures Valid() && colors == old(colors)
      ensures removed <==> entry in old(yVals)
      ensures !removed ==>
        yVals == old(yVals) && yValueSum == old(yValueSum) &&
        yMin == old(yMin) && yMax == old(yMax) && lastEnd == old(lastEnd)
      ensures removed ==> var i := IndexOf(old(yVals), entry).value;
        yVals == old(yVals)[..i] + old(yVals)[i + 1..] && yValueSum == Minus(old(yValueSum), entry.value)
      ensures removed && NoNaN(old(yVals)) && old(SumTracks()) ==> SumTracks()
      ensures removed && yVals != [] ==>
        lastEnd == EndValue(|yVals|, old(lastEnd)) &&
        yMin.Num? && yMax.Num? && (yMin.v, yMax.v) == RangeBounds(Visited(yVals, lastStart, lastEnd))
      ensures removed && yVals == [] ==> yMin == old(yMin) && yMax == old(yMax) && lastEnd == old(lastEnd)
    {
      match IndexOf(yVals, entry)
      case None =>
        return false;
      case Some(i) =>
        DropAt(i);
        CalcMinMax(lastStart, lastEnd);
        return true;
    }

    /** What every removal shares before its bounds are recomputed: the entry at `i`
      * dropped and its value taken off the sum. */
    method DropAt(i: int)
      requires Valid() && 0 <= i < |yVals|
      modifies this
      ensures Valid() && colors == old(colors)
      ensures yVals == old(yVals)[..i] + old(yVals)[i + 1..] && yValueSum == Minus(old(yValueSum), old(yVals)[i].value)
      ensures NoNaN(old(yVals)) && old(SumTracks()) ==> SumTracks()
      ensures yMin == old(yMin) && yMax == old(yMax) && lastStart == old(lastStart) && lastEnd == old(lastEnd)
    {
      var e := yVals[i];
      if NoNaN(yVals) {
        SumRemoveAt(yVals, i);
      }
      yVals := yVals[..i] + yVals[i + 1..];
      yValueSum := Minus(yValueSum, e.value);
    }

    /** `removeEntry(xIndex:)`: false on no entries; otherwise the entry the search
      * finds (which may lie at another x index) removed, as `removeEntry(_:)` does. */
    method RemoveEntryAtXIndex(x: int) returns (removed: bool)
      requires Valid()
      modifies this
      ensures Valid() && colors == old(colors)
      ensures removed <==> old(yVals) != []
      ensures !removed ==> yVals == old(yVals) && yValueSum == old(yValueSum) && yMin == old(yMin) && yMax == old(yMax)
      ensures removed ==> var i := EntryIndexSpec(old(yVals), x);
        yVals == old(yVals)[..i] + old(yVals)[i + 1..] && yValueSum == Minus(old(yValueSum), old(yVals)[i].value)
      ensures removed && NoNaN(old(yVals)) && old(SumTracks()) ==> SumTracks()
      ensures removed && yVals != [] ==>
        lastEnd == EndValue(|yVals|, old(lastEnd)) &&
        yMin.Num? && yMax.Num? && (yMin.v, yMax.v) == RangeBounds(Visited(yVals, lastStart, lastEnd))
      ensures removed && yVals == [] ==> yMin == old(yMin) && yMax == old(yMax) && lastEnd == old(lastEnd)
    {
      var index := EntryIndex(x);
      if index > -1 {
        DropAt(index);
        CalcMinMax(lastStart, lastEnd);
        return true;
      }
      return false;
    }

    /** `removeFirst()`: false on no entries; otherwise the first entry dropped, its
      * value taken off the sum and the bounds recomputed. */
    method RemoveFirst() returns (removed: bool)
      requires Valid()
      modifies this
      ensures Valid() && colors == old(colors)
      ensures removed <==> old(yVals) != []
      ensures !removed ==> yVals == old(yVals) && yValueSum == old(yValueSum)
      ensures removed ==> yVals == old(yVals)[1..] && yValueSum == Minus(old(yValueSum), old(yVals)[0].value)
      ensures removed && NoNaN(old(yVals)) && old(SumTracks()) ==> SumTracks()
      ensures removed && yVals != [] ==>
        lastEnd == EndValue(|yVals|, old(lastEnd)) &&
        yMin.Num? && yMax.Num? && (yMin.v, yMax.v) == RangeBounds(Visited(yVals, lastStart, lastEnd))
      ensures removed && yVals == [] ==> yMin == old(yMin) && yMax == old(yMax) && lastEnd == old(lastEnd)
    {
      if yVals == [] {
        return false;
      }
      assert yVals[..0] + yVals[1..] == yVals[1..];
      DropAt(0);
      CalcMinMax(lastStart, lastEnd);
      return true;
    }

    /** `removeLast()`: false on no entries; otherwise the last entry dropped, its
      * value taken off the sum and the bounds recomputed. */
    method RemoveLast() returns (removed: bool)
      requires Valid()
      modifies this
      ensures Valid() && colors == old(colors)
      ensures removed <==> old(yVals) != []
      ensures !removed ==> yVals == old(yVals) && yValueSum == old(yValueSum)
      ensures removed ==>
        yVals == old(yVals)[..|old(yVals)| - 1] &&
        yValueSum == Minus(old(yValueSum), old(yVals)[|old(yVals)| - 1].value)
      ensures removed && NoNaN(old(yVals)) && old(SumTracks()) ==> SumTracks()
      ensures removed && yVals != [] ==>
        lastEnd == EndValue(|yVals|, old(lastEnd)) &&
        yMin.Num? && yMax.Num? && (yMin.v, yMax.v) == RangeBounds(Visited(yVals, lastStart, lastEnd))
      ensures removed && yVals == [] ==> yMin == old(yMin) && yMax == old(yMax) && lastEnd == old(lastEnd)
    {
      if yVals == [] {
        return false;
      }
      var n := |yVals|;
      assert yVals[..n - 1] + yVals[n..] == yVals[..n - 1];
      DropAt(n - 1);
      CalcMinMax(lastStart, lastEnd);
      return true;
    }

    /** `resetColors()`. */
    method ResetColors()
      modifies this
      ensures colors == [] && yVals == old(yVals)
    {
      colors := [];
    }

    /** `addColor(_:)`. */
    method AddColor(color: Color)
      modifies this
      ensures colors == old(colors) + [color] && yVals == old(yVals)
    {
      colors := colors + [color];
    }

    /** `setColor(_:)`: the one colour. */
    method SetColor(color: Color)
      modifies this
      ensures colors == [color] && yVals == old(yVals)
      ensures forall i :: ColorAt(colors, i) == color
    {
      colors := [color];
    }

    /** `contains(_:)`: some entry equals `e`. */
    function Contains(e: IndexedEntry): (r: bool)
      reads this
      ensures r <==> exists k :: 0 <= k < |yVals| && yVals[k] == e
    {
      e in yVals
    }

    /** `clear()`: no entries, the remembered range reset and a sum of 0; with no
      * entries `calcMinMax` returns early, so the y bounds keep their old values. */
    method Clear()
      requires Valid()
      modifies this
      ensures Valid() && yVals == [] && colors == old(colors)
      ensures lastStart == 0 && lastEnd == 0 && yValueSum == Num(0.0)
      ensures yMin == old(yMin) && yMax == old(yMax)
    {
      yVals := [];
      lastStart := 0;
      lastEnd := 0;
      NotifyDataSetChanged();
    }
  }

  /** Appending an entry at or above the last x index keeps sorted entries sorted. */
  lemma AppendKeepsSortedByXIndex(s: seq<IndexedEntry>, e: IndexedEntry)
    requires SortedByXIndex(s) && (s == [] || s[|s| - 1].xIndex <= e.xIndex)
    ensures SortedByXIndex(s + [e])
  {
    var t := s + [e];
    forall a, b | 0 <= a < b < |t| ensures t[a].xIndex <= t[b].xIndex {
      if b == |s| {
        assert s[a].xIndex <= s[|s| - 1].xIndex;
      }
    }
  }

  /** Inserting at a point that splits the entries at `e`'s x index keeps sorted
    * entries sorted. */
  lemma InsertKeepsSortedByXIndex(s: seq<IndexedEntry>, p: int, e: IndexedEntry)
    requires SortedByXIndex(s) && 0 <= p <= |s|
    requires forall k :: 0 <= k < p ==> s[k].xIndex < e.xIndex
    requires forall k :: p <= k < |s| ==> s[k].xIndex >= e.xIndex
    ensures SortedByXIndex(s[..p] + [e] + s[p..])
  {
    var t := s[..p] + [e] + s[p..];
    forall a, b | 0 <= a < b < |t| ensures t[a].xIndex <= t[b].xIndex {
      if b < p {
        assert t[a] == s[a] && t[b] == s[b];
      } else if a > p {
        assert t[a] == s[a - 1] && t[b] == s[b - 1];
      } else if a == p {
        assert t[b] == s[b - 1];
      } else {
        assert t[a] == s[a];
      }
    }
  }
}
