/** Shared vocabulary: optional values, the few real-number helpers the chart code
  * uses (`abs`, `min`, `max`), the largest finite double, and the chart entry. */
module Common {

  datatype Option<T> = None | Some(value: T)

  /** `Double.greatestFiniteMagnitude` (DBL_MAX), written out exactly. */
  const GreatestFinite: real := 179769313486231570814527423731704356798070567525844996598917476803157260780028538760589558632766878171540458953514382464234321326889464182768467546703537516986049910576551282076245490090389328944075868508455133942304583236903222948165808559332123348274797826204144723168738177180919299881250404026184124858368.0

  function Abs(x: real): (r: real)
    ensures r >= 0.0
    ensures r == x || r == -x
  {
    if x < 0.0 then -x else x
  }

  function Min(a: real, b: real): (r: real)
    ensures r <= a && r <= b
    ensures r == a || r == b
  {
    if a <= b then a else b
  }

  function Max(a: real, b: real): (r: real)
    ensures r >= a && r >= b
    ensures r == a || r == b
  {
    if a >= b then a else b
  }

  /** `ChartDataSetRounding`. */
  datatype Rounding = Up | Down | Closest

  /** A colour (`UIColor`/`NSUIColor`), by its components. */
  datatype Color = Color(red: real, green: real, blue: real, alpha: real)

  /** The default colour of a new data set (140, 234, 255). */
  const DefaultColor := Color(140.0 / 255.0, 234.0 / 255.0, 1.0, 1.0)

  /** Opaque black, the default value-text colour. */
  const Black := Color(0.0, 0.0, 0.0, 1.0)

  /** A colour list indexed cyclically, as `colorAt(_:)`, `color(atIndex:)` and
    * `valueTextColorAt(_:)` do: a negative index counts as 0, then the index wraps
    * around the list. An empty list traps, hence the precondition. */
  function ColorAt(colors: seq<Color>, index: int): (c: Color)
    requires |colors| > 0
    ensures c in colors
    ensures 0 <= index < |colors| ==> c == colors[index]
    ensures index < 0 ==> c == colors[0]
  {
    var i := if index < 0 then 0 else index;
    colors[i % |colors|]
  }

  /** The colours repeat with the period of their count. */
  lemma ColorAtPeriodic(colors: seq<Color>, index: int)
    requires |colors| > 0 && index >= 0
    ensures ColorAt(colors, index + |colors|) == ColorAt(colors, index)
  {
    ModAddPeriod(index, |colors|);
  }

  /** Adding the divisor leaves the remainder. */
  lemma ModAddPeriod(a: int, n: int)
    requires n > 0
    ensures (a + n) % n == a % n
  {
    var q, r := a / n, a % n;
    var q', r' := (a + n) / n, (a + n) % n;
    assert a == q * n + r;
    assert a + n == q' * n + r';
    assert (q + 1 - q') * n == r' - r;
    MultipleBelowDivisor(q + 1 - q', n);
  }

  /** The only multiple of `n` strictly between `-n` and `n` is 0. */
  lemma MultipleBelowDivisor(d: int, n: int)
    requires n > 0 && -n < d * n < n
    ensures d == 0
  {
  }

  /** Which y axis a data set is plotted against. */
  datatype AxisDependency = Left | Right

  /** A chart data point (`ChartDataEntry`): an x position and a y value. */
  datatype Entry = Entry(x: real, y: real)

  /** The x values of a list of entries. */
  function Xs(s: seq<Entry>): (r: seq<real>)
    ensures |r| == |s|
    ensures forall i :: 0 <= i < |s| ==> r[i] == s[i].x
  {
    seq(|s|, i requires 0 <= i < |s| => s[i].x)
  }

  /** The y values of a list of entries. */
  function Ys(s: seq<Entry>): (r: seq<real>)
    ensures |r| == |s|
    ensures forall i :: 0 <= i < |s| ==> r[i] == s[i].y
  {
    seq(|s|, i requires 0 <= i < |s| => s[i].y)
  }

  lemma XsYsSnoc(s: seq<Entry>, i: int)
    requires 0 <= i < |s|
    ensures Xs(s[..i + 1]) == Xs(s[..i]) + [s[i].x]
    ensures Ys(s[..i + 1]) == Ys(s[..i]) + [s[i].y]
  {
  }

  /** The running minimum `m = min(v, m)` over `s`, left to right, starting at `init`.
    * It is below `init` and every value. */
  function FoldMin(s: seq<real>, init: real): (r: real)
    ensures r <= init
    ensures forall i :: 0 <= i < |s| ==> r <= s[i]
    decreases |s|
  {
    if s == [] then init
    else
      var r := Min(s[|s| - 1], FoldMin(s[..|s| - 1], init));
      assert forall i :: 0 <= i < |s| - 1 ==> s[i] == s[..|s| - 1][i];
      r
  }

  /** The running maximum `m = max(v, m)` over `s`, left to right, starting at `init`. */
  function FoldMax(s: seq<real>, init: real): (r: real)
    ensures r >= init
    ensures forall i :: 0 <= i < |s| ==> r >= s[i]
    decreases |s|
  {
    if s == [] then init
    else
      var r := Max(s[|s| - 1], FoldMax(s[..|s| - 1], init));
      assert forall i :: 0 <= i < |s| - 1 ==> s[i] == s[..|s| - 1][i];
      r
  }

  /** The folds are attained: each is `init` or one of the values. */
  lemma {:induction false} FoldAttained(s: seq<real>, init: real)
    ensures FoldMin(s, init) == init || exists i :: 0 <= i < |s| && FoldMin(s, init) == s[i]
    ensures FoldMax(s, init) == init || exists i :: 0 <= i < |s| && FoldMax(s, init) == s[i]
    decreases |s|
  {
    if s != [] {
      var t := s[..|s| - 1];
      FoldAttained(t, init);
      assert forall i :: 0 <= i < |t| ==> t[i] == s[i];
    }
  }

  lemma FoldSnoc(s: seq<real>, v: real, init: real)
    ensures FoldMin(s + [v], init) == Min(v, FoldMin(s, init))
    ensures FoldMax(s + [v], init) == Max(v, FoldMax(s, init))
  {
    assert (s + [v])[..|s|] == s;
  }

  /** Appending an entry folds it into the bounds exactly as `calcMinMax(entry:)` does. */
  lemma FoldEntrySnoc(s: seq<Entry>, e: Entry)
    ensures FoldMin(Xs(s + [e]), GreatestFinite) == Min(e.x, FoldMin(Xs(s), GreatestFinite))
    ensures FoldMax(Xs(s + [e]), -GreatestFinite) == Max(e.x, FoldMax(Xs(s), -GreatestFinite))
    ensures FoldMin(Ys(s + [e]), GreatestFinite) == Min(e.y, FoldMin(Ys(s), GreatestFinite))
    ensures FoldMax(Ys(s + [e]), -GreatestFinite) == Max(e.y, FoldMax(Ys(s), -GreatestFinite))
  {
    assert Xs(s + [e]) == Xs(s) + [e.x];
    assert Ys(s + [e]) == Ys(s) + [e.y];
    FoldSnoc(Xs(s), e.x, GreatestFinite);
    FoldSnoc(Xs(s), e.x, -GreatestFinite);
    FoldSnoc(Ys(s), e.y, GreatestFinite);
    FoldSnoc(Ys(s), e.y, -GreatestFinite);
  }

  /** Folding one more entry into the y bounds of a slice. */
  lemma FoldYSliceSnoc(s: seq<Entry>, lo: int, i: int)
    requires 0 <= lo <= i < |s|
    ensures FoldMin(Ys(s[lo..i + 1]), GreatestFinite) == Min(s[i].y, FoldMin(Ys(s[lo..i]), GreatestFinite))
    ensures FoldMax(Ys(s[lo..i + 1]), -GreatestFinite) == Max(s[i].y, FoldMax(Ys(s[lo..i]), -GreatestFinite))
  {
    assert s[lo..i + 1] == s[lo..i] + [s[i]];
    assert Ys(s[lo..i + 1]) == Ys(s[lo..i]) + [s[i].y];
    FoldSnoc(Ys(s[lo..i]), s[i].y, GreatestFinite);
    FoldSnoc(Ys(s[lo..i]), s[i].y, -GreatestFinite);
  }

  /** Entries ordered by x, as the chart data sets expect. */
  ghost predicate SortedByX(s: seq<Entry>)
  {
    forall i, j :: 0 <= i < j < |s| ==> s[i].x <= s[j].x
  }

  /** Steps back over entries with the same x. */
  function RunStart(s: seq<Entry>, i: int, xv: real): (r: int)
    requires 0 <= i < |s|
    ensures 0 <= r <= i
    ensures forall k :: r <= k < i ==> s[k].x == xv
    ensures r == 0 || s[r - 1].x != xv
    decreases i
  {
    if i > 0 && s[i - 1].x == xv then RunStart(s, i - 1, xv) else i
  }

  /** The backward loop of the y refinement: steps from `from` back while the
    * previous entry is at `xv`. */
  method StepBackOverRun(s: seq<Entry>, from: int, xv: real) returns (start: int)
    requires 0 <= from < |s|
    ensures start == RunStart(s, from, xv)
  {
    start := from;
    while start > 0 && s[start - 1].x == xv
      invariant 0 <= start < |s|
      invariant RunStart(s, start, xv) == RunStart(s, from, xv)
      decreases start
    {
      start := start - 1;
    }
  }

  /** The first position after `i` whose x differs from `xv`, or the end. */
  function RunEnd(s: seq<Entry>, i: int, xv: real): (r: int)
    requires 0 <= i < |s|
    ensures i < r <= |s|
    ensures forall k :: i < k < r ==> s[k].x == xv
    ensures r == |s| || s[r].x != xv
    decreases |s| - i
  {
    if i + 1 < |s| && s[i + 1].x == xv then RunEnd(s, i + 1, xv) else i + 1
  }

  /** On x-sorted entries, the run at `xv` that starts at `start` holds every entry
    * at `xv`. */
  lemma RunHoldsAll(s: seq<Entry>, start: int, xv: real)
    requires SortedByX(s) && 0 <= start < |s| && s[start].x == xv
    requires start == 0 || s[start - 1].x != xv
    ensures forall k :: 0 <= k < |s| && s[k].x == xv ==> start <= k < RunEnd(s, start, xv)
  {
    var end := RunEnd(s, start, xv);
    assert s[end - 1].x == xv;
    forall k | 0 <= k < |s| && s[k].x == xv ensures start <= k < end {
    }
  }

  /** `s` with `e` inserted at `i`. */
  function InsertAt(s: seq<Entry>, i: int, e: Entry): (r: seq<Entry>)
    requires 0 <= i <= |s|
    ensures |r| == |s| + 1 && r[i] == e
    ensures multiset(r) == multiset(s) + multiset{e}
  {
    assert s == s[..i] + s[i..];
    s[..i] + [e] + s[i..]
  }

  /** Inserting `e` where everything before is at most its x and everything after
    * at least its x keeps x-sorted entries sorted. */
  lemma InsertAtKeepsSorted(s: seq<Entry>, r: int, e: Entry)
    requires SortedByX(s) && 0 <= r <= |s|
    requires forall k :: 0 <= k < r ==> s[k].x <= e.x
    requires forall k :: r <= k < |s| ==> s[k].x >= e.x
    ensures SortedByX(InsertAt(s, r, e))
  {
    var t := InsertAt(s, r, e);
    assert t == s[..r] + [e] + s[r..];
    forall a, b | 0 <= a < b < |t| ensures t[a].x <= t[b].x {
      if b < r {
        assert t[a] == s[a] && t[b] == s[b];
      } else if a > r {
        assert t[a] == s[a - 1] && t[b] == s[b - 1];
      } else if a == r {
        assert t[b] == s[b - 1];
      } else {
        assert t[a] == s[a];
      }
    }
  }

  /** Every entry of `s` lies inside the given bounds. */
  ghost predicate Covers(s: seq<Entry>, xMin: real, xMax: real, yMin: real, yMax: real)
  {
    forall i :: 0 <= i < |s| ==> xMin <= s[i].x <= xMax && yMin <= s[i].y <= yMax
  }

  /** Widening the bounds to a new entry keeps them covering the list with that
    * entry inserted anywhere. */
  lemma CoversAfterInsert(s: seq<Entry>, i: int, e: Entry, xMin: real, xMax: real, yMin: real, yMax: real)
    requires 0 <= i <= |s|
    requires Covers(s, xMin, xMax, yMin, yMax)
    ensures Covers(InsertAt(s, i, e), Min(e.x, xMin), Max(e.x, xMax), Min(e.y, yMin), Max(e.y, yMax))
  {
    var t := InsertAt(s, i, e);
    forall k | 0 <= k < |t|
      ensures Min(e.x, xMin) <= t[k].x <= Max(e.x, xMax) && Min(e.y, yMin) <= t[k].y <= Max(e.y, yMax)
    {
      if k < i {
        assert t[k] == s[k];
      } else if k > i {
        assert t[k] == s[k - 1];
      }
    }
  }

  /** The four cached bounds of a data set. */
  datatype Bounds = Bounds(xMin: real, xMax: real, yMin: real, yMax: real)

  /** The bounds `calcMinMax()` computes: each x and y folded into `±greatestFiniteMagnitude`. */
  function BoundsOf(s: seq<Entry>): (b: Bounds)
    ensures Covers(s, b.xMin, b.xMax, b.yMin, b.yMax)
    ensures s == [] ==> b == Bounds(GreatestFinite, -GreatestFinite, GreatestFinite, -GreatestFinite)
  {
    Bounds(FoldMin(Xs(s), GreatestFinite), FoldMax(Xs(s), -GreatestFinite),
           FoldMin(Ys(s), GreatestFinite), FoldMax(Ys(s), -GreatestFinite))
  }

  /** The entries of `s` whose x is `v`, in order. */
  function WithX(s: seq<Entry>, v: real): (r: seq<Entry>)
    ensures |r| <= |s|
    ensures forall k :: 0 <= k < |r| ==> r[k].x == v
  {
    if s == [] then []
    else (if s[0].x == v then [s[0]] else []) + WithX(s[1..], v)
  }

  lemma {:induction false} WithXAppend(a: seq<Entry>, b: seq<Entry>, v: real)
    ensures WithX(a + b, v) == WithX(a, v) + WithX(b, v)
  {
    if a == [] {
      assert a + b == b;
    } else {
      assert (a + b)[0] == a[0] && (a + b)[1..] == a[1..] + b;
      WithXAppend(a[1..], b, v);
    }
  }

  lemma {:induction false} WithXAll(s: seq<Entry>, v: real)
    requires forall k :: 0 <= k < |s| ==> s[k].x == v
    ensures WithX(s, v) == s
  {
    if s != [] {
      WithXAll(s[1..], v);
    }
  }

  lemma {:induction false} WithXNone(s: seq<Entry>, v: real)
    requires forall k :: 0 <= k < |s| ==> s[k].x != v
    ensures WithX(s, v) == []
  {
    if s != [] {
      WithXNone(s[1..], v);
    }
  }

  /** Entries at `v` exactly on `lo..<hi` filter to that slice. */
  lemma WithXSlice(s: seq<Entry>, v: real, lo: int, hi: int)
    requires 0 <= lo <= hi <= |s|
    requires forall k :: 0 <= k < lo ==> s[k].x != v
    requires forall k :: lo <= k < hi ==> s[k].x == v
    requires forall k :: hi <= k < |s| ==> s[k].x != v
    ensures WithX(s, v) == s[lo..hi]
  {
    var before, run, after := s[..lo], s[lo..hi], s[hi..];
    assert s == before + run + after;
    WithXNone(before, v);
    WithXAll(run, v);
    WithXNone(after, v);
    WithXAppend(before, run, v);
    assert WithX(before + run, v) == run;
    WithXAppend(before + run, after, v);
  }

  /** On x-sorted entries, a maximal run at `v` is everything at `v`. */
  lemma WithXRun(s: seq<Entry>, v: real, lo: int, hi: int)
    requires SortedByX(s) && 0 <= lo < hi <= |s|
    requires forall k :: lo <= k < hi ==> s[k].x == v
    requires lo == 0 || s[lo - 1].x != v
    requires hi == |s| || s[hi].x != v
    ensures WithX(s, v) == s[lo..hi]
  {
    forall k | 0 <= k < lo ensures s[k].x != v {
      assert s[k].x <= s[lo - 1].x <= s[lo].x;
    }
    forall k | hi <= k < |s| ensures s[k].x != v {
      assert s[hi - 1].x <= s[hi].x <= s[k].x;
    }
    WithXSlice(s, v, lo, hi);
  }

  /** `firstIndex(of:)`: the first position holding `x`. */
  function IndexOf<T(==)>(s: seq<T>, x: T): (r: Option<int>)
    ensures r.None? <==> x !in s
    ensures r.Some? ==> 0 <= r.value < |s| && s[r.value] == x && x !in s[..r.value]
    decreases |s|
  {
    if s == [] then None
    else if s[0] == x then Some(0)
    else
      match IndexOf(s[1..], x)
      case None => None
      case Some(i) =>
        assert s[..i + 1] == [s[0]] + s[1..][..i];
        Some(i + 1)
  }
}
