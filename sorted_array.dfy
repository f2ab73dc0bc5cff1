/** A comparator-ordered array with binary-search insertion, lookup and removal
  * (`SortedArray<Element>`). The backing store is the `elements` field; the
  * comparator is `less` (`areInIncreasingOrder`). */
module SortedArrays {
  import opened Common

  /** Outcome of a binary search (`Match`). */
  datatype Match = Found(at: int) | NotFound(insertAt: int)

  /** `Foundation.ComparisonResult`. */
  datatype Ordering = Ascending | Same | Descending

  /** The comparator must be a strict weak ordering: irreflexive, transitive, and
    * negatively transitive (incomparability is an equivalence). */
  ghost predicate StrictWeakOrder<T(!new)>(less: (T, T) -> bool)
  {
    (forall a :: !less(a, a)) &&
    (forall a, b, c :: less(a, b) && less(b, c) ==> less(a, c)) &&
    (forall a, b, c :: less(a, b) ==> less(a, c) || less(c, b))
  }

  /** Neither element comes before the other: `compare` answers `.orderedSame`. */
  predicate Equiv<T>(less: (T, T) -> bool, a: T, b: T)
  {
    !less(a, b) && !less(b, a)
  }

  /** No element is ordered before one that precedes it. */
  ghost predicate Sorted<T>(s: seq<T>, less: (T, T) -> bool)
  {
    forall i, j :: 0 <= i < j < |s| ==> !less(s[j], s[i])
  }

  /** `compare(_:_:)`: ascending when `l` comes first, descending when `r` does. */
  function Compare<T>(less: (T, T) -> bool, l: T, r: T): (o: Ordering)
    ensures o == Ascending <==> less(l, r)
    ensures o == Descending <==> !less(l, r) && less(r, l)
    ensures o == Same <==> Equiv(less, l, r)
  {
    if less(l, r) then Ascending
    else if less(r, l) then Descending
    else Same
  }

  /** `search(for:in:)` on the half-open range `lo..<hi`, splitting at
    * `lo + count / 2`. A hit is an equivalent element; on a sorted array a miss
    * names the position that separates the smaller from the larger elements. */
  function Search<T(!new)>(s: seq<T>, less: (T, T) -> bool, e: T, lo: int, hi: int): (m: Match)
    requires 0 <= lo <= hi <= |s|
    ensures m.Found? ==> lo <= m.at < hi && Equiv(less, s[m.at], e)
    ensures m.NotFound? ==> lo <= m.insertAt <= hi
    ensures m.NotFound? && StrictWeakOrder(less) && Sorted(s, less) ==>
              (forall k :: lo <= k < m.insertAt ==> less(s[k], e)) &&
              (forall k :: m.insertAt <= k < hi ==> less(e, s[k]))
    decreases hi - lo
  {
    if lo == hi then NotFound(hi)
    else
      var mid := lo + (hi - lo) / 2;
      match Compare(less, e, s[mid])
      case Descending =>
        var m := Search(s, less, e, mid + 1, hi);
        assert m.NotFound? && StrictWeakOrder(less) && Sorted(s, less) ==>
          forall k :: lo <= k <= mid ==> less(s[k], e) by {
          if m.NotFound? && StrictWeakOrder(less) && Sorted(s, less) {
            forall k | lo <= k <= mid ensures less(s[k], e) {
              assert !less(s[mid], s[k]) || k == mid;
            }
          }
        }
        m
      case Ascending =>
        var m := Search(s, less, e, lo, mid);
        assert m.NotFound? && StrictWeakOrder(less) && Sorted(s, less) ==>
          forall k :: mid <= k < hi ==> less(e, s[k]) by {
          if m.NotFound? && StrictWeakOrder(less) && Sorted(s, less) {
            forall k | mid <= k < hi ensures less(e, s[k]) {
              assert !less(s[k], s[mid]) || k == mid;
            }
          }
        }
        m
      case Same => Found(mid)
  }

  /** `insertionIndex(for:)`: where a search over the whole array lands. */
  function InsertionIndex<T(!new)>(s: seq<T>, less: (T, T) -> bool, e: T): (i: int)
    ensures 0 <= i <= |s|
  {
    match Search(s, less, e, 0, |s|)
    case Found(i) => i
    case NotFound(i) => i
  }

  /** Inserting at the insertion index keeps a sorted array sorted. */
  lemma InsertionIndexKeepsSorted<T(!new)>(s: seq<T>, less: (T, T) -> bool, e: T)
    requires StrictWeakOrder(less) && Sorted(s, less)
    ensures var i := InsertionIndex(s, less, e); Sorted(s[..i] + [e] + s[i..], less)
  {
    InsertKeepsSorted(s, less, e, InsertionIndex(s, less, e));
  }

  /** Inserting `e` at `i` keeps the order when nothing before `i` comes after `e`
    * and nothing from `i` on comes before it. */
  lemma InsertKeepsSorted<T(!new)>(s: seq<T>, less: (T, T) -> bool, e: T, i: int)
    requires 0 <= i <= |s|
    requires StrictWeakOrder(less) && Sorted(s, less)
    requires (forall k :: 0 <= k < i ==> !less(e, s[k])) || (i < |s| && Equiv(less, s[i], e))
    requires (forall k :: i <= k < |s| ==> !less(s[k], e)) || (i < |s| && Equiv(less, s[i], e))
    ensures Sorted(s[..i] + [e] + s[i..], less)
  {
    var t := s[..i] + [e] + s[i..];
    assert forall k :: 0 <= k < i ==> !less(e, s[k]) by {
      forall k | 0 <= k < i ensures !less(e, s[k]) {
        if i < |s| && Equiv(less, s[i], e) {
          assert !less(s[i], s[k]);
        }
      }
    }
    assert forall k :: i <= k < |s| ==> !less(s[k], e) by {
      forall k | i <= k < |s| ensures !less(s[k], e) {
        if i < |s| && Equiv(less, s[i], e) {
          assert !less(s[k], s[i]) || k == i;
        }
      }
    }
    forall a, b | 0 <= a < b < |t| ensures !less(t[b], t[a]) {
      if b < i || a > i {
      } else if a == i {
        assert t[a] == e && t[b] == s[b - 1];
      } else {
        assert t[b] == e || t[b] == s[b - 1];
      }
    }
  }

  /** Deleting a contiguous block keeps a sorted sequence sorted. */
  lemma RemoveRangeKeepsSorted<T>(s: seq<T>, less: (T, T) -> bool, lo: int, hi: int)
    requires 0 <= lo <= hi <= |s|
    requires Sorted(s, less)
    ensures Sorted(s[..lo] + s[hi..], less)
  {
    var t := s[..lo] + s[hi..];
    forall a, b | 0 <= a < b < |t| ensures !less(t[b], t[a]) {
      var a' := if a < lo then a else a + hi - lo;
      var b' := if b < lo then b else b + hi - lo;
      assert t[a] == s[a'] && t[b] == s[b'];
    }
  }

  /** Equivalent elements of a sorted sequence form one contiguous run: anything
    * between two elements equivalent to `e` is equivalent to `e` as well. */
  lemma EquivalentRunContiguous<T(!new)>(s: seq<T>, less: (T, T) -> bool, e: T, i: int, j: int, k: int)
    requires StrictWeakOrder(less) && Sorted(s, less)
    requires 0 <= i <= j <= k < |s|
    requires Equiv(less, s[i], e) && Equiv(less, s[k], e)
    ensures Equiv(less, s[j], e)
  {
    assert !less(s[j], s[i]) || i == j;
    assert !less(s[k], s[j]) || j == k;
  }

  /** Keeping the elements that satisfy `p`, in their original order
    * (`Sequence.filter`). */
  function FilterSeq<T(!new)>(s: seq<T>, p: T -> bool): (r: seq<T>)
    ensures |r| <= |s|
    ensures forall x :: x in r <==> x in s && p(x)
    ensures multiset(r) <= multiset(s)
  {
    if s == [] then []
    else
      assert s == [s[0]] + s[1..];
      if p(s[0]) then [s[0]] + FilterSeq(s[1..], p) else FilterSeq(s[1..], p)
  }

  /** Filtering keeps the relative order, so a sorted sequence stays sorted. */
  lemma {:induction false} FilterKeepsSorted<T(!new)>(s: seq<T>, less: (T, T) -> bool, p: T -> bool)
    requires Sorted(s, less)
    ensures Sorted(FilterSeq(s, p), less)
  {
    if s != [] {
      var tail := s[1..];
      SortedParts(s, less);
      FilterKeepsSorted(tail, less, p);
      if p(s[0]) {
        var rest := FilterSeq(tail, p);
        assert forall x :: x in rest ==> !less(x, s[0]);
        SortedCons(s[0], rest, less);
        assert FilterSeq(s, p) == [s[0]] + rest;
      } else {
        assert FilterSeq(s, p) == FilterSeq(tail, p);
      }
    }
  }

  /** A sorted non-empty sequence: its tail is sorted and nothing in the tail comes
    * before its head. */
  lemma SortedParts<T>(s: seq<T>, less: (T, T) -> bool)
    requires Sorted(s, less) && s != []
    ensures Sorted(s[1..], less)
    ensures forall x :: x in s[1..] ==> !less(x, s[0])
  {
    var tail := s[1..];
    forall a, b | 0 <= a < b < |tail| ensures !less(tail[b], tail[a]) {
      assert tail[a] == s[a + 1] && tail[b] == s[b + 1];
    }
    forall x | x in tail ensures !less(x, s[0]) {
      var j :| 0 <= j < |tail| && tail[j] == x;
      assert s[j + 1] == x;
    }
  }

  /** A head that nothing in a sorted tail comes before gives a sorted sequence. */
  lemma SortedCons<T>(h: T, t: seq<T>, less: (T, T) -> bool)
    requires Sorted(t, less)
    requires forall x :: x in t ==> !less(x, h)
    ensures Sorted([h] + t, less)
  {
    var r := [h] + t;
    forall a, b | 0 <= a < b < |r| ensures !less(r[b], r[a]) {
      assert r[b] == t[b - 1];
      if a == 0 {
        assert r[b] in t;
      } else {
        assert r[a] == t[a - 1];
      }
    }
  }

  /** Reference definition for `index(of:)`: a left-to-right scan for the first
    * element equivalent to `e`. */
  function FirstEquivalent<T(!new)>(s: seq<T>, less: (T, T) -> bool, e: T): (r: Option<int>)
    ensures r.None? <==> forall k :: 0 <= k < |s| ==> !Equiv(less, s[k], e)
    ensures r.Some? ==> 0 <= r.value < |s| && Equiv(less, s[r.value], e)
    ensures r.Some? ==> forall k :: 0 <= k < r.value ==> !Equiv(less, s[k], e)
    decreases |s|
  {
    if s == [] then None
    else if Equiv(less, s[0], e) then Some(0)
    else
      match FirstEquivalent(s[1..], less, e)
      case None =>
        assert forall k :: 1 <= k < |s| ==> s[k] == s[1..][k - 1];
        None
      case Some(i) =>
        assert forall k :: 1 <= k < |s| ==> s[k] == s[1..][k - 1];
        Some(i + 1)
  }

  /** Removing the first equivalent element, if there is one (`remove(_:)`). */
  function RemoveFirstEquivalent<T(!new)>(s: seq<T>, less: (T, T) -> bool, e: T): (r: seq<T>)
    ensures FirstEquivalent(s, less, e).None? ==> r == s
    ensures FirstEquivalent(s, less, e).Some? ==> |r| == |s| - 1 && multiset(r) + multiset{s[FirstEquivalent(s, less, e).value]} == multiset(s)
  {
    match FirstEquivalent(s, less, e)
    case None => s
    case Some(i) =>
      assert s == s[..i] + [s[i]] + s[i + 1..];
      s[..i] + s[i + 1..]
  }

  /** Inserting `x` at `i` adds one `x` to the multiset of elements. */
  lemma InsertedMultiset<T>(s: seq<T>, i: int, x: T)
    requires 0 <= i <= |s|
    ensures multiset(s[..i] + [x] + s[i..]) == multiset(s) + multiset{x}
  {
    assert s == s[..i] + s[i..];
  }

  /** One step of `insert(contentsOf:)`: inserting the next new element anywhere
    * extends the multiset by that element. */
  lemma InsertStep<T>(base: seq<T>, before: seq<T>, after: seq<T>, ns: seq<T>, k: int, i: int)
    requires 0 <= k < |ns| && 0 <= i <= |before|
    requires multiset(before) == multiset(base) + multiset(ns[..k])
    requires after == before[..i] + [ns[k]] + before[i..]
    ensures multiset(after) == multiset(base) + multiset(ns[..k + 1])
  {
    InsertedMultiset(before, i, ns[k]);
    assert ns[..k + 1] == ns[..k] + [ns[k]];
  }

  /** The first element of a run of equivalents has no equivalent before it. */
  lemma NoEquivalentBeforeRunStart<T(!new)>(s: seq<T>, less: (T, T) -> bool, e: T, m: int)
    requires StrictWeakOrder(less) && Sorted(s, less)
    requires 0 <= m < |s| && Equiv(less, s[m], e)
    requires m == 0 || !Equiv(less, s[m - 1], e)
    ensures forall k :: 0 <= k < m ==> !Equiv(less, s[k], e)
  {
    forall k | 0 <= k < m ensures !Equiv(less, s[k], e) {
      if Equiv(less, s[k], e) {
        EquivalentRunContiguous(s, less, e, k, m - 1, m);
      }
    }
  }

  /** A miss of the search over `0..<hi` rules out every equivalent before `hi`. */
  lemma SearchMissHasNoEquivalent<T(!new)>(s: seq<T>, less: (T, T) -> bool, e: T, hi: int)
    requires StrictWeakOrder(less) && Sorted(s, less)
    requires 0 <= hi <= |s| && Search(s, less, e, 0, hi).NotFound?
    ensures forall k :: 0 <= k < hi ==> !Equiv(less, s[k], e)
  {
    var m := Search(s, less, e, 0, hi);
    forall k | 0 <= k < hi ensures !Equiv(less, s[k], e) {
      if k < m.insertAt {
        assert less(s[k], e);
      } else {
        assert less(e, s[k]);
      }
    }
  }

  /** The reference scan answers the first equivalent position. */
  lemma FirstEquivalentAt<T(!new)>(s: seq<T>, less: (T, T) -> bool, e: T, m: int)
    requires 0 <= m < |s| && Equiv(less, s[m], e)
    requires forall k :: 0 <= k < m ==> !Equiv(less, s[k], e)
    ensures FirstEquivalent(s, less, e) == Some(m)
  {
  }

  /** The reference scan answers nil when nothing is equivalent. */
  lemma FirstEquivalentNone<T(!new)>(s: seq<T>, less: (T, T) -> bool, e: T)
    requires forall k :: 0 <= k < |s| ==> !Equiv(less, s[k], e)
    ensures FirstEquivalent(s, less, e) == None
  {
  }

  class SortedArray<T(!new)> {
    /** The backing store. */
    var elements: seq<T>
    /** The sort predicate (`areInIncreasingOrder`). */
    const less: (T, T) -> bool

    /** The comparator is a strict weak ordering and the store is sorted by it. */
    ghost predicate Valid()
      reads this
    {
      StrictWeakOrder(less) && Sorted(elements, less)
    }

    /** `init(areInIncreasingOrder:)`: an empty array. */
    constructor (less: (T, T) -> bool)
      requires StrictWeakOrder(less)
      ensures Valid()
      ensures elements == [] && this.less == less
    {
      elements := [];
      this.less := less;
    }

    /** `init(sorted:areInIncreasingOrder:)`: the caller promises `sorted` is in order. */
    constructor FromSorted(sorted: seq<T>, less: (T, T) -> bool)
      requires StrictWeakOrder(less) && Sorted(sorted, less)
      ensures Valid()
      ensures elements == sorted && this.less == less
    {
      elements := sorted;
      this.less := less;
    }

    /** `init(unsorted:areInIncreasingOrder:)`: the same elements, sorted. */
    constructor FromUnsorted(unsorted: seq<T>, less: (T, T) -> bool)
      requires StrictWeakOrder(less)
      ensures Valid()
      ensures multiset(elements) == multiset(unsorted) && this.less == less
    {
      elements := [];
      this.less := less;
      new;
      InsertContentsOf(unsorted);
    }

    /** `insert(_:)`: puts `e` where the binary search lands and returns that index. */
    method Insert(e: T) returns (index: int)
      requires Valid()
      modifies this
      ensures Valid()
      ensures index == InsertionIndex(old(elements), less, e)
      ensures elements == old(elements)[..index] + [e] + old(elements)[index..]
    {
      index := InsertionIndex(elements, less, e);
      InsertionIndexKeepsSorted(elements, less, e);
      elements := elements[..index] + [e] + elements[index..];
    }

    /** `insert(contentsOf:)`: afterwards the store is a sorted permutation of the
      * old elements together with the new ones. */
    method InsertContentsOf(newElements: seq<T>)
      requires Valid()
      modifies this
      ensures Valid()
      ensures multiset(elements) == multiset(old(elements)) + multiset(newElements)
    {
      var k := 0;
      while k < |newElements|
        invariant 0 <= k <= |newElements|
        invariant Valid()
        invariant multiset(elements) == multiset(old(elements)) + multiset(newElements[..k])
      {
        ghost var before := elements;
        var i := Insert(newElements[k]);
        InsertStep(old(elements), before, elements, newElements, k, i);
        k := k + 1;
      }
      assert newElements[..k] == newElements;
    }

    /** `index(of:)`: the binary search for a hit, repeated on the part before the
      * hit while the predecessor is still equivalent. It finds the first
      * equivalent element, as the linear reference scan does. */
    method IndexOf(e: T) returns (r: Option<int>)
      requires Valid()
      ensures r == FirstEquivalent(elements, less, e)
    {
      var lo, hi := 0, |elements|;
      r := None;
      while Search(elements, less, e, lo, hi).Found?
        invariant lo == 0 && 0 <= hi <= |elements|
        invariant r.None? ==> hi == |elements|
        invariant r.Some? ==> r.value == hi && hi < |elements| && Equiv(less, elements[hi], e)
        decreases hi
      {
        var m := Search(elements, less, e, lo, hi).at;
        if m - 1 >= lo && Compare(less, elements[m - 1], e) == Same {
          r := Some(m - 1);
          hi := m - 1;
        } else {
          r := Some(m);
          NoEquivalentBeforeRunStart(elements, less, e, m);
          FirstEquivalentAt(elements, less, e, m);
          return;
        }
      }
      SearchMissHasNoEquivalent(elements, less, e, hi);
      if r.None? {
        FirstEquivalentNone(elements, less, e);
      } else {
        FirstEquivalentAt(elements, less, e, hi);
      }
    }

    /** `lastIndex(of:)`: the binary search repeated on the part after the
      * successor while the successor is still equivalent. It finds the last
      * equivalent element. */
    method LastIndexOf(e: T) returns (r: Option<int>)
      requires Valid()
      ensures r.None? <==> forall k :: 0 <= k < |elements| ==> !Equiv(less, elements[k], e)
      ensures r.Some? ==> 0 <= r.value < |elements| && Equiv(less, elements[r.value], e)
      ensures r.Some? ==> forall k :: r.value < k < |elements| ==> !Equiv(less, elements[k], e)
    {
      var lo, hi := 0, |elements|;
      r := None;
      while Search(elements, less, e, lo, hi).Found?
        invariant 0 <= lo <= hi == |elements|
        invariant r.None? ==> lo == 0
        invariant r.Some? ==> 1 <= lo && r.value == lo - 1 && Equiv(less, elements[lo - 1], e)
        decreases hi - lo
      {
        var m := Search(elements, less, e, lo, hi).at;
        var lastValidIndex := hi - 1;
        if m + 1 <= lastValidIndex && Compare(less, elements[m + 1], e) == Same {
          r := Some(m + 1);
          if m + 2 > lastValidIndex {
            return;
          }
          lo := m + 2;
        } else {
          r := Some(m);
          forall k | m < k < |elements| ensures !Equiv(less, elements[k], e) {
            if Equiv(less, elements[k], e) {
              EquivalentRunContiguous(elements, less, e, m, m + 1, k);
            }
          }
          return;
        }
      }
    }

    /** `anyIndex(of:)`: the position of some equivalent element, if there is one. */
    function AnyIndex(e: T): (r: Option<int>)
      reads this
      ensures r.Some? ==> 0 <= r.value < |elements| && Equiv(less, elements[r.value], e)
      ensures Valid() ==> (r.None? <==> forall k :: 0 <= k < |elements| ==> !Equiv(less, elements[k], e))
    {
      match Search(elements, less, e, 0, |elements|)
      case Found(i) => Some(i)
      case NotFound(_) => None
    }

    /** `contains(_:)`: whether some element is equivalent to `e`. */
    function Contains(e: T): (b: bool)
      reads this
      ensures b ==> exists k :: 0 <= k < |elements| && Equiv(less, elements[k], e)
      ensures Valid() ==> (b <==> exists k :: 0 <= k < |elements| && Equiv(less, elements[k], e))
    {
      AnyIndex(e) != None
    }

    /** `min()`: the first element, which nothing in a valid array precedes. */
    function Min(): (m: Option<T>)
      reads this
      ensures m.None? <==> elements == []
      ensures m.Some? ==> m.value == elements[0]
      ensures m.Some? && Valid() ==> forall k :: 0 <= k < |elements| ==> !less(elements[k], m.value)
    {
      if elements == [] then None else Some(elements[0])
    }

    /** `max()`: the last element, which precedes nothing in a valid array. */
    function Max(): (m: Option<T>)
      reads this
      ensures m.None? <==> elements == []
      ensures m.Some? ==> m.value == elements[|elements| - 1]
      ensures m.Some? && Valid() ==> forall k :: 0 <= k < |elements| ==> !less(m.value, elements[k])
    {
      if elements == [] then None else Some(elements[|elements| - 1])
    }

    /** `filter(_:)`: a new sorted array of the included elements, in order. */
    method Filter(isIncluded: T -> bool) returns (r: SortedArray<T>)
      requires Valid()
      ensures fresh(r) && r.Valid() && r.less == less
      ensures r.elements == FilterSeq(elements, isIncluded)
    {
      FilterKeepsSorted(elements, less, isIncluded);
      r := new SortedArray.FromSorted(FilterSeq(elements, isIncluded), less);
    }

    /** `remove(at:)`: deletes and returns the element at a valid index. */
    method RemoveAt(index: int) returns (e: T)
      requires Valid() && 0 <= index < |elements|
      modifies this
      ensures Valid()
      ensures e == old(elements)[index]
      ensures elements == old(elements)[..index] + old(elements)[index + 1..]
    {
      e := elements[index];
      RemoveRangeKeepsSorted(elements, less, index, index + 1);
      elements := elements[..index] + elements[index + 1..];
    }

    /** `removeSubrange(_:)` for `lo..<hi`; a closed range `lo...hi` is `lo..<hi+1`. */
    method RemoveSubrange(lo: int, hi: int)
      requires Valid() && 0 <= lo <= hi <= |elements|
      modifies this
      ensures Valid()
      ensures elements == old(elements)[..lo] + old(elements)[hi..]
    {
      RemoveRangeKeepsSorted(elements, less, lo, hi);
      elements := elements[..lo] + elements[hi..];
    }

    /** `removeFirst(_:)`: drops the first `n` elements. */
    method RemoveFirstN(n: int)
      requires Valid() && 0 <= n <= |elements|
      modifies this
      ensures Valid()
      ensures elements == old(elements)[n..]
    {
      RemoveRangeKeepsSorted(elements, less, 0, n);
      assert elements[..0] + elements[n..] == elements[n..];
      elements := elements[n..];
    }

    /** `removeFirst()`: deletes and returns the first element of a non-empty array. */
    method RemoveFirst() returns (e: T)
      requires Valid() && |elements| > 0
      modifies this
      ensures Valid()
      ensures e == old(elements)[0] && elements == old(elements)[1..]
    {
      e := elements[0];
      RemoveRangeKeepsSorted(elements, less, 0, 1);
      assert elements[..0] + elements[1..] == elements[1..];
      elements := elements[1..];
    }

    /** `removeLast()`: deletes and returns the last element of a non-empty array. */
    method RemoveLast() returns (e: T)
      requires Valid() && |elements| > 0
      modifies this
      ensures Valid()
      ensures e == old(elements)[|old(elements)| - 1]
      ensures elements == old(elements)[..|old(elements)| - 1]
    {
      e := elements[|elements| - 1];
      RemoveRangeKeepsSorted(elements, less, |elements| - 1, |elements|);
      assert elements[..|elements| - 1] + elements[|elements|..] == elements[..|elements| - 1];
      elements := elements[..|elements| - 1];
    }

    /** `removeLast(_:)`: drops the last `n` elements. */
    method RemoveLastN(n: int)
      requires Valid() && 0 <= n <= |elements|
      modifies this
      ensures Valid()
      ensures elements == old(elements)[..|old(elements)| - n]
    {
      RemoveRangeKeepsSorted(elements, less, |elements| - n, |elements|);
      assert elements[..|elements| - n] + elements[|elements|..] == elements[..|elements| - n];
      elements := elements[..|elements| - n];
    }

    /** `removeAll(keepingCapacity:)`: capacity is not modelled. */
    method RemoveAll()
      requires Valid()
      modifies this
      ensures Valid()
      ensures elements == []
    {
      elements := [];
    }

    /** `remove(_:)`: deletes the first equivalent element; a no-op when there is none. */
    method Remove(e: T)
      requires Valid()
      modifies this
      ensures Valid()
      ensures elements == RemoveFirstEquivalent(old(elements), less, e)
    {
      var index := IndexOf(e);
      if index.None? {
        return;
      }
      RemoveRangeKeepsSorted(elements, less, index.value, index.value + 1);
      elements := elements[..index.value] + elements[index.value + 1..];
    }
  }
}
