/** The `JSON` value of the SwiftyJSON copy in the macOS demo: a raw object tree with
  * an optional error, checked subscripts by index, key and path, the subscript
  * setters, merging, `exists()`, `boolValue` and `==`. `JSON` is a Swift struct, so a
  * mutating member is modelled as an operation from the old value of `self` to the
  * new one. */
module SwiftyJSON {
  import opened Common

  const ErrorIndexOutOfBounds := 900
  const ErrorWrongType := 901
  const ErrorNotExist := 500

  datatype JsonType = NumberType | StringType | BoolType | ArrayType | DictionaryType | NullType

  /** The object a `JSON` wraps. */
  datatype Value =
    | Number(number: real)
    | Str(text: string)
    | Bool(flag: bool)
    | Array(items: seq<Value>)
    | Dictionary(fields: map<string, Value>)
    | Null

  /** A `JSON`: its object and the code of its error, if any. */
  datatype JSON = JSON(value: Value, error: Option<int>)

  /** A path step: an array index or a dictionary key. */
  datatype Sub = Index(index: int) | Key(key: string)

  function TypeOf(v: Value): JsonType
  {
    match v
    case Number(_) => NumberType
    case Str(_) => StringType
    case Bool(_) => BoolType
    case Array(_) => ArrayType
    case Dictionary(_) => DictionaryType
    case Null => NullType
  }

  /** `JSON(object)`: a wrapped object carries no error. */
  function Wrap(v: Value): JSON
  {
    JSON(v, None)
  }

  /** `JSON.null` carrying an error code. */
  function NullWithError(code: int): JSON
  {
    JSON(Null, Some(code))
  }

  // ---------------------------------------------------------------------------
  // Subscripts

  /** The `subscript(index:)` getter. */
  function IndexGet(j: JSON, index: int): JSON
  {
    if !j.value.Array? then
      JSON(Null, if j.error.Some? then j.error else Some(ErrorWrongType))
    else if 0 <= index < |j.value.items| then Wrap(j.value.items[index])
    else NullWithError(ErrorIndexOutOfBounds)
  }

  /** The `subscript(key:)` getter. */
  function KeyGet(j: JSON, key: string): JSON
  {
    if j.value.Dictionary? then
      if key in j.value.fields then Wrap(j.value.fields[key]) else NullWithError(ErrorNotExist)
    else JSON(Null, if j.error.Some? then j.error else Some(ErrorWrongType))
  }

  /** The `subscript(sub:)` getter. */
  function SubGet(j: JSON, sub: Sub): JSON
  {
    match sub
    case Index(i) => IndexGet(j, i)
    case Key(k) => KeyGet(j, k)
  }

  /** The `subscript(path:)` getter: the steps applied one after another from `j`. */
  function PathGet(j: JSON, path: seq<Sub>): JSON
    decreases |path|
  {
    if |path| == 0 then j else PathGet(SubGet(j, path[0]), path[1..])
  }

  /** `exists()`: false exactly for the errors of a missing key, an index out of
    * bounds, or a subscript of the wrong type. */
  predicate Exists(j: JSON)
  {
    !(j.error.Some? && (j.error.value == ErrorNotExist || j.error.value == ErrorIndexOutOfBounds ||
                        j.error.value == ErrorWrongType))
  }

  /** An index out of bounds gives null with `ErrorIndexOutOfBounds`, which does not
    * exist; an index in bounds gives the element, which does. */
  lemma IndexGetBounds(j: JSON, index: int)
    requires j.value.Array?
    ensures !(0 <= index < |j.value.items|) ==>
      IndexGet(j, index) == NullWithError(ErrorIndexOutOfBounds) && !Exists(IndexGet(j, index))
    ensures 0 <= index < |j.value.items| ==>
      IndexGet(j, index).value == j.value.items[index] && Exists(IndexGet(j, index))
  {
  }

  /** A missing key gives null with `ErrorNotExist`, which does not exist; a present
    * key gives its value, which does. */
  lemma KeyGetPresence(j: JSON, key: string)
    requires j.value.Dictionary?
    ensures key !in j.value.fields ==>
      KeyGet(j, key) == NullWithError(ErrorNotExist) && !Exists(KeyGet(j, key))
    ensures key in j.value.fields ==>
      KeyGet(j, key).value == j.value.fields[key] && Exists(KeyGet(j, key))
  {
  }

  /** The empty path gives `self`; a path of one more step is that step applied to
    * the result of the shorter path, so the path getter is the left fold of the
    * single subscripts. */
  lemma {:induction false} PathGetIsLeftFold(j: JSON, path: seq<Sub>, sub: Sub)
    ensures PathGet(j, []) == j
    ensures PathGet(j, path + [sub]) == SubGet(PathGet(j, path), sub)
    decreases |path|
  {
    if |path| > 0 {
      assert (path + [sub])[1..] == path[1..] + [sub];
      PathGetIsLeftFold(SubGet(j, path[0]), path[1..], sub);
    }
  }

  /** Once a subscript has failed, the error is carried to the end of the path: null
    * with an error stays exactly that. */
  lemma {:induction false} ErrorPersistsAlongPath(code: int, path: seq<Sub>)
    ensures PathGet(NullWithError(code), path) == NullWithError(code)
    decreases |path|
  {
    if |path| > 0 {
      assert SubGet(NullWithError(code), path[0]) == NullWithError(code);
      ErrorPersistsAlongPath(code, path[1..]);
    }
  }

  /** The `subscript(index:)` setter as written: `count > index` admits a negative
    * index, on which the assignment traps (`None`). */
  function IndexSetAsWritten(j: JSON, index: int, newValue: JSON): Option<JSON>
  {
    if j.value.Array? && |j.value.items| > index && newValue.error.None? then
      if 0 <= index then Some(JSON(Array(j.value.items[index := newValue.value]), j.error)) else None
    else Some(j)
  }

  /** As written, storing into index -1 of a one-element array traps. */
  lemma IndexSetAsWrittenTrapsOnNegativeIndex()
    ensures IndexSetAsWritten(Wrap(Array([Null])), -1, Wrap(Number(1.0))).None?
  {
  }

  /** The `subscript(index:)` setter with the getter's bounds: an error-free value is
    * stored at an index in bounds of an array; anything else changes nothing. */
  function IndexSet(j: JSON, index: int, newValue: JSON): JSON
  {
    if j.value.Array? && 0 <= index < |j.value.items| && newValue.error.None? then
      JSON(Array(j.value.items[index := newValue.value]), j.error)
    else j
  }

  /** The corrected setter agrees with the one as written wherever that one does not
    * trap; reading back an index just set gives the stored value, other indices keep
    * theirs, and the error stays. */
  lemma IndexSetReadsBack(j: JSON, index: int, other: int, newValue: JSON)
    ensures index >= 0 ==> IndexSetAsWritten(j, index, newValue) == Some(IndexSet(j, index, newValue))
    ensures IndexSet(j, index, newValue).error == j.error
    ensures j.value.Array? && 0 <= index < |j.value.items| && newValue.error.None? ==>
      IndexGet(IndexSet(j, index, newValue), index) == Wrap(newValue.value)
    ensures other != index ==> IndexGet(IndexSet(j, index, newValue), other) == IndexGet(j, other)
  {
  }

  /** The `subscript(key:)` setter: an error-free value is stored under the key of a
    * dictionary, adding the key when it is missing; anything else changes nothing. */
  function KeySet(j: JSON, key: string, newValue: JSON): JSON
  {
    if j.value.Dictionary? && newValue.error.None? then
      JSON(Dictionary(j.value.fields[key := newValue.value]), j.error)
    else j
  }

  lemma KeySetReadsBack(j: JSON, key: string, other: string, newValue: JSON)
    ensures KeySet(j, key, newValue).error == j.error
    ensures j.value.Dictionary? && newValue.error.None? ==>
      KeyGet(KeySet(j, key, newValue), key) == Wrap(newValue.value) &&
      KeySet(j, key, newValue).value.fields.Keys == j.value.fields.Keys + {key}
    ensures other != key ==> KeyGet(KeySet(j, key, newValue), other) == KeyGet(j, other)
  {
  }

  /** The `subscript(sub:)` setter. */
  function SubSet(j: JSON, sub: Sub, newValue: JSON): JSON
  {
    match sub
    case Index(i) => IndexSet(j, i, newValue)
    case Key(k) => KeySet(j, k, newValue)
  }

  /** The `subscript(path:)` setter: nothing for the empty path; for one step the
    * new value's object, its error dropped, stored at that step; for more, the
    * rest of the path set inside the element at the first step, which is then
    * stored back. */
  function PathSet(j: JSON, path: seq<Sub>, newValue: JSON): JSON
    decreases |path|
  {
    if |path| == 0 then j
    else if |path| == 1 then SubSet(j, path[0], Wrap(newValue.value))
    else SubSet(j, path[0], PathSet(SubGet(j, path[0]), path[1..], newValue))
  }

  /** The step `sub` names a slot of `j` the setter can store into. */
  predicate Slot(j: JSON, sub: Sub)
  {
    match sub
    case Index(i) => j.value.Array? && 0 <= i < |j.value.items|
    case Key(_) => j.value.Dictionary?
  }

  /** Every step of `path` but the last reaches an existing element, and the last
    * names a slot. */
  predicate Settable(j: JSON, path: seq<Sub>)
    decreases |path|
  {
    |path| > 0 && Slot(j, path[0]) &&
    (|path| > 1 ==> SubGet(j, path[0]).error.None? && Settable(SubGet(j, path[0]), path[1..]))
  }

  /** The setters keep the error of the value they store into. */
  lemma {:induction false} PathSetKeepsError(j: JSON, path: seq<Sub>, newValue: JSON)
    ensures PathSet(j, path, newValue).error == j.error
    decreases |path|
  {
    if |path| > 1 {
      PathSetKeepsError(SubGet(j, path[0]), path[1..], newValue);
    }
  }

  /** Setting a value along a settable path and reading the same path gives back the
    * value's object, without an error. */
  lemma {:induction false} PathSetThenGet(j: JSON, path: seq<Sub>, newValue: JSON)
    requires Settable(j, path)
    ensures PathGet(PathSet(j, path, newValue), path) == Wrap(newValue.value)
    decreases |path|
  {
    var s := path[0];
    if |path| == 1 {
      assert PathGet(SubGet(SubSet(j, s, Wrap(newValue.value)), s), path[1..])
          == SubGet(SubSet(j, s, Wrap(newValue.value)), s);
    } else {
      var next := SubGet(j, s);
      var inner := PathSet(next, path[1..], newValue);
      PathSetKeepsError(next, path[1..], newValue);
      PathSetThenGet(next, path[1..], newValue);
      assert SubGet(SubSet(j, s, inner), s) == inner;
    }
  }

  /** Setting through a missing key changes nothing: the element reached carries
    * `ErrorNotExist`, so nothing is stored back. */
  lemma PathSetThroughMissingKey(j: JSON, key: string, rest: seq<Sub>, newValue: JSON)
    requires j.value.Dictionary? && key !in j.value.fields && |rest| > 0
    ensures PathSet(j, [Key(key)] + rest, newValue) == j
  {
    var path := [Key(key)] + rest;
    assert path[0] == Key(key) && path[1..] == rest;
    PathSetKeepsError(NullWithError(ErrorNotExist), rest, newValue);
  }

  // ---------------------------------------------------------------------------
  // Merging

  datatype MergeOutcome = Merged(result: JSON) | Thrown(code: int)

  /** The value under `k`, or null when there is none. */
  function Lookup(fields: map<string, Value>, k: string): Value
  {
    if k in fields then fields[k] else Null
  }

  /** A nested merge of `b` into `a`: dictionaries merged key by key, arrays
    * concatenated, and otherwise `b`, whether or not the types agree. */
  function MergedValue(a: Value, b: Value): (r: Value)
    ensures TypeOf(r) == TypeOf(b)
    decreases b
  {
    if TypeOf(a) == TypeOf(b) then
      if a.Dictionary? then
        Dictionary(map k | k in a.fields.Keys + b.fields.Keys ::
          if k in b.fields then MergedValue(Lookup(a.fields, k), b.fields[k]) else a.fields[k])
      else if a.Array? then Array(a.items + b.items)
      else b
    else b
  }

  /** `merge(with:typecheck:)` as a function of the old `self`: with equal types, a
    * dictionary merge keeps `self`'s error, an array merge concatenates, anything
    * else is replaced by `other`; with differing types `ErrorWrongType` is thrown on
    * the checked level and `other` replaces `self` on the others. */
  function Merging(self: JSON, other: JSON, typecheck: bool): MergeOutcome
  {
    if TypeOf(self.value) == TypeOf(other.value) then
      if self.value.Dictionary? then Merged(JSON(MergedValue(self.value, other.value), self.error))
      else if self.value.Array? then Merged(Wrap(Array(self.value.items + other.value.items)))
      else Merged(other)
    else if typecheck then Thrown(ErrorWrongType)
    else Merged(other)
  }

  /** The dictionary merge after the keys in `done` have been merged. */
  function PartlyMerged(fa: map<string, Value>, fb: map<string, Value>, done: set<string>): map<string, Value>
    requires done <= fb.Keys
  {
    map k | k in fa.Keys + done :: if k in done then MergedValue(Lookup(fa, k), fb[k]) else fa[k]
  }

  /** `merge(with:typecheck:)`: merging `other` into `self`, each key of a dictionary
    * `other` in turn (in no particular order), gives the new `self`, or the error
    * thrown. `merge(with:)` and `merged(with:)` are this with `typecheck` set. */
  method Merge(self: JSON, other: JSON, typecheck: bool) returns (outcome: MergeOutcome)
    ensures outcome == Merging(self, other, typecheck)
    decreases other.value
  {
    if TypeOf(self.value) == TypeOf(other.value) {
      if self.value.Dictionary? {
        var fa, fb := self.value.fields, other.value.fields;
        var current := self;
        var keys := fb.Keys;
        ghost var done: set<string> := {};
        while keys != {}
          invariant keys !! done && keys + done == fb.Keys
          invariant current == JSON(Dictionary(PartlyMerged(fa, fb, done)), self.error)
          decreases keys
        {
          var key :| key in keys;
          var sub := KeyGet(current, key);
          var o := KeyGet(other, key);
          var m := Merge(sub, o, false);
          NestedMerge(sub, fb[key]);
          current := KeySet(current, key, m.result);
          assert PartlyMerged(fa, fb, done + {key}) ==
            PartlyMerged(fa, fb, done)[key := MergedValue(Lookup(fa, key), fb[key])];
          keys := keys - {key};
          done := done + {key};
        }
        assert PartlyMerged(fa, fb, done) == MergedValue(self.value, other.value).fields;
        outcome := Merged(current);
      } else if self.value.Array? {
        outcome := Merged(Wrap(Array(self.value.items + other.value.items)));
      } else {
        outcome := Merged(other);
      }
    } else if typecheck {
      outcome := Thrown(ErrorWrongType);
    } else {
      outcome := Merged(other);
    }
  }

  /** A nested merge step: the element read from `self` (a value, or null with
    * `ErrorNotExist` for a missing key) merged with an element of `other` gives the
    * nested merge of the two values, error-free. */
  lemma NestedMerge(sub: JSON, b: Value)
    requires sub.error.None? || sub == NullWithError(ErrorNotExist)
    ensures Merging(sub, Wrap(b), false) == Merged(Wrap(MergedValue(sub.value, b)))
  {
  }

  /** Merging two arrays yields their concatenation. */
  lemma MergeArraysConcatenates(a: seq<Value>, b: seq<Value>, e1: Option<int>, e2: Option<int>)
    ensures Merging(JSON(Array(a), e1), JSON(Array(b), e2), true) == Merged(Wrap(Array(a + b)))
  {
  }

  /** Differing types throw `ErrorWrongType` on the checked level and are replaced on
    * the nested levels; equal primitive types are replaced too. */
  lemma MergeTypeCheck(self: JSON, other: JSON)
    ensures TypeOf(self.value) != TypeOf(other.value) ==>
      Merging(self, other, true) == Thrown(ErrorWrongType) && Merging(self, other, false) == Merged(other)
    ensures TypeOf(self.value) == TypeOf(other.value) && !self.value.Dictionary? && !self.value.Array? ==>
      Merging(self, other, true) == Merged(other)
  {
  }

  /** Merging dictionaries keeps every key of both: keys only in `self` keep their
    * value, keys only in `other` take its value, and keys in both hold the nested
    * merge of the two. */
  lemma MergedDictionaryKeys(fa: map<string, Value>, fb: map<string, Value>, e: Option<int>, k: string)
    ensures Merging(JSON(Dictionary(fa), e), Wrap(Dictionary(fb)), true).Merged?
    ensures var r := Merging(JSON(Dictionary(fa), e), Wrap(Dictionary(fb)), true).result;
      r.error == e && r.value.Dictionary? && r.value.fields.Keys == fa.Keys + fb.Keys &&
      (k in fa && k !in fb ==> r.value.fields[k] == fa[k]) &&
      (k !in fa && k in fb ==> r.value.fields[k] == fb[k]) &&
      (k in fa && k in fb ==> r.value.fields[k] == MergedValue(fa[k], fb[k]))
  {
    var r := MergedValue(Dictionary(fa), Dictionary(fb));
    if k !in fa && k in fb {
      assert r.fields[k] == MergedValue(Null, fb[k]);
    }
  }

  /** The element types `MergedValue` leaves untouched: no arrays anywhere. */
  predicate ArrayFree(v: Value)
  {
    match v
    case Array(_) => false
    case Dictionary(f) => forall k :: k in f ==> ArrayFree(f[k])
    case _ => true
  }

  /** Merging an array-free value into itself changes nothing (arrays would be doubled). */
  lemma {:induction false} MergeSelfArrayFree(v: Value)
    requires ArrayFree(v)
    ensures MergedValue(v, v) == v
    decreases v
  {
    if v.Dictionary? {
      var f := v.fields;
      forall k | k in f
        ensures MergedValue(Lookup(f, k), f[k]) == f[k]
      {
        MergeSelfArrayFree(f[k]);
      }
      assert MergedValue(v, v).fields == f;
    }
  }

  /** Merging an array into itself doubles it. */
  lemma MergeSelfDoublesArrays(items: seq<Value>)
    ensures MergedValue(Array(items), Array(items)) == Array(items + items)
  {
  }

  // ---------------------------------------------------------------------------
  // boolValue and ==

  /** ASCII case folding. */
  function Lower(c: char): char
  {
    if 'A' <= c <= 'Z' then (c as int + 32) as char else c
  }

  /** `caseInsensitiveCompare(_:) == .orderedSame` on strings of ASCII letters. */
  predicate EqualsIgnoringCase(s: string, t: string)
  {
    |s| == |t| && forall i :: 0 <= i < |s| ==> Lower(s[i]) == Lower(t[i])
  }

  /** The `boolValue` getter: a bool's own value, a number other than zero, a string
    * equal to "true", "y" or "t" ignoring case, and false for everything else. */
  function BoolValue(j: JSON): bool
  {
    match j.value
    case Bool(b) => b
    case Number(n) => n != 0.0
    case Str(s) => EqualsIgnoringCase(s, "true") || EqualsIgnoringCase(s, "y") || EqualsIgnoringCase(s, "t")
    case _ => false
  }

  /** A string is truthy exactly when it is one of "true", "y", "t" with any letter
    * in either case. */
  lemma TruthyStrings(s: string, e: Option<int>)
    ensures BoolValue(JSON(Str(s), e)) <==>
      (|s| == 4 && Lower(s[0]) == 't' && Lower(s[1]) == 'r' && Lower(s[2]) == 'u' && Lower(s[3]) == 'e') ||
      (|s| == 1 && (Lower(s[0]) == 'y' || Lower(s[0]) == 't'))
    ensures BoolValue(Wrap(Str("TRUE"))) && BoolValue(Wrap(Str("Y"))) && BoolValue(Wrap(Str("tRuE")))
    ensures !BoolValue(Wrap(Str("yes"))) && !BoolValue(Wrap(Str("1"))) && !BoolValue(Wrap(Str("")))
  {
    assert EqualsIgnoringCase("TRUE", "true");
    assert EqualsIgnoringCase("tRuE", "true");
    assert EqualsIgnoringCase("Y", "y");
    assert Lower("1"[0]) == '1' && Lower("y"[0]) == 'y' && Lower("t"[0]) == 't';
  }

  /** `==` on `JSON`: equal types and equal objects; errors are not compared. */
  predicate JsonEqual(lhs: JSON, rhs: JSON)
  {
    match (lhs.value, rhs.value)
    case (Number(a), Number(b)) => a == b
    case (Str(a), Str(b)) => a == b
    case (Bool(a), Bool(b)) => a == b
    case (Array(a), Array(b)) => a == b
    case (Dictionary(a), Dictionary(b)) => a == b
    case (Null, Null) => true
    case _ => false
  }

  /** `==` holds exactly when the objects are equal, so it is false whenever the
    * types differ, and it ignores the errors. */
  lemma JsonEqualIsObjectEquality(lhs: JSON, rhs: JSON)
    ensures JsonEqual(lhs, rhs) <==> lhs.value == rhs.value
    ensures TypeOf(lhs.value) != TypeOf(rhs.value) ==> !JsonEqual(lhs, rhs)
    ensures JsonEqual(lhs, rhs) == JsonEqual(rhs, lhs)
  {
  }
}
