/** `ChartBaseDataSet`: the styling every data set shares (its colour lists and
  * value formatter) and the removal helpers written in terms of a subclass's entry
  * access. The entries are those of the standard data set: `entryForIndex` reads a
  * position in range, `entryForXValue(_:closestToY:)` is the standard search with
  * closest rounding and no y, and `removeEntry` drops the first occurrence. */
module DataSetBase {
  import opened Common
  import DataSetStandard

  /** A value formatter: the default one `ChartUtils.defaultValueFormatter()` makes, or
    * one the caller supplied (told apart by an identifier). */
  datatype Formatter = DefaultValueFormatter | Custom(id: nat)

  /** `withAlphaComponent(_:)`. */
  function WithAlpha(c: Color, alpha: real): (r: Color)
    ensures r.alpha == alpha && r.red == c.red && r.green == c.green && r.blue == c.blue
  {
    c.(alpha := alpha)
  }

  class ChartBaseDataSet {
    var colors: seq<Color>
    var valueColors: seq<Color>
    /** `_valueFormatter`. */
    var formatter: Option<Formatter>
    /** The subclass's entries. */
    var values: seq<Entry>

    /** `init()`: the default colour, black value text, no formatter. */
    constructor ()
      ensures colors == [DefaultColor] && valueColors == [Black]
      ensures formatter == None && values == []
    {
      colors := [DefaultColor];
      valueColors := [Black];
      formatter := None;
      values := [];
    }

    // -------------------------------------------------------------------------
    // Removal through the entry hooks

    /** `removeEntry(_:)` of the subclass: the first occurrence dropped, false when
      * there is none. */
    method RemoveEntry(entry: Entry) returns (removed: bool)
      modifies this
      ensures removed <==> entry in old(values)
      ensures !removed ==> values == old(values)
      ensures removed ==> var i := IndexOf(old(values), entry).value;
        values == old(values)[..i] + old(values)[i + 1..]
      ensures colors == old(colors) && valueColors == old(valueColors) && formatter == old(formatter)
    {
      match IndexOf(values, entry)
      case None =>
        return false;
      case Some(i) =>
        values := values[..i] + values[i + 1..];
        return true;
    }

    /** `removeEntry(index:)`: false outside the entries; otherwise the entry at
      * `index` removed through `removeEntry(_:)`, which drops its first occurrence. */
    method RemoveEntryAtIndex(index: int) returns (removed: bool)
      modifies this
      ensures removed <==> 0 <= index < |old(values)|
      ensures !removed ==> values == old(values)
      ensures removed ==>
        |values| == |old(values)| - 1 &&
        multiset(values) + multiset{old(values)[index]} == multiset(old(values))
      ensures removed ==> var i := IndexOf(old(values), old(values)[index]).value;
        values == old(values)[..i] + old(values)[i + 1..]
      ensures colors == old(colors) && valueColors == old(valueColors) && formatter == old(formatter)
    {
      if 0 <= index < |values| {
        var entry := values[index];
        ghost var i := IndexOf(values, entry).value;
        RemoveAtMultiset(values, i);
        removed := RemoveEntry(entry);
        return;
      }
      return false;
    }

    /** `removeEntry(x:)`: false on no entries; otherwise the entry closest to `x`
      * removed through `removeEntry(_:)`. */
    method RemoveEntryAtX(x: real) returns (removed: bool)
      modifies this
      ensures removed <==> old(values) != []
      ensures !removed ==> values == old(values)
      ensures removed ==> var e := old(values)[DataSetStandard.EntryIndexSpec(old(values), x, None, Closest)];
        |values| == |old(values)| - 1 && multiset(values) + multiset{e} == multiset(old(values))
      ensures removed ==> var e := old(values)[DataSetStandard.EntryIndexSpec(old(values), x, None, Closest)];
        var i := IndexOf(old(values), e).value;
        values == old(values)[..i] + old(values)[i + 1..]
      ensures colors == old(colors) && valueColors == old(valueColors) && formatter == old(formatter)
    {
      if values == [] {
        return false;
      }
      var index := DataSetStandard.EntryIndexSpec(values, x, None, Closest);
      removed := RemoveEntryAtIndex(index);
    }

    /** `removeFirst()`: false on no entries; otherwise the first entry removed. */
    method RemoveFirst() returns (removed: bool)
      modifies this
      ensures removed <==> old(values) != []
      ensures !removed ==> values == old(values)
      ensures removed ==> values == old(values)[1..]
      ensures colors == old(colors) && valueColors == old(valueColors) && formatter == old(formatter)
    {
      if |values| > 0 {
        var entry := values[0];
        assert values[..0] + values[1..] == values[1..];
        removed := RemoveEntry(entry);
        return;
      }
      return false;
    }

    /** `removeLast()`: false on no entries; otherwise the last entry removed through
      * `removeEntry(_:)`, which drops the first occurrence of that entry, the last
      * position only when it occurs nowhere earlier (see `RemoveLastDropsEarlierCopy`). */
    method RemoveLast() returns (removed: bool)
      modifies this
      ensures removed <==> old(values) != []
      ensures !removed ==> values == old(values)
      ensures removed ==> var i := IndexOf(old(values), old(values)[|old(values)| - 1]).value;
        values == old(values)[..i] + old(values)[i + 1..]
      ensures removed && old(values)[|old(values)| - 1] !in old(values)[..|old(values)| - 1] ==>
        values == old(values)[..|old(values)| - 1]
      ensures colors == old(colors) && valueColors == old(valueColors) && formatter == old(formatter)
    {
      if |values| > 0 {
        var n := |values|;
        var entry := values[n - 1];
        if entry !in values[..n - 1] {
          LastOccursOnlyLast(values);
        }
        removed := RemoveEntry(entry);
        return;
      }
      return false;
    }

    // -------------------------------------------------------------------------
    // Colours

    /** `color(atIndex:)`. */
    function ColorAtIndex(index: int): (c: Color)
      requires |colors| > 0
      reads this
      ensures c in colors
      ensures 0 <= index < |colors| ==> c == colors[index]
      ensures index < 0 ==> c == colors[0]
    {
      ColorAt(colors, index)
    }

    /** `resetColors()`. */
    method ResetColors()
      modifies this
      ensures colors == [] && valueColors == old(valueColors) && values == old(values)
    {
      colors := [];
    }

    /** `addColor(_:)`. */
    method AddColor(color: Color)
      modifies this
      ensures colors == old(colors) + [color]
      ensures valueColors == old(valueColors) && values == old(values)
    {
      colors := colors + [color];
    }

    /** `setColor(_:)`: the one colour of the data set, whatever the index. */
    method SetColor(color: Color)
      modifies this
      ensures colors == [color] && forall i :: ColorAtIndex(i) == color
      ensures valueColors == old(valueColors) && values == old(values)
    {
      colors := [color];
    }

    /** `setColor(_:alpha:)`. */
    method SetColorAlpha(color: Color, alpha: real)
      modifies this
      ensures colors == [WithAlpha(color, alpha)]
      ensures valueColors == old(valueColors) && values == old(values)
    {
      SetColor(WithAlpha(color, alpha));
    }

    /** `setColors(_:alpha:)`: every colour with the given alpha, in order. */
    method SetColorsAlpha(newColors: seq<Color>, alpha: real)
      modifies this
      ensures |colors| == |newColors|
      ensures forall i :: 0 <= i < |colors| ==> colors[i] == WithAlpha(newColors[i], alpha)
      ensures valueColors == old(valueColors) && values == old(values)
    {
      var colorsWithAlpha := newColors;
      var i := 0;
      while i < |colorsWithAlpha|
        invariant 0 <= i <= |colorsWithAlpha| == |newColors|
        invariant forall k :: 0 <= k < i ==> colorsWithAlpha[k] == WithAlpha(newColors[k], alpha)
        invariant forall k :: i <= k < |newColors| ==> colorsWithAlpha[k] == newColors[k]
      {
        colorsWithAlpha := colorsWithAlpha[i := WithAlpha(colorsWithAlpha[i], alpha)];
        i := i + 1;
      }
      colors := colorsWithAlpha;
    }

    /** `setColors(_:)`. */
    method SetColors(newColors: seq<Color>)
      modifies this
      ensures colors == newColors && valueColors == old(valueColors) && values == old(values)
    {
      colors := newColors;
    }

    // -------------------------------------------------------------------------
    // Value formatter and value text colours

    /** `needsFormatter`: no formatter of the caller's is stored. */
    predicate NeedsFormatter()
      reads this
    {
      formatter.None?
    }

    /** The `valueFormatter` getter: the stored formatter, or a default one when none
      * is stored. */
    function ValueFormatter(): (f: Formatter)
      reads this
      ensures NeedsFormatter() <==> formatter == None
      ensures NeedsFormatter() ==> f == DefaultValueFormatter
      ensures !NeedsFormatter() ==> f == formatter.value
    {
      if NeedsFormatter() then DefaultValueFormatter else formatter.value
    }

    /** The `valueFormatter` setter: nil is ignored, anything else is stored, after
      * which no default is needed any more. */
    method SetValueFormatter(f: Option<Formatter>)
      modifies this
      ensures f.None? ==> formatter == old(formatter)
      ensures f.Some? ==> formatter == f && !NeedsFormatter() && ValueFormatter() == f.value
      ensures old(formatter).Some? ==> formatter.Some?
      ensures colors == old(colors) && valueColors == old(valueColors) && values == old(values)
    {
      if f.None? {
        return;
      }
      formatter := f;
    }

    /** The `valueTextColor` getter: the first value colour (an empty list traps). */
    function ValueTextColor(): (c: Color)
      requires |valueColors| > 0
      reads this
      ensures c == valueColors[0] && c == ValueTextColorAt(0)
    {
      valueColors[0]
    }

    /** The `valueTextColor` setter: the one value colour, read back by the getter and
      * by every index. */
    method SetValueTextColor(c: Color)
      modifies this
      ensures valueColors == [c] && ValueTextColor() == c
      ensures forall i :: ValueTextColorAt(i) == c
      ensures colors == old(colors) && values == old(values) && formatter == old(formatter)
    {
      valueColors := [c];
    }

    /** `valueTextColorAt(_:)`. */
    function ValueTextColorAt(index: int): (c: Color)
      requires |valueColors| > 0
      reads this
      ensures c in valueColors
      ensures 0 <= index < |valueColors| ==> c == valueColors[index]
      ensures index < 0 ==> c == valueColors[0]
    {
      ColorAt(valueColors, index)
    }
  }

  /** Dropping position `i` takes exactly that element out of the multiset. */
  lemma RemoveAtMultiset(s: seq<Entry>, i: int)
    requires 0 <= i < |s|
    ensures multiset(s[..i] + s[i + 1..]) + multiset{s[i]} == multiset(s)
  {
    assert s == s[..i] + [s[i]] + s[i + 1..];
  }

  /** An entry that does not occur before the last position is found first there. */
  lemma LastOccursOnlyLast(s: seq<Entry>)
    requires |s| > 0 && s[|s| - 1] !in s[..|s| - 1]
    ensures IndexOf(s, s[|s| - 1]) == Some(|s| - 1)
  {
  }

  /** With the last entry also stored earlier, `removeLast()` drops the earlier copy
    * and the last position stays. */
  lemma RemoveLastDropsEarlierCopy()
    ensures var s := [Entry(1.0, 1.0), Entry(2.0, 2.0), Entry(1.0, 1.0)];
      IndexOf(s, s[2]) == Some(0) && s[..0] + s[1..] == [Entry(2.0, 2.0), Entry(1.0, 1.0)]
  {
  }
}
