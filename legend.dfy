/** `Legend`: the legend entries and the layout `calculateDimensions` computes for
  * them. Text measuring is outside the model: it is a `measure` function from a
  * label to its size, and the font's line height and the view port's content width
  * are parameters. */
module Legend {
  import opened Common

  datatype Form = NoForm | EmptyForm | DefaultForm | Square | Circle | Line

  datatype Orientation = Horizontal | Vertical

  datatype Size = Size(width: real, height: real)

  /** A `LegendEntry`; a `formSize` of `None` stands for NaN, meaning the legend's own
    * form size, and a `None` label makes the entry part of a stacked group. */
  datatype LegendEntry = LegendEntry(labelText: Option<string>, form: Form, formSize: Option<real>)

  function FormSizeOf(e: LegendEntry, defaultFormSize: real): real
  {
    if e.formSize.Some? then e.formSize.value else defaultFormSize
  }

  /** How many positions of `s` hold `true`. */
  function CountTrue(s: seq<bool>): (n: nat)
    ensures n <= |s|
  {
    if s == [] then 0 else CountTrue(s[..|s| - 1]) + (if s[|s| - 1] then 1 else 0)
  }

  lemma CountTrueSnoc(s: seq<bool>, b: bool)
    ensures CountTrue(s + [b]) == CountTrue(s) + (if b then 1 else 0)
  {
    assert (s + [b])[..|s|] == s;
  }

  /** Setting a position outside a prefix leaves the prefix's count alone; setting a
    * `false` position inside it to `true` adds one. */
  lemma {:induction false} CountTrueUpdate(s: seq<bool>, p: int, k: int)
    requires 0 <= p < |s| && 0 <= k <= |s| && !s[p]
    ensures p >= k ==> CountTrue(s[p := true][..k]) == CountTrue(s[..k])
    ensures p < k ==> CountTrue(s[p := true][..k]) == CountTrue(s[..k]) + 1
    decreases k
  {
    if k > 0 {
      var t := s[p := true];
      assert t[..k][..k - 1] == t[..k - 1];
      assert s[..k][..k - 1] == s[..k - 1];
      CountTrueUpdate(s, p, k - 1);
    }
  }

  lemma CountTrueSetFalse(s: seq<bool>, i: int)
    requires 0 <= i < |s|
    ensures CountTrue(s[i := false][..i + 1]) == CountTrue(s[..i])
  {
    assert s[i := false][..i + 1] == s[..i] + [false];
    CountTrueSnoc(s[..i], false);
  }

  /** Rows the vertical layout gives entry `k` of `s`: a labelled entry takes one row,
    * and one more when it closes a stacked group. */
  function RowsOf(s: seq<LegendEntry>, k: int): nat
    requires 0 <= k < |s|
  {
    if s[k].labelText.None? then 0
    else if k > 0 && s[k - 1].labelText.None? then 2
    else 1
  }

  /** Rows the vertical layout gives the whole of `s`. */
  function VerticalRows(s: seq<LegendEntry>): nat
  {
    if s == [] then 0 else VerticalRows(s[..|s| - 1]) + RowsOf(s, |s| - 1)
  }

  lemma VerticalRowsStep(s: seq<LegendEntry>, i: int)
    requires 0 <= i < |s|
    ensures VerticalRows(s[..i + 1]) == VerticalRows(s[..i]) + RowsOf(s, i)
  {
    assert s[..i + 1][..i] == s[..i];
  }

  /** Every labelled entry takes at least one row. */
  lemma {:induction false} VerticalRowsAtLeastLabels(s: seq<LegendEntry>)
    ensures VerticalRows(s) >= LabelCount(s)
    ensures VerticalRows(s) <= 2 * LabelCount(s)
  {
    if s != [] {
      VerticalRowsAtLeastLabels(s[..|s| - 1]);
    }
  }

  /** How many entries of `s` carry a label. */
  function LabelCount(s: seq<LegendEntry>): nat
  {
    if s == [] then 0 else LabelCount(s[..|s| - 1]) + (if s[|s| - 1].labelText.Some? then 1 else 0)
  }

  class Legend {
    var entries: seq<LegendEntry>
    var extraEntries: seq<LegendEntry>
    var legendCustom: bool
    var orientation: Orientation
    var formSize: real
    var xEntrySpace: real
    var yEntrySpace: real
    var formToTextSpace: real
    var stackSpace: real
    var wordWrapEnabled: bool
    var maxSizePercent: real
    var xOffset: real
    var yOffset: real
    var calculatedLabelSizes: seq<Size>
    var calculatedLabelBreakPoints: seq<bool>
    var calculatedLineSizes: seq<Size>
    var neededWidth: real
    var neededHeight: real
    var textWidthMax: real
    var textHeightMax: real

    /** `init()`: no entries, horizontal, word wrap on, and offsets of 5 and 3. */
    constructor ()
      ensures entries == [] && extraEntries == [] && !legendCustom && orientation == Horizontal
      ensures formSize == 8.0 && xEntrySpace == 6.0 && yEntrySpace == 0.0
      ensures formToTextSpace == 5.0 && stackSpace == 3.0
      ensures wordWrapEnabled && maxSizePercent == 0.95 && xOffset == 5.0 && yOffset == 3.0
      ensures calculatedLabelSizes == [] && calculatedLabelBreakPoints == [] && calculatedLineSizes == []
      ensures neededWidth == 0.0 && neededHeight == 0.0 && textWidthMax == 0.0 && textHeightMax == 0.0
    {
      entries, extraEntries := [], [];
      legendCustom := false;
      orientation := Horizontal;
      formSize := 8.0;
      xEntrySpace, yEntrySpace := 6.0, 0.0;
      formToTextSpace, stackSpace := 5.0, 3.0;
      wordWrapEnabled := true;
      maxSizePercent := 0.95;
      xOffset, yOffset := 5.0, 3.0;
      calculatedLabelSizes, calculatedLabelBreakPoints, calculatedLineSizes := [], [], [];
      neededWidth, neededHeight, textWidthMax, textHeightMax := 0.0, 0.0, 0.0, 0.0;
    }

    /** `setCustom(entries:)`: the given entries, marked as custom. */
    method SetCustom(newEntries: seq<LegendEntry>)
      modifies this
      ensures entries == newEntries && legendCustom && IsLegendCustom()
      ensures extraEntries == old(extraEntries) && orientation == old(orientation)
    {
      entries := newEntries;
      legendCustom := true;
    }

    /** `resetCustom()`: back to automatic entries; the entries themselves stay. */
    method ResetCustom()
      modifies this
      ensures !legendCustom && !IsLegendCustom()
      ensures entries == old(entries) && extraEntries == old(extraEntries) && orientation == old(orientation)
    {
      legendCustom := false;
    }

    /** `isLegendCustom`. */
    predicate IsLegendCustom()
      reads this
    {
      legendCustom
    }

    /** `getMaximumEntrySize(withFont:)`: the widest and tallest label, with room for
      * the largest form and the space between form and text. */
    method GetMaximumEntrySize(measure: string -> Size) returns (r: Size)
      ensures r.width == LabelWidthMax(entries, measure) + FormSizeMax(entries, formSize) + formToTextSpace
      ensures r.height == LabelHeightMax(entries, measure)
    {
      var maxW := 0.0;
      var maxH := 0.0;
      var maxFormSize := 0.0;
      var i := 0;
      while i < |entries|
        invariant 0 <= i <= |entries|
        invariant maxW == LabelWidthMax(entries[..i], measure)
        invariant maxH == LabelHeightMax(entries[..i], measure)
        invariant maxFormSize == FormSizeMax(entries[..i], formSize)
      {
        var entry := entries[i];
        var size := FormSizeOf(entry, formSize);
        assert entries[..i + 1][..i] == entries[..i];
        if size > maxFormSize {
          maxFormSize := size;
        }
        if entry.labelText.Some? {
          var labelSize := measure(entry.labelText.value);
          if labelSize.width > maxW {
            maxW := labelSize.width;
          }
          if labelSize.height > maxH {
            maxH := labelSize.height;
          }
        }
        i := i + 1;
      }
      assert entries[..i] == entries;
      return Size(maxW + maxFormSize + formToTextSpace, maxH);
    }

    /** The spacing fields the layouts use. */
    function MetricsOf(): Metrics
      reads this`formSize, this`formToTextSpace, this`xEntrySpace, this`stackSpace
    {
      Metrics(formSize, formToTextSpace, xEntrySpace, stackSpace)
    }

    /** The width the horizontal layout may fill: `maxSizePercent` of the view port's
      * content width. */
    function ContentWidth(viewContentWidth: real): real
      reads this`maxSizePercent
    {
      viewContentWidth * maxSizePercent
    }

    /** The largest text size: the widest label plus the largest form and the space
      * between form and text, and the tallest label. */
    ghost predicate TextMaxed(measure: string -> Size)
      reads this`textWidthMax, this`textHeightMax, this`entries, this`formSize, this`formToTextSpace
    {
      textWidthMax == LabelWidthMax(entries, measure) + FormSizeMax(entries, formSize) + formToTextSpace &&
      textHeightMax == LabelHeightMax(entries, measure)
    }

    /** The horizontal layout's outcome: the label sizes, break flags and lines of
      * the greedy line filling over `contentWidth`, the widest line plus the
      * offset as needed width, and a height of `n` lines and `n - 1` gaps. */
    ghost predicate HorizontalLaidOut(measure: string -> Size, lineHeight: real, contentWidth: real)
      reads this`entries, this`formSize, this`formToTextSpace, this`xEntrySpace, this`stackSpace, this`wordWrapEnabled
      reads this`calculatedLabelSizes, this`calculatedLabelBreakPoints, this`calculatedLineSizes
      reads this`neededWidth, this`neededHeight, this`xOffset, this`yOffset, this`yEntrySpace
    {
      LinesLaidOut(entries, LineRule(measure, MetricsOf(), contentWidth, wordWrapEnabled),
                   lineHeight, calculatedLabelSizes, calculatedLabelBreakPoints, calculatedLineSizes, neededWidth - xOffset) &&
      neededHeight == LinesHeight(lineHeight, yEntrySpace, |calculatedLineSizes|) + yOffset
    }

    /** The vertical layout's outcome: the widest row plus the offset as needed
      * width, and a row per labelled entry and one more for each that closes a
      * stacked group. */
    ghost predicate VerticalLaidOut(measure: string -> Size, lineHeight: real)
      reads this`entries, this`formSize, this`formToTextSpace, this`xEntrySpace, this`stackSpace
      reads this`neededWidth, this`neededHeight, this`xOffset, this`yOffset, this`yEntrySpace
    {
      neededWidth == MaxOf(RowWidths(entries, MetricsOf(), measure)) + xOffset &&
      neededHeight == Stacked(lineHeight + yEntrySpace, VerticalRows(entries)) + yOffset
    }

    /** `calculateDimensions(labelFont:viewPortHandler:)`, with the font's line height
      * and the view port's content width given: the largest entry size, then the
      * layout of the legend's orientation. */
    method CalculateDimensions(measure: string -> Size, lineHeight: real, viewContentWidth: real)
      modifies this`textWidthMax, this`textHeightMax, this`neededWidth, this`neededHeight,
               this`calculatedLabelSizes, this`calculatedLabelBreakPoints, this`calculatedLineSizes
      ensures TextMaxed(measure)
      ensures orientation == Horizontal ==> HorizontalLaidOut(measure, lineHeight, ContentWidth(viewContentWidth))
      ensures orientation == Vertical ==> VerticalLaidOut(measure, lineHeight)
      ensures orientation == Vertical ==>
        unchanged(this`calculatedLabelSizes, this`calculatedLabelBreakPoints, this`calculatedLineSizes)
    {
      SetTextMax(measure);
      if orientation == Vertical {
        CalculateVertical(measure, lineHeight);
      } else {
        CalculateHorizontal(measure, lineHeight, viewContentWidth);
      }
    }

    /** The start of `calculateDimensions`: the largest entry size kept as the
      * largest text size. */
    method SetTextMax(measure: string -> Size)
      modifies this`textWidthMax, this`textHeightMax
      ensures TextMaxed(measure)
    {
      var maxEntrySize := GetMaximumEntrySize(measure);
      textWidthMax := maxEntrySize.width;
      textHeightMax := maxEntrySize.height;
    }

    /** The vertical branch of `calculateDimensions`, offsets included: the needed
      * width is the widest row plus `xOffset`. */
    method CalculateVertical(measure: string -> Size, lineHeight: real)
      modifies this`neededWidth, this`neededHeight
      ensures VerticalLaidOut(measure, lineHeight)
    {
      var es, ms := entries, MetricsOf();
      var maxWidth, maxHeight := VerticalLayout(es, lineHeight, ms, yEntrySpace, measure);
      neededWidth, neededHeight := maxWidth + xOffset, maxHeight + yOffset;
      assert es == entries && ms == MetricsOf();
    }

    /** The horizontal branch of `calculateDimensions`, offsets included, over the
      * content width the view port's width times `maxSizePercent` gives. */
    method CalculateHorizontal(measure: string -> Size, lineHeight: real, viewContentWidth: real)
      modifies this`neededWidth, this`neededHeight,
               this`calculatedLabelSizes, this`calculatedLabelBreakPoints, this`calculatedLineSizes
      ensures HorizontalLaidOut(measure, lineHeight, ContentWidth(viewContentWidth))
    {
      var contentWidth := ContentWidth(viewContentWidth);
      var es, ms, wrap := entries, MetricsOf(), wordWrapEnabled;
      var labelSizes, breakPoints, lineSizes, maxLineWidth :=
        HorizontalLayout(es, calculatedLabelSizes, calculatedLabelBreakPoints, lineHeight, contentWidth,
                         ms, wrap, measure);
      var height := LinesHeight(lineHeight, yEntrySpace, |lineSizes|);
      calculatedLabelSizes, calculatedLabelBreakPoints, calculatedLineSizes := labelSizes, breakPoints, lineSizes;
      neededWidth, neededHeight := maxLineWidth + xOffset, height + yOffset;
      assert entries == es && MetricsOf() == ms && wordWrapEnabled == wrap && ContentWidth(viewContentWidth) == contentWidth;
      assert neededWidth - xOffset == maxLineWidth;
    }
  }

  /** The widest label of `s`, or 0 when there is none wider. */
  function LabelWidthMax(s: seq<LegendEntry>, measure: string -> Size): (m: real)
    ensures m >= 0.0
    ensures forall k :: 0 <= k < |s| && s[k].labelText.Some? ==> measure(s[k].labelText.value).width <= m
  {
    if s == [] then 0.0
    else
      var m := LabelWidthMax(s[..|s| - 1], measure);
      var e := s[|s| - 1];
      if e.labelText.Some? && measure(e.labelText.value).width > m then measure(e.labelText.value).width else m
  }

  /** The tallest label of `s`, or 0 when there is none taller. */
  function LabelHeightMax(s: seq<LegendEntry>, measure: string -> Size): (m: real)
    ensures m >= 0.0
    ensures forall k :: 0 <= k < |s| && s[k].labelText.Some? ==> measure(s[k].labelText.value).height <= m
  {
    if s == [] then 0.0
    else
      var m := LabelHeightMax(s[..|s| - 1], measure);
      var e := s[|s| - 1];
      if e.labelText.Some? && measure(e.labelText.value).height > m then measure(e.labelText.value).height else m
  }

  /** The largest form size of `s`, NaN standing for the default, or 0 when none is larger. */
  function FormSizeMax(s: seq<LegendEntry>, defaultFormSize: real): (m: real)
    ensures m >= 0.0
    ensures forall k :: 0 <= k < |s| ==> FormSizeOf(s[k], defaultFormSize) <= m
  {
    if s == [] then 0.0
    else
      var m := FormSizeMax(s[..|s| - 1], defaultFormSize);
      var size := FormSizeOf(s[|s| - 1], defaultFormSize);
      if size > m then size else m
  }

  /** The widest label is one of the labels, unless no label is wider than 0. */
  lemma {:induction false} LabelWidthMaxAttained(s: seq<LegendEntry>, measure: string -> Size)
    ensures LabelWidthMax(s, measure) == 0.0 ||
      exists k :: 0 <= k < |s| && s[k].labelText.Some? && measure(s[k].labelText.value).width == LabelWidthMax(s, measure)
  {
    if s != [] {
      var p := s[..|s| - 1];
      LabelWidthMaxAttained(p, measure);
      if LabelWidthMax(s, measure) == LabelWidthMax(p, measure) && LabelWidthMax(p, measure) != 0.0 {
        var k :| 0 <= k < |p| && p[k].labelText.Some? && measure(p[k].labelText.value).width == LabelWidthMax(p, measure);
        assert s[k] == p[k];
      }
    }
  }

  /** The largest form size is one of the entries' form sizes, unless none exceeds 0. */
  lemma {:induction false} FormSizeMaxAttained(s: seq<LegendEntry>, defaultFormSize: real)
    ensures FormSizeMax(s, defaultFormSize) == 0.0 ||
      exists k :: 0 <= k < |s| && FormSizeOf(s[k], defaultFormSize) == FormSizeMax(s, defaultFormSize)
  {
    if s != [] {
      var p := s[..|s| - 1];
      FormSizeMaxAttained(p, defaultFormSize);
      if FormSizeMax(s, defaultFormSize) == FormSizeMax(p, defaultFormSize) && FormSizeMax(p, defaultFormSize) != 0.0 {
        var k :| 0 <= k < |p| && FormSizeOf(p[k], defaultFormSize) == FormSizeMax(p, defaultFormSize);
        assert s[k] == p[k];
      }
    }
  }


  /** The form size, form-to-text space, entry space and stack space a layout uses. */
  datatype Metrics = Metrics(formSize: real, formToTextSpace: real, xEntrySpace: real, stackSpace: real)

  /** The largest of `ws`, or 0 when none is larger: the `max(maxWidth, …)` fold
    * both layouts keep. */
  function MaxOf(ws: seq<real>): (m: real)
    ensures m >= 0.0
  {
    if ws == [] then 0.0 else Max(MaxOf(ws[..|ws| - 1]), ws[|ws| - 1])
  }

  lemma MaxOfSnoc(ws: seq<real>, w: real)
    ensures MaxOf(ws + [w]) == Max(MaxOf(ws), w)
  {
    assert (ws + [w])[..|ws|] == ws;
  }

  /** The largest width is at least every width. */
  lemma {:induction false} MaxOfBounds(ws: seq<real>)
    ensures forall k :: 0 <= k < |ws| ==> ws[k] <= MaxOf(ws)
  {
    if ws != [] {
      var p := ws[..|ws| - 1];
      MaxOfBounds(p);
      assert forall k :: 0 <= k < |p| ==> ws[k] == p[k];
    }
  }

  /** The largest width is one of the widths, unless none is larger than 0. */
  lemma {:induction false} MaxOfAttained(ws: seq<real>)
    ensures MaxOf(ws) == 0.0 || exists k :: 0 <= k < |ws| && ws[k] == MaxOf(ws)
  {
    if ws != [] {
      var p := ws[..|ws| - 1];
      MaxOfAttained(p);
      if MaxOf(ws) == MaxOf(p) && MaxOf(p) != 0.0 {
        var k :| 0 <= k < |p| && p[k] == MaxOf(p);
        assert ws[k] == p[k];
      }
    }
  }

  /** The size recorded for an entry's label: measured, or zero for a stacked entry. */
  function LabelSizeOf(e: LegendEntry, measure: string -> Size): Size
  {
    if e.labelText.Some? then measure(e.labelText.value) else Size(0.0, 0.0)
  }

  /** Lines of the given widths, each of the line height. */
  function Sized(ws: seq<real>, lineHeight: real): (r: seq<Size>)
    ensures |r| == |ws|
    ensures forall k :: 0 <= k < |ws| ==> r[k] == Size(ws[k], lineHeight)
  {
    seq(|ws|, k requires 0 <= k < |ws| => Size(ws[k], lineHeight))
  }

  /** The height of `lines` lines of `lineHeight` with `space` between two of them. */
  function LinesHeight(lineHeight: real, space: real, lines: nat): real
  {
    if lines == 0 then 0.0
    else if lines == 1 then lineHeight
    else LinesHeight(lineHeight, space, lines - 1) + space + lineHeight
  }

  /** The height of the lines is the product the source computes: `lines` times the
    * line height and one space fewer than lines. */
  lemma {:induction false} LinesHeightIsProduct(lineHeight: real, space: real, lines: nat)
    ensures LinesHeight(lineHeight, space, lines) ==
      lineHeight * (lines as real) + space * (if lines == 0 then 0.0 else (lines - 1) as real)
  {
    if lines > 1 {
      LinesHeightIsProduct(lineHeight, space, lines - 1);
      assert lineHeight * ((lines - 1) as real) + lineHeight == lineHeight * (lines as real);
      assert space * ((lines - 2) as real) + space == space * ((lines - 1) as real);
    }
  }

  /** The width entry `e` needs: its own form and label, added to the group's width so
    * far (with the stack space) when it continues a stacked group. */
  function RequiredWidth(e: LegendEntry, stacking: bool, requiredWidth: real, labelWidth: real,
                         formSize: real, formToTextSpace: real, stackSpace: real): real
  {
    var drawingForm := e.form != NoForm;
    var base := if stacking then requiredWidth + stackSpace else 0.0;
    if e.labelText.Some? then base + (if drawingForm then formToTextSpace + formSize else 0.0) + labelWidth
    else base + (if drawingForm then formSize else 0.0)
  }

  /** Entry `i` closes a group: it has a label, or it is the last entry. */
  predicate Closes(s: seq<LegendEntry>, i: int)
    requires 0 <= i < |s|
  {
    s[i].labelText.Some? || i == |s| - 1
  }

  /** Entry `i` continues a stacked group: the entry before it has no label. */
  predicate Stacking(s: seq<LegendEntry>, i: int)
    requires 0 <= i < |s|
  {
    i > 0 && s[i - 1].labelText.None?
  }

  /** The first entry of the group that entry `i` belongs to. */
  function GroupStart(s: seq<LegendEntry>, i: int): (g: nat)
    requires 0 <= i < |s|
    ensures g <= i
    decreases i
  {
    if Stacking(s, i) then GroupStart(s, i - 1) else i
  }

  /** The entry that closes the group that entry `i` belongs to. */
  function GroupClose(s: seq<LegendEntry>, i: int): (c: nat)
    requires 0 <= i < |s|
    ensures i <= c < |s| && Closes(s, c)
    decreases |s| - i
  {
    if Closes(s, i) then i else GroupClose(s, i + 1)
  }

  /** The group closed at `c` runs from its start to `c`: every entry in it has
    * `c` as its closing entry. */
  lemma {:induction false} GroupCloseInGroup(s: seq<LegendEntry>, c: int, p: int)
    requires 0 <= c < |s| && Closes(s, c) && GroupStart(s, c) <= p <= c
    ensures GroupClose(s, p) == c
    decreases c - p
  {
    if p < c {
      GroupStartRun(s, c, p);
      GroupCloseInGroup(s, c, p + 1);
    }
  }

  /** The entries of a group before its closing one have no label. */
  lemma {:induction false} GroupStartRun(s: seq<LegendEntry>, c: int, p: int)
    requires 0 <= c < |s| && GroupStart(s, c) <= p < c
    ensures s[p].labelText.None?
    decreases c
  {
    if p < c - 1 {
      GroupStartRun(s, c - 1, p);
    }
  }

  /** A group that starts after a labelled entry starts after it. */
  lemma {:induction false} GroupStartAfterLabel(s: seq<LegendEntry>, j: int, p: int)
    requires 0 <= j < p < |s| && s[j].labelText.Some?
    ensures GroupStart(s, p) > j
    decreases p
  {
    if Stacking(s, p) {
      GroupStartAfterLabel(s, j, p - 1);
    }
  }

  /** `requiredWidth` once entry `i` is measured: its form and label, added with the
    * stack space to the width of the stacked entries before it in its group. */
  function PendingWidth(s: seq<LegendEntry>, i: int, measure: string -> Size, m: Metrics): real
    requires 0 <= i < |s|
    decreases i
  {
    var stacking := Stacking(s, i);
    RequiredWidth(s[i], stacking, if stacking then PendingWidth(s, i - 1, measure, m) else 0.0,
                  LabelSizeOf(s[i], measure).width, m.formSize, m.formToTextSpace, m.stackSpace)
  }

  /** A group `w` wide goes on a line that is `current` wide: word wrap is off, the
    * line is empty, or the group fits after the entry space. */
  predicate Fits(current: real, w: real, contentWidth: real, xEntrySpace: real, wordWrapEnabled: bool)
  {
    !wordWrapEnabled || current == 0.0 || contentWidth - current >= xEntrySpace + w
  }

  /** What the horizontal filling depends on besides the entries: label measuring,
    * the spaces, the content width and the word-wrap switch. */
  datatype LineRule = LineRule(measure: string -> Size, metrics: Metrics, contentWidth: real, wordWrapEnabled: bool)

  /** The horizontal layout part way through: the widths of the closed lines, the
    * width of the open line, and a break flag per entry laid out. */
  datatype LineState = LineState(closed: seq<real>, current: real, breaks: seq<bool>)

  /** The width of the group closed at `j`. */
  function GroupWidth(s: seq<LegendEntry>, j: int, r: LineRule): real
    requires 0 <= j < |s|
  {
    PendingWidth(s, j, r.measure, r.metrics)
  }

  /** The greedy line filling after the first `k` entries: each group that does not
    * go on the open line closes it and flags its first entry as a break. */
  function LinesAfter(s: seq<LegendEntry>, k: int, r: LineRule): (st: LineState)
    requires 0 <= k <= |s|
    ensures |st.breaks| == k
    decreases k
  {
    if k == 0 then LineState([], 0.0, [])
    else
      var st := LinesAfter(s, k - 1, r);
      var i := k - 1;
      var b := st.breaks + [false];
      if !Closes(s, i) then LineState(st.closed, st.current, b)
      else
        var w := GroupWidth(s, i, r);
        if Fits(st.current, w, r.contentWidth, r.metrics.xEntrySpace, r.wordWrapEnabled) then
          LineState(st.closed, st.current + (if st.current == 0.0 then 0.0 else r.metrics.xEntrySpace) + w, b)
        else
          LineState(st.closed + [st.current], w, b[GroupStart(s, i) := true])
  }

  /** The widths of all lines: the closed ones and, when there are entries, the last. */
  function LineWidths(s: seq<LegendEntry>, r: LineRule): seq<real>
  {
    var st := LinesAfter(s, |s|, r);
    if s == [] then [] else st.closed + [st.current]
  }

  /** A break at `p` sits at the first entry of a group, after a non-empty line that
    * the group does not fit after; `lines` holds the line widths. */
  ghost predicate BreakJustified(s: seq<LegendEntry>, r: LineRule, breaks: seq<bool>, lines: seq<real>, p: int)
    requires 0 <= p < |s| && p <= |breaks|
  {
    r.wordWrapEnabled && GroupStart(s, GroupClose(s, p)) == p && CountTrue(breaks[..p]) < |lines| &&
    lines[CountTrue(breaks[..p])] != 0.0 &&
    r.contentWidth - lines[CountTrue(breaks[..p])] < r.metrics.xEntrySpace + GroupWidth(s, GroupClose(s, p), r)
  }

  /** A line `w` wide at line index `q` fits the content width, or is exactly as wide
    * as a group (closed at `j < k`) that it holds. */
  ghost predicate LineOk(s: seq<LegendEntry>, r: LineRule, k: int, breaks: seq<bool>, q: int, w: real)
    requires k <= |s| && k <= |breaks|
  {
    w <= r.contentWidth ||
    exists j :: 0 <= j < k && Closes(s, j) && CountTrue(breaks[..j + 1]) == q && w == GroupWidth(s, j, r)
  }

  /** What the filling guarantees, for break flags `breaks` and line widths `lines`:
    * one line per break plus the last (none without entries), no break without
    * word wrap, a break only before a group that does not fit after the line it
    * closes, and with word wrap a line wider than `contentWidth` only as wide as
    * the one group on it that made it so. */
  ghost predicate FilledGreedily(s: seq<LegendEntry>, r: LineRule, breaks: seq<bool>, lines: seq<real>)
  {
    |breaks| == |s| &&
    |lines| == (if s == [] then 0 else CountTrue(breaks) + 1) &&
    (!r.wordWrapEnabled ==> CountTrue(breaks) == 0) &&
    (forall p :: 0 <= p < |s| && breaks[p] ==> BreakJustified(s, r, breaks, lines, p)) &&
    (r.wordWrapEnabled ==> forall q :: 0 <= q < |lines| ==> LineOk(s, r, |s|, breaks, q, lines[q]))
  }

  /** The invariant of the filling after `k` entries, on the break flags. */
  ghost predicate BreaksOk(s: seq<LegendEntry>, r: LineRule, k: int, st: LineState)
    requires 0 <= k <= |s|
  {
    |st.breaks| == k && |st.closed| == CountTrue(st.breaks) &&
    (!r.wordWrapEnabled ==> CountTrue(st.breaks) == 0) &&
    forall p :: 0 <= p < k && st.breaks[p] ==> GroupClose(s, p) < k && BreakJustified(s, r, st.breaks, st.closed, p)
  }

  /** The invariant of the filling after `k` entries, on the closed lines and the
    * open one (which may still be empty). */
  ghost predicate LinesOk(s: seq<LegendEntry>, r: LineRule, k: int, st: LineState)
    requires 0 <= k <= |s| && |st.breaks| == k
  {
    r.wordWrapEnabled ==>
      (forall q :: 0 <= q < |st.closed| ==> LineOk(s, r, k, st.breaks, q, st.closed[q])) &&
      (st.current == 0.0 || LineOk(s, r, k, st.breaks, |st.closed|, st.current))
  }

  /** A sequence whose flags from `g` on are all clear counts as its prefix up to `g`. */
  lemma {:induction false} CountTrueClearTail(s: seq<bool>, g: int)
    requires 0 <= g <= |s|
    requires forall p :: g <= p < |s| ==> !s[p]
    ensures CountTrue(s[..g]) == CountTrue(s)
    decreases |s|
  {
    if g < |s| {
      var t := s[..|s| - 1];
      assert t[..g] == s[..g];
      CountTrueClearTail(t, g);
    } else {
      assert s[..g] == s;
    }
  }

  /** A line judgement made over `k` entries still holds over more, with flags that
    * agree on every group closed before `k`. */
  lemma LineOkExtend(s: seq<LegendEntry>, r: LineRule, k: int, k': int, breaks: seq<bool>, breaks': seq<bool>,
                     q: int, w: real)
    requires k <= k' <= |s| && k <= |breaks| && k' <= |breaks'|
    requires forall j :: 0 <= j < k && Closes(s, j) ==> breaks'[..j + 1] == breaks[..j + 1]
    requires LineOk(s, r, k, breaks, q, w)
    ensures LineOk(s, r, k', breaks', q, w)
  {
    if w > r.contentWidth {
      var j :| 0 <= j < k && Closes(s, j) && CountTrue(breaks[..j + 1]) == q && w == GroupWidth(s, j, r);
      assert breaks'[..j + 1] == breaks[..j + 1];
    }
  }

  /** An entry that does not close its group, or a group that fits on the open line,
    * adds a clear flag and no closed line. */
  lemma KeepStep(s: seq<LegendEntry>, r: LineRule, k: int, st: LineState, current': real)
    requires 0 <= k < |s|
    requires BreaksOk(s, r, k, st) && LinesOk(s, r, k, st)
    requires r.wordWrapEnabled ==>
      current' == 0.0 || current' == st.current || LineOk(s, r, k + 1, st.breaks + [false], |st.closed|, current')
    ensures BreaksOk(s, r, k + 1, LineState(st.closed, current', st.breaks + [false]))
    ensures LinesOk(s, r, k + 1, LineState(st.closed, current', st.breaks + [false]))
  {
    var b := st.breaks + [false];
    CountTrueSnoc(st.breaks, false);
    forall p | 0 <= p <= k
      ensures b[..p] == st.breaks[..p]
    {
    }
    forall j | 0 <= j < k && Closes(s, j)
      ensures b[..j + 1] == st.breaks[..j + 1]
    {
    }
    if r.wordWrapEnabled {
      forall q | 0 <= q < |st.closed|
        ensures LineOk(s, r, k + 1, b, q, st.closed[q])
      {
        LineOkExtend(s, r, k, k + 1, st.breaks, b, q, st.closed[q]);
      }
      if current' == st.current && current' != 0.0 {
        LineOkExtend(s, r, k, k + 1, st.breaks, b, |st.closed|, current');
      }
    }
  }

  /** The flags a group that closes at `k` finds: none in the group itself, and every
    * earlier one before the group's first entry. */
  lemma GroupFlagsClear(s: seq<LegendEntry>, r: LineRule, k: int, st: LineState)
    requires 0 <= k < |s| && Closes(s, k) && BreaksOk(s, r, k, st)
    ensures forall p :: GroupStart(s, k) <= p < k ==> !st.breaks[p]
    ensures forall p :: 0 <= p < k && st.breaks[p] ==> p < GroupStart(s, k)
    ensures forall j :: 0 <= j < k && Closes(s, j) ==> j < GroupStart(s, k)
  {
    forall p | GroupStart(s, k) <= p < k
      ensures !st.breaks[p]
    {
      GroupCloseInGroup(s, k, p);
    }
    forall j | 0 <= j < k && Closes(s, j)
      ensures j < GroupStart(s, k)
    {
      GroupStartAfterLabel(s, j, k);
    }
    forall p | 0 <= p < k && st.breaks[p]
      ensures p < GroupStart(s, k)
    {
      GroupStartAfterLabel(s, GroupClose(s, p), k);
    }
  }

  /** Flagging the first entry of the group that closes at `k` adds one break, and
    * the breaks before that entry are those of the closed lines. */
  lemma BreakCount(s: seq<LegendEntry>, r: LineRule, k: int, st: LineState)
    requires 0 <= k < |s| && Closes(s, k) && BreaksOk(s, r, k, st)
    ensures var b' := (st.breaks + [false])[GroupStart(s, k) := true];
      CountTrue(b') == |st.closed| + 1 && CountTrue(b'[..GroupStart(s, k)]) == |st.closed|
  {
    var g := GroupStart(s, k);
    var b := st.breaks + [false];
    GroupFlagsClear(s, r, k, st);
    CountTrueSnoc(st.breaks, false);
    FlagsClearFrom(b, g, k);
    BreakCountAt(b, g);
  }

  /** The flags of `st.breaks + [false]` from the group's first entry on are clear. */
  lemma FlagsClearFrom(b: seq<bool>, g: int, k: int)
    requires 0 <= g <= k && |b| == k + 1 && !b[k]
    requires forall p :: g <= p < k ==> !b[p]
    ensures forall p :: g <= p < |b| ==> !b[p]
  {
  }

  /** Setting a flag at `g`, with every flag from `g` on clear, adds one to the count,
    * and the prefix before `g` counts all the earlier ones. */
  lemma BreakCountAt(b: seq<bool>, g: int)
    requires 0 <= g < |b|
    requires forall p :: g <= p < |b| ==> !b[p]
    ensures CountTrue(b[g := true]) == CountTrue(b) + 1
    ensures CountTrue(b[g := true][..g]) == CountTrue(b)
  {
    var b' := b[g := true];
    assert b[..|b|] == b && b'[..|b|] == b';
    CountTrueUpdate(b, g, |b|);
    CountTrueUpdate(b, g, g);
    CountTrueClearTail(b, g);
  }

  /** After a break at the group that closes at `k`, the flags of every group closed
    * before are as they were. */
  lemma BreakKeepsEarlier(s: seq<LegendEntry>, r: LineRule, k: int, st: LineState)
    requires 0 <= k < |s| && Closes(s, k) && BreaksOk(s, r, k, st)
    ensures var b' := (st.breaks + [false])[GroupStart(s, k) := true];
      (forall j :: 0 <= j < k && Closes(s, j) ==> b'[..j + 1] == st.breaks[..j + 1]) &&
      (forall p :: 0 <= p < k && st.breaks[p] ==> b'[..p] == st.breaks[..p])
  {
    var g := GroupStart(s, k);
    var b := st.breaks + [false];
    var b' := b[g := true];
    GroupFlagsClear(s, r, k, st);
    forall j | 0 <= j < k && Closes(s, j)
      ensures b'[..j + 1] == st.breaks[..j + 1]
    {
      assert b'[..j + 1] == b[..j + 1];
    }
    forall p | 0 <= p < k && st.breaks[p]
      ensures b'[..p] == st.breaks[..p]
    {
      assert b'[..p] == b[..p];
    }
  }

  /** A group that closes at `k` and does not fit closes the open line and flags its
    * first entry. */
  lemma BreakStep(s: seq<LegendEntry>, r: LineRule, k: int, st: LineState)
    requires 0 <= k < |s| && Closes(s, k)
    requires BreaksOk(s, r, k, st) && LinesOk(s, r, k, st)
    requires !Fits(st.current, GroupWidth(s, k, r), r.contentWidth, r.metrics.xEntrySpace, r.wordWrapEnabled)
    ensures var st' := LineState(st.closed + [st.current], GroupWidth(s, k, r), (st.breaks + [false])[GroupStart(s, k) := true]);
      BreaksOk(s, r, k + 1, st') && LinesOk(s, r, k + 1, st') &&
      LineOk(s, r, k + 1, st'.breaks, |st'.closed|, st'.current)
  {
    BreakStepFlags(s, r, k, st);
    BreakStepLines(s, r, k, st);
  }

  /** The flag half of `BreakStep`. */
  lemma BreakStepFlags(s: seq<LegendEntry>, r: LineRule, k: int, st: LineState)
    requires 0 <= k < |s| && Closes(s, k)
    requires BreaksOk(s, r, k, st)
    requires !Fits(st.current, GroupWidth(s, k, r), r.contentWidth, r.metrics.xEntrySpace, r.wordWrapEnabled)
    ensures var st' := LineState(st.closed + [st.current], GroupWidth(s, k, r), (st.breaks + [false])[GroupStart(s, k) := true]);
      BreaksOk(s, r, k + 1, st')
  {
    var b' := (st.breaks + [false])[GroupStart(s, k) := true];
    BreakCount(s, r, k, st);
    BreakFlags(s, r, k, st);
    assert b'[..k + 1] == b';
  }

  /** The line half of `BreakStep`. */
  lemma BreakStepLines(s: seq<LegendEntry>, r: LineRule, k: int, st: LineState)
    requires 0 <= k < |s| && Closes(s, k)
    requires BreaksOk(s, r, k, st) && LinesOk(s, r, k, st)
    requires !Fits(st.current, GroupWidth(s, k, r), r.contentWidth, r.metrics.xEntrySpace, r.wordWrapEnabled)
    ensures var st' := LineState(st.closed + [st.current], GroupWidth(s, k, r), (st.breaks + [false])[GroupStart(s, k) := true]);
      LinesOk(s, r, k + 1, st') && LineOk(s, r, k + 1, st'.breaks, |st'.closed|, st'.current)
  {
    var g := GroupStart(s, k);
    var b' := (st.breaks + [false])[g := true];
    var closed' := st.closed + [st.current];
    BreakCount(s, r, k, st);
    BreakKeepsEarlier(s, r, k, st);
    forall q | 0 <= q < |st.closed|
      ensures LineOk(s, r, k + 1, b', q, closed'[q])
    {
      LineOkExtend(s, r, k, k + 1, st.breaks, b', q, st.closed[q]);
    }
    LineOkExtend(s, r, k, k + 1, st.breaks, b', |st.closed|, st.current);
    assert b'[..k + 1] == b';
  }

  /** After a break at the group that closes at `k`, every flag is justified. */
  lemma BreakFlags(s: seq<LegendEntry>, r: LineRule, k: int, st: LineState)
    requires 0 <= k < |s| && Closes(s, k)
    requires BreaksOk(s, r, k, st)
    requires !Fits(st.current, GroupWidth(s, k, r), r.contentWidth, r.metrics.xEntrySpace, r.wordWrapEnabled)
    ensures var b' := (st.breaks + [false])[GroupStart(s, k) := true];
      forall p :: 0 <= p < k + 1 && b'[p] ==>
        GroupClose(s, p) < k + 1 && BreakJustified(s, r, b', st.closed + [st.current], p)
  {
    var g := GroupStart(s, k);
    var b := st.breaks + [false];
    var b' := b[g := true];
    var closed' := st.closed + [st.current];
    BreakCount(s, r, k, st);
    BreakKeepsEarlier(s, r, k, st);
    GroupCloseInGroup(s, k, g);
    forall p | 0 <= p < k + 1 && b'[p]
      ensures GroupClose(s, p) < k + 1 && BreakJustified(s, r, b', closed', p)
    {
      if p != g {
        assert st.breaks[p];
        assert BreakJustified(s, r, st.breaks, st.closed, p);
      }
    }
  }

  /** A group that closes at `k` and fits extends the open line, which then fits or
    * holds that group alone. */
  lemma FitStep(s: seq<LegendEntry>, r: LineRule, k: int, st: LineState)
    requires 0 <= k < |s| && Closes(s, k)
    requires BreaksOk(s, r, k, st) && LinesOk(s, r, k, st)
    requires Fits(st.current, GroupWidth(s, k, r), r.contentWidth, r.metrics.xEntrySpace, r.wordWrapEnabled)
    ensures var c' := st.current + (if st.current == 0.0 then 0.0 else r.metrics.xEntrySpace) + GroupWidth(s, k, r);
      var st' := LineState(st.closed, c', st.breaks + [false]);
      BreaksOk(s, r, k + 1, st') && LinesOk(s, r, k + 1, st') &&
      (r.wordWrapEnabled ==> LineOk(s, r, k + 1, st'.breaks, |st'.closed|, c'))
  {
    var w := GroupWidth(s, k, r);
    var c' := st.current + (if st.current == 0.0 then 0.0 else r.metrics.xEntrySpace) + w;
    var b := st.breaks + [false];
    if r.wordWrapEnabled && st.current == 0.0 {
      CountTrueSnoc(st.breaks, false);
      assert b[..k + 1] == b;
      assert LineOk(s, r, k + 1, b, |st.closed|, c');
    }
    KeepStep(s, r, k, st, c');
  }

  /** One entry more keeps the invariant, and the open line left by a closing group
    * fits or holds that group alone. */
  lemma LinesStep(s: seq<LegendEntry>, r: LineRule, k: int)
    requires 0 <= k < |s|
    requires BreaksOk(s, r, k, LinesAfter(s, k, r)) && LinesOk(s, r, k, LinesAfter(s, k, r))
    ensures BreaksOk(s, r, k + 1, LinesAfter(s, k + 1, r)) && LinesOk(s, r, k + 1, LinesAfter(s, k + 1, r))
    ensures Closes(s, k) && r.wordWrapEnabled ==>
      LineOk(s, r, k + 1, LinesAfter(s, k + 1, r).breaks, |LinesAfter(s, k + 1, r).closed|, LinesAfter(s, k + 1, r).current)
  {
    var st := LinesAfter(s, k, r);
    var w := GroupWidth(s, k, r);
    var x := r.metrics.xEntrySpace;
    if !Closes(s, k) {
      assert LinesAfter(s, k + 1, r) == LineState(st.closed, st.current, st.breaks + [false]);
      KeepStep(s, r, k, st, st.current);
    } else if Fits(st.current, w, r.contentWidth, x, r.wordWrapEnabled) {
      assert LinesAfter(s, k + 1, r) ==
        LineState(st.closed, st.current + (if st.current == 0.0 then 0.0 else x) + w, st.breaks + [false]);
      FitStep(s, r, k, st);
    } else {
      assert LinesAfter(s, k + 1, r) ==
        LineState(st.closed + [st.current], w, (st.breaks + [false])[GroupStart(s, k) := true]);
      BreakStep(s, r, k, st);
    }
  }

  /** The invariant holds after every prefix. */
  lemma {:induction false} LinesInvAfter(s: seq<LegendEntry>, r: LineRule, k: int)
    requires 0 <= k <= |s|
    ensures BreaksOk(s, r, k, LinesAfter(s, k, r)) && LinesOk(s, r, k, LinesAfter(s, k, r))
    decreases k
  {
    if k > 0 {
      LinesInvAfter(s, r, k - 1);
      LinesStep(s, r, k - 1);
    }
  }

  /** The greedy line filling breaks lines only where a group does not fit, and with
    * word wrap a line overflows `contentWidth` only by the one group on it. */
  lemma LinesFilledGreedily(s: seq<LegendEntry>, r: LineRule)
    ensures FilledGreedily(s, r, LinesAfter(s, |s|, r).breaks, LineWidths(s, r))
  {
    var n := |s|;
    if n > 0 {
      LinesInvAfter(s, r, n - 1);
      LinesStep(s, r, n - 1);
      var st := LinesAfter(s, n, r);
      var lines := LineWidths(s, r);
      forall p | 0 <= p < n && st.breaks[p]
        ensures BreakJustified(s, r, st.breaks, lines, p)
      {
        assert BreakJustified(s, r, st.breaks, st.closed, p);
      }
    }
  }

  /** A line may hold two groups and still be wider than the content width: after a
    * group of width 0 the line is still empty, so the next group must fit however
    * wide it is. Such a line is exactly as wide as one group on it. */
  lemma OverfullLineAfterEmptyGroup()
    ensures var s := [LegendEntry(Some(""), NoForm, None), LegendEntry(Some("wide"), NoForm, None)];
      var r := LineRule(t => Size(if t == "wide" then 100.0 else 0.0, 10.0), Metrics(8.0, 5.0, 6.0, 3.0), 50.0, true);
      LinesAfter(s, 2, r).breaks == [false, false] && LineWidths(s, r) == [100.0] &&
      LineWidths(s, r)[0] > r.contentWidth && LineWidths(s, r)[0] == GroupWidth(s, 1, r)
  {
    var s := [LegendEntry(Some(""), NoForm, None), LegendEntry(Some("wide"), NoForm, None)];
    var r := LineRule(t => Size(if t == "wide" then 100.0 else 0.0, 10.0), Metrics(8.0, 5.0, 6.0, 3.0), 50.0, true);
    assert GroupWidth(s, 0, r) == 0.0;
    assert GroupWidth(s, 1, r) == 100.0;
    assert LinesAfter(s, 1, r) == LineState([], 0.0, [false]);
    assert LinesAfter(s, 2, r) == LineState([], 100.0, [false, false]);
  }

  /** The measured size of every entry, zero for one without a label. */
  function LabelSizes(entries: seq<LegendEntry>, measure: string -> Size): (r: seq<Size>)
    ensures |r| == |entries|
    ensures forall k :: 0 <= k < |entries| ==> r[k] == LabelSizeOf(entries[k], measure)
  {
    seq(|entries|, k requires 0 <= k < |entries| => LabelSizeOf(entries[k], measure))
  }

  /** The four results of the horizontal layout. */
  datatype Layout = Layout(labelSizes: seq<Size>, breakPoints: seq<bool>, lineSizes: seq<Size>, maxLineWidth: real)

  /** The horizontal layout's outcome: a measured size per entry, and the break flags,
    * lines and widest line of the greedy filling, which `FilledGreedily` describes
    * (`LinesFilledGreedily`). */
  function LayoutOf(entries: seq<LegendEntry>, r: LineRule, lineHeight: real): Layout
  {
    Layout(LabelSizes(entries, r.measure), LinesAfter(entries, |entries|, r).breaks,
           Sized(LineWidths(entries, r), lineHeight), MaxOf(LineWidths(entries, r)))
  }

  /** The given results are those of the horizontal layout. */
  ghost predicate LinesLaidOut(entries: seq<LegendEntry>, r: LineRule, lineHeight: real, labelSizes: seq<Size>,
                               breakPoints: seq<bool>, lineSizes: seq<Size>, maxLineWidth: real)
  {
    Layout(labelSizes, breakPoints, lineSizes, maxLineWidth) == LayoutOf(entries, r, lineHeight)
  }

  /** Placing the group `requiredWidth` wide whose first entry is `mark`: it extends
    * the current line when word wrap is off, the line is empty, or it fits;
    * otherwise the current line is closed and `mark` is flagged as a break. The
    * group that ends the list closes one more line. */
  method PlaceGroup(breakPoints: seq<bool>, lineSizes: seq<Size>, maxLineWidth: real, currentLineWidth: real,
                    requiredWidth: real, mark: int, last: bool,
                    lineHeight: real, contentWidth: real, xEntrySpace: real, wordWrapEnabled: bool)
    returns (breakPoints': seq<bool>, lineSizes': seq<Size>, maxLineWidth': real, currentLineWidth': real)
    requires 0 <= mark < |breakPoints| && !breakPoints[mark]
    ensures breakPoints' == breakPoints[mark := true] <==>
      wordWrapEnabled && currentLineWidth != 0.0 && contentWidth - currentLineWidth < xEntrySpace + requiredWidth
    ensures breakPoints' == breakPoints || breakPoints' == breakPoints[mark := true]
    ensures var fits := Fits(currentLineWidth, requiredWidth, contentWidth, xEntrySpace, wordWrapEnabled);
      var closedNow := if fits then [] else [currentLineWidth];
      var lastLine := if last then [currentLineWidth'] else [];
      var m1 := if fits then maxLineWidth else Max(maxLineWidth, currentLineWidth);
      currentLineWidth' ==
        (if fits then currentLineWidth + (if currentLineWidth == 0.0 then 0.0 else xEntrySpace) + requiredWidth
         else requiredWidth) &&
      lineSizes' == lineSizes + Sized(closedNow + lastLine, lineHeight) &&
      maxLineWidth' == (if last then Max(m1, currentLineWidth') else m1)
  {
    breakPoints', lineSizes', maxLineWidth', currentLineWidth' := breakPoints, lineSizes, maxLineWidth, currentLineWidth;
    var requiredSpacing := if currentLineWidth == 0.0 then 0.0 else xEntrySpace;
    if !wordWrapEnabled || currentLineWidth == 0.0 || contentWidth - currentLineWidth >= requiredSpacing + requiredWidth {
      currentLineWidth' := currentLineWidth + requiredSpacing + requiredWidth;
    } else {
      lineSizes' := lineSizes + [Size(currentLineWidth, lineHeight)];
      maxLineWidth' := Max(maxLineWidth, currentLineWidth);
      breakPoints' := breakPoints[mark := true];
      currentLineWidth' := requiredWidth;
      assert breakPoints'[mark] != breakPoints[mark];
    }
    if last {
      lineSizes' := lineSizes' + [Size(currentLineWidth', lineHeight)];
      maxLineWidth' := Max(maxLineWidth', currentLineWidth');
    }
  }

  /** The horizontal branch of `calculateDimensions`: lines filled left to right,
    * wrapping (when enabled) before the entry, or the stacked group it closes, that
    * no longer fits. The flag arrays are reallocated only when their length differs
    * from the entry count, and every flag is then rewritten. */
  method HorizontalLayout(entries: seq<LegendEntry>, labelSizes0: seq<Size>, breakPoints0: seq<bool>,
                          lineHeight: real, contentWidth: real, m: Metrics, wordWrapEnabled: bool,
                          measure: string -> Size)
    returns (labelSizes: seq<Size>, breakPoints: seq<bool>, lineSizes: seq<Size>, maxLineWidth: real)
    ensures LinesLaidOut(entries, LineRule(measure, m, contentWidth, wordWrapEnabled), lineHeight,
                         labelSizes, breakPoints, lineSizes, maxLineWidth)
  {
    ghost var r := LineRule(measure, m, contentWidth, wordWrapEnabled);
    var n := |entries|;
    labelSizes := if |labelSizes0| != n then seq(n, _ => Size(0.0, 0.0)) else labelSizes0;
    breakPoints := if |breakPoints0| != n then seq(n, _ => false) else breakPoints0;
    lineSizes := [];
    maxLineWidth := 0.0;
    var currentLineWidth := 0.0;
    var requiredWidth := 0.0;
    var stackedStartIndex := -1;
    var i := 0;
    while i < n
      invariant 0 <= i <= n
      invariant HorizontalInv(entries, r, lineHeight, i, labelSizes, breakPoints, lineSizes, maxLineWidth,
                              currentLineWidth, requiredWidth, stackedStartIndex)
    {
      labelSizes, breakPoints, lineSizes, maxLineWidth, currentLineWidth, requiredWidth, stackedStartIndex :=
        HorizontalEntry(entries, i, lineHeight, contentWidth, m, wordWrapEnabled, measure, labelSizes, breakPoints,
                        lineSizes, maxLineWidth, currentLineWidth, requiredWidth, stackedStartIndex);
      i := i + 1;
    }
    assert breakPoints[..n] == breakPoints;
    assert labelSizes == LabelSizes(entries, measure);
  }

  /** The horizontal loop's state after `i` entries: the sizes of the labels seen,
    * and the flags, lines, open line and pending group of the greedy filling. */
  ghost predicate HorizontalInv(entries: seq<LegendEntry>, r: LineRule, lineHeight: real, i: int,
                                labelSizes: seq<Size>, breakPoints: seq<bool>, lineSizes: seq<Size>,
                                maxLineWidth: real, currentLineWidth: real, requiredWidth: real,
                                stackedStartIndex: int)
    requires 0 <= i <= |entries|
  {
    var st := LinesAfter(entries, i, r);
    var lines := st.closed + (if i == |entries| && i > 0 then [currentLineWidth] else []);
    |labelSizes| == |entries| && |breakPoints| == |entries| &&
    (forall k :: 0 <= k < i ==> labelSizes[k] == LabelSizeOf(entries[k], r.measure)) &&
    breakPoints[..i] == st.breaks && currentLineWidth == st.current &&
    lineSizes == Sized(lines, lineHeight) && maxLineWidth == MaxOf(lines) &&
    (i > 0 ==> requiredWidth == PendingWidth(entries, i - 1, r.measure, r.metrics)) &&
    stackedStartIndex == (if i > 0 && entries[i - 1].labelText.None? then GroupStart(entries, i - 1) else -1)
  }

  /** One pass of the horizontal loop, for entry `i`: its flag is cleared and its
    * label measured, its width joins the pending group, and a closing entry places
    * the group. */
  method HorizontalEntry(entries: seq<LegendEntry>, i: int, lineHeight: real, contentWidth: real, m: Metrics,
                         wordWrapEnabled: bool, measure: string -> Size,
                         labelSizes: seq<Size>, breakPoints: seq<bool>, lineSizes: seq<Size>, maxLineWidth: real,
                         currentLineWidth: real, requiredWidth: real, stackedStartIndex: int)
    returns (labelSizes': seq<Size>, breakPoints': seq<bool>, lineSizes': seq<Size>, maxLineWidth': real,
             currentLineWidth': real, requiredWidth': real, stackedStartIndex': int)
    requires 0 <= i < |entries|
    requires HorizontalInv(entries, LineRule(measure, m, contentWidth, wordWrapEnabled), lineHeight, i,
                           labelSizes, breakPoints, lineSizes, maxLineWidth,
                           currentLineWidth, requiredWidth, stackedStartIndex)
    ensures HorizontalInv(entries, LineRule(measure, m, contentWidth, wordWrapEnabled), lineHeight, i + 1,
                          labelSizes', breakPoints', lineSizes', maxLineWidth',
                          currentLineWidth', requiredWidth', stackedStartIndex')
  {
    ghost var r := LineRule(measure, m, contentWidth, wordWrapEnabled);
    ghost var st := LinesAfter(entries, i, r);
    var n := |entries|;
    var e := entries[i];
    assert st.closed + (if i == n && i > 0 then [currentLineWidth] else []) == st.closed;
    labelSizes', breakPoints', lineSizes', maxLineWidth', currentLineWidth', requiredWidth', stackedStartIndex' :=
      labelSizes, breakPoints, lineSizes, maxLineWidth, currentLineWidth, requiredWidth, stackedStartIndex;
    breakPoints' := breakPoints'[i := false];
    assert breakPoints'[..i] == st.breaks;
    labelSizes' := labelSizes'[i := LabelSizeOf(e, measure)];
    requiredWidth' := RequiredWidth(e, stackedStartIndex' != -1, requiredWidth', LabelSizeOf(e, measure).width,
                                    m.formSize, m.formToTextSpace, m.stackSpace);
    if e.labelText.None? && stackedStartIndex' == -1 {
      stackedStartIndex' := i;
    }
    if e.labelText.Some? || i == n - 1 {
      var mark := if stackedStartIndex' > -1 then stackedStartIndex' else i;
      assert mark == GroupStart(entries, i);
      ghost var bp := breakPoints';
      GroupMarkClear(entries, r, i, bp);
      breakPoints', lineSizes', maxLineWidth', currentLineWidth' :=
        PlaceGroup(breakPoints', lineSizes', maxLineWidth', currentLineWidth', requiredWidth', mark, i == n - 1,
                   lineHeight, contentWidth, m.xEntrySpace, wordWrapEnabled);
      GroupPlaced(entries, r, lineHeight, i, bp, lineSizes, maxLineWidth,
                  breakPoints', lineSizes', maxLineWidth', currentLineWidth');
    } else {
      assert breakPoints'[..i + 1] == st.breaks + [false];
    }
    stackedStartIndex' := if e.labelText.Some? then -1 else stackedStartIndex';
  }

  /** The flag of the entry that starts the group `i` closes is still clear. */
  lemma GroupMarkClear(entries: seq<LegendEntry>, r: LineRule, i: int, breakPoints: seq<bool>)
    requires 0 <= i < |entries| && Closes(entries, i)
    requires |breakPoints| == |entries| && breakPoints[..i] == LinesAfter(entries, i, r).breaks && !breakPoints[i]
    ensures !breakPoints[GroupStart(entries, i)]
  {
    var st := LinesAfter(entries, i, r);
    LinesInvAfter(entries, r, i);
    GroupFlagsClear(entries, r, i, st);
    if GroupStart(entries, i) < i {
      assert breakPoints[GroupStart(entries, i)] == st.breaks[GroupStart(entries, i)];
    }
  }

  /** Placing the group that entry `i` closes, as `PlaceGroup` does, moves the
    * flags, the line sizes, the widest line and the current line from the greedy
    * filling after `i` entries to the one after `i + 1`. */
  lemma GroupPlaced(entries: seq<LegendEntry>, r: LineRule, lineHeight: real, i: int,
                    breakPoints: seq<bool>, lineSizes: seq<Size>, maxLineWidth: real,
                    breakPoints': seq<bool>, lineSizes': seq<Size>, maxLineWidth': real, currentLineWidth': real)
    requires 0 <= i < |entries| && Closes(entries, i)
    requires var st := LinesAfter(entries, i, r);
      |breakPoints| == |entries| && breakPoints[..i] == st.breaks && !breakPoints[i] &&
      lineSizes == Sized(st.closed, lineHeight) && maxLineWidth == MaxOf(st.closed)
    requires var st := LinesAfter(entries, i, r);
      var w := GroupWidth(entries, i, r);
      var fits := Fits(st.current, w, r.contentWidth, r.metrics.xEntrySpace, r.wordWrapEnabled);
      var closedNow := if fits then [] else [st.current];
      var lastLine := if i == |entries| - 1 then [currentLineWidth'] else [];
      var m1 := if fits then maxLineWidth else Max(maxLineWidth, st.current);
      (breakPoints' == breakPoints[GroupStart(entries, i) := true] <==> !fits) &&
      (breakPoints' == breakPoints || breakPoints' == breakPoints[GroupStart(entries, i) := true]) &&
      currentLineWidth' ==
        (if fits then st.current + (if st.current == 0.0 then 0.0 else r.metrics.xEntrySpace) + w else w) &&
      lineSizes' == lineSizes + Sized(closedNow + lastLine, lineHeight) &&
      maxLineWidth' == (if i == |entries| - 1 then Max(m1, currentLineWidth') else m1)
    ensures var st' := LinesAfter(entries, i + 1, r);
      var lines := st'.closed + (if i + 1 == |entries| then [currentLineWidth'] else []);
      breakPoints'[..i + 1] == st'.breaks && currentLineWidth' == st'.current &&
      lineSizes' == Sized(lines, lineHeight) && maxLineWidth' == MaxOf(lines)
  {
    var st := LinesAfter(entries, i, r);
    var st' := LinesAfter(entries, i + 1, r);
    var w := GroupWidth(entries, i, r);
    var fits := Fits(st.current, w, r.contentWidth, r.metrics.xEntrySpace, r.wordWrapEnabled);
    PlacedFlags(entries, r, i, breakPoints, breakPoints', fits);
    var closedNow := if fits then [] else [st.current];
    var lastLine := if i == |entries| - 1 then [currentLineWidth'] else [];
    assert st'.closed == st.closed + closedNow && st'.current == currentLineWidth';
    assert st.closed + closedNow + lastLine == st'.closed + (if i + 1 == |entries| then [currentLineWidth'] else []);
    PlacedLines(st.closed, closedNow, lastLine, lineHeight, maxLineWidth,
                if fits then maxLineWidth else Max(maxLineWidth, st.current), maxLineWidth');
  }

  /** The flags `PlaceGroup` leaves are those of the filling after `i + 1` entries. */
  lemma PlacedFlags(entries: seq<LegendEntry>, r: LineRule, i: int, breakPoints: seq<bool>, breakPoints': seq<bool>,
                    fits: bool)
    requires 0 <= i < |entries| && Closes(entries, i)
    requires fits == Fits(LinesAfter(entries, i, r).current, GroupWidth(entries, i, r), r.contentWidth,
                          r.metrics.xEntrySpace, r.wordWrapEnabled)
    requires |breakPoints| == |entries| && breakPoints[..i] == LinesAfter(entries, i, r).breaks && !breakPoints[i]
    requires breakPoints' == breakPoints[GroupStart(entries, i) := true] <==> !fits
    requires breakPoints' == breakPoints || breakPoints' == breakPoints[GroupStart(entries, i) := true]
    ensures breakPoints'[..i + 1] == LinesAfter(entries, i + 1, r).breaks
  {
    var st := LinesAfter(entries, i, r);
    var g := GroupStart(entries, i);
    assert breakPoints[..i + 1] == st.breaks + [false];
    if fits {
      assert breakPoints' != breakPoints[g := true];
    } else {
      GroupMarkClear(entries, r, i, breakPoints);
      assert breakPoints'[..i + 1] == (st.breaks + [false])[g := true];
    }
  }

  /** Appending at most one closed line and at most the last line to the lines so
    * far keeps the sizes and the widest line in step with the widths. */
  lemma PlacedLines(closed: seq<real>, closedNow: seq<real>, lastLine: seq<real>, lineHeight: real,
                    maxLineWidth: real, m1: real, maxLineWidth': real)
    requires |closedNow| <= 1 && |lastLine| <= 1
    requires maxLineWidth == MaxOf(closed)
    requires m1 == (if closedNow == [] then maxLineWidth else Max(maxLineWidth, closedNow[0]))
    requires maxLineWidth' == (if lastLine == [] then m1 else Max(m1, lastLine[0]))
    ensures Sized(closed + closedNow + lastLine, lineHeight) ==
      Sized(closed, lineHeight) + Sized(closedNow + lastLine, lineHeight)
    ensures maxLineWidth' == MaxOf(closed + closedNow + lastLine)
  {
    assert closed + closedNow + lastLine == closed + (closedNow + lastLine);
    SizedAppend(closed, closedNow + lastLine, lineHeight);
    if closedNow != [] {
      assert closedNow == [closedNow[0]];
      MaxOfSnoc(closed, closedNow[0]);
    } else {
      assert closed + closedNow == closed;
    }
    if lastLine != [] {
      assert lastLine == [lastLine[0]];
      MaxOfSnoc(closed + closedNow, lastLine[0]);
    } else {
      assert closed + closedNow + lastLine == closed + closedNow;
    }
  }

  lemma SizedAppend(a: seq<real>, b: seq<real>, lineHeight: real)
    ensures Sized(a + b, lineHeight) == Sized(a, lineHeight) + Sized(b, lineHeight)
  {
  }

  /** Entry `i` follows an entry without a label: the vertical loop's `wasStacked`. */
  predicate AfterStacked(s: seq<LegendEntry>, i: int)
    requires 0 <= i < |s|
  {
    i > 0 && s[i - 1].labelText.None?
  }

  /** The width of the row being built once the form of entry `i` is added, before
    * its label: the stacked row it continues, or a fresh row. */
  function FormRowWidth(s: seq<LegendEntry>, i: int, m: Metrics, measure: string -> Size): real
    requires 0 <= i < |s|
    decreases i, 0
  {
    var stacked := AfterStacked(s, i);
    var base := if stacked then RowWidth(s, i - 1, m, measure) else 0.0;
    if s[i].form != NoForm then base + (if stacked then m.stackSpace else 0.0) + FormSizeOf(s[i], m.formSize)
    else base
  }

  /** The width of the row being built once entry `i` is laid out vertically: a
    * label that closes a stacked group starts a row of its own, a label after its
    * own form adds the form-to-text space, and an entry without a label extends the
    * stacked row by its form and, unless it is the last, the stack space. */
  function RowWidth(s: seq<LegendEntry>, i: int, m: Metrics, measure: string -> Size): real
    requires 0 <= i < |s|
    decreases i, 1
  {
    var e := s[i];
    var w := FormRowWidth(s, i, m, measure);
    if e.labelText.Some? then
      var labelWidth := measure(e.labelText.value).width;
      if AfterStacked(s, i) then labelWidth
      else if e.form != NoForm then w + m.formToTextSpace + labelWidth
      else w + labelWidth
    else w + FormSizeOf(e, m.formSize) + (if i < |s| - 1 then m.stackSpace else 0.0)
  }

  /** The row widths the vertical layout reaches over the first `k` entries, in
    * order: for a label that closes a stacked group the finished stacked row, and
    * for every entry the row it leaves. */
  function RowWidthsUpTo(s: seq<LegendEntry>, k: int, m: Metrics, measure: string -> Size): seq<real>
    requires 0 <= k <= |s|
  {
    if k == 0 then []
    else
      var i := k - 1;
      RowWidthsUpTo(s, i, m, measure) +
      (if s[i].labelText.Some? && AfterStacked(s, i) then [FormRowWidth(s, i, m, measure)] else []) +
      [RowWidth(s, i, m, measure)]
  }

  /** Every row width the vertical layout reaches. */
  function RowWidths(s: seq<LegendEntry>, m: Metrics, measure: string -> Size): seq<real>
  {
    RowWidthsUpTo(s, |s|, m, measure)
  }

  /** One entry more widens the widest row by the rows that entry finishes. */
  lemma WidestRowStep(s: seq<LegendEntry>, i: int, m: Metrics, measure: string -> Size)
    requires 0 <= i < |s|
    ensures MaxOf(RowWidthsUpTo(s, i + 1, m, measure)) ==
      Max(if s[i].labelText.Some? && AfterStacked(s, i)
          then Max(MaxOf(RowWidthsUpTo(s, i, m, measure)), FormRowWidth(s, i, m, measure))
          else MaxOf(RowWidthsUpTo(s, i, m, measure)),
          RowWidth(s, i, m, measure))
  {
    var before := RowWidthsUpTo(s, i, m, measure);
    var closing := if s[i].labelText.Some? && AfterStacked(s, i) then [FormRowWidth(s, i, m, measure)] else [];
    assert RowWidthsUpTo(s, i + 1, m, measure) == before + closing + [RowWidth(s, i, m, measure)];
    MaxOfSnoc(before + closing, RowWidth(s, i, m, measure));
    if closing != [] {
      MaxOfSnoc(before, FormRowWidth(s, i, m, measure));
    } else {
      assert before + closing == before;
    }
  }

  /** The vertical branch of `calculateDimensions`: one row per labelled entry, and a
    * further row for a label that closes a stacked group; the width is the widest
    * row, or 0 when no row is wider. */
  method VerticalLayout(entries: seq<LegendEntry>, lineHeight: real, m: Metrics, yEntrySpace: real,
                        measure: string -> Size)
    returns (maxWidth: real, maxHeight: real)
    ensures maxWidth == MaxOf(RowWidths(entries, m, measure))
    ensures maxHeight == Stacked(lineHeight + yEntrySpace, VerticalRows(entries))
  {
    var n := |entries|;
    maxWidth := 0.0;
    var width := 0.0;
    maxHeight := 0.0;
    var wasStacked := false;
    var i := 0;
    while i < n
      invariant 0 <= i <= n
      invariant wasStacked == (i > 0 && entries[i - 1].labelText.None?)
      invariant i > 0 ==> width == RowWidth(entries, i - 1, m, measure)
      invariant maxHeight == Stacked(lineHeight + yEntrySpace, VerticalRows(entries[..i]))
      invariant maxWidth == MaxOf(RowWidthsUpTo(entries, i, m, measure))
    {
      width, maxWidth, maxHeight, wasStacked :=
        VerticalEntry(entries, i, width, maxWidth, maxHeight, wasStacked, lineHeight, m, yEntrySpace, measure);
      i := i + 1;
    }
    assert entries[..n] == entries;
  }

  /** One pass of the vertical loop, for entry `i`: the row width grows by the
    * entry's form and label, a label that closes a stacked group first finishes
    * the stacked row, and the height grows by a row per row finished. */
  method VerticalEntry(entries: seq<LegendEntry>, i: int, width: real, maxWidth: real, maxHeight: real,
                       wasStacked: bool, lineHeight: real, m: Metrics, yEntrySpace: real, measure: string -> Size)
    returns (width': real, maxWidth': real, maxHeight': real, wasStacked': bool)
    requires 0 <= i < |entries| && wasStacked == AfterStacked(entries, i)
    requires wasStacked ==> width == RowWidth(entries, i - 1, m, measure)
    requires maxHeight == Stacked(lineHeight + yEntrySpace, VerticalRows(entries[..i]))
    requires maxWidth == MaxOf(RowWidthsUpTo(entries, i, m, measure))
    ensures wasStacked' == entries[i].labelText.None?
    ensures width' == RowWidth(entries, i, m, measure)
    ensures maxHeight' == Stacked(lineHeight + yEntrySpace, VerticalRows(entries[..i + 1]))
    ensures maxWidth' == MaxOf(RowWidthsUpTo(entries, i + 1, m, measure))
  {
    VerticalRowsStep(entries, i);
    WidestRowStep(entries, i, m, measure);
    var e := entries[i];
    var drawingForm := e.form != NoForm;
    var formSize := FormSizeOf(e, m.formSize);
    width', maxWidth', maxHeight', wasStacked' := width, maxWidth, maxHeight, wasStacked;
    if !wasStacked {
      width' := 0.0;
    }
    if drawingForm {
      if wasStacked {
        width' := width' + m.stackSpace;
      }
      width' := width' + formSize;
    }
    if e.labelText.Some? {
      var size := measure(e.labelText.value);
      if drawingForm && !wasStacked {
        width' := width' + m.formToTextSpace;
      } else if wasStacked {
        maxWidth' := Max(maxWidth', width');
        maxHeight' := maxHeight' + (lineHeight + yEntrySpace);
        width' := 0.0;
        wasStacked' := false;
      }
      width' := width' + size.width;
      maxHeight' := maxHeight' + (lineHeight + yEntrySpace);
    } else {
      wasStacked' := true;
      width' := width' + formSize;
      if i < |entries| - 1 {
        width' := width' + m.stackSpace;
      }
    }
    maxWidth' := Max(maxWidth', width');
  }

  /** `n` rows of height `h` stacked one on another. */
  function Stacked(h: real, n: nat): real
  {
    if n == 0 then 0.0 else Stacked(h, n - 1) + h
  }

  /** Stacking `n` rows of height `h` is a multiplication. */
  lemma {:induction false} StackedIsProduct(h: real, n: nat)
    ensures Stacked(h, n) == h * (n as real)
  {
    if n > 0 {
      StackedIsProduct(h, n - 1);
      MulSucc(h, n - 1);
    }
  }

  lemma MulSucc(h: real, n: nat)
    ensures h * ((n + 1) as real) == h * (n as real) + h
  {
  }
}
