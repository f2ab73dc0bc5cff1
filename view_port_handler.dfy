/** `ViewPortHandler`: the content rectangle inside the chart's bounds, and the touch
  * matrix whose scale and translation are kept within the configured limits.
  * `CGFloat` is modelled as `real`. */
module ViewPortHandler {
  import opened Common

  /** A `CGAffineTransform`: a point (x, y) goes to (a x + c y + tx, b x + d y + ty). */
  datatype Transform = Transform(a: real, b: real, c: real, d: real, tx: real, ty: real)

  datatype Point = Point(x: real, y: real)

  /** A `CGRect`, by origin and size. */
  datatype Rect = Rect(x: real, y: real, width: real, height: real)

  const Identity := Transform(1.0, 0.0, 0.0, 1.0, 0.0, 0.0)

  function Apply(m: Transform, p: Point): Point
  {
    Point(m.a * p.x + m.c * p.y + m.tx, m.b * p.x + m.d * p.y + m.ty)
  }

  /** `scaledBy(x:y:)`: scale first, then `m`. */
  function ScaledBy(m: Transform, sx: real, sy: real): (r: Transform)
    ensures r.tx == m.tx && r.ty == m.ty
  {
    m.(a := m.a * sx, b := m.b * sx, c := m.c * sy, d := m.d * sy)
  }

  lemma ApplyScaledBy(m: Transform, sx: real, sy: real, p: Point)
    ensures Apply(ScaledBy(m, sx, sy), p) == Apply(m, Point(sx * p.x, sy * p.y))
  {
    var r := ScaledBy(m, sx, sy);
    var q := Point(sx * p.x, sy * p.y);
    Regroup(m.a, m.c, m.tx, sx, sy, p.x, p.y);
    Regroup(m.b, m.d, m.ty, sx, sy, p.x, p.y);
    assert Apply(r, p).x == Apply(m, q).x;
    assert Apply(r, p).y == Apply(m, q).y;
  }

  /** Scaling the coefficients or scaling the coordinates is the same. */
  lemma Regroup(a: real, c: real, t: real, sx: real, sy: real, u: real, v: real)
    ensures (a * sx) * u + (c * sy) * v + t == a * (sx * u) + c * (sy * v) + t
  {
    assert (a * sx) * u == a * (sx * u);
    assert (c * sy) * v == c * (sy * v);
  }

  /** Moving the point or moving the offset is the same. */
  lemma Shift(a: real, c: real, t: real, u: real, v: real, x: real, y: real)
    ensures a * u + c * v + (a * x + c * y + t) == a * (u + x) + c * (v + y) + t
  {
    assert a * (u + x) == a * u + a * x;
    assert c * (v + y) == c * v + c * y;
  }

  /** `translatedBy(x:y:)`: translate first, then `m`. */
  function TranslatedBy(m: Transform, x: real, y: real): (r: Transform)
    ensures r.a == m.a && r.b == m.b && r.c == m.c && r.d == m.d
  {
    m.(tx := m.a * x + m.c * y + m.tx, ty := m.b * x + m.d * y + m.ty)
  }

  lemma ApplyTranslatedBy(m: Transform, x: real, y: real, p: Point)
    ensures Apply(TranslatedBy(m, x, y), p) == Apply(m, Point(p.x + x, p.y + y))
  {
    var r := TranslatedBy(m, x, y);
    var q := Point(p.x + x, p.y + y);
    Shift(m.a, m.c, m.tx, p.x, p.y, x, y);
    Shift(m.b, m.d, m.ty, p.x, p.y, x, y);
    assert Apply(r, p).x == Apply(m, q).x;
    assert Apply(r, p).y == Apply(m, q).y;
  }

  /** `concatenating(CGAffineTransform(translationX:y:))`: `m`, then a translation. */
  function ThenTranslated(m: Transform, x: real, y: real): (r: Transform)
    ensures forall p :: Apply(r, p) == Point(Apply(m, p).x + x, Apply(m, p).y + y)
  {
    m.(tx := m.tx + x, ty := m.ty + y)
  }

  /** `zoom(scaleX:scaleY:x:y:)` from `m`. */
  function ZoomAround(m: Transform, scaleX: real, scaleY: real, x: real, y: real): (r: Transform)
  {
    TranslatedBy(ScaledBy(TranslatedBy(m, x, y), scaleX, scaleY), -x, -y)
  }

  /** Zooming around a centre scales the distance of any point from the centre by
    * the zoom factors before `m` applies. */
  lemma ZoomAroundMapsPoint(m: Transform, scaleX: real, scaleY: real, x: real, y: real, p: Point)
    ensures Apply(ZoomAround(m, scaleX, scaleY, x, y), p) ==
      Apply(m, Point(x + scaleX * (p.x - x), y + scaleY * (p.y - y)))
  {
    var t1 := TranslatedBy(m, x, y);
    var t2 := ScaledBy(t1, scaleX, scaleY);
    var p1 := Point(p.x + -x, p.y + -y);
    var p2 := Point(scaleX * p1.x, scaleY * p1.y);
    ApplyTranslatedBy(t2, -x, -y, p);
    ApplyScaledBy(t1, scaleX, scaleY, p1);
    ApplyTranslatedBy(m, x, y, p2);
    assert Point(p2.x + x, p2.y + y) == Point(x + scaleX * (p.x - x), y + scaleY * (p.y - y));
  }

  /** Zooming around a centre leaves the centre where `m` puts it, and scales the
    * distance of any point from the centre by the zoom factors before `m` applies. */
  lemma ZoomAroundKeepsCentre(m: Transform, scaleX: real, scaleY: real, x: real, y: real, p: Point)
    ensures Apply(ZoomAround(m, scaleX, scaleY, x, y), Point(x, y)) == Apply(m, Point(x, y))
    ensures Apply(ZoomAround(m, scaleX, scaleY, x, y), p) ==
      Apply(m, Point(x + scaleX * (p.x - x), y + scaleY * (p.y - y)))
  {
    ZoomAroundMapsPoint(m, scaleX, scaleY, x, y, p);
    ZoomAroundMapsPoint(m, scaleX, scaleY, x, y, Point(x, y));
    assert scaleX * (x - x) == 0.0 && scaleY * (y - y) == 0.0;
  }

  /** The result of `limitTransAndScale`: the clamped scales and translations. */
  datatype Limited = Limited(scaleX: real, scaleY: real, transX: real, transY: real)

  /** `limitTransAndScale(matrix:content:)` as a value: each scale clamped between its
    * limits, `tx` into `[-width (scaleX - 1) - offsetX, offsetX]` and `ty` into
    * `[-offsetY, height (scaleY - 1) + offsetY]`, the later bound winning when the
    * two cross. */
  function LimitOf(m: Transform, minScaleX: real, maxScaleX: real, minScaleY: real, maxScaleY: real,
                   transOffsetX: real, transOffsetY: real, width: real, height: real): (r: Limited)
  {
    var scaleX := Min(Max(minScaleX, m.a), maxScaleX);
    var scaleY := Min(Max(minScaleY, m.d), maxScaleY);
    var maxTransX := -width * (scaleX - 1.0);
    var maxTransY := height * (scaleY - 1.0);
    Limited(scaleX, scaleY,
            Min(Max(m.tx, maxTransX - transOffsetX), transOffsetX),
            Max(Min(m.ty, maxTransY + transOffsetY), -transOffsetY))
  }

  /** The matrix `limitTransAndScale` writes back. */
  function Limit(m: Transform, l: Limited): Transform
  {
    m.(a := l.scaleX, d := l.scaleY, tx := l.transX, ty := l.transY)
  }

  /** With consistent limits, every clamped value lies within its limits, and a
    * value already within them is kept. */
  lemma LimitWithinBounds(m: Transform, minScaleX: real, maxScaleX: real, minScaleY: real, maxScaleY: real,
                          transOffsetX: real, transOffsetY: real, width: real, height: real)
    requires minScaleX <= maxScaleX && minScaleY <= maxScaleY
    ensures var l := LimitOf(m, minScaleX, maxScaleX, minScaleY, maxScaleY, transOffsetX, transOffsetY, width, height);
      minScaleX <= l.scaleX <= maxScaleX && minScaleY <= l.scaleY <= maxScaleY &&
      (minScaleX <= m.a <= maxScaleX ==> l.scaleX == m.a) &&
      (minScaleY <= m.d <= maxScaleY ==> l.scaleY == m.d)
    ensures var l := LimitOf(m, minScaleX, maxScaleX, minScaleY, maxScaleY, transOffsetX, transOffsetY, width, height);
      var lo := -width * (l.scaleX - 1.0) - transOffsetX;
      l.transX <= transOffsetX && (lo <= transOffsetX ==> lo <= l.transX) &&
      (lo <= m.tx <= transOffsetX ==> l.transX == m.tx)
    ensures var l := LimitOf(m, minScaleX, maxScaleX, minScaleY, maxScaleY, transOffsetX, transOffsetY, width, height);
      var hi := height * (l.scaleY - 1.0) + transOffsetY;
      l.transY >= -transOffsetY && (-transOffsetY <= hi ==> l.transY <= hi) &&
      (-transOffsetY <= m.ty <= hi ==> l.transY == m.ty)
  {
  }

  /** Limiting twice is limiting once: a matrix that came out of `refresh` goes
    * through it unchanged, whatever the limits. */
  lemma LimitIdempotent(m: Transform, minScaleX: real, maxScaleX: real, minScaleY: real, maxScaleY: real,
                        transOffsetX: real, transOffsetY: real, width: real, height: real)
    ensures var l := LimitOf(m, minScaleX, maxScaleX, minScaleY, maxScaleY, transOffsetX, transOffsetY, width, height);
      var m' := Limit(m, l);
      LimitOf(m', minScaleX, maxScaleX, minScaleY, maxScaleY, transOffsetX, transOffsetY, width, height) == l &&
      Limit(m', l) == m'
  {
    var l := LimitOf(m, minScaleX, maxScaleX, minScaleY, maxScaleY, transOffsetX, transOffsetY, width, height);
    var m' := Limit(m, l);
    var l' := LimitOf(m', minScaleX, maxScaleX, minScaleY, maxScaleY, transOffsetX, transOffsetY, width, height);
    assert l'.scaleX == l.scaleX;
    assert l'.scaleY == l.scaleY;
  }

  /** `setMinimumScaleX`/`setMinimumScaleY`: below 1 becomes 1. */
  function MinimumScale(s: real): (r: real)
    ensures r >= 1.0 && (s >= 1.0 ==> r == s) && (s < 1.0 ==> r == 1.0)
  {
    if s < 1.0 then 1.0 else s
  }

  /** `setMaximumScaleX`/`setMaximumScaleY`: 0 means no limit. */
  function MaximumScale(s: real): (r: real)
    ensures s == 0.0 ==> r == GreatestFinite
    ensures s != 0.0 ==> r == s
  {
    if s == 0.0 then GreatestFinite else s
  }

  /** The limits `setMinMaxScaleX` stores as written: the sanitised minimum, but the
    * maximum as passed in, so 0 is stored rather than "no limit". */
  function MinMaxScaleXAsWritten(minScaleX: real, maxScaleX: real): (r: (real, real))
  {
    var newMin := MinimumScale(minScaleX);
    var newMax := MaximumScale(maxScaleX);
    (newMin, maxScaleX)
  }

  /** As written, `setMinMaxScaleX(minScaleX: 1, maxScaleX: 0)` stores a maximum of 0,
    * and the next limit then forces the x scale to 0 rather than leaving it free. */
  lemma MinMaxScaleXAsWrittenCollapsesScale()
    ensures MinMaxScaleXAsWritten(1.0, 0.0) == (1.0, 0.0)
    ensures LimitOf(Identity, 1.0, 0.0, 1.0, GreatestFinite, 0.0, 0.0, 100.0, 100.0).scaleX == 0.0
    ensures LimitOf(Identity, 1.0, MaximumScale(0.0), 1.0, GreatestFinite, 0.0, 0.0, 100.0, 100.0).scaleX == 1.0
  {
  }

  class ViewPortHandler {
    var touchMatrix: Transform
    var contentRect: Rect
    var chartWidth: real
    var chartHeight: real
    var minScaleY: real
    var maxScaleY: real
    var minScaleX: real
    var maxScaleX: real
    var scaleX: real
    var scaleY: real
    var transX: real
    var transY: real
    var transOffsetX: real
    var transOffsetY: real

    /** `init(width:height:)`: the defaults, then `setChartDimens`, which with the
      * initial empty rectangle makes the content the whole chart. */
    constructor (width: real, height: real)
      ensures touchMatrix == Identity && contentRect == Rect(0.0, 0.0, width, height)
      ensures chartWidth == width && chartHeight == height
      ensures minScaleX == 1.0 && minScaleY == 1.0 && maxScaleX == GreatestFinite && maxScaleY == GreatestFinite
      ensures scaleX == 1.0 && scaleY == 1.0 && transX == 0.0 && transY == 0.0
      ensures transOffsetX == 0.0 && transOffsetY == 0.0
    {
      touchMatrix := Identity;
      contentRect := Rect(0.0, 0.0, 0.0, 0.0);
      chartWidth, chartHeight := 0.0, 0.0;
      minScaleY, maxScaleY := 1.0, GreatestFinite;
      minScaleX, maxScaleX := 1.0, GreatestFinite;
      scaleX, scaleY := 1.0, 1.0;
      transX, transY := 0.0, 0.0;
      transOffsetX, transOffsetY := 0.0, 0.0;
      new;
      SetChartDimens(width, height);
    }

    function OffsetLeft(): real
      reads this
    {
      contentRect.x
    }

    function OffsetRight(): real
      reads this
    {
      chartWidth - contentRect.width - contentRect.x
    }

    function OffsetTop(): real
      reads this
    {
      contentRect.y
    }

    function OffsetBottom(): real
      reads this
    {
      chartHeight - contentRect.height - contentRect.y
    }

    function ContentRight(): (r: real)
      reads this
      ensures r == chartWidth - OffsetRight()
    {
      contentRect.x + contentRect.width
    }

    function ContentBottom(): (r: real)
      reads this
      ensures r == chartHeight - OffsetBottom()
    {
      contentRect.y + contentRect.height
    }

    function ContentCenter(): (p: Point)
      reads this
      ensures p.x - OffsetLeft() == ContentRight() - p.x
      ensures p.y - OffsetTop() == ContentBottom() - p.y
    {
      Point(contentRect.x + contentRect.width / 2.0, contentRect.y + contentRect.height / 2.0)
    }

    /** `hasChartDimens`. */
    predicate HasChartDimens()
      reads this
    {
      chartHeight > 0.0 && chartWidth > 0.0
    }

    /** `setChartDimens(width:height:)`: the new size, with the four offsets kept. */
    method SetChartDimens(width: real, height: real)
      modifies this
      ensures chartWidth == width && chartHeight == height
      ensures OffsetLeft() == old(OffsetLeft()) && OffsetRight() == old(OffsetRight())
      ensures OffsetTop() == old(OffsetTop()) && OffsetBottom() == old(OffsetBottom())
      ensures touchMatrix == old(touchMatrix) && scaleX == old(scaleX) && scaleY == old(scaleY)
      ensures transX == old(transX) && transY == old(transY)
      ensures minScaleX == old(minScaleX) && maxScaleX == old(maxScaleX)
      ensures minScaleY == old(minScaleY) && maxScaleY == old(maxScaleY)
      ensures transOffsetX == old(transOffsetX) && transOffsetY == old(transOffsetY)
    {
      var offsetLeft := OffsetLeft();
      var offsetTop := OffsetTop();
      var offsetRight := OffsetRight();
      var offsetBottom := OffsetBottom();
      chartHeight := height;
      chartWidth := width;
      RestrainViewPort(offsetLeft, offsetTop, offsetRight, offsetBottom);
    }

    /** `restrainViewPort(offsetLeft:offsetTop:offsetRight:offsetBottom:)`: the content
      * rectangle inset by the four offsets, which read back as given. */
    method RestrainViewPort(offsetLeft: real, offsetTop: real, offsetRight: real, offsetBottom: real)
      modifies this
      ensures OffsetLeft() == offsetLeft && OffsetTop() == offsetTop
      ensures OffsetRight() == offsetRight && OffsetBottom() == offsetBottom
      ensures contentRect.width == chartWidth - offsetLeft - offsetRight
      ensures contentRect.height == chartHeight - offsetTop - offsetBottom
      ensures chartWidth == old(chartWidth) && chartHeight == old(chartHeight)
      ensures touchMatrix == old(touchMatrix) && scaleX == old(scaleX) && scaleY == old(scaleY)
      ensures transX == old(transX) && transY == old(transY)
      ensures minScaleX == old(minScaleX) && maxScaleX == old(maxScaleX)
      ensures minScaleY == old(minScaleY) && maxScaleY == old(maxScaleY)
      ensures transOffsetX == old(transOffsetX) && transOffsetY == old(transOffsetY)
    {
      contentRect := Rect(offsetLeft, offsetTop,
                          chartWidth - offsetLeft - offsetRight,
                          chartHeight - offsetBottom - offsetTop);
    }

    /** `zoom(scaleX:scaleY:)`. */
    function Zoom(sx: real, sy: real): (r: Transform)
      reads this
      ensures r.a == touchMatrix.a * sx && r.d == touchMatrix.d * sy
      ensures r.tx == touchMatrix.tx && r.ty == touchMatrix.ty
    {
      ScaledBy(touchMatrix, sx, sy)
    }

    /** `zoom(scaleX:scaleY:x:y:)`. */
    function ZoomAt(sx: real, sy: real, x: real, y: real): (r: Transform)
      reads this
      ensures Apply(r, Point(x, y)) == Apply(touchMatrix, Point(x, y))
    {
      ZoomAroundKeepsCentre(touchMatrix, sx, sy, x, y, Point(x, y));
      ZoomAround(touchMatrix, sx, sy, x, y)
    }

    /** `zoomIn(x:y:)`: by 1.4 around (x, y). */
    function ZoomIn(x: real, y: real): (r: Transform)
      reads this
      ensures r == ZoomAt(1.4, 1.4, x, y)
      ensures Apply(r, Point(x, y)) == Apply(touchMatrix, Point(x, y))
    {
      ZoomAt(1.4, 1.4, x, y)
    }

    /** `zoomOut(x:y:)`: by 0.7 around (x, y). */
    function ZoomOut(x: real, y: real): (r: Transform)
      reads this
      ensures r == ZoomAt(0.7, 0.7, x, y)
      ensures Apply(r, Point(x, y)) == Apply(touchMatrix, Point(x, y))
    {
      ZoomAt(0.7, 0.7, x, y)
    }

    /** `resetZoom()`: a zoom by 1 around the origin, which is the touch matrix itself. */
    function ResetZoom(): (r: Transform)
      reads this
      ensures r == touchMatrix
    {
      ZoomAt(1.0, 1.0, 0.0, 0.0)
    }

    /** `setZoom(scaleX:scaleY:)`: the touch matrix with its scales replaced. */
    function SetZoom(sx: real, sy: real): (r: Transform)
      reads this
      ensures r.a == sx && r.d == sy
      ensures r.b == touchMatrix.b && r.c == touchMatrix.c && r.tx == touchMatrix.tx && r.ty == touchMatrix.ty
    {
      touchMatrix.(a := sx, d := sy)
    }

    /** `setZoom(scaleX:scaleY:x:y:)`: unit scales, then a zoom around (x, y). */
    function SetZoomAt(sx: real, sy: real, x: real, y: real): (r: Transform)
      reads this
      ensures Apply(r, Point(x, y)) == Apply(touchMatrix.(a := 1.0, d := 1.0), Point(x, y))
    {
      var m := touchMatrix.(a := 1.0, d := 1.0);
      ZoomAroundKeepsCentre(m, sx, sy, x, y, Point(x, y));
      ZoomAround(m, sx, sy, x, y)
    }

    /** `fitScreen()`: both minimum scales back to 1, and the identity to refresh with. */
    method FitScreen() returns (r: Transform)
      modifies this
      ensures r == Identity && minScaleX == 1.0 && minScaleY == 1.0
      ensures maxScaleX == old(maxScaleX) && maxScaleY == old(maxScaleY)
      ensures touchMatrix == old(touchMatrix) && contentRect == old(contentRect)
      ensures scaleX == old(scaleX) && scaleY == old(scaleY) && transX == old(transX) && transY == old(transY)
      ensures transOffsetX == old(transOffsetX) && transOffsetY == old(transOffsetY)
    {
      minScaleX := 1.0;
      minScaleY := 1.0;
      return Identity;
    }

    /** `translate(pt:)`: the touch matrix followed by a translation that brings `pt`
      * to the content's top left corner. */
    function Translate(pt: Point): (r: Transform)
      reads this
      ensures forall p :: Apply(r, p) == Point(Apply(touchMatrix, p).x - (pt.x - OffsetLeft()),
                                              Apply(touchMatrix, p).y - (pt.y - OffsetTop()))
    {
      ThenTranslated(touchMatrix, -(pt.x - OffsetLeft()), -(pt.y - OffsetTop()))
    }

    /** The current limits applied to `m`. */
    function LimitedOf(m: Transform): Limited
      reads this
    {
      LimitOf(m, minScaleX, maxScaleX, minScaleY, maxScaleY, transOffsetX, transOffsetY,
              contentRect.width, contentRect.height)
    }

    /** The stored scales and translations are those of the touch matrix. */
    ghost predicate MatrixInSync()
      reads this
    {
      touchMatrix.a == scaleX && touchMatrix.d == scaleY && touchMatrix.tx == transX && touchMatrix.ty == transY
    }

    /** `limitTransAndScale(matrix: &_touchMatrix, content: _contentRect)`. */
    method LimitTransAndScale()
      modifies this
      ensures var l := old(LimitedOf(touchMatrix));
        scaleX == l.scaleX && scaleY == l.scaleY && transX == l.transX && transY == l.transY &&
        touchMatrix == Limit(old(touchMatrix), l)
      ensures MatrixInSync()
      ensures contentRect == old(contentRect) && chartWidth == old(chartWidth) && chartHeight == old(chartHeight)
      ensures minScaleX == old(minScaleX) && maxScaleX == old(maxScaleX)
      ensures minScaleY == old(minScaleY) && maxScaleY == old(maxScaleY)
      ensures transOffsetX == old(transOffsetX) && transOffsetY == old(transOffsetY)
    {
      var matrix := touchMatrix;
      scaleX := Min(Max(minScaleX, matrix.a), maxScaleX);
      scaleY := Min(Max(minScaleY, matrix.d), maxScaleY);
      var width := contentRect.width;
      var height := contentRect.height;
      var maxTransX := -width * (scaleX - 1.0);
      transX := Min(Max(matrix.tx, maxTransX - transOffsetX), transOffsetX);
      var maxTransY := height * (scaleY - 1.0);
      transY := Max(Min(matrix.ty, maxTransY + transOffsetY), -transOffsetY);
      touchMatrix := matrix.(tx := transX, a := scaleX, ty := transY, d := scaleY);
    }

    /** `refresh(newMatrix:chart:invalidate:)`: the new matrix, limited, becomes the
      * touch matrix and is returned; refreshing with the result changes nothing. */
    method Refresh(newMatrix: Transform) returns (r: Transform)
      modifies this
      ensures var l := old(LimitedOf(newMatrix));
        scaleX == l.scaleX && scaleY == l.scaleY && transX == l.transX && transY == l.transY &&
        r == touchMatrix == Limit(newMatrix, l)
      ensures LimitedOf(r) == LimitedOf(touchMatrix) && Limit(r, LimitedOf(r)) == r
      ensures MatrixInSync()
      ensures contentRect == old(contentRect) && chartWidth == old(chartWidth) && chartHeight == old(chartHeight)
      ensures minScaleX == old(minScaleX) && maxScaleX == old(maxScaleX)
      ensures minScaleY == old(minScaleY) && maxScaleY == old(maxScaleY)
      ensures transOffsetX == old(transOffsetX) && transOffsetY == old(transOffsetY)
    {
      touchMatrix := newMatrix;
      LimitTransAndScale();
      LimitIdempotent(newMatrix, minScaleX, maxScaleX, minScaleY, maxScaleY, transOffsetX, transOffsetY,
                      contentRect.width, contentRect.height);
      return touchMatrix;
    }

    /** `centerViewPort(pt:chart:)`: refresh with the translation to `pt`. */
    method CenterViewPort(pt: Point)
      modifies this
      ensures touchMatrix == Limit(old(Translate(pt)), old(LimitedOf(Translate(pt))))
      ensures MatrixInSync()
      ensures contentRect == old(contentRect) && chartWidth == old(chartWidth) && chartHeight == old(chartHeight)
      ensures minScaleX == old(minScaleX) && maxScaleX == old(maxScaleX)
      ensures minScaleY == old(minScaleY) && maxScaleY == old(maxScaleY)
      ensures transOffsetX == old(transOffsetX) && transOffsetY == old(transOffsetY)
    {
      var matrix := ThenTranslated(touchMatrix, -(pt.x - OffsetLeft()), -(pt.y - OffsetTop()));
      var _ := Refresh(matrix);
    }

    /** `setMinimumScaleX(_:)`: at least 1, then the limits are applied. */
    method SetMinimumScaleX(xScale: real)
      modifies this
      ensures minScaleX == MinimumScale(xScale) && minScaleX >= 1.0
      ensures maxScaleX == old(maxScaleX) && minScaleY == old(minScaleY) && maxScaleY == old(maxScaleY)
      ensures touchMatrix == Limit(old(touchMatrix), LimitedOf(old(touchMatrix))) && MatrixInSync()
      ensures contentRect == old(contentRect) && chartWidth == old(chartWidth) && chartHeight == old(chartHeight)
      ensures transOffsetX == old(transOffsetX) && transOffsetY == old(transOffsetY)
    {
      var newValue := xScale;
      if newValue < 1.0 {
        newValue := 1.0;
      }
      minScaleX := newValue;
      LimitTransAndScale();
    }

    /** `setMaximumScaleX(_:)`: 0 means no limit, then the limits are applied. */
    method SetMaximumScaleX(xScale: real)
      modifies this
      ensures maxScaleX == MaximumScale(xScale)
      ensures xScale == 0.0 ==> maxScaleX == GreatestFinite
      ensures minScaleX == old(minScaleX) && minScaleY == old(minScaleY) && maxScaleY == old(maxScaleY)
      ensures touchMatrix == Limit(old(touchMatrix), LimitedOf(old(touchMatrix))) && MatrixInSync()
      ensures contentRect == old(contentRect) && chartWidth == old(chartWidth) && chartHeight == old(chartHeight)
      ensures transOffsetX == old(transOffsetX) && transOffsetY == old(transOffsetY)
    {
      var newValue := xScale;
      if newValue == 0.0 {
        newValue := GreatestFinite;
      }
      maxScaleX := newValue;
      LimitTransAndScale();
    }

    /** `setMinMaxScaleX(minScaleX:maxScaleX:)`, storing the sanitised maximum (see
      * Findings): both limits sanitised as the single setters do. */
    method SetMinMaxScaleX(newMinScaleX: real, newMaxScaleX: real)
      modifies this
      ensures minScaleX == MinimumScale(newMinScaleX) && maxScaleX == MaximumScale(newMaxScaleX)
      ensures minScaleY == old(minScaleY) && maxScaleY == old(maxScaleY)
      ensures touchMatrix == Limit(old(touchMatrix), LimitedOf(old(touchMatrix))) && MatrixInSync()
      ensures contentRect == old(contentRect) && chartWidth == old(chartWidth) && chartHeight == old(chartHeight)
      ensures transOffsetX == old(transOffsetX) && transOffsetY == old(transOffsetY)
    {
      var newMin := newMinScaleX;
      var newMax := newMaxScaleX;
      if newMin < 1.0 {
        newMin := 1.0;
      }
      if newMax == 0.0 {
        newMax := GreatestFinite;
      }
      minScaleX := newMin;
      maxScaleX := newMax;
      LimitTransAndScale();
    }

    /** `setMinimumScaleY(_:)`. */
    method SetMinimumScaleY(yScale: real)
      modifies this
      ensures minScaleY == MinimumScale(yScale) && minScaleY >= 1.0
      ensures maxScaleY == old(maxScaleY) && minScaleX == old(minScaleX) && maxScaleX == old(maxScaleX)
      ensures touchMatrix == Limit(old(touchMatrix), LimitedOf(old(touchMatrix))) && MatrixInSync()
      ensures contentRect == old(contentRect) && chartWidth == old(chartWidth) && chartHeight == old(chartHeight)
      ensures transOffsetX == old(transOffsetX) && transOffsetY == old(transOffsetY)
    {
      var newValue := yScale;
      if newValue < 1.0 {
        newValue := 1.0;
      }
      minScaleY := newValue;
      LimitTransAndScale();
    }

    /** `setMaximumScaleY(_:)`. */
    method SetMaximumScaleY(yScale: real)
      modifies this
      ensures maxScaleY == MaximumScale(yScale)
      ensures minScaleY == old(minScaleY) && minScaleX == old(minScaleX) && maxScaleX == old(maxScaleX)
      ensures touchMatrix == Limit(old(touchMatrix), LimitedOf(old(touchMatrix))) && MatrixInSync()
      ensures contentRect == old(contentRect) && chartWidth == old(chartWidth) && chartHeight == old(chartHeight)
      ensures transOffsetX == old(transOffsetX) && transOffsetY == old(transOffsetY)
    {
      var newValue := yScale;
      if newValue == 0.0 {
        newValue := GreatestFinite;
      }
      maxScaleY := newValue;
      LimitTransAndScale();
    }

    /** `setMinMaxScaleY(minScaleY:maxScaleY:)`: both limits sanitised. */
    method SetMinMaxScaleY(newMinScaleY: real, newMaxScaleY: real)
      modifies this
      ensures minScaleY == MinimumScale(newMinScaleY) && maxScaleY == MaximumScale(newMaxScaleY)
      ensures minScaleX == old(minScaleX) && maxScaleX == old(maxScaleX)
      ensures touchMatrix == Limit(old(touchMatrix), LimitedOf(old(touchMatrix))) && MatrixInSync()
      ensures contentRect == old(contentRect) && chartWidth == old(chartWidth) && chartHeight == old(chartHeight)
      ensures transOffsetX == old(transOffsetX) && transOffsetY == old(transOffsetY)
    {
      var minS := newMinScaleY;
      var maxS := newMaxScaleY;
      if minS < 1.0 {
        minS := 1.0;
      }
      if maxS == 0.0 {
        maxS := GreatestFinite;
      }
      minScaleY := minS;
      maxScaleY := maxS;
      LimitTransAndScale();
    }

    /** `isInBoundsLeft(_:)`: within a point of the left edge or to its right. */
    predicate IsInBoundsLeft(x: real)
      reads this
    {
      contentRect.x <= x + 1.0
    }

    /** `isInBoundsRight(_:)`: `x` rounded down to hundredths, within a point of the
      * right edge or to its left. */
    predicate IsInBoundsRight(x: real)
      reads this
    {
      var x' := (x * 100.0).Floor as real / 100.0;
      contentRect.x + contentRect.width >= x' - 1.0
    }

    /** `isInBoundsTop(_:)`. */
    predicate IsInBoundsTop(y: real)
      reads this
    {
      contentRect.y <= y
    }

    /** `isInBoundsBottom(_:)`: `y` rounded down to hundredths, at or above the bottom. */
    predicate IsInBoundsBottom(y: real)
      reads this
    {
      var y' := (y * 100.0).Floor as real / 100.0;
      contentRect.y + contentRect.height >= y'
    }

    /** `isInBoundsX(_:)`: in bounds on the left and on the right, which holds from a
      * point left of the content to a point right of it, and not a hundredth further. */
    predicate IsInBoundsX(x: real)
      reads this
      ensures IsInBoundsX(x) <==> IsInBoundsLeft(x) && IsInBoundsRight(x)
      ensures OffsetLeft() - 1.0 <= x <= ContentRight() + 1.0 ==> IsInBoundsX(x)
      ensures IsInBoundsX(x) ==> OffsetLeft() - 1.0 <= x < ContentRight() + 1.01
    {
      FloorHundredths(x);
      IsInBoundsLeft(x) && IsInBoundsRight(x)
    }

    /** `isInBoundsY(_:)`: between the top and the bottom edge, up to the rounding
      * at the bottom. */
    predicate IsInBoundsY(y: real)
      reads this
      ensures IsInBoundsY(y) <==> IsInBoundsTop(y) && IsInBoundsBottom(y)
      ensures OffsetTop() <= y <= ContentBottom() ==> IsInBoundsY(y)
      ensures IsInBoundsY(y) ==> OffsetTop() <= y < ContentBottom() + 0.01
    {
      FloorHundredths(y);
      IsInBoundsTop(y) && IsInBoundsBottom(y)
    }

    /** `isInBounds(x:y:)`. */
    predicate IsInBounds(x: real, y: real)
      reads this
      ensures IsInBounds(x, y) <==> IsInBoundsX(x) && IsInBoundsY(y)
    {
      IsInBoundsX(x) && IsInBoundsY(y)
    }

    /** `isFullyZoomedOutX`: not zoomed beyond the minimum, and a minimum of at most 1. */
    predicate IsFullyZoomedOutX()
      reads this
    {
      !(scaleX > minScaleX || minScaleX > 1.0)
    }

    /** `isFullyZoomedOutY`. */
    predicate IsFullyZoomedOutY()
      reads this
    {
      !(scaleY > minScaleY || minScaleY > 1.0)
    }

    /** `isFullyZoomedOut`. */
    predicate IsFullyZoomedOut()
      reads this
    {
      IsFullyZoomedOutX() && IsFullyZoomedOutY()
    }

    /** `canZoomOutMoreX`. */
    predicate CanZoomOutMoreX()
      reads this
    {
      scaleX > minScaleX
    }

    /** `canZoomInMoreX`. */
    predicate CanZoomInMoreX()
      reads this
    {
      scaleX < maxScaleX
    }

    /** `canZoomOutMoreY`. */
    predicate CanZoomOutMoreY()
      reads this
    {
      scaleY > minScaleY
    }

    /** `canZoomInMoreY`. */
    predicate CanZoomInMoreY()
      reads this
    {
      scaleY < maxScaleY
    }

    /** After a limit with consistent x limits: the x scale cannot go below the
      * minimum, so a minimum of 1 makes "cannot zoom out further" the same as "fully
      * zoomed out", and the scale never passes the maximum. */
    lemma ZoomFlagsAfterLimit()
      requires minScaleX <= maxScaleX && minScaleY <= maxScaleY
      requires scaleX == Min(Max(minScaleX, touchMatrix.a), maxScaleX)
      requires scaleY == Min(Max(minScaleY, touchMatrix.d), maxScaleY)
      ensures minScaleX == 1.0 ==> (IsFullyZoomedOutX() <==> !CanZoomOutMoreX())
      ensures minScaleY == 1.0 ==> (IsFullyZoomedOutY() <==> !CanZoomOutMoreY())
      ensures scaleX >= minScaleX && scaleX <= maxScaleX && (CanZoomInMoreX() || scaleX == maxScaleX)
      ensures scaleY >= minScaleY && scaleY <= maxScaleY && (CanZoomInMoreY() || scaleY == maxScaleY)
    {
    }

    /** `setDragOffsetX(_:)`. */
    method SetDragOffsetX(offset: real)
      modifies this
      ensures transOffsetX == offset && transOffsetY == old(transOffsetY)
      ensures HasNoDragOffset() <==> offset <= 0.0 && transOffsetY <= 0.0
    {
      transOffsetX := offset;
    }

    /** `setDragOffsetY(_:)`. */
    method SetDragOffsetY(offset: real)
      modifies this
      ensures transOffsetY == offset && transOffsetX == old(transOffsetX)
      ensures HasNoDragOffset() <==> transOffsetX <= 0.0 && offset <= 0.0
    {
      transOffsetY := offset;
    }

    /** `hasNoDragOffset`: neither drag offset is positive. */
    predicate HasNoDragOffset()
      reads this
    {
      transOffsetX <= 0.0 && transOffsetY <= 0.0
    }

    /** Without drag offsets and with unit scales, the limit pins both translations
      * to 0: the content cannot be dragged at all. */
    lemma NoDragOffsetPinsTranslation(m: Transform)
      requires HasNoDragOffset() && transOffsetX == 0.0 && transOffsetY == 0.0
      requires minScaleX == 1.0 && maxScaleX == 1.0 && minScaleY == 1.0 && maxScaleY == 1.0
      ensures LimitedOf(m).transX == 0.0 && LimitedOf(m).transY == 0.0
    {
    }
  }

  /** Rounding down to hundredths never goes up, and by less than a hundredth. */
  lemma FloorHundredths(x: real)
    ensures x - 0.01 < (x * 100.0).Floor as real / 100.0 <= x
  {
  }
}
