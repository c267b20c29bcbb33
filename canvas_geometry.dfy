// The custom editor's geometry (src/components/design/custom-design-canvas.tsx):
// the screen-to-world transform, grid snapping, the distance test for lines,
// element centres, the inverse rotation used by hit tests, the selection
// handles and the three zoom controls.

module CanvasGeometry {
  import opened Types
  import opened Numeric

  const GridSize: real := 40.0
  const SnapThreshold: real := 8.0
  const HandleSize: real := 8.0
  const RotationHandleDistance: real := 30.0
  const MinZoom: real := 0.1
  const MaxZoom: real := 10.0

  /**
   * Math.cos and Math.sin of an angle given in degrees, as a pair.  They have
   * no closed form here, so callers take them as a parameter.
   */
  type Trig = real -> (real, real)

  predicate IsRotation(c: real, s: real)
  {
    c * c + s * s == 1.0
  }

  // ---- Screen and world ---------------------------------------------------

  /** getWorldPoint: `(canvasPoint - panOffset) / zoom`. */
  function WorldPoint(canvasPoint: Point, pan: Point, zoom: real): (w: Point)
    requires zoom != 0.0
    ensures w.x * zoom + pan.x == canvasPoint.x && w.y * zoom + pan.y == canvasPoint.y
  {
    Point((canvasPoint.x - pan.x) / zoom, (canvasPoint.y - pan.y) / zoom)
  }

  /** Where a world point is drawn: the SVG group's `translate(pan) scale(zoom)`. */
  function ScreenPoint(world: Point, pan: Point, zoom: real): Point
  {
    Point(world.x * zoom + pan.x, world.y * zoom + pan.y)
  }

  lemma WorldOfScreen(world: Point, pan: Point, zoom: real)
    requires zoom != 0.0
    ensures WorldPoint(ScreenPoint(world, pan, zoom), pan, zoom) == world
  {
  }

  // ---- Grid snapping -------------------------------------------------------

  predicate OnGrid(v: real)
  {
    (v / GridSize).Floor as real * GridSize == v
  }

  /**
   * A coordinate snapped to the nearest grid line (Math.round(v / 40) * 40)
   * when it lies within 8/zoom of it, and left alone otherwise.
   */
  function Snap(v: real, zoom: real): (r: real)
    requires zoom != 0.0
    ensures r == v || (OnGrid(r) && AbsR(v - r) < SnapThreshold / zoom && AbsR(v - r) <= GridSize / 2.0)
  {
    var snapped := JsRound(v / GridSize) as real * GridSize;
    assert OnGrid(snapped) by {
      assert snapped / GridSize == JsRound(v / GridSize) as real;
    }
    if AbsR(v - snapped) < SnapThreshold / zoom then snapped else v
  }

  /**
   * A grid line closer than the snap threshold is the one snapped to, as long
   * as the threshold does not exceed half a grid cell (zoom at least 0.4).
   */
  lemma SnapFindsGridLine(v: real, zoom: real, k: int)
    requires zoom > 0.0 && SnapThreshold / zoom <= GridSize / 2.0
    requires AbsR(v - k as real * GridSize) < SnapThreshold / zoom
    ensures Snap(v, zoom) == k as real * GridSize
  {
    var q := v / GridSize;
    assert q * GridSize == v;
    assert k as real - 0.5 < q < k as real + 0.5;
    assert JsRound(q) == k;
  }

  /** A coordinate on a grid line stays where it is. */
  lemma SnapKeepsGridLine(v: real, zoom: real)
    requires zoom != 0.0 && OnGrid(v)
    ensures Snap(v, zoom) == v
  {
    var k := (v / GridSize).Floor;
    assert v / GridSize == k as real;
    assert JsRound(v / GridSize) == k;
  }

  /** Snapping twice is snapping once. */
  lemma SnapIdempotent(v: real, zoom: real)
    requires zoom != 0.0
    ensures Snap(Snap(v, zoom), zoom) == Snap(v, zoom)
  {
    var r := Snap(v, zoom);
    if r != v {
      SnapKeepsGridLine(r, zoom);
    }
  }

  // ---- Distance from a line ----------------------------------------------

  /**
   * The projection parameter of the offset (ex, ey) onto the direction
   * (dx, dy), clamped to [0, 1].
   */
  function ClampedProjection(dx: real, dy: real, ex: real, ey: real): (t: real)
    requires dx * dx + dy * dy != 0.0
    ensures 0.0 <= t <= 1.0
  {
    MaxR(0.0, MinR(1.0, (ex * dx + ey * dy) / (dx * dx + dy * dy)))
  }

  /**
   * The test of isPointOnLine on vectors: the segment runs along (dx, dy)
   * and the point lies at offset (ex, ey) from its start.
   */
  predicate SegmentHit(dx: real, dy: real, ex: real, ey: real, threshold: real)
  {
    if dx * dx + dy * dy == 0.0 then false
    else
      var t := ClampedProjection(dx, dy, ex, ey);
      var fx, fy := ex - t * dx, ey - t * dy;
      0.0 < threshold && fx * fx + fy * fy < threshold * threshold
  }

  /**
   * isPointOnLine: the point's distance to the nearest point of the segment
   * (the projection clamped to the segment) is below the threshold; a
   * segment of length zero is never hit.  `Math.hypot(d) < threshold` is
   * compared squared.
   */
  function IsPointOnLine(x1: real, y1: real, x2: real, y2: real, p: Point, threshold: real): (r: bool)
    ensures x1 == x2 && y1 == y2 ==> !r
  {
    SegmentHit(x2 - x1, y2 - y1, p.x - x1, p.y - y1, threshold)
  }

  /** Every point of a segment of positive length is on it, for any positive threshold. */
  lemma PointOfSegmentIsOnLine(x1: real, y1: real, x2: real, y2: real, s: real, threshold: real)
    requires 0.0 <= s <= 1.0 && threshold > 0.0
    requires (x2 - x1) * (x2 - x1) + (y2 - y1) * (y2 - y1) != 0.0
    ensures IsPointOnLine(x1, y1, x2, y2, Point(x1 + s * (x2 - x1), y1 + s * (y2 - y1)), threshold)
  {
    var p := Point(x1 + s * (x2 - x1), y1 + s * (y2 - y1));
    SegmentPointHit(x2 - x1, y2 - y1, p.x - x1, p.y - y1, s, threshold);
  }

  lemma SegmentPointHit(dx: real, dy: real, ex: real, ey: real, s: real, threshold: real)
    requires 0.0 <= s <= 1.0 && threshold > 0.0 && dx * dx + dy * dy != 0.0
    requires ex == s * dx && ey == s * dy
    ensures SegmentHit(dx, dy, ex, ey, threshold)
  {
    ProjectionOfSegmentPoint(dx, dy, s);
    var t := ClampedProjection(dx, dy, s * dx, s * dy);
    assert t == s;
    var fx, fy := s * dx - t * dx, s * dy - t * dy;
    assert fx == 0.0 && fy == 0.0;
    ZeroBelowSquare(fx, fy, threshold);
  }

  lemma ZeroBelowSquare(a: real, b: real, k: real)
    requires a == 0.0 && b == 0.0 && k > 0.0
    ensures a * a + b * b < k * k
  {
    ProductSign(k, k);
    calc {
      a * a + b * b;
      == 0.0 * a + 0.0 * b;
      == 0.0;
      < k * k;
    }
  }

  lemma ProjectionOfSegmentPoint(dx: real, dy: real, s: real)
    requires dx * dx + dy * dy != 0.0
    ensures ((s * dx) * dx + (s * dy) * dy) / (dx * dx + dy * dy) == s
  {
    assert (s * dx) * dx + (s * dy) * dy == s * (dx * dx + dy * dy);
    DivCancel(s, dx * dx + dy * dy);
  }

  lemma DivCancel(a: real, l: real)
    requires l != 0.0
    ensures (a * l) / l == a
  {
  }

  /** A hit lies within the threshold of the segment's bounding box. */
  lemma OnLineNearBox(x1: real, y1: real, x2: real, y2: real, p: Point, threshold: real)
    requires IsPointOnLine(x1, y1, x2, y2, p, threshold)
    ensures MinR(x1, x2) - threshold < p.x < MaxR(x1, x2) + threshold
    ensures MinR(y1, y2) - threshold < p.y < MaxR(y1, y2) + threshold
  {
    HitNearBox(x2 - x1, y2 - y1, p.x - x1, p.y - y1, threshold);
  }

  /** The same bound on vectors: the offset stays near the box spanned by 0 and the direction. */
  lemma HitNearBox(dx: real, dy: real, ex: real, ey: real, threshold: real)
    requires SegmentHit(dx, dy, ex, ey, threshold)
    ensures MinR(0.0, dx) - threshold < ex < MaxR(0.0, dx) + threshold
    ensures MinR(0.0, dy) - threshold < ey < MaxR(0.0, dy) + threshold
  {
    var t := ClampedProjection(dx, dy, ex, ey);
    var fx, fy := ex - t * dx, ey - t * dy;
    assert 0.0 < threshold && fx * fx + fy * fy < threshold * threshold;
    SquareBelow(fx, fy, threshold);
    SquareBelow(fy, fx, threshold);
    Between(dx, t);
    Between(dy, t);
  }

  lemma SquareNonNegative(a: real)
    ensures a * a >= 0.0
  {
    if a != 0.0 { ProductSign(a, a); }
  }

  /** A leg of a right triangle is shorter than its hypotenuse. */
  lemma SquareBelow(a: real, b: real, k: real)
    requires k > 0.0 && a * a + b * b < k * k
    ensures -k < a < k
  {
    SquareNonNegative(b);
    assert (k - a) * (k + a) == k * k - a * a;
    assert (k - a) * (k + a) > 0.0;
    if k + a != 0.0 { ProductSign(k - a, k + a); }
  }

  lemma Between(d: real, t: real)
    requires 0.0 <= t <= 1.0
    ensures MinR(0.0, d) <= t * d <= MaxR(0.0, d)
  {
    if d >= 0.0 {
      assert t * d <= 1.0 * d;
      assert 0.0 * d <= t * d;
    } else {
      assert t * d >= 1.0 * d;
      assert 0.0 * d >= t * d;
    }
  }

  // ---- Element centres and the inverse rotation ---------------------------

  /** getElementCenter: the middle of a rectangle, or the midpoint of a line. */
  function ElementCenter(e: CanvasElement): (c: Point)
    ensures e.FrameElement? ==> (c.x - e.frame.x == e.frame.x + e.frame.width - c.x
      && c.y - e.frame.y == e.frame.y + e.frame.height - c.y)
    ensures e.TextBoxElement? ==> (c.x - e.textBox.x == e.textBox.x + e.textBox.width - c.x
      && c.y - e.textBox.y == e.textBox.y + e.textBox.height - c.y)
    ensures e.MullionElement? ==> (c.x - e.mullion.x1 == e.mullion.x2 - c.x
      && c.y - e.mullion.y1 == e.mullion.y2 - c.y)
    ensures e.DimensionElement? ==> (c.x - e.dimension.x1 == e.dimension.x2 - c.x
      && c.y - e.dimension.y1 == e.dimension.y2 - c.y)
  {
    match e
    case FrameElement(f) => Point(f.x + f.width / 2.0, f.y + f.height / 2.0)
    case TextBoxElement(t) => Point(t.x + t.width / 2.0, t.y + t.height / 2.0)
    case MullionElement(m) => Point((m.x1 + m.x2) / 2.0, (m.y1 + m.y2) / 2.0)
    case DimensionElement(d) => Point((d.x1 + d.x2) / 2.0, (d.y1 + d.y2) / 2.0)
  }

  /** `!rotation`: an unset or zero rotation. */
  predicate NoRotation(rotation: Option<real>)
  {
    rotation.None? || rotation.value == 0.0
  }

  function Rotated(p: Point, center: Point, c: real, s: real): Point
  {
    var dx, dy := p.x - center.x, p.y - center.y;
    Point(dx * c - dy * s + center.x, dx * s + dy * c + center.y)
  }

  function SqDist(a: Point, b: Point): real
  {
    (a.x - b.x) * (a.x - b.x) + (a.y - b.y) * (a.y - b.y)
  }

  /**
   * getUnrotatedPoint: the point turned back by the element's rotation about
   * `center`, i.e. rotated by −rotation degrees; unrotated elements leave it
   * where it is.
   */
  function UnrotatedPoint(p: Point, rotation: Option<real>, center: Point, trig: Trig): (r: Point)
    ensures NoRotation(rotation) ==> r == p
    ensures !NoRotation(rotation) ==> r == Rotated(p, center, trig(-rotation.value).0, trig(-rotation.value).1)
  {
    if NoRotation(rotation) then p
    else
      var (c, s) := trig(-rotation.value);
      Rotated(p, center, c, s)
  }

  /** A rotation keeps the distance to its centre. */
  lemma RotationKeepsDistance(p: Point, center: Point, c: real, s: real)
    requires IsRotation(c, s)
    ensures SqDist(Rotated(p, center, c, s), center) == SqDist(p, center)
  {
    var dx, dy := p.x - center.x, p.y - center.y;
    calc {
      (dx * c - dy * s) * (dx * c - dy * s) + (dx * s + dy * c) * (dx * s + dy * c);
      (dx * dx + dy * dy) * (c * c + s * s);
      dx * dx + dy * dy;
    }
  }

  /** Turning by (c, −s) undoes turning by (c, s): drawing and hit testing agree. */
  lemma RotationInverse(p: Point, center: Point, c: real, s: real)
    requires IsRotation(c, s)
    ensures Rotated(Rotated(p, center, c, s), center, c, -s) == p
  {
    var dx, dy := p.x - center.x, p.y - center.y;
    var q := Rotated(p, center, c, s);
    assert q.x - center.x == dx * c - dy * s;
    assert q.y - center.y == dx * s + dy * c;
    assert (dx * c - dy * s) * c + (dx * s + dy * c) * s == dx * (c * c + s * s);
    assert -(dx * c - dy * s) * s + (dx * s + dy * c) * c == dy * (c * c + s * s);
  }

  // ---- Selection handles --------------------------------------------------

  datatype RectHandle = TopLeft | TopRight | BottomLeft | BottomRight | Top | Bottom | Left | Right | Rotate

  datatype LineHandle = Start | End

  /** The order in which getHandlesForRect lists its keys. */
  const HandleOrder: seq<RectHandle> := [TopLeft, TopRight, BottomLeft, BottomRight, Top, Bottom, Left, Right, Rotate]

  function Rank(h: RectHandle): (i: nat)
    ensures i < |HandleOrder| && HandleOrder[i] == h
  {
    match h
    case TopLeft => 0
    case TopRight => 1
    case BottomLeft => 2
    case BottomRight => 3
    case Top => 4
    case Bottom => 5
    case Left => 6
    case Right => 7
    case Rotate => 8
  }

  /**
   * getHandlesForRect: the top-left corner of each 8/zoom square centred on
   * a corner or an edge midpoint; for `rotate`, the centre of the circle
   * 30/zoom below the bottom edge.
   */
  function HandlePosition(rect: Rect, h: RectHandle, zoom: real): Point
    requires zoom != 0.0
  {
    var half := HandleSize / zoom / 2.0;
    match h
    case TopLeft => Point(rect.x - half, rect.y - half)
    case TopRight => Point(rect.x + rect.width - half, rect.y - half)
    case BottomLeft => Point(rect.x - half, rect.y + rect.height - half)
    case BottomRight => Point(rect.x + rect.width - half, rect.y + rect.height - half)
    case Top => Point(rect.x + rect.width / 2.0 - half, rect.y - half)
    case Bottom => Point(rect.x + rect.width / 2.0 - half, rect.y + rect.height - half)
    case Left => Point(rect.x - half, rect.y + rect.height / 2.0 - half)
    case Right => Point(rect.x + rect.width - half, rect.y + rect.height / 2.0 - half)
    case Rotate => Point(rect.x + rect.width / 2.0, rect.y + rect.height + RotationHandleDistance / zoom)
  }

  predicate InBox(p: Point, corner: Point, size: real)
  {
    corner.x <= p.x <= corner.x + size && corner.y <= p.y <= corner.y + size
  }

  /** The hit test of one handle: inside the square, or inside the rotate circle. */
  predicate HitsHandle(p: Point, rect: Rect, h: RectHandle, zoom: real)
    requires zoom != 0.0
  {
    var size := HandleSize / zoom;
    var pos := HandlePosition(rect, h, zoom);
    if h == Rotate then 0.0 < size && SqDist(p, pos) < size * size
    else InBox(p, pos, size)
  }

  /** getHandleAtPoint: the first handle, in key order, that the point hits. */
  method HandleAtPoint(p: Point, rect: Rect, zoom: real) returns (r: Option<RectHandle>)
    requires zoom != 0.0
    ensures r.Some? ==> HitsHandle(p, rect, r.value, zoom)
    ensures r.Some? ==> forall h :: Rank(h) < Rank(r.value) ==> !HitsHandle(p, rect, h, zoom)
    ensures r.None? ==> forall h :: !HitsHandle(p, rect, h, zoom)
  {
    var i := 0;
    while i < |HandleOrder|
      invariant 0 <= i <= |HandleOrder|
      invariant forall h :: Rank(h) < i ==> !HitsHandle(p, rect, h, zoom)
    {
      var key := HandleOrder[i];
      assert Rank(key) == i;
      if HitsHandle(p, rect, key, zoom) {
        return Some(key);
      }
      i := i + 1;
    }
    return None;
  }

  /** A rectangle's own corner grabs its top-left handle first, at a positive zoom. */
  lemma CornerHitsTopLeft(rect: Rect, zoom: real)
    requires zoom > 0.0
    ensures HitsHandle(Point(rect.x, rect.y), rect, TopLeft, zoom)
  {
  }

  /** Handles are drawn only for the selection, and the rotate one only for rectangles. */
  function LineHandlePosition(x1: real, y1: real, x2: real, y2: real, h: LineHandle, zoom: real): Point
    requires zoom != 0.0
  {
    var half := HandleSize / zoom / 2.0;
    match h
    case Start => Point(x1 - half, y1 - half)
    case End => Point(x2 - half, y2 - half)
  }

  /** getLineHandleAtPoint: `start` before `end`. */
  method LineHandleAtPoint(p: Point, x1: real, y1: real, x2: real, y2: real, zoom: real)
    returns (r: Option<LineHandle>)
    requires zoom != 0.0
    ensures r == Some(Start) <==> InBox(p, LineHandlePosition(x1, y1, x2, y2, Start, zoom), HandleSize / zoom)
    ensures r == Some(End) <==> (!InBox(p, LineHandlePosition(x1, y1, x2, y2, Start, zoom), HandleSize / zoom)
      && InBox(p, LineHandlePosition(x1, y1, x2, y2, End, zoom), HandleSize / zoom))
  {
    var keys := [Start, End];
    var i := 0;
    while i < |keys|
      invariant 0 <= i <= |keys|
      invariant i >= 1 ==> !InBox(p, LineHandlePosition(x1, y1, x2, y2, Start, zoom), HandleSize / zoom)
      invariant i >= 2 ==> !InBox(p, LineHandlePosition(x1, y1, x2, y2, End, zoom), HandleSize / zoom)
    {
      if InBox(p, LineHandlePosition(x1, y1, x2, y2, keys[i], zoom), HandleSize / zoom) {
        return Some(keys[i]);
      }
      i := i + 1;
    }
    return None;
  }

  // ---- Zoom ----------------------------------------------------------------

  /** The canvas view kept in the store: pan offset and zoom. */
  datatype View = View(pan: Point, zoom: real)

  predicate ZoomInRange(z: real)
  {
    MinZoom <= z <= MaxZoom
  }

  /** The new pan that keeps the world point under `anchor` where it is. */
  function Anchored(v: View, anchor: Point, newZoom: real): (r: View)
    requires v.zoom != 0.0 && newZoom != 0.0
    ensures r.zoom == newZoom
    ensures WorldPoint(anchor, r.pan, r.zoom) == WorldPoint(anchor, v.pan, v.zoom)
  {
    var w := WorldPoint(anchor, v.pan, v.zoom);
    View(Point(anchor.x - w.x * newZoom, anchor.y - w.y * newZoom), newZoom)
  }

  /**
   * handleZoomIn: zoom by 1.2 up to 10 about the viewport centre; without a
   * canvas element (`viewport` is None) the view is unchanged.
   */
  function ZoomIn(v: View, viewport: Option<Point>): (r: View)
    requires v.zoom != 0.0
    ensures viewport.None? ==> r == v
    ensures viewport.Some? ==> r.zoom == MinR(v.zoom * 1.2, MaxZoom)
    ensures ZoomInRange(v.zoom) ==> ZoomInRange(r.zoom) && r.zoom >= v.zoom
    ensures viewport.Some? ==> var c := Point(viewport.value.x / 2.0, viewport.value.y / 2.0);
      WorldPoint(c, r.pan, r.zoom) == WorldPoint(c, v.pan, v.zoom)
  {
    var newZoom := MinR(v.zoom * 1.2, MaxZoom);
    assert newZoom != 0.0;
    match viewport
    case None => v
    case Some(size) => Anchored(v, Point(size.x / 2.0, size.y / 2.0), newZoom)
  }

  /** handleZoomOut: zoom by 1/1.2 down to 0.1 about the viewport centre. */
  function ZoomOut(v: View, viewport: Option<Point>): (r: View)
    requires v.zoom != 0.0
    ensures viewport.None? ==> r == v
    ensures viewport.Some? ==> r.zoom == MaxR(v.zoom / 1.2, MinZoom)
    ensures ZoomInRange(v.zoom) ==> ZoomInRange(r.zoom) && r.zoom <= v.zoom
    ensures viewport.Some? ==> var c := Point(viewport.value.x / 2.0, viewport.value.y / 2.0);
      WorldPoint(c, r.pan, r.zoom) == WorldPoint(c, v.pan, v.zoom)
  {
    var newZoom := MaxR(v.zoom / 1.2, MinZoom);
    match viewport
    case None => v
    case Some(size) => Anchored(v, Point(size.x / 2.0, size.y / 2.0), newZoom)
  }

  /**
   * handleWheel: scrolling up zooms in by 1.1, down zooms out, clamped to
   * [0.1, 10] and anchored at the cursor; an unchanged zoom returns the
   * previous view.
   */
  function Wheel(v: View, deltaY: real, cursor: Point): (r: View)
    requires v.zoom != 0.0
    ensures r.zoom == (if deltaY < 0.0 then MinR(v.zoom * 1.1, MaxZoom) else MaxR(v.zoom / 1.1, MinZoom))
    ensures r.zoom == v.zoom ==> r == v
    ensures ZoomInRange(v.zoom) ==> ZoomInRange(r.zoom)
    ensures r.zoom != 0.0 && WorldPoint(cursor, r.pan, r.zoom) == WorldPoint(cursor, v.pan, v.zoom)
  {
    var newZoom := if deltaY < 0.0 then MinR(v.zoom * 1.1, MaxZoom) else MaxR(v.zoom / 1.1, MinZoom);
    assert newZoom != 0.0;
    if newZoom == v.zoom then v
    else
      WheelAnchorsCursor(v, cursor, newZoom);
      View(Point(WheelPan(cursor.x, v.pan.x, newZoom, v.zoom),
                 WheelPan(cursor.y, v.pan.y, newZoom, v.zoom)), newZoom)
  }

  /** The wheel's pan is the anchored pan about the cursor. */
  lemma WheelAnchorsCursor(v: View, cursor: Point, newZoom: real)
    requires v.zoom != 0.0 && newZoom != 0.0
    ensures var r := View(Point(WheelPan(cursor.x, v.pan.x, newZoom, v.zoom),
                                WheelPan(cursor.y, v.pan.y, newZoom, v.zoom)), newZoom);
      WorldPoint(cursor, r.pan, r.zoom) == WorldPoint(cursor, v.pan, v.zoom)
  {
    var a := Anchored(v, cursor, newZoom);
    var w := WorldPoint(cursor, v.pan, v.zoom);
    assert a.pan.x == cursor.x - w.x * newZoom && a.pan.y == cursor.y - w.y * newZoom;
  }

  /** `c - (c - pan) * newZoom / zoom`: the cursor's world point scaled about the cursor. */
  function WheelPan(c: real, pan: real, newZoom: real, zoom: real): (r: real)
    requires zoom != 0.0
    ensures r == c - (c - pan) / zoom * newZoom
  {
    assert (c - pan) * newZoom / zoom == ((c - pan) / zoom) * newZoom;
    c - (c - pan) * newZoom / zoom
  }

  /** Within range, a wheel step changes nothing exactly at the limit it pushes against. */
  lemma WheelStopsAtLimits(v: View, deltaY: real, cursor: Point)
    requires ZoomInRange(v.zoom)
    ensures Wheel(v, deltaY, cursor) == v <==> (if deltaY < 0.0 then v.zoom == MaxZoom else v.zoom == MinZoom)
  {
  }
}
