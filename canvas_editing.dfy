// The custom editor's pointer gestures (src/components/design/custom-design-canvas.tsx):
// what a mouse-down, a mouse-move and a mouse-up compute from the scene.
// Hit testing, drawing, dragging, resizing, rotating, painting and the
// clean-up after a draw are here; the editor class in canvas_editor.dfy
// keeps the gesture state and applies them.

module CanvasEditing {
  import opened Types
  import opened Numeric
  import opened CanvasScene
  import opened CanvasGeometry

  const MinDrawnFrameSide: real := 5.0
  const MinDrawnLineLength: real := 5.0
  const MinDrawnTextBoxSide: real := 10.0
  const MinResizedSide: real := 10.0
  const AutoDimensionOffset: real := 20.0
  const RotationSnap: real := 15.0
  const DefaultStrokeColor: string := "#343434"

  // ---- Array helpers ------------------------------------------------------

  /** `a.map(x => hit(x) ? f(x) : x)`. */
  function Updated<T>(a: seq<T>, hit: T -> bool, f: T -> T): (r: seq<T>)
    ensures |r| == |a|
    ensures forall i :: 0 <= i < |a| ==> r[i] == if hit(a[i]) then f(a[i]) else a[i]
  {
    seq(|a|, i requires 0 <= i < |a| => if hit(a[i]) then f(a[i]) else a[i])
  }

  /**
   * The loops that walk a list from its last element back to its first and
   * stop at the first element hit: the index of the last element hit.
   */
  method LastHit<T>(a: seq<T>, hit: T -> bool) returns (r: Option<nat>)
    ensures r == LastIndex(a, hit)
  {
    var i := |a|;
    while i > 0
      invariant 0 <= i <= |a|
      invariant forall j :: i <= j < |a| ==> !hit(a[j])
    {
      i := i - 1;
      if hit(a[i]) {
        TopmostIsLastIndex(a, hit, i);
        return Some(i);
      }
    }
    return None;
  }

  /** The index of the last element hit, if any. */
  function LastIndex<T>(a: seq<T>, hit: T -> bool): (r: Option<nat>)
    ensures r.Some? ==> TopmostHit(a, hit, r.value)
    ensures r.None? ==> NoneHit(a, hit)
    decreases |a|
  {
    if a == [] then None
    else if hit(a[|a| - 1]) then Some(|a| - 1)
    else LastIndex(a[..|a| - 1], hit)
  }

  /** There is one topmost hit, so an index that is one is LastIndex's. */
  lemma TopmostIsLastIndex<T>(a: seq<T>, hit: T -> bool, i: int)
    requires TopmostHit(a, hit, i)
    ensures LastIndex(a, hit) == Some(i)
  {
  }

  /** An update that no hit test can see leaves the last hit where it was. */
  lemma LastIndexOfUpdated<T>(a: seq<T>, hit: T -> bool, sel: T -> bool, f: T -> T)
    requires forall x :: hit(f(x)) == hit(x)
    ensures LastIndex(Updated(a, sel, f), hit) == LastIndex(a, hit)
  {
    var b := Updated(a, sel, f);
    assert forall j :: 0 <= j < |a| ==> hit(b[j]) == hit(a[j]);
    var k := LastIndex(a, hit);
    if k.Some? {
      TopmostIsLastIndex(b, hit, k.value);
    } else {
      assert NoneHit(b, hit);
    }
  }

  /** Ids are unique within each of the four lists. */
  predicate UniqueIds(s: Scene)
  {
    (forall i, j :: 0 <= i < j < |s.frames| ==> s.frames[i].id != s.frames[j].id)
    && (forall i, j :: 0 <= i < j < |s.mullions| ==> s.mullions[i].id != s.mullions[j].id)
    && (forall i, j :: 0 <= i < j < |s.dimensions| ==> s.dimensions[i].id != s.dimensions[j].id)
    && (forall i, j :: 0 <= i < j < |s.textBoxes| ==> s.textBoxes[i].id != s.textBoxes[j].id)
  }

  // ---- Element geometry -----------------------------------------------------

  function LineOfMullion(m: Mullion): Line { Line(m.x1, m.y1, m.x2, m.y2) }
  function LineOfDimension(d: Dimension): Line { Line(d.x1, d.y1, d.x2, d.y2) }
  function RectOfFrame(f: Frame): Rect { Rect(f.x, f.y, f.width, f.height) }
  function RectOfTextBox(t: TextBox): Rect { Rect(t.x, t.y, t.width, t.height) }

  function MullionWithLine(m: Mullion, l: Line): Mullion { m.(x1 := l.x1, y1 := l.y1, x2 := l.x2, y2 := l.y2) }
  function DimensionWithLine(d: Dimension, l: Line): Dimension { d.(x1 := l.x1, y1 := l.y1, x2 := l.x2, y2 := l.y2) }
  function FrameWithRect(f: Frame, r: Rect): Frame { f.(x := r.x, y := r.y, width := r.width, height := r.height) }
  function TextBoxWithRect(t: TextBox, r: Rect): TextBox { t.(x := r.x, y := r.y, width := r.width, height := r.height) }

  /** A line moved by `d`: both ends shift by the same amount. */
  function MovedLine(l: Line, d: Point): (r: Line)
    ensures r.x1 - l.x1 == d.x && r.y1 - l.y1 == d.y && r.x2 - l.x2 == d.x && r.y2 - l.y2 == d.y
  {
    Line(l.x1 + d.x, l.y1 + d.y, l.x2 + d.x, l.y2 + d.y)
  }

  /** `${Math.round(length)}mm`, the label of a dimension. */
  function LengthLabel(length: real): string
  {
    IntToString(JsRound(length)) + "mm"
  }

  /** The length of a line, measured with `hypot`. */
  function LineLength(l: Line, hypot: Hypot): real
  {
    hypot(l.x2 - l.x1, l.y2 - l.y1)
  }

  /** Moving a line keeps its length, hence its label. */
  lemma MovedLineKeepsLength(l: Line, d: Point, hypot: Hypot)
    ensures LineLength(MovedLine(l, d), hypot) == LineLength(l, hypot)
  {
    var r := MovedLine(l, d);
    assert r.x2 - r.x1 == l.x2 - l.x1 && r.y2 - r.y1 == l.y2 - l.y1;
  }

  // ---- Hit testing (handleMouseDown, select tool) ---------------------------

  /** Which part of a selected element a press grabs. */
  datatype Grip = RectGrip(rect: RectHandle) | LineGrip(line: LineHandle)

  /** The outcome of a press with the select tool. */
  datatype Hit = GripHit(element: CanvasElement, grip: Grip) | ElementHit(element: CanvasElement) | Miss

  /** `[...frames, ...textBoxes, ...mullions, ...dimensions]`, the list a selection is looked up in. */
  function AllElements(s: Scene): (r: seq<CanvasElement>)
    ensures |r| == |s.frames| + |s.textBoxes| + |s.mullions| + |s.dimensions|
  {
    seq(|s.frames|, i requires 0 <= i < |s.frames| => FrameElement(s.frames[i]))
    + seq(|s.textBoxes|, i requires 0 <= i < |s.textBoxes| => TextBoxElement(s.textBoxes[i]))
    + seq(|s.mullions|, i requires 0 <= i < |s.mullions| => MullionElement(s.mullions[i]))
    + seq(|s.dimensions|, i requires 0 <= i < |s.dimensions| => DimensionElement(s.dimensions[i]))
  }

  /** `allElements.find(e => e.id === selectedElement.id)`: by id alone, whatever the kind. */
  function FindElement(s: Scene, id: string): Option<CanvasElement>
  {
    Find(AllElements(s), (e: CanvasElement) => IdOf(e) == id)
  }

  /** The point the handles of an element are matched against: turned back for rectangles, as is for lines. */
  function GripProbe(e: CanvasElement, p: Point, trig: Trig): Point
  {
    match e
    case FrameElement(f) => UnrotatedPoint(p, f.rotation, ElementCenter(e), trig)
    case TextBoxElement(t) => UnrotatedPoint(p, t.rotation, ElementCenter(e), trig)
    case _ => p
  }

  function ElementRect(e: CanvasElement): Rect
  {
    match e
    case FrameElement(f) => RectOfFrame(f)
    case TextBoxElement(t) => RectOfTextBox(t)
    case MullionElement(m) => Rect(m.x1, m.y1, 0.0, 0.0)
    case DimensionElement(d) => Rect(d.x1, d.y1, 0.0, 0.0)
  }

  function ElementLine(e: CanvasElement): Line
  {
    match e
    case MullionElement(m) => LineOfMullion(m)
    case DimensionElement(d) => LineOfDimension(d)
    case FrameElement(f) => Line(f.x, f.y, f.x, f.y)
    case TextBoxElement(t) => Line(t.x, t.y, t.x, t.y)
  }

  predicate IsRectLike(e: CanvasElement) { e.FrameElement? || e.TextBoxElement? }

  predicate LineGripHits(p: Point, l: Line, h: LineHandle, zoom: real)
    requires zoom != 0.0
  {
    InBox(p, LineHandlePosition(l.x1, l.y1, l.x2, l.y2, h, zoom), HandleSize / zoom)
  }

  /** The grip is the first handle of the element, in key order, that the press hits. */
  predicate FirstGrip(e: CanvasElement, p: Point, g: Grip, zoom: real, trig: Trig)
    requires zoom != 0.0
  {
    var q := GripProbe(e, p, trig);
    if IsRectLike(e) then
      g.RectGrip? && HitsHandle(q, ElementRect(e), g.rect, zoom)
      && forall h :: Rank(h) < Rank(g.rect) ==> !HitsHandle(q, ElementRect(e), h, zoom)
    else
      g.LineGrip? && LineGripHits(q, ElementLine(e), g.line, zoom)
      && (g.line == End ==> !LineGripHits(q, ElementLine(e), Start, zoom))
  }

  /** No handle of the element is hit. */
  predicate NoGrip(e: CanvasElement, p: Point, zoom: real, trig: Trig)
    requires zoom != 0.0
  {
    var q := GripProbe(e, p, trig);
    if IsRectLike(e) then forall h :: !HitsHandle(q, ElementRect(e), h, zoom)
    else !LineGripHits(q, ElementLine(e), Start, zoom) && !LineGripHits(q, ElementLine(e), End, zoom)
  }

  /** getHandleAtPoint or getLineHandleAtPoint, as the element's kind chooses. */
  method GripAt(e: CanvasElement, p: Point, zoom: real, trig: Trig) returns (g: Option<Grip>)
    requires zoom != 0.0
    ensures g.Some? ==> FirstGrip(e, p, g.value, zoom, trig)
    ensures g.None? ==> NoGrip(e, p, zoom, trig)
  {
    var q := GripProbe(e, p, trig);
    if IsRectLike(e) {
      var h := HandleAtPoint(q, ElementRect(e), zoom);
      g := if h.Some? then Some(RectGrip(h.value)) else None;
    } else {
      var l := ElementLine(e);
      var h := LineHandleAtPoint(q, l.x1, l.y1, l.x2, l.y2, zoom);
      g := if h.Some? then Some(LineGrip(h.value)) else None;
    }
  }

  /** No grip of the selected element is hit (or nothing is selected, or it is gone). */
  predicate NoSelectedGrip(s: Scene, selected: Option<Selection>, p: Point, zoom: real, trig: Trig)
    requires zoom != 0.0
  {
    selected.Some? && FindElement(s, selected.value.id).Some? ==>
      NoGrip(FindElement(s, selected.value.id).value, p, zoom, trig)
  }

  /**
   * The point a dimension is hit-matched against: turned back about its stored rotation
   * centre when it has a rotation and both centre coordinates.
   */
  function DimensionProbe(d: Dimension, p: Point, trig: Trig): Point
  {
    if d.rotationCenterX.Some? && d.rotationCenterY.Some? then
      UnrotatedPoint(p, d.rotation, Point(d.rotationCenterX.value, d.rotationCenterY.value), trig)
    else p
  }

  /** A dimension is hit within 8/zoom of its line. */
  predicate DimensionHit(d: Dimension, p: Point, zoom: real, trig: Trig)
    requires zoom != 0.0
  {
    IsPointOnLine(d.x1, d.y1, d.x2, d.y2, DimensionProbe(d, p, trig), SnapThreshold / zoom)
  }

  /** A mullion is hit within half its thickness (`thickness || 40`). */
  predicate MullionHit(m: Mullion, p: Point)
  {
    IsPointOnLine(m.x1, m.y1, m.x2, m.y2, p, ThicknessOr(m.thickness) / 2.0)
  }

  predicate InRect(q: Point, r: Rect)
  {
    r.x <= q.x <= r.x + r.width && r.y <= q.y <= r.y + r.height
  }

  /** A frame is hit when the press, turned back by its rotation, lies in its rectangle (edges included). */
  predicate FrameHit(f: Frame, p: Point, trig: Trig)
  {
    InRect(FramePoint(f, p, trig), RectOfFrame(f))
  }

  /** A point turned back by a frame's rotation about the frame's centre. */
  function FramePoint(f: Frame, p: Point, trig: Trig): Point
  {
    UnrotatedPoint(p, f.rotation, ElementCenter(FrameElement(f)), trig)
  }

  /** The hit tests as values, for the loops that walk a list. */
  function FrameHitAt(p: Point, trig: Trig): Frame -> bool { (f: Frame) => FrameHit(f, p, trig) }
  function MullionHitAt(p: Point): Mullion -> bool { (m: Mullion) => MullionHit(m, p) }
  function DimensionHitAt(p: Point, zoom: real, trig: Trig): Dimension -> bool
    requires zoom != 0.0
  {
    (d: Dimension) => DimensionHit(d, p, zoom, trig)
  }
  function TextBoxHitAt(p: Point, trig: Trig): TextBox -> bool { (t: TextBox) => TextBoxHit(t, p, trig) }

  predicate TextBoxHit(t: TextBox, p: Point, trig: Trig)
  {
    InRect(UnrotatedPoint(p, t.rotation, ElementCenter(TextBoxElement(t)), trig), RectOfTextBox(t))
  }

  /** `a[i]` is hit and nothing after it is. */
  predicate TopmostHit<T>(a: seq<T>, hit: T -> bool, i: int)
  {
    0 <= i < |a| && hit(a[i]) && forall j :: i < j < |a| ==> !hit(a[j])
  }

  predicate NoneHit<T>(a: seq<T>, hit: T -> bool)
  {
    forall j :: 0 <= j < |a| ==> !hit(a[j])
  }

  /**
   * The select tool's press: a handle of the selected element first, then
   * dimensions, mullions, frames and text boxes, each from the last drawn
   * back to the first.
   */
  method HitTest(s: Scene, selected: Option<Selection>, p: Point, zoom: real, trig: Trig) returns (hit: Hit)
    requires zoom != 0.0
    ensures hit.GripHit? <==> (selected.Some? && FindElement(s, selected.value.id).Some?
      && !NoGrip(FindElement(s, selected.value.id).value, p, zoom, trig))
    ensures hit.GripHit? ==> (FindElement(s, selected.value.id) == Some(hit.element)
      && FirstGrip(hit.element, p, hit.grip, zoom, trig))
    ensures hit.ElementHit? && hit.element.DimensionElement? ==>
      exists i :: TopmostHit(s.dimensions, DimensionHitAt(p, zoom, trig), i)
        && s.dimensions[i] == hit.element.dimension
    ensures hit.ElementHit? && hit.element.MullionElement? ==>
      NoneHit(s.dimensions, DimensionHitAt(p, zoom, trig))
      && exists i :: TopmostHit(s.mullions, MullionHitAt(p), i) && s.mullions[i] == hit.element.mullion
    ensures hit.ElementHit? && hit.element.FrameElement? ==>
      NoneHit(s.dimensions, DimensionHitAt(p, zoom, trig))
      && NoneHit(s.mullions, MullionHitAt(p))
      && exists i :: TopmostHit(s.frames, FrameHitAt(p, trig), i) && s.frames[i] == hit.element.frame
    ensures hit.ElementHit? && hit.element.TextBoxElement? ==>
      NoneHit(s.dimensions, DimensionHitAt(p, zoom, trig))
      && NoneHit(s.mullions, MullionHitAt(p))
      && NoneHit(s.frames, FrameHitAt(p, trig))
      && exists i :: TopmostHit(s.textBoxes, TextBoxHitAt(p, trig), i) && s.textBoxes[i] == hit.element.textBox
    ensures hit == Miss ==>
      NoneHit(s.dimensions, DimensionHitAt(p, zoom, trig))
      && NoneHit(s.mullions, MullionHitAt(p))
      && NoneHit(s.frames, FrameHitAt(p, trig))
      && NoneHit(s.textBoxes, TextBoxHitAt(p, trig))
  {
    if selected.Some? {
      var found := FindElement(s, selected.value.id);
      if found.Some? {
        var g := GripAt(found.value, p, zoom, trig);
        if g.Some? {
          return GripHit(found.value, g.value);
        }
      }
    }
    var dimHit := DimensionHitAt(p, zoom, trig);
    var di := LastHit(s.dimensions, dimHit);
    if di.Some? {
      return ElementHit(DimensionElement(s.dimensions[di.value]));
    }
    var mullionHit := MullionHitAt(p);
    var mi := LastHit(s.mullions, mullionHit);
    if mi.Some? {
      return ElementHit(MullionElement(s.mullions[mi.value]));
    }
    var frameHit := FrameHitAt(p, trig);
    var fi := LastHit(s.frames, frameHit);
    if fi.Some? {
      return ElementHit(FrameElement(s.frames[fi.value]));
    }
    var boxHit := TextBoxHitAt(p, trig);
    var ti := LastHit(s.textBoxes, boxHit);
    if ti.Some? {
      return ElementHit(TextBoxElement(s.textBoxes[ti.value]));
    }
    return Miss;
  }

  /** Every point of an unrotated dimension of positive length is on it, at any positive zoom. */
  lemma DimensionPointIsHit(d: Dimension, s: real, zoom: real, trig: Trig)
    requires 0.0 <= s <= 1.0 && zoom > 0.0
    requires d.rotation.None?
    requires (d.x2 - d.x1) * (d.x2 - d.x1) + (d.y2 - d.y1) * (d.y2 - d.y1) != 0.0
    ensures DimensionHit(d, Point(d.x1 + s * (d.x2 - d.x1), d.y1 + s * (d.y2 - d.y1)), zoom, trig)
  {
    PointOfSegmentIsOnLine(d.x1, d.y1, d.x2, d.y2, s, SnapThreshold / zoom);
  }

  /** The frame hit test is inclusive: both corners of an unrotated frame count as inside it. */
  lemma FrameCornerIsHit(f: Frame, trig: Trig)
    requires NoRotation(f.rotation) && f.width >= 0.0 && f.height >= 0.0
    ensures FrameHit(f, Point(f.x, f.y), trig) && FrameHit(f, Point(f.x + f.width, f.y + f.height), trig)
  {
  }

  // ---- Drawing (handleMouseDown and handleMouseMove, draw tools) ------------

  datatype DrawTool = FrameTool | MullionTool | DimensionTool | TextTool

  /** The element a draw tool puts down at the press: no extent yet, the editor's defaults. */
  function Started(tool: DrawTool, id: string, at: Point): (e: CanvasElement)
    ensures IdOf(e) == id
  {
    match tool
    case FrameTool =>
      FrameElement(Frame(id, at.x, at.y, 0.0, 0.0, None, Some(DefaultStrokeColor), Some(Aluminum),
        Some(GlassInfill), Some(StandardGlass), None, None, Some(FixedOpening), Some(0), None))
    case MullionTool =>
      MullionElement(Mullion(id, at.x, at.y, at.x, at.y, None, Some(DefaultStrokeColor), Some(Aluminum), None, None))
    case DimensionTool =>
      DimensionElement(Dimension(id, at.x, at.y, at.x, at.y, "0mm", None, None, None, None))
    case TextTool =>
      TextBoxElement(TextBox(id, at.x, at.y, 0.0, 0.0, "Text", 16.0, "hsl(var(--foreground))", None))
  }

  /** `[...list, e]` on the list of e's kind. */
  function Appended(s: Scene, e: CanvasElement): (r: Scene)
    ensures e.FrameElement? ==> r == s.(frames := s.frames + [e.frame])
    ensures e.MullionElement? ==> r == s.(mullions := s.mullions + [e.mullion])
    ensures e.DimensionElement? ==> r == s.(dimensions := s.dimensions + [e.dimension])
    ensures e.TextBoxElement? ==> r == s.(textBoxes := s.textBoxes + [e.textBox])
  {
    match e
    case FrameElement(f) => s.(frames := s.frames + [f])
    case MullionElement(m) => s.(mullions := s.mullions + [m])
    case DimensionElement(d) => s.(dimensions := s.dimensions + [d])
    case TextBoxElement(t) => s.(textBoxes := s.textBoxes + [t])
  }

  /** A frame's drag target, each coordinate snapped to the grid when near it. */
  function SnappedPoint(p: Point, zoom: real): Point
    requires zoom != 0.0
  {
    Point(Snap(p.x, zoom), Snap(p.y, zoom))
  }

  /** The rectangle dragged out between two corners, whichever way the drag went. */
  function SpannedRect(a: Point, b: Point): (r: Rect)
    ensures r.width >= 0.0 && r.height >= 0.0
    ensures r.x == MinR(a.x, b.x) && r.x + r.width == MaxR(a.x, b.x)
    ensures r.y == MinR(a.y, b.y) && r.y + r.height == MaxR(a.y, b.y)
  {
    Rect(MinR(a.x, b.x), MinR(a.y, b.y), AbsR(a.x - b.x), AbsR(a.y - b.y))
  }

  /** Both corners lie in the rectangle they span, whichever is the start. */
  lemma SpannedRectHoldsCorners(a: Point, b: Point)
    ensures SpannedRect(a, b) == SpannedRect(b, a)
    ensures InRect(a, SpannedRect(a, b)) && InRect(b, SpannedRect(a, b))
  {
  }

  /**
   * Shift while drawing or resizing a mullion: the moving end locked to the
   * horizontal or the vertical through the fixed end, whichever axis the
   * pointer is further along.
   */
  function AxisLocked(anchor: Point, p: Point): (r: Point)
    ensures r.x == anchor.x || r.y == anchor.y
    ensures r.x == p.x || r.y == p.y
  {
    if AbsR(p.x - anchor.x) > AbsR(p.y - anchor.y) then Point(p.x, anchor.y) else Point(anchor.x, p.y)
  }

  /** The locked end is the nearer of the two axis-aligned candidates to the pointer. */
  lemma AxisLockedIsNearer(anchor: Point, p: Point)
    ensures SqDist(AxisLocked(anchor, p), p) <= SqDist(Point(p.x, anchor.y), p)
    ensures SqDist(AxisLocked(anchor, p), p) <= SqDist(Point(anchor.x, p.y), p)
  {
    var dx, dy := p.x - anchor.x, p.y - anchor.y;
    assert SqDist(Point(p.x, anchor.y), p) == 0.0 * 0.0 + (anchor.y - p.y) * (anchor.y - p.y);
    assert SqDist(Point(anchor.x, p.y), p) == (anchor.x - p.x) * (anchor.x - p.x) + 0.0 * 0.0;
    if AbsR(dx) > AbsR(dy) {
      SquareMonotone(anchor.y - p.y, anchor.x - p.x);
    } else {
      SquareMonotone(anchor.x - p.x, anchor.y - p.y);
    }
  }

  lemma SquareMonotone(a: real, b: real)
    requires AbsR(a) <= AbsR(b)
    ensures a * a <= b * b
  {
    var x, y := AbsR(a), AbsR(b);
    assert x * x == a * a;
    assert y * y == b * b;
    assert x * x <= x * y;
    assert x * y <= y * y;
  }

  /** Locking an end already on an axis leaves it there. */
  lemma AxisLockedIdempotent(anchor: Point, p: Point)
    ensures AxisLocked(anchor, AxisLocked(anchor, p)) == AxisLocked(anchor, p)
  {
  }

  /**
   * One move of the pointer while drawing: the drawn element, found by id in
   * its list, spans from where the press put it to the pointer — snapped for
   * frames, axis-locked with shift for mullions, labelled with its rounded
   * length for dimensions.  No other element changes.
   */
  function DrawStep(s: Scene, initial: CanvasElement, world: Point, zoom: real, shift: bool, hypot: Hypot): (r: Scene)
    requires zoom != 0.0
    ensures !initial.FrameElement? ==> r.frames == s.frames
    ensures !initial.MullionElement? ==> r.mullions == s.mullions
    ensures !initial.DimensionElement? ==> r.dimensions == s.dimensions
    ensures !initial.TextBoxElement? ==> r.textBoxes == s.textBoxes
    ensures initial.FrameElement? ==> |r.frames| == |s.frames| && forall i :: 0 <= i < |s.frames| ==>
      r.frames[i] == if s.frames[i].id == initial.frame.id
        then FrameWithRect(s.frames[i], SpannedRect(Point(initial.frame.x, initial.frame.y), SnappedPoint(world, zoom)))
        else s.frames[i]
    ensures initial.MullionElement? ==> |r.mullions| == |s.mullions| && forall i :: 0 <= i < |s.mullions| ==>
      r.mullions[i] == if s.mullions[i].id == initial.mullion.id
        then MullionWithLine(s.mullions[i], Line(s.mullions[i].x1, s.mullions[i].y1,
          DrawnEnd(initial.mullion, world, shift).x, DrawnEnd(initial.mullion, world, shift).y))
        else s.mullions[i]
    ensures initial.DimensionElement? ==> |r.dimensions| == |s.dimensions| && forall i :: 0 <= i < |s.dimensions| ==>
      r.dimensions[i] == if s.dimensions[i].id == initial.dimension.id
        then DrawnDimension(s.dimensions[i], world, hypot)
        else s.dimensions[i]
    ensures initial.TextBoxElement? ==> |r.textBoxes| == |s.textBoxes| && forall i :: 0 <= i < |s.textBoxes| ==>
      r.textBoxes[i] == if s.textBoxes[i].id == initial.textBox.id
        then TextBoxWithRect(s.textBoxes[i], SpannedRect(Point(initial.textBox.x, initial.textBox.y), world))
        else s.textBoxes[i]
  {
    match initial
    case FrameElement(f0) =>
      var rect := SpannedRect(Point(f0.x, f0.y), SnappedPoint(world, zoom));
      s.(frames := Updated(s.frames, (f: Frame) => f.id == f0.id, (f: Frame) => FrameWithRect(f, rect)))
    case MullionElement(m0) =>
      var end := DrawnEnd(m0, world, shift);
      s.(mullions := Updated(s.mullions, (m: Mullion) => m.id == m0.id,
        (m: Mullion) => MullionWithLine(m, Line(m.x1, m.y1, end.x, end.y))))
    case DimensionElement(d0) =>
      s.(dimensions := Updated(s.dimensions, (d: Dimension) => d.id == d0.id,
        (d: Dimension) => DrawnDimension(d, world, hypot)))
    case TextBoxElement(t0) =>
      var rect := SpannedRect(Point(t0.x, t0.y), world);
      s.(textBoxes := Updated(s.textBoxes, (t: TextBox) => t.id == t0.id, (t: TextBox) => TextBoxWithRect(t, rect)))
  }

  /** The free end of a mullion being drawn. */
  function DrawnEnd(m0: Mullion, world: Point, shift: bool): Point
  {
    if shift then AxisLocked(Point(m0.x1, m0.y1), world) else world
  }

  /** A dimension being drawn: its end at the pointer, its label the rounded length. */
  function DrawnDimension(d: Dimension, world: Point, hypot: Hypot): (r: Dimension)
    ensures LineOfDimension(r) == Line(d.x1, d.y1, world.x, world.y)
    ensures r.text == LengthLabel(LineLength(LineOfDimension(r), hypot))
  {
    RelabelledLine(d, Line(d.x1, d.y1, world.x, world.y), hypot)
  }

  /** `lastDrawnElement`: the drawn element as the latest move left it, looked up by id. */
  function DrawnElement(s: Scene, initial: CanvasElement): Option<CanvasElement>
  {
    match initial
    case FrameElement(f0) =>
      var f := Find(s.frames, (f: Frame) => f.id == f0.id);
      if f.Some? then Some(FrameElement(f.value)) else None
    case MullionElement(m0) =>
      var m := Find(s.mullions, (m: Mullion) => m.id == m0.id);
      if m.Some? then Some(MullionElement(m.value)) else None
    case DimensionElement(d0) =>
      var d := Find(s.dimensions, (d: Dimension) => d.id == d0.id);
      if d.Some? then Some(DimensionElement(d.value)) else None
    case TextBoxElement(t0) =>
      var t := Find(s.textBoxes, (t: TextBox) => t.id == t0.id);
      if t.Some? then Some(TextBoxElement(t.value)) else None
  }

  /** A drawn frame spans the press and the snapped pointer, and has no negative side. */
  lemma DrawnFrameSpansDrag(s: Scene, f0: Frame, world: Point, zoom: real, shift: bool, hypot: Hypot, i: int)
    requires zoom != 0.0 && 0 <= i < |s.frames| && s.frames[i].id == f0.id
    ensures var f := DrawStep(s, FrameElement(f0), world, zoom, shift, hypot).frames[i];
      f.width >= 0.0 && f.height >= 0.0
      && InRect(Point(f0.x, f0.y), RectOfFrame(f)) && InRect(SnappedPoint(world, zoom), RectOfFrame(f))
  {
    SpannedRectHoldsCorners(Point(f0.x, f0.y), SnappedPoint(world, zoom));
  }

  // ---- Dragging (handleMouseDown, handleMouseMove in 'dragging') -----------

  /** An element carried along by a drag, with its position at the press. */
  datatype ChildStart = ChildStart(id: string, kind: ElementKind, start: Line)

  function DimensionEntry(d: Dimension): ChildStart { ChildStart(d.id, DimensionKind, LineOfDimension(d)) }
  function MullionEntry(m: Mullion): ChildStart { ChildStart(m.id, MullionKind, LineOfMullion(m)) }

  /** `a.filter(keep).map(entry)`. */
  function Children<T>(a: seq<T>, keep: T -> bool, entry: T -> ChildStart): (r: seq<ChildStart>)
    ensures forall i :: 0 <= i < |a| && keep(a[i]) ==> entry(a[i]) in r
    ensures forall c :: c in r ==> exists i :: 0 <= i < |a| && keep(a[i]) && c == entry(a[i])
    decreases |a|
  {
    if a == [] then []
    else
      var rest := Children(a[1..], keep, entry);
      assert forall c :: c in rest ==> exists i :: 0 <= i < |a| && keep(a[i]) && c == entry(a[i]) by {
        forall c | c in rest ensures exists i :: 0 <= i < |a| && keep(a[i]) && c == entry(a[i]) {
          var j :| 0 <= j < |a[1..]| && keep(a[1..][j]) && c == entry(a[1..][j]);
          assert a[j + 1] == a[1..][j];
        }
      }
      assert forall i :: 0 <= i < |a| && keep(a[i]) && i > 0 ==> entry(a[i]) in rest by {
        forall i | 0 <= i < |a| && keep(a[i]) && i > 0 ensures entry(a[i]) in rest {
          assert a[1..][i - 1] == a[i];
        }
      }
      (if keep(a[0]) then [entry(a[0])] else []) + rest
  }

  /** A frame carries the dimensions and the mullions whose parent it is. */
  function FrameChildren(s: Scene, id: string): seq<ChildStart>
  {
    Children(s.dimensions, (d: Dimension) => d.parentId == Some(id), DimensionEntry)
    + Children(s.mullions, (m: Mullion) => m.parentId == Some(id), MullionEntry)
  }

  /** A grouped mullion carries the rest of its group; any mullion carries its own dimensions. */
  function MullionChildren(s: Scene, m0: Mullion): seq<ChildStart>
  {
    Children(s.dimensions, (d: Dimension) => d.parentId == Some(m0.id), DimensionEntry)
    + (if Truthy(m0.groupId) then
         Children(s.mullions, (m: Mullion) => m.groupId == m0.groupId && m.id != m0.id, MullionEntry)
       else [])
  }

  /** `childElements.find(c => c.id === id && c.type === kind)`. */
  function FindChild(children: seq<ChildStart>, id: string, kind: ElementKind): Option<ChildStart>
  {
    Find(children, (c: ChildStart) => c.id == id && c.kind == kind)
  }

  /** `a.map(f)`. */
  function MapAll<T>(a: seq<T>, f: T -> T): (r: seq<T>)
    ensures |r| == |a| && forall i :: 0 <= i < |a| ==> r[i] == f(a[i])
  {
    seq(|a|, i requires 0 <= i < |a| => f(a[i]))
  }

  function DeltaOf(start: Point, world: Point): Point
  {
    Point(world.x - start.x, world.y - start.y)
  }

  /** A mullion carried by a drag: its press position moved by the delta. */
  function CarriedMullion(m: Mullion, children: seq<ChildStart>, delta: Point): Mullion
  {
    match FindChild(children, m.id, MullionKind)
    case Some(c) => MullionWithLine(m, MovedLine(c.start, delta))
    case None => m
  }

  /** A dimension carried by a frame: moved, and its rotation centre put on the frame's centre at the press. */
  function CarriedDimension(d: Dimension, children: seq<ChildStart>, delta: Point, center: Point): Dimension
  {
    match FindChild(children, d.id, DimensionKind)
    case Some(c) =>
      DimensionWithLine(d, MovedLine(c.start, delta)).(rotationCenterX := Some(center.x), rotationCenterY := Some(center.y))
    case None => d
  }

  /** A dimension carried by a mullion: moved and labelled afresh. */
  function RelabelledDimension(d: Dimension, children: seq<ChildStart>, delta: Point, hypot: Hypot): Dimension
  {
    match FindChild(children, d.id, DimensionKind)
    case Some(c) =>
      var l := MovedLine(c.start, delta);
      DimensionWithLine(d, l).(text := LengthLabel(LineLength(l, hypot)))
    case None => d
  }

  /**
   * Dragging a frame: the frame goes to its press position plus the delta,
   * snapped to the grid; its carried dimensions and mullions go to their
   * press positions plus the same delta, without snapping.
   */
  function DragFrame(s: Scene, f0: Frame, start: Point, children: seq<ChildStart>, world: Point, zoom: real): (r: Scene)
    requires zoom != 0.0
    ensures r.textBoxes == s.textBoxes
    ensures |r.frames| == |s.frames| && forall i :: 0 <= i < |s.frames| ==>
      r.frames[i] == if s.frames[i].id == f0.id
        then s.frames[i].(x := FramePosition(f0, start, world, zoom).x, y := FramePosition(f0, start, world, zoom).y)
        else s.frames[i]
    ensures |r.dimensions| == |s.dimensions| && forall i :: 0 <= i < |s.dimensions| ==>
      r.dimensions[i] == CarriedDimension(s.dimensions[i], children, DeltaOf(start, world), ElementCenter(FrameElement(f0)))
    ensures |r.mullions| == |s.mullions| && forall i :: 0 <= i < |s.mullions| ==>
      r.mullions[i] == CarriedMullion(s.mullions[i], children, DeltaOf(start, world))
  {
    var delta := DeltaOf(start, world);
    var pos := FramePosition(f0, start, world, zoom);
    var center := ElementCenter(FrameElement(f0));
    s.(frames := Updated(s.frames, (f: Frame) => f.id == f0.id, (f: Frame) => f.(x := pos.x, y := pos.y)),
       dimensions := MapAll(s.dimensions, (d: Dimension) => CarriedDimension(d, children, delta, center)),
       mullions := MapAll(s.mullions, (m: Mullion) => CarriedMullion(m, children, delta)))
  }

  /** Where a dragged frame or text box lands: its press position plus the delta, snapped. */
  function FramePosition(f0: Frame, start: Point, world: Point, zoom: real): Point
    requires zoom != 0.0
  {
    SnappedPoint(Point(f0.x + (world.x - start.x), f0.y + (world.y - start.y)), zoom)
  }

  /** Dragging a text box: it lands like a frame and carries nothing. */
  function DragTextBox(s: Scene, t0: TextBox, start: Point, world: Point, zoom: real): (r: Scene)
    requires zoom != 0.0
    ensures r.frames == s.frames && r.mullions == s.mullions && r.dimensions == s.dimensions
    ensures |r.textBoxes| == |s.textBoxes| && forall i :: 0 <= i < |s.textBoxes| ==>
      r.textBoxes[i] == if s.textBoxes[i].id == t0.id
        then s.textBoxes[i].(x := Snap(t0.x + (world.x - start.x), zoom), y := Snap(t0.y + (world.y - start.y), zoom))
        else s.textBoxes[i]
  {
    var x, y := Snap(t0.x + (world.x - start.x), zoom), Snap(t0.y + (world.y - start.y), zoom);
    s.(textBoxes := Updated(s.textBoxes, (t: TextBox) => t.id == t0.id, (t: TextBox) => t.(x := x, y := y)))
  }

  /**
   * Dragging a mullion: it moves by the delta from its press position, and
   * so do the rest of its group and its dimensions, which are relabelled.
   */
  function DragMullion(s: Scene, m0: Mullion, start: Point, children: seq<ChildStart>, world: Point, hypot: Hypot): (r: Scene)
    ensures r.frames == s.frames && r.textBoxes == s.textBoxes
    ensures |r.mullions| == |s.mullions| && forall i :: 0 <= i < |s.mullions| ==>
      r.mullions[i] == if s.mullions[i].id == m0.id
        then MullionWithLine(s.mullions[i], MovedLine(LineOfMullion(m0), DeltaOf(start, world)))
        else CarriedMullion(s.mullions[i], children, DeltaOf(start, world))
    ensures |r.dimensions| == |s.dimensions| && forall i :: 0 <= i < |s.dimensions| ==>
      r.dimensions[i] == RelabelledDimension(s.dimensions[i], children, DeltaOf(start, world), hypot)
  {
    var delta := DeltaOf(start, world);
    s.(mullions := MapAll(s.mullions, (m: Mullion) =>
         if m.id == m0.id then MullionWithLine(m, MovedLine(LineOfMullion(m0), delta)) else CarriedMullion(m, children, delta)),
       dimensions := MapAll(s.dimensions, (d: Dimension) => RelabelledDimension(d, children, delta, hypot)))
  }

  /** Dragging a dimension: it alone moves by the delta from its press position. */
  function DragDimension(s: Scene, d0: Dimension, start: Point, world: Point): (r: Scene)
    ensures r.frames == s.frames && r.mullions == s.mullions && r.textBoxes == s.textBoxes
    ensures |r.dimensions| == |s.dimensions| && forall i :: 0 <= i < |s.dimensions| ==>
      r.dimensions[i] == if s.dimensions[i].id == d0.id
        then DimensionWithLine(s.dimensions[i], MovedLine(LineOfDimension(d0), DeltaOf(start, world)))
        else s.dimensions[i]
  {
    var l := MovedLine(LineOfDimension(d0), DeltaOf(start, world));
    s.(dimensions := Updated(s.dimensions, (d: Dimension) => d.id == d0.id, (d: Dimension) => DimensionWithLine(d, l)))
  }

  /**
   * With unique ids, a dimension finds its own entry when it is carried and
   * none when it is not.
   */
  lemma DimensionChildLookup(ds: seq<Dimension>, keep: Dimension -> bool, extra: seq<ChildStart>, i: int)
    requires 0 <= i < |ds|
    requires forall a, b :: 0 <= a < b < |ds| ==> ds[a].id != ds[b].id
    requires forall c :: c in extra ==> c.kind != DimensionKind
    ensures FindChild(Children(ds, keep, DimensionEntry) + extra, ds[i].id, DimensionKind)
      == if keep(ds[i]) then Some(DimensionEntry(ds[i])) else None
  {
    var own := Children(ds, keep, DimensionEntry);
    var all := own + extra;
    if keep(ds[i]) {
      assert DimensionEntry(ds[i]) in all;
    }
    var r := FindChild(all, ds[i].id, DimensionKind);
    if r.Some? {
      var j :| 0 <= j < |all| && all[j] == r.value && all[j].id == ds[i].id && all[j].kind == DimensionKind;
      assert all[j] !in extra;
      assert all[j] in own;
      var a :| 0 <= a < |ds| && keep(ds[a]) && all[j] == DimensionEntry(ds[a]);
      assert a == i;
    }
  }

  /** The same for a carried mullion, whose entries follow entries of other kinds. */
  lemma MullionChildLookup(ms: seq<Mullion>, keep: Mullion -> bool, prefix: seq<ChildStart>, i: int)
    requires 0 <= i < |ms|
    requires forall a, b :: 0 <= a < b < |ms| ==> ms[a].id != ms[b].id
    requires forall c :: c in prefix ==> c.kind != MullionKind
    ensures FindChild(prefix + Children(ms, keep, MullionEntry), ms[i].id, MullionKind)
      == if keep(ms[i]) then Some(MullionEntry(ms[i])) else None
  {
    var own := Children(ms, keep, MullionEntry);
    var all := prefix + own;
    if keep(ms[i]) {
      assert MullionEntry(ms[i]) in all;
    }
    var r := FindChild(all, ms[i].id, MullionKind);
    if r.Some? {
      var j :| 0 <= j < |all| && all[j] == r.value && all[j].id == ms[i].id && all[j].kind == MullionKind;
      assert all[j] !in prefix;
      assert all[j] in own;
      var a :| 0 <= a < |ms| && keep(ms[a]) && all[j] == MullionEntry(ms[a]);
      assert a == i;
    }
  }

  /** Entries of one kind are never found for another. */
  lemma NoChildOfKind(children: seq<ChildStart>, id: string, kind: ElementKind)
    requires forall c :: c in children ==> c.kind != kind
    ensures FindChild(children, id, kind) == None
  {
  }

  /**
   * Moving a frame moves each dimension and mullion whose parent it is by
   * the pointer's delta from the press, and nothing else among them.
   */
  lemma FrameDragCarriesChildren(s: Scene, f0: Frame, start: Point, world: Point, zoom: real)
    requires zoom != 0.0 && UniqueIds(s)
    ensures var r := DragFrame(s, f0, start, FrameChildren(s, f0.id), world, zoom);
      (forall i :: 0 <= i < |s.dimensions| ==>
        if s.dimensions[i].parentId == Some(f0.id)
        then LineOfDimension(r.dimensions[i]) == MovedLine(LineOfDimension(s.dimensions[i]), DeltaOf(start, world))
        else r.dimensions[i] == s.dimensions[i])
      && (forall i :: 0 <= i < |s.mullions| ==>
        if s.mullions[i].parentId == Some(f0.id)
        then LineOfMullion(r.mullions[i]) == MovedLine(LineOfMullion(s.mullions[i]), DeltaOf(start, world))
        else r.mullions[i] == s.mullions[i])
  {
    var keepD := (d: Dimension) => d.parentId == Some(f0.id);
    var keepM := (m: Mullion) => m.parentId == Some(f0.id);
    var dimPart := Children(s.dimensions, keepD, DimensionEntry);
    var mullionPart := Children(s.mullions, keepM, MullionEntry);
    assert FrameChildren(s, f0.id) == dimPart + mullionPart;
    forall i | 0 <= i < |s.dimensions|
      ensures FindChild(dimPart + mullionPart, s.dimensions[i].id, DimensionKind)
        == if keepD(s.dimensions[i]) then Some(DimensionEntry(s.dimensions[i])) else None
    {
      DimensionChildLookup(s.dimensions, keepD, mullionPart, i);
    }
    forall i | 0 <= i < |s.mullions|
      ensures FindChild(dimPart + mullionPart, s.mullions[i].id, MullionKind)
        == if keepM(s.mullions[i]) then Some(MullionEntry(s.mullions[i])) else None
    {
      MullionChildLookup(s.mullions, keepM, dimPart, i);
    }
  }

  /**
   * Moving a mullion moves the rest of its group (when it has one) and its
   * own dimensions by the same delta; those dimensions keep their labels'
   * lengths.  Other mullions and dimensions stay.
   */
  lemma MullionDragCarriesGroup(s: Scene, m0: Mullion, start: Point, world: Point, hypot: Hypot)
    requires UniqueIds(s)
    ensures var r := DragMullion(s, m0, start, MullionChildren(s, m0), world, hypot);
      (forall i :: 0 <= i < |s.mullions| ==>
        if s.mullions[i].id == m0.id
        then LineOfMullion(r.mullions[i]) == MovedLine(LineOfMullion(m0), DeltaOf(start, world))
        else if Truthy(m0.groupId) && s.mullions[i].groupId == m0.groupId
        then LineOfMullion(r.mullions[i]) == MovedLine(LineOfMullion(s.mullions[i]), DeltaOf(start, world))
        else r.mullions[i] == s.mullions[i])
      && (forall i :: 0 <= i < |s.dimensions| ==>
        if s.dimensions[i].parentId == Some(m0.id)
        then LineOfDimension(r.dimensions[i]) == MovedLine(LineOfDimension(s.dimensions[i]), DeltaOf(start, world))
          && LineLength(LineOfDimension(r.dimensions[i]), hypot) == LineLength(LineOfDimension(s.dimensions[i]), hypot)
        else r.dimensions[i] == s.dimensions[i])
  {
    var delta := DeltaOf(start, world);
    var keepD := (d: Dimension) => d.parentId == Some(m0.id);
    var keepM := (m: Mullion) => m.groupId == m0.groupId && m.id != m0.id;
    var dimPart := Children(s.dimensions, keepD, DimensionEntry);
    var groupPart := if Truthy(m0.groupId) then Children(s.mullions, keepM, MullionEntry) else [];
    assert MullionChildren(s, m0) == dimPart + groupPart;
    forall i | 0 <= i < |s.dimensions|
      ensures FindChild(dimPart + groupPart, s.dimensions[i].id, DimensionKind)
        == if keepD(s.dimensions[i]) then Some(DimensionEntry(s.dimensions[i])) else None
    {
      DimensionChildLookup(s.dimensions, keepD, groupPart, i);
    }
    forall i | 0 <= i < |s.dimensions| && keepD(s.dimensions[i])
      ensures LineLength(MovedLine(LineOfDimension(s.dimensions[i]), delta), hypot)
        == LineLength(LineOfDimension(s.dimensions[i]), hypot)
    {
      MovedLineKeepsLength(LineOfDimension(s.dimensions[i]), delta, hypot);
    }
    forall i | 0 <= i < |s.mullions|
      ensures FindChild(dimPart + groupPart, s.mullions[i].id, MullionKind)
        == if Truthy(m0.groupId) && keepM(s.mullions[i]) then Some(MullionEntry(s.mullions[i])) else None
    {
      if Truthy(m0.groupId) {
        MullionChildLookup(s.mullions, keepM, dimPart, i);
      } else {
        assert dimPart + groupPart == dimPart;
        NoChildOfKind(dimPart, s.mullions[i].id, MullionKind);
      }
    }
  }

  /** Each move recomputes from the press: two moves in a row end where the second alone would. */
  lemma FrameDragForgetsEarlierMoves(s: Scene, f0: Frame, start: Point, children: seq<ChildStart>,
                                     w1: Point, w2: Point, zoom: real)
    requires zoom != 0.0
    ensures DragFrame(DragFrame(s, f0, start, children, w1, zoom), f0, start, children, w2, zoom)
      == DragFrame(s, f0, start, children, w2, zoom)
  {
    var r1 := DragFrame(s, f0, start, children, w1, zoom);
    var r2 := DragFrame(r1, f0, start, children, w2, zoom);
    var r := DragFrame(s, f0, start, children, w2, zoom);
    assert r2.frames == r.frames;
    assert r2.dimensions == r.dimensions by {
      forall i | 0 <= i < |s.dimensions| ensures r2.dimensions[i] == r.dimensions[i] {
        assert r1.dimensions[i].id == s.dimensions[i].id;
      }
    }
    assert r2.mullions == r.mullions by {
      forall i | 0 <= i < |s.mullions| ensures r2.mullions[i] == r.mullions[i] {
        assert r1.mullions[i].id == s.mullions[i].id;
      }
    }
  }

  /** The dragged frame lands on its snapped press position plus the delta. */
  lemma DraggedFrameLands(s: Scene, f0: Frame, start: Point, world: Point, zoom: real, k: int)
    requires zoom != 0.0 && 0 <= k < |s.frames| && s.frames[k].id == f0.id
    ensures var r := DragFrame(s, f0, start, FrameChildren(s, f0.id), world, zoom);
      r.frames[k].x == Snap(f0.x + (world.x - start.x), zoom)
      && r.frames[k].y == Snap(f0.y + (world.y - start.y), zoom)
  {
  }

  /** A child dimension of the dragged frame starts at its press position plus the delta. */
  lemma DraggedFrameMovesChild(s: Scene, f0: Frame, start: Point, world: Point, zoom: real, i: int)
    requires zoom != 0.0 && UniqueIds(s)
    requires 0 <= i < |s.dimensions| && s.dimensions[i].parentId == Some(f0.id)
    ensures var r := DragFrame(s, f0, start, FrameChildren(s, f0.id), world, zoom);
      r.dimensions[i].x1 == s.dimensions[i].x1 + (world.x - start.x)
      && r.dimensions[i].y1 == s.dimensions[i].y1 + (world.y - start.y)
  {
    FrameChildDimension(s, f0.id, i);
  }

  /** A frame's child list holds a dimension exactly when the frame is its parent. */
  lemma FrameChildDimension(s: Scene, id: string, i: int)
    requires UniqueIds(s) && 0 <= i < |s.dimensions|
    ensures FindChild(FrameChildren(s, id), s.dimensions[i].id, DimensionKind)
      == if s.dimensions[i].parentId == Some(id) then Some(DimensionEntry(s.dimensions[i])) else None
  {
    var keepD := (d: Dimension) => d.parentId == Some(id);
    var mullionPart := Children(s.mullions, (m: Mullion) => m.parentId == Some(id), MullionEntry);
    assert FrameChildren(s, id) == Children(s.dimensions, keepD, DimensionEntry) + mullionPart;
    DimensionChildLookup(s.dimensions, keepD, mullionPart, i);
  }

  /**
   * The carried elements move by the raw delta while the frame snaps, so a
   * child's offset from its frame drifts by exactly the snap displacement,
   * and is kept when the frame's new position was not snapped.
   */
  lemma FrameDragChildOffset(s: Scene, f0: Frame, start: Point, world: Point, zoom: real, i: int, k: int)
    requires zoom != 0.0 && UniqueIds(s)
    requires 0 <= i < |s.dimensions| && s.dimensions[i].parentId == Some(f0.id)
    requires 0 <= k < |s.frames| && s.frames[k].id == f0.id
    ensures var r := DragFrame(s, f0, start, FrameChildren(s, f0.id), world, zoom);
      r.frames[k].x == Snap(f0.x + (world.x - start.x), zoom) && r.frames[k].y == Snap(f0.y + (world.y - start.y), zoom)
      && r.dimensions[i].x1 - r.frames[k].x == (s.dimensions[i].x1 - f0.x) - (r.frames[k].x - (f0.x + (world.x - start.x)))
      && r.dimensions[i].y1 - r.frames[k].y == (s.dimensions[i].y1 - f0.y) - (r.frames[k].y - (f0.y + (world.y - start.y)))
  {
    DraggedFrameLands(s, f0, start, world, zoom, k);
    DraggedFrameMovesChild(s, f0, start, world, zoom, i);
  }

  // ---- Resizing (handleMouseMove in 'resizing') ------------------------------

  /** The edges a handle moves: its name contains 'left', 'right', 'top' or 'bottom'. */
  predicate MovesLeft(h: RectHandle) { h == TopLeft || h == BottomLeft || h == Left }
  predicate MovesRight(h: RectHandle) { h == TopRight || h == BottomRight || h == Right }
  predicate MovesTop(h: RectHandle) { h == TopLeft || h == TopRight || h == Top }
  predicate MovesBottom(h: RectHandle) { h == BottomLeft || h == BottomRight || h == Bottom }

  /** The pointer's delta in the element's own axes, turned back by its rotation. */
  function LocalDelta(d: Point, rotation: Option<real>, trig: Trig): (r: Point)
    ensures NoRotation(rotation) ==> r == d
  {
    if NoRotation(rotation) then d
    else
      var (c, s) := trig(-rotation.value);
      Point(d.x * c + d.y * s, -d.x * s + d.y * c)
  }

  /**
   * A rectangle resized from its press state by a handle dragged by `d`:
   * the named edges follow the pointer, the opposite ones stay, and each
   * side is floored at 10.  A left or top drag moves the corner even when
   * the floor holds the side at 10.
   */
  function ResizedRect(r0: Rect, h: RectHandle, d: Point): (r: Rect)
    ensures r.width >= MinResizedSide && r.height >= MinResizedSide
    ensures r.x == if MovesLeft(h) then r0.x + d.x else r0.x
    ensures r.y == if MovesTop(h) then r0.y + d.y else r0.y
    ensures MovesLeft(h) && r0.width - d.x >= MinResizedSide ==> r.x + r.width == r0.x + r0.width
    ensures MovesRight(h) && r0.width + d.x >= MinResizedSide ==> r.x + r.width == r0.x + r0.width + d.x
    ensures !MovesLeft(h) && !MovesRight(h) ==> r.width == MaxR(MinResizedSide, r0.width)
    ensures MovesTop(h) && r0.height - d.y >= MinResizedSide ==> r.y + r.height == r0.y + r0.height
    ensures MovesBottom(h) && r0.height + d.y >= MinResizedSide ==> r.y + r.height == r0.y + r0.height + d.y
    ensures !MovesTop(h) && !MovesBottom(h) ==> r.height == MaxR(MinResizedSide, r0.height)
  {
    var w := if MovesLeft(h) then r0.width - d.x else if MovesRight(h) then r0.width + d.x else r0.width;
    var hh := if MovesTop(h) then r0.height - d.y else if MovesBottom(h) then r0.height + d.y else r0.height;
    Rect(if MovesLeft(h) then r0.x + d.x else r0.x, if MovesTop(h) then r0.y + d.y else r0.y,
         MaxR(MinResizedSide, w), MaxR(MinResizedSide, hh))
  }

  /** The unfloored sides of a resize. */
  predicate ResizeUnfloored(r0: Rect, h: RectHandle, d: Point)
  {
    (MovesLeft(h) ==> r0.width - d.x >= MinResizedSide)
    && (MovesRight(h) ==> r0.width + d.x >= MinResizedSide)
    && (MovesTop(h) ==> r0.height - d.y >= MinResizedSide)
    && (MovesBottom(h) ==> r0.height + d.y >= MinResizedSide)
  }

  /** Dragging a handle back by the opposite delta restores the rectangle, when no floor was hit. */
  lemma ResizeUndone(r0: Rect, h: RectHandle, d: Point)
    requires r0.width >= MinResizedSide && r0.height >= MinResizedSide
    requires ResizeUnfloored(r0, h, d)
    ensures ResizedRect(ResizedRect(r0, h, d), h, Point(-d.x, -d.y)) == r0
  {
  }

  /**
   * A dimension of a frame being resized: a horizontal one (ends less than 1
   * apart vertically) spans the new width, a vertical one the new height;
   * each keeps its offset from the frame and is relabelled.
   */
  function Regenerated(d: Dimension, original: Frame, u: Rect): (r: Dimension)
    ensures r.id == d.id && r.parentId == d.parentId && r.rotation == d.rotation
    ensures AbsR(d.y1 - d.y2) < 1.0 ==>
      r.y1 == r.y2 && r.x1 == u.x && r.x2 == u.x + u.width && r.y1 - u.y == d.y1 - original.y
      && r.text == LengthLabel(u.width)
    ensures !(AbsR(d.y1 - d.y2) < 1.0) && AbsR(d.x1 - d.x2) < 1.0 ==>
      r.x1 == r.x2 && r.y1 == u.y && r.y2 == u.y + u.height && r.x1 - u.x == d.x1 - original.x
      && r.text == LengthLabel(u.height)
    ensures !(AbsR(d.y1 - d.y2) < 1.0) && !(AbsR(d.x1 - d.x2) < 1.0) ==> r == d
  {
    var cx, cy := Some(u.x + u.width / 2.0), Some(u.y + u.height / 2.0);
    if AbsR(d.y1 - d.y2) < 1.0 then
      var y := u.y + (d.y1 - original.y);
      d.(x1 := u.x, y1 := y, x2 := u.x + u.width, y2 := y, text := LengthLabel(u.width),
         rotationCenterX := cx, rotationCenterY := cy)
    else if AbsR(d.x1 - d.x2) < 1.0 then
      var x := u.x + (d.x1 - original.x);
      d.(x1 := x, y1 := u.y, x2 := x, y2 := u.y + u.height, text := LengthLabel(u.height),
         rotationCenterX := cx, rotationCenterY := cy)
    else d
  }

  /** The next move event, reading the frame the last one left, regenerates to the same dimension. */
  lemma RegeneratedStable(d: Dimension, original: Frame, u: Rect)
    requires u.height >= 1.0
    ensures Regenerated(Regenerated(d, original, u), FrameWithRect(original, u), u) == Regenerated(d, original, u)
  {
  }

  /**
   * Resizing a frame by a handle: the frame (as it was at the press) gets the
   * resized rectangle, and the dimensions whose parent it is are regenerated
   * against the frame currently in the list.
   */
  function ResizeFrame(s: Scene, f0: Frame, h: RectHandle, d: Point): (r: Scene)
    ensures r.mullions == s.mullions && r.textBoxes == s.textBoxes
    ensures |r.frames| == |s.frames| && forall i :: 0 <= i < |s.frames| ==>
      r.frames[i] == if s.frames[i].id == f0.id then FrameWithRect(f0, ResizedRect(RectOfFrame(f0), h, d)) else s.frames[i]
    ensures Find(s.frames, (f: Frame) => f.id == f0.id).None? ==> r.dimensions == s.dimensions
    ensures Find(s.frames, (f: Frame) => f.id == f0.id).Some? ==>
      |r.dimensions| == |s.dimensions| && forall i :: 0 <= i < |s.dimensions| ==>
        r.dimensions[i] == if s.dimensions[i].parentId == Some(f0.id)
          then Regenerated(s.dimensions[i], Find(s.frames, (f: Frame) => f.id == f0.id).value, ResizedRect(RectOfFrame(f0), h, d))
          else s.dimensions[i]
  {
    var u := ResizedRect(RectOfFrame(f0), h, d);
    var updated := FrameWithRect(f0, u);
    var original := Find(s.frames, (f: Frame) => f.id == f0.id);
    var frames := Updated(s.frames, (f: Frame) => f.id == f0.id, (f: Frame) => updated);
    if original.None? then s.(frames := frames)
    else
      s.(frames := frames,
         dimensions := Updated(s.dimensions, (x: Dimension) => x.parentId == Some(f0.id),
           (x: Dimension) => Regenerated(x, original.value, u)))
  }

  /** Resizing a text box: the box in the list gets the rectangle resized from the press state. */
  function ResizeTextBox(s: Scene, t0: TextBox, h: RectHandle, d: Point): (r: Scene)
    ensures r.frames == s.frames && r.mullions == s.mullions && r.dimensions == s.dimensions
    ensures |r.textBoxes| == |s.textBoxes| && forall i :: 0 <= i < |s.textBoxes| ==>
      r.textBoxes[i] == if s.textBoxes[i].id == t0.id
        then TextBoxWithRect(s.textBoxes[i], ResizedRect(RectOfTextBox(t0), h, d)) else s.textBoxes[i]
  {
    var u := ResizedRect(RectOfTextBox(t0), h, d);
    s.(textBoxes := Updated(s.textBoxes, (t: TextBox) => t.id == t0.id, (t: TextBox) => TextBoxWithRect(t, u)))
  }

  /** A line with one end dragged by `d` from its press position, axis-locked against the other end. */
  function ResizedLine(l: Line, h: LineHandle, d: Point, lock: bool): (r: Line)
    ensures h == Start ==> r.x2 == l.x2 && r.y2 == l.y2
    ensures h == End ==> r.x1 == l.x1 && r.y1 == l.y1
    ensures lock ==> r.x1 == r.x2 || r.y1 == r.y2
    ensures !lock && h == Start ==> r.x1 == l.x1 + d.x && r.y1 == l.y1 + d.y
    ensures !lock && h == End ==> r.x2 == l.x2 + d.x && r.y2 == l.y2 + d.y
  {
    match h
    case Start =>
      var p := Point(l.x1 + d.x, l.y1 + d.y);
      var q := if lock then AxisLocked(Point(l.x2, l.y2), p) else p;
      Line(q.x, q.y, l.x2, l.y2)
    case End =>
      var p := Point(l.x2 + d.x, l.y2 + d.y);
      var q := if lock then AxisLocked(Point(l.x1, l.y1), p) else p;
      Line(l.x1, l.y1, q.x, q.y)
  }

  /** Dragging an end of a mullion (axis-locked with shift) or of a dimension (relabelled). */
  function ResizeLineElement(s: Scene, e0: CanvasElement, h: LineHandle, d: Point, shift: bool, hypot: Hypot): (r: Scene)
    requires e0.MullionElement? || e0.DimensionElement?
    ensures r.frames == s.frames && r.textBoxes == s.textBoxes
    ensures e0.MullionElement? ==> (r.dimensions == s.dimensions
      && |r.mullions| == |s.mullions| && forall i :: 0 <= i < |s.mullions| ==>
        r.mullions[i] == if s.mullions[i].id == e0.mullion.id
          then MullionWithLine(s.mullions[i], ResizedLine(LineOfMullion(e0.mullion), h, d, shift)) else s.mullions[i])
    ensures e0.DimensionElement? ==> (r.mullions == s.mullions
      && |r.dimensions| == |s.dimensions| && forall i :: 0 <= i < |s.dimensions| ==>
        r.dimensions[i] == if s.dimensions[i].id == e0.dimension.id
          then RelabelledLine(s.dimensions[i], ResizedLine(LineOfDimension(e0.dimension), h, d, false), hypot)
          else s.dimensions[i])
  {
    match e0
    case MullionElement(m0) =>
      var l := ResizedLine(LineOfMullion(m0), h, d, shift);
      s.(mullions := Updated(s.mullions, (m: Mullion) => m.id == m0.id, (m: Mullion) => MullionWithLine(m, l)))
    case DimensionElement(d0) =>
      var l := ResizedLine(LineOfDimension(d0), h, d, false);
      s.(dimensions := Updated(s.dimensions, (x: Dimension) => x.id == d0.id, (x: Dimension) => RelabelledLine(x, l, hypot)))
  }

  /** A dimension put on a line and labelled with the line's rounded length. */
  function RelabelledLine(d: Dimension, l: Line, hypot: Hypot): (r: Dimension)
    ensures LineOfDimension(r) == l && r.text == LengthLabel(LineLength(l, hypot))
  {
    DimensionWithLine(d, l).(text := LengthLabel(LineLength(l, hypot)))
  }

  // ---- Rotating (handleMouseMove in 'rotating') ------------------------------

  /**
   * The angle a rotate drag sets from the pointer's bearing about the centre
   * (atan2, in degrees): plus 90 so that 'up' is 0, negative angles wrapped
   * by 360, and with shift rounded to a multiple of 15.
   */
  function RotationAngle(bearing: real, shift: bool): (a: real)
    ensures !shift && -180.0 <= bearing <= 180.0 ==> 0.0 <= a < 360.0
    ensures shift && -180.0 <= bearing <= 180.0 ==> 0.0 <= a <= 360.0
    ensures shift ==> (a / RotationSnap).Floor as real * RotationSnap == a
  {
    var raw := bearing + 90.0;
    var wrapped := if raw < 0.0 then raw + 360.0 else raw;
    if shift then
      var k := JsRound(wrapped / RotationSnap);
      assert (k as real * RotationSnap) / RotationSnap == k as real;
      k as real * RotationSnap
    else wrapped
  }

  /**
   * A rotate drag: a frame takes the angle and so do its dimensions, whose
   * rotation centre becomes the frame's centre at the press; a text box
   * takes the angle; lines do not rotate.  Nothing else changes.
   */
  function RotateElement(s: Scene, e0: CanvasElement, angle: real, center: Point): (r: Scene)
    ensures r.mullions == s.mullions
    ensures !e0.FrameElement? ==> r.frames == s.frames && r.dimensions == s.dimensions
    ensures !e0.TextBoxElement? ==> r.textBoxes == s.textBoxes
    ensures e0.FrameElement? ==> (|r.frames| == |s.frames| && |r.dimensions| == |s.dimensions|
      && (forall i :: 0 <= i < |s.frames| ==>
        r.frames[i] == if s.frames[i].id == e0.frame.id then s.frames[i].(rotation := Some(angle)) else s.frames[i])
      && (forall i :: 0 <= i < |s.dimensions| ==>
        r.dimensions[i] == if s.dimensions[i].parentId == Some(e0.frame.id)
          then s.dimensions[i].(rotation := Some(angle), rotationCenterX := Some(center.x), rotationCenterY := Some(center.y))
          else s.dimensions[i]))
    ensures e0.TextBoxElement? ==> |r.textBoxes| == |s.textBoxes| && forall i :: 0 <= i < |s.textBoxes| ==>
      r.textBoxes[i] == if s.textBoxes[i].id == e0.textBox.id then s.textBoxes[i].(rotation := Some(angle)) else s.textBoxes[i]
  {
    match e0
    case FrameElement(f0) =>
      s.(frames := Updated(s.frames, (f: Frame) => f.id == f0.id, (f: Frame) => f.(rotation := Some(angle))),
         dimensions := Updated(s.dimensions, (d: Dimension) => d.parentId == Some(f0.id),
           (d: Dimension) => d.(rotation := Some(angle), rotationCenterX := Some(center.x), rotationCenterY := Some(center.y))))
    case TextBoxElement(t0) =>
      s.(textBoxes := Updated(s.textBoxes, (t: TextBox) => t.id == t0.id, (t: TextBox) => t.(rotation := Some(angle))))
    case _ => s
  }

  /** Rotating changes no element's extent: frames keep their rectangles and lines their ends. */
  lemma RotationKeepsExtents(s: Scene, e0: CanvasElement, angle: real, center: Point)
    ensures var r := RotateElement(s, e0, angle, center);
      |r.frames| == |s.frames| && |r.dimensions| == |s.dimensions| && |r.textBoxes| == |s.textBoxes|
      && (forall i :: 0 <= i < |s.frames| ==> RectOfFrame(r.frames[i]) == RectOfFrame(s.frames[i]))
      && (forall i :: 0 <= i < |s.dimensions| ==> LineOfDimension(r.dimensions[i]) == LineOfDimension(s.dimensions[i]))
      && (forall i :: 0 <= i < |s.textBoxes| ==> RectOfTextBox(r.textBoxes[i]) == RectOfTextBox(s.textBoxes[i]))
  {
  }

  // ---- Painting (handleMouseDown, paint tool) --------------------------------

  datatype PaintTarget = LineTarget | FrameTarget | GlassTarget

  /** Within `thickness || 40` of an edge of the frame, for a point already turned back by its rotation. */
  predicate OnFrameBorder(f: Frame, q: Point)
  {
    var t := ThicknessOr(f.thickness);
    q.x < f.x + t || q.x > f.x + f.width - t || q.y < f.y + t || q.y > f.y + f.height - t
  }

  function Recoloured(f: Frame, target: PaintTarget, color: string): Frame
  {
    if target == GlassTarget then f.(glassColor := Some(color)) else f.(color := Some(color))
  }

  /** Whether a press on or off a frame's border paints it, for the target chosen. */
  predicate PaintsFrame(target: PaintTarget, border: bool)
  {
    (target == FrameTarget && border) || (target == GlassTarget && !border)
  }

  /**
   * A press of the paint tool.  The line target paints the last mullion hit
   * and nothing else.  The frame and glass targets look at the last frame
   * holding the press: the frame target paints its colour when the press is on
   * its border, the glass target its glass colour when it is not; otherwise
   * nothing changes, not even a frame beneath.
   */
  function Painted(s: Scene, target: PaintTarget, color: string, p: Point, trig: Trig): Scene
  {
    if target == LineTarget then PaintedLine(s, color, p) else PaintedFrame(s, target, color, p, trig)
  }

  /** The line target: the last mullion hit takes the colour; nothing else changes. */
  function PaintedLine(s: Scene, color: string, p: Point): (r: Scene)
    ensures r.frames == s.frames && r.dimensions == s.dimensions && r.textBoxes == s.textBoxes
    ensures NoneHit(s.mullions, MullionHitAt(p)) ==> r == s
    ensures |r.mullions| == |s.mullions|
    ensures forall i :: 0 <= i < |s.mullions| ==>
      r.mullions[i] == s.mullions[i] || r.mullions[i] == s.mullions[i].(color := Some(color))
    ensures forall k :: TopmostHit(s.mullions, MullionHitAt(p), k) ==> r.mullions[k].color == Some(color)
  {
    var i := LastIndex(s.mullions, MullionHitAt(p));
    if i.None? then s
    else
      var id := s.mullions[i.value].id;
      s.(mullions := Updated(s.mullions, (m: Mullion) => m.id == id, (m: Mullion) => m.(color := Some(color))))
  }

  /** The frame and glass targets: only the last frame holding the press can change. */
  function PaintedFrame(s: Scene, target: PaintTarget, color: string, p: Point, trig: Trig): (r: Scene)
    ensures r.mullions == s.mullions && r.dimensions == s.dimensions && r.textBoxes == s.textBoxes
    ensures NoneHit(s.frames, FrameHitAt(p, trig)) ==> r == s
    ensures |r.frames| == |s.frames|
    ensures forall i :: 0 <= i < |s.frames| ==>
      r.frames[i] == s.frames[i] || r.frames[i] == Recoloured(s.frames[i], target, color)
    ensures forall k :: TopmostHit(s.frames, FrameHitAt(p, trig), k) ==>
      var border := OnFrameBorder(s.frames[k], FramePoint(s.frames[k], p, trig));
      (PaintsFrame(target, border) ==> r.frames[k] == Recoloured(s.frames[k], target, color))
      && (!PaintsFrame(target, border) ==> r == s)
  {
    var k := LastIndex(s.frames, FrameHitAt(p, trig));
    if k.None? then s
    else
      var f := s.frames[k.value];
      if PaintsFrame(target, OnFrameBorder(f, FramePoint(f, p, trig))) then
        s.(frames := Updated(s.frames, (x: Frame) => x.id == f.id, (x: Frame) => Recoloured(x, target, color)))
      else s
  }

  /** Painting twice in one place is painting once: a colour changes no hit test. */
  lemma PaintIdempotent(s: Scene, target: PaintTarget, color: string, p: Point, trig: Trig)
    ensures Painted(Painted(s, target, color, p, trig), target, color, p, trig) == Painted(s, target, color, p, trig)
  {
    if target == LineTarget {
      PaintLineIdempotent(s, color, p);
    } else {
      PaintFrameIdempotent(s, target, color, p, trig);
    }
  }

  lemma PaintLineIdempotent(s: Scene, color: string, p: Point)
    ensures PaintedLine(PaintedLine(s, color, p), color, p) == PaintedLine(s, color, p)
  {
    var i := LastIndex(s.mullions, MullionHitAt(p));
    if i.Some? {
      var id := s.mullions[i.value].id;
      var paint := (m: Mullion) => m.(color := Some(color));
      assert forall x: Mullion :: MullionHitAt(p)(paint(x)) == MullionHitAt(p)(x);
      LastIndexOfUpdated(s.mullions, MullionHitAt(p), (m: Mullion) => m.id == id, paint);
    }
  }

  lemma PaintFrameIdempotent(s: Scene, target: PaintTarget, color: string, p: Point, trig: Trig)
    requires target != LineTarget
    ensures PaintedFrame(PaintedFrame(s, target, color, p, trig), target, color, p, trig)
      == PaintedFrame(s, target, color, p, trig)
  {
    var k := LastIndex(s.frames, FrameHitAt(p, trig));
    if k.Some? {
      var f := s.frames[k.value];
      var paint := (x: Frame) => Recoloured(x, target, color);
      forall x: Frame
        ensures FrameHitAt(p, trig)(paint(x)) == FrameHitAt(p, trig)(x)
      {
        assert ElementCenter(FrameElement(paint(x))) == ElementCenter(FrameElement(x));
      }
      LastIndexOfUpdated(s.frames, FrameHitAt(p, trig), (x: Frame) => x.id == f.id, paint);
    }
  }

  /** The paint tool's press: the walks back through the mullions or the frames. */
  method PaintAt(s: Scene, target: PaintTarget, color: string, p: Point, trig: Trig) returns (r: Scene)
    ensures r == Painted(s, target, color, p, trig)
  {
    r := s;
    if target == LineTarget {
      var i := LastHit(s.mullions, MullionHitAt(p));
      if i.Some? {
        var id := s.mullions[i.value].id;
        r := s.(mullions := Updated(s.mullions, (m: Mullion) => m.id == id, (m: Mullion) => m.(color := Some(color))));
      }
      return;
    }
    var k := LastHit(s.frames, FrameHitAt(p, trig));
    if k.Some? {
      var f := s.frames[k.value];
      if PaintsFrame(target, OnFrameBorder(f, FramePoint(f, p, trig))) {
        r := s.(frames := Updated(s.frames, (x: Frame) => x.id == f.id, (x: Frame) => Recoloured(x, target, color)));
      }
    }
  }

  // ---- Finishing a draw (handleMouseUp in 'drawing') -----------------------

  /** The squared length, compared with the squared bound in place of Math.hypot. */
  function SqLength(l: Line): real
  {
    (l.x2 - l.x1) * (l.x2 - l.x1) + (l.y2 - l.y1) * (l.y2 - l.y1)
  }

  /** Too small to keep: a frame under 5 a side, a line shorter than 5, a text box under 10 a side. */
  predicate Degenerate(e: CanvasElement)
  {
    match e
    case FrameElement(f) => f.width < MinDrawnFrameSide || f.height < MinDrawnFrameSide
    case MullionElement(m) => SqLength(LineOfMullion(m)) < MinDrawnLineLength * MinDrawnLineLength
    case DimensionElement(d) => SqLength(LineOfDimension(d)) < MinDrawnLineLength * MinDrawnLineLength
    case TextBoxElement(t) => t.width < MinDrawnTextBoxSide || t.height < MinDrawnTextBoxSide
  }

  /** No element of e's kind carries e's id. */
  predicate Absent(s: Scene, e: CanvasElement)
  {
    match e
    case FrameElement(f) => forall x :: x in s.frames ==> x.id != f.id
    case MullionElement(m) => forall x :: x in s.mullions ==> x.id != m.id
    case DimensionElement(d) => forall x :: x in s.dimensions ==> x.id != d.id
    case TextBoxElement(t) => forall x :: x in s.textBoxes ==> x.id != t.id
  }

  /** `list.filter(x => x.id !== id)` on the list of e's kind: exactly the others stay. */
  function Removed(s: Scene, e: CanvasElement): (r: Scene)
    ensures Absent(r, e)
    ensures e.FrameElement? ==> (r.mullions == s.mullions && r.dimensions == s.dimensions && r.textBoxes == s.textBoxes
      && forall x :: x in s.frames && x.id != e.frame.id ==> x in r.frames)
    ensures e.MullionElement? ==> (r.frames == s.frames && r.dimensions == s.dimensions && r.textBoxes == s.textBoxes
      && forall x :: x in s.mullions && x.id != e.mullion.id ==> x in r.mullions)
    ensures e.DimensionElement? ==> (r.frames == s.frames && r.mullions == s.mullions && r.textBoxes == s.textBoxes
      && forall x :: x in s.dimensions && x.id != e.dimension.id ==> x in r.dimensions)
    ensures e.TextBoxElement? ==> (r.frames == s.frames && r.mullions == s.mullions && r.dimensions == s.dimensions
      && forall x :: x in s.textBoxes && x.id != e.textBox.id ==> x in r.textBoxes)
    ensures forall x :: x in r.frames ==> x in s.frames
    ensures forall x :: x in r.mullions ==> x in s.mullions
    ensures forall x :: x in r.dimensions ==> x in s.dimensions
    ensures forall x :: x in r.textBoxes ==> x in s.textBoxes
  {
    match e
    case FrameElement(f) => s.(frames := Filter(s.frames, (x: Frame) => x.id != f.id))
    case MullionElement(m) => s.(mullions := Filter(s.mullions, (x: Mullion) => x.id != m.id))
    case DimensionElement(d) => s.(dimensions := Filter(s.dimensions, (x: Dimension) => x.id != d.id))
    case TextBoxElement(t) => s.(textBoxes := Filter(s.textBoxes, (x: TextBox) => x.id != t.id))
  }

  /** The dimensions a kept frame is given: its width 20 above it, its height 20 to its left. */
  function WidthDimension(f: Frame, stamp: string): Dimension
  {
    Dimension("dim_" + stamp + "_w", f.x, f.y - AutoDimensionOffset, f.x + f.width, f.y - AutoDimensionOffset,
      LengthLabel(f.width), Some(f.id), None, None, None)
  }

  function HeightDimension(f: Frame, stamp: string): Dimension
  {
    Dimension("dim_" + stamp + "_h", f.x - AutoDimensionOffset, f.y, f.x - AutoDimensionOffset, f.y + f.height,
      LengthLabel(f.height), Some(f.id), None, None, None)
  }

  /** The midpoint of a mullion, the point its parent frame must hold. */
  function MidPoint(l: Line): Point
  {
    Point((l.x1 + l.x2) / 2.0, (l.y1 + l.y2) / 2.0)
  }

  /**
   * The parent a finished mullion takes: the last frame holding its midpoint,
   * unless that frame's id is empty.
   */
  function ParentFrame(frames: seq<Frame>, m: Mullion, trig: Trig): (r: Option<string>)
    ensures NoneHit(frames, FrameHitAt(MidPoint(LineOfMullion(m)), trig)) ==> r == None
    ensures forall k :: TopmostHit(frames, FrameHitAt(MidPoint(LineOfMullion(m)), trig), k) ==>
      r == if frames[k].id != "" then Some(frames[k].id) else None
  {
    var k := LastIndex(frames, FrameHitAt(MidPoint(LineOfMullion(m)), trig));
    if k.Some? && frames[k.value].id != "" then Some(frames[k.value].id) else None
  }

  /** The mullion-parent loop of the mouse-up. */
  method MullionParent(frames: seq<Frame>, m: Mullion, trig: Trig) returns (r: Option<string>)
    ensures r == ParentFrame(frames, m, trig)
  {
    var k := LastHit(frames, FrameHitAt(MidPoint(LineOfMullion(m)), trig));
    r := None;
    if k.Some? && frames[k.value].id != "" {
      r := Some(frames[k.value].id);
    }
  }

  /**
   * The scene after a drawing mouse-up.  With no move since the press the
   * drawn element is removed; a degenerate one is removed; a kept frame gets
   * its two dimensions; a kept mullion its parent frame, when it has one.
   * `stamp` stands for Date.now() and `parent` for the mullion's parent.
   */
  function FinishDraw(s: Scene, drawing: CanvasElement, last: Option<CanvasElement>, stamp: string, parent: Option<string>): (r: Scene)
    ensures last.None? ==> Absent(r, drawing)
    ensures last.Some? && Degenerate(last.value) ==> Absent(r, last.value)
    ensures last.Some? && !Degenerate(last.value) ==> r.frames == s.frames && r.textBoxes == s.textBoxes
    ensures last.Some? && !Degenerate(last.value) && last.value.FrameElement? ==>
      r.mullions == s.mullions
      && r.dimensions == s.dimensions + [WidthDimension(last.value.frame, stamp), HeightDimension(last.value.frame, stamp)]
    ensures last.Some? && !Degenerate(last.value) && last.value.MullionElement? ==>
      r.dimensions == s.dimensions && |r.mullions| == |s.mullions|
      && forall i :: 0 <= i < |s.mullions| ==>
        r.mullions[i] == if s.mullions[i].id == last.value.mullion.id && parent.Some?
          then s.mullions[i].(parentId := parent) else s.mullions[i]
    ensures last.Some? && !Degenerate(last.value) && (last.value.DimensionElement? || last.value.TextBoxElement?) ==> r == s
  {
    if last.None? then Removed(s, drawing)
    else if Degenerate(last.value) then Removed(s, last.value)
    else match last.value
      case FrameElement(f) => s.(dimensions := s.dimensions + [WidthDimension(f, stamp), HeightDimension(f, stamp)])
      case MullionElement(m) =>
        if parent.Some? then
          s.(mullions := Updated(s.mullions, (x: Mullion) => x.id == m.id, (x: Mullion) => x.(parentId := parent)))
        else s
      case _ => s
  }

  /** A press with a draw tool gives an element too small to keep. */
  lemma StartedIsDegenerate(tool: DrawTool, id: string, at: Point)
    ensures Degenerate(Started(tool, id, at))
  {
  }

  /** Filtering a list with an element on the end filters the list, then the element. */
  lemma {:induction false} FilterSnoc<T>(a: seq<T>, x: T, keep: T -> bool)
    ensures Filter(a + [x], keep) == Filter(a, keep) + (if keep(x) then [x] else [])
    decreases |a|
  {
    if a == [] {
      assert [x][1..] == [];
    } else {
      assert (a + [x])[1..] == a[1..] + [x];
      FilterSnoc(a[1..], x, keep);
    }
  }

  /**
   * A press and release with a draw tool and no move in between leaves the
   * scene as it was, when the new id was not in use.
   */
  lemma ClickWithoutDragChangesNothing(s: Scene, tool: DrawTool, id: string, at: Point, stamp: string, parent: Option<string>)
    requires Absent(s, Started(tool, id, at))
    ensures FinishDraw(Appended(s, Started(tool, id, at)), Started(tool, id, at), None, stamp, parent) == s
  {
    var e := Started(tool, id, at);
    RemovedUndoesAppended(s, e);
  }

  /** Removing an element just appended under an unused id gives back the scene. */
  lemma RemovedUndoesAppended(s: Scene, e: CanvasElement)
    requires Absent(s, e)
    ensures Removed(Appended(s, e), e) == s
  {
    match e
    case FrameElement(f) =>
      FilterDropsLast(s.frames, f, (x: Frame) => x.id != f.id);
    case MullionElement(m) =>
      FilterDropsLast(s.mullions, m, (x: Mullion) => x.id != m.id);
    case DimensionElement(d) =>
      FilterDropsLast(s.dimensions, d, (x: Dimension) => x.id != d.id);
    case TextBoxElement(t) =>
      FilterDropsLast(s.textBoxes, t, (x: TextBox) => x.id != t.id);
  }

  /** Filtering out only the element on the end gives back the list before it. */
  lemma FilterDropsLast<T>(a: seq<T>, x: T, keep: T -> bool)
    requires forall y :: y in a ==> keep(y)
    requires !keep(x)
    ensures Filter(a + [x], keep) == a
  {
    FilterSnoc(a, x, keep);
    assert forall i :: 0 <= i < |a| ==> keep(a[i]);
  }

  /** The two dimensions of a frame have different ids. */
  lemma AutoDimensionIdsDiffer(f: Frame, stamp: string)
    ensures WidthDimension(f, stamp).id != HeightDimension(f, stamp).id
  {
    var w, h := WidthDimension(f, stamp).id, HeightDimension(f, stamp).id;
    assert w[|w| - 1] == 'w' && h[|h| - 1] == 'h';
  }

  /**
   * The dimensions a frame was given follow it when it is resized: the width
   * dimension stays 20 above, spanning and labelling the new width, the
   * height dimension 20 to the left, spanning and labelling the new height.
   */
  lemma AutoDimensionsFollowResize(f: Frame, stamp: string, u: Rect)
    requires f.height >= MinDrawnFrameSide
    ensures var w := Regenerated(WidthDimension(f, stamp), f, u);
      w.y1 == w.y2 == u.y - AutoDimensionOffset && w.x1 == u.x && w.x2 == u.x + u.width && w.text == LengthLabel(u.width)
    ensures var h := Regenerated(HeightDimension(f, stamp), f, u);
      h.x1 == h.x2 == u.x - AutoDimensionOffset && h.y1 == u.y && h.y2 == u.y + u.height && h.text == LengthLabel(u.height)
  {
    assert AbsR(HeightDimension(f, stamp).y1 - HeightDimension(f, stamp).y2) == f.height;
  }

  /** Deleting a frame deletes the two dimensions it was given. */
  lemma AutoDimensionsGoWithFrame(s: Scene, f: Frame, stamp: string)
    ensures var p := DeletePatch(s, Selection(FrameKind, f.id));
      WidthDimension(f, stamp) !in p.dimensions.value && HeightDimension(f, stamp) !in p.dimensions.value
  {
  }
}
