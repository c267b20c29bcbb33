// The 2D parametric view of src/components/design/visualization.tsx: which
// clicks toggle a panel, how a sliding panel is dragged, how an open panel
// is hinged, and how the SVG viewBox pans, zooms and resets.  The cos/sin
// perspective scale factors of an open panel are drawing only; the model
// keeps the signed opening angle (degrees) and the hinge point.

module Visualization {
  import opened Types
  import opened Numeric
  import DesignEngine
  import ThreeDVisualization

  /** Blank margin around the frame in the viewBox (mm). */
  const Padding: real := 100.0

  const ZoomFactor: real := 1.1

  datatype ViewBox = ViewBox(x: real, y: real, width: real, height: real)

  const DefaultViewBox: ViewBox := ViewBox(0.0, 0.0, 3200.0, 2600.0)

  /** The viewBox that shows the whole frame with its margin. */
  function ResetViewBox(outer: Rect): (vb: ViewBox)
    ensures vb.x == 0.0 && vb.y == 0.0
    ensures vb.width - outer.width == 2.0 * Padding && vb.height - outer.height == 2.0 * Padding
  {
    ViewBox(0.0, 0.0, outer.width + Padding * 2.0, outer.height + Padding * 2.0)
  }

  /** The zoom level: the content width over the viewBox width (1 without geometry). */
  function ZoomLevel(geometry: Option<Geometry>, vb: ViewBox): (r: real)
    requires vb.width != 0.0
    ensures geometry.None? ==> r == 1.0
    ensures geometry.Some? ==> r * vb.width == geometry.value.frame.outer.width + 2.0 * Padding
    ensures geometry.Some? && geometry.value.frame.outer.width >= 0.0 && vb.width > 0.0 ==> r > 0.0
  {
    if geometry.None? then 1.0 else (geometry.value.frame.outer.width + Padding * 2.0) / vb.width
  }

  /** Right after a reset the view is at zoom level 1. */
  lemma ResetIsZoomOne(g: Geometry)
    requires g.frame.outer.width + 2.0 * Padding != 0.0
    ensures ZoomLevel(Some(g), ResetViewBox(g.frame.outer)) == 1.0
  {
    var w := g.frame.outer.width + Padding * 2.0;
    assert ResetViewBox(g.frame.outer).width == w;
    assert w / w == 1.0;
  }

  // handlePanelClick applies the same gate as the 3D view:
  // ThreeDVisualization.ClickTarget.

  // ---- Wheel zoom ---------------------------------------------------------

  /** The new viewBox width for a wheel step: zoom in by 1.1 down to 5%
   *  of the content, or out by 1.1 up to ten times the content. */
  function WheelWidth(width: real, deltaY: real, contentWidth: real): (r: real)
    ensures deltaY < 0.0 ==> r >= width / ZoomFactor && r >= contentWidth * 0.05
    ensures deltaY < 0.0 ==> r == width / ZoomFactor || r == contentWidth * 0.05
    ensures deltaY >= 0.0 ==> r <= width * ZoomFactor && r <= contentWidth * 10.0
    ensures deltaY >= 0.0 ==> r == width * ZoomFactor || r == contentWidth * 10.0
  {
    if deltaY < 0.0 then MaxR(width / ZoomFactor, contentWidth * 0.05)
    else MinR(width * ZoomFactor, contentWidth * 10.0)
  }

  /** A width within [5%, 1000%] of the content stays there after a wheel step,
   *  and wheeling in never widens the view nor wheeling out narrows it. */
  lemma WheelWidthBounds(width: real, deltaY: real, contentWidth: real)
    requires contentWidth > 0.0
    requires contentWidth * 0.05 <= width <= contentWidth * 10.0
    ensures contentWidth * 0.05 <= WheelWidth(width, deltaY, contentWidth) <= contentWidth * 10.0
    ensures deltaY < 0.0 ==> WheelWidth(width, deltaY, contentWidth) <= width
    ensures deltaY >= 0.0 ==> WheelWidth(width, deltaY, contentWidth) >= width
  {
  }

  /**
   * handleWheel on a viewBox: None when the width would not change;
   * otherwise the aspect ratio is kept and the point under the cursor stays
   * at the same place in the view.
   */
  function WheelZoom(vb: ViewBox, cursor: Point, deltaY: real, contentWidth: real): (r: Option<ViewBox>)
    requires vb.width != 0.0 && vb.height != 0.0
    ensures r.None? <==> WheelWidth(vb.width, deltaY, contentWidth) == vb.width
    ensures r.Some? ==> r.value.width == WheelWidth(vb.width, deltaY, contentWidth)
    ensures r.Some? ==> r.value.height * vb.width == r.value.width * vb.height
    ensures r.Some? ==> (cursor.x - r.value.x) * vb.width == (cursor.x - vb.x) * r.value.width
    ensures r.Some? ==> (cursor.y - r.value.y) * vb.height == (cursor.y - vb.y) * r.value.height
  {
    var newWidth := WheelWidth(vb.width, deltaY, contentWidth);
    if newWidth == vb.width then None
    else
      var newHeight := newWidth * (vb.height / vb.width);
      var dx := cursor.x - vb.x;
      var dy := cursor.y - vb.y;
      var newX := vb.x + dx * (1.0 - newWidth / vb.width);
      var newY := vb.y + dy * (1.0 - newHeight / vb.height);
      WheelGeometry(vb, dx, dy, newWidth);
      Some(ViewBox(newX, newY, newWidth, newHeight))
  }

  /** The algebra behind WheelZoom's contract. */
  lemma WheelGeometry(vb: ViewBox, dx: real, dy: real, newWidth: real)
    requires vb.width != 0.0 && vb.height != 0.0
    ensures var newHeight := newWidth * (vb.height / vb.width);
            newHeight * vb.width == newWidth * vb.height &&
            (dx - dx * (1.0 - newWidth / vb.width)) * vb.width == dx * newWidth &&
            (dy - dy * (1.0 - newHeight / vb.height)) * vb.height == dy * newHeight
  {
    var w := vb.width;
    var h := vb.height;
    var newHeight := newWidth * (h / w);
    assert (h / w) * w == h;
    assert newHeight * w == newWidth * ((h / w) * w);
    assert (newWidth / w) * w == newWidth;
    assert (dx - dx * (1.0 - newWidth / w)) == dx * (newWidth / w);
    assert (newHeight / h) * h == newHeight;
    assert (dy - dy * (1.0 - newHeight / h)) == dy * (newHeight / h);
  }

  // ---- Open panels --------------------------------------------------------

  /** The hinge of an open panel: its signed opening angle (degrees) and the hinge point. */
  datatype Hinge = Hinge(angle: real, origin: Point)

  /**
   * The hinge drawn for panel `index` of the laid-out panels
   * (lines 250-327); None when the panel is drawn flat.
   */
  function PanelHinge(p: DesignParameters, panels: seq<PanelGeometry>, index: nat, state: int): (h: Option<Hinge>)
    requires index < |panels|
    ensures h.Some? <==> state > 0 && (p.system.Awning? || p.system.TiltAndTurn? || p.system.Casement? || p.system.Foldable?)
    ensures h.Some? ==> AbsR(h.value.angle) == (if state == 1 then 22.5 else 45.0)
    ensures h.Some? && (p.system.Awning? || p.system.TiltAndTurn?) ==>
              h.value.origin == Point(panels[index].panelRect.x + panels[index].panelRect.width / 2.0, panels[index].panelRect.y)
    ensures h.Some? && p.system.Casement? ==>
              var r := panels[index].panelRect;
              h.value.origin.y == r.y + r.height / 2.0 &&
              h.value.origin.x == (if ThreeDVisualization.CasementHingeLeft(p.casementOpening, index) then r.x else r.x + r.width)
    ensures h.Some? && p.system.Foldable? ==>
              var first := panels[2 * (index / 2)].panelRect;
              h.value.origin == Point(first.x + first.width, first.y + first.height / 2.0) &&
              (h.value.angle < 0.0 <==> index % 2 == 0)
  {
    if state > 0 then
      var openRatio := if state == 1 then 0.5 else 1.0;
      var angle := 45.0 * openRatio;
      var rect := panels[index].panelRect;
      if p.system.Awning? || p.system.TiltAndTurn? then
        Some(Hinge(angle, Point(rect.x + rect.width / 2.0, rect.y)))
      else if p.system.Casement? || p.system.Foldable? then
        if p.system.Casement? then
          if ThreeDVisualization.CasementHingeLeft(p.casementOpening, index) then
            Some(Hinge(angle, Point(rect.x, rect.y + rect.height / 2.0)))
          else
            Some(Hinge(angle, Point(rect.x + rect.width, rect.y + rect.height / 2.0)))
        else
          var pairIndex := index / 2;
          var first := panels[pairIndex * 2].panelRect;
          var hinge := Point(first.x + first.width, first.y + first.height / 2.0);
          if index % 2 == 0 then Some(Hinge(-angle, hinge)) else Some(Hinge(angle, hinge))
      else None
    else None
  }

  /**
   * On the engine's foldable layout the hinge of a pair lies on the edge
   * the two leaves share: the right edge of the first, the left edge of the
   * second.
   */
  lemma FoldableHingeOnSharedEdge(p: DesignParameters, panels: seq<PanelGeometry>, k: nat, state: int)
    requires p.system.Foldable? && p.panels > 0 && state > 0
    requires 2 * k + 1 < |panels|
    requires forall i :: 0 <= i < |panels| ==> panels[i] == DesignEngine.SashPanel(p, i)
    ensures var h := PanelHinge(p, panels, 2 * k + 1, state);
            h.Some? && h.value.origin.x == panels[2 * k + 1].panelRect.x &&
            h.value.origin == PanelHinge(p, panels, 2 * k, state).value.origin &&
            h.value.angle == -PanelHinge(p, panels, 2 * k, state).value.angle
  {
    DesignEngine.LeavesAbut(p, 2 * k);
    assert (2 * k + 1) / 2 == k && (2 * k) / 2 == k;
    assert (2 * k) % 2 == 0 && (2 * k + 1) % 2 == 1;
  }

  // ---- The view's interaction state ---------------------------------------

  /** The panel being dragged and the pointer x it was grabbed at, less its offset. */
  datatype PanelDrag = PanelDrag(index: nat, startX: real)

  class ParametricView {
    var viewBox: ViewBox
    var draggedPanel: Option<PanelDrag>
    var isDraggingCanvas: bool
    var dragStartPoint: Point
    /** The outer size the view was last reset for. */
    var viewGeomWidth: real
    var viewGeomHeight: real

    /** The viewBox has a positive size, so zooming and panning are well defined. */
    ghost predicate Valid()
      reads this
    {
      viewBox.width > 0.0 && viewBox.height > 0.0
    }

    constructor ()
      ensures Valid()
      ensures viewBox == DefaultViewBox && draggedPanel == None && !isDraggingCanvas
      ensures dragStartPoint == Point(0.0, 0.0) && viewGeomWidth == 0.0 && viewGeomHeight == 0.0
    {
      viewBox := DefaultViewBox;
      draggedPanel := None;
      isDraggingCanvas := false;
      dragStartPoint := Point(0.0, 0.0);
      viewGeomWidth, viewGeomHeight := 0.0, 0.0;
    }

    /**
     * The effect on a new geometry: reset when the outer size changed, back
     * to the default viewBox when there is none.  The geometry comes from the
     * store, where Store.ProcessDesign (through StoredGeometry) guarantees a
     * frame of positive size for every design it recomputes.
     */
    method GeometryChanged(geometry: Option<Geometry>)
      requires Valid()
      requires geometry.Some? ==> geometry.value.frame.outer.width > 0.0 && geometry.value.frame.outer.height > 0.0
      modifies this`viewBox, this`viewGeomWidth, this`viewGeomHeight
      ensures Valid()
      ensures geometry.None? ==> viewBox == DefaultViewBox && viewGeomWidth == 0.0 && viewGeomHeight == 0.0
      ensures geometry.Some? ==> viewGeomWidth == geometry.value.frame.outer.width &&
                                 viewGeomHeight == geometry.value.frame.outer.height
      ensures geometry.Some? && (old(viewGeomWidth) != geometry.value.frame.outer.width ||
                                 old(viewGeomHeight) != geometry.value.frame.outer.height) ==>
                viewBox == ResetViewBox(geometry.value.frame.outer)
      ensures geometry.Some? && old(viewGeomWidth) == geometry.value.frame.outer.width &&
              old(viewGeomHeight) == geometry.value.frame.outer.height ==>
                viewBox == old(viewBox)
    {
      if geometry.Some? {
        var outer := geometry.value.frame.outer;
        if outer.width != viewGeomWidth || outer.height != viewGeomHeight {
          ResetView(geometry);
          viewGeomWidth, viewGeomHeight := outer.width, outer.height;
        }
      } else {
        viewBox := DefaultViewBox;
        viewGeomWidth, viewGeomHeight := 0.0, 0.0;
      }
    }

    method ResetView(geometry: Option<Geometry>)
      requires Valid()
      requires geometry.Some? ==> geometry.value.frame.outer.width > 0.0 && geometry.value.frame.outer.height > 0.0
      modifies this`viewBox
      ensures Valid()
      ensures geometry.Some? ==> viewBox == ResetViewBox(geometry.value.frame.outer)
      ensures geometry.None? ==> viewBox == old(viewBox)
    {
      if geometry.Some? {
        viewBox := ResetViewBox(geometry.value.frame.outer);
      }
    }

    /** handlePanelMouseDown: grab a sliding panel at svgX, remembering its offset. */
    method PanelMouseDown(s: SystemType, index: nat, panelOffsets: seq<real>, svgX: real)
      modifies this`draggedPanel
      ensures IsTrackSystem(s) ==> draggedPanel == Some(PanelDrag(index, svgX - JsArrayRead(panelOffsets, index, 0.0)))
      ensures !IsTrackSystem(s) ==> draggedPanel == old(draggedPanel)
    {
      if IsTrackSystem(s) {
        draggedPanel := Some(PanelDrag(index, svgX - JsArrayRead(panelOffsets, index, 0.0)));
      }
    }

    method CanvasMouseDown(client: Point)
      modifies this`isDraggingCanvas, this`dragStartPoint
      ensures isDraggingCanvas && dragStartPoint == client
    {
      isDraggingCanvas := true;
      dragStartPoint := client;
    }

    /**
     * handleCanvasMouseMove.  A panel drag returns the new offsets, with
     * only the dragged entry rewritten, clamped to the frame, and leaves the
     * view alone; otherwise a canvas drag pans the viewBox by the pointer's
     * movement in viewBox units.
     */
    method CanvasMouseMove(s: SystemType, geometry: Option<Geometry>, panelOffsets: seq<real>,
                           svgX: real, client: Point, clientWidth: real, clientHeight: real)
      returns (update: Option<seq<real>>)
      requires Valid()
      requires draggedPanel.Some? && geometry.Some? ==> draggedPanel.value.index < |geometry.value.panels|
      // The handler divides by the svg's client size; a pointer moves over the svg only when it has a positive area.
      requires clientWidth > 0.0 && clientHeight > 0.0
      modifies this`viewBox, this`dragStartPoint
      ensures Valid()
      ensures update.Some? <==> draggedPanel.Some? && IsTrackSystem(s) && geometry.Some?
      ensures update.Some? ==>
                var drag := draggedPanel.value;
                update.value == JsArrayWrite(panelOffsets, drag.index,
                                             ThreeDVisualization.ClampOffset(svgX - drag.startX,
                                               geometry.value.panels[drag.index].panelRect,
                                               geometry.value.frame.outer.width), 0.0) &&
                viewBox == old(viewBox) && dragStartPoint == old(dragStartPoint)
      ensures update.None? && !(isDraggingCanvas && geometry.Some?) ==>
                viewBox == old(viewBox) && dragStartPoint == old(dragStartPoint)
      ensures update.None? && isDraggingCanvas && geometry.Some? ==>
                viewBox.width == old(viewBox.width) && viewBox.height == old(viewBox.height) &&
                viewBox.x == old(viewBox.x) - (client.x - old(dragStartPoint.x)) * (old(viewBox.width) / clientWidth) &&
                viewBox.y == old(viewBox.y) - (client.y - old(dragStartPoint.y)) * (old(viewBox.height) / clientHeight) &&
                dragStartPoint == client
    {
      update := None;
      if draggedPanel.Some? && IsTrackSystem(s) && geometry.Some? {
        var newOffset := svgX - draggedPanel.value.startX;
        var panel := geometry.value.panels[draggedPanel.value.index];
        var frame := geometry.value.frame;
        var minOffset := -panel.panelRect.x;
        var maxOffset := frame.outer.width - panel.panelRect.width - panel.panelRect.x;
        newOffset := MaxR(minOffset, MinR(newOffset, maxOffset));
        update := Some(JsArrayWrite(panelOffsets, draggedPanel.value.index, newOffset, 0.0));
        return;
      }
      if !isDraggingCanvas || geometry.None? {
        return;
      }
      var scaleX := viewBox.width / clientWidth;
      var scaleY := viewBox.height / clientHeight;
      var dx := (client.x - dragStartPoint.x) * scaleX;
      var dy := (client.y - dragStartPoint.y) * scaleY;
      viewBox := viewBox.(x := viewBox.x - dx, y := viewBox.y - dy);
      dragStartPoint := client;
    }

    /** handleMouseUp: end any canvas or panel drag. */
    method MouseUp()
      modifies this`isDraggingCanvas, this`draggedPanel
      ensures !isDraggingCanvas && draggedPanel == None
    {
      isDraggingCanvas := false;
      draggedPanel := None;
    }

    /** handleWheel: zoom about the cursor within the content-relative bounds. */
    method Wheel(geometry: Option<Geometry>, cursor: Point, deltaY: real)
      requires Valid()
      requires geometry.Some? ==> geometry.value.frame.outer.width > 0.0
      modifies this`viewBox
      ensures Valid()
      ensures geometry.None? ==> viewBox == old(viewBox)
      ensures geometry.Some? ==>
                var r := WheelZoom(old(viewBox), cursor, deltaY, geometry.value.frame.outer.width + Padding * 2.0);
                viewBox == if r.Some? then r.value else old(viewBox)
    {
      if geometry.None? {
        return;
      }
      var contentWidth := geometry.value.frame.outer.width + Padding * 2.0;
      var r := WheelZoom(viewBox, cursor, deltaY, contentWidth);
      if r.Some? {
        var w := r.value.width;
        assert w > 0.0 by {
          assert w == WheelWidth(viewBox.width, deltaY, contentWidth);
        }
        assert r.value.height > 0.0 by {
          assert r.value.height * viewBox.width == w * viewBox.height;
          ProductSign(r.value.height, viewBox.width);
          assert w * viewBox.height > 0.0 by { ProductSign(w, viewBox.height); }
        }
        viewBox := r.value;
      }
    }
  }
}
