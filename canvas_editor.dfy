// The custom 2D editor as a state machine (custom-design-canvas.tsx): the
// scene it edits, the active tool, the interaction mode, the selection, the
// drag captured at the press, the element being drawn, the view and the
// undo history.  Each handler is a method whose new state is stated in terms
// of the pure scene operations of CanvasEditing and CanvasScene.

module CanvasEditor {
  import opened Types
  import opened Numeric
  import opened CanvasScene
  import opened CanvasGeometry
  import opened CanvasEditing
  import CanvasHistory

  datatype Tool = SelectTool | PanTool | PaintTool | DrawWith(draw: DrawTool)

  datatype Mode = Idle | Selecting | Dragging | Resizing | Rotating | Drawing | Panning

  /** `dragInfo`: what a press captured for the moves that follow it. */
  datatype DragInfo =
    | MoveDrag(element: CanvasElement, start: Point, children: seq<ChildStart>)
    | ResizeDrag(element: CanvasElement, start: Point, grip: Grip)
    | RotateDrag(element: CanvasElement, center: Point)

  /** The elements a move of `e` carries: a frame its children, a mullion its dimensions and group. */
  function ChildrenOf(s: Scene, e: CanvasElement): seq<ChildStart>
  {
    match e
    case FrameElement(f) => FrameChildren(s, f.id)
    case MullionElement(m) => MullionChildren(s, m)
    case _ => []
  }

  /** What a select press leaves in the mode, the selection and the drag, by what it hit. */
  predicate PressedOn(hit: Hit, s: Scene, world: Point, trig: Trig,
                      sel0: Option<Selection>, drag0: Option<DragInfo>,
                      mode: Mode, sel: Option<Selection>, drag: Option<DragInfo>)
  {
    match hit
    case GripHit(e, g) =>
      sel == sel0
      && if g == RectGrip(Rotate) then mode == Rotating && drag == Some(RotateDrag(e, ElementCenter(e)))
         else mode == Resizing && drag == Some(ResizeDrag(e, GripProbe(e, world, trig), g))
    case ElementHit(e) =>
      mode == Selecting && sel == Some(SelectionOf(e)) && drag == Some(MoveDrag(e, world, ChildrenOf(s, e)))
    case Miss =>
      mode == Idle && sel == None && drag == drag0
  }

  /** A move of the pointer in 'dragging': the element moves with its press position, carrying its children. */
  function Moved(s: Scene, d: DragInfo, world: Point, zoom: real, hypot: Hypot): Scene
    requires zoom != 0.0 && d.MoveDrag?
  {
    match d.element
    case FrameElement(f0) => DragFrame(s, f0, d.start, d.children, world, zoom)
    case TextBoxElement(t0) => DragTextBox(s, t0, d.start, world, zoom)
    case MullionElement(m0) => DragMullion(s, m0, d.start, d.children, world, hypot)
    case DimensionElement(d0) => DragDimension(s, d0, d.start, world)
  }

  /** A move of the pointer in 'resizing': rectangles by a rect handle, lines by an end. */
  function Resized(s: Scene, d: DragInfo, world: Point, shift: bool, hypot: Hypot, trig: Trig): Scene
    requires d.ResizeDrag?
  {
    var delta := DeltaOf(d.start, world);
    match d.grip
    case RectGrip(h) =>
      (match d.element
       case FrameElement(f0) => ResizeFrame(s, f0, h, LocalDelta(delta, f0.rotation, trig))
       case TextBoxElement(t0) => ResizeTextBox(s, t0, h, LocalDelta(delta, t0.rotation, trig))
       case _ => s)
    case LineGrip(h) =>
      if d.element.MullionElement? || d.element.DimensionElement? then
        ResizeLineElement(s, d.element, h, delta, shift, hypot)
      else s
  }

  /** The pan of a 'panning' move: the offset grows by how far the pointer went. */
  function Panned(v: View, from: Point, to: Point): (r: View)
    ensures r.zoom == v.zoom
    ensures r.pan.x - v.pan.x == to.x - from.x && r.pan.y - v.pan.y == to.y - from.y
  {
    View(Point(v.pan.x + (to.x - from.x), v.pan.y + (to.y - from.y)), v.zoom)
  }

  /** Two pan moves in a row pan by the whole way the pointer went. */
  lemma PannedTwice(v: View, a: Point, b: Point, c: Point)
    ensures Panned(Panned(v, a, b), b, c) == Panned(v, a, c)
  {
  }

  /** The parent the mouse-up gives a finished mullion, when it has one. */
  function DrawnParent(s: Scene, last: Option<CanvasElement>, trig: Trig): Option<string>
  {
    if last.Some? && last.value.MullionElement? && !Degenerate(last.value)
    then ParentFrame(s.frames, last.value.mullion, trig)
    else None
  }

  /**
   * The editor's state.  `scene` stands for the active design's element
   * lists in the store, which updateElements patches; `view` for the
   * store's canvas pan and zoom.
   */
  class CustomEditor {
    var scene: Scene
    var tool: Tool
    var mode: Mode
    var selected: Option<Selection>
    var drag: Option<DragInfo>
    var drawing: Option<CanvasElement>
    var lastDrawn: Option<CanvasElement>
    var editingText: Option<TextBox>
    var view: View
    var panStart: Point
    var paintColor: string
    var paintTarget: PaintTarget
    const history: CanvasHistory.EditHistory

    ghost predicate Valid()
      reads this, history
    {
      history.Valid() && view.zoom > 0.0
    }

    constructor (s: Scene, v: View)
      requires v.zoom > 0.0
      ensures Valid() && fresh(history)
      ensures scene == s && view == v && tool == SelectTool && mode == Idle
      ensures selected == None && drag == None && drawing == None && lastDrawn == None && editingText == None
      ensures paintColor == DefaultStrokeColor && paintTarget == FrameTarget
      ensures history.State() == CanvasHistory.Initial && !history.inProgress
    {
      scene := s;
      tool := SelectTool;
      mode := Idle;
      selected, drag, drawing, lastDrawn, editingText := None, None, None, None, None;
      view := v;
      panStart := Point(0.0, 0.0);
      paintColor := DefaultStrokeColor;
      paintTarget := FrameTarget;
      history := new CanvasHistory.EditHistory();
    }

    /** A press that starts an operation: the left button, with no text being edited. */
    predicate Starts(button: int)
      reads this
    {
      button == 0 && editingText.None?
    }

    /**
     * handleMouseDown at canvas point `at`.  The middle button starts a pan;
     * other non-left buttons and presses while a text is being edited do
     * nothing.  Otherwise the operation starts, and the tool decides: pan,
     * paint (its record holds the scene from before the paint), select (the hit test, returned in `hit`), or
     * draw (a new element with the fresh id `freshId` is appended).
     */
    method MouseDown(button: int, at: Point, freshId: string, trig: Trig) returns (hit: Option<Hit>)
      requires Valid()
      modifies this, history
      ensures Valid() && view == old(view) && tool == old(tool) && editingText == old(editingText)
      ensures hit.Some? <==> old(Starts(button)) && old(tool) == SelectTool
      ensures !old(Starts(button)) ==>
        (scene == old(scene) && selected == old(selected) && drag == old(drag) && drawing == old(drawing)
        && history.State() == old(history.State()) && history.inProgress == old(history.inProgress))
      ensures !old(Starts(button)) ==> mode == if button == 1 then Panning else old(mode)
      ensures button == 1 ==> panStart == at
      ensures old(Starts(button)) ==> history.inProgress
      ensures old(Starts(button)) && old(tool) == PanTool ==>
        (mode == Panning && panStart == at && scene == old(scene) && selected == old(selected)
        && drawing == old(drawing) && history.State() == old(history.State()))
      ensures old(Starts(button)) && old(tool) == PaintTool ==>
        (scene == Painted(old(scene), paintTarget, paintColor, WorldPoint(at, view.pan, view.zoom), trig)
        && mode == old(mode) && selected == old(selected) && drawing == old(drawing)
        && history.State() == CanvasHistory.Recorded(old(history.State()), old(scene)))
      ensures hit.Some? ==>
        (scene == old(scene) && drawing == old(drawing) && history.State() == old(history.State())
        && PressedOn(hit.value, old(scene), WorldPoint(at, view.pan, view.zoom), trig,
                     old(selected), old(drag), mode, selected, drag))
      ensures hit == Some(Miss) ==>
        NothingHit(old(scene), old(selected), WorldPoint(at, view.pan, view.zoom), view.zoom, trig)
      ensures old(Starts(button)) && old(tool).DrawWith? ==>
        (mode == Drawing && selected == None && history.State() == old(history.State())
        && drawing == Some(Started(old(tool).draw, freshId, WorldPoint(at, view.pan, view.zoom)))
        && scene == Appended(old(scene), drawing.value))
    {
      hit := None;
      if button == 1 {
        mode := Panning;
        panStart := at;
        return;
      }
      if button != 0 || editingText.Some? {
        return;
      }
      history.BeginOperation();
      var world := WorldPoint(at, view.pan, view.zoom);
      match tool {
        case PanTool =>
          mode := Panning;
          panStart := at;
        case PaintTool =>
          PressPaint(world, trig);
        case SelectTool =>
          var h := PressSelect(world, trig);
          hit := Some(h);
        case DrawWith(t) =>
          PressDraw(t, freshId, world);
      }
    }

    /** The select press's hit test found nothing: no handle, no dimension, mullion, frame or text box. */
    static predicate NothingHit(s: Scene, selected: Option<Selection>, w: Point, zoom: real, trig: Trig)
      requires zoom != 0.0
    {
      NoSelectedGrip(s, selected, w, zoom, trig)
      && NoneHit(s.dimensions, DimensionHitAt(w, zoom, trig))
      && NoneHit(s.mullions, MullionHitAt(w))
      && NoneHit(s.frames, FrameHitAt(w, trig))
      && NoneHit(s.textBoxes, TextBoxHitAt(w, trig))
    }

    /**
     * The paint tool's press.  Its deferred record runs the render's own
     * `recordHistory`, whose closure holds the scene from before the paint;
     * the painted scene is recorded only by the mouse-up that follows.
     */
    method PressPaint(world: Point, trig: Trig)
      requires Valid()
      modifies this`scene, history
      ensures Valid() && history.inProgress == old(history.inProgress)
      ensures scene == Painted(old(scene), paintTarget, paintColor, world, trig)
      ensures history.State() == CanvasHistory.Recorded(old(history.State()), old(scene))
    {
      var rendered := scene;
      scene := PaintAt(scene, paintTarget, paintColor, world, trig);
      history.Record(rendered, true);
    }

    /** The select tool's press: a handle of the selection rotates or resizes, an element is selected. */
    method PressSelect(world: Point, trig: Trig) returns (h: Hit)
      requires Valid()
      modifies this`mode, this`selected, this`drag
      ensures Valid()
      ensures PressedOn(h, scene, world, trig, old(selected), old(drag), mode, selected, drag)
      ensures h == Miss ==> NothingHit(scene, old(selected), world, view.zoom, trig)
    {
      h := HitTest(scene, selected, world, view.zoom, trig);
      match h {
        case GripHit(e, g) =>
          if g == RectGrip(Rotate) {
            mode := Rotating;
            drag := Some(RotateDrag(e, ElementCenter(e)));
          } else {
            mode := Resizing;
            drag := Some(ResizeDrag(e, GripProbe(e, world, trig), g));
          }
        case ElementHit(e) =>
          selected := Some(SelectionOf(e));
          mode := Selecting;
          drag := Some(MoveDrag(e, world, ChildrenOf(scene, e)));
        case Miss =>
          selected := None;
          mode := Idle;
      }
    }

    /** A draw tool's press: the element it starts is appended and becomes the one being drawn. */
    method PressDraw(t: DrawTool, freshId: string, world: Point)
      requires Valid()
      modifies this`mode, this`selected, this`drawing, this`scene
      ensures Valid()
      ensures mode == Drawing && selected == None && drawing == Some(Started(t, freshId, world))
      ensures scene == Appended(old(scene), drawing.value)
    {
      mode := Drawing;
      selected := None;
      var e := Started(t, freshId, world);
      drawing := Some(e);
      scene := Appended(scene, e);
    }

    /**
     * handleMouseMove at canvas point `at`.  The first move after a select
     * press only turns 'selecting' into 'dragging'.  `bearing` is the
     * pointer's direction from the rotation centre in degrees (atan2), and
     * `hypot` the length of a vector; both are computed by the caller.
     */
    method MouseMove(at: Point, shift: bool, bearing: real, trig: Trig, hypot: Hypot)
      requires Valid()
      modifies this
      ensures Valid()
      ensures tool == old(tool) && selected == old(selected) && drag == old(drag) && drawing == old(drawing)
      ensures editingText == old(editingText)
      ensures old(mode) == Idle || old(editingText).Some? ==> (mode == old(mode) && scene == old(scene)
        && view == old(view) && lastDrawn == old(lastDrawn))
      ensures old(editingText).None? && old(mode) == Selecting ==>
        (mode == Dragging && scene == old(scene) && view == old(view))
      ensures old(editingText).None? && old(mode) != Selecting ==> mode == old(mode)
      ensures old(editingText).None? && old(mode) == Panning ==>
        (view == Panned(old(view), old(panStart), at) && panStart == at && scene == old(scene))
      ensures old(mode) != Panning ==> view == old(view)
      ensures old(editingText).None? && old(mode) == Drawing && old(drawing).Some? ==>
        (scene == DrawStep(old(scene), old(drawing).value, WorldPoint(at, view.pan, view.zoom), view.zoom, shift, hypot)
        && lastDrawn == if DrawnElement(scene, old(drawing).value).Some?
          then DrawnElement(scene, old(drawing).value) else old(lastDrawn))
      ensures !(old(editingText).None? && old(mode) == Drawing && old(drawing).Some?) ==> lastDrawn == old(lastDrawn)
      ensures old(editingText).None? && old(mode) == Dragging && old(drag).Some? && old(drag).value.MoveDrag? ==>
        scene == Moved(old(scene), old(drag).value, WorldPoint(at, view.pan, view.zoom), view.zoom, hypot)
      ensures old(editingText).None? && old(mode) == Resizing && old(drag).Some? && old(drag).value.ResizeDrag? ==>
        scene == Resized(old(scene), old(drag).value, WorldPoint(at, view.pan, view.zoom), shift, hypot, trig)
      ensures old(editingText).None? && old(mode) == Rotating && old(drag).Some? && old(drag).value.RotateDrag? ==>
        scene == RotateElement(old(scene), old(drag).value.element, RotationAngle(bearing, shift), old(drag).value.center)
      ensures old(mode) == Dragging && !(old(drag).Some? && old(drag).value.MoveDrag?) ==> scene == old(scene)
      ensures old(mode) == Resizing && !(old(drag).Some? && old(drag).value.ResizeDrag?) ==> scene == old(scene)
      ensures old(mode) == Rotating && !(old(drag).Some? && old(drag).value.RotateDrag?) ==> scene == old(scene)
    {
      if mode == Idle || editingText.Some? {
        return;
      }
      if mode == Selecting {
        mode := Dragging;
        return;
      }
      if mode == Panning {
        view := Panned(view, panStart, at);
        panStart := at;
        return;
      }
      var world := WorldPoint(at, view.pan, view.zoom);
      if mode == Drawing && drawing.Some? {
        scene := DrawStep(scene, drawing.value, world, view.zoom, shift, hypot);
        var drawn := DrawnElement(scene, drawing.value);
        if drawn.Some? {
          lastDrawn := drawn;
        }
      } else if mode == Dragging && drag.Some? && drag.value.MoveDrag? {
        scene := Moved(scene, drag.value, world, view.zoom, hypot);
      } else if mode == Resizing && drag.Some? && drag.value.ResizeDrag? {
        scene := Resized(scene, drag.value, world, shift, hypot, trig);
      } else if mode == Rotating && drag.Some? && drag.value.RotateDrag? {
        scene := RotateElement(scene, drag.value.element, RotationAngle(bearing, shift), drag.value.center);
      }
    }

    /**
     * handleMouseUp.  A draw is finished (cleanup, auto-dimensions, the
     * mullion's parent; a kept text box is selected for editing) and the tool
     * returns to select unless a text box was drawn; an operation in progress
     * is recorded; the interaction ends.  `stamp` stands for Date.now().  The
     * record uses the handler's closure, so it holds the scene as rendered
     * before the release, without the finishing changes.
     */
    method MouseUp(stamp: string, trig: Trig)
      requires Valid()
      modifies this, history
      ensures Valid() && view == old(view)
      ensures mode == Idle && drag == None && drawing == None && lastDrawn == None
      ensures !(old(mode) == Drawing && old(drawing).Some?) ==>
        (scene == old(scene) && tool == old(tool) && selected == old(selected) && editingText == old(editingText))
      ensures old(mode) == Drawing && old(drawing).Some? ==>
        Finished(old(scene), old(drawing).value, old(lastDrawn), stamp, trig, old(tool), old(selected), old(editingText),
                 scene, tool, selected, editingText)
      ensures !history.inProgress
      ensures old(history.inProgress) ==> history.State() == CanvasHistory.Recorded(old(history.State()), old(scene))
      ensures !old(history.inProgress) ==> history.State() == old(history.State())
    {
      var rendered := scene;
      if mode == Drawing && drawing.Some? {
        FinishDrawing(stamp, trig);
      }
      history.EndOperation(rendered);
      mode := Idle;
      drawing, drag, lastDrawn := None, None, None;
    }

    /**
     * The state a drawing mouse-up leaves: the finished scene; the tool back
     * to select unless a text box was drawn; a kept text box selected and
     * opened for editing.
     */
    static predicate Finished(s: Scene, drawing: CanvasElement, last: Option<CanvasElement>, stamp: string, trig: Trig,
                              tool0: Tool, sel0: Option<Selection>, edit0: Option<TextBox>,
                              s': Scene, tool: Tool, sel: Option<Selection>, edit: Option<TextBox>)
    {
      var keptBox := last.Some? && last.value.TextBoxElement? && !Degenerate(last.value);
      s' == FinishDraw(s, drawing, last, stamp, DrawnParent(s, last, trig))
      && tool == (if keptBox || !drawing.TextBoxElement? then SelectTool else tool0)
      && sel == (if keptBox then Some(Selection(TextBoxKind, last.value.textBox.id)) else sel0)
      && edit == (if keptBox then Some(last.value.textBox) else edit0)
    }

    method FinishDrawing(stamp: string, trig: Trig)
      requires Valid() && drawing.Some?
      modifies this`scene, this`tool, this`selected, this`editingText
      ensures Valid()
      ensures Finished(old(scene), drawing.value, lastDrawn, stamp, trig, old(tool), old(selected), old(editingText),
                       scene, tool, selected, editingText)
    {
      var parent := None;
      if lastDrawn.Some? && lastDrawn.value.MullionElement? && !Degenerate(lastDrawn.value) {
        parent := MullionParent(scene.frames, lastDrawn.value.mullion, trig);
      }
      scene := FinishDraw(scene, drawing.value, lastDrawn, stamp, parent);
      if lastDrawn.Some? && lastDrawn.value.TextBoxElement? && !Degenerate(lastDrawn.value) {
        tool := SelectTool;
        selected := Some(Selection(TextBoxKind, lastDrawn.value.textBox.id));
        editingText := Some(lastDrawn.value.textBox);
      }
      if !drawing.value.TextBoxElement? {
        tool := SelectTool;
      }
    }

    /** handleClear: every list emptied and the selection cleared; nothing is recorded. */
    method Clear()
      requires Valid()
      modifies this`scene, this`selected
      ensures Valid() && scene == EmptyScene && selected == None
    {
      scene := EmptyScene;
      selected := None;
    }

    /**
     * handleDeleteSelected: the cascade delete of the selection; the selection
     * is cleared.  The deferred record holds the scene from before the delete.
     */
    method DeleteSelected()
      requires Valid()
      modifies this`scene, this`selected, history
      ensures Valid()
      ensures old(selected).None? ==> scene == old(scene) && selected == None && history.State() == old(history.State())
      ensures old(selected).Some? ==>
        (scene == Patched(old(scene), DeletePatch(old(scene), old(selected).value)) && selected == None
        && history.State() == CanvasHistory.Recorded(old(history.State()), old(scene)))
    {
      if selected.Some? {
        var rendered := scene;
        scene := Patched(scene, DeletePatch(scene, selected.value));
        selected := None;
        history.Record(rendered, true);
      }
    }

    /**
     * handleIncreaseThickness (`grow`) and handleDecreaseThickness on the
     * selection.  The deferred record holds the scene from before the step.
     */
    method StepThickness(grow: bool)
      requires Valid()
      modifies this`scene, history
      ensures Valid()
      ensures selected.None? ==> scene == old(scene) && history.State() == old(history.State())
      ensures selected.Some? ==>
        (scene == Patched(old(scene), ThicknessPatch(old(scene), selected.value, grow))
        && history.State() == CanvasHistory.Recorded(old(history.State()), old(scene)))
    {
      if selected.Some? {
        var rendered := scene;
        scene := Patched(scene, ThicknessPatch(scene, selected.value, grow));
        history.Record(rendered, true);
      }
    }

    /** handleUndo: the cursor steps back, its snapshot becomes the scene and the selection is cleared. */
    method Undo()
      requires Valid()
      modifies this`scene, this`selected, history
      ensures Valid()
      ensures history.State() == CanvasHistory.Undone(old(history.State()))
      ensures old(history.index) > 0 ==> scene == CanvasHistory.Current(history.State()) && selected == None
      ensures old(history.index) == 0 ==> scene == old(scene) && selected == old(selected)
    {
      var restore := history.Undo();
      if restore.Some? {
        scene := restore.value;
        selected := None;
      }
    }

    /** handleRedo, the mirror of Undo. */
    method Redo()
      requires Valid()
      modifies this`scene, this`selected, history
      ensures Valid()
      ensures history.State() == CanvasHistory.Redone(old(history.State()))
      ensures old(history.index) < |old(history.snapshots)| - 1 ==>
        scene == CanvasHistory.Current(history.State()) && selected == None
      ensures old(history.index) == |old(history.snapshots)| - 1 ==> scene == old(scene) && selected == old(selected)
    {
      var restore := history.Redo();
      if restore.Some? {
        scene := restore.value;
        selected := None;
      }
    }

    /** The animation frame after an undo or redo: recording is allowed again. */
    method FrameCallback()
      requires Valid()
      modifies history
      ensures Valid() && !history.inProgress && history.State() == old(history.State())
    {
      history.FrameCallback();
    }

    /** handleZoomIn, handleZoomOut and handleWheel on the view. */
    method ZoomBy(zoomIn: bool, viewport: Option<Point>)
      requires Valid()
      modifies this`view
      ensures Valid()
      ensures view == if zoomIn then ZoomIn(old(view), viewport) else ZoomOut(old(view), viewport)
      ensures ZoomInRange(old(view.zoom)) ==> ZoomInRange(view.zoom)
    {
      view := if zoomIn then ZoomIn(view, viewport) else ZoomOut(view, viewport);
    }

    method WheelZoom(deltaY: real, cursor: Point)
      requires Valid()
      modifies this`view
      ensures Valid() && view == Wheel(old(view), deltaY, cursor)
      ensures ZoomInRange(old(view.zoom)) ==> ZoomInRange(view.zoom)
    {
      view := Wheel(view, deltaY, cursor);
    }
  }
}
