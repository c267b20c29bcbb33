// The decision rules of src/components/design/3d-visualization.tsx: how a
// custom frame or a parametric panel swings open, on which track a sliding
// panel runs, how far a sliding panel may be dragged, which clicks toggle a
// panel and which view is shown.  Meshes, lights and colours are not
// modelled; angles are in degrees and lengths in metres (mm · 0.001).

module ThreeDVisualization {
  import opened Types
  import opened Numeric
  import DesignEngine

  /** Depth of the sash profiles, which is also the distance between tracks (mm). */
  const SashDepth: real := 70.0

  /** Millimetres to metres. */
  const Scale: real := 0.001

  datatype Axis = XAxis | YAxis

  /** The rotation of a sash group: its axis, angle (degrees) and local pivot. */
  datatype Swing = Swing(axis: Axis, angle: real, pivotX: real, pivotY: real)

  /** No rotation: the default the source starts from. */
  const Rest: Swing := Swing(YAxis, 0.0, 0.0, 0.0)

  /** How far an open state opens: 1 half way, any other open state fully. */
  function OpenRatio(state: int): real
  {
    if state == 1 then 0.5 else 1.0
  }

  predicate IsOperable(opening: Option<OpeningType>)
  {
    opening.Some? && !opening.value.FixedOpening?
  }

  // ---- Custom frames ------------------------------------------------------

  /** The swing of a custom frame (lines 79-114). */
  function CustomSwing(f: Frame): (s: Swing)
    ensures !IsOperable(f.opening) || GetOr(f.openState, 0) == 0 ==> s == Rest
    ensures IsOperable(f.opening) && GetOr(f.openState, 0) > 0 ==>
              AbsR(s.angle) == (if f.openState.value == 1 then 45.0 else 90.0)
    ensures s.axis.XAxis? ==> s.pivotX == 0.0 && AbsR(s.pivotY) == AbsR(f.height * Scale) / 2.0
    ensures s.axis.YAxis? && s != Rest ==> s.pivotY == 0.0 && AbsR(s.pivotX) == AbsR(f.width * Scale) / 2.0
  {
    var openState := GetOr(f.openState, 0);
    if IsOperable(f.opening) && openState > 0 then
      var angle := 90.0 * OpenRatio(openState);
      var frameWidth := f.width * Scale;
      var frameHeight := f.height * Scale;
      match f.opening.value
      case AwningOpening => Swing(XAxis, angle, 0.0, frameHeight / 2.0)
      case Tilt => Swing(XAxis, -angle, 0.0, -frameHeight / 2.0)
      case CasementLeft => Swing(YAxis, angle, -frameWidth / 2.0, 0.0)
      case DoorLeft => Swing(YAxis, angle, -frameWidth / 2.0, 0.0)
      case CasementRight => Swing(YAxis, -angle, frameWidth / 2.0, 0.0)
      case DoorRight => Swing(YAxis, -angle, frameWidth / 2.0, 0.0)
      case FixedOpening => Rest
    else Rest
  }

  /**
   * Opposite openings mirror each other: left and right hinges swing by
   * opposite angles about opposite edges, and so do awning (top) and tilt
   * (bottom); a door swings like the casement on the same side.
   */
  lemma MirroredOpenings(f: Frame)
    requires GetOr(f.openState, 0) > 0
    ensures var l := CustomSwing(f.(opening := Some(CasementLeft)));
            var r := CustomSwing(f.(opening := Some(CasementRight)));
            l.axis == r.axis == YAxis && l.angle == -r.angle && l.pivotX == -r.pivotX && l.angle > 0.0
    ensures var a := CustomSwing(f.(opening := Some(AwningOpening)));
            var t := CustomSwing(f.(opening := Some(Tilt)));
            a.axis == t.axis == XAxis && a.angle == -t.angle && a.pivotY == -t.pivotY && a.angle > 0.0
    ensures CustomSwing(f.(opening := Some(DoorLeft))) == CustomSwing(f.(opening := Some(CasementLeft)))
    ensures CustomSwing(f.(opening := Some(DoorRight))) == CustomSwing(f.(opening := Some(CasementRight)))
  {
  }

  // ---- Parametric panels ------------------------------------------------

  /** The casement hinge side: 'left', 'right', or alternating from the left for 'pair' or unset. */
  function CasementHingeLeft(direction: Option<CasementOpening>, index: nat): (left: bool)
    ensures direction == Some(OpenLeft) ==> left
    ensures direction == Some(OpenRight) ==> !left
    ensures direction.None? || direction == Some(OpenPair) ==> (left <==> index % 2 == 0)
  {
    match GetOr(direction, OpenPair)
    case OpenLeft => true
    case OpenRight => false
    case OpenPair => index % 2 == 0
  }

  /** The swing of parametric panel `index` in open state `state` (lines 348-374). */
  function PanelSwing(p: DesignParameters, index: nat, state: int, panel: PanelGeometry): (s: Swing)
    ensures state <= 0 ==> s == Rest
    ensures state > 0 && (p.system.Awning? || p.system.TiltAndTurn?) ==>
              s == Swing(XAxis, 90.0 * OpenRatio(state), 0.0, panel.panelRect.height * Scale / 2.0)
    ensures state > 0 && (p.system.Casement? || p.system.Foldable?) ==>
              s.axis.YAxis? && s.pivotY == 0.0 && AbsR(s.angle) == 90.0 * OpenRatio(state) &&
              (s.angle > 0.0 ==> s.pivotX == -(panel.panelRect.width * Scale) / 2.0) &&
              (s.angle < 0.0 ==> s.pivotX == panel.panelRect.width * Scale / 2.0)
    ensures !(p.system.Awning? || p.system.TiltAndTurn? || p.system.Casement? || p.system.Foldable?) ==> s == Rest
  {
    var panelWidth := panel.panelRect.width * Scale;
    var panelHeight := panel.panelRect.height * Scale;
    if state > 0 then
      var angle := 90.0 * OpenRatio(state);
      if p.system.Awning? || p.system.TiltAndTurn? then
        Swing(XAxis, angle, 0.0, panelHeight / 2.0)
      else if p.system.Casement? then
        if CasementHingeLeft(p.casementOpening, index) then Swing(YAxis, angle, -panelWidth / 2.0, 0.0)
        else Swing(YAxis, -angle, panelWidth / 2.0, 0.0)
      else if p.system.Foldable? then
        if index % 2 == 0 then Swing(YAxis, -angle, panelWidth / 2.0, 0.0)
        else Swing(YAxis, angle, -panelWidth / 2.0, 0.0)
      else Rest
    else Rest
  }

  /** The x of a panel centre in the scene: the frame is centred on the origin. */
  function PanelCentreX(outer: Rect, panel: PanelGeometry): (r: real)
    ensures r == Scale * ((panel.panelRect.x + panel.panelRect.width / 2.0) - outer.width / 2.0)
    ensures panel.panelRect.x + panel.panelRect.width / 2.0 == outer.width / 2.0 ==> r == 0.0
    ensures panel.panelRect.x + panel.panelRect.width / 2.0 < outer.width / 2.0 ==> r < 0.0
  {
    (panel.panelRect.x - outer.width / 2.0) * Scale + panel.panelRect.width * Scale / 2.0
  }

  /** Where a panel's hinge lies in the scene. */
  function HingeX(outer: Rect, panel: PanelGeometry, s: Swing): (r: real)
    ensures s.pivotX == -(panel.panelRect.width * Scale) / 2.0 ==>
              r == (panel.panelRect.x - outer.width / 2.0) * Scale
    ensures s.pivotX == panel.panelRect.width * Scale / 2.0 ==>
              r == (panel.panelRect.x + panel.panelRect.width - outer.width / 2.0) * Scale
  {
    PanelCentreX(outer, panel) + s.pivotX
  }

  /**
   * The two leaves of a foldable pair, as the engine lays them out, turn
   * about one shared hinge and in opposite directions.
   */
  lemma FoldableLeavesShareHinge(p: DesignParameters, k: nat, state: int)
    requires p.system.Foldable? && p.panels > 0 && state > 0
    ensures var a := DesignEngine.SashPanel(p, 2 * k);
            var b := DesignEngine.SashPanel(p, 2 * k + 1);
            var outer := DesignEngine.OuterRect(p);
            var sa := PanelSwing(p, 2 * k, state, a);
            var sb := PanelSwing(p, 2 * k + 1, state, b);
            HingeX(outer, a, sa) == HingeX(outer, b, sb) && sa.angle == -sb.angle
  {
    DesignEngine.LeavesAbut(p, 2 * k);
    assert (2 * k) % 2 == 0 && (2 * k + 1) % 2 == 1;
  }

  /** In pair mode the two casement leaves of a pair swing apart, hinged on their outer edges. */
  lemma PairedCasementLeavesMirror(p: DesignParameters, k: nat, state: int, a: PanelGeometry, b: PanelGeometry)
    requires p.system.Casement? && p.casementOpening != Some(OpenLeft) && p.casementOpening != Some(OpenRight)
    requires state > 0 && a.panelRect.width == b.panelRect.width
    ensures var sa := PanelSwing(p, 2 * k, state, a);
            var sb := PanelSwing(p, 2 * k + 1, state, b);
            sa.angle > 0.0 && sa.angle == -sb.angle && sa.pivotX == -sb.pivotX &&
            sa.pivotX == -(a.panelRect.width * Scale) / 2.0
  {
    assert (2 * k) % 2 == 0 && (2 * k + 1) % 2 == 1;
  }

  // ---- Tracks of sliding panels -------------------------------------------

  /** `parseInt(system.charAt(0)) || 2`: the leading digit of a sliding system. */
  function NumTracks(s: SystemType): (n: int)
    ensures 2 <= n <= 5
    ensures IsTrackSystem(s) ==> n == LeadingDigit(s)
  {
    if IsTrackSystem(s) then LeadingDigit(s) else 2
  }

  /** The depth (mm) of the track for panel `index`: tracks centred on the frame, 70 mm apart. */
  function TrackDepth(numTracks: int, index: nat): (z: real)
    requires numTracks >= 1
    ensures -((numTracks - 1) as real) * SashDepth / 2.0 <= z <= ((numTracks - 1) as real) * SashDepth / 2.0
  {
    var trackIndex := index % numTracks;
    var totalTrackDepth := (numTracks - 1) as real * SashDepth;
    -totalTrackDepth / 2.0 + trackIndex as real * SashDepth
  }

  /** A multiple of n other than 0 is at least n in size. */
  lemma MultipleBound(d: int, n: int)
    requires n >= 1
    ensures d >= 1 ==> d * n >= n
    ensures d <= -1 ==> d * n <= -n
  {
    if d >= 1 {
      assert (d - 1) * n >= 0;
    } else if d <= -1 {
      assert (-d - 1) * n >= 0;
    }
  }

  /** Euclidean remainder is determined by any quotient/remainder split. */
  lemma ModUnique(a: int, n: int, q: int, t: int)
    requires n >= 1 && 0 <= t < n && a == q * n + t
    ensures a % n == t
  {
    var d := a / n - q;
    assert d * n == t - a % n by {
      assert a == (a / n) * n + a % n;
      assert d * n == (a / n) * n - q * n;
    }
    MultipleBound(d, n);
  }

  /** Panel i and panel i + numTracks run on the same track. */
  lemma TrackDepthPeriodic(numTracks: int, index: nat)
    requires numTracks >= 1
    ensures TrackDepth(numTracks, index + numTracks) == TrackDepth(numTracks, index)
  {
    assert index == (index / numTracks) * numTracks + index % numTracks;
    ModUnique(index + numTracks, numTracks, index / numTracks + 1, index % numTracks);
  }

  /** The tracks are symmetric about the frame's mid-plane. */
  lemma TrackDepthSymmetric(numTracks: int, t: nat)
    requires numTracks >= 1 && t < numTracks
    ensures TrackDepth(numTracks, t) == -TrackDepth(numTracks, numTracks - 1 - t)
  {
    assert t % numTracks == t;
    assert (numTracks - 1 - t) % numTracks == numTracks - 1 - t;
  }

  /** With at least two tracks, neighbouring panels never share a track. */
  lemma NeighboursOnDifferentTracks(numTracks: int, index: nat)
    requires numTracks >= 2
    ensures TrackDepth(numTracks, index) != TrackDepth(numTracks, index + 1)
  {
    var t := index % numTracks;
    var q := index / numTracks;
    assert index == q * numTracks + t;
    if t + 1 < numTracks {
      ModUnique(index + 1, numTracks, q, t + 1);
    } else {
      ModUnique(index + 1, numTracks, q + 1, 0);
    }
  }

  // ---- Dragging a sliding panel -------------------------------------------

  /** The drag offset clamped so the panel stays within the outer frame's width. */
  function ClampOffset(offset: real, panelRect: Rect, outerWidth: real): (r: real)
    ensures panelRect.width <= outerWidth ==>
              0.0 <= panelRect.x + r && panelRect.x + r + panelRect.width <= outerWidth
    ensures -panelRect.x <= offset <= outerWidth - panelRect.x - panelRect.width ==> r == offset
    ensures outerWidth < panelRect.width ==> r == -panelRect.x
  {
    var minOffset := -panelRect.x;
    var maxOffset := outerWidth - panelRect.x - panelRect.width;
    ClampR(offset, minOffset, maxOffset)
  }

  /** Clamping twice is clamping once. */
  lemma ClampOffsetIdempotent(offset: real, panelRect: Rect, outerWidth: real)
    ensures ClampOffset(ClampOffset(offset, panelRect, outerWidth), panelRect, outerWidth)
            == ClampOffset(offset, panelRect, outerWidth)
  {
  }

  /** `handlePanelClick`: the panel index to toggle, if the click toggles at all. */
  function ClickTarget(s: SystemType, index: nat): (r: Option<nat>)
    ensures r.Some? <==> s.Awning? || s.TiltAndTurn? || s.Casement? || s.Foldable?
    ensures r.Some? ==> r.value == index
  {
    if IsTrackSystem(s) then None
    else if !(s.Awning? || s.TiltAndTurn?) && !s.Casement? && !s.Foldable? then None
    else Some(index)
  }

  datatype View = CustomPlaceholder | CustomScene | NoDesignMessage | ParametricScene

  /**
   * Which view is shown: any custom collection that is passed, even an
   * empty one, selects the custom view, whatever the parametric geometry.
   */
  function ChooseView(customFrames: Option<seq<Frame>>, customMullions: Option<seq<Mullion>>,
                      geometry: Option<Geometry>, parameters: Option<DesignParameters>): (v: View)
    ensures customFrames.Some? || customMullions.Some? ==> v.CustomPlaceholder? || v.CustomScene?
    ensures v.CustomPlaceholder? <==>
              (customFrames.Some? || customMullions.Some?) &&
              GetOr(customFrames, []) == [] && GetOr(customMullions, []) == []
    ensures v.ParametricScene? <==> customFrames.None? && customMullions.None? && geometry.Some? && parameters.Some?
  {
    if customFrames.Some? || customMullions.Some? then
      if |GetOr(customFrames, [])| == 0 && |GetOr(customMullions, [])| == 0 then CustomPlaceholder else CustomScene
    else if geometry.None? || parameters.None? then NoDesignMessage
    else ParametricScene
  }

  /** The drag in progress: the panel, its offset and the pointer's x (mm) at the start. */
  datatype DragStart = DragStart(index: nat, startOffset: real, startWorldX: real)

  /** The dragged-panel state of the parametric 3D view. */
  class SlidingDrag {
    var draggedPanel: Option<DragStart>

    constructor ()
      ensures draggedPanel == None
    {
      draggedPanel := None;
    }

    /** handlePointerDown: start dragging a sliding panel; pointX is in metres. */
    method PointerDown(s: SystemType, index: nat, panelOffsets: Option<seq<real>>, pointX: real)
      modifies this
      ensures IsTrackSystem(s) ==>
                draggedPanel == Some(DragStart(index, JsArrayRead(GetOr(panelOffsets, []), index, 0.0), pointX / Scale))
      ensures !IsTrackSystem(s) ==> draggedPanel == old(draggedPanel)
    {
      if IsTrackSystem(s) {
        draggedPanel := Some(DragStart(index, JsArrayRead(GetOr(panelOffsets, []), index, 0.0), pointX / Scale));
      }
    }

    /**
     * handlePointerMove: the offsets handed to updatePanelOffsets, if any.
     * Only the dragged entry is rewritten, with the clamped offset.
     */
    method PointerMove(s: SystemType, geometry: Option<Geometry>, canUpdate: bool,
                       point: Option<real>, panelOffsets: Option<seq<real>>)
      returns (update: Option<seq<real>>)
      requires draggedPanel.Some? && geometry.Some? ==> draggedPanel.value.index < |geometry.value.panels|
      ensures update.Some? <==> draggedPanel.Some? && IsTrackSystem(s) && geometry.Some? && canUpdate && point.Some?
      ensures update.Some? ==>
                var drag := draggedPanel.value;
                var panel := geometry.value.panels[drag.index].panelRect;
                var outerWidth := geometry.value.frame.outer.width;
                update.value == JsArrayWrite(GetOr(panelOffsets, []), drag.index,
                                             ClampOffset(drag.startOffset + point.value / Scale - drag.startWorldX,
                                                         panel, outerWidth), 0.0)
    {
      if draggedPanel.None? || !IsTrackSystem(s) || geometry.None? || !canUpdate || point.None? {
        return None;
      }
      var currentWorldX := point.value / Scale;
      var dx := currentWorldX - draggedPanel.value.startWorldX;
      var newOffset := draggedPanel.value.startOffset + dx;
      var panel := geometry.value.panels[draggedPanel.value.index];
      var frame := geometry.value.frame;
      var minOffset := -panel.panelRect.x;
      var maxOffset := frame.outer.width - panel.panelRect.x - panel.panelRect.width;
      newOffset := MaxR(minOffset, MinR(newOffset, maxOffset));
      var newOffsets := GetOr(panelOffsets, []);
      newOffsets := JsArrayWrite(newOffsets, draggedPanel.value.index, newOffset, 0.0);
      update := Some(newOffsets);
    }

    method PointerUp()
      modifies this
      ensures draggedPanel == None
    {
      draggedPanel := None;
    }
  }

  /**
   * A drag keeps every other panel's offset and leaves the dragged panel
   * inside the outer frame whenever it fits there.
   */
  lemma DragMovesOnlyDraggedPanel(offsets: seq<real>, index: nat, offset: real, panelRect: Rect, outerWidth: real)
    requires panelRect.width <= outerWidth
    ensures var r := JsArrayWrite(offsets, index, ClampOffset(offset, panelRect, outerWidth), 0.0);
            (forall k :: 0 <= k < |offsets| && k != index ==> r[k] == offsets[k]) &&
            0.0 <= panelRect.x + r[index] && panelRect.x + r[index] + panelRect.width <= outerWidth
  {
  }
}
