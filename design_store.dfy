// The design store of store/use-design-store.ts: the list of saved designs,
// the active design and the actions that replace them.  Each action's new
// value is computed by a pure function on designs; the class holds the
// store's fields and applies them.

module DesignStore {
  import opened Types
  import opened Numeric
  import DesignEngine

  // ---- New designs --------------------------------------------------------

  function DefaultParameters(): DesignParameters
  {
    DesignParameters(Track3, Standard, Aluminum, Charcoal, StandardGlass, Modern, 3000, 2400, 3, Some(OpenPair))
  }

  /** `id.substring(id.length - 4)`: the last four characters (all of a shorter id). */
  function IdSuffix(id: string): (r: string)
    ensures |id| >= 4 ==> |r| == 4 && id == id[..|id| - 4] + r
    ensures |id| < 4 ==> r == id
  {
    id[MaxI(0, |id| - 4)..]
  }

  /**
   * createNewDesign with its generated id as input: default parameters,
   * no geometry, warnings or outputs, one closed state and zero offset per
   * default panel, the default rate and empty custom collections.
   */
  function NewDesign(id: string): (d: Design)
    ensures d.id == id && d.name == "Window " + IdSuffix(id)
    ensures d.parameters == DefaultParameters()
    ensures d.geometry == None && d.warnings == [] && d.outputs == None
    ensures d.panelOpenStates.Some? && |d.panelOpenStates.value| == d.parameters.panels
    ensures d.panelOffsets.Some? && |d.panelOffsets.value| == d.parameters.panels
    ensures forall i :: 0 <= i < d.parameters.panels ==>
              d.panelOpenStates.value[i] == 0 && d.panelOffsets.value[i] == 0.0
    ensures d.rate == Some(360.0)
    ensures d.frames == Some([]) && d.mullions == Some([]) && d.dimensions == Some([]) && d.textBoxes == Some([])
  {
    var params := DefaultParameters();
    Design(id, "Window " + IdSuffix(id), params, None, [], None,
           Some(Filled(params.panels, 0)), Some(Filled(params.panels, 0.0)), Some(360.0),
           Some([]), Some([]), Some([]), Some([]))
  }

  // ---- Parameter updates ----------------------------------------------------

  /** A Partial<DesignParameters>: the fields to overwrite. */
  datatype ParamPatch = ParamPatch(
    system: Option<SystemType>,
    profile: Option<ProfileType>,
    material: Option<MaterialType>,
    color: Option<FrameColor>,
    glass: Option<GlassType>,
    hardware: Option<HardwareStyle>,
    width: Option<int>,
    height: Option<int>,
    panels: Option<int>,
    casementOpening: Option<CasementOpening>)

  /** `{ ...params, ...patch }` */
  function MergeParameters(p: DesignParameters, patch: ParamPatch): (r: DesignParameters)
    ensures patch.system.Some? ==> r.system == patch.system.value
    ensures patch.system.None? ==> r.system == p.system
    ensures patch.profile.Some? ==> r.profile == patch.profile.value
    ensures patch.profile.None? ==> r.profile == p.profile
    ensures patch.material.Some? ==> r.material == patch.material.value
    ensures patch.material.None? ==> r.material == p.material
    ensures patch.color.Some? ==> r.color == patch.color.value
    ensures patch.color.None? ==> r.color == p.color
    ensures patch.glass.Some? ==> r.glass == patch.glass.value
    ensures patch.glass.None? ==> r.glass == p.glass
    ensures patch.hardware.Some? ==> r.hardware == patch.hardware.value
    ensures patch.hardware.None? ==> r.hardware == p.hardware
    ensures patch.width.Some? ==> r.width == patch.width.value
    ensures patch.width.None? ==> r.width == p.width
    ensures patch.height.Some? ==> r.height == patch.height.value
    ensures patch.height.None? ==> r.height == p.height
    ensures patch.panels.Some? ==> r.panels == patch.panels.value
    ensures patch.panels.None? ==> r.panels == p.panels
    ensures patch.casementOpening.Some? ==> r.casementOpening == patch.casementOpening
    ensures patch.casementOpening.None? ==> r.casementOpening == p.casementOpening
  {
    DesignParameters(
      GetOr(patch.system, p.system), GetOr(patch.profile, p.profile), GetOr(patch.material, p.material),
      GetOr(patch.color, p.color), GetOr(patch.glass, p.glass), GetOr(patch.hardware, p.hardware),
      GetOr(patch.width, p.width), GetOr(patch.height, p.height), GetOr(patch.panels, p.panels),
      if patch.casementOpening.Some? then patch.casementOpening else p.casementOpening)
  }

  /** Applying the same patch twice changes nothing more. */
  lemma MergeParametersIdempotent(p: DesignParameters, patch: ParamPatch)
    ensures MergeParameters(MergeParameters(p, patch), patch) == MergeParameters(p, patch)
  {
  }

  /** The panel count a system family allows. */
  function ClampPanels(s: SystemType, panels: int): (r: int)
    ensures s.FixedSystem? ==> r == 1
    ensures IsHinged(s) ==> 1 <= r <= 4 && (1 <= panels <= 4 ==> r == panels)
    ensures (IsTrackSystem(s) || s.Foldable?) ==> 2 <= r <= 8 && (2 <= panels <= 8 ==> r == panels)
    ensures s.CustomSystem? ==> r >= 1 && (panels >= 1 ==> r == panels)
    ensures r >= 1
  {
    if s.FixedSystem? then 1
    else if IsHinged(s) then ClampI(panels, 1, 4)
    else if IsTrackSystem(s) || s.Foldable? then ClampI(panels, 2, 8)
    else MaxI(1, panels)
  }

  /** Clamping is idempotent: a clamped count is left alone. */
  lemma ClampPanelsIdempotent(s: SystemType, panels: int)
    ensures ClampPanels(s, ClampPanels(s, panels)) == ClampPanels(s, panels)
  {
  }

  /**
   * A store design never reaches the engine's fixed-system correction: its
   * panel count is already 1.
   */
  lemma ClampedFixedNeedsNoCorrection(p: DesignParameters)
    requires p.system.FixedSystem? && p.panels == ClampPanels(p.system, p.panels)
    ensures !DesignEngine.Applies(FixedNeedsOnePanel, p)
  {
  }

  /** The parameters after updateParameters: merged, then clamped. */
  function UpdatedParameters(p: DesignParameters, patch: ParamPatch): (r: DesignParameters)
    ensures r == MergeParameters(p, patch).(panels := r.panels)
    ensures r.panels == ClampPanels(r.system, GetOr(patch.panels, p.panels))
  {
    var merged := MergeParameters(p, patch);
    merged.(panels := ClampPanels(merged.system, merged.panels))
  }

  predicate IsCustom(p: DesignParameters) { p.system.CustomSystem? }

  /**
   * updateParameters on one design: switching into the custom system drops
   * the parametric results, switching out of it drops the custom elements,
   * anything else changes only the parameters.
   */
  function WithParameters(d: Design, patch: ParamPatch): (r: Design)
    ensures r.parameters == UpdatedParameters(d.parameters, patch)
    ensures !IsCustom(d.parameters) && IsCustom(r.parameters) ==>
              r == d.(parameters := r.parameters, geometry := None, outputs := None,
                      panelOpenStates := Some([]), panelOffsets := Some([]))
    ensures IsCustom(d.parameters) && !IsCustom(r.parameters) ==>
              r == d.(parameters := r.parameters, frames := Some([]), mullions := Some([]),
                      dimensions := Some([]), textBoxes := Some([]))
    ensures IsCustom(d.parameters) == IsCustom(r.parameters) ==> r == d.(parameters := r.parameters)
  {
    var updated := UpdatedParameters(d.parameters, patch);
    if !IsCustom(d.parameters) && IsCustom(updated) then
      d.(parameters := updated, geometry := None, outputs := None, panelOpenStates := Some([]), panelOffsets := Some([]))
    else if IsCustom(d.parameters) && !IsCustom(updated) then
      d.(parameters := updated, frames := Some([]), mullions := Some([]), dimensions := Some([]), textBoxes := Some([]))
    else
      d.(parameters := updated)
  }

  // ---- Custom elements ----------------------------------------------------

  /** The element collections passed to setCustomElements; None = not given. */
  datatype ElementsPatch = ElementsPatch(
    frames: Option<seq<Frame>>,
    mullions: Option<seq<Mullion>>,
    dimensions: Option<seq<Dimension>>,
    textBoxes: Option<seq<TextBox>>)

  /** `elements.X ?? d.X` for each collection. */
  function WithElements(d: Design, patch: ElementsPatch): (r: Design)
    ensures r.frames == if patch.frames.Some? then patch.frames else d.frames
    ensures r.mullions == if patch.mullions.Some? then patch.mullions else d.mullions
    ensures r.dimensions == if patch.dimensions.Some? then patch.dimensions else d.dimensions
    ensures r.textBoxes == if patch.textBoxes.Some? then patch.textBoxes else d.textBoxes
    ensures r.(frames := d.frames, mullions := d.mullions, dimensions := d.dimensions, textBoxes := d.textBoxes) == d
  {
    d.(frames := if patch.frames.Some? then patch.frames else d.frames,
       mullions := if patch.mullions.Some? then patch.mullions else d.mullions,
       dimensions := if patch.dimensions.Some? then patch.dimensions else d.dimensions,
       textBoxes := if patch.textBoxes.Some? then patch.textBoxes else d.textBoxes)
  }

  /** Giving every collection its current value changes nothing. */
  lemma WithOwnElementsIsIdentity(d: Design)
    ensures WithElements(d, ElementsPatch(d.frames, d.mullions, d.dimensions, d.textBoxes)) == d
  {
  }

  // ---- Open states ----------------------------------------------------------

  /** `(s + 1) % 3` */
  function NextOpenState(s: int): (r: int)
    ensures 0 <= s ==> 0 <= r <= 2
    ensures 0 <= s <= 2 ==> r != s && (s < 2 ==> r == s + 1) && (s == 2 ==> r == 0)
  {
    JsRem(s + 1, 3)
  }

  /** Three clicks bring a valid open state back to where it was. */
  lemma OpenStateCycle(s: int)
    requires 0 <= s <= 2
    ensures NextOpenState(NextOpenState(NextOpenState(s))) == s
  {
  }

  /**
   * The new open states after a click on panel i: a foldable click sets the
   * clicked panel's next state on both panels of its pair (the second only
   * when it exists); any other click advances panel i alone.
   */
  function ToggledStates(states: seq<int>, i: nat, foldable: bool): (r: seq<int>)
    ensures !foldable ==> r == JsArrayWrite(states, i, NextOpenState(JsArrayRead(states, i, 0)), 0)
    ensures foldable ==>
              var first := 2 * (i / 2);
              var next := NextOpenState(JsArrayRead(states, i, 0));
              var once := JsArrayWrite(states, first, next, 0);
              r == if first + 1 < |once| then JsArrayWrite(once, first + 1, next, 0) else once
  {
    var newStates := states;
    if foldable then
      var first := 2 * (i / 2);
      var next := NextOpenState(JsArrayRead(newStates, i, 0));
      var once := JsArrayWrite(newStates, first, next, 0);
      if first + 1 < |once| then JsArrayWrite(once, first + 1, next, 0) else once
    else
      JsArrayWrite(newStates, i, NextOpenState(JsArrayRead(newStates, i, 0)), 0)
  }

  /** A non-foldable click advances panel i and leaves every other panel alone. */
  lemma ToggleSingle(states: seq<int>, i: nat)
    requires i < |states| && 0 <= states[i] <= 2
    ensures var r := ToggledStates(states, i, false);
            |r| == |states| && r[i] == (states[i] + 1) % 3 &&
            forall k :: 0 <= k < |states| && k != i ==> r[k] == states[k]
  {
  }

  /**
   * A foldable click leaves both panels of the clicked pair in the clicked
   * panel's next state, and every panel outside the pair as it was.
   */
  lemma FoldablePairMoves(states: seq<int>, i: nat)
    requires i < |states| && 0 <= states[i] <= 2
    ensures var r := ToggledStates(states, i, true);
            var first := 2 * (i / 2);
            |r| == |states| &&
            r[first] == (states[i] + 1) % 3 &&
            (first + 1 < |states| ==> r[first + 1] == (states[i] + 1) % 3) &&
            forall k :: 0 <= k < |states| && k != first && k != first + 1 ==> r[k] == states[k]
  {
  }

  /** With states in range, three clicks on one panel restore every state. */
  lemma ThreeTogglesRestore(states: seq<int>, i: nat, foldable: bool)
    requires i < |states|
    requires forall k :: 0 <= k < |states| ==> 0 <= states[k] <= 2
    requires foldable ==> (2 * (i / 2) + 1 < |states| ==> states[2 * (i / 2)] == states[2 * (i / 2) + 1])
    requires foldable ==> states[i] == states[2 * (i / 2)]
    ensures ToggledStates(ToggledStates(ToggledStates(states, i, foldable), i, foldable), i, foldable) == states
  {
    var s1 := ToggledStates(states, i, foldable);
    var s2 := ToggledStates(s1, i, foldable);
    var s3 := ToggledStates(s2, i, foldable);
    if foldable {
      FoldablePairMoves(states, i);
      FoldablePairMoves(s1, i);
      FoldablePairMoves(s2, i);
    } else {
      ToggleSingle(states, i);
      ToggleSingle(s1, i);
      ToggleSingle(s2, i);
    }
    assert |s3| == |states|;
    forall k | 0 <= k < |states| ensures s3[k] == states[k] { }
  }

  /** toggleCustomFrameOpenState on one frame. */
  function ToggledFrame(f: Frame, frameId: string): (r: Frame)
    ensures f.id == frameId && f.opening.Some? && !f.opening.value.FixedOpening? ==>
              r == f.(openState := Some(NextOpenState(GetOr(f.openState, 0))))
    ensures !(f.id == frameId && f.opening.Some? && !f.opening.value.FixedOpening?) ==> r == f
  {
    if f.id == frameId && f.opening.Some? && !f.opening.value.FixedOpening? then
      f.(openState := Some(NextOpenState(GetOr(f.openState, 0))))
    else f
  }

  function ToggledFrames(frames: seq<Frame>, frameId: string): (r: seq<Frame>)
    ensures |r| == |frames| && forall i :: 0 <= i < |frames| ==> r[i] == ToggledFrame(frames[i], frameId)
  {
    seq(|frames|, i requires 0 <= i < |frames| => ToggledFrame(frames[i], frameId))
  }

  /** Only an operable frame with that id changes, and its state stays valid. */
  lemma ToggleFramesTouchesOnlyTarget(frames: seq<Frame>, frameId: string, i: int)
    requires 0 <= i < |frames|
    ensures frames[i].id != frameId ==> ToggledFrames(frames, frameId)[i] == frames[i]
    ensures var r := ToggledFrames(frames, frameId)[i];
            r.id == frames[i].id && r.x == frames[i].x && r.y == frames[i].y &&
            r.width == frames[i].width && r.height == frames[i].height && r.opening == frames[i].opening
  {
  }

  // ---- Panel arrays after a recompute ------------------------------------

  /** Keep the current array when its length matches the panel count, else zero-fill. */
  function Reconciled<T>(current: Option<seq<T>>, count: nat, zero: T): (r: seq<T>)
    ensures |r| == count
    ensures current.Some? && |current.value| == count ==> r == current.value
    ensures !(current.Some? && |current.value| == count) ==> forall i :: 0 <= i < count ==> r[i] == zero
  {
    var cur := if current.Some? then current.value else [];
    if |cur| == count then cur else Filled(count, zero)
  }

  // ---- Edits of one design, applied to every design with the target id -----

  /** The result of a recompute handed to updateDesignOutput. */
  datatype EngineResult = EngineResult(
    geometry: Option<Geometry>,
    warnings: seq<Warning>,
    outputs: Option<ProjectOutput>,
    panelOpenStates: Option<seq<int>>,
    panelOffsets: Option<seq<real>>)

  datatype Edit =
    | Rename(name: string)
    | SetParameters(patch: ParamPatch)
    | SetCustomOutput(outputs: Option<ProjectOutput>)
    | SetElements(elements: ElementsPatch)
    | SetEngineResult(result: EngineResult)
    | TogglePanel(index: nat, foldable: bool)
    | SetOffsets(offsets: seq<real>)
    | ToggleFrame(frameId: string)

  function ApplyEdit(d: Design, e: Edit): Design
  {
    match e
    case Rename(name) => d.(name := name)
    case SetParameters(patch) => WithParameters(d, patch)
    case SetCustomOutput(outputs) => d.(outputs := outputs)
    case SetElements(elements) => WithElements(d, elements)
    case SetEngineResult(r) =>
      d.(geometry := r.geometry, warnings := r.warnings, outputs := r.outputs,
         panelOpenStates := if r.panelOpenStates.Some? then r.panelOpenStates else d.panelOpenStates,
         panelOffsets := if r.panelOffsets.Some? then r.panelOffsets else d.panelOffsets)
    case TogglePanel(i, foldable) =>
      var states := if d.panelOpenStates.Some? then d.panelOpenStates.value
                    else Filled(MaxI(0, d.parameters.panels), 0);
      d.(panelOpenStates := Some(ToggledStates(states, i, foldable)))
    case SetOffsets(offsets) => d.(panelOffsets := Some(offsets))
    case ToggleFrame(frameId) =>
      d.(frames := if d.frames.Some? then Some(ToggledFrames(d.frames.value, frameId)) else None)
  }

  /** `designs.map(d => d.id === id ? edit(d) : d)` */
  function EditWhere(ds: seq<Design>, id: string, e: Edit): (r: seq<Design>)
    ensures |r| == |ds|
    ensures forall i :: 0 <= i < |ds| ==> r[i] == if ds[i].id == id then ApplyEdit(ds[i], e) else ds[i]
  {
    seq(|ds|, i requires 0 <= i < |ds| => if ds[i].id == id then ApplyEdit(ds[i], e) else ds[i])
  }

  /** No edit changes a design's id. */
  lemma ApplyEditKeepsId(d: Design, e: Edit)
    ensures ApplyEdit(d, e).id == d.id
  {
  }

  /**
   * An edit addressed to one id changes only the designs with that id and
   * keeps every id, so the list of ids is unchanged.
   */
  lemma EditWhereTouchesOnlyTarget(ds: seq<Design>, id: string, e: Edit)
    ensures forall i :: 0 <= i < |ds| ==> EditWhere(ds, id, e)[i].id == ds[i].id
    ensures forall i :: 0 <= i < |ds| && ds[i].id != id ==> EditWhere(ds, id, e)[i] == ds[i]
  {
    forall i | 0 <= i < |ds| ensures EditWhere(ds, id, e)[i].id == ds[i].id {
      ApplyEditKeepsId(ds[i], e);
    }
  }

  /** Only parameter edits can change a design's parameters, and they keep panels >= 1. */
  lemma ApplyEditKeepsPanelsPositive(d: Design, e: Edit)
    requires d.parameters.panels >= 1
    ensures ApplyEdit(d, e).parameters.panels >= 1
  {
  }

  function FindDesign(ds: seq<Design>, id: string): (r: Option<Design>)
    ensures r.Some? ==> r.value in ds && r.value.id == id
    ensures r.None? ==> forall d :: d in ds ==> d.id != id
  {
    if ds == [] then None
    else if ds[0].id == id then Some(ds[0])
    else FindDesign(ds[1..], id)
  }

  /** `designs.filter(d => d.id !== id)` */
  function WithoutDesign(ds: seq<Design>, id: string): (r: seq<Design>)
    ensures forall d :: d in r <==> d in ds && d.id != id
    ensures |r| <= |ds|
  {
    if ds == [] then []
    else if ds[0].id == id then WithoutDesign(ds[1..], id)
    else [ds[0]] + WithoutDesign(ds[1..], id)
  }

  /** `!state.activeDesignId`: null and the empty id both count as no active design. */
  predicate HasActive(active: Option<string>)
  {
    active.Some? && active.value != ""
  }

  predicate PanelsPositive(ds: seq<Design>)
  {
    forall i :: 0 <= i < |ds| ==> ds[i].parameters.panels >= 1
  }

  lemma EditWherePreservesPanels(ds: seq<Design>, id: string, e: Edit)
    requires PanelsPositive(ds)
    ensures PanelsPositive(EditWhere(ds, id, e))
  {
    forall i | 0 <= i < |ds| ensures EditWhere(ds, id, e)[i].parameters.panels >= 1 {
      ApplyEditKeepsPanelsPositive(ds[i], e);
    }
  }

  lemma AppendPreservesPanels(ds: seq<Design>, d: Design)
    requires PanelsPositive(ds) && d.parameters.panels >= 1
    ensures PanelsPositive(ds + [d])
  {
    assert forall i :: 0 <= i < |ds| ==> (ds + [d])[i] == ds[i];
  }

  lemma WithoutDesignPreservesPanels(ds: seq<Design>, id: string)
    requires PanelsPositive(ds)
    ensures PanelsPositive(WithoutDesign(ds, id))
  {
    var r := WithoutDesign(ds, id);
    forall i | 0 <= i < |r| ensures r[i].parameters.panels >= 1 {
      assert r[i] in ds;
    }
  }

  /**
   * What processDesign stores from one engine run: geometry, warnings and
   * outputs, with the open states and offsets reconciled to the panel count.
   */
  function Processed(design: Design, g: Geometry, ws: seq<Warning>, o: ProjectOutput): (r: EngineResult)
    ensures r.geometry == Some(g) && r.warnings == ws && r.outputs == Some(o)
    ensures r.panelOpenStates.Some? && |r.panelOpenStates.value| == |g.panels|
    ensures r.panelOffsets.Some? && |r.panelOffsets.value| == |g.panels|
    ensures design.panelOpenStates.Some? && |design.panelOpenStates.value| == |g.panels| ==>
              r.panelOpenStates == design.panelOpenStates
    ensures design.panelOffsets.Some? && |design.panelOffsets.value| == |g.panels| ==>
              r.panelOffsets == design.panelOffsets
    ensures !(design.panelOpenStates.Some? && |design.panelOpenStates.value| == |g.panels|) ==>
              forall i :: 0 <= i < |g.panels| ==> r.panelOpenStates.value[i] == 0
    ensures !(design.panelOffsets.Some? && |design.panelOffsets.value| == |g.panels|) ==>
              forall i :: 0 <= i < |g.panels| ==> r.panelOffsets.value[i] == 0.0
  {
    var n := |g.panels|;
    EngineResult(Some(g), ws, Some(o), Some(Reconciled(design.panelOpenStates, n, 0)),
                 Some(Reconciled(design.panelOffsets, n, 0.0)))
  }

  /** The geometry processDesign stores for a design of the store has a frame and panels. */
  lemma {:induction false} StoredGeometry(ds: seq<Design>, design: Design, g: Geometry, ws: seq<Warning>, o: ProjectOutput, n: int)
    requires PanelsPositive(ds) && design.parameters.width > 0 && design.parameters.height > 0
    requires DesignEngine.EngineResultFor(design.parameters, g, ws, o, n)
    ensures design in ds ==>
              var r := EditWhere(ds, design.id, SetEngineResult(Processed(design, g, ws, o)));
              forall i :: 0 <= i < |r| && r[i].id == design.id ==>
                r[i].geometry.Some? && |r[i].geometry.value.panels| >= 1 &&
                r[i].geometry.value.frame.outer.width > 0.0 &&
                r[i].geometry.value.frame.outer.height > 0.0
  {
    DesignEngine.EnginePanelCount(design.parameters, g, ws, o, n);
    if design in ds {
      var k :| 0 <= k < |ds| && ds[k] == design;
      assert design.parameters.panels >= 1;
    }
  }

  // ---- The store ----------------------------------------------------------

  class Store {
    var designs: seq<Design>
    var activeDesignId: Option<string>
    var isProcessing: bool
    var canvasPan: Point
    var canvasZoom: real

    /** Every design has at least one panel; the store's clamp keeps it so. */
    ghost predicate Valid()
      reads this
    {
      PanelsPositive(designs)
    }

    constructor ()
      ensures Valid()
      ensures designs == [] && activeDesignId == None && isProcessing
      ensures canvasPan == Point(0.0, 0.0) && canvasZoom == 1.0
    {
      designs := [];
      activeDesignId := None;
      isProcessing := true;
      canvasPan := Point(0.0, 0.0);
      canvasZoom := 1.0;
    }

    /** initialize, without its timer: start with one design when there is none. */
    method Initialize(freshId: string)
      requires Valid()
      modifies this`designs, this`activeDesignId
      ensures Valid()
      ensures old(designs) == [] ==> designs == [NewDesign(freshId)] && activeDesignId == Some(freshId)
      ensures old(designs) != [] ==> designs == old(designs) && activeDesignId == old(activeDesignId)
    {
      if |designs| == 0 {
        var initial := NewDesign(freshId);
        designs := [initial];
        activeDesignId := Some(initial.id);
      }
    }

    method AddDesign(freshId: string)
      requires Valid()
      modifies this`designs, this`activeDesignId
      ensures Valid()
      ensures designs == old(designs) + [NewDesign(freshId)]
      ensures activeDesignId == Some(freshId)
    {
      var d := NewDesign(freshId);
      AppendPreservesPanels(designs, d);
      designs := designs + [d];
      activeDesignId := Some(d.id);
    }

    /**
     * removeDesign: drop the designs with that id; if the active one went,
     * the first remaining design (or none) becomes active.
     */
    method RemoveDesign(id: string)
      requires Valid()
      modifies this`designs, this`activeDesignId
      ensures Valid()
      ensures designs == WithoutDesign(old(designs), id)
      ensures forall d :: d in designs ==> d.id != id
      ensures old(activeDesignId) != Some(id) ==> activeDesignId == old(activeDesignId)
      ensures old(activeDesignId) == Some(id) && designs != [] ==> activeDesignId == Some(designs[0].id)
      ensures old(activeDesignId) == Some(id) && designs == [] ==> activeDesignId == None
    {
      var newDesigns := WithoutDesign(designs, id);
      WithoutDesignPreservesPanels(designs, id);
      var newActive := activeDesignId;
      if activeDesignId == Some(id) {
        newActive := if |newDesigns| > 0 then Some(newDesigns[0].id) else None;
      }
      designs := newDesigns;
      activeDesignId := newActive;
    }

    method SelectDesign(id: string)
      modifies this`activeDesignId
      ensures activeDesignId == Some(id)
    {
      activeDesignId := Some(id);
    }

    method UpdateDesignName(id: string, name: string)
      requires Valid()
      modifies this`designs
      ensures Valid()
      ensures designs == EditWhere(old(designs), id, Rename(name))
    {
      EditWherePreservesPanels(designs, id, Rename(name));
      designs := EditWhere(designs, id, Rename(name));
    }

    /** updateParameters: merge, clamp and apply the custom exclusivity rule to the active design. */
    method UpdateParameters(patch: ParamPatch)
      requires Valid()
      modifies this`designs
      ensures Valid()
      ensures !HasActive(activeDesignId) ==> designs == old(designs)
      ensures HasActive(activeDesignId) ==> designs == EditWhere(old(designs), activeDesignId.value, SetParameters(patch))
    {
      if HasActive(activeDesignId) {
        EditWherePreservesPanels(designs, activeDesignId.value, SetParameters(patch));
        designs := EditWhere(designs, activeDesignId.value, SetParameters(patch));
      }
    }

    method SetCustomDesignOutput(id: string, outputs: Option<ProjectOutput>)
      requires Valid()
      modifies this`designs
      ensures Valid()
      ensures designs == EditWhere(old(designs), id, SetCustomOutput(outputs))
    {
      EditWherePreservesPanels(designs, id, SetCustomOutput(outputs));
      designs := EditWhere(designs, id, SetCustomOutput(outputs));
    }

    method SetCustomElements(elements: ElementsPatch)
      requires Valid()
      modifies this`designs
      ensures Valid()
      ensures !HasActive(activeDesignId) ==> designs == old(designs)
      ensures HasActive(activeDesignId) ==> designs == EditWhere(old(designs), activeDesignId.value, SetElements(elements))
    {
      if HasActive(activeDesignId) {
        EditWherePreservesPanels(designs, activeDesignId.value, SetElements(elements));
        designs := EditWhere(designs, activeDesignId.value, SetElements(elements));
      }
    }

    method UpdateDesignOutput(id: string, output: EngineResult)
      requires Valid()
      modifies this`designs
      ensures Valid()
      ensures designs == EditWhere(old(designs), id, SetEngineResult(output))
    {
      EditWherePreservesPanels(designs, id, SetEngineResult(output));
      designs := EditWhere(designs, id, SetEngineResult(output));
    }

    method SetIsProcessing(processing: bool)
      modifies this`isProcessing
      ensures isProcessing == processing
    {
      isProcessing := processing;
    }

    /** setCustomCanvasView, with the updater's result as input. */
    method SetCustomCanvasView(pan: Point, zoom: real)
      modifies this`canvasPan, this`canvasZoom
      ensures canvasPan == pan && canvasZoom == zoom
    {
      canvasPan := pan;
      canvasZoom := zoom;
    }

    /**
     * processDesign: for positive dimensions run the engine and store its
     * results on the design with that id, keeping the open states and
     * offsets only when they still match the number of panels.
     */
    method ProcessDesign(design: Design)
      requires Valid()
      modifies this`designs, this`isProcessing
      ensures Valid()
      ensures !(design.parameters.width > 0 && design.parameters.height > 0) ==>
                designs == old(designs) && isProcessing == old(isProcessing)
      ensures design.parameters.width > 0 && design.parameters.height > 0 ==>
                !isProcessing &&
                exists g, ws, o, n :: DesignEngine.EngineResultFor(design.parameters, g, ws, o, n) &&
                  designs == EditWhere(old(designs), design.id, SetEngineResult(Processed(design, g, ws, o)))
      // a design taken from the store gets a geometry with a positive frame and at least one panel
      ensures design.parameters.width > 0 && design.parameters.height > 0 && design in old(designs) ==>
                forall i :: 0 <= i < |designs| && designs[i].id == design.id ==>
                  designs[i].geometry.Some? && |designs[i].geometry.value.panels| >= 1 &&
                  designs[i].geometry.value.frame.outer.width > 0.0 &&
                  designs[i].geometry.value.frame.outer.height > 0.0
    {
      if design.parameters.width > 0 && design.parameters.height > 0 {
        SetIsProcessing(true);
        var geometry, warnings, outputs, panelCount := DesignEngine.RunDesignEngine(design.parameters);
        var result := Processed(design, geometry, warnings, outputs);
        UpdateDesignOutput(design.id, result);
        SetIsProcessing(false);
        StoredGeometry(old(designs), design, geometry, warnings, outputs, panelCount);
      }
    }

    /** togglePanelOpenState: advance the clicked panel (or foldable pair) of the active design. */
    method TogglePanelOpenState(panelIndex: nat)
      requires Valid()
      modifies this`designs
      ensures Valid()
      ensures !HasActive(activeDesignId) || FindDesign(old(designs), activeDesignId.value).None? ==>
                designs == old(designs)
      ensures HasActive(activeDesignId) && FindDesign(old(designs), activeDesignId.value).Some? ==>
                var foldable := FindDesign(old(designs), activeDesignId.value).value.parameters.system.Foldable?;
                designs == EditWhere(old(designs), activeDesignId.value, TogglePanel(panelIndex, foldable))
    {
      if HasActive(activeDesignId) {
        var active := FindDesign(designs, activeDesignId.value);
        if active.Some? {
          var foldable := active.value.parameters.system.Foldable?;
          EditWherePreservesPanels(designs, activeDesignId.value, TogglePanel(panelIndex, foldable));
          designs := EditWhere(designs, activeDesignId.value, TogglePanel(panelIndex, foldable));
        }
      }
    }

    method UpdatePanelOffsets(offsets: seq<real>)
      requires Valid()
      modifies this`designs
      ensures Valid()
      ensures !HasActive(activeDesignId) ==> designs == old(designs)
      ensures HasActive(activeDesignId) ==> designs == EditWhere(old(designs), activeDesignId.value, SetOffsets(offsets))
    {
      if HasActive(activeDesignId) {
        EditWherePreservesPanels(designs, activeDesignId.value, SetOffsets(offsets));
        designs := EditWhere(designs, activeDesignId.value, SetOffsets(offsets));
      }
    }

    method ToggleCustomFrameOpenState(frameId: string)
      requires Valid()
      modifies this`designs
      ensures Valid()
      ensures !HasActive(activeDesignId) ==> designs == old(designs)
      ensures HasActive(activeDesignId) ==> designs == EditWhere(old(designs), activeDesignId.value, ToggleFrame(frameId))
    {
      if HasActive(activeDesignId) {
        EditWherePreservesPanels(designs, activeDesignId.value, ToggleFrame(frameId));
        designs := EditWhere(designs, activeDesignId.value, ToggleFrame(frameId));
      }
    }
  }
}
