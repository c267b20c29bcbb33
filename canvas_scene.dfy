// The custom editor's scene (src/components/design/custom-design-canvas.tsx):
// the active design's four element lists, the partial updates the editor
// hands to setCustomElements, cascade delete and thickness stepping.

module CanvasScene {
  import opened Types
  import opened Numeric
  import DesignStore

  const DefaultFrameThickness: real := 40.0
  const DefaultMullionThickness: real := 40.0
  const ThicknessStep: real := 5.0
  const MinThickness: real := 5.0
  const MaxThickness: real := 100.0

  /** The four element lists the editor works on. */
  datatype Scene = Scene(
    frames: seq<Frame>,
    mullions: seq<Mullion>,
    dimensions: seq<Dimension>,
    textBoxes: seq<TextBox>)

  const EmptyScene := Scene([], [], [], [])

  /** `activeDesign?.frames || []` and likewise for the other lists. */
  function SceneOf(active: Option<Design>): (s: Scene)
    ensures active.None? ==> s == EmptyScene
    ensures active.Some? ==> (s.frames == GetOr(active.value.frames, [])
      && s.mullions == GetOr(active.value.mullions, [])
      && s.dimensions == GetOr(active.value.dimensions, [])
      && s.textBoxes == GetOr(active.value.textBoxes, []))
  {
    match active
    case None => EmptyScene
    case Some(d) =>
      Scene(GetOr(d.frames, []), GetOr(d.mullions, []), GetOr(d.dimensions, []), GetOr(d.textBoxes, []))
  }

  /** The scene after `updateElements(patch)`: given lists replace, others stay. */
  function Patched(s: Scene, p: DesignStore.ElementsPatch): Scene
  {
    Scene(GetOr(p.frames, s.frames), GetOr(p.mullions, s.mullions),
          GetOr(p.dimensions, s.dimensions), GetOr(p.textBoxes, s.textBoxes))
  }

  const NoChange := DesignStore.ElementsPatch(None, None, None, None)

  /** The patch undo and redo pass: every list of a snapshot. */
  function FullPatch(s: Scene): DesignStore.ElementsPatch
  {
    DesignStore.ElementsPatch(Some(s.frames), Some(s.mullions), Some(s.dimensions), Some(s.textBoxes))
  }

  /** The editor's view of a patch agrees with the store's setCustomElements. */
  lemma PatchedAgreesWithStore(d: Design, p: DesignStore.ElementsPatch)
    ensures SceneOf(Some(DesignStore.WithElements(d, p))) == Patched(SceneOf(Some(d)), p)
  {
  }

  lemma FullPatchRestores(s: Scene, t: Scene)
    ensures Patched(t, FullPatch(s)) == s
  {
  }

  // ---- Array helpers (Array.prototype.find / filter) -----------------------

  /** `a.filter(keep)`: the kept elements in their original order. */
  function Filter<T>(a: seq<T>, keep: T -> bool): (r: seq<T>)
    ensures |r| <= |a|
    ensures forall i :: 0 <= i < |r| ==> r[i] in a && keep(r[i])
    ensures forall i :: 0 <= i < |a| && keep(a[i]) ==> a[i] in r
    ensures (forall i :: 0 <= i < |a| ==> keep(a[i])) ==> r == a
    decreases |a|
  {
    if a == [] then []
    else (if keep(a[0]) then [a[0]] else []) + Filter(a[1..], keep)
  }

  /** `a.find(p)`: the first element satisfying p, if any. */
  function Find<T>(a: seq<T>, p: T -> bool): (r: Option<T>)
    ensures r.Some? ==>
      exists i :: 0 <= i < |a| && a[i] == r.value && p(a[i]) && forall j :: 0 <= j < i ==> !p(a[j])
    ensures r.None? ==> forall i :: 0 <= i < |a| ==> !p(a[i])
    decreases |a|
  {
    if a == [] then None
    else if p(a[0]) then Some(a[0])
    else
      var r := Find(a[1..], p);
      assert r.Some? ==>
        exists i :: 0 <= i < |a| && a[i] == r.value && p(a[i]) && forall j :: 0 <= j < i ==> !p(a[j]) by {
        if r.Some? {
          var i :| 0 <= i < |a[1..]| && a[1..][i] == r.value && p(a[1..][i])
            && forall j :: 0 <= j < i ==> !p(a[1..][j]);
          assert a[i + 1] == r.value;
          assert forall j :: 0 <= j < i + 1 ==> !p(a[j]) by {
            forall j | 0 <= j < i + 1 ensures !p(a[j]) {
              if j > 0 { assert a[j] == a[1..][j - 1]; }
            }
          }
        }
      }
      assert r.None? ==> forall i :: 0 <= i < |a| ==> !p(a[i]) by {
        if r.None? {
          forall i | 0 <= i < |a| ensures !p(a[i]) {
            if i > 0 { assert a[i] == a[1..][i - 1]; }
          }
        }
      }
      r
  }

  /** A JavaScript truthiness test on an optional string: set and not empty. */
  predicate Truthy(o: Option<string>)
  {
    o.Some? && o.value != ""
  }

  // ---- Cascade delete (handleDeleteSelected) --------------------------------

  /** The mullion `mullions.find(m => m.id === id)`. */
  function FindMullion(ms: seq<Mullion>, id: string): Option<Mullion>
  {
    Find(ms, (m: Mullion) => m.id == id)
  }

  /**
   * The lists handleDeleteSelected passes to updateElements: a frame takes
   * the mullions and dimensions whose parent it is; a mullion with a group
   * takes its whole group; anything else removes that one element.
   */
  function DeletePatch(s: Scene, sel: Selection): (p: DesignStore.ElementsPatch)
    ensures sel.kind == FrameKind ==>
      p.frames.Some? && p.mullions.Some? && p.dimensions.Some? && p.textBoxes.None?
      && (forall f :: f in p.frames.value <==> f in s.frames && f.id != sel.id)
      && (forall m :: m in p.mullions.value <==> m in s.mullions && m.parentId != Some(sel.id))
      && (forall d :: d in p.dimensions.value <==> d in s.dimensions && d.parentId != Some(sel.id))
    ensures sel.kind == MullionKind ==>
      p.frames.None? && p.mullions.Some? && p.dimensions.None? && p.textBoxes.None?
    ensures (sel.kind == MullionKind && FindMullion(s.mullions, sel.id).Some?
             && Truthy(FindMullion(s.mullions, sel.id).value.groupId)) ==>
      var g := FindMullion(s.mullions, sel.id).value.groupId;
      forall m :: m in p.mullions.value <==> m in s.mullions && m.groupId != g
    ensures (sel.kind == MullionKind && !(FindMullion(s.mullions, sel.id).Some?
             && Truthy(FindMullion(s.mullions, sel.id).value.groupId))) ==>
      forall m :: m in p.mullions.value <==> m in s.mullions && m.id != sel.id
    ensures sel.kind == DimensionKind ==>
      p.frames.None? && p.mullions.None? && p.dimensions.Some? && p.textBoxes.None?
      && forall d :: d in p.dimensions.value <==> d in s.dimensions && d.id != sel.id
    ensures sel.kind == TextBoxKind ==>
      p.frames.None? && p.mullions.None? && p.dimensions.None? && p.textBoxes.Some?
      && forall t :: t in p.textBoxes.value <==> t in s.textBoxes && t.id != sel.id
  {
    var id := sel.id;
    match sel.kind
    case FrameKind =>
      DesignStore.ElementsPatch(
        Some(Filter(s.frames, (f: Frame) => f.id != id)),
        Some(Filter(s.mullions, (m: Mullion) => m.parentId != Some(id))),
        Some(Filter(s.dimensions, (d: Dimension) => d.parentId != Some(id))),
        None)
    case MullionKind =>
      var target := FindMullion(s.mullions, id);
      if target.Some? && Truthy(target.value.groupId) then
        var g := target.value.groupId;
        NoChange.(mullions := Some(Filter(s.mullions, (m: Mullion) => m.groupId != g)))
      else
        NoChange.(mullions := Some(Filter(s.mullions, (m: Mullion) => m.id != id)))
    case DimensionKind =>
      NoChange.(dimensions := Some(Filter(s.dimensions, (d: Dimension) => d.id != id)))
    case TextBoxKind =>
      NoChange.(textBoxes := Some(Filter(s.textBoxes, (t: TextBox) => t.id != id)))
  }

  /** After deleting a frame nothing refers to it any more. */
  lemma DeleteFrameLeavesNoOrphans(s: Scene, id: string)
    ensures var t := Patched(s, DeletePatch(s, Selection(FrameKind, id)));
      (forall f :: f in t.frames ==> f.id != id)
      && (forall m :: m in t.mullions ==> m.parentId != Some(id))
      && (forall d :: d in t.dimensions ==> d.parentId != Some(id))
      && t.textBoxes == s.textBoxes
  {
  }

  /** Deleting one mullion of a group deletes every mullion of that group. */
  lemma DeleteGroupedMullion(s: Scene, i: int)
    requires 0 <= i < |s.mullions| && Truthy(s.mullions[i].groupId)
    requires forall j :: 0 <= j < |s.mullions| && j != i ==> s.mullions[j].id != s.mullions[i].id
    ensures var t := Patched(s, DeletePatch(s, Selection(MullionKind, s.mullions[i].id)));
      (forall m :: m in t.mullions ==> m.groupId != s.mullions[i].groupId)
      && (forall m :: m in s.mullions && m.groupId != s.mullions[i].groupId ==> m in t.mullions)
      && t.frames == s.frames && t.dimensions == s.dimensions && t.textBoxes == s.textBoxes
  {
    var found := FindMullion(s.mullions, s.mullions[i].id);
    var k :| 0 <= k < |s.mullions| && s.mullions[k] == found.value && s.mullions[k].id == s.mullions[i].id
      && forall j :: 0 <= j < k ==> s.mullions[j].id != s.mullions[i].id;
    assert k == i;
  }

  // ---- Thickness stepping ---------------------------------------------------

  /** `thickness || 40`: unset or zero falls back to the default. */
  function ThicknessOr(t: Option<real>): (r: real)
    ensures r != 0.0
    ensures t.Some? && t.value != 0.0 ==> r == t.value
  {
    if t.Some? && t.value != 0.0 then t.value else DefaultFrameThickness
  }

  /** Math.min(current + 5, 100) */
  function Thicker(t: Option<real>): (r: real)
    ensures r <= MaxThickness
    ensures ThicknessOr(t) <= MaxThickness - ThicknessStep ==> r == ThicknessOr(t) + ThicknessStep
    ensures ThicknessOr(t) > MaxThickness - ThicknessStep ==> r == MaxThickness
  {
    MinR(ThicknessOr(t) + ThicknessStep, MaxThickness)
  }

  /** Math.max(current - 5, 5) */
  function Thinner(t: Option<real>): (r: real)
    ensures r >= MinThickness
    ensures ThicknessOr(t) >= MinThickness + ThicknessStep ==> r == ThicknessOr(t) - ThicknessStep
    ensures ThicknessOr(t) < MinThickness + ThicknessStep ==> r == MinThickness
  {
    MaxR(ThicknessOr(t) - ThicknessStep, MinThickness)
  }

  function Stepped(t: Option<real>, grow: bool): real
  {
    if grow then Thicker(t) else Thinner(t)
  }

  /** Stepping keeps a thickness inside [5, 100]. */
  lemma SteppedStaysInRange(t: Option<real>, grow: bool)
    requires MinThickness <= ThicknessOr(t) <= MaxThickness
    ensures MinThickness <= Stepped(t, grow) <= MaxThickness
  {
  }

  /** A step down then a step up restores a thickness in [10, 100]. */
  lemma ThinnerThenThicker(t: Option<real>)
    requires MinThickness + ThicknessStep <= ThicknessOr(t) <= MaxThickness
    ensures Thicker(Some(Thinner(t))) == ThicknessOr(t)
  {
  }

  /** A step up then a step down restores a thickness in [5, 95]. */
  lemma ThickerThenThinner(t: Option<real>)
    requires MinThickness <= ThicknessOr(t) <= MaxThickness - ThicknessStep
    ensures Thinner(Some(Thicker(t))) == ThicknessOr(t)
  {
  }

  /**
   * The thickness handlers: the selected frame or mullion gets its stepped
   * thickness, every other element is kept; other selections change nothing.
   */
  function ThicknessPatch(s: Scene, sel: Selection, grow: bool): (p: DesignStore.ElementsPatch)
    ensures sel.kind == FrameKind ==>
      p.mullions.None? && p.dimensions.None? && p.textBoxes.None? && p.frames.Some?
      && |p.frames.value| == |s.frames|
      && forall i :: 0 <= i < |s.frames| ==>
        p.frames.value[i] == if s.frames[i].id == sel.id
          then s.frames[i].(thickness := Some(Stepped(s.frames[i].thickness, grow)))
          else s.frames[i]
    ensures sel.kind == MullionKind ==>
      p.frames.None? && p.dimensions.None? && p.textBoxes.None? && p.mullions.Some?
      && |p.mullions.value| == |s.mullions|
      && forall i :: 0 <= i < |s.mullions| ==>
        p.mullions.value[i] == if s.mullions[i].id == sel.id
          then s.mullions[i].(thickness := Some(Stepped(s.mullions[i].thickness, grow)))
          else s.mullions[i]
    ensures sel.kind.DimensionKind? || sel.kind.TextBoxKind? ==> p == NoChange
  {
    match sel.kind
    case FrameKind =>
      NoChange.(frames := Some(seq(|s.frames|, i requires 0 <= i < |s.frames| =>
        if s.frames[i].id == sel.id
        then s.frames[i].(thickness := Some(Stepped(s.frames[i].thickness, grow)))
        else s.frames[i])))
    case MullionKind =>
      NoChange.(mullions := Some(seq(|s.mullions|, i requires 0 <= i < |s.mullions| =>
        if s.mullions[i].id == sel.id
        then s.mullions[i].(thickness := Some(Stepped(s.mullions[i].thickness, grow)))
        else s.mullions[i])))
    case _ => NoChange
  }

  /** Thickness stepping keeps every frame's thickness within [5, 100]. */
  lemma ThicknessPatchKeepsRange(s: Scene, sel: Selection, grow: bool)
    requires forall f :: f in s.frames ==> MinThickness <= ThicknessOr(f.thickness) <= MaxThickness
    ensures forall f :: f in Patched(s, ThicknessPatch(s, sel, grow)).frames ==>
      MinThickness <= ThicknessOr(f.thickness) <= MaxThickness
  {
    var t := Patched(s, ThicknessPatch(s, sel, grow));
    forall f | f in t.frames
      ensures MinThickness <= ThicknessOr(f.thickness) <= MaxThickness
    {
      var i :| 0 <= i < |t.frames| && t.frames[i] == f;
      if sel.kind == FrameKind {
        assert s.frames[i] in s.frames;
        SteppedStaysInRange(s.frames[i].thickness, grow);
      }
    }
  }
}
