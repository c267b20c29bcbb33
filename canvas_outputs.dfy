// The custom editor's output effect (custom-design-canvas.tsx, lines
// 120-201): a bill of materials and a cut list recomputed from the scene's
// frames and mullions, with BOM rows merged by (item, description).

module CanvasOutputs {
  import opened Types
  import opened Numeric
  import opened CanvasScene

  const ProfileItem := "Frame Profile"
  const MullionItem := "Mullion Profile"
  const SealItem := "Weather Stripping"

  /** `${Material} Profile (standard)`: the material with a capital letter. */
  function ProfileDescription(m: MaterialType): string
  {
    MaterialName(m) + " Profile (standard)"
  }

  function FrameMaterial(f: Frame): MaterialType { GetOr(f.material, Aluminum) }
  function MullionMaterial(m: Mullion): MaterialType { GetOr(m.material, Aluminum) }

  /** The glazing opening of a frame: its sides less two profile thicknesses. */
  function GlassWidth(f: Frame): real { f.width - 2.0 * ThicknessOr(f.thickness) }
  function GlassHeight(f: Frame): real { f.height - 2.0 * ThicknessOr(f.thickness) }

  predicate HasOpening(f: Frame) { GlassWidth(f) > 0.0 && GlassHeight(f) > 0.0 }

  // ---- What one frame and one mullion contribute --------------------------

  /** The infill row of a frame with a positive opening, if its infill has one. */
  function InfillRows(f: Frame): seq<BomItem>
  {
    match GetOr(f.infill, GlassInfill)
    case GlassInfill => [BomItem("Glass Panel", GlassKey(GetOr(f.glass, StandardGlass)), Fixed2(GlassArea(f)), "m²")]
    case SolidPanel => [BomItem("Solid Panel", "Insulated Panel", Fixed2(GlassArea(f)), "m²")]
    case Louver => [BomItem("Louver Blades", "Aluminum Louver", LouverLength(f), "m")]
    case Brickwork => []
  }

  /** The opening's area in square metres. */
  function GlassArea(f: Frame): real { GlassWidth(f) * GlassHeight(f) / 1000000.0 }

  /** One blade per 20 mm of opening height, each as wide as the opening, in metres. */
  function LouverLength(f: Frame): real { (GlassHeight(f) / 20.0).Floor as real * GlassWidth(f) / 1000.0 }

  /** A frame's BOM rows: its profile length, then its infill. */
  function FrameBomRows(f: Frame): seq<BomItem>
  {
    [BomItem(ProfileItem, ProfileDescription(FrameMaterial(f)), Fixed2(2.0 * (f.width + f.height) / 1000.0), "m")]
    + (if HasOpening(f) then InfillRows(f) else [])
  }

  function FrameCutRows(f: Frame): seq<CutItem>
  {
    [CutItem("Frame: " + f.id + " (Top/Bottom)", f.width, "45° Mitre", 2, Standard, FrameMaterial(f)),
     CutItem("Frame: " + f.id + " (Left/Right)", f.height, "45° Mitre", 2, Standard, FrameMaterial(f))]
  }

  /** Glass and solid panels are sealed round their opening; louvers are not. */
  function FrameSealing(f: Frame): real
  {
    if HasOpening(f) && GetOr(f.infill, GlassInfill) in {GlassInfill, SolidPanel}
    then 2.0 * (GlassWidth(f) + GlassHeight(f)) else 0.0
  }

  function MullionLength(m: Mullion, hypot: Hypot): real
  {
    hypot(m.x2 - m.x1, m.y2 - m.y1)
  }

  function MullionBomRow(m: Mullion, hypot: Hypot): BomItem
  {
    BomItem(MullionItem, ProfileDescription(MullionMaterial(m)), MullionLength(m, hypot) / 1000.0, "m")
  }

  function MullionCutRow(m: Mullion, hypot: Hypot): CutItem
  {
    CutItem("Mullion: " + m.id, Fixed1(MullionLength(m, hypot)), "90°", 1, Standard, MullionMaterial(m))
  }

  // ---- Accumulation over the lists ------------------------------------------

  function FramesBom(fs: seq<Frame>): seq<BomItem>
  {
    if fs == [] then [] else FramesBom(fs[..|fs| - 1]) + FrameBomRows(fs[|fs| - 1])
  }

  function FramesCuts(fs: seq<Frame>): seq<CutItem>
  {
    if fs == [] then [] else FramesCuts(fs[..|fs| - 1]) + FrameCutRows(fs[|fs| - 1])
  }

  function FramesSealing(fs: seq<Frame>): real
  {
    if fs == [] then 0.0 else FramesSealing(fs[..|fs| - 1]) + FrameSealing(fs[|fs| - 1])
  }

  function MullionsCuts(ms: seq<Mullion>, hypot: Hypot): seq<CutItem>
  {
    if ms == [] then [] else MullionsCuts(ms[..|ms| - 1], hypot) + [MullionCutRow(ms[|ms| - 1], hypot)]
  }

  function MullionsSealing(ms: seq<Mullion>, hypot: Hypot): real
  {
    if ms == [] then 0.0 else MullionsSealing(ms[..|ms| - 1], hypot) + MullionLength(ms[|ms| - 1], hypot) * 2.0
  }

  /**
   * `bom.find(item => item.item === 'Mullion Profile' &&
   * item.description.includes(material))`, as an index.
   */
  function FindMullionProfile(bom: seq<BomItem>, key: string): (r: Option<nat>)
    ensures r.Some? ==> r.value < |bom| && bom[r.value].item == MullionItem && Includes(bom[r.value].description, key)
    ensures r.None? ==> forall i :: 0 <= i < |bom| ==> !(bom[i].item == MullionItem && Includes(bom[i].description, key))
    decreases |bom|
  {
    if bom == [] then None
    else if bom[0].item == MullionItem && Includes(bom[0].description, key) then Some(0)
    else
      match FindMullionProfile(bom[1..], key)
      case None => None
      case Some(i) => Some(i + 1)
  }

  /** One mullion's BOM step: add to a matching row, or push a new one. */
  function AddMullion(bom: seq<BomItem>, m: Mullion, hypot: Hypot): seq<BomItem>
  {
    match FindMullionProfile(bom, MaterialKey(MullionMaterial(m)))
    case Some(i) => bom[i := bom[i].(quantity := bom[i].quantity + MullionLength(m, hypot) / 1000.0)]
    case None => bom + [MullionBomRow(m, hypot)]
  }

  function AddMullions(bom: seq<BomItem>, ms: seq<Mullion>, hypot: Hypot): seq<BomItem>
  {
    if ms == [] then bom else AddMullion(AddMullions(bom, ms[..|ms| - 1], hypot), ms[|ms| - 1], hypot)
  }

  function MullionRows(ms: seq<Mullion>, hypot: Hypot): seq<BomItem>
  {
    if ms == [] then [] else MullionRows(ms[..|ms| - 1], hypot) + [MullionBomRow(ms[|ms| - 1], hypot)]
  }

  // ---- Consolidation by (item, description) -------------------------------

  function KeyOf(b: BomItem): (string, string) { (b.item, b.description) }

  /** `acc.find(i => i.item === item.item && i.description === item.description)` */
  function FindKey(acc: seq<BomItem>, k: (string, string)): (r: Option<nat>)
    ensures r.Some? ==> r.value < |acc| && KeyOf(acc[r.value]) == k
    ensures r.None? ==> forall i :: 0 <= i < |acc| ==> KeyOf(acc[i]) != k
    decreases |acc|
  {
    if acc == [] then None
    else if KeyOf(acc[0]) == k then Some(0)
    else
      match FindKey(acc[1..], k)
      case None => None
      case Some(i) => Some(i + 1)
  }

  /** One step of the reduce: merge into the row with the same key, or append. */
  function Merge(acc: seq<BomItem>, item: BomItem): (r: seq<BomItem>)
    ensures |acc| <= |r| <= |acc| + 1 && r != []
  {
    match FindKey(acc, KeyOf(item))
    case Some(i) => acc[i := acc[i].(quantity := Fixed2(acc[i].quantity + item.quantity))]
    case None => acc + [item.(quantity := Fixed2(item.quantity))]
  }

  /** The reduce over all items: never more rows than items, and none only for no items. */
  function Consolidate(items: seq<BomItem>): (r: seq<BomItem>)
    ensures |r| <= |items|
    ensures r == [] <==> items == []
  {
    if items == [] then [] else Merge(Consolidate(items[..|items| - 1]), items[|items| - 1])
  }

  // ---- The effect ---------------------------------------------------------

  function RawBom(fs: seq<Frame>, ms: seq<Mullion>, hypot: Hypot): seq<BomItem>
  {
    AddMullions(FramesBom(fs), ms, hypot)
  }

  function Sealing(fs: seq<Frame>, ms: seq<Mullion>, hypot: Hypot): real
  {
    FramesSealing(fs) + MullionsSealing(ms, hypot)
  }

  function SealRow(sealing: real): BomItem
  {
    BomItem(SealItem, "EPDM Seal", Fixed2(sealing / 1000.0), "m")
  }

  function SceneBom(fs: seq<Frame>, ms: seq<Mullion>, hypot: Hypot): seq<BomItem>
  {
    var sealing := Sealing(fs, ms, hypot);
    Consolidate(RawBom(fs, ms, hypot)) + (if sealing > 0.0 then [SealRow(sealing)] else [])
  }

  function SceneCuts(fs: seq<Frame>, ms: seq<Mullion>, hypot: Hypot): seq<CutItem>
  {
    FramesCuts(fs) + MullionsCuts(ms, hypot)
  }

  /** The outputs: null exactly when the scene has no frames and no mullions. */
  function SceneOutputs(fs: seq<Frame>, ms: seq<Mullion>, hypot: Hypot): (r: Option<ProjectOutput>)
    ensures r.None? <==> fs == [] && ms == []
    ensures r.Some? ==> r.value.bom == SceneBom(fs, ms, hypot) && r.value.cutList == SceneCuts(fs, ms, hypot)
  {
    if |fs| > 0 || |ms| > 0 then Some(ProjectOutput(SceneBom(fs, ms, hypot), SceneCuts(fs, ms, hypot))) else None
  }

  /**
   * The effect body: one pass over the frames, one over the mullions, the
   * consolidating reduce and the sealing row.
   */
  method ComputeOutputs(frames: seq<Frame>, mullions: seq<Mullion>, hypot: Hypot)
    returns (outputs: Option<ProjectOutput>)
    ensures outputs == SceneOutputs(frames, mullions, hypot)
  {
    var bom, cutList, totalSealingLength := PushFrames(frames);
    bom, cutList, totalSealingLength := PushMullions(bom, cutList, totalSealingLength, frames, mullions, hypot);
    var consolidated := ConsolidateRows(bom);
    if totalSealingLength > 0.0 {
      consolidated := consolidated + [SealRow(totalSealingLength)];
    }
    assert consolidated == SceneBom(frames, mullions, hypot);
    if |frames| > 0 || |mullions| > 0 {
      outputs := Some(ProjectOutput(consolidated, cutList));
    } else {
      outputs := None;
    }
  }

  /** `frames.forEach(...)` over fresh accumulators. */
  method PushFrames(frames: seq<Frame>) returns (bom: seq<BomItem>, cutList: seq<CutItem>, sealing: real)
    ensures bom == FramesBom(frames)
    ensures cutList == FramesCuts(frames)
    ensures sealing == FramesSealing(frames)
  {
    bom, cutList, sealing := [], [], 0.0;
    for i := 0 to |frames|
      invariant bom == FramesBom(frames[..i])
      invariant cutList == FramesCuts(frames[..i])
      invariant sealing == FramesSealing(frames[..i])
    {
      assert frames[..i + 1][..i] == frames[..i];
      bom, cutList, sealing := PushFrame(bom, cutList, sealing, frames[i]);
    }
    assert frames[..|frames|] == frames;
  }

  /** `mullions.forEach(...)` after the frames. */
  method PushMullions(bom0: seq<BomItem>, cuts0: seq<CutItem>, sealing0: real,
                      frames: seq<Frame>, mullions: seq<Mullion>, hypot: Hypot)
    returns (bom: seq<BomItem>, cutList: seq<CutItem>, sealing: real)
    requires bom0 == FramesBom(frames) && cuts0 == FramesCuts(frames) && sealing0 == FramesSealing(frames)
    ensures bom == RawBom(frames, mullions, hypot)
    ensures cutList == SceneCuts(frames, mullions, hypot)
    ensures sealing == Sealing(frames, mullions, hypot)
  {
    bom, cutList, sealing := bom0, cuts0, sealing0;
    for j := 0 to |mullions|
      invariant bom == AddMullions(bom0, mullions[..j], hypot)
      invariant cutList == cuts0 + MullionsCuts(mullions[..j], hypot)
      invariant sealing == sealing0 + MullionsSealing(mullions[..j], hypot)
    {
      assert mullions[..j + 1][..j] == mullions[..j];
      bom, cutList, sealing := PushMullion(bom, cutList, sealing, mullions[j], hypot);
    }
    assert mullions[..|mullions|] == mullions;
  }

  /** The body of `frames.forEach`: push the frame's rows and add its sealing. */
  method PushFrame(bom: seq<BomItem>, cutList: seq<CutItem>, sealing: real, frame: Frame)
    returns (bom': seq<BomItem>, cutList': seq<CutItem>, sealing': real)
    ensures bom' == bom + FrameBomRows(frame)
    ensures cutList' == cutList + FrameCutRows(frame)
    ensures sealing' == sealing + FrameSealing(frame)
  {
    var material := GetOr(frame.material, Aluminum);
    var thickness := ThicknessOr(frame.thickness);
    var profile := BomItem(ProfileItem, ProfileDescription(material), Fixed2(2.0 * (frame.width + frame.height) / 1000.0), "m");
    cutList' := cutList + [CutItem("Frame: " + frame.id + " (Top/Bottom)", frame.width, "45° Mitre", 2, Standard, material)];
    cutList' := cutList' + [CutItem("Frame: " + frame.id + " (Left/Right)", frame.height, "45° Mitre", 2, Standard, material)];
    sealing' := sealing;
    var infill := GetOr(frame.infill, GlassInfill);
    var glassWidth := frame.width - 2.0 * thickness;
    var glassHeight := frame.height - 2.0 * thickness;
    var infillRows: seq<BomItem> := [];
    if glassWidth > 0.0 && glassHeight > 0.0 {
      var glassArea := glassWidth * glassHeight / 1000000.0;
      assert glassArea == GlassArea(frame);
      if infill == GlassInfill {
        var glass := GetOr(frame.glass, StandardGlass);
        infillRows := [BomItem("Glass Panel", GlassKey(glass), Fixed2(glassArea), "m²")];
        sealing' := sealing' + 2.0 * (glassWidth + glassHeight);
      } else if infill == SolidPanel {
        infillRows := [BomItem("Solid Panel", "Insulated Panel", Fixed2(glassArea), "m²")];
        sealing' := sealing' + 2.0 * (glassWidth + glassHeight);
      } else if infill == Louver {
        var louverBlades := (glassHeight / 20.0).Floor;
        infillRows := [BomItem("Louver Blades", "Aluminum Louver", louverBlades as real * glassWidth / 1000.0, "m")];
        assert infillRows[0].quantity == LouverLength(frame);
      }
    }
    bom' := bom + [profile] + infillRows;
    assert [profile] + infillRows == FrameBomRows(frame);
  }

  /** The body of `mullions.forEach`, with its lookup of an existing row. */
  method PushMullion(bom: seq<BomItem>, cutList: seq<CutItem>, sealing: real, mullion: Mullion, hypot: Hypot)
    returns (bom': seq<BomItem>, cutList': seq<CutItem>, sealing': real)
    ensures bom' == AddMullion(bom, mullion, hypot)
    ensures cutList' == cutList + [MullionCutRow(mullion, hypot)]
    ensures sealing' == sealing + MullionLength(mullion, hypot) * 2.0
  {
    var material := GetOr(mullion.material, Aluminum);
    var length := hypot(mullion.x2 - mullion.x1, mullion.y2 - mullion.y1);
    var existing := FindMullionProfile(bom, MaterialKey(material));
    match existing {
      case Some(k) =>
        bom' := bom[k := bom[k].(quantity := bom[k].quantity + length / 1000.0)];
      case None =>
        bom' := bom + [BomItem(MullionItem, ProfileDescription(material), length / 1000.0, "m")];
    }
    cutList' := cutList + [CutItem("Mullion: " + mullion.id, Fixed1(length), "90°", 1, Standard, material)];
    sealing' := sealing + length * 2.0;
  }

  /** The consolidating `bom.reduce`. */
  method ConsolidateRows(bom: seq<BomItem>) returns (acc: seq<BomItem>)
    ensures acc == Consolidate(bom)
  {
    acc := [];
    for k := 0 to |bom|
      invariant acc == Consolidate(bom[..k])
    {
      var item := bom[k];
      assert bom[..k + 1][..k] == bom[..k];
      var found := FindKey(acc, KeyOf(item));
      match found {
        case Some(e) =>
          acc := acc[e := acc[e].(quantity := Fixed2(acc[e].quantity + item.quantity))];
        case None =>
          acc := acc + [item.(quantity := Fixed2(item.quantity))];
      }
    }
    assert bom[..|bom|] == bom;
  }

  // ---- The mullion lookup never matches -------------------------------------

  /**
   * The material keys are lower case and the descriptions capitalised, so no
   * profile description contains a material key: "upvc" needs a 'v' after
   * "Aluminum" and a lower-case 'u' elsewhere, "aluminum" a lower-case 'a'
   * early enough, "wood" a lower-case 'w'.
   */
  lemma NoDescriptionIncludesAKey(d: MaterialType, m: MaterialType)
    ensures !Includes(ProfileDescription(d), MaterialKey(m))
  {
    match d
    case Upvc =>
      assert ProfileDescription(d) == "Upvc Profile (standard)";
      UpvcDescriptionHasNoKey(m);
    case Aluminum =>
      assert ProfileDescription(d) == "Aluminum Profile (standard)";
      AluminumDescriptionHasNoKey(m);
    case Wood =>
      assert ProfileDescription(d) == "Wood Profile (standard)";
      WoodDescriptionHasNoKey(m);
  }

  /** A string lacking one character of `sub` does not contain `sub`. */
  lemma MissingChar(s: string, sub: string, j: int)
    requires 0 <= j < |sub| && sub[j] !in s
    ensures !Includes(s, sub)
  {
    if Includes(s, sub) {
      IncludesEveryChar(s, sub, j);
    }
  }

  /** A string lacking the first character of `sub` early enough does not contain `sub`. */
  lemma MissingEarly(s: string, sub: string)
    requires 0 < |sub| <= |s| && sub[0] !in s[..|s| - |sub| + 1]
    ensures !Includes(s, sub)
  {
    if Includes(s, sub) {
      IncludesFirstChar(s, sub);
    }
  }

  lemma AluminumDescriptionHasNoKey(m: MaterialType)
    ensures !Includes("Aluminum Profile (standard)", MaterialKey(m))
  {
    var s := "Aluminum Profile (standard)";
    match m
    case Upvc => MissingChar(s, "upvc", 2);
    case Aluminum => MissingEarly(s, "aluminum");
    case Wood => MissingChar(s, "wood", 0);
  }

  lemma UpvcDescriptionHasNoKey(m: MaterialType)
    ensures !Includes("Upvc Profile (standard)", MaterialKey(m))
  {
    var s := "Upvc Profile (standard)";
    match m
    case Upvc => MissingChar(s, "upvc", 0);
    case Aluminum => MissingEarly(s, "aluminum");
    case Wood => MissingChar(s, "wood", 0);
  }

  lemma WoodDescriptionHasNoKey(m: MaterialType)
    ensures !Includes("Wood Profile (standard)", MaterialKey(m))
  {
    var s := "Wood Profile (standard)";
    match m
    case Upvc => MissingChar(s, "upvc", 0);
    case Aluminum => MissingEarly(s, "aluminum");
    case Wood => MissingChar(s, "wood", 0);
  }

  /** Every "Mullion Profile" row carries some material's profile description. */
  predicate MullionRowsAreProfiles(bom: seq<BomItem>)
  {
    forall i :: 0 <= i < |bom| && bom[i].item == MullionItem ==>
      exists d: MaterialType :: bom[i].description == ProfileDescription(d)
  }

  lemma FramesBomHasNoMullionRows(fs: seq<Frame>)
    ensures forall i :: 0 <= i < |FramesBom(fs)| ==> FramesBom(fs)[i].item != MullionItem
  {
    if fs != [] {
      FramesBomHasNoMullionRows(fs[..|fs| - 1]);
    }
  }

  /**
   * The lookup at line 168 never finds a row, so every mullion pushes its own
   * row and the merging is left to the consolidating reduce.
   */
  lemma {:induction false} MullionLookupNeverMatches(base: seq<BomItem>, ms: seq<Mullion>, hypot: Hypot)
    requires MullionRowsAreProfiles(base)
    ensures AddMullions(base, ms, hypot) == base + MullionRows(ms, hypot)
    ensures MullionRowsAreProfiles(AddMullions(base, ms, hypot))
    decreases |ms|
  {
    if ms != [] {
      var init, m := ms[..|ms| - 1], ms[|ms| - 1];
      MullionLookupNeverMatches(base, init, hypot);
      var bom := AddMullions(base, init, hypot);
      var key := MaterialKey(MullionMaterial(m));
      match FindMullionProfile(bom, key)
      case Some(i) =>
        var d :| bom[i].description == ProfileDescription(d);
        NoDescriptionIncludesAKey(d, MullionMaterial(m));
        assert false;
      case None =>
        var r := bom + [MullionBomRow(m, hypot)];
        assert forall i :: 0 <= i < |r| && r[i].item == MullionItem ==>
          exists d: MaterialType :: r[i].description == ProfileDescription(d) by {
          forall i | 0 <= i < |r| && r[i].item == MullionItem
            ensures exists d: MaterialType :: r[i].description == ProfileDescription(d)
          {
            if i == |bom| {
              assert r[i].description == ProfileDescription(MullionMaterial(m));
            } else {
              assert r[i] == bom[i];
            }
          }
        }
    }
  }

  /** The scene's raw BOM: the frames' rows, then one row per mullion. */
  lemma RawBomIsFramesThenMullions(fs: seq<Frame>, ms: seq<Mullion>, hypot: Hypot)
    ensures RawBom(fs, ms, hypot) == FramesBom(fs) + MullionRows(ms, hypot)
  {
    FramesBomHasNoMullionRows(fs);
    MullionLookupNeverMatches(FramesBom(fs), ms, hypot);
  }

  // ---- The lookup line 168 evidently intends --------------------------------

  /**
   * The mullion step with the lookup its merge branch (169-170) is written
   * for: find the Mullion Profile row carrying the description the push at
   * line 172 would write, and add to it.
   */
  function AddMullionMerged(bom: seq<BomItem>, m: Mullion, hypot: Hypot): seq<BomItem>
  {
    match FindKey(bom, (MullionItem, ProfileDescription(MullionMaterial(m))))
    case Some(i) => bom[i := bom[i].(quantity := bom[i].quantity + MullionLength(m, hypot) / 1000.0)]
    case None => bom + [MullionBomRow(m, hypot)]
  }

  function AddMullionsMerged(bom: seq<BomItem>, ms: seq<Mullion>, hypot: Hypot): seq<BomItem>
  {
    if ms == [] then bom else AddMullionMerged(AddMullionsMerged(bom, ms[..|ms| - 1], hypot), ms[|ms| - 1], hypot)
  }

  /** The mullions' materials, each once, in the order of first use. */
  function Materials(ms: seq<Mullion>): (r: seq<MaterialType>)
    ensures forall i, j :: 0 <= i < j < |r| ==> r[i] != r[j]
  {
    if ms == [] then []
    else
      var init, mat := Materials(ms[..|ms| - 1]), MullionMaterial(ms[|ms| - 1]);
      if mat in init then init else init + [mat]
  }

  /** The summed length in metres of the mullions of one material. */
  function MaterialLength(ms: seq<Mullion>, mat: MaterialType, hypot: Hypot): real
  {
    if ms == [] then 0.0
    else MaterialLength(ms[..|ms| - 1], mat, hypot)
         + (if MullionMaterial(ms[|ms| - 1]) == mat then MullionLength(ms[|ms| - 1], hypot) / 1000.0 else 0.0)
  }

  /** One Mullion Profile row per material, holding that material's total length. */
  function MergedRows(ms: seq<Mullion>, hypot: Hypot): seq<BomItem>
  {
    var mats := Materials(ms);
    seq(|mats|, k requires 0 <= k < |mats| =>
      BomItem(MullionItem, ProfileDescription(mats[k]), MaterialLength(ms, mats[k], hypot), "m"))
  }

  predicate NoMullionRows(bom: seq<BomItem>)
  {
    forall i :: 0 <= i < |bom| ==> bom[i].item != MullionItem
  }

  /** Different materials have different profile descriptions. */
  lemma ProfileDescriptionInjective(a: MaterialType, b: MaterialType)
    requires ProfileDescription(a) == ProfileDescription(b)
    ensures a == b
  {
    assert ProfileDescription(a)[0] == MaterialName(a)[0];
    assert ProfileDescription(b)[0] == MaterialName(b)[0];
  }

  lemma {:induction false} UnusedMaterialHasNoLength(ms: seq<Mullion>, mat: MaterialType, hypot: Hypot)
    requires mat !in Materials(ms)
    ensures MaterialLength(ms, mat, hypot) == 0.0
  {
    if ms != [] {
      UnusedMaterialHasNoLength(ms[..|ms| - 1], mat, hypot);
    }
  }

  /**
   * With the intended lookup the raw bill keeps the rows before the mullions
   * and then holds exactly one Mullion Profile row per material, in the order
   * of first use, each with the material's total length.
   */
  lemma {:induction false} MergedLookupGroupsByMaterial(base: seq<BomItem>, ms: seq<Mullion>, hypot: Hypot)
    requires NoMullionRows(base)
    ensures AddMullionsMerged(base, ms, hypot) == base + MergedRows(ms, hypot)
  {
    if ms != [] {
      var init, m := ms[..|ms| - 1], ms[|ms| - 1];
      MergedLookupGroupsByMaterial(base, init, hypot);
      MergedStep(base, init, m, hypot);
      assert init + [m] == ms;
    }
  }

  lemma {:induction false} MergedStep(base: seq<BomItem>, init: seq<Mullion>, m: Mullion, hypot: Hypot)
    requires NoMullionRows(base)
    ensures AddMullionMerged(base + MergedRows(init, hypot), m, hypot) == base + MergedRows(init + [m], hypot)
  {
    var bom := base + MergedRows(init, hypot);
    match FindKey(bom, (MullionItem, ProfileDescription(MullionMaterial(m))))
    case Some(i) => MergedStepFound(base, init, m, hypot, i);
    case None => MergedStepFresh(base, init, m, hypot);
  }

  /** A mullion's material that has a row gets its length added there. */
  lemma {:induction false} MergedStepFound(base: seq<BomItem>, init: seq<Mullion>, m: Mullion, hypot: Hypot, i: nat)
    requires NoMullionRows(base)
    requires FindKey(base + MergedRows(init, hypot), (MullionItem, ProfileDescription(MullionMaterial(m)))) == Some(i)
    ensures i < |base + MergedRows(init, hypot)|
    ensures var bom := base + MergedRows(init, hypot);
            bom[i := bom[i].(quantity := bom[i].quantity + MullionLength(m, hypot) / 1000.0)]
            == base + MergedRows(init + [m], hypot)
  {
    var rows := MergedRows(init, hypot);
    var bom := base + rows;
    FoundPastBase(base, rows, (MullionItem, ProfileDescription(MullionMaterial(m))), i);
    var k := i - |base|;
    assert bom[i] == rows[k];
    ProfileDescriptionInjective(Materials(init)[k], MullionMaterial(m));
    MergedRowsGrow(init, m, hypot, k);
    UpdateInTail(base, rows, k, bom[i].(quantity := bom[i].quantity + MullionLength(m, hypot) / 1000.0));
  }

  /** A mullion of a material without a row pushes that material's row. */
  lemma {:induction false} MergedStepFresh(base: seq<BomItem>, init: seq<Mullion>, m: Mullion, hypot: Hypot)
    requires NoMullionRows(base)
    requires FindKey(base + MergedRows(init, hypot), (MullionItem, ProfileDescription(MullionMaterial(m)))) == None
    ensures base + MergedRows(init, hypot) + [MullionBomRow(m, hypot)] == base + MergedRows(init + [m], hypot)
  {
    var rows, mats := MergedRows(init, hypot), Materials(init);
    forall k | 0 <= k < |mats|
      ensures mats[k] != MullionMaterial(m)
    {
      assert (base + rows)[|base| + k] == rows[k];
    }
    MergedRowsFresh(init, m, hypot);
  }

  /** Rows found by a Mullion Profile key lie past a base without such rows. */
  lemma {:induction false} FoundPastBase(base: seq<BomItem>, rows: seq<BomItem>, key: (string, string), i: nat)
    requires NoMullionRows(base) && key.0 == MullionItem
    requires i < |base + rows| && KeyOf((base + rows)[i]) == key
    ensures |base| <= i
  {
  }

  lemma {:induction false} MergedRowsGrow(init: seq<Mullion>, m: Mullion, hypot: Hypot, k: nat)
    requires k < |Materials(init)| && Materials(init)[k] == MullionMaterial(m)
    ensures var rows := MergedRows(init, hypot);
            MergedRows(init + [m], hypot)
            == rows[k := rows[k].(quantity := rows[k].quantity + MullionLength(m, hypot) / 1000.0)]
  {
    var mats, rows, rows' := Materials(init), MergedRows(init, hypot), MergedRows(init + [m], hypot);
    var grown := rows[k := rows[k].(quantity := rows[k].quantity + MullionLength(m, hypot) / 1000.0)];
    MaterialsStep(init, m);
    assert |rows'| == |mats| == |grown|;
    forall j | 0 <= j < |mats|
      ensures rows'[j] == grown[j]
    {
      MaterialLengthStep(init, m, mats[j], hypot);
      assert mats[j] == MullionMaterial(m) <==> j == k;
    }
  }

  lemma {:induction false} MergedRowsFresh(init: seq<Mullion>, m: Mullion, hypot: Hypot)
    requires MullionMaterial(m) !in Materials(init)
    ensures MergedRows(init + [m], hypot) == MergedRows(init, hypot) + [MullionBomRow(m, hypot)]
  {
    var mats, mat := Materials(init), MullionMaterial(m);
    UnusedMaterialHasNoLength(init, mat, hypot);
    MaterialsStep(init, m);
    MaterialLengthStep(init, m, mat, hypot);
    forall j | 0 <= j < |mats| {
      MaterialLengthStep(init, m, mats[j], hypot);
    }
  }

  lemma UpdateInTail<T>(a: seq<T>, b: seq<T>, k: nat, v: T)
    requires k < |b|
    ensures (a + b)[|a| + k := v] == a + b[k := v]
  {
  }

  lemma {:induction false} MaterialsStep(init: seq<Mullion>, m: Mullion)
    ensures Materials(init + [m]) ==
              if MullionMaterial(m) in Materials(init) then Materials(init) else Materials(init) + [MullionMaterial(m)]
  {
    assert (init + [m])[..|init|] == init;
  }

  lemma {:induction false} MaterialLengthStep(init: seq<Mullion>, m: Mullion, mat: MaterialType, hypot: Hypot)
    ensures MaterialLength(init + [m], mat, hypot) ==
              MaterialLength(init, mat, hypot)
              + (if MullionMaterial(m) == mat then MullionLength(m, hypot) / 1000.0 else 0.0)
  {
    assert (init + [m])[..|init|] == init;
  }

  /** Under the intended lookup no two Mullion Profile rows share a material. */
  lemma {:induction false} MergedLookupOneRowPerMaterial(fs: seq<Frame>, ms: seq<Mullion>, hypot: Hypot)
    ensures var bom := AddMullionsMerged(FramesBom(fs), ms, hypot);
            forall i, j :: 0 <= i < j < |bom| && bom[i].item == MullionItem && bom[j].item == MullionItem ==>
              bom[i].description != bom[j].description
  {
    FramesBomHasNoMullionRows(fs);
    var base := FramesBom(fs);
    MergedLookupGroupsByMaterial(base, ms, hypot);
    var bom, mats := AddMullionsMerged(base, ms, hypot), Materials(ms);
    forall i, j | 0 <= i < j < |bom| && bom[i].item == MullionItem && bom[j].item == MullionItem
      ensures bom[i].description != bom[j].description
    {
      assert i >= |base|;
      if bom[i].description == bom[j].description {
        ProfileDescriptionInjective(mats[i - |base|], mats[j - |base|]);
      }
    }
  }

  // ---- Properties of the consolidation --------------------------------------

  predicate HasKey(items: seq<BomItem>, k: (string, string))
  {
    exists i :: 0 <= i < |items| && KeyOf(items[i]) == k
  }

  predicate KeysUnique(items: seq<BomItem>)
  {
    forall i, j :: 0 <= i < j < |items| ==> KeyOf(items[i]) != KeyOf(items[j])
  }

  /** The consolidated rows have pairwise different keys and are the keys of the input. */
  lemma {:induction false} ConsolidateKeys(items: seq<BomItem>)
    ensures KeysUnique(Consolidate(items))
    ensures forall k :: HasKey(Consolidate(items), k) <==> HasKey(items, k)
    ensures |Consolidate(items)| <= |items|
    decreases |items|
  {
    if items != [] {
      var init, x := items[..|items| - 1], items[|items| - 1];
      ConsolidateKeys(init);
      var acc := Consolidate(init);
      var r := Consolidate(items);
      assert r == Merge(acc, x);
      forall k ensures HasKey(items, k) <==> HasKey(init, k) || k == KeyOf(x) {
        if HasKey(items, k) {
          var i :| 0 <= i < |items| && KeyOf(items[i]) == k;
          if i < |init| { assert init[i] == items[i]; }
        }
        if HasKey(init, k) {
          var i :| 0 <= i < |init| && KeyOf(init[i]) == k;
          assert items[i] == init[i];
        }
        if k == KeyOf(x) { assert KeyOf(items[|items| - 1]) == k; }
      }
      match FindKey(acc, KeyOf(x))
      case Some(e) =>
        assert |r| == |acc|;
        assert forall i :: 0 <= i < |r| ==> KeyOf(r[i]) == KeyOf(acc[i]);
        forall k ensures HasKey(r, k) <==> HasKey(acc, k) {
          if HasKey(r, k) {
            var i :| 0 <= i < |r| && KeyOf(r[i]) == k;
            assert KeyOf(acc[i]) == k;
          }
          if HasKey(acc, k) {
            var i :| 0 <= i < |acc| && KeyOf(acc[i]) == k;
            assert KeyOf(r[i]) == k;
          }
        }
        assert HasKey(acc, KeyOf(x)) by { assert KeyOf(acc[e]) == KeyOf(x); }
      case None =>
        assert r == acc + [x.(quantity := Fixed2(x.quantity))];
        forall k ensures HasKey(r, k) <==> HasKey(acc, k) || k == KeyOf(x) {
          if HasKey(r, k) {
            var i :| 0 <= i < |r| && KeyOf(r[i]) == k;
            if i < |acc| { assert r[i] == acc[i]; }
          }
          if HasKey(acc, k) {
            var i :| 0 <= i < |acc| && KeyOf(acc[i]) == k;
            assert r[i] == acc[i];
          }
          if k == KeyOf(x) { assert KeyOf(r[|acc|]) == k; }
        }
        forall i, j | 0 <= i < j < |r| ensures KeyOf(r[i]) != KeyOf(r[j]) {
          if j < |acc| {
            assert r[i] == acc[i] && r[j] == acc[j];
          } else {
            assert r[i] == acc[i];
          }
        }
    }
  }

  /** The total quantity of the input rows with key k. */
  function KeyTotal(items: seq<BomItem>, k: (string, string)): real
  {
    if items == [] then 0.0
    else KeyTotal(items[..|items| - 1], k) + (if KeyOf(items[|items| - 1]) == k then items[|items| - 1].quantity else 0.0)
  }

  /** The number of input rows with key k. */
  function KeyCount(items: seq<BomItem>, k: (string, string)): nat
  {
    if items == [] then 0
    else KeyCount(items[..|items| - 1], k) + (if KeyOf(items[|items| - 1]) == k then 1 else 0)
  }

  lemma HasKeyConcat(a: seq<BomItem>, b: seq<BomItem>, k: (string, string))
    ensures HasKey(a + b, k) <==> HasKey(a, k) || HasKey(b, k)
  {
    if HasKey(a + b, k) {
      var i :| 0 <= i < |a + b| && KeyOf((a + b)[i]) == k;
      if i < |a| { assert (a + b)[i] == a[i]; } else { assert (a + b)[i] == b[i - |a|]; }
    }
    if HasKey(a, k) {
      var i :| 0 <= i < |a| && KeyOf(a[i]) == k;
      assert (a + b)[i] == a[i];
    }
    if HasKey(b, k) {
      var i :| 0 <= i < |b| && KeyOf(b[i]) == k;
      assert (a + b)[i + |a|] == b[i];
    }
  }

  lemma HasKeySingle(x: BomItem, k: (string, string))
    ensures HasKey([x], k) <==> KeyOf(x) == k
  {
    assert [x][0] == x;
  }

  lemma {:induction false} AbsentKey(items: seq<BomItem>, k: (string, string))
    requires !HasKey(items, k)
    ensures KeyTotal(items, k) == 0.0 && KeyCount(items, k) == 0
    decreases |items|
  {
    if items != [] {
      var init, x := items[..|items| - 1], items[|items| - 1];
      assert items == init + [x];
      HasKeyConcat(init, [x], k);
      HasKeySingle(x, k);
      AbsentKey(init, k);
    }
  }

  /**
   * Each consolidated row holds the sum of the quantities of its key, up to
   * the half-hundredth each of its roundings may add or take away.
   */
  lemma {:induction false} ConsolidateQuantity(items: seq<BomItem>, i: int)
    requires 0 <= i < |Consolidate(items)|
    ensures var row := Consolidate(items)[i];
      var n := KeyCount(items, KeyOf(row)) as real;
      n >= 1.0
      && KeyTotal(items, KeyOf(row)) - 0.005 * n < row.quantity <= KeyTotal(items, KeyOf(row)) + 0.005 * n
    decreases |items|
  {
    var init, x := items[..|items| - 1], items[|items| - 1];
    var acc := Consolidate(init);
    var r := Consolidate(items);
    assert r == Merge(acc, x);
    ConsolidateKeys(init);
    var k := KeyOf(r[i]);
    match FindKey(acc, KeyOf(x))
    case Some(e) =>
      assert KeyOf(r[i]) == KeyOf(acc[i]);
      ConsolidateQuantity(init, i);
      if i != e {
        assert KeyOf(acc[i]) != KeyOf(acc[e]);
      }
    case None =>
      if i < |acc| {
        assert r[i] == acc[i];
        ConsolidateQuantity(init, i);
      } else {
        assert !HasKey(acc, KeyOf(x));
        AbsentKey(init, KeyOf(x));
      }
  }

  /** When every input quantity is a whole number of hundredths the sums are exact. */
  lemma {:induction false} ConsolidateExact(items: seq<BomItem>, i: int)
    requires forall j :: 0 <= j < |items| ==> IsHundredths(items[j].quantity)
    requires 0 <= i < |Consolidate(items)|
    ensures Consolidate(items)[i].quantity == KeyTotal(items, KeyOf(Consolidate(items)[i]))
    decreases |items|
  {
    var init, x := items[..|items| - 1], items[|items| - 1];
    var acc := Consolidate(init);
    var r := Consolidate(items);
    assert r == Merge(acc, x);
    ConsolidateKeys(init);
    assert forall j :: 0 <= j < |init| ==> IsHundredths(init[j].quantity) by {
      forall j | 0 <= j < |init| ensures IsHundredths(init[j].quantity) {
        assert init[j] == items[j];
      }
    }
    assert IsHundredths(x.quantity);
    match FindKey(acc, KeyOf(x))
    case Some(e) =>
      assert KeyOf(r[i]) == KeyOf(acc[i]);
      ConsolidateExact(init, i);
      if i == e {
        ConsolidateExact(init, e);
        assert IsHundredths(acc[e].quantity) by {
          if |init| > 0 {
            ConsolidateQuantities(init, e);
          }
        }
        HundredthsAdd(acc[e].quantity, x.quantity);
        Fixed2OfHundredths(acc[e].quantity + x.quantity);
      } else {
        assert KeyOf(acc[i]) != KeyOf(acc[e]);
      }
    case None =>
      if i < |acc| {
        assert r[i] == acc[i];
        ConsolidateExact(init, i);
      } else {
        assert !HasKey(acc, KeyOf(x));
        AbsentKey(init, KeyOf(x));
        Fixed2OfHundredths(x.quantity);
      }
  }

  /** Every consolidated quantity has been rounded to hundredths. */
  lemma {:induction false} ConsolidateQuantities(items: seq<BomItem>, i: int)
    requires 0 <= i < |Consolidate(items)|
    ensures IsHundredths(Consolidate(items)[i].quantity)
    decreases |items|
  {
    var init, x := items[..|items| - 1], items[|items| - 1];
    var acc := Consolidate(init);
    assert Consolidate(items) == Merge(acc, x);
    match FindKey(acc, KeyOf(x))
    case Some(e) =>
      if i != e { ConsolidateQuantities(init, i); }
    case None =>
      if i < |acc| { ConsolidateQuantities(init, i); }
  }

  /** Rows with distinct keys and rounded quantities are already consolidated. */
  lemma {:induction false} ConsolidateDistinct(items: seq<BomItem>)
    requires KeysUnique(items)
    requires forall j :: 0 <= j < |items| ==> IsHundredths(items[j].quantity)
    ensures Consolidate(items) == items
    decreases |items|
  {
    if items != [] {
      var init, x := items[..|items| - 1], items[|items| - 1];
      UniqueInit(items);
      forall j | 0 <= j < |init| ensures IsHundredths(init[j].quantity) {
        assert init[j] == items[j];
      }
      ConsolidateDistinct(init);
      MergeFresh(init, x);
      assert init + [x] == items;
    }
  }

  /** Dropping the last row keeps the keys distinct, and that row's key is not among the rest. */
  lemma UniqueInit(items: seq<BomItem>)
    requires items != [] && KeysUnique(items)
    ensures KeysUnique(items[..|items| - 1])
    ensures FindKey(items[..|items| - 1], KeyOf(items[|items| - 1])).None?
  {
    var init, x := items[..|items| - 1], items[|items| - 1];
    forall i, j | 0 <= i < j < |init| ensures KeyOf(init[i]) != KeyOf(init[j]) {
      assert init[i] == items[i] && init[j] == items[j];
    }
    forall i | 0 <= i < |init| ensures KeyOf(init[i]) != KeyOf(x) {
      assert init[i] == items[i];
    }
  }

  /** Merging a row with a new key and a rounded quantity appends it unchanged. */
  lemma MergeFresh(acc: seq<BomItem>, x: BomItem)
    requires FindKey(acc, KeyOf(x)).None? && IsHundredths(x.quantity)
    ensures Merge(acc, x) == acc + [x]
  {
    Fixed2OfHundredths(x.quantity);
    assert x.(quantity := Fixed2(x.quantity)) == x;
  }

  /** Consolidating twice is consolidating once. */
  lemma ConsolidateIdempotent(items: seq<BomItem>)
    ensures Consolidate(Consolidate(items)) == Consolidate(items)
  {
    ConsolidateKeys(items);
    forall j | 0 <= j < |Consolidate(items)| ensures IsHundredths(Consolidate(items)[j].quantity) {
      ConsolidateQuantities(items, j);
    }
    ConsolidateDistinct(Consolidate(items));
  }

  // ---- Properties of the outputs --------------------------------------------

  /** A frame's rows are its profile row and its infill rows. */
  lemma FrameRowsAreProfileOrInfill(f: Frame)
    ensures forall i :: 0 <= i < |FrameBomRows(f)| ==>
      FrameBomRows(f)[i].item in {ProfileItem, "Glass Panel", "Solid Panel", "Louver Blades"}
  {
    var rows := InfillRows(f);
    match GetOr(f.infill, GlassInfill)
    case GlassInfill => assert rows[0].item == "Glass Panel";
    case SolidPanel => assert rows[0].item == "Solid Panel";
    case Louver => assert rows[0].item == "Louver Blades";
    case Brickwork =>
  }

  lemma FramesBomHasNoSealRow(fs: seq<Frame>)
    ensures !HasKey(FramesBom(fs), (SealItem, "EPDM Seal"))
  {
    if fs != [] {
      FramesBomHasNoSealRow(fs[..|fs| - 1]);
      var a, b := FramesBom(fs[..|fs| - 1]), FrameBomRows(fs[|fs| - 1]);
      assert FramesBom(fs) == a + b;
      HasKeyConcat(a, b, (SealItem, "EPDM Seal"));
      FrameRowsAreProfileOrInfill(fs[|fs| - 1]);
    }
  }

  lemma MullionRowsHaveNoSealRow(ms: seq<Mullion>, hypot: Hypot)
    ensures !HasKey(MullionRows(ms, hypot), (SealItem, "EPDM Seal"))
  {
    if ms != [] {
      MullionRowsHaveNoSealRow(ms[..|ms| - 1], hypot);
    }
  }

  /** The BOM has a Weather Stripping row exactly when the sealing length is positive, as its last row. */
  lemma SealRowExactlyWhenSealed(fs: seq<Frame>, ms: seq<Mullion>, hypot: Hypot)
    ensures var bom := SceneBom(fs, ms, hypot);
      (HasKey(bom, (SealItem, "EPDM Seal")) <==> Sealing(fs, ms, hypot) > 0.0)
      && (Sealing(fs, ms, hypot) > 0.0 ==> bom[|bom| - 1] == SealRow(Sealing(fs, ms, hypot)))
  {
    var raw := RawBom(fs, ms, hypot);
    RawBomIsFramesThenMullions(fs, ms, hypot);
    FramesBomHasNoSealRow(fs);
    MullionRowsHaveNoSealRow(ms, hypot);
    var a, b := FramesBom(fs), MullionRows(ms, hypot);
    var k := (SealItem, "EPDM Seal");
    HasKeyConcat(a, b, k);
    ConsolidateKeys(raw);
    var c := Consolidate(raw);
    var tail: seq<BomItem> := if Sealing(fs, ms, hypot) > 0.0 then [SealRow(Sealing(fs, ms, hypot))] else [];
    assert SceneBom(fs, ms, hypot) == c + tail;
    HasKeyConcat(c, tail, k);
    if Sealing(fs, ms, hypot) > 0.0 {
      HasKeySingle(SealRow(Sealing(fs, ms, hypot)), k);
    }
  }

  /** Every frame's profile row is in the BOM, merged by material. */
  lemma FrameProfileListed(fs: seq<Frame>, ms: seq<Mullion>, hypot: Hypot, i: int)
    requires 0 <= i < |fs|
    ensures HasKey(SceneBom(fs, ms, hypot), (ProfileItem, ProfileDescription(FrameMaterial(fs[i]))))
  {
    var k := (ProfileItem, ProfileDescription(FrameMaterial(fs[i])));
    FramesBomHasKey(fs, i);
    var raw := RawBom(fs, ms, hypot);
    RawBomIsFramesThenMullions(fs, ms, hypot);
    HasKeyConcat(FramesBom(fs), MullionRows(ms, hypot), k);
    ConsolidateKeys(raw);
    var c := Consolidate(raw);
    var sealing := Sealing(fs, ms, hypot);
    var tail: seq<BomItem> := if sealing > 0.0 then [SealRow(sealing)] else [];
    assert SceneBom(fs, ms, hypot) == c + tail;
    HasKeyConcat(c, tail, k);
  }

  lemma {:induction false} FramesBomHasKey(fs: seq<Frame>, i: int)
    requires 0 <= i < |fs|
    ensures HasKey(FramesBom(fs), (ProfileItem, ProfileDescription(FrameMaterial(fs[i]))))
    decreases |fs|
  {
    var init := fs[..|fs| - 1];
    var a, b := FramesBom(init), FrameBomRows(fs[|fs| - 1]);
    assert FramesBom(fs) == a + b;
    if i < |fs| - 1 {
      assert fs[i] == init[i];
      FramesBomHasKey(init, i);
      var j :| 0 <= j < |a| && KeyOf(a[j]) == (ProfileItem, ProfileDescription(FrameMaterial(fs[i])));
      assert (a + b)[j] == a[j];
    } else {
      assert (a + b)[|a|] == b[0];
    }
  }

  /** The cut list: two mitred rows per frame in frame order, then one row per mullion. */
  lemma {:induction false} CutListShape(fs: seq<Frame>, ms: seq<Mullion>, hypot: Hypot)
    ensures var cuts := SceneCuts(fs, ms, hypot);
      |cuts| == 2 * |fs| + |ms|
      && (forall i :: 0 <= i < |fs| ==> cuts[2 * i] == FrameCutRows(fs[i])[0] && cuts[2 * i + 1] == FrameCutRows(fs[i])[1])
      && (forall j :: 0 <= j < |ms| ==> cuts[2 * |fs| + j] == MullionCutRow(ms[j], hypot))
  {
    FramesCutsShape(fs);
    MullionsCutsShape(ms, hypot);
  }

  lemma {:induction false} FramesCutsShape(fs: seq<Frame>)
    ensures |FramesCuts(fs)| == 2 * |fs|
    ensures forall i :: 0 <= i < |fs| ==>
      FramesCuts(fs)[2 * i] == FrameCutRows(fs[i])[0] && FramesCuts(fs)[2 * i + 1] == FrameCutRows(fs[i])[1]
    decreases |fs|
  {
    if fs != [] {
      var init := fs[..|fs| - 1];
      FramesCutsShape(init);
      forall i | 0 <= i < |fs|
        ensures FramesCuts(fs)[2 * i] == FrameCutRows(fs[i])[0] && FramesCuts(fs)[2 * i + 1] == FrameCutRows(fs[i])[1]
      {
        if i < |init| { assert fs[i] == init[i]; }
      }
    }
  }

  lemma {:induction false} MullionsCutsShape(ms: seq<Mullion>, hypot: Hypot)
    ensures |MullionsCuts(ms, hypot)| == |ms|
    ensures forall j :: 0 <= j < |ms| ==> MullionsCuts(ms, hypot)[j] == MullionCutRow(ms[j], hypot)
    decreases |ms|
  {
    if ms != [] {
      var init := ms[..|ms| - 1];
      MullionsCutsShape(init, hypot);
      forall j | 0 <= j < |ms| ensures MullionsCuts(ms, hypot)[j] == MullionCutRow(ms[j], hypot) {
        if j < |init| { assert ms[j] == init[j]; }
      }
    }
  }

  /** With lengths that are never negative, a glazed or panelled opening makes the BOM sealed. */
  lemma {:induction false} SealedWhenGlazed(fs: seq<Frame>, ms: seq<Mullion>, hypot: Hypot, i: int)
    requires forall a: real, b: real :: hypot(a, b) >= 0.0
    requires 0 <= i < |fs| && HasOpening(fs[i]) && GetOr(fs[i].infill, GlassInfill) in {GlassInfill, SolidPanel}
    ensures Sealing(fs, ms, hypot) > 0.0
  {
    FramesSealingBound(fs, i);
    MullionsSealingNonNegative(ms, hypot);
  }

  lemma {:induction false} FramesSealingBound(fs: seq<Frame>, i: int)
    requires 0 <= i < |fs|
    ensures FramesSealing(fs) >= FrameSealing(fs[i])
    decreases |fs|
  {
    var init := fs[..|fs| - 1];
    FramesSealingNonNegative(init);
    if i < |init| {
      assert fs[i] == init[i];
      FramesSealingBound(init, i);
    }
  }

  lemma {:induction false} FramesSealingNonNegative(fs: seq<Frame>)
    ensures FramesSealing(fs) >= 0.0
    decreases |fs|
  {
    if fs != [] { FramesSealingNonNegative(fs[..|fs| - 1]); }
  }

  lemma {:induction false} MullionsSealingNonNegative(ms: seq<Mullion>, hypot: Hypot)
    requires forall a: real, b: real :: hypot(a, b) >= 0.0
    ensures MullionsSealing(ms, hypot) >= 0.0
    decreases |ms|
  {
    if ms != [] { MullionsSealingNonNegative(ms[..|ms| - 1], hypot); }
  }
}
