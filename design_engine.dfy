// The parametric design engine of lib/design-engine.ts: from the design
// parameters it derives the advisory warnings, the outer/inner frame
// rectangles, the sliding tracks, the sash panels with their glass, the cut
// list and the bill of materials.

module DesignEngine {
  import opened Types
  import opened Numeric

  /** PROFILE_THICKNESS: frame profile width per profile type (mm). */
  function ProfileThickness(p: ProfileType): int
  {
    match p
    case Slim => 30
    case Standard => 40
    case HeavyDuty => 60
  }

  /** SASH_SIZE: sash (or glazing bead) width per profile type (mm). */
  function SashSize(p: ProfileType): int
  {
    match p
    case Slim => 35
    case Standard => 45
    case HeavyDuty => 55
  }

  /** Overlap of neighbouring sliding sashes (mm). */
  const PanelOverlap: int := 50

  const Mitre: string := "45° Mitre"

  // ---- Warnings -----------------------------------------------------------

  /**
   * `width / panels > 1800` under IEEE division, written without division:
   * a zero panel count gives +Infinity for a positive width and NaN or
   * -Infinity otherwise (see PanelWidthTooLargeIsDivision).
   */
  predicate PanelWidthTooLarge(width: int, panels: int)
  {
    if panels > 0 then width > 1800 * panels
    else if panels < 0 then width < 1800 * panels
    else width > 0
  }

  lemma PanelWidthTooLargeIsDivision(width: int, panels: int)
    requires panels != 0
    ensures PanelWidthTooLarge(width, panels) <==> (width as real) / (panels as real) > 1800.0
  {
    var w, b := width as real, panels as real;
    var e := w / b - 1800.0;
    assert (1800 * panels) as real == 1800.0 * b;
    if panels > 0 {
      assert e * b == w - 1800.0 * b;
      ProductSign(e, b);
    } else {
      assert (-e) * b == 1800.0 * b - w;
      ProductSign(-e, b);
    }
  }

  /** The condition under which the engine emits each warning. */
  predicate Applies(w: Warning, p: DesignParameters)
  {
    match w
    case TallHeight => p.height > 3200
    case WidePanel => PanelWidthTooLarge(p.width, p.panels)
    case ManyThreeTrackPanels => p.panels > 6 && p.system.Track3?
    case ManyHingedPanels => IsHinged(p.system) && p.panels > 2
    case SlimTooLarge => p.profile.Slim? && (p.height > 2800 || p.width > 5000)
    case FoldableOdd => p.system.Foldable? && p.panels % 2 != 0
    case FixedNeedsOnePanel => p.system.FixedSystem? && p.panels != 1
  }

  /** Position of each warning in the engine's emission order. */
  function Rank(w: Warning): (r: nat)
    ensures r < 7
  {
    match w
    case TallHeight => 0
    case WidePanel => 1
    case ManyThreeTrackPanels => 2
    case ManyHingedPanels => 3
    case SlimTooLarge => 4
    case FoldableOdd => 5
    case FixedNeedsOnePanel => 6
  }

  predicate InEmissionOrder(ws: seq<Warning>)
  {
    forall i, j :: 0 <= i < j < |ws| ==> Rank(ws[i]) < Rank(ws[j])
  }

  predicate RanksBelow(ws: seq<Warning>, k: nat)
  {
    forall i :: 0 <= i < |ws| ==> Rank(ws[i]) < k
  }

  /**
   * After the checks of rank below k: ws is in emission order and holds
   * exactly the applicable warnings checked so far.
   */
  predicate CheckedBelow(ws: seq<Warning>, p: DesignParameters, k: nat)
  {
    InEmissionOrder(ws) && RanksBelow(ws, k) &&
    forall w {:trigger Agrees(ws, p, w)} :: Rank(w) < k ==> Agrees(ws, p, w)
  }

  /** ws holds w exactly when w applies. */
  predicate Agrees(ws: seq<Warning>, p: DesignParameters, w: Warning)
  {
    w in ws <==> Applies(w, p)
  }

  /**
   * One warning check, `if (cond) warnings.push(w)`, where cond is the
   * source's test for w.
   */
  method CheckWarning(ws: seq<Warning>, p: DesignParameters, cond: bool, w: Warning) returns (ws': seq<Warning>)
    requires cond == Applies(w, p)
    requires CheckedBelow(ws, p, Rank(w))
    ensures CheckedBelow(ws', p, Rank(w) + 1)
  {
    ws' := ws;
    if cond {
      ws' := ws' + [w];
    }
    forall v | Rank(v) < Rank(w) + 1
      ensures Agrees(ws', p, v)
    {
      assert Rank(v) < Rank(w) ==> Agrees(ws, p, v);
      if Rank(v) == Rank(w) {
        assert v == w by {
          match v
          case TallHeight => match w { case TallHeight => case _ => }
          case _ =>
        }
      }
    }
  }

  // ---- Layout -------------------------------------------------------------

  function Thickness(p: DesignParameters): real { ProfileThickness(p.profile) as real }
  function Sash(p: DesignParameters): real { SashSize(p.profile) as real }

  function OuterRect(p: DesignParameters): Rect
  {
    Rect(0.0, 0.0, p.width as real, p.height as real)
  }

  function InnerRect(p: DesignParameters): Rect
  {
    Inset(OuterRect(p), Thickness(p))
  }

  /** Distance between neighbouring track lines. */
  function TrackSpacing(p: DesignParameters): real
    requires IsTrackSystem(p.system)
  {
    InnerRect(p).width / LeadingDigit(p.system) as real
  }

  /** The i-th track line (i from 1): vertical, spanning the inner rect. */
  function TrackLine(p: DesignParameters, i: int): Line
    requires IsTrackSystem(p.system)
  {
    var x := Thickness(p) + i as real * TrackSpacing(p);
    Line(x, Thickness(p), x, p.height as real - Thickness(p))
  }

  /**
   * Sash width: sliding sashes share the inner width plus one overlap per
   * joint; the other systems split the inner width evenly.
   */
  function SashWidth(p: DesignParameters): int
    requires p.panels > 0
  {
    if IsTrackSystem(p.system) then
      JsRound((InnerRect(p).width + ((p.panels - 1) * PanelOverlap) as real) / p.panels as real)
    else
      JsRound(InnerRect(p).width / p.panels as real)
  }

  /** Horizontal step from one sash to the next. */
  function SashPitch(p: DesignParameters): int
    requires p.panels > 0
  {
    if IsTrackSystem(p.system) then SashWidth(p) - PanelOverlap else SashWidth(p)
  }

  /** The i-th sash of a non-fixed system and its glass. */
  function SashPanel(p: DesignParameters, i: int): PanelGeometry
    requires p.panels > 0
  {
    var r := Rect(Thickness(p) + (i * SashPitch(p)) as real, Thickness(p),
                  SashWidth(p) as real, InnerRect(p).height);
    PanelGeometry(r, Inset(r, Sash(p)))
  }

  /** The i-th sash sits i pitches right of the inner edge, spans the inner
   *  height, is one sash wide, and holds its glass inside the sash profile. */
  lemma SashPanelPlacement(p: DesignParameters, i: int)
    requires p.panels > 0
    ensures var r := SashPanel(p, i);
            r.panelRect.x == InnerRect(p).x + (i * SashPitch(p)) as real
            && r.panelRect.y == InnerRect(p).y && r.panelRect.height == InnerRect(p).height
            && r.panelRect.width == SashWidth(p) as real
            && r.glassRect == Inset(r.panelRect, Sash(p))
  {
  }

  function SashPart(i: nat, sides: string): string
  {
    "Panel " + NatToString(i) + " Sash (" + sides + ")"
  }

  function HardwareDescription(p: DesignParameters): string
  {
    if p.system.Foldable? then "Foldable System Kit"
    else if IsTrackSystem(p.system) then "Sliding System Kit"
    else if IsHinged(p.system) then
      (if p.system.TiltAndTurn? then "Tilt & Turn" else "Hinge") + " Kit (" + HardwareKey(p.hardware) + ")"
    else HardwareKey(p.hardware) + " style"
  }

  // ---- Running totals as functions of the emitted panels ------------------

  /** Glass area (m²) of a rect, counted only when both sides are positive. */
  function GlassArea(g: Rect): real
  {
    if g.width > 0.0 && g.height > 0.0 then g.width * g.height / 1000000.0 else 0.0
  }

  function TotalGlassArea(ps: seq<PanelGeometry>): real
  {
    if ps == [] then 0.0 else TotalGlassArea(ps[..|ps| - 1]) + GlassArea(ps[|ps| - 1].glassRect)
  }

  /** Sash profile length: the perimeter of every sash. */
  function SashProfileLength(ps: seq<PanelGeometry>): real
  {
    if ps == [] then 0.0
    else
      var r := ps[|ps| - 1].panelRect;
      SashProfileLength(ps[..|ps| - 1]) + 2.0 * r.width + 2.0 * r.height
  }

  /** Sash sealing length, 2·(width + 2·height) per sash. */
  function SashSealLength(ps: seq<PanelGeometry>): real
  {
    if ps == [] then 0.0
    else
      var r := ps[|ps| - 1].panelRect;
      SashSealLength(ps[..|ps| - 1]) + 2.0 * (r.width + 2.0 * r.height)
  }

  /** The two sash cut rows of the i-th sash (counting from 1). */
  function SashCutRows(r: Rect, i: nat, p: DesignParameters): seq<CutItem>
  {
    [CutItem(SashPart(i, "Top/Bottom"), r.width, Mitre, 2, p.profile, p.material),
     CutItem(SashPart(i, "Left/Right"), r.height, Mitre, 2, p.profile, p.material)]
  }

  /** The cut rows of a list of sashes, two per sash, in order. */
  function SashCuts(ps: seq<PanelGeometry>, p: DesignParameters): seq<CutItem>
  {
    if ps == [] then []
    else SashCuts(ps[..|ps| - 1], p) + SashCutRows(ps[|ps| - 1].panelRect, |ps|, p)
  }

  /** Rows 2i and 2i+1 of the sash cuts belong to sash i. */
  lemma {:induction false} SashCutsAt(ps: seq<PanelGeometry>, p: DesignParameters)
    ensures |SashCuts(ps, p)| == 2 * |ps|
    ensures forall i :: 0 <= i < |ps| ==>
              SashCuts(ps, p)[2 * i .. 2 * i + 2] == SashCutRows(ps[i].panelRect, i + 1, p)
    decreases |ps|
  {
    if ps != [] {
      var init := ps[..|ps| - 1];
      SashCutsAt(init, p);
      var c, ci := SashCuts(ps, p), SashCuts(init, p);
      assert c == ci + SashCutRows(ps[|ps| - 1].panelRect, |ps|, p);
      forall i | 0 <= i < |ps|
        ensures c[2 * i .. 2 * i + 2] == SashCutRows(ps[i].panelRect, i + 1, p)
      {
        if i < |init| {
          assert ps[i] == init[i];
          assert c[2 * i .. 2 * i + 2] == ci[2 * i .. 2 * i + 2];
        } else {
          assert c[2 * i .. 2 * i + 2] == c[|ci|..];
        }
      }
    }
  }

  lemma TotalsAppend(ps: seq<PanelGeometry>, q: PanelGeometry)
    ensures TotalGlassArea(ps + [q]) == TotalGlassArea(ps) + GlassArea(q.glassRect)
    ensures SashProfileLength(ps + [q]) == SashProfileLength(ps) + 2.0 * q.panelRect.width + 2.0 * q.panelRect.height
    ensures SashSealLength(ps + [q]) == SashSealLength(ps) + 2.0 * (q.panelRect.width + 2.0 * q.panelRect.height)
  {
    assert (ps + [q])[..|ps|] == ps;
  }

  // ---- The engine ---------------------------------------------------------

  /** The warning checks and the fixed-system correction (lines 20-44). */
  method CollectWarnings(params: DesignParameters) returns (warnings: seq<Warning>, corrected: DesignParameters)
    ensures forall w :: w in warnings <==> Applies(w, params)
    ensures InEmissionOrder(warnings)
    ensures corrected == if params.system.FixedSystem? then params.(panels := 1) else params
  {
    var p := params;
    warnings := [];
    warnings := CheckWarning(warnings, p, p.height > 3200, TallHeight);
    warnings := CheckWarning(warnings, p, PanelWidthTooLarge(p.width, p.panels), WidePanel);
    warnings := CheckWarning(warnings, p, p.panels > 6 && p.system.Track3?, ManyThreeTrackPanels);
    warnings := CheckWarning(warnings, p, IsHinged(p.system) && p.panels > 2, ManyHingedPanels);
    warnings := CheckWarning(warnings, p, p.profile.Slim? && (p.height > 2800 || p.width > 5000), SlimTooLarge);
    warnings := CheckWarning(warnings, p, p.system.Foldable? && p.panels % 2 != 0, FoldableOdd);
    var mustFix := p.system.FixedSystem? && p.panels != 1;
    warnings := CheckWarning(warnings, p, mustFix, FixedNeedsOnePanel);
    forall w
      ensures w in warnings <==> Applies(w, params)
    {
      assert Agrees(warnings, params, w);
    }
    if mustFix {
      p := p.(panels := 1);
    }
    corrected := p;
  }

  /**
   * The single glazed panel of a fixed system (lines 95-116): the panel is
   * the inner frame, the glass is inset by the sash size, and only a glass
   * of positive size adds to the glass area.
   */
  method LayFixedPanel(p: DesignParameters) returns (panels: seq<PanelGeometry>, glass: real, seal: real)
    ensures var inner := InnerRect(p);
      panels == [PanelGeometry(inner, Inset(inner, Sash(p)))]
    ensures glass == TotalGlassArea(panels)
    ensures seal == 2.0 * (panels[0].glassRect.width + panels[0].glassRect.height)
  {
    var t := Thickness(p);
    var inner := InnerRect(p);
    var panelRect := Rect(t, t, inner.width, inner.height);
    var glassRect := Inset(panelRect, Sash(p));
    panels := [PanelGeometry(panelRect, glassRect)];
    glass := 0.0;
    if glassRect.width > 0.0 && glassRect.height > 0.0 {
      glass := glass + glassRect.width * glassRect.height / 1000000.0;
    }
    seal := 2.0 * (glassRect.width + glassRect.height);
    assert panels == [] + [PanelGeometry(panelRect, glassRect)];
    TotalsAppend([], PanelGeometry(panelRect, glassRect));
  }

  /** The track lines of a sliding system (lines 65-79). */
  method LayTracks(p: DesignParameters) returns (tracks: seq<Line>)
    ensures !IsTrackSystem(p.system) ==> tracks == []
    ensures IsTrackSystem(p.system) ==>
              |tracks| == LeadingDigit(p.system) - 1 &&
              forall i :: 0 <= i < |tracks| ==> tracks[i] == TrackLine(p, i + 1)
  {
    tracks := [];
    if IsTrackSystem(p.system) {
      var numTracks := LeadingDigit(p.system);
      if numTracks > 1 {
        var i := 1;
        while i < numTracks
          invariant 1 <= i <= numTracks
          invariant |tracks| == i - 1
          invariant forall k :: 0 <= k < |tracks| ==> tracks[k] == TrackLine(p, k + 1)
        {
          tracks := tracks + [TrackLine(p, i)];
          i := i + 1;
        }
      }
    }
  }

  /** The sashes of a non-fixed system with their cut rows and running totals (lines 117-171). */
  method LaySashes(p: DesignParameters)
    returns (panels: seq<PanelGeometry>, cuts: seq<CutItem>, glassArea: real, sashLength: real, sealLength: real)
    ensures |panels| == MaxI(0, p.panels)
    ensures forall i :: 0 <= i < |panels| ==> panels[i] == SashPanel(p, i)
    ensures cuts == SashCuts(panels, p)
    ensures glassArea == TotalGlassArea(panels)
    ensures sashLength == SashProfileLength(panels)
    ensures sealLength == SashSealLength(panels)
  {
    panels, cuts := [], [];
    glassArea, sashLength, sealLength := 0.0, 0.0, 0.0;
    var i := 0;
    while i < p.panels
      invariant 0 <= i <= MaxI(0, p.panels)
      invariant |panels| == i
      invariant forall k :: 0 <= k < i ==> panels[k] == SashPanel(p, k)
      invariant cuts == SashCuts(panels, p)
      invariant glassArea == TotalGlassArea(panels)
      invariant sashLength == SashProfileLength(panels)
      invariant sealLength == SashSealLength(panels)
    {
      var panel := SashPanel(p, i);
      TotalsAppend(panels, panel);
      assert (panels + [panel])[..|panels|] == panels;
      panels := panels + [panel];
      cuts := cuts + [CutItem(SashPart(i + 1, "Top/Bottom"), panel.panelRect.width, Mitre, 2, p.profile, p.material)];
      cuts := cuts + [CutItem(SashPart(i + 1, "Left/Right"), panel.panelRect.height, Mitre, 2, p.profile, p.material)];
      sashLength := sashLength + 2.0 * panel.panelRect.width + 2.0 * panel.panelRect.height;
      sealLength := sealLength + 2.0 * (panel.panelRect.width + 2.0 * panel.panelRect.height);
      if panel.glassRect.width > 0.0 && panel.glassRect.height > 0.0 {
        glassArea := glassArea + panel.glassRect.width * panel.glassRect.height / 1000000.0;
      }
      i := i + 1;
    }
  }

  /** The profile length of the outer frame, its perimeter 2·width + 2·height. */
  function OuterFrameLength(p: DesignParameters): real
  {
    2.0 * (p.width as real) + 2.0 * (p.height as real)
  }

  /** The bill of materials from the running totals (lines 174-191). */
  method BuildBom(p: DesignParameters, frameLength: real, glassArea: real, sealLength: real)
    returns (bom: seq<BomItem>)
    ensures |bom| == if p.system.FixedSystem? then 3 else 4
    ensures bom[0] == BomItem("Frame Profile", MaterialName(p.material) + " Profile (" + ProfileKey(p.profile) + ")",
                              Fixed2(frameLength / 1000.0), "m")
    ensures bom[1] == BomItem("Glass Panel", GlassKey(p.glass), Fixed2(glassArea), "m²")
    ensures !p.system.FixedSystem? ==>
              bom[2] == BomItem("Hardware Kit", HardwareDescription(p), p.panels as real, "sets")
    ensures bom[|bom| - 1] == BomItem("Weather Stripping", "EPDM Seal", Fixed2(sealLength / 1000.0), "m")
  {
    bom := [];
    var materialName := MaterialName(p.material);
    bom := bom + [BomItem("Frame Profile", materialName + " Profile (" + ProfileKey(p.profile) + ")",
                          Fixed2(frameLength / 1000.0), "m")];
    bom := bom + [BomItem("Glass Panel", GlassKey(p.glass), Fixed2(glassArea), "m²")];
    if !p.system.FixedSystem? {
      bom := bom + [BomItem("Hardware Kit", HardwareDescription(p), p.panels as real, "sets")];
    }
    bom := bom + [BomItem("Weather Stripping", "EPDM Seal", Fixed2(sealLength / 1000.0), "m")];
  }

  /**
   * What runDesignEngine returns for `params`: exactly the applicable
   * warnings in emission order, the panel count after the fixed-system
   * correction, the frame, the tracks, the sashes, the cut list and the bill
   * of materials, each in closed form.
   */
  predicate EngineResultFor(params: DesignParameters, geometry: Geometry, warnings: seq<Warning>,
                            outputs: ProjectOutput, panelCount: int)
  {
    // warnings: exactly the applicable ones, in emission order
    (forall w :: w in warnings <==> Applies(w, params))
    && InEmissionOrder(warnings)
    // fixed-system correction
    && panelCount == (if params.system.FixedSystem? then 1 else params.panels)
    // frame rectangles
    && geometry.frame.outer == Rect(0.0, 0.0, params.width as real, params.height as real)
    && geometry.frame.inner == Inset(geometry.frame.outer, ProfileThickness(params.profile) as real)
    // tracks: only for sliding systems, one fewer than the track count
    && (!IsTrackSystem(params.system) ==> geometry.tracks == [])
    && (IsTrackSystem(params.system) ==>
          |geometry.tracks| == LeadingDigit(params.system) - 1 &&
          forall i :: 0 <= i < |geometry.tracks| ==> geometry.tracks[i] == TrackLine(params, i + 1))
    // panels
    && (params.system.FixedSystem? ==>
          geometry.panels == [PanelGeometry(geometry.frame.inner, Inset(geometry.frame.inner, Sash(params)))])
    && (!params.system.FixedSystem? ==> |geometry.panels| == MaxI(0, params.panels))
    && (!params.system.FixedSystem? ==>
          forall i :: 0 <= i < |geometry.panels| ==> geometry.panels[i] == SashPanel(params, i))
    // cut list: the two outer-frame rows, then two rows per sash (see SashCutsAt)
    && outputs.cutList ==
         [CutItem("Outer Frame (Top/Bottom)", params.width as real, Mitre, 2, params.profile, params.material),
          CutItem("Outer Frame (Left/Right)", params.height as real, Mitre, 2, params.profile, params.material)]
         + (if params.system.FixedSystem? then [] else SashCuts(geometry.panels, params))
    // bill of materials
    && |outputs.bom| == (if params.system.FixedSystem? then 3 else 4)
    && outputs.bom[0] ==
         BomItem("Frame Profile", MaterialName(params.material) + " Profile (" + ProfileKey(params.profile) + ")",
                 Fixed2((OuterFrameLength(params)
                         + (if params.system.FixedSystem? then 0.0 else SashProfileLength(geometry.panels))) / 1000.0),
                 "m")
    && outputs.bom[1] ==
         BomItem("Glass Panel", GlassKey(params.glass), Fixed2(TotalGlassArea(geometry.panels)), "m²")
    && (!params.system.FixedSystem? ==>
          outputs.bom[2] == BomItem("Hardware Kit", HardwareDescription(params), params.panels as real, "sets"))
    && outputs.bom[|outputs.bom| - 1] ==
         BomItem("Weather Stripping", "EPDM Seal",
                 Fixed2((if params.system.FixedSystem?
                         then 2.0 * (geometry.panels[0].glassRect.width + geometry.panels[0].glassRect.height)
                         else SashSealLength(geometry.panels)) / 1000.0),
                 "m")
  }

  /** The panels the engine lays out: one for a fixed window, one per panel otherwise. */
  lemma EnginePanelCount(params: DesignParameters, g: Geometry, ws: seq<Warning>, o: ProjectOutput, n: int)
    requires EngineResultFor(params, g, ws, o, n)
    ensures |g.panels| == (if params.system.FixedSystem? then 1 else MaxI(0, params.panels))
    ensures params.width > 0 && params.height > 0 ==> g.frame.outer.width > 0.0 && g.frame.outer.height > 0.0
  {
  }

  /** runDesignEngine; see EngineResultFor. */
  method RunDesignEngine(params: DesignParameters)
    returns (geometry: Geometry, warnings: seq<Warning>, outputs: ProjectOutput, panelCount: int)
    ensures EngineResultFor(params, geometry, warnings, outputs, panelCount)
  {
    var p;
    warnings, p := CollectWarnings(params);
    panelCount := p.panels;

    var frame := FrameGeometry(OuterRect(p), InnerRect(p));
    var tracks := LayTracks(p);

    var panels: seq<PanelGeometry> := [];
    var totalGlassArea := 0.0;
    var totalFrameLength := 0.0;
    var totalSealingLength := 0.0;
    var cutList: seq<CutItem> := [];
    var bom: seq<BomItem>;

    cutList := cutList + [CutItem("Outer Frame (Top/Bottom)", p.width as real, Mitre, 2, p.profile, p.material)];
    cutList := cutList + [CutItem("Outer Frame (Left/Right)", p.height as real, Mitre, 2, p.profile, p.material)];
    totalFrameLength := totalFrameLength + OuterFrameLength(p);

    if p.system.FixedSystem? {
      var glass, seal;
      panels, glass, seal := LayFixedPanel(p);
      totalGlassArea := totalGlassArea + glass;
      totalSealingLength := totalSealingLength + seal;
    } else {
      var sashCuts, glass, sashLength, seal;
      panels, sashCuts, glass, sashLength, seal := LaySashes(p);
      cutList := cutList + sashCuts;
      totalGlassArea := totalGlassArea + glass;
      totalFrameLength := totalFrameLength + sashLength;
      totalSealingLength := totalSealingLength + seal;
    }

    bom := BuildBom(p, totalFrameLength, totalGlassArea, totalSealingLength);

    geometry := Geometry(frame, tracks, panels);
    outputs := ProjectOutput(bom, cutList);
  }

  // ---- Layout properties --------------------------------------------------

  /** Neighbouring sliding sashes overlap by exactly the 50 mm overlap. */
  lemma SlidingNeighboursOverlap(p: DesignParameters, i: int)
    requires IsTrackSystem(p.system) && p.panels > 0
    ensures SashPanel(p, i).panelRect.x + SashPanel(p, i).panelRect.width - SashPanel(p, i + 1).panelRect.x
            == PanelOverlap as real
  {
    assert (i + 1) * SashPitch(p) == i * SashPitch(p) + SashPitch(p);
  }

  /** Neighbouring hinged, foldable or custom sashes abut without overlap. */
  lemma LeavesAbut(p: DesignParameters, i: int)
    requires !IsTrackSystem(p.system) && p.panels > 0
    ensures SashPanel(p, i).panelRect.x + SashPanel(p, i).panelRect.width == SashPanel(p, i + 1).panelRect.x
  {
    assert (i + 1) * SashPitch(p) == i * SashPitch(p) + SashPitch(p);
  }

  /** n·round(x/n) is within n/2 of x. */
  lemma RoundedShareSpan(x: real, n: int)
    requires n > 0
    ensures x - (n as real) / 2.0 < (n * JsRound(x / n as real)) as real <= x + (n as real) / 2.0
  {
    var q := x / n as real;
    var r := JsRound(q);
    var m := n as real;
    assert q * m == x;
    assert (r as real - q) * m == (n * r) as real - x;
    assert (r as real - q + 0.5) * m == (n * r) as real - x + m / 2.0;
    assert (q + 0.5 - r as real) * m == x + m / 2.0 - (n * r) as real;
    ProductSign(r as real - q + 0.5, m);
    if q + 0.5 - r as real != 0.0 {
      ProductSign(q + 0.5 - r as real, m);
    }
  }

  /**
   * The rightmost sliding sash ends within panels/2 mm of the inner
   * frame's right edge: rounding the shared width is the only error.
   */
  lemma SlidingRowSpan(p: DesignParameters)
    requires IsTrackSystem(p.system) && p.panels > 0
    ensures var last := SashPanel(p, p.panels - 1).panelRect;
            var innerRight := InnerRect(p).x + InnerRect(p).width;
            -(p.panels as real) / 2.0 < last.x + last.width - innerRight <= (p.panels as real) / 2.0
  {
    var n := p.panels;
    var pw := SashWidth(p);
    RoundedShareSpan(InnerRect(p).width + ((n - 1) * PanelOverlap) as real, n);
    assert (n - 1) * (pw - PanelOverlap) + pw == n * pw - (n - 1) * PanelOverlap;
  }

  /** The rightmost hinged sash ends within panels/2 mm of the inner right edge. */
  lemma LeafRowSpan(p: DesignParameters)
    requires !IsTrackSystem(p.system) && p.panels > 0
    ensures var last := SashPanel(p, p.panels - 1).panelRect;
            var innerRight := InnerRect(p).x + InnerRect(p).width;
            -(p.panels as real) / 2.0 < last.x + last.width - innerRight <= (p.panels as real) / 2.0
  {
    var n := p.panels;
    var pw := SashWidth(p);
    RoundedShareSpan(InnerRect(p).width, n);
    assert (n - 1) * pw + pw == n * pw;
  }

  /** Track lines lie strictly inside the inner rect, evenly spaced. */
  lemma TracksInsideInner(p: DesignParameters, i: int)
    requires IsTrackSystem(p.system) && 1 <= i < LeadingDigit(p.system)
    requires InnerRect(p).width > 0.0
    ensures InnerRect(p).x < TrackLine(p, i).x1 < InnerRect(p).x + InnerRect(p).width
    ensures TrackLine(p, i).x1 == TrackLine(p, i).x2
    ensures TrackLine(p, i).y1 == InnerRect(p).y && TrackLine(p, i).y2 == InnerRect(p).y + InnerRect(p).height
  {
    var n := LeadingDigit(p.system) as real;
    var sp := TrackSpacing(p);
    assert sp * n == InnerRect(p).width;
    assert sp > 0.0 by { ProductSign(sp, n); }
    assert i as real * sp < n * sp by {
      assert (n - i as real) * sp == n * sp - i as real * sp;
      ProductSign(n - i as real, sp);
    }
  }

  /** All sashes with the same size. */
  predicate UniformSashes(ps: seq<PanelGeometry>, g: PanelGeometry)
  {
    forall i :: 0 <= i < |ps| ==>
      ps[i].panelRect.width == g.panelRect.width && ps[i].panelRect.height == g.panelRect.height &&
      ps[i].glassRect.width == g.glassRect.width && ps[i].glassRect.height == g.glassRect.height
  }

  /** For equal sashes each running total is the per-sash amount times their number. */
  lemma {:induction false} UniformTotals(ps: seq<PanelGeometry>, g: PanelGeometry)
    requires UniformSashes(ps, g)
    ensures SashProfileLength(ps) == |ps| as real * (2.0 * g.panelRect.width + 2.0 * g.panelRect.height)
    ensures SashSealLength(ps) == |ps| as real * (2.0 * (g.panelRect.width + 2.0 * g.panelRect.height))
    ensures TotalGlassArea(ps) == |ps| as real * GlassArea(g.glassRect)
    decreases |ps|
  {
    if ps != [] {
      var init := ps[..|ps| - 1];
      assert UniformSashes(init, g) by {
        forall i | 0 <= i < |init| ensures init[i] == ps[i] { }
      }
      UniformTotals(init, g);
      var last := ps[|ps| - 1];
      assert GlassArea(last.glassRect) == GlassArea(g.glassRect);
      assert |ps| as real == |init| as real + 1.0;
    }
  }

  /** The sashes a non-fixed engine run lays out all have one size. */
  lemma SashesUniform(p: DesignParameters, ps: seq<PanelGeometry>)
    requires p.panels > 0
    requires forall i :: 0 <= i < |ps| ==> ps[i] == SashPanel(p, i)
    ensures UniformSashes(ps, SashPanel(p, 0))
  {
  }
}
