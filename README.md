# Glass billing: verified model of the design core

This project is a Dafny model of the design core of the glass billing application. It covers five parts.

- **Parametric design engine.** It turns a window or door's dimensions and system into a frame, tracks and panels, then warnings, a cut list and a bill of materials.
- **Design store.** It keeps the saved designs and the active one.
- **2D and 3D parametric views and the custom 3D view.** The model covers their opening and sliding rules.
- **Quotation page arithmetic.**
- **Custom 2D canvas editor.** This is a small vector editor over frames, mullions, dimensions and text boxes, with undo and redo.

Every operation has a contract. Lemmas beside the operations prove the properties the application relies on.

| module (file) | models |
|---|---|
| `Types` (types.dfy) | the records of `src/lib/types.ts`: design parameters, geometry, outputs, warnings, the four canvas element kinds as one tagged datatype, the selection, the saved design; `OpenState` is the subset 0..2 |
| `Numeric` (numeric.dfy) | JavaScript number behaviour the core depends on: `Math.round`, `toFixed(2)` and `toFixed(1)` as round-half-up to hundredths and tenths, clamps, `%`, decimal rendering of integers, `includes`, and the hole-filling array write |
| `Quotation` (quotation.dfy) | `calculateArea`, the default rate, per-row amounts and the totals of `src/components/project/project-quotation.tsx` |
| `DesignEngine` (design_engine.dfy) | `runDesignEngine` of `lib/design-engine.ts` as a method with loops, each loop proved against a closed-form function, plus layout lemmas |
| `DesignStore` (design_store.dfy) | the store of `store/use-design-store.ts` as class `Store` with fields `designs`, `activeDesignId`, `isProcessing` and the custom canvas view (`canvasPan`, `canvasZoom`); the per-design updates are pure functions |
| `Visualization` (visualization.dfy) | the 2D parametric view of `src/components/design/visualization.tsx`: hinge and pivot rules, wheel zoom and reset as values, and class `ParametricView` for the viewBox, the dragged panel and the offsets |
| `ThreeDVisualization` (three_d_visualization.dfy) | the 3D view of `src/components/design/3d-visualization.tsx`: custom-frame swing, parametric panel opening, track depth, click gating, view choice, and class `SlidingDrag` for the pointer drag |
| `CanvasScene` (canvas_scene.dfy) | the editor's scene (four element lists), patches, cascade delete and thickness steps |
| `CanvasGeometry` (canvas_geometry.dfy) | world/screen transform, grid snapping, `isPointOnLine`, element centres, rotation of a point, handles, and the zoom buttons and wheel |
| `CanvasHistory` (canvas_history.dfy) | the snapshot history as values, and class `EditHistory` for `recordHistory`, `handleUndo`, `handleRedo` and the in-progress flag |
| `CanvasOutputs` (canvas_outputs.dfy) | the effect that recomputes the custom design's bill of materials and cut list, written as a method with loops and proved against the pure `SceneOutputs` |
| `CanvasEditing` (canvas_editing.dfy) | the scene-level rules of the mouse handlers: hit-test priority, drawing, dragging with children, resizing with dimension regeneration, rotation, painting and the end of a drawing |
| `CanvasEditor` (canvas_editor.dfy) | the editor component as class `CustomEditor`: tool, mode, selection, drag state, view and history, with `MouseDown`, `MouseMove`, `MouseUp`, delete, thickness, undo, redo, clear and zoom |

Some services are taken as parameters instead of being modelled:

- Cosine and sine are a parameter `Trig`, which maps degrees to a pair.
- `Math.hypot` is a parameter `Hypot`.
- `Math.atan2` enters as the pointer's bearing.
- Fresh ids and time stamps are string inputs.
- Coordinates are real numbers.
- A comparison `hypot(...) < k` is written as a comparison of squares.

## Behaviours of the code worth knowing (the model follows the code)

- **Mullion rows of the custom bill of materials.** For each mullion, the lookup at `src/components/design/custom-design-canvas.tsx:168` asks whether a Mullion Profile row's description, such as `Aluminum Profile (standard)`, includes the lower-case material name `aluminum`. The comparison is case-sensitive, so it never succeeds (`CanvasOutputs.MullionLookupNeverMatches`). Each mullion therefore pushes its own row. Rows of one material are merged only by the final consolidation, which rounds every row to hundredths before adding it. The merge branch at lines 169-170 shows that one running row per material was meant.
  - `CanvasOutputs.AddMullionsMerged` models that intent: its lookup matches the row's exact description.
  - `CanvasOutputs.MergedLookupGroupsByMaterial` proves that it appends to the frames' rows exactly one Mullion Profile row per material, in first-use order, holding that material's total length.
  - `CanvasOutputs.MergedLookupOneRowPerMaterial` proves that no two Mullion Profile rows then share a description.
  - The effect itself, `CanvasOutputs.SceneOutputs`, keeps the code's lookup.
- **Clear and the history.** `handleClear` (1457-1460) empties the scene and the selection but records no history entry. The model's `Clear` leaves the history alone, so an undo after it returns to the entry before the last recorded edit. A recording that finds its snapshot equal to the current entry drops the redo tail but leaves `canRedo` as it was.
- **Records hold the rendered scene.** A paint press, a delete, a thickness step and the end of an operation record the scene from before their own change (see the stale-closure line under "Left out").
  - Drawing a dimension, clicking it and pressing Delete records the scene that still holds it. That scene is already on top of the history, so nothing is added (`CanvasHistory.StaleRecordAddsNothing`). The next undo then goes back before the dimension was drawn, and the dimension stays deleted.
  - A frame's mouse-up records the scene without the two automatic dimensions that 1394-1407 adds. Undo followed by redo then brings the frame back without them.
- **Snapping.** Frame drawing and frame and text-box moves snap to the grid. A text box being drawn has its corner follow the pointer unsnapped (1059-1080).
- **Children of a moved frame.** The frame snaps, but its children move by the raw pointer delta (1109-1145). Their offset from the frame therefore changes by the snap correction (`CanvasEditing.FrameDragChildOffset`).

## Model

| member | source | states |
|---|---|---|
| `Types.LeadingDigit` | lib/design-engine.ts:67 | the track count read from a sliding system's name is between 2 and 5 |
| `Numeric.JsRound` | lib/design-engine.ts:120 | `Math.round` lands within half a unit of its argument, halves going up |
| `Numeric.Fixed2` | lib/design-engine.ts:176-177 | `parseFloat(x.toFixed(2))` is a whole number of hundredths within 0.005 of x |
| `Numeric.Fixed2OfHundredths` | lib/design-engine.ts:191 | rounding a quantity that is already in hundredths leaves it unchanged |
| `Numeric.Fixed2Idempotent` | lib/design-engine.ts:176 | rounding to hundredths twice is rounding once |
| `Numeric.Fixed1` | src/components/design/custom-design-canvas.tsx:175 | `parseFloat(x.toFixed(1))` is a whole number of tenths within 0.05 of x |
| `Numeric.ClampR` | src/components/design/3d-visualization.tsx:269 | `Math.max(lo, Math.min(x, hi))` lies in [lo, hi], is x inside it, and is lo when the bounds cross |
| `Numeric.ClampI` | store/use-design-store.ts:131-133 | the integer clamp lies in its bounds, keeps an in-range value, and snaps to the violated bound |
| `Numeric.NatToString` | lib/design-engine.ts:138 | a template literal prints a natural number as one or more decimal digits |
| `Numeric.IntToString` | src/components/design/custom-design-canvas.tsx:1400 | the decimal rendering of an integer has a leading minus exactly when it is negative |
| `Numeric.IncludesFirstChar` | lib/design-engine.ts:61 | a string that includes a non-empty substring holds its first character early enough for it to fit |
| `Numeric.IncludesEveryChar` | src/components/design/custom-design-canvas.tsx:168 | every character of an included substring occurs in the string |
| `Numeric.JsRem` | store/use-design-store.ts:243 | JavaScript's `%` agrees with the Euclidean remainder on non-negative operands and stays strictly between -b and b |
| `Numeric.Filled` | store/use-design-store.ts:30-31 | `Array(n).fill(x)` has n entries, each x |
| `Numeric.JsArrayWrite` | store/use-design-store.ts:245-250 | writing index i of a copied array sets entry i, keeps every other entry, and pads a write past the end with holes |
| `Numeric.JsArrayRead` | src/components/design/3d-visualization.tsx:330 | `a[i] ?? 0` reads the entry at an index inside the array and the hole value past its end |
| `Numeric.JsArrayReadAfterWrite` | store/use-design-store.ts:245-250 | reading a written array gives the written value at its index and what the old array read everywhere else |
| `Quotation.CalculateArea` | src/components/project/project-quotation.tsx:25-30 | a design's width and height in mm become square feet, never negative for non-negative sides |
| `Quotation.RateOf` | src/components/project/project-quotation.tsx:38 | `design.rate \|\| 360`: a set, non-zero rate is used, otherwise the default 360 |
| `Quotation.AmountOf` | src/components/project/project-quotation.tsx:39 | a row's amount is its area times its rate |
| `Quotation.Row` | src/components/project/project-quotation.tsx:104-117 | a table row is numbered from 1, has quantity 1, and shows the design's area, rate (`rate \|\| 360`) and amount each rounded to two decimals, within half a hundredth of the exact value |
| `Quotation.Rows` | src/components/project/project-quotation.tsx:103-119 | the table has one row per design, in order |
| `Quotation.Totals` | src/components/project/project-quotation.tsx:32-42 | the accumulating loop gives the design count and the sums of the unrounded areas and amounts |
| `Quotation.TotalsSplit` | src/components/project/project-quotation.tsx:36-42 | the totals add up over any split of the design list |
| `Quotation.TotalAreaNonNegative` | src/components/project/project-quotation.tsx:40 | with non-negative sides the total area is not negative |
| `Quotation.DefaultRateTotal` | src/components/project/project-quotation.tsx:38-41 | when no design sets a rate, the total amount is 360 times the total area |
| `DesignEngine.PanelWidthTooLargeIsDivision` | lib/design-engine.ts:26 | the integer form of the panel-width warning agrees with `width / panels > 1800` whenever panels is not zero |
| `DesignEngine.Rank` | lib/design-engine.ts:23-44 | each of the seven warnings has a place in the emission order |
| `DesignEngine.CheckWarning` | lib/design-engine.ts:23-42 | one `if (cond) warnings.push(w)` step keeps the list exact for every warning checked so far |
| `DesignEngine.SashCutsAt` | lib/design-engine.ts:138-139 | the sash cut list has two rows per sash, and rows 2i and 2i+1 belong to sash i |
| `DesignEngine.TotalsAppend` | lib/design-engine.ts:140-144 | laying one more sash adds its glass area, profile length and seal length to the running totals |
| `DesignEngine.CollectWarnings` | lib/design-engine.ts:20-44 | the warnings are exactly the ones whose conditions hold, in emission order; a fixed system's panel count becomes 1 |
| `DesignEngine.LayTracks` | lib/design-engine.ts:65-79 | only a sliding system has track lines: one fewer than its track count, evenly spaced |
| `DesignEngine.LayFixedPanel` | lib/design-engine.ts:95-116 | a fixed system's one panel is the inner frame with the glass inset by the sash size; glass area counts only a positive glass, and the seal runs round the glass |
| `DesignEngine.LaySashes` | lib/design-engine.ts:117-171 | a non-fixed system gets one sash per panel (none for a non-positive count), their cut rows, and running totals equal to the sums over the sashes |
| `DesignEngine.SashPanelPlacement` | lib/design-engine.ts:124-135 | the i-th sash starts i pitches right of the inner edge, spans the inner height, is one sash width wide, and its glass is the sash inset by the sash profile |
| `DesignEngine.BuildBom` | lib/design-engine.ts:174-191 | the bill has frame profile, glass, hardware (not for fixed) and weather stripping, with quantities rounded to hundredths |
| `DesignEngine.RunDesignEngine` | lib/design-engine.ts:19-197 | the whole engine: warnings, corrected panel count, frame, tracks, panels, cut list and bill of materials, each in closed form |
| `DesignEngine.EnginePanelCount` | lib/design-engine.ts:92-171 | an engine result has one panel for a fixed system and the non-negative panel count otherwise, and a frame of positive size for positive sides |
| `DesignEngine.SlidingNeighboursOverlap` | lib/design-engine.ts:118-125 | neighbouring sliding sashes overlap by exactly 50 mm |
| `DesignEngine.LeavesAbut` | lib/design-engine.ts:147-151 | neighbouring hinged or folding sashes abut with no gap and no overlap |
| `DesignEngine.RoundedShareSpan` | lib/design-engine.ts:120 | n times the rounded share of x is within n/2 of x |
| `DesignEngine.SlidingRowSpan` | lib/design-engine.ts:118-128 | the last sliding sash ends within panels/2 mm of the inner frame's right edge |
| `DesignEngine.LeafRowSpan` | lib/design-engine.ts:147-155 | the last hinged sash ends within panels/2 mm of the inner frame's right edge |
| `DesignEngine.TracksInsideInner` | lib/design-engine.ts:69-76 | each track is a vertical line strictly inside the inner frame, spanning its height |
| `DesignEngine.UniformTotals` | lib/design-engine.ts:140-144 | for equal sashes each running total is the per-sash amount times the number of sashes |
| `DesignEngine.SashesUniform` | lib/design-engine.ts:120-135 | every sash the engine lays out for a system has the same size |
| `DesignStore.IdSuffix` | store/use-design-store.ts:24 | `id.substring(id.length - 4)` is the last four characters, or the whole of a shorter id |
| `DesignStore.NewDesign` | store/use-design-store.ts:8-38 | a new design has the default 3-track parameters, its name from the id's suffix, no results, one closed state and zero offset per panel, rate 360 and empty custom collections |
| `DesignStore.ClampPanels` | store/use-design-store.ts:124-136 | fixed systems get one panel, hinged ones 1 to 4, sliding and foldable ones 2 to 8, custom at least 1; a count already in range is kept |
| `DesignStore.ClampPanelsIdempotent` | store/use-design-store.ts:128-136 | clamping a clamped count changes nothing |
| `DesignStore.MergeParameters` | store/use-design-store.ts:122 | `{ ...params, ...patch }`: every field the patch sets takes the patch's value, every other field is kept |
| `DesignStore.MergeParametersIdempotent` | store/use-design-store.ts:122 | applying the same patch a second time changes nothing |
| `DesignStore.ClampedFixedNeedsNoCorrection` | store/use-design-store.ts:128-129 | a fixed design from the store never triggers the engine's one-panel warning |
| `DesignStore.UpdatedParameters` | store/use-design-store.ts:122-136 | the patch is merged over the old parameters and the panel count is then clamped for the new system |
| `DesignStore.WithParameters` | store/use-design-store.ts:138-148 | entering the custom system drops the parametric results, leaving it drops the custom elements, otherwise only the parameters change |
| `DesignStore.WithElements` | store/use-design-store.ts:173-179 | each given collection replaces the design's, every other field is kept |
| `DesignStore.WithOwnElementsIsIdentity` | store/use-design-store.ts:175-178 | setting every collection to its current value leaves the design unchanged |
| `DesignStore.NextOpenState` | store/use-design-store.ts:243 | `(s + 1) % 3` cycles closed, open, tilted and back, never staying put |
| `DesignStore.OpenStateCycle` | store/use-design-store.ts:250 | three clicks bring an open state back |
| `DesignStore.ToggledStates` | store/use-design-store.ts:235-251 | a foldable click writes the clicked panel's next state to both panels of its pair; any other click advances that panel alone |
| `DesignStore.ToggleSingle` | store/use-design-store.ts:249-251 | a non-foldable click advances the clicked panel and leaves every other panel alone |
| `DesignStore.FoldablePairMoves` | store/use-design-store.ts:237-248 | a foldable click moves the whole pair to the next state and leaves the other panels alone |
| `DesignStore.ThreeTogglesRestore` | store/use-design-store.ts:235-251 | three clicks on one panel restore every state, for paired foldable states too |
| `DesignStore.ToggledFrame` | store/use-design-store.ts:280-286 | only the operable frame with that id advances its open state |
| `DesignStore.ToggledFrames` | store/use-design-store.ts:280-287 | the frame list keeps its length, with each frame toggled or kept |
| `DesignStore.ToggleFramesTouchesOnlyTarget` | store/use-design-store.ts:280-287 | frames with another id are unchanged; a toggled frame keeps its id, position, size and opening |
| `DesignStore.Reconciled` | store/use-design-store.ts:203-211 | the stored array is kept when its length matches the panel count, otherwise zero-filled to that length |
| `DesignStore.EditWhere` | store/use-design-store.ts:111 | `designs.map(d => d.id === id ? edit(d) : d)` edits exactly the designs with that id |
| `DesignStore.ApplyEditKeepsId` | store/use-design-store.ts:160 | no edit changes a design's id |
| `DesignStore.EditWhereTouchesOnlyTarget` | store/use-design-store.ts:120-151 | an edit keeps every id and every design with another id |
| `DesignStore.ApplyEditKeepsPanelsPositive` | store/use-design-store.ts:128-136 | no edit makes a panel count drop below one |
| `DesignStore.FindDesign` | store/use-design-store.ts:227 | `designs.find` gives a design with that id, or none exists |
| `DesignStore.WithoutDesign` | store/use-design-store.ts:96 | `designs.filter(d => d.id !== id)` keeps exactly the designs with another id |
| `DesignStore.EditWherePreservesPanels` | store/use-design-store.ts:119-152 | every design keeps at least one panel after any edit |
| `DesignStore.WithoutDesignPreservesPanels` | store/use-design-store.ts:96 | removing designs keeps every remaining design's panel count at least one |
| `DesignStore.Store.constructor` | store/use-design-store.ts:70-76 | the store starts with no designs, nothing active, processing on, pan (0, 0) and zoom 1 |
| `DesignStore.Store.Initialize` | store/use-design-store.ts:78-87 | an empty store gets one fresh design, which becomes active; a non-empty one is left alone |
| `DesignStore.Store.AddDesign` | store/use-design-store.ts:89-92 | the new design is appended and becomes active |
| `DesignStore.Store.RemoveDesign` | store/use-design-store.ts:94-103 | the designs with that id go; if the active one went, the first remaining design (or none) becomes active |
| `DesignStore.Store.SelectDesign` | store/use-design-store.ts:105-107 | the given id becomes active |
| `DesignStore.Store.UpdateDesignName` | store/use-design-store.ts:109-113 | the designs with that id are renamed, nothing else changes |
| `DesignStore.Store.UpdateParameters` | store/use-design-store.ts:115-154 | without an active design nothing changes; otherwise the active design gets the merged, clamped parameters |
| `DesignStore.Store.SetCustomDesignOutput` | store/use-design-store.ts:156-165 | the designs with that id get the given outputs |
| `DesignStore.Store.SetCustomElements` | store/use-design-store.ts:167-185 | the active design's collections are replaced where given |
| `DesignStore.Store.UpdateDesignOutput` | store/use-design-store.ts:187-191 | the designs with that id take the engine result's fields |
| `DesignStore.Store.SetIsProcessing` | store/use-design-store.ts:193 | the processing flag takes the given value |
| `DesignStore.Store.SetCustomCanvasView` | store/use-design-store.ts:218-222 | the canvas pan and zoom become the updater's result |
| `DesignStore.Store.ProcessDesign` | store/use-design-store.ts:195-216 | for positive sides, and only then, the designs become the old ones with that design's engine fields replaced by a result the engine computes for its parameters (`EngineResultFor`), with open states and offsets reconciled to that result's panel count and every other field kept; processing is over afterwards; a stored design then has at least one panel and a frame of positive size |
| `DesignStore.Processed` | store/use-design-store.ts:199-213 | the stored result carries the engine's geometry, warnings and outputs, and open states and offsets of exactly the panel count: kept when their length already matches, all zeros otherwise |
| `DesignStore.StoredGeometry` | store/use-design-store.ts:197-214 | storing an engine result for positive sides gives the design a geometry with at least one panel and a frame of positive width and height |
| `DesignStore.Store.TogglePanelOpenState` | store/use-design-store.ts:224-258 | the active design's clicked panel, or foldable pair, advances; with no active design nothing changes |
| `DesignStore.Store.UpdatePanelOffsets` | store/use-design-store.ts:260-272 | the active design's offsets become the given array |
| `DesignStore.Store.ToggleCustomFrameOpenState` | store/use-design-store.ts:274-294 | the active design's operable frame with that id advances its open state |
| `Visualization.ResetViewBox` | src/components/design/visualization.tsx:188-197 | the reset viewBox starts at the origin and is the frame plus a 100-unit margin on every side |
| `Visualization.ResetIsZoomOne` | src/components/design/visualization.tsx:40 | right after a reset the displayed zoom level is 1 |
| `Visualization.WheelWidthBounds` | src/components/design/visualization.tsx:167-173 | a wheel step keeps the width between 5% and 1000% of the content, never widening on zoom-in nor narrowing on zoom-out |
| `Visualization.ZoomLevel` | src/components/design/visualization.tsx:40 | the zoom level is 1 without geometry, and otherwise the factor that scales the viewBox width to the padded content width; it is positive for a positive viewBox |
| `Visualization.WheelWidth` | src/components/design/visualization.tsx:167-173 | zooming in gives the larger of the width divided by 1.1 and 5% of the content; zooming out gives the smaller of the width times 1.1 and ten times the content |
| `Visualization.WheelZoom` | src/components/design/visualization.tsx:153-186 | no change when the width would not move; otherwise the aspect ratio is kept and the point under the cursor stays in place |
| `Visualization.PanelHinge` | src/components/design/visualization.tsx:240-327 | an open awning, tilt-turn, casement or foldable panel tilts by 22.5° half open or 45° fully open, about the top edge, its hinge side, or the pair's shared edge |
| `Visualization.FoldableHingeOnSharedEdge` | src/components/design/visualization.tsx:300-316 | both leaves of a foldable pair turn about one point, by opposite angles, on the edge they share |
| `Visualization.ParametricView.constructor` | src/components/design/visualization.tsx:33-38 | the view starts with the default 3200×2600 viewBox and no drag in progress |
| `Visualization.ParametricView.GeometryChanged` | src/components/design/visualization.tsx:43-59 | a new outer size resets the view, an unchanged one keeps it, and no geometry restores the default viewBox |
| `Visualization.ParametricView.ResetView` | src/components/design/visualization.tsx:188-197 | with geometry the viewBox becomes the reset one; without it nothing changes |
| `Visualization.ParametricView.PanelMouseDown` | src/components/design/visualization.tsx:86-95 | a sliding panel is grabbed at the pointer minus its current offset; other systems ignore the press |
| `Visualization.ParametricView.CanvasMouseDown` | src/components/design/visualization.tsx:113-119 | a canvas drag starts at the pointer |
| `Visualization.ParametricView.CanvasMouseMove` | src/components/design/visualization.tsx:121-150 | a panel drag rewrites only that panel's offset, clamped into the frame; otherwise a canvas drag pans the viewBox by the pointer's movement in viewBox units |
| `Visualization.ParametricView.MouseUp` | src/components/design/visualization.tsx:97-111 | releasing ends both kinds of drag |
| `Visualization.ParametricView.Wheel` | src/components/design/visualization.tsx:153-186 | the wheel applies WheelZoom to the current viewBox when there is geometry |
| `ThreeDVisualization.CustomSwing` | src/components/design/3d-visualization.tsx:79-115 | a closed or fixed frame stays at rest; an open one turns 45° or 90° about the axis and edge its opening names |
| `ThreeDVisualization.MirroredOpenings` | src/components/design/3d-visualization.tsx:91-114 | left and right hinges, and top and bottom, swing by opposite angles about opposite edges; doors swing like casements |
| `ThreeDVisualization.CasementHingeLeft` | src/components/design/3d-visualization.tsx:361-365 | the hinge is on the named side, or alternates from the left for 'pair' and unset |
| `ThreeDVisualization.PanelSwing` | src/components/design/3d-visualization.tsx:347-373 | a closed panel is at rest; awning and tilt-turn turn about the top edge, casements and foldables about a side, by 45° or 90° |
| `ThreeDVisualization.FoldableLeavesShareHinge` | src/components/design/3d-visualization.tsx:369-372 | the two leaves of a foldable pair laid out by the engine turn about one hinge in opposite directions |
| `ThreeDVisualization.PanelCentreX` | src/components/design/3d-visualization.tsx:322 | a panel's x in the scene is its centre's distance from the frame's centre, scaled; zero for a centred panel and negative left of centre |
| `ThreeDVisualization.HingeX` | src/components/design/3d-visualization.tsx:322-385 | a pivot of minus half the panel width puts the hinge on the panel's left edge, plus half on its right edge, in scene units |
| `ThreeDVisualization.PairedCasementLeavesMirror` | src/components/design/3d-visualization.tsx:361-368 | in pair mode two casement leaves swing apart, each on its outer edge |
| `ThreeDVisualization.NumTracks` | src/components/design/3d-visualization.tsx:337 | `parseInt(system.charAt(0)) \|\| 2` is the sliding system's track count, always between 2 and 5 |
| `ThreeDVisualization.TrackDepth` | src/components/design/3d-visualization.tsx:338-343 | panel i runs on track i mod n, the tracks centred on the frame 70 mm apart |
| `ThreeDVisualization.TrackDepthPeriodic` | src/components/design/3d-visualization.tsx:338 | panels n apart share a track |
| `ThreeDVisualization.TrackDepthSymmetric` | src/components/design/3d-visualization.tsx:341-343 | the tracks lie symmetrically about the frame's mid-plane |
| `ThreeDVisualization.NeighboursOnDifferentTracks` | src/components/design/3d-visualization.tsx:338-343 | with two or more tracks neighbouring panels never share a track |
| `ThreeDVisualization.ClampOffset` | src/components/design/3d-visualization.tsx:264-269 | a clamped offset keeps a panel that fits within the outer frame and leaves an in-range offset unchanged |
| `ThreeDVisualization.ClampOffsetIdempotent` | src/components/design/3d-visualization.tsx:269 | clamping an offset twice is clamping it once |
| `ThreeDVisualization.ClickTarget` | src/components/design/3d-visualization.tsx:233-238 | only awning, tilt-turn, casement and foldable panels toggle, and the clicked one |
| `ThreeDVisualization.ChooseView` | src/components/design/3d-visualization.tsx:209-218 | any custom collection passed, even an empty one, shows the custom view; otherwise the parametric view needs geometry and parameters |
| `ThreeDVisualization.SlidingDrag.constructor` | src/components/design/3d-visualization.tsx:207 | no panel is dragged at first |
| `ThreeDVisualization.SlidingDrag.PointerDown` | src/components/design/3d-visualization.tsx:240-252 | a sliding panel's drag remembers its offset and the pointer's x in mm; other systems ignore it |
| `ThreeDVisualization.SlidingDrag.PointerMove` | src/components/design/3d-visualization.tsx:254-274 | a drag hands back the offsets with only the dragged entry rewritten, clamped into the frame |
| `ThreeDVisualization.SlidingDrag.PointerUp` | src/components/design/3d-visualization.tsx:276-281 | releasing ends the drag |
| `ThreeDVisualization.DragMovesOnlyDraggedPanel` | src/components/design/3d-visualization.tsx:266-273 | a drag keeps every other offset and leaves a panel that fits inside the frame |
| `CanvasScene.SceneOf` | src/components/design/custom-design-canvas.tsx:75-78 | the editor's lists are the active design's collections, an unset one or no design giving empty lists |
| `CanvasScene.PatchedAgreesWithStore` | src/components/design/custom-design-canvas.tsx:116-118 | passing a patch to updateElements changes the editor's scene exactly as the store's setCustomElements changes the design |
| `CanvasScene.FullPatchRestores` | src/components/design/custom-design-canvas.tsx:236-240 | restoring a snapshot by handing all four lists to updateElements gives back that snapshot, whatever the scene was |
| `CanvasScene.Filter` | src/components/design/custom-design-canvas.tsx:284 | `a.filter(keep)` keeps exactly the elements that pass, in order, and is the identity when all pass |
| `CanvasScene.Find` | src/components/design/custom-design-canvas.tsx:288 | `a.find(p)` is the first element satisfying p, or none satisfies it |
| `CanvasScene.DeletePatch` | src/components/design/custom-design-canvas.tsx:278-302 | deleting a frame takes its child mullions and dimensions, a grouped mullion its whole group, anything else only itself |
| `CanvasScene.DeleteFrameLeavesNoOrphans` | src/components/design/custom-design-canvas.tsx:283-286 | after a frame is deleted no frame has its id and no mullion or dimension names it as parent; text boxes are kept |
| `CanvasScene.DeleteGroupedMullion` | src/components/design/custom-design-canvas.tsx:287-293 | deleting one grouped mullion removes every mullion of its group and keeps all others and the other lists |
| `CanvasScene.ThicknessOr` | src/components/design/custom-design-canvas.tsx:311 | `thickness \|\| 40`: a set, non-zero thickness is used, otherwise 40 |
| `CanvasScene.Thicker` | src/components/design/custom-design-canvas.tsx:305-327 | increasing adds 5 up to a ceiling of 100 |
| `CanvasScene.Thinner` | src/components/design/custom-design-canvas.tsx:329-351 | decreasing subtracts 5 down to a floor of 5 |
| `CanvasScene.SteppedStaysInRange` | src/components/design/custom-design-canvas.tsx:312-336 | a step keeps a thickness in [5, 100] |
| `CanvasScene.ThinnerThenThicker` | src/components/design/custom-design-canvas.tsx:305-351 | a step down then up restores a thickness in [10, 100] |
| `CanvasScene.ThickerThenThinner` | src/components/design/custom-design-canvas.tsx:305-351 | a step up then down restores a thickness in [5, 95] |
| `CanvasScene.ThicknessPatch` | src/components/design/custom-design-canvas.tsx:305-351 | only the selected frame or mullion gets the stepped thickness; dimension and text-box selections change nothing |
| `CanvasScene.ThicknessPatchKeepsRange` | src/components/design/custom-design-canvas.tsx:309-324 | stepping keeps every frame's thickness in [5, 100] |
| `CanvasGeometry.WorldPoint` | src/components/design/custom-design-canvas.tsx:538-544 | the world point maps back to the canvas point under the pan and zoom |
| `CanvasGeometry.WorldOfScreen` | src/components/design/custom-design-canvas.tsx:538-544 | the world point of a world point's screen position is that point |
| `CanvasGeometry.Snap` | src/components/design/custom-design-canvas.tsx:1000-1006 | a coordinate either stays put or moves to a grid line less than 8/zoom and at most half a cell away |
| `CanvasGeometry.SnapFindsGridLine` | src/components/design/custom-design-canvas.tsx:1002-1006 | a grid line within 8/zoom is the one snapped to, when the threshold is at most half a cell |
| `CanvasGeometry.SnapKeepsGridLine` | src/components/design/custom-design-canvas.tsx:1002-1006 | a coordinate on a grid line does not move |
| `CanvasGeometry.SnapIdempotent` | src/components/design/custom-design-canvas.tsx:1091-1097 | snapping twice is snapping once |
| `CanvasGeometry.ClampedProjection` | src/components/design/custom-design-canvas.tsx:554-555 | the projection parameter is clamped into [0, 1] |
| `CanvasGeometry.IsPointOnLine` | src/components/design/custom-design-canvas.tsx:546-561 | a segment of length zero is never hit |
| `CanvasGeometry.PointOfSegmentIsOnLine` | src/components/design/custom-design-canvas.tsx:546-561 | every point of a segment of positive length hits it, for any positive threshold |
| `CanvasGeometry.OnLineNearBox` | src/components/design/custom-design-canvas.tsx:546-561 | a hit lies within the threshold of the segment's bounding box |
| `CanvasGeometry.ElementCenter` | src/components/design/custom-design-canvas.tsx:1634-1639 | the centre is equidistant from both sides of a rectangle, or from both ends of a line |
| `CanvasGeometry.UnrotatedPoint` | src/components/design/custom-design-canvas.tsx:1641-1651 | an unrotated element leaves the point alone; otherwise it is turned by minus the rotation about the centre |
| `CanvasGeometry.RotationKeepsDistance` | src/components/design/custom-design-canvas.tsx:1646-1650 | turning a point keeps its distance to the centre |
| `CanvasGeometry.RotationInverse` | src/components/design/custom-design-canvas.tsx:1641-1651 | turning back undoes turning, so hit tests in unrotated space agree with drawing |
| `CanvasGeometry.Rank` | src/components/design/custom-design-canvas.tsx:566-575 | each resize handle has its place in the key order |
| `CanvasGeometry.HandleAtPoint` | src/components/design/custom-design-canvas.tsx:579-594 | the handle found is hit and no handle earlier in key order is; none found means no handle is hit |
| `CanvasGeometry.CornerHitsTopLeft` | src/components/design/custom-design-canvas.tsx:565-567 | a rectangle's own corner grabs its top-left handle |
| `CanvasGeometry.LineHandleAtPoint` | src/components/design/custom-design-canvas.tsx:596-615 | the start handle wins when hit; the end handle is found only when the start is missed |
| `CanvasGeometry.Anchored` | src/components/design/custom-design-canvas.tsx:1473-1482 | the new pan keeps the world point under the anchor where it was |
| `CanvasGeometry.ZoomIn` | src/components/design/custom-design-canvas.tsx:1462-1483 | zooming in multiplies by 1.2 up to 10 about the viewport centre, and does nothing without a canvas |
| `CanvasGeometry.ZoomOut` | src/components/design/custom-design-canvas.tsx:1485-1506 | zooming out divides by 1.2 down to 0.1 about the viewport centre, and does nothing without a canvas |
| `CanvasGeometry.Wheel` | src/components/design/custom-design-canvas.tsx:1508-1530 | the wheel zooms by 1.1 within [0.1, 10] about the cursor, returning the old view when the zoom is unchanged |
| `CanvasGeometry.WheelPan` | src/components/design/custom-design-canvas.tsx:1523-1526 | the new pan scales the cursor's offset from the pan by the zoom ratio |
| `CanvasGeometry.WheelStopsAtLimits` | src/components/design/custom-design-canvas.tsx:1516-1520 | within range a wheel step is a no-op exactly at the limit it pushes against |
| `CanvasHistory.Recorded` | src/components/design/custom-design-canvas.tsx:203-227 | a record truncates after the cursor, skips a scene equal to the new top, otherwise appends it, and leaves the cursor on the current scene at the end |
| `CanvasHistory.Undone` | src/components/design/custom-design-canvas.tsx:229-249 | undo moves the cursor back one place, not below the first snapshot |
| `CanvasHistory.Redone` | src/components/design/custom-design-canvas.tsx:251-271 | redo moves the cursor forward one place, not past the last snapshot |
| `CanvasHistory.RedoAfterUndo` | src/components/design/custom-design-canvas.tsx:229-271 | redo after a real undo gives back the same history |
| `CanvasHistory.UndoAfterRedo` | src/components/design/custom-design-canvas.tsx:229-271 | undo after a real redo gives back the same history |
| `CanvasHistory.NothingToRedoAfterRecord` | src/components/design/custom-design-canvas.tsx:208-225 | after a record there is nothing to redo |
| `CanvasHistory.RecordIdempotent` | src/components/design/custom-design-canvas.tsx:212-217 | recording the same scene twice records it once |
| `CanvasHistory.UndoAfterRecord` | src/components/design/custom-design-canvas.tsx:203-249 | undoing a record that added a snapshot brings back the scene before it |
| `CanvasHistory.UndoTimes` | src/components/design/custom-design-canvas.tsx:229-233 | repeated undos never change the snapshots and keep the cursor valid |
| `CanvasHistory.RedoTimes` | src/components/design/custom-design-canvas.tsx:251-255 | repeated redos never change the snapshots and keep the cursor valid |
| `CanvasHistory.UndoTimesIndex` | src/components/design/custom-design-canvas.tsx:230-232 | n undos move the cursor back n places, stopping at the first snapshot |
| `CanvasHistory.RedoTimesIndex` | src/components/design/custom-design-canvas.tsx:252-254 | n redos move the cursor forward n places, stopping at the last snapshot |
| `CanvasHistory.RedoTimesAfterUndoTimes` | src/components/design/custom-design-canvas.tsx:229-271 | n undos followed by n redos restore the history |
| `CanvasHistory.EditHistory.constructor` | src/components/design/custom-design-canvas.tsx:96-100 | the history starts with one empty snapshot, the cursor on it, both buttons off and no operation in progress |
| `CanvasHistory.EditHistory.Record` | src/components/design/custom-design-canvas.tsx:203-227 | an unforced record during an operation is skipped; otherwise the history becomes `Recorded`, and a new snapshot turns redo off |
| `CanvasHistory.EditHistory.Undo` | src/components/design/custom-design-canvas.tsx:229-249 | with something to undo the cursor steps back and that snapshot is handed out for restoring, recording suppressed and redo on; otherwise nothing happens |
| `CanvasHistory.EditHistory.Redo` | src/components/design/custom-design-canvas.tsx:251-271 | with something to redo the cursor steps forward and that snapshot is handed out, recording suppressed and undo on; otherwise nothing happens |
| `CanvasHistory.EditHistory.BeginOperation` | src/components/design/custom-design-canvas.tsx:641 | a press marks an operation in progress and changes no snapshot |
| `CanvasHistory.StaleRecordAddsNothing` | src/components/design/custom-design-canvas.tsx:203-217 | recording the scene already on top leaves the history unchanged, so the next undo goes back past that scene |
| `CanvasHistory.EditHistory.FrameCallback` | src/components/design/custom-design-canvas.tsx:245-247 | the frame callback after undo or redo lets recording resume |
| `CanvasHistory.EditHistory.EndOperation` | src/components/design/custom-design-canvas.tsx:1446-1449 | a release ends the operation and records the scene if one was in progress |
| `CanvasOutputs.FindMullionProfile` | src/components/design/custom-design-canvas.tsx:168 | the lookup finds a Mullion Profile row whose description contains the material, or no row qualifies |
| `CanvasOutputs.FindKey` | src/components/design/custom-design-canvas.tsx:181 | the reduce's lookup finds the row with the same item and description, or none has them |
| `CanvasOutputs.SceneOutputs` | src/components/design/custom-design-canvas.tsx:194-196 | the outputs are null exactly when there are no frames and no mullions; otherwise they are the consolidated BOM and the cut list |
| `CanvasOutputs.ComputeOutputs` | src/components/design/custom-design-canvas.tsx:120-196 | the effect body computes exactly `SceneOutputs` |
| `CanvasOutputs.PushFrames` | src/components/design/custom-design-canvas.tsx:125-160 | the frames loop pushes every frame's rows in order and sums their sealing |
| `CanvasOutputs.PushMullions` | src/components/design/custom-design-canvas.tsx:162-178 | the mullions loop continues from the frames' rows and adds each mullion's row, cut and sealing |
| `CanvasOutputs.PushFrame` | src/components/design/custom-design-canvas.tsx:126-159 | one frame adds its profile row, any infill row, two mitred cuts and the sealing of a glass or panel infill |
| `CanvasOutputs.PushMullion` | src/components/design/custom-design-canvas.tsx:163-177 | one mullion merges into a found row or pushes its own, adds its cut rounded to tenths and twice its length of sealing |
| `CanvasOutputs.ConsolidateRows` | src/components/design/custom-design-canvas.tsx:180-188 | the reduce computes exactly `Consolidate` |
| `CanvasOutputs.Merge` | src/components/design/custom-design-canvas.tsx:181-186 | one step of the reduce leaves the rows as many or one more, and never empty |
| `CanvasOutputs.Consolidate` | src/components/design/custom-design-canvas.tsx:180-188 | consolidation never yields more rows than items, and yields none exactly for no items |
| `CanvasOutputs.NoDescriptionIncludesAKey` | src/components/design/custom-design-canvas.tsx:168-172 | no capitalised profile description contains a lower-case material key |
| `CanvasOutputs.AluminumDescriptionHasNoKey` | src/components/design/custom-design-canvas.tsx:168 | "Aluminum Profile (standard)" contains no material key |
| `CanvasOutputs.UpvcDescriptionHasNoKey` | src/components/design/custom-design-canvas.tsx:168 | "Upvc Profile (standard)" contains no material key |
| `CanvasOutputs.WoodDescriptionHasNoKey` | src/components/design/custom-design-canvas.tsx:168 | "Wood Profile (standard)" contains no material key |
| `CanvasOutputs.FramesBomHasNoMullionRows` | src/components/design/custom-design-canvas.tsx:125-160 | the frames add no Mullion Profile row |
| `CanvasOutputs.MullionLookupNeverMatches` | src/components/design/custom-design-canvas.tsx:163-172 | the case-sensitive lookup never finds a row, so each mullion pushes its own |
| `CanvasOutputs.Materials` | src/components/design/custom-design-canvas.tsx:163-172 | the mullions' materials in order of first use, each once |
| `CanvasOutputs.MergedLookupGroupsByMaterial` | src/components/design/custom-design-canvas.tsx:168-171 | with a lookup by the exact description, the mullions add to rows without Mullion Profile entries one row per material, in first-use order, holding that material's total length in metres |
| `CanvasOutputs.MergedLookupOneRowPerMaterial` | src/components/design/custom-design-canvas.tsx:163-172 | with that lookup, no two Mullion Profile rows after the frames' rows share a description |
| `CanvasOutputs.RawBomIsFramesThenMullions` | src/components/design/custom-design-canvas.tsx:125-178 | before the reduce the BOM is the frames' rows followed by one row per mullion |
| `CanvasOutputs.ConsolidateKeys` | src/components/design/custom-design-canvas.tsx:180-188 | the consolidated rows have pairwise different (item, description) keys, exactly the input's keys, and are no more numerous |
| `CanvasOutputs.ConsolidateQuantity` | src/components/design/custom-design-canvas.tsx:182-186 | each consolidated row holds the sum of its key's quantities, within half a hundredth per rounding |
| `CanvasOutputs.ConsolidateExact` | src/components/design/custom-design-canvas.tsx:182-186 | when every quantity is whole hundredths each consolidated row is the exact sum of its key |
| `CanvasOutputs.ConsolidateQuantities` | src/components/design/custom-design-canvas.tsx:183-185 | every consolidated quantity is rounded to hundredths |
| `CanvasOutputs.ConsolidateDistinct` | src/components/design/custom-design-canvas.tsx:180-188 | rows with distinct keys and rounded quantities come through unchanged |
| `CanvasOutputs.MergeFresh` | src/components/design/custom-design-canvas.tsx:185-186 | a row with a new key and a rounded quantity is appended unchanged |
| `CanvasOutputs.ConsolidateIdempotent` | src/components/design/custom-design-canvas.tsx:180-188 | consolidating twice is consolidating once |
| `CanvasOutputs.FrameRowsAreProfileOrInfill` | src/components/design/custom-design-canvas.tsx:132-157 | a frame's rows are its profile row and its glass, solid-panel or louver row |
| `CanvasOutputs.FramesBomHasNoSealRow` | src/components/design/custom-design-canvas.tsx:125-160 | the frames add no Weather Stripping row |
| `CanvasOutputs.MullionRowsHaveNoSealRow` | src/components/design/custom-design-canvas.tsx:162-178 | the mullions add no Weather Stripping row |
| `CanvasOutputs.SealRowExactlyWhenSealed` | src/components/design/custom-design-canvas.tsx:190-192 | the BOM has a Weather Stripping row exactly when the sealing length is positive, and then as its last row |
| `CanvasOutputs.FrameProfileListed` | src/components/design/custom-design-canvas.tsx:132-137 | every frame's profile row appears in the BOM, merged by material |
| `CanvasOutputs.CutListShape` | src/components/design/custom-design-canvas.tsx:139-175 | the cut list has two mitred rows per frame in frame order, then one row per mullion |
| `CanvasOutputs.SealedWhenGlazed` | src/components/design/custom-design-canvas.tsx:146-153 | a frame with a glazed or panelled opening makes the sealing positive |
| `CanvasEditing.Updated` | src/components/design/custom-design-canvas.tsx:1146-1189 | mapping with an update keeps the list's length and replaces exactly the elements the test picks, leaving every other one as it was |
| `CanvasEditing.LastHit` | src/components/design/custom-design-canvas.tsx:762-905 | the backwards scan of a list returns the topmost (last) element the hit test accepts, or nothing when none does |
| `CanvasEditing.LastIndex` | src/components/design/custom-design-canvas.tsx:762-905 | a found index names an element that is hit with no hit element above it; no result means no element is hit |
| `CanvasEditing.TopmostIsLastIndex` | src/components/design/custom-design-canvas.tsx:764-905 | conversely, any topmost hit element is the one the scan returns |
| `CanvasEditing.LastIndexOfUpdated` | src/components/design/custom-design-canvas.tsx:1146-1189 | updating elements in a way that does not change whether they are hit does not change which element a later click selects |
| `CanvasEditing.MovedLine` | src/components/design/custom-design-canvas.tsx:1146-1198 | both ends of a dragged line move by the pointer's delta |
| `CanvasEditing.MovedLineKeepsLength` | src/components/design/custom-design-canvas.tsx:1146-1198 | dragging a line leaves its length, and so its dimension label, as it was |
| `CanvasEditing.AllElements` | src/components/design/custom-design-canvas.tsx:705-706 | the handle search runs over every frame, text box, mullion and dimension of the scene |
| `CanvasEditing.GripAt` | src/components/design/custom-design-canvas.tsx:708-719 | the handle found on the selected element is the first handle, in getHandleAtPoint's order, whose box contains the pointer, or none is under it |
| `CanvasEditing.HitTest` | src/components/design/custom-design-canvas.tsx:701-908 | a press hits a handle of the selected element exactly when one is under the pointer; otherwise the topmost dimension wins, then mullions, then frames, then text boxes, each only when nothing earlier in that order is hit, and a miss means nothing is hit |
| `CanvasEditing.DimensionPointIsHit` | src/components/design/custom-design-canvas.tsx:762-793 | every point of an unrotated dimension line hits it |
| `CanvasEditing.FrameCornerIsHit` | src/components/design/custom-design-canvas.tsx:839-846 | the two corners of an unrotated frame hit it (the bounds test is inclusive) |
| `CanvasEditing.Started` | src/components/design/custom-design-canvas.tsx:911-963 | a drawing tool starts a new element carrying the fresh id |
| `CanvasEditing.Appended` | src/components/design/custom-design-canvas.tsx:930-962 | the new element is appended to the list of its own kind and the other lists are untouched |
| `CanvasEditing.SpannedRect` | src/components/design/custom-design-canvas.tsx:1010-1013 | the rectangle spanned by two corners has non-negative sides and runs from the smaller to the larger coordinate on each axis |
| `CanvasEditing.SpannedRectHoldsCorners` | src/components/design/custom-design-canvas.tsx:1010-1013 | the spanned rectangle does not depend on which corner is the anchor and contains both corners |
| `CanvasEditing.AxisLocked` | src/components/design/custom-design-canvas.tsx:1030-1036 | with shift a mullion's free end lies on the horizontal or vertical through its start, keeping one of the pointer's coordinates |
| `CanvasEditing.AxisLockedIsNearer` | src/components/design/custom-design-canvas.tsx:1030-1036 | the locked end is the nearer of the two axis-aligned candidates to the pointer |
| `CanvasEditing.AxisLockedIdempotent` | src/components/design/custom-design-canvas.tsx:1030-1036 | locking an already locked end changes nothing |
| `CanvasEditing.DrawStep` | src/components/design/custom-design-canvas.tsx:994-1081 | a drawing move changes only the list of the element being drawn and in it only that element: frames span the start and the snapped pointer, mullions end at the (shift-locked) pointer, dimensions end at the pointer with their length label, text boxes span the start and the pointer |
| `CanvasEditing.DrawnDimension` | src/components/design/custom-design-canvas.tsx:1047-1058 | a drawn dimension keeps its start, ends at the pointer and is labelled with its rounded length |
| `CanvasEditing.DrawnFrameSpansDrag` | src/components/design/custom-design-canvas.tsx:998-1023 | a frame being drawn has non-negative sides and contains both its start corner and the snapped pointer |
| `CanvasEditing.Children` | src/components/design/custom-design-canvas.tsx:802-864 | the child list holds exactly the start positions of the elements the filter keeps |
| `CanvasEditing.MapAll` | src/components/design/custom-design-canvas.tsx:1090-1145 | mapping over a list replaces each element by its image and keeps the length |
| `CanvasEditing.DragFrame` | src/components/design/custom-design-canvas.tsx:1090-1145 | dragging a frame moves only that frame, to its snapped start plus the delta, carries child dimensions and child mullions by the raw delta (dimensions taking the press-time frame's centre as rotation centre) and leaves text boxes alone |
| `CanvasEditing.DragTextBox` | src/components/design/custom-design-canvas.tsx:1090-1145 | dragging a text box moves only that box, to its snapped start plus the delta, and nothing else |
| `CanvasEditing.DragMullion` | src/components/design/custom-design-canvas.tsx:1146-1189 | dragging a mullion moves it by the delta from its press-time position, carries its group and its child dimensions (relabelled) and leaves frames and text boxes alone |
| `CanvasEditing.DragDimension` | src/components/design/custom-design-canvas.tsx:1190-1198 | dragging a dimension moves only that dimension by the delta |
| `CanvasEditing.DimensionChildLookup` | src/components/design/custom-design-canvas.tsx:849-855 | with unique ids, a dimension is found among a frame's children exactly when the filter kept it, at its press-time position |
| `CanvasEditing.MullionChildLookup` | src/components/design/custom-design-canvas.tsx:857-863 | with unique ids, a mullion is found among a frame's children exactly when the filter kept it |
| `CanvasEditing.NoChildOfKind` | src/components/design/custom-design-canvas.tsx:1146-1189 | a child list with no entry of a kind never matches an element of that kind |
| `CanvasEditing.FrameDragCarriesChildren` | src/components/design/custom-design-canvas.tsx:839-882 | with unique ids, dragging a frame moves every dimension and mullion whose parent is that frame by the pointer's delta and leaves every other one unchanged |
| `CanvasEditing.MullionDragCarriesGroup` | src/components/design/custom-design-canvas.tsx:795-837 | with unique ids, dragging a mullion moves it, every other mullion of its (non-empty) group and its child dimensions by the delta, keeps the dimensions' lengths and leaves the rest unchanged |
| `CanvasEditing.FrameDragForgetsEarlierMoves` | src/components/design/custom-design-canvas.tsx:1090-1145 | every drag move is computed from the press-time positions, so only the last pointer position matters |
| `CanvasEditing.FrameDragChildOffset` | src/components/design/custom-design-canvas.tsx:1090-1145 | a carried child's offset from the dragged frame changes by exactly what snapping added to the frame's position |
| `CanvasEditing.LocalDelta` | src/components/design/custom-design-canvas.tsx:1207-1214 | for an unrotated element the resize delta is the pointer's delta |
| `CanvasEditing.ResizedRect` | src/components/design/custom-design-canvas.tsx:1218-1239 | a resize moves the edges the handle names by the delta, holds the opposite edges, and never lets a side go below the minimum of 10 |
| `CanvasEditing.ResizeUndone` | src/components/design/custom-design-canvas.tsx:1218-1239 | while no side reaches the minimum, resizing by a delta and then by its opposite restores the rectangle |
| `CanvasEditing.Regenerated` | src/components/design/custom-design-canvas.tsx:1243-1275 | a frame's horizontal dimension is laid along the new width at its old offset and relabelled, a vertical one along the new height, any other is left alone; ids, parent and rotation are kept |
| `CanvasEditing.RegeneratedStable` | src/components/design/custom-design-canvas.tsx:1243-1275 | regenerating a regenerated dimension against the resized frame changes nothing more |
| `CanvasEditing.ResizeFrame` | src/components/design/custom-design-canvas.tsx:1238-1282 | resizing a frame changes that frame's rectangle and regenerates exactly its child dimensions, against the frame as it is in the scene; nothing else changes |
| `CanvasEditing.ResizeTextBox` | src/components/design/custom-design-canvas.tsx:1283-1286 | resizing a text box changes only that box's rectangle |
| `CanvasEditing.ResizedLine` | src/components/design/custom-design-canvas.tsx:1288-1330 | moving one end of a line keeps the other end; with shift a mullion's line is horizontal or vertical, otherwise the moved end moves by the delta |
| `CanvasEditing.ResizeLineElement` | src/components/design/custom-design-canvas.tsx:1288-1330 | resizing a mullion changes only that mullion's line; resizing a dimension changes only that dimension, which is relabelled with its new length |
| `CanvasEditing.RelabelledLine` | src/components/design/custom-design-canvas.tsx:1323-1328 | a dimension given a new line carries the label of that line's rounded length |
| `CanvasEditing.RotationAngle` | src/components/design/custom-design-canvas.tsx:1337-1345 | the rotation angle is in [0, 360), and with shift is a multiple of 15 in [0, 360] |
| `CanvasEditing.RotateElement` | src/components/design/custom-design-canvas.tsx:1334-1365 | rotating a frame sets its angle and gives its child dimensions the same angle and the frame's centre; rotating a text box sets only its angle; mullions never change |
| `CanvasEditing.RotationKeepsExtents` | src/components/design/custom-design-canvas.tsx:1334-1365 | rotation changes no element's position or size |
| `CanvasEditing.PaintedLine` | src/components/design/custom-design-canvas.tsx:658-668 | painting lines recolours only the topmost mullion under the pointer, and nothing when none is under it |
| `CanvasEditing.PaintedFrame` | src/components/design/custom-design-canvas.tsx:671-697 | painting recolours at most the topmost frame under the pointer, its border or its glass depending on whether the point is within the border width, and nothing when no frame is under it or the target does not match |
| `CanvasEditing.PaintIdempotent` | src/components/design/custom-design-canvas.tsx:654-699 | painting the same point with the same colour twice is the same as once |
| `CanvasEditing.PaintLineIdempotent` | src/components/design/custom-design-canvas.tsx:658-668 | repainting a line the same colour changes nothing |
| `CanvasEditing.PaintFrameIdempotent` | src/components/design/custom-design-canvas.tsx:671-697 | repainting a frame or its glass the same colour changes nothing |
| `CanvasEditing.PaintAt` | src/components/design/custom-design-canvas.tsx:654-699 | the paint tool's scan computes the painted scene |
| `CanvasEditing.Removed` | src/components/design/custom-design-canvas.tsx:1376-1391 | removing an element leaves no element of its kind with its id, keeps every other element and adds none |
| `CanvasEditing.ParentFrame` | src/components/design/custom-design-canvas.tsx:1409-1424 | a drawn mullion's parent is the topmost frame containing its midpoint, none when no frame does or that frame's id is empty |
| `CanvasEditing.MullionParent` | src/components/design/custom-design-canvas.tsx:1409-1424 | the backwards frame scan computes that parent |
| `CanvasEditing.FinishDraw` | src/components/design/custom-design-canvas.tsx:1371-1438 | finishing a drawing removes a degenerate or never-moved element; otherwise a frame gains its width and height dimensions, a mullion gains its parent when one is found, and a dimension or text box stays as drawn |
| `CanvasEditing.StartedIsDegenerate` | src/components/design/custom-design-canvas.tsx:1376-1391 | an element just started by a press has zero size |
| `CanvasEditing.ClickWithoutDragChangesNothing` | src/components/design/custom-design-canvas.tsx:1431-1438 | a press and release without a move leaves the scene as it was |
| `CanvasEditing.AutoDimensionIdsDiffer` | src/components/design/custom-design-canvas.tsx:1393-1408 | the frame's two automatic dimensions have different ids |
| `CanvasEditing.AutoDimensionsFollowResize` | src/components/design/custom-design-canvas.tsx:1393-1408 | the automatic dimensions, once the frame is resized, lie along the new top and left edges at their offset and carry the new width and height |
| `CanvasEditing.AutoDimensionsGoWithFrame` | src/components/design/custom-design-canvas.tsx:283-286 | deleting the frame also deletes its automatic dimensions |
| `CanvasEditor.Panned` | src/components/design/custom-design-canvas.tsx:976-990 | panning keeps the zoom and shifts the pan offset by exactly the pointer's movement |
| `CanvasEditor.PannedTwice` | src/components/design/custom-design-canvas.tsx:976-990 | two pan moves in a row are one pan move over the whole distance |
| `CanvasEditor.CustomEditor.constructor` | src/components/design/custom-design-canvas.tsx:81-100 | the editor starts idle with the select tool, nothing selected, dragged or drawn, the default paint colour on frames, and a history holding only the empty scene |
| `CanvasEditor.CustomEditor.MouseDown` | src/components/design/custom-design-canvas.tsx:632-966 | the middle button starts panning; other buttons and presses while editing text change nothing else; a left press starts an operation and, by tool, pans, paints and records, selects what the hit test finds (a handle, an element or nothing), or starts a new element of the drawing tool; view and tool never change; a paint press records the scene from before the paint |
| `CanvasEditor.CustomEditor.PressPaint` | src/components/design/custom-design-canvas.tsx:654-699 | a paint press recolours the scene as the paint rule says; its record, made through the render's closure, holds the scene from before the paint |
| `CanvasEditor.CustomEditor.PressSelect` | src/components/design/custom-design-canvas.tsx:701-909 | a select press sets mode, selection and drag start from what the hit test finds; a miss clears them only when nothing is under the pointer |
| `CanvasEditor.CustomEditor.PressDraw` | src/components/design/custom-design-canvas.tsx:911-965 | a drawing press clears the selection, enters drawing mode and appends the started element to the scene |
| `CanvasEditor.CustomEditor.MouseMove` | src/components/design/custom-design-canvas.tsx:968-1366 | a move does nothing while idle or editing text; a pending selection becomes a drag; otherwise panning pans, drawing applies the drawing step and remembers the drawn element, dragging moves, resizing resizes and rotating rotates, each on the press-time state; tool, selection and drag are unchanged |
| `CanvasEditor.CustomEditor.MouseUp` | src/components/design/custom-design-canvas.tsx:1368-1455 | releasing finishes a drawing (cleanup, automatic dimensions, mullion parent, tool and text-box selection), records the scene as rendered before the release (without the finishing changes) when an operation was in progress, and returns to idle with no drag or drawing |
| `CanvasEditor.CustomEditor.FinishDrawing` | src/components/design/custom-design-canvas.tsx:1371-1444 | the end of a drawing leaves the scene as the finishing rule says, selects and edits a new text box, and switches back to the select tool unless the text tool was used |
| `CanvasEditor.CustomEditor.Clear` | src/components/design/custom-design-canvas.tsx:1457-1460 | clearing empties every list and the selection, without recording |
| `CanvasEditor.CustomEditor.DeleteSelected` | src/components/design/custom-design-canvas.tsx:278-303 | deleting with nothing selected changes nothing; otherwise the deletion patch is applied and the selection cleared, and the record holds the scene from before the delete |
| `CanvasEditor.CustomEditor.StepThickness` | src/components/design/custom-design-canvas.tsx:305-351 | a thickness step applies the thickness patch of the selected element, and the record holds the scene from before the step; with nothing selected nothing changes |
| `CanvasEditor.CustomEditor.Undo` | src/components/design/custom-design-canvas.tsx:229-249 | undo steps the history back and, when there was something to undo, restores that snapshot and clears the selection; otherwise the scene stays |
| `CanvasEditor.CustomEditor.Redo` | src/components/design/custom-design-canvas.tsx:251-271 | redo steps the history forward and, when there was something to redo, restores that snapshot and clears the selection; otherwise the scene stays |
| `CanvasEditor.CustomEditor.FrameCallback` | src/components/design/custom-design-canvas.tsx:245-247 | the frame callback after undo or redo ends the suppression of recording and keeps the history |
| `CanvasEditor.CustomEditor.ZoomBy` | src/components/design/custom-design-canvas.tsx:1462-1506 | the zoom buttons apply the anchored zoom step and keep the zoom inside its range |
| `CanvasEditor.CustomEditor.WheelZoom` | src/components/design/custom-design-canvas.tsx:1508-1530 | the wheel applies the wheel rule to the view and keeps the zoom inside its range |

## Left out

- Storage. The persist/localStorage configuration of the store (`store/use-design-store.ts:296-304`) is left out, and so are IndexedDB storage and the server actions. The model keeps state in memory only.
- Timers and deferrals. The `setTimeout` in `initialize` is collapsed: `Store.Initialize` does its work at once. The 300 ms debounce of the engine hook is left out: the store's `ProcessDesign` runs the engine straight away. Of the canvas's `requestAnimationFrame` deferrals, the callback after undo and redo (245-247, 267-269) is the explicit `CustomEditor.FrameCallback` step. The deferred record of `updateAndRecord` (273-276) is made at once, inside the handler, with the scene its closure holds.
- Rendering is left out: JSX, SVG, three.js meshes, materials and lighting, the gradient colour helper, and the perspective scale factors of the 2D view all produce pictures, not state.
- Keyboard shortcuts, pointer capture, the fullscreen API and the text-area editor are left out: these are browser mechanics. The model keeps only the `editingText` guard that they feed.
- Shape presets (`handleAddShape`, `src/components/design/custom-design-canvas.tsx:395-526`) are left out: they are built from polygon and arch vertices computed with cos and sin.
- The selection updaters for material, infill, glass and opening (353-394) are left out. They are one-field record updates of the selected frame, with nothing to prove beyond what `CanvasScene.PatchedAgreesWithStore` already covers.
- The rotation indicator overlay and the cursor styles are left out (UI only).
- `Date.now()` and `Math.random()` ids become string parameters (`freshId`, `stamp`). Fresh ids are not proved unique: lemmas that need unique ids take them as a precondition (`UniqueIds`).
- React's re-render timing is left out. Each handler completes synchronously and sees the scene of the render before it, which is the state the previous handler left.
- Stale closures are modelled where they decide what the history holds. `recordHistory` closes over the rendered scene lists (226), and both the deferred record (275) and the mouse-up record (1448) call the copy of the render that created the handler. So `CustomEditor.PressPaint`, `CustomEditor.DeleteSelected`, `CustomEditor.StepThickness` and `CustomEditor.MouseUp` record the scene from before their own change. Elsewhere a handler's reads of the scene are its current value.
- Warnings: a design's `warnings` hold values of the datatype `Warning`, the engine's seven messages. The store's `updateDesignOutput` accepts any string array (`store/use-design-store.ts:59`), but every writer in the core passes the engine's list, so a warning string from elsewhere is not represented.
- CollectWarnings: the one-panel correction at `lib/design-engine.ts:43` assigns into the caller's parameters object, which is the stored design's own (`store/use-design-store.ts:199`). The model returns a corrected copy and does not model the write through that alias. A stored design can never reach the write, because the store clamps a fixed system's count to 1 (`DesignStore.ClampedFixedNeedsNoCorrection`).
- ParametricView.CanvasMouseMove: requires a positive client width and height, though the code divides by `rect.width` and `rect.height` with no guard (`src/components/design/visualization.tsx:134-135`). A pointer can move over the svg only when it has a positive area.
- Structural equality by `JSON.stringify` is modelled as datatype equality. Field order in objects and `undefined` against a missing key are not distinguished.
- Floating point is left out. Coordinates and lengths are reals, and rounding is exact round-half-up, so IEEE rounding error and the exact `toFixed` corner cases are not captured.
- Zoom is assumed non-zero where the code divides by it. The editor's class invariant keeps zoom positive. The zoom operations keep it inside [0.1, 10] when it starts there.
- `getCanvasPoint` reads the canvas's bounding rectangle. The model receives the pointer already in canvas coordinates.
- Handle names are matched in the code with `includes('left')` and similar. The model uses one predicate per edge over an enumerated handle type.
- The design control panel's slider bounds are left out. They only mirror the store's clamp, which is modelled in `DesignStore.ClampPanels`.
- `CanvasGeometry.IsPointOnLine` has a contract stating only that a zero-length segment is never hit. What it accepts is stated by `CanvasGeometry.PointOfSegmentIsOnLine` and `CanvasGeometry.OnLineNearBox`.
- `CanvasEditing.LocalDelta` states only the unrotated case. For a rotated element the delta is the pointer delta rotated back by the element's angle, through the `Trig` parameter; no contract states that case.
- `CanvasGeometry.UnrotatedPoint` works through the `Trig` parameter. Its distance and inverse facts hold only for pairs with c² + s² = 1 (`CanvasGeometry.RotationKeepsDistance`, `CanvasGeometry.RotationInverse`). The rotation-handle angle uses `atan2` and enters as the pointer's bearing.
