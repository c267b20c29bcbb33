// The data model of src/lib/types.ts: design parameters, parametric
// geometry, engine outputs, the four kinds of custom-canvas element and the
// saved design.  String-literal unions become enumerations; the spellings
// the source prints are given by the `...Key` functions.

module Types {

  datatype Option<T> = None | Some(value: T)

  function GetOr<T>(o: Option<T>, default: T): T
  {
    match o
    case Some(v) => v
    case None => default
  }

  // ---- Design parameters --------------------------------------------------

  datatype SystemType =
    | Track2 | Track3 | Track4 | Track5
    | Casement | Awning | FixedSystem | Foldable | TiltAndTurn | CustomSystem

  datatype ProfileType = Standard | Slim | HeavyDuty
  datatype MaterialType = Upvc | Aluminum | Wood
  datatype FrameColor = White | Charcoal | Bronze | Silver | WoodEffect
  datatype GlassType = StandardGlass | Toughened | Laminated | Mesh | DoubleGlazed
  datatype HardwareStyle = Modern | Classic | Minimalist
  datatype CasementOpening = OpenLeft | OpenRight | OpenPair

  /** `system.includes('track')`: the four sliding systems. */
  predicate IsTrackSystem(s: SystemType)
  {
    s.Track2? || s.Track3? || s.Track4? || s.Track5?
  }

  /** The leading digit of a track system's name ('2-track' ... '5-track'). */
  function LeadingDigit(s: SystemType): (n: int)
    requires IsTrackSystem(s)
    ensures 2 <= n <= 5
  {
    match s
    case Track2 => 2
    case Track3 => 3
    case Track4 => 4
    case Track5 => 5
  }

  /** casement, awning and tilt-and-turn. */
  predicate IsHinged(s: SystemType)
  {
    s.Casement? || s.Awning? || s.TiltAndTurn?
  }

  function ProfileKey(p: ProfileType): string
  {
    match p
    case Standard => "standard"
    case Slim => "slim"
    case HeavyDuty => "heavy-duty"
  }

  function MaterialKey(m: MaterialType): string
  {
    match m
    case Upvc => "upvc"
    case Aluminum => "aluminum"
    case Wood => "wood"
  }

  /** The material name with its first letter upper-cased. */
  function MaterialName(m: MaterialType): string
  {
    match m
    case Upvc => "Upvc"
    case Aluminum => "Aluminum"
    case Wood => "Wood"
  }

  function GlassKey(g: GlassType): string
  {
    match g
    case StandardGlass => "standard"
    case Toughened => "toughened"
    case Laminated => "laminated"
    case Mesh => "mesh"
    case DoubleGlazed => "double-glazed"
  }

  function HardwareKey(h: HardwareStyle): string
  {
    match h
    case Modern => "modern"
    case Classic => "classic"
    case Minimalist => "minimalist"
  }

  datatype DesignParameters = DesignParameters(
    system: SystemType,
    profile: ProfileType,
    material: MaterialType,
    color: FrameColor,
    glass: GlassType,
    hardware: HardwareStyle,
    width: int,
    height: int,
    panels: int,
    casementOpening: Option<CasementOpening>)

  // ---- Parametric geometry ------------------------------------------------

  datatype Point = Point(x: real, y: real)
  datatype Rect = Rect(x: real, y: real, width: real, height: real)
  datatype Line = Line(x1: real, y1: real, x2: real, y2: real)
  datatype FrameGeometry = FrameGeometry(outer: Rect, inner: Rect)
  datatype PanelGeometry = PanelGeometry(panelRect: Rect, glassRect: Rect)
  datatype Geometry = Geometry(frame: FrameGeometry, tracks: seq<Line>, panels: seq<PanelGeometry>)

  /** A rectangle shrunk by d on every side. */
  function Inset(r: Rect, d: real): Rect
  {
    Rect(r.x + d, r.y + d, r.width - 2.0 * d, r.height - 2.0 * d)
  }

  // ---- Engine outputs -----------------------------------------------------

  datatype BomItem = BomItem(item: string, description: string, quantity: real, unit: string)

  datatype CutItem = CutItem(
    part: string,
    length: real,
    angle: string,
    quantity: int,
    profile: ProfileType,
    material: MaterialType)

  datatype ProjectOutput = ProjectOutput(bom: seq<BomItem>, cutList: seq<CutItem>)

  /** The engine's advisory messages, in the order it emits them. */
  datatype Warning =
    | TallHeight | WidePanel | ManyThreeTrackPanels | ManyHingedPanels
    | SlimTooLarge | FoldableOdd | FixedNeedsOnePanel

  function WarningText(w: Warning): string
  {
    match w
    case TallHeight => "Height over 3200mm may require special engineering review."
    case WidePanel => "Panel width is very large. Consider adding more panels for stability."
    case ManyThreeTrackPanels => "More than 6 panels on a 3-track system is not recommended."
    case ManyHingedPanels => "Multi-panel hinged systems require specialized hardware. Please verify support."
    case SlimTooLarge => "Slim profiles are not recommended for very large dimensions."
    case FoldableOdd => "Foldable systems typically look best with an even number of panels."
    case FixedNeedsOnePanel => "Fixed systems must have exactly one panel."
  }

  // ---- Custom canvas elements ---------------------------------------------

  datatype OpeningType =
    | CasementLeft | CasementRight | AwningOpening | Tilt | FixedOpening | DoorLeft | DoorRight

  datatype InfillType = GlassInfill | Louver | SolidPanel | Brickwork

  /** A frame's open state: 0 closed, 1 partly open, 2 fully open. */
  type OpenState = s: int | 0 <= s <= 2

  datatype Frame = Frame(
    id: string,
    x: real, y: real, width: real, height: real,
    thickness: Option<real>,
    color: Option<string>,
    material: Option<MaterialType>,
    infill: Option<InfillType>,
    glass: Option<GlassType>,
    glassColor: Option<string>,
    rotation: Option<real>,
    opening: Option<OpeningType>,
    openState: Option<OpenState>,
    parentId: Option<string>)

  datatype Mullion = Mullion(
    id: string,
    x1: real, y1: real, x2: real, y2: real,
    thickness: Option<real>,
    color: Option<string>,
    material: Option<MaterialType>,
    groupId: Option<string>,
    parentId: Option<string>)

  datatype Dimension = Dimension(
    id: string,
    x1: real, y1: real, x2: real, y2: real,
    text: string,
    parentId: Option<string>,
    rotation: Option<real>,
    rotationCenterX: Option<real>,
    rotationCenterY: Option<real>)

  datatype TextBox = TextBox(
    id: string,
    x: real, y: real, width: real, height: real,
    text: string,
    fontSize: real,
    color: string,
    rotation: Option<real>)

  datatype ElementKind = FrameKind | MullionKind | DimensionKind | TextBoxKind

  /** The tagged union of canvas elements; the constructor is the `type` tag. */
  datatype CanvasElement =
    | FrameElement(frame: Frame)
    | MullionElement(mullion: Mullion)
    | DimensionElement(dimension: Dimension)
    | TextBoxElement(textBox: TextBox)

  function KindOf(e: CanvasElement): ElementKind
  {
    match e
    case FrameElement(_) => FrameKind
    case MullionElement(_) => MullionKind
    case DimensionElement(_) => DimensionKind
    case TextBoxElement(_) => TextBoxKind
  }

  function IdOf(e: CanvasElement): string
  {
    match e
    case FrameElement(f) => f.id
    case MullionElement(m) => m.id
    case DimensionElement(d) => d.id
    case TextBoxElement(t) => t.id
  }

  /** The selected element: its kind and its id. */
  datatype Selection = Selection(kind: ElementKind, id: string)

  function SelectionOf(e: CanvasElement): Selection
  {
    Selection(KindOf(e), IdOf(e))
  }

  // ---- Saved design -------------------------------------------------------

  datatype Design = Design(
    id: string,
    name: string,
    parameters: DesignParameters,
    geometry: Option<Geometry>,
    warnings: seq<Warning>,
    outputs: Option<ProjectOutput>,
    panelOpenStates: Option<seq<int>>,
    panelOffsets: Option<seq<real>>,
    rate: Option<real>,
    frames: Option<seq<Frame>>,
    mullions: Option<seq<Mullion>>,
    dimensions: Option<seq<Dimension>>,
    textBoxes: Option<seq<TextBox>>)
}
