/**
 * The recursive converter (src/design-api.js): `createLayerFromJSON` repairs
 * a node's frame, creates one host primitive by the node's class, then
 * recurses into its filtered children. Two module-level counters cap the
 * conversion: `globalLayerCount` counts every node that passes the depth
 * check (valid or not), `skippedLayerCount` counts calls refused at the cap.
 */
module DesignApi {
  import opened JsValues
  import opened DesignNode
  import opened NativeStyle
  import opened Host
  import ColorTranslator
  import BatchStyle
  import AsyncBatch

  const MAX_DEPTH: nat := 30
  const MAX_LAYERS: nat := 500
  const MAX_COORD: real := 100000.0
  const MAX_DIMENSION: real := 100000.0
  /** How far a text may sit outside its parent's width before it is dropped. */
  const TEXT_MARGIN: real := 1000.0
  /** Number of children whose own children the layer-count estimate samples. */
  const SAMPLED_CHILDREN: nat := 10

  /** A computation that either yields a value or throws a `TypeError`. */
  datatype Attempt<T> = Done(value: T) | Throws

  /** The outcome of one `createLayerFromJSON` call: its return value, or an exception. */
  datatype Outcome = Returned(layer: Option<Parent>) | Threw

  function ToRgba(c: Color): Option<CssColor>
  {
    ColorTranslator.SketchColorToRgba(c)
  }

  function Abs(x: real): real
  {
    if x < 0.0 then -x else x
  }

  /* ---------- frame repair ---------- */

  /** A side: `max(1, w || 100)`, then capped at 100000. */
  function RepairSize(n: Num): (r: real)
    ensures 1.0 <= r <= MAX_DIMENSION
    ensures n.Val? && 1.0 <= n.v <= MAX_DIMENSION ==> r == n.v
    ensures !Truthy(n) ==> r == 100.0
    ensures n.Val? && n.v != 0.0 && n.v < 1.0 ==> r == 1.0
    ensures n.Val? && n.v > MAX_DIMENSION ==> r == MAX_DIMENSION
  {
    Min(MAX_DIMENSION, Max(1.0, Or(n, 100.0)))
  }

  /** A position: a number out of range is clamped into it; anything else reads as 0. */
  function RepairCoord(n: Num): (r: real)
    ensures -MAX_COORD <= r <= MAX_COORD
    ensures n.Val? && -MAX_COORD <= n.v <= MAX_COORD ==> r == n.v
    ensures n.Val? && n.v < -MAX_COORD ==> r == -MAX_COORD
    ensures n.Val? && n.v > MAX_COORD ==> r == MAX_COORD
    ensures !n.Val? ==> r == 0.0
  {
    if n.Val? then Clamp(-MAX_COORD, MAX_COORD, n.v) else 0.0
  }

  /** The frame a node is created with; a node without a frame gets (0, 0, 100, 100). */
  function RepairFrame(frame: Option<RawFrame>): (r: Frame)
    ensures 1.0 <= r.width <= MAX_DIMENSION && 1.0 <= r.height <= MAX_DIMENSION
    ensures -MAX_COORD <= r.x <= MAX_COORD && -MAX_COORD <= r.y <= MAX_COORD
    ensures frame.None? ==> r == Frame(0.0, 0.0, 100.0, 100.0)
    ensures frame.Some? ==> r.x == RepairCoord(frame.value.x) && r.y == RepairCoord(frame.value.y)
    ensures frame.Some? ==> r.width == RepairSize(frame.value.width) && r.height == RepairSize(frame.value.height)
  {
    var f := if frame.Some? then frame.value else RawFrame(Val(0.0), Val(0.0), Val(100.0), Val(100.0));
    Frame(RepairCoord(f.x), RepairCoord(f.y), RepairSize(f.width), RepairSize(f.height))
  }

  /** A frame already within the bounds is left as it is, so repair is idempotent. */
  lemma RepairFrameKeepsValid(f: Frame)
    requires 1.0 <= f.width <= MAX_DIMENSION && 1.0 <= f.height <= MAX_DIMENSION
    requires -MAX_COORD <= f.x <= MAX_COORD && -MAX_COORD <= f.y <= MAX_COORD
    ensures RepairFrame(Some(AsyncBatch.AsRaw(f))) == f
  {
  }

  lemma RepairFrameIdempotent(frame: Option<RawFrame>)
    ensures RepairFrame(Some(AsyncBatch.AsRaw(RepairFrame(frame)))) == RepairFrame(frame)
  {
    RepairFrameKeepsValid(RepairFrame(frame));
  }

  /** A text under a parent frame is dropped when it starts far left of it or far right of its width. */
  predicate TextOutOfBounds(frame: Frame, parentFrame: Option<Frame>)
  {
    parentFrame.Some? && (frame.x < -TEXT_MARGIN || frame.x > parentFrame.value.width + TEXT_MARGIN)
  }

  /* ---------- styles ---------- */

  function SolidOf(c: Color): Option<FillOut>
  {
    var rgba := ToRgba(c);
    if rgba.Some? then Some(SolidFill(rgba.value)) else None
  }

  /** The first fill as a solid colour, when it is enabled, solid and its colour converts. */
  function FirstSolidFill(style: Style): Option<FillOut>
  {
    if |style.fills| > 0 && !style.fills[0].disabled && style.fills[0].fillType == Val(0.0) &&
       ColorPresent(style.fills[0].color)
    then SolidOf(style.fills[0].color)
    else None
  }

  /** Fills after the first are never looked at. */
  lemma OnlyFirstFill(style: Style, fill: Fill, rest: seq<Fill>)
    requires |style.fills| > 0 && style.fills[0] == fill
    ensures FirstSolidFill(style) == FirstSolidFill(style.(fills := [fill] + rest))
    ensures FirstSolidFill(style).Some? ==>
      (FirstSolidFill(style).value.SolidFill? && Some(FirstSolidFill(style).value.color) == ToRgba(fill.color))
  {
  }

  /**
   * The first border, when it is enabled, solid, coloured and thicker
   * than 0; a given position is clamped into 0..2, a missing one is Inside.
   */
  function FirstBorder(style: Style): (r: Option<BorderOut>)
    ensures r.Some? ==> r.value.thickness > 0.0 && CENTER <= r.value.position <= OUTSIDE
    ensures r.Some? ==>
      (style.borders.Some? && |style.borders.value| > 0 && Some(r.value.color) == ToRgba(style.borders.value[0].color))
    ensures r.Some? <==>
      && style.borders.Some? && |style.borders.value| > 0
      && var b := style.borders.value[0];
         !b.disabled && b.fillType == Val(0.0) && ColorPresent(b.color) && b.thickness.Val? && b.thickness.v > 0.0 &&
         ToRgba(b.color).Some?
    ensures r.Some? ==>
      var b := style.borders.value[0];
      && r.value.thickness == b.thickness.v
      && (b.position.Undefined? ==> r.value.position == INSIDE)
      && (b.position.Val? && 0.0 <= b.position.v <= 2.0 ==> r.value.position == b.position.v)
  {
    if style.borders.Some? && |style.borders.value| > 0 then
      var b := style.borders.value[0];
      var color := ToRgba(b.color);
      if !b.disabled && b.fillType == Val(0.0) && ColorPresent(b.color) && Or(b.thickness, 0.0) > 0.0 && color.Some? then
        Some(BorderOut(color.value, Or(b.thickness, 1.0),
                       if b.position.Undefined? then INSIDE else Clamp(0.0, 2.0, AsNumber(b.position))))
      else None
    else None
  }

  /**
   * An inner shadow drawn as a one-sided border: enabled, unblurred, with a
   * colour that converts and an offset along exactly one axis. The border
   * is as thick as the offset; its position code is 0 for up, 2 for down,
   * 3 for left and 1 for right.
   */
  function InnerShadowBorder(sh: Shadow): Option<BorderOut>
  {
    if !sh.disabled && sh.blurRadius == Val(0.0) then
      var color := ToRgba(sh.color);
      var ox := Or(sh.offsetX, 0.0);
      var oy := Or(sh.offsetY, 0.0);
      if color.None? then None
      else if ox == 0.0 && oy != 0.0 then Some(BorderOut(color.value, Abs(oy), if oy < 0.0 then 0.0 else 2.0))
      else if oy == 0.0 && ox != 0.0 then Some(BorderOut(color.value, Abs(ox), if ox < 0.0 then 3.0 else 1.0))
      else None
    else None
  }

  lemma InnerShadowDirections(sh: Shadow)
    ensures var ox := Or(sh.offsetX, 0.0);
      var oy := Or(sh.offsetY, 0.0);
      var r := InnerShadowBorder(sh);
      && (r.Some? <==> !sh.disabled && sh.blurRadius == Val(0.0) && ToRgba(sh.color).Some? && ((ox == 0.0) != (oy == 0.0)))
      && (r.Some? ==>
            && r.value.thickness > 0.0
            && r.value.thickness == Abs(ox) + Abs(oy)
            && (r.value.position == 0.0 <==> oy < 0.0)
            && (r.value.position == 2.0 <==> oy > 0.0)
            && (r.value.position == 3.0 <==> ox < 0.0)
            && (r.value.position == 1.0 <==> ox > 0.0))
  {
  }

  /** The borders a rectangle ends with: its first border, then one per convertible inner shadow, in order. */
  function RectangleBorders(style: Style): seq<BorderOut>
  {
    var first := FirstBorder(style);
    (if first.Some? then [first.value] else []) + BatchStyle.FilterMap(style.innerShadows, InnerShadowBorder)
  }

  lemma RectangleBordersBound(style: Style)
    ensures |RectangleBorders(style)| <= 1 + |style.innerShadows|
    ensures forall b :: b in RectangleBorders(style) ==> b.thickness > 0.0
  {
    forall b | b in RectangleBorders(style)
      ensures b.thickness > 0.0
    {
      var first := FirstBorder(style);
      if b !in (if first.Some? then [first.value] else []) {
        var sh :| sh in style.innerShadows && InnerShadowBorder(sh) == Some(b);
        InnerShadowDirections(sh);
      }
    }
  }

  /** A gradient end point: an object is kept when it has `x`, a text is parsed, and an unparsable text is (0.5, 0). */
  function GradientPoint(c: Option<Coord>, fallback: Coord): Attempt<Coord>
  {
    match c
    case None => Done(fallback)
    case Some(CoordObject(cx, cy)) => if cx.Undefined? then Throws else Done(CoordObject(cx, cy))
    case Some(CoordText(parsed)) =>
      if parsed.Some? then Done(CoordObject(Val(parsed.value.x), Val(parsed.value.y)))
      else Done(CoordObject(Val(0.5), Val(0.0)))
  }

  function PathStop(stop: GradientStop): RawStop
  {
    RawStop(ToRgba(stop.color), if stop.position.Undefined? then Val(0.5) else stop.position)
  }

  /** A path's gradient fill; a missing stop list or an end-point object without `x` throws. */
  function PathGradient(g: Gradient): (r: Attempt<FillOut>)
    ensures r.Done? ==> r.value.IndexedGradientFill? && 0.0 <= r.value.gradientType <= 2.0
    ensures r.Done? ==> g.stops.Some? && |r.value.rawStops| == |g.stops.value|
    ensures r.Throws? <==>
      || g.stops.None?
      || (g.from.Some? && g.from.value.CoordObject? && g.from.value.cx.Undefined?)
      || (g.to.Some? && g.to.value.CoordObject? && g.to.value.cx.Undefined?)
    ensures r.Done? ==> forall k :: 0 <= k < |r.value.rawStops| ==> r.value.rawStops[k] == PathStop(g.stops.value[k])
    ensures r.Done? ==> (g.gradientType.Undefined? ==> r.value.gradientType == 0.0)
  {
    if g.stops.None? then Throws
    else
      var stops := g.stops.value;
      var from := GradientPoint(g.from, CoordObject(Val(0.5), Val(0.0)));
      var to := GradientPoint(g.to, CoordObject(Val(0.5), Val(1.0)));
      if from.Throws? || to.Throws? then Throws
      else
        Done(IndexedGradientFill(if g.gradientType.Undefined? then 0.0 else Clamp(0.0, 2.0, AsNumber(g.gradientType)),
                                 from.value, to.value, seq(|stops|, k requires 0 <= k < |stops| => PathStop(stops[k]))))
  }

  /**
   * A missing end point defaults to the bottom centre, but an end point
   * whose text does not parse falls back to the top centre, the same as
   * the start point's default.
   */
  lemma UnparsedEndFallsBackToTop(g: Gradient)
    requires g.stops.Some? && g.from.None? && g.to == Some(CoordText(None))
    ensures PathGradient(g).Done?
    ensures PathGradient(g).value.start == PathGradient(g).value.end == CoordObject(Val(0.5), Val(0.0))
    ensures PathGradient(g.(to := None)).value.end == CoordObject(Val(0.5), Val(1.0))
  {
  }

  /**
   * A path's own fill: a solid colour when enabled and convertible, else a
   * gradient when the fill is a gradient (the enabled flag is not checked
   * on this branch).
   */
  function PathFill(style: Style): (r: Attempt<Option<FillOut>>)
    ensures |style.fills| == 0 ==> r == Done(None)
    ensures r.Throws? <==> |style.fills| > 0 && style.fills[0].fillType == Val(1.0) &&
                           style.fills[0].gradient.Some? && PathGradient(style.fills[0].gradient.value).Throws?
    ensures |style.fills| > 0 && !style.fills[0].disabled && style.fills[0].fillType == Val(0.0) &&
              ColorPresent(style.fills[0].color) ==>
              r == Done(SolidOf(style.fills[0].color))
    ensures |style.fills| > 0 && style.fills[0].fillType == Val(1.0) && style.fills[0].gradient.Some? &&
              PathGradient(style.fills[0].gradient.value).Done? ==>
              r == Done(Some(PathGradient(style.fills[0].gradient.value).value))
    ensures |style.fills| > 0 && style.fills[0].fillType != Val(0.0) && style.fills[0].fillType != Val(1.0) ==>
              r == Done(None)
  {
    if |style.fills| == 0 then Done(None)
    else
      var f := style.fills[0];
      if !f.disabled && f.fillType == Val(0.0) && ColorPresent(f.color) then Done(SolidOf(f.color))
      else if f.fillType == Val(1.0) && f.gradient.Some? then
        var g := PathGradient(f.gradient.value);
        if g.Throws? then Throws else Done(Some(g.value))
      else Done(None)
  }

  /** A disabled gradient fill is still applied to a path. */
  lemma DisabledGradientApplies(style: Style, g: Gradient)
    requires |style.fills| > 0 && style.fills[0].disabled && style.fills[0].fillType == Val(1.0)
    requires style.fills[0].gradient == Some(g) && PathGradient(g).Done?
    ensures PathFill(style) == Done(Some(PathGradient(g).value))
  {
  }

  /** The fill of an icon drawn only with inner shadows. */
  const TransparentFill := SolidFill(Literal("rgba(0,0,0,0.01)"))

  /**
   * A path's style: the inherited fills, replaced by its own fill when it
   * has one; a transparent fill when it still has none, has an empty
   * border list and at least two inner shadows; and its first border.
   */
  function PathStyle(style: Style, inherited: seq<FillOut>): (r: Attempt<ShapeStyle>)
    ensures r.Throws? <==> PathFill(style).Throws?
    ensures r.Done? ==> r.value.opacity == style.opacity && r.value.shadows.None? && r.value.innerShadows.None?
    ensures r.Done? ==> r.value.borders == Some(if FirstBorder(style).Some? then [FirstBorder(style).value] else [])
    ensures r.Done? && PathFill(style).value.Some? ==> r.value.fills == Some([PathFill(style).value.value])
    ensures r.Done? && PathFill(style).value.None? && inherited != [] ==> r.value.fills == Some(inherited)
    ensures r.Done? && PathFill(style).value.None? && inherited == [] ==>
              r.value.fills == Some(if style.borders == Some([]) && |style.innerShadows| >= 2 then [TransparentFill] else [])
  {
    var own := PathFill(style);
    if own.Throws? then Throws
    else
      var fills := if own.value.Some? then [own.value.value] else inherited;
      var fills' := if fills == [] && style.borders == Some([]) && |style.innerShadows| >= 2 then [TransparentFill] else fills;
      var border := FirstBorder(style);
      Done(ShapeStyle(Some(fills'), Some(if border.Some? then [border.value] else []), None, None, None, style.opacity))
  }

  /** The path's own fill wins over the inherited ones; the inherited ones are used only when it has none. */
  lemma PathInheritsOnlyWithoutOwnFill(style: Style, inherited: seq<FillOut>)
    requires PathFill(style).Done? && inherited != []
    ensures PathStyle(style, inherited).Done?
    ensures PathFill(style).value.Some? ==> PathStyle(style, inherited).value.fills == Some([PathFill(style).value.value])
    ensures PathFill(style).value.None? ==> PathStyle(style, inherited).value.fills == Some(inherited)
  {
  }

  /* ---------- corner radius ---------- */

  function PositiveNum(n: Num): (r: Option<real>)
    ensures r.Some? ==> r.value > 0.0
  {
    if n.Val? && n.v > 0.0 then Some(n.v) else None
  }

  function FirstPointRadius(points: seq<PathPoint>): (r: Option<real>)
    ensures r.Some? ==> r.value > 0.0
  {
    if |points| > 0 then PositiveNum(points[0].cornerRadius) else None
  }

  /** Four corners with the same positive radius (a missing radius counts as 0). */
  function UniformCorners(corners: seq<Num>): (r: Option<real>)
    ensures r.Some? ==> r.value > 0.0
  {
    if |corners| == 4 && Or(corners[1], 0.0) == Or(corners[0], 0.0) && Or(corners[2], 0.0) == Or(corners[0], 0.0) &&
       Or(corners[3], 0.0) == Or(corners[0], 0.0) && Or(corners[0], 0.0) > 0.0
    then Some(Or(corners[0], 0.0))
    else None
  }

  /** A nested layer's own radius: its fixed radius, else its first point's. */
  function OwnRadius(n: Node): (r: Option<real>)
    ensures r.Some? ==> r.value > 0.0
  {
    if PositiveNum(n.fixedRadius).Some? then PositiveNum(n.fixedRadius) else FirstPointRadius(n.points)
  }

  /** The first nested layer with a radius of its own. */
  function NestedRadius(layers: seq<Node>): (r: Option<real>)
    ensures r.Some? ==> r.value > 0.0
  {
    if layers == [] then None
    else if OwnRadius(layers[0]).Some? then OwnRadius(layers[0])
    else NestedRadius(layers[1..])
  }

  lemma {:induction false} NestedRadiusIsFirst(layers: seq<Node>)
    ensures NestedRadius(layers).Some? <==> exists k :: 0 <= k < |layers| && OwnRadius(layers[k]).Some?
    ensures NestedRadius(layers).Some? ==>
      exists k :: (0 <= k < |layers| && NestedRadius(layers) == OwnRadius(layers[k]) &&
                   forall j :: 0 <= j < k ==> OwnRadius(layers[j]).None?)
  {
    if layers != [] {
      NestedRadiusIsFirst(layers[1..]);
      if OwnRadius(layers[0]).None? {
        if exists k :: 0 <= k < |layers| && OwnRadius(layers[k]).Some? {
          var k :| 0 <= k < |layers| && OwnRadius(layers[k]).Some?;
          assert layers[1..][k - 1] == layers[k];
        }
        if NestedRadius(layers).Some? {
          var k :| 0 <= k < |layers[1..]| && NestedRadius(layers[1..]) == OwnRadius(layers[1..][k]) &&
            forall j :: 0 <= j < k ==> OwnRadius(layers[1..][j]).None?;
          assert forall j :: 0 <= j < k + 1 ==> OwnRadius(layers[j]).None? by {
            forall j | 0 <= j < k + 1
              ensures OwnRadius(layers[j]).None?
            {
              if j > 0 {
                assert layers[j] == layers[1..][j - 1];
              }
            }
          }
          assert layers[k + 1] == layers[1..][k];
        }
      }
    }
  }

  /**
   * The radius a rectangle would get, by priority: its fixed radius, its
   * first point's, four equal corner radii, then the first nested layer
   * with one. It is computed but never applied to the created shape.
   */
  function ResolveCornerRadius(json: Node): (r: Option<real>)
    ensures r.Some? ==> r.value > 0.0
  {
    if PositiveNum(json.fixedRadius).Some? then PositiveNum(json.fixedRadius)
    else if FirstPointRadius(json.points).Some? then FirstPointRadius(json.points)
    else if UniformCorners(StyleOf(json.style).corners).Some? then UniformCorners(StyleOf(json.style).corners)
    else NestedRadius(json.layers)
  }

  /**
   * A radius is found exactly when one of the four sources has one, and the
   * one found comes from the first source that has one; a nested layer
   * gives it only when no earlier sibling has one.
   */
  lemma CornerRadiusFound(json: Node)
    ensures var r := ResolveCornerRadius(json);
      && (r.Some? <==> PositiveNum(json.fixedRadius).Some? || FirstPointRadius(json.points).Some? ||
                       UniformCorners(StyleOf(json.style).corners).Some? ||
                       exists k :: 0 <= k < |json.layers| && OwnRadius(json.layers[k]).Some?)
      && (PositiveNum(json.fixedRadius).Some? ==> r == PositiveNum(json.fixedRadius))
      && (PositiveNum(json.fixedRadius).None? && FirstPointRadius(json.points).Some? ==> r == FirstPointRadius(json.points))
      && (r.Some? && PositiveNum(json.fixedRadius).None? && FirstPointRadius(json.points).None? &&
          UniformCorners(StyleOf(json.style).corners).None? ==>
            exists k :: 0 <= k < |json.layers| && r == OwnRadius(json.layers[k]) &&
              forall j :: 0 <= j < k ==> OwnRadius(json.layers[j]).None?)
  {
    NestedRadiusIsFirst(json.layers);
  }

  /* ---------- the primitive per class ---------- */

  /** Only the node's opacity, when it has one. */
  function OpacityStyle(json: Node): ShapeStyle
  {
    NoStyle.(opacity := StyleOf(json.style).opacity)
  }

  /** The font size: the encoded size, 16 when missing. */
  function FontSizeOf(json: Node): real
  {
    Or(StyleOf(json.style).fontSize, 16.0)
  }

  function TextRecord(json: Node, parent: Parent, frame: Frame): Record
  {
    Record(Kind.Text, OrText(json.name, "Text"), frame, parent, OpacityStyle(json), json.text,
           Some(FontSizeOf(json)), [], 0.0, None)
  }

  /** The text made when the first text creation fails. */
  function TextFallbackRecord(json: Node, parent: Parent, frame: Frame): Record
  {
    Record(Kind.Text, OrText(json.name, "Text (Error)"), Frame(frame.x, frame.y, 100.0, 16.0), parent,
           NoStyle, "Error", None, [], 0.0, None)
  }

  function GroupRecord(name: string, parent: Parent, frame: Frame, style: ShapeStyle): Record
  {
    Record(Group, name, frame, parent, style, "", None, [], 0.0, None)
  }

  function ShapeRecord(name: string, parent: Parent, frame: Frame, style: ShapeStyle): Record
  {
    Record(Shape, name, frame, parent, style, "", None, [], 0.0, None)
  }

  /** A shape with one fixed solid colour, standing in for a disabled kind. */
  function Placeholder(name: string, parent: Parent, frame: Frame, color: string): Record
  {
    ShapeRecord(name, parent, frame, NoStyle.(fills := Some([SolidFill(Literal(color))])))
  }

  function RectangleRecord(json: Node, parent: Parent, frame: Frame): Record
  {
    var style := StyleOf(json.style);
    var fill := FirstSolidFill(style);
    ShapeRecord(OrText(json.name, "Shape"), parent, frame,
                ShapeStyle(Some(if fill.Some? then [fill.value] else []), Some(RectangleBorders(style)),
                           None, None, None, style.opacity))
  }

  /** The fills a shape group leaves for its path children. */
  function ShapeGroupFills(json: Node): seq<FillOut>
  {
    var fill := FirstSolidFill(StyleOf(json.style));
    if fill.Some? then [fill.value] else []
  }

  /** The fills a path reads from its parent; reading them from a `null` parent throws. */
  function ParentFills(layers: seq<Record>, parent: Parent): Option<seq<FillOut>>
  {
    match parent
    case Page => Some([])
    case Detached => None
    case Layer(i) => if i < |layers| then Some(layers[i].groupFills) else Some([])
  }

  /**
   * The primitive `createLayerFromJSON` asks for, by class. Artboards and
   * unknown classes become groups; only a path can throw, when its parent
   * is `null` or its gradient is malformed. Every primitive gets the
   * repaired frame (texts aside, whose fallback is 100 by 16).
   */
  function PrimaryRecord(json: Node, parent: Parent, frame: Frame, inherited: Option<seq<FillOut>>): (r: Attempt<Record>)
    ensures r.Throws? ==> json.cls == "shapePath"
    ensures r.Done? ==> r.value.parent == parent && r.value.frame == frame
    ensures r.Done? ==> (r.value.kind == Kind.Text <==> json.cls == "text")
    ensures r.Done? ==> (r.value.kind == Shape <==> json.cls in ["rectangle", "shapePath", "bitmap", "image"])
    ensures r.Done? ==> r.value.kind != Artboard && r.value.kind != ImportedSvg
    ensures r.Done? && r.value.groupFills != [] ==> json.cls == "shapeGroup"
    ensures json.cls == "shapePath" && inherited.None? ==> r.Throws?
  {
    var style := StyleOf(json.style);
    if json.cls == "artboard" then Done(GroupRecord(OrText(json.name, "Artboard"), parent, frame, NoStyle))
    else if json.cls == "group" then Done(GroupRecord(OrText(json.name, "Group"), parent, frame, OpacityStyle(json)))
    else if json.cls == "text" then Done(TextRecord(json, parent, frame))
    else if json.cls == "shapeGroup" then
      Done(GroupRecord(OrText(json.name, "ShapeGroup"), parent, frame, OpacityStyle(json)).(groupFills := ShapeGroupFills(json)))
    else if json.cls == "shapePath" then
      if inherited.None? then Throws
      else
        var s := PathStyle(style, inherited.value);
        if s.Throws? then Throws else Done(ShapeRecord(OrText(json.name, "ShapePath"), parent, frame, s.value))
    else if json.cls == "rectangle" then Done(RectangleRecord(json, parent, frame))
    else if json.cls == "bitmap" then Done(Placeholder(OrText(json.name, "Bitmap (Disabled)"), parent, frame, "#E5E5E5"))
    else if json.cls == "image" then Done(Placeholder(OrText(json.name, "Image (Disabled)"), parent, frame, "#CCCCCC"))
    else Done(GroupRecord(OrText(json.name, "Unknown"), parent, frame, NoStyle))
  }

  /** The artboard's background: a shape inside it at the origin, of the artboard's size. */
  function BackgroundRecord(json: Node, frame: Frame, artboard: nat): Record
  {
    ShapeRecord("Background", Layer(artboard), Frame(0.0, 0.0, frame.width, frame.height),
                NoStyle.(fills := Some([SolidFill(Literal(OrText(if json.background.Some? then json.background.value else "", "#FFFFFF")))])))
  }

  /** A primitive that may stand for the node: the one asked for first, or a text's fallback. */
  ghost predicate IsOwnRecord(json: Node, parent: Parent, frame: Frame, inherited: Option<seq<FillOut>>, r: Record)
  {
    var plan := PrimaryRecord(json, parent, frame, inherited);
    (plan.Done? && r == plan.value) || (json.cls == "text" && r == TextFallbackRecord(json, parent, frame))
  }

  /* ---------- child filter and the layer-count estimate ---------- */

  /** An overflow mask or container with no children and no fill or border. */
  predicate EmptyContainer(child: Node)
  {
    && (child.name == "Overflow 蒙层" || child.name == "容器")
    && |child.layers| == 0
    && !(child.style.Some? && (|child.style.value.fills| > 0 ||
                               (child.style.value.borders.Some? && |child.style.value.borders.value| > 0)))
  }

  /** A child that is created: not an empty container, and no frame side of 0 or below 0.1. */
  predicate ChildKept(child: Node)
  {
    && !EmptyContainer(child)
    && !(child.frame.Some? && (child.frame.value.width == Val(0.0) || child.frame.value.height == Val(0.0)))
    && !(child.frame.Some? && (Below(child.frame.value.width, 0.1) || Below(child.frame.value.height, 0.1)))
  }

  function FilterChildren(layers: seq<Node>): (r: seq<Node>)
    ensures |r| <= |layers|
    ensures forall c :: c in r <==> c in layers && ChildKept(c)
  {
    if layers == [] then []
    else (if ChildKept(layers[0]) then [layers[0]] else []) + FilterChildren(layers[1..])
  }

  /** The kept children keep their order: filtering distributes over concatenation. */
  lemma {:induction false} FilterChildrenConcat(a: seq<Node>, b: seq<Node>)
    ensures FilterChildren(a + b) == FilterChildren(a) + FilterChildren(b)
    decreases |a|
  {
    if a == [] {
      assert a + b == b;
    } else {
      assert (a + b)[0] == a[0];
      assert (a + b)[1..] == a[1..] + b;
      FilterChildrenConcat(a[1..], b);
    }
  }

  lemma {:induction false} FilterChildrenSize(layers: seq<Node>)
    ensures AsyncBatch.TreeSize(FilterChildren(layers)) <= AsyncBatch.TreeSize(layers)
    decreases |layers|
  {
    if layers != [] {
      FilterChildrenSize(layers[1..]);
      var head := if ChildKept(layers[0]) then [layers[0]] else [];
      AsyncBatch.TreeSizeConcat(head, FilterChildren(layers[1..]));
      if ChildKept(layers[0]) {
        assert head[1..] == [];
      }
    }
  }

  lemma {:induction false} TreeSizePrefix(s: seq<Node>, i: nat)
    requires i < |s|
    ensures AsyncBatch.TreeSize(s[..i + 1]) == AsyncBatch.TreeSize(s[..i]) + AsyncBatch.EstimateLayerCount(s[i])
    ensures AsyncBatch.TreeSize(s[..i + 1]) <= AsyncBatch.TreeSize(s)
  {
    assert s[..i + 1] == s[..i] + [s[i]];
    AsyncBatch.TreeSizeLast(s[..i], s[i]);
    assert s == s[..i + 1] + s[i + 1..];
    AsyncBatch.TreeSizeConcat(s[..i + 1], s[i + 1..]);
  }

  lemma {:induction false} TreeSizeAtLeastLength(s: seq<Node>)
    ensures |s| <= AsyncBatch.TreeSize(s)
    decreases |s|
  {
    if s != [] {
      TreeSizeAtLeastLength(s[1..]);
    }
  }

  /** The grandchildren under the first `n` children. */
  function SampledGrandchildren(layers: seq<Node>, n: nat): nat
    requires n <= |layers|
  {
    if n == 0 then 0 else SampledGrandchildren(layers, n - 1) + |layers[n - 1].layers|
  }

  /** The estimate `createDesignFromSketchJSON` logs: the root, its children, and the children of the first ten. */
  function SampledEstimate(json: Node): nat
  {
    1 + |json.layers| + SampledGrandchildren(json.layers, MinInt(|json.layers|, SAMPLED_CHILDREN))
  }

  lemma {:induction false} SampledGrandchildrenBound(layers: seq<Node>, n: nat)
    requires n <= |layers|
    ensures n + SampledGrandchildren(layers, n) <= AsyncBatch.TreeSize(layers[..n])
  {
    if n > 0 {
      SampledGrandchildrenBound(layers, n - 1);
      TreeSizePrefix(layers, n - 1);
      TreeSizeAtLeastLength(layers[n - 1].layers);
    }
  }

  /** The sampled estimate never exceeds the full count of the design. */
  lemma SampledEstimateBound(json: Node)
    ensures SampledEstimate(json) <= AsyncBatch.EstimateLayerCount(json)
  {
    var layers := json.layers;
    var n := MinInt(|layers|, SAMPLED_CHILDREN);
    SampledGrandchildrenBound(layers, n);
    assert layers == layers[..n] + layers[n..];
    AsyncBatch.TreeSizeConcat(layers[..n], layers[n..]);
    TreeSizeAtLeastLength(layers[n..]);
  }

  lemma {:induction false} LeafTreeSize(s: seq<Node>)
    requires forall k :: 0 <= k < |s| ==> s[k].layers == []
    ensures AsyncBatch.TreeSize(s) == |s|
    decreases |s|
  {
    if s != [] {
      assert s[0].layers == [];
      assert AsyncBatch.EstimateLayerCount(s[0]) == 1;
      assert forall k :: 0 <= k < |s[1..]| ==> s[1..][k] == s[k + 1];
      LeafTreeSize(s[1..]);
    }
  }

  lemma {:induction false} ShallowSample(layers: seq<Node>, n: nat)
    requires n <= |layers|
    requires forall k, j :: 0 <= k < |layers| && 0 <= j < |layers[k].layers| ==> layers[k].layers[j].layers == []
    ensures n + SampledGrandchildren(layers, n) == AsyncBatch.TreeSize(layers[..n])
  {
    if n > 0 {
      ShallowSample(layers, n - 1);
      TreeSizePrefix(layers, n - 1);
      LeafTreeSize(layers[n - 1].layers);
    }
  }

  /** The estimate is exact for a design at most two levels deep with at most ten children. */
  lemma SampledEstimateExact(json: Node)
    requires |json.layers| <= SAMPLED_CHILDREN
    requires forall k, j :: 0 <= k < |json.layers| && 0 <= j < |json.layers[k].layers| ==>
      json.layers[k].layers[j].layers == []
    ensures SampledEstimate(json) == AsyncBatch.EstimateLayerCount(json)
  {
    ShallowSample(json.layers, |json.layers|);
    assert json.layers[..|json.layers|] == json.layers;
  }

  /* ---------- the reference conversion ---------- */

  /** The document and the two counters during a run. */
  datatype RunState = RunState(host: HostState, count: nat, skipped: nat)

  /** A state together with what the call returned or threw. */
  datatype HostStep = HostStep(host: HostState, out: Outcome)
  datatype RunStep = RunStep(st: RunState, out: Outcome)

  /**
   * What the `switch` leaves: a text, else its fallback, else nothing; any
   * other primitive, or a throw when it cannot be planned or created; an
   * artboard's background after the artboard, its failure ignored.
   */
  function OwnLayer(fails: nat -> bool, s: HostState, json: Node, parent: Parent, frame: Frame): HostStep
  {
    var created := Returned(Some(Layer(|s.layers|)));
    if json.cls == "text" then
      var s1 := Try(fails, s, TextRecord(json, parent, frame));
      if !fails(s.attempts) then HostStep(s1, created)
      else HostStep(Try(fails, s1, TextFallbackRecord(json, parent, frame)),
                    if fails(s.attempts + 1) then Returned(None) else created)
    else
      var plan := PrimaryRecord(json, parent, frame, ParentFills(s.layers, parent));
      if plan.Throws? then HostStep(s, Threw)
      else
        var s1 := Try(fails, s, plan.value);
        if fails(s.attempts) then HostStep(s1, Threw)
        else if json.cls == "artboard" && json.background.Some? then
          HostStep(Try(fails, s1, BackgroundRecord(json, frame, |s.layers|)), created)
        else HostStep(s1, created)
  }

  /**
   * What `createLayerFromJSON` leaves and returns: nothing past depth 30; a
   * skip counted at the cap; otherwise the node counted, then nothing more
   * for a node without a class or a text far outside its parent, else its
   * own primitive and, unless that threw, its children.
   */
  function LayerFromJSON(fails: nat -> bool, st: RunState, json: Node, parent: Parent, parentFrame: Option<Frame>,
                         depth: nat): RunStep
    decreases json, 4
  {
    if depth > MAX_DEPTH then RunStep(st, Returned(None))
    else if st.count >= MAX_LAYERS then RunStep(st.(skipped := st.skipped + 1), Returned(None))
    else
      var st1 := st.(count := st.count + 1);
      var frame := RepairFrame(json.frame);
      if json.cls == "" || (json.cls == "text" && TextOutOfBounds(frame, parentFrame)) then RunStep(st1, Returned(None))
      else NodeLayers(fails, st1, json, parent, frame, depth)
  }

  /** A counted node with a class: its own primitive, then, unless that threw, its children. */
  function NodeLayers(fails: nat -> bool, st: RunState, json: Node, parent: Parent, frame: Frame, depth: nat): RunStep
    decreases json, 3
  {
    var own := OwnLayer(fails, st.host, json, parent, frame);
    var st1 := st.(host := own.host);
    if own.out.Threw? then RunStep(st1, Threw)
    else if |json.layers| > 0 then RunStep(Children(fails, st1, json, own.out.layer, frame, depth), own.out)
    else RunStep(st1, own.out)
  }

  /**
   * The child loop: the kept children, at most as many as the counter had
   * room for when it started, under the new primitive (or under `null`
   * when there is none).
   */
  function Children(fails: nat -> bool, st: RunState, json: Node, layer: Option<Parent>, frame: Frame, depth: nat): RunState
    decreases json, 2
  {
    var filtered := FilterChildren(json.layers);
    var room := if st.count <= MAX_LAYERS then MAX_LAYERS - st.count else 0;
    ChildList(fails, st, json, filtered, MinInt(|filtered|, room), if layer.Some? then layer.value else Detached,
              frame, depth)
  }

  /** The first `n` of the kept children, converted in order, each from the state the previous one left. */
  function ChildList(fails: nat -> bool, st: RunState, json: Node, filtered: seq<Node>, n: nat, childParent: Parent,
                     frame: Frame, depth: nat): RunState
    requires n <= |filtered| && forall c :: c in filtered ==> c in json.layers
    decreases json, 1, n
  {
    if n == 0 then st
    else Child(fails, ChildList(fails, st, json, filtered, n - 1, childParent, frame, depth), json, filtered[n - 1],
               childParent, frame, depth)
  }

  /**
   * One child: passed over once the counter is at the cap, otherwise
   * converted; a throw is caught, and the state it left stands.
   */
  function Child(fails: nat -> bool, st: RunState, json: Node, child: Node, childParent: Parent, frame: Frame,
                 depth: nat): RunState
    requires child in json.layers
    decreases json, 0
  {
    if st.count >= MAX_LAYERS then st
    else LayerFromJSON(fails, st, child, childParent, Some(frame), depth + 1).st
  }

  /**
   * What `createDesignFromSketchJSON` leaves and returns: a design without a
   * class changes nothing; otherwise the counters start at 0 and the root
   * is converted on the page, the result being its primitive unless it
   * threw.
   */
  function DesignFromSketch(fails: nat -> bool, st: RunState, json: Node): (RunState, Option<Parent>)
  {
    if json.cls == "" then (st, None)
    else
      var r := LayerFromJSON(fails, RunState(st.host, 0, 0), json, Page, None, 0);
      (r.st, if r.out.Threw? then None else r.out.layer)
  }

  /* ---------- the converter ---------- */

  /** Every primitive created since `before` hangs under `parent`, under nothing, or under one created since. */
  ghost predicate Local(before: seq<Record>, after: seq<Record>, parent: Parent)
  {
    forall i :: |before| <= i < |after| ==> HangsBelow(after[i].parent, parent, |before|)
  }

  /** `p` is `parent`, nothing, or a primitive at index `from` or later. */
  predicate HangsBelow(p: Parent, parent: Parent, from: nat)
  {
    p == parent || p.Detached? || (p.Layer? && p.index >= from)
  }

  lemma LocalTrans(a: seq<Record>, b: seq<Record>, c: seq<Record>, parent: Parent, child: Parent)
    requires |a| <= |b| <= |c| && b[..|a|] == a && c[..|b|] == b
    requires Local(a, b, parent) && Local(b, c, child)
    requires HangsBelow(child, parent, |a|)
    ensures Local(a, c, parent)
  {
    forall i | |a| <= i < |c|
      ensures HangsBelow(c[i].parent, parent, |a|)
    {
      if i < |b| {
        assert c[i] == c[..|b|][i];
      }
    }
  }

  lemma PrefixTrans<T>(a: seq<T>, b: seq<T>, c: seq<T>)
    requires |a| <= |b| <= |c| && b[..|a|] == a && c[..|b|] == b
    ensures c[..|a|] == a
  {
    assert c[..|a|] == c[..|b|][..|a|];
  }

  class DesignConverter {
    /** `globalLayerCount` */
    var layerCount: nat
    /** `skippedLayerCount` */
    var skippedCount: nat
    const doc: Document

    ghost predicate Valid()
      reads this, doc
    {
      doc.Valid() && layerCount <= MAX_LAYERS
    }

    /** The document and both counters. */
    function Snapshot(): RunState
      reads this, doc
    {
      RunState(doc.State(), layerCount, skippedCount)
    }

    constructor (doc: Document)
      requires doc.Valid()
      ensures Valid() && this.doc == doc && layerCount == 0 && skippedCount == 0
    {
      this.doc := doc;
      layerCount := 0;
      skippedCount := 0;
    }

    /**
     * The `switch` of `createLayerFromJSON`: a text that fails is retried
     * once as a fallback text and is otherwise given up silently; any other
     * primitive that fails throws. An artboard with a background colour
     * gets a background shape inside it, whose failure is ignored.
     */
    method CreateOwnLayer(json: Node, parent: Parent, frame: Frame) returns (out: Outcome)
      requires doc.Valid() && doc.Attachable(parent)
      modifies doc
      ensures doc.Valid()
      ensures HostStep(doc.State(), out) == OwnLayer(doc.fails, old(doc.State()), json, parent, frame)
      ensures var a := old(doc.attempts);
        var n := |old(doc.layers)|;
        var plan := PrimaryRecord(json, parent, frame, ParentFills(old(doc.layers), parent));
        if json.cls == "text" then
          if !doc.fails(a) then out == Returned(Some(Layer(n))) && doc.layers == old(doc.layers) + [TextRecord(json, parent, frame)]
          else if !doc.fails(a + 1) then
            out == Returned(Some(Layer(n))) && doc.layers == old(doc.layers) + [TextFallbackRecord(json, parent, frame)]
          else out == Returned(None) && doc.layers == old(doc.layers)
        else if plan.Throws? || doc.fails(a) then out.Threw? && doc.layers == old(doc.layers)
        else if json.cls == "artboard" && json.background.Some? && !doc.fails(a + 1) then
          out == Returned(Some(Layer(n))) && doc.layers == old(doc.layers) + [plan.value, BackgroundRecord(json, frame, n)]
        else out == Returned(Some(Layer(n))) && doc.layers == old(doc.layers) + [plan.value]
      ensures |doc.layers| >= |old(doc.layers)| && doc.layers[..|old(doc.layers)|] == old(doc.layers)
      ensures |doc.layers| - |old(doc.layers)| <= 2 && Local(old(doc.layers), doc.layers, parent)
      ensures out.Threw? || out.layer.None? ==> doc.layers == old(doc.layers)
      ensures out.Returned? && out.layer.Some? ==>
        && out.layer == Some(Layer(|old(doc.layers)|))
        && |doc.layers| > |old(doc.layers)|
        && IsOwnRecord(json, parent, frame, ParentFills(old(doc.layers), parent), doc.layers[|old(doc.layers)|])
    {
      if json.cls == "text" {
        out := CreateTextLayer(json, parent, frame);
      } else {
        out := CreateShapeLayer(json, parent, frame);
      }
    }

    /** The `text` case: the text, else the fallback text, else nothing. */
    method CreateTextLayer(json: Node, parent: Parent, frame: Frame) returns (out: Outcome)
      requires doc.Valid() && doc.Attachable(parent) && json.cls == "text"
      modifies doc
      ensures doc.Valid()
      ensures HostStep(doc.State(), out) == OwnLayer(doc.fails, old(doc.State()), json, parent, frame)
      ensures var a := old(doc.attempts);
        var n := |old(doc.layers)|;
        if !doc.fails(a) then out == Returned(Some(Layer(n))) && doc.layers == old(doc.layers) + [TextRecord(json, parent, frame)]
        else if !doc.fails(a + 1) then
          out == Returned(Some(Layer(n))) && doc.layers == old(doc.layers) + [TextFallbackRecord(json, parent, frame)]
        else out == Returned(None) && doc.layers == old(doc.layers)
      ensures |doc.layers| >= |old(doc.layers)| && doc.layers[..|old(doc.layers)|] == old(doc.layers)
      ensures |doc.layers| - |old(doc.layers)| <= 2 && Local(old(doc.layers), doc.layers, parent)
      ensures out.Threw? || out.layer.None? ==> doc.layers == old(doc.layers)
      ensures out.Returned? && out.layer.Some? ==> out.layer == Some(Layer(|old(doc.layers)|)) && |doc.layers| > |old(doc.layers)|
      ensures out.layer.Some? ==>
        IsOwnRecord(json, parent, frame, ParentFills(old(doc.layers), parent), doc.layers[|old(doc.layers)|])
    {
      var h := doc.Create(TextRecord(json, parent, frame));
      if h.Some? {
        return Returned(h);
      }
      h := doc.Create(TextFallbackRecord(json, parent, frame));
      return Returned(h);
    }

    /** Every other class: the primitive or a throw, then an artboard's background. */
    method CreateShapeLayer(json: Node, parent: Parent, frame: Frame) returns (out: Outcome)
      requires doc.Valid() && doc.Attachable(parent) && json.cls != "text"
      modifies doc
      ensures doc.Valid()
      ensures HostStep(doc.State(), out) == OwnLayer(doc.fails, old(doc.State()), json, parent, frame)
      ensures var a := old(doc.attempts);
        var n := |old(doc.layers)|;
        var plan := PrimaryRecord(json, parent, frame, ParentFills(old(doc.layers), parent));
        if plan.Throws? || doc.fails(a) then out.Threw? && doc.layers == old(doc.layers)
        else if json.cls == "artboard" && json.background.Some? && !doc.fails(a + 1) then
          out == Returned(Some(Layer(n))) && doc.layers == old(doc.layers) + [plan.value, BackgroundRecord(json, frame, n)]
        else out == Returned(Some(Layer(n))) && doc.layers == old(doc.layers) + [plan.value]
      ensures |doc.layers| >= |old(doc.layers)| && doc.layers[..|old(doc.layers)|] == old(doc.layers)
      ensures |doc.layers| - |old(doc.layers)| <= 2 && Local(old(doc.layers), doc.layers, parent)
      ensures out.Threw? || out.layer.None? ==> doc.layers == old(doc.layers)
      ensures out.Returned? && out.layer.Some? ==> out.layer == Some(Layer(|old(doc.layers)|)) && |doc.layers| > |old(doc.layers)|
      ensures out.Returned? ==>
        IsOwnRecord(json, parent, frame, ParentFills(old(doc.layers), parent), doc.layers[|old(doc.layers)|])
    {
      var plan := PrimaryRecord(json, parent, frame, ParentFills(doc.layers, parent));
      if plan.Throws? {
        return Threw;
      }
      var h := doc.Create(plan.value);
      if h.None? {
        return Threw;
      }
      out := Returned(h);
      if json.cls == "artboard" && json.background.Some? {
        var _ := doc.Create(BackgroundRecord(json, frame, h.value.index));
      }
    }

    /**
     * `createLayerFromJSON`. Beyond depth 30 nothing happens; at the cap
     * the call is only counted as skipped; otherwise the node is counted
     * (even when it turns out to have no class), its primitive created, and
     * its kept children converted in order, while the counter stays below
     * the cap, under the new primitive with this node's repaired frame as
     * their parent frame. A child that throws does not stop its siblings.
     * The counter never passes 500 and grows by at most the node's subtree
     * size; a call made below the cap never counts a skip; at most two
     * primitives are created per counted node; and every primitive created
     * hangs under `parent`, under nothing, or under one created here.
     */
    method CreateLayerFromJSON(json: Node, parent: Parent, parentFrame: Option<Frame>, depth: nat) returns (out: Outcome)
      requires Valid() && doc.Attachable(parent)
      modifies this, doc
      decreases json, 4
      ensures Valid()
      ensures RunStep(Snapshot(), out) == LayerFromJSON(doc.fails, old(Snapshot()), json, parent, parentFrame, depth)
      ensures depth <= MAX_DEPTH && old(layerCount) < MAX_LAYERS && json.cls == "text" &&
              TextOutOfBounds(RepairFrame(json.frame), parentFrame) ==>
        out == Returned(None) && doc.State() == old(doc.State()) && layerCount == old(layerCount) + 1
      ensures old(layerCount) <= layerCount <= old(layerCount) + AsyncBatch.EstimateLayerCount(json)
      ensures old(layerCount) < MAX_LAYERS ==> skippedCount == old(skippedCount)
      ensures |doc.layers| >= |old(doc.layers)| && doc.layers[..|old(doc.layers)|] == old(doc.layers)
      ensures |doc.layers| - |old(doc.layers)| <= 2 * (layerCount - old(layerCount))
      ensures Local(old(doc.layers), doc.layers, parent)
      ensures depth > MAX_DEPTH ==>
        out == Returned(None) && doc.layers == old(doc.layers) && layerCount == old(layerCount) &&
        skippedCount == old(skippedCount)
      ensures depth <= MAX_DEPTH && old(layerCount) >= MAX_LAYERS ==>
        out == Returned(None) && doc.layers == old(doc.layers) && layerCount == old(layerCount) &&
        skippedCount == old(skippedCount) + 1
      ensures depth <= MAX_DEPTH && old(layerCount) < MAX_LAYERS ==> layerCount > old(layerCount)
      ensures json.cls == "" ==> out == Returned(None) && doc.layers == old(doc.layers)
      ensures out.Threw? ==> doc.layers == old(doc.layers) && layerCount == old(layerCount) + 1
      ensures out.Returned? && out.layer.Some? ==>
        && out.layer == Some(Layer(|old(doc.layers)|))
        && |doc.layers| > |old(doc.layers)|
        && IsOwnRecord(json, parent, RepairFrame(json.frame), ParentFills(old(doc.layers), parent), doc.layers[|old(doc.layers)|])
    {
      if depth > MAX_DEPTH {
        return Returned(None);
      }
      if layerCount >= MAX_LAYERS {
        skippedCount := skippedCount + 1;
        return Returned(None);
      }
      layerCount := layerCount + 1;
      if json.cls == "" {
        return Returned(None);
      }
      var frame := RepairFrame(json.frame);
      if json.cls == "text" && TextOutOfBounds(frame, parentFrame) {
        return Returned(None);
      }
      out := CreateNodeLayers(json, parent, frame, depth);
    }

    /** A counted node with a class: its primitive by the `switch`, then its children unless it threw. */
    method CreateNodeLayers(json: Node, parent: Parent, frame: Frame, depth: nat) returns (out: Outcome)
      requires Valid() && doc.Attachable(parent) && 1 <= layerCount && json.cls != ""
      modifies this, doc
      decreases json, 3
      ensures Valid()
      ensures RunStep(Snapshot(), out) == NodeLayers(doc.fails, old(Snapshot()), json, parent, frame, depth)
      ensures old(layerCount) <= layerCount <= old(layerCount) + AsyncBatch.TreeSize(json.layers)
      ensures skippedCount == old(skippedCount)
      ensures |doc.layers| >= |old(doc.layers)| && doc.layers[..|old(doc.layers)|] == old(doc.layers)
      ensures |doc.layers| - |old(doc.layers)| <= 2 + 2 * (layerCount - old(layerCount))
      ensures Local(old(doc.layers), doc.layers, parent)
      ensures out.Threw? ==> doc.layers == old(doc.layers) && layerCount == old(layerCount)
      ensures out.Returned? && out.layer.Some? ==>
        && out.layer == Some(Layer(|old(doc.layers)|))
        && |doc.layers| > |old(doc.layers)|
        && IsOwnRecord(json, parent, frame, ParentFills(old(doc.layers), parent), doc.layers[|old(doc.layers)|])
    {
      ghost var d0 := doc.layers;
      out := CreateOwnLayer(json, parent, frame);
      if out.Threw? {
        return;
      }
      if |json.layers| > 0 {
        ConvertChildren(json, out.layer, frame, depth, parent, d0);
      }
    }

    /**
     * The child loop of `createLayerFromJSON`: the kept children, at most
     * as many as the counter has room for when the loop starts, each
     * converted only while the counter is below the cap, a thrown child
     * being caught and skipped. (The source walks them in slices of 20,
     * which changes nothing but its logging.)
     */
    method ConvertChildren(json: Node, layer: Option<Parent>, frame: Frame, depth: nat,
                           ghost parent: Parent, ghost d0: seq<Record>)
      requires Valid() && 1 <= layerCount
      requires |doc.layers| >= |d0| && doc.layers[..|d0|] == d0
      requires layer.Some? ==> layer.value == Layer(|d0|) && |doc.layers| > |d0|
      requires |doc.layers| - |d0| <= 2 && Local(d0, doc.layers, parent)
      modifies this, doc
      decreases json, 2
      ensures Valid()
      ensures Snapshot() == Children(doc.fails, old(Snapshot()), json, layer, frame, depth)
      ensures old(layerCount) <= layerCount <= old(layerCount) + AsyncBatch.TreeSize(json.layers)
      ensures skippedCount == old(skippedCount)
      ensures |doc.layers| >= |old(doc.layers)| && doc.layers[..|old(doc.layers)|] == old(doc.layers)
      ensures |doc.layers| - |old(doc.layers)| <= 2 * (layerCount - old(layerCount))
      ensures Local(d0, doc.layers, parent)
    {
      var childParent := if layer.Some? then layer.value else Detached;
      var filteredChildren := FilterChildren(json.layers);
      FilterChildrenSize(json.layers);
      var maxChildren := MinInt(|filteredChildren|, MAX_LAYERS - layerCount);
      ConvertChildList(json, filteredChildren, maxChildren, childParent, frame, depth, parent, d0);
    }

    /** The loop proper, over the first `maxChildren` of the kept children. */
    method ConvertChildList(ghost json: Node, filteredChildren: seq<Node>, maxChildren: nat, childParent: Parent,
                            frame: Frame, depth: nat, ghost parent: Parent, ghost d0: seq<Record>)
      requires Valid() && doc.Attachable(childParent) && maxChildren <= |filteredChildren|
      requires forall c :: c in filteredChildren ==> c in json.layers
      requires |doc.layers| >= |d0| && doc.layers[..|d0|] == d0 && Local(d0, doc.layers, parent)
      requires HangsBelow(childParent, parent, |d0|)
      modifies this, doc
      decreases json, 1
      ensures Valid()
      ensures Snapshot() == ChildList(doc.fails, old(Snapshot()), json, filteredChildren, maxChildren, childParent, frame, depth)
      ensures old(layerCount) <= layerCount <= old(layerCount) + AsyncBatch.TreeSize(filteredChildren)
      ensures skippedCount == old(skippedCount)
      ensures |doc.layers| >= |old(doc.layers)| && doc.layers[..|old(doc.layers)|] == old(doc.layers)
      ensures |doc.layers| - |old(doc.layers)| <= 2 * (layerCount - old(layerCount))
      ensures Local(d0, doc.layers, parent)
    {
      ghost var d1 := doc.layers;
      ghost var s1 := Snapshot();
      ghost var spent := 0;
      assert filteredChildren[0..] == filteredChildren;
      var i := 0;
      while i < maxChildren
        invariant 0 <= i <= maxChildren
        invariant Valid() && doc.Attachable(childParent)
        invariant spent + AsyncBatch.TreeSize(filteredChildren[i..]) == AsyncBatch.TreeSize(filteredChildren)
        invariant old(layerCount) <= layerCount <= old(layerCount) + spent
        invariant skippedCount == old(skippedCount)
        invariant |doc.layers| >= |d1| && doc.layers[..|d1|] == d1
        invariant |doc.layers| - |d1| <= 2 * (layerCount - old(layerCount))
        invariant Local(d0, doc.layers, parent)
        invariant Snapshot() == ChildList(doc.fails, s1, json, filteredChildren, i, childParent, frame, depth)
      {
        assert filteredChildren[i..][1..] == filteredChildren[i + 1..];
        ghost var di := doc.layers;
        spent := spent + AsyncBatch.EstimateLayerCount(filteredChildren[i]);
        ConvertChild(json, filteredChildren[i], childParent, frame, depth, parent, d0);
        PrefixTrans(d1, di, doc.layers);
        i := i + 1;
      }
    }

    /**
     * One turn of the child loop: once the counter has reached the cap the
     * child is passed over; otherwise it is converted and whatever it
     * throws is caught.
     */
    method ConvertChild(ghost json: Node, child: Node, childParent: Parent, frame: Frame, depth: nat,
                        ghost parent: Parent, ghost d0: seq<Record>)
      requires Valid() && doc.Attachable(childParent) && child in json.layers
      requires |doc.layers| >= |d0| && doc.layers[..|d0|] == d0 && Local(d0, doc.layers, parent)
      requires HangsBelow(childParent, parent, |d0|)
      modifies this, doc
      decreases json, 0
      ensures Valid()
      ensures Snapshot() == Child(doc.fails, old(Snapshot()), json, child, childParent, frame, depth)
      ensures old(layerCount) <= layerCount <= old(layerCount) + AsyncBatch.EstimateLayerCount(child)
      ensures skippedCount == old(skippedCount)
      ensures |doc.layers| >= |old(doc.layers)| && doc.layers[..|old(doc.layers)|] == old(doc.layers)
      ensures |doc.layers| - |old(doc.layers)| <= 2 * (layerCount - old(layerCount))
      ensures Local(d0, doc.layers, parent)
    {
      if layerCount >= MAX_LAYERS {
        return;
      }
      ghost var di := doc.layers;
      var _ := CreateLayerFromJSON(child, childParent, Some(frame), depth + 1);
      LocalTrans(d0, di, doc.layers, parent, childParent);
    }

    /**
     * `createDesignFromSketchJSON`: a design without a class is refused;
     * otherwise both counters are reset and the root is converted on the
     * page. An exception or a `null` root fails the conversion. No call is
     * ever refused at the cap, so nothing is ever counted as skipped.
     */
    method CreateDesignFromSketchJSON(sketchJSON: Node) returns (root: Option<Parent>)
      requires Valid()
      modifies this, doc
      ensures Valid()
      ensures (Snapshot(), root) == DesignFromSketch(doc.fails, old(Snapshot()), sketchJSON)
      ensures sketchJSON.cls == "" ==>
        root.None? && doc.layers == old(doc.layers) && layerCount == old(layerCount) && skippedCount == old(skippedCount)
      ensures sketchJSON.cls != "" ==>
        1 <= layerCount <= AsyncBatch.EstimateLayerCount(sketchJSON) && skippedCount == 0
      ensures |doc.layers| >= |old(doc.layers)| && doc.layers[..|old(doc.layers)|] == old(doc.layers)
      ensures Local(old(doc.layers), doc.layers, Page)
      ensures root.Some? ==>
        && root == Some(Layer(|old(doc.layers)|))
        && |doc.layers| > |old(doc.layers)|
        && doc.layers[|old(doc.layers)|].parent == Page
    {
      if sketchJSON.cls == "" {
        return None;
      }
      layerCount := 0;
      skippedCount := 0;
      var out := CreateLayerFromJSON(sketchJSON, Page, None, 0);
      if out.Threw? || out.layer.None? {
        return None;
      }
      root := out.layer;
      ghost var r := doc.layers[|old(doc.layers)|];
      assert IsOwnRecord(sketchJSON, Page, RepairFrame(sketchJSON.frame), Some([]), r);
    }
  }
}
