/**
 * Style values as they are handed to the host's primitive constructors.
 */
module NativeStyle {
  import opened JsValues
  import opened DesignNode

  /** The alpha slot of an `rgba(...)` colour: a number, or text copied verbatim from the input. */
  datatype Alpha = AlphaNum(n: Num) | AlphaText(text: string)

  /**
   * A colour handed to the host: the structured content of an
   * `rgba(r, g, b, a)` text, or a colour string passed on unchanged.
   */
  datatype CssColor = Rgba(r: int, g: int, b: int, a: Alpha) | Literal(text: string)

  datatype GradientKind = Linear | Radial | Angular

  datatype StopOut = StopOut(color: CssColor, position: Num)

  /** A gradient stop whose colour may have failed to convert (kept as `null`). */
  datatype RawStop = RawStop(color: Option<CssColor>, position: Num)

  datatype FillOut =
    | SolidFill(color: CssColor)
    | GradientFill(kind: GradientKind, from: Coord, to: Coord, stops: seq<StopOut>)
      /** A gradient whose type is passed on as a clamped number rather than a name. */
    | IndexedGradientFill(gradientType: real, start: Coord, end: Coord, rawStops: seq<RawStop>)

  /** Border positions of the host's enumeration. */
  const CENTER: real := 0.0
  const INSIDE: real := 1.0
  const OUTSIDE: real := 2.0

  datatype BorderOut = BorderOut(color: CssColor, thickness: real, position: real)

  datatype ShadowOut = ShadowOut(x: real, y: real, blur: real, spread: real, color: CssColor)

  datatype BlurKind = Gaussian | Motion

  datatype BlurOut = BlurOut(kind: BlurKind, radius: real, motionAngle: real, center: Coord, saturation: real)

  /** Each list is present only when it has entries; `opacity` is `Undefined` when not set. */
  datatype ShapeStyle = ShapeStyle(fills: Option<seq<FillOut>>, borders: Option<seq<BorderOut>>,
                                   shadows: Option<seq<ShadowOut>>, innerShadows: Option<seq<ShadowOut>>,
                                   blur: Option<BlurOut>, opacity: Num)

  const NoStyle := ShapeStyle(None, None, None, None, None, Undefined)
}
