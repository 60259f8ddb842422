/**
 * The input: one node of the JSON design tree an HTML-to-design extractor
 * produces, with only the fields the converters read. Absent strings are
 * modelled as "", since every use of them is a truthiness test; absent or
 * null numbers keep their identity in `Num`.
 */
module DesignNode {
  import opened JsValues

  /** `frame` as it appears in the JSON: each field may be missing or null. */
  datatype RawFrame = RawFrame(x: Num, y: Num, width: Num, height: Num)

  /** A frame handed to the host. */
  datatype Frame = Frame(x: real, y: real, width: real, height: real)

  datatype Point2 = Point2(x: real, y: real)

  /**
   * A coordinate pair given either as an object `{x, y}` or as the text
   * `"{x, y}"`; the text form is represented by the pair its pattern yields,
   * or `None` when the pattern does not match. An empty string is modelled
   * as an absent coordinate: every reader treats the two alike.
   */
  datatype Coord = CoordObject(cx: Num, cy: Num) | CoordText(parsed: Option<Point2>)

  /**
   * A colour as the JSON may carry it: missing or null, a component object
   * `{red, green, blue, alpha}` (values in [0,1]), some other object without
   * `red`, or a string.
   */
  datatype Color =
    | NoColor
    | Components(red: real, green: real, blue: real, alpha: Num)
    | OtherObject
    | Text(s: string)

  /** JavaScript truthiness of a colour value. */
  predicate ColorPresent(c: Color)
  {
    match c
    case NoColor => false
    case Text(s) => s != ""
    case _ => true
  }

  datatype GradientStop = GradientStop(color: Color, position: Num)

  datatype Gradient = Gradient(gradientType: Num, from: Option<Coord>, to: Option<Coord>,
                               stops: Option<seq<GradientStop>>)

  /** `disabled` stands for `isEnabled === false`. */
  datatype Fill = Fill(disabled: bool, fillType: Num, color: Color, gradient: Option<Gradient>)

  datatype Border = Border(disabled: bool, fillType: Num, color: Color, thickness: Num, position: Num)

  datatype Shadow = Shadow(disabled: bool, color: Color, offsetX: Num, offsetY: Num,
                           blurRadius: Num, spread: Num)

  datatype Blur = Blur(disabled: bool, blurType: Num, radius: Num, motionAngle: Num,
                       center: Option<Coord>, saturation: Num)

  /**
   * `style`: `opacity` is `contextSettings.opacity`, `corners` the `radius`
   * of each `corners` entry, `fontSize` the encoded font attribute's size.
   * `borders` keeps the difference between missing and empty, which one
   * reader tests.
   */
  datatype Style = Style(fills: seq<Fill>, borders: Option<seq<Border>>, shadows: seq<Shadow>,
                         innerShadows: seq<Shadow>, blur: Option<Blur>, opacity: Num,
                         corners: seq<Num>, fontSize: Num)

  const EmptyStyle := Style([], None, [], [], None, Undefined, [], Undefined)

  function StyleOf(style: Option<Style>): Style
  {
    if style.Some? then style.value else EmptyStyle
  }

  /** One anchor point of a vector path (`points[]`). */
  datatype PathPoint = PathPoint(point: Option<Coord>, curveFrom: Option<Coord>, curveTo: Option<Coord>,
                                 curveMode: Num, cornerRadius: Num)

  /**
   * A design node. `cls` is `_class`, `svgImport` the truthiness of
   * `_isSVGImport`, `svgString` is `_svgString`, `text` is
   * `attributedString.string`, `background` is `backgroundColor.value` when
   * `backgroundColor` is present.
   */
  datatype Node = Node(cls: string, name: string, frame: Option<RawFrame>, style: Option<Style>,
                       layers: seq<Node>, svgImport: bool, svgString: string, text: string,
                       fixedRadius: Num, points: seq<PathPoint>, background: Option<string>)
}
