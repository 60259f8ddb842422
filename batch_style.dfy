/**
 * Style normalisation of the asynchronous batch converter
 * (src/async-batch-api.js): the JSON style of a node becomes the fills,
 * borders, shadows, blur and opacity handed to a host shape. Every list is
 * a filter-map of its JSON list: disabled entries and entries whose colour
 * does not convert are dropped, and a list key is set only when something
 * is left.
 */
module BatchStyle {
  import opened JsValues
  import opened DesignNode
  import opened NativeStyle

  /**
   * `sketchColorToRgba` of the batch converter: a non-empty string is passed
   * on as it is, a component object becomes `rgba(...)` with alpha 1 when
   * it has none, anything else is `null`.
   */
  function SketchColorToRgba(color: Color): (r: Option<CssColor>)
    ensures r.Some? <==> ColorPresent(color) && !color.OtherObject?
    ensures color.Text? && r.Some? ==> r.value == Literal(color.s)
    ensures color.Components? ==>
      && r.Some? && r.value.Rgba?
      && (color.alpha.Undefined? ==> r.value.a == AlphaNum(Val(1.0)))
      && (!color.alpha.Undefined? ==> r.value.a == AlphaNum(color.alpha))
  {
    match color
    case NoColor => None
    case OtherObject => None
    case Text(s) => if s == "" then None else Some(Literal(s))
    case Components(red, green, blue, alpha) =>
      Some(Rgba(Round(red * 255.0), Round(green * 255.0), Round(blue * 255.0),
                AlphaNum(if alpha.Undefined? then Val(1.0) else alpha)))
  }

  /** Components in [0, 1] give channels in 0..255. */
  lemma ChannelsInRange(red: real, green: real, blue: real, alpha: Num)
    requires 0.0 <= red <= 1.0 && 0.0 <= green <= 1.0 && 0.0 <= blue <= 1.0
    ensures var c := SketchColorToRgba(Components(red, green, blue, alpha)).value;
      0 <= c.r <= 255 && 0 <= c.g <= 255 && 0 <= c.b <= 255
  {
  }

  /** `mapGradientType` */
  function MapGradientType(gradientType: Num): (k: GradientKind)
    ensures k == Radial <==> gradientType == Val(1.0)
    ensures k == Angular <==> gradientType == Val(2.0)
  {
    if gradientType == Val(1.0) then Radial
    else if gradientType == Val(2.0) then Angular
    else Linear
  }

  /** The JSON code of a gradient kind. */
  function GradientCode(k: GradientKind): real
  {
    match k
    case Linear => 0.0
    case Radial => 1.0
    case Angular => 2.0
  }

  /** Every kind is recovered from its JSON code. */
  lemma GradientCodeRoundTrip(k: GradientKind)
    ensures MapGradientType(Val(GradientCode(k))) == k
  {
  }

  /* ---------- filter-map ---------- */

  /** `forEach` with a conditional `push`: the images of the entries `f` keeps, in order. */
  function FilterMap<A, B>(s: seq<A>, f: A -> Option<B>): (r: seq<B>)
    ensures |r| <= |s|
    ensures forall y :: y in r ==> exists x :: x in s && f(x) == Some(y)
    ensures forall x :: x in s && f(x).Some? ==> f(x).value in r
  {
    if s == [] then []
    else
      var rest := FilterMap(s[1..], f);
      assert forall x :: x in s[1..] ==> x in s;
      match f(s[0])
      case Some(y) => [y] + rest
      case None => rest
  }

  /** Nothing is kept exactly when `f` keeps no entry. */
  lemma {:induction false} FilterMapEmpty<A, B>(s: seq<A>, f: A -> Option<B>)
    ensures FilterMap(s, f) == [] <==> forall x :: x in s ==> f(x).None?
  {
    var r := FilterMap(s, f);
    if r != [] {
      assert r[0] in r;
    }
  }

  /** Filter-mapping a concatenation filter-maps each part. */
  lemma {:induction false} FilterMapConcat<A, B>(a: seq<A>, b: seq<A>, f: A -> Option<B>)
    ensures FilterMap(a + b, f) == FilterMap(a, f) + FilterMap(b, f)
    decreases |a|
  {
    if a != [] {
      assert (a + b)[1..] == a[1..] + b;
      assert (a + b)[0] == a[0];
      FilterMapConcat(a[1..], b, f);
      match f(a[0])
      case Some(y) =>
        assert FilterMap(a + b, f) == [y] + FilterMap(a[1..] + b, f);
      case None =>
        assert FilterMap(a + b, f) == FilterMap(a[1..] + b, f);
    } else {
      assert a + b == b;
    }
  }

  /** One entry gives its image when `f` keeps it, and nothing otherwise. */
  lemma FilterMapSingle<A, B>(x: A, f: A -> Option<B>)
    ensures FilterMap([x], f) == if f(x).Some? then [f(x).value] else []
  {
    assert [x][1..] == [];
  }

  /** A list key: set only when the list has entries. */
  function NonEmpty<T>(s: seq<T>): (r: Option<seq<T>>)
    ensures r.Some? <==> |s| > 0
    ensures r.Some? ==> r.value == s
  {
    if |s| > 0 then Some(s) else None
  }

  /* ---------- entries ---------- */

  /** A gradient stop with a colour; the position defaults to 0 only when it is absent. */
  function ConvertStop(stop: GradientStop): (r: Option<StopOut>)
    ensures r.Some? <==> SketchColorToRgba(stop.color).Some?
    ensures r.Some? ==> r.value.color == SketchColorToRgba(stop.color).value
    ensures r.Some? ==> r.value.position == (if stop.position.Undefined? then Val(0.0) else stop.position)
  {
    match SketchColorToRgba(stop.color)
    case None => None
    case Some(c) => Some(StopOut(c, if stop.position.Undefined? then Val(0.0) else stop.position))
  }

  /**
   * One fill: a gradient fill (type 1 with a gradient) is kept only with at
   * least one coloured stop and never falls back to the colour; any other
   * enabled fill is kept when its colour converts.
   */
  function ConvertFill(fill: Fill): (r: Option<FillOut>)
    ensures fill.disabled ==> r.None?
    ensures r.Some? && r.value.GradientFill? ==> |r.value.stops| >= 1
    ensures !fill.disabled && !(fill.fillType == Val(1.0) && fill.gradient.Some?) ==>
      (r.Some? <==> SketchColorToRgba(fill.color).Some?) &&
      (r.Some? ==> r.value == SolidFill(SketchColorToRgba(fill.color).value))
    ensures !fill.disabled && fill.fillType == Val(1.0) && fill.gradient.Some? ==>
      var g := fill.gradient.value;
      && (r.Some? <==> g.stops.Some? && exists st :: st in g.stops.value && ConvertStop(st).Some?)
      && (r.Some? ==>
            && r.value.GradientFill?
            && r.value.kind == MapGradientType(g.gradientType)
            && r.value.stops == FilterMap(g.stops.value, ConvertStop)
            && r.value.from == (if g.from.Some? then g.from.value else CoordObject(Val(0.5), Val(0.0)))
            && r.value.to == (if g.to.Some? then g.to.value else CoordObject(Val(0.5), Val(1.0))))
  {
    if fill.disabled then None
    else if fill.fillType == Val(1.0) && fill.gradient.Some? then
      var g := fill.gradient.value;
      var stops := if g.stops.Some? then FilterMap(g.stops.value, ConvertStop) else [];
      FilterMapEmpty(if g.stops.Some? then g.stops.value else [], ConvertStop);
      if |stops| == 0 then None
      else
        var from := if g.from.Some? then g.from.value else CoordObject(Val(0.5), Val(0.0));
        var to := if g.to.Some? then g.to.value else CoordObject(Val(0.5), Val(1.0));
        Some(GradientFill(MapGradientType(g.gradientType), from, to, stops))
    else
      match SketchColorToRgba(fill.color)
      case None => None
      case Some(c) => Some(SolidFill(c))
  }

  /** The host's border position for a JSON position: 0 centre, 1 inside, anything else outside. */
  function BorderPosition(position: Num): (p: real)
    ensures p == CENTER || p == INSIDE || p == OUTSIDE
    ensures p == CENTER <==> position == Val(0.0)
    ensures p == INSIDE <==> position == Val(1.0)
    ensures p == OUTSIDE <==> position != Val(0.0) && position != Val(1.0)
  {
    if position == Val(0.0) then CENTER else if position == Val(1.0) then INSIDE else OUTSIDE
  }

  /** A host position given back as JSON maps to itself. */
  lemma BorderPositionRoundTrip(p: real)
    requires p == CENTER || p == INSIDE || p == OUTSIDE
    ensures BorderPosition(Val(p)) == p
  {
  }

  /** One border: enabled, with a convertible colour and a positive thickness. */
  function ConvertBorder(border: Border): (r: Option<BorderOut>)
    ensures r.Some? <==> !border.disabled && SketchColorToRgba(border.color).Some? &&
                         border.thickness.Val? && border.thickness.v > 0.0
    ensures r.Some? ==> r.value.thickness == border.thickness.v && r.value.thickness > 0.0 &&
                        r.value.position == BorderPosition(border.position) &&
                        r.value.color == SketchColorToRgba(border.color).value
  {
    if border.disabled then None
    else match SketchColorToRgba(border.color)
      case None => None
      case Some(c) =>
        if border.thickness.Undefined? || AtMost(border.thickness, 0.0) then None
        else Some(BorderOut(c, border.thickness.v, BorderPosition(border.position)))
  }

  /** One shadow (outer or inner): missing offsets, blur and spread are 0. */
  function ConvertShadow(shadow: Shadow): (r: Option<ShadowOut>)
    ensures r.Some? <==> !shadow.disabled && SketchColorToRgba(shadow.color).Some?
    ensures r.Some? ==> r.value.x == Or(shadow.offsetX, 0.0) && r.value.y == Or(shadow.offsetY, 0.0) &&
                        r.value.blur == Or(shadow.blurRadius, 0.0) && r.value.spread == Or(shadow.spread, 0.0)
  {
    if shadow.disabled then None
    else match SketchColorToRgba(shadow.color)
      case None => None
      case Some(c) =>
        Some(ShadowOut(Or(shadow.offsetX, 0.0), Or(shadow.offsetY, 0.0), Or(shadow.blurRadius, 0.0),
                       Or(shadow.spread, 0.0), c))
  }

  /** The blur: type 0 is Gaussian, anything else Motion; radius 4, saturation 1 and a centred origin by default. */
  function ConvertBlur(blur: Option<Blur>): (r: Option<BlurOut>)
    ensures r.Some? <==> blur.Some? && !blur.value.disabled
    ensures r.Some? ==> (r.value.kind == Gaussian <==> blur.value.blurType == Val(0.0))
    ensures r.Some? ==> r.value.radius != 0.0 && r.value.saturation != 0.0
  {
    if blur.None? || blur.value.disabled then None
    else
      var b := blur.value;
      Some(BlurOut(if b.blurType == Val(0.0) then Gaussian else Motion,
                   Or(b.radius, 4.0), Or(b.motionAngle, 0.0),
                   if b.center.Some? then b.center.value else CoordObject(Val(0.5), Val(0.5)),
                   Or(b.saturation, 1.0)))
  }

  /** `buildShapeStyle`: nothing for a missing style. */
  function BuildShapeStyle(style: Option<Style>): (r: ShapeStyle)
    ensures style.None? ==> r == NoStyle
    ensures r.fills.Some? ==> |r.fills.value| > 0
    ensures r.borders.Some? ==> |r.borders.value| > 0
    ensures r.shadows.Some? ==> |r.shadows.value| > 0
    ensures r.innerShadows.Some? ==> |r.innerShadows.value| > 0
    ensures r.opacity == (if style.Some? then style.value.opacity else Undefined)
  {
    if style.None? then NoStyle
    else
      var s := style.value;
      ShapeStyle(NonEmpty(FilterMap(s.fills, ConvertFill)),
                 NonEmpty(if s.borders.Some? then FilterMap(s.borders.value, ConvertBorder) else []),
                 NonEmpty(FilterMap(s.shadows, ConvertShadow)),
                 NonEmpty(FilterMap(s.innerShadows, ConvertShadow)),
                 ConvertBlur(s.blur),
                 s.opacity)
  }

  /* ---------- properties of the built style ---------- */

  /**
   * Every border handed to the host has a positive thickness and one of
   * the three host positions, and came from an enabled JSON border.
   */
  lemma BordersWellFormed(style: Style)
    ensures var r := BuildShapeStyle(Some(style));
      r.borders.Some? ==>
        && style.borders.Some?
        && forall b :: b in r.borders.value ==>
          && b.thickness > 0.0
          && (b.position == CENTER || b.position == INSIDE || b.position == OUTSIDE)
          && exists j :: j in style.borders.value && !j.disabled && ConvertBorder(j) == Some(b)
  {
  }

  /** Every gradient fill handed to the host has at least one stop, and every fill came from an enabled one. */
  lemma FillsWellFormed(style: Style)
    ensures var r := BuildShapeStyle(Some(style));
      r.fills.Some? ==>
        forall f :: f in r.fills.value ==>
          (f.GradientFill? ==> |f.stops| >= 1) &&
          exists j :: j in style.fills && !j.disabled && ConvertFill(j) == Some(f)
  {
  }

  /** The fills key is absent exactly when no JSON fill survives. */
  lemma FillsAbsent(style: Style)
    ensures BuildShapeStyle(Some(style)).fills.None? <==> forall j :: j in style.fills ==> ConvertFill(j).None?
  {
    FilterMapEmpty(style.fills, ConvertFill);
  }

  /** A style whose entries are all disabled hands no lists to the host. */
  lemma AllDisabled(style: Style)
    requires forall f :: f in style.fills ==> f.disabled
    requires style.borders.Some? ==> forall b :: b in style.borders.value ==> b.disabled
    requires forall s :: s in style.shadows ==> s.disabled
    requires forall s :: s in style.innerShadows ==> s.disabled
    ensures var r := BuildShapeStyle(Some(style));
      r.fills.None? && r.borders.None? && r.shadows.None? && r.innerShadows.None?
  {
    FilterMapEmpty(style.fills, ConvertFill);
    if style.borders.Some? {
      FilterMapEmpty(style.borders.value, ConvertBorder);
    }
    FilterMapEmpty(style.shadows, ConvertShadow);
    FilterMapEmpty(style.innerShadows, ConvertShadow);
  }
}
