/**
 * The safe-mode converter (src/safe-mode-api.js): a deliberately degraded
 * conversion that creates only groups, plain rectangles and texts, repairs
 * frames by resetting bad values, keeps at most one fill colour per
 * rectangle, and stops nesting ten levels below the root group.
 */
module SafeMode {
  import opened JsValues
  import opened DesignNode
  import opened NativeStyle
  import opened Host
  import ColorTranslator
  import AsyncBatch
  import DesignApi

  /** Deepest `depth` at which a group still converts its children is one less. */
  const MAX_DEPTH: nat := 10
  /** Top-level layers beyond this many are dropped. */
  const MAX_ROOT_LAYERS: nat := 50
  const MAX_COORD: real := 10000.0

  /* ---------- frames ---------- */

  /** A side that is missing, 0 or below 1 becomes 100. */
  function SafeSize(n: Num): (r: real)
    ensures r >= 1.0
    ensures r == (if n.Val? && n.v >= 1.0 then n.v else 100.0)
  {
    if !Truthy(n) || Below(n, 1.0) then 100.0 else n.v
  }

  /**
   * A position outside [-10000, 10000] is reset to 0, not clamped. A
   * missing or `null` position reaches the host as it is; the host reads it
   * as 0.
   */
  function SafeCoord(n: Num): (r: real)
    ensures -MAX_COORD <= r <= MAX_COORD
    ensures r == (if n.Val? && -MAX_COORD <= n.v <= MAX_COORD then n.v else 0.0)
  {
    if Below(n, -MAX_COORD) || Above(n, MAX_COORD) then 0.0
    else if n.Val? then n.v
    else 0.0
  }

  /** The repaired frame of `createLayerSafe`; a node without one gets (0, 0, 100, 100). */
  function SafeFrame(frame: Option<RawFrame>): (r: Frame)
    ensures r.width >= 1.0 && r.height >= 1.0
    ensures -MAX_COORD <= r.x <= MAX_COORD && -MAX_COORD <= r.y <= MAX_COORD
    ensures frame.None? ==> r == Frame(0.0, 0.0, 100.0, 100.0)
  {
    var f := if frame.Some? then frame.value else RawFrame(Val(0.0), Val(0.0), Val(100.0), Val(100.0));
    Frame(SafeCoord(f.x), SafeCoord(f.y), SafeSize(f.width), SafeSize(f.height))
  }

  /** Repairing a repaired frame changes nothing. */
  lemma SafeFrameIdempotent(frame: Option<RawFrame>)
    ensures SafeFrame(Some(AsyncBatch.AsRaw(SafeFrame(frame)))) == SafeFrame(frame)
  {
  }

  /**
   * Where the two converters part ways: a side below 1 becomes 100 here
   * but 1 in the recursive converter, and a far-off position is reset to 0
   * here but clamped there.
   */
  lemma RepairDiffersFromRecursive(side: real, pos: real)
    requires 0.0 < side < 1.0 && pos > DesignApi.MAX_COORD
    ensures SafeSize(Val(side)) == 100.0 && DesignApi.RepairSize(Val(side)) == 1.0
    ensures SafeCoord(Val(pos)) == 0.0 && DesignApi.RepairCoord(Val(pos)) == DesignApi.MAX_COORD
  {
  }

  /* ---------- the `#rrggbb` fill ---------- */

  function HexChar(d: nat): (c: char)
    requires d < 16
    ensures ColorTranslator.IsHexDigit(c) && ColorTranslator.HexValue(c) == d
    ensures ColorTranslator.IsDigit(c) || 'a' <= c <= 'f'
  {
    if d < 10 then ('0' as int + d) as char else ('a' as int + d - 10) as char
  }

  /** `n.toString(16)` for a non-negative integer. */
  function NatToHex(n: nat): string
    decreases n
  {
    if n < 16 then [HexChar(n)] else NatToHex(n / 16) + [HexChar(n % 16)]
  }

  /** `n.toString(16)` for any integer. */
  function IntToHex(n: int): string
  {
    if n < 0 then "-" + NatToHex(-n) else NatToHex(n)
  }

  /** `s.padStart(w, '0')` */
  function PadStart(s: string, w: nat): (r: string)
    ensures |r| >= w && |r| >= |s|
    ensures |s| < w ==> |r| == w
    decreases w - |s|
  {
    if |s| >= w then s else PadStart("0" + s, w)
  }

  function HexByte(n: int): string
  {
    PadStart(IntToHex(n), 2)
  }

  /** A channel in 0..255 is written as exactly two lower-case hex digits, high digit first. */
  lemma HexByteExact(n: int)
    requires 0 <= n <= 255
    ensures HexByte(n) == [HexChar(n / 16), HexChar(n % 16)]
  {
    if n < 16 {
      assert IntToHex(n) == [HexChar(n)];
      assert PadStart([HexChar(n)], 2) == PadStart(['0', HexChar(n)], 2) == ['0', HexChar(n)];
      assert HexChar(n / 16) == '0';
    } else {
      assert NatToHex(n / 16) == [HexChar(n / 16)];
    }
  }

  /** The colour text a component colour becomes; other colours set no fill. The alpha is dropped. */
  function HexColor(c: Color): (r: Option<string>)
    ensures r.Some? <==> c.Components?
    ensures r.Some? ==> |r.value| >= 7 && r.value[0] == '#'
  {
    match c
    case Components(red, green, blue, _) =>
      Some("#" + HexByte(Round(red * 255.0)) + HexByte(Round(green * 255.0)) + HexByte(Round(blue * 255.0)))
    case _ => None
  }

  /**
   * For channels in [0, 1] the colour text reads back, through the
   * recursive converter's colour parser, as the same colour with full
   * opacity: the one the component colour itself gives with its alpha
   * left out.
   */
  lemma HexColorRoundTrip(red: real, green: real, blue: real, alpha: Num)
    requires 0.0 <= red <= 1.0 && 0.0 <= green <= 1.0 && 0.0 <= blue <= 1.0
    ensures var hex := HexColor(Components(red, green, blue, alpha));
      && hex.Some? && |hex.value| == 7
      && ColorTranslator.SketchColorToRgba(Color.Text(hex.value)) ==
         ColorTranslator.SketchColorToRgba(Components(red, green, blue, Undefined))
  {
    var r, g, b := Round(red * 255.0), Round(green * 255.0), Round(blue * 255.0);
    ColorTranslator.ComponentColor(red, green, blue);
    assert ColorTranslator.SketchColorToRgba(Components(red, green, blue, Undefined)) ==
      Some(Rgba(r, g, b, AlphaNum(Val(1.0))));
    assert HexColor(Components(red, green, blue, alpha)) == Some("#" + HexByte(r) + HexByte(g) + HexByte(b));
    HexTriple(r, g, b);
  }

  /** The six digits of `#rrggbb`. */
  function SixDigits(r: int, g: int, b: int): (d: string)
    requires 0 <= r <= 255 && 0 <= g <= 255 && 0 <= b <= 255
    ensures |d| == 6 && ColorTranslator.AllHex(d)
    ensures ColorTranslator.Pair(d, 0) == r && ColorTranslator.Pair(d, 1) == g && ColorTranslator.Pair(d, 2) == b
  {
    [HexChar(r / 16), HexChar(r % 16), HexChar(g / 16), HexChar(g % 16), HexChar(b / 16), HexChar(b % 16)]
  }

  /** Three channels in 0..255 written as `#rrggbb` parse back as themselves with alpha 1. */
  lemma HexTriple(r: int, g: int, b: int)
    requires 0 <= r <= 255 && 0 <= g <= 255 && 0 <= b <= 255
    ensures |"#" + HexByte(r) + HexByte(g) + HexByte(b)| == 7
    ensures ColorTranslator.SketchColorToRgba(Color.Text("#" + HexByte(r) + HexByte(g) + HexByte(b))) ==
      Some(Rgba(r, g, b, AlphaNum(Val(1.0))))
  {
    HexByteExact(r);
    HexByteExact(g);
    HexByteExact(b);
    var d := SixDigits(r, g, b);
    assert "#" + HexByte(r) + HexByte(g) + HexByte(b) == ['#'] + d;
    ColorTranslator.SixDigitHex(['#'] + d, d);
  }

  /** The colour a rectangle is filled with: the first fill's, if it is a component colour, whatever its flags. */
  function SafeFill(style: Option<Style>): (r: Option<string>)
    ensures var fills := StyleOf(style).fills;
      r.Some? <==> |fills| > 0 && fills[0].color.Components?
    ensures r.Some? ==> r == HexColor(StyleOf(style).fills[0].color)
  {
    var fills := StyleOf(style).fills;
    if |fills| > 0 && ColorPresent(fills[0].color) then HexColor(fills[0].color) else None
  }

  /* ---------- primitives ---------- */

  /** The text shown: the encoded string, else the name, else "Text". */
  function TextContent(json: Node): (r: string)
    ensures r != ""
    ensures json.text != "" ==> r == json.text
    ensures json.text == "" && json.name != "" ==> r == json.name
  {
    OrText(json.text, OrText(json.name, "Text"))
  }

  /** The font size is set only when it lies strictly between 0 and 200. */
  function SafeFontSize(json: Node): (r: Option<real>)
    ensures r.Some? <==> StyleOf(json.style).fontSize.Val? && 0.0 < StyleOf(json.style).fontSize.v < 200.0
    ensures r.Some? ==> r.value == StyleOf(json.style).fontSize.v
  {
    var size := StyleOf(json.style).fontSize;
    if Truthy(size) && Above(size, 0.0) && Below(size, 200.0) then Some(size.v) else None
  }

  /** A text is at least 10 by 10. */
  function TextRecord(json: Node, parent: Parent, frame: Frame): Record
  {
    Record(Kind.Text, OrText(json.name, "Text"), Frame(frame.x, frame.y, Max(10.0, frame.width), Max(10.0, frame.height)),
           parent, NoStyle, TextContent(json), SafeFontSize(json), [], 0.0, None)
  }

  /** A plain rectangle, filled only when its first fill carries a component colour. */
  function RectangleRecord(name: string, style: Option<Style>, parent: Parent, frame: Frame): Record
  {
    var fill := SafeFill(style);
    Record(Shape, OrText(name, "Shape"), Frame(frame.x, frame.y, Max(1.0, frame.width), Max(1.0, frame.height)), parent,
           if fill.Some? then NoStyle.(fills := Some([SolidFill(Literal(fill.value))])) else NoStyle,
           "", None, [], 0.0, None)
  }

  /** The rectangle standing in for a text that could not be created. */
  function ErrorRecord(parent: Parent, frame: Frame): Record
  {
    RectangleRecord("Text (Error)", None, parent, frame)
  }

  function GroupRecord(json: Node, parent: Parent, frame: Frame): Record
  {
    Primitive(Group, OrText(json.name, "Group"), Frame(frame.x, frame.y, Max(1.0, frame.width), Max(1.0, frame.height)), parent)
  }

  /** The root group's frame: at the origin, 375 by 812 unless the design gives a size. */
  function RootFrame(json: Node): Frame
  {
    var f := if json.frame.Some? then json.frame.value else RawFrame(Undefined, Undefined, Undefined, Undefined);
    Frame(0.0, 0.0, Or(f.width, 375.0), Or(f.height, 812.0))
  }

  function RootRecord(json: Node): (r: Record)
    ensures r.kind == Group && r.parent == Page && r.frame.x == 0.0 && r.frame.y == 0.0
    ensures r.name == (if json.name != "" then json.name else "Design (Safe Mode)")
    ensures json.frame.None? ==> r.frame.width == 375.0 && r.frame.height == 812.0
    ensures json.frame.Some? && Truthy(json.frame.value.width) ==> r.frame.width == json.frame.value.width.v
  {
    Primitive(Group, OrText(json.name, "Design (Safe Mode)"), RootFrame(json), Page)
  }

  function BackgroundRecord(json: Node, root: nat): Record
    requires json.background.Some?
  {
    Record(Shape, "Background", RootFrame(json), Layer(root),
           NoStyle.(fills := Some([SolidFill(Literal(OrText(json.background.value, "#FFFFFF")))])),
           "", None, [], 0.0, None)
  }

  predicate IsGroupClass(cls: string)
  {
    cls == "group" || cls == "artboard"
  }

  /** Every primitive safe mode creates for one node is a text, a rectangle or a group, as its class says. */
  lemma DispatchKinds(json: Node, parent: Parent, frame: Frame)
    ensures TextRecord(json, parent, frame).kind == Kind.Text
    ensures RectangleRecord(json.name, json.style, parent, frame).kind == Shape
    ensures ErrorRecord(parent, frame).kind == Shape && ErrorRecord(parent, frame).style == NoStyle
    ensures GroupRecord(json, parent, frame).kind == Group
    ensures TextRecord(json, parent, frame).frame.width >= 10.0 && TextRecord(json, parent, frame).frame.height >= 10.0
  {
  }

  /* ---------- nesting ---------- */

  /** The depth a child of `top` has. */
  ghost function ChildDepth(s: seq<Record>, top: Parent): nat
    requires ParentsPrecede(s) && (top.Layer? ==> top.index < |s|)
  {
    if top.Layer? then Depth(s, top.index) + 1 else 0
  }

  /**
   * The primitives from index `from` on hang under `top` or under a group
   * among themselves, and lie fewer than `levels` levels below `top`.
   */
  ghost predicate Within(s: seq<Record>, from: nat, top: Parent, levels: nat)
  {
    && ParentsPrecede(s) && from <= |s|
    && (top.Layer? ==> top.index < from)
    && forall i :: from <= i < |s| ==>
         && (s[i].parent == top ||
             (s[i].parent.Layer? && from <= s[i].parent.index && s[s[i].parent.index].kind == Group))
         && Depth(s, i) < ChildDepth(s, top) + levels
  }

  /** The number of levels a node converted at `depth` may occupy: itself, and its children while depth < 10. */
  function Levels(depth: nat): (r: nat)
    ensures r >= 1
  {
    if depth <= MAX_DEPTH then MAX_DEPTH + 1 - depth else 1
  }

  /** A primitive attached to `top` lies on the first level below it. */
  lemma WithinOwn(s: seq<Record>, r: Record, top: Parent, levels: nat)
    requires ParentsPrecede(s + [r]) && r.parent == top && (top.Layer? ==> top.index < |s|) && levels >= 1
    ensures Within(s + [r], |s|, top, levels)
  {
    assert (s + [r])[|s|] == r;
  }

  /**
   * Primitives appended after `s` under `top` itself, or under a group of
   * `s` that is a child of `top`, keep the whole run within its levels.
   */
  lemma WithinExtend(s: seq<Record>, u: seq<Record>, from: nat, top: Parent, levels: nat, top2: Parent, levels2: nat)
    requires |s| <= |u| && u[..|s|] == s
    requires Within(s, from, top, levels) && Within(u, |s|, top2, levels2)
    requires (top2 == top && levels2 <= levels) ||
             (top2.Layer? && from <= top2.index < |s| && s[top2.index].kind == Group && s[top2.index].parent == top &&
              levels2 < levels)
    ensures Within(u, from, top, levels)
  {
    var t := u[|s|..];
    assert u == s + t;
    if top.Layer? {
      DepthStable(s, t, top.index);
    }
    if top2.Layer? {
      DepthStable(s, t, top2.index);
    }
    forall i | from <= i < |u|
      ensures && (u[i].parent == top ||
                  (u[i].parent.Layer? && from <= u[i].parent.index && u[u[i].parent.index].kind == Group))
              && Depth(u, i) < ChildDepth(u, top) + levels
    {
      if i < |s| {
        DepthStable(s, t, i);
        assert u[i] == s[i];
        if s[i].parent.Layer? && s[i].parent != top {
          assert u[s[i].parent.index] == s[s[i].parent.index];
        }
      } else if top2 != top && u[i].parent == top2 {
        assert u[top2.index] == s[top2.index];
      }
    }
  }

  /* ---------- direct children ---------- */

  /** How many of `s` are attached to `top`. */
  function CountUnder(s: seq<Record>, top: Parent): nat
  {
    if s == [] then 0 else (if s[0].parent == top then 1 else 0) + CountUnder(s[1..], top)
  }

  lemma {:induction false} CountUnderAppend(a: seq<Record>, b: seq<Record>, top: Parent)
    ensures CountUnder(a + b, top) == CountUnder(a, top) + CountUnder(b, top)
    decreases |a|
  {
    if a == [] {
      assert a + b == b;
    } else {
      assert (a + b)[0] == a[0];
      assert (a + b)[1..] == a[1..] + b;
      CountUnderAppend(a[1..], b, top);
    }
  }

  lemma CountGrows(sb: seq<Record>, s: seq<Record>, from: nat, top: Parent)
    requires from <= |sb| <= |s| && s[..|sb|] == sb
    ensures CountUnder(s[from..], top) == CountUnder(sb[from..], top) + CountUnder(s[|sb|..], top)
  {
    assert s[from..] == sb[from..] + s[|sb|..];
    CountUnderAppend(sb[from..], s[|sb|..], top);
  }

  lemma {:induction false} CountNone(s: seq<Record>, from: nat, top: Parent)
    requires from <= |s|
    requires forall i :: from <= i < |s| ==> s[i].parent != top
    ensures CountUnder(s[from..], top) == 0
    decreases |s| - from
  {
    if from < |s| {
      assert s[from..][0] == s[from];
      assert s[from..][1..] == s[from + 1..];
      CountNone(s, from + 1, top);
    }
  }

  /** When everything after the first new primitive hangs below it, at most one is attached to `top`. */
  lemma CountAtMostOne(s: seq<Record>, from: nat, top: Parent)
    requires from <= |s| && (top.Layer? ==> top.index < from)
    requires forall i :: from < i < |s| ==> s[i].parent.Layer? && s[i].parent.index >= from
    ensures CountUnder(s[from..], top) <= 1
  {
    if from < |s| {
      CountNone(s, from + 1, top);
      assert s[from..][1..] == s[from + 1..];
    }
  }

  /** The siblings `processLayersSafe` goes through: at the top level, only the first 50. */
  function Considered(layers: seq<Node>, depth: nat): (r: seq<Node>)
    ensures depth == 0 ==> |r| <= MAX_ROOT_LAYERS
    ensures |r| <= |layers| && r == layers[..|r|]
  {
    if depth == 0 && |layers| > MAX_ROOT_LAYERS then layers[..MAX_ROOT_LAYERS] else layers
  }

  /* ---------- the reference conversion ---------- */

  /** What `createTextSafe` leaves: the text, else the error rectangle, else nothing. */
  function TextSafe(fails: nat -> bool, s: HostState, json: Node, parent: Parent, frame: Frame): (t: HostState)
    ensures s.layers <= t.layers && |t.layers| <= |s.layers| + 1
  {
    var s1 := Try(fails, s, TextRecord(json, parent, frame));
    if !fails(s.attempts) then s1 else Try(fails, s1, ErrorRecord(parent, frame))
  }

  /** What `createLayerSafe` leaves: a text, a group with its content, or a rectangle, by class. */
  function LayerSafe(fails: nat -> bool, s: HostState, json: Node, parent: Parent, depth: nat): (t: HostState)
    ensures s.layers <= t.layers && s.attempts < t.attempts
    decreases Levels(depth), 1
  {
    var frame := SafeFrame(json.frame);
    if json.cls == "text" then TextSafe(fails, s, json, parent, frame)
    else if IsGroupClass(json.cls) then GroupSafe(fails, s, json, parent, frame, depth)
    else Try(fails, s, RectangleRecord(json.name, json.style, parent, frame))
  }

  /** What `createGroupSafe` leaves: the group, then, below depth 10, its children converted under it. */
  function GroupSafe(fails: nat -> bool, s: HostState, json: Node, parent: Parent, frame: Frame, depth: nat): (t: HostState)
    ensures s.layers <= t.layers && s.attempts < t.attempts
    ensures fails(s.attempts) ==> t.layers == s.layers
    decreases Levels(depth), 0
  {
    var s1 := Try(fails, s, GroupRecord(json, parent, frame));
    if fails(s.attempts) || |json.layers| == 0 || depth >= MAX_DEPTH then s1
    else LayersSafe(fails, s1, json.layers, Layer(|s.layers|), depth + 1)
  }

  /** What `processLayersSafe` leaves: nothing beyond depth 10, else the considered siblings one after another. */
  function LayersSafe(fails: nat -> bool, s: HostState, layers: seq<Node>, parent: Parent, depth: nat): (t: HostState)
    ensures s.layers <= t.layers && s.attempts <= t.attempts
    ensures depth > MAX_DEPTH ==> t == s
    decreases Levels(depth), 3
  {
    if depth > MAX_DEPTH then s else SiblingsSafe(fails, s, Considered(layers, depth), parent, depth)
  }

  /** The siblings converted in order, each starting from the state the previous one left. */
  function SiblingsSafe(fails: nat -> bool, s: HostState, siblings: seq<Node>, parent: Parent, depth: nat): (t: HostState)
    ensures s.layers <= t.layers && s.attempts + |siblings| <= t.attempts
    decreases Levels(depth), 2, |siblings|
  {
    if siblings == [] then s
    else
      LayerSafe(fails, SiblingsSafe(fails, s, siblings[..|siblings| - 1], parent, depth),
                siblings[|siblings| - 1], parent, depth)
  }

  lemma SiblingsSafeStep(fails: nat -> bool, s: HostState, siblings: seq<Node>, i: nat, parent: Parent, depth: nat)
    requires i < |siblings|
    ensures SiblingsSafe(fails, s, siblings[..i + 1], parent, depth) ==
            LayerSafe(fails, SiblingsSafe(fails, s, siblings[..i], parent, depth), siblings[i], parent, depth)
  {
    assert siblings[..i + 1][..i] == siblings[..i];
  }

  /** Converting two runs of siblings is converting the first, then the second from where it ended. */
  lemma {:induction false} SiblingsSafeConcat(fails: nat -> bool, s: HostState, a: seq<Node>, b: seq<Node>,
                                              parent: Parent, depth: nat)
    ensures SiblingsSafe(fails, s, a + b, parent, depth) ==
            SiblingsSafe(fails, SiblingsSafe(fails, s, a, parent, depth), b, parent, depth)
    decreases |b|
  {
    if b == [] {
      assert a + b == a;
    } else {
      assert (a + b)[..|a + b| - 1] == a + b[..|b| - 1];
      assert (a + b)[|a + b| - 1] == b[|b| - 1];
      SiblingsSafeConcat(fails, s, a, b[..|b| - 1], parent, depth);
    }
  }

  /** The content of the root group: the background, when there is one, then the top-level layers at depth 0. */
  function RootContent(fails: nat -> bool, s: HostState, json: Node, root: nat): (t: HostState)
    ensures s.layers <= t.layers
  {
    var s1 := if json.background.Some? then Try(fails, s, BackgroundRecord(json, root)) else s;
    if |json.layers| > 0 then LayersSafe(fails, s1, json.layers, Layer(root), 0) else s1
  }

  /** What `convertToSketchSafeMode` leaves: the root group, and when it exists, its content. */
  function ConvertSafe(fails: nat -> bool, s: HostState, json: Node): (t: HostState)
    ensures s.layers <= t.layers
    ensures fails(s.attempts) ==> t.layers == s.layers
    ensures !fails(s.attempts) ==> |t.layers| > |s.layers| && t.layers[|s.layers|] == RootRecord(json)
  {
    var s1 := Try(fails, s, RootRecord(json));
    if fails(s.attempts) then s1 else RootContent(fails, s1, json, |s.layers|)
  }

  /* ---------- the converter ---------- */

  /** `createTextSafe`: a text, else the error rectangle, else nothing; every failure is swallowed. */
  method CreateTextSafe(doc: Document, json: Node, parent: Parent, frame: Frame)
    requires doc.Valid() && doc.Attachable(parent)
    modifies doc
    ensures doc.Valid()
    ensures doc.State() == TextSafe(doc.fails, old(doc.State()), json, parent, frame)
    ensures var a := old(doc.attempts);
      if !doc.fails(a) then doc.layers == old(doc.layers) + [TextRecord(json, parent, frame)]
      else if !doc.fails(a + 1) then doc.layers == old(doc.layers) + [ErrorRecord(parent, frame)]
      else doc.layers == old(doc.layers)
  {
    var h := doc.Create(TextRecord(json, parent, frame));
    if h.None? {
      CreateRectangleSafe(doc, "Text (Error)", None, parent, frame);
    }
  }

  /** `createRectangleSafe`: one attempt; a failure is swallowed. */
  method CreateRectangleSafe(doc: Document, name: string, style: Option<Style>, parent: Parent, frame: Frame)
    requires doc.Valid() && doc.Attachable(parent)
    modifies doc
    ensures doc.Valid() && doc.attempts == old(doc.attempts) + 1
    ensures doc.State() == Try(doc.fails, old(doc.State()), RectangleRecord(name, style, parent, frame))
    ensures doc.fails(old(doc.attempts)) ==> doc.layers == old(doc.layers)
    ensures !doc.fails(old(doc.attempts)) ==> doc.layers == old(doc.layers) + [RectangleRecord(name, style, parent, frame)]
  {
    var _ := doc.Create(RectangleRecord(name, style, parent, frame));
  }

  /**
   * `createGroupSafe`: the group, then, when it was created and the depth
   * is below 10, its children one level deeper. Only here does safe mode
   * nest, so every primitive below the new one hangs under a group.
   */
  method CreateGroupSafe(doc: Document, json: Node, parent: Parent, frame: Frame, depth: nat)
    requires doc.Valid() && doc.Attachable(parent)
    modifies doc
    decreases Levels(depth), 0
    ensures doc.Valid()
    ensures doc.State() == GroupSafe(doc.fails, old(doc.State()), json, parent, frame, depth)
    ensures |doc.layers| >= |old(doc.layers)| && doc.layers[..|old(doc.layers)|] == old(doc.layers)
    ensures doc.fails(old(doc.attempts)) ==> doc.layers == old(doc.layers)
    ensures !doc.fails(old(doc.attempts)) ==>
      |doc.layers| > |old(doc.layers)| && doc.layers[|old(doc.layers)|] == GroupRecord(json, parent, frame)
    ensures Within(doc.layers, |old(doc.layers)|, parent, Levels(depth))
    ensures forall i :: |old(doc.layers)| < i < |doc.layers| ==>
      doc.layers[i].parent.Layer? && doc.layers[i].parent.index >= |old(doc.layers)|
  {
    ghost var s0 := doc.layers;
    var h := doc.Create(GroupRecord(json, parent, frame));
    if h.None? {
      return;
    }
    WithinOwn(s0, GroupRecord(json, parent, frame), parent, Levels(depth));
    if |json.layers| > 0 && depth < MAX_DEPTH {
      ghost var s1 := doc.layers;
      ProcessLayersSafe(doc, json.layers, h.value, depth + 1);
      WithinExtend(s1, doc.layers, |s0|, parent, Levels(depth), h.value, Levels(depth + 1));
      assert doc.layers[..|s0|] == doc.layers[..|s1|][..|s0|];
    }
  }

  /**
   * `createLayerSafe`: the frame repaired, then a text for `text`, a group
   * for `group` and `artboard`, and a plain rectangle for every other class
   * (shape groups included, whose children are therefore dropped).
   */
  method CreateLayerSafe(doc: Document, json: Node, parent: Parent, depth: nat)
    requires doc.Valid() && doc.Attachable(parent)
    modifies doc
    decreases Levels(depth), 1
    ensures doc.Valid()
    ensures doc.State() == LayerSafe(doc.fails, old(doc.State()), json, parent, depth)
    ensures |doc.layers| >= |old(doc.layers)| && doc.layers[..|old(doc.layers)|] == old(doc.layers)
    ensures var a := old(doc.attempts);
      var frame := SafeFrame(json.frame);
      if json.cls == "text" then
        if !doc.fails(a) then doc.layers == old(doc.layers) + [TextRecord(json, parent, frame)]
        else if !doc.fails(a + 1) then doc.layers == old(doc.layers) + [ErrorRecord(parent, frame)]
        else doc.layers == old(doc.layers)
      else if IsGroupClass(json.cls) then
        if doc.fails(a) then doc.layers == old(doc.layers)
        else |doc.layers| > |old(doc.layers)| && doc.layers[|old(doc.layers)|] == GroupRecord(json, parent, frame)
      else if doc.fails(a) then doc.layers == old(doc.layers)
      else doc.layers == old(doc.layers) + [RectangleRecord(json.name, json.style, parent, frame)]
    ensures Within(doc.layers, |old(doc.layers)|, parent, Levels(depth))
    ensures forall i :: |old(doc.layers)| < i < |doc.layers| ==>
      doc.layers[i].parent.Layer? && doc.layers[i].parent.index >= |old(doc.layers)|
  {
    ghost var s0 := doc.layers;
    var frame := SafeFrame(json.frame);
    if json.cls == "text" {
      CreateTextSafe(doc, json, parent, frame);
      if |doc.layers| > |s0| {
        WithinOwn(s0, doc.layers[|s0|], parent, Levels(depth));
        assert doc.layers == s0 + [doc.layers[|s0|]];
      }
    } else if IsGroupClass(json.cls) {
      CreateGroupSafe(doc, json, parent, frame, depth);
    } else {
      CreateRectangleSafe(doc, json.name, json.style, parent, frame);
      if |doc.layers| > |s0| {
        WithinOwn(s0, RectangleRecord(json.name, json.style, parent, frame), parent, Levels(depth));
      }
    }
  }

  /**
   * `processLayersSafe`: nothing below depth 10; otherwise the considered
   * siblings in order, each failure swallowed so the rest still convert.
   * Each sibling adds at most one primitive directly under `parent`.
   */
  method ProcessLayersSafe(doc: Document, layers: seq<Node>, parent: Parent, depth: nat)
    requires doc.Valid() && doc.Attachable(parent)
    modifies doc
    decreases Levels(depth), 3
    ensures doc.Valid()
    ensures doc.State() == LayersSafe(doc.fails, old(doc.State()), layers, parent, depth)
    ensures |doc.layers| >= |old(doc.layers)| && doc.layers[..|old(doc.layers)|] == old(doc.layers)
    ensures depth > MAX_DEPTH ==> doc.layers == old(doc.layers)
    ensures Within(doc.layers, |old(doc.layers)|, parent, Levels(depth))
    ensures CountUnder(doc.layers[|old(doc.layers)|..], parent) <= |Considered(layers, depth)|
  {
    if depth > MAX_DEPTH {
      return;
    }
    var siblings := Considered(layers, depth);
    ghost var n0 := |doc.layers|;
    ghost var s0 := doc.layers;
    ghost var a0 := doc.attempts;
    var i := 0;
    while i < |siblings|
      invariant 0 <= i <= |siblings|
      invariant doc.Valid() && |doc.layers| >= n0 && doc.layers[..n0] == s0 && doc.Attachable(parent)
      invariant Within(doc.layers, n0, parent, Levels(depth))
      invariant CountUnder(doc.layers[n0..], parent) <= i
      invariant doc.State() == SiblingsSafe(doc.fails, HostState(s0, a0), siblings[..i], parent, depth)
    {
      SiblingsSafeStep(doc.fails, HostState(s0, a0), siblings, i, parent, depth);
      TryLayerSafe(doc, siblings[i], parent, depth, n0, s0, i);
      i := i + 1;
    }
    assert siblings[..i] == siblings;
  }

  /**
   * One turn of the sibling loop: `createLayerSafe` inside its `try`. It
   * keeps the run since `n0` within its levels and adds at most one
   * primitive directly under `parent`.
   */
  method TryLayerSafe(doc: Document, json: Node, parent: Parent, depth: nat, ghost n0: nat, ghost s0: seq<Record>,
                      ghost count: nat)
    requires doc.Valid() && |doc.layers| >= n0 && doc.layers[..n0] == s0 && doc.Attachable(parent)
    requires Within(doc.layers, n0, parent, Levels(depth)) && CountUnder(doc.layers[n0..], parent) <= count
    modifies doc
    decreases Levels(depth), 2
    ensures doc.Valid() && |doc.layers| >= n0 && doc.layers[..n0] == s0 && doc.Attachable(parent)
    ensures Within(doc.layers, n0, parent, Levels(depth)) && CountUnder(doc.layers[n0..], parent) <= count + 1
    ensures doc.State() == LayerSafe(doc.fails, old(doc.State()), json, parent, depth)
  {
    ghost var sb := doc.layers;
    CreateLayerSafe(doc, json, parent, depth);
    WithinExtend(sb, doc.layers, n0, parent, Levels(depth), parent, Levels(depth));
    CountGrows(sb, doc.layers, n0, parent);
    CountAtMostOne(doc.layers, |sb|, parent);
    assert doc.layers[..n0] == doc.layers[..|sb|][..n0];
  }

  /**
   * `convertToSketchSafeMode`: the root group on the page (its failure
   * fails the conversion), then its content. Every primitive after the
   * root lies within eleven levels below it, and at most 51 hang directly
   * under it.
   */
  method ConvertToSketchSafeMode(doc: Document, sketchJSON: Node) returns (root: Option<Parent>)
    requires doc.Valid()
    modifies doc
    ensures doc.Valid()
    ensures doc.State() == ConvertSafe(doc.fails, old(doc.State()), sketchJSON)
    ensures |doc.layers| >= |old(doc.layers)| && doc.layers[..|old(doc.layers)|] == old(doc.layers)
    ensures doc.fails(old(doc.attempts)) ==> root.None? && doc.layers == old(doc.layers)
    ensures !doc.fails(old(doc.attempts)) ==>
      && root == Some(Layer(|old(doc.layers)|)) && |doc.layers| > |old(doc.layers)|
      && doc.layers[|old(doc.layers)|] == RootRecord(sketchJSON)
      && Within(doc.layers, |old(doc.layers)| + 1, Layer(|old(doc.layers)|), Levels(0))
      && CountUnder(doc.layers[|old(doc.layers)| + 1..], Layer(|old(doc.layers)|)) <= MAX_ROOT_LAYERS + 1
    ensures !doc.fails(old(doc.attempts)) && sketchJSON.background.Some? && !doc.fails(old(doc.attempts) + 1) ==>
      |doc.layers| > |old(doc.layers)| + 1 && doc.layers[|old(doc.layers)| + 1] == BackgroundRecord(sketchJSON, |old(doc.layers)|)
  {
    ghost var s0 := doc.layers;
    root := doc.Create(RootRecord(sketchJSON));
    if root.None? {
      return;
    }
    FillRoot(doc, sketchJSON, root.value.index);
    assert doc.layers[..|s0|] == doc.layers[..|s0| + 1][..|s0|];
  }

  /** The content of the root group: its background first, when the design has one, then the top-level layers. */
  method FillRoot(doc: Document, sketchJSON: Node, n: nat)
    requires doc.Valid() && n + 1 == |doc.layers|
    modifies doc
    ensures doc.Valid()
    ensures doc.State() == RootContent(doc.fails, old(doc.State()), sketchJSON, n)
    ensures |doc.layers| >= |old(doc.layers)| && doc.layers[..|old(doc.layers)|] == old(doc.layers)
    ensures Within(doc.layers, n + 1, Layer(n), Levels(0))
    ensures CountUnder(doc.layers[n + 1..], Layer(n)) <= MAX_ROOT_LAYERS + 1
    ensures sketchJSON.background.Some? && !doc.fails(old(doc.attempts)) ==>
      |doc.layers| > n + 1 && doc.layers[n + 1] == BackgroundRecord(sketchJSON, n)
  {
    ghost var s1 := doc.layers;
    if sketchJSON.background.Some? {
      var _ := doc.Create(BackgroundRecord(sketchJSON, n));
      if |doc.layers| > |s1| {
        WithinOwn(s1, BackgroundRecord(sketchJSON, n), Layer(n), Levels(0));
      }
    }
    ghost var s2 := doc.layers;
    assert CountUnder(s2[n + 1..], Layer(n)) <= 1 by {
      if |s2| > |s1| {
        assert s2[n + 1..] == [BackgroundRecord(sketchJSON, n)];
      } else {
        assert s2[n + 1..] == [];
      }
    }
    if |sketchJSON.layers| > 0 {
      ProcessLayersSafe(doc, sketchJSON.layers, Layer(n), 0);
      WithinExtend(s2, doc.layers, n + 1, Layer(n), Levels(0), Layer(n), Levels(0));
      CountGrows(s2, doc.layers, n + 1, Layer(n));
      assert doc.layers[..|s1|] == doc.layers[..|s2|][..|s1|];
    }
  }
}
