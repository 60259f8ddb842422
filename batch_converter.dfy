/**
 * The asynchronous batch converter (src/async-batch-api.js): the design tree
 * is flattened one level at a time into a work queue; the queue is worked
 * off in batches, and the children of every created container are spliced
 * back into the queue right after the current batch. A module-level counter
 * caps the number of created primitives, checked between batches only.
 */
module AsyncBatch {
  import opened JsValues
  import opened DesignNode
  import opened NativeStyle
  import opened Host
  import opened BatchStyle

  const MAX_DEPTH: nat := 30
  const MAX_LAYERS: nat := 2000
  const BATCH_SIZE: nat := 10
  const MAX_SVG_SIZE: nat := 512 * 1024
  const MAX_COORD: real := 100000.0

  /* ---------- estimateLayerCount ---------- */

  /** `estimateLayerCount`: the node itself plus all its descendants. */
  function EstimateLayerCount(json: Node): nat
    decreases json
  {
    1 + TreeSize(json.layers)
  }

  /** The estimated count of a sibling list. */
  function TreeSize(layers: seq<Node>): nat
    decreases layers
  {
    if layers == [] then 0 else EstimateLayerCount(layers[0]) + TreeSize(layers[1..])
  }

  lemma {:induction false} TreeSizeConcat(a: seq<Node>, b: seq<Node>)
    ensures TreeSize(a + b) == TreeSize(a) + TreeSize(b)
    decreases |a|
  {
    if a != [] {
      assert (a + b)[1..] == a[1..] + b;
      TreeSizeConcat(a[1..], b);
    } else {
      assert a + b == b;
    }
  }

  /* ---------- flattenLayers ---------- */

  /** One queue entry: a node to create, where to attach it, and whether its children are still to come. */
  datatype QueueItem = QueueItem(json: Node, parent: Parent, parentFrame: Option<RawFrame>, depth: nat,
                                 hasChildren: bool, childrenJSON: seq<Node>, skipChildren: bool)

  /** A node that is queued: it has a class and no frame side below 0.1. */
  predicate Keep(n: Node)
  {
    n.cls != "" && !(n.frame.Some? && (Below(n.frame.value.width, 0.1) || Below(n.frame.value.height, 0.1)))
  }

  /** The marker of an SVG the host imports whole, in place of the node's children. */
  predicate IsSvgMarker(n: Node)
  {
    n.cls == "group" && n.name == "svg" && n.svgImport && n.svgString != ""
  }

  /**
   * What an entry of a sibling list at `depth` under `parent` holds: a kept
   * node, `skipChildren` set exactly for a nested SVG marker, `hasChildren`
   * exactly for any other nested node, and then its children.
   */
  predicate Queued(item: QueueItem, parent: Parent, parentFrame: Option<RawFrame>, depth: nat)
  {
    && Keep(item.json)
    && item.parent == parent && item.parentFrame == parentFrame && item.depth == depth
    && (item.skipChildren <==> |item.json.layers| > 0 && IsSvgMarker(item.json))
    && (item.hasChildren <==> |item.json.layers| > 0 && !IsSvgMarker(item.json))
    && (item.hasChildren ==> item.childrenJSON == item.json.layers)
  }

  /** The entry queued for a kept node. */
  function ItemFor(n: Node, parent: Parent, parentFrame: Option<RawFrame>, depth: nat): (item: QueueItem)
    ensures item.json == n && (Keep(n) ==> Queued(item, parent, parentFrame, depth))
  {
    var nested := |n.layers| > 0;
    QueueItem(n, parent, parentFrame, depth, nested && !IsSvgMarker(n),
              if nested && !IsSvgMarker(n) then n.layers else [], nested && IsSvgMarker(n))
  }

  /** The entries of the kept nodes of a sibling list, in order. */
  function Kept(layers: seq<Node>, parent: Parent, parentFrame: Option<RawFrame>, depth: nat): seq<QueueItem>
  {
    if layers == [] then []
    else
      var last := layers[|layers| - 1];
      Kept(layers[..|layers| - 1], parent, parentFrame, depth) +
      (if Keep(last) then [ItemFor(last, parent, parentFrame, depth)] else [])
  }

  /** What `flattenLayers` returns: nothing below the depth cap. */
  function Flatten(layers: seq<Node>, parent: Parent, parentFrame: Option<RawFrame>, depth: nat): seq<QueueItem>
  {
    if depth > MAX_DEPTH then [] else Kept(layers, parent, parentFrame, depth)
  }

  /** `flattenLayers`: pushes each kept node, then flags the entry just pushed. */
  method FlattenLayers(layers: seq<Node>, parent: Parent, parentFrame: Option<RawFrame>, depth: nat)
    returns (queue: seq<QueueItem>)
    ensures queue == Flatten(layers, parent, parentFrame, depth)
  {
    queue := [];
    if depth > MAX_DEPTH {
      return;
    }
    var sortedLayers := layers;
    var i := 0;
    while i < |sortedLayers|
      invariant 0 <= i <= |sortedLayers|
      invariant queue == Kept(sortedLayers[..i], parent, parentFrame, depth)
    {
      var layerJSON := sortedLayers[i];
      assert sortedLayers[..i + 1][..i] == sortedLayers[..i];
      assert Kept(sortedLayers[..i + 1], parent, parentFrame, depth) ==
        queue + (if Keep(layerJSON) then [ItemFor(layerJSON, parent, parentFrame, depth)] else []);
      if layerJSON.cls != "" &&
         !(layerJSON.frame.Some? && (Below(layerJSON.frame.value.width, 0.1) || Below(layerJSON.frame.value.height, 0.1)))
      {
        queue := queue + [QueueItem(layerJSON, parent, parentFrame, depth, false, [], false)];
        if |layerJSON.layers| > 0 {
          var isSVGImport := layerJSON.cls == "group" && layerJSON.name == "svg" &&
                             layerJSON.svgImport && layerJSON.svgString != "";
          if isSVGImport {
            queue := queue[|queue| - 1 := queue[|queue| - 1].(skipChildren := true)];
          } else {
            queue := queue[|queue| - 1 := queue[|queue| - 1].(hasChildren := true, childrenJSON := layerJSON.layers)];
          }
        }
      }
      i := i + 1;
    }
    assert sortedLayers[..i] == layers;
  }

  /**
   * The flattened list is empty beyond the depth cap; otherwise it holds an
   * entry for exactly the kept nodes, each with the given parent, parent
   * frame and depth, and with `skipChildren` set for a nested SVG marker,
   * `hasChildren` and the children for any other nested node, neither for
   * a leaf.
   */
  lemma {:induction false} FlattenItems(layers: seq<Node>, parent: Parent, parentFrame: Option<RawFrame>, depth: nat)
    ensures var q := Flatten(layers, parent, parentFrame, depth);
      && (depth > MAX_DEPTH ==> q == [])
      && |q| <= |layers|
      && (forall k :: 0 <= k < |q| ==> q[k].json in layers && Queued(q[k], parent, parentFrame, depth))
      && (depth <= MAX_DEPTH ==> forall n :: n in layers && Keep(n) ==> exists k :: 0 <= k < |q| && q[k].json == n)
    decreases |layers|
  {
    if depth <= MAX_DEPTH && layers != [] {
      var init := layers[..|layers| - 1];
      var last := layers[|layers| - 1];
      assert layers == init + [last];
      FlattenItems(init, parent, parentFrame, depth);
      var q0 := Kept(init, parent, parentFrame, depth);
      var q := Kept(layers, parent, parentFrame, depth);
      assert forall k :: 0 <= k < |q0| ==> q[k] == q0[k];
      forall n | n in layers && Keep(n)
        ensures exists k :: 0 <= k < |q| && q[k].json == n
      {
        if n == last {
          assert q[|q| - 1].json == n;
        } else {
          assert n in init;
        }
      }
    }
  }

  /** Flattening distributes over concatenation, so the kept nodes keep their order. */
  lemma {:induction false} KeptConcat(a: seq<Node>, b: seq<Node>, parent: Parent, parentFrame: Option<RawFrame>, depth: nat)
    ensures Kept(a + b, parent, parentFrame, depth) == Kept(a, parent, parentFrame, depth) + Kept(b, parent, parentFrame, depth)
    decreases |b|
  {
    if b == [] {
      assert a + b == a;
    } else {
      var init := b[..|b| - 1];
      assert (a + b)[..|a + b| - 1] == a + init;
      assert (a + b)[|a + b| - 1] == b[|b| - 1];
      KeptConcat(a, init, parent, parentFrame, depth);
    }
  }

  /* ---------- queue weight ---------- */

  /** An entry whose children are spliced in once it is created. */
  predicate Expands(item: QueueItem)
  {
    item.hasChildren && !item.skipChildren
  }

  /** The entry plus everything it may still bring into the queue. */
  function Weight(item: QueueItem): nat
  {
    1 + if Expands(item) then TreeSize(item.childrenJSON) else 0
  }

  function QueueWeight(q: seq<QueueItem>): nat
  {
    if q == [] then 0 else QueueWeight(q[..|q| - 1]) + Weight(q[|q| - 1])
  }

  lemma {:induction false} QueueWeightConcat(a: seq<QueueItem>, b: seq<QueueItem>)
    ensures QueueWeight(a + b) == QueueWeight(a) + QueueWeight(b)
    decreases |b|
  {
    if b == [] {
      assert a + b == a;
    } else {
      assert (a + b)[..|a + b| - 1] == a + b[..|b| - 1];
      QueueWeightConcat(a, b[..|b| - 1]);
    }
  }

  lemma TreeSizeLast(init: seq<Node>, last: Node)
    ensures TreeSize(init + [last]) == TreeSize(init) + EstimateLayerCount(last)
  {
    TreeSizeConcat(init, [last]);
    assert [last][1..] == [];
  }

  lemma QueueWeightLast(q: seq<QueueItem>, x: QueueItem)
    ensures QueueWeight(q + [x]) == QueueWeight(q) + Weight(x)
  {
    assert (q + [x])[..|q|] == q;
  }

  /** An entry weighs no more than the estimate of its node. */
  lemma ItemWeight(n: Node, parent: Parent, parentFrame: Option<RawFrame>, depth: nat)
    ensures Weight(ItemFor(n, parent, parentFrame, depth)) <= EstimateLayerCount(n)
  {
  }

  /** The entries of a flattened list weigh no more than the estimate of the list. */
  lemma {:induction false} FlattenWeight(layers: seq<Node>, parent: Parent, parentFrame: Option<RawFrame>, depth: nat)
    ensures QueueWeight(Flatten(layers, parent, parentFrame, depth)) <= TreeSize(layers)
    decreases |layers|
  {
    if depth <= MAX_DEPTH && layers != [] {
      var init := layers[..|layers| - 1];
      var last := layers[|layers| - 1];
      assert layers == init + [last];
      FlattenWeight(init, parent, parentFrame, depth);
      TreeSizeLast(init, last);
      var q0 := Kept(init, parent, parentFrame, depth);
      if Keep(last) {
        var item := ItemFor(last, parent, parentFrame, depth);
        assert Kept(layers, parent, parentFrame, depth) == q0 + [item];
        QueueWeightLast(q0, item);
        ItemWeight(last, parent, parentFrame, depth);
      } else {
        assert Kept(layers, parent, parentFrame, depth) == q0 + [];
        assert q0 + [] == q0;
      }
    }
  }

  /* ---------- getAdaptiveBatchSize and splicing ---------- */

  /** `getAdaptiveBatchSize`: fewer entries per batch as the queue grows. */
  function GetAdaptiveBatchSize(totalLayers: nat): (n: nat)
    ensures n == 4 || n == 6 || n == 8 || n == BATCH_SIZE
  {
    if totalLayers > 1500 then 4
    else if totalLayers > 900 then 6
    else if totalLayers > 400 then 8
    else BATCH_SIZE
  }

  /** The batch size never grows with the queue length. */
  lemma AdaptiveBatchSizeMonotone(a: nat, b: nat)
    requires a <= b
    ensures GetAdaptiveBatchSize(b) <= GetAdaptiveBatchSize(a)
  {
  }

  /** `queue.splice(at, 0, ...items)` */
  function Splice(q: seq<QueueItem>, at: nat, items: seq<QueueItem>): (r: seq<QueueItem>)
    requires at <= |q|
    ensures |r| == |q| + |items|
    ensures forall k :: 0 <= k < |r| ==>
      r[k] == (if k < at then q[k] else if k < at + |items| then items[k - at] else q[k - |items|])
  {
    q[..at] + items + q[at..]
  }

  /** Two splices at the same index: the later list lands before the earlier one. */
  lemma SpliceTwice(q: seq<QueueItem>, at: nat, first: seq<QueueItem>, second: seq<QueueItem>)
    requires at <= |q|
    ensures Splice(Splice(q, at, first), at, second) == q[..at] + second + first + q[at..]
  {
    var r := Splice(Splice(q, at, first), at, second);
    var expected := q[..at] + second + first + q[at..];
    assert |r| == |expected|;
    forall k | 0 <= k < |r|
      ensures r[k] == expected[k]
    {
    }
  }

  /** What lies before and after the splice point. */
  /** A prefix of a prefix. */
  lemma PrefixOfPrefix<T>(q: seq<T>, a: nat, b: nat)
    requires a <= b <= |q|
    ensures q[..b][..a] == q[..a]
  {
  }

  /** A sequence that starts with `d` is `d` followed by the rest. */
  lemma ExtendsPrefix<T>(s: seq<T>, d: seq<T>)
    requires |d| <= |s| && s[..|d|] == d
    ensures s == d + s[|d|..]
  {
  }

  lemma SpliceParts(q: seq<QueueItem>, at: nat, items: seq<QueueItem>)
    requires at <= |q|
    ensures Splice(q, at, items)[..at] == q[..at]
    ensures Splice(q, at, items)[at..] == items + q[at..]
    ensures QueueWeight(Splice(q, at, items)[at..]) == QueueWeight(items) + QueueWeight(q[at..])
  {
    assert Splice(q, at, items) == q[..at] + (items + q[at..]);
    QueueWeightConcat(items, q[at..]);
  }

  /** The weight of a suffix is its first entry's plus the rest's. */
  lemma QueueWeightFrom(s: seq<QueueItem>, j: nat)
    requires j < |s|
    ensures QueueWeight(s[j..]) == Weight(s[j]) + QueueWeight(s[j + 1..])
  {
    assert s[j..] == [s[j]] + s[j + 1..];
    QueueWeightConcat([s[j]], s[j + 1..]);
    assert [s[j]][..0] == [];
  }

  /* ---------- frames ---------- */

  const NoFrame := RawFrame(Undefined, Undefined, Undefined, Undefined)

  /** `normalizeFrame`: a size that is missing, null or not positive becomes 1; a falsy position 0. */
  function NormalizeFrame(frame: Option<RawFrame>): (r: Frame)
    ensures r.width > 0.0 && r.height > 0.0
    ensures frame.Some? && frame.value.width.Val? && frame.value.width.v > 0.0 ==> r.width == frame.value.width.v
    ensures frame.Some? && frame.value.height.Val? && frame.value.height.v > 0.0 ==> r.height == frame.value.height.v
    ensures frame.Some? && !(frame.value.width.Val? && frame.value.width.v > 0.0) ==> r.width == 1.0
    ensures frame.Some? && !(frame.value.height.Val? && frame.value.height.v > 0.0) ==> r.height == 1.0
    ensures frame.Some? && Truthy(frame.value.x) ==> r.x == frame.value.x.v
    ensures frame.Some? && Truthy(frame.value.y) ==> r.y == frame.value.y.v
    ensures frame.Some? && !Truthy(frame.value.x) ==> r.x == 0.0
    ensures frame.Some? && !Truthy(frame.value.y) ==> r.y == 0.0
    ensures frame.None? ==> r == Frame(0.0, 0.0, 1.0, 1.0)
  {
    var source := if frame.Some? then frame.value else NoFrame;
    var width := if source.width.Undefined? || AtMost(source.width, 0.0) then 1.0 else source.width.v;
    var height := if source.height.Undefined? || AtMost(source.height, 0.0) then 1.0 else source.height.v;
    Frame(Or(source.x, 0.0), Or(source.y, 0.0), width, height)
  }

  function ClampCoord(v: real): real
  {
    Clamp(-MAX_COORD, MAX_COORD, v)
  }

  /** The frame `createSingleLayer` works with: normalised, then the position clamped. */
  function LayerFrame(frame: Option<RawFrame>): (r: Frame)
    ensures r.width > 0.0 && r.height > 0.0
    ensures -MAX_COORD <= r.x <= MAX_COORD && -MAX_COORD <= r.y <= MAX_COORD
    ensures r.width == NormalizeFrame(frame).width && r.height == NormalizeFrame(frame).height
    ensures var x := NormalizeFrame(frame).x;
      (x < -MAX_COORD ==> r.x == -MAX_COORD) && (x > MAX_COORD ==> r.x == MAX_COORD) &&
      (-MAX_COORD <= x <= MAX_COORD ==> r.x == x)
    ensures var y := NormalizeFrame(frame).y;
      (y < -MAX_COORD ==> r.y == -MAX_COORD) && (y > MAX_COORD ==> r.y == MAX_COORD) &&
      (-MAX_COORD <= y <= MAX_COORD ==> r.y == y)
  {
    var f := NormalizeFrame(frame);
    f.(x := ClampCoord(Or(Val(f.x), 0.0)), y := ClampCoord(Or(Val(f.y), 0.0)))
  }

  function AsRaw(f: Frame): RawFrame
  {
    RawFrame(Val(f.x), Val(f.y), Val(f.width), Val(f.height))
  }

  /** A frame already in range with a positive size passes unchanged. */
  lemma LayerFrameFixesValid(f: Frame)
    requires f.width > 0.0 && f.height > 0.0
    requires -MAX_COORD <= f.x <= MAX_COORD && -MAX_COORD <= f.y <= MAX_COORD
    ensures LayerFrame(Some(AsRaw(f))) == f
  {
  }

  /** Repairing a repaired frame changes nothing. */
  lemma LayerFrameIdempotent(frame: Option<RawFrame>)
    ensures LayerFrame(Some(AsRaw(LayerFrame(frame)))) == LayerFrame(frame)
  {
    LayerFrameFixesValid(LayerFrame(frame));
  }

  /* ---------- the primitives createSingleLayer asks for ---------- */

  /** Text content: the string, else a name other than 'text', else 'Text'. */
  function TextContent(json: Node): (r: string)
    ensures r != ""
    ensures json.text != "" ==> r == json.text
    ensures json.text == "" && json.name != "" && json.name != "text" ==> r == json.name
  {
    if json.text != "" then json.text
    else if json.name != "" && json.name != "text" then json.name
    else "Text"
  }

  /** The font size, applied only strictly between 0 and 200. */
  function FontSize(json: Node): (r: Option<real>)
    ensures r.Some? ==> 0.0 < r.value < 200.0
    ensures var size := StyleOf(json.style).fontSize;
      r.Some? <==> size.Val? && 0.0 < size.v < 200.0
    ensures r.Some? ==> r.value == StyleOf(json.style).fontSize.v
  {
    var size := StyleOf(json.style).fontSize;
    if size.Val? && size.v > 0.0 && size.v < 200.0 then Some(size.v) else None
  }

  /** A style carrying only the node's opacity. */
  function OpacityOnly(json: Node): ShapeStyle
  {
    NoStyle.(opacity := StyleOf(json.style).opacity)
  }

  function TextRecord(json: Node, parent: Parent, frame: Frame): Record
  {
    Record(Kind.Text, OrText(json.name, "Text"),
           Frame(frame.x, frame.y, Max(10.0, frame.width), Max(10.0, frame.height)),
           parent, OpacityOnly(json), TextContent(json), FontSize(json), [], 0.0, None)
  }

  /** Shapes and groups are at least 1 by 1. */
  function ShapeFrame(frame: Frame): Frame
  {
    Frame(frame.x, frame.y, Max(1.0, frame.width), Max(1.0, frame.height))
  }

  /** A point's corner radius when it is a positive number, else 0. */
  function PositiveRadius(pt: PathPoint): real
  {
    if pt.cornerRadius.Val? && pt.cornerRadius.v > 0.0 then pt.cornerRadius.v else 0.0
  }

  /** The largest positive point radius, 0 when there is none. */
  function MaxRadius(points: seq<PathPoint>): (r: real)
    ensures r >= 0.0
    ensures forall k :: 0 <= k < |points| ==> PositiveRadius(points[k]) <= r
    ensures r == 0.0 || exists k :: 0 <= k < |points| && r == PositiveRadius(points[k])
  {
    if points == [] then 0.0
    else Max(MaxRadius(points[..|points| - 1]), PositiveRadius(points[|points| - 1]))
  }

  /** Only a rectangle with at least four points gets a corner radius. */
  function CornerRadius(json: Node): (r: real)
    ensures r >= 0.0
    ensures json.cls != "rectangle" || |json.points| < 4 ==> r == 0.0
  {
    if json.cls == "rectangle" && |json.points| >= 4 then MaxRadius(json.points) else 0.0
  }

  function ShapeRecord(json: Node, parent: Parent, frame: Frame, name: string, style: ShapeStyle): Record
  {
    Record(Shape, name, ShapeFrame(frame), parent, style, "", None, [], CornerRadius(json), None)
  }

  function GroupRecord(json: Node, parent: Parent, frame: Frame): Record
  {
    Record(Group, OrText(json.name, "Group"), ShapeFrame(frame), parent, OpacityOnly(json), "", None, [], 0.0, None)
  }

  /** The fills a shape group leaves for its path children. */
  function GroupFills(json: Node): seq<FillOut>
  {
    var fills := BuildShapeStyle(json.style).fills;
    if fills.Some? then fills.value else []
  }

  /** A path's style: its own fills, or the parent shape group's when it has none. */
  function PathStyle(json: Node, inherited: seq<FillOut>): (r: ShapeStyle)
    ensures BuildShapeStyle(json.style).fills.Some? || inherited == [] ==> r == BuildShapeStyle(json.style)
    ensures BuildShapeStyle(json.style).fills.None? && inherited != [] ==>
      r == BuildShapeStyle(json.style).(fills := Some(inherited))
  {
    var style := BuildShapeStyle(json.style);
    if style.fills.None? && |inherited| > 0 then style.(fills := Some(inherited)) else style
  }

  /** The fills a path inherits from the primitive it is attached to. */
  function Inherited(layers: seq<Record>, parent: Parent): seq<FillOut>
  {
    if parent.Layer? && parent.index < |layers| then layers[parent.index].groupFills else []
  }

  /** The primitive for a node by its class; unknown classes become shapes. */
  function LayerRecord(json: Node, parent: Parent, frame: Frame, inherited: seq<FillOut>): (r: Record)
    ensures r.parent == parent
    ensures r.kind == Kind.Text <==> json.cls == "text"
    ensures r.kind == Group <==> json.cls == "group" || json.cls == "artboard" || json.cls == "shapeGroup"
    ensures r.kind == Shape <==> !(json.cls in ["text", "group", "artboard", "shapeGroup"])
    ensures r.groupFills != [] ==> json.cls == "shapeGroup"
    ensures r.cornerRadius > 0.0 ==> json.cls == "rectangle"
  {
    if json.cls == "text" then TextRecord(json, parent, frame)
    else if json.cls == "rectangle" || json.cls == "oval" then
      ShapeRecord(json, parent, frame, OrText(json.name, "Shape"), BuildShapeStyle(json.style))
    else if json.cls == "group" || json.cls == "artboard" then GroupRecord(json, parent, frame)
    else if json.cls == "shapeGroup" then GroupRecord(json, parent, frame).(groupFills := GroupFills(json))
    else if json.cls == "shapePath" then
      ShapeRecord(json, parent, frame, OrText(json.name, "ShapePath"), PathStyle(json, inherited))
    else ShapeRecord(json, parent, frame, OrText(json.name, "Shape"), BuildShapeStyle(json.style))
  }

  /**
   * A path takes the parent shape group's fills only when it has none of
   * its own; its own fills always win.
   */
  lemma ShapePathInherits(json: Node, parent: Parent, frame: Frame, inherited: seq<FillOut>)
    requires json.cls == "shapePath"
    ensures var own := BuildShapeStyle(json.style).fills;
      var fills := LayerRecord(json, parent, frame, inherited).style.fills;
      && (own.Some? ==> fills == own)
      && (own.None? && |inherited| > 0 ==> fills == Some(inherited))
      && (own.None? && |inherited| == 0 ==> fills.None?)
  {
  }

  /** An SVG is imported only when its text is non-empty and at most 512 KiB long. */
  predicate SvgImportable(json: Node)
  {
    json.svgString != "" && |json.svgString| <= MAX_SVG_SIZE
  }

  function SvgRecord(json: Node, parent: Parent, frame: Frame): Record
  {
    Record(ImportedSvg, OrText(json.name, "SVG"), frame, parent, NoStyle, "", None, [], 0.0, None)
  }

  /** The root artboard at the origin, 375 by 812 unless the design says otherwise. */
  function RootRecord(json: Node): (r: Record)
    ensures r.kind == Artboard && r.parent == Page && r.frame.x == 0.0 && r.frame.y == 0.0
    ensures r.name == (if json.name != "" then json.name else "Generated Design")
    ensures json.frame.None? ==> r.frame.width == 375.0 && r.frame.height == 812.0
    ensures json.frame.Some? && Truthy(json.frame.value.width) ==> r.frame.width == json.frame.value.width.v
    ensures r.background.Some? <==> json.background.Some?
    ensures json.background == Some("") ==> r.background == Some("#FFFFFF")
  {
    var f := if json.frame.Some? then json.frame.value else NoFrame;
    Record(Artboard, OrText(json.name, "Generated Design"), Frame(0.0, 0.0, Or(f.width, 375.0), Or(f.height, 812.0)),
           Page, NoStyle, "", None, [], 0.0,
           if json.background.Some? then Some(OrText(json.background.value, "#FFFFFF")) else None)
  }

  /* ---------- queue entries against the document ---------- */

  /** An entry's parent exists and sits at the entry's depth (the root artboard at depth 0). */
  ghost predicate Placed(layers: seq<Record>, item: QueueItem)
  {
    && ParentsPrecede(layers)
    && item.parent.Layer? && item.parent.index < |layers|
    && item.depth <= MAX_DEPTH
    && Depth(layers, item.parent.index) == item.depth
  }

  lemma PlacedGrows(s: seq<Record>, t: seq<Record>, q: seq<QueueItem>)
    requires ParentsPrecede(s + t)
    requires forall k :: 0 <= k < |q| ==> Placed(s, q[k])
    ensures forall k :: 0 <= k < |q| ==> Placed(s + t, q[k])
  {
    forall k | 0 <= k < |q|
      ensures Placed(s + t, q[k])
    {
      DepthStable(s, t, q[k].parent.index);
    }
  }

  /** The entries flattened under primitive `p` at its own depth are placed. */
  lemma FlattenPlaced(layers: seq<Record>, children: seq<Node>, p: nat, parentFrame: Option<RawFrame>, depth: nat)
    requires ParentsPrecede(layers) && p < |layers| && Depth(layers, p) == depth
    ensures forall k :: 0 <= k < |Flatten(children, Layer(p), parentFrame, depth)| ==>
      Placed(layers, Flatten(children, Layer(p), parentFrame, depth)[k])
  {
    FlattenItems(children, Layer(p), parentFrame, depth);
  }

  /** Splicing placed entries into a placed queue keeps every entry placed. */
  lemma SplicePlaced(layers: seq<Record>, q: seq<QueueItem>, at: nat, items: seq<QueueItem>)
    requires at <= |q|
    requires forall k :: 0 <= k < |q| ==> Placed(layers, q[k])
    requires forall k :: 0 <= k < |items| ==> Placed(layers, items[k])
    ensures forall k :: 0 <= k < |Splice(q, at, items)| ==> Placed(layers, Splice(q, at, items)[k])
  {
    var r := Splice(q, at, items);
    forall k | 0 <= k < |r|
      ensures Placed(layers, r[k])
    {
      if k < at {
        assert r[k] == q[k];
      } else if k < at + |items| {
        assert r[k] == items[k - at];
      } else {
        assert r[k] == q[k - |items|];
      }
    }
  }

  /** Every primitive from index `from` on hangs under another one, at most 31 deep. */
  ghost predicate CreatedNested(s: seq<Record>, from: nat)
  {
    ParentsPrecede(s) && forall i :: from <= i < |s| ==> s[i].parent.Layer? && 1 <= Depth(s, i) <= MAX_DEPTH + 1
  }

  lemma CreatedNestedGrows(s: seq<Record>, t: seq<Record>, from: nat)
    requires from <= |s| && CreatedNested(s, from) && CreatedNested(s + t, |s|)
    ensures CreatedNested(s + t, from)
  {
    forall i | from <= i < |s|
      ensures (s + t)[i].parent.Layer? && 1 <= Depth(s + t, i) <= MAX_DEPTH + 1
    {
      DepthStable(s, t, i);
    }
  }

  /** A primitive appended under a placed entry's parent sits one level below it, and the entry stays placed. */
  lemma AppendedChild(s: seq<Record>, r: Record, item: QueueItem)
    requires Placed(s, item) && r.parent == item.parent && ParentsPrecede(s + [r])
    ensures Placed(s + [r], item)
    ensures Depth(s + [r], |s|) == item.depth + 1
    ensures CreatedNested(s + [r], |s|)
  {
    DepthStable(s, [r], item.parent.index);
  }

  /* ---------- the reference run ---------- */

  /** The document, the queue and `globalLayerCount` during a run. */
  datatype BatchState = BatchState(host: HostState, queue: seq<QueueItem>, count: nat)

  /** A state together with the primitive a creation returned, if any. */
  datatype Created = Created(host: HostState, layer: Option<Parent>)

  /**
   * What `createSingleLayer` leaves and returns: an importable SVG marker
   * is imported when the host lets it; otherwise (or when the import
   * fails) the node's primitive by class, or nothing when that fails.
   */
  function SingleLayer(fails: nat -> bool, s: HostState, json: Node, parent: Parent): Created
  {
    var frame := LayerFrame(json.frame);
    var tried := IsSvgMarker(json) && SvgImportable(json);
    var svg := if tried then Try(fails, s, SvgRecord(json, parent, frame)) else s;
    if tried && !fails(s.attempts) then Created(svg, Some(Layer(|s.layers|)))
    else
      Created(Try(fails, svg, LayerRecord(json, parent, frame, Inherited(svg.layers, parent))),
              if fails(svg.attempts) then None else Some(Layer(|s.layers|)))
  }

  /** The entries a processed item splices in: its flattened children, when it was created and expands. */
  function Additions(layer: Option<Parent>, item: QueueItem): seq<QueueItem>
  {
    if layer.Some? && Expands(item) then Flatten(item.childrenJSON, layer.value, item.json.frame, item.depth + 1) else []
  }

  /**
   * One entry of a batch: created or not; when created, counted and its
   * additions spliced in at `endIndex`. A failure leaves the queue and the
   * counter as they were.
   */
  function ProcessedItem(fails: nat -> bool, st: BatchState, item: QueueItem, endIndex: nat): (r: BatchState)
    requires endIndex <= |st.queue|
    ensures |r.queue| >= |st.queue| && r.queue[..endIndex] == st.queue[..endIndex]
    ensures r.count <= st.count + 1
    ensures SingleLayer(fails, st.host, item.json, item.parent).layer.None? ==> r.queue == st.queue && r.count == st.count
    ensures r.queue == Splice(st.queue, endIndex, Additions(SingleLayer(fails, st.host, item.json, item.parent).layer, item))
    ensures |st.host.layers| <= |r.host.layers| && r.host.layers[..|st.host.layers|] == st.host.layers
    ensures r.count - st.count == |r.host.layers| - |st.host.layers|
  {
    var c := SingleLayer(fails, st.host, item.json, item.parent);
    if c.layer.None? then
      assert st.queue == Splice(st.queue, endIndex, []);
      st.(host := c.host)
    else BatchState(c.host, Splice(st.queue, endIndex, Additions(c.layer, item)), st.count + 1)
  }

  /** A batch: its entries processed in order, each from the state the previous one left. */
  function ProcessedBatch(fails: nat -> bool, st: BatchState, batch: seq<QueueItem>, endIndex: nat): (r: BatchState)
    requires endIndex <= |st.queue|
    ensures |r.queue| >= |st.queue| && r.queue[..endIndex] == st.queue[..endIndex]
    ensures st.count <= r.count <= st.count + |batch|
    ensures |st.host.layers| <= |r.host.layers| && r.host.layers[..|st.host.layers|] == st.host.layers
    ensures r.count - st.count == |r.host.layers| - |st.host.layers|
  {
    if batch == [] then st
    else
      var before := ProcessedBatch(fails, st, batch[..|batch| - 1], endIndex);
      var after := ProcessedItem(fails, before, batch[|batch| - 1], endIndex);
      assert before.queue[..endIndex] == st.queue[..endIndex];
      assert after.host.layers[..|st.host.layers|] == after.host.layers[..|before.host.layers|][..|st.host.layers|];
      after
  }

  /** Processing one more entry of a batch. */
  lemma ProcessedBatchStep(fails: nat -> bool, st: BatchState, batch: seq<QueueItem>, j: nat, endIndex: nat)
    requires endIndex <= |st.queue| && j < |batch|
    ensures ProcessedBatch(fails, st, batch[..j + 1], endIndex) ==
            ProcessedItem(fails, ProcessedBatch(fails, st, batch[..j], endIndex), batch[j], endIndex)
  {
    assert batch[..j + 1][..j] == batch[..j];
  }

  /** The entries a batch splices in, the last entry's first. */
  function BatchInserted(fails: nat -> bool, st: BatchState, batch: seq<QueueItem>, endIndex: nat): seq<QueueItem>
    requires endIndex <= |st.queue|
  {
    if batch == [] then []
    else
      var before := ProcessedBatch(fails, st, batch[..|batch| - 1], endIndex);
      Additions(SingleLayer(fails, before.host, batch[|batch| - 1].json, batch[|batch| - 1].parent).layer,
                batch[|batch| - 1]) +
      BatchInserted(fails, st, batch[..|batch| - 1], endIndex)
  }

  /** Splicing into a queue laid out as `pre + mid + post` at the end of `pre`. */
  lemma SpliceAfter(pre: seq<QueueItem>, mid: seq<QueueItem>, post: seq<QueueItem>, a: seq<QueueItem>)
    ensures Splice(pre + mid + post, |pre|, a) == pre + (a + mid) + post
  {
    var q := pre + mid + post;
    assert q[..|pre|] == pre;
    assert q[|pre|..] == mid + post;
  }

  /**
   * After a batch the queue is what came before `endIndex`, then everything
   * the batch spliced in (a later entry's children before an earlier
   * one's), then what came after `endIndex`.
   */
  lemma {:induction false} BatchQueueShape(fails: nat -> bool, st: BatchState, batch: seq<QueueItem>, endIndex: nat)
    requires endIndex <= |st.queue|
    ensures ProcessedBatch(fails, st, batch, endIndex).queue ==
            st.queue[..endIndex] + BatchInserted(fails, st, batch, endIndex) + st.queue[endIndex..]
    decreases |batch|
  {
    if batch == [] {
      assert st.queue == st.queue[..endIndex] + [] + st.queue[endIndex..];
    } else {
      var init := batch[..|batch| - 1];
      var last := batch[|batch| - 1];
      BatchQueueShape(fails, st, init, endIndex);
      var before := ProcessedBatch(fails, st, init, endIndex);
      var a := Additions(SingleLayer(fails, before.host, last.json, last.parent).layer, last);
      SpliceAfter(st.queue[..endIndex], BatchInserted(fails, st, init, endIndex), st.queue[endIndex..], a);
    }
  }

  /** An entry's additions weigh less than the entry. */
  lemma AdditionsWeight(layer: Option<Parent>, item: QueueItem)
    ensures QueueWeight(Additions(layer, item)) < Weight(item)
  {
    if layer.Some? && Expands(item) {
      FlattenWeight(item.childrenJSON, layer.value, item.json.frame, item.depth + 1);
    }
  }

  /**
   * What a batch splices in weighs at least one less per entry than the
   * batch itself, and together with what the counter gains no more than it.
   */
  lemma {:induction false} BatchInsertedWeight(fails: nat -> bool, st: BatchState, batch: seq<QueueItem>, endIndex: nat)
    requires endIndex <= |st.queue|
    ensures QueueWeight(BatchInserted(fails, st, batch, endIndex)) + |batch| <= QueueWeight(batch)
    ensures ProcessedBatch(fails, st, batch, endIndex).count - st.count + QueueWeight(BatchInserted(fails, st, batch, endIndex))
            <= QueueWeight(batch)
    decreases |batch|
  {
    if batch != [] {
      var init := batch[..|batch| - 1];
      var last := batch[|batch| - 1];
      BatchInsertedWeight(fails, st, init, endIndex);
      var before := ProcessedBatch(fails, st, init, endIndex);
      var layer := SingleLayer(fails, before.host, last.json, last.parent).layer;
      AdditionsWeight(layer, last);
      QueueWeightConcat(Additions(layer, last), BatchInserted(fails, st, init, endIndex));
      assert QueueWeight(batch) == QueueWeight(init) + Weight(last);
    }
  }

  /** The end of the batch that starts at `start`: its size is chosen from the whole queue's length. */
  function BatchEnd(queue: seq<QueueItem>, start: nat): (e: nat)
    requires start < |queue|
    ensures start < e <= |queue| && e - start <= BATCH_SIZE
  {
    MinInt(start + GetAdaptiveBatchSize(|queue|), |queue|)
  }

  /** A batch leaves less work behind its end than there was from its start. */
  lemma BatchShrinks(fails: nat -> bool, st: BatchState, start: nat, end: nat)
    requires start < end <= |st.queue|
    ensures QueueWeight(ProcessedBatch(fails, st, st.queue[start..end], end).queue[end..]) < QueueWeight(st.queue[start..])
  {
    var batch := st.queue[start..end];
    var inserted := BatchInserted(fails, st, batch, end);
    BatchQueueShape(fails, st, batch, end);
    BatchInsertedWeight(fails, st, batch, end);
    QueueWeightAfter(st.queue[..end], inserted, st.queue[end..]);
    QueueWeightSplit(st.queue, start, end);
  }

  /** The work behind a prefix of a queue laid out as `pre + mid + post`. */
  lemma QueueWeightAfter(pre: seq<QueueItem>, mid: seq<QueueItem>, post: seq<QueueItem>)
    ensures QueueWeight((pre + mid + post)[|pre|..]) == QueueWeight(mid) + QueueWeight(post)
  {
    assert (pre + mid + post)[|pre|..] == mid + post;
    QueueWeightConcat(mid, post);
  }

  /** The work from `start` is the work of `start..end` plus the work from `end`. */
  lemma QueueWeightSplit(q: seq<QueueItem>, start: nat, end: nat)
    requires start <= end <= |q|
    ensures QueueWeight(q[start..]) == QueueWeight(q[start..end]) + QueueWeight(q[end..])
  {
    assert q[start..] == q[start..end] + q[end..];
    QueueWeightConcat(q[start..end], q[end..]);
  }

  /**
   * `processBatchQueue` from `start`: stop when the queue is worked off or
   * the counter has reached the cap; otherwise process the next batch and
   * go on from its end.
   */
  function Run(fails: nat -> bool, st: BatchState, start: nat): BatchState
    requires start <= |st.queue|
    decreases QueueWeight(st.queue[start..])
  {
    if start >= |st.queue| || st.count >= MAX_LAYERS then st
    else
      var end := BatchEnd(st.queue, start);
      var batch := st.queue[start..end];
      var next := ProcessedBatch(fails, st, batch, end);
      BatchShrinks(fails, st, start, end);
      Run(fails, next, end)
  }

  /**
   * `convertToSketchAsyncBatch`: the counter reset and the root artboard
   * created; when it exists, its top-level nodes flattened under it at
   * depth 0 and the queue worked off from the start.
   */
  function ConvertAsync(fails: nat -> bool, st: BatchState, json: Node): (BatchState, Option<Parent>)
  {
    var s1 := Try(fails, st.host, RootRecord(json));
    if fails(st.host.attempts) then (BatchState(s1, [], 0), None)
    else
      var root := Layer(|st.host.layers|);
      (Run(fails, BatchState(s1, Flatten(json.layers, root, None, 0), 0), 0), Some(root))
  }

  class BatchConverter {
    var queue: seq<QueueItem>
    /** `globalLayerCount` */
    var layerCount: nat
    const doc: Document

    ghost predicate Valid()
      reads this, doc
    {
      doc.Valid() && forall k :: 0 <= k < |queue| ==> Placed(doc.layers, queue[k])
    }

    constructor (doc: Document)
      requires doc.Valid()
      ensures Valid() && this.doc == doc && queue == [] && layerCount == 0
    {
      this.doc := doc;
      queue := [];
      layerCount := 0;
    }

    /** The document, the queue and the counter as one value. */
    function Snapshot(): BatchState
      reads this, doc
    {
      BatchState(doc.State(), queue, layerCount)
    }

    /** `importSVGLayer`: refused for an empty or oversized text, otherwise one host attempt. */
    method ImportSvgLayer(json: Node, parent: Parent, frame: Frame) returns (layer: Option<Parent>)
      requires doc.Valid() && doc.Attachable(parent)
      modifies doc
      ensures doc.Valid()
      ensures !SvgImportable(json) ==> layer.None? && doc.layers == old(doc.layers) && doc.attempts == old(doc.attempts)
      ensures SvgImportable(json) ==> doc.attempts == old(doc.attempts) + 1
      ensures SvgImportable(json) && doc.fails(old(doc.attempts)) ==> layer.None? && doc.layers == old(doc.layers)
      ensures SvgImportable(json) && !doc.fails(old(doc.attempts)) ==>
        layer == Some(Layer(|old(doc.layers)|)) && doc.layers == old(doc.layers) + [SvgRecord(json, parent, frame)]
      ensures doc.State() == if SvgImportable(json) then Try(doc.fails, old(doc.State()), SvgRecord(json, parent, frame)) else old(doc.State())
    {
      if json.svgString == "" || |json.svgString| > MAX_SVG_SIZE {
        return None;
      }
      layer := doc.Create(SvgRecord(json, parent, frame));
    }

    /**
     * `createSingleLayer`: an SVG marker is first imported whole; when that
     * is refused or fails, the node is created by its class. Every host
     * failure is caught and gives no primitive.
     */
    method CreateSingleLayer(json: Node, parent: Parent) returns (layer: Option<Parent>)
      requires doc.Valid() && parent.Layer? && parent.index < |doc.layers|
      modifies doc
      ensures doc.Valid()
      ensures layer.None? ==> doc.layers == old(doc.layers)
      ensures layer.Some? ==>
        && layer == Some(Layer(|old(doc.layers)|))
        && |doc.layers| == |old(doc.layers)| + 1
        && doc.layers == old(doc.layers) + [doc.layers[|old(doc.layers)|]]
        && doc.layers[|old(doc.layers)|].parent == parent
      ensures var tried := IsSvgMarker(json) && SvgImportable(json);
        var frame := LayerFrame(json.frame);
        var second := if tried then old(doc.attempts) + 1 else old(doc.attempts);
        if tried && !doc.fails(old(doc.attempts)) then
          layer == Some(Layer(|old(doc.layers)|)) && doc.layers == old(doc.layers) + [SvgRecord(json, parent, frame)]
        else if doc.fails(second) then
          layer.None? && doc.layers == old(doc.layers)
        else
          layer == Some(Layer(|old(doc.layers)|)) &&
          doc.layers == old(doc.layers) + [LayerRecord(json, parent, frame, Inherited(old(doc.layers), parent))]
      ensures Created(doc.State(), layer) == SingleLayer(doc.fails, old(doc.State()), json, parent)
    {
      var frame := LayerFrame(json.frame);
      if json.cls == "group" && json.name == "svg" && json.svgImport && json.svgString != "" {
        layer := ImportSvgLayer(json, parent, frame);
        if layer.Some? {
          return;
        }
      }
      var inherited := Inherited(doc.layers, parent);
      layer := doc.Create(LayerRecord(json, parent, frame, inherited));
    }

    /**
     * One entry of a batch: create it, count it, and splice its flattened
     * children in at `endIndex`. The entry's weight pays for what it adds.
     */
    method ProcessItem(item: QueueItem, endIndex: nat) returns (layer: Option<Parent>, ghost added: seq<QueueItem>)
      requires Valid() && Placed(doc.layers, item) && endIndex <= |queue|
      modifies this, doc
      ensures Valid()
      ensures queue == Splice(old(queue), endIndex, added)
      ensures |old(doc.layers)| <= |doc.layers| <= |old(doc.layers)| + 1
      ensures doc.layers[..|old(doc.layers)|] == old(doc.layers)
      ensures layerCount == old(layerCount) + |doc.layers| - |old(doc.layers)|
      ensures layerCount - old(layerCount) + QueueWeight(added) <= Weight(item)
      ensures QueueWeight(added) < Weight(item)
      ensures forall i :: |old(doc.layers)| <= i < |doc.layers| ==> doc.layers[i].parent == item.parent
      ensures CreatedNested(doc.layers, |old(doc.layers)|)
      ensures Created(doc.State(), layer) == SingleLayer(doc.fails, old(doc.State()), item.json, item.parent)
      ensures added == Additions(layer, item)
      ensures Snapshot() == ProcessedItem(doc.fails, old(Snapshot()), item, endIndex)
    {
      added := [];
      assert queue == Splice(queue, endIndex, []);
      ghost var before := doc.layers;
      layer := CreateSingleLayer(item.json, item.parent);
      if layer.Some? {
        layerCount := layerCount + 1;
        var t := [doc.layers[|before|]];
        PlacedGrows(before, t, queue);
        AppendedChild(before, t[0], item);
        added := QueueChildren(item, layer.value.index, endIndex);
      } else {
        assert queue == Splice(queue, endIndex, added);
      }
    }

    /**
     * The children of an entry just created as primitive `p`: when the
     * entry expands, its flattened children are spliced in at `endIndex`.
     */
    method QueueChildren(item: QueueItem, p: nat, endIndex: nat) returns (ghost added: seq<QueueItem>)
      requires Valid() && p < |doc.layers| && Depth(doc.layers, p) == item.depth + 1 && endIndex <= |queue|
      modifies this
      ensures Valid() && layerCount == old(layerCount)
      ensures added == Additions(Some(Layer(p)), item)
      ensures queue == Splice(old(queue), endIndex, added)
      ensures QueueWeight(added) < Weight(item)
    {
      AdditionsWeight(Some(Layer(p)), item);
      if item.hasChildren && !item.skipChildren {
        var childQueue := FlattenLayers(item.childrenJSON, Layer(p), item.json.frame, item.depth + 1);
        FlattenPlaced(doc.layers, item.childrenJSON, p, item.json.frame, item.depth + 1);
        SplicePlaced(doc.layers, queue, endIndex, childQueue);
        queue := Splice(queue, endIndex, childQueue);
        added := childQueue;
      } else {
        added := [];
        assert queue == Splice(queue, endIndex, []);
      }
    }

    /**
     * One batch (the `forEach` over a copy of the batch's entries): every
     * entry is processed in order, children are spliced in at `endIndex`,
     * and nothing before `endIndex` moves. The counter grows by at most one
     * per entry, and what it gains plus what is now queued after `endIndex`
     * weighs no more than the batch plus what was queued there before.
     */
    method ProcessBatch(batch: seq<QueueItem>, endIndex: nat)
      requires Valid() && endIndex <= |queue|
      requires forall k :: 0 <= k < |batch| ==> Placed(doc.layers, batch[k])
      modifies this, doc
      ensures Valid()
      ensures |queue| >= |old(queue)| && queue[..endIndex] == old(queue)[..endIndex]
      ensures |doc.layers| >= |old(doc.layers)| && doc.layers[..|old(doc.layers)|] == old(doc.layers)
      ensures layerCount == old(layerCount) + |doc.layers| - |old(doc.layers)|
      ensures layerCount <= old(layerCount) + |batch|
      ensures layerCount + QueueWeight(queue[endIndex..]) <=
              old(layerCount) + QueueWeight(batch) + QueueWeight(old(queue)[endIndex..])
      ensures QueueWeight(queue[endIndex..]) + |batch| <= QueueWeight(batch) + QueueWeight(old(queue)[endIndex..])
      ensures CreatedNested(doc.layers, |old(doc.layers)|)
      ensures Snapshot() == ProcessedBatch(doc.fails, old(Snapshot()), batch, endIndex)
      ensures queue == old(queue)[..endIndex] + BatchInserted(doc.fails, old(Snapshot()), batch, endIndex) + old(queue)[endIndex..]
    {
      ghost var s0 := Snapshot();
      ghost var qb := queue;
      ghost var d0 := doc.layers;
      var j := 0;
      while j < |batch|
        invariant Valid()
        invariant 0 <= j <= |batch|
        invariant Snapshot() == ProcessedBatch(doc.fails, s0, batch[..j], endIndex)
        invariant forall k :: 0 <= k < |batch| ==> Placed(doc.layers, batch[k])
        invariant CreatedNested(doc.layers, |d0|)
      {
        var item := batch[j];
        ProcessedBatchStep(doc.fails, s0, batch, j, endIndex);
        ghost var di := doc.layers;
        var _, _ := ProcessItem(item, endIndex);
        var t := doc.layers[|di|..];
        ExtendsPrefix(doc.layers, di);
        PlacedGrows(di, t, batch);
        CreatedNestedGrows(di, t, |d0|);
        j := j + 1;
      }
      assert batch[..j] == batch;
      BatchQueueShape(doc.fails, s0, batch, endIndex);
      BatchInsertedWeight(doc.fails, s0, batch, endIndex);
      QueueWeightAfter(qb[..endIndex], BatchInserted(doc.fails, s0, batch, endIndex), qb[endIndex..]);
    }

    /**
     * `processBatchQueue` from `startIndex`: one batch, its size chosen
     * from the whole queue length, then the same from the end of the batch,
     * until the queue is worked off or the counter has reached the cap. The
     * counter counts exactly the primitives created and ends below 2000
     * plus a batch; entries before `startIndex` are never touched; every
     * primitive created is nested at most 31 deep; and the counter grows by
     * no more than the weight of the entries still to do.
     */
    method ProcessBatchQueue(startIndex: nat) returns (stoppedAt: nat)
      requires Valid() && startIndex <= |queue|
      modifies this, doc
      decreases QueueWeight(queue[startIndex..])
      ensures Valid()
      ensures startIndex <= stoppedAt && (stoppedAt >= |queue| || layerCount >= MAX_LAYERS)
      ensures |queue| >= |old(queue)| && queue[..startIndex] == old(queue)[..startIndex]
      ensures |doc.layers| >= |old(doc.layers)| && doc.layers[..|old(doc.layers)|] == old(doc.layers)
      ensures layerCount == old(layerCount) + |doc.layers| - |old(doc.layers)|
      ensures old(layerCount) < MAX_LAYERS ==> layerCount < MAX_LAYERS + BATCH_SIZE
      ensures old(layerCount) >= MAX_LAYERS ==> layerCount == old(layerCount) && doc.layers == old(doc.layers)
      ensures layerCount <= old(layerCount) + QueueWeight(old(queue)[startIndex..])
      ensures CreatedNested(doc.layers, |old(doc.layers)|)
      ensures Snapshot() == Run(doc.fails, old(Snapshot()), startIndex)
    {
      if startIndex >= |queue| || layerCount >= MAX_LAYERS {
        return startIndex;
      }
      ghost var q0 := queue;
      ghost var d0 := doc.layers;
      ghost var s0 := Snapshot();
      var endIndex := RunBatch(startIndex);
      ghost var s1 := Snapshot();
      assert Run(doc.fails, s0, startIndex) == Run(doc.fails, s1, endIndex);
      ghost var q1 := queue;
      ghost var d1 := doc.layers;
      stoppedAt := ProcessBatchQueue(endIndex);
      PrefixOfPrefix(queue, startIndex, endIndex);
      PrefixOfPrefix(q1, startIndex, endIndex);
      PrefixOfPrefix(q0, startIndex, endIndex);
      PrefixOfPrefix(doc.layers, |d0|, |d1|);
      var t := doc.layers[|d1|..];
      ExtendsPrefix(doc.layers, d1);
      CreatedNestedGrows(d1, t, |d0|);
    }

    /**
     * One turn of the batch loop: the next `getAdaptiveBatchSize` entries
     * from `startIndex` are processed. The queue after the batch weighs
     * strictly less than it did from `startIndex`, and by at least what the
     * counter gained.
     */
    method RunBatch(startIndex: nat) returns (endIndex: nat)
      requires Valid() && startIndex < |queue| && layerCount < MAX_LAYERS
      modifies this, doc
      ensures Valid()
      ensures startIndex < endIndex <= |old(queue)| <= |queue|
      ensures queue[..endIndex] == old(queue)[..endIndex]
      ensures |doc.layers| >= |old(doc.layers)| && doc.layers[..|old(doc.layers)|] == old(doc.layers)
      ensures layerCount == old(layerCount) + |doc.layers| - |old(doc.layers)|
      ensures layerCount < MAX_LAYERS + BATCH_SIZE
      ensures layerCount + QueueWeight(queue[endIndex..]) <= old(layerCount) + QueueWeight(old(queue)[startIndex..])
      ensures QueueWeight(queue[endIndex..]) < QueueWeight(old(queue)[startIndex..])
      ensures CreatedNested(doc.layers, |old(doc.layers)|)
      ensures endIndex == BatchEnd(old(queue), startIndex)
      ensures Snapshot() == ProcessedBatch(doc.fails, old(Snapshot()), old(queue)[startIndex..endIndex], endIndex)
    {
      var batchSize := GetAdaptiveBatchSize(|queue|);
      endIndex := MinInt(startIndex + batchSize, |queue|);
      var batch := queue[startIndex..endIndex];
      assert queue[startIndex..] == batch + queue[endIndex..];
      QueueWeightConcat(batch, queue[endIndex..]);
      forall k | 0 <= k < |batch|
        ensures Placed(doc.layers, batch[k])
      {
        assert batch[k] == queue[startIndex + k];
      }
      ProcessBatch(batch, endIndex);
    }

    /**
     * `convertToSketchAsyncBatch`: resets the counter, creates the root
     * artboard (nothing else happens when that fails), queues the top-level
     * nodes under it and works the queue off. The counter ends below the
     * estimate of the whole design and below the cap plus one batch.
     */
    method ConvertToSketchAsyncBatch(sketchJSON: Node) returns (root: Option<Parent>)
      requires Valid()
      modifies this, doc
      ensures Valid()
      ensures root.None? ==> doc.layers == old(doc.layers) && layerCount == 0
      ensures root.Some? ==>
        && root == Some(Layer(|old(doc.layers)|))
        && |doc.layers| > |old(doc.layers)|
        && doc.layers[..|old(doc.layers)|] == old(doc.layers)
        && doc.layers[|old(doc.layers)|] == RootRecord(sketchJSON)
        && layerCount == |doc.layers| - |old(doc.layers)| - 1
        && layerCount < EstimateLayerCount(sketchJSON)
        && layerCount < MAX_LAYERS + BATCH_SIZE
        && CreatedNested(doc.layers, |old(doc.layers)| + 1)
      ensures (Snapshot(), root) == ConvertAsync(doc.fails, old(Snapshot()), sketchJSON)
    {
      ghost var h0 := doc.State();
      layerCount := 0;
      ghost var d0 := doc.layers;
      root := doc.Create(RootRecord(sketchJSON));
      ghost var h1 := doc.State();
      assert h1 == Try(doc.fails, h0, RootRecord(sketchJSON));
      if root.None? {
        queue := [];
        return;
      }
      assert Depth(doc.layers, |d0|) == 0;
      var layerQueue := FlattenLayers(sketchJSON.layers, root.value, None, 0);
      FlattenPlaced(doc.layers, sketchJSON.layers, |d0|, None, 0);
      FlattenWeight(sketchJSON.layers, root.value, None, 0);
      queue := layerQueue;
      assert queue[0..] == queue;
      assert Snapshot() == BatchState(h1, Flatten(sketchJSON.layers, Layer(|h0.layers|), None, 0), 0);
      ghost var d1 := doc.layers;
      assert d1[..|d0|] == d0;
      var _ := ProcessBatchQueue(0);
      PrefixOfPrefix(doc.layers, |d0|, |d1|);
    }
  }
}
