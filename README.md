# html2sketch JSON to Sketch layers: three converters

This project models the core of a Sketch plugin. The plugin takes a design
exported by html2sketch as a JSON tree of layers (`_class`, `frame`, `style`,
`points`, `layers`, ...) and builds native Sketch layers from it. The plugin
has three converters, and the model has one module for each:

- **AsyncBatch** models `src/async-batch-api.js`. It estimates the size of the
  tree and flattens it into a work queue of at most 30 levels, keeping only
  visible, non-trivial layers. It then creates layers batch by batch. The batch
  size (4, 6, 8 or 10) adapts to the queue length. Each created group's
  children are spliced back into the queue right after the current batch.
  The run stops once 2000 layers have been created. An SVG-marked group is
  imported from its SVG string when that string is at most 512×1024 characters
  long. **BatchStyle** models its style translation, `buildShapeStyle`: fills,
  gradients, borders, shadows, inner shadows and blur.
- **DesignApi** models the recursive converter in `src/design-api.js`. It
  covers `createLayerFromJSON`: the depth limit of 30, the cap of 500 layers
  with its skipped counter, and the frame repair. It then dispatches on the
  layer class: artboard with background, group, text with its out-of-bounds
  skip and fallback, shape group, shape path with fill inheritance and
  gradients, rectangle with corner radius and inner shadows turned into
  borders, bitmap, image and the default case. Last come the child filter and
  the child loop. It also covers the sampled size estimate in
  `createDesignFromSketchJSON`. **ColorTranslator** models `sketchColorToRgba`
  and `parseColorValue`. **PathTranslator** models `convertPointsToSVGPath` and
  `parseSVGPathManually`.
- **SafeMode** models `src/safe-mode-api.js`. That converter builds a root
  group and an optional background. It processes at most 50 top-level layers
  and stops at depth 10. Every layer becomes a text, a plain rectangle with at
  most one hex fill, or a group. Every failure is caught, and the converter
  carries on with the next layer.

Shared modules:

- **JsValues** gives JSON numbers their JavaScript meaning. `Num` is
  `Undefined`, `Null` or `Val(r)`. The module defines truthiness, `||`
  defaults, `<` against `undefined` and `null`, and `Math.round`.
- **DesignNode** holds the input tree as datatypes.
- **NativeStyle** holds the style values that the converters produce.
- **Host** holds the Sketch document.
  - `Host.Document` is a class. Its `layers` field records every primitive
    created so far, with its parent, kind, frame and style. Its `attempts`
    field counts creation attempts.
  - Whether the host's constructor throws is an oracle, `fails`, indexed by
    the attempt number. Every proved property therefore holds whichever
    creations fail.

The converters keep their counters (`globalLayerCount`, `skippedLayerCount`)
and the work queue as fields of the classes `AsyncBatch.BatchConverter` and
`DesignApi.DesignConverter`. The methods that create layers modify those
fields and the document.

Where the written description of the plugin and its code disagree, the model
follows the code:

- In the batch converter an unknown `_class` becomes a Shape, not a Group.
- In the recursive converter an unknown `_class` becomes a Group.
- The batch converter imports a layer as SVG only when it is a group named
  `svg` that carries both `_isSVGImport` and `_svgString`.
- The adaptive batch size is computed from the length of the whole queue, not
  from the remaining part.
- The layer cap is 2000 in the batch converter and 500 in the recursive one.
- In the recursive converter `skippedLayerCount` always ends at 0. The child
  loop stops before the cap is reached, so the counted skip branch is never
  taken once the run has started (`DesignApi.DesignConverter.CreateDesignFromSketchJSON`).
- The three converters repair frames differently. The recursive converter
  clamps coordinates into ±100000, while safe mode resets them to 0 outside
  ±10000. A width below 1 becomes 1 in the recursive converter and 100 in
  safe mode (`SafeMode.RepairDiffersFromRecursive`).

## Model

| member | source | states |
|---|---|---|
| Host.Document.Create | src/safe-mode-api.js:197-207 | a layer constructor either throws and leaves the document unchanged, or appends exactly the requested layer under its parent; every call uses up one attempt |
| Host.DepthStable | src/async-batch-api.js:203-214 | appending layers never changes the nesting depth of a layer that already exists |
| Host.Try | src/async-batch-api.js:259-301 | one host call uses up one attempt; it fails exactly when the layers are unchanged, and otherwise appends exactly the requested record |
| ColorTranslator.HexValue | src/design-api.js:495-497 | a hex digit's value is below 16 |
| ColorTranslator.Pair | src/design-api.js:497 | two hex digits read as one channel below 256 |
| ColorTranslator.HexDigits | src/design-api.js:495-503 | a hex body that is accepted has exactly the expected number of digits, all of them hex |
| ColorTranslator.SkipSpaces | src/design-api.js:507 | skipping whitespace stays inside the string |
| ColorTranslator.Spaces | src/design-api.js:507 | the optional whitespace of the rgb pattern stays inside the string |
| ColorTranslator.RunEnd | src/design-api.js:507 | a digit run covers only digits, or digits and dots for the alpha, and stays inside the string |
| ColorTranslator.Comma | src/design-api.js:507 | a matched separator lies strictly after its start and inside the string |
| ColorTranslator.MatchRgbAt | src/design-api.js:507-510 | a matched `rgb(`/`rgba(` has all-digit red, green and blue groups |
| ColorTranslator.MatchDigits | src/design-api.js:507-510 | the first match found by scanning has all-digit channel groups |
| ColorTranslator.RgbText | src/design-api.js:507-512 | a non-hex string with an rgb match converts to that match's decimal channels, with its alpha text or alpha 1 |
| ColorTranslator.SketchColorToRgba | src/design-api.js:473-514 | every result is an rgba colour; a missing colour or an object without `red` gives null; a Sketch colour always converts, with alpha 1 when its alpha is missing; a non-hex string converts exactly when it is non-empty and contains an `rgb(`/`rgba(` match |
| ColorTranslator.ParseColorValue | src/design-api.js:520-534 | null and a string without a strict rgb match give the fallback, opaque black; an rgba colour gives back exactly its own four channels if and only if its channels are non-negative and its alpha matches the pattern; channels are never negative |
| ColorTranslator.NoSpaceTrim | src/design-api.js:487 | trimming leaves a string without surrounding whitespace unchanged |
| ColorTranslator.SixDigitHex | src/design-api.js:494-498 | `#RRGGBB` (with or without `#`) gives those three channels and alpha 1 |
| ColorTranslator.EightDigitHex | src/design-api.js:500-504 | `#RRGGBBAA` gives the three channels and alpha AA/255 |
| ColorTranslator.ShortHex | src/design-api.js:489-492 | `#RGB` is expanded by doubling each digit, so each channel is 17 times its digit |
| ColorTranslator.ShortHexRoundTrip | src/design-api.js:489-534 | `#RGB` converted and parsed back gives each channel as 17 times its digit, with alpha 1 |
| ColorTranslator.ComponentColor | src/design-api.js:477-483 | a Sketch colour with channels in [0,1] gives channels in 0..255 and alpha 1 when alpha is missing |
| ColorTranslator.HexRoundTrip | src/design-api.js:494-534 | a 6- or 8-digit hex colour converted to rgba and parsed back yields its own three channels, and the parsed value equals the converted colour channel for channel |
| PathTranslator.ConvertPointsToSVGPath | src/design-api.js:60-148 | the first point becomes a move, a straight point a line and a curved point a cubic built from the neighbours' control points (a missing control point falls back to the anchor); a close is added when the path is closed; the output read back by the path parser gives the same commands |
| PathTranslator.StepAt | src/design-api.js:217-279 | each step of the path parser consumes at least one token |
| PathTranslator.ParseSVGPathManually | src/design-api.js:206-283 | the token loop produces exactly the commands of the recursive path reading, including relative commands, close-path returning to the subpath start, and skipped stray numbers |
| PathTranslator.ReadCommand | src/design-api.js:218-279 | one loop iteration advances the token index and updates the current point exactly as one parser step does |
| PathTranslator.StepMatches | src/design-api.js:217-280 | taking one step and then reading the rest gives the same commands as reading from the step's start |
| PathTranslator.ArgsAfter | src/design-api.js:223-254 | the arguments after a command letter are the tokens that follow it |
| PathTranslator.DropDrop | src/design-api.js:217-280 | advancing the token index twice is advancing it by the sum |
| PathTranslator.Lift | src/design-api.js:229-272 | the parsed form of a command list keeps its length and lifts each command |
| PathTranslator.ParseTokens | src/design-api.js:206-283 | printing a command list as tokens and parsing it back returns the same commands |
| PathTranslator.HeadStep | src/design-api.js:220-275 | the tokens of one absolute command parse back to that command and move the current point to its end point (the subpath start for a close) |
| PathTranslator.RelativeParse | src/design-api.js:225-262 | lower-case commands, whose offsets are relative to the current point, parse to the same absolute commands |
| PathTranslator.RelativeCommand | src/design-api.js:225-262 | a relative command has as many tokens as its absolute form |
| PathTranslator.RelativeStep | src/design-api.js:225-274 | one relative command parses to its absolute command and sets the current point and subpath start as the parser does |
| PathTranslator.StrayNumbersSkipped | src/design-api.js:276-279 | numbers where a command letter is expected are skipped one at a time |
| PathTranslator.NumberTokens | src/design-api.js:210 | a list of numbers gives one token each |
| PathTranslator.TruncatedLine | src/design-api.js:237-238 | a line command whose y is missing yields NaN for y (parseFloat of undefined) |
| BatchStyle.SketchColorToRgba | src/async-batch-api.js:612-621 | a colour is kept exactly when it is present and is a string or a Sketch colour; a string passes through unchanged, and a missing alpha becomes 1 |
| BatchStyle.ChannelsInRange | src/async-batch-api.js:615-619 | channels in [0,1] become integers in 0..255 |
| BatchStyle.MapGradientType | src/async-batch-api.js:623-627 | gradient type 1 is radial, 2 is angular and anything else linear |
| BatchStyle.GradientCodeRoundTrip | src/async-batch-api.js:623-627 | each gradient kind's own code maps back to that kind |
| BatchStyle.FilterMap | src/async-batch-api.js:633-669 | the converted list is never longer than the input and holds exactly the converted values of the convertible entries |
| BatchStyle.FilterMapEmpty | src/async-batch-api.js:668 | the converted list is empty exactly when no entry converts |
| BatchStyle.FilterMapConcat | src/async-batch-api.js:633-669 | converting two lists is converting each, so the converted entries keep their order |
| BatchStyle.FilterMapSingle | src/async-batch-api.js:633-669 | a single entry gives its converted value, or nothing when it does not convert |
| BatchStyle.NonEmpty | src/async-batch-api.js:668-719 | a list is set on the style only when it is not empty |
| BatchStyle.ConvertStop | src/async-batch-api.js:640-648 | a stop is kept exactly when its colour converts; its position defaults to 0 |
| BatchStyle.ConvertFill | src/async-batch-api.js:634-666 | disabled fills are dropped; a solid fill is kept exactly when its colour converts, as that colour; an enabled gradient fill is kept exactly when some stop converts, with the mapped gradient type, exactly the converted stops in order, and the start and end points defaulting to top and bottom centre |
| BatchStyle.BorderPosition | src/async-batch-api.js:679 | position 0 gives center, 1 gives inside, and every other value, missing included, gives outside |
| BatchStyle.BorderPositionRoundTrip | src/async-batch-api.js:679 | a valid position maps to itself |
| BatchStyle.ConvertBorder | src/async-batch-api.js:671-686 | a border is kept exactly when enabled, coloured and of positive thickness, with its thickness, position and colour |
| BatchStyle.ConvertShadow | src/async-batch-api.js:688-720 | a shadow is kept exactly when enabled and coloured; missing offsets, blur and spread become 0 |
| BatchStyle.ConvertBlur | src/async-batch-api.js:722-730 | a blur is kept exactly when present and enabled; type 0 is gaussian; radius and saturation are never 0 |
| BatchStyle.BuildShapeStyle | src/async-batch-api.js:629-737 | no style gives the empty style; every list set on the result is non-empty; opacity is copied |
| BatchStyle.BordersWellFormed | src/async-batch-api.js:671-686 | every border of the result has positive thickness and a valid position, and comes from an enabled input border |
| BatchStyle.FillsWellFormed | src/async-batch-api.js:633-669 | every fill of the result comes from an enabled input fill, and gradients keep a stop |
| BatchStyle.FillsAbsent | src/async-batch-api.js:633-669 | the result has no fills exactly when no input fill converts |
| BatchStyle.AllDisabled | src/async-batch-api.js:629-737 | when everything is disabled, no fills, borders, shadows or inner shadows are produced |
| AsyncBatch.TreeSizeConcat | src/async-batch-api.js:99-107 | the estimated size of two lists of layers is the sum of their sizes |
| AsyncBatch.ItemFor | src/async-batch-api.js:143-158 | a kept layer becomes a queue entry with its parent, parent frame and depth |
| AsyncBatch.FlattenLayers | src/async-batch-api.js:112-162 | the loop builds exactly the queue given by the flattening definition |
| AsyncBatch.FlattenItems | src/async-batch-api.js:112-162 | beyond depth 30 nothing is queued; only kept layers are queued (a class and no frame side below 0.1, `Keep`, lines 126-131), all of them, with their parent, frame and depth; an SVG marker (lines 144-149) skips its children |
| AsyncBatch.KeptConcat | src/async-batch-api.js:119-160 | filtering two lists of layers is filtering each |
| AsyncBatch.QueueWeightConcat | src/async-batch-api.js:167-235 | the pending work of two queues adds up |
| AsyncBatch.TreeSizeLast | src/async-batch-api.js:99-107 | appending a layer adds its estimate to the size |
| AsyncBatch.QueueWeightLast | src/async-batch-api.js:167-235 | appending an entry adds its pending work |
| AsyncBatch.ItemWeight | src/async-batch-api.js:99-162 | a queue entry never carries more work than its layer's estimate |
| AsyncBatch.FlattenWeight | src/async-batch-api.js:99-162 | the work in a flattened queue never exceeds the estimated size of the tree |
| AsyncBatch.GetAdaptiveBatchSize | src/async-batch-api.js:237-242 | the batch size is 4, 6, 8 or 10 |
| AsyncBatch.AdaptiveBatchSizeMonotone | src/async-batch-api.js:237-242 | a longer queue never gets a larger batch |
| AsyncBatch.Splice | src/async-batch-api.js:209-214 | inserting children keeps the entries before the insertion point, then the children, then the rest |
| AsyncBatch.SpliceTwice | src/async-batch-api.js:209-214 | two insertions at the same point leave the later children first |
| AsyncBatch.SpliceParts | src/async-batch-api.js:209-214 | the prefix is untouched and the pending work after the point grows by the children's work |
| AsyncBatch.QueueWeightFrom | src/async-batch-api.js:186-218 | the pending work from an entry on is its own work plus what follows |
| AsyncBatch.NormalizeFrame | src/async-batch-api.js:597-610 | a positive width or height is kept and any other becomes 1; a truthy x or y is kept and any other becomes 0; a missing frame becomes 0,0,1,1 |
| AsyncBatch.LayerFrame | src/async-batch-api.js:250-257 | the size is the normalised size; each normalised coordinate is kept within ±100000 and clamped to the nearer bound outside it |
| AsyncBatch.LayerFrameFixesValid | src/async-batch-api.js:250-257 | a frame that is already valid is kept as it is |
| AsyncBatch.LayerFrameIdempotent | src/async-batch-api.js:250-257 | repairing a repaired frame changes nothing |
| AsyncBatch.FontSize | src/async-batch-api.js:416-419 | a font size is applied exactly when the style has a numeric size strictly between 0 and 200, and then it is that size |
| AsyncBatch.TextContent | src/async-batch-api.js:386-397 | the text is the attributed string when non-empty, else the name unless it is empty or `text`, and is never empty |
| AsyncBatch.PathStyle | src/async-batch-api.js:570-574 | a shape path keeps its built style when it has fills or no inherited fills; otherwise only the fills are replaced by the inherited ones |
| AsyncBatch.RootRecord | src/async-batch-api.js:35-62 | the root is an artboard on the page at 0,0, named `Generated Design` by default, 375 by 812 when the frame is missing, with a truthy width kept; it has a background exactly when one is given, `#FFFFFF` when its value is empty |
| AsyncBatch.MaxRadius | src/async-batch-api.js:461-466 | the corner radius is the largest positive point radius, or 0 |
| AsyncBatch.CornerRadius | src/async-batch-api.js:459-470 | only a rectangle with at least four points gets a radius, and it is never negative |
| AsyncBatch.LayerRecord | src/async-batch-api.js:261-295 | text becomes a text layer, groups, artboards and shape groups become groups, every other class becomes a shape; only a shape group carries fills for its children and only a rectangle a radius |
| AsyncBatch.ShapePathInherits | src/async-batch-api.js:570-595 | a shape path keeps its own fills, else takes its shape group's fills, else has none |
| AsyncBatch.PlacedGrows | src/async-batch-api.js:186-218 | queued entries stay attached to their parents as the document grows |
| AsyncBatch.FlattenPlaced | src/async-batch-api.js:203-214 | children queued under a new group hang under it, one level deeper |
| AsyncBatch.SplicePlaced | src/async-batch-api.js:209-214 | splicing attached entries into an attached queue keeps every entry attached |
| AsyncBatch.CreatedNestedGrows | src/async-batch-api.js:186-218 | layers created over several batches are all nested within the depth limit |
| AsyncBatch.AppendedChild | src/async-batch-api.js:196-205 | a layer created for a queue entry hangs under that entry's parent, one level below it |
| AsyncBatch.ProcessedItem | src/async-batch-api.js:190-218 | one entry in the reference: the queue is the old one with `Additions` spliced in at the batch end, and unchanged when nothing was created; old layers are kept and the counter grows by exactly the layers created, at most one |
| AsyncBatch.ProcessedBatch | src/async-batch-api.js:186-220 | a batch in the reference: the processed part of the queue and the old layers are kept; the counter grows by exactly the layers created, at most one per entry |
| AsyncBatch.ProcessedBatchStep | src/async-batch-api.js:186-220 | processing one more entry of a batch is one `ProcessedItem` step on the state the earlier entries left |
| AsyncBatch.SpliceAfter | src/async-batch-api.js:209-214 | splicing at the end of a prefix puts the new entries before those spliced in earlier |
| AsyncBatch.BatchQueueShape | src/async-batch-api.js:186-220 | after a batch the queue is the old prefix, then the entries' children with the later entry's first, then the old rest |
| AsyncBatch.AdditionsWeight | src/async-batch-api.js:203-214 | the children queued for an entry carry less work than the entry |
| AsyncBatch.BatchInsertedWeight | src/async-batch-api.js:186-220 | the children spliced in by a batch, plus the layers it created, never carry more work than the batch; each entry removes at least one unit |
| AsyncBatch.BatchEnd | src/async-batch-api.js:181-182 | a batch ends after the start, within the queue, and holds at most 10 entries |
| AsyncBatch.BatchShrinks | src/async-batch-api.js:174-228 | the work left after a batch is strictly less than the work left before it, so the run terminates |
| AsyncBatch.QueueWeightAfter | src/async-batch-api.js:186-218 | the work after a prefix is the work of what follows it |
| AsyncBatch.QueueWeightSplit | src/async-batch-api.js:174-228 | the work from the start is the batch's work plus the work after the batch |
| AsyncBatch.BatchConverter.constructor | src/async-batch-api.js:13-29 | a converter starts with an empty queue and a zero counter |
| AsyncBatch.BatchConverter.ImportSvgLayer | src/async-batch-api.js:307-380 | an SVG string that is missing or longer than 512×1024 is refused without touching the document; otherwise one import attempt adds exactly the SVG layer or nothing (`Host.Try` of the SVG record) |
| AsyncBatch.BatchConverter.CreateSingleLayer | src/async-batch-api.js:247-302 | an SVG marker (group named `svg` with `_isSVGImport` and a non-empty `_svgString`, line 261) that is importable is imported first; on failure, or for any other layer, the layer built for its class is created with the repaired frame and inherited fills; a failure leaves the document unchanged; the new document and return value are exactly those of the reference step `SingleLayer` |
| AsyncBatch.BatchConverter.ProcessItem | src/async-batch-api.js:190-218 | one entry creates at most one layer under its parent and counts it; the created layer and the new document are those of `SingleLayer`; the children spliced in after the batch are exactly `Additions` (the entry's children, one level deeper under the new layer, when it was created and has children); the whole new state equals the reference step `ProcessedItem`; the work left always shrinks |
| AsyncBatch.BatchConverter.QueueChildren | src/async-batch-api.js:203-214 | the entry's children are spliced in at the batch end under the new layer, one level deeper, as `Additions` says, and carry less work than the entry; the counter is unchanged |
| AsyncBatch.BatchConverter.ProcessBatch | src/async-batch-api.js:186-220 | the batch's entries are processed in order: the new state equals the fold `ProcessedBatch`, the queue is the old prefix, then the spliced-in children with the later entry's children first, then the old rest; at most one layer per entry and the pending work shrinks by at least one per entry |
| AsyncBatch.BatchConverter.RunBatch | src/async-batch-api.js:174-228 | below the cap, one batch covers the entries from the index to `BatchEnd` (the adaptive batch size, cut at the queue end), and the new state equals `ProcessedBatch` over exactly those entries; the counter stays below cap plus batch size and the pending work strictly shrinks |
| AsyncBatch.BatchConverter.ProcessBatchQueue | src/async-batch-api.js:167-235 | the new state equals the reference run `Run`, batch after batch; processing stops at the end of the queue or at the cap, does nothing once at the cap, the counter never passes 2000 plus one batch nor the queue's work, and every created layer nests at most 31 deep |
| AsyncBatch.BatchConverter.ConvertToSketchAsyncBatch | src/async-batch-api.js:23-94 | the new state and root equal the reference `ConvertAsync`: a failed root leaves the document unchanged; otherwise the root artboard (`RootRecord`) is created first and the flattened tree is run from index 0; the layers created below it are fewer than the tree's estimate and than 2000 plus one batch, and all nest under the root |
| DesignApi.RepairSize | src/design-api.js:582-604 | a size is between 1 and 100000: a falsy size becomes 100, a non-zero size below 1 becomes 1, a size above 100000 becomes 100000, and a valid size is kept |
| DesignApi.RepairCoord | src/design-api.js:589-598 | a coordinate below -100000 becomes -100000, above 100000 becomes 100000, a missing one becomes 0, and a valid one is kept |
| DesignApi.RepairFrame | src/design-api.js:579-607 | each field of a present frame is repaired on its own (`RepairCoord`, `RepairSize`); a missing frame becomes 0,0,100,100 |
| DesignApi.RepairFrameKeepsValid | src/design-api.js:579-607 | a valid frame is not changed |
| DesignApi.RepairFrameIdempotent | src/design-api.js:579-607 | repairing twice is repairing once |
| DesignApi.OnlyFirstFill | src/design-api.js:1000-1028 | a rectangle's fill depends only on the first fill of its style |
| DesignApi.FirstBorder | src/design-api.js:1032-1047 | a rectangle has a border exactly when its first border is enabled, a colour border with a convertible colour and positive thickness; the border has that thickness and colour, position inside when missing and the given position when in 0..2 |
| DesignApi.InnerShadowDirections | src/design-api.js:1170-1218 | an enabled, unblurred, coloured inner shadow offset along exactly one axis becomes a border as thick as the offset, placed on the side the offset points to |
| DesignApi.RectangleBordersBound | src/design-api.js:1032-1218 | a rectangle has at most one border plus one per inner shadow, all of positive thickness |
| DesignApi.PathGradient | src/design-api.js:868-898 | the gradient throws exactly when there are no stops or an end point object lacks `x`; otherwise every stop is converted in order, and the type is the given one clamped into 0..2, or 0 when missing |
| DesignApi.UnparsedEndFallsBackToTop | src/design-api.js:868-898 | an end point string that cannot be parsed gives the start point's default, while a missing end point gives the bottom |
| DesignApi.DisabledGradientApplies | src/design-api.js:868-898 | the gradient branch does not check whether the fill is enabled |
| DesignApi.PathFill | src/design-api.js:854-898 | no fills gives none; an enabled colour first fill gives its colour; a gradient first fill gives its gradient, and the fill throws exactly when that gradient throws; any other fill type gives none |
| DesignApi.PathInheritsOnlyWithoutOwnFill | src/design-api.js:854-898 | a shape path uses its own fill if it has one, else the parent's fills |
| DesignApi.PathStyle | src/design-api.js:850-928 | a path's style throws exactly when its own fill throws; it has its own fill when there is one, else the inherited fills, else a transparent fill for a borderless layer with at least two inner shadows; it carries the first border and the opacity, and no shadows |
| DesignApi.PositiveNum | src/design-api.js:1054 | a radius is taken only when positive |
| DesignApi.FirstPointRadius | src/design-api.js:1059-1065 | the first point's radius is taken only when positive |
| DesignApi.UniformCorners | src/design-api.js:1066-1075 | uniform style corners give a positive radius |
| DesignApi.OwnRadius | src/design-api.js:1080-1093 | a nested layer's radius is positive |
| DesignApi.NestedRadius | src/design-api.js:1078-1097 | a radius found among nested layers is positive |
| DesignApi.NestedRadiusIsFirst | src/design-api.js:1078-1097 | the nested radius is the first nested layer's own radius, and exists exactly when some nested layer has one |
| DesignApi.ResolveCornerRadius | src/design-api.js:1051-1099 | a resolved corner radius is positive |
| DesignApi.CornerRadiusFound | src/design-api.js:1051-1099 | the radius is found exactly when one of the four places has one; fixedRadius wins, then the first point, then the corners, then the first nested layer |
| DesignApi.PrimaryRecord | src/design-api.js:642-1274 | only a shape path without parent fills can throw; text becomes text, rectangles, paths, bitmaps and images become shapes, and the rest become groups, all with the repaired frame |
| DesignApi.FilterChildren | src/design-api.js:1281-1308 | a child is kept exactly when it is not an empty `Overflow 蒙层` or `容器` (no children, fills or borders) and has no frame side of 0 or below 0.1 (`ChildKept`); the kept list is never longer |
| DesignApi.FilterChildrenConcat | src/design-api.js:1281-1308 | filtering two lists is filtering each |
| DesignApi.FilterChildrenSize | src/design-api.js:1281-1313 | filtering never increases the estimated size |
| DesignApi.TreeSizePrefix | src/design-api.js:1323-1361 | each child processed adds its estimate, and a prefix never exceeds the whole |
| DesignApi.TreeSizeAtLeastLength | src/design-api.js:1418-1430 | the estimated size is at least the number of layers |
| DesignApi.SampledGrandchildrenBound | src/design-api.js:1418-1430 | the sampled count never exceeds the exact size of the sampled children |
| DesignApi.SampledEstimateBound | src/design-api.js:1418-1430 | the sampled estimate never exceeds the exact estimate |
| DesignApi.LeafTreeSize | src/design-api.js:1418-1430 | a list of leaves has exactly its length as size |
| DesignApi.ShallowSample | src/design-api.js:1418-1430 | sampling is exact on trees three levels deep |
| DesignApi.SampledEstimateExact | src/design-api.js:1418-1430 | with at most 10 children and no great-grandchildren the sample equals the exact estimate |
| DesignApi.LocalTrans | src/design-api.js:1323-1361 | layers created under a child are still under the parent |
| DesignApi.PrefixTrans | src/design-api.js:1323-1361 | existing layers are never changed by later creations |
| DesignApi.DesignConverter.constructor | src/design-api.js:12 | the counters start at 0 |
| DesignApi.DesignConverter.CreateOwnLayer | src/design-api.js:642-1274 | text is created, or retried as fallback text, or skipped; other classes create their record and an artboard its background, or throw with the document unchanged |
| DesignApi.DesignConverter.CreateTextLayer | src/design-api.js:716-805 | text is created with its style, or on failure with plain fallback text, or nothing |
| DesignApi.DesignConverter.CreateShapeLayer | src/design-api.js:642-714 | a non-text layer appends its record, plus the background for an artboard, or throws with nothing added |
| DesignApi.DesignConverter.CreateNodeLayers | src/design-api.js:642-1369 | the new state and outcome equal the reference `NodeLayers`: the node's own layer, then, unless it threw, its children; the counter grows by at most the children's estimate |
| DesignApi.DesignConverter.CreateLayerFromJSON | src/design-api.js:545-1369 | the new state and outcome equal the reference `LayerFromJSON`; past depth 30 nothing happens; at the cap the layer is skipped and counted as skipped; a text starting more than 1000 left of its parent or 1000 past its width (`TextOutOfBounds`, lines 729-734) is counted and dropped; otherwise the counter grows by at most the subtree's estimate, a missing class gives null, and a created layer is its own record with the repaired frame under its parent |
| DesignApi.DesignConverter.ConvertChildren | src/design-api.js:1277-1365 | the new state equals the reference `Children`: the kept children, at most as many as the counter had room for, converted in order under the new layer; they add at most their estimated size to the counter |
| DesignApi.DesignConverter.ConvertChildList | src/design-api.js:1313-1361 | the new state equals the reference `ChildList`: the first children converted in order, each from the state the previous one left; they add at most their size |
| DesignApi.DesignConverter.ConvertChild | src/design-api.js:1326-1345 | the new state equals the reference `Child`: a child is skipped at the cap, otherwise converted with errors caught and its state kept; it adds at most its estimate |
| DesignApi.DesignConverter.CreateDesignFromSketchJSON | src/design-api.js:1400-1534 | the new state and root equal the reference `DesignFromSketch`: a design without a class changes nothing; otherwise the counters are reset, the root hangs on the page, at most the tree's estimate of layers is counted and nothing is ever counted as skipped |
| SafeMode.SafeSize | src/safe-mode-api.js:113-114 | a size below 1 or missing becomes 100, otherwise it is kept |
| SafeMode.SafeCoord | src/safe-mode-api.js:115-116 | a coordinate outside ±10000 becomes 0, otherwise it is kept |
| SafeMode.SafeFrame | src/safe-mode-api.js:109-117 | a frame is at least 1 by 1 with coordinates within ±10000; a missing frame becomes 0,0,100,100 |
| SafeMode.SafeFrameIdempotent | src/safe-mode-api.js:109-117 | repairing twice is repairing once |
| SafeMode.RepairDiffersFromRecursive | src/safe-mode-api.js:113-116 | safe mode and the recursive converter repair the same bad values differently |
| SafeMode.HexChar | src/safe-mode-api.js:218 | each value below 16 has a lower-case hex digit that reads back as that value |
| SafeMode.HexByteExact | src/safe-mode-api.js:218 | a channel in 0..255 prints as exactly two hex digits |
| SafeMode.HexColorRoundTrip | src/safe-mode-api.js:210-222 | the hex fill written for a Sketch colour reads back, through the recursive converter's colour parser, as the same channels as the colour itself |
| SafeMode.SixDigits | src/safe-mode-api.js:218 | three channels print as six hex digits that read back as those channels |
| SafeMode.HexTriple | src/safe-mode-api.js:218 | `#rrggbb` has 7 characters and parses to those channels with alpha 1 |
| SafeMode.PadStart | src/safe-mode-api.js:220 | padding reaches the requested width and never shortens the string |
| SafeMode.HexColor | src/safe-mode-api.js:214-220 | a colour gives a hex string exactly when it is a Sketch colour with channels; the string starts with `#` and has at least 7 characters |
| SafeMode.SafeFill | src/safe-mode-api.js:210-222 | a rectangle gets a fill exactly when its first fill's colour is a Sketch colour, and then the fill is that colour's hex string |
| SafeMode.TextContent | src/safe-mode-api.js:150-172 | a text layer shows its text, else its name, and is never empty |
| SafeMode.SafeFontSize | src/safe-mode-api.js:175-178 | the font size is applied exactly when strictly between 0 and 200 |
| SafeMode.DispatchKinds | src/safe-mode-api.js:119-144 | text gives a text layer of at least 10 by 10; shapes and unknown classes give rectangles; groups and artboards give groups; the placeholder after a failed text is an unstyled rectangle |
| SafeMode.Levels | src/safe-mode-api.js:80-83 | at least one level remains at any depth |
| SafeMode.WithinOwn | src/safe-mode-api.js:237-261 | a new layer sits under its parent |
| SafeMode.WithinExtend | src/safe-mode-api.js:237-261 | layers created under a new group are still within the parent's depth budget |
| SafeMode.CountUnderAppend | src/safe-mode-api.js:90-100 | counting direct children over two runs adds up |
| SafeMode.CountGrows | src/safe-mode-api.js:90-100 | the direct-children count grows only by the newly created layers |
| SafeMode.CountNone | src/safe-mode-api.js:90-100 | layers under other parents add nothing to the count |
| SafeMode.CountAtMostOne | src/safe-mode-api.js:109-145 | one layer's conversion adds at most one direct child to its parent |
| SafeMode.Considered | src/safe-mode-api.js:86-89 | at depth 0 at most the first 50 layers are processed, and always a prefix |
| SafeMode.CreateTextSafe | src/safe-mode-api.js:150-190 | text is created, or an error rectangle in its place, or nothing |
| SafeMode.CreateRectangleSafe | src/safe-mode-api.js:195-232 | a rectangle with at most its first fill as hex is created, or nothing |
| SafeMode.CreateGroupSafe | src/safe-mode-api.js:237-261 | the new document equals the reference `GroupSafe`: a failed group adds nothing; otherwise the group record comes first and its children are converted one level down, everything kept under the parent |
| SafeMode.CreateLayerSafe | src/safe-mode-api.js:109-145 | the new document equals the reference `LayerSafe`: text is created, or an error rectangle, or nothing; groups and artboards become a group with its children; anything else a rectangle or nothing, all with the repaired frame and within the depth budget |
| SafeMode.ProcessLayersSafe | src/safe-mode-api.js:78-101 | the new document equals the reference `LayersSafe`: past depth 10 nothing happens; otherwise each considered layer is converted in order, with failures caught, and adds at most one direct child |
| SafeMode.ConvertToSketchSafeMode | src/safe-mode-api.js:14-70 | the new document equals the reference `ConvertSafe`: a failed root leaves it unchanged; otherwise the root group (`RootRecord`) is created first, then the background if any, then at most 50 converted layers plus the background directly under the root |
| SafeMode.FillRoot | src/safe-mode-api.js:33-62 | the new document equals the reference `RootContent`: the background, when given and created, comes right after the root, and it and the top-level layers all hang under the root group |
| SafeMode.RootRecord | src/safe-mode-api.js:20-29 | the root is a group on the page at 0,0, named `Design (Safe Mode)` by default, 375 by 812 when the frame is missing, with a truthy width kept |
| SafeMode.TextSafe | src/safe-mode-api.js:150-190 | a text conversion in the reference keeps the old layers and adds at most one |
| SafeMode.LayerSafe | src/safe-mode-api.js:109-145 | a layer conversion in the reference keeps the old layers and uses at least one attempt |
| SafeMode.GroupSafe | src/safe-mode-api.js:237-261 | a group conversion in the reference keeps the old layers, uses at least one attempt, and adds nothing when the group itself fails |
| SafeMode.LayersSafe | src/safe-mode-api.js:78-101 | a layer list in the reference keeps the old layers, and past depth 10 changes nothing |
| SafeMode.SiblingsSafe | src/safe-mode-api.js:90-100 | converting siblings in the reference keeps the old layers and uses at least one attempt per sibling |
| SafeMode.SiblingsSafeStep | src/safe-mode-api.js:90-100 | converting one more sibling is one `LayerSafe` step on the state the earlier siblings left |
| SafeMode.SiblingsSafeConcat | src/safe-mode-api.js:90-100 | converting two runs of siblings is converting the first, then the second from where it left off |
| SafeMode.RootContent | src/safe-mode-api.js:33-62 | filling the root in the reference keeps the old layers |
| SafeMode.ConvertSafe | src/safe-mode-api.js:14-70 | the reference conversion keeps the old layers, changes nothing when the root fails, and otherwise puts the root record first |
| SafeMode.TryLayerSafe | src/safe-mode-api.js:90-100 | one guarded layer conversion equals the reference `LayerSafe`, keeps the earlier layers and adds at most one direct child to the parent |

## Left out

- Number printing (`toFixed`, template strings): path commands and colours are modelled as structured tokens and channel values, not as text.
- The tokenizer regular expression of `parseSVGPathManually` and the `parseFloat` of the alpha text: the parser starts from a token sequence, and alpha stays an uninterpreted value.
- NaN is modelled only where a missing path argument produces it (`PathTranslator.TruncatedLine`); elsewhere numbers are real or absent.
- The SVG rescale after import and the UTF-16 measure of the SVG string length: the string length is a natural number given with the layer.
- Text colour, font family, alignment and line height: only content, frame and font size are modelled.
- Null entries inside `layers` arrays.
- Logging, `gc`, `setTimeout` pauses, progress callbacks, Promises and `async`: the batch queue runs to completion synchronously.
- DesignApi.DesignConverter.CreateLayerFromJSON: the frame is repaired as a fresh value, not written back into the input JSON object; likewise `SafeMode.CreateLayerSafe`.
- The JSON size check of `createDesignFromSketchJSON` needs `JSON.stringify` and is not modelled.
- The corner radius in the recursive converter is resolved but applied only under `false &&`, so applying it is not modelled; the disabled shadow code is left out too.
- DesignApi.DesignConverter.ConvertChildList: children are walked one by one, not in slices of 20; the cap check per child gives the same outcome.
- SafeMode.SafeCoord: a missing or null `x`/`y` passes the range test and reaches the host unchanged; the model replaces it with 0.
- `parseColorValue` is never called in the plugin; it is modelled on its own and paired with `sketchColorToRgba`.
- `createDesignFromSpec` and the other helpers of `src/design-api.js` outside the converter, `src/handler.js` and `src/claude-client.js` are not part of this model.
- Document and page lookup errors: the document is given.
- The Sketch host API is modelled as a recorder with a failure oracle; what a created layer looks like on screen is not modelled.
- AsyncBatch.BatchConverter.CreateSingleLayer: the failure oracle decides only whether a primitive gets created. A host exception after creation is not modelled, for example while `applyShapeStyle` and the opacity are applied in `createShapePathLayer` (src/async-batch-api.js:589-592). The source would then return null with the primitive already in the document; the model records the primitive and its style in one step.
- DesignApi.DesignConverter.CreateShapeLayer: likewise, an exception while a group's or shape group's opacity is set after the group exists (src/design-api.js:710-712, 841-843) is not modelled. The source would then count the node as an error with the group already in the document.
