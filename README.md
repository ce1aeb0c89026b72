# Widget compositor of the interface plugin

This project models the preview renderer of the 317 interface editor
plugin, `InterfaceController`. `toBufferedImage(widgets, widget)` takes the
decoded widget table and a root widget. It prepares the shared `RSRaster`
surface at the root's size and renders the root into it:

- a container root is composited recursively by `renderWidget`;
- a sprite, text or rectangle root is drawn directly at the origin.

`renderWidget` handles nesting as follows:

- it narrows the clip to the container's box;
- it places each child slot at `childX[i] + x + horizontalDrawOffset` and
  `childY[i] + y - scroll + verticalDrawOffset`;
- it clamps each child container's `scrollPosition` in place to
  `[0, max(0, scrollLimit - height)]` before recursing into it;
- it dispatches every other child by type;
- finally it calls `setBounds` with the four clip values it read on entry.

`renderText` draws the widget's text one line per `\n` marker. The marker is
the two characters backslash and `n`. Two substitutions apply:

- a widget whose option type is "continue" shows `Please wait...` instead of
  its own text;
- on a 479-pixel-wide raster, yellow (`0xffff00`) becomes blue (`255`) and
  green (`49152`) becomes white.

`renderRectangle` picks one of four calls: filled or outlined, and opaque or
alpha-blended with weight `256 - (alpha & 0xff)`.

How the pieces fit:

- The drawing library (`RSRaster`, fonts, sprites) is modelled only as far as
  the compositor observes it. The raster is a class holding a size, a pixel
  array, a clip and a log of every drawing call made, in order (module `Raster`).
- Widgets are objects whose only mutable field is `scrollPosition`
  (module `Widgets`).
- What a render does is described by functions over a value
  `State(log, clip, scrolls)`. The `scrolls` map is keyed by widget object,
  so a widget reached through two slots is one entry
  (modules `TextLayout` and `Compositing`).
- The imperative methods of module `InterfaceController` reproduce the
  Kotlin control flow: the same branch order, the same incremental position
  arithmetic, and the clamp written as two `if`s. Their postconditions tie
  their effects to those functions, computed from the state before the call:
  - `RenderWidget`, `RenderChild` and `RenderNested` give the raster log,
    the clip and the scroll positions of the whole table;
  - `RenderRectangle`, `RenderText`, `DrawLines` and `RenderLeaf` give the
    draws they append;
  - `ToBufferedImage` gives the returned image and the table's scroll
    positions, and the raster's new size, log and clip. It leaves the raster
    unchanged when it returns no image.
- Module `CompositingProperties` proves properties that relate several
  renders.

Two notes:

1. The clip restore call. The compositor narrows the clip with
   `setBounds(y + height, x, x + width, y)`. So `setBounds` takes
   (bottom, left, right, top). It then restores with
   `setBounds(clipTop, clipLeft, clipRight, clipBottom)`: the saved top is
   passed where the bottom goes and the saved bottom where the top goes.
   The model keeps that call as written. `Compositing.ContainerBrackets`
   states its consequence: after a container is rendered, the clip's top
   and bottom are the entry clip's bottom and top. This is not claimed as a
   defect, because the library's getters and the meaning of its parameters
   are not part of this model.
2. Termination. The model needs a bound on nesting depth.
   `Widgets.WellFormed(ws, w, depth)` requires every child id to index the
   table and the per-slot coordinate lists to be long enough. It also
   requires container children to nest at most `depth` levels, so the
   container graph below the root is acyclic. `depth` is a ghost argument.

## Model

| member | source | states |
|---|---|---|
| Widgets.Clamp | src/plugin/InterfaceController.kt:323-328 | the clamped position lies in [0, scrollLimit - height] when that range is non-empty, and is 0 when it is empty; a position inside the range is kept; one above it becomes the upper end, or 0 if that is negative; one below 0 becomes 0 |
| Widgets.ClampIdempotent | src/plugin/InterfaceController.kt:322-330 | clamping an already clamped position changes nothing |
| Widgets.BlendWeight | src/plugin/InterfaceController.kt:472-478 | the weight `256 - (alpha & 0xff)` of a signed-byte alpha lies in 1..256; it is 256 exactly when alpha is 0; it is `256 - alpha` for non-negative alpha and `-alpha` for negative alpha |
| Widgets.LegacyColour | src/plugin/InterfaceController.kt:428-434 | on a 479-wide raster yellow becomes 255 and 49152 becomes white; every other colour, and every colour at any other width, is unchanged; at width 479 the result is never one of the two remapped colours |
| Widgets.LegacyColourIdempotent | src/plugin/InterfaceController.kt:369-375 | applying the remap twice is the same as applying it once |
| Widgets.Half | src/plugin/InterfaceController.kt:450 | `width / 2` truncates toward zero, as Kotlin's `Int` division does, for negative widths too |
| TextLayout.IndexOf | src/plugin/InterfaceController.kt:439 | `indexOf("\\n")` is -1 or a position where the two-character marker fits inside the text |
| TextLayout.IndexFromFirst | src/plugin/InterfaceController.kt:439 | scanning from `from` finds the first marker at or after `from`; -1 means there is none |
| TextLayout.IndexOfFirst | src/plugin/InterfaceController.kt:439 | `indexOf` is -1 exactly when the text contains no marker; otherwise it is the first marker's position |
| TextLayout.SplitLinesNoMarker | src/plugin/InterfaceController.kt:437-447 | empty text gives no lines and any other text at least one; no line contains the marker |
| TextLayout.JoinSplitLines | src/plugin/InterfaceController.kt:437-447 | joining the lines with the marker gives back the text, minus one trailing marker when the text ends with one: the loop loses nothing else |
| TextLayout.JoinCut | src/plugin/InterfaceController.kt:441-443 | proof step for JoinSplitLines: cutting at a marker and joining again puts the marker back between the head and the rest |
| TextLayout.MarkerSuffix | src/plugin/InterfaceController.kt:443 | proof step for JoinSplitLines: the text is its head, the marker and its tail; it ends with the marker exactly when the tail does |
| TextLayout.SplitLinesStep | src/plugin/InterfaceController.kt:439-447 | proof step for the line loop, the unfolding of one pass: the first line is the text before the first marker (or the whole text without one), and the remaining lines are those of the text after that marker (or none) |
| TextLayout.SplitLinesSingle | src/plugin/InterfaceController.kt:444-447 | non-empty text without a marker is drawn as one line |
| Compositing.RectangleDraw | src/plugin/InterfaceController.kt:460-480 | a rectangle widget gives exactly one of the four calls at (x, y) with its size and colour; it is a fill exactly when `filled`, and alpha-blended exactly when alpha is non-zero, with weight `BlendWeight(alpha)` in 1..255 |
| Compositing.LineDraws | src/plugin/InterfaceController.kt:437-456 | one draw per line |
| Compositing.LineDrawsCons | src/plugin/InterfaceController.kt:449-455 | proof step, the unfolding of LineDraws: the first line is drawn at the current baseline and the rest one line height lower |
| Compositing.LineDrawsAt | src/plugin/InterfaceController.kt:449-455 | line k is drawn k line heights below the first baseline, with the widget's font and shadow flag and the given colour; centred text is drawn by `shadowCentre` at `x + width / 2`, other text by `shadow` at x |
| Compositing.LinesLayout | src/plugin/InterfaceController.kt:436-456 | empty text draws nothing; otherwise the k-th draw carries the k-th line, which holds no marker, k line heights below the start, aligned as above |
| Compositing.TextDrawsOf | src/plugin/InterfaceController.kt:416-436 | proof step, the unfolding of TextDraws on an already computed text and colour: the line draws of the displayed text in the remapped colour, starting one line height below y |
| Compositing.TextDrawsLayout | src/plugin/InterfaceController.kt:413-458 | line k of the displayed text is drawn `k + 1` line heights below y, in the remapped colour, with the widget's font, shadow flag and alignment; empty text draws nothing |
| Compositing.TextPlaceholder | src/plugin/InterfaceController.kt:423-426 | a widget with the "continue" option draws exactly one line, `Please wait...`, whatever its own text, in its own colour after the remap |
| Compositing.LeafKinds | src/plugin/InterfaceController.kt:335-406 | case split of Leaf, used as a proof step: among non-container, non-model-list children, only rectangles, text and sprites draw; a sprite widget draws its sprite at (x, y) exactly when it has one; inventories, models, item lists and unknown types draw nothing |
| Compositing.ChildAt | src/plugin/InterfaceController.kt:313 | a container child of a well-formed container is itself well formed one level down |
| Compositing.Container | src/plugin/InterfaceController.kt:296-411 | rendering a container keeps the set of widgets that have a scroll position (its draws and scroll effects are stated by the lemmas below) |
| Compositing.Enter | src/plugin/InterfaceController.kt:306 | narrowing the clip changes no scroll position |
| Compositing.Restore | src/plugin/InterfaceController.kt:410 | the restore call changes no scroll position |
| Compositing.Children | src/plugin/InterfaceController.kt:309-408 | drawing the first n slots keeps the set of widgets that have a scroll position |
| Compositing.Child | src/plugin/InterfaceController.kt:310-407 | drawing one slot keeps the set of widgets that have a scroll position |
| Compositing.ExtendsTransitive | src/plugin/InterfaceController.kt:322-330 | "only appends draws and only clamps container positions" composes, because the clamp is idempotent |
| Compositing.ContainerExtends | src/plugin/InterfaceController.kt:296-411 | rendering a container only appends to the draw log; every scroll position it changes belongs to a container and becomes that container's clamped position |
| Compositing.ChildrenExtends | src/plugin/InterfaceController.kt:309-408 | the same for the first n slots of the loop |
| Compositing.ChildExtends | src/plugin/InterfaceController.kt:310-407 | the same for one slot |
| Compositing.ContainerBrackets | src/plugin/InterfaceController.kt:301-410 | a container with children first calls `setBounds(y + height, x, x + width, y)` and last calls `setBounds(top, left, right, bottom)` with the clip read on entry; afterwards the clip's top and bottom are the entry clip's bottom and top |
| CompositingProperties.WellFormedMonotone | src/plugin/InterfaceController.kt:330 | a table well formed within some nesting depth is well formed within any larger one |
| CompositingProperties.ReachesBelow | src/plugin/InterfaceController.kt:330 | every container that w reaches is well formed within fewer nesting levels than w, so the recursion at line 330 ends |
| CompositingProperties.NoSelfReach | src/plugin/InterfaceController.kt:330 | in a well-formed table no container reaches itself |
| CompositingProperties.ContainerUntouched | src/plugin/InterfaceController.kt:296-411 | rendering a container leaves the scroll position of every widget it does not reach unchanged |
| CompositingProperties.ChildrenUntouched | src/plugin/InterfaceController.kt:309-408 | the same for the first n slots |
| CompositingProperties.ChildUntouched | src/plugin/InterfaceController.kt:322-330 | the same for one slot |
| CompositingProperties.RootUntouched | src/plugin/InterfaceController.kt:296-330 | rendering a container never rewrites that container's own scroll position |
| CompositingProperties.ContainerClamps | src/plugin/InterfaceController.kt:296-411 | rendering a container leaves every container it reaches with `Clamp` of its position before the render, however many slots reach it |
| CompositingProperties.ChildrenClamps | src/plugin/InterfaceController.kt:309-408 | the same for a container reached from one of the first n slots |
| CompositingProperties.ChildClamps | src/plugin/InterfaceController.kt:322-330 | the same for a container reached from one slot: the slot's own child by the clamp at lines 323-328, a deeper container by the recursive render |
| CompositingProperties.AgreeChain | src/plugin/InterfaceController.kt:309 | agreement between two renders carries over from one slot to the next |
| CompositingProperties.AgreeClamped | src/plugin/InterfaceController.kt:322-328 | when the second start's positions are clamped from the first's and the two renders agree, the second render's positions are clamped from the first's too, so the next slot starts from clamped positions again |
| CompositingProperties.ContainerRerender | src/plugin/InterfaceController.kt:296-411 | rendering a container from a state whose positions are partly clamped already gives the same draws and clip, and the same final positions wherever either render changed one, as rendering from the unclamped state |
| CompositingProperties.ChildrenRerender | src/plugin/InterfaceController.kt:309-408 | the same for the first n slots |
| CompositingProperties.ChildRerender | src/plugin/InterfaceController.kt:310-407 | the same for one slot |
| CompositingProperties.ChildPlacement | src/plugin/InterfaceController.kt:310-407 | slot i's child is placed at `childX[i] + x + horizontalDrawOffset`, `childY[i] + y - scroll + verticalDrawOffset`; a container child ends with its clamped position and, when it has children, first narrows the clip to its box there; a model list changes nothing; any other child appends its leaf draws there and changes no position |
| CompositingProperties.ChildrenInOrder | src/plugin/InterfaceController.kt:309 | slots are drawn in index order: the state after n slots is a prefix state of the one after m slots, for n <= m |
| CompositingProperties.CompositeSize | src/plugin/InterfaceController.kt:264-269 | there is no image exactly when the root's width or height is not positive, whatever the table holds; otherwise the image has the root's size |
| CompositingProperties.CompositeLeafRoot | src/plugin/InterfaceController.kt:274-282 | a non-container root draws its sprite, text or rectangle at the origin on a fresh raster and changes no scroll position; a root of any other type gives an empty image |
| CompositingProperties.CompositeContainerRoot | src/plugin/InterfaceController.kt:269-273 | a container root with children is rendered at the origin unscrolled: its draws are those of `Container` at (0, 0) with scroll 0 on the freshly reset raster; the first draw narrows the clip to the whole image and the last is `setBounds(0, 0, width, height)` |
| CompositingProperties.CompositeScrolls | src/plugin/InterfaceController.kt:264-293 | a render changes only the scroll positions of containers the root reaches, each to its clamped value; the root's own position is never changed; conversely, when the root has an area, every container the root reaches ends with its clamped position |
| CompositingProperties.CompositeRerender | src/plugin/InterfaceController.kt:264-293 | rendering again from the scroll positions a render leaves behind gives the same image and leaves the same positions |
| Widgets.DisplayText | src/plugin/InterfaceController.kt:416-426 | the text a text widget shows: the placeholder under the "continue" option, its own text otherwise (stated by TextPlaceholder) |
| Widgets.WellFormed | src/plugin/InterfaceController.kt:309-330 | what visiting w needs: the child ids index the table (line 313), the slot coordinate lists cover every slot (lines 310-311), and container children nest at most `depth` levels (line 330) |
| TextLayout.SplitLines | src/plugin/InterfaceController.kt:437-447 | the lines the loop draws, in order; characterised by SplitLinesNoMarker and JoinSplitLines |
| Compositing.LineDraw | src/plugin/InterfaceController.kt:449-454 | the `shadowCentre` or `shadow` call for one line; stated by LineDrawsAt |
| Compositing.TextColour | src/plugin/InterfaceController.kt:419-434 | the widget's own colour after the legacy remap (the "continue" branch keeps the same colour); stated by LegacyColour |
| Compositing.TextDraws | src/plugin/InterfaceController.kt:413-458 | every draw of a text widget; stated by TextDrawsLayout and TextPlaceholder |
| Compositing.Leaf | src/plugin/InterfaceController.kt:335-406 | the draws of a child that is neither a container nor a model list; stated by LeafKinds |
| Compositing.SlotX | src/plugin/InterfaceController.kt:310-315 | the x position of slot i, `childX[i] + x + horizontalDrawOffset`; stated by ChildPlacement |
| Compositing.SlotY | src/plugin/InterfaceController.kt:311-316 | the y position of slot i, `childY[i] + y - scroll + verticalDrawOffset`; stated by ChildPlacement |
| Compositing.Fresh | src/plugin/InterfaceController.kt:269-270 | the raster after `init` and `reset`: nothing drawn and the clip the whole image |
| Compositing.Composite | src/plugin/InterfaceController.kt:264-293 | the outcome of `toBufferedImage`; stated by CompositeSize, CompositeLeafRoot, CompositeContainerRoot, CompositeScrolls and CompositeRerender |
| Raster.BoundsClip | src/plugin/InterfaceController.kt:306 | the clip `setBounds(bottom, left, right, top)` installs, in the parameter order of the narrowing call |
| Raster.RSRaster.Init | src/plugin/InterfaceController.kt:269 | `init(height, width, pixels)` sets the raster's size and buffer and starts an empty draw log |
| Raster.RSRaster.Reset | src/plugin/InterfaceController.kt:270 | `reset()` sets the clip to the whole raster |
| Raster.RSRaster.SetBounds | src/plugin/InterfaceController.kt:306 | `setBounds` records its call and installs `BoundsClip` of its arguments (also the call at line 410) |
| Raster.RSRaster.FillRectangle | src/plugin/InterfaceController.kt:343-344 | records one opaque fill |
| Raster.RSRaster.DrawRectangle | src/plugin/InterfaceController.kt:346-347 | records one opaque outline |
| Raster.RSRaster.FillRectangleAlpha | src/plugin/InterfaceController.kt:350-351 | records one blended fill with its weight |
| Raster.RSRaster.DrawRectangleAlpha | src/plugin/InterfaceController.kt:353-354 | records one blended outline with its weight |
| Raster.RSRaster.ShadowCentre | src/plugin/InterfaceController.kt:391-392 | records one centred line of text |
| Raster.RSRaster.Shadow | src/plugin/InterfaceController.kt:394 | records one left-aligned line of text |
| Raster.RSRaster.DrawSprite | src/plugin/InterfaceController.kt:401 | records one sprite draw |
| InterfaceController.RenderRectangle | src/plugin/InterfaceController.kt:460-480 | appends exactly `RectangleDraw` for a rectangle widget and nothing for any other |
| InterfaceController.RenderText | src/plugin/InterfaceController.kt:413-458 | appends exactly `TextDraws` for a text widget (placeholder, remapped colour, split lines) and nothing for any other |
| InterfaceController.DrawLines | src/plugin/InterfaceController.kt:436-456 | the `while` loop appends exactly the line draws of the split text |
| InterfaceController.RenderWidget | src/plugin/InterfaceController.kt:296-411 | the resulting draw log, clip and scroll positions of the whole table are `Container` of the state before the call |
| InterfaceController.RenderChild | src/plugin/InterfaceController.kt:310-407 | one loop pass leaves the log, clip and scroll positions that `Child` computes |
| InterfaceController.RenderNested | src/plugin/InterfaceController.kt:322-330 | the two in-place clamp assignments store `Clamp` of the old position, and the recursive render then matches `Container` from that state |
| InterfaceController.RenderLeaf | src/plugin/InterfaceController.kt:336-406 | the type dispatch appends exactly `Leaf` |
| InterfaceController.ToBufferedImage | src/plugin/InterfaceController.kt:264-293 | the returned image and the table's final scroll positions are those of `Composite` applied to the positions before the call; with no image the raster is left unchanged; with an image the raster has the root's size, a buffer of width × height pixels and exactly the image's draws in its log, and its clip is the reset clip, or, for a container root with children, that clip with top and bottom swapped by the closing `setBounds` |

## Left out

- Pixel semantics. What `fillRectangle`, `drawRectangle`, `shadow`,
  `shadowCentre` and `drawSprite` do to pixels lives in the drawing library,
  which is not part of this model. Each call is recorded with its arguments
  instead, and the image is its size plus the ordered draw log.
- `BufferedImage` creation and the `System.arraycopy` of the pixel buffer
  (lines 284-290). They copy pixels. The model returns the raster's size and
  draw log instead.
- Raster.BoundsClip: `setBounds` is modelled as storing its four arguments as
  given. Any clamping of the clip to the raster's size inside the library is
  not captured.
- Integer width: Kotlin `Int` is 32-bit. Overflow of the coordinate sums, of
  `scrollLimit - height` and of `width * height` in `toBufferedImage` is not
  modelled; integers are unbounded.
- Null references: a null font or null text on a text widget (a
  `NullPointerException` in Kotlin) is not modelled. Fonts and texts are
  always present; only `children` and `defaultSprite` are optional.
- InterfaceController.ToBufferedImage, InterfaceController.RenderWidget:
  require `WellFormed`; `ToBufferedImage` and `Composite` only for a root
  with an area, since for the other roots the source returns null before it
  reads the table. An out-of-range child id or a too-short
  `childX`/`childY` list would throw an index exception in the source, and a
  cyclic container graph would overflow the stack. Those failures are not
  modelled.
- The empty `contentType > 0` branch (lines 318-320) and the commented-out
  scrollbar drawing (lines 331-334) do nothing, so nothing is modelled for
  them.
- The JavaFX view, plugin events and the rest of `InterfaceController`:
  everything outside lines 264-480 is not part of this model, and neither is
  `InterfaceDefinitionPlugin.kt`.
- The type of `alpha`: it is taken to be a Kotlin `Byte` (signed, -128..127). `RSWidget` is defined outside the modelled file, and only the `.toInt()` calls on `alpha` (lines 341, 351, 354, 464, 474 and 477) point to that type.
- The `RSWidget` type tags and the "continue" option type are defined outside
  the modelled file. The values of the 317 interface format are used. The
  container tag 0 agrees with line 297.
