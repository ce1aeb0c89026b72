/**
 * The renderer of `InterfaceController`: `toBufferedImage` and the
 * companion's `renderWidget`, `renderText` and `renderRectangle`, drawing
 * through the shared raster and rewriting child containers' scroll positions
 * in place. Each method is proved to do what the functions of module
 * Compositing describe.
 */
module InterfaceController {
  import opened Wrappers
  import opened Raster
  import opened Widgets
  import opened TextLayout
  import opened Compositing

  /** The scroll position of every widget object of the table. */
  ghost function ScrollsOf(ws: seq<Widget>): map<Widget, int>
    reads ws
  {
    map w | w in ws :: w.scrollPosition
  }

  /** The raster's log and clip together with the table's scroll positions. */
  ghost function Snapshot(raster: RSRaster, ws: seq<Widget>): State
    reads raster, ws
  {
    State(raster.log, raster.CurrentClip(), ScrollsOf(ws))
  }

  /** `renderRectangle(child, x, y)`: draws a rectangle widget, and nothing for any other widget. */
  method RenderRectangle(raster: RSRaster, child: Widget, currentX: int, currentY: int)
    modifies raster`log
    ensures raster.log == old(raster.log) +
      (if child.group == TYPE_RECTANGLE then [RectangleDraw(child, currentX, currentY)] else [])
  {
    if child.group == TYPE_RECTANGLE {
      var colour := child.defaultColour;
      if child.alpha == 0 {
        if child.filled {
          raster.FillRectangle(currentX, currentY, child.width, child.height, colour);
        } else {
          raster.DrawRectangle(currentX, currentY, child.width, child.height, colour);
        }
      } else if child.filled {
        raster.FillRectangleAlpha(currentX, currentY, child.width, child.height,
                                  colour, BlendWeight(child.alpha));
      } else {
        raster.DrawRectangleAlpha(currentX, currentY, child.width, child.height,
                                  colour, BlendWeight(child.alpha));
      }
    }
  }

  /**
   * `renderText(child, x, y)`: draws a text widget line by line, and nothing
   * for any other widget.
   */
  method RenderText(raster: RSRaster, child: Widget, x: int, y: int)
    modifies raster`log
    ensures raster.log == old(raster.log) +
      (if child.group == TYPE_TEXT then TextDraws(child, x, y, raster.width) else [])
  {
    if child.group == TYPE_TEXT {
      var font := child.font;
      var text := child.defaultText;
      var colour := child.defaultColour;
      if child.optionType == OPTION_CONTINUE {
        text := PLEASE_WAIT;
        colour := child.defaultColour;
      }
      if raster.width == LEGACY_WIDTH {
        if colour == 0xffff00 {
          colour := 255;
        } else if colour == 49152 {
          colour := 0xffffff;
        }
      }
      TextDrawsOf(child, x, y, raster.width, text, colour);
      var drawY := y + font.verticalSpace;
      DrawLines(raster, child, text, x, drawY, colour);
    }
  }

  /**
   * The line loop of `renderText`: cuts `text` at each marker and draws the
   * pieces, starting at baseline `drawY` and one line height lower each time.
   */
  method DrawLines(raster: RSRaster, child: Widget, text: string, x: int, drawY: int, colour: int)
    modifies raster`log
    ensures raster.log == old(raster.log) + LineDraws(child, SplitLines(text), x, drawY, colour)
  {
    var text, drawY := text, drawY;
    ghost var target := raster.log + LineDraws(child, SplitLines(text), x, drawY, colour);
    while |text| > 0
      invariant target == raster.log + LineDraws(child, SplitLines(text), x, drawY, colour)
      decreases |text|
    {
      ghost var lines := SplitLines(text);
      SplitLinesStep(text);
      LineDrawsCons(child, lines, x, drawY, colour);
      var line := IndexOf(text);
      var drawn: string;
      if line != -1 {
        drawn := text[..line];
        text := text[line + 2..];
      } else {
        drawn := text;
        text := "";
      }
      assert lines[0] == drawn && lines[1..] == SplitLines(text);
      ghost var done := raster.log;
      ghost var rest := LineDraws(child, SplitLines(text), x, drawY + child.font.verticalSpace, colour);
      if child.centeredText {
        raster.ShadowCentre(child.font, x + Half(child.width), drawY, drawn, child.shadowedText, colour);
      } else {
        raster.Shadow(child.font, x, drawY, drawn, child.shadowedText, colour);
      }
      assert raster.log == done + [LineDraw(child, x, drawY, drawn, colour)];
      assert done + ([LineDraw(child, x, drawY, drawn, colour)] + rest) ==
             (done + [LineDraw(child, x, drawY, drawn, colour)]) + rest;
      drawY := drawY + child.font.verticalSpace;
    }
    assert LineDraws(child, SplitLines(text), x, drawY, colour) == [];
  }

  /**
   * `renderWidget(widgets, widget, x, y, scroll)`: composites container
   * `widget`, placed at (x, y) and scrolled by `scroll`, into the raster.
   */
  method RenderWidget(widgets: array<Widget>, widget: Widget, x: int, y: int, scroll: int,
                      raster: RSRaster, ghost depth: nat)
    requires WellFormed(widgets[..], widget, depth)
    modifies raster`log, raster`clipTop, raster`clipLeft, raster`clipRight, raster`clipBottom
    modifies widgets[..]
    ensures Snapshot(raster, widgets[..]) ==
            Container(widgets[..], widget, x, y, scroll, old(Snapshot(raster, widgets[..])), raster.width, depth)
    decreases depth, 1
  {
    ghost var ws := widgets[..];
    if widget.group != TYPE_CONTAINER || widget.children.None? {
      return;
    }
    var clipLeft := raster.clipLeft;
    var clipBottom := raster.clipBottom;
    var clipRight := raster.clipRight;
    var clipTop := raster.clipTop;

    raster.SetBounds(y + widget.height, x, x + widget.width, y);
    ghost var entered := Snapshot(raster, ws);
    var children := |widget.children.value|;

    for childIndex := 0 to children
      invariant Snapshot(raster, ws) ==
                Children(ws, widget, x, y, scroll, childIndex, entered, raster.width, depth)
    {
      RenderChild(widgets, widget, childIndex, x, y, scroll, raster, depth);
    }

    raster.SetBounds(clipTop, clipLeft, clipRight, clipBottom);
  }

  /**
   * One pass of `renderWidget`'s loop: positions child slot `childIndex` of
   * `widget` and draws it, clamping a container child's scroll position in
   * place before recursing into it.
   */
  method RenderChild(widgets: array<Widget>, widget: Widget, childIndex: nat, x: int, y: int, scroll: int,
                     raster: RSRaster, ghost depth: nat)
    requires WellFormed(widgets[..], widget, depth)
    requires widget.group == TYPE_CONTAINER && widget.children.Some? && childIndex < |widget.children.value|
    modifies raster`log, raster`clipTop, raster`clipLeft, raster`clipRight, raster`clipBottom
    modifies widgets[..]
    ensures Snapshot(raster, widgets[..]) ==
            Child(widgets[..], widget, childIndex, x, y, scroll, old(Snapshot(raster, widgets[..])), raster.width, depth)
    decreases depth, 0
  {
    ghost var ws := widgets[..];
    ghost var before := Snapshot(raster, ws);
    var currentX := widget.childX[childIndex] + x;
    var currentY := widget.childY[childIndex] + y - scroll;
    var child := widgets[widget.children.value[childIndex]];
    assert child == ChildAt(ws, widget, depth, childIndex);
    currentX := currentX + child.horizontalDrawOffset;
    currentY := currentY + child.verticalDrawOffset;

    if child.group == TYPE_CONTAINER {
      RenderNested(widgets, child, currentX, currentY, raster, depth - 1);
    } else if child.group != TYPE_MODEL_LIST {
      RenderLeaf(raster, child, currentX, currentY);
    }
  }

  /**
   * The container branch of `renderWidget`'s loop: clamps the child's scroll
   * position in place, first down to `scrollLimit - height` and then up to 0,
   * and renders the child at (x, y) scrolled by the clamped value.
   */
  method RenderNested(widgets: array<Widget>, child: Widget, x: int, y: int,
                      raster: RSRaster, ghost depth: nat)
    requires WellFormed(widgets[..], child, depth) && child in widgets[..]
    modifies raster`log, raster`clipTop, raster`clipLeft, raster`clipRight, raster`clipBottom
    modifies widgets[..]
    ensures var before := old(Snapshot(raster, widgets[..]));
      var sp := Clamp(old(child.scrollPosition), child.scrollLimit, child.height);
      Snapshot(raster, widgets[..]) ==
      Container(widgets[..], child, x, y, sp, before.(scrolls := before.scrolls[child := sp]), raster.width, depth)
    decreases depth, 2
  {
    ghost var ws := widgets[..];
    ghost var before := Snapshot(raster, ws);
    ghost var position := child.scrollPosition;
    if child.scrollPosition > child.scrollLimit - child.height {
      child.scrollPosition := child.scrollLimit - child.height;
    }
    if child.scrollPosition < 0 {
      child.scrollPosition := 0;
    }
    assert child.scrollPosition == Clamp(position, child.scrollLimit, child.height);
    assert Snapshot(raster, ws) == before.(scrolls := before.scrolls[child := child.scrollPosition]);
    RenderWidget(widgets, child, x, y, child.scrollPosition, raster, depth);
  }

  /**
   * The type dispatch of `renderWidget`'s loop for a child that is neither a
   * container nor a model list: inventories, models and item lists draw
   * nothing, rectangles and text go to their renderers, a sprite widget draws
   * its sprite when it has one.
   */
  method RenderLeaf(raster: RSRaster, child: Widget, currentX: int, currentY: int)
    modifies raster`log
    ensures raster.log == old(raster.log) + Leaf(child, currentX, currentY, raster.width)
  {
    if child.group == TYPE_INVENTORY {
    } else if child.group == TYPE_RECTANGLE {
      RenderRectangle(raster, child, currentX, currentY);
    } else if child.group == TYPE_TEXT {
      RenderText(raster, child, currentX, currentY);
    } else if child.group == TYPE_SPRITE {
      if child.defaultSprite.Some? {
        raster.DrawSprite(child.defaultSprite.value, currentX, currentY);
      }
    } else if child.group == TYPE_MODEL {
    } else if child.group == TYPE_ITEM_LIST {
    }
  }

  /**
   * `toBufferedImage(widgets, widget)`: prepares the shared raster at the
   * root's size, renders the root into it and returns the image, or nothing,
   * without touching the raster, when the root has no area. A container
   * root with children leaves the clip as its closing `setBounds` call sets
   * it, top and bottom swapped relative to the reset clip.
   */
  method ToBufferedImage(widgets: array<Widget>, widget: Widget, raster: RSRaster, ghost depth: nat)
    returns (image: Option<Image>)
    requires widget.width > 0 && widget.height > 0 ==> WellFormed(widgets[..], widget, depth)
    modifies raster, widgets[..]
    ensures var o := Composite(widgets[..], widget, old(ScrollsOf(widgets[..])), depth);
      image == o.image && ScrollsOf(widgets[..]) == o.scrolls
    ensures image.None? ==> unchanged(raster)
    ensures image.Some? ==>
      raster.width == widget.width && raster.height == widget.height &&
      raster.raster.Length == widget.width * widget.height && raster.log == image.value.draws
    ensures image.Some? ==>
      raster.CurrentClip() ==
        (if widget.group == TYPE_CONTAINER && widget.children.Some? then Clip(widget.height, 0, widget.width, 0)
         else Clip(0, 0, widget.width, widget.height))
  {
    if widget.width <= 0 || widget.height <= 0 {
      return None;
    }
    ghost var ws := widgets[..];
    var pixels := new int[widget.width * widget.height](_ => 0);
    raster.Init(widget.height, widget.width, pixels);
    raster.Reset();
    assert Snapshot(raster, ws) == Fresh(widget.width, widget.height, old(ScrollsOf(ws)));

    LeafKinds(widget, 0, 0, raster.width);
    if widget.group == TYPE_CONTAINER {
      if widget.children.Some? {
        ContainerBrackets(ws, widget, 0, 0, 0, Snapshot(raster, ws), raster.width, depth);
      }
      RenderWidget(widgets, widget, 0, 0, 0, raster, depth);
    } else if widget.group == TYPE_SPRITE {
      if widget.defaultSprite.Some? {
        raster.DrawSprite(widget.defaultSprite.value, 0, 0);
      }
    } else if widget.group == TYPE_TEXT {
      RenderText(raster, widget, 0, 0);
    } else if widget.group == TYPE_RECTANGLE {
      RenderRectangle(raster, widget, 0, 0);
    }
    assert widget.group != TYPE_CONTAINER ==> raster.log == Leaf(widget, 0, 0, raster.width);

    image := Some(Image(raster.width, raster.height, raster.log));
  }
}
