/**
 * The compositor as functions: what one call of `renderWidget` draws, how it
 * leaves the clip and which scroll positions it rewrites. The imperative
 * renderer in module InterfaceController is proved to compute exactly these.
 */
module Compositing {
  import opened Wrappers
  import opened Raster
  import opened Widgets
  import opened TextLayout

  /**
   * What the compositor has done so far: the draws made into the raster, the
   * raster's current clip, and the scroll position of every widget object.
   */
  datatype State = State(log: seq<Draw>, clip: Clip, scrolls: map<Widget, int>)

  /** The rendered image: the size of the raster and the draws made onto it, in order. */
  datatype Image = Image(width: int, height: int, draws: seq<Draw>)

  /** The result of `toBufferedImage`, with the scroll positions it leaves behind. */
  datatype Outcome = Outcome(image: Option<Image>, scrolls: map<Widget, int>)

  /** Every widget of the table has a scroll position in `s`. */
  predicate Tracks(ws: seq<Widget>, s: State) {
    forall w :: w in ws ==> w in s.scrolls
  }

  /** Widget v keeps its scroll position from p in q or, for a container, holds its clamped position. */
  predicate Settled(p: map<Widget, int>, q: map<Widget, int>, v: Widget) {
    v in p && v in q &&
    (q[v] == p[v] || (v.group == TYPE_CONTAINER && q[v] == Clamp(p[v], v.scrollLimit, v.height)))
  }

  /** Scroll map q is p with some container positions clamped. */
  predicate ClampedFrom(p: map<Widget, int>, q: map<Widget, int>) {
    q.Keys == p.Keys && forall v {:trigger Settled(p, q, v)} :: v in p ==> Settled(p, q, v)
  }

  /**
   * `r` is a possible later state than `s`: it only adds draws to the log,
   * and every scroll position it changes belongs to a container and is that
   * container's clamped position.
   */
  predicate Extends(s: State, r: State) {
    |s.log| <= |r.log| && r.log[..|s.log|] == s.log && ClampedFrom(s.scrolls, r.scrolls)
  }

  lemma ExtendsTransitive(a: State, b: State, c: State)
    requires Extends(a, b) && Extends(b, c)
    ensures Extends(a, c)
  {
    assert c.log[..|a.log|] == c.log[..|b.log|][..|a.log|];
    forall v | v in a.scrolls
      ensures Settled(a.scrolls, c.scrolls, v)
    {
      assert Settled(a.scrolls, b.scrolls, v) && Settled(b.scrolls, c.scrolls, v);
      ClampIdempotent(a.scrolls[v], v.scrollLimit, v.height);
    }
  }

  /** The draw of one rectangle widget at (x, y). */
  function RectangleDraw(w: Widget, x: int, y: int): (d: Draw)
    ensures d.FillRect? || d.DrawRect? || d.FillRectAlpha? || d.DrawRectAlpha?
    ensures d.x == x && d.y == y && d.width == w.width && d.height == w.height
    ensures d.colour == w.defaultColour
    ensures (d.FillRect? || d.FillRectAlpha?) <==> w.filled
    ensures (d.FillRectAlpha? || d.DrawRectAlpha?) <==> w.alpha != 0
    ensures (d.FillRectAlpha? || d.DrawRectAlpha?) ==> d.weight == BlendWeight(w.alpha) && 1 <= d.weight <= 255
  {
    if w.alpha == 0 then
      if w.filled then FillRect(x, y, w.width, w.height, w.defaultColour)
      else DrawRect(x, y, w.width, w.height, w.defaultColour)
    else if w.filled then FillRectAlpha(x, y, w.width, w.height, w.defaultColour, BlendWeight(w.alpha))
    else DrawRectAlpha(x, y, w.width, w.height, w.defaultColour, BlendWeight(w.alpha))
  }

  /** The draw of one line of a text widget, with its baseline at y. */
  function LineDraw(w: Widget, x: int, y: int, line: string, colour: int): Draw
  {
    if w.centeredText then ShadowCentre(w.font, x + Half(w.width), y, line, w.shadowedText, colour)
    else Shadow(w.font, x, y, line, w.shadowedText, colour)
  }

  /** The colour a text widget is drawn in on a raster `rasterWidth` wide. */
  function TextColour(w: Widget, rasterWidth: int): int
  {
    LegacyColour(w.defaultColour, rasterWidth)
  }

  /**
   * The draws of `lines`, the first with its baseline at y and each next one
   * a line height lower.
   */
  function LineDraws(w: Widget, lines: seq<string>, x: int, y: int, colour: int): (r: seq<Draw>)
    ensures |r| == |lines|
    decreases |lines|
  {
    if |lines| == 0 then []
    else [LineDraw(w, x, y, lines[0], colour)] + LineDraws(w, lines[1..], x, y + w.font.verticalSpace, colour)
  }

  lemma LineDrawsCons(w: Widget, lines: seq<string>, x: int, y: int, colour: int)
    requires |lines| > 0
    ensures LineDraws(w, lines, x, y, colour) ==
            [LineDraw(w, x, y, lines[0], colour)] + LineDraws(w, lines[1..], x, y + w.font.verticalSpace, colour)
  {
  }

  /** The draws of a text widget at (x, y): its displayed text, split into lines, starting one line below y. */
  function TextDraws(w: Widget, x: int, y: int, rasterWidth: int): seq<Draw>
  {
    LineDraws(w, SplitLines(DisplayText(w)), x, y + w.font.verticalSpace, TextColour(w, rasterWidth))
  }

  /** TextDraws, given the displayed text and colour already computed. */
  lemma TextDrawsOf(w: Widget, x: int, y: int, rasterWidth: int, text: string, colour: int)
    requires text == DisplayText(w) && colour == TextColour(w, rasterWidth)
    ensures TextDraws(w, x, y, rasterWidth) == LineDraws(w, SplitLines(text), x, y + w.font.verticalSpace, colour)
  {
  }

  /** Line k of `lines` is drawn k line heights below y, with the widget's font, shadow flag and alignment. */
  lemma {:induction false} LineDrawsAt(w: Widget, lines: seq<string>, x: int, y: int, colour: int, k: nat)
    requires k < |lines|
    ensures var d := LineDraws(w, lines, x, y, colour)[k];
      (if w.centeredText then d.ShadowCentre? && d.x == x + Half(w.width) else d.Shadow? && d.x == x) &&
      d.y == y + k * w.font.verticalSpace && d.text == lines[k] &&
      d.font == w.font && d.shadowed == w.shadowedText && d.colour == colour
    decreases k
  {
    if k > 0 {
      LineDrawsAt(w, lines[1..], x, y + w.font.verticalSpace, colour, k - 1);
      assert lines[1..][k - 1] == lines[k];
      assert y + w.font.verticalSpace + (k - 1) * w.font.verticalSpace == y + k * w.font.verticalSpace;
    }
  }

  /**
   * Line layout: empty text draws nothing; otherwise line k of `text`, which
   * holds no marker, is drawn with the widget's font, shadow flag and the
   * given colour, k line heights below y, centred on `x + width / 2` for
   * centred text and from x otherwise.
   */
  lemma LinesLayout(w: Widget, text: string, x: int, y: int, colour: int, k: nat)
    ensures var r := LineDraws(w, SplitLines(text), x, y, colour);
      |r| == |SplitLines(text)| &&
      (text == [] ==> r == []) &&
      (k < |r| ==>
        var d := r[k];
        (if w.centeredText then d.ShadowCentre? && d.x == x + Half(w.width) else d.Shadow? && d.x == x) &&
        d.y == y + k * w.font.verticalSpace &&
        d.text == SplitLines(text)[k] && !HasMarker(d.text) &&
        d.font == w.font && d.shadowed == w.shadowedText && d.colour == colour)
  {
    SplitLinesNoMarker(text);
    if k < |SplitLines(text)| {
      LineDrawsAt(w, SplitLines(text), x, y, colour, k);
    }
  }

  /**
   * Text layout: line k of the displayed text is drawn in the remapped
   * colour `k + 1` line heights below y.
   */
  lemma TextDrawsLayout(w: Widget, x: int, y: int, rasterWidth: int, k: nat)
    ensures var r := TextDraws(w, x, y, rasterWidth);
      |r| == |SplitLines(DisplayText(w))| &&
      (DisplayText(w) == [] ==> r == []) &&
      (k < |r| ==>
        var d := r[k];
        (if w.centeredText then d.ShadowCentre? && d.x == x + Half(w.width) else d.Shadow? && d.x == x) &&
        d.y == y + (k + 1) * w.font.verticalSpace &&
        d.text == SplitLines(DisplayText(w))[k] && !HasMarker(d.text) &&
        d.font == w.font && d.shadowed == w.shadowedText && d.colour == TextColour(w, rasterWidth))
  {
    var text, colour := DisplayText(w), TextColour(w, rasterWidth);
    TextDrawsOf(w, x, y, rasterWidth, text, colour);
    LinesLayout(w, text, x, y + w.font.verticalSpace, colour, k);
    assert y + w.font.verticalSpace + k * w.font.verticalSpace == y + (k + 1) * w.font.verticalSpace;
  }

  /**
   * A text widget with the "continue" option draws the placeholder as its
   * only line, whatever its own text, one line height below y and in its own
   * colour after the legacy remap.
   */
  lemma TextPlaceholder(w: Widget, x: int, y: int, rasterWidth: int)
    requires w.optionType == OPTION_CONTINUE
    ensures TextDraws(w, x, y, rasterWidth) ==
            [LineDraw(w, x, y + w.font.verticalSpace, PLEASE_WAIT, LegacyColour(w.defaultColour, rasterWidth))]
  {
    assert !HasMarker(PLEASE_WAIT) by {
      forall i | 0 <= i < |PLEASE_WAIT|
        ensures !MarkerAt(PLEASE_WAIT, i)
      {
        assert PLEASE_WAIT[i] != '\\';
      }
    }
    SplitLinesSingle(PLEASE_WAIT);
    var colour := LegacyColour(w.defaultColour, rasterWidth);
    TextDrawsOf(w, x, y, rasterWidth, PLEASE_WAIT, colour);
    LineDrawsCons(w, [PLEASE_WAIT], x, y + w.font.verticalSpace, colour);
  }

  /**
   * What a widget that is neither a container nor a model list draws at
   * (x, y): rectangles, text and sprites draw, every other type draws nothing.
   */
  function Leaf(w: Widget, x: int, y: int, rasterWidth: int): seq<Draw>
  {
    if w.group == TYPE_RECTANGLE then [RectangleDraw(w, x, y)]
    else if w.group == TYPE_TEXT then TextDraws(w, x, y, rasterWidth)
    else if w.group == TYPE_SPRITE then
      (if w.defaultSprite.Some? then [DrawSprite(w.defaultSprite.value, x, y)] else [])
    else []
  }

  /**
   * Only rectangle, text and sprite widgets draw anything; a sprite widget
   * draws its sprite at (x, y) exactly when it has one.
   */
  lemma LeafKinds(w: Widget, x: int, y: int, rasterWidth: int)
    ensures var r := Leaf(w, x, y, rasterWidth);
      (w.group == TYPE_RECTANGLE ==> r == [RectangleDraw(w, x, y)]) &&
      (w.group == TYPE_TEXT ==> r == TextDraws(w, x, y, rasterWidth)) &&
      (w.group == TYPE_SPRITE ==>
         (w.defaultSprite.Some? ==> r == [DrawSprite(w.defaultSprite.value, x, y)]) &&
         (w.defaultSprite.None? ==> r == [])) &&
      (r != [] ==> w.group == TYPE_RECTANGLE || w.group == TYPE_TEXT || w.group == TYPE_SPRITE)
  {
  }

  /** Where child slot i of container w is drawn, when w is drawn at (x, y) scrolled by `scroll`. */
  function SlotX(w: Widget, i: nat, x: int, child: Widget): int
    requires i < |w.childX|
  {
    w.childX[i] + x + child.horizontalDrawOffset
  }

  function SlotY(w: Widget, i: nat, y: int, scroll: int, child: Widget): int
    requires i < |w.childY|
  {
    w.childY[i] + y - scroll + child.verticalDrawOffset
  }

  /** The child widget in slot i of container w. */
  function ChildAt(ws: seq<Widget>, w: Widget, depth: nat, i: nat): (c: Widget)
    requires WellFormed(ws, w, depth)
    requires w.group == TYPE_CONTAINER && w.children.Some? && i < |w.children.value|
    ensures c.group == TYPE_CONTAINER ==> depth > 0 && WellFormed(ws, c, depth - 1)
  {
    ws[w.children.value[i]]
  }

  /**
   * `renderWidget(widgets, w, x, y, scroll)`. A widget that is not a
   * container, or has no child list, is left alone. Otherwise the clip is
   * narrowed to the container's box, the children are drawn in slot order,
   * and `setBounds` is called last with the clip values read on entry.
   */
  function Container(ws: seq<Widget>, w: Widget, x: int, y: int, scroll: int,
                     s: State, rasterWidth: int, depth: nat): (r: State)
    requires WellFormed(ws, w, depth) && Tracks(ws, s)
    ensures r.scrolls.Keys == s.scrolls.Keys
    decreases depth, 1, 0
  {
    if w.group != TYPE_CONTAINER || w.children.None? then s
    else
      var drawn := Children(ws, w, x, y, scroll, |w.children.value|, Enter(w, x, y, s), rasterWidth, depth);
      Restore(drawn, s.clip)
  }

  /** The state once container w, drawn at (x, y), has narrowed the clip to its box. */
  function Enter(w: Widget, x: int, y: int, s: State): (r: State)
    ensures r.scrolls == s.scrolls
  {
    s.(log := s.log + [SetBounds(y + w.height, x, x + w.width, y)],
       clip := BoundsClip(y + w.height, x, x + w.width, y))
  }

  /** The state after the closing `setBounds`, called with the clip `saved` on entry. */
  function Restore(s: State, saved: Clip): (r: State)
    ensures r.scrolls == s.scrolls
  {
    s.(log := s.log + [SetBounds(saved.top, saved.left, saved.right, saved.bottom)],
       clip := BoundsClip(saved.top, saved.left, saved.right, saved.bottom))
  }

  /** The first n child slots of container w, drawn in order. */
  function Children(ws: seq<Widget>, w: Widget, x: int, y: int, scroll: int, n: nat,
                    s: State, rasterWidth: int, depth: nat): (r: State)
    requires WellFormed(ws, w, depth) && Tracks(ws, s)
    requires w.group == TYPE_CONTAINER && w.children.Some? && n <= |w.children.value|
    ensures r.scrolls.Keys == s.scrolls.Keys
    decreases depth, 0, n
  {
    if n == 0 then s
    else
      var mid := Children(ws, w, x, y, scroll, n - 1, s, rasterWidth, depth);
      Child(ws, w, n - 1, x, y, scroll, mid, rasterWidth, depth)
  }

  /**
   * Child slot i of container w: a container child has its scroll position
   * clamped and is rendered recursively at the slot's position, scrolled by
   * the clamped value; a model-list child is skipped; any other child draws
   * its leaf content at the slot's position.
   */
  function Child(ws: seq<Widget>, w: Widget, i: nat, x: int, y: int, scroll: int,
                 s: State, rasterWidth: int, depth: nat): (r: State)
    requires WellFormed(ws, w, depth) && Tracks(ws, s)
    requires w.group == TYPE_CONTAINER && w.children.Some? && i < |w.children.value|
    ensures r.scrolls.Keys == s.scrolls.Keys
    decreases depth, 0, i
  {
    var child := ChildAt(ws, w, depth, i);
    var cx := SlotX(w, i, x, child);
    var cy := SlotY(w, i, y, scroll, child);
    if child.group == TYPE_CONTAINER then
      var sp := Clamp(s.scrolls[child], child.scrollLimit, child.height);
      Container(ws, child, cx, cy, sp, s.(scrolls := s.scrolls[child := sp]), rasterWidth, depth - 1)
    else if child.group == TYPE_MODEL_LIST then s
    else s.(log := s.log + Leaf(child, cx, cy, rasterWidth))
  }

  /** Rendering a container only appends draws and only clamps scroll positions. */
  lemma {:induction false} ContainerExtends(ws: seq<Widget>, w: Widget, x: int, y: int, scroll: int,
                                            s: State, rasterWidth: int, depth: nat)
    requires WellFormed(ws, w, depth) && Tracks(ws, s)
    ensures Extends(s, Container(ws, w, x, y, scroll, s, rasterWidth, depth))
    decreases depth, 1, 0
  {
    if w.group == TYPE_CONTAINER && w.children.Some? {
      var entered := Enter(w, x, y, s);
      var drawn := Children(ws, w, x, y, scroll, |w.children.value|, entered, rasterWidth, depth);
      ChildrenExtends(ws, w, x, y, scroll, |w.children.value|, entered, rasterWidth, depth);
      ExtendsTransitive(s, entered, drawn);
      ExtendsTransitive(s, drawn, Restore(drawn, s.clip));
    }
  }

  lemma {:induction false} ChildrenExtends(ws: seq<Widget>, w: Widget, x: int, y: int, scroll: int, n: nat,
                                           s: State, rasterWidth: int, depth: nat)
    requires WellFormed(ws, w, depth) && Tracks(ws, s)
    requires w.group == TYPE_CONTAINER && w.children.Some? && n <= |w.children.value|
    ensures Extends(s, Children(ws, w, x, y, scroll, n, s, rasterWidth, depth))
    decreases depth, 0, n
  {
    if n > 0 {
      var mid := Children(ws, w, x, y, scroll, n - 1, s, rasterWidth, depth);
      ChildrenExtends(ws, w, x, y, scroll, n - 1, s, rasterWidth, depth);
      ChildExtends(ws, w, n - 1, x, y, scroll, mid, rasterWidth, depth);
      ExtendsTransitive(s, mid, Child(ws, w, n - 1, x, y, scroll, mid, rasterWidth, depth));
    }
  }

  lemma {:induction false} ChildExtends(ws: seq<Widget>, w: Widget, i: nat, x: int, y: int, scroll: int,
                                        s: State, rasterWidth: int, depth: nat)
    requires WellFormed(ws, w, depth) && Tracks(ws, s)
    requires w.group == TYPE_CONTAINER && w.children.Some? && i < |w.children.value|
    ensures Extends(s, Child(ws, w, i, x, y, scroll, s, rasterWidth, depth))
    decreases depth, 0, i
  {
    var child := ChildAt(ws, w, depth, i);
    if child.group == TYPE_CONTAINER {
      var sp := Clamp(s.scrolls[child], child.scrollLimit, child.height);
      var clamped := s.(scrolls := s.scrolls[child := sp]);
      ContainerExtends(ws, child, SlotX(w, i, x, child), SlotY(w, i, y, scroll, child), sp, clamped, rasterWidth, depth - 1);
      ExtendsTransitive(s, clamped, Container(ws, child, SlotX(w, i, x, child), SlotY(w, i, y, scroll, child), sp, clamped, rasterWidth, depth - 1));
    } else if child.group != TYPE_MODEL_LIST {
      assert (s.log + Leaf(child, SlotX(w, i, x, child), SlotY(w, i, y, scroll, child), rasterWidth))[..|s.log|] == s.log;
    }
  }

  /**
   * A container with children first narrows the clip to its own box and last
   * calls `setBounds` with the clip read on entry, passed in the order
   * (top, left, right, bottom) while `setBounds` takes (bottom, left, right,
   * top): on return the clip's top and bottom are the entry clip's bottom and
   * top.
   */
  lemma ContainerBrackets(ws: seq<Widget>, w: Widget, x: int, y: int, scroll: int,
                          s: State, rasterWidth: int, depth: nat)
    requires WellFormed(ws, w, depth) && Tracks(ws, s)
    requires w.group == TYPE_CONTAINER && w.children.Some?
    ensures var r := Container(ws, w, x, y, scroll, s, rasterWidth, depth);
      |r.log| >= |s.log| + 2 &&
      r.log[|s.log|] == SetBounds(y + w.height, x, x + w.width, y) &&
      r.log[|r.log| - 1] == SetBounds(s.clip.top, s.clip.left, s.clip.right, s.clip.bottom) &&
      r.clip == Clip(s.clip.bottom, s.clip.left, s.clip.right, s.clip.top)
  {
    var entered := Enter(w, x, y, s);
    ChildrenExtends(ws, w, x, y, scroll, |w.children.value|, entered, rasterWidth, depth);
  }

  /** The raster's state once `init` and `reset` have prepared it for a `width` by `height` image. */
  function Fresh(width: int, height: int, scrolls: map<Widget, int>): State
  {
    State([], Clip(0, 0, width, height), scrolls)
  }

  /**
   * `toBufferedImage(widgets, root)`: no image when the root has no area;
   * otherwise a raster the root's size on which a container root is rendered
   * at the origin without scroll, and a sprite, text or rectangle root is
   * drawn at the origin.
   */
  function Composite(ws: seq<Widget>, root: Widget, scrolls: map<Widget, int>, depth: nat): (o: Outcome)
    requires (root.width > 0 && root.height > 0 ==> WellFormed(ws, root, depth))
    requires forall w :: w in ws ==> w in scrolls
  {
    if root.width <= 0 || root.height <= 0 then Outcome(None, scrolls)
    else
      var s := Fresh(root.width, root.height, scrolls);
      var r := if root.group == TYPE_CONTAINER then Container(ws, root, 0, 0, 0, s, root.width, depth)
               else s.(log := Leaf(root, 0, 0, root.width));
      Outcome(Some(Image(root.width, root.height, r.log)), r.scrolls)
  }
}
