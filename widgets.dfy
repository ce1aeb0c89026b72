/**
 * The interface widget record and the small pure rules the compositor
 * applies to one widget: the scroll clamp, the alpha blend weight, the
 * legacy colour remap and the displayed text.
 */
module Widgets {
  import opened Wrappers
  import opened Raster

  // Widget type tags (`group`) and the "continue" option type, with the
  // values of the 317 interface format.
  const TYPE_CONTAINER: int := 0
  const TYPE_MODEL_LIST: int := 1
  const TYPE_INVENTORY: int := 2
  const TYPE_RECTANGLE: int := 3
  const TYPE_TEXT: int := 4
  const TYPE_SPRITE: int := 5
  const TYPE_MODEL: int := 6
  const TYPE_ITEM_LIST: int := 7
  const OPTION_CONTINUE: int := 6

  /** The viewport width at which the legacy colour remap applies. */
  const LEGACY_WIDTH: int := 479

  /**
   * Placeholder text of a widget whose option type is "continue". It is
   * spelled as a concatenation so that the verifier unfolds the text
   * functions on it like on any other text instead of evaluating them
   * eagerly.
   */
  const PLEASE_WAIT: string := "Please" + " wait..."

  /** Kotlin's `Byte`, the type of a widget's alpha. */
  newtype Byte = x: int | -128 <= x < 128

  /**
   * One decoded widget. Everything but the scroll position is fixed once the
   * widget is decoded; the compositor writes only `scrollPosition`.
   * `children` is absent (Kotlin null) for widgets that are not containers.
   */
  class Widget {
    const group: int
    const width: int
    const height: int
    const horizontalDrawOffset: int
    const verticalDrawOffset: int
    const children: Option<seq<int>>
    const childX: seq<int>
    const childY: seq<int>
    var scrollPosition: int
    const scrollLimit: int
    const filled: bool
    const alpha: Byte
    const defaultColour: int
    const defaultText: string
    const optionType: int
    const centeredText: bool
    const shadowedText: bool
    const font: Font
    const defaultSprite: Option<Sprite>

    constructor (group: int, width: int, height: int,
                 horizontalDrawOffset: int, verticalDrawOffset: int,
                 children: Option<seq<int>>, childX: seq<int>, childY: seq<int>,
                 scrollPosition: int, scrollLimit: int,
                 filled: bool, alpha: Byte, defaultColour: int,
                 defaultText: string, optionType: int, centeredText: bool, shadowedText: bool,
                 font: Font, defaultSprite: Option<Sprite>)
      ensures this.group == group && this.width == width && this.height == height
      ensures this.horizontalDrawOffset == horizontalDrawOffset && this.verticalDrawOffset == verticalDrawOffset
      ensures this.children == children && this.childX == childX && this.childY == childY
      ensures this.scrollPosition == scrollPosition && this.scrollLimit == scrollLimit
      ensures this.filled == filled && this.alpha == alpha && this.defaultColour == defaultColour
      ensures this.defaultText == defaultText && this.optionType == optionType
      ensures this.centeredText == centeredText && this.shadowedText == shadowedText
      ensures this.font == font && this.defaultSprite == defaultSprite
    {
      this.group, this.width, this.height := group, width, height;
      this.horizontalDrawOffset, this.verticalDrawOffset := horizontalDrawOffset, verticalDrawOffset;
      this.children, this.childX, this.childY := children, childX, childY;
      this.scrollPosition, this.scrollLimit := scrollPosition, scrollLimit;
      this.filled, this.alpha, this.defaultColour := filled, alpha, defaultColour;
      this.defaultText, this.optionType := defaultText, optionType;
      this.centeredText, this.shadowedText := centeredText, shadowedText;
      this.font, this.defaultSprite := font, defaultSprite;
    }
  }

  /**
   * The scroll clamp applied to a child container: first down to
   * `limit - height`, then up to 0. The result is the old position when that
   * lies in range, and otherwise the nearer end of `[0, max(0, limit - height)]`.
   */
  function Clamp(position: int, limit: int, height: int): (r: int)
    ensures 0 <= r && (limit - height >= 0 ==> r <= limit - height)
    ensures limit - height < 0 ==> r == 0
    ensures 0 <= position <= limit - height ==> r == position
    ensures position > limit - height ==> r == (if limit - height < 0 then 0 else limit - height)
    ensures position < 0 ==> r == 0
  {
    var lowered := if position > limit - height then limit - height else position;
    if lowered < 0 then 0 else lowered
  }

  /** Clamping an already clamped position changes nothing. */
  lemma ClampIdempotent(position: int, limit: int, height: int)
    ensures Clamp(Clamp(position, limit, height), limit, height) == Clamp(position, limit, height)
  {
  }

  /**
   * The blend weight `256 - (alpha and 0xff)` of a translucent rectangle.
   * On the two's-complement value of the byte, `and 0xff` is the remainder
   * modulo 256, which is what Dafny's `%` computes for every int.
   */
  function BlendWeight(alpha: Byte): (w: int)
    ensures 1 <= w <= 256
    ensures w == 256 <==> alpha == 0
    ensures alpha >= 0 ==> w == 256 - alpha as int
    ensures alpha < 0 ==> w == -(alpha as int)
  {
    256 - (alpha as int % 256)
  }

  /**
   * Legacy palette fix-up: only on a raster exactly `LEGACY_WIDTH` wide,
   * yellow 0xffff00 is drawn as 255 and green 49152 as white 0xffffff; every
   * other colour, and every colour on any other width, is kept.
   */
  function LegacyColour(colour: int, rasterWidth: int): (r: int)
    ensures rasterWidth == LEGACY_WIDTH && colour == 0xffff00 ==> r == 255
    ensures rasterWidth == LEGACY_WIDTH && colour == 49152 ==> r == 0xffffff
    ensures rasterWidth != LEGACY_WIDTH || (colour != 0xffff00 && colour != 49152) ==> r == colour
    ensures rasterWidth == LEGACY_WIDTH ==> r != 0xffff00 && r != 49152
  {
    if rasterWidth == LEGACY_WIDTH && colour == 0xffff00 then 255
    else if rasterWidth == LEGACY_WIDTH && colour == 49152 then 0xffffff
    else colour
  }

  /** Remapping twice is remapping once: no remapped colour is remapped again. */
  lemma LegacyColourIdempotent(colour: int, rasterWidth: int)
    ensures LegacyColour(LegacyColour(colour, rasterWidth), rasterWidth) == LegacyColour(colour, rasterWidth)
  {
  }

  /** The text a text widget shows: the placeholder for a "continue" option, else its own text. */
  function DisplayText(w: Widget): string
  {
    if w.optionType == OPTION_CONTINUE then PLEASE_WAIT else w.defaultText
  }

  /** Kotlin's `n / 2` on Int, which truncates toward zero. */
  function Half(n: int): (r: int)
    ensures n >= 0 ==> 0 <= n - 2 * r <= 1
    ensures n < 0 ==> -1 <= n - 2 * r <= 0
  {
    if n >= 0 then n / 2 else -((-n) / 2)
  }

  /**
   * What the compositor needs of a widget table to visit `w` without failing:
   * every child id of a container indexes the table, the per-child x and y
   * arrays are at least as long as the child list, and container children are
   * themselves well formed with one unit less of `depth`, so the container
   * graph below `w` is acyclic and at most `depth` levels deep.
   */
  predicate WellFormed(ws: seq<Widget>, w: Widget, depth: nat)
    decreases depth
  {
    w.group != TYPE_CONTAINER || w.children.None? ||
    (var ids := w.children.value;
     |w.childX| >= |ids| && |w.childY| >= |ids| &&
     forall i | 0 <= i < |ids| ::
       0 <= ids[i] < |ws| &&
       (ws[ids[i]].group == TYPE_CONTAINER ==> depth > 0 && WellFormed(ws, ws[ids[i]], depth - 1)))
  }
}
