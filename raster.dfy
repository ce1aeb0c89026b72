/**
 * The drawing library the compositor draws through: the shared raster
 * surface `RSRaster`, fonts and sprites. Their pixel-level behaviour is not
 * part of this model; every drawing call is recorded, in order, as a `Draw`
 * command in the raster's log.
 */
module Raster {

  /** A decoded bitmap font; only its line height matters to the layout. */
  datatype Font = Font(id: int, verticalSpace: int)

  /** A decoded sprite image, identified by its id. */
  datatype Sprite = Sprite(id: int)

  /** The clip rectangle as the four getters `getClipTop` ... report it. */
  datatype Clip = Clip(top: int, left: int, right: int, bottom: int)

  /** One call into the drawing library. */
  datatype Draw =
    | FillRect(x: int, y: int, width: int, height: int, colour: int)
    | DrawRect(x: int, y: int, width: int, height: int, colour: int)
    | FillRectAlpha(x: int, y: int, width: int, height: int, colour: int, weight: int)
    | DrawRectAlpha(x: int, y: int, width: int, height: int, colour: int, weight: int)
    | Shadow(font: Font, x: int, y: int, text: string, shadowed: bool, colour: int)
    | ShadowCentre(font: Font, x: int, y: int, text: string, shadowed: bool, colour: int)
    | DrawSprite(sprite: Sprite, x: int, y: int)
    | SetBounds(bottom: int, left: int, right: int, top: int)

  /**
   * The clip that `setBounds(bottom, left, right, top)` installs. The
   * parameter order is the one the compositor uses when it narrows the clip
   * to a container's box (bottom edge first, top edge last); the clamping of
   * the edges to the raster's size inside the library is not modelled.
   */
  function BoundsClip(bottom: int, left: int, right: int, top: int): (c: Clip)
    ensures c.top == top && c.left == left && c.right == right && c.bottom == bottom
  {
    Clip(top, left, right, bottom)
  }

  /** The shared raster surface: its size, its pixel buffer, its clip and the draws made into it. */
  class RSRaster {
    var width: int
    var height: int
    var raster: array<int>
    var clipTop: int
    var clipLeft: int
    var clipRight: int
    var clipBottom: int
    var log: seq<Draw>

    constructor ()
      ensures width == 0 && height == 0 && raster.Length == 0
      ensures CurrentClip() == Clip(0, 0, 0, 0) && log == []
    {
      width, height := 0, 0;
      raster := new int[0];
      clipTop, clipLeft, clipRight, clipBottom := 0, 0, 0, 0;
      log := [];
    }

    function CurrentClip(): Clip
      reads this
    {
      Clip(clipTop, clipLeft, clipRight, clipBottom)
    }

    /** `init(height, width, pixels)`: binds a new buffer, on which nothing has been drawn yet. */
    method Init(height: int, width: int, pixels: array<int>)
      modifies this
      ensures this.width == width && this.height == height && raster == pixels
      ensures log == [] && CurrentClip() == old(CurrentClip())
    {
      this.width, this.height := width, height;
      raster := pixels;
      log := [];
    }

    /** `reset()`: the clip becomes the whole raster. */
    method Reset()
      modifies this`clipTop, this`clipLeft, this`clipRight, this`clipBottom
      ensures CurrentClip() == Clip(0, 0, width, height)
    {
      clipTop, clipLeft, clipRight, clipBottom := 0, 0, width, height;
    }

    method SetBounds(bottom: int, left: int, right: int, top: int)
      modifies this`log, this`clipTop, this`clipLeft, this`clipRight, this`clipBottom
      ensures log == old(log) + [Draw.SetBounds(bottom, left, right, top)]
      ensures CurrentClip() == BoundsClip(bottom, left, right, top)
    {
      log := log + [Draw.SetBounds(bottom, left, right, top)];
      clipTop, clipLeft, clipRight, clipBottom := top, left, right, bottom;
    }

    method FillRectangle(x: int, y: int, width: int, height: int, colour: int)
      modifies this`log
      ensures log == old(log) + [FillRect(x, y, width, height, colour)]
    {
      log := log + [FillRect(x, y, width, height, colour)];
    }

    method FillRectangleAlpha(x: int, y: int, width: int, height: int, colour: int, weight: int)
      modifies this`log
      ensures log == old(log) + [FillRectAlpha(x, y, width, height, colour, weight)]
    {
      log := log + [FillRectAlpha(x, y, width, height, colour, weight)];
    }

    method DrawRectangle(x: int, y: int, width: int, height: int, colour: int)
      modifies this`log
      ensures log == old(log) + [DrawRect(x, y, width, height, colour)]
    {
      log := log + [DrawRect(x, y, width, height, colour)];
    }

    method DrawRectangleAlpha(x: int, y: int, width: int, height: int, colour: int, weight: int)
      modifies this`log
      ensures log == old(log) + [DrawRectAlpha(x, y, width, height, colour, weight)]
    {
      log := log + [DrawRectAlpha(x, y, width, height, colour, weight)];
    }

    /** `font.shadow(x, y, text, shadowed, colour)`: left-aligned text. */
    method Shadow(font: Font, x: int, y: int, text: string, shadowed: bool, colour: int)
      modifies this`log
      ensures log == old(log) + [Draw.Shadow(font, x, y, text, shadowed, colour)]
    {
      log := log + [Draw.Shadow(font, x, y, text, shadowed, colour)];
    }

    /** `font.shadowCentre(x, y, text, shadowed, colour)`: text centred on x. */
    method ShadowCentre(font: Font, x: int, y: int, text: string, shadowed: bool, colour: int)
      modifies this`log
      ensures log == old(log) + [Draw.ShadowCentre(font, x, y, text, shadowed, colour)]
    {
      log := log + [Draw.ShadowCentre(font, x, y, text, shadowed, colour)];
    }

    /** `sprite.drawSprite(x, y)`. */
    method DrawSprite(sprite: Sprite, x: int, y: int)
      modifies this`log
      ensures log == old(log) + [Draw.DrawSprite(sprite, x, y)]
    {
      log := log + [Draw.DrawSprite(sprite, x, y)];
    }
  }
}
