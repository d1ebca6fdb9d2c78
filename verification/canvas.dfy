/** The part of an HTML canvas and its 2-D context that the drawing code uses:
    a pixel buffer whose size is set through `width` and `height`, `fillRect`,
    and `drawImage` under a circular clip. */
module Canvas {
  import opened Geometry

  /** A pixel colour, one byte per channel. */
  datatype Rgba = Rgba(r: int, g: int, b: int, a: int)

  const White: Rgba := Rgba(255, 255, 255, 255)
  const Black: Rgba := Rgba(0, 0, 0, 255)
  /** What a canvas holds after its size is set. */
  const TransparentBlack: Rgba := Rgba(0, 0, 0, 0)

  /** A decoded logo bitmap, as far as the drawing code sees it: `paint(g, px, py, under)`
      is the colour pixel (px, py) gets when the bitmap is stretched over the logo square
      of `g` and composited over `under`. Resampling and alpha blending are the browser's. */
  datatype Image = Image(paint: (Placement, int, int, Rgba) -> Rgba)

  class Canvas {
    var width: nat
    var height: nat
    /** The pixel buffer, indexed [row, column]. */
    var pixels: array2<Rgba>

    ghost predicate Valid()
      reads this
    {
      pixels.Length0 == height && pixels.Length1 == width
    }

    /** A canvas element as the page declares it: 256 by 256 pixels, all transparent. */
    constructor ()
      ensures Valid() && width == 256 && height == 256 && fresh(pixels)
      ensures forall py, px | 0 <= py < height && 0 <= px < width :: pixels[py, px] == TransparentBlack
    {
      width, height := 256, 256;
      pixels := new Rgba[256, 256]((_, _) => TransparentBlack);
    }

    /** Setting `canvas.width` resizes the buffer and clears every pixel to transparent black. */
    method SetWidth(w: nat)
      requires Valid()
      modifies this
      ensures Valid() && width == w && height == old(height) && fresh(pixels)
      ensures forall py, px | 0 <= py < height && 0 <= px < width :: pixels[py, px] == TransparentBlack
    {
      width := w;
      pixels := new Rgba[height, w]((_, _) => TransparentBlack);
    }

    /** Setting `canvas.height` resizes the buffer and clears every pixel to transparent black. */
    method SetHeight(h: nat)
      requires Valid()
      modifies this
      ensures Valid() && height == h && width == old(width) && fresh(pixels)
      ensures forall py, px | 0 <= py < height && 0 <= px < width :: pixels[py, px] == TransparentBlack
    {
      height := h;
      pixels := new Rgba[h, width]((_, _) => TransparentBlack);
    }

    /** `fillRect(x, y, w, h)` with an opaque fill style: every pixel of the rectangle that
        lies on the canvas takes `color`, every other pixel keeps its colour. */
    method FillRect(x: int, y: int, w: nat, h: nat, color: Rgba)
      requires Valid()
      modifies pixels
      ensures forall py, px | 0 <= py < height && 0 <= px < width ::
        pixels[py, px] == if x <= px < x + w && y <= py < y + h then color else old(pixels[py, px])
    {
      forall py, px | 0 <= py < height && 0 <= px < width && x <= px < x + w && y <= py < y + h {
        pixels[py, px] := color;
      }
    }

    /** `clip()` to the disc of `g` followed by `drawImage(img, x, y, logoSize, logoSize)`:
        only pixels inside the clip are painted; every pixel outside it keeps its colour. */
    method DrawImageClipped(img: Image, g: Placement)
      requires Valid()
      modifies pixels
      ensures forall py, px | 0 <= py < height && 0 <= px < width ::
        pixels[py, px] == if InClip(g, px, py) then img.paint(g, px, py, old(pixels[py, px])) else old(pixels[py, px])
    {
      forall py, px | 0 <= py < height && 0 <= px < width && InClip(g, px, py) {
        pixels[py, px] := img.paint(g, px, py, pixels[py, px]);
      }
    }
  }
}
