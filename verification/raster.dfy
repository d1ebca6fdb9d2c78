/** The module rasterizer: a square grid of modules, with a quiet-zone border,
    becomes a square pixel buffer of solid `Scale`-pixel blocks. */
module Raster {
  import opened QrCodes
  import opened Canvas

  /** Pixels per module. */
  const Scale: int := 10
  /** Modules of quiet zone drawn on each side of the symbol. */
  const Border: int := 4

  /** The canvas side, in pixels, for a symbol of `size` modules. */
  function CanvasSide(size: int): int
  {
    (size + Border * 2) * Scale
  }

  /** The module coordinate whose block covers pixel column (or row) `p`. */
  function BlockOf(p: int): int
  {
    p / Scale - Border
  }

  /** Pixel column (or row) `p` lies in the block of module coordinate `m`,
      the span `[(m + Border)·Scale, (m + Border + 1)·Scale)`. */
  predicate InBlock(m: int, p: int)
  {
    (m + Border) * Scale <= p < (m + Border + 1) * Scale
  }

  /** The fill colour of a module. */
  function ModuleColor(dark: bool): Rgba
  {
    if dark then Black else White
  }

  /** The colour of pixel (px, py) once every module block has been painted. */
  function RasterColor(qr: QrCode, px: int, py: int): (c: Rgba)
    ensures c == Black || c == White
    ensures c == Black <==> qr.getModule(px / Scale - Border, py / Scale - Border)
  {
    ModuleColor(qr.getModule(BlockOf(px), BlockOf(py)))
  }

  /** The canvas side is a whole number of blocks: one per module and quiet-zone module. */
  lemma CanvasSideInBlocks(size: nat)
    ensures CanvasSide(size) % Scale == 0 && CanvasSide(size) / Scale == size + 2 * Border
  {
  }

  /** A pixel lies in a block exactly when that block is the one `BlockOf` names. */
  lemma BlockOfIsUnique(m: int, p: int)
    ensures InBlock(m, p) <==> m == BlockOf(p)
  {
    var q := p / Scale;
    assert q * Scale <= p < (q + 1) * Scale;
  }

  /** The blocks tile the canvas exactly: every pixel of a canvas for `size` modules lies in
      one and only one block, and that block's coordinate is in `[-Border, size + Border)`;
      conversely every block of such a coordinate lies on the canvas. */
  lemma Tiling(size: nat, p: int)
    requires 0 <= p < CanvasSide(size)
    ensures -Border <= BlockOf(p) < size + Border && InBlock(BlockOf(p), p)
    ensures forall m :: InBlock(m, p) ==> m == BlockOf(p)
    ensures forall m, q :: -Border <= m < size + Border && InBlock(m, q) ==> 0 <= q < CanvasSide(size)
  {
    forall m | InBlock(m, p) ensures m == BlockOf(p) {
      BlockOfIsUnique(m, p);
    }
    BlockOfIsUnique(BlockOf(p), p);
  }

  /** Each block is one colour: every pixel of the block of module (mx, my) has the module's colour. */
  lemma BlockIsUniform(qr: QrCode, mx: int, my: int, px: int, py: int)
    requires InBlock(mx, px) && InBlock(my, py)
    ensures RasterColor(qr, px, py) == ModuleColor(qr.getModule(mx, my))
  {
    BlockOfIsUnique(mx, px);
    BlockOfIsUnique(my, py);
  }

  /** When the encoder keeps its promise that modules outside the symbol are light, the
      outer `Border·Scale` pixels on all four edges of the raster are white. */
  lemma QuietZoneIsWhite(qr: QrCode, px: int, py: int)
    requires QuietOutside(qr)
    requires 0 <= px < CanvasSide(qr.size) && 0 <= py < CanvasSide(qr.size)
    requires px < Border * Scale || px >= CanvasSide(qr.size) - Border * Scale ||
             py < Border * Scale || py >= CanvasSide(qr.size) - Border * Scale
    ensures RasterColor(qr, px, py) == White
  {
    assert BlockOf(px) < 0 || BlockOf(px) >= qr.size || BlockOf(py) < 0 || BlockOf(py) >= qr.size;
  }

  /** The background pass: one `fillRect` over the whole canvas in white, so that before
      any module is drawn every pixel is white. */
  method PaintBackground(canvas: Canvas, side: nat)
    requires canvas.Valid() && canvas.width == side && canvas.height == side
    modifies canvas.pixels
    ensures forall py, px | 0 <= py < side && 0 <= px < side :: canvas.pixels[py, px] == White
  {
    canvas.FillRect(0, 0, side, side, White);
  }

  /** The module loop: for every module coordinate (x, y) in `[-Border, size + Border)²`, row
      by row, one `Scale × Scale` block at `((x + Border)·Scale, (y + Border)·Scale)` in the
      module's colour. Afterwards every pixel has the colour of the module whose block covers it. */
  method PaintModules(canvas: Canvas, qr: QrCode)
    requires canvas.Valid() && canvas.width == CanvasSide(qr.size) && canvas.height == CanvasSide(qr.size)
    modifies canvas.pixels
    ensures forall py, px | 0 <= py < canvas.height && 0 <= px < canvas.width ::
      canvas.pixels[py, px] == RasterColor(qr, px, py)
  {
    var side := CanvasSide(qr.size);
    for y := -Border to qr.size + Border
      invariant forall py, px | 0 <= py < (y + Border) * Scale && 0 <= px < side ::
        canvas.pixels[py, px] == RasterColor(qr, px, py)
    {
      for x := -Border to qr.size + Border
        invariant forall py, px | 0 <= py < (y + Border) * Scale && 0 <= px < side ::
          canvas.pixels[py, px] == RasterColor(qr, px, py)
        invariant forall py, px | InBlock(y, py) && 0 <= px < (x + Border) * Scale ::
          canvas.pixels[py, px] == RasterColor(qr, px, py)
      {
        canvas.FillRect((x + Border) * Scale, (y + Border) * Scale, Scale, Scale, ModuleColor(qr.getModule(x, y)));
        forall py, px | InBlock(y, py) && InBlock(x, px)
          ensures RasterColor(qr, px, py) == ModuleColor(qr.getModule(x, y))
        {
          BlockIsUniform(qr, x, y, px, py);
        }
      }
    }
  }
}
