/** One whole `drawQrCode` pass: size the canvas for the symbol, paint the white
    background, paint the module blocks, then, when a logo is set and its image
    decodes, draw it clipped to the centred disc. */
module Render {
  import opened Wrappers
  import opened QrCodes
  import opened Geometry
  import opened Canvas
  import opened Raster

  /** Decodes the image behind a logo URL (a data URL from the upload); `None` when the
      browser cannot decode it, in which case its `onload` never fires. */
  type Loader = string -> Option<Image>

  /** The inputs of one drawing pass: the symbol, the logo URL and the logo size percentage. */
  datatype Drawing = Drawing(qr: QrCode, logoUrl: Option<string>, logoSizePct: int)

  /** The logo bitmap a pass draws: only a non-empty URL (an empty string is falsy in the
      source's `if (logoUrlVal)`) whose image decodes. */
  function LogoOf(d: Drawing, load: Loader): (img: Option<Image>)
    ensures img.Some? ==> d.logoUrl.Some? && d.logoUrl.value != [] && load(d.logoUrl.value) == img
    ensures d.logoUrl.Some? && d.logoUrl.value != [] ==> img == load(d.logoUrl.value)
  {
    match d.logoUrl
    case Some(url) => if url != [] then load(url) else None
    case None => None
  }

  /** The placement of the logo for a pass, from the canvas side and the percentage. */
  function Overlay(d: Drawing): Placement
  {
    Place(CanvasSide(d.qr.size), d.logoSizePct)
  }

  /** The colour pixel (px, py) has at the end of a pass. */
  function FinalPixel(d: Drawing, load: Loader, px: int, py: int): (c: Rgba)
    // the logo is confined to the clip disc: outside it the module raster shows through
    ensures !InClip(Overlay(d), px, py) ==> c == RasterColor(d.qr, px, py)
    // without a logo the pass is the pure module raster
    ensures LogoOf(d, load).None? ==> c == RasterColor(d.qr, px, py)
    // inside the disc the logo is composited over the module colour
    ensures LogoOf(d, load).Some? && InClip(Overlay(d), px, py) ==>
      c == LogoOf(d, load).value.paint(Overlay(d), px, py, RasterColor(d.qr, px, py))
  {
    var base := RasterColor(d.qr, px, py);
    match LogoOf(d, load)
    case None => base
    case Some(img) => if InClip(Overlay(d), px, py) then img.paint(Overlay(d), px, py, base) else base
  }

  /** The canvas holds the result of pass `d`. */
  ghost predicate Shows(canvas: Canvas, d: Drawing, load: Loader)
    reads canvas, canvas.pixels
  {
    canvas.Valid() &&
    canvas.width == CanvasSide(d.qr.size) && canvas.height == CanvasSide(d.qr.size) &&
    forall py, px | 0 <= py < canvas.height && 0 <= px < canvas.width ::
      canvas.pixels[py, px] == FinalPixel(d, load, px, py)
  }

  /** A logo changes only the pixels inside its clip disc: everywhere else the pass is
      pixel-identical to the same pass without a logo. */
  lemma LogoChangesOnlyDisc(d: Drawing, load: Loader, px: int, py: int)
    requires !InClip(Overlay(d), px, py)
    ensures FinalPixel(d, load, px, py) == FinalPixel(d.(logoUrl := None), load, px, py)
  {
  }

  /** Within the slider bounds every pixel the logo may paint lies on the canvas, with
      its centre in the logo square. */
  lemma LogoPixelsInSquare(d: Drawing, px: int, py: int)
    requires MinPct <= d.logoSizePct <= MaxPct
    requires InClip(Overlay(d), px, py)
    ensures InSquare(Overlay(d), PixelCentre(px), PixelCentre(py))
    ensures 0 <= px < CanvasSide(d.qr.size) && 0 <= py < CanvasSide(d.qr.size)
  {
    var side := CanvasSide(d.qr.size);
    DiscInSquare(side, d.logoSizePct, PixelCentre(px), PixelCentre(py));
    LogoFitsCanvas(side, d.logoSizePct);
  }

  /** `drawQrCode`: set the canvas size (which clears it), paint it white, paint the module
      blocks, then draw the logo through the clip disc when there is one to draw. */
  method Draw(canvas: Canvas, qrObj: QrCode, logoUrlVal: Option<string>, logoSizePct: int, load: Loader)
    requires canvas.Valid()
    modifies canvas
    ensures fresh(canvas.pixels)
    ensures Shows(canvas, Drawing(qrObj, logoUrlVal, logoSizePct), load)
  {
    var size := (qrObj.size + Border * 2) * Scale;
    canvas.SetWidth(size);
    canvas.SetHeight(size);
    PaintBackground(canvas, size);
    PaintModules(canvas, qrObj);
    if logoUrlVal.Some? && logoUrlVal.value != [] {
      var img := load(logoUrlVal.value);
      if img.Some? {
        // the image's onload handler
        var g := Place(size, logoSizePct);
        canvas.DrawImageClipped(img.value, g);
      }
    }
  }
}
