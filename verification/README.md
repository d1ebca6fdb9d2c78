# QR code generator with logo overlay — a Dafny model

The repository is a small Next.js site that turns text into a QR code on an HTML
canvas and can overlay an uploaded logo, clipped to a circle, at a size chosen with a
slider. Two page components, the root page (`src/app/page.tsx`) and a second copy
under `/qr` (`src/app/qr/page.tsx`), hold the same logic. This project models that
logic:

- the **rasterizer** in `drawQrCode`: the canvas is sized `(size + 2·4)·10` pixels,
  painted white, then one 10×10 block per module coordinate in `[-4, size + 4)²` is
  painted black or white (`raster.dfy`, over the canvas class of `canvas.dfy`);
- the **logo placement and clip** in `drawQrCode`: the logo side `side·pct/100`, the
  centred square origin and the inscribed clip disc (`geometry.dfy`), and a logo draw
  that touches only pixels inside the disc (`canvas.dfy`, `render.dfy`);
- the **generate/redraw state machine**: `handleGenerate`, the redraw effect that
  follows a change of logo or size, and the setters that trigger it (`session.dfy` as
  pure steps, `home_page.dfy` and `qr_route_page.dfy` as the two components, each a
  class whose methods are proved against those steps).

The QR encoder is a parameter: a function from the call's arguments to either a
symbol (version, side length, error-correction level, mask and a total module
accessor) or the message of the error it throws (`qr_codes.dfy`). The browser's image
decoder is a parameter too, and so is the colour a decoded logo paints at a pixel
(resampling and alpha compositing are the browser's).

Geometry is exact. The source computes in floating point; the model counts lengths in
units of 1/200 pixel, in which the logo side `side·pct/100`, its origin, the disc
centre `side/2`, its radius and every pixel centre `p + 1/2` are whole numbers for an
integer side and percentage, so nothing is rounded. `Geometry.Place` states the
logo side and the disc centre in pixels as reals. A pixel counts as inside the clip
when its centre lies in the closed disc (distance ≤ radius).

Points of the code's behaviour worth noting:
the code computes the logo side as `side·pct/100` with no rounding; on a change of
logo or size it re-runs the whole pass, rasterizer included, from the stored symbol
(it never re-encodes); an empty logo URL counts as no logo (`if (logoUrlVal)`); a
logo whose image fails to decode is never drawn (its `onload` never fires). The
text input is `required` (`src/app/page.tsx:123`) inside the form whose submit handler
is `handleGenerate` (`src/app/page.tsx:115`), so the browser's form validation keeps an
empty text from reaching the handler; its empty-text branch, which the model keeps, is
defensive. The `/qr` page's comment at `src/app/qr/page.tsx:70` says level H, but the code passes
MEDIUM, and the model follows the code.

## Model

| member | source | states |
|---|---|---|
| QrCodes.RequestFor | src/app/page.tsx:67-75 | every encode request carries the typed text, error correction MEDIUM (not HIGH), versions 1 to 40, automatic mask (-1) and boosted ECC |
| Geometry.Place | src/app/page.tsx:42-47 | the logo side is pct percent of the canvas side; the disc centre is the canvas centre; the square's origin puts its centre on the disc centre; the disc's diameter equals the square's side |
| Geometry.DiscInSquare | src/app/page.tsx:43-47 | every point of the clip disc lies in the logo square (the disc is inscribed in it) |
| Geometry.LogoFitsCanvas | src/app/page.tsx:141-147 | for a percentage within the slider's bounds 10..40, the logo side is between a tenth and two fifths of the canvas side and the logo square lies inside the canvas |
| Geometry.RadiusIncreasing | src/app/page.tsx:42-47 | on a non-empty canvas, the clip radius is strictly increasing in the percentage |
| Geometry.DiscsNested | src/app/page.tsx:42-47 | the clip disc for a smaller percentage lies inside the disc for a larger one |
| Canvas.Canvas.constructor | src/app/page.tsx:155-161 | the canvas starts at 256×256 pixels, all transparent |
| Canvas.Canvas.SetWidth | src/app/page.tsx:24 | setting the width resizes the buffer and clears every pixel |
| Canvas.Canvas.SetHeight | src/app/page.tsx:25 | setting the height resizes the buffer and clears every pixel |
| Canvas.Canvas.FillRect | src/app/page.tsx:29-30 | pixels of the rectangle on the canvas take the fill colour; all other pixels keep theirs |
| Canvas.Canvas.DrawImageClipped | src/app/page.tsx:45-51 | only pixels inside the clip disc are painted by the logo; every pixel outside keeps its colour |
| Raster.RasterColor | src/app/page.tsx:34-35 | a rastered pixel is black or white, and black exactly when module (⌊px/10⌋ − 4, ⌊py/10⌋ − 4) is dark |
| Raster.CanvasSideInBlocks | src/app/page.tsx:19-25 | the canvas side is an exact multiple of 10, namely `size + 8` blocks |
| Raster.BlockOfIsUnique | src/app/page.tsx:35 | a pixel lies in the block of module coordinate m exactly when m is ⌊p/10⌋ − 4 |
| Raster.Tiling | src/app/page.tsx:32-37 | the blocks tile the canvas: each pixel lies in exactly one block, whose coordinate is in [-4, size + 4), and every pixel of every block with such a coordinate lies on the canvas |
| Raster.BlockIsUniform | src/app/page.tsx:34-35 | every pixel of module (x, y)'s block has that module's colour |
| Raster.QuietZoneIsWhite | src/app/page.tsx:32-35 | if the encoder reports modules outside the symbol as light, the outer 40 pixels on all four edges are white |
| Raster.PaintBackground | src/app/page.tsx:28-30 | before any module is drawn, every pixel of the canvas is white |
| Raster.PaintModules | src/app/page.tsx:31-37 | after the module loop every pixel has the colour of the module whose block covers it |
| Render.LogoOf | src/app/page.tsx:39-53 | a logo is drawn only for a non-empty URL whose image decodes, and then it is that image |
| Render.FinalPixel | src/app/page.tsx:39-54 | outside the clip disc, and everywhere when there is no logo, a pixel has its module colour; inside the disc the logo is composited over the module colour |
| Render.LogoChangesOnlyDisc | src/app/page.tsx:45-51 | outside the clip disc the pass with a logo is pixel-identical to the pass without one |
| Render.LogoPixelsInSquare | src/app/page.tsx:42-50 | within the slider bounds every pixel the logo may paint is on the canvas and in the logo square |
| Render.Draw | src/app/page.tsx:17-55 | after a pass the canvas is `(size + 8)·10` pixels square and every pixel is the pass's final colour |
| Session.SliderValue | src/app/page.tsx:141-147 | the slider's value is always within 10..40, and any value already in range is kept |
| Session.Generate | src/app/page.tsx:58-81 | empty text sets the "enter text" error and keeps the symbol; a failed encode sets the prefixed error message and keeps the previous symbol; a successful encode of non-empty text stores that symbol, clears the error and redraws from it; the canvas is redrawn exactly when the error ends empty, and only from the encoder's symbol for the text; the logo and size are untouched |
| Session.EditText | src/app/page.tsx:121 | typing changes only the text and draws nothing |
| Session.SetLogoUrl | src/app/page.tsx:84-89 | a logo change keeps the symbol and error; it redraws exactly when the URL changed and a symbol is stored, and then from the stored symbol |
| Session.SetLogoSizePct | src/app/qr/page.tsx:84-89 | a size change stores the slider value; it redraws exactly when the value changed and a symbol is stored, and then from the stored symbol |
| Session.ParamChangeNeverEncodes | src/app/page.tsx:83-89 | a change of logo or size gives the same step whatever the encoder, keeps the symbol, and redraws only from the stored symbol |
| Session.StepKeepsCanvasCurrent | src/app/page.tsx:58-89 | after any action, if a symbol is stored the last pass drawn is of it with the current logo and size, which stays within 10..40 |
| Session.SessionKeepsCanvasCurrent | src/app/qr/page.tsx:58-89 | the same holds after any sequence of actions |
| Session.OnlySuccessReplacesSymbol | src/app/page.tsx:65-80 | the stored symbol changes only on a submission whose encode succeeds, and then to the encoder's symbol |
| HomePage.QrCodeGenerator.constructor | src/app/page.tsx:9-14 | the page starts with no text, no logo, 20 %, no error and no symbol |
| HomePage.QrCodeGenerator.DrawQrCode | src/app/page.tsx:17-55 | the canvas shows the pass for the given symbol and URL at the component's logo size |
| HomePage.QrCodeGenerator.HandleGenerate | src/app/page.tsx:58-81 | the new state is `Session.Generate`'s; the canvas shows the new symbol after a success and is untouched otherwise |
| HomePage.QrCodeGenerator.RedrawEffect | src/app/page.tsx:84-89 | with a stored symbol the canvas is redrawn from it with the current logo and size; without one nothing changes |
| HomePage.QrCodeGenerator.SetQrText | src/app/page.tsx:121 | the new state is `Session.EditText`'s |
| HomePage.QrCodeGenerator.SetLogoUrl | src/app/page.tsx:103-110 | the new state is `Session.SetLogoUrl`'s, and the canvas is redrawn exactly when that step says so |
| HomePage.QrCodeGenerator.SetLogoSizePct | src/app/page.tsx:141-147 | the new state is `Session.SetLogoSizePct`'s, and the canvas is redrawn exactly when that step says so |
| QrRoutePage.QrCodeGenerator.constructor | src/app/qr/page.tsx:9-14 | the page starts with no text, no logo, 20 %, no error and no symbol |
| QrRoutePage.QrCodeGenerator.DrawQrCode | src/app/qr/page.tsx:17-55 | the canvas shows the pass at the component's logo size, whatever `logoSize` argument is passed |
| QrRoutePage.QrCodeGenerator.HandleGenerate | src/app/qr/page.tsx:58-81 | the new state is `Session.Generate`'s; the canvas shows the new symbol after a success and is untouched otherwise |
| QrRoutePage.QrCodeGenerator.RedrawEffect | src/app/qr/page.tsx:84-89 | with a stored symbol the canvas is redrawn from it with the current logo and size; without one nothing changes |
| QrRoutePage.QrCodeGenerator.SetQrText | src/app/qr/page.tsx:121 | the new state is `Session.EditText`'s |
| QrRoutePage.QrCodeGenerator.SetLogoUrl | src/app/qr/page.tsx:103-110 | the new state is `Session.SetLogoUrl`'s, and the canvas is redrawn exactly when that step says so |
| QrRoutePage.QrCodeGenerator.SetLogoSizePct | src/app/qr/page.tsx:141-147 | the new state is `Session.SetLogoSizePct`'s, and the canvas is redrawn exactly when that step says so |

## Left out

- The QR encoder (segment building, UTF-8 conversion of the text, error correction, masking, version choice): only its declared interface in `src/typescript-javascript/qrcodegen.d.ts` is available; it is a parameter of the model.
- Browser pixel semantics beyond `fillRect`: anti-aliasing at the disc's rim, resampling and stretching of the logo bitmap, alpha blending, and `save`/`restore`. The logo's contribution is an abstract function of the pixel and the colour under it; the clip is "pixel centre in the closed disc".
- Asynchrony: the `FileReader` upload and the image's `onload` are treated as completing synchronously, in order, inside the step that starts them; the race between two pending loads is not modelled. React's scheduling is reduced to "the effect runs after a setter changed its value".
- `handleDownload` (PNG export through `toDataURL` and a temporary anchor): foreign DOM calls.
- The page layout, metadata and analytics (`src/app/layout.tsx`, `src/app/JsonLd.tsx`) and the JSX markup: no logic.
- The null guards on `canvasRef.current` and `getContext("2d")`: the canvas is always present in the model.
- `Canvas.Canvas.FillRect`: takes a non-negative width and height only; the browser's normalisation of negative sizes is not modelled, since every call passes positive sizes.
- The error text for a thrown value that is not an `Error` (`String(err)` on the root page, `undefined` on the `/qr` page): the encoder only throws errors with messages.
