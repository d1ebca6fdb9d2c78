/** The generator page under `/qr`, a second copy of the root page. Its state and
    handlers are the same; its `drawQrCode` takes a third argument, `logoSize`, which the
    logo branch shadows with its own `logoSize`, so the argument never matters. */
module QrRoutePage {
  import opened Wrappers
  import opened QrCodes
  import opened Geometry
  import opened Canvas
  import opened Render
  import opened Session

  class QrCodeGenerator {
    var qrText: string
    var logoUrl: Option<string>
    var logoSizePct: int
    var error: string
    var qr: Option<QrCode>
    /** The canvas element behind `canvasRef`. */
    const canvas: Canvas
    /** The encoder library and the browser's image decoder. */
    const encode: Encoder
    const load: Loader
    /** The last drawing pass the canvas received, if any. */
    ghost var shown: Option<Drawing>

    function State(): Session.State
      reads this
    {
      Session.State(qrText, logoUrl, logoSizePct, error, qr)
    }

    /** The canvas is sized and painted for the last pass, and that pass is the stored
        symbol with the current logo and size. */
    ghost predicate Valid()
      reads this, canvas, canvas.pixels
    {
      canvas.Valid() && MinPct <= logoSizePct <= MaxPct &&
      Current(State(), shown) &&
      (shown.Some? ==> Shows(canvas, shown.value, load))
    }

    constructor (encode: Encoder, load: Loader)
      ensures Valid() && State() == Initial && shown == None
      ensures fresh(canvas) && this.encode == encode && this.load == load
    {
      qrText, logoUrl, logoSizePct, error, qr := "", None, 20, "", None;
      canvas := new Canvas();
      this.encode, this.load := encode, load;
      shown := None;
    }

    /** `drawQrCode(qrObj, logoUrlVal, logoSize)`: the pass uses the component's
        `logoSizePct` whatever `logoSize` is passed. */
    method DrawQrCode(qrObj: QrCode, logoUrlVal: Option<string>, logoSize: int)
      requires canvas.Valid()
      modifies canvas
      ensures fresh(canvas.pixels)
      ensures Shows(canvas, Drawing(qrObj, logoUrlVal, logoSizePct), load)
    {
      Draw(canvas, qrObj, logoUrlVal, logoSizePct, load);
    }

    /** `handleGenerate`: the form's submit handler. */
    method HandleGenerate()
      requires Valid()
      modifies this, canvas
      ensures Valid()
      ensures State() == Generate(old(State()), encode).next
      ensures shown == ShownAfter(old(shown), Generate(old(State()), encode))
      ensures Generate(old(State()), encode).redraw.None? ==> unchanged(canvas) && unchanged(canvas.pixels)
    {
      error := "";
      if qrText == [] {
        error := EmptyTextError;
        return;
      }
      var result := encode(RequestFor(qrText));
      match result {
        case Success(qrObj) =>
          qr := Some(qrObj);
          DrawQrCode(qrObj, logoUrl, logoSizePct);
          shown := Some(Drawing(qrObj, logoUrl, logoSizePct));
        case Failure(message) =>
          error := FailurePrefix + message;
      }
    }

    /** The effect that runs after the logo or its size changed: redraw from the stored
        symbol, if there is one, without encoding anything. */
    method RedrawEffect()
      requires canvas.Valid() && MinPct <= logoSizePct <= MaxPct
      requires shown.Some? ==> Shows(canvas, shown.value, load)
      modifies this`shown, canvas
      ensures Valid()
      ensures qr.Some? ==> shown == Some(Drawing(qr.value, logoUrl, logoSizePct))
      ensures qr.None? ==> shown == old(shown) && unchanged(canvas) && unchanged(canvas.pixels)
    {
      if qr.Some? {
        DrawQrCode(qr.value, logoUrl, logoSizePct);
        shown := Some(Drawing(qr.value, logoUrl, logoSizePct));
      }
    }

    /** The text input's `onChange`. */
    method SetQrText(text: string)
      requires Valid()
      modifies this`qrText
      ensures Valid() && State() == EditText(old(State()), text).next
    {
      qrText := text;
    }

    /** `setLogoUrl`, from a finished upload or the "Remove logo" button, and the effect it triggers. */
    method SetLogoUrl(url: Option<string>)
      requires Valid()
      modifies this, canvas
      ensures Valid()
      ensures State() == Session.SetLogoUrl(old(State()), url).next
      ensures shown == ShownAfter(old(shown), Session.SetLogoUrl(old(State()), url))
      ensures Session.SetLogoUrl(old(State()), url).redraw.None? ==> unchanged(canvas) && unchanged(canvas.pixels)
    {
      var changed := url != logoUrl;
      logoUrl := url;
      if changed {
        RedrawEffect();
      }
    }

    /** `setLogoSizePct` from the slider's `onChange`, and the effect it triggers. */
    method SetLogoSizePct(raw: int)
      requires Valid()
      modifies this, canvas
      ensures Valid()
      ensures State() == Session.SetLogoSizePct(old(State()), raw).next
      ensures shown == ShownAfter(old(shown), Session.SetLogoSizePct(old(State()), raw))
      ensures Session.SetLogoSizePct(old(State()), raw).redraw.None? ==> unchanged(canvas) && unchanged(canvas.pixels)
    {
      var pct := SliderValue(raw);
      var changed := pct != logoSizePct;
      logoSizePct := pct;
      if changed {
        RedrawEffect();
      }
    }
  }
}
