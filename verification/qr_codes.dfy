/** The boundary to the QR encoder library. Only its declared interface is modelled:
    a symbol is a value with a version, a side length in modules and a total
    module accessor; encoding is a partial operation that may throw. */
module QrCodes {
  import opened Wrappers

  /** The four error-correction levels of the library's `QrCode.Ecc`. */
  datatype Ecc = Low | Medium | Quartile | High

  /** The library's `QrCode.MIN_VERSION` and `QrCode.MAX_VERSION`. */
  const MinVersion: int := 1
  const MaxVersion: int := 40

  /** The mask argument that asks the encoder to choose the mask itself. */
  const AutoMask: int := -1

  /** An encoded symbol. `getModule(x, y)` is the colour of module (x, y), dark when true;
      the accessor is total, so it also answers for coordinates outside the symbol. */
  datatype QrCode = QrCode(
    version: int,
    size: nat,
    errorCorrectionLevel: Ecc,
    mask: int,
    getModule: (int, int) -> bool)

  /** The encoder's promise for coordinates outside `[0, size)`: they are light.
      The library keeps this promise; the drawing code relies on it for the quiet zone. */
  ghost predicate QuietOutside(qr: QrCode)
  {
    forall x, y :: !(0 <= x < qr.size && 0 <= y < qr.size) ==> !qr.getModule(x, y)
  }

  /** The arguments of one `encodeSegments` call. The single byte segment is built from
      `text`; its UTF-8 conversion belongs to the encoder side of the boundary. */
  datatype EncodeRequest = EncodeRequest(
    text: string,
    ecl: Ecc,
    minVersion: int,
    maxVersion: int,
    mask: int,
    boostEcl: bool)

  /** The encoder: either a symbol, or the message of the error it throws
      (for instance when the data does not fit in the allowed versions). */
  type Encoder = EncodeRequest -> Result<QrCode, string>

  /** The request both pages send for the text the user typed: medium error
      correction, every version the library supports, automatic mask and boosted ECC. */
  function RequestFor(text: string): (req: EncodeRequest)
    ensures req.text == text
    ensures req.ecl == Medium
    ensures req.minVersion == MinVersion && req.maxVersion == MaxVersion
    ensures req.mask == AutoMask && req.boostEcl
  {
    EncodeRequest(text, Medium, 1, 40, -1, true)
  }
}
