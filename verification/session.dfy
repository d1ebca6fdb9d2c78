/** The page component's state and how each user action changes it: submitting
    the form (`handleGenerate`), editing the text, choosing or removing a logo,
    moving the size slider, and the redraw effect that follows a change of logo
    or size. Each action yields the next state and the symbol the canvas is
    redrawn from, if it is redrawn. */
module Session {
  import opened Wrappers
  import opened QrCodes
  import opened Geometry
  import opened Render

  /** The component's state variables. */
  datatype State = State(
    qrText: string,
    logoUrl: Option<string>,
    logoSizePct: int,
    error: string,
    qr: Option<QrCode>)

  /** The state on first render: no text, no logo, 20 %, no error, no symbol. */
  const Initial: State := State("", None, 20, "", None)

  const EmptyTextError: string := "Please enter text to encode."
  const FailurePrefix: string := "Failed to generate QR code: "

  /** The result of one action: the next state, and the symbol the canvas is redrawn from. */
  datatype Step = Step(next: State, redraw: Option<QrCode>)

  /** The value a range input with `min` 10 and `max` 40 reports: the browser keeps it in bounds. */
  function SliderValue(raw: int): (v: int)
    ensures MinPct <= v <= MaxPct
    ensures MinPct <= raw <= MaxPct ==> v == raw
    ensures raw < MinPct ==> v == MinPct
    ensures raw > MaxPct ==> v == MaxPct
  {
    if raw < MinPct then MinPct else if raw > MaxPct then MaxPct else raw
  }

  /** `handleGenerate`: clear the error; on empty text report it; otherwise encode the text
      and either store and draw the new symbol or report the encoder's error. */
  function Generate(s: State, encode: Encoder): (st: Step)
    // the text and the logo parameters are untouched
    ensures st.next.qrText == s.qrText && st.next.logoUrl == s.logoUrl && st.next.logoSizePct == s.logoSizePct
    // the canvas is redrawn exactly when no error is left to show
    ensures st.redraw.Some? <==> st.next.error == ""
    // what is drawn is what is stored, and it is the encoder's answer for the text
    ensures st.redraw.Some? ==>
      (st.next.qr == st.redraw && s.qrText != [] && encode(RequestFor(s.qrText)) == Success(st.redraw.value))
    // without a redraw the previous symbol is kept
    ensures st.redraw.None? ==> st.next.qr == s.qr
    // a successful encode of non-empty text stores that symbol, clears the error and redraws
    ensures s.qrText != [] && encode(RequestFor(s.qrText)).Success? ==>
      (st.redraw == Some(encode(RequestFor(s.qrText)).value) && st.next.qr == st.redraw && st.next.error == "")
    ensures s.qrText == [] ==> st.next.error == EmptyTextError
    ensures s.qrText != [] && encode(RequestFor(s.qrText)).Failure? ==>
      st.next.error == FailurePrefix + encode(RequestFor(s.qrText)).error
  {
    if s.qrText == [] then
      Step(s.(error := EmptyTextError), None)
    else
      match encode(RequestFor(s.qrText))
      case Success(code) => Step(s.(qr := Some(code), error := ""), Some(code))
      case Failure(message) => Step(s.(error := FailurePrefix + message), None)
  }

  /** The text input's `onChange`: only the text changes; nothing is drawn. */
  function EditText(s: State, text: string): (st: Step)
    ensures st.next.qrText == text && st.redraw.None?
    ensures st.next.logoUrl == s.logoUrl && st.next.logoSizePct == s.logoSizePct
    ensures st.next.error == s.error && st.next.qr == s.qr
  {
    Step(s.(qrText := text), None)
  }

  /** `setLogoUrl` (an upload finishing, or "Remove logo") followed by the redraw effect,
      which runs only when the value changed and redraws only when a symbol is stored. */
  function SetLogoUrl(s: State, url: Option<string>): (st: Step)
    ensures st.next.logoUrl == url
    ensures st.next.qrText == s.qrText && st.next.logoSizePct == s.logoSizePct
    ensures st.next.error == s.error && st.next.qr == s.qr
    ensures st.redraw.Some? <==> url != s.logoUrl && s.qr.Some?
    ensures st.redraw.Some? ==> st.redraw == s.qr
  {
    Step(s.(logoUrl := url), if url != s.logoUrl then s.qr else None)
  }

  /** `setLogoSizePct` from the slider followed by the redraw effect, under the same rule. */
  function SetLogoSizePct(s: State, raw: int): (st: Step)
    ensures st.next.logoSizePct == SliderValue(raw)
    ensures st.next.qrText == s.qrText && st.next.logoUrl == s.logoUrl
    ensures st.next.error == s.error && st.next.qr == s.qr
    ensures st.redraw.Some? <==> SliderValue(raw) != s.logoSizePct && s.qr.Some?
    ensures st.redraw.Some? ==> st.redraw == s.qr
  {
    var pct := SliderValue(raw);
    Step(s.(logoSizePct := pct), if pct != s.logoSizePct then s.qr else None)
  }

  /** A user action on the page. */
  datatype Event = Submit | Type(text: string) | ChooseLogo(url: Option<string>) | Slide(raw: int)

  function Apply(s: State, e: Event, encode: Encoder): Step
  {
    match e
    case Submit => Generate(s, encode)
    case Type(text) => EditText(s, text)
    case ChooseLogo(url) => SetLogoUrl(s, url)
    case Slide(raw) => SetLogoSizePct(s, raw)
  }

  /** Changing the logo or its size never consults the encoder: the step is the same
      whatever the encoder, and any redraw uses the stored symbol. */
  lemma ParamChangeNeverEncodes(s: State, e: Event, encode1: Encoder, encode2: Encoder)
    requires e.ChooseLogo? || e.Slide?
    ensures Apply(s, e, encode1) == Apply(s, e, encode2)
    ensures Apply(s, e, encode1).redraw.Some? ==> Apply(s, e, encode1).redraw == s.qr
    ensures Apply(s, e, encode1).next.qr == s.qr
  {
  }

  /** The canvas is current: when a symbol is stored, the last pass drawn was of that
      symbol with the current logo and size. */
  ghost predicate Current(s: State, shown: Option<Drawing>)
  {
    s.qr.Some? ==> shown == Some(Drawing(s.qr.value, s.logoUrl, s.logoSizePct))
  }

  /** The last pass drawn after a step. */
  function ShownAfter(shown: Option<Drawing>, st: Step): Option<Drawing>
  {
    match st.redraw
    case Some(code) => Some(Drawing(code, st.next.logoUrl, st.next.logoSizePct))
    case None => shown
  }

  /** Every action keeps the canvas current and the logo size within the slider bounds. */
  lemma StepKeepsCanvasCurrent(s: State, shown: Option<Drawing>, e: Event, encode: Encoder)
    requires Current(s, shown) && MinPct <= s.logoSizePct <= MaxPct
    ensures var st := Apply(s, e, encode);
      Current(st.next, ShownAfter(shown, st)) && MinPct <= st.next.logoSizePct <= MaxPct
  {
  }

  /** A session: the state and the last pass drawn after a sequence of actions. */
  function Run(s: State, shown: Option<Drawing>, events: seq<Event>, encode: Encoder): (State, Option<Drawing>)
    decreases |events|
  {
    if events == [] then (s, shown)
    else
      var st := Apply(s, events[0], encode);
      Run(st.next, ShownAfter(shown, st), events[1..], encode)
  }

  /** From the first render on, whatever the user does, whenever a symbol is stored the
      canvas shows it with the current logo and size, which stays within the slider bounds. */
  lemma {:induction false} SessionKeepsCanvasCurrent(s: State, shown: Option<Drawing>, events: seq<Event>, encode: Encoder)
    requires Current(s, shown) && MinPct <= s.logoSizePct <= MaxPct
    ensures Current(Run(s, shown, events, encode).0, Run(s, shown, events, encode).1)
    ensures MinPct <= Run(s, shown, events, encode).0.logoSizePct <= MaxPct
    decreases |events|
  {
    if events != [] {
      var st := Apply(s, events[0], encode);
      StepKeepsCanvasCurrent(s, shown, events[0], encode);
      SessionKeepsCanvasCurrent(st.next, ShownAfter(shown, st), events[1..], encode);
    }
  }

  /** Only a submission replaces the stored symbol, and only with the encoder's answer for
      the text; a failed or empty submission keeps the previous one. */
  lemma OnlySuccessReplacesSymbol(s: State, e: Event, encode: Encoder)
    ensures var st := Apply(s, e, encode);
      st.next.qr != s.qr ==>
        (e.Submit? && s.qrText != [] && encode(RequestFor(s.qrText)).Success? &&
         st.next.qr == Some(encode(RequestFor(s.qrText)).value))
  {
  }
}
