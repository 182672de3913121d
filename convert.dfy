/** `text2png(text, options)`: resolve the options, register a local font
    when one is named, render, and hand the result over in the requested
    output form. */
module Convert {
  import opened Values
  import opened Options
  import opened Metrics
  import opened Layout
  import opened Surface
  import opened Drawing

  /** The encoded PNG, described by the canvas it is encoded from. */
  datatype Image = Image(width: real, height: real, ops: seq<Op>)

  /** The four output forms: a PNG buffer, a readable PNG stream, a
      `data:image/png` URL, or the canvas itself. */
  datatype Output =
    | PngBuffer(png: Image)
    | PngStream(png: Image)
    | DataUrl(png: Image)
    | CanvasHandle(canvas: Canvas)

  /** The two errors `text2png` throws. */
  datatype Failure =
    | FontLoadFailed(path: JsValue, reason: string)
    | UnsupportedOutput(output: JsValue)

  /** Font registration: the font file path and family name in, the error
      message out when the file cannot be loaded. */
  type Registrar = (JsValue, JsValue) -> Option<string>

  const OutputNames: set<JsValue> := {Str("buffer"), Str("stream"), Str("dataURL"), Str("canvas")}

  /** The `output` option value that selects each form. */
  function Kind(o: Output): JsValue {
    match o
    case PngBuffer(_) => Str("buffer")
    case PngStream(_) => Str("stream")
    case DataUrl(_) => Str("dataURL")
    case CanvasHandle(_) => Str("canvas")
  }

  /** The `output` switch. */
  function Dispatch(output: JsValue, image: Image, canvas: Canvas): (r: Result<Output, Failure>)
    ensures r.Ok? <==> output in OutputNames
    ensures r.Ok? ==> Kind(r.value) == output
    ensures r.Ok? && r.value.CanvasHandle? ==> r.value.canvas == canvas
    ensures r.Ok? && !r.value.CanvasHandle? ==> r.value.png == image
    ensures r.Err? ==> r.error == UnsupportedOutput(output)
  {
    if output == Str("buffer") then Ok(PngBuffer(image))
    else if output == Str("stream") then Ok(PngStream(image))
    else if output == Str("dataURL") then Ok(DataUrl(image))
    else if output == Str("canvas") then Ok(CanvasHandle(canvas))
    else Err(UnsupportedOutput(output))
  }

  /** A registration is attempted only when both the font path and the
      font name are truthy; the result is its error message, if any. */
  function FontAttempt(c: Config, register: Registrar): Option<string> {
    if Truthy(c.localFontPath) && Truthy(c.localFontName) then register(c.localFontPath, c.localFontName)
    else None
  }

  /** `text2png(text, options)`. Either the font registration fails and
      nothing is drawn, or the text is rendered on a fresh canvas and the
      output switch decides between a result and an unsupported-output
      error. */
  method Text2Png(text: string, options: Bag, measure: Measurer, register: Registrar)
    returns (r: Result<Output, Failure>, surface: Canvas?)
    requires ParseOptions(options).Numeric()
    ensures var c := ParseOptions(options); var attempt := FontAttempt(c, register);
      attempt.Some? ==> r == Err(FontLoadFailed(c.localFontPath, attempt.value)) && surface == null
    ensures var c := ParseOptions(options); var f := FrameOf(text, c, measure);
      FontAttempt(c, register).None? ==>
        surface != null && fresh(surface) &&
        surface.width == f.geom.width && surface.height == f.geom.height && surface.ops == Trace(c, f) &&
        r == Dispatch(c.output, Image(f.geom.width, f.geom.height, Trace(c, f)), surface)
  {
    var c := ParseOptions(options);
    if Truthy(c.localFontPath) && Truthy(c.localFontName) {
      var failure := register(c.localFontPath, c.localFontName);
      if failure.Some? {
        r := Err(FontLoadFailed(c.localFontPath, failure.value));
        surface := null;
        return;
      }
    }
    var canvas := Render(text, c, measure);
    surface := canvas;
    r := Dispatch(c.output, Image(canvas.width, canvas.height, canvas.ops), canvas);
  }

  /** A non-numeric value as a template literal writes it. */
  function Show(v: JsValue): string
    requires !v.Num?
  {
    match v
    case Undefined => "undefined"
    case Null => "null"
    case Bool(b) => if b then "true" else "false"
    case Str(s) => s
  }

  predicate Showable(e: Failure) {
    match e
    case FontLoadFailed(path, _) => !path.Num?
    case UnsupportedOutput(output) => !output.Num?
  }

  /** The thrown error's message. */
  function Message(e: Failure): string
    requires Showable(e)
  {
    match e
    case FontLoadFailed(path, reason) =>
      "Failed to load local font from path: " + Show(path) + ", error: " + reason
    case UnsupportedOutput(output) =>
      "output type:" + Show(output) + " is not supported."
  }

  /** `t` occurs in `s` starting at offset `i`. */
  predicate OccursAt(s: string, t: string, i: nat) {
    i + |t| <= |s| && s[i..i + |t|] == t
  }

  /** The font failure message starts with a fixed phrase, then names the
      font path and ends with the loader's own message. */
  lemma FontFailureMessage(path: JsValue, reason: string)
    requires !path.Num?
    ensures var m := Message(FontLoadFailed(path, reason));
      OccursAt(m, "Failed to load local font from path: ", 0) &&
      OccursAt(m, Show(path), 37) &&
      OccursAt(m, reason, |m| - |reason|)
  {
    var head := "Failed to load local font from path: ";
    var m := head + Show(path) + ", error: " + reason;
    assert |head| == 37 && m[..37] == head;
    assert m[37..37 + |Show(path)|] == Show(path);
    assert m[|m| - |reason|..] == reason;
  }

  /** The unsupported-output message names the rejected value right after
      `output type:`. */
  lemma OutputFailureMessage(output: JsValue)
    requires !output.Num?
    ensures var m := Message(UnsupportedOutput(output));
      OccursAt(m, "output type:", 0) &&
      OccursAt(m, Show(output), 12) &&
      OccursAt(m, " is not supported.", |m| - 18)
  {
    var head := "output type:";
    var m := head + Show(output) + " is not supported.";
    assert |head| == 12 && m[..12] == head;
    assert m[12..12 + |Show(output)|] == Show(output);
    assert m[|m| - 18..] == " is not supported.";
  }
}
