/** The 2D drawing context `text2png` paints on, reduced to what the
    pipeline observes: its settable state, a measuring call, and the
    sequence of drawing calls made on it. Pixels are not modelled. */
module Surface {
  import opened Values
  import opened Metrics

  /** One drawing call, together with the context state it was drawn with. */
  datatype Op =
    | FillRect(x: real, y: real, w: real, h: real, style: JsValue)
    | ClearRect(x: real, y: real, w: real, h: real)
    | FillText(text: string, x: real, y: real, font: JsValue, style: JsValue, align: JsValue)
    | StrokeText(text: string, x: real, y: real, font: JsValue, style: JsValue, lineWidth: JsValue, align: JsValue)

  /** A canvas together with its 2D context. */
  class Canvas {
    const measurer: Measurer
    var width: real
    var height: real
    var font: JsValue
    var fillStyle: JsValue
    var strokeStyle: JsValue
    var lineWidth: JsValue
    var textAlign: JsValue
    var imageSmoothingEnabled: JsValue
    var antialias: string
    /** Every drawing call made so far, oldest first. */
    var ops: seq<Op>

    /** `createCanvas(width, height).getContext("2d")`: nothing drawn yet,
        and the context starts in the 2D canvas's initial state. */
    constructor (width: real, height: real, measurer: Measurer)
      ensures this.width == width && this.height == height && this.measurer == measurer
      ensures ops == []
    {
      this.width := width;
      this.height := height;
      this.measurer := measurer;
      font := Str("10px sans-serif");
      fillStyle := Str("#000000");
      strokeStyle := Str("#000000");
      lineWidth := Num(1.0);
      textAlign := Str("start");
      imageSmoothingEnabled := Bool(true);
      antialias := "default";
      ops := [];
    }

    /** `ctx.measureText(text)`, under the font currently set. */
    method MeasureText(text: string) returns (m: TextMetrics)
      ensures m == measurer(text, font)
    {
      m := measurer(text, font);
    }

    /** `ctx.fillRect(x, y, w, h)` with the current fill style. */
    method FillRect(x: real, y: real, w: real, h: real)
      modifies this`ops
      ensures ops == old(ops) + [Op.FillRect(x, y, w, h, fillStyle)]
    {
      ops := ops + [Op.FillRect(x, y, w, h, fillStyle)];
    }

    /** `ctx.clearRect(x, y, w, h)` */
    method ClearRect(x: real, y: real, w: real, h: real)
      modifies this`ops
      ensures ops == old(ops) + [Op.ClearRect(x, y, w, h)]
    {
      ops := ops + [Op.ClearRect(x, y, w, h)];
    }

    /** `ctx.fillText(text, x, y)` with the current font, fill style and
        alignment. */
    method FillText(text: string, x: real, y: real)
      modifies this`ops
      ensures ops == old(ops) + [Op.FillText(text, x, y, font, fillStyle, textAlign)]
    {
      ops := ops + [Op.FillText(text, x, y, font, fillStyle, textAlign)];
    }

    /** `ctx.strokeText(text, x, y)` with the current font, stroke style,
        line width and alignment. */
    method StrokeText(text: string, x: real, y: real)
      modifies this`ops
      ensures ops == old(ops) + [Op.StrokeText(text, x, y, font, strokeStyle, lineWidth, textAlign)]
    {
      ops := ops + [Op.StrokeText(text, x, y, font, strokeStyle, lineWidth, textAlign)];
    }
  }

  /** What a point of the canvas shows after the rectangle calls. */
  datatype Paint = Transparent | Color(style: JsValue)

  /** The rectangle at (x, y) of size w by h contains the point (px, py). */
  predicate Covers(x: real, y: real, w: real, h: real, px: real, py: real) {
    x <= px < x + w && y <= py < y + h
  }

  /** The paint left at (px, py) by the rectangle calls of `ops`, starting
      from a transparent canvas; a later rectangle paints over an earlier
      one. Glyph coverage of text calls is not modelled. */
  function PaintAt(ops: seq<Op>, px: real, py: real): Paint
    decreases |ops|
  {
    if |ops| == 0 then Transparent
    else
      var before := PaintAt(ops[..|ops| - 1], px, py);
      match ops[|ops| - 1]
      case FillRect(x, y, w, h, style) => if Covers(x, y, w, h, px, py) then Color(style) else before
      case ClearRect(x, y, w, h) => if Covers(x, y, w, h, px, py) then Transparent else before
      case _ => before
  }
}
