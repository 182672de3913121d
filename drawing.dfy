/** The drawing half of `text2png`: measure every line, size the canvas,
    paint border and background, then draw each line (filled, and stroked
    when a stroke width is set). The drawing calls are specified as a trace
    computed from the measuring pass. */
module Drawing {
  import opened Values
  import opened Options
  import opened Lines
  import opened Metrics
  import opened Layout
  import opened Surface

  /** `hasBorder`: some border width is truthy. */
  predicate HasBorder(c: Config) {
    Truthy(c.borderLeftWidth) || Truthy(c.borderTopWidth) ||
    Truthy(c.borderRightWidth) || Truthy(c.borderBottomWidth)
  }

  /** `options.strokeWidth > 0` */
  predicate Stroked(c: Config)
    requires c.Numeric()
  {
    c.strokeWidth.n > 0.0
  }

  /** The area inside the border, as `(x, y, w, h)`. */
  function Interior(c: Config, g: Geometry): (real, real, real, real)
    requires c.Numeric()
  {
    var b := BorderOf(c);
    (b.left, b.top, g.width - (b.left + b.right), g.height - (b.top + b.bottom))
  }

  /** The border and background calls, in order. */
  function Backdrop(c: Config, g: Geometry): (ops: seq<Op>)
    requires c.Numeric()
    ensures |ops| <= 2
    ensures forall k :: 0 <= k < |ops| ==> ops[k].FillRect? || ops[k].ClearRect?
  {
    var (x, y, w, h) := Interior(c, g);
    (if HasBorder(c) then [FillRect(0.0, 0.0, g.width, g.height, c.borderColor)] else []) +
    (if Truthy(c.backgroundColor) then [FillRect(x, y, w, h, c.backgroundColor)]
     else if HasBorder(c) then [ClearRect(x, y, w, h)]
     else [])
  }

  function FillTextOp(c: Config, f: Frame, i: nat): Op
    requires c.Numeric() && i < |f.props|
  {
    FillText(f.props[i].line, LineX(c, f, i), LineY(c, f, i), c.font, c.textColor, c.textAlign)
  }

  function StrokeTextOp(c: Config, f: Frame, i: nat): Op
    requires c.Numeric() && i < |f.props|
  {
    StrokeText(f.props[i].line, LineX(c, f, i), LineY(c, f, i), c.font, c.strokeColor, c.strokeWidth, c.textAlign)
  }

  /** The calls that draw line `i`. */
  function LineOps(c: Config, f: Frame, i: nat): seq<Op>
    requires c.Numeric() && i < |f.props|
  {
    [FillTextOp(c, f, i)] + (if Stroked(c) then [StrokeTextOp(c, f, i)] else [])
  }

  /** The calls that draw the first `k` lines: two per line when stroked,
      one otherwise. */
  function TextOps(c: Config, f: Frame, k: nat): (ops: seq<Op>)
    requires c.Numeric() && k <= |f.props|
    ensures |ops| == if Stroked(c) then 2 * k else k
    decreases k
  {
    if k == 0 then [] else TextOps(c, f, k - 1) + LineOps(c, f, k - 1)
  }

  /** Every drawing call `text2png` makes for `text`. */
  function Trace(c: Config, f: Frame): (ops: seq<Op>)
    requires c.Numeric()
    ensures |ops| == |Backdrop(c, f.geom)| + (if Stroked(c) then 2 * |f.props| else |f.props|)
    ensures ops[..|Backdrop(c, f.geom)|] == Backdrop(c, f.geom)
  {
    Backdrop(c, f.geom) + TextOps(c, f, |f.props|)
  }

  /** The measuring pass: the font is set before each line is measured,
      the line entries are collected in order, `max` is updated field by
      field, and `lastDescent` ends as the last line's descent. */
  method MeasurePass(canvas: Canvas, lines: seq<string>, font: JsValue)
    returns (lineProps: seq<LineProp>, max: Extents, lastDescent: Option<real>)
    requires |lines| >= 1
    modifies canvas`font
    ensures lineProps == MeasureLines(lines, font, canvas.measurer)
    ensures max == Fold(lineProps)
    ensures lastDescent == Some(lineProps[|lineProps| - 1].descent)
    ensures canvas.font == font
  {
    ghost var props := MeasureLines(lines, font, canvas.measurer);
    max := Zero;
    lastDescent := None;
    lineProps := [];
    var k := 0;
    while k < |lines|
      invariant 0 <= k <= |lines|
      invariant lineProps == props[..k]
      invariant max == Fold(lineProps)
      invariant lastDescent == if k == 0 then None else Some(lineProps[k - 1].descent)
      invariant k > 0 ==> canvas.font == font
    {
      canvas.font := font;
      var metrics := canvas.MeasureText(lines[k]);
      var left := -1.0 * metrics.actualBoundingBoxLeft;
      var right := metrics.actualBoundingBoxRight;
      var ascent := metrics.actualBoundingBoxAscent;
      var descent := metrics.actualBoundingBoxDescent;
      max := Extents(Max(max.left, left), Max(max.right, right), Max(max.ascent, ascent), Max(max.descent, descent));
      lastDescent := Some(descent);
      var prop := LineProp(lines[k], left, right, ascent, descent);
      assert prop == props[k];
      assert (lineProps + [prop])[..k] == lineProps;
      lineProps := lineProps + [prop];
      k := k + 1;
    }
    assert lineProps == props;
  }

  /** The sizing step: line height, content box, and the canvas grown by
      border and padding on each side. */
  method SizeCanvas(canvas: Canvas, c: Config, lineProps: seq<LineProp>, max: Extents, lastDescent: real)
    returns (frame: Frame)
    requires c.Numeric()
    modifies canvas`width, canvas`height
    ensures frame == Frame(lineProps, max, lastDescent,
      ComputeGeometry(max, lastDescent, |lineProps|, c.lineSpacing.n, BorderOf(c), PaddingOf(c)))
    ensures canvas.width == frame.geom.width && canvas.height == frame.geom.height
  {
    var lineHeight := max.ascent + max.descent + c.lineSpacing.n;
    var contentWidth := max.left + max.right;
    var contentHeight := lineHeight * (|lineProps| as real) - c.lineSpacing.n - (max.descent - lastDescent);
    canvas.width := contentWidth + c.borderLeftWidth.n + c.borderRightWidth.n + c.paddingLeft.n + c.paddingRight.n;
    canvas.height := contentHeight + c.borderTopWidth.n + c.borderBottomWidth.n + c.paddingTop.n + c.paddingBottom.n;
    frame := Frame(lineProps, max, lastDescent,
                   Geometry(lineHeight, contentWidth, contentHeight, canvas.width, canvas.height));
  }

  /** The border and background calls: the whole canvas in the border
      colour when there is a border, then the area inside the border filled
      with the background colour, or cleared when there is a border but no
      background. */
  method PaintBackdrop(canvas: Canvas, c: Config, g: Geometry)
    requires c.Numeric() && canvas.width == g.width && canvas.height == g.height
    modifies canvas`fillStyle, canvas`ops
    ensures canvas.ops == old(canvas.ops) + Backdrop(c, g)
    ensures canvas.fillStyle == if Truthy(c.backgroundColor) then c.backgroundColor
                                else if HasBorder(c) then c.borderColor
                                else old(canvas.fillStyle)
  {
    var bl, bt, br, bb := c.borderLeftWidth.n, c.borderTopWidth.n, c.borderRightWidth.n, c.borderBottomWidth.n;
    var hasBorder := Truthy(c.borderLeftWidth) || Truthy(c.borderTopWidth) ||
                     Truthy(c.borderRightWidth) || Truthy(c.borderBottomWidth);
    if hasBorder {
      canvas.fillStyle := c.borderColor;
      canvas.FillRect(0.0, 0.0, canvas.width, canvas.height);
    }
    if Truthy(c.backgroundColor) {
      canvas.fillStyle := c.backgroundColor;
      canvas.FillRect(bl, bt, canvas.width - (bl + br), canvas.height - (bt + bb));
    } else if hasBorder {
      canvas.ClearRect(bl, bt, canvas.width - (bl + br), canvas.height - (bt + bb));
    }
  }

  /** The drawing pass: each line is filled at its aligned x and its
      baseline, and stroked at the same place when a stroke width is set;
      `offsetY` advances one line height per line. */
  method DrawLines(canvas: Canvas, c: Config, f: Frame)
    requires c.Numeric() && canvas.width == f.geom.width
    requires canvas.font == c.font && canvas.fillStyle == c.textColor && canvas.textAlign == c.textAlign &&
      canvas.lineWidth == c.strokeWidth && canvas.strokeStyle == c.strokeColor
    modifies canvas`ops
    ensures canvas.ops == old(canvas.ops) + TextOps(c, f, |f.props|)
  {
    var bl, bt, br := c.borderLeftWidth.n, c.borderTopWidth.n, c.borderRightWidth.n;
    var pl, pt, pr := c.paddingLeft.n, c.paddingTop.n, c.paddingRight.n;
    var lineHeight := f.geom.lineHeight;
    var offsetY := bt + pt;
    var j := 0;
    while j < |f.props|
      invariant 0 <= j <= |f.props|
      invariant offsetY == bt + pt + (j as real) * lineHeight
      invariant canvas.ops == old(canvas.ops) + TextOps(c, f, j)
    {
      var lineProp := f.props[j];
      var x := 0.0;
      var y := f.ext.ascent + offsetY;
      if c.textAlign == Str("start") || c.textAlign == Str("left") {
        x := lineProp.left + bl + pl;
      } else if c.textAlign == Str("end") || c.textAlign == Str("right") {
        x := canvas.width - lineProp.left - br - pr;
      } else if c.textAlign == Str("center") {
        x := f.geom.contentWidth / 2.0 + bl + pl;
      }
      assert x == LineX(c, f, j) && y == LineY(c, f, j);
      canvas.FillText(lineProp.line, x, y);
      if c.strokeWidth.n > 0.0 {
        canvas.StrokeText(lineProp.line, x, y);
      }
      assert canvas.ops == old(canvas.ops) + TextOps(c, f, j) + LineOps(c, f, j);
      NextRow(j, lineHeight);
      offsetY := offsetY + lineHeight;
      j := j + 1;
    }
  }

  /** The measuring, sizing and drawing passes of `text2png` on a fresh
      canvas. */
  method Render(text: string, c: Config, measure: Measurer) returns (canvas: Canvas)
    requires c.Numeric()
    ensures fresh(canvas) && canvas.measurer == measure
    ensures var f := FrameOf(text, c, measure);
      canvas.width == f.geom.width && canvas.height == f.geom.height && canvas.ops == Trace(c, f)
    ensures canvas.font == c.font && canvas.fillStyle == c.textColor && canvas.antialias == "gray" &&
      canvas.imageSmoothingEnabled == c.imageSmoothingEnabled && canvas.textAlign == c.textAlign &&
      canvas.lineWidth == c.strokeWidth && canvas.strokeStyle == c.strokeColor
  {
    ghost var f := FrameOf(text, c, measure);
    canvas := new Canvas(0.0, 0.0, measure);
    var lineProps, max, lastDescent := MeasurePass(canvas, Split(text), c.font);

    var frame := SizeCanvas(canvas, c, lineProps, max, lastDescent.value);
    assert frame == f;

    PaintBackdrop(canvas, c, frame.geom);
    ghost var backdrop := canvas.ops;
    assert backdrop == Backdrop(c, f.geom);

    canvas.font := c.font;
    canvas.fillStyle := c.textColor;
    canvas.antialias := "gray";
    canvas.imageSmoothingEnabled := c.imageSmoothingEnabled;
    canvas.textAlign := c.textAlign;
    canvas.lineWidth := c.strokeWidth;
    canvas.strokeStyle := c.strokeColor;

    DrawLines(canvas, c, frame);
    assert canvas.ops == backdrop + TextOps(c, f, |f.props|);
  }

  /** When a stroke width is set, line `i` contributes a fill and then a
      stroke at the same place, at positions `2i` and `2i + 1`, after the
      calls of every earlier line. */
  lemma {:induction false} TextOpsStroked(c: Config, f: Frame, k: nat)
    requires c.Numeric() && Stroked(c) && k <= |f.props|
    ensures |TextOps(c, f, k)| == 2 * k
    ensures forall i :: 0 <= i < k ==>
      TextOps(c, f, k)[2 * i] == FillTextOp(c, f, i) && TextOps(c, f, k)[2 * i + 1] == StrokeTextOp(c, f, i)
    decreases k
  {
    if k > 0 {
      TextOpsStroked(c, f, k - 1);
      var before, all := TextOps(c, f, k - 1), TextOps(c, f, k);
      assert all == before + [FillTextOp(c, f, k - 1), StrokeTextOp(c, f, k - 1)];
      forall i | 0 <= i < k - 1
        ensures all[2 * i] == FillTextOp(c, f, i) && all[2 * i + 1] == StrokeTextOp(c, f, i)
      {
        assert all[2 * i] == before[2 * i] && all[2 * i + 1] == before[2 * i + 1];
      }
    }
  }

  /** Without a stroke width, line `i` contributes exactly one fill, at
      position `i`. */
  lemma {:induction false} TextOpsPlain(c: Config, f: Frame, k: nat)
    requires c.Numeric() && !Stroked(c) && k <= |f.props|
    ensures |TextOps(c, f, k)| == k
    ensures forall i :: 0 <= i < k ==> TextOps(c, f, k)[i] == FillTextOp(c, f, i)
    decreases k
  {
    if k > 0 {
      TextOpsPlain(c, f, k - 1);
      var before, all := TextOps(c, f, k - 1), TextOps(c, f, k);
      assert all == before + [FillTextOp(c, f, k - 1)];
      forall i | 0 <= i < k - 1 ensures all[i] == FillTextOp(c, f, i) {
        assert all[i] == before[i];
      }
    }
  }

  /** With numeric widths, there is a border exactly when some border
      width is non-zero. Then the first call fills the whole canvas in the
      border colour. The last backdrop call covers the area inside the
      border: a fill in the background colour when one is set, otherwise a
      clear, which happens only when there is a border. No text is drawn
      before the backdrop is complete. */
  lemma BackdropShape(c: Config, g: Geometry)
    requires c.Numeric()
    ensures HasBorder(c) <==> (c.borderLeftWidth.n != 0.0 || c.borderTopWidth.n != 0.0 ||
                               c.borderRightWidth.n != 0.0 || c.borderBottomWidth.n != 0.0)
    ensures var ops := Backdrop(c, g);
      |ops| == (if HasBorder(c) then 1 else 0) + (if Truthy(c.backgroundColor) || HasBorder(c) then 1 else 0)
    ensures var ops := Backdrop(c, g);
      HasBorder(c) ==> ops[0] == FillRect(0.0, 0.0, g.width, g.height, c.borderColor)
    ensures var ops := Backdrop(c, g); var (x, y, w, h) := Interior(c, g);
      (Truthy(c.backgroundColor) ==> ops[|ops| - 1] == FillRect(x, y, w, h, c.backgroundColor)) &&
      (!Truthy(c.backgroundColor) && HasBorder(c) ==> ops[|ops| - 1] == ClearRect(x, y, w, h))
    ensures forall i :: 0 <= i < |Backdrop(c, g)| ==> Backdrop(c, g)[i].FillRect? || Backdrop(c, g)[i].ClearRect?
  {
  }

  /** What the border and background leave at each point: inside the
      border the background colour when one is set, else nothing; on the
      border itself the border colour when there is a border; nothing
      elsewhere. */
  lemma BackdropPaint(c: Config, g: Geometry, px: real, py: real)
    requires c.Numeric()
    ensures var (x, y, w, h) := Interior(c, g);
      var inside := Covers(x, y, w, h, px, py);
      var onCanvas := Covers(0.0, 0.0, g.width, g.height, px, py);
      PaintAt(Backdrop(c, g), px, py) ==
        if inside && Truthy(c.backgroundColor) then Color(c.backgroundColor)
        else if onCanvas && !inside && HasBorder(c) then Color(c.borderColor)
        else Transparent
  {
    var (x, y, w, h) := Interior(c, g);
    var ops := Backdrop(c, g);
    var border := if HasBorder(c) then [FillRect(0.0, 0.0, g.width, g.height, c.borderColor)] else [];
    assert PaintAt(border, px, py) ==
      if HasBorder(c) && Covers(0.0, 0.0, g.width, g.height, px, py) then Color(c.borderColor) else Transparent
    by {
      if HasBorder(c) {
        assert border[..0] == [];
      }
    }
    if Truthy(c.backgroundColor) || HasBorder(c) {
      assert ops[..|ops| - 1] == border;
    } else {
      assert ops == [];
    }
  }
}
