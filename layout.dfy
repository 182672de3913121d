/** The geometry `text2png` derives from the measured lines: line height,
    content box, canvas size, and where each line is drawn. */
module Layout {
  import opened Values
  import opened Options
  import opened Lines
  import opened Metrics

  /** Widths on the four sides of a rectangle. */
  datatype Box = Box(left: real, top: real, right: real, bottom: real)

  function PaddingOf(c: Config): Box
    requires c.Numeric()
  {
    Box(c.paddingLeft.n, c.paddingTop.n, c.paddingRight.n, c.paddingBottom.n)
  }

  function BorderOf(c: Config): Box
    requires c.Numeric()
  {
    Box(c.borderLeftWidth.n, c.borderTopWidth.n, c.borderRightWidth.n, c.borderBottomWidth.n)
  }

  datatype Geometry = Geometry(
    lineHeight: real,
    contentWidth: real,
    contentHeight: real,
    width: real,     // canvas.width
    height: real)    // canvas.height

  /** Line height, content box and canvas size for `count` lines whose running
      maxima are `ext` and whose last line descends `lastDescent`. */
  /** Line height, content box and canvas size for `count` lines whose running
      maxima are `ext` and whose last line descends `lastDescent`; the area
      inside the border is content plus padding on each axis. */
  function ComputeGeometry(ext: Extents, lastDescent: real, count: nat, lineSpacing: real,
                           border: Box, padding: Box): (g: Geometry)
    ensures g.width - (border.left + border.right) == padding.left + g.contentWidth + padding.right
    ensures g.height - (border.top + border.bottom) == padding.top + g.contentHeight + padding.bottom
  {
    var lineHeight := ext.ascent + ext.descent + lineSpacing;
    var contentWidth := ext.left + ext.right;
    var contentHeight := lineHeight * (count as real) - lineSpacing - (ext.descent - lastDescent);
    Geometry(lineHeight, contentWidth, contentHeight,
             contentWidth + border.left + border.right + padding.left + padding.right,
             contentHeight + border.top + border.bottom + padding.top + padding.bottom)
  }

  /** Everything the measuring pass produces: the line entries, `max`,
      `lastDescent`, and the geometry derived from them. */
  datatype Frame = Frame(props: seq<LineProp>, ext: Extents, lastDescent: real, geom: Geometry)

  /** The measuring pass of `text2png` over `text` under the resolved
      options: one entry per line of the text, the entries' lines joining
      back to the text, and every maximum at least that field of every
      line. */
  function FrameOf(text: string, c: Config, measure: Measurer): (f: Frame)
    requires c.Numeric()
    ensures |f.props| == Breaks(text) + 1
    ensures Join(LinesOf(f.props)) == text
    ensures forall fld, k :: 0 <= k < |f.props| ==> OfExtents(f.ext, fld) >= OfLine(f.props[k], fld)
  {
    var lines := Split(text);
    var props := MeasureLines(lines, c.font, measure);
    SplitPieces(text);
    JoinSplit(text);
    assert LinesOf(props) == lines;
    FoldBounds(props);
    var ext := Fold(props);
    var lastDescent := props[|props| - 1].descent;
    Frame(props, ext, lastDescent,
          ComputeGeometry(ext, lastDescent, |props|, c.lineSpacing.n, BorderOf(c), PaddingOf(c)))
  }

  /** Baseline of line `i`: `max.ascent + offsetY`, where `offsetY` starts at
      the top border plus top padding and grows by one line height per line. */
  function LineY(c: Config, f: Frame, i: nat): real
    requires c.Numeric()
  {
    f.ext.ascent + BorderOf(c).top + PaddingOf(c).top + (i as real) * f.geom.lineHeight
  }

  predicate IsLeft(align: JsValue) { align == Str("start") || align == Str("left") }
  predicate IsRight(align: JsValue) { align == Str("end") || align == Str("right") }
  predicate IsCenter(align: JsValue) { align == Str("center") }

  /** The x coordinate of line `i` chosen by the `textAlign` switch; any
      other value leaves it at 0. */
  function LineX(c: Config, f: Frame, i: nat): real
    requires c.Numeric() && i < |f.props|
  {
    var p := f.props[i];
    if IsLeft(c.textAlign) then p.left + BorderOf(c).left + PaddingOf(c).left
    else if IsRight(c.textAlign) then f.geom.width - p.left - BorderOf(c).right - PaddingOf(c).right
    else if IsCenter(c.textAlign) then f.geom.contentWidth / 2.0 + BorderOf(c).left + PaddingOf(c).left
    else 0.0
  }

  /** The content height runs from the top of the content box down to the
      last line's ink bottom: `max.ascent`, then one line height per further
      line, then the last line's descent. */
  lemma ContentHeightToLastLine(ext: Extents, lastDescent: real, count: nat, lineSpacing: real,
                                border: Box, padding: Box)
    requires count >= 1
    ensures var g := ComputeGeometry(ext, lastDescent, count, lineSpacing, border, padding);
      g.contentHeight == ext.ascent + ((count - 1) as real) * g.lineHeight + lastDescent
  {
    var lh := ext.ascent + ext.descent + lineSpacing;
    var before: nat := count - 1;
    Decompose(before, 0, count, lh);
  }

  /** For a text without line breaks the content box is exactly as tall as
      the line's ascent and descent (ascent counted from 0 upward). */
  lemma {:induction false} SingleLine(text: string, c: Config, measure: Measurer)
    requires c.Numeric() && NoBreak(text)
    ensures var f := FrameOf(text, c, measure);
      var m := measure(text, c.font);
      |f.props| == 1 &&
      f.ext.ascent == Max(0.0, m.actualBoundingBoxAscent) &&
      f.geom.contentHeight == f.ext.ascent + m.actualBoundingBoxDescent &&
      f.geom.contentWidth == Max(0.0, -m.actualBoundingBoxLeft) + Max(0.0, m.actualBoundingBoxRight)
  {
    SplitJoin([text]);
    assert Split(text) == [text];
    var f := FrameOf(text, c, measure);
    assert f.props[..0] == [];
    assert Fold(f.props[..0]) == Zero;
    assert f.ext == Include(Zero, f.props[0]);
    ContentHeightToLastLine(f.ext, f.lastDescent, 1, c.lineSpacing.n, BorderOf(c), PaddingOf(c));
  }

  /** The canvas is the content box grown by padding and border on each side
      (so the area inside the border is content plus padding), and the
      measured frame, canvas size included, does not depend on `textAlign`. */
  lemma CanvasSize(text: string, c: Config, measure: Measurer, align: JsValue)
    requires c.Numeric()
    ensures c.(textAlign := align).Numeric()
    ensures var g := FrameOf(text, c, measure).geom;
      g.width - (BorderOf(c).left + BorderOf(c).right) == PaddingOf(c).left + g.contentWidth + PaddingOf(c).right &&
      g.height - (BorderOf(c).top + BorderOf(c).bottom) == PaddingOf(c).top + g.contentHeight + PaddingOf(c).bottom
    ensures FrameOf(text, c.(textAlign := align), measure) == FrameOf(text, c, measure)
  {
  }

  /** Consecutive baselines are exactly one line height apart. */
  lemma BaselinesEvenlySpaced(c: Config, f: Frame, i: nat)
    requires c.Numeric()
    ensures LineY(c, f, i + 1) - LineY(c, f, i) == f.geom.lineHeight
  {
  }

  /** `p`, which is `(k as real) * x`, grows with `k` when `x` is not negative. */
  lemma ScaledStep(k: nat, x: real, p: real)
    requires x >= 0.0 && p == (k as real) * x
    ensures p >= 0.0
    ensures k == 0 ==> p == 0.0
    ensures k >= 1 ==> p >= x
  {
    if k >= 1 {
      assert p == ((k - 1) as real) * x + x;
    }
  }

  /** Every line's ink lies inside the content box vertically: its top is at
      or below the box top and its bottom at or above the box bottom, which
      the last line's ink bottom reaches exactly. With left or start
      alignment the ink also starts exactly at the box's left edge and ends
      within it. This needs a non-negative line spacing and a last line whose
      ink is not taller upward than its ascent. */
  lemma {:induction false} InkInsideContentBox(text: string, c: Config, measure: Measurer, i: nat)
    requires c.Numeric() && c.lineSpacing.n >= 0.0
    requires i < |Split(text)|
    requires var lines := Split(text); var m := measure(lines[|lines| - 1], c.font);
      m.actualBoundingBoxAscent + m.actualBoundingBoxDescent >= 0.0
    ensures var f := FrameOf(text, c, measure); var p := f.props[i];
      var top := BorderOf(c).top + PaddingOf(c).top;
      top <= LineY(c, f, i) - p.ascent &&
      LineY(c, f, i) + p.descent <= top + f.geom.contentHeight &&
      (i == |f.props| - 1 ==> LineY(c, f, i) + p.descent == top + f.geom.contentHeight)
    ensures var f := FrameOf(text, c, measure); var p := f.props[i];
      var left := BorderOf(c).left + PaddingOf(c).left;
      IsLeft(c.textAlign) ==>
        LineX(c, f, i) - p.left == left && LineX(c, f, i) + p.right <= left + f.geom.contentWidth
  {
    var f := FrameOf(text, c, measure);
    var last := f.props[|f.props| - 1];
    assert last.ascent + last.descent >= 0.0;
    assert OfExtents(f.ext, Ascent) >= OfLine(f.props[i], Ascent);
    assert OfExtents(f.ext, Descent) >= OfLine(f.props[i], Descent);
    assert OfExtents(f.ext, Ascent) >= OfLine(last, Ascent);
    FrameInkVertical(c, f, i);
    FrameInkHorizontal(c, f, i);
  }

  /** The vertical half of `InkInsideContentBox`, for any frame built the
      way `FrameOf` builds one. */
  lemma {:induction false} FrameInkVertical(c: Config, f: Frame, i: nat)
    requires c.Numeric() && c.lineSpacing.n >= 0.0
    requires i < |f.props| && f.lastDescent == f.props[|f.props| - 1].descent
    requires f.geom == ComputeGeometry(f.ext, f.lastDescent, |f.props|, c.lineSpacing.n, BorderOf(c), PaddingOf(c))
    requires f.props[|f.props| - 1].ascent + f.lastDescent >= 0.0
    requires 0.0 <= f.ext.ascent && 0.0 <= f.ext.descent
    requires f.props[i].ascent <= f.ext.ascent && f.props[i].descent <= f.ext.descent
    requires f.props[|f.props| - 1].ascent <= f.ext.ascent
    ensures var p := f.props[i]; var top := BorderOf(c).top + PaddingOf(c).top;
      top <= LineY(c, f, i) - p.ascent &&
      LineY(c, f, i) + p.descent <= top + f.geom.contentHeight &&
      (i == |f.props| - 1 ==> LineY(c, f, i) + p.descent == top + f.geom.contentHeight)
  {
    var n := |f.props|;
    var p, last := f.props[i], f.props[n - 1];
    VerticalBounds(f.ext, c.lineSpacing.n, f.geom, p.ascent, p.descent, last.ascent, last.descent, i, n,
                   BorderOf(c), PaddingOf(c));
  }

  /** The horizontal half of `InkInsideContentBox`. */
  lemma {:induction false} FrameInkHorizontal(c: Config, f: Frame, i: nat)
    requires c.Numeric() && i < |f.props| && f.ext == Fold(f.props)
    requires f.geom.contentWidth == f.ext.left + f.ext.right
    ensures var p := f.props[i]; var left := BorderOf(c).left + PaddingOf(c).left;
      IsLeft(c.textAlign) ==>
        LineX(c, f, i) - p.left == left && LineX(c, f, i) + p.right <= left + f.geom.contentWidth
  {
    var p := f.props[i];
    FoldBounds(f.props);
    assert OfExtents(f.ext, LeftBearing) >= OfLine(p, LeftBearing);
    assert OfExtents(f.ext, RightBearing) >= OfLine(p, RightBearing);
  }

  /** The arithmetic behind `InkInsideContentBox`: line `i` of `n`, with
      ascent `a` and descent `d`, under maxima `ascent` and `descent`. */
  lemma VerticalBounds(ext: Extents, lineSpacing: real, g: Geometry, a: real, d: real,
                       lastAscent: real, lastDescent: real, i: nat, n: nat, border: Box, padding: Box)
    requires 0.0 <= lineSpacing && 0.0 <= ext.ascent && 0.0 <= ext.descent
    requires a <= ext.ascent && d <= ext.descent && lastAscent <= ext.ascent
    requires lastAscent + lastDescent >= 0.0
    requires i < n && (i == n - 1 ==> d == lastDescent)
    requires g == ComputeGeometry(ext, lastDescent, n, lineSpacing, border, padding)
    ensures 0.0 <= ext.ascent + (i as real) * g.lineHeight - a
    ensures ext.ascent + (i as real) * g.lineHeight + d <= g.contentHeight
    ensures i == n - 1 ==> ext.ascent + (i as real) * g.lineHeight + d == g.contentHeight
  {
    var lh, ascent := g.lineHeight, ext.ascent;
    assert 0.0 <= lh && d - lastDescent <= lh;
    var below: nat := n - 1 - i;         // lines after line i
    var done := (i as real) * lh;        // offset of line i below line 0
    var rest := (below as real) * lh;    // offset of the last line below line i
    Decompose(i, below, n, lh);
    ScaledStep(i, lh, done);
    ScaledStep(below, lh, rest);
    assert g.contentHeight == done + rest + ascent + lastDescent;
    assert i == n - 1 ==> rest == 0.0;
    assert i < n - 1 ==> rest >= lh;
  }

  /** One more line adds one more line height. */
  lemma NextRow(j: nat, x: real)
    ensures ((j + 1) as real) * x == (j as real) * x + x
  {
  }

  /** `n` lines split as `i` before, one at, and `below` after line `i`. */
  lemma Decompose(i: nat, below: nat, n: nat, x: real)
    requires n == i + below + 1
    ensures x * (n as real) == (i as real) * x + (below as real) * x + x
  {
    assert (n as real) == (i as real) + (below as real) + 1.0;
  }

  /** Where each alignment anchors a line: left/start puts the ink's left
      edge on the content box's left edge; right/end puts `x + left` on the
      inner edge of the right padding; center puts every line on one axis
      halfway across the content box; any other value draws at x = 0. */
  lemma AlignmentAnchors(text: string, c: Config, measure: Measurer, i: nat, j: nat)
    requires c.Numeric()
    requires i < |Split(text)| && j < |Split(text)|
    ensures var f := FrameOf(text, c, measure);
      var left := BorderOf(c).left + PaddingOf(c).left;
      var right := f.geom.width - BorderOf(c).right - PaddingOf(c).right;
      (IsLeft(c.textAlign) ==> LineX(c, f, i) - f.props[i].left == left) &&
      (IsRight(c.textAlign) ==> LineX(c, f, i) + f.props[i].left == right) &&
      (IsCenter(c.textAlign) ==>
         (LineX(c, f, i) == LineX(c, f, j) &&
          LineX(c, f, i) - left == (left + f.geom.contentWidth) - LineX(c, f, i))) &&
      (!IsLeft(c.textAlign) && !IsRight(c.textAlign) && !IsCenter(c.textAlign) ==> LineX(c, f, i) == 0.0)
  {
  }
}
