/** Per-line measurements and their running maxima (the `max` record of
    `text2png`). */
module Metrics {
  import opened Values

  /** What the 2D context's `measureText` reports for one line. */
  datatype TextMetrics = TextMetrics(
    actualBoundingBoxLeft: real,
    actualBoundingBoxRight: real,
    actualBoundingBoxAscent: real,
    actualBoundingBoxDescent: real)

  /** Glyph measurement: the line and the active font in, bearings out. It is
      supplied by the rendering library and left uninterpreted. */
  type Measurer = (string, JsValue) -> TextMetrics

  /** One entry of `lineProps`. */
  datatype LineProp = LineProp(line: string, left: real, right: real, ascent: real, descent: real)

  /** The `max` record: running maxima over the lines measured so far. */
  datatype Extents = Extents(left: real, right: real, ascent: real, descent: real)

  const Zero: Extents := Extents(0.0, 0.0, 0.0, 0.0)

  /** The entry recorded for one measured line; the left bearing is negated. */
  function FromMetrics(line: string, m: TextMetrics): LineProp {
    LineProp(line, -1.0 * m.actualBoundingBoxLeft, m.actualBoundingBoxRight,
             m.actualBoundingBoxAscent, m.actualBoundingBoxDescent)
  }

  /** `lines.map(...)`: one entry per line, in order, each measured under
      `font`. */
  function MeasureLines(lines: seq<string>, font: JsValue, measure: Measurer): (props: seq<LineProp>)
    ensures |props| == |lines|
    ensures forall k :: 0 <= k < |lines| ==>
      var m := measure(lines[k], font);
      props[k].line == lines[k] && props[k].left == -m.actualBoundingBoxLeft &&
      props[k].right == m.actualBoundingBoxRight && props[k].ascent == m.actualBoundingBoxAscent &&
      props[k].descent == m.actualBoundingBoxDescent
  {
    seq(|lines|, k requires 0 <= k < |lines| => FromMetrics(lines[k], measure(lines[k], font)))
  }

  /** `Math.max(a, b)` */
  function Max(a: real, b: real): real {
    if a < b then b else a
  }

  /** The four `Math.max` updates of `max` for one more line. */
  function Include(e: Extents, p: LineProp): Extents {
    Extents(Max(e.left, p.left), Max(e.right, p.right), Max(e.ascent, p.ascent), Max(e.descent, p.descent))
  }

  /** The line texts of the entries, in order. */
  function LinesOf(props: seq<LineProp>): seq<string> {
    seq(|props|, k requires 0 <= k < |props| => props[k].line)
  }

  /** `max` after the lines `props`, in order, starting from all zeros; no
      maximum ever drops below its starting 0. */
  function Fold(props: seq<LineProp>): (e: Extents)
    ensures e.left >= 0.0 && e.right >= 0.0 && e.ascent >= 0.0 && e.descent >= 0.0
    decreases |props|
  {
    if |props| == 0 then Zero else Include(Fold(props[..|props| - 1]), props[|props| - 1])
  }

  datatype Field = LeftBearing | RightBearing | Ascent | Descent

  function OfLine(p: LineProp, f: Field): real {
    match f
    case LeftBearing => p.left
    case RightBearing => p.right
    case Ascent => p.ascent
    case Descent => p.descent
  }

  function OfExtents(e: Extents, f: Field): real {
    match f
    case LeftBearing => e.left
    case RightBearing => e.right
    case Ascent => e.ascent
    case Descent => e.descent
  }

  /** `Include` takes the maximum field by field. */
  lemma IncludeField(e: Extents, p: LineProp, f: Field)
    ensures OfExtents(Include(e, p), f) == Max(OfExtents(e, f), OfLine(p, f))
  {
  }

  /** Each maximum is at least 0 and at least that field of every line. */
  lemma {:induction false} FoldBounds(props: seq<LineProp>)
    ensures forall f :: OfExtents(Fold(props), f) >= 0.0
    ensures forall f, k :: 0 <= k < |props| ==> OfExtents(Fold(props), f) >= OfLine(props[k], f)
    decreases |props|
  {
    if |props| > 0 {
      var init := props[..|props| - 1];
      FoldBounds(init);
      forall f ensures OfExtents(Fold(props), f) >= 0.0 {
        IncludeField(Fold(init), props[|props| - 1], f);
      }
      forall f, k | 0 <= k < |props| ensures OfExtents(Fold(props), f) >= OfLine(props[k], f) {
        IncludeField(Fold(init), props[|props| - 1], f);
        if k < |props| - 1 {
          assert props[k] == init[k];
        }
      }
    }
  }

  /** Each maximum is 0 or the value of that field on some line. */
  lemma {:induction false} FoldAttained(props: seq<LineProp>)
    ensures forall f :: (OfExtents(Fold(props), f) == 0.0 ||
      exists k :: 0 <= k < |props| && OfExtents(Fold(props), f) == OfLine(props[k], f))
    decreases |props|
  {
    if |props| > 0 {
      var init := props[..|props| - 1];
      FoldAttained(init);
      forall f ensures (OfExtents(Fold(props), f) == 0.0 ||
        exists k :: 0 <= k < |props| && OfExtents(Fold(props), f) == OfLine(props[k], f))
      {
        var last := |props| - 1;
        IncludeField(Fold(init), props[last], f);
        if OfExtents(Fold(props), f) != OfLine(props[last], f) {
          assert OfExtents(Fold(props), f) == OfExtents(Fold(init), f);
          if OfExtents(Fold(init), f) != 0.0 {
            var k :| 0 <= k < |init| && OfExtents(Fold(init), f) == OfLine(init[k], f);
            assert init[k] == props[k];
          }
        }
      }
    }
  }
}
