# text2png in Dafny

A model of `text2png(text, options)`, the function that turns a (possibly
multi-line) text into a PNG image. The model follows the library's entry
file `index.js`. It covers:

- **Option resolution.** `orOr` picks the first value that is neither
  `undefined` nor `null`. `parseOptions` uses it to turn the caller's
  option bag into a canonical record:
  - the scalar `padding` spreads to the four paddings;
  - the scalar `borderWidth` spreads to the four border widths;
  - `textColor` is tried before `color`, and `bgColor` before `backgroundColor`;
  - every other field falls back to its literal default.
- **Measuring pass.** The text is split on `"\n"` and each line is measured
  under the resolved font. The left bearing is negated. The running maxima
  `max.left/right/ascent/descent` start at 0, and the last line's descent is
  kept.
- **Geometry.** Line height, content width and height (with the last-line
  descent correction), and the canvas size: content plus padding plus
  border on each side.
- **Drawing.** The whole canvas is filled in the border colour when some
  border width is truthy. The area inside the border is then filled with
  the background colour, or cleared when there is a border but no
  background. Each line is then filled, and stroked when the stroke width
  is positive, at an x chosen by `textAlign` and a baseline that advances
  one line height per line.
- **Output.** `"buffer"`, `"stream"`, `"dataURL"` or `"canvas"` selects the
  result. Anything else is an error naming the value, raised after all
  drawing is done. A failed local-font registration is an error naming the
  font path, raised before anything is drawn.

Modules, one per file:

| module | what it holds |
|---|---|
| `Values` | JavaScript values, truthiness, `orOr` |
| `Options` | `parseOptions` and its fallback table |
| `Lines` | `split("\n")` and its inverse `join("\n")` |
| `Metrics` | line entries and the `max` fold |
| `Layout` | geometry and the x/y of each line |
| `Surface` | the 2D context as a class that records its drawing calls |
| `Drawing` | the measuring, sizing and drawing passes, and their call trace |
| `Convert` | `text2png` itself: font registration, output switch, error messages |

The 2D context is a class (`Surface.Canvas`) whose fields the passes
update: font, styles, alignment, line width, size, and the sequence of
drawing calls. The passes are methods with loop invariants, proved against
functions that compute the expected trace (`Drawing.Trace`) and geometry
(`Layout.FrameOf`). Glyph measurement is a function parameter, and so is
font registration.

## Model

| member | source | states |
|---|---|---|
| Values.OrOr | index.js:191-198 | the result is the first argument that is neither undefined nor null; when there is none, it is the last argument itself (undefined for no arguments) |
| Values.OrOrScan | index.js:191-198 | the `for…of` scan over the arguments returns exactly `OrOr`'s value |
| Options.TwoWay | index.js:191-198 | with two arguments, `orOr` is "first if defined, else second" |
| Options.ThreeWay | index.js:191-198 | with three arguments, `orOr` is the nested two-way fallback |
| Options.ParseOptions | index.js:160-189 | the resolution itself, field by field through `OrOr` as the code writes it; its meaning is stated by `ResolvesByTable`, `SideResolution`, `ResolvedFieldsDefined`, `NullableFields`, `Defaults`, `UnreadKeysIgnored` and `NumericWhenNumbersGiven` |
| Options.ResolvesByTable | index.js:160-189 | every resolved field equals its fallback chain over the bag's keys, aliases in the order the code tries them (`textColor` before `color`, `bgColor` before `backgroundColor`) |
| Options.SideResolution | index.js:171-179 | each side's padding is its own key, else `padding`, else 0; each border width is its own key, else `borderWidth`, else 0 |
| Options.ResolvedFieldsDefined | index.js:162-187 | every field with a literal default is defined (neither undefined nor null) after resolution |
| Options.NullableFields | index.js:165-183 | background colour, local font name and local font path are never undefined after resolution, and are null exactly when none of their keys holds a defined value |
| Options.Defaults | index.js:162-187 | an empty bag resolves to `"30px sans-serif"`, `"left"`, `"black"`, null, 0, 0, `"white"`, zero paddings and borders, `"black"`, null, null, `"buffer"`, false |
| Options.UnreadKeysIgnored | index.js:160-189 | a key outside the 24 read (e.g. `width`, `height`, `minFontSize`, `verticalAlign`) has no effect on the resolved options |
| Options.NumericWhenNumbersGiven | index.js:166-179 | when every numeric key is a number or absent, line spacing, stroke width, paddings and border widths all resolve to numbers |
| Lines.Split | index.js:34 | splitting always yields at least one line (an empty text gives one empty line) |
| Lines.JoinSplit | index.js:34 | joining the lines with `"\n"` gives the text back |
| Lines.SplitPieces | index.js:34 | no line contains a break, and there is one line more than there are breaks |
| Lines.SplitJoin | index.js:34 | splitting the join of break-free lines gives those lines back |
| Metrics.MeasureLines | index.js:34-50 | one entry per line, in order, each holding its line, the negated left bearing, and the right bearing, ascent and descent as measured under the font |
| Metrics.Fold | index.js:26-46 | `max` after the lines in order, starting from zeros: no maximum is ever below 0 (proved from the recursive call's contract); `FoldBounds` and `FoldAttained` state the rest |
| Metrics.FoldBounds | index.js:26-46 | each of `max.left/right/ascent/descent` is at least 0 and at least that field of every line |
| Metrics.FoldAttained | index.js:26-46 | each maximum is 0 or the value of that field on some line |
| Layout.ComputeGeometry | index.js:52-72 | the canvas minus its border is padding plus content on each axis; `ContentHeightToLastLine` states what the content height measures |
| Layout.FrameOf | index.js:33-72 | the measuring pass yields one entry per line, one more than the text has line breaks; the entries' lines joined with `"\n"` give the text back; every maximum is at least that field of every line |
| Layout.ContentHeightToLastLine | index.js:52-58 | for one or more lines, the content height is `max.ascent`, plus one line height per further line, plus the last line's descent |
| Layout.SingleLine | index.js:52-58 | for one line the content height is its ascent (counted from 0) plus its descent, and the content width is the sum of both bearings (each counted from 0) |
| Layout.CanvasSize | index.js:60-72 | the canvas minus its border is padding plus content on each axis, and the measured frame (so the canvas size) is the same whatever the resolved `textAlign` is |
| Layout.BaselinesEvenlySpaced | index.js:110-143 | consecutive baselines are exactly one line height apart |
| Layout.LineY | index.js:110-143 | the baseline of line i: `max.ascent` below the top of the content box plus i line heights; `BaselinesEvenlySpaced` and `InkInsideContentBox` state its properties, and `DrawLines` proves the running `offsetY` reaches it |
| Layout.LineX | index.js:116-135 | the x of line i chosen by the `textAlign` switch; `AlignmentAnchors` states what each case anchors |
| Layout.InkInsideContentBox | index.js:52-135 | with non-negative line spacing and a last line whose measured ascent plus descent is not negative, every line's ink lies vertically within the content box, the last line's reaching its bottom; left/start alignment puts every line's ink (left edge read as `x - left`) at the box's left edge and within its width |
| Layout.AlignmentAnchors | index.js:116-135 | left/start anchors `x - left` at border plus padding; right/end anchors `x + left` at the inner edge of the right padding; center puts every line at the middle of the content box; any other value draws at x = 0 |
| Surface.Canvas.constructor | index.js:23-24 | a fresh canvas of the given size has no drawing calls |
| Surface.Canvas.MeasureText | index.js:35-36 | measurement uses the font currently set on the context |
| Surface.Canvas.FillRect | index.js:80-92 | appends one rectangle fill in the current fill style |
| Surface.Canvas.ClearRect | index.js:93-99 | appends one rectangle clear |
| Surface.Canvas.FillText | index.js:137 | appends one text fill with the current font, fill style and alignment |
| Surface.Canvas.StrokeText | index.js:139-141 | appends one text stroke with the current font, stroke style, line width and alignment |
| Drawing.MeasurePass | index.js:33-50 | the per-line loop yields the line entries in order, `max` as their fold, and `lastDescent` as the last line's descent |
| Drawing.SizeCanvas | index.js:52-72 | sets the canvas size to the computed geometry and returns the frame |
| Drawing.Backdrop | index.js:74-100 | at most two calls, all of them rectangle fills or clears; `BackdropShape` and `BackdropPaint` state their order and what they paint |
| Drawing.TextOps | index.js:111-141 | the text calls for the first k lines: two per line when stroked, one otherwise; `TextOpsStroked` and `TextOpsPlain` give their positions |
| Drawing.Trace | index.js:74-144 | all drawing calls: the backdrop calls come first, followed by one text call per line, or two when stroked; `Render` proves the context records exactly these |
| Drawing.PaintBackdrop | index.js:74-100 | appends exactly the backdrop calls (border fill, then background fill or clear) and leaves the fill style at the background colour, else the border colour, else unchanged |
| Drawing.DrawLines | index.js:110-144 | with `offsetY` one line height further per line, appends each line's fill (and stroke when the stroke width is positive) at its aligned x and baseline, in line order |
| Drawing.Render | index.js:23-144 | on a fresh canvas, the size is the computed geometry, the calls made are exactly the trace, and the context ends in the text state (font, text colour, gray antialias, smoothing, alignment, line width, stroke colour) |
| Drawing.TextOpsStroked | index.js:137-141 | when the stroke width is positive, line i contributes a fill then a stroke at the same (x, y), at positions 2i and 2i+1 of the text calls |
| Drawing.TextOpsPlain | index.js:137-141 | when the stroke width is not positive, line i contributes exactly one fill, at position i of the text calls |
| Drawing.BackdropShape | index.js:74-100 | there is a border iff a border width is non-zero; it is painted first over the whole canvas; the last backdrop call fills the interior with the background colour, or clears it only when there is a border; no text call is among them |
| Drawing.BackdropPaint | index.js:74-100 | a point inside the border shows the background colour if set, else nothing; a point on the canvas but outside the inner area shows the border colour when there is a border, else nothing; a point in neither the canvas nor the inner area shows nothing |
| Convert.Dispatch | index.js:146-157 | the result is a value iff the output is one of the four names; the result's kind is the requested name; PNG forms carry the image and `"canvas"` carries the canvas; anything else is the unsupported-output error for that value |
| Convert.Text2Png | index.js:9-157 | a registration failure (attempted only when both font path and name are truthy) is an error naming the path and nothing is drawn; otherwise the fresh canvas holds the full trace and geometry, and the output switch applies to it, so an unsupported output is raised only after drawing |
| Convert.FontFailureMessage | index.js:18-19 | the message names the font path right after its fixed opening phrase and ends with the loader's own message |
| Convert.OutputFailureMessage | index.js:155-156 | the message names the rejected output value right after `output type:` |

## Left out

- Glyph measurement is an uninterpreted function from a line and the active font to four bearings; font parsing and shaping are not modelled.
- Font registration is a function parameter that either succeeds or returns an error message. Its process-wide side effect on later text drawing is not modelled.
- Pixels, antialiasing, image smoothing, PNG encoding, the readable stream and the data URL are not modelled. The result records the canvas size and the drawing calls it was made from. `Surface.PaintAt` gives meaning only to the rectangle calls; glyph coverage is not modelled.
- Arithmetic is exact over `real`. Floating-point rounding, NaN and infinities are not modelled. Neither is node-canvas's coercion of `canvas.width` and `canvas.height` to non-negative integers, which in the library also affects the interior rectangle and right alignment.
- Drawing.Render: requires line spacing, stroke width, paddings and border widths to resolve to numbers. JavaScript's coercions when a string is passed there (string concatenation in the sums, `>` on strings) are not modelled. `Options.NumericWhenNumbersGiven` says when the precondition holds.
- Convert.Text2Png: requires the same numeric options as `Render`, for the same reason.
- Layout.InkInsideContentBox, Layout.AlignmentAnchors: the horizontal statements read `x - left`, that is `x + actualBoundingBoxLeft`, as the ink's left edge. This holds when the measurer reports `actualBoundingBoxLeft` as negative for ink extending left of the origin. Under the HTML canvas definition, where it is positive leftward, the left edge is `x + left`, and these statements then describe the anchor, not the ink.
- `Surface.PaintAt` does not clip rectangles to the canvas. With negative border widths, the inner rectangle can reach outside the canvas, and `Drawing.BackdropPaint` then gives those outside points the background colour.
- The 2D context's property setters store every value as given. The library's setters ignore invalid values, e.g. an unparsable font, or a line width that is not positive.
- Convert.FontFailureMessage, Convert.OutputFailureMessage: stated for non-numeric values only; JavaScript number-to-string formatting is not modelled.
- A fixed output size with scaling, `minFontSize` and `verticalAlign` are declared in `types.d.ts` and passed by the command-line tool, but `index.js` neither reads nor implements them. The model follows `index.js`, and `Options.UnreadKeysIgnored` shows those keys have no effect.
- The command-line tool (`bin/text2png.js`), the sample generator, the image-comparison tests, the type declarations and the lint configuration are not part of this model.
