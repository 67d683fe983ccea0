# NpsSlider — a verified model of the Net Promoter Score slider

`NpsSlider` is an Android view that lets the user pick a Net Promoter Score
from 0 to 10 by touching or dragging along a track divided into eleven
equal buckets. It publishes the selection, as an `NpsEvent` (score plus a
`changing` flag that stays set until the finger is lifted), through a state
flow. It suppresses a sample that computes the same event as the last one,
and `clear()` returns it to "nothing selected".

This project models that widget in Dafny and proves:

- the hit-test always yields a score in `0..10`;
- for a positive bucket width, the hit-test picks score `i` exactly for the
  coordinates in bucket `i`, clamping touches left or right of the track;
- for a positive bucket width, the hit-test is monotone; truncation toward zero (Kotlin's
  `toInt()`) agrees with `floor` once clamped;
- `lastNpsEvent` and the published value stay equal;
- duplicate samples publish nothing and request no redraw, so subscribers
  never see the same event twice in a row;
- `clear()` unsets the selection whatever the prior state;
- the separators, digits, min/max labels and thumb are drawn on the same
  bucket edges the hit-test uses, so the highlighted bucket is the touched
  one.

Files:

- `kotlin.dfy`: nullable values, `Float.toInt()` (truncation with saturation
  at the `Int` bounds) and `coerceIn`.
- `touch.dfy`: `NpsEvent`, `MotionEvent.toNps()` and the hit-test.
- `selection.dfy`: the two selection cells as a value, the update
  `onTouchEvent` applies, and lemmas about runs of touches.
- `geometry.dfy`: bucket edges and centres, and the correspondence between
  the hit-test and the buckets.
- `slider.dfy`: the `NpsSlider` class, with its fields, setters, `onLayout`,
  `onTouchEvent`, `clear()`, the `nps` getter and the draw-pass positions.
- `scenarios.dfy`: worked examples on a 550-pixel track.

Two details of the code:

- The hit-test truncates toward zero. `Touch.TruncationAgreesWithFloor`
  proves that, after clamping, this equals
  `clamp(floor((x - paddingLeft) / boxWidth), 0, 10)`.
- `changing` is true for every action except `ACTION_UP`, so `ACTION_DOWN`
  and `ACTION_CANCEL` also publish `changing = true`.

## Model

| member | source | states |
|---|---|---|
| `Kotlin.Truncate` | app/src/main/java/uk/co/jatra/nps/component/NpsSlider.kt:289 | the result has the sign of the quotient and lies less than 1 from it, on the side of zero |
| `Kotlin.FloatToInt` | app/src/main/java/uk/co/jatra/nps/component/NpsSlider.kt:289 | `toInt()` stays within `Int` and rounds toward zero, saturating at `Int.MIN_VALUE`/`Int.MAX_VALUE` |
| `Kotlin.CoerceIn` | app/src/main/java/uk/co/jatra/nps/component/NpsSlider.kt:289 | `coerceIn(0..10)` returns the value if it is in range, otherwise the nearer bound |
| `Touch.Score` | app/src/main/java/uk/co/jatra/nps/component/NpsSlider.kt:289 | the hit-test score is always in `0..10`, whatever `x` is |
| `Touch.TruncationAgreesWithFloor` | app/src/main/java/uk/co/jatra/nps/component/NpsSlider.kt:289 | truncating then clamping equals `clamp(floor((x - paddingLeft) / boxWidth), 0, 10)` for every `x` |
| `Touch.ScoreMonotone` | app/src/main/java/uk/co/jatra/nps/component/NpsSlider.kt:289 | for fixed padding and a positive bucket width, a coordinate further right never gets a lower score |
| `Touch.NegativeWidthReversesScore` | app/src/main/java/uk/co/jatra/nps/component/NpsSlider.kt:289 | with a negative bucket width (a view narrower than its padding), a touch at or left of `paddingLeft + 10*boxWidth` scores 10 and one right of `paddingLeft` scores 0 |
| `Touch.ToNps` | app/src/main/java/uk/co/jatra/nps/component/NpsSlider.kt:287-290 | the event's score is in `0..10` and equals the floor formulation; `changing` is false exactly for `ACTION_UP` |
| `Geometry.LabelCentre` | app/src/main/java/uk/co/jatra/nps/component/NpsSlider.kt:298-303 | a bucket's digit lies strictly inside that bucket |
| `Geometry.HitTestPicksBucket` | app/src/main/java/uk/co/jatra/nps/component/NpsSlider.kt:289 | for a positive bucket width, the score is `i` if and only if `x` lies in bucket `i` (`[paddingLeft + i*boxWidth, paddingLeft + (i+1)*boxWidth)`, open-ended for buckets 0 and 10) |
| `Geometry.OffTrackIsClamped` | app/src/main/java/uk/co/jatra/nps/component/NpsSlider.kt:289 | for a positive bucket width, `x < paddingLeft` gives 0 and `x >= paddingLeft + 11*boxWidth` gives 10 |
| `Geometry.BucketsTileContent` | app/src/main/java/uk/co/jatra/nps/component/NpsSlider.kt:214-218 | with `boxWidth = contentWidth / 11`, bucket 0 starts at the padding, each bucket is one width wide, and bucket 10 ends at `paddingLeft + contentWidth` |
| `Geometry.DrawnPointsHitTheirBucket` | app/src/main/java/uk/co/jatra/nps/component/NpsSlider.kt:319-327 | touching the left edge of bucket `i`, where the thumb for `i` starts, or the digit of bucket `i`, selects `i` |
| `Selection.Touched` | app/src/main/java/uk/co/jatra/nps/component/NpsSlider.kt:240-244 | afterwards the last event is the new one; the state is unchanged if and only if the event equals the last one; otherwise it is also published; consistency and the `0..10` range are preserved |
| `Selection.TouchedTwice` | app/src/main/java/uk/co/jatra/nps/component/NpsSlider.kt:240-244 | handling the same event twice equals handling it once, and the second time changes nothing |
| `Selection.EmittedHasNoRepeats` | app/src/main/java/uk/co/jatra/nps/component/NpsSlider.kt:236-247 | over any run of samples, no published value follows an equal one, the first differs from the prior selection, and at most one value is published per sample |
| `Selection.RunPublishesLastEmitted` | app/src/main/java/uk/co/jatra/nps/component/NpsSlider.kt:236-247 | after any run, the two cells still agree and stay in range, the last sample's event is selected, and the published cell holds the last emitted value |
| `Slider.NpsSlider.constructor` | app/src/main/java/uk/co/jatra/nps/component/NpsSlider.kt:140-174 | after `init` with no styled attributes, every style property keeps its field initialiser except the label text colour, which takes the thumb text colour; geometry is zero, nothing is selected, and the invariant holds |
| `Slider.NpsSlider.InvalidateTextPaintAndMeasurements` | app/src/main/java/uk/co/jatra/nps/component/NpsSlider.kt:255-285 | text height and baselines come from the font metrics; the minimum size is `toInt(textWidth*11)` plus horizontal padding and `toInt(textHeight*2.375)` plus vertical padding plus `toInt(labelHeight)`; the float paddings are refreshed |
| `Slider.NpsSlider.SetTrackColor` | app/src/main/java/uk/co/jatra/nps/component/NpsSlider.kt:70-75 | only `trackColor` changes among the style properties; measurements are refreshed; layout, selection and redraw count are unchanged |
| `Slider.NpsSlider.SetThumbTextColor` | app/src/main/java/uk/co/jatra/nps/component/NpsSlider.kt:77-82 | as for the track colour, for `thumbTextColor` |
| `Slider.NpsSlider.SetThumbColor` | app/src/main/java/uk/co/jatra/nps/component/NpsSlider.kt:84-89 | as for the track colour, for `thumbColor` |
| `Slider.NpsSlider.SetFontSize` | app/src/main/java/uk/co/jatra/nps/component/NpsSlider.kt:91-96 | as for the track colour, for `fontSize` |
| `Slider.NpsSlider.SetLabelFontSize` | app/src/main/java/uk/co/jatra/nps/component/NpsSlider.kt:98-103 | as for the track colour, for `labelFontSize` |
| `Slider.NpsSlider.SetLabelTextColor` | app/src/main/java/uk/co/jatra/nps/component/NpsSlider.kt:105-110 | as for the track colour, for `labelTextColor` |
| `Slider.NpsSlider.SetMinLabel` | app/src/main/java/uk/co/jatra/nps/component/NpsSlider.kt:112-117 | as for the track colour, for `minLabel` |
| `Slider.NpsSlider.SetMaxLabel` | app/src/main/java/uk/co/jatra/nps/component/NpsSlider.kt:119-124 | as for the track colour, for `maxLabel` |
| `Slider.NpsSlider.OnLayout` | app/src/main/java/uk/co/jatra/nps/component/NpsSlider.kt:213-222 | content size inside the padding and above the label row; `boxWidth = contentWidth / 11`; `textOffsetX = boxWidth / 2`; the bucket width is positive exactly when the view is wider than its padding; the eleven buckets end at the right end of the track |
| `Slider.NpsSlider.Nps` | app/src/main/java/uk/co/jatra/nps/component/NpsSlider.kt:67-68 | the getter is present exactly when the published value is, equals the published score, and is in `0..10` |
| `Slider.NpsSlider.OnTouchEvent` | app/src/main/java/uk/co/jatra/nps/component/NpsSlider.kt:236-247 | always returns true; a null event changes nothing; otherwise the selection becomes `Touched(old, toNps(event))` with one redraw exactly when the event differs from the last; both cells stay equal; when the bucket width is positive, the selected bucket contains the touched `x` |
| `Slider.NpsSlider.Clear` | app/src/main/java/uk/co/jatra/nps/component/NpsSlider.kt:249-253 | both cells become null whatever the prior state, so a second call leaves the same selection; one redraw is requested; style and layout fields are outside its frame |
| `Slider.NpsSlider.DrawTrack` | app/src/main/java/uk/co/jatra/nps/component/NpsSlider.kt:292-307 | the outline ends at the right edge of bucket 10; after the loop, separator `i` (1..10) sits at `paddingLeft + i*boxWidth` and digit `i` (0..10) at `paddingLeft + i*boxWidth + boxWidth/2` |
| `Slider.NpsSlider.DrawLabels` | app/src/main/java/uk/co/jatra/nps/component/NpsSlider.kt:309-314 | the min label is left-aligned at the left edge of bucket 0; the max label is right-aligned at the right edge of bucket 10 |
| `Slider.NpsSlider.DrawThumb` | app/src/main/java/uk/co/jatra/nps/component/NpsSlider.kt:316-329 | a thumb exists exactly when a score is selected; its box spans that score's bucket (1 pixel wider left, 2 right, 10 taller each way); its digit is where the track draws that digit |
| `Slider.NpsSlider.ThumbHighlightsHitBucket` | app/src/main/java/uk/co/jatra/nps/component/NpsSlider.kt:319 | for a positive bucket width, the hit-test gives the selected score exactly on the bucket the thumb highlights, extended past the track for 0 and 10; the thumb's digit is at that bucket's centre, and touching it re-selects the score |
| `Scenarios.SampleScores` | app/src/main/java/uk/co/jatra/nps/component/NpsSlider.kt:289 | on a 550-pixel track, touches at 0, 275, 549 and 600 give 0, 5, 10 and 10 |
| `Scenarios.SameBucketPublishesOnce` | app/src/main/java/uk/co/jatra/nps/component/NpsSlider.kt:236-247 | drag samples at 120 and 121 both give score 2 and publish one event |
| `Scenarios.DownAndCancelAreChanging` | app/src/main/java/uk/co/jatra/nps/component/NpsSlider.kt:290 | a press and a cancelled gesture in bucket 2 publish `(2, true)`, the same event as a drag there |
| `Scenarios.ReleaseIsPublished` | app/src/main/java/uk/co/jatra/nps/component/NpsSlider.kt:290 | lifting the finger in the same bucket publishes again, now with `changing` false |

## Left out

- Android view plumbing is not modelled: the three constructors, reading styled attributes in `init`, and `onMeasure`/`resolveSizeAndState`. The constructor here is `init` with no attribute supplied, so every property takes its fallback: the field initialisers, and for the label text colour the thumb text colour.
- The view's padding is fixed for the slider's life (`setPadding` belongs to the framework). So the float copies always equal the integer padding, and the hit-test (integer `paddingLeft`) and the drawing (`paddingLeftF`) use the same origin. If the padding changed without a restyle, the source would lose that agreement. The model does not capture that case.
- Paint, TextPaint and font metrics are not modelled. What `measureText` and `fontMetrics` return is an opaque `Measurements` input. Paint colours and text sizes, and the corner radii `TRACK_END_RADIUS` and `THUMB_CORNER_RADIUS`, are rendering details.
- Canvas calls are modelled by the shapes they would draw, not as rendering. The background fill of `onDraw` is not modelled. `invalidate()` is modelled as a count of redraw requests.
- Floats are modelled as exact reals. IEEE rounding at bucket boundaries, NaN and infinities are not captured.
- `Slider.NpsSlider.OnTouchEvent`: requires a non-zero bucket width for a present event. This excludes the division by zero before the first layout pass, and after a layout in which the view is exactly as wide as its horizontal padding; there the source divides by zero, which only Float NaN and infinity semantics would describe. A negative width (a view narrower than its padding) is modelled: the mapping then runs backwards, as `Touch.NegativeWidthReversesScore` states, and the promise that the selected bucket contains the touch is made only for a positive width.
- `Slider.NpsSlider.InvalidateTextPaintAndMeasurements`: does not model the 32-bit wrap-around of the integer sums for the minimum size. It would need paddings or text widths near `Int.MAX_VALUE`.
- `Slider.NpsSlider.OnLayout`: does not model the 32-bit wrap-around of `width - paddingLeft - paddingRight` and `height - paddingTop - paddingBottom`; it would need view sizes or paddings near `Int.MIN_VALUE`/`Int.MAX_VALUE`.
- `MutableStateFlow` is a plain field. Subscriber delivery and coroutines are not modelled. So is the flow's own conflation of equal values, which makes writing an unchanged `null` in `clear()` invisible to subscribers.
- The host screen (`MainActivity.kt`) is not part of this model. It only wires lifecycle, logging and a button that calls `clear()`.
