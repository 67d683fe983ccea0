/**
 * The `NpsSlider` view: its style properties and their setters, the layout
 * geometry computed by `onLayout`, the selection updated by `onTouchEvent`
 * and `clear()`, and the positions `drawTrack`, `drawLabels` and
 * `drawThumb` paint at. Canvas calls are modelled by the shapes they would
 * draw; `invalidate()` by a count of redraw requests.
 */
module Slider {
  import opened Kotlin
  import opened Touch
  import opened Selection
  import opened Geometry

  /** Android's `Color.BLACK`, `Color.GREEN` and `Color.WHITE` as signed 32-bit ARGB values. */
  const BLACK: int := -0x100_0000
  const GREEN: int := -0xff_0100
  const WHITE: int := -1

  /** A font's ascent (negative, above the baseline) and descent, as the platform reports them. */
  datatype FontMetrics = FontMetrics(ascent: real, descent: real)

  /**
   * What the platform font engine answers when the paints are refreshed: the
   * width of the text "10" in the track font, and the metrics of the track
   * and label fonts.
   */
  datatype Measurements = Measurements(digitsWidth: real, trackFont: FontMetrics, labelFont: FontMetrics)

  /** The style properties with public setters. */
  datatype Style = Style(
    trackColor: int, thumbColor: int, thumbTextColor: int, labelTextColor: int,
    fontSize: real, labelFontSize: real, minLabel: string, maxLabel: string)

  /**
   * The style `init` leaves when no styled attributes are supplied: each
   * property keeps its field initialiser, except the label text colour,
   * whose fallback is the thumb text colour.
   */
  const DefaultStyle: Style := Style(BLACK, GREEN, WHITE, WHITE, 12.0, 10.0, "Never", "Definitely")

  /** The geometry `onLayout` derives. */
  datatype Layout = Layout(
    contentWidth: real, contentHeight: real, trackBottom: real,
    boxWidth: real, textOffsetX: real, textOffsetY: real)

  /** Shapes the draw pass paints. */
  datatype Rect = Rect(left: real, top: real, right: real, bottom: real)
  datatype Separator = Separator(x: real, top: real, bottom: real)
  /** A score digit drawn centred at `x` on baseline `y`. */
  datatype Digit = Digit(nps: int, x: real, y: real)
  datatype Align = Left | Right
  datatype Caption = Caption(text: string, x: real, y: real, align: Align)
  datatype Thumb = Thumb(box: Rect, digit: Digit)

  class NpsSlider {
    // Style properties.
    var trackColor: int
    var thumbColor: int
    var thumbTextColor: int
    var labelTextColor: int
    var fontSize: real
    var labelFontSize: real
    var minLabel: string
    var maxLabel: string

    // Text measurements, refreshed by InvalidateTextPaintAndMeasurements.
    var textWidth: real
    var textHeight: real
    var textBaseLine: real
    var labelHeight: real
    var labelBaseLine: real
    var minimumWidth: int
    var minimumHeight: int

    // The view's padding, and the float copies taken when the paints are refreshed.
    const paddingLeft: int
    const paddingTop: int
    const paddingRight: int
    const paddingBottom: int
    var paddingLeftF: real
    var paddingTopF: real
    var paddingRightF: real
    var paddingBottomF: real

    // Layout geometry.
    var contentWidth: real
    var contentHeight: real
    var trackBottom: real
    var boxWidth: real
    var textOffsetX: real
    var textOffsetY: real

    // Selection: `lastNpsEvent`, and the value held by the state flow `_value`.
    var lastNpsEvent: Option<NpsEvent>
    var published: Option<NpsEvent>

    /** How many times a redraw was requested with `invalidate()`. */
    var invalidations: nat

    function StyleOf(): Style
      reads this
    {
      Style(trackColor, thumbColor, thumbTextColor, labelTextColor,
            fontSize, labelFontSize, minLabel, maxLabel)
    }

    function LayoutOf(): Layout
      reads this
    {
      Layout(contentWidth, contentHeight, trackBottom, boxWidth, textOffsetX, textOffsetY)
    }

    function SelectionState(): Selection
      reads this
    {
      Selection(lastNpsEvent, published)
    }

    /**
     * The object invariant: the float paddings copy the view's padding, the
     * bucket width is an eleventh of the content width with the
     * digit offset at its middle, and the selection is consistent.
     */
    ghost predicate Valid()
      reads this
    {
      && paddingLeftF == paddingLeft as real
      && paddingTopF == paddingTop as real
      && paddingRightF == paddingRight as real
      && paddingBottomF == paddingBottom as real
      && boxWidth == contentWidth / BUCKETS as real
      && textOffsetX == boxWidth / 2.0
      && Consistent(SelectionState())
    }

    /** The measurement fields hold what `m` implies. */
    ghost predicate MeasuredFrom(m: Measurements)
      reads this
    {
      && textWidth == m.digitsWidth
      && textHeight == m.trackFont.descent - m.trackFont.ascent
      && textBaseLine == -m.trackFont.ascent / 2.0 - m.trackFont.descent / 2.0
      && labelHeight == m.labelFont.descent - m.labelFont.ascent
      && labelBaseLine == -m.labelFont.ascent / 2.0 - m.labelFont.descent / 2.0
      && minimumWidth == FloatToInt(textWidth * 11.0) + paddingRight + paddingLeft
      && minimumHeight == FloatToInt(textHeight * 2.375) + paddingTop + paddingBottom + FloatToInt(labelHeight)
    }

    /**
     * A slider after `init` with no styled attributes, before its first
     * layout pass: the field initialisers, then the attribute fallbacks.
     */
    constructor (paddingLeft: int, paddingTop: int, paddingRight: int, paddingBottom: int, m: Measurements)
      ensures Valid() && MeasuredFrom(m)
      ensures this.paddingLeft == paddingLeft && this.paddingTop == paddingTop
      ensures this.paddingRight == paddingRight && this.paddingBottom == paddingBottom
      ensures StyleOf() == DefaultStyle
      ensures LayoutOf() == Layout(0.0, 0.0, 0.0, 0.0, 0.0, 0.0)
      ensures SelectionState() == Unset && invalidations == 0
    {
      // `init` falls back to the thumb text colour for the label text colour.
      var thumbText := WHITE;
      trackColor, thumbColor, thumbTextColor, labelTextColor := BLACK, GREEN, thumbText, thumbText;
      fontSize, labelFontSize := 12.0, 10.0;
      minLabel, maxLabel := "Never", "Definitely";
      textWidth, textHeight, textBaseLine, labelHeight, labelBaseLine := 0.0, 0.0, 0.0, 0.0, 0.0;
      minimumWidth, minimumHeight := 0, 0;
      this.paddingLeft, this.paddingTop := paddingLeft, paddingTop;
      this.paddingRight, this.paddingBottom := paddingRight, paddingBottom;
      paddingLeftF, paddingTopF, paddingRightF, paddingBottomF := 0.0, 0.0, 0.0, 0.0;
      contentWidth, contentHeight, trackBottom := 0.0, 0.0, 0.0;
      boxWidth, textOffsetX, textOffsetY := 0.0, 0.0, 0.0;
      lastNpsEvent, published := None, None;
      invalidations := 0;
      new;
      InvalidateTextPaintAndMeasurements(m);
    }

    /**
     * `invalidateTextPaintAndMeasurements`: takes the text sizes from the
     * platform's answer `m`, derives the minimum size, and refreshes the
     * float copies of the padding. Style, layout and selection are untouched.
     */
    method InvalidateTextPaintAndMeasurements(m: Measurements)
      modifies this`textWidth, this`textHeight, this`textBaseLine, this`labelHeight, this`labelBaseLine
      modifies this`minimumWidth, this`minimumHeight
      modifies this`paddingLeftF, this`paddingTopF, this`paddingRightF, this`paddingBottomF
      ensures MeasuredFrom(m)
      ensures paddingLeftF == paddingLeft as real && paddingTopF == paddingTop as real
      ensures paddingRightF == paddingRight as real && paddingBottomF == paddingBottom as real
    {
      textWidth := m.digitsWidth;
      textHeight := m.trackFont.descent - m.trackFont.ascent;
      textBaseLine := -m.trackFont.ascent / 2.0 - m.trackFont.descent / 2.0;
      labelHeight := m.labelFont.descent - m.labelFont.ascent;
      labelBaseLine := -m.labelFont.ascent / 2.0 - m.labelFont.descent / 2.0;
      minimumWidth := FloatToInt(textWidth * 11.0) + paddingRight + paddingLeft;
      minimumHeight := FloatToInt(textHeight * 2.375) + paddingTop + paddingBottom + FloatToInt(labelHeight);
      paddingLeftF := paddingLeft as real;
      paddingTopF := paddingTop as real;
      paddingRightF := paddingRight as real;
      paddingBottomF := paddingBottom as real;
    }

    method SetTrackColor(v: int, m: Measurements)
      requires Valid()
      modifies this
      ensures Valid() && MeasuredFrom(m)
      ensures StyleOf() == old(StyleOf()).(trackColor := v)
      ensures LayoutOf() == old(LayoutOf()) && SelectionState() == old(SelectionState())
      ensures invalidations == old(invalidations)
    {
      trackColor := v;
      InvalidateTextPaintAndMeasurements(m);
    }

    method SetThumbTextColor(v: int, m: Measurements)
      requires Valid()
      modifies this
      ensures Valid() && MeasuredFrom(m)
      ensures StyleOf() == old(StyleOf()).(thumbTextColor := v)
      ensures LayoutOf() == old(LayoutOf()) && SelectionState() == old(SelectionState())
      ensures invalidations == old(invalidations)
    {
      thumbTextColor := v;
      InvalidateTextPaintAndMeasurements(m);
    }

    method SetThumbColor(v: int, m: Measurements)
      requires Valid()
      modifies this
      ensures Valid() && MeasuredFrom(m)
      ensures StyleOf() == old(StyleOf()).(thumbColor := v)
      ensures LayoutOf() == old(LayoutOf()) && SelectionState() == old(SelectionState())
      ensures invalidations == old(invalidations)
    {
      thumbColor := v;
      InvalidateTextPaintAndMeasurements(m);
    }

    method SetFontSize(v: real, m: Measurements)
      requires Valid()
      modifies this
      ensures Valid() && MeasuredFrom(m)
      ensures StyleOf() == old(StyleOf()).(fontSize := v)
      ensures LayoutOf() == old(LayoutOf()) && SelectionState() == old(SelectionState())
      ensures invalidations == old(invalidations)
    {
      fontSize := v;
      InvalidateTextPaintAndMeasurements(m);
    }

    method SetLabelFontSize(v: real, m: Measurements)
      requires Valid()
      modifies this
      ensures Valid() && MeasuredFrom(m)
      ensures StyleOf() == old(StyleOf()).(labelFontSize := v)
      ensures LayoutOf() == old(LayoutOf()) && SelectionState() == old(SelectionState())
      ensures invalidations == old(invalidations)
    {
      labelFontSize := v;
      InvalidateTextPaintAndMeasurements(m);
    }

    method SetLabelTextColor(v: int, m: Measurements)
      requires Valid()
      modifies this
      ensures Valid() && MeasuredFrom(m)
      ensures StyleOf() == old(StyleOf()).(labelTextColor := v)
      ensures LayoutOf() == old(LayoutOf()) && SelectionState() == old(SelectionState())
      ensures invalidations == old(invalidations)
    {
      labelTextColor := v;
      InvalidateTextPaintAndMeasurements(m);
    }

    method SetMinLabel(v: string, m: Measurements)
      requires Valid()
      modifies this
      ensures Valid() && MeasuredFrom(m)
      ensures StyleOf() == old(StyleOf()).(minLabel := v)
      ensures LayoutOf() == old(LayoutOf()) && SelectionState() == old(SelectionState())
      ensures invalidations == old(invalidations)
    {
      minLabel := v;
      InvalidateTextPaintAndMeasurements(m);
    }

    method SetMaxLabel(v: string, m: Measurements)
      requires Valid()
      modifies this
      ensures Valid() && MeasuredFrom(m)
      ensures StyleOf() == old(StyleOf()).(maxLabel := v)
      ensures LayoutOf() == old(LayoutOf()) && SelectionState() == old(SelectionState())
      ensures invalidations == old(invalidations)
    {
      maxLabel := v;
      InvalidateTextPaintAndMeasurements(m);
    }

    /**
     * `onLayout` for a view of `width` by `height` pixels: the content area
     * inside the padding (and above the label row) is split into eleven
     * buckets. The buckets run left to right only when the content is wider
     * than zero.
     */
    method OnLayout(width: int, height: int)
      requires Valid()
      modifies this`contentWidth, this`contentHeight, this`trackBottom
      modifies this`boxWidth, this`textOffsetX, this`textOffsetY
      ensures Valid()
      ensures LayoutOf() == Layout(
        (width - paddingLeft - paddingRight) as real,
        (height - paddingTop - paddingBottom) as real - labelHeight,
        paddingTop as real + contentHeight,
        contentWidth / BUCKETS as real,
        boxWidth / 2.0,
        paddingTop as real + contentHeight / 2.0 + textBaseLine)
      ensures boxWidth > 0.0 <==> width > paddingLeft + paddingRight
      ensures BucketLeft(paddingLeftF, boxWidth, BUCKETS) == paddingLeft as real + contentWidth
    {
      contentWidth := (width - paddingLeft - paddingRight) as real;
      contentHeight := (height - paddingTop - paddingBottom) as real - labelHeight;
      trackBottom := paddingTop as real + contentHeight;
      boxWidth := contentWidth / BUCKETS as real;
      textOffsetX := boxWidth / 2.0;
      textOffsetY := paddingTop as real + contentHeight / 2.0 + textBaseLine;
      BucketsTileContent(paddingLeftF, contentWidth, MIN_NPS);
    }

    /** The `nps` getter: the selected score, if any. */
    function Nps(): (n: Option<int>)
      reads this
      requires Valid()
      ensures n.Some? <==> published.Some?
      ensures n.Some? ==> n.value == published.value.nps && MIN_NPS <= n.value <= MAX_NPS
    {
      if lastNpsEvent.Some? then Some(lastNpsEvent.value.nps) else None
    }

    /**
     * `onTouchEvent`: a missing event is ignored; otherwise the sample's
     * event replaces the selection and requests a redraw only when it differs
     * from the last one. The event is always reported as handled, and
     * afterwards, once the bucket width is positive, the selected bucket is
     * the one the finger is in.
     */
    method OnTouchEvent(event: Option<MotionEvent>) returns (handled: bool)
      requires Valid()
      requires event.Some? ==> boxWidth != 0.0
      modifies this`lastNpsEvent, this`published, this`invalidations
      ensures Valid()
      ensures handled
      ensures event.None? ==> SelectionState() == old(SelectionState()) && invalidations == old(invalidations)
      ensures event.Some? ==>
        var e := ToNps(event.value, paddingLeft, boxWidth);
        && SelectionState() == Touched(old(SelectionState()), e)
        && invalidations == old(invalidations) + (if Changes(old(SelectionState()), e) then 1 else 0)
      ensures event.Some? ==> Nps().Some?
      ensures event.Some? && boxWidth > 0.0 ==> InBucket(event.value.x, paddingLeftF, boxWidth, Nps().value)
    {
      if event.Some? {
        var newNps := ToNps(event.value, paddingLeft, boxWidth);
        if Some(newNps) != lastNpsEvent {
          lastNpsEvent := Some(newNps);
          published := Some(newNps);
          invalidations := invalidations + 1;
        }
        if boxWidth > 0.0 {
          HitTestPicksBucket(event.value.x, paddingLeftF, boxWidth, newNps.nps);
        }
      }
      handled := true;
    }

    /** `clear()`: whatever was selected, nothing is afterwards, and a redraw is requested. */
    method Clear()
      requires Valid()
      modifies this`lastNpsEvent, this`published, this`invalidations
      ensures Valid()
      ensures SelectionState() == Unset && Nps() == None
      ensures invalidations == old(invalidations) + 1
    {
      lastNpsEvent := None;
      published := None;
      invalidations := invalidations + 1;
    }

    /**
     * `drawTrack`: the outline spanning the content width, a separator at
     * the left edge of each bucket 1..10, and each bucket's digit at its
     * centre, found by stepping one bucket width at a time.
     */
    method DrawTrack() returns (outline: Rect, separators: seq<Separator>, digits: seq<Digit>)
      requires Valid()
      ensures outline == Rect(paddingLeftF, paddingTopF, paddingLeft as real + contentWidth, trackBottom)
      ensures outline.right == BucketLeft(paddingLeftF, boxWidth, BUCKETS)
      ensures |separators| == MAX_NPS
      ensures forall k :: 0 <= k < |separators| ==>
        separators[k] == Separator(BucketLeft(paddingLeftF, boxWidth, k + 1), paddingTopF, trackBottom)
      ensures |digits| == BUCKETS
      ensures forall i :: 0 <= i < |digits| ==>
        digits[i] == Digit(i, BucketLeft(paddingLeftF, boxWidth, i) + textOffsetX, textOffsetY)
    {
      outline := Rect(paddingLeftF, paddingTopF, paddingLeft as real + contentWidth, trackBottom);
      BucketsTileContent(paddingLeftF, contentWidth, MIN_NPS);
      var x := paddingLeftF;
      var textX := x + textOffsetX;
      digits := [Digit(0, textX, textOffsetY)];
      separators := [];
      for i := 1 to MAX_NPS + 1
        invariant x == BucketLeft(paddingLeftF, boxWidth, i - 1)
        invariant textX == x + textOffsetX
        invariant |separators| == i - 1 && |digits| == i
        invariant forall k :: 0 <= k < |separators| ==>
          separators[k] == Separator(BucketLeft(paddingLeftF, boxWidth, k + 1), paddingTopF, trackBottom)
        invariant forall j :: 0 <= j < |digits| ==>
          digits[j] == Digit(j, BucketLeft(paddingLeftF, boxWidth, j) + textOffsetX, textOffsetY)
      {
        x := x + boxWidth;
        textX := textX + boxWidth;
        separators := separators + [Separator(x, paddingTopF, trackBottom)];
        digits := digits + [Digit(i, textX, textOffsetY)];
      }
    }

    /**
     * `drawLabels`: the min label left-aligned at the left end of the track
     * and the max label right-aligned at its right end, one label height
     * below it.
     */
    function DrawLabels(): (labels: (Caption, Caption))
      reads this
      requires Valid()
      ensures labels.0 == Caption(minLabel, BucketLeft(paddingLeftF, boxWidth, 0), trackBottom + labelHeight, Left)
      ensures labels.1 == Caption(maxLabel, BucketLeft(paddingLeftF, boxWidth, BUCKETS), trackBottom + labelHeight, Right)
    {
      BucketsTileContent(paddingLeftF, contentWidth, MIN_NPS);
      (Caption(minLabel, paddingLeftF, trackBottom + labelHeight, Left),
       Caption(maxLabel, paddingLeftF + contentWidth, trackBottom + labelHeight, Right))
    }

    /**
     * `drawThumb`: drawn only while a score is selected, as a box around
     * that score's bucket (one pixel wider on the left, two on the right,
     * ten taller above and below) carrying the score's digit at the place the
     * track draws it.
     */
    function DrawThumb(): (t: Option<Thumb>)
      reads this
      requires Valid()
      ensures t.Some? <==> Nps().Some?
      ensures t.Some? ==>
        var n := Nps().value;
        && t.value.box == Rect(BucketLeft(paddingLeftF, boxWidth, n) - 1.0, paddingTopF - 10.0,
                               BucketLeft(paddingLeftF, boxWidth, n + 1) + 2.0, trackBottom + 10.0)
        && t.value.digit == Digit(n, BucketLeft(paddingLeftF, boxWidth, n) + textOffsetX, textOffsetY)
    {
      match Nps()
      case None => None
      case Some(n) =>
        var x := paddingLeftF + n as real * boxWidth;
        Some(Thumb(Rect(x - 1.0, paddingTopF - 10.0, x + boxWidth + 2.0, trackBottom + 10.0),
                   Digit(n, x + textOffsetX, textOffsetY)))
    }

    /**
     * The hit-test maps a coordinate to the selected score exactly when it
     * lies in the bucket the thumb highlights, extended past the track for 0
     * and 10; the thumb's digit sits at the centre of that bucket.
     */
    lemma ThumbHighlightsHitBucket(x: real)
      requires Valid() && boxWidth > 0.0 && Nps().Some?
      ensures Score(x, paddingLeft as real, boxWidth) == Nps().value
          <==> InBucket(x, paddingLeftF, boxWidth, Nps().value)
      ensures DrawThumb().value.digit.x == LabelCentre(paddingLeftF, boxWidth, Nps().value)
      ensures Score(DrawThumb().value.digit.x, paddingLeft as real, boxWidth) == Nps().value
    {
      HitTestPicksBucket(x, paddingLeftF, boxWidth, Nps().value);
      DrawnPointsHitTheirBucket(paddingLeftF, boxWidth, Nps().value);
    }
  }
}
