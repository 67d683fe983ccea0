/**
 * Turning a touch sample into a score event (`NpsEvent` and
 * `MotionEvent.toNps()` in NpsSlider.kt).
 */
module Touch {
  import opened Kotlin

  /** The lowest and highest Net Promoter Score. */
  const MIN_NPS: int := 0
  const MAX_NPS: int := 10
  /** The track is split into one bucket per score. */
  const BUCKETS: int := 11

  /**
   * A published selection: the score and whether the gesture is still in
   * progress. Equality is structural, as for the Kotlin data class.
   */
  datatype NpsEvent = NpsEvent(nps: int, changing: bool)

  /** Android's `MotionEvent` action codes. */
  const ACTION_DOWN: int := 0
  const ACTION_UP: int := 1
  const ACTION_MOVE: int := 2
  const ACTION_CANCEL: int := 3

  /** The two parts of a `MotionEvent` the widget reads. */
  datatype MotionEvent = MotionEvent(action: int, x: real)

  /**
   * The hit-test: the bucket index `((x - paddingLeft) / boxWidth).toInt()`,
   * coerced into `0..10`.
   */
  function Score(x: real, paddingLeft: real, boxWidth: real): (n: int)
    requires boxWidth != 0.0
    ensures MIN_NPS <= n <= MAX_NPS
  {
    CoerceIn(FloatToInt((x - paddingLeft) / boxWidth), MIN_NPS, MAX_NPS)
  }

  /**
   * The textbook formulation of the hit-test, with `floor` in place of
   * truncation toward zero.
   */
  function FloorScore(x: real, paddingLeft: real, boxWidth: real): (n: int)
    requires boxWidth != 0.0
  {
    CoerceIn(((x - paddingLeft) / boxWidth).Floor, MIN_NPS, MAX_NPS)
  }

  /**
   * Truncation and `floor` differ only on negative quotients (and on huge
   * ones, where `toInt()` saturates), and clamping to `0..10` hides both.
   */
  lemma TruncationAgreesWithFloor(x: real, paddingLeft: real, boxWidth: real)
    requires boxWidth != 0.0
    ensures Score(x, paddingLeft, boxWidth) == FloorScore(x, paddingLeft, boxWidth)
  {
    var q := (x - paddingLeft) / boxWidth;
    if q < 0.0 {
      assert q.Floor < 0;
    } else if q >= MAX_NPS as real {
      assert q.Floor >= MAX_NPS;
    } else {
      assert FloatToInt(q) == q.Floor;
    }
  }

  /** Moving the finger right never lowers the score. */
  lemma ScoreMonotone(x1: real, x2: real, paddingLeft: real, boxWidth: real)
    requires boxWidth > 0.0
    requires x1 <= x2
    ensures Score(x1, paddingLeft, boxWidth) <= Score(x2, paddingLeft, boxWidth)
  {
    var q1, q2 := (x1 - paddingLeft) / boxWidth, (x2 - paddingLeft) / boxWidth;
    assert q1 * boxWidth == x1 - paddingLeft && q2 * boxWidth == x2 - paddingLeft;
    assert q1 <= q2;
    FloatToIntMonotone(q1, q2);
  }

  /**
   * When the view is narrower than its horizontal padding, `onLayout` makes
   * the bucket width negative and the hit-test runs backwards: a touch left
   * of the content area's right-hand bound selects 10, one right of the
   * padding selects 0.
   */
  lemma NegativeWidthReversesScore(x: real, paddingLeft: real, boxWidth: real)
    requires boxWidth < 0.0
    ensures x <= paddingLeft + MAX_NPS as real * boxWidth ==> Score(x, paddingLeft, boxWidth) == MAX_NPS
    ensures paddingLeft < x ==> Score(x, paddingLeft, boxWidth) == MIN_NPS
  {
    var q := (x - paddingLeft) / boxWidth;
    assert q * boxWidth == x - paddingLeft;
    if x <= paddingLeft + MAX_NPS as real * boxWidth {
      assert MAX_NPS as real * boxWidth >= q * boxWidth;
      assert q >= MAX_NPS as real;
    }
    if paddingLeft < x {
      assert q * boxWidth > 0.0;
      assert q < 0.0;
    }
  }

  /**
   * `MotionEvent.toNps()`: the score of the sample's x coordinate, and
   * `changing` set for every action except `ACTION_UP`.
   */
  function ToNps(e: MotionEvent, paddingLeft: int, boxWidth: real): (r: NpsEvent)
    requires boxWidth != 0.0
    ensures MIN_NPS <= r.nps <= MAX_NPS
    ensures r.nps == FloorScore(e.x, paddingLeft as real, boxWidth)
    ensures !r.changing <==> e.action == ACTION_UP
  {
    TruncationAgreesWithFloor(e.x, paddingLeft as real, boxWidth);
    NpsEvent(Score(e.x, paddingLeft as real, boxWidth), e.action != ACTION_UP)
  }
}
