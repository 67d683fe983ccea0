/**
 * Worked examples: a track whose content is 550 pixels wide with no left
 * padding, so that each bucket is 50 pixels wide.
 */
module Scenarios {
  import opened Kotlin
  import opened Touch
  import opened Selection

  /** Touches at the start, the middle, the last pixel and beyond the end of the track. */
  lemma SampleScores()
    ensures Score(0.0, 0.0, 550.0 / 11.0) == 0
    ensures Score(275.0, 0.0, 550.0 / 11.0) == 5
    ensures Score(549.0, 0.0, 550.0 / 11.0) == 10
    ensures Score(600.0, 0.0, 550.0 / 11.0) == 10
  {
    assert 550.0 / 11.0 == 50.0;
    assert (275.0 - 0.0) / 50.0 == 5.5;
    assert (549.0 - 0.0) / 50.0 == 10.98;
    assert (600.0 - 0.0) / 50.0 == 12.0;
  }

  /**
   * Two drag samples at x = 120 and x = 121 fall into bucket 2 and publish
   * exactly one event, which is still reported as changing.
   */
  lemma SameBucketPublishesOnce()
    ensures
      var first := ToNps(MotionEvent(ACTION_MOVE, 120.0), 0, 50.0);
      var second := ToNps(MotionEvent(ACTION_MOVE, 121.0), 0, 50.0);
      && first == second == NpsEvent(2, true)
      && Emitted(Unset, [first, second]) == [NpsEvent(2, true)]
  {
    assert (120.0 - 0.0) / 50.0 == 2.4;
    assert (121.0 - 0.0) / 50.0 == 2.42;
    var e := NpsEvent(2, true);
    assert Emitted(Unset, [e, e]) == [e] + Emitted(Touched(Unset, e), [e]);
    assert [e, e][1..] == [e];
    assert Emitted(Touched(Unset, e), [e]) == [] + Emitted(Touched(Unset, e), []);
  }

  /**
   * Every action other than `ACTION_UP` publishes `changing = true`: a press
   * and a cancelled gesture in bucket 2 publish the same event as a drag.
   */
  lemma DownAndCancelAreChanging()
    ensures ToNps(MotionEvent(ACTION_DOWN, 120.0), 0, 50.0) == NpsEvent(2, true)
    ensures ToNps(MotionEvent(ACTION_CANCEL, 121.0), 0, 50.0) == NpsEvent(2, true)
    ensures ToNps(MotionEvent(ACTION_MOVE, 120.0), 0, 50.0) == ToNps(MotionEvent(ACTION_CANCEL, 121.0), 0, 50.0)
  {
    assert (120.0 - 0.0) / 50.0 == 2.4;
    assert (121.0 - 0.0) / 50.0 == 2.42;
  }

  /** Lifting the finger in the same bucket publishes again, now with `changing` cleared. */
  lemma ReleaseIsPublished()
    ensures
      var drag := ToNps(MotionEvent(ACTION_MOVE, 120.0), 0, 50.0);
      var release := ToNps(MotionEvent(ACTION_UP, 121.0), 0, 50.0);
      && release == NpsEvent(2, false)
      && Emitted(Unset, [drag, release]) == [drag, release]
  {
    assert (120.0 - 0.0) / 50.0 == 2.4;
    assert (121.0 - 0.0) / 50.0 == 2.42;
    var drag, release := NpsEvent(2, true), NpsEvent(2, false);
    assert [drag, release][1..] == [release];
    assert Emitted(Touched(Unset, drag), [release]) == [release] + Emitted(Touched(Touched(Unset, drag), release), []);
  }
}
