/**
 * The selection state of the slider: `lastNpsEvent` and the value held by
 * the published state flow `_value`, with the duplicate suppression of
 * `onTouchEvent` and the reset of `clear()`. A touch that computes the same
 * event as the last one changes nothing; any other replaces both cells.
 */
module Selection {
  import opened Kotlin
  import opened Touch

  /** The two cells the widget keeps: `lastNpsEvent` and `_value.value`. */
  datatype Selection = Selection(last: Option<NpsEvent>, published: Option<NpsEvent>)

  /** Nothing selected: the state after construction and after `clear()`. */
  const Unset: Selection := Selection(None, None)

  /** A present score lies in `0..10`. */
  predicate InRange(e: Option<NpsEvent>)
  {
    e.Some? ==> MIN_NPS <= e.value.nps <= MAX_NPS
  }

  /** The invariant the widget keeps: both cells agree and hold a valid score, if any. */
  predicate Consistent(s: Selection)
  {
    s.last == s.published && InRange(s.last)
  }

  /** Whether a computed event differs from the last one, so that it is published and redrawn. */
  predicate Changes(s: Selection, e: NpsEvent)
  {
    Some(e) != s.last
  }

  /** The state after `onTouchEvent` computes event `e`. */
  function Touched(s: Selection, e: NpsEvent): (r: Selection)
    ensures r.last == Some(e)
    ensures r == s <==> !Changes(s, e)
    ensures Changes(s, e) ==> r.published == Some(e)
    ensures Consistent(s) && InRange(Some(e)) ==> Consistent(r)
  {
    if Changes(s, e) then Selection(Some(e), Some(e)) else s
  }

  /** Handling the same event twice in a row is the same as handling it once. */
  lemma TouchedTwice(s: Selection, e: NpsEvent)
    ensures Touched(Touched(s, e), e) == Touched(s, e)
    ensures !Changes(Touched(s, e), e)
  {
  }

  /** The state after the events `es`, in order. */
  function Run(s: Selection, es: seq<NpsEvent>): (r: Selection)
    decreases |es|
  {
    if es == [] then s else Run(Touched(s, es[0]), es[1..])
  }

  /** The values written to the published cell while handling `es`, in order. */
  function Emitted(s: Selection, es: seq<NpsEvent>): (t: seq<NpsEvent>)
    decreases |es|
  {
    if es == [] then []
    else (if Changes(s, es[0]) then [es[0]] else []) + Emitted(Touched(s, es[0]), es[1..])
  }

  /** No value follows an equal one. */
  predicate NoRepeats(t: seq<NpsEvent>)
  {
    forall k :: 0 < k < |t| ==> t[k] != t[k - 1]
  }

  /**
   * Subscribers never see the same event twice in a row, and the first value
   * they see differs from what was selected before; at most one value is
   * published per touch.
   */
  lemma {:induction false} EmittedHasNoRepeats(s: Selection, es: seq<NpsEvent>)
    ensures NoRepeats(Emitted(s, es))
    ensures Emitted(s, es) != [] ==> Some(Emitted(s, es)[0]) != s.last
    ensures |Emitted(s, es)| <= |es|
    decreases |es|
  {
    if es != [] {
      var t := Touched(s, es[0]);
      EmittedHasNoRepeats(t, es[1..]);
      if Changes(s, es[0]) {
        var tail := Emitted(t, es[1..]);
        assert Emitted(s, es) == [es[0]] + tail;
        forall k | 0 < k < |[es[0]] + tail|
          ensures ([es[0]] + tail)[k] != ([es[0]] + tail)[k - 1]
        {
          if k == 1 {
            assert ([es[0]] + tail)[1] == tail[0];
          } else {
            assert ([es[0]] + tail)[k] == tail[k - 1];
            assert ([es[0]] + tail)[k - 1] == tail[k - 2];
          }
        }
      } else {
        assert t == s;
        assert Emitted(s, es) == Emitted(t, es[1..]);
      }
    }
  }

  /**
   * After a run of touches from a consistent state the widget is still
   * consistent, the last touch's event is selected, and the published cell
   * holds the last value emitted (or its old value if nothing was emitted).
   */
  lemma {:induction false} RunPublishesLastEmitted(s: Selection, es: seq<NpsEvent>)
    requires Consistent(s)
    requires forall k :: 0 <= k < |es| ==> InRange(Some(es[k]))
    ensures Consistent(Run(s, es))
    ensures es != [] ==> Run(s, es).last == Some(es[|es| - 1])
    ensures Run(s, es).published
         == if Emitted(s, es) == [] then s.published
            else Some(Emitted(s, es)[|Emitted(s, es)| - 1])
    decreases |es|
  {
    if es != [] {
      var t := Touched(s, es[0]);
      RunPublishesLastEmitted(t, es[1..]);
      var tail := Emitted(t, es[1..]);
      if Changes(s, es[0]) {
        assert Emitted(s, es) == [es[0]] + tail;
      } else {
        assert t == s;
      }
      if es[1..] == [] {
        assert Run(t, es[1..]) == t;
      } else {
        assert es[1..][|es[1..]| - 1] == es[|es| - 1];
      }
    }
  }
}
