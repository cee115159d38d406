/**
 * The per-frame gesture decision: five mutually exclusive outcomes tested in
 * a fixed priority order, first match wins.
 */
module Gestures {
  import opened Landmarks

  datatype Gesture = Screenshot | Scroll | Click | Move | Idle

  /** The pose test that selects each gesture; Idle is the catch-all. */
  predicate Guard(g: Gesture, h: Hand) {
    match g
    case Screenshot => ScreenshotPose(h)
    case Scroll => ScrollPose(h)
    case Click => ClickPose(h)
    case Move => MovePose(h)
    case Idle => true
  }

  /** The order in which the frame update tests the poses. */
  const Priority: seq<Gesture> := [Screenshot, Scroll, Click, Move]

  /**
   * Reference definition of a priority decision: the position in `order` of
   * the first gesture whose guard holds, or |order| when none does.
   */
  function FirstMatchIndex(h: Hand, order: seq<Gesture>): (k: nat)
    ensures k <= |order|
    ensures k < |order| ==> Guard(order[k], h)
    ensures forall j :: 0 <= j < k ==> !Guard(order[j], h)
  {
    if order == [] then 0
    else if Guard(order[0], h) then 0
    else 1 + FirstMatchIndex(h, order[1..])
  }

  /** The first gesture of `order` whose guard holds, Idle when none does. */
  function FirstMatch(h: Hand, order: seq<Gesture>): Gesture {
    var k := FirstMatchIndex(h, order);
    if k < |order| then order[k] else Idle
  }

  /** The if/elif chain of the frame update (main.py:134-161). */
  function Classify(h: Hand): (g: Gesture)
    ensures g != Idle ==> Guard(g, h)
    ensures ScreenshotPose(h) ==> g == Screenshot
    ensures g == Click ==> !ScrollPose(h) && Within(h.indexTip, h.thumbTip, CLICK_DISTANCE_THRESHOLD)
    ensures g == Idle <==> !ScreenshotPose(h) && !ScrollPose(h) && !ClickPose(h) && !MovePose(h)
  {
    if ScreenshotPose(h) then Screenshot
    else if ScrollPose(h) then Scroll
    else if ClickPose(h) then Click
    else if MovePose(h) then Move
    else Idle
  }

  /** The if/elif chain decides exactly as the first match in the priority order. */
  lemma ClassifyIsFirstMatch(h: Hand)
    ensures Classify(h) == FirstMatch(h, Priority)
  {
    var k := FirstMatchIndex(h, Priority);
    // every guard before k fails, and the one at k (if any) holds
    if k >= 1 { assert !Guard(Priority[0], h); }
    if k >= 2 { assert !Guard(Priority[1], h); }
    if k >= 3 { assert !Guard(Priority[2], h); }
    if k >= 4 { assert !Guard(Priority[3], h); }
  }

  /**
   * A hand classified as a click holds the index pinch tight and lets at
   * least one other fingertip stray beyond the screenshot threshold.
   */
  lemma ClickedHandIsNotFullPinch(h: Hand)
    requires Classify(h) == Click
    ensures !Within(h.middleTip, h.thumbTip, SCREENSHOT_DISTANCE_THRESHOLD)
         || !Within(h.ringTip, h.thumbTip, SCREENSHOT_DISTANCE_THRESHOLD)
         || !Within(h.pinkyTip, h.thumbTip, SCREENSHOT_DISTANCE_THRESHOLD)
  {
    ClickPinchLeavesAnotherFingerOpen(h);
  }

  /**
   * Every fingertip 0.02 from the thumb satisfies both the click and the
   * screenshot thresholds; the screenshot test wins because it comes first.
   */
  lemma TightPinchIsScreenshot(h: Hand)
    requires SqDist(h.indexTip, h.thumbTip) == 0.0004
    requires SqDist(h.middleTip, h.thumbTip) == 0.0004
    requires SqDist(h.ringTip, h.thumbTip) == 0.0004
    requires SqDist(h.pinkyTip, h.thumbTip) == 0.0004
    ensures ClickPose(h)
    ensures Classify(h) == Screenshot
  {
  }
}
