/**
 * Hand landmarks as the gesture logic sees them: normalised (x, y) image
 * coordinates of the ten skeleton points it reads, the pinch distances
 * between the thumb tip and the other fingertips, and the finger-pose tests.
 * The z coordinate is never read and is not modelled.
 */
module Landmarks {
  import opened RealArith

  /** Pinch distance below which the thumb and index tip count as a click. */
  const CLICK_DISTANCE_THRESHOLD: real := 0.05
  /** Pinch distance below which every fingertip counts as touching the thumb. */
  const SCREENSHOT_DISTANCE_THRESHOLD: real := 0.07
  /** Frame height in pixels; the wrist's normalised y is scaled by it for scrolling. */
  const CAMERA_HEIGHT: real := 480.0

  /** A landmark position, normalised to the frame (usually, not always, in [0,1]). */
  datatype Point = Point(x: real, y: real)

  /** The ten landmarks of one detected hand that the gesture logic reads. */
  datatype Hand = Hand(
    wrist: Point,
    thumbTip: Point,
    indexPip: Point, indexTip: Point,
    middlePip: Point, middleTip: Point,
    ringMcp: Point, ringTip: Point,
    pinkyMcp: Point, pinkyTip: Point)

  predicate InUnitSquare(p: Point) {
    0.0 <= p.x <= 1.0 && 0.0 <= p.y <= 1.0
  }

  /** Squared Euclidean distance between two landmarks. */
  function SqDist(a: Point, b: Point): (d: real)
    ensures d >= 0.0
    ensures (a.x - b.x) * (a.x - b.x) <= d && (a.y - b.y) * (a.y - b.y) <= d
  {
    (a.x - b.x) * (a.x - b.x) + (a.y - b.y) * (a.y - b.y)
  }

  /**
   * The comparison `hypot(a - b) < t`, stated without a square root: for a
   * nonnegative threshold it holds exactly when the squared distance is below t².
   */
  predicate Within(a: Point, b: Point, t: real)
    ensures Within(a, b, t) ==> (a.x - b.x) * (a.x - b.x) < t * t && (a.y - b.y) * (a.y - b.y) < t * t
  {
    SqDist(a, b) < t * t
  }

  /**
   * Within agrees with comparing the true Euclidean distance d (the
   * nonnegative root of the squared distance) against the threshold.
   */
  lemma HypotBelowThreshold(a: Point, b: Point, t: real, d: real)
    requires 0.0 <= t && 0.0 <= d && d * d == SqDist(a, b)
    ensures d < t <==> Within(a, b, t)
  {
    // t*t - d*d factors as (t - d) * (t + d), whose sign is that of t - d
    var gap, sum := t - d, t + d;
    assert t * t - d * d == gap * sum;
    if d < t {
      ProductPositive(gap, sum);
    } else {
      ProductNonnegative(-gap, sum);
    }
  }

  /** All four fingertips pinched against the thumb tip. */
  predicate ScreenshotPose(h: Hand) {
    Within(h.indexTip, h.thumbTip, SCREENSHOT_DISTANCE_THRESHOLD) &&
    Within(h.middleTip, h.thumbTip, SCREENSHOT_DISTANCE_THRESHOLD) &&
    Within(h.ringTip, h.thumbTip, SCREENSHOT_DISTANCE_THRESHOLD) &&
    Within(h.pinkyTip, h.thumbTip, SCREENSHOT_DISTANCE_THRESHOLD)
  }

  /** A finger is up when its tip is above (smaller y than) its PIP joint. */
  predicate IndexUp(h: Hand) { h.indexTip.y < h.indexPip.y }
  predicate MiddleUp(h: Hand) { h.middleTip.y < h.middlePip.y }
  /** A finger is curled when its tip is below (larger y than) its MCP joint. */
  predicate RingDown(h: Hand) { h.ringTip.y > h.ringMcp.y }
  predicate PinkyDown(h: Hand) { h.pinkyTip.y > h.pinkyMcp.y }

  /** Index and middle fingers up, ring and pinky curled. */
  predicate ScrollPose(h: Hand) {
    IndexUp(h) && MiddleUp(h) && RingDown(h) && PinkyDown(h)
  }

  /** The tighter thumb-to-index pinch. */
  predicate ClickPose(h: Hand) {
    Within(h.indexTip, h.thumbTip, CLICK_DISTANCE_THRESHOLD)
  }

  /** The index tip is higher in the frame than the middle tip. */
  predicate MovePose(h: Hand) {
    h.indexTip.y < h.middleTip.y
  }

  /**
   * A click pinch is a strictly tighter index pinch than the screenshot
   * pinch, so a hand that is classified as a click (the screenshot test
   * failed) must hold some other fingertip away from the thumb.
   */
  lemma ClickPinchLeavesAnotherFingerOpen(h: Hand)
    requires ClickPose(h) && !ScreenshotPose(h)
    ensures Within(h.indexTip, h.thumbTip, SCREENSHOT_DISTANCE_THRESHOLD)
    ensures !Within(h.middleTip, h.thumbTip, SCREENSHOT_DISTANCE_THRESHOLD)
         || !Within(h.ringTip, h.thumbTip, SCREENSHOT_DISTANCE_THRESHOLD)
         || !Within(h.pinkyTip, h.thumbTip, SCREENSHOT_DISTANCE_THRESHOLD)
  {
    assert CLICK_DISTANCE_THRESHOLD * CLICK_DISTANCE_THRESHOLD
        < SCREENSHOT_DISTANCE_THRESHOLD * SCREENSHOT_DISTANCE_THRESHOLD;
  }
}
