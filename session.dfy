/**
 * The gesture session as values: the latch flags and scroll baseline that
 * persist between frames, the OS action each frame requests, and the frame
 * step as a pure function of the old session and one hand. The class in
 * module Mouse is proved to behave as this step.
 */
module Session {
  import opened Landmarks
  import opened Gestures
  import opened Remap

  /** Pixel change of the wrist needed before one scroll tick is emitted. */
  const SCROLL_SENSITIVITY: real := 30.0

  /** The OS automation request a frame produces (at most one). */
  datatype Action =
    | NoAction
    | MoveTo(x: int, y: int)   // move the cursor to an absolute pixel
    | LeftClick
    | ScrollBy(clicks: int)    // one wheel unit; negative scrolls down
    | SaveScreenshot           // capture the screen to screenshot.png

  /** Screen size in pixels, queried once when the mouse is created. */
  datatype Screen = Screen(width: nat, height: nat)

  /** The session fields: three gesture latches and the scroll baseline. */
  datatype Latches = Latches(clicking: bool, screenshot: bool, scrolling: bool, lastY: real)

  const Initial: Latches := Latches(false, false, false, 0.0)

  datatype StepResult = StepResult(state: Latches, action: Action)

  function Abs(x: real): real {
    if x < 0.0 then -x else x
  }

  /** take_screenshot: capture only on the frame that sets the latch. */
  function TakeScreenshotStep(s: Latches): (r: StepResult)
    ensures r.state.screenshot
    ensures r.action == SaveScreenshot <==> !s.screenshot
    ensures r.action == SaveScreenshot || r.action == NoAction
    ensures r.state == s.(screenshot := true)
  {
    if !s.screenshot then StepResult(s.(screenshot := true), SaveScreenshot)
    else StepResult(s, NoAction)
  }

  /** click: click only on the frame that sets the latch. */
  function ClickStep(s: Latches): (r: StepResult)
    ensures r.state.clicking
    ensures r.action == LeftClick <==> !s.clicking
    ensures r.action == LeftClick || r.action == NoAction
    ensures r.state == s.(clicking := true)
  {
    if !s.clicking then StepResult(s.(clicking := true), LeftClick)
    else StepResult(s, NoAction)
  }

  /**
   * scroll, given the wrist's height in pixels: the first frame of a gesture
   * records the baseline; later frames emit one tick against the direction
   * of travel once the wrist has moved more than SCROLL_SENSITIVITY, and
   * then move the baseline to the wrist.
   */
  function ScrollStep(s: Latches, currentY: real): (r: StepResult)
    ensures r.state.scrolling
    ensures r.state.clicking == s.clicking && r.state.screenshot == s.screenshot
    ensures !s.scrolling ==> r.action == NoAction && r.state.lastY == currentY
    ensures r.action != NoAction <==> s.scrolling && Abs(currentY - s.lastY) > SCROLL_SENSITIVITY
    ensures r.action == NoAction || r.action == ScrollBy(-1) || r.action == ScrollBy(1)
    ensures r.action == ScrollBy(-1) <==> s.scrolling && currentY > s.lastY + SCROLL_SENSITIVITY
    ensures r.action == ScrollBy(1) <==> s.scrolling && currentY < s.lastY - SCROLL_SENSITIVITY
    ensures r.state.lastY == (if r.action == NoAction && s.scrolling then s.lastY else currentY)
    ensures Abs(currentY - r.state.lastY) <= SCROLL_SENSITIVITY
  {
    if !s.scrolling then
      StepResult(s.(scrolling := true, lastY := currentY), NoAction)
    else
      var delta := currentY - s.lastY;
      if Abs(delta) > SCROLL_SENSITIVITY then
        StepResult(s.(lastY := currentY), if delta > 0.0 then ScrollBy(-1) else ScrollBy(1))
      else
        StepResult(s, NoAction)
  }

  /** move: the cursor target for an index tip. */
  function MoveAction(indexTip: Point, screen: Screen): (a: Action)
    ensures a.MoveTo?
    ensures InUnitSquare(indexTip) ==> 0 <= a.x <= screen.width && 0 <= a.y <= screen.height
  {
    MoveTo(ScreenCoord(indexTip.x, screen.width), ScreenCoord(indexTip.y, screen.height))
  }

  /** The wrist's height in camera pixels. */
  function WristY(h: Hand): (y: real)
    ensures 0.0 <= h.wrist.y <= 1.0 ==> 0.0 <= y <= CAMERA_HEIGHT
  {
    h.wrist.y * CAMERA_HEIGHT
  }

  /** update: one frame of one hand against the session. */
  function Step(s: Latches, h: Hand, screen: Screen): (r: StepResult)
    // the requested action, by branch
    ensures r.action == SaveScreenshot <==> ScreenshotPose(h) && !s.screenshot
    ensures r.action == LeftClick <==> Classify(h) == Click && !s.clicking
    ensures r.action.ScrollBy? <==>
              Classify(h) == Scroll && s.scrolling && Abs(WristY(h) - s.lastY) > SCROLL_SENSITIVITY
    ensures r.action.MoveTo? <==> Classify(h) == Move
    ensures r.action.MoveTo? ==> r.action == MoveAction(h.indexTip, screen)
    // the click and screenshot latches: each set only by its own gesture and cleared
    // only by idle; the scroll latch: set exactly on the scroll branch, cleared by every other
    ensures r.state.screenshot == (Classify(h) == Screenshot || (s.screenshot && Classify(h) != Idle))
    ensures r.state.clicking == (Classify(h) == Click || (s.clicking && Classify(h) != Idle))
    ensures r.state.scrolling <==> Classify(h) == Scroll
    // the baseline moves only while scrolling, and then stays near the wrist
    ensures Classify(h) != Scroll ==> r.state.lastY == s.lastY
    ensures Classify(h) == Scroll ==> Abs(WristY(h) - r.state.lastY) <= SCROLL_SENSITIVITY
  {
    match Classify(h)
    case Screenshot =>
      var t := TakeScreenshotStep(s);
      StepResult(t.state.(scrolling := false), t.action)
    case Scroll =>
      ScrollStep(s, WristY(h))
    case Click =>
      var t := ClickStep(s);
      StepResult(t.state.(scrolling := false), t.action)
    case Move =>
      StepResult(s.(scrolling := false), MoveAction(h.indexTip, screen))
    case Idle =>
      StepResult(s.(clicking := false, screenshot := false, scrolling := false), NoAction)
  }

  datatype RunResult = RunResult(state: Latches, actions: seq<Action>)

  /** Successive frames, one hand each, against one session. */
  function Run(s: Latches, hands: seq<Hand>, screen: Screen): (r: RunResult)
    ensures |r.actions| == |hands|
    decreases |hands|
  {
    if hands == [] then RunResult(s, [])
    else
      var first := Step(s, hands[0], screen);
      var rest := Run(first.state, hands[1..], screen);
      RunResult(rest.state, [first.action] + rest.actions)
  }

  /** How many times `a` occurs in `actions`. */
  function Occurrences(actions: seq<Action>, a: Action): (n: nat)
    ensures n <= |actions|
    ensures n == 0 <==> a !in actions
  {
    if actions == [] then 0
    else (if actions[0] == a then 1 else 0) + Occurrences(actions[1..], a)
  }

  /** How many scroll ticks `actions` holds. */
  function Ticks(actions: seq<Action>): (n: nat)
    ensures n <= |actions|
  {
    if actions == [] then 0
    else (if actions[0].ScrollBy? then 1 else 0) + Ticks(actions[1..])
  }

  /** No frame of `hands` shows an unrecognised pose. */
  predicate NoIdleFrame(hands: seq<Hand>) {
    forall i :: 0 <= i < |hands| ==> Classify(hands[i]) != Idle
  }

  /** Some frame of `hands` is classified as `g`. */
  predicate Shows(hands: seq<Hand>, g: Gesture) {
    exists i :: 0 <= i < |hands| && Classify(hands[i]) == g
  }

  lemma ShowsCons(hands: seq<Hand>, g: Gesture)
    requires hands != []
    ensures Shows(hands, g) <==> Classify(hands[0]) == g || Shows(hands[1..], g)
  {
    if Shows(hands[1..], g) {
      var i :| 0 <= i < |hands[1..]| && Classify(hands[1..][i]) == g;
      assert Classify(hands[i + 1]) == g;
    }
    if Shows(hands, g) && Classify(hands[0]) != g {
      var i :| 0 <= i < |hands| && Classify(hands[i]) == g;
      assert Classify(hands[1..][i - 1]) == g;
    }
  }

  /**
   * Screenshots fire once per gesture: as long as no idle frame clears the
   * latch, a run of frames captures at most once, and exactly once when the
   * latch starts clear and the screenshot pose appears.
   */
  lemma {:induction false} ScreenshotOncePerGesture(s: Latches, hands: seq<Hand>, screen: Screen)
    requires NoIdleFrame(hands)
    ensures Run(s, hands, screen).state.screenshot == (s.screenshot || Shows(hands, Screenshot))
    ensures Occurrences(Run(s, hands, screen).actions, SaveScreenshot)
              == (if !s.screenshot && Shows(hands, Screenshot) then 1 else 0)
    decreases |hands|
  {
    if hands != [] {
      var first := Step(s, hands[0], screen);
      assert NoIdleFrame(hands[1..]) by {
        forall i | 0 <= i < |hands[1..]| ensures Classify(hands[1..][i]) != Idle {
          assert hands[1..][i] == hands[i + 1];
        }
      }
      ScreenshotOncePerGesture(first.state, hands[1..], screen);
      ShowsCons(hands, Screenshot);
    }
  }

  /**
   * Clicks fire once per gesture in the same way: only an idle frame clears
   * the click latch, so without one a run clicks at most once.
   */
  lemma {:induction false} ClickOncePerGesture(s: Latches, hands: seq<Hand>, screen: Screen)
    requires NoIdleFrame(hands)
    ensures Run(s, hands, screen).state.clicking == (s.clicking || Shows(hands, Click))
    ensures Occurrences(Run(s, hands, screen).actions, LeftClick)
              == (if !s.clicking && Shows(hands, Click) then 1 else 0)
    decreases |hands|
  {
    if hands != [] {
      var first := Step(s, hands[0], screen);
      assert NoIdleFrame(hands[1..]) by {
        forall i | 0 <= i < |hands[1..]| ensures Classify(hands[1..][i]) != Idle {
          assert hands[1..][i] == hands[i + 1];
        }
      }
      ClickOncePerGesture(first.state, hands[1..], screen);
      ShowsCons(hands, Click);
    }
  }

  /**
   * Holding the scroll pose keeps the scroll latch set and the other two
   * latches as they were, and the first frame of a fresh gesture only
   * records the baseline, so n frames emit at most n - 1 ticks.
   */
  lemma {:induction false} HeldScrollTicks(s: Latches, hands: seq<Hand>, screen: Screen)
    requires hands != []
    requires forall i :: 0 <= i < |hands| ==> Classify(hands[i]) == Scroll
    ensures Run(s, hands, screen).state.scrolling
    ensures Run(s, hands, screen).state.clicking == s.clicking
    ensures Run(s, hands, screen).state.screenshot == s.screenshot
    ensures Ticks(Run(s, hands, screen).actions) <= |hands| - (if s.scrolling then 0 else 1)
    decreases |hands|
  {
    var first := Step(s, hands[0], screen);
    if |hands| > 1 {
      assert forall i :: 0 <= i < |hands[1..]| ==> hands[1..][i] == hands[i + 1];
      HeldScrollTicks(first.state, hands[1..], screen);
    }
  }

  /**
   * An idle frame re-arms both fire-once gestures: whatever the session,
   * the next screenshot pose captures and the next click pose clicks.
   */
  lemma IdleRearms(s: Latches, idle: Hand, next: Hand, screen: Screen)
    requires Classify(idle) == Idle
    requires Classify(next) == Screenshot || Classify(next) == Click
    ensures var rested := Step(s, idle, screen);
            rested.state == s.(clicking := false, screenshot := false, scrolling := false) &&
            Step(rested.state, next, screen).action ==
              (if Classify(next) == Screenshot then SaveScreenshot else LeftClick)
  {
  }

  /**
   * The latches are not mutually exclusive: a click followed by a screenshot
   * leaves both set, because neither branch clears the other's latch.
   */
  lemma LatchesCanOverlap(pinch: Hand, fist: Hand, screen: Screen)
    requires Classify(pinch) == Click && Classify(fist) == Screenshot
    ensures var r := Run(Initial, [pinch, fist], screen);
            r.state.clicking && r.state.screenshot && r.actions == [LeftClick, SaveScreenshot]
  {
    var clicked := Step(Initial, pinch, screen);
    var captured := Step(clicked.state, fist, screen);
    assert clicked.action == LeftClick && captured.action == SaveScreenshot;
    assert Run(captured.state, [], screen) == RunResult(captured.state, []);
    assert [pinch, fist][1..] == [fist] && [fist][1..] == [];
    assert Run(clicked.state, [fist], screen) == RunResult(captured.state, [SaveScreenshot]);
  }

  /**
   * The wrist at 100, then 140, then 145 pixels while the scroll pose is
   * held: the first frame only records the baseline, the 40-pixel drop
   * scrolls down one unit and re-bases at 140, and the 5-pixel drop after
   * that is below the sensitivity and emits nothing.
   */
  lemma ScrollScenario(s: Latches, h1: Hand, h2: Hand, h3: Hand, screen: Screen)
    requires !s.scrolling
    requires Classify(h1) == Scroll && Classify(h2) == Scroll && Classify(h3) == Scroll
    requires WristY(h1) == 100.0 && WristY(h2) == 140.0 && WristY(h3) == 145.0
    ensures var r := Run(s, [h1, h2, h3], screen);
            r.actions == [NoAction, ScrollBy(-1), NoAction] && r.state.lastY == 140.0
  {
    var r1 := Step(s, h1, screen);
    var r2 := Step(r1.state, h2, screen);
    var r3 := Step(r2.state, h3, screen);
    assert [h1, h2, h3][1..] == [h2, h3] && [h2, h3][1..] == [h3] && [h3][1..] == [];
    assert Run(r3.state, [], screen) == RunResult(r3.state, []);
    assert Run(r2.state, [h3], screen) == RunResult(r3.state, [NoAction]);
    assert Run(r1.state, [h2, h3], screen) == RunResult(r3.state, [ScrollBy(-1), NoAction]);
  }
}
