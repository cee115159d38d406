/**
 * The virtual mouse object: screen size fixed at creation, three gesture
 * latches and a scroll baseline updated in place frame by frame. Each method
 * returns the OS action it would request instead of performing it, and is
 * proved to follow the pure step functions of module Session.
 */
module Mouse {
  import opened Landmarks
  import opened Remap
  import opened Session

  class VirtualMouse {
    const screenWidth: nat
    const screenHeight: nat
    var isClicking: bool
    var isTakeScreenshot: bool
    var isScrolling: bool
    var lastY: real

    /** The session fields as a value. */
    function State(): Latches
      reads this
    {
      Latches(isClicking, isTakeScreenshot, isScrolling, lastY)
    }

    function ScreenSize(): Screen {
      Screen(screenWidth, screenHeight)
    }

    /** A new session on a screen of the given size: nothing latched, baseline 0. */
    constructor (width: nat, height: nat)
      ensures State() == Initial
      ensures ScreenSize() == Screen(width, height)
    {
      screenWidth, screenHeight := width, height;
      isClicking, isTakeScreenshot, isScrolling := false, false, false;
      lastY := 0.0;
    }

    /** The cursor target for the index tip: its coordinates scaled to the screen. */
    method Move(indexTip: Point) returns (a: Action)
      ensures a == MoveAction(indexTip, ScreenSize())
      ensures a.MoveTo?
      ensures InUnitSquare(indexTip) ==> 0 <= a.x <= screenWidth && 0 <= a.y <= screenHeight
    {
      var screenX := Trunc(MapValue(indexTip.x, 0.0, 1.0, 0.0, screenWidth as real));
      var screenY := Trunc(MapValue(indexTip.y, 0.0, 1.0, 0.0, screenHeight as real));
      a := MoveTo(screenX, screenY);
    }

    /** Clicks unless the click latch is already set, and sets it. */
    method Click() returns (a: Action)
      modifies this`isClicking
      ensures isClicking
      ensures a == (if old(isClicking) then NoAction else LeftClick)
      ensures StepResult(State(), a) == ClickStep(old(State()))
    {
      a := NoAction;
      if !isClicking {
        a := LeftClick;
        isClicking := true;
      }
    }

    /** Captures the screen unless the screenshot latch is already set, and sets it. */
    method TakeScreenshot() returns (a: Action)
      modifies this`isTakeScreenshot
      ensures isTakeScreenshot
      ensures a == (if old(isTakeScreenshot) then NoAction else SaveScreenshot)
      ensures StepResult(State(), a) == TakeScreenshotStep(old(State()))
    {
      a := NoAction;
      if !isTakeScreenshot {
        isTakeScreenshot := true;
        a := SaveScreenshot;
      }
    }

    /**
     * Scrolls by the wrist's vertical travel: records the baseline on the
     * first frame of the gesture, then emits one tick per move of more than
     * SCROLL_SENSITIVITY pixels and re-bases.
     */
    method Scroll(wrist: Point) returns (a: Action)
      modifies this`isScrolling, this`lastY
      ensures isScrolling
      ensures !old(isScrolling) ==> a == NoAction && lastY == wrist.y * CAMERA_HEIGHT
      ensures StepResult(State(), a) == ScrollStep(old(State()), wrist.y * CAMERA_HEIGHT)
    {
      var currentY := wrist.y * CAMERA_HEIGHT;
      a := NoAction;
      if !isScrolling {
        isScrolling := true;
        lastY := currentY;
        return;
      }
      var deltaY := currentY - lastY;
      if Abs(deltaY) > SCROLL_SENSITIVITY {
        if deltaY > 0.0 {
          a := ScrollBy(-1);
        } else {
          a := ScrollBy(1);
        }
        lastY := currentY;
      }
    }

    /**
     * One frame for one hand: tests the screenshot, scroll, click and move
     * poses in that order and runs the first that holds, else clears every
     * latch. The new session and the action are those of Session.Step.
     */
    method Update(h: Hand) returns (a: Action)
      modifies this`isClicking, this`isTakeScreenshot, this`isScrolling, this`lastY
      ensures StepResult(State(), a) == Step(old(State()), h, ScreenSize())
    {
      if ScreenshotPose(h) {
        a := TakeScreenshot();
        isScrolling := false;
      } else if ScrollPose(h) {
        a := Scroll(h.wrist);
      } else if ClickPose(h) {
        a := Click();
        isScrolling := false;
      } else if MovePose(h) {
        a := Move(h.indexTip);
        isScrolling := false;
      } else {
        a := NoAction;
        isClicking := false;
        isTakeScreenshot := false;
        isScrolling := false;
      }
    }
  }
}
