# Virtual mouse gesture state machine, in Dafny

This project models the gesture logic of a webcam "virtual mouse". Each
camera frame, a hand-tracking model reports the hand's landmarks. The
`VirtualMouse` object then picks one of five gestures in a fixed priority
order: screenshot, scroll, click, move, idle. It runs the matching action
and updates its session state. That state is three latch flags
(`is_clicking`, `is_take_screenshot`, `is_scrolling`) and a scroll baseline
(`last_y`).

Modules:

- `RealArith` (`reals.dfy`): two sign facts about products of reals used by the proofs.
- `Landmarks` (`landmarks.dfy`): normalised landmark points and the ten landmarks of a hand that the logic reads. Also the squared pinch distances and the finger-pose tests.
- `Gestures` (`gestures.dfy`): the five-way decision `Classify`. It is proved equal to a reference "first guard that holds in priority order" definition.
- `Remap` (`remap.dfy`): the linear range remap `_map_value`, Python's `int()` as truncation toward zero, and the cursor coordinate built from them.
- `Session` (`session.dfy`): the session as a value (`Latches`) and the action a frame requests. It holds the frame step `Step`, its helpers for each branch, `Run` over successive frames, and the multi-frame properties.
- `Mouse` (`virtual_mouse.dfy`): the class `VirtualMouse`. Its fields are updated in place. Each method returns the OS action instead of performing it, and is proved to agree with the pure step of `Session`.

Modelling choices:

- Coordinates are `real`. `math.hypot(dx, dy) < t` is modelled as `dx² + dy² < t²`. `Landmarks.HypotBelowThreshold` proves that this agrees with comparing the true root against a nonnegative threshold.
- The pyautogui calls become returned `Action` values: `MoveTo(x, y)`, `LeftClick`, `ScrollBy(±1)`, `SaveScreenshot` or `NoAction`.
- The screen size from `pyautogui.size()` is a constructor parameter.
- Python's `int()` truncates toward zero. The model does the same, so landmarks slightly outside the frame (negative coordinates) map as they do in the source.
- Several hands in one frame are processed one after another against the same object. `Run` over a sequence of hands covers that case as well as successive frames.

The latches are not mutually exclusive. Only the idle branch clears
`is_clicking` and `is_take_screenshot` (main.py:157-161). So after a click,
the screenshot, scroll and move branches all leave the click latch set, and
a second click fires only after an idle frame. `Session.Step` states exactly
when each latch is set and cleared. `Session.LatchesCanOverlap` shows a
click followed by a screenshot that leaves both latches set.

## Model

| member | source | states |
|---|---|---|
| `Landmarks.SqDist` | main.py:124-127 | the squared thumb-to-fingertip distance is nonnegative and bounds the squared gap along each axis |
| `Landmarks.Within` | main.py:124-137 | the pinch test `hypot < t` as a squared comparison; a pinch within t has each axis gap below t |
| `Landmarks.ScreenshotPose` | main.py:134-137 | all four fingertips (index, middle, ring, pinky) within 0.07 of the thumb tip |
| `Landmarks.ScrollPose` | main.py:129-132 | index and middle tips above their PIP joints, ring and pinky tips below their MCP joints |
| `Landmarks.ClickPose` | main.py:148 | the thumb-to-index distance below 0.05 |
| `Landmarks.MovePose` | main.py:151 | the index tip above (smaller y than) the middle tip |
| `Landmarks.HypotBelowThreshold` | main.py:124-137 | comparing the squared pinch distance with t² decides `hypot < t` exactly, for any nonnegative threshold and the nonnegative root of the distance |
| `Landmarks.ClickPinchLeavesAnotherFingerOpen` | main.py:134-148 | a hand that passes the 0.05 click pinch but fails the screenshot test has the index within 0.07 and some other fingertip at 0.07 or more from the thumb |
| `Gestures.FirstMatchIndex` | main.py:134-161 | reference decision: the position of the first gesture in the order whose guard holds (every earlier guard fails), or the length of the order when none holds |
| `Gestures.Classify` | main.py:129-161 | the screenshot pose wins whatever the finger-pose tests say; a click is never a scroll pose and has the thumb-index pinch below 0.05; idle exactly when none of the four poses holds; every other result's pose holds |
| `Gestures.ClassifyIsFirstMatch` | main.py:134-161 | the if/elif chain equals the first match of the priority order screenshot, scroll, click, move (idle when none matches) |
| `Gestures.ClickedHandIsNotFullPinch` | main.py:134-150 | whenever the click branch is taken, the middle, ring or pinky tip lies outside the 0.07 screenshot pinch |
| `Gestures.TightPinchIsScreenshot` | main.py:134-150 | all four fingertips 0.02 from the thumb pass the click threshold too, yet the frame is classified as a screenshot |
| `Remap.MapValue` | main.py:163-170 | the remap takes `in_min` to `out_min` and `in_max` to `out_max`; it requires `in_min != in_max` |
| `Remap.MapValueMonotone` | main.py:163-170 | for increasing input and output ranges the remap is monotone non-decreasing |
| `Remap.MapValueRoundTrip` | main.py:163-170 | remapping back with the ranges swapped returns the original value |
| `Remap.Trunc` | main.py:45-46 | `int()` of a float is its integer part: the largest integer not above it for nonnegative input, the smallest not below it for negative input |
| `Remap.ScreenCoord` | main.py:45-46 | the cursor coordinate is the integer part of v·size, truncated toward zero for negative v as well, and lies in [0, size] whenever v is in [0, 1] |
| `Remap.CentreColumnTarget` | main.py:45-46 | the index tip at (0.5, 0.3) on a 1920×1080 screen targets pixel (960, 324) |
| `Session.TakeScreenshotStep` | main.py:67-78 | a capture is requested exactly when the screenshot latch was clear; afterwards the latch is set and nothing else changes |
| `Session.ClickStep` | main.py:49-65 | a click is requested exactly when the click latch was clear; afterwards the latch is set and nothing else changes |
| `Session.ScrollStep` | main.py:80-101 | the first frame sets the scroll latch and the baseline and requests nothing; later frames request one tick, -1 for a downward move and +1 for an upward move, exactly when the move exceeds 30 pixels, and only then re-base; the other latches are unchanged; afterwards the baseline is within 30 pixels of the wrist |
| `Session.MoveAction` | main.py:35-47 | the move action targets a pixel inside the screen whenever the index tip is inside the frame |
| `Session.WristY` | main.py:90 | the wrist height in camera pixels, within [0, 480] whenever the wrist is inside the frame |
| `Session.Step` | main.py:103-161 | a capture exactly on the screenshot pose with the latch clear; a click exactly on the click branch with the latch clear; a tick only on the scroll branch past the sensitivity; a move exactly on the move branch; the click and screenshot latches each set only by their own gesture and cleared only by idle; the scroll latch set exactly on the scroll branch and cleared by every other branch; the baseline moved only by scroll |
| `Session.Run` | main.py:203-205 | successive `update` calls, one per hand, against one session, the state of each call feeding the next: exactly one action per hand |
| `Session.ScreenshotOncePerGesture` | main.py:134-161 | over frames with no idle frame, the screenshot latch ends set iff it started set or the pose appeared, and exactly one capture happens iff the latch started clear and the pose appeared (otherwise none) |
| `Session.ClickOncePerGesture` | main.py:143-161 | over frames with no idle frame, exactly one click happens iff the click latch started clear and the click branch was taken, otherwise none |
| `Session.HeldScrollTicks` | main.py:80-101 | holding the scroll pose keeps the scroll latch set and the other latches unchanged, and n frames of a fresh gesture emit at most n - 1 ticks |
| `Session.IdleRearms` | main.py:157-161 | an idle frame clears all three latches, keeps the baseline, and the next screenshot or click pose fires again |
| `Session.LatchesCanOverlap` | main.py:134-150 | a click frame then a screenshot frame from the initial session click once, capture once, and leave both latches set |
| `Session.ScrollScenario` | main.py:90-101 | wrist at 100, 140, 145 pixels under the scroll pose: no tick, one downward tick, no tick; baseline 140 |
| `Mouse.VirtualMouse.constructor` | main.py:23-33 | a new session has every latch clear, baseline 0, and the given screen size |
| `Mouse.VirtualMouse.Move` | main.py:35-47 | returns the move action for the index tip, inside the screen when the tip is inside the frame |
| `Mouse.VirtualMouse.Click` | main.py:49-65 | clicks only when the click latch was clear, sets it, changes no other field |
| `Mouse.VirtualMouse.TakeScreenshot` | main.py:67-78 | captures only when the screenshot latch was clear, sets it, changes no other field |
| `Mouse.VirtualMouse.Scroll` | main.py:80-101 | updates the scroll latch and baseline and returns the tick exactly as `Session.ScrollStep` says |
| `Mouse.VirtualMouse.Update` | main.py:103-161 | the new fields and the returned action are those of `Session.Step` on the old fields; the screen size is unchanged |

## Left out

- The camera capture loop, frame flip, colour conversion, window display and quit key (main.py:173-214): input/output and user interface.
- The hand-tracking model and its detection and tracking confidence constants (main.py:8-9): the model is an external component whose behaviour is not visible here.
- The OS automation effects (`moveTo`, `click`, `scroll`, `screenshot().save` to `screenshot.png`, the console message) and `pyautogui.size()`: replaced by returned actions and a constructor parameter.
- The overlay circles drawn on the camera image (main.py:63-65, 139-141, 145-147, 153-155), and the `CAMERA_WIDTH` constant, which the core uses only for them (its other use, main.py:182, sets the capture width in the camera loop left out above): cosmetic.
- Floating-point rounding, `math.hypot` and float division: the model uses exact reals.
- The landmark lookups at main.py:114-122 are assumed to succeed: the model reads the intended pinky tip and pinky MCP landmarks. The source asks the hand-tracking library for `HandLandmark.PINKY_FINGER_TIP` (main.py:118) and `HandLandmark.PINKY_FINGER_MCP` (main.py:122); if the library's enum names them only `PINKY_TIP` and `PINKY_MCP`, `update` raises `AttributeError` on every frame with a hand and the program stops. The library is not part of this model, so this cannot be decided here.
- The `image` argument of `update` and `click`: only used for drawing.
