# Hand-gesture desktop controller — a verified model

The controller watches a webcam. For each frame it:

- classifies the first detected hand into five open/closed fingers;
- maps that pose to a desktop action;
- waits until the same action has been held for a number of consecutive frames and a cooldown has passed, then dispatches it;
- moves the Windows Task View highlight with the index fingertip while Task View is open.

This project models one tick of that loop in Dafny. Camera, vision, drawing and OS calls are replaced by inputs and by an oracle object. It has four modules:

- `Prelude` (`prelude.dfy`): `Option` and `Result`, plus `Outcome`, which stands for a Python call that completes or raises. It also holds the ASCII part of `str.lower`.
- `Gestures` (`gestures.dfy`), pure: the finger-state classifier of `hand_gesture/gestures.py` (thumb rule by handedness, the tip-above-joint rule for the other fingers), the exact-match pose table, and the action labels. The per-frame contract of the vision engine is `FirstHand`: at most one hand, the first one, with its handedness label when there is one.
- `Actions` (`actions.dfy`), imperative: `DesktopActionExecutor` as a class.
  - Fields: the Task View flag, the remembered external window and the last error.
  - Methods: opening, navigating and selecting in Task View; closing and switching windows; "close all apps"; and `Execute` with its error conventions.
  - The OS is a `Desktop` object. Its foreground window, window-to-process map, live windows and focusable windows are read-only inputs. Every key event, window call, pyautogui hotkey and sleep is appended to its `calls` log. Each executor method states exactly which OS calls it made, in order. The one exception is "close all apps" on Windows, which states only its result (see "Left out"). `Execute` carries these call logs for every action and platform. `_send_windows_hotkey` validates all keys before it emits anything. It presses keys in order and releases them in reverse.
- `Controller` (`controller.dfy`), imperative: `GestureController` with the stability counter, the cooldown gate, the Task View navigation tracker and the per-frame order of `run`. The pure pieces are functions with their own lemmas:
  - the debounce step and its fold over a run of frames;
  - the dead zone;
  - the direction rule.

The clock (`time.time()`) is the `now` parameter. The program reads it twice per frame: once in the dispatch gate (`hand_gesture/controller.py:64`) and once in the navigation tracker (`hand_gesture/controller.py:140`). A frame of the model uses one `now` for both. The tracker reads its clock only in a tracked frame: index-only pose, Task View open, and a fingertip from an earlier frame. The earlier fingertip means the flag was already set when the previous frame ended, because the tracker clears the fingertip whenever the flag is off. In such a frame the only action that can be dispatched is opening Task View, the mapping of the index-only pose. With the flag already set, that call returns without any OS call (`hand_gesture/actions.py:98-99`). So no sleep or key event runs between the two reads, and they differ only by computation time. `platform.system()`, `os.getpid()` and the availability of pyautogui are parameters. Coordinates, deltas and times are mathematical reals.

The three navigation settings `switch_nav_frame_deadzone`, `switch_nav_min_delta` and `switch_nav_cooldown_seconds` are read by `hand_gesture/controller.py` at lines 125, 141 and 145. They are not fields of `RuntimeConfig` (`hand_gesture/config.py:5-13`). So with the shipped configuration, the navigation tracker would raise an `AttributeError` the first time it reaches the dead-zone test. `run` has no handler around the tick (`hand_gesture/controller.py:168-190`), so the error leaves `run` and skips the `_cleanup` call at `hand_gesture/controller.py:208`. The model does what the code evidently intends: the three values are constructor parameters of `GestureController`, next to the two settings whose defaults `Controller.DEFAULT_CONSECUTIVE_FRAMES_REQUIRED` (8) and `Controller.DEFAULT_ACTION_COOLDOWN_SECONDS` (2.0) record.

Properties of the whole tick that the model proves:

- The stability state is always consistent: the count is zero exactly when there is no candidate. This holds through `UpdateStability` and `TryExecuteAction`, and `Valid()` keeps it.
- From the initial state, the count equals the length of the final run of identical recognised frames (`StabilityCountsTrailingRun`). A held gesture therefore reaches the threshold on exactly its N-th frame.
- The Task View flag is set only on Windows (`DesktopActionExecutor.Valid`).
- `GestureController.Tick` states when a frame dispatches: after the debounce step, the candidate must be held for the required frames and its cooldown must have passed. Using those contracts, `HeldOpenPalm` follows a fresh controller with the default settings through an open palm held over a sequence of frame times, each at least 2.0 s past the clock's origin. The first seven frames attempt nothing, the eighth attempts closing the current app, and the next seven attempt nothing.
- In the tick order stability → execute → navigate, the "freeze while a selection is being stabilised" branch of the navigation tracker never runs. The navigation pose maps to opening Task View, so the candidate is either that action or nothing by the time navigation runs (`GestureController.Tick` ensures `path != Frozen`).
- `GestureController.Tick` states the tracker's new fingertip, accumulator and navigation time for every frame. `NavigationFrame` restates one frame in the navigation pose through an independent reference, `TrackedStep` and `TrackedMove`. With it, `SwipeRight` follows a swipe in Task View: fingertip (0.50, 0.50), (0.50, 0.50), (0.56, 0.50), (0.62, 0.50), dead zone 0.01, minimum 0.05. Exactly the third frame moves right and clears the accumulator, and the fourth, inside the new cooldown, only accumulates 0.06. `CooldownAccumulates` shows that, while the navigation cooldown runs, repeated `TrackedStep`s send nothing and accumulate exactly the fold `AccumulateMotion`. `JitterDoesNotAccumulate` shows that this fold ignores jitter inside the dead zone.

## Model

| member | source | states |
|---|---|---|
| Gestures.ThumbOpen | hand_gesture/gestures.py:25-30 | the thumb bit is 0 or 1; it is 1 iff the tip is right of the joint for a "Left" hand, and left of it for "Right" or any other or missing label |
| Gestures.FingerOpen | hand_gesture/gestures.py:33-34 | a finger bit is 0 or 1, and 1 iff the tip's y is above (less than) the y two landmarks below the tip |
| Gestures.HandednessFlipsThumb | hand_gesture/gestures.py:25-30 | with distinct x-coordinates "Right" and "Left" give opposite thumb bits; with equal ones both give 0; every label other than "Left" behaves like "Right" |
| Gestures.ExtractHandInfo | hand_gesture/gestures.py:37-50 | every component is a bit; the count is their sum and lies in 0..5; the thumb and the fingers at tips 8, 12, 16, 20 follow their rules; the index tip is (lm[8].x, lm[8].y) |
| Gestures.FirstHand | hand_gesture/vision.py:34-50 | there is a hand iff one was detected; its count is the sum of its bits; its index tip and its index, middle, ring and pinky bits come from the first detected hand; its thumb follows that hand's first handedness label, or the right-hand rule when there is no label |
| Gestures.MapAction | hand_gesture/gestures.py:53-62 | an action is returned only for its own pose, and nothing is returned exactly for a state that is no action's pose |
| Gestures.MapActionInvertsPose | hand_gesture/gestures.py:53-62 | each action's pose maps back to that action, and two recognised states that map to the same action are equal |
| Gestures.ActionLabel | hand_gesture/gestures.py:65-74 | the label is "None" exactly when there is no action |
| Gestures.ActionLabelInjective | hand_gesture/gestures.py:65-74 | distinct (optional) actions have distinct labels |
| Actions.KeyCodesCorrect | hand_gesture/actions.py:185-192 | the lookup succeeds iff every lower-cased key is in the key table; it then gives each key's code in argument order; otherwise the error names the first unknown key as written |
| Actions.LookupKeys | hand_gesture/actions.py:187-192 | the validation loop computes exactly the lookup of all keys, so no key is sent unless every key is known |
| Actions.FixedChordCodes | hand_gesture/actions.py:149-159 | the chords the executor sends (win+tab, alt+tab, alt+f4, enter) all resolve in the key table |
| Actions.SendWindowsHotkey | hand_gesture/actions.py:185-197 | for known keys it emits key-downs in argument order and then key-ups with the KEYUP flag in reverse order, and completes; for an unknown key it raises the unsupported-key error and emits nothing |
| Actions.SendKnownHotkey | hand_gesture/actions.py:185-197 | a chord of known keys always emits its presses and releases |
| Actions.FocusWindow | hand_gesture/actions.py:179-182 | restores, then raises the window, and reports whether it came to the front |
| Actions.DesktopActionExecutor.constructor | hand_gesture/actions.py:18-25 | stores the settings and the lower-cased platform name; no error, no remembered window, Task View closed |
| Actions.DesktopActionExecutor.RefreshExternalTarget | hand_gesture/actions.py:31-41 | the remembered window becomes the refreshed target: it stores the foreground window unless Task View is open, the platform is not Windows, there is no foreground window, or it belongs to this process; a newly stored handle is non-null and foreign |
| Actions.DesktopActionExecutor.FocusLastExternalWindow | hand_gesture/actions.py:126-133 | succeeds iff on Windows a remembered window is alive and focusable; a dead remembered window is forgotten; focus calls are made only for a live one |
| Actions.DesktopActionExecutor.CloseLastExternalWindow | hand_gesture/actions.py:135-146 | succeeds iff the remembered window can be focused, and then pauses 0.05 s and sends Alt+F4; a dead window is forgotten |
| Actions.DesktopActionExecutor.CloseCurrentApp | hand_gesture/actions.py:65-73 | on Windows closes the remembered window or sets and raises the no-external-app error; elsewhere sends command+q on macOS and alt+f4 otherwise |
| Actions.DesktopActionExecutor.SwitchWindow | hand_gesture/actions.py:75-82 | on Windows focuses the remembered window, falling back to Alt+Tab; elsewhere sends command+tab on macOS and alt+tab otherwise |
| Actions.DesktopActionExecutor.CloseAllApps | hand_gesture/actions.py:84-90 | completes exactly max(0, close_all_iterations) rounds of close, pause, switch, pause, refresh; a failed close stops it early with its error; off Windows the exact call log is the round repeated |
| Actions.DesktopActionExecutor.OpenTaskView | hand_gesture/actions.py:96-105 | on Windows sets the Task View flag, sending Win+Tab only when it was not already set; elsewhere switches windows and leaves the flag alone |
| Actions.DesktopActionExecutor.NavigateTaskView | hand_gesture/actions.py:107-114 | succeeds iff on Windows, Task View is open and the lower-cased direction is left, right, up or down; only then its arrow key is sent; the flag never changes |
| Actions.DesktopActionExecutor.SelectTaskViewWindow | hand_gesture/actions.py:116-124 | on Windows with Task View open sends Enter and clears the flag; with it closed sets and raises "Task View is not active." and sends nothing; elsewhere switches windows |
| Actions.DesktopActionExecutor.Execute | hand_gesture/actions.py:43-63 | succeeds iff no error is left; fails with the pyautogui hint off Windows without pyautogui; an action's exception becomes "Action failed: " plus its message; the flag ends as open/select rules say; Task View stays Windows-only; the remembered window is kept except by close-current, which forgets a dead one, and close-all (`ExecuteEffect`); off Windows, and on Windows for open, select and close-current, the exact OS calls are stated |
| Controller.StabilityStep | hand_gesture/controller.py:41-58 | after one frame the count is zero exactly when there is no candidate |
| Controller.StabilityCountsTrailingRun | hand_gesture/controller.py:41-58 | from the initial state the count is the length of the final run of identical recognised frames, and the candidate is that run's action |
| Controller.HeldActionCounts | hand_gesture/controller.py:48-58 | holding a new action for n >= 1 frames makes it the candidate with count n |
| Controller.DeadZone | hand_gesture/controller.py:123-128 | a per-axis delta is kept when its magnitude reaches the dead zone and becomes 0 below it |
| Controller.JitterDoesNotAccumulate | hand_gesture/controller.py:123-131 | frame deltas that all stay inside the dead zone on an axis add nothing to that axis of the accumulator |
| Controller.ChooseDirection | hand_gesture/controller.py:145-151 | no direction iff both axes are below the minimum; horizontal iff \|dx\| >= \|dy\| and \|dx\| reaches the minimum (ties go horizontal); right/left and down/up follow the sign |
| Controller.ChooseDirectionMirrors | hand_gesture/controller.py:148-151 | reversing a non-zero accumulated motion reverses the chosen direction |
| Controller.DirectionNameIsNavKey | hand_gesture/controller.py:149-153 | every direction the tracker sends is a lower-case Task View navigation key |
| Controller.GestureController.constructor | hand_gesture/controller.py:20-38 | creates the executor and starts with no candidate, count 0, times 0, status "Ready", no fingertip, zero accumulator |
| Controller.GestureController.UpdateStability | hand_gesture/controller.py:41-58 | no action resets to (none, 0); the candidate again increments the count; another action becomes the candidate with count 1 |
| Controller.GestureController.TryExecuteAction | hand_gesture/controller.py:61-95 | attempts the candidate iff the candidate is held for the required frames and the cooldown (waived for selecting in Task View) has elapsed; otherwise nothing but the cooldown status changes; every dispatch clears the candidate; the action time moves to now only on success; the status tells success or the error; the executor's error and remembered window are those `Execute` leaves from the state before the dispatch |
| Controller.GestureController.SendNavigation | hand_gesture/controller.py:153-157 | a chosen direction sent while Task View is open emits its arrow key, records the time and status, and clears the accumulator; otherwise nothing changes |
| Controller.GestureController.HandleTaskViewNavigation | hand_gesture/controller.py:97-159 | leaving the pose or Task View clears tip and accumulator; the first frame only records the tip; the freeze keeps the accumulator; otherwise dead-zoned motion is added, and once the cooldown passes only a navigation that went out clears it; the tip ends as the current one |
| Controller.GestureController.Tick | hand_gesture/controller.py:175-190 | per frame: the finger count and label of the frame's action; unless a navigation move sets it, the status is the cooldown remainder for an armed candidate still cooling down, "Executed: " and the label or the failure text after a dispatch, and unchanged otherwise; after a dispatch the error and remembered window are those `Execute` leaves from the refreshed window; an action is attempted iff the debounced candidate is held long enough and its cooldown (waived for selecting in Task View) has elapsed, and it is that candidate; the stability state is the debounce step, or reset after an attempt; without an attempt the remembered window is the refreshed target and the flag, error and action time are kept; after one the flag follows the action and the time moves only on success; navigation resets exactly when the hand is not tracked, and the freeze branch is never taken; an untracked frame clears the fingertip and the accumulator and keeps the navigation time; a tracked frame records its fingertip, keeps the accumulator on the first sample, accumulates the dead-zoned motion while the navigation cooldown runs, and after it clears the accumulator, records the time and reports the move exactly when a direction is chosen |
| Controller.HeldOpenPalm | hand_gesture/controller.py:188-190 | with the default 8 frames and 2.0 s, an open palm held from a fresh controller, one frame per given time, each at least 2.0 s, attempts closing the current app on exactly the eighth of its first fifteen frames |
| Controller.NavigationFrame | hand_gesture/controller.py:97-159 | a frame in the navigation pose with Task View open keeps it open and moves the tracker by the reference step: first sample only records the tip; then, past the cooldown, a chosen direction clears the accumulator, records the time and the status; otherwise the dead-zoned motion is added |
| Controller.HoldFrames | hand_gesture/controller.py:116-131 | two frames held still at (0.50, 0.50) send no move, record the tip and leave the accumulator at zero and the navigation time unchanged |
| Controller.MoveFrames | hand_gesture/controller.py:123-157 | from (0.50, 0.50) with the cooldown passed, a 0.06 step right moves right and clears the accumulator; the next 0.06 step, inside the new cooldown, sends no move and only accumulates |
| Controller.SwipeRight | hand_gesture/controller.py:123-157 | the four-frame swipe sends no move, no move, right, no move, and leaves (0.06, 0) accumulated with the navigation time of that move |
| Controller.CooldownAccumulates | hand_gesture/controller.py:123-147 | while the navigation cooldown runs, every tracked frame from a recorded fingertip sends nothing, the navigation time is kept, and the accumulator is the fold `AccumulateMotion` of the dead-zoned motion along the fingertips |

## Left out

- Camera capture, MediaPipe, image flipping, landmark drawing, visual effects, the overlay and the quit key are not part of this model. `FirstHand` states only the vision engine's contract.
- The endless frame loop of `run`, its frame counter, the camera-open check and cleanup are I/O plumbing. One iteration is `GestureController.Tick`.
- Logging is not modelled.
- Setting `pyautogui.FAILSAFE` and `pyautogui.PAUSE` is not modelled. It does not affect the logic.
- The OS is a static world within one call: emitted keys and focus changes do not alter the oracle's foreground window, live windows or process map. The model records them in the call log only.
- `str.lower` is modelled on ASCII letters only.
- Floats are mathematical reals: no IEEE rounding. The landmark depth coordinate is never read and is not modelled.
- The OS calls (pyautogui hotkeys, the ctypes window and key calls, sleeps) are assumed never to raise. So the "Action failed: " path of `execute` (`hand_gesture/actions.py:61-63`) is reached only by the executor's own errors: the unsupported key, no external app, and Task View not active. Actions.DesktopActionExecutor.Execute promises success off Windows with pyautogui only under this assumption.
- Controller.GestureController.TryExecuteAction: does not restate the OS calls of a dispatch; `Execute` states them. It does carry the error and the remembered window that `Execute` leaves. The same holds for Controller.GestureController.Tick, which also does not list the navigation key logs that HandleTaskViewNavigation states.
- Controller.GestureController.TryExecuteAction: the cooldown status carries the remaining seconds as a number (`CooldownRemaining`), not the "Cooldown X.Xs" text with one decimal.
- Actions.DesktopActionExecutor.CloseAllApps: on Windows states the result, the error and the round count but not the exact call log, because each round's calls depend on how the OS reacts to the previous round.
- Actions.DesktopActionExecutor.Execute: the `else: return False` branch for a value outside the four actions cannot occur with a closed datatype of actions and is not modelled.
- Actions.DesktopActionExecutor.Execute: for "close all apps" on Windows states only the error on failure, not the calls made, for the same reason as CloseAllApps.
