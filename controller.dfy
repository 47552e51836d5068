/** The per-frame control logic of hand_gesture/controller.py: the
    stability counter that debounces the per-frame action, the cooldown
    gate that dispatches a stable action to the executor, and the tracker
    that turns index-finger motion into Task View navigation. The clock is
    the `now` parameter of each operation. */
module Controller {
  import opened Prelude
  import opened Gestures
  import opened Actions

  /** Defaults of the runtime configuration. */
  const DEFAULT_CONSECUTIVE_FRAMES_REQUIRED := 8
  const DEFAULT_ACTION_COOLDOWN_SECONDS := 2.0

  /** The status line. A cooldown message carries the remaining seconds;
      its rendering with one decimal is not modelled. */
  datatype Status = Text(text: string) | CooldownRemaining(seconds: real)

  const READY := Text("Ready")
  const EXECUTED := "Executed: "
  const FAILED := "Action failed"
  const MOVED := "Task View move: "

  /** The text shown after a failed dispatch: the executor's error, unless
      it is missing or empty. */
  function FailureText(error: Option<string>): string {
    if error.Some? && error.value != "" then error.value else FAILED
  }

  // ---------------------------------------------------------------------
  // Stability tracking

  /** The candidate action and how many consecutive frames showed it. */
  datatype Stability = Stability(candidate: Option<GestureAction>, count: nat)

  /** The count is zero exactly when there is no candidate. */
  predicate Consistent(s: Stability) {
    s.count == 0 <==> s.candidate.None?
  }

  /** One frame of debouncing: no action resets, the same action counts up,
      a different action starts a new run of one. */
  function StabilityStep(s: Stability, action: Option<GestureAction>): (r: Stability)
    ensures Consistent(r)
  {
    if action.None? then Stability(None, 0)
    else if action == s.candidate then Stability(s.candidate, s.count + 1)
    else Stability(action, 1)
  }

  /** The stability state after a run of frames, the last frame last. */
  function StabilityAfter(s: Stability, frames: seq<Option<GestureAction>>): Stability {
    if frames == [] then s
    else StabilityStep(StabilityAfter(s, frames[..|frames| - 1]), frames[|frames| - 1])
  }

  /** The number of frames at the end of `frames` that show the same action
      as the last frame (zero when the last frame shows none). */
  function TrailingRun(frames: seq<Option<GestureAction>>): nat {
    if frames == [] || frames[|frames| - 1].None? then 0
    else if |frames| >= 2 && frames[|frames| - 2] == frames[|frames| - 1] then
      TrailingRun(frames[..|frames| - 1]) + 1
    else 1
  }

  /** From the initial state, the candidate is the last frame's action and
      the count is the length of the final run of that action: the gate sees
      a count of N exactly when the action was held for the last N frames. */
  lemma {:induction false} StabilityCountsTrailingRun(frames: seq<Option<GestureAction>>)
    ensures var s := StabilityAfter(Stability(None, 0), frames);
      s.count == TrailingRun(frames) &&
      s.candidate == (if TrailingRun(frames) == 0 then None else frames[|frames| - 1])
  {
    if frames != [] {
      var init := frames[..|frames| - 1];
      StabilityCountsTrailingRun(init);
      if |frames| >= 2 {
        assert init[|init| - 1] == frames[|frames| - 2];
      }
    }
  }

  /** Holding one action for n frames after any other state ends, after the
      first frame, with that action as candidate and a count of n. */
  lemma {:induction false} HeldActionCounts(s: Stability, a: GestureAction, n: nat)
    requires s.candidate != Some(a) || n == 0
    ensures var r := StabilityAfter(s, seq(n, _ => Some(a)));
      n > 0 ==> r == Stability(Some(a), n)
  {
    if n > 1 {
      HeldActionCounts(s, a, n - 1);
      assert seq(n, _ => Some(a))[..n - 1] == seq(n - 1, _ => Some(a));
    } else if n == 1 {
      assert seq(n, _ => Some(a))[..n - 1] == [];
    }
  }

  // ---------------------------------------------------------------------
  // Task View navigation

  datatype Direction = Left | Right | Up | Down

  function DirectionName(d: Direction): string {
    match d
    case Left => "left"
    case Right => "right"
    case Up => "up"
    case Down => "down"
  }

  predicate IsHorizontal(d: Direction) { d == Left || d == Right }

  function Opposite(d: Direction): Direction {
    match d
    case Left => Right
    case Right => Left
    case Up => Down
    case Down => Up
  }

  /** Every direction name is a lower-case Task View navigation key. */
  lemma DirectionNameIsNavKey(d: Direction)
    ensures Lower(DirectionName(d)) == DirectionName(d) && DirectionName(d) in NAV_KEYS
  {
    assert Lower("left") == "left" && Lower("right") == "right";
    assert Lower("up") == "up" && Lower("down") == "down";
  }

  function Abs(r: real): real { if r < 0.0 then -r else r }

  /** A per-axis frame delta inside the dead zone counts as no motion. */
  function DeadZone(delta: real, deadzone: real): (r: real)
    ensures r == 0.0 || r == delta
    ensures r != 0.0 ==> Abs(r) >= deadzone
    ensures Abs(delta) >= deadzone ==> r == delta
  {
    if Abs(delta) < deadzone then 0.0 else delta
  }

  /** The dead-zoned fingertip motion between two frames. */
  function FrameMotion(last: (real, real), current: (real, real), deadzone: real): (real, real) {
    (DeadZone(current.0 - last.0, deadzone), DeadZone(current.1 - last.1, deadzone))
  }

  function Plus(a: (real, real), b: (real, real)): (real, real) {
    (a.0 + b.0, a.1 + b.1)
  }

  /** The navigation direction the accumulated motion asks for: the
      dominant axis decides, horizontal winning a tie, and nothing is asked
      for while both axes are below the minimum. */
  function ChooseDirection(accum: (real, real), minDelta: real): (r: Option<Direction>)
    ensures r.None? <==> Abs(accum.0) < minDelta && Abs(accum.1) < minDelta
    ensures r.Some? && IsHorizontal(r.value) <==> Abs(accum.0) >= Abs(accum.1) && Abs(accum.0) >= minDelta
    ensures r == Some(Right) ==> accum.0 > 0.0
    ensures r == Some(Left) ==> accum.0 <= 0.0
    ensures r == Some(Down) ==> accum.1 > 0.0
    ensures r == Some(Up) ==> accum.1 < 0.0
  {
    var (dx, dy) := accum;
    if Abs(dx) >= Abs(dy) && Abs(dx) >= minDelta then Some(if dx > 0.0 then Right else Left)
    else if Abs(dy) > Abs(dx) && Abs(dy) >= minDelta then Some(if dy > 0.0 then Down else Up)
    else None
  }

  /** Reversing a non-zero motion reverses the direction it asks for. */
  lemma ChooseDirectionMirrors(accum: (real, real), minDelta: real)
    requires accum != (0.0, 0.0)
    ensures var r := ChooseDirection(accum, minDelta);
      var m := ChooseDirection((-accum.0, -accum.1), minDelta);
      (r.None? <==> m.None?) && (r.Some? ==> m == Some(Opposite(r.value)))
  {
  }

  /** The accumulator after tracking the fingertip through `tips`, one frame
      per consecutive pair, without any navigation firing. */
  function AccumulateMotion(accum: (real, real), tips: seq<(real, real)>, deadzone: real): (real, real)
    decreases |tips|
  {
    if |tips| < 2 then accum
    else AccumulateMotion(Plus(accum, FrameMotion(tips[0], tips[1], deadzone)), tips[1..], deadzone)
  }

  /** Jitter is ignored: a fingertip that never moves by the dead zone or
      more along an axis between frames adds nothing on that axis. */
  lemma {:induction false} JitterDoesNotAccumulate(accum: (real, real), tips: seq<(real, real)>, deadzone: real)
    ensures (forall i :: 0 <= i < |tips| - 1 ==> Abs(tips[i + 1].0 - tips[i].0) < deadzone) ==>
      AccumulateMotion(accum, tips, deadzone).0 == accum.0
    ensures (forall i :: 0 <= i < |tips| - 1 ==> Abs(tips[i + 1].1 - tips[i].1) < deadzone) ==>
      AccumulateMotion(accum, tips, deadzone).1 == accum.1
    decreases |tips|
  {
    if |tips| >= 2 {
      var next := Plus(accum, FrameMotion(tips[0], tips[1], deadzone));
      JitterDoesNotAccumulate(next, tips[1..], deadzone);
      var rest := tips[1..];
      assert forall i :: 0 <= i < |rest| ==> rest[i] == tips[i + 1];
    }
  }

  /** Which branch of the navigation tracker a frame took. */
  datatype NavPath = Reset | FirstSample | Frozen | CoolingDown | Decided

  class GestureController {
    const consecutiveFramesRequired: int
    const actionCooldownSeconds: real
    const switchNavFrameDeadzone: real
    const switchNavMinDelta: real
    const switchNavCooldownSeconds: real
    const executor: DesktopActionExecutor

    var candidateAction: Option<GestureAction>
    var consecutiveCount: nat
    var lastActionTime: real
    var statusText: Status
    var lastIndexTip: Option<(real, real)>
    var lastSwitchNavTime: real
    var switchMotionAccum: (real, real)

    constructor (consecutiveFramesRequired: int, actionCooldownSeconds: real,
                 closeAllIterations: int, closeAllStepDelaySeconds: real,
                 switchNavFrameDeadzone: real, switchNavMinDelta: real, switchNavCooldownSeconds: real,
                 system: string, pyautoguiAvailable: bool, selfPid: int, os: Desktop)
      ensures Valid() && fresh(executor)
      ensures this.consecutiveFramesRequired == consecutiveFramesRequired
      ensures this.actionCooldownSeconds == actionCooldownSeconds
      ensures this.switchNavFrameDeadzone == switchNavFrameDeadzone
      ensures this.switchNavMinDelta == switchNavMinDelta
      ensures this.switchNavCooldownSeconds == switchNavCooldownSeconds
      ensures executor.os == os && executor.closeAllIterations == closeAllIterations
      ensures executor.closeAllStepDelaySeconds == closeAllStepDelaySeconds
      ensures executor.osName == Lower(system) && executor.pyautoguiAvailable == pyautoguiAvailable
      ensures executor.selfPid == selfPid
      ensures executor.lastError == None && executor.lastExternalHwnd == None && !executor.taskViewActive
      ensures candidateAction == None && consecutiveCount == 0 && lastActionTime == 0.0
      ensures statusText == READY && lastIndexTip == None
      ensures lastSwitchNavTime == 0.0 && switchMotionAccum == (0.0, 0.0)
    {
      this.consecutiveFramesRequired := consecutiveFramesRequired;
      this.actionCooldownSeconds := actionCooldownSeconds;
      this.switchNavFrameDeadzone := switchNavFrameDeadzone;
      this.switchNavMinDelta := switchNavMinDelta;
      this.switchNavCooldownSeconds := switchNavCooldownSeconds;
      executor := new DesktopActionExecutor(closeAllIterations, closeAllStepDelaySeconds, system,
                                            pyautoguiAvailable, selfPid, os);
      candidateAction := None;
      consecutiveCount := 0;
      lastActionTime := 0.0;
      statusText := READY;
      lastIndexTip := None;
      lastSwitchNavTime := 0.0;
      switchMotionAccum := (0.0, 0.0);
    }

    function StabilityOf(): Stability
      reads this
    {
      Stability(candidateAction, consecutiveCount)
    }

    function TrackerOf(): Tracker
      reads this
    {
      Tracker(lastIndexTip, switchMotionAccum, lastSwitchNavTime)
    }

    ghost predicate Valid()
      reads this, executor
    {
      Consistent(StabilityOf()) && executor.Valid()
    }

    /** The cooldown the gate demands: waived for selecting a window while
        Task View is open. */
    function RequiredCooldown(): real
      reads this, executor
    {
      if candidateAction == Some(SelectTaskWindow) && executor.taskViewActive then 0.0
      else actionCooldownSeconds
    }

    /** Whether the candidate has been held long enough to fire. */
    predicate Armed()
      reads this
    {
      candidateAction.Some? && consecutiveCount >= consecutiveFramesRequired
    }

    method UpdateStability(action: Option<GestureAction>)
      modifies this`candidateAction, this`consecutiveCount
      ensures action.None? ==> candidateAction == None && consecutiveCount == 0
      ensures action.Some? && action == old(candidateAction) ==>
        candidateAction == action && consecutiveCount == old(consecutiveCount) + 1
      ensures action.Some? && action != old(candidateAction) ==>
        candidateAction == action && consecutiveCount == 1
      ensures StabilityOf() == StabilityStep(old(StabilityOf()), action)
      ensures Consistent(StabilityOf())
    {
      if action.None? {
        candidateAction := None;
        consecutiveCount := 0;
        return;
      }
      if action == candidateAction {
        consecutiveCount := consecutiveCount + 1;
      } else {
        candidateAction := action;
        consecutiveCount := 1;
      }
    }

    /** The dispatch gate: an armed candidate whose cooldown has elapsed is
        executed (`attempted` names it), and the stability state restarts
        whatever the result; an armed candidate still cooling down only
        updates the status. */
    method TryExecuteAction(now: real) returns (ghost attempted: Option<GestureAction>)
      requires Valid()
      modifies this`candidateAction, this`consecutiveCount, this`lastActionTime, this`statusText
      modifies executor`lastError, executor`taskViewActive, executor`lastExternalHwnd, executor.os`calls
      ensures Valid()
      ensures attempted.Some? <==> old(Armed()) && now - old(lastActionTime) >= old(RequiredCooldown())
      ensures attempted.Some? ==> attempted == old(candidateAction)
      ensures attempted.None? ==>
        && candidateAction == old(candidateAction) && consecutiveCount == old(consecutiveCount)
        && lastActionTime == old(lastActionTime)
        && unchanged(executor) && executor.os.calls == old(executor.os.calls)
        && statusText == if old(Armed()) then CooldownRemaining(old(RequiredCooldown()) - (now - old(lastActionTime)))
                         else old(statusText)
      ensures attempted.Some? ==>
        && candidateAction == None && consecutiveCount == 0
        && executor.taskViewActive ==
             TaskViewAfter(executor.IsWindows(), old(executor.taskViewActive), old(candidateAction).value)
        && (executor.lastError.None? ==>
              lastActionTime == now && statusText == Text(EXECUTED + ActionLabel(old(candidateAction))))
        && (executor.lastError.Some? ==>
              lastActionTime == old(lastActionTime) && statusText == Text(FailureText(executor.lastError)))
        && executor.ExecuteEffect(attempted.value, old(executor.lastExternalHwnd), old(executor.taskViewActive))
    {
      if candidateAction.None? {
        return None;
      }
      var cooldownElapsed := now - lastActionTime;
      if consecutiveCount < consecutiveFramesRequired {
        return None;
      }
      var cooldownRequired := actionCooldownSeconds;
      if candidateAction == Some(SelectTaskWindow) && executor.taskViewActive {
        cooldownRequired := 0.0;
      }
      if cooldownElapsed < cooldownRequired {
        statusText := CooldownRemaining(cooldownRequired - cooldownElapsed);
        return None;
      }
      attempted := candidateAction;
      var ok := executor.Execute(candidateAction.value);
      if ok {
        lastActionTime := now;
        statusText := Text(EXECUTED + ActionLabel(candidateAction));
      } else {
        statusText := Text(FailureText(executor.lastError));
      }
      consecutiveCount := 0;
      candidateAction := None;
    }

    /** Whether this frame's hand is tracked for navigation: Task View is
        open and the hand shows the index finger alone. */
    predicate Tracks(hand: Option<HandInfo>)
      reads executor
    {
      executor.taskViewActive && hand.Some? && hand.value.fingerState == INDEX_ONLY
    }

    /** The accumulator after adding this frame's dead-zoned motion. */
    function Accumulated(last: (real, real), hand: HandInfo): (real, real)
      reads this
    {
      Plus(switchMotionAccum, FrameMotion(last, hand.indexTip, switchNavFrameDeadzone))
    }

    /** Sends the chosen navigation key, if any (the executor refuses it
        unless Task View is open); a navigation that went out restarts the accumulator and the navigation cooldown. */
    method SendNavigation(direction: Option<Direction>, now: real)
      requires executor.Valid()
      modifies this`switchMotionAccum, this`lastSwitchNavTime, this`statusText, executor.os`calls
      ensures direction.Some? && executor.taskViewActive ==>
        && switchMotionAccum == (0.0, 0.0) && lastSwitchNavTime == now
        && statusText == Text(MOVED + DirectionName(direction.value))
        && executor.os.calls == old(executor.os.calls) + HotkeyCalls([WINDOWS_VK[DirectionName(direction.value)]])
      ensures direction.None? || !executor.taskViewActive ==>
        && switchMotionAccum == old(switchMotionAccum) && lastSwitchNavTime == old(lastSwitchNavTime)
        && statusText == old(statusText) && executor.os.calls == old(executor.os.calls)
    {
      if direction.Some? {
        DirectionNameIsNavKey(direction.value);
        var moved := executor.NavigateTaskView(DirectionName(direction.value));
        if moved {
          lastSwitchNavTime := now;
          statusText := Text(MOVED + DirectionName(direction.value));
          switchMotionAccum := (0.0, 0.0);
        }
      }
    }

    /** Task View navigation for one frame. Leaving the pose (or Task View)
        forgets the fingertip and the accumulated motion; the first tracked
        frame only records the fingertip; while a selection is the candidate
        motion is not accumulated; otherwise the dead-zoned motion is added
        and, once the navigation cooldown has elapsed, a direction is chosen
        and sent. Only a navigation that was sent clears the accumulator. */
    method HandleTaskViewNavigation(hand: Option<HandInfo>, now: real) returns (ghost path: NavPath)
      requires executor.Valid()
      modifies this`lastIndexTip, this`switchMotionAccum, this`lastSwitchNavTime, this`statusText
      modifies executor.os`calls
      ensures path == Frozen <==>
        Tracks(hand) && old(lastIndexTip).Some? && candidateAction == Some(SelectTaskWindow)
      ensures !Tracks(hand) ==>
        && path == Reset && lastIndexTip == None && switchMotionAccum == (0.0, 0.0)
        && lastSwitchNavTime == old(lastSwitchNavTime) && statusText == old(statusText)
        && executor.os.calls == old(executor.os.calls)
      ensures Tracks(hand) ==> lastIndexTip == Some(hand.value.indexTip)
      ensures Tracks(hand) && (old(lastIndexTip).None? || candidateAction == Some(SelectTaskWindow)) ==>
        && (path == FirstSample || path == Frozen)
        && switchMotionAccum == old(switchMotionAccum) && lastSwitchNavTime == old(lastSwitchNavTime)
        && statusText == old(statusText) && executor.os.calls == old(executor.os.calls)
      ensures Tracks(hand) && old(lastIndexTip).Some? && candidateAction != Some(SelectTaskWindow) ==>
        var accum := old(Accumulated(lastIndexTip.value, hand.value));
        if now - old(lastSwitchNavTime) < switchNavCooldownSeconds then
          && path == CoolingDown && switchMotionAccum == accum
          && lastSwitchNavTime == old(lastSwitchNavTime) && statusText == old(statusText)
          && executor.os.calls == old(executor.os.calls)
        else
          var direction := ChooseDirection(accum, switchNavMinDelta);
          && path == Decided
          && (direction.Some? ==>
                && switchMotionAccum == (0.0, 0.0) && lastSwitchNavTime == now
                && statusText == Text(MOVED + DirectionName(direction.value))
                && executor.os.calls ==
                     old(executor.os.calls) + HotkeyCalls([WINDOWS_VK[DirectionName(direction.value)]]))
          && (direction.None? ==>
                && switchMotionAccum == accum && lastSwitchNavTime == old(lastSwitchNavTime)
                && statusText == old(statusText) && executor.os.calls == old(executor.os.calls))
    {
      if !executor.taskViewActive || hand.None? || hand.value.fingerState != INDEX_ONLY {
        lastIndexTip := None;
        switchMotionAccum := (0.0, 0.0);
        return Reset;
      }
      var currentTip := hand.value.indexTip;
      if lastIndexTip.None? {
        lastIndexTip := Some(currentTip);
        return FirstSample;
      }
      if candidateAction == Some(SelectTaskWindow) {
        lastIndexTip := Some(currentTip);
        return Frozen;
      }
      switchMotionAccum := Accumulated(lastIndexTip.value, hand.value);
      if now - lastSwitchNavTime < switchNavCooldownSeconds {
        lastIndexTip := Some(currentTip);
        return CoolingDown;
      }
      SendNavigation(ChooseDirection(switchMotionAccum, switchNavMinDelta), now);
      lastIndexTip := Some(currentTip);
      return Decided;
    }

    /** One frame of the control loop: refresh the remembered window, map the
        hand to an action, debounce it, try to dispatch it, then track Task
        View navigation. The clock is read once per frame. Because the
        navigation pose maps to opening Task View, the selection freeze
        never applies within a frame. */
    method Tick(hand: Option<HandInfo>, now: real)
      returns (fingerCount: int, actionText: string, ghost attempted: Option<GestureAction>, ghost path: NavPath)
      requires Valid()
      modifies this`candidateAction, this`consecutiveCount, this`lastActionTime, this`statusText
      modifies this`lastIndexTip, this`switchMotionAccum, this`lastSwitchNavTime
      modifies executor`lastError, executor`taskViewActive, executor`lastExternalHwnd, executor.os`calls
      ensures Valid()
      ensures fingerCount == (if hand.Some? then hand.value.fingerCount else 0)
      ensures var action := if hand.Some? then MapAction(hand.value.fingerState) else None;
        var s := StabilityStep(old(StabilityOf()), action);
        var required := if s.candidate == Some(SelectTaskWindow) && old(executor.taskViewActive) then 0.0
                        else actionCooldownSeconds;
        && actionText == ActionLabel(action)
        && (attempted.Some? <==>
              s.candidate.Some? && s.count >= consecutiveFramesRequired && now - old(lastActionTime) >= required)
        && (attempted.Some? ==> attempted == s.candidate)
        && StabilityOf() == (if attempted.Some? then Stability(None, 0) else s)
      ensures attempted.None? ==>
        && lastActionTime == old(lastActionTime) && executor.taskViewActive == old(executor.taskViewActive)
        && executor.lastError == old(executor.lastError)
        && executor.lastExternalHwnd == old(executor.RefreshedTarget())
      ensures attempted.Some? ==>
        && executor.taskViewActive == TaskViewAfter(executor.IsWindows(), old(executor.taskViewActive), attempted.value)
        && lastActionTime == (if executor.lastError.None? then now else old(lastActionTime))
        && executor.ExecuteEffect(attempted.value, old(executor.RefreshedTarget()), old(executor.taskViewActive))
      ensures var action := if hand.Some? then MapAction(hand.value.fingerState) else None;
        var s := StabilityStep(old(StabilityOf()), action);
        var required := if s.candidate == Some(SelectTaskWindow) && old(executor.taskViewActive) then 0.0
                        else actionCooldownSeconds;
        var moved := Tracks(hand) && old(lastIndexTip).Some? && now - old(lastSwitchNavTime) >= switchNavCooldownSeconds
                     && ChooseDirection(old(Accumulated(lastIndexTip.value, hand.value)), switchNavMinDelta).Some?;
        && (!moved && attempted.None? ==>
              statusText == if s.candidate.Some? && s.count >= consecutiveFramesRequired
                            then CooldownRemaining(required - (now - old(lastActionTime)))
                            else old(statusText))
        && (!moved && attempted.Some? ==>
              statusText == if executor.lastError.None? then Text(EXECUTED + ActionLabel(attempted))
                            else Text(FailureText(executor.lastError)))
      ensures path != Frozen
      ensures path == Reset <==> !Tracks(hand)
      ensures !Tracks(hand) ==>
        lastIndexTip == None && switchMotionAccum == (0.0, 0.0) && lastSwitchNavTime == old(lastSwitchNavTime)
      ensures Tracks(hand) ==> lastIndexTip == Some(hand.value.indexTip)
      ensures Tracks(hand) && old(lastIndexTip).None? ==>
        switchMotionAccum == old(switchMotionAccum) && lastSwitchNavTime == old(lastSwitchNavTime)
      ensures Tracks(hand) && old(lastIndexTip).Some? ==>
        var accum := old(Accumulated(lastIndexTip.value, hand.value));
        if now - old(lastSwitchNavTime) < switchNavCooldownSeconds then
          switchMotionAccum == accum && lastSwitchNavTime == old(lastSwitchNavTime)
        else
          var direction := ChooseDirection(accum, switchNavMinDelta);
          && (direction.Some? ==>
                && switchMotionAccum == (0.0, 0.0) && lastSwitchNavTime == now
                && statusText == Text(MOVED + DirectionName(direction.value)))
          && (direction.None? ==> switchMotionAccum == accum && lastSwitchNavTime == old(lastSwitchNavTime))
    {
      executor.RefreshExternalTarget();
      fingerCount := if hand.Some? then hand.value.fingerCount else 0;
      var action := if hand.Some? then MapAction(hand.value.fingerState) else None;
      UpdateStability(action);
      attempted := TryExecuteAction(now);
      path := HandleTaskViewNavigation(hand, now);
      actionText := ActionLabel(action);
    }
  }

  /** An open palm held from a fresh controller with the default settings,
      one frame at each of `times`, all at least the cooldown past the
      clock's origin: the frames before the eighth attempt nothing, the
      eighth attempts closing the current app, and the next seven frames
      attempt nothing again (the count restarts after every attempt,
      whether it succeeded or not). */
  method HeldOpenPalm(hand: HandInfo, times: seq<real>,
                      closeAllIterations: int, closeAllStepDelaySeconds: real,
                      switchNavFrameDeadzone: real, switchNavMinDelta: real, switchNavCooldownSeconds: real,
                      system: string, pyautoguiAvailable: bool, selfPid: int, os: Desktop)
    returns (ghost attempts: seq<Option<GestureAction>>)
    requires hand.fingerState == ALL_OPEN
    requires forall k :: 0 <= k < |times| ==> times[k] >= DEFAULT_ACTION_COOLDOWN_SECONDS
    modifies os`calls
    ensures |attempts| == |times|
    ensures forall k :: 0 <= k < |times| && k < 2 * DEFAULT_CONSECUTIVE_FRAMES_REQUIRED - 1 ==>
      attempts[k] == (if k == DEFAULT_CONSECUTIVE_FRAMES_REQUIRED - 1 then Some(CloseCurrentApp) else None)
  {
    var n := DEFAULT_CONSECUTIVE_FRAMES_REQUIRED;
    var c := new GestureController(n, DEFAULT_ACTION_COOLDOWN_SECONDS, closeAllIterations, closeAllStepDelaySeconds,
                                   switchNavFrameDeadzone, switchNavMinDelta, switchNavCooldownSeconds,
                                   system, pyautoguiAvailable, selfPid, os);
    MapActionInvertsPose(CloseCurrentApp, hand.fingerState, hand.fingerState);
    attempts := [];
    var i := 0;
    while i < |times|
      invariant 0 <= i <= |times| && |attempts| == i
      invariant c.Valid() && fresh(c.executor) && c.executor.os == os
      invariant c.consecutiveFramesRequired == n && c.actionCooldownSeconds == DEFAULT_ACTION_COOLDOWN_SECONDS
      invariant forall k :: 0 <= k < i && k < 2 * n - 1 ==>
        attempts[k] == (if k == n - 1 then Some(CloseCurrentApp) else None)
      invariant i < n ==> c.lastActionTime == 0.0
      invariant i < 2 * n - 1 ==>
        c.StabilityOf() == if i == 0 || i == n then Stability(None, 0)
                           else Stability(Some(CloseCurrentApp), if i < n then i else i - n)
    {
      var _, _, attempted, _ := c.Tick(Some(hand), times[i]);
      attempts := attempts + [attempted];
      i := i + 1;
    }
  }

  /** What the navigation tracker carries from frame to frame: the last
      fingertip, the accumulated motion and the time of the last move. */
  datatype Tracker = Tracker(tip: Option<(real, real)>, accum: (real, real), navTime: real)

  /** The direction a tracked frame (index-only pose, Task View open, no
      selection pending) sends: none on the first sample or while the
      navigation cooldown runs, else the one the accumulated motion asks for. */
  function TrackedMove(t: Tracker, tip: (real, real), now: real,
                       deadzone: real, minDelta: real, cooldown: real): Option<Direction> {
    if t.tip.None? || now - t.navTime < cooldown then None
    else ChooseDirection(Plus(t.accum, FrameMotion(t.tip.value, tip, deadzone)), minDelta)
  }

  /** The tracker after a tracked frame: a move clears the accumulator and
      records the time; otherwise the dead-zoned motion is kept. */
  function TrackedStep(t: Tracker, tip: (real, real), now: real,
                       deadzone: real, minDelta: real, cooldown: real): Tracker {
    if t.tip.None? then Tracker(Some(tip), t.accum, t.navTime)
    else if TrackedMove(t, tip, now, deadzone, minDelta, cooldown).Some? then Tracker(Some(tip), (0.0, 0.0), now)
    else Tracker(Some(tip), Plus(t.accum, FrameMotion(t.tip.value, tip, deadzone)), t.navTime)
  }

  /** The tracker after tracked frames at the fingertips `tips` and the
      times `times`, one frame per pair. */
  function TrackFrames(t: Tracker, tips: seq<(real, real)>, times: seq<real>,
                       deadzone: real, minDelta: real, cooldown: real): Tracker
    requires |tips| == |times|
    decreases |tips|
  {
    if tips == [] then t
    else TrackFrames(TrackedStep(t, tips[0], times[0], deadzone, minDelta, cooldown),
                     tips[1..], times[1..], deadzone, minDelta, cooldown)
  }

  /** While the navigation cooldown runs, tracked frames from a recorded
      fingertip send nothing and the accumulator is the fold of their
      dead-zoned motion, so jitter inside the dead zone never adds up to a
      move. */
  lemma {:induction false} CooldownAccumulates(tip: (real, real), accum: (real, real), navTime: real,
                                               tips: seq<(real, real)>, times: seq<real>,
                                               deadzone: real, minDelta: real, cooldown: real)
    requires |tips| == |times|
    requires forall i :: 0 <= i < |times| ==> times[i] - navTime < cooldown
    ensures forall i :: 0 <= i < |tips| ==>
      TrackedMove(TrackFrames(Tracker(Some(tip), accum, navTime), tips[..i], times[..i], deadzone, minDelta, cooldown),
                  tips[i], times[i], deadzone, minDelta, cooldown) == None
    ensures TrackFrames(Tracker(Some(tip), accum, navTime), tips, times, deadzone, minDelta, cooldown) ==
      Tracker(Some(([tip] + tips)[|tips|]), AccumulateMotion(accum, [tip] + tips, deadzone), navTime)
    decreases |tips|
  {
    var t := Tracker(Some(tip), accum, navTime);
    if tips != [] {
      var next := Plus(accum, FrameMotion(tip, tips[0], deadzone));
      assert TrackedStep(t, tips[0], times[0], deadzone, minDelta, cooldown) == Tracker(Some(tips[0]), next, navTime);
      CooldownAccumulates(tips[0], next, navTime, tips[1..], times[1..], deadzone, minDelta, cooldown);
      assert ([tip] + tips)[1..] == [tips[0]] + tips[1..];
      forall i | 0 <= i < |tips|
        ensures TrackedMove(TrackFrames(t, tips[..i], times[..i], deadzone, minDelta, cooldown),
                            tips[i], times[i], deadzone, minDelta, cooldown) == None
      {
        if i > 0 {
          assert tips[..i][1..] == tips[1..][..i - 1];
          assert times[..i][1..] == times[1..][..i - 1];
        }
      }
    }
  }

  /** One frame in the navigation pose while Task View is open: Task View
      stays open (the only action the pose can dispatch is opening it), and
      the tracker takes one tracked step. */
  method NavigationFrame(c: GestureController, tip: (real, real), now: real)
    requires c.Valid() && c.executor.taskViewActive
    modifies c, c.executor, c.executor.os
    ensures c.Valid() && c.executor.taskViewActive
    ensures c.TrackerOf() == TrackedStep(old(c.TrackerOf()), tip, now,
                                        c.switchNavFrameDeadzone, c.switchNavMinDelta, c.switchNavCooldownSeconds)
    ensures var m := TrackedMove(old(c.TrackerOf()), tip, now,
                                 c.switchNavFrameDeadzone, c.switchNavMinDelta, c.switchNavCooldownSeconds);
      m.Some? ==> c.statusText == Text(MOVED + DirectionName(m.value))
  {
    var _, _, _, _ := c.Tick(Some(HandInfo(INDEX_ONLY, 1, tip)), now);
  }

  /** Two frames with the fingertip held at (0.50, 0.50): the first only
      records the fingertip, the second adds no motion. */
  method HoldFrames(c: GestureController, t0: real, t1: real)
    returns (ghost a0: (real, real), ghost n0: real, ghost a1: (real, real), ghost n1: real,
             ghost m0: Option<Direction>, ghost m1: Option<Direction>)
    requires c.Valid() && c.executor.taskViewActive
    requires c.lastIndexTip == None && c.switchMotionAccum == (0.0, 0.0)
    requires c.switchNavFrameDeadzone == 0.01 && c.switchNavMinDelta == 0.05
    modifies c, c.executor, c.executor.os
    ensures c.Valid() && c.executor.taskViewActive
    ensures c.lastIndexTip == Some((0.50, 0.50)) && c.switchMotionAccum == (0.0, 0.0)
    ensures c.lastSwitchNavTime == old(c.lastSwitchNavTime)
    ensures a0 == (0.0, 0.0) && a1 == (0.0, 0.0)
    ensures n0 == old(c.lastSwitchNavTime) && n1 == old(c.lastSwitchNavTime)
    ensures m0 == None && m1 == None
  {
    m0 := TrackedMove(c.TrackerOf(), (0.50, 0.50), t0, 0.01, 0.05, c.switchNavCooldownSeconds);
    NavigationFrame(c, (0.50, 0.50), t0);
    a0, n0 := c.switchMotionAccum, c.lastSwitchNavTime;
    assert FrameMotion((0.50, 0.50), (0.50, 0.50), 0.01) == (0.0, 0.0);
    assert ChooseDirection((0.0, 0.0), 0.05) == None;
    m1 := TrackedMove(c.TrackerOf(), (0.50, 0.50), t1, 0.01, 0.05, c.switchNavCooldownSeconds);
    NavigationFrame(c, (0.50, 0.50), t1);
    a1, n1 := c.switchMotionAccum, c.lastSwitchNavTime;
  }

  /** Two frames moving the fingertip 0.06 to the right each, from
      (0.50, 0.50): the first, with the navigation cooldown passed, moves
      right and clears the accumulator; the second, inside the new
      cooldown, only accumulates. */
  method MoveFrames(c: GestureController, t2: real, t3: real)
    returns (ghost a2: (real, real), ghost n2: real, ghost moved: Status,
             ghost m2: Option<Direction>, ghost m3: Option<Direction>)
    requires c.Valid() && c.executor.taskViewActive
    requires c.lastIndexTip == Some((0.50, 0.50)) && c.switchMotionAccum == (0.0, 0.0)
    requires c.switchNavFrameDeadzone == 0.01 && c.switchNavMinDelta == 0.05
    requires t2 - c.lastSwitchNavTime >= c.switchNavCooldownSeconds
    requires t3 - t2 < c.switchNavCooldownSeconds
    modifies c, c.executor, c.executor.os
    ensures a2 == (0.0, 0.0) && n2 == t2 && moved == Text(MOVED + "right")
    ensures c.switchMotionAccum == (0.06, 0.0) && c.lastSwitchNavTime == t2
    ensures m2 == Some(Right) && m3 == None
  {
    assert FrameMotion((0.50, 0.50), (0.56, 0.50), 0.01) == (0.06, 0.0);
    m2 := TrackedMove(c.TrackerOf(), (0.56, 0.50), t2, 0.01, 0.05, c.switchNavCooldownSeconds);
    assert m2 == Some(Right);
    NavigationFrame(c, (0.56, 0.50), t2);
    a2, n2 := c.switchMotionAccum, c.lastSwitchNavTime;
    moved := c.statusText;
    assert moved == Text(MOVED + DirectionName(Right));
    assert FrameMotion((0.56, 0.50), (0.62, 0.50), 0.01) == (0.06, 0.0);
    m3 := TrackedMove(c.TrackerOf(), (0.62, 0.50), t3, 0.01, 0.05, c.switchNavCooldownSeconds);
    NavigationFrame(c, (0.62, 0.50), t3);
  }

  /** A rightward swipe in Task View, one frame at each of `times`, with a
      dead zone of 0.01 and a minimum of 0.05: the fingertip goes from
      (0.50, 0.50) to (0.50, 0.50), (0.56, 0.50) and (0.62, 0.50) in the
      index-only pose. The navigation cooldown has passed by the third
      frame but not again by the fourth. The third frame moves right and
      clears the accumulator; no other frame moves, and the fourth only
      accumulates. `moves` records the direction each frame sends, `accums`
      and `navTimes` the accumulator and the navigation time after each
      frame, `moved` the status after the move. */
  method SwipeRight(c: GestureController, times: seq<real>)
    returns (ghost moves: seq<Option<Direction>>, ghost accums: seq<(real, real)>, ghost navTimes: seq<real>,
             ghost moved: Status)
    requires c.Valid() && c.executor.taskViewActive
    requires c.lastIndexTip == None && c.switchMotionAccum == (0.0, 0.0)
    requires c.switchNavFrameDeadzone == 0.01 && c.switchNavMinDelta == 0.05
    requires |times| == 4
    requires times[2] - c.lastSwitchNavTime >= c.switchNavCooldownSeconds
    requires times[3] - times[2] < c.switchNavCooldownSeconds
    modifies c, c.executor, c.executor.os
    ensures moves == [None, None, Some(Right), None]
    ensures accums == [(0.0, 0.0), (0.0, 0.0), (0.0, 0.0), (0.06, 0.0)]
    ensures navTimes == [old(c.lastSwitchNavTime), old(c.lastSwitchNavTime), times[2], times[2]]
    ensures moved == Text(MOVED + "right")
  {
    ghost var a0, n0, a1, n1, m0, m1 := HoldFrames(c, times[0], times[1]);
    ghost var a2, n2, m2, m3;
    a2, n2, moved, m2, m3 := MoveFrames(c, times[2], times[3]);
    moves := [m0, m1, m2, m3];
    accums := [a0, a1, a2, c.switchMotionAccum];
    navTimes := [n0, n1, n2, c.lastSwitchNavTime];
  }
}
