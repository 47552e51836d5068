/** The desktop action executor of hand_gesture/actions.py: the task-view
    flag, the remembered external window, the error conventions of
    `execute`, and hotkey injection. The operating system is an oracle
    object, `Desktop`, whose queries read its fields and whose effects are
    appended, in order, to its call log. */
module Actions {
  import opened Prelude
  import opened Gestures

  /** Virtual-key codes of the keys the executor can press. */
  const WINDOWS_VK: map<string, int> := map[
    "win" := 0x5B, "alt" := 0x12, "tab" := 0x09, "f4" := 0x73,
    "left" := 0x25, "up" := 0x26, "right" := 0x27, "down" := 0x28,
    "enter" := 0x0D]
  const KEYEVENTF_KEYUP := 0x0002
  const SW_RESTORE := 9
  /** Pause between focusing a window and closing it. */
  const CLOSE_FOCUS_DELAY := 0.05

  /** The directions Task View navigation accepts. */
  const NAV_KEYS: set<string> := {"left", "right", "up", "down"}

  const PYAUTOGUI_MISSING := "pyautogui not installed. Run: pip install pyautogui"
  const NO_EXTERNAL_APP := "No external app selected. Focus the app you want to control first."
  const TASK_VIEW_NOT_ACTIVE := "Task View is not active."
  const ACTION_FAILED := "Action failed: "
  const UNSUPPORTED_KEY := "Unsupported Windows key: "

  /** One effect on the operating system. */
  datatype OsCall =
    | KeyEvent(vk: int, flags: int)          // user32.keybd_event(vk, 0, flags, 0)
    | ShowWindow(hwnd: int, command: int)    // user32.ShowWindow
    | SetForegroundWindow(hwnd: int)         // user32.SetForegroundWindow
    | Hotkey(keys: seq<string>)              // pyautogui.hotkey(*keys)
    | Sleep(seconds: real)                   // time.sleep

  /** The operating system as the executor sees it. The environment may
      change the query fields between calls; the executor only appends to
      `calls`. */
  class Desktop {
    /** Raw result of GetForegroundWindow; 0 is the null handle. */
    var foregroundHandle: int
    /** GetWindowThreadProcessId; a handle it does not know yields pid 0. */
    var windowPid: map<int, int>
    /** Handles for which IsWindow holds. */
    var alive: set<int>
    /** Handles for which SetForegroundWindow succeeds. */
    var focusable: set<int>
    var calls: seq<OsCall>

    constructor (foregroundHandle: int, windowPid: map<int, int>, alive: set<int>, focusable: set<int>)
      ensures this.foregroundHandle == foregroundHandle && this.windowPid == windowPid
      ensures this.alive == alive && this.focusable == focusable && calls == []
    {
      this.foregroundHandle := foregroundHandle;
      this.windowPid := windowPid;
      this.alive := alive;
      this.focusable := focusable;
      calls := [];
    }

    function ForegroundWindow(): Option<int>
      reads this
    {
      if foregroundHandle == 0 then None else Some(foregroundHandle)
    }

    function WindowPid(hwnd: int): int
      reads this
    {
      if hwnd in windowPid then windowPid[hwnd] else 0
    }
  }

  /** The key codes for `keys`, looked up case-insensitively, or the error
      raised for the first key that has none. */
  function KeyCodes(keys: seq<string>): Result<seq<int>>
  {
    if keys == [] then Ok([])
    else if Lower(keys[0]) !in WINDOWS_VK then Err(UNSUPPORTED_KEY + keys[0])
    else match KeyCodes(keys[1..])
      case Ok(rest) => Ok([WINDOWS_VK[Lower(keys[0])]] + rest)
      case Err(e) => Err(e)
  }

  /** The lookup succeeds exactly when every key is known; it then yields
      each key's code in argument order, and otherwise names the first
      unknown key. */
  lemma {:induction false} KeyCodesCorrect(keys: seq<string>)
    ensures KeyCodes(keys).Ok? <==> forall i :: 0 <= i < |keys| ==> Lower(keys[i]) in WINDOWS_VK
    ensures KeyCodes(keys).Ok? ==>
      |KeyCodes(keys).value| == |keys| &&
      forall i :: 0 <= i < |keys| ==> KeyCodes(keys).value[i] == WINDOWS_VK[Lower(keys[i])]
    ensures KeyCodes(keys).Err? ==>
      exists i :: 0 <= i < |keys| && Lower(keys[i]) !in WINDOWS_VK &&
        (forall j :: 0 <= j < i ==> Lower(keys[j]) in WINDOWS_VK) &&
        KeyCodes(keys).error == UNSUPPORTED_KEY + keys[i]
  {
    if keys != [] && Lower(keys[0]) in WINDOWS_VK {
      var tail := keys[1..];
      KeyCodesCorrect(tail);
      assert forall i :: 1 <= i < |keys| ==> keys[i] == tail[i - 1];
      if KeyCodes(keys).Err? {
        var k :| 0 <= k < |tail| && Lower(tail[k]) !in WINDOWS_VK &&
          (forall j :: 0 <= j < k ==> Lower(tail[j]) in WINDOWS_VK) &&
          KeyCodes(tail).error == UNSUPPORTED_KEY + tail[k];
        assert Lower(keys[k + 1]) !in WINDOWS_VK;
      }
    }
  }

  function Prefixed(codes: seq<int>, r: Result<seq<int>>): Result<seq<int>> {
    match r
    case Ok(rest) => Ok(codes + rest)
    case Err(e) => Err(e)
  }

  lemma PrefixedEmpty(r: Result<seq<int>>)
    ensures Prefixed([], r) == r
  {
    match r
    case Ok(v) => assert [] + v == v;
    case Err(_) =>
  }

  lemma PrefixedTwice(codes: seq<int>, more: seq<int>, r: Result<seq<int>>)
    ensures Prefixed(codes, Prefixed(more, r)) == Prefixed(codes + more, r)
  {
    match r
    case Ok(v) => assert codes + (more + v) == (codes + more) + v;
    case Err(_) =>
  }

  /** The validation loop of the hotkey sender: no key is sent unless all are
      known. */
  method LookupKeys(keys: seq<string>) returns (r: Result<seq<int>>)
    ensures r == KeyCodes(keys)
  {
    var codes: seq<int> := [];
    var i := 0;
    assert keys[0..] == keys;
    PrefixedEmpty(KeyCodes(keys));
    while i < |keys|
      invariant 0 <= i <= |keys|
      invariant KeyCodes(keys) == Prefixed(codes, KeyCodes(keys[i..]))
    {
      var key := Lower(keys[i]);
      assert keys[i..] == [keys[i]] + keys[i + 1..];
      if key !in WINDOWS_VK {
        return Err(UNSUPPORTED_KEY + keys[i]);
      }
      KeyCodesCons(keys[i], keys[i + 1..]);
      PrefixedTwice(codes, [WINDOWS_VK[key]], KeyCodes(keys[i + 1..]));
      codes := codes + [WINDOWS_VK[key]];
      i := i + 1;
    }
    assert keys[i..] == [] && codes + [] == codes;
    return Ok(codes);
  }

  /** Key-down events for `codes`, in order. */
  function Presses(codes: seq<int>): seq<OsCall> {
    seq(|codes|, i requires 0 <= i < |codes| => KeyEvent(codes[i], 0))
  }

  /** Key-up events for `codes`, last key first. */
  function Releases(codes: seq<int>): seq<OsCall> {
    seq(|codes|, i requires 0 <= i < |codes| => KeyEvent(codes[|codes| - 1 - i], KEYEVENTF_KEYUP))
  }

  function HotkeyCalls(codes: seq<int>): seq<OsCall> {
    Presses(codes) + Releases(codes)
  }

  /** A known key in front of the others contributes its code in front. */
  lemma KeyCodesCons(key: string, rest: seq<string>)
    requires Lower(key) in WINDOWS_VK
    ensures KeyCodes([key] + rest) == Prefixed([WINDOWS_VK[Lower(key)]], KeyCodes(rest))
  {
    assert ([key] + rest)[1..] == rest;
  }

  lemma SingleKeyCodes(key: string)
    requires key in WINDOWS_VK && Lower(key) == key
    ensures KeyCodes([key]) == Ok([WINDOWS_VK[key]])
  {
    assert [key][1..] == [];
    assert KeyCodes([]) == Ok([]);
    assert [WINDOWS_VK[key]] + [] == [WINDOWS_VK[key]];
  }

  lemma PairCodes(first: string, second: string)
    requires first in WINDOWS_VK && Lower(first) == first
    requires second in WINDOWS_VK && Lower(second) == second
    ensures KeyCodes([first, second]) == Ok([WINDOWS_VK[first], WINDOWS_VK[second]])
  {
    SingleKeyCodes(second);
    assert [first, second][1..] == [second];
    assert [WINDOWS_VK[first]] + [WINDOWS_VK[second]] == [WINDOWS_VK[first], WINDOWS_VK[second]];
  }

  /** The chords the executor itself sends all resolve. */
  lemma FixedChordCodes()
    ensures KeyCodes(["win", "tab"]) == Ok([WINDOWS_VK["win"], WINDOWS_VK["tab"]])
    ensures KeyCodes(["alt", "tab"]) == Ok([WINDOWS_VK["alt"], WINDOWS_VK["tab"]])
    ensures KeyCodes(["alt", "f4"]) == Ok([WINDOWS_VK["alt"], WINDOWS_VK["f4"]])
    ensures KeyCodes(["enter"]) == Ok([WINDOWS_VK["enter"]])
  {
    assert Lower("win") == "win" && Lower("tab") == "tab";
    assert Lower("alt") == "alt" && Lower("f4") == "f4";
    assert Lower("enter") == "enter";
    PairCodes("win", "tab");
    PairCodes("alt", "tab");
    PairCodes("alt", "f4");
    SingleKeyCodes("enter");
  }

  /** Sends a chord: every key is validated before any event is emitted;
      keys go down in argument order and come up in reverse order. */
  method SendWindowsHotkey(os: Desktop, keys: seq<string>) returns (r: Outcome)
    modifies os`calls
    ensures KeyCodes(keys).Ok? ==> r == Pass && os.calls == old(os.calls) + HotkeyCalls(KeyCodes(keys).value)
    ensures KeyCodes(keys).Err? ==> r == Raised(KeyCodes(keys).error) && os.calls == old(os.calls)
  {
    var looked := LookupKeys(keys);
    if looked.Err? {
      return Raised(looked.error);
    }
    var codes := looked.value;
    for i := 0 to |codes|
      invariant os.calls == old(os.calls) + Presses(codes[..i])
    {
      assert Presses(codes[..i + 1]) == Presses(codes[..i]) + [KeyEvent(codes[i], 0)];
      os.calls := os.calls + [KeyEvent(codes[i], 0)];
    }
    assert codes[..|codes|] == codes;
    var j := |codes|;
    while j > 0
      invariant 0 <= j <= |codes|
      invariant os.calls == old(os.calls) + Presses(codes) + Releases(codes)[..|codes| - j]
    {
      j := j - 1;
      assert Releases(codes)[..|codes| - j] == Releases(codes)[..|codes| - j - 1] + [KeyEvent(codes[j], KEYEVENTF_KEYUP)];
      os.calls := os.calls + [KeyEvent(codes[j], KEYEVENTF_KEYUP)];
    }
    assert Releases(codes)[..|codes|] == Releases(codes);
    return Pass;
  }

  /** A chord made only of known keys is always sent. */
  method SendKnownHotkey(os: Desktop, keys: seq<string>, codes: seq<int>)
    requires KeyCodes(keys) == Ok(codes)
    modifies os`calls
    ensures os.calls == old(os.calls) + HotkeyCalls(codes)
  {
    var r := SendWindowsHotkey(os, keys);
  }

  /** The calls that restore and raise a window. */
  function FocusCalls(hwnd: int): seq<OsCall> {
    [ShowWindow(hwnd, SW_RESTORE), SetForegroundWindow(hwnd)]
  }

  method FocusWindow(os: Desktop, hwnd: int) returns (ok: bool)
    modifies os`calls
    ensures ok <==> hwnd in os.focusable
    ensures os.calls == old(os.calls) + FocusCalls(hwnd)
  {
    os.calls := os.calls + [ShowWindow(hwnd, SW_RESTORE)];
    os.calls := os.calls + [SetForegroundWindow(hwnd)];
    ok := hwnd in os.focusable;
  }

  method PressHotkey(os: Desktop, keys: seq<string>)
    modifies os`calls
    ensures os.calls == old(os.calls) + [Hotkey(keys)]
  {
    os.calls := os.calls + [Hotkey(keys)];
  }

  method SleepFor(os: Desktop, seconds: real)
    modifies os`calls
    ensures os.calls == old(os.calls) + [Sleep(seconds)]
  {
    os.calls := os.calls + [Sleep(seconds)];
  }

  /** The task-view flag after `action` completed or failed: on Windows
      opening sets it and selecting clears it; nothing else touches it. */
  function TaskViewAfter(isWindows: bool, active: bool, action: GestureAction): bool {
    if !isWindows then active
    else match action
      case OpenTaskView => true
      case SelectTaskWindow => false
      case _ => active
  }

  /** `s` repeated `n` times. */
  function Repeat<T>(s: seq<T>, n: nat): seq<T> {
    if n == 0 then [] else Repeat(s, n - 1) + s
  }

  class DesktopActionExecutor {
    const closeAllIterations: int
    const closeAllStepDelaySeconds: real
    /** platform.system(), lower-cased. */
    const osName: string
    /** Whether pyautogui could be imported. */
    const pyautoguiAvailable: bool
    /** os.getpid() of the controller's own process. */
    const selfPid: int
    const os: Desktop

    var lastError: Option<string>
    var lastExternalHwnd: Option<int>
    var taskViewActive: bool

    constructor (closeAllIterations: int, closeAllStepDelaySeconds: real, system: string,
                 pyautoguiAvailable: bool, selfPid: int, os: Desktop)
      ensures this.closeAllIterations == closeAllIterations
      ensures this.closeAllStepDelaySeconds == closeAllStepDelaySeconds
      ensures osName == Lower(system) && this.pyautoguiAvailable == pyautoguiAvailable
      ensures this.selfPid == selfPid && this.os == os
      ensures lastError == None && lastExternalHwnd == None && !taskViewActive
      ensures Valid()
    {
      this.closeAllIterations := closeAllIterations;
      this.closeAllStepDelaySeconds := closeAllStepDelaySeconds;
      osName := Lower(system);
      this.pyautoguiAvailable := pyautoguiAvailable;
      this.selfPid := selfPid;
      this.os := os;
      lastError := None;
      lastExternalHwnd := None;
      taskViewActive := false;
    }

    predicate IsWindows() { osName == "windows" }

    predicate IsDarwin() { osName == "darwin" }

    /** Task view can only be entered through the Windows shortcut. */
    ghost predicate Valid()
      reads this
    {
      taskViewActive ==> IsWindows()
    }

    /** The window-switch shortcut off Windows. */
    function SwitchKeys(): seq<string> {
      if IsDarwin() then ["command", "tab"] else ["alt", "tab"]
    }

    /** The application-close shortcut off Windows. */
    function CloseKeys(): seq<string> {
      if IsDarwin() then ["command", "q"] else ["alt", "f4"]
    }

    /** The remembered handle after a liveness check on Windows: a handle
        that no longer names a window is forgotten. */
    function Pruned(h: Option<int>): Option<int>
      reads os
    {
      if IsWindows() && h.Some? && h.value !in os.alive then None else h
    }

    /** Whether a liveness check of `h` passes, so that focusing is tried. */
    predicate Live(h: Option<int>)
      reads os
    {
      IsWindows() && h.Some? && h.value in os.alive
    }

    /** Whether the remembered window `h` can be brought to the front. */
    predicate Focusable(h: Option<int>)
      reads os
    {
      Live(h) && h.value in os.focusable
    }

    function FocusAttempt(h: Option<int>): seq<OsCall>
      reads os
    {
      if Live(h) then FocusCalls(h.value) else []
    }

    /** The remembered window after a refresh: the foreground window, unless
        task view is open, the platform is not Windows, there is no
        foreground window, or it belongs to this process. */
    function RefreshedTarget(): Option<int>
      reads this, os
    {
      var fg := os.ForegroundWindow();
      if !taskViewActive && IsWindows() && fg.Some? && os.WindowPid(fg.value) != selfPid then fg
      else lastExternalHwnd
    }

    method RefreshExternalTarget()
      modifies this`lastExternalHwnd
      ensures lastExternalHwnd == old(RefreshedTarget())
      ensures lastExternalHwnd != old(lastExternalHwnd) ==>
        lastExternalHwnd.Some? && lastExternalHwnd.value != 0 && os.WindowPid(lastExternalHwnd.value) != selfPid
    {
      if taskViewActive {
        return;
      }
      if !IsWindows() {
        return;
      }
      var hwnd := os.ForegroundWindow();
      if hwnd.None? {
        return;
      }
      if os.WindowPid(hwnd.value) == selfPid {
        return;
      }
      lastExternalHwnd := hwnd;
    }

    /** Brings the remembered window to the front; false when there is none,
        it is dead (and then forgotten), or focusing fails. */
    method FocusLastExternalWindow() returns (ok: bool)
      modifies this`lastExternalHwnd, os`calls
      ensures ok <==> Focusable(old(lastExternalHwnd))
      ensures lastExternalHwnd == Pruned(old(lastExternalHwnd))
      ensures os.calls == old(os.calls) + FocusAttempt(old(lastExternalHwnd))
    {
      var hwnd := lastExternalHwnd;
      if !IsWindows() || hwnd.None? {
        return false;
      }
      if hwnd.value !in os.alive {
        lastExternalHwnd := None;
        return false;
      }
      ok := FocusWindow(os, hwnd.value);
    }

    /** Focuses the remembered window and sends Alt+F4 to it; false when it
        cannot be focused, forgetting it when it is dead. */
    method CloseLastExternalWindow() returns (ok: bool)
      modifies this`lastExternalHwnd, os`calls
      ensures ok <==> Focusable(old(lastExternalHwnd))
      ensures lastExternalHwnd == Pruned(old(lastExternalHwnd))
      ensures os.calls == old(os.calls) + FocusAttempt(old(lastExternalHwnd)) +
        (if ok then [Sleep(CLOSE_FOCUS_DELAY)] + HotkeyCalls([WINDOWS_VK["alt"], WINDOWS_VK["f4"]]) else [])
    {
      var hwnd := lastExternalHwnd;
      if !IsWindows() || hwnd.None? {
        return false;
      }
      if hwnd.value !in os.alive {
        lastExternalHwnd := None;
        return false;
      }
      var focused := FocusWindow(os, hwnd.value);
      if !focused {
        return false;
      }
      SleepFor(os, CLOSE_FOCUS_DELAY);
      FixedChordCodes();
      SendKnownHotkey(os, ["alt", "f4"], [WINDOWS_VK["alt"], WINDOWS_VK["f4"]]);
      return true;
    }

    /** Closes the remembered window on Windows (raising when that is not
        possible), or sends the platform's close shortcut elsewhere. */
    method CloseCurrentApp() returns (r: Outcome)
      requires IsWindows() || pyautoguiAvailable
      modifies this`lastError, this`lastExternalHwnd, os`calls
      ensures IsWindows() ==>
        && lastExternalHwnd == Pruned(old(lastExternalHwnd))
        && (r.Pass? <==> Focusable(old(lastExternalHwnd)))
        && os.calls == old(os.calls) + FocusAttempt(old(lastExternalHwnd)) +
             (if r.Pass? then [Sleep(CLOSE_FOCUS_DELAY)] + HotkeyCalls([WINDOWS_VK["alt"], WINDOWS_VK["f4"]]) else [])
        && (r.Raised? ==> r == Raised(NO_EXTERNAL_APP) && lastError == Some(NO_EXTERNAL_APP))
      ensures !IsWindows() ==>
        r == Pass && lastExternalHwnd == old(lastExternalHwnd) && os.calls == old(os.calls) + [Hotkey(CloseKeys())]
      ensures r.Pass? ==> lastError == old(lastError)
    {
      if IsWindows() {
        var closed := CloseLastExternalWindow();
        if !closed {
          lastError := Some(NO_EXTERNAL_APP);
          return Raised(NO_EXTERNAL_APP);
        }
      } else {
        PressHotkey(os, CloseKeys());
      }
      return Pass;
    }

    /** Focuses the remembered window, falling back to Alt+Tab on Windows;
        sends the platform's switch shortcut elsewhere. */
    method SwitchWindow()
      requires IsWindows() || pyautoguiAvailable
      modifies this`lastExternalHwnd, os`calls
      ensures IsWindows() ==>
        && lastExternalHwnd == Pruned(old(lastExternalHwnd))
        && os.calls == old(os.calls) + FocusAttempt(old(lastExternalHwnd)) +
             (if Focusable(old(lastExternalHwnd)) then [] else HotkeyCalls([WINDOWS_VK["alt"], WINDOWS_VK["tab"]]))
      ensures !IsWindows() ==>
        lastExternalHwnd == old(lastExternalHwnd) && os.calls == old(os.calls) + [Hotkey(SwitchKeys())]
    {
      if IsWindows() {
        var focused := FocusLastExternalWindow();
        if !focused {
          FixedChordCodes();
          SendKnownHotkey(os, ["alt", "tab"], [WINDOWS_VK["alt"], WINDOWS_VK["tab"]]);
        }
      } else {
        PressHotkey(os, SwitchKeys());
      }
    }

    /** The calls an action makes off Windows. */
    function OffWindowsCalls(action: GestureAction): seq<OsCall> {
      match action
      case CloseCurrentApp => [Hotkey(CloseKeys())]
      case CloseAllApps => Repeat(NonWindowsCloseRound(), if closeAllIterations < 0 then 0 else closeAllIterations)
      case _ => [Hotkey(SwitchKeys())]
    }

    /** One round of "close all apps" off Windows. */
    function NonWindowsCloseRound(): seq<OsCall> {
      [Hotkey(CloseKeys()), Sleep(closeAllStepDelaySeconds), Hotkey(SwitchKeys()), Sleep(closeAllStepDelaySeconds)]
    }

    /** Repeats close, pause, switch, pause, refresh `closeAllIterations`
        times; a failed close ends the loop with its exception. */
    method CloseAllApps() returns (r: Outcome, ghost rounds: nat)
      requires IsWindows() || pyautoguiAvailable
      modifies this`lastError, this`lastExternalHwnd, os`calls
      ensures r.Pass? ==> rounds == (if closeAllIterations < 0 then 0 else closeAllIterations)
      ensures r.Pass? ==> lastError == old(lastError)
      ensures r.Raised? ==>
        rounds < closeAllIterations && IsWindows() && r == Raised(NO_EXTERNAL_APP) && lastError == Some(NO_EXTERNAL_APP)
      ensures !IsWindows() ==>
        r == Pass && lastExternalHwnd == old(lastExternalHwnd) &&
        os.calls == old(os.calls) + Repeat(NonWindowsCloseRound(), rounds)
    {
      r, rounds := Pass, 0;
      var i := 0;
      while i < closeAllIterations
        invariant 0 <= i && rounds == i
        invariant if closeAllIterations < 0 then i == 0 else i <= closeAllIterations
        invariant lastError == old(lastError)
        invariant !IsWindows() ==>
          lastExternalHwnd == old(lastExternalHwnd) && os.calls == old(os.calls) + Repeat(NonWindowsCloseRound(), i)
      {
        var closed := CloseCurrentApp();
        if closed.Raised? {
          return closed, rounds;
        }
        SleepFor(os, closeAllStepDelaySeconds);
        SwitchWindow();
        SleepFor(os, closeAllStepDelaySeconds);
        RefreshExternalTarget();
        i := i + 1;
        rounds := i;
      }
    }

    /** Opens Task View with Win+Tab on Windows, once: when it is already
        open nothing is sent. Elsewhere it switches windows instead. */
    method OpenTaskView() returns (r: Outcome)
      requires IsWindows() || pyautoguiAvailable
      modifies this`taskViewActive, this`lastExternalHwnd, os`calls
      ensures r == Pass
      ensures IsWindows() ==>
        taskViewActive && lastExternalHwnd == old(lastExternalHwnd) &&
        os.calls == old(os.calls) + (if old(taskViewActive) then [] else HotkeyCalls([WINDOWS_VK["win"], WINDOWS_VK["tab"]]))
      ensures !IsWindows() ==>
        taskViewActive == old(taskViewActive) && lastExternalHwnd == old(lastExternalHwnd) &&
        os.calls == old(os.calls) + [Hotkey(SwitchKeys())]
    {
      if IsWindows() {
        if taskViewActive {
          return Pass;
        }
        FixedChordCodes();
        SendKnownHotkey(os, ["win", "tab"], [WINDOWS_VK["win"], WINDOWS_VK["tab"]]);
        taskViewActive := true;
        return Pass;
      }
      SwitchWindow();
      return Pass;
    }

    /** Moves the Task View highlight; only on Windows, while Task View is
        open, and for one of the four arrow directions (in any case). */
    method NavigateTaskView(direction: string) returns (ok: bool)
      modifies os`calls
      ensures ok <==> IsWindows() && taskViewActive && Lower(direction) in NAV_KEYS
      ensures os.calls == old(os.calls) + (if ok then HotkeyCalls([WINDOWS_VK[Lower(direction)]]) else [])
    {
      if !IsWindows() || !taskViewActive {
        return false;
      }
      var d := Lower(direction);
      if d !in NAV_KEYS {
        return false;
      }
      LowerFixesLowercase(direction);
      SingleKeyCodes(d);
      SendKnownHotkey(os, [d], [WINDOWS_VK[d]]);
      return true;
    }

    /** Confirms the highlighted Task View window with Enter and leaves Task
        View; raises on Windows when Task View is not open. Elsewhere it
        switches windows instead. */
    method SelectTaskViewWindow() returns (r: Outcome)
      requires IsWindows() || pyautoguiAvailable
      modifies this`lastError, this`taskViewActive, this`lastExternalHwnd, os`calls
      ensures IsWindows() ==>
        && !taskViewActive && lastExternalHwnd == old(lastExternalHwnd)
        && (old(taskViewActive) ==>
              r == Pass && lastError == old(lastError) &&
              os.calls == old(os.calls) + HotkeyCalls([WINDOWS_VK["enter"]]))
        && (!old(taskViewActive) ==>
              r == Raised(TASK_VIEW_NOT_ACTIVE) && lastError == Some(TASK_VIEW_NOT_ACTIVE) &&
              os.calls == old(os.calls))
      ensures !IsWindows() ==>
        r == Pass && taskViewActive == old(taskViewActive) && lastError == old(lastError) &&
        lastExternalHwnd == old(lastExternalHwnd) && os.calls == old(os.calls) + [Hotkey(SwitchKeys())]
    {
      if IsWindows() {
        if !taskViewActive {
          lastError := Some(TASK_VIEW_NOT_ACTIVE);
          return Raised(TASK_VIEW_NOT_ACTIVE);
        }
        FixedChordCodes();
        SendKnownHotkey(os, ["enter"], [WINDOWS_VK["enter"]]);
        taskViewActive := false;
        return Pass;
      }
      SwitchWindow();
      return Pass;
    }

    /** The error and the remembered window that running `action` leaves,
        from the remembered window `hwnd0` and the Task View flag `flag0` it
        started with. Off Windows without pyautogui the run fails with the
        installation hint and off Windows with it succeeds; on Windows,
        opening Task View succeeds, selecting succeeds iff Task View was
        open, and closing the current app succeeds iff the remembered window
        can be focused and forgets it if it is dead. Only closing the current
        app and closing all apps change the remembered window. */
    predicate ExecuteEffect(action: GestureAction, hwnd0: Option<int>, flag0: bool)
      reads this, os
    {
      if !IsWindows() then
        lastExternalHwnd == hwnd0 &&
        lastError == (if pyautoguiAvailable then None else Some(PYAUTOGUI_MISSING))
      else match action
        case OpenTaskView => lastExternalHwnd == hwnd0 && lastError.None?
        case SelectTaskWindow =>
          lastExternalHwnd == hwnd0 &&
          lastError == (if flag0 then None else Some(ACTION_FAILED + TASK_VIEW_NOT_ACTIVE))
        case CloseCurrentApp =>
          lastExternalHwnd == Pruned(hwnd0) &&
          lastError == (if Focusable(hwnd0) then None else Some(ACTION_FAILED + NO_EXTERNAL_APP))
        case CloseAllApps => lastError.None? || lastError == Some(ACTION_FAILED + NO_EXTERNAL_APP)
    }

    /** Runs one action. It clears the last error first; off Windows without
        pyautogui it fails with the installation hint; an exception of the
        action fails with "Action failed: " and the exception's message;
        otherwise it succeeds. */
    method Execute(action: GestureAction) returns (ok: bool)
      requires Valid()
      modifies this`lastError, this`taskViewActive, this`lastExternalHwnd, os`calls
      ensures Valid()
      ensures ok <==> lastError.None?
      ensures taskViewActive == TaskViewAfter(IsWindows(), old(taskViewActive), action)
      ensures !IsWindows() && !pyautoguiAvailable ==>
        lastError == Some(PYAUTOGUI_MISSING) && lastExternalHwnd == old(lastExternalHwnd) && os.calls == old(os.calls)
      ensures !IsWindows() && pyautoguiAvailable ==>
        ok && lastExternalHwnd == old(lastExternalHwnd) && os.calls == old(os.calls) + OffWindowsCalls(action)
      ensures IsWindows() && action == GestureAction.OpenTaskView ==>
        ok && os.calls == old(os.calls) + (if old(taskViewActive) then [] else HotkeyCalls([WINDOWS_VK["win"], WINDOWS_VK["tab"]]))
      ensures IsWindows() && (action == GestureAction.OpenTaskView || action == GestureAction.SelectTaskWindow) ==>
        lastExternalHwnd == old(lastExternalHwnd)
      ensures IsWindows() && action == GestureAction.SelectTaskWindow ==>
        (ok <==> old(taskViewActive)) &&
        (ok ==> os.calls == old(os.calls) + HotkeyCalls([WINDOWS_VK["enter"]])) &&
        (!ok ==> lastError == Some(ACTION_FAILED + TASK_VIEW_NOT_ACTIVE) && os.calls == old(os.calls))
      ensures IsWindows() && action == GestureAction.CloseCurrentApp ==>
        (ok <==> Focusable(old(lastExternalHwnd))) && lastExternalHwnd == Pruned(old(lastExternalHwnd)) &&
        (!ok ==> lastError == Some(ACTION_FAILED + NO_EXTERNAL_APP)) &&
        os.calls == old(os.calls) + FocusAttempt(old(lastExternalHwnd)) +
          (if ok then [Sleep(CLOSE_FOCUS_DELAY)] + HotkeyCalls([WINDOWS_VK["alt"], WINDOWS_VK["f4"]]) else [])
      ensures IsWindows() && action == GestureAction.CloseAllApps ==>
        !ok ==> lastError == Some(ACTION_FAILED + NO_EXTERNAL_APP)
      ensures ExecuteEffect(action, old(lastExternalHwnd), old(taskViewActive))
    {
      lastError := None;
      if !IsWindows() && !pyautoguiAvailable {
        lastError := Some(PYAUTOGUI_MISSING);
        return false;
      }
      var outcome: Outcome;
      match action {
        case CloseCurrentApp =>
          outcome := CloseCurrentApp();
        case OpenTaskView =>
          outcome := OpenTaskView();
        case SelectTaskWindow =>
          outcome := SelectTaskViewWindow();
        case CloseAllApps =>
          ghost var rounds;
          outcome, rounds := CloseAllApps();
      }
      if outcome.Raised? {
        lastError := Some(ACTION_FAILED + outcome.message);
        return false;
      }
      return true;
    }
  }
}
