/**
 * The Go server: the shared capture state (follow the foreground window
 * or stay locked to one handle), the lock endpoints, `/interact`, the
 * adaptive frame delay and JPEG quality, and one `/stream` connection
 * with its capture cycle and its command dispatch.
 *
 * The desktop is an input (`GoDesktop`); the calls into user32 are made
 * through the `Injector` and `WindowManager` of the input and window
 * modules, and what is written to the phone is recorded in order.
 */
module GoServer {
  import opened Common
  import opened Text
  import opened Geometry
  import opened GoInput
  import opened GoWindow
  import opened GoFrames

  // ---------------------------------------------------------------- vocabulary

  /** One millisecond as a `time.Duration` (nanoseconds). */
  const Ms: int := 1_000_000
  const Second: int := 1_000_000_000

  const InitialDelay: int := 40 * Ms
  const InitialQuality: int := 60
  /** The lowest quality the adaptation can reach: a step of 10 down from 31. */
  const LowestQuality: int := 21

  /** `captureMode`: follow the foreground window, or stay on `lockedWindowHwnd`. */
  datatype Mode = Foreground | Locked

  /** What the desktop reports while a handler runs. */
  datatype GoDesktop = GoDesktop(
    fg: nat,                              // GetForegroundWindow
    windows: seq<RawWindow>,              // EnumWindows, in enumeration order
    titleOf: nat -> string,               // GetWindowTextW
    windowRect: nat -> Rect32,            // GetWindowRect
    frameBounds: nat -> Option<Rect32>,   // DwmGetWindowAttribute when it answers S_OK
    threadOf: nat -> nat,                 // GetWindowThreadProcessId
    workArea: nat -> Option<Rect32>,      // the monitor work area, when known
    screen: Screen)

  /** The JSON fields of a command (HTTP body or WebSocket message). */
  datatype Command = Command(action: string, kind: string, x: int, y: int, button: string,
                             text: string, key: string, delta: int, fps: int, mode: string)

  /** The JSON answers. */
  datatype Answer =
    | LockResult(status: string, title: string, autoFollow: bool)
    | NothingToLock
    | Adapted(width: int, height: int)
    | Restored(width: int, height: int, saved: bool)
    | NoWindow
    | StatusOk
    | Launched(app: string)

  /** What goes out on a stream connection. */
  datatype WsMessage = Binary(bytes: seq<byte>) | Json(answer: Answer)

  /** How a frame write ended: delivered, past its 150 ms deadline, or failed for good. */
  datatype WriteOutcome = Written | TimedOut | Broken

  // ---------------------------------------------------------------- lock

  /** The first window of the list with exactly this title. */
  function FirstTitled(list: seq<WindowInfo>, title: string): (w: Option<WindowInfo>)
    ensures w.Some? ==> w.value in list && w.value.title == title
    ensures w.None? <==> forall e :: e in list ==> e.title != title
  {
    if |list| == 0 then None
    else if list[0].title == title then Some(list[0])
    else FirstTitled(list[1..], title)
  }

  /**
   * `handleLock` on a title and the fresh window list: the mode, the
   * locked handle and the answer.  An empty title unlocks; a title found
   * locks its first window; a title not found also falls back to
   * following the foreground.
   */
  function LockOutcome(title: string, list: seq<WindowInfo>): (r: (Mode, nat, Answer))
    ensures r.2.LockResult? && (r.2.autoFollow <==> r.2.status != "locked")
    ensures r.0 == Foreground <==> r.1 == 0 && r.2.autoFollow
    ensures title == "" ==> r == (Foreground, 0, LockResult("unlocked", "", true))
    ensures title != "" && FirstTitled(list, title).Some? ==>
      r == (Locked, FirstTitled(list, title).value.hwnd, LockResult("locked", title, false))
    ensures title != "" && FirstTitled(list, title).None? ==> r == (Foreground, 0, LockResult("error", title, true))
  {
    if title == "" then (Foreground, 0, LockResult("unlocked", "", true))
    else
      var found := FirstTitled(list, title);
      if found.Some? then (Locked, found.value.hwnd, LockResult("locked", title, false))
      else (Foreground, 0, LockResult("error", title, true))
  }

  /** Locking a title that some listed window has always locks a window with exactly that title, the first one listed. */
  lemma {:induction false} LockTakesFirstExact(title: string, list: seq<WindowInfo>, k: nat)
    requires title != "" && k < |list| && list[k].title == title
    requires forall j :: 0 <= j < k ==> list[j].title != title
    ensures LockOutcome(title, list).0 == Locked && LockOutcome(title, list).1 == list[k].hwnd
  {
    FirstTitledAt(list, title, k);
  }

  lemma {:induction false} FirstTitledAt(list: seq<WindowInfo>, title: string, k: nat)
    requires k < |list| && list[k].title == title
    requires forall j :: 0 <= j < k ==> list[j].title != title
    ensures FirstTitled(list, title) == Some(list[k])
  {
    if k > 0 {
      FirstTitledAt(list[1..], title, k - 1);
    }
  }

  // ---------------------------------------------------------------- input commands

  /** The scroll amount: `delta`, or `text` read as an integer when `delta` is 0; 0 sends nothing. */
  function ScrollDelta(cmd: Command): (d: int)
    ensures cmd.delta != 0 ==> d == cmd.delta
    ensures cmd.delta == 0 && GoAtoi(cmd.text).Some? ==> d == GoAtoi(cmd.text).value
    ensures cmd.delta == 0 && GoAtoi(cmd.text).None? ==> d == 0
  {
    if cmd.delta == 0 && cmd.text != "" then
      match GoAtoi(cmd.text)
      case Some(parsed) => parsed
      case None => 0
    else cmd.delta
  }

  /** The command name: `type` when it is set, else `action`. */
  function CommandName(cmd: Command): (name: string)
    ensures cmd.kind != "" ==> name == cmd.kind
    ensures cmd.kind == "" ==> name == cmd.action
  {
    if cmd.kind != "" then cmd.kind else cmd.action
  }

  /**
   * The user32 calls an input command makes at (x, y); None for a name
   * that is not an input command.  Over HTTP an empty button clicks
   * "left" and `hotkey` presses its text the way `key` does; over the
   * stream the button is passed as it came and there is no `hotkey`.
   */
  function InputCalls(name: string, x: int, y: int, cmd: Command, http: bool): (calls: Option<seq<Call>>)
    ensures calls.Some? <==> name in {"move", "click", "scroll", "key", "type", "text"} || (http && name == "hotkey")
    ensures name == "move" ==> calls == Some([SetCursorPos(x, y)])
    ensures name == "click" ==> calls == Some(ClickCalls(x, y, if http && cmd.button == "" then "left" else cmd.button))
    ensures name == "scroll" ==> (calls.value == [] <==> ScrollDelta(cmd) == 0)
    ensures name == "scroll" && ScrollDelta(cmd) != 0 ==>
      calls == Some([SendInput([MouseInput(WheelData(ScrollDelta(cmd)), MouseWheel)])])
    ensures name == "key" ==> calls == Some(KeyCalls(cmd.key))
    ensures name in {"type", "text"} ==> calls == Some(Sent(TypingInputs(Utf16(cmd.text))))
    ensures http && name == "hotkey" ==> calls == Some(KeyCalls(cmd.key))
  {
    if name == "move" then Some([SetCursorPos(x, y)])
    else if name == "click" then Some(ClickCalls(x, y, if http && cmd.button == "" then "left" else cmd.button))
    else if name == "scroll" then
      var d := ScrollDelta(cmd);
      Some(if d != 0 then [SendInput([MouseInput(WheelData(d), MouseWheel)])] else [])
    else if name == "key" then Some(KeyCalls(cmd.key))
    else if name == "type" || name == "text" then Some(Sent(TypingInputs(Utf16(cmd.text))))
    else if http && name == "hotkey" then Some(KeyCalls(cmd.key))
    else None
  }

  /** An HTTP click without a button is a left click; the same command on the stream only moves the pointer. */
  lemma EmptyButtonClicks(x: int, y: int, cmd: Command)
    requires cmd.button == ""
    ensures |InputCalls("click", x, y, cmd, true).value| == 2
    ensures InputCalls("click", x, y, cmd, false) == Some([SetCursorPos(x, y)])
  {
  }

  /** A scroll by text: "5" with no delta scrolls by 5, a text that is not a number scrolls nothing. */
  lemma ScrollByText()
    ensures ScrollDelta(Command("scroll", "", 0, 0, "", "5", "", 0, 0, "")) == 5
    ensures InputCalls("scroll", 0, 0, Command("scroll", "", 0, 0, "", "five", "", 0, 0, ""), false) == Some([])
  {
    GoAtoiRoundTrip(5);
    assert SignedDecimal(5) == "5";
    assert !AllDigits("five") by { assert !IsDigit("five"[0]); }
  }

  /**
   * The HTTP `hotkey` action on "ctrl+c" sends nothing, where the
   * combination form (`GoInput.HotkeyCalls`) presses Ctrl and C.
   */
  lemma HotkeyCtrlCAsWritten(x: int, y: int, cmd: Command)
    requires cmd.key == "ctrl+c"
    ensures InputCalls("hotkey", x, y, cmd, true) == Some([])
    ensures HotkeyCalls(cmd.key) != []
  {
    CtrlC();
  }

  /** Sends what `InputCalls` describes. */
  method SendCommandInput(inj: Injector, name: string, x: int, y: int, cmd: Command, http: bool) returns (handled: bool)
    modifies inj
    ensures handled == InputCalls(name, x, y, cmd, http).Some?
    ensures handled ==> inj.calls == old(inj.calls) + InputCalls(name, x, y, cmd, http).value
    ensures !handled ==> inj.calls == old(inj.calls)
  {
    handled := true;
    if name == "move" {
      inj.MoveMouse(x, y);
    } else if name == "click" {
      var button := cmd.button;
      if http && button == "" {
        button := "left";
      }
      inj.ClickMouse(x, y, button);
    } else if name == "scroll" {
      var delta := ScrollDelta(cmd);
      if delta != 0 {
        inj.ScrollMouse(delta);
      }
    } else if name == "key" {
      inj.SimulateKey(cmd.key);
    } else if name == "type" || name == "text" {
      if cmd.text != "" {
        inj.SimulateText(cmd.text);
      }
    } else if http && name == "hotkey" {
      inj.SimulateKey(cmd.key);
    } else {
      handled := false;
    }
  }

  // ---------------------------------------------------------------- saved window rectangles

  /** Adapting saves a window's rectangle only when none is saved yet. */
  function SaveOriginal(saved: map<nat, Rect32>, hwnd: nat, rect: Rect32): (m: map<nat, Rect32>)
    ensures hwnd in m && m.Keys == saved.Keys + {hwnd}
    ensures hwnd in saved ==> m == saved
    ensures hwnd !in saved ==> m[hwnd] == rect
    ensures forall h :: h in saved && h != hwnd ==> m[h] == saved[h]
  {
    if hwnd in saved then saved else saved[hwnd := rect]
  }

  /** Adapting again never overwrites the first saved rectangle. */
  lemma SaveKeepsFirst(saved: map<nat, Rect32>, hwnd: nat, r1: Rect32, r2: Rect32)
    ensures SaveOriginal(SaveOriginal(saved, hwnd, r1), hwnd, r2) == SaveOriginal(saved, hwnd, r1)
  {
  }

  /** Restoring after any number of adapts gives back the rectangle from before the first, and forgets it. */
  lemma RestoreGivesFirst(saved: map<nat, Rect32>, hwnd: nat, r1: Rect32, r2: Rect32)
    requires hwnd !in saved
    ensures var m := SaveOriginal(SaveOriginal(saved, hwnd, r1), hwnd, r2);
      m[hwnd] == r1 && m - {hwnd} == saved
  {
    var m := SaveOriginal(saved, hwnd, r1);
    assert m - {hwnd} == saved;
  }

  /** The adapt_phone placement: a third of the work area at its right edge, with Go's integer division. */
  function AdaptPlacement(area: Area): (p: Placement)
    ensures area.width >= 0 && area.height >= 0 ==> p == PhoneLayout(area, Floor)
  {
    var p := PhoneLayout(area, Truncate);
    assert area.width >= 0 && area.height >= 0 ==> p == PhoneLayout(area, Floor) by {
      if area.width >= 0 && area.height >= 0 {
        DivisionsAgree(area);
      }
    }
    p
  }

  /** What a window-management command does: the saved rectangles after it, the window calls it makes, and its answer. */
  datatype Handled = Handled(saved: map<nat, Rect32>, windowCalls: seq<WinCall>, answer: Answer)

  /** `adapt_phone` on a window: save its rectangle once, then move it to the phone placement of its monitor. */
  function AdaptStep(hwnd: nat, desk: GoDesktop, saved: map<nat, Rect32>): (h: Handled)
    ensures h.saved == SaveOriginal(saved, hwnd, desk.windowRect(hwnd))
    ensures |h.windowCalls| == 1 && h.windowCalls[0].SetWindowPos? && h.windowCalls[0].hwnd == hwnd
    ensures h.windowCalls[0].flags == SwpNoZOrder + SwpNoActivate
    ensures h.answer == Adapted(h.windowCalls[0].width, h.windowCalls[0].height)
  {
    var p := AdaptPlacement(MonitorWorkArea(desk.workArea(hwnd), desk.screen.primaryWidth as int, desk.screen.primaryHeight as int));
    Handled(SaveOriginal(saved, hwnd, desk.windowRect(hwnd)),
            [SetWindowPos(hwnd, p.x, p.y, p.width, p.height, SwpNoZOrder + SwpNoActivate)], Adapted(p.width, p.height))
  }

  /** `restore_window` on a window: put back and forget its saved rectangle, or resize it to 1280x720 when none was saved. */
  function RestoreStep(hwnd: nat, saved: map<nat, Rect32>): (h: Handled)
    ensures h.saved == saved - {hwnd}
    ensures hwnd in saved ==> var r := saved[hwnd];
      var w, ht := Sub32(r.right, r.left) as int, Sub32(r.bottom, r.top) as int;
      h.windowCalls == [SetWindowPos(hwnd, r.left as int, r.top as int, w, ht, SwpNoZOrder + SwpNoActivate)]
      && h.answer == Restored(w, ht, true)
    ensures hwnd !in saved ==>
      h.windowCalls == [SetWindowPos(hwnd, 0, 0, 1280, 720, SwpNoMove + SwpNoZOrder + SwpNoActivate)]
      && h.answer == Restored(1280, 720, false)
  {
    if hwnd in saved then
      var r := saved[hwnd];
      var w, ht := Sub32(r.right, r.left) as int, Sub32(r.bottom, r.top) as int;
      Handled(saved - {hwnd}, [SetWindowPos(hwnd, r.left as int, r.top as int, w, ht, SwpNoZOrder + SwpNoActivate)], Restored(w, ht, true))
    else Handled(saved - {hwnd}, [SetWindowPos(hwnd, 0, 0, 1280, 720, SwpNoMove + SwpNoZOrder + SwpNoActivate)], Restored(1280, 720, false))
  }

  /**
   * Adapting a window nothing was saved for, adapting it again (after it
   * moved), and then restoring it puts it back at the rectangle it had
   * before the first adaptation, and leaves the saved rectangles as they
   * were.
   */
  lemma AdaptThenRestoreGo(hwnd: nat, before: GoDesktop, after: GoDesktop, saved: map<nat, Rect32>)
    requires hwnd !in saved
    ensures var once := AdaptStep(hwnd, before, saved);
      var twice := AdaptStep(hwnd, after, once.saved);
      var r := RestoreStep(hwnd, twice.saved);
      var orig := before.windowRect(hwnd);
      && r.saved == saved
      && r.windowCalls == [SetWindowPos(hwnd, orig.left as int, orig.top as int, Sub32(orig.right, orig.left) as int,
                                        Sub32(orig.bottom, orig.top) as int, SwpNoZOrder + SwpNoActivate)]
      && r.answer.saved
  {
    RestoreGivesFirst(saved, hwnd, before.windowRect(hwnd), after.windowRect(hwnd));
  }

  /** The window adapt and restore act on: the locked handle, else the foreground one. */
  function ManagedHwnd(locked: nat, desk: GoDesktop): (h: nat)
    ensures locked != 0 ==> h == locked
    ensures locked == 0 ==> h == desk.fg
  {
    if locked != 0 then locked else desk.fg
  }

  // ---------------------------------------------------------------- frame pacing

  /** A write timeout: 50% more delay while under 200 ms, and 10 less quality while above 30. */
  function AfterTimeout(delay: int, quality: int): (r: (int, int))
    ensures delay >= 0 ==> r.0 >= delay
    ensures 2 <= delay < 200 * Ms ==> delay < r.0 < 300 * Ms
    ensures delay >= 200 * Ms ==> r.0 == delay
    ensures quality > 30 ==> r.1 == quality - 10
    ensures quality <= 30 ==> r.1 == quality
  {
    (if delay < 200 * Ms then delay * 15 / 10 else delay, if quality > 30 then quality - 10 else quality)
  }

  /** A delivered frame: 5% less delay while over 40 ms, and one more quality step while under 60. */
  function AfterSuccess(delay: int, quality: int): (r: (int, int))
    ensures delay > 40 * Ms ==> 38 * Ms <= r.0 < delay
    ensures delay <= 40 * Ms ==> r.0 == delay
    ensures quality < 60 ==> r.1 == quality + 1
    ensures quality >= 60 ==> r.1 == quality
  {
    (if delay > 40 * Ms then delay * 95 / 100 else delay, if quality < 60 then quality + 1 else quality)
  }

  /** The delay and quality the adaptation keeps: a delay of at most one second, a quality between 21 and 60. */
  predicate PacingRange(delay: int, quality: int) {
    0 <= delay <= Second && LowestQuality <= quality <= InitialQuality
  }

  lemma AdaptationKeepsRangeIf(delay: int, quality: int)
    ensures PacingRange(delay, quality) ==> PacingRange(AfterTimeout(delay, quality).0, AfterTimeout(delay, quality).1)
    ensures PacingRange(delay, quality) ==> PacingRange(AfterSuccess(delay, quality).0, AfterSuccess(delay, quality).1)
  {
    if PacingRange(delay, quality) {
      AdaptationKeepsRange(delay, quality);
    }
  }

  lemma AdaptationKeepsRange(delay: int, quality: int)
    requires PacingRange(delay, quality)
    ensures PacingRange(AfterTimeout(delay, quality).0, AfterTimeout(delay, quality).1)
    ensures PacingRange(AfterSuccess(delay, quality).0, AfterSuccess(delay, quality).1)
  {
  }

  /** The quality after n delivered frames in a row. */
  function QualityAfterSuccesses(quality: int, n: nat): int
    decreases n
  {
    if n == 0 then quality else QualityAfterSuccesses(AfterSuccess(0, quality).1, n - 1)
  }

  /** Delivered frames bring the quality back to 60, one step each. */
  lemma {:induction false} SuccessesRestoreQuality(quality: int, n: nat)
    requires quality <= 60 && n >= 60 - quality
    ensures QualityAfterSuccesses(quality, n) == 60
    decreases n
  {
    if n > 0 {
      SuccessesRestoreQuality(AfterSuccess(0, quality).1, n - 1);
    }
  }

  /** The sleep after a cycle: the rest of the frame interval, or 2 ms when the cycle overran it. */
  function CycleSleep(interval: int, elapsed: int): (s: int)
    ensures s > 0 && elapsed + s >= interval
    ensures elapsed < interval ==> elapsed + s == interval
    ensures elapsed >= interval ==> s == 2 * Ms
  {
    if elapsed < interval then interval - elapsed else 2 * Ms
  }

  /** The `fps` command: one second divided by the rate, for a positive rate. */
  function FpsDelay(fps: int, delay: int): (d: int)
    ensures fps <= 0 ==> d == delay
    ensures fps > 0 ==> d * fps <= Second < (d + 1) * fps
  {
    if fps > 0 then Second / fps else delay
  }

  // ---------------------------------------------------------------- capture target

  /** The handle the stream captures: the locked one in locked mode, the foreground one in foreground mode. */
  function CaptureHwnd(mode: Mode, locked: nat, fg: nat): (h: nat)
    ensures mode == Foreground ==> h == fg
    ensures mode == Locked ==> h == locked
  {
    if mode == Locked && locked != 0 then locked
    else if mode == Foreground then fg
    else 0
  }

  /**
   * The rectangle the stream grabs: the visual bounds of the locked window
   * whenever a handle is locked, else the window rectangle of the captured
   * handle, else the empty rectangle (the whole screen).
   */
  function CaptureRect(locked: nat, hwnd: nat, desk: GoDesktop): (r: Rect32)
    ensures locked != 0 ==> r == VisualBounds(desk.frameBounds(locked), desk.windowRect(locked))
    ensures locked == 0 && hwnd != 0 ==> r == desk.windowRect(hwnd)
    ensures locked == 0 && hwnd == 0 ==> r == Rect32(0, 0, 0, 0)
  {
    if locked != 0 then VisualBounds(desk.frameBounds(locked), desk.windowRect(locked))
    else if hwnd != 0 then desk.windowRect(hwnd)
    else Rect32(0, 0, 0, 0)
  }

  /** The offset `/interact` adds to a command's coordinates: the corner of the locked window, else of the foreground window, else none. */
  function InteractOffset(mode: Mode, locked: nat, desk: GoDesktop): (o: (int, int))
    ensures mode == Locked && locked != 0 ==> o == (desk.windowRect(locked).left as int, desk.windowRect(locked).top as int)
    ensures !(mode == Locked && locked != 0) && desk.fg != 0 ==> o == (desk.windowRect(desk.fg).left as int, desk.windowRect(desk.fg).top as int)
    ensures !(mode == Locked && locked != 0) && desk.fg == 0 ==> o == (0, 0)
  {
    if mode == Locked && locked != 0 then (desk.windowRect(locked).left as int, desk.windowRect(locked).top as int)
    else if desk.fg != 0 then (desk.windowRect(desk.fg).left as int, desk.windowRect(desk.fg).top as int)
    else (0, 0)
  }

  /** While a handle is locked, the stream ignores which window has the focus. */
  lemma LockedIgnoresForeground(locked: nat, d1: GoDesktop, d2: GoDesktop)
    requires locked != 0 && d1.frameBounds == d2.frameBounds && d1.windowRect == d2.windowRect
    ensures CaptureHwnd(Locked, locked, d1.fg) == CaptureHwnd(Locked, locked, d2.fg) == locked
    ensures CaptureRect(locked, locked, d1) == CaptureRect(locked, locked, d2)
  {
  }

  // ---------------------------------------------------------------- handlers as steps

  /** The server-wide state every handler and every connection shares. */
  datatype Shared = Shared(mode: Mode, locked: nat, delay: int, quality: int, saved: map<nat, Rect32>)

  /** A foreground mode holds no handle, and the pacing stays in its range. */
  predicate SharedValid(sh: Shared) {
    (sh.mode == Foreground ==> sh.locked == 0) && PacingRange(sh.delay, sh.quality)
  }

  /**
   * `handleInteract` from the shared state: the input calls at the
   * command's coordinates plus the offset of the locked or foreground
   * window, then adapt or restore on the managed window; anything else,
   * and adapt or restore without a window, answers a plain "ok".
   */
  function InteractStep(sh: Shared, cmd: Command, desk: GoDesktop): (r: (seq<Call>, Handled))
    ensures var o := InteractOffset(sh.mode, sh.locked, desk);
      var calls := InputCalls(cmd.action, cmd.x + o.0, cmd.y + o.1, cmd, true);
      calls.Some? ==> r == (calls.value, Handled(sh.saved, [], StatusOk))
    ensures cmd.action !in {"move", "click", "scroll", "key", "type", "text", "hotkey"} ==> r.0 == []
    ensures cmd.action !in {"move", "click", "scroll", "key", "type", "text", "hotkey", "adapt_phone", "restore_window"} ==>
      r.1 == Handled(sh.saved, [], StatusOk)
    ensures cmd.action in {"adapt_phone", "restore_window"} && ManagedHwnd(sh.locked, desk) == 0 ==>
      r == ([], Handled(sh.saved, [], StatusOk))
    ensures cmd.action == "adapt_phone" && ManagedHwnd(sh.locked, desk) != 0 ==>
      r == ([], AdaptStep(ManagedHwnd(sh.locked, desk), desk, sh.saved))
    ensures cmd.action == "restore_window" && ManagedHwnd(sh.locked, desk) != 0 ==>
      r == ([], RestoreStep(ManagedHwnd(sh.locked, desk), sh.saved))
  {
    var o := InteractOffset(sh.mode, sh.locked, desk);
    var calls := InputCalls(cmd.action, cmd.x + o.0, cmd.y + o.1, cmd, true);
    var hwnd := ManagedHwnd(sh.locked, desk);
    if calls.Some? then (calls.value, Handled(sh.saved, [], StatusOk))
    else if cmd.action == "adapt_phone" && hwnd != 0 then ([], AdaptStep(hwnd, desk, sh.saved))
    else if cmd.action == "restore_window" && hwnd != 0 then ([], RestoreStep(hwnd, sh.saved))
    else ([], Handled(sh.saved, [], StatusOk))
  }

  /** What one stream command does: the shared state and the video switch after it, the calls it makes and the replies it writes. */
  datatype ReadResult = ReadResult(shared: Shared, video: bool, inputs: seq<Call>, windowCalls: seq<WinCall>, replies: seq<WsMessage>)

  /**
   * One command of the read loop: input at the command's coordinates plus
   * the offset of the last grab, then the stream-only commands (`fps`,
   * `set_mode`, `lock_current`, `unlock`, `adapt_phone`,
   * `restore_window`); any other command does nothing.
   */
  function ReadStep(sh: Shared, video: bool, offX: int, offY: int, cmd: Command, desk: GoDesktop): (r: ReadResult)
    ensures SharedValid(sh) ==> SharedValid(r.shared)
    ensures r.shared.quality == sh.quality
    ensures |r.replies| <= 1 && (r.inputs != [] ==> r.windowCalls == [] && r.replies == [])
    ensures InputCalls(CommandName(cmd), cmd.x + offX, cmd.y + offY, cmd, false).Some? ==>
      r == ReadResult(sh, video, InputCalls(CommandName(cmd), cmd.x + offX, cmd.y + offY, cmd, false).value, [], [])
    ensures CommandName(cmd) !in {"move", "click", "scroll", "key", "type", "text"} ==> r.inputs == []
    ensures r.video != video ==> CommandName(cmd) == "set_mode" && r.video == (cmd.mode != "audio_only")
    ensures r.shared.delay != sh.delay ==> CommandName(cmd) == "fps" && cmd.fps > 0 && r.shared.delay == Second / cmd.fps
    ensures (r.shared.mode, r.shared.locked) != (sh.mode, sh.locked) ==> CommandName(cmd) in {"lock_current", "unlock"}
    ensures CommandName(cmd) == "lock_current" ==>
      if desk.fg == 0 then r == ReadResult(sh, video, [], [], [Json(NothingToLock)])
      else r == ReadResult(sh.(mode := Locked, locked := desk.fg), video, [], [], [Json(LockResult("locked", desk.titleOf(desk.fg), false))])
    ensures CommandName(cmd) == "unlock" ==>
      r == ReadResult(sh.(mode := Foreground, locked := 0), video, [], [], [Json(LockResult("unlocked", "", true))])
    ensures r.shared.saved != sh.saved || r.windowCalls != [] ==>
      CommandName(cmd) in {"adapt_phone", "restore_window"} && ManagedHwnd(sh.locked, desk) != 0
    ensures CommandName(cmd) in {"adapt_phone", "restore_window"} && ManagedHwnd(sh.locked, desk) == 0 ==>
      r == ReadResult(sh, video, [], [], [Json(NoWindow)])
    ensures CommandName(cmd) in {"adapt_phone", "restore_window"} && ManagedHwnd(sh.locked, desk) != 0 ==>
      var hwnd := ManagedHwnd(sh.locked, desk);
      var h := if CommandName(cmd) == "adapt_phone" then AdaptStep(hwnd, desk, sh.saved) else RestoreStep(hwnd, sh.saved);
      r == ReadResult(sh.(saved := h.saved), video, [], h.windowCalls, [Json(h.answer)])
  {
    var calls := InputCalls(CommandName(cmd), cmd.x + offX, cmd.y + offY, cmd, false);
    if calls.Some? then ReadResult(sh, video, calls.value, [], [])
    else CommandStep(sh, video, cmd, desk)
  }

  /** The stream-only commands of the read loop; any other command does nothing. */
  function CommandStep(sh: Shared, video: bool, cmd: Command, desk: GoDesktop): (r: ReadResult)
    ensures r.inputs == [] && |r.replies| <= 1
  {
    var name := CommandName(cmd);
    if name == "fps" then ReadResult(sh.(delay := FpsDelay(cmd.fps, sh.delay)), video, [], [], [])
    else if name == "set_mode" then ReadResult(sh, cmd.mode != "audio_only", [], [], [])
    else if name == "lock_current" then
      if desk.fg == 0 then ReadResult(sh, video, [], [], [Json(NothingToLock)])
      else ReadResult(sh.(mode := Locked, locked := desk.fg), video, [], [], [Json(LockResult("locked", desk.titleOf(desk.fg), false))])
    else if name == "unlock" then ReadResult(sh.(mode := Foreground, locked := 0), video, [], [], [Json(LockResult("unlocked", "", true))])
    else if name == "adapt_phone" || name == "restore_window" then
      var hwnd := ManagedHwnd(sh.locked, desk);
      if hwnd == 0 then ReadResult(sh, video, [], [], [Json(NoWindow)])
      else
        var h := if name == "adapt_phone" then AdaptStep(hwnd, desk, sh.saved) else RestoreStep(hwnd, sh.saved);
        ReadResult(sh.(saved := h.saved), video, [], h.windowCalls, [Json(h.answer)])
    else ReadResult(sh, video, [], [], [])
  }

  /** What each stream-only command does to the shared state, field by field. */
  lemma ReadStepEffects(sh: Shared, video: bool, offX: int, offY: int, cmd: Command, desk: GoDesktop)
    ensures var r := ReadStep(sh, video, offX, offY, cmd, desk);
      var name := CommandName(cmd);
      && (name == "fps" ==> r.shared.delay == FpsDelay(cmd.fps, sh.delay) && r.replies == [])
      && (name == "set_mode" ==> r.video == (cmd.mode != "audio_only") && r.replies == [])
      && (name in {"adapt_phone", "restore_window"} ==>
            var hwnd := if sh.locked != 0 then sh.locked else desk.fg;
            && (hwnd == 0 ==> r.replies == [Json(NoWindow)] && r.shared.saved == sh.saved)
            && (hwnd != 0 && name == "adapt_phone" ==> r.shared.saved == SaveOriginal(sh.saved, hwnd, desk.windowRect(hwnd)))
            && (hwnd != 0 && name == "restore_window" ==> r.shared.saved == sh.saved - {hwnd}))
  {
  }

  /**
   * `adapt_phone` and `restore_window` act the same over the stream as
   * over HTTP: the same window, the same calls and the same saved
   * rectangles; only the stream answers "no window" where HTTP says "ok".
   */
  lemma StreamAndHttpWindowCommandsAgree(sh: Shared, video: bool, offX: int, offY: int, cmd: Command, desk: GoDesktop)
    requires cmd.kind == "" && cmd.action in {"adapt_phone", "restore_window"}
    ensures var r := ReadStep(sh, video, offX, offY, cmd, desk);
      var h := InteractStep(sh, cmd, desk);
      && r.inputs == h.0 && r.windowCalls == h.1.windowCalls && r.shared.saved == h.1.saved
      && (ManagedHwnd(sh.locked, desk) != 0 ==> r.replies == [Json(h.1.answer)])
  {
  }

  /** `lock_current` then `unlock` over the stream goes back to following the foreground, and touches nothing else. */
  lemma LockThenUnlock(sh: Shared, video: bool, offX: int, offY: int, lock: Command, unlock: Command, desk: GoDesktop)
    requires CommandName(lock) == "lock_current" && CommandName(unlock) == "unlock"
    ensures var r1 := ReadStep(sh, video, offX, offY, lock, desk);
      var r2 := ReadStep(r1.shared, r1.video, offX, offY, unlock, desk);
      r2.shared == sh.(mode := Foreground, locked := 0) && r2.video == video
  {
  }

  // ---------------------------------------------------------------- shared state

  /** The server-wide state every handler and every connection shares. */
  class Server {
    var captureMode: Mode
    var lockedWindowHwnd: nat
    var frameDelay: int
    var jpegQuality: int
    var originalWindowStates: map<nat, Rect32>

    function State(): Shared
      reads this
    {
      Shared(captureMode, lockedWindowHwnd, frameDelay, jpegQuality, originalWindowStates)
    }

    predicate Valid()
      reads this
    {
      SharedValid(State())
    }

    constructor()
      ensures Valid()
      ensures captureMode == Foreground && lockedWindowHwnd == 0
      ensures frameDelay == InitialDelay && jpegQuality == InitialQuality && originalWindowStates == map[]
    {
      captureMode := Foreground;
      lockedWindowHwnd := 0;
      frameDelay := InitialDelay;
      jpegQuality := InitialQuality;
      originalWindowStates := map[];
    }

    /** `handleLock`: enumerate, lock the first window with the exact title and bring it to the front. */
    method Lock(title: string, desk: GoDesktop, wm: WindowManager) returns (answer: Answer)
      requires Valid()
      modifies this`captureMode, this`lockedWindowHwnd, wm
      ensures Valid()
      ensures title == "" ==> wm.calls == old(wm.calls) && wm.currentWindowList == old(wm.currentWindowList)
      ensures title != "" ==> wm.currentWindowList == Listed(desk.windows)
      ensures var list := if title == "" then [] else Listed(desk.windows);
        (captureMode, lockedWindowHwnd, answer) == LockOutcome(title, list)
      ensures var found := FirstTitled(Listed(desk.windows), title);
        title != "" ==> (wm.calls == old(wm.calls) +
          (if found.Some? then ActivationCalls(found.value.hwnd, desk.threadOf(desk.fg), desk.threadOf(found.value.hwnd)) else []))
    {
      if title == "" {
        captureMode, lockedWindowHwnd := Foreground, 0;
        return LockResult("unlocked", "", true);
      }
      var found := false;
      var windows := wm.EnumWindows(desk.windows);
      var k := 0;
      while k < |windows|
        invariant 0 <= k <= |windows|
        invariant forall j :: 0 <= j < k ==> windows[j].title != title
        invariant wm.calls == old(wm.calls) && wm.currentWindowList == windows
        invariant captureMode == old(captureMode) && lockedWindowHwnd == old(lockedWindowHwnd)
      {
        var win := windows[k];
        if win.title == title {
          FirstTitledAt(windows, title, k);
          wm.ActivateWindow(win.hwnd, desk.threadOf(desk.fg), desk.threadOf(win.hwnd));
          captureMode, lockedWindowHwnd := Locked, win.hwnd;
          found := true;
          break;
        }
        k := k + 1;
      }
      var status := "locked";
      if !found {
        assert FirstTitled(windows, title).None?;
        captureMode, lockedWindowHwnd := Foreground, 0;
        status := "error";
      }
      answer := LockResult(status, title, status != "locked");
    }

    /** `handleLockCurrent` (and the stream's `lock_current`): lock the foreground window, if there is one. */
    method LockCurrent(desk: GoDesktop) returns (answer: Answer)
      requires Valid()
      modifies this`captureMode, this`lockedWindowHwnd
      ensures Valid()
      ensures desk.fg == 0 ==> answer == NothingToLock && captureMode == old(captureMode) && lockedWindowHwnd == old(lockedWindowHwnd)
      ensures desk.fg != 0 ==> captureMode == Locked && lockedWindowHwnd == desk.fg
      ensures desk.fg != 0 ==> answer == LockResult("locked", desk.titleOf(desk.fg), false)
    {
      if desk.fg == 0 {
        return NothingToLock;
      }
      var title := desk.titleOf(desk.fg);
      captureMode, lockedWindowHwnd := Locked, desk.fg;
      answer := LockResult("locked", title, false);
    }

    /** The stream's `unlock`. */
    method Unlock() returns (answer: Answer)
      requires Valid()
      modifies this`captureMode, this`lockedWindowHwnd
      ensures Valid() && captureMode == Foreground && lockedWindowHwnd == 0
      ensures answer == LockResult("unlocked", "", true)
    {
      captureMode, lockedWindowHwnd := Foreground, 0;
      answer := LockResult("unlocked", "", true);
    }

    /** The window adapt and restore act on: the locked handle, else the foreground one. */
    function ManagedWindow(desk: GoDesktop): (h: nat)
      reads this
      ensures lockedWindowHwnd != 0 ==> h == lockedWindowHwnd
      ensures lockedWindowHwnd == 0 ==> h == desk.fg
    {
      if lockedWindowHwnd != 0 then lockedWindowHwnd else desk.fg
    }

    /** `adapt_phone` on a window: save its rectangle once, then move it to the phone placement of its monitor. */
    method AdaptPhone(hwnd: nat, desk: GoDesktop, wm: WindowManager) returns (answer: Answer)
      requires Valid()
      modifies this`originalWindowStates, wm`calls
      ensures Valid()
      ensures var h := AdaptStep(hwnd, desk, old(originalWindowStates));
        originalWindowStates == h.saved && wm.calls == old(wm.calls) + h.windowCalls && answer == h.answer
      ensures originalWindowStates == SaveOriginal(old(originalWindowStates), hwnd, desk.windowRect(hwnd))
      ensures var p := AdaptPlacement(MonitorWorkArea(desk.workArea(hwnd), desk.screen.primaryWidth as int, desk.screen.primaryHeight as int));
        && wm.calls == old(wm.calls) + [SetWindowPos(hwnd, p.x, p.y, p.width, p.height, SwpNoZOrder + SwpNoActivate)]
        && answer == Adapted(p.width, p.height)
    {
      if hwnd !in originalWindowStates {
        originalWindowStates := originalWindowStates[hwnd := desk.windowRect(hwnd)];
      }
      var area := MonitorWorkArea(desk.workArea(hwnd), desk.screen.primaryWidth as int, desk.screen.primaryHeight as int);
      var p := AdaptPlacement(area);
      wm.MoveAndResizeWindow(hwnd, p.x, p.y, p.width, p.height);
      answer := Adapted(p.width, p.height);
    }

    /** `restore_window` on a window: put back and forget its saved rectangle, or resize it to 1280x720 when none was saved. */
    method RestoreWindow(hwnd: nat, wm: WindowManager) returns (answer: Answer)
      requires Valid()
      modifies this`originalWindowStates, wm`calls
      ensures Valid()
      ensures var h := RestoreStep(hwnd, old(originalWindowStates));
        originalWindowStates == h.saved && wm.calls == old(wm.calls) + h.windowCalls && answer == h.answer
      ensures originalWindowStates == old(originalWindowStates) - {hwnd}
      ensures hwnd in old(originalWindowStates) ==> var r := old(originalWindowStates)[hwnd];
        var w, h := Sub32(r.right, r.left) as int, Sub32(r.bottom, r.top) as int;
        && wm.calls == old(wm.calls) + [SetWindowPos(hwnd, r.left as int, r.top as int, w, h, SwpNoZOrder + SwpNoActivate)]
        && answer == Restored(w, h, true)
      ensures hwnd !in old(originalWindowStates) ==>
        wm.calls == old(wm.calls) + [SetWindowPos(hwnd, 0, 0, 1280, 720, SwpNoMove + SwpNoZOrder + SwpNoActivate)]
        && answer == Restored(1280, 720, false)
    {
      if hwnd in originalWindowStates {
        var rect := originalWindowStates[hwnd];
        originalWindowStates := originalWindowStates - {hwnd};
        var width := Sub32(rect.right, rect.left) as int;
        var height := Sub32(rect.bottom, rect.top) as int;
        wm.MoveAndResizeWindow(hwnd, rect.left as int, rect.top as int, width, height);
        answer := Restored(width, height, true);
      } else {
        originalWindowStates := originalWindowStates - {hwnd};
        wm.ResizeWindow(hwnd, 1280, 720);
        answer := Restored(1280, 720, false);
      }
    }

    /**
     * `handleInteract`: input commands at the command's coordinates plus
     * the offset of the locked or foreground window, adapt and restore on
     * the managed window; anything else, and adapt or restore without a
     * window, answers a plain "ok".
     */
    method Interact(cmd: Command, desk: GoDesktop, inj: Injector, wm: WindowManager) returns (answer: Answer)
      requires Valid()
      modifies this`originalWindowStates, inj, wm`calls
      ensures Valid()
      ensures var r := InteractStep(old(State()), cmd, desk);
        && inj.calls == old(inj.calls) + r.0 && wm.calls == old(wm.calls) + r.1.windowCalls
        && originalWindowStates == r.1.saved && answer == r.1.answer
      ensures var o := InteractOffset(captureMode, lockedWindowHwnd, desk);
        var calls := InputCalls(cmd.action, cmd.x + o.0, cmd.y + o.1, cmd, true);
        calls.Some? ==> (inj.calls == old(inj.calls) + calls.value && answer == StatusOk
          && wm.calls == old(wm.calls) && originalWindowStates == old(originalWindowStates))
      ensures cmd.action !in {"move", "click", "scroll", "key", "type", "text", "hotkey"} ==> inj.calls == old(inj.calls)
      ensures cmd.action == "adapt_phone" && ManagedWindow(desk) != 0 ==>
        answer.Adapted? && originalWindowStates == SaveOriginal(old(originalWindowStates), ManagedWindow(desk), desk.windowRect(ManagedWindow(desk)))
      ensures cmd.action == "restore_window" && ManagedWindow(desk) != 0 ==>
        answer.Restored? && originalWindowStates == old(originalWindowStates) - {ManagedWindow(desk)}
      ensures cmd.action in {"adapt_phone", "restore_window"} && ManagedWindow(desk) == 0 ==>
        answer == StatusOk && wm.calls == old(wm.calls) && originalWindowStates == old(originalWindowStates)
    {
      var offset := InteractOffset(captureMode, lockedWindowHwnd, desk);
      var handled := SendCommandInput(inj, cmd.action, cmd.x + offset.0, cmd.y + offset.1, cmd, true);
      answer := StatusOk;
      if !handled {
        var hwnd := ManagedWindow(desk);
        if cmd.action == "adapt_phone" && hwnd != 0 {
          answer := AdaptPhone(hwnd, desk, wm);
        } else if cmd.action == "restore_window" && hwnd != 0 {
          answer := RestoreWindow(hwnd, wm);
        }
      }
    }

    /** The pacing adaptation after a frame write. */
    method AfterWrite(outcome: WriteOutcome)
      requires Valid()
      modifies this`frameDelay, this`jpegQuality
      ensures Valid()
      ensures outcome == Written ==> (frameDelay, jpegQuality) == AfterSuccess(old(frameDelay), old(jpegQuality))
      ensures outcome == TimedOut ==> (frameDelay, jpegQuality) == AfterTimeout(old(frameDelay), old(jpegQuality))
      ensures outcome == Broken ==> frameDelay == old(frameDelay) && jpegQuality == old(jpegQuality)
    {
      AdaptationKeepsRange(frameDelay, jpegQuality);
      if outcome == TimedOut {
        if frameDelay < 200 * Ms {
          frameDelay := frameDelay * 15 / 10;
        }
        if jpegQuality > 30 {
          jpegQuality := jpegQuality - 10;
        }
      } else if outcome == Written {
        if frameDelay > 40 * Ms {
          frameDelay := frameDelay * 95 / 100;
        }
        if jpegQuality < 60 {
          jpegQuality := jpegQuality + 1;
        }
      }
    }

    /** The stream's `fps` command. */
    method SetFps(fps: int)
      requires Valid()
      modifies this`frameDelay
      ensures Valid() && frameDelay == FpsDelay(fps, old(frameDelay))
    {
      if fps > 0 {
        frameDelay := Second / fps;
      }
    }
  }

  /** `handleLaunch`: Win+S, the name through the clipboard and Ctrl+V, then Enter; a clipboard failure stops after Win+S. */
  method Launch(app: string, clipboardOk: bool, inj: Injector) returns (answer: Answer)
    modifies inj
    ensures answer == Launched(app)
    ensures clipboardOk ==> inj.calls == old(inj.calls) + [SendInput(HotkeyInputs(VkLWin, VkS)),
      SendInput(HotkeyInputs(VkControl, VkV)), SendInput([KeyEvent(VkReturn, 0), KeyEvent(VkReturn, KeyUp)])]
    ensures !clipboardOk ==> inj.calls == old(inj.calls) + [SendInput(HotkeyInputs(VkLWin, VkS))]
  {
    inj.SimulateHotkey(VkLWin, VkS);
    if clipboardOk {
      inj.SimulateHotkey(VkControl, VkV);
      inj.SimulateKeyVk(VkReturn);
    }
    answer := Launched(app);
  }

  // ---------------------------------------------------------------- one stream connection

  /** What one capture cycle learns: the bitmap, the encoder, how the write ends, and how long the cycle took. */
  datatype FrameWorld = FrameWorld(dibOk: bool, bitmap: int -> byte, encode: (Image, int) -> seq<byte>,
                                   write: WriteOutcome, elapsed: int)

  /** What the write loop keeps between passes, with the pacing it shares with the server. */
  datatype WriteState = WriteState(offsetX: int, offsetY: int, lastFrame: Option<Image>, bytesSent: int, framesSent: int,
                                   out: seq<WsMessage>, delay: int, quality: int)

  /** The state after a pass of the write loop, the sleep before the next one, and whether the loop ends. */
  datatype WritePass = WritePass(state: WriteState, sleep: int, stop: bool)

  /**
   * One pass of the write loop with the video switch `video`, in capture
   * mode `mode` with handle `locked`.  With video off it only waits 200 ms.
   * Otherwise it grabs the captured window, drops the frame when it is
   * similar to the last one kept, records the grab's corner as the input
   * offset (also for a dropped or failed grab), writes the encoded frame,
   * adapts the pacing to how the write went, and counts the frame; a
   * broken connection ends the loop before the pacing and the counters.
   */
  function WriteStep(video: bool, mode: Mode, locked: nat, st: WriteState, desk: GoDesktop, world: FrameWorld): (p: WritePass)
    ensures !video ==> p == WritePass(st, 200 * Ms, false)
    ensures video ==> var c := Captured(CaptureRect(locked, CaptureHwnd(mode, locked, desk.fg), desk), desk.screen, world.dibOk, world.bitmap);
      && p.state.offsetX == c.1 && p.state.offsetY == c.2
      && (c.0.None? ==> p == WritePass(st.(offsetX := 0, offsetY := 0), CycleSleep(st.delay, world.elapsed), false))
      && (p.state.lastFrame != st.lastFrame ==> p.state.lastFrame == c.0)
      // a frame is sent, and counted, only when it differs from the last one kept
      && (p.state.framesSent != st.framesSent || p.stop ==>
            c.0.Some? && p.state.lastFrame == c.0 && (st.lastFrame.None? || !Similar(c.0.value, st.lastFrame.value)))
      && (p.stop <==> c.0.Some? && (st.lastFrame.None? || !Similar(c.0.value, st.lastFrame.value)) && world.write == Broken)
    ensures p.state.out == st.out || (world.write == Written && p.state.lastFrame.Some? && p.state.lastFrame != st.lastFrame
                                      && p.state.out == st.out + [Binary(world.encode(p.state.lastFrame.value, st.quality))])
    ensures p.state.framesSent == st.framesSent || p.state.framesSent == st.framesSent + 1
    ensures p.state.framesSent != st.framesSent ==>
      && p.state.bytesSent == st.bytesSent + |world.encode(p.state.lastFrame.value, st.quality)|
      && (world.write == Written ==> (p.state.delay, p.state.quality) == AfterSuccess(st.delay, st.quality))
      && (world.write == TimedOut ==> (p.state.delay, p.state.quality) == AfterTimeout(st.delay, st.quality))
    ensures p.state.framesSent == st.framesSent ==>
      p.state.bytesSent == st.bytesSent && p.state.delay == st.delay && p.state.quality == st.quality
    ensures PacingRange(st.delay, st.quality) ==> PacingRange(p.state.delay, p.state.quality)
    ensures !p.stop && video ==> p.sleep == CycleSleep(p.state.delay, world.elapsed)
  {
    if !video then WritePass(st, 200 * Ms, false)
    else
      var c := Captured(CaptureRect(locked, CaptureHwnd(mode, locked, desk.fg), desk), desk.screen, world.dibOk, world.bitmap);
      var img := c.0;
      var isNew := img.Some? && (st.lastFrame.None? || !Similar(img.value, st.lastFrame.value));
      var st1 := st.(offsetX := c.1, offsetY := c.2, lastFrame := if isNew then img else st.lastFrame);
      if !isNew then WritePass(st1, CycleSleep(st.delay, world.elapsed), false)
      else if world.write == Broken then WritePass(st1, 0, true)
      else
        var buf := world.encode(img.value, st.quality);
        var pace := if world.write == Written then AfterSuccess(st.delay, st.quality) else AfterTimeout(st.delay, st.quality);
        AdaptationKeepsRangeIf(st.delay, st.quality);
        var st2 := st1.(out := if world.write == Written then st.out + [Binary(buf)] else st.out,
                        bytesSent := st.bytesSent + |buf|, framesSent := st.framesSent + 1,
                        delay := pace.0, quality := pace.1);
        WritePass(st2, CycleSleep(pace.0, world.elapsed), false)
  }

  /** The state of one `/stream` connection. */
  class Stream {
    const server: Server
    var videoEnabled: bool
    var offsetX: int
    var offsetY: int
    var lastFrame: Option<Image>
    var bytesSent: int
    var framesSent: int
    var out: seq<WsMessage>

    predicate Valid()
      reads this, server
    {
      server.Valid()
    }

    function WState(): WriteState
      reads this, server
    {
      WriteState(offsetX, offsetY, lastFrame, bytesSent, framesSent, out, server.frameDelay, server.jpegQuality)
    }

    constructor(server: Server)
      requires server.Valid()
      ensures Valid() && this.server == server
      ensures videoEnabled && offsetX == 0 && offsetY == 0 && lastFrame.None? && out == []
    {
      this.server := server;
      videoEnabled := true;
      offsetX, offsetY := 0, 0;
      lastFrame := None;
      bytesSent, framesSent := 0, 0;
      out := [];
    }

    /** The grab of a cycle: the captured window's rectangle, or the whole screen. */
    method Grab(desk: GoDesktop, world: FrameWorld) returns (img: Option<Image>, ox: int, oy: int)
      ensures (img, ox, oy) == Captured(CaptureRect(server.lockedWindowHwnd,
                                                    CaptureHwnd(server.captureMode, server.lockedWindowHwnd, desk.fg), desk),
                                        desk.screen, world.dibOk, world.bitmap)
    {
      var hwnd := CaptureHwnd(server.captureMode, server.lockedWindowHwnd, desk.fg);
      var rect := CaptureRect(server.lockedWindowHwnd, hwnd, desk);
      img, ox, oy := CaptureScreen(rect, desk.screen, world.dibOk, world.bitmap);
    }

    /** The frame skip: a grab similar to the last frame kept is dropped; any other grab becomes the last frame. */
    method SkipSimilar(img: Option<Image>) returns (send: Option<Image>)
      modifies this`lastFrame
      ensures img.None? ==> send.None? && lastFrame == old(lastFrame)
      ensures img.Some? && old(lastFrame).Some? && Similar(img.value, old(lastFrame).value) ==>
        send.None? && lastFrame == old(lastFrame)
      ensures img.Some? && (old(lastFrame).None? || !Similar(img.value, old(lastFrame).value)) ==>
        send == img && lastFrame == img
    {
      send := img;
      var skipped := false;
      if lastFrame.Some? && img.Some? {
        var similar := FramesAreSimilar(img.value, lastFrame.value);
        if similar {
          skipped := true;
          send := None;
        }
      }
      if !skipped && send.Some? {
        lastFrame := send;
      }
    }

    /** Writes an encoded frame and adapts the pacing; `stop` when the connection broke. */
    method SendFrame(img: Image, world: FrameWorld) returns (stop: bool)
      requires Valid()
      modifies this`out, this`bytesSent, this`framesSent, server`frameDelay, server`jpegQuality
      ensures Valid()
      ensures stop <==> world.write == Broken
      ensures world.write == Written ==> out == old(out) + [Binary(world.encode(img, old(server.jpegQuality)))]
      ensures world.write != Written ==> out == old(out)
      ensures world.write == Written ==> (server.frameDelay, server.jpegQuality) == AfterSuccess(old(server.frameDelay), old(server.jpegQuality))
      ensures world.write == TimedOut ==> (server.frameDelay, server.jpegQuality) == AfterTimeout(old(server.frameDelay), old(server.jpegQuality))
      ensures world.write == Broken ==> server.frameDelay == old(server.frameDelay) && server.jpegQuality == old(server.jpegQuality)
      ensures world.write == Broken ==> bytesSent == old(bytesSent) && framesSent == old(framesSent)
      ensures world.write != Broken ==>
        bytesSent == old(bytesSent) + |world.encode(img, old(server.jpegQuality))| && framesSent == old(framesSent) + 1
    {
      var buf := world.encode(img, server.jpegQuality);
      if world.write == Broken {
        return true;
      }
      if world.write == Written {
        out := out + [Binary(buf)];
      }
      server.AfterWrite(world.write);
      bytesSent := bytesSent + |buf|;
      framesSent := framesSent + 1;
      stop := false;
    }

    /**
     * One pass of the write loop.  With video off it only waits 200 ms.
     * Otherwise it grabs the captured window, drops the frame when it is
     * similar to the last one kept, records the grab's corner as the input
     * offset, writes the encoded frame and adapts the pacing to how the
     * write went.  `stop` is set when the connection broke.
     */
    method WriteCycle(desk: GoDesktop, world: FrameWorld) returns (sleep: int, stop: bool)
      requires Valid()
      modifies this`offsetX, this`offsetY, this`lastFrame, this`out, this`bytesSent, this`framesSent
      modifies server`frameDelay, server`jpegQuality
      ensures Valid()
      ensures var p := WriteStep(old(videoEnabled), server.captureMode, server.lockedWindowHwnd, old(WState()), desk, world);
        WState() == p.state && sleep == p.sleep && stop == p.stop
    {
      if !videoEnabled {
        return 200 * Ms, false;
      }
      var img, ox, oy := Grab(desk, world);
      var send := SkipSimilar(img);
      offsetX, offsetY := ox, oy;
      stop := false;
      if send.Some? {
        stop := SendFrame(send.value, world);
        if stop {
          return 0, true;
        }
      }
      sleep := CycleSleep(server.frameDelay, world.elapsed);
    }

    /**
     * One command of the read loop: input at the command's coordinates
     * plus the offset of the last grab, then the stream-only commands.
     */
    method ReadCommand(cmd: Command, desk: GoDesktop, inj: Injector, wm: WindowManager)
      requires Valid()
      modifies this`videoEnabled, this`out, server, inj, wm`calls
      ensures Valid()
      ensures var r := ReadStep(old(server.State()), old(videoEnabled), offsetX, offsetY, cmd, desk);
        && server.State() == r.shared && videoEnabled == r.video && out == old(out) + r.replies
        && inj.calls == old(inj.calls) + r.inputs && wm.calls == old(wm.calls) + r.windowCalls
      ensures var calls := InputCalls(CommandName(cmd), cmd.x + old(offsetX), cmd.y + old(offsetY), cmd, false);
        calls.Some? ==> inj.calls == old(inj.calls) + calls.value && out == old(out)
      ensures CommandName(cmd) !in {"move", "click", "scroll", "key", "type", "text"} ==> inj.calls == old(inj.calls)
      ensures CommandName(cmd) == "fps" ==> server.frameDelay == FpsDelay(cmd.fps, old(server.frameDelay)) && out == old(out)
      ensures CommandName(cmd) == "set_mode" ==> videoEnabled == (cmd.mode != "audio_only") && out == old(out)
      ensures CommandName(cmd) != "set_mode" ==> videoEnabled == old(videoEnabled)
      ensures CommandName(cmd) == "lock_current" && desk.fg != 0 ==>
        server.captureMode == Locked && server.lockedWindowHwnd == desk.fg
        && out == old(out) + [Json(LockResult("locked", desk.titleOf(desk.fg), false))]
      ensures CommandName(cmd) == "lock_current" && desk.fg == 0 ==> out == old(out) + [Json(NothingToLock)]
      ensures CommandName(cmd) == "unlock" ==> server.captureMode == Foreground && server.lockedWindowHwnd == 0
      ensures CommandName(cmd) == "unlock" ==> out == old(out) + [Json(LockResult("unlocked", "", true))]
      ensures CommandName(cmd) in {"adapt_phone", "restore_window"} ==>
        var hwnd := if old(server.lockedWindowHwnd) != 0 then old(server.lockedWindowHwnd) else desk.fg;
        && (hwnd == 0 ==> out == old(out) + [Json(NoWindow)] && server.originalWindowStates == old(server.originalWindowStates))
        && (hwnd != 0 && CommandName(cmd) == "adapt_phone" ==>
              server.originalWindowStates == SaveOriginal(old(server.originalWindowStates), hwnd, desk.windowRect(hwnd)))
        && (hwnd != 0 && CommandName(cmd) == "restore_window" ==>
              server.originalWindowStates == old(server.originalWindowStates) - {hwnd})
    {
      ReadStepEffects(server.State(), videoEnabled, offsetX, offsetY, cmd, desk);
      var handled := SendCommandInput(inj, CommandName(cmd), cmd.x + offsetX, cmd.y + offsetY, cmd, false);
      if !handled {
        StreamCommand(cmd, desk, wm);
      }
    }

    /** The stream-only commands of the read loop. */
    method StreamCommand(cmd: Command, desk: GoDesktop, wm: WindowManager)
      requires Valid()
      modifies this`videoEnabled, this`out, server, wm`calls
      ensures Valid()
      ensures var r := CommandStep(old(server.State()), old(videoEnabled), cmd, desk);
        && server.State() == r.shared && videoEnabled == r.video && out == old(out) + r.replies
        && wm.calls == old(wm.calls) + r.windowCalls
    {
      var name := CommandName(cmd);
      if name == "fps" {
        server.SetFps(cmd.fps);
      } else if name == "set_mode" {
        videoEnabled := cmd.mode != "audio_only";
      } else if name == "lock_current" {
        var answer := server.LockCurrent(desk);
        out := out + [Json(answer)];
      } else if name == "unlock" {
        var answer := server.Unlock();
        out := out + [Json(answer)];
      } else if name == "adapt_phone" || name == "restore_window" {
        var hwnd := server.ManagedWindow(desk);
        if hwnd == 0 {
          out := out + [Json(NoWindow)];
        } else if name == "adapt_phone" {
          var answer := server.AdaptPhone(hwnd, desk, wm);
          out := out + [Json(answer)];
        } else {
          var answer := server.RestoreWindow(hwnd, wm);
          out := out + [Json(answer)];
        }
      }
    }
  }
}
