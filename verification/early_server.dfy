/**
 * The first server (the repository's top-level Python server): a simpler
 * tracker than the legacy WebSocket server's.  A lock is a title and a
 * one-shot activation request, with no hard/soft distinction and no
 * auto-release; the display record is the caption last streamed; the
 * frame delay is kept in seconds; `adapt_phone` saves one window geometry
 * for `restore_window`.
 *
 * The stream follows the foreground window without the keyword fallback
 * of the window search, and `/interact` aims at the window last streamed.
 * The second `activate_window` of the file, the one in force, does
 * nothing while window activation is switched off.
 */
module EarlyServer {
  import opened Common
  import opened Text
  import opened Geometry
  import opened Desktop
  import opened LegacyCapture
  import opened Interaction
  import LegacyServer

  /** The activation switch of the file: off, so that capture never steals the focus. */
  const ActivateWindowSetting: bool := false

  // ---------------------------------------------------------------- the lock

  /** The lock: the locked title ("" = auto-follow) and the pending activation. */
  datatype LockState = LockState(title: string, pending: bool)

  /** `POST /lock`: the empty title unlocks and drops the activation; any other title locks, activated once. */
  function LockTo(s: LockState, title: string): (r: (LockState, Reply))
    ensures title == "" ==> r.0 == LockState("", false) && r.1 == Done("unlocked", "", [])
    ensures title != "" ==> r.0 == LockState(title, true) && r.1 == Done("locked", title, [])
  {
    if title == "" then (LockState("", false), Done("unlocked", "", []))
    else (LockState(title, true), Done("locked", title, []))
  }

  /** The later server's `/lock` does what this one does, and adds the hard-lock flag. */
  lemma LockAgreesWithLegacy(s: LockState, t: LegacyServer.LockState, title: string)
    ensures var e := LockTo(s, title);
      var l := LegacyServer.LockTo(t, title);
      && e.0.title == l.0.title && e.0.pending == l.0.pending && e.1 == l.1
      && l.0.manual == (title != "")
  {
  }

  /**
   * `POST /lock_current`: nothing changes when a lock exists; otherwise the
   * window the search would pick now (foreground, or a keyword window) is
   * locked, without an activation.
   */
  function LockCurrent(s: LockState, desk: Snapshot): (r: (LockState, Reply))
    ensures s.title != "" ==> r == (s, Done("already_locked", s.title, []))
    ensures s.title == "" ==>
      var w := TargetWindow("", desk);
      if w.Some? && w.value.title != "" then r == (LockState(w.value.title, false), Done("locked", w.value.title, []))
      else r.0 == s && r.1.Failure?
  {
    if s.title != "" then (s, Done("already_locked", s.title, []))
    else
      var w := TargetWindow("", desk);
      if w.Some? && w.value.title != "" then (LockState(w.value.title, false), Done("locked", w.value.title, []))
      else (s, Failure("no window to lock"))
  }

  /**
   * `lock_current` locks what the window search picks, which is not always
   * what the stream shows: while the server's own page has the focus, the
   * stream shows nothing new, and the lock goes to the first keyword window.
   */
  lemma LockCurrentWhileOwnPageFocused(s: LockState, desk: Snapshot)
    requires s.title == ""
    requires ForegroundWindow(desk).Some? && Contains(ForegroundWindow(desk).value.title, OwnTitle)
    requires FirstKeywordHit(TargetKeywords, desk.withTitle).Some?
    requires FirstKeywordHit(TargetKeywords, desk.withTitle).value.title != ""
    ensures LockCurrent(s, desk).0 == LockState(FirstKeywordHit(TargetKeywords, desk.withTitle).value.title, false)
  {
    AutoNeverFollowsOwnPage(desk);
  }

  /** While unlocked with a followable foreground window, `lock_current` locks exactly that window. */
  lemma LockCurrentTakesForeground(s: LockState, desk: Snapshot)
    requires s.title == ""
    requires ForegroundWindow(desk).Some? && ForegroundWindow(desk).value.title != ""
    requires !AnySkip(ForegroundWindow(desk).value.title, SkipTitles, true)
    ensures LockCurrent(s, desk) == (LockState(ForegroundWindow(desk).value.title, false), Done("locked", ForegroundWindow(desk).value.title, []))
  {
  }

  // ---------------------------------------------------------------- frame rate and pacing

  /** `POST /set_fps`: the clamped rate and the frame delay, in seconds, it implies. */
  function FpsDelay(requested: int): (r: (int, real))
    ensures r.0 == Clamp(1, 60, requested)
    ensures r.1 * (r.0 as real) == 1.0
    ensures 1.0 / 60.0 <= r.1 <= 1.0
  {
    var fps := Max(1, Min(60, requested));
    (fps, 1.0 / (fps as real))
  }

  /** The stream's sleep after a frame: what is left of the delay, never negative. */
  function SleepTime(delay: real, elapsed: real): (s: real)
    ensures s >= 0.0
    ensures s > 0.0 <==> elapsed < delay
    ensures s > 0.0 ==> elapsed + s == delay
  {
    if delay - elapsed > 0.0 then delay - elapsed else 0.0
  }

  // ---------------------------------------------------------------- capture

  /** The stream's auto-mode rule: an empty caption, or one containing a skip title, is not shown. */
  predicate AutoSkipped(t: string) {
    t == "" || AnySkip(t, SkipTitles, false)
  }

  /** The auto-mode rule skips exactly the captions the window search skips. */
  lemma AutoSkippedAsSearch(t: string)
    ensures AutoSkipped(t) <==> t == "" || AnySkip(t, SkipTitles, true)
  {
    SkipRulesAgree(t, SkipTitles);
  }

  /** `simple_capture`: a screen grab of the rectangle, when it is not empty and the grab works. */
  function Grab(rect: Option<Rect>, grabOk: bool): (r: Option<Shot>)
    ensures r.Some? <==> rect.Some? && rect.value.NonEmpty() && grabOk
    ensures r.Some? ==> r.value == Shot(ScreenGrab, rect.value)
  {
    if rect.Some? && rect.value.NonEmpty() && grabOk then Some(Shot(ScreenGrab, rect.value)) else None
  }

  /**
   * What one stream cycle learns from the system: the desktop, the handle
   * the title lookup finds for a window without one, that window's
   * rectangle (None when the lookup raises), the GDI outcomes, the
   * brightness of the GDI bitmap, whether the screen grab works, and the
   * seconds the cycle took.
   */
  datatype CycleInput = CycleInput(
    desk: Snapshot, hwndByTitle: nat, windowRect: Option<Rect>,
    gdi: GdiOutcomes, brightness: nat, grabOk: bool, elapsed: real)

  /** What the stream sends: a frame with its caption, or the "no window or capture failed" error. */
  datatype StreamMsg = FrameMsg(shot: Shot, window: string) | NotFoundMsg

  /**
   * The caption of the window a cycle shows, if any: the locked window
   * when the lock resolves, the foreground caption when it is not skipped.
   */
  function CycleCaption(locked: string, desk: Snapshot): (c: Option<string>)
    ensures locked == "" ==> (c.Some? <==> ForegroundHwndAndRect(desk).Some? && !AutoSkipped(desk.fgTitle))
    ensures locked == "" && c.Some? ==> c.value == desk.fgTitle
    ensures locked != "" ==> (c.Some? <==> TargetWindow(locked, desk).Some?)
    ensures locked != "" && c.Some? ==> c.value == TargetWindow(locked, desk).value.title
  {
    if locked != "" then
      var w := TargetWindow(locked, desk);
      if w.Some? then Some(w.value.title) else None
    else if ForegroundHwndAndRect(desk).Some? && !AutoSkipped(desk.fgTitle) then Some(desk.fgTitle)
    else None
  }

  /**
   * The capture of one window: the GDI background capture (default
   * near-black threshold) when Win32 is present, then the screen grab;
   * nothing without a handle.
   */
  function EarlyChain(win32: bool, hwnd: nat, rect: Option<Rect>, input: CycleInput): (s: Option<Shot>)
    ensures hwnd == 0 ==> s.None?
    ensures hwnd != 0 && win32 && rect.Some? && GdiShot(win32, rect.value, input.brightness, false).Some? ==>
      s == Some(Shot(GdiPrint, rect.value))
    ensures hwnd != 0 && !(win32 && rect.Some? && GdiShot(win32, rect.value, input.brightness, false).Some?) ==>
      s == Grab(rect, input.grabOk)
    ensures s.Some? ==> rect.Some? && rect.value.NonEmpty() && s.value.rect == rect.value
  {
    if hwnd == 0 then None
    else
      var gdi := if win32 && rect.Some? then GdiShot(win32, rect.value, input.brightness, false) else None;
      if gdi.Some? then gdi else Grab(rect, input.grabOk)
  }

  /** The GDI capture and the screen-grab fallback of the stream, on one window. */
  method CaptureChain(win32: bool, hwnd: nat, rect: Option<Rect>, input: CycleInput) returns (shot: Option<Shot>)
    ensures shot == EarlyChain(win32, hwnd, rect, input)
  {
    shot := None;
    if hwnd != 0 && win32 && rect.Some? {
      var tried;
      shot, tried := CaptureWindowBackground(win32, rect.value, input.gdi, input.brightness, false);
    }
    if shot.None? && hwnd != 0 {
      shot := Grab(rect, input.grabOk);
    }
  }

  /**
   * The picture of one cycle: the locked window (its handle looked up by
   * title when it has none) when the lock resolves, else the foreground
   * window unless its caption is skipped.
   */
  function CycleShot(locked: string, input: CycleInput): (s: Option<Shot>)
    ensures s.Some? ==> CycleCaption(locked, input.desk).Some?
    ensures locked == "" && s.Some? ==> s.value.rect == input.desk.fgRect.value
  {
    var desk := input.desk;
    if locked != "" then
      var w := TargetWindow(locked, desk);
      if w.None? then None
      else
        var hwnd := if w.value.hwnd == 0 && desk.win32 then input.hwndByTitle else w.value.hwnd;
        EarlyChain(desk.win32, hwnd, input.windowRect, input)
    else
      var fg := ForegroundHwndAndRect(desk);
      if fg.Some? && !AutoSkipped(desk.fgTitle) then EarlyChain(desk.win32, fg.value.0, Some(fg.value.1), input)
      else None
  }

  /** The message of one cycle: the frame with its caption cut to 50 characters, or the error message. */
  function CycleMsg(locked: string, input: CycleInput): (m: StreamMsg)
    ensures m.NotFoundMsg? <==> CycleShot(locked, input).None?
    ensures m.FrameMsg? ==>
      && m.shot == CycleShot(locked, input).value
      && m.window == LegacyServer.MetaCaption(CycleCaption(locked, input.desk).value)
  {
    var shot := CycleShot(locked, input);
    if shot.Some? then FrameMsg(shot.value, LegacyServer.MetaCaption(CycleCaption(locked, input.desk).value))
    else NotFoundMsg
  }

  /**
   * A followable foreground window whose GDI capture is black or fails is
   * still streamed, from the screen grab, when that works.
   */
  lemma ForegroundFallsBackToGrab(input: CycleInput)
    requires ForegroundHwndAndRect(input.desk).Some? && !AutoSkipped(input.desk.fgTitle)
    requires GdiShot(input.desk.win32, input.desk.fgRect.value, input.brightness, false).None? && input.grabOk
    ensures CycleMsg("", input) == FrameMsg(Shot(ScreenGrab, input.desk.fgRect.value), LegacyServer.MetaCaption(input.desk.fgTitle))
  {
  }

  /** A skipped foreground caption (the server's own page, the taskbar) is never streamed. */
  lemma SkippedForegroundNotStreamed(input: CycleInput)
    requires AutoSkipped(input.desk.fgTitle)
    ensures CycleMsg("", input) == NotFoundMsg
  {
  }

  // ---------------------------------------------------------------- /interact

  /** The parameters of `/interact`. */
  datatype Request = Request(action: string, x: int, y: int, text: string, key: string)

  /** The actions this server knows: the later server's list without the middle click, the raw key and mouse events. */
  predicate Known(a: LegacyServer.Action) {
    a in {LegacyServer.DoClick, LegacyServer.DoType, LegacyServer.DoKey, LegacyServer.DoHotkey, LegacyServer.DoScroll,
          LegacyServer.DoScrollUp, LegacyServer.DoScrollDown, LegacyServer.DoOpenApp, LegacyServer.DoDrag,
          LegacyServer.DoRightClick, LegacyServer.DoDoubleClick, LegacyServer.DoResize, LegacyServer.DoAdapt,
          LegacyServer.DoRestore, LegacyServer.DoClose}
  }

  function ParseAction(name: string): (a: LegacyServer.Action)
    ensures a != LegacyServer.DoUnknown ==> Known(a) && LegacyServer.ActionName(a) == name
  {
    var a := LegacyServer.ParseAction(name);
    if Known(a) then a else LegacyServer.DoUnknown
  }

  /**
   * The `activate_window` in force: with activation switched off it does
   * nothing and reports success; otherwise it activates the window, or
   * reports failure when that raises.
   */
  function ActivateWindow(enabled: bool, w: Window, raises: bool): (r: (bool, seq<InputOp>))
    ensures !enabled ==> r == (true, [])
    ensures enabled ==> r == (!raises, if raises then [] else [Activate(w.title)])
  {
    if !enabled then (true, [])
    else if raises then (false, [])
    else (true, [Activate(w.title)])
  }

  /** With the file's setting, activation never sends anything and always reports success. */
  lemma ActivationSwitchedOff(w: Window, raises: bool)
    ensures ActivateWindow(ActivateWindowSetting, w, raises) == (true, [])
  {
  }

  /** `type`: paste the text as given; click the point first unless both coordinates are 0. */
  function TypeOps(req: Request, p: (int, int)): (ops: seq<InputOp>)
    ensures req.x == 0 && req.y == 0 ==> ops == [Paste(req.text)]
    ensures req.x != 0 || req.y != 0 ==> ops == [Click(p.0, p.1, LeftButton), Paste(req.text)]
  {
    (if req.x == 0 && req.y == 0 then [] else [Click(p.0, p.1, LeftButton)]) + [Paste(req.text)]
  }

  /** `close_window`: the activation does nothing, then Alt+F4 unless another window is active. */
  function CloseWindow(target: Option<Window>, active: Option<string>, saved: Option<LegacyServer.SavedWindow>): (o: LegacyServer.Outcome)
    ensures o.saved == saved && o.click.None?
    ensures o.ops == [] || o.ops == [Hotkey(["alt", "f4"])]
    ensures o.ops != [] <==> target.Some? && CloseAllowed(target.value.title, active)
  {
    if target.None? then LegacyServer.Outcome(Failure("no window to close"), [], None, saved)
    else
      var t := target.value;
      var act := ActivateWindow(ActivateWindowSetting, t, false);
      if CloseAllowed(t.title, active) then
        LegacyServer.Outcome(Done("success", t.title, []), act.1 + [Hotkey(["alt", "f4"])], None, saved)
      else LegacyServer.Outcome(Failure("active window differs"), act.1, None, saved)
  }

  /**
   * One `/interact` action on window `w`, given the search's target window
   * (for the window-management actions), the lock and the saved geometry.
   * The outcome's click is always None: this server remembers no click.
   */
  function Action(req: Request, w: Window, target: Option<Window>, locked: string,
                  saved: Option<LegacyServer.SavedWindow>, env: LegacyServer.InteractEnv): (o: LegacyServer.Outcome)
    ensures o.saved != saved ==> ParseAction(req.action) in {LegacyServer.DoAdapt, LegacyServer.DoRestore}
    ensures ParseAction(req.action) == LegacyServer.DoUnknown ==> o.reply == HttpError(500) && o.ops == []
  {
    var p := LegacyServer.Absolute(w, req.x, req.y);
    match ParseAction(req.action)
    case DoClick =>
      LegacyServer.Outcome(Done("clicked", w.title, [p.0, p.1]), [Click(p.0, p.1, LeftButton)], None, saved)
    case DoType =>
      LegacyServer.Outcome(Done("typed", req.text, []), TypeOps(req, p), None, saved)
    case DoKey =>
      LegacyServer.Outcome(Done("key_pressed", req.key, []), [Press(req.key)], None, saved)
    case DoHotkey =>
      LegacyServer.Outcome(Done("hotkey_pressed", req.key, []), HotkeyOps(req.key), None, saved)
    case DoScroll => LegacyServer.HttpScroll(HttpScrollAmount("scroll", req.text), p, None, saved)
    case DoScrollUp =>
      LegacyServer.Outcome(Done("scrolled_up", "", [p.0, p.1]), [MoveTo(p.0, p.1), Scroll(3)], None, saved)
    case DoScrollDown =>
      LegacyServer.Outcome(Done("scrolled_down", "", [p.0, p.1]), [MoveTo(p.0, p.1), Scroll(-3)], None, saved)
    case DoOpenApp =>
      LegacyServer.Outcome(Done("opening_app", req.text, []), OpenAppOps(req.text), None, saved)
    case DoDrag => LegacyServer.HttpDrag(ParseDrag(req.text), p, None, saved)
    case DoRightClick =>
      LegacyServer.Outcome(Done("right_clicked", "", [p.0, p.1]), [Click(p.0, p.1, RightButton)], None, saved)
    case DoDoubleClick =>
      LegacyServer.Outcome(Done("double_clicked", "", [p.0, p.1]), [DoubleClick(p.0, p.1)], None, saved)
    case DoResize => LegacyServer.HttpResize(locked, target, ParseSize(req.text), None, saved)
    case DoAdapt => LegacyServer.HttpAdapt(target, env, None, saved)
    case DoRestore => LegacyServer.HttpRestore(target, None, saved)
    case DoClose => CloseWindow(target, env.active, saved)
    // the 400 raised for an unknown action is caught by the `except Exception` around the actions
    case _ => LegacyServer.Outcome(OuterHandlerAsWritten(RaisedHttp(400)), [], None, saved)
  }

  /** `type` at (0,0) pastes the raw text into whatever has the focus, without any click. */
  lemma TypeAtOriginOnlyPastes(req: Request, w: Window, target: Option<Window>, locked: string,
                               saved: Option<LegacyServer.SavedWindow>, env: LegacyServer.InteractEnv)
    requires ParseAction(req.action) == LegacyServer.DoType && req.x == 0 && req.y == 0
    ensures Action(req, w, target, locked, saved, env).ops == [Paste(req.text)]
  {
  }

  /** A drag whose text does not have exactly two comma-separated parts is refused without any input. */
  lemma DragNeedsTwoParts(req: Request, w: Window, target: Option<Window>, locked: string,
                          saved: Option<LegacyServer.SavedWindow>, env: LegacyServer.InteractEnv)
    requires ParseAction(req.action) == LegacyServer.DoDrag && Count(req.text, ',') != 1
    ensures var o := Action(req, w, target, locked, saved, env);
      o.reply.Failure? && o.ops == []
  {
  }

  /** A drag written "dx,dy" moves to the point and drags by exactly that delta. */
  lemma DragByText(dx: int, dy: int, p: (int, int), saved: Option<LegacyServer.SavedWindow>)
    ensures LegacyServer.HttpDrag(ParseDrag(SignedDecimal(dx) + "," + SignedDecimal(dy)), p, None, saved).ops ==
      [MoveTo(p.0, p.1), Drag(dx, dy)]
  {
    ParseDragRoundTrip(dx, dy);
  }

  /** Closing never activates anything (activation is off), and Alt+F4 goes out only when the target may be active. */
  lemma CloseNeverActivates(req: Request, w: Window, target: Option<Window>, locked: string,
                            saved: Option<LegacyServer.SavedWindow>, env: LegacyServer.InteractEnv)
    requires ParseAction(req.action) == LegacyServer.DoClose
    ensures var o := Action(req, w, target, locked, saved, env);
      && (forall op :: op in o.ops ==> !op.Activate?)
      && (Hotkey(["alt", "f4"]) in o.ops <==> target.Some? && CloseAllowed(target.value.title, env.active))
  {
  }

  /** `adapt_phone` followed by `restore_window` on the same window puts back the geometry it had. */
  lemma AdaptThenRestore(w: Window, t: Window, locked: string, saved: Option<LegacyServer.SavedWindow>,
                         env: LegacyServer.InteractEnv, x: int, y: int)
    ensures var a := Action(Request("adapt_phone", x, y, "", ""), w, Some(t), locked, saved, env);
      var r := Action(Request("restore_window", x, y, "", ""), w, Some(t), locked, a.saved, env);
      && r.ops == [MoveWindow(t.left, t.top), ResizeWindow(t.width, t.height)]
      && r.saved.None?
  {
    assert LegacyServer.ParseAction("adapt_phone") == LegacyServer.DoAdapt;
    assert LegacyServer.ParseAction("restore_window") == LegacyServer.DoRestore;
    var a := Action(Request("adapt_phone", x, y, "", ""), w, Some(t), locked, saved, env);
    assert a == LegacyServer.HttpAdapt(Some(t), env, None, saved);
    assert Action(Request("restore_window", x, y, "", ""), w, Some(t), locked, a.saved, env)
      == LegacyServer.HttpRestore(Some(t), None, a.saved);
  }

  // ---------------------------------------------------------------- the server

  /** The module state of the server, rewritten in place by the handlers and the stream. */
  class Server {
    var lockedTitle: string
    var pendingActivation: bool
    var currentDisplay: string
    var frameDelay: real
    var originalState: Option<LegacyServer.SavedWindow>

    function Lock(): LockState reads this {
      LockState(lockedTitle, pendingActivation)
    }

    ghost predicate Valid() reads this {
      frameDelay > 0.0
    }

    constructor()
      ensures Lock() == LockState("", false) && currentDisplay == ""
      ensures frameDelay == 0.2 && originalState.None? && Valid()
    {
      lockedTitle, pendingActivation, currentDisplay := "", false, "";
      frameDelay := 0.2;
      originalState := None;
    }

    /** `POST /lock`. */
    method LockWindow(title: string) returns (reply: Reply)
      modifies this`lockedTitle, this`pendingActivation
      ensures (Lock(), reply) == LockTo(old(Lock()), title)
    {
      if title == "" {
        lockedTitle := "";
        pendingActivation := false;
        reply := Done("unlocked", "", []);
      } else {
        lockedTitle := title;
        pendingActivation := true;
        reply := Done("locked", title, []);
      }
    }

    /** `POST /lock_current`. */
    method LockCurrentWindow(desk: Snapshot) returns (reply: Reply)
      modifies this`lockedTitle, this`pendingActivation
      ensures (Lock(), reply) == LockCurrent(old(Lock()), desk)
    {
      if lockedTitle != "" {
        return Done("already_locked", lockedTitle, []);
      }
      var w := GetTargetWindow("", desk);
      if w.Some? && w.value.title != "" {
        lockedTitle := w.value.title;
        pendingActivation := false;
        return Done("locked", w.value.title, []);
      }
      return Failure("no window to lock");
    }

    /** `POST /set_fps`. */
    method SetFps(requested: int) returns (fps: int, delay: real)
      requires Valid()
      modifies this`frameDelay
      ensures Valid()
      ensures (fps, delay) == FpsDelay(requested) && frameDelay == delay
    {
      fps := Max(1, Min(60, requested));
      frameDelay := 1.0 / (fps as real);
      delay := frameDelay;
    }

    /**
     * One pass of the stream loop: capture the locked window (activating
     * it once if asked) or the foreground window unless it is skipped,
     * remember the caption of a frame actually sent, and report the sleep.
     */
    method StreamCycle(input: CycleInput) returns (msg: StreamMsg, activation: seq<InputOp>, sleep: real)
      requires Valid()
      modifies this`pendingActivation, this`currentDisplay
      ensures Valid()
      ensures sleep == SleepTime(frameDelay, input.elapsed)
      ensures var t := if lockedTitle != "" then TargetWindow(lockedTitle, input.desk) else None;
        && pendingActivation == (old(pendingActivation) && t.None?)
        && activation == (if t.Some? && old(pendingActivation) then [Activate(t.value.title)] else [])
      ensures msg == CycleMsg(lockedTitle, input)
      ensures currentDisplay == (if msg.FrameMsg? then CycleCaption(lockedTitle, input.desk).value else old(currentDisplay))
    {
      var shot: Option<Shot> := None;
      var title := "";
      activation := [];
      if lockedTitle != "" {
        var win := GetTargetWindow(lockedTitle, input.desk);
        if win.Some? {
          title := win.value.title;
          var hwnd := win.value.hwnd;
          if hwnd == 0 && input.desk.win32 {
            hwnd := input.hwndByTitle;
          }
          if pendingActivation {
            activation := [Activate(win.value.title)];
            pendingActivation := false;
          }
          shot := CaptureChain(input.desk.win32, hwnd, input.windowRect, input);
        }
      } else {
        var fg := ForegroundHwndAndRect(input.desk);
        if fg.Some? {
          title := input.desk.fgTitle;
          if !AutoSkipped(title) {
            shot := CaptureChain(input.desk.win32, fg.value.0, Some(fg.value.1), input);
          }
        }
      }
      if shot.Some? {
        currentDisplay := title;
        msg := FrameMsg(shot.value, LegacyServer.MetaCaption(title));
      } else {
        msg := NotFoundMsg;
      }
      sleep := SleepTime(frameDelay, input.elapsed);
    }

    /** `POST /interact`: find the window last streamed (else the search's target), then act on it. */
    method Interact(req: Request, env: LegacyServer.InteractEnv) returns (reply: Reply, ops: seq<InputOp>)
      modifies this`originalState
      ensures var win := LegacyServer.InputWindow(currentDisplay, lockedTitle, env.desk);
        && (win.None? ==> reply == HttpError(404) && ops == [] && originalState == old(originalState))
        && (win.Some? ==>
              var o := Action(req, win.value, TargetWindow(lockedTitle, env.desk), lockedTitle, old(originalState), env);
              reply == o.reply && ops == o.ops && originalState == o.saved)
    {
      var win: Option<Window> := None;
      if currentDisplay != "" {
        var windows := env.desk.withTitle(currentDisplay);
        if |windows| > 0 {
          win := Some(windows[0]);
        }
      }
      if win.None? {
        win := GetTargetWindow(lockedTitle, env.desk);
      }
      if win.None? {
        return HttpError(404), [];
      }
      var target := GetTargetWindow(lockedTitle, env.desk);
      var o := Action(req, win.value, target, lockedTitle, originalState, env);
      originalState := o.saved;
      return o.reply, o.ops;
    }
  }
}
