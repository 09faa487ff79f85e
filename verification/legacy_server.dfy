/**
 * The window tracker and input handlers of the legacy WebSocket server.
 *
 * The tracker is a lock (a title, a hard/soft flag and a one-shot
 * activation request), the display record (the window last shown, the
 * window shown before it and when that changed), the last click and the
 * window geometry saved by `adapt_phone`.  The HTTP handlers (`/lock`,
 * `/lock_current`, `/set_fps`, `/interact`) and the WebSocket command
 * handler rewrite it; the stream cycle reads it, releases soft locks,
 * records what it showed, and drains the command queue.
 *
 * Each handler is given twice: as a pure transition on tracker values,
 * which the lemmas are about, and as a method of `LegacyServer` that
 * rewrites the fields in place and is proved to perform that transition.
 */
module LegacyServer {
  import opened Common
  import opened Text
  import opened Geometry
  import opened Desktop
  import opened LegacyCapture
  import opened Interaction

  /** The caption the stream reports when it found no window. */
  const Placeholder: string := "未知"

  /** The client's own "nothing found" caption, ignored as a target. */
  const NotFoundCaption: string := "未找到"

  /** How long (ms) after a change of display the previous window still counts as the target. */
  const RecentChangeMs: int := 500

  /** The stream's fixed frame interval in milliseconds. */
  const StreamIntervalMs: int := 33

  // ---------------------------------------------------------------- tracker values

  /** The lock: the locked title ("" = auto-follow), hard (manual) or soft, and a pending activation. */
  datatype LockState = LockState(title: string, manual: bool, pending: bool)

  /** The display record: current window, last valid window, time (ms) of the last change (0 = never). */
  datatype Display = Display(current: string, last: string, changedAt: int)

  /** Where the last click landed, in screen coordinates, and in which window. */
  datatype ClickPos = ClickPos(x: int, y: int, title: string)

  /** The geometry `adapt_phone` saves for `restore_window`. */
  datatype SavedWindow = SavedWindow(left: int, top: int, width: int, height: int)

  /** The tracker state the WebSocket command handler reads and writes. */
  datatype Session = Session(lock: LockState, display: Display, click: Option<ClickPos>)

  /** A hard lock always names a window, and the display record never holds the server's own page. */
  predicate Consistent(s: LockState, d: Display) {
    (s.manual ==> s.title != "") && !Contains(d.current, OwnTitle) && !Contains(d.last, OwnTitle)
  }

  // ---------------------------------------------------------------- lock transitions

  /** `POST /lock`: the empty title unlocks and clears both flags; any other title is a hard lock, activated once. */
  function LockTo(s: LockState, title: string): (r: (LockState, Reply))
    ensures title == "" ==> r == (LockState("", false, false), Done("unlocked", "", []))
    ensures title != "" ==> r.0 == LockState(title, true, true) && r.1 == Done("locked", title, [])
  {
    if title == "" then (LockState("", false, false), Done("unlocked", "", []))
    else (LockState(title, true, true), Done("locked", title, []))
  }

  /**
   * The window `lock_current` would lock: the current display unless it is
   * empty or the server's own page, then the last valid window; "" when
   * neither qualifies.
   */
  function LockCandidate(d: Display): (t: string)
    ensures t != "" ==> !Contains(t, OwnTitle) && (t == d.current || t == d.last)
    ensures d.current != "" && !Contains(d.current, OwnTitle) ==> t == d.current
    ensures (d.current == "" || Contains(d.current, OwnTitle)) ==>
      t == (if d.last != "" && !Contains(d.last, OwnTitle) then d.last else "")
  {
    var t := if d.current == "" || Contains(d.current, OwnTitle) then d.last else d.current;
    if t != "" && !Contains(t, OwnTitle) then t else ""
  }

  /** `POST /lock_current`: nothing changes when a lock exists; otherwise the candidate becomes a hard lock. */
  function LockCurrentHttp(s: LockState, d: Display): (r: (LockState, Reply))
    ensures s.title != "" ==> r == (s, Done("already_locked", s.title, []))
    ensures s.title == "" && LockCandidate(d) != "" ==>
      r == (LockState(LockCandidate(d), true, false), Done("locked", LockCandidate(d), []))
    ensures s.title == "" && LockCandidate(d) == "" ==> r.0 == s && r.1.Failure?
  {
    if s.title != "" then (s, Done("already_locked", s.title, []))
    else LockCurrentWs(s, d)
  }

  /** The WebSocket `lock_current`: the same choice, without the already-locked check. */
  function LockCurrentWs(s: LockState, d: Display): (r: (LockState, Reply))
    ensures LockCandidate(d) != "" ==> r == (LockState(LockCandidate(d), true, false), Done("locked", LockCandidate(d), []))
    ensures LockCandidate(d) == "" ==> r.0 == s && r.1.Failure?
  {
    var t := LockCandidate(d);
    if t != "" then (LockState(t, true, false), Done("locked", t, []))
    else (s, Failure("no window to lock"))
  }

  /** The WebSocket `unlock` as written: the lock and its flag go, a pending activation stays. */
  function UnlockAsWritten(s: LockState): (r: LockState)
    ensures r.title == "" && !r.manual && r.pending == s.pending
  {
    LockState("", false, s.pending)
  }

  /** The WebSocket `unlock` with the pending activation cleared, as `/lock` with "" does. */
  function Unlock(s: LockState): (r: LockState)
    ensures r == LockTo(s, "").0
  {
    LockState("", false, false)
  }

  /** The foreground caption that ends a soft lock: a real window, not the server's page, not the locked one. */
  predicate ReleasesSoftLock(fg: string, locked: string) {
    fg != "" && !Contains(fg, OwnTitle) && fg != locked
  }

  /** The stream's auto-release; without the Win32 bindings the check raises and nothing changes. */
  function AutoRelease(s: LockState, win32: bool, fg: string): (r: LockState)
    ensures r.manual == s.manual && r.pending == s.pending
    ensures r.title == s.title || r.title == ""
    ensures r.title != s.title <==> s.title != "" && !s.manual && win32 && ReleasesSoftLock(fg, s.title)
  {
    if s.title != "" && !s.manual && win32 && ReleasesSoftLock(fg, s.title) then s.(title := "") else s
  }

  /** The implicit soft lock of `/interact`: only when nothing is locked and the target is not the server's page. */
  function SoftLock(s: LockState, d: Display, target: string): (r: (LockState, Display))
    ensures r.0.pending == s.pending
    ensures target != "" && s.title == "" && !Contains(target, OwnTitle) ==>
      r.0.title == target && !r.0.manual && r.1.current == target && r.1.last == target && r.1.changedAt == d.changedAt
    ensures !(target != "" && s.title == "" && !Contains(target, OwnTitle)) ==> r == (s, d)
  {
    if target != "" && s.title == "" && !Contains(target, OwnTitle) then
      (LockState(target, false, s.pending), Display(target, target, d.changedAt))
    else (s, d)
  }

  // ---------------------------------------------------------------- display record

  /**
   * The stream's bookkeeping after a cycle that showed `title`: only while
   * unlocked and never for the server's own page; a change of window moves
   * the previous one to the last-valid slot and stamps the time.
   */
  function Recorded(d: Display, title: string, locked: string, now: int): (r: Display)
    ensures title == "" || locked != "" || Contains(title, OwnTitle) ==> r == d
    ensures title != "" && locked == "" && !Contains(title, OwnTitle) ==> r.current == title
    ensures r.last != d.last ==> r.last == d.current && d.current != "" && d.current != title && r.changedAt == now
    ensures r.changedAt != d.changedAt ==> r.changedAt == now && r.last == d.current
    ensures var shown := title != "" && locked == "" && !Contains(title, OwnTitle);
      var moves := d.current != "" && d.current != title && !Contains(d.current, OwnTitle);
      && (shown && moves ==> r == Display(title, d.current, now))
      && (shown && !moves ==> r.last == d.last && r.changedAt == d.changedAt)
  {
    if title != "" && locked == "" && !Contains(title, OwnTitle) then
      if d.current != "" && d.current != title && !Contains(d.current, OwnTitle) then
        Display(title, d.current, now)
      else Display(title, d.last, d.changedAt)
    else d
  }

  /** The bookkeeping never lets the server's own page into the record. */
  lemma RecordNeverOwnPage(s: LockState, d: Display, title: string, now: int)
    requires Consistent(s, d)
    ensures Consistent(s, Recorded(d, title, s.title, now))
  {
  }

  /**
   * The caption the stream shows in auto mode: while the foreground is the
   * server's own page, the current (or else last valid) window stands in.
   */
  function StickyTitle(fg: string, locked: string, d: Display): (t: string)
    ensures !Contains(fg, OwnTitle) || locked != "" ==> t == fg
    ensures Contains(fg, OwnTitle) && locked == "" && d.current != "" && !Contains(d.current, OwnTitle) ==> t == d.current
  {
    if Contains(fg, OwnTitle) && locked == "" then
      if d.current != "" && !Contains(d.current, OwnTitle) then d.current
      else if d.last != "" && !Contains(d.last, OwnTitle) then d.last
      else fg
    else fg
  }

  /**
   * Looking at the server's own page does not move the logical focus: the
   * display record is the same after such a cycle as before it.
   */
  lemma OwnPageKeepsFocus(fg: string, d: Display, now: int)
    requires Contains(fg, OwnTitle) && d.current != ""
    requires !Contains(d.current, OwnTitle) && !Contains(d.last, OwnTitle)
    ensures Recorded(d, StickyTitle(fg, "", d), "", now) == d
  {
  }

  /** The caption recorded after a cycle, as written: the placeholder when no window was found. */
  function RecordedCaptionAsWritten(found: Option<string>): string {
    if found.Some? then found.value else Placeholder
  }

  /** The caption recorded after a cycle, as intended: nothing when no window was found. */
  function RecordedCaption(found: Option<string>): (t: string)
    ensures found.None? ==> t == ""
    ensures found.Some? ==> t == found.value
  {
    if found.Some? then found.value else ""
  }

  /**
   * As written, one cycle without a foreground window records the
   * placeholder as the current window, and `lock_current` then locks the
   * placeholder, which names no window.  With the intended caption the
   * record and the lock stay on the real window.
   */
  lemma PlaceholderLockedAsWritten()
    ensures var d := Display("Notepad", "", 0);
      var d1 := Recorded(d, RecordedCaptionAsWritten(None), "", 1000);
      && d1 == Display(Placeholder, "Notepad", 1000)
      && LockCurrentHttp(LockState("", false, false), d1).0.title == Placeholder
  {
    assert !Contains(Placeholder, OwnTitle) by { LongerNotContained(Placeholder, OwnTitle); }
    assert !Contains("Notepad", OwnTitle) by { LongerNotContained("Notepad", OwnTitle); }
  }

  /** With the intended caption a cycle without a window leaves the record, and the lock it leads to, alone. */
  lemma NoWindowKeepsRecord(s: LockState, d: Display, now: int)
    ensures Recorded(d, RecordedCaption(None), s.title, now) == d
  {
  }

  // ---------------------------------------------------------------- lock properties

  /** A hard lock survives every foreground change. */
  lemma HardLockSurvives(s: LockState, title: string, win32: bool, fg: string)
    requires title != ""
    ensures AutoRelease(LockTo(s, title).0, win32, fg) == LockTo(s, title).0
  {
  }

  /** A soft lock is released by switching to any other real window, and by nothing else. */
  lemma SoftLockReleased(s: LockState, d: Display, target: string, fg: string)
    requires s.title == "" && target != "" && !Contains(target, OwnTitle)
    ensures var locked := SoftLock(s, d, target).0;
      AutoRelease(locked, true, fg).title == "" <==> fg != "" && !Contains(fg, OwnTitle) && fg != target
  {
  }

  /** `lock_current` never locks the server's own page, and when it locks, the lock is hard and not pending. */
  lemma LockCurrentNeverOwnPage(s: LockState, d: Display)
    ensures var r := LockCurrentHttp(s, d).0;
      r.title != s.title ==> !Contains(r.title, OwnTitle) && r.manual && !r.pending
  {
  }

  /**
   * As written the two unlock paths disagree: after `/lock` on a window
   * that has not been activated yet, the WebSocket `unlock` keeps the
   * pending activation that `/lock` with "" clears; the intended `Unlock`
   * agrees with `/lock` on every state.
   */
  lemma UnlockPathsDisagree()
    ensures var s := LockTo(LockState("", false, false), "Notepad").0;
      UnlockAsWritten(s).pending && !LockTo(s, "").0.pending
  {
  }

  lemma UnlockPathsAgree(s: LockState)
    ensures Unlock(s) == LockTo(s, "").0
    ensures Unlock(s).title == "" && !Unlock(s).pending
  {
  }

  /** Every lock transition keeps the tracker consistent. */
  lemma TransitionsKeepConsistent(s: LockState, d: Display, title: string, target: string, win32: bool, fg: string)
    requires Consistent(s, d)
    ensures Consistent(LockTo(s, title).0, d)
    ensures Consistent(LockCurrentHttp(s, d).0, d)
    ensures Consistent(LockCurrentWs(s, d).0, d)
    ensures Consistent(UnlockAsWritten(s), d)
    ensures Consistent(Unlock(s), d)
    ensures Consistent(AutoRelease(s, win32, fg), d)
    ensures Consistent(SoftLock(s, d, target).0, SoftLock(s, d, target).1)
  {
  }

  // ---------------------------------------------------------------- choosing the window of an interaction

  /**
   * The title `/interact` aims at: the client's caption unless it is
   * missing or a "nothing found" marker, else the current display, else,
   * within half a second of a change, the last valid window.
   */
  function InteractTarget(requested: string, d: Display, now: int): (t: string)
    ensures requested != "" && requested != NotFoundCaption && requested != "-" ==> t == requested
    ensures t == requested || t == d.current || t == d.last
    ensures t == d.last && t != d.current && t != requested ==> d.changedAt != 0 && now - d.changedAt < RecentChangeMs
  {
    var t := if requested != "" && requested != NotFoundCaption && requested != "-" then requested else d.current;
    if t == "" && d.last != "" && d.changedAt != 0 && now - d.changedAt < RecentChangeMs then d.last else t
  }

  /** The window an input goes to: the first window carrying the title, else the tracker's target window. */
  function InputWindow(title: string, locked: string, desk: Snapshot): (w: Option<Window>)
    ensures title != "" && |desk.withTitle(title)| > 0 ==> w == Some(desk.withTitle(title)[0])
    ensures (title == "" || |desk.withTitle(title)| == 0) ==> w == TargetWindow(locked, desk)
  {
    if title != "" && |desk.withTitle(title)| > 0 then Some(desk.withTitle(title)[0])
    else TargetWindow(locked, desk)
  }

  /** Window-relative coordinates from the client become screen coordinates. */
  function Absolute(w: Window, x: int, y: int): (p: (int, int))
    ensures p.0 - w.left == x && p.1 - w.top == y
  {
    (w.left + x, w.top + y)
  }

  /**
   * Where `type` puts the focus before pasting: a click at the given point,
   * else a click at the last click if it was in this window, else (over
   * HTTP only) an activation of the window.
   */
  function TypeFocus(p: (int, int), x: int, y: int, w: Window, last: Option<ClickPos>, activateOtherwise: bool): (ops: seq<InputOp>)
    ensures |ops| <= 1
    ensures x != 0 || y != 0 ==> ops == [Click(p.0, p.1, LeftButton)]
    ensures x == 0 && y == 0 && last.Some? && last.value.title == w.title ==> ops == [Click(last.value.x, last.value.y, LeftButton)]
    ensures x == 0 && y == 0 && !(last.Some? && last.value.title == w.title) ==>
      ops == (if activateOtherwise then [Activate(w.title)] else [])
  {
    if x != 0 || y != 0 then [Click(p.0, p.1, LeftButton)]
    else if last.Some? && last.value.title == w.title then [Click(last.value.x, last.value.y, LeftButton)]
    else if activateOtherwise then [Activate(w.title)]
    else []
  }

  /**
   * A click at (0,0)-relative typing never lands in another window: any
   * click `type` makes without coordinates is at a point recorded for
   * this very window.
   */
  lemma TypeClicksOnlyInSameWindow(p: (int, int), w: Window, last: Option<ClickPos>, http: bool, c: InputOp)
    requires c in TypeFocus(p, 0, 0, w, last, http) && c.Click?
    ensures last.Some? && last.value.title == w.title && c == Click(last.value.x, last.value.y, LeftButton)
  {
  }

  /** The paste that follows the focus step: nothing when the sanitised text is empty. */
  function PasteOps(text: string): (ops: seq<InputOp>)
    ensures SafeText(text) == "" <==> ops == []
    ensures ops != [] ==> ops == [Paste(SafeText(text))]
  {
    if SafeText(text) == "" then [] else [Paste(SafeText(text))]
  }

  // ---------------------------------------------------------------- the /interact actions

  /** The parameters of `/interact`. */
  datatype Request = Request(action: string, x: int, y: int, text: string, key: string, windowTitle: string)

  /**
   * What `/interact` learns from the system: the desktop, the time (ms),
   * the work area of the monitor under the target window (None when the
   * monitor API is unavailable), the screen size, and the active window
   * after activation (None when there is none).
   */
  datatype InteractEnv = InteractEnv(desk: Snapshot, now: int, work: Option<Rect>, screenW: int, screenH: int, active: Option<string>)

  /** The outcome of one action: the reply, the input sent, the new last click and the new saved geometry. */
  datatype Outcome = Outcome(reply: Reply, ops: seq<InputOp>, click: Option<ClickPos>, saved: Option<SavedWindow>)

  /** The phone-shaped placement `adapt_phone` moves a window to. */
  function AdaptPlacement(env: InteractEnv): Placement {
    PhoneLayout(PyWorkArea(env.work, env.screenW, env.screenH), Floor)
  }

  /** The actions `/interact` knows. */
  datatype Action =
    | DoClick | DoType | DoKey | DoHotkey | DoScroll | DoScrollUp | DoScrollDown | DoOpenApp | DoDrag
    | DoRightClick | DoDoubleClick | DoMiddleClick | DoKeyDown | DoKeyUp
    | DoResize | DoAdapt | DoRestore | DoClose | DoMouseDown | DoMouseUp | DoMouseMove | DoUnknown

  /** The name a client sends for each action. */
  function ActionName(a: Action): string {
    match a
    case DoClick => "click"
    case DoType => "type"
    case DoKey => "key"
    case DoHotkey => "hotkey"
    case DoScroll => "scroll"
    case DoScrollUp => "scroll_up"
    case DoScrollDown => "scroll_down"
    case DoOpenApp => "open_app"
    case DoDrag => "drag"
    case DoRightClick => "right_click"
    case DoDoubleClick => "double_click"
    case DoMiddleClick => "middle_click"
    case DoKeyDown => "keydown"
    case DoKeyUp => "keyup"
    case DoResize => "resize_window"
    case DoAdapt => "adapt_phone"
    case DoRestore => "restore_window"
    case DoClose => "close_window"
    case DoMouseDown => "mousedown"
    case DoMouseUp => "mouseup"
    case DoMouseMove => "mousemove"
    case DoUnknown => ""
  }

  /** The handler's `if/elif` chain on the action name. */
  function ParseAction(name: string): (a: Action)
    ensures a != DoUnknown ==> ActionName(a) == name
  {
    if name == "click" then DoClick
    else if name == "type" then DoType
    else if name == "key" then DoKey
    else if name == "hotkey" then DoHotkey
    else if name == "scroll" then DoScroll
    else if name == "scroll_up" then DoScrollUp
    else if name == "scroll_down" then DoScrollDown
    else if name == "open_app" then DoOpenApp
    else if name == "drag" then DoDrag
    else if name == "right_click" then DoRightClick
    else if name == "double_click" then DoDoubleClick
    else if name == "middle_click" then DoMiddleClick
    else if name == "keydown" then DoKeyDown
    else if name == "keyup" then DoKeyUp
    else if name == "resize_window" then DoResize
    else if name == "adapt_phone" then DoAdapt
    else if name == "restore_window" then DoRestore
    else if name == "close_window" then DoClose
    else if name == "mousedown" then DoMouseDown
    else if name == "mouseup" then DoMouseUp
    else if name == "mousemove" then DoMouseMove
    else DoUnknown
  }

  /** Every known action is recognised by its own name: the chain has no shadowed branch. */
  lemma ParseActionName(a: Action)
    requires a != DoUnknown
    ensures ParseAction(ActionName(a)) == a
  {
  }

  /**
   * One `/interact` action on window `w` (already activated), given the
   * tracker's own target window `target` (used by the window-management
   * actions) and the lock title.
   */
  function HttpAction(req: Request, w: Window, target: Option<Window>, locked: string,
                      click: Option<ClickPos>, saved: Option<SavedWindow>, env: InteractEnv): (o: Outcome)
    ensures o.click != click ==> ParseAction(req.action) in {DoClick, DoType} && (ParseAction(req.action) == DoType ==> req.x != 0 || req.y != 0)
    ensures o.saved != saved ==> ParseAction(req.action) in {DoAdapt, DoRestore}
    ensures ParseAction(req.action) == DoUnknown ==> o == Outcome(HttpError(500), [], click, saved)
  {
    var p := Absolute(w, req.x, req.y);
    match ParseAction(req.action)
    case DoClick =>
      Outcome(Done("clicked", w.title, [p.0, p.1]), [Click(p.0, p.1, LeftButton)], Some(ClickPos(p.0, p.1, w.title)), saved)
    case DoType => HttpType(req, p, w, click, saved)
    case DoKey =>
      Outcome(Done("key_pressed", req.key, []), KeyOps(req.key), click, saved)
    case DoHotkey =>
      Outcome(Done("hotkey_pressed", req.key, []), HotkeyOps(req.key), click, saved)
    case DoScroll => HttpScroll(HttpScrollAmount("scroll", req.text), p, click, saved)
    case DoScrollUp =>
      Outcome(Done("scrolled_up", "", [p.0, p.1]), [MoveTo(p.0, p.1), Scroll(3)], click, saved)
    case DoScrollDown =>
      Outcome(Done("scrolled_down", "", [p.0, p.1]), [MoveTo(p.0, p.1), Scroll(-3)], click, saved)
    case DoOpenApp =>
      Outcome(Done("opening_app", req.text, []), OpenAppOps(req.text), click, saved)
    case DoDrag => HttpDrag(ParseDrag(req.text), p, click, saved)
    case DoRightClick =>
      Outcome(Done("right_clicked", "", [p.0, p.1]), [Click(p.0, p.1, RightButton)], click, saved)
    case DoDoubleClick =>
      Outcome(Done("double_clicked", "", [p.0, p.1]), [DoubleClick(p.0, p.1)], click, saved)
    case DoMiddleClick =>
      Outcome(Done("middle_clicked", "", [p.0, p.1]), [Click(p.0, p.1, MiddleButton)], click, saved)
    case DoKeyDown =>
      Outcome(Done("key_down", req.key, []), [KeyDown(req.key)], click, saved)
    case DoKeyUp =>
      Outcome(Done("key_up", req.key, []), [KeyUp(req.key)], click, saved)
    case DoResize => HttpResize(locked, target, ParseSize(req.text), click, saved)
    case DoAdapt => HttpAdapt(target, env, click, saved)
    case DoRestore => HttpRestore(target, click, saved)
    case DoClose => HttpClose(target, env.active, click, saved)
    case DoMouseDown =>
      Outcome(Done("mousedown", "", [p.0, p.1]), [MouseDown(p.0, p.1)], click, saved)
    case DoMouseUp =>
      Outcome(Done("mouseup", "", [p.0, p.1]), [MouseUp(p.0, p.1)], click, saved)
    case DoMouseMove =>
      Outcome(Done("moved", "", [p.0, p.1]), [MoveTo(p.0, p.1)], click, saved)
    case DoUnknown =>
      Outcome(OuterHandlerAsWritten(RaisedHttp(400)), [], click, saved)
  }

  /** `type`: focus, then paste the sanitised text; a click at given coordinates is remembered. */
  function HttpType(req: Request, p: (int, int), w: Window, click: Option<ClickPos>, saved: Option<SavedWindow>): (o: Outcome)
    ensures o.saved == saved
    ensures o.click == (if req.x != 0 || req.y != 0 then Some(ClickPos(p.0, p.1, w.title)) else click)
  {
    var safe := SafeText(req.text);
    Outcome(if safe == "" then Done("empty", "", []) else Done("typed", safe, []),
            TypeFocus(p, req.x, req.y, w, click, true) + PasteOps(req.text),
            if req.x != 0 || req.y != 0 then Some(ClickPos(p.0, p.1, w.title)) else click,
            saved)
  }

  /** `scroll`: move to the point and scroll by the amount; a text that is no integer fails with 500. */
  function HttpScroll(amount: Option<int>, p: (int, int), click: Option<ClickPos>, saved: Option<SavedWindow>): (o: Outcome)
    ensures o.click == click && o.saved == saved
  {
    if amount.Some? then
      Outcome(Done("scrolled", "", [amount.value, p.0, p.1]), [MoveTo(p.0, p.1), Scroll(amount.value)], click, saved)
    else Outcome(OuterHandlerAsWritten(RaisedOther), [MoveTo(p.0, p.1)], click, saved)
  }

  /** `resize_window`: only under a lock, only on a found window, only with a readable size. */
  function HttpResize(locked: string, target: Option<Window>, size: Option<(int, int)>,
                      click: Option<ClickPos>, saved: Option<SavedWindow>): (o: Outcome)
    ensures o.click == click && o.saved == saved
  {
    if locked == "" then Outcome(Failure("lock a window first"), [], click, saved)
    else if target.None? then Outcome(Failure("locked window not found"), [], click, saved)
    else if size.None? then Outcome(Failure("bad size"), [], click, saved)
    else Outcome(Done("resized", "", [size.value.0, size.value.1]), [ResizeWindow(size.value.0, size.value.1)], click, saved)
  }

  /** `adapt_phone`: save the target's geometry (overwriting any earlier save), then move it into the phone layout. */
  function HttpAdapt(target: Option<Window>, env: InteractEnv, click: Option<ClickPos>, saved: Option<SavedWindow>): (o: Outcome)
    ensures o.click == click
  {
    if target.None? then Outcome(Failure("no window to adapt"), [], click, saved)
    else
      var t := target.value;
      var pl := AdaptPlacement(env);
      Outcome(Done("adapted", "", [pl.width, pl.height]), [MoveWindow(pl.x, pl.y), ResizeWindow(pl.width, pl.height)],
              click, Some(SavedWindow(t.left, t.top, t.width, t.height)))
  }

  /** `restore_window`: put the saved geometry back and forget it. */
  function HttpRestore(target: Option<Window>, click: Option<ClickPos>, saved: Option<SavedWindow>): (o: Outcome)
    ensures o.click == click
  {
    if saved.None? then Outcome(Failure("no saved window state"), [], click, saved)
    else if target.None? then Outcome(Failure("no window to restore"), [], click, saved)
    else
      var g := saved.value;
      Outcome(Done("restored", "", [g.width, g.height]), [MoveWindow(g.left, g.top), ResizeWindow(g.width, g.height)], click, None)
  }

  /** `close_window`: activate the target, then Alt+F4 unless another window is active. */
  function HttpClose(target: Option<Window>, active: Option<string>, click: Option<ClickPos>, saved: Option<SavedWindow>): (o: Outcome)
    ensures o.click == click && o.saved == saved
  {
    if target.None? then Outcome(Failure("no window to close"), [], click, saved)
    else
      var t := target.value;
      Outcome(if CloseAllowed(t.title, active) then Done("success", t.title, []) else Failure("active window differs"),
              CloseOps(t.title, active), click, saved)
  }

  /** The drag branch, on the parsed text: drag by the delta, refuse the wrong shape, fail with 500 on a non-integer. */
  function HttpDrag(d: DragParse, p: (int, int), click: Option<ClickPos>, saved: Option<SavedWindow>): (o: Outcome)
    ensures o.click == click && o.saved == saved
  {
    match d
    case DragBy(dx, dy) => Outcome(Done("dragged", "", [p.0, p.1, dx, dy]), [MoveTo(p.0, p.1), Drag(dx, dy)], click, saved)
    case WrongParts => Outcome(Failure("drag requires text='dx,dy'"), [], click, saved)
    case NotAnInteger => Outcome(OuterHandlerAsWritten(RaisedOther), [], click, saved)
  }

  /** A click goes to the window-relative point and is remembered with the window's title. */
  lemma ClickIsRemembered(req: Request, w: Window, target: Option<Window>, locked: string,
                          click: Option<ClickPos>, saved: Option<SavedWindow>, env: InteractEnv)
    requires ParseAction(req.action) == DoClick
    ensures var o := HttpAction(req, w, target, locked, click, saved, env);
      && o.ops == [Click(w.left + req.x, w.top + req.y, LeftButton)]
      && o.click == Some(ClickPos(w.left + req.x, w.top + req.y, w.title))
  {
  }

  /**
   * `type` pastes exactly the sanitised text, after at most one focus step,
   * and answers "empty" (pasting nothing) when nothing is left.
   */
  lemma TypePastesSafeText(req: Request, w: Window, target: Option<Window>, locked: string,
                           click: Option<ClickPos>, saved: Option<SavedWindow>, env: InteractEnv)
    requires ParseAction(req.action) == DoType
    ensures var o := HttpAction(req, w, target, locked, click, saved, env);
      && (SafeText(req.text) == "" <==> o.reply == Done("empty", "", []))
      && (forall op :: op in o.ops && op.Paste? ==> op.text == SafeText(req.text))
      && (SafeText(req.text) != "" ==> o.ops[|o.ops| - 1] == Paste(SafeText(req.text)))
      && |o.ops| <= 2
  {
  }

  /** The drag action is the drag branch applied to the parsed text. */
  lemma DragDispatch(req: Request, w: Window, target: Option<Window>, locked: string,
                     click: Option<ClickPos>, saved: Option<SavedWindow>, env: InteractEnv)
    requires ParseAction(req.action) == DoDrag
    ensures HttpAction(req, w, target, locked, click, saved, env) == HttpDrag(ParseDrag(req.text), Absolute(w, req.x, req.y), click, saved)
  {
  }

  /** The delta a client writes as "dx,dy" is the delta dragged, starting from the point of the request. */
  lemma DragFollowsText(dx: int, dy: int, p: (int, int), click: Option<ClickPos>, saved: Option<SavedWindow>)
    ensures HttpDrag(ParseDrag(SignedDecimal(dx) + "," + SignedDecimal(dy)), p, click, saved).ops ==
      [MoveTo(p.0, p.1), Drag(dx, dy)]
  {
    ParseDragRoundTrip(dx, dy);
  }

  lemma DragRefusesOtherShapes(req: Request, w: Window, target: Option<Window>, locked: string,
                               click: Option<ClickPos>, saved: Option<SavedWindow>, env: InteractEnv)
    requires ParseAction(req.action) == DoDrag && Count(req.text, ',') != 1
    ensures HttpAction(req, w, target, locked, click, saved, env).reply.Failure?
    ensures HttpAction(req, w, target, locked, click, saved, env).ops == []
  {
  }

  /** Alt+F4 is sent only to a found target, and only when no other window is known to be active. */
  lemma CloseIsGuarded(req: Request, w: Window, target: Option<Window>, locked: string,
                       click: Option<ClickPos>, saved: Option<SavedWindow>, env: InteractEnv)
    requires ParseAction(req.action) == DoClose
    ensures Hotkey(["alt", "f4"]) in HttpAction(req, w, target, locked, click, saved, env).ops <==>
      target.Some? && CloseAllowed(target.value.title, env.active)
  {
  }

  /**
   * `adapt_phone` followed by `restore_window` on the same target puts the
   * window back where it was, and leaves no saved geometry behind.
   */
  lemma AdaptThenRestore(w: Window, t: Window, locked: string, click: Option<ClickPos>,
                         saved: Option<SavedWindow>, env: InteractEnv, adapt: Request, restore: Request)
    requires ParseAction(adapt.action) == DoAdapt && ParseAction(restore.action) == DoRestore
    ensures var a := HttpAction(adapt, w, Some(t), locked, click, saved, env);
      var r := HttpAction(restore, w, Some(t), locked, a.click, a.saved, env);
      && a.saved == Some(SavedWindow(t.left, t.top, t.width, t.height))
      && r.ops == [MoveWindow(t.left, t.top), ResizeWindow(t.width, t.height)]
      && r.saved == None
  {
  }

  /** The placement `adapt_phone` computes lies in the work area whenever that area is landscape. */
  lemma AdaptStaysInLandscapeArea(env: InteractEnv)
    requires env.work.Some? && env.work.value.Width() > env.work.value.Height() >= 0
    ensures var a := PyWorkArea(env.work, env.screenW, env.screenH);
      var p := AdaptPlacement(env);
      && a.left <= p.x && p.x + p.width == a.left + a.width
      && p.y == a.top && p.height == a.height
  {
  }

  /**
   * An unknown action is answered with status 500: the 400 raised for it is
   * caught by the handler's outer `except Exception` (the intended 400 is
   * `Interaction.OuterHandler`'s, see `Interaction.UnknownActionStatus`).
   */
  lemma UnknownActionIs500(req: Request, w: Window, target: Option<Window>, locked: string,
                           click: Option<ClickPos>, saved: Option<SavedWindow>, env: InteractEnv)
    requires ParseAction(req.action) == DoUnknown
    ensures HttpAction(req, w, target, locked, click, saved, env) == Outcome(HttpError(500), [], click, saved)
    ensures HttpAction(req, w, target, locked, click, saved, env).reply != OuterHandler(RaisedHttp(400))
  {
  }

  // ---------------------------------------------------------------- WebSocket commands

  /** A WebSocket command; absent JSON keys are None (type, action) or their defaults. */
  datatype Command = Command(kind: Option<string>, action: Option<string>, x: int, y: int, text: string, key: string)

  /** `cmd.get('type', cmd.get('action', ''))`. */
  function CommandType(c: Command): (t: string)
    ensures c.kind.Some? ==> t == c.kind.value
    ensures c.kind.None? && c.action.Some? ==> t == c.action.value
    ensures c.kind.None? && c.action.None? ==> t == ""
  {
    if c.kind.Some? then c.kind.value else if c.action.Some? then c.action.value else ""
  }

  /** `cmd.get('action', cmd_type)`. */
  function CommandAction(c: Command): (a: string)
    ensures c.action.Some? ==> a == c.action.value
    ensures c.action.None? ==> a == CommandType(c)
  {
    if c.action.Some? then c.action.value else CommandType(c)
  }

  /** The WebSocket scroll amount: the text when present, whatever the direction; else 3, -3 or 3. */
  function WsScrollAmount(action: string, text: string): (r: Option<int>)
    ensures text != "" ==> r == PyInt(text)
    ensures text == "" ==> r == Some(if action == "scroll_down" then -3 else 3)
  {
    if text != "" then PyInt(text) else Some(if action == "scroll_down" then -3 else 3)
  }

  /** The two scroll readings differ: over HTTP `scroll_up` ignores its text, over the WebSocket it obeys it. */
  lemma ScrollReadingsDiffer()
    ensures HttpScrollAmount("scroll_up", "7") == Some(3)
    ensures WsScrollAmount("scroll_up", "7") == Some(7)
  {
    PyIntRoundTrip(7);
    assert SignedDecimal(7) == "7";
  }

  /** The title a WebSocket input aims at: the lock, else the current display, else the last valid window. */
  function WsTargetTitle(s: LockState, d: Display): (t: string)
    ensures s.title != "" ==> t == s.title
    ensures s.title == "" && d.current != "" ==> t == d.current
    ensures s.title == "" && d.current == "" ==> t == d.last
  {
    if s.title != "" then s.title else if d.current != "" then d.current else d.last
  }

  /** One WebSocket input action on window `w`; the last click changes only on `click`. */
  function WsAction(a: string, c: Command, w: Window, click: Option<ClickPos>): (o: Outcome)
    ensures o.saved == None
    ensures o.click != click ==> ParseAction(a) == DoClick
  {
    var p := Absolute(w, c.x, c.y);
    match ParseAction(a)
    case DoClick =>
      Outcome(Done("clicked", "", [p.0, p.1]), [Click(p.0, p.1, LeftButton)], Some(ClickPos(p.0, p.1, w.title)), None)
    case DoDoubleClick =>
      Outcome(Done("double_clicked", "", []), [DoubleClick(p.0, p.1)], click, None)
    case DoRightClick =>
      Outcome(Done("right_clicked", "", []), [Click(p.0, p.1, RightButton)], click, None)
    case DoType =>
      Outcome(Done("typed", SafeText(c.text), []), TypeFocus(p, c.x, c.y, w, click, false) + PasteOps(c.text), click, None)
    case DoKey =>
      Outcome(Done("key_pressed", c.key, []), KeyOps(c.key), click, None)
    case DoHotkey =>
      Outcome(Done("hotkey_pressed", c.key, []), HotkeyOps(c.key), click, None)
    case DoScroll => WsScroll(a, c, p, click)
    case DoScrollUp => WsScroll(a, c, p, click)
    case DoScrollDown => WsScroll(a, c, p, click)
    case DoMouseDown =>
      Outcome(Done("mousedown", "", []), [MouseDown(p.0, p.1)], click, None)
    case DoMouseUp =>
      Outcome(Done("mouseup", "", []), [MouseUp(p.0, p.1)], click, None)
    case DoMouseMove =>
      Outcome(Done("mousemove", "", []), [MoveTo(p.0, p.1)], click, None)
    case DoOpenApp =>
      Outcome(Done("opening_app", c.text, []), OpenAppOps(c.text), click, None)
    case _ =>
      Outcome(Failure("Unknown action: " + a), [], click, None)
  }

  function WsScroll(a: string, c: Command, p: (int, int), click: Option<ClickPos>): Outcome {
    var amount := WsScrollAmount(a, c.text);
    if amount.Some? then Outcome(Done("scrolled", "", [amount.value]), [MoveTo(p.0, p.1), Scroll(amount.value)], click, None)
    else Outcome(Failure("invalid literal for int()"), [MoveTo(p.0, p.1)], click, None)
  }

  /**
   * `process_command`: `lock_current` and `unlock` change the lock; every
   * other command is an input on the target window, activated first.
   * Returns the new session, the reply and the input sent.
   */
  function ProcessCommandSpec(ss: Session, c: Command, desk: Snapshot): (r: (Session, Reply, seq<InputOp>))
    ensures r.0.display == ss.display
    ensures CommandType(c) !in {"lock_current", "unlock"} ==> r.0.lock == ss.lock
    ensures r.2 != [] ==> r.2[0].Activate?
    // lock_current locks the candidate as a hard lock, or fails and keeps the lock
    ensures CommandType(c) == "lock_current" ==>
      && r.2 == [] && r.0.click == ss.click
      && (LockCandidate(ss.display) != "" ==> r.0.lock == LockState(LockCandidate(ss.display), true, false))
      && (LockCandidate(ss.display) == "" ==> r.0.lock == ss.lock && r.1.Failure?)
    // unlock drops the lock and its flag but, as written, keeps a pending activation
    ensures CommandType(c) == "unlock" ==>
      && r.2 == [] && r.0.click == ss.click && r.1 == Done("unlocked", "", [])
      && r.0.lock.title == "" && !r.0.lock.manual && r.0.lock.pending == ss.lock.pending
    // an input command without a window to act on sends nothing and changes nothing
    ensures CommandType(c) !in {"lock_current", "unlock"} && InputWindow(WsTargetTitle(ss.lock, ss.display), ss.lock.title, desk).None? ==>
      r == (ss, Failure("target window not found"), [])
  {
    var t := CommandType(c);
    if t == "lock_current" then
      var (l, reply) := LockCurrentWs(ss.lock, ss.display);
      (ss.(lock := l), reply, [])
    else if t == "unlock" then
      (ss.(lock := UnlockAsWritten(ss.lock)), Done("unlocked", "", []), [])
    else
      match InputWindow(WsTargetTitle(ss.lock, ss.display), ss.lock.title, desk)
      case None => (ss, Failure("target window not found"), [])
      case Some(w) =>
        var o := WsAction(CommandAction(c), c, w, ss.click);
        (ss.(click := o.click), o.reply, [Activate(w.title)] + o.ops)
  }

  /** `process_command` over a queue, in order. */
  function DrainSpec(ss: Session, cmds: seq<Command>, desk: Snapshot): (r: (Session, seq<Reply>))
    ensures |r.1| == |cmds|
    ensures r.0.display == ss.display
    decreases |cmds|
  {
    if |cmds| == 0 then (ss, [])
    else
      var first := ProcessCommandSpec(ss, cmds[0], desk);
      var rest := DrainSpec(first.0, cmds[1..], desk);
      (rest.0, [first.1] + rest.1)
  }

  lemma {:induction false} DrainSpecAppend(ss: Session, cmds: seq<Command>, c: Command, desk: Snapshot)
    ensures var before := DrainSpec(ss, cmds, desk);
      var last := ProcessCommandSpec(before.0, c, desk);
      DrainSpec(ss, cmds + [c], desk) == (last.0, before.1 + [last.1])
    decreases |cmds|
  {
    if |cmds| == 0 {
      assert cmds + [c] == [c];
      assert [c][1..] == [];
      var last := ProcessCommandSpec(ss, c, desk);
      assert DrainSpec(last.0, [], desk) == (last.0, []);
      assert DrainSpec(ss, [c], desk) == (last.0, [last.1] + []);
      assert DrainSpec(ss, cmds, desk) == (ss, []);
      assert [] + [last.1] == [last.1] + [];
    } else {
      assert (cmds + [c])[0] == cmds[0];
      assert (cmds + [c])[1..] == cmds[1..] + [c];
      var first := ProcessCommandSpec(ss, cmds[0], desk);
      DrainSpecAppend(first.0, cmds[1..], c, desk);
      var tail := DrainSpec(first.0, cmds[1..], desk);
      assert DrainSpec(ss, cmds, desk) == (tail.0, [first.1] + tail.1);
      var last := ProcessCommandSpec(tail.0, c, desk);
      assert DrainSpec(first.0, cmds[1..] + [c], desk) == (last.0, tail.1 + [last.1]);
      assert DrainSpec(ss, cmds + [c], desk) == (last.0, [first.1] + (tail.1 + [last.1]));
      assert [first.1] + (tail.1 + [last.1]) == ([first.1] + tail.1) + [last.1];
    }
  }

  /** One more command drained: the session and the replies so far, extended by that command's outcome. */
  lemma DrainStep(ss: Session, cmds: seq<Command>, c: Command, desk: Snapshot, before: Session, after: Session, reply: Reply)
    returns (next: (Session, seq<Reply>))
    requires before == DrainSpec(ss, cmds, desk).0
    requires (after, reply) == (ProcessCommandSpec(before, c, desk).0, ProcessCommandSpec(before, c, desk).1)
    ensures next == DrainSpec(ss, cmds + [c], desk)
    ensures next.0 == after && next.1 == DrainSpec(ss, cmds, desk).1 + [reply]
    ensures Answers(next.1) == Answers(DrainSpec(ss, cmds, desk).1) + [Answer(reply)]
  {
    DrainSpecAppend(ss, cmds, c, desk);
    next := DrainSpec(ss, cmds + [c], desk);
    AnswersAppend(DrainSpec(ss, cmds, desk).1, reply);
  }

  /** A queued command never touches the display record, whatever it is; draining keeps the tracker consistent. */
  lemma {:induction false} DrainKeepsConsistent(ss: Session, cmds: seq<Command>, desk: Snapshot)
    requires Consistent(ss.lock, ss.display)
    ensures Consistent(DrainSpec(ss, cmds, desk).0.lock, DrainSpec(ss, cmds, desk).0.display)
    decreases |cmds|
  {
    if |cmds| > 0 {
      var first := ProcessCommandSpec(ss, cmds[0], desk);
      TransitionsKeepConsistent(ss.lock, ss.display, "", "", false, "");
      DrainKeepsConsistent(first.0, cmds[1..], desk);
    }
  }

  /** The wait after a cycle: what is left of the fixed 33 ms interval, never negative. */
  function WaitMs(elapsed: int): (w: int)
    ensures w >= 0
    ensures elapsed < StreamIntervalMs ==> elapsed + w == StreamIntervalMs
    ensures elapsed >= StreamIntervalMs ==> w == 0
  {
    Max(0, StreamIntervalMs - elapsed)
  }

  // ---------------------------------------------------------------- background keys

  /** The virtual-key table of `background_key`. */
  const VkCodes: map<string, int> := map[
    "enter" := 0x0D, "return" := 0x0D, "backspace" := 0x08, "back" := 0x08, "tab" := 0x09,
    "escape" := 0x1B, "esc" := 0x1B, "space" := 0x20,
    "left" := 0x25, "up" := 0x26, "right" := 0x27, "down" := 0x28,
    "delete" := 0x2E, "del" := 0x2E, "home" := 0x24, "end" := 0x23, "pageup" := 0x21, "pagedown" := 0x22,
    "f1" := 0x70, "f2" := 0x71, "f3" := 0x72, "f4" := 0x73, "f5" := 0x74, "f6" := 0x75,
    "f7" := 0x76, "f8" := 0x77, "f9" := 0x78, "f10" := 0x79, "f11" := 0x7A, "f12" := 0x7B,
    "ctrl" := 0x11, "alt" := 0x12, "shift" := 0x10, "win" := 0x5B, "windows" := 0x5B]

  const WmKeyDown: int := 0x0100
  const WmKeyUp: int := 0x0101
  const WmChar: int := 0x0102

  /** A window message posted to the target: the message and its key or character code. */
  datatype Posted = Posted(msg: int, code: int)

  /**
   * `background_key`: a named key (case-insensitive) posts key-down and/or
   * key-up for its code; any other key posts one character message per
   * character.  Without the Win32 bindings nothing is posted.
   */
  method BackgroundKey(win32: bool, key: string, action: string) returns (ok: bool, posted: seq<Posted>)
    ensures ok == win32
    ensures !win32 ==> posted == []
    ensures win32 && AsciiLower(key) in VkCodes ==>
      var vk := VkCodes[AsciiLower(key)];
      posted == (if action in {"press", "down"} then [Posted(WmKeyDown, vk)] else [])
                + (if action in {"press", "up"} then [Posted(WmKeyUp, vk)] else [])
    ensures win32 && AsciiLower(key) !in VkCodes ==>
      |posted| == |key| && forall i :: 0 <= i < |key| ==> posted[i] == Posted(WmChar, key[i] as int)
  {
    posted := [];
    if !win32 {
      return false, posted;
    }
    var lower := AsciiLower(key);
    if lower in VkCodes {
      var vk := VkCodes[lower];
      if action in {"press", "down"} {
        posted := posted + [Posted(WmKeyDown, vk)];
      }
      if action in {"press", "up"} {
        posted := posted + [Posted(WmKeyUp, vk)];
      }
    } else if |key| == 1 {
      posted := [Posted(WmChar, key[0] as int)];
    } else {
      var i := 0;
      while i < |key|
        invariant 0 <= i <= |key|
        invariant |posted| == i
        invariant forall k :: 0 <= k < i ==> posted[k] == Posted(WmChar, key[k] as int)
      {
        posted := posted + [Posted(WmChar, key[i] as int)];
        i := i + 1;
      }
    }
    return true, posted;
  }

  // ---------------------------------------------------------------- the server object

  /** What the stream learns in one cycle: the desktop, the capture oracles, the time and its own run time (ms). */
  datatype CycleInput = CycleInput(desk: Snapshot, lockedRect: Option<Rect>, world: CaptureWorld, now: int, elapsedMs: int)

  /** A message the stream sends: frame metadata, the frame, a "searching" status, or a command's reply. */
  datatype StreamMsg =
    | Meta(width: int, height: int, window: string, lockedTitle: string, manual: bool)
    | Frame(shot: Shot)
    | Searching
    | Answer(reply: Reply)

  /**
   * The caption a cycle records: the locked window's title when the lock
   * resolves, else (unlocked) the foreground caption with the sticky
   * substitution, else nothing.
   */
  function CycleCaption(s: LockState, d: Display, desk: Snapshot): (c: Option<string>)
    ensures s.title != "" ==> (c.Some? <==> TargetWindow(s.title, desk).Some?)
    ensures s.title == "" ==> (c.Some? <==> ForegroundHwndAndRect(desk).Some?)
  {
    if s.title != "" then
      var t := TargetWindow(s.title, desk);
      if t.Some? then Some(t.value.title) else None
    else if ForegroundHwndAndRect(desk).Some? then Some(StickyTitle(desk.fgTitle, "", d))
    else None
  }

  /** The `window` field of the metadata: the caption cut to 50 characters, or the placeholder. */
  function MetaCaption(t: string): (m: string)
    ensures t == "" ==> m == Placeholder
    ensures t != "" ==> |m| == Min(50, |t|) && m == t[..|m|]
  {
    if t == "" then Placeholder else t[..Min(50, |t|)]
  }

  /** The replies of a drain, as the messages that carry them. */
  function Answers(rs: seq<Reply>): (m: seq<StreamMsg>)
    ensures |m| == |rs| && forall i :: 0 <= i < |rs| ==> m[i] == Answer(rs[i])
  {
    if |rs| == 0 then [] else [Answer(rs[0])] + Answers(rs[1..])
  }

  lemma AnswersAppend(rs: seq<Reply>, r: Reply)
    ensures Answers(rs + [r]) == Answers(rs) + [Answer(r)]
  {
  }

  /**
   * The picture of one cycle under the (already released) lock `s`: the
   * locked window through the locked-mode chain, or the foreground window
   * through the auto-mode chain; nothing when neither resolves.
   */
  function CycleShot(s: LockState, input: CycleInput, engine: Engine): (c: Capture)
    ensures s.title != "" && TargetWindow(s.title, input.desk).None? ==> c == Capture(None, [], false)
    ensures s.title == "" && ForegroundHwndAndRect(input.desk).None? ==> c == Capture(None, [], false)
    ensures s.title == "" && c.shot.Some? ==> c.shot.value.rect == input.desk.fgRect.value
    ensures c.shot.Some? ==> CycleCaption(s, Display("", "", 0), input.desk).Some?
  {
    var start := StartEngineAsWritten(engine, input.world.libs);
    if s.title != "" then
      var t := TargetWindow(s.title, input.desk);
      if t.Some? then LockedChain(start, t.value.hwnd, input.lockedRect, input.world) else Capture(None, [], false)
    else
      var fg := ForegroundHwndAndRect(input.desk);
      if fg.Some? then AutoChain(start, fg.value.1, input.world) else Capture(None, [], false)
  }

  /**
   * What a cycle sends before the command replies: metadata then the frame
   * when there is a picture, "searching" when nothing is locked and there is
   * no foreground window, and nothing otherwise.
   */
  function CycleMessages(shot: Option<Shot>, caption: Option<string>, lock: LockState, desk: Snapshot): (m: seq<StreamMsg>)
    ensures shot.Some? ==> m == [Meta(shot.value.rect.Width(), shot.value.rect.Height(),
                                      MetaCaption(RecordedCaptionAsWritten(caption)), lock.title, lock.manual),
                                 Frame(shot.value)]
    ensures shot.None? ==> (m == [Searching] <==> lock.title == "" && ForegroundHwndAndRect(desk).None?)
    ensures shot.None? ==> m == [] || m == [Searching]
  {
    if shot.Some? then
      [Meta(shot.value.rect.Width(), shot.value.rect.Height(), MetaCaption(RecordedCaptionAsWritten(caption)), lock.title, lock.manual),
       Frame(shot.value)]
    else if lock.title == "" && ForegroundHwndAndRect(desk).None? then [Searching]
    else []
  }

  /** The outcome of the first half of a stream pass. */
  datatype Pass = Pass(session: Session, activation: seq<InputOp>, shown: seq<StreamMsg>, newCamera: bool)

  /**
   * The first half of a stream pass from session `ss` with capture engine
   * setting `engine`: release a soft lock the user left, activate the
   * locked window once when asked, capture, record what was shown (the
   * placeholder when no window was found), and choose the messages.
   */
  function ShowStep(ss: Session, input: CycleInput, engine: Engine): (p: Pass)
    ensures p.session.click == ss.click
    ensures p.session.lock.title == AutoRelease(ss.lock, input.desk.win32, input.desk.fgTitle).title
    ensures p.session.lock.manual == ss.lock.manual
    ensures p.session.lock.pending ==> ss.lock.pending && p.activation == []
    ensures p.activation != [] ==> ss.lock.pending && !p.session.lock.pending && |p.activation| == 1
    ensures Consistent(ss.lock, ss.display) ==> Consistent(p.session.lock, p.session.display)
    ensures p.session.lock.title != "" ==> p.session.display == ss.display
    // a frame goes out exactly when the capture chain produced a picture, preceded by its metadata
    ensures |p.shown| == 2 <==> CycleShot(p.session.lock, input, engine).shot.Some?
    ensures |p.shown| == 2 ==>
      && p.shown[1] == Frame(CycleShot(p.session.lock, input, engine).shot.value)
      && p.shown[0].Meta? && p.shown[0].lockedTitle == p.session.lock.title && p.shown[0].manual == p.session.lock.manual
    ensures p.shown == [] || p.shown == [Searching] || |p.shown| == 2
    ensures p.shown == [Searching] <==> p.session.lock.title == "" && ForegroundHwndAndRect(input.desk).None?
    ensures p.newCamera == CycleShot(p.session.lock, input, engine).newCamera
  {
    var released := AutoRelease(ss.lock, input.desk.win32, input.desk.fgTitle);
    var target := if released.title != "" then TargetWindow(released.title, input.desk) else None;
    var lock := if target.Some? then released.(pending := false) else released;
    var activation := if target.Some? && released.pending then [Activate(target.value.title)] else [];
    var caption := CycleCaption(released, ss.display, input.desk);
    var c := CycleShot(released, input, engine);
    var display := Recorded(ss.display, RecordedCaptionAsWritten(caption), released.title, input.now);
    Pass(Session(lock, display, ss.click), activation, CycleMessages(c.shot, caption, lock, input.desk), c.newCamera)
  }

  /** With no lock, a working mss grab under the default setting streams the foreground window's rectangle. */
  lemma UnlockedStreamsForeground(ss: Session, input: CycleInput)
    requires ss.lock.title == "" && ForegroundHwndAndRect(input.desk).Some?
    requires input.world.libs.mss && input.world.mssOk
    ensures var p := ShowStep(ss, input, Mss);
      p.shown[1] == Frame(Shot(MssGrab, input.desk.fgRect.value))
      && p.shown[0].width == input.desk.fgRect.value.Width() && p.shown[0].height == input.desk.fgRect.value.Height()
  {
    var p := ShowStep(ss, input, Mss);
    var r := input.desk.fgRect.value;
    assert SimpleChain(Mss, Some(r), input.world).shot == Some(Shot(MssGrab, r));
  }

  /** A locked window that graphics capture can see is streamed from graphics capture, whatever is in front of it. */
  lemma LockedStreamsGraphicsCapture(ss: Session, input: CycleInput, engine: Engine)
    requires AutoRelease(ss.lock, input.desk.win32, input.desk.fgTitle).title != ""
    requires TargetWindow(AutoRelease(ss.lock, input.desk.win32, input.desk.fgTitle).title, input.desk).Some?
    requires input.world.libs.wgc && input.world.graphics.Some?
    ensures ShowStep(ss, input, engine).shown[1] == Frame(Shot(GraphicsCapture, input.world.graphics.value))
    ensures !ShowStep(ss, input, engine).newCamera
  {
  }

  /**
   * As written, a cycle without a foreground window records the
   * placeholder: the next `lock_current` locks a title no window has.
   */
  lemma NoWindowRecordsPlaceholder(input: CycleInput)
    requires ForegroundHwndAndRect(input.desk).None?
    ensures var ss := Session(LockState("", false, false), Display("Notepad", "", 0), None);
      var p := ShowStep(ss, input, Mss);
      && p.shown == [Searching]
      && p.session.display == Display(Placeholder, "Notepad", input.now)
      && LockCurrentWs(p.session.lock, p.session.display).0.title == Placeholder
  {
    assert !Contains(Placeholder, OwnTitle) by { LongerNotContained(Placeholder, OwnTitle); }
    assert !Contains("Notepad", OwnTitle) by { LongerNotContained("Notepad", OwnTitle); }
  }

  /** The server's module state, rewritten in place by the handlers and the stream. */
  class LegacyServer {
    var lockedTitle: string
    var manualLock: bool
    var pendingActivation: bool
    var currentDisplay: string
    var lastValid: string
    var windowChangeTime: int
    var lastClick: Option<ClickPos>
    var originalState: Option<SavedWindow>
    var fps: int
    const capturer: Capturer

    function Lock(): LockState reads this {
      LockState(lockedTitle, manualLock, pendingActivation)
    }

    function Shown(): Display reads this {
      Display(currentDisplay, lastValid, windowChangeTime)
    }

    function State(): Session reads this {
      Session(Lock(), Shown(), lastClick)
    }

    ghost predicate Valid() reads this {
      Consistent(Lock(), Shown()) && 1 <= fps <= 60
    }

    constructor()
      ensures Lock() == LockState("", false, false) && Shown() == Display("", "", 0)
      ensures lastClick == None && originalState == None && fps == 5
      ensures fresh(capturer) && Valid()
    {
      lockedTitle, manualLock, pendingActivation := "", false, false;
      currentDisplay, lastValid, windowChangeTime := "", "", 0;
      lastClick, originalState := None, None;
      fps := 5;
      capturer := new Capturer();
      assert !Contains("", OwnTitle) by { LongerNotContained("", OwnTitle); }
    }

    /** `POST /lock`. */
    method LockWindow(title: string) returns (reply: Reply)
      requires Valid()
      modifies this`lockedTitle, this`manualLock, this`pendingActivation
      ensures Valid()
      ensures (Lock(), reply) == LockTo(old(Lock()), title)
    {
      if title == "" {
        lockedTitle := "";
        manualLock := false;
        pendingActivation := false;
        reply := Done("unlocked", "", []);
      } else {
        lockedTitle := title;
        manualLock := true;
        pendingActivation := true;
        reply := Done("locked", title, []);
      }
    }

    /** `POST /lock_current`. */
    method LockCurrentWindow() returns (reply: Reply)
      requires Valid()
      modifies this`lockedTitle, this`manualLock, this`pendingActivation
      ensures Valid()
      ensures (Lock(), reply) == LockCurrentHttp(old(Lock()), Shown())
    {
      if lockedTitle != "" {
        return Done("already_locked", lockedTitle, []);
      }
      var title := currentDisplay;
      if title == "" || Contains(title, OwnTitle) {
        title := lastValid;
      }
      if title != "" && !Contains(title, OwnTitle) {
        lockedTitle := title;
        manualLock := true;
        pendingActivation := false;
        return Done("locked", title, []);
      }
      return Failure("no window to lock");
    }

    /** `POST /set_fps`: the rate is clamped to 1..60. */
    method SetFps(requested: int) returns (reported: int)
      requires Valid()
      modifies this`fps
      ensures Valid()
      ensures fps == reported == Clamp(1, 60, requested)
    {
      fps := Max(1, Min(60, requested));
      reported := fps;
    }

    /** The soft-lock auto-release at the start of a cycle. */
    method ReleaseSoftLock(win32: bool, fg: string)
      requires Valid()
      modifies this`lockedTitle
      ensures Valid()
      ensures Lock() == AutoRelease(old(Lock()), win32, fg)
    {
      if lockedTitle != "" && !manualLock {
        if win32 && fg != "" && !Contains(fg, OwnTitle) && fg != lockedTitle {
          lockedTitle := "";
        }
      }
    }

    /** The bookkeeping at the end of a cycle. */
    method RecordDisplay(title: string, now: int)
      requires Valid()
      modifies this`currentDisplay, this`lastValid, this`windowChangeTime
      ensures Valid()
      ensures Shown() == Recorded(old(Shown()), title, lockedTitle, now)
    {
      if title != "" && lockedTitle == "" {
        if !Contains(title, OwnTitle) {
          if currentDisplay != "" && currentDisplay != title {
            if !Contains(currentDisplay, OwnTitle) {
              lastValid := currentDisplay;
              windowChangeTime := now;
            }
          }
          currentDisplay := title;
        }
      }
    }

    /** The title an interaction aims at, from the request and the display record. */
    method ChooseTarget(requested: string, now: int) returns (target: string)
      ensures target == InteractTarget(requested, Shown(), now)
    {
      target := requested;
      if !(target != "" && target != NotFoundCaption && target != "-") {
        target := currentDisplay;
      }
      if target == "" && lastValid != "" && windowChangeTime != 0 && now - windowChangeTime < RecentChangeMs {
        target := lastValid;
      }
    }

    /** The implicit soft lock an interaction places. */
    method PlaceSoftLock(target: string)
      requires Valid()
      modifies this`lockedTitle, this`manualLock, this`currentDisplay, this`lastValid
      ensures Valid()
      ensures (Lock(), Shown()) == SoftLock(old(Lock()), old(Shown()), target)
    {
      if target != "" && lockedTitle == "" && !Contains(target, OwnTitle) {
        lockedTitle := target;
        manualLock := false;
        currentDisplay := target;
        lastValid := target;
      }
    }

    /** The window an input goes to: the title search first, the tracker's target second. */
    method FindInputWindow(title: string, desk: Snapshot) returns (win: Option<Window>)
      ensures win == InputWindow(title, lockedTitle, desk)
    {
      win := None;
      if title != "" {
        var windows := desk.withTitle(title);
        if |windows| > 0 {
          win := Some(windows[0]);
        }
      }
      if win.None? {
        win := GetTargetWindow(lockedTitle, desk);
      }
    }

    /**
     * `POST /interact`: choose the target title, soft-lock it, find the
     * window (404 when there is none), activate it, then act.
     */
    method Interact(req: Request, env: InteractEnv) returns (reply: Reply, ops: seq<InputOp>)
      requires Valid()
      modifies this`lockedTitle, this`manualLock, this`currentDisplay, this`lastValid, this`lastClick, this`originalState
      ensures Valid()
      ensures (Lock(), Shown()) == SoftLock(old(Lock()), old(Shown()), InteractTarget(req.windowTitle, old(Shown()), env.now))
      ensures var win := InputWindow(InteractTarget(req.windowTitle, old(Shown()), env.now), lockedTitle, env.desk);
        && (win.None? ==> reply == HttpError(404) && ops == [] && lastClick == old(lastClick) && originalState == old(originalState))
        && (win.Some? ==>
              var o := HttpAction(req, win.value, TargetWindow(lockedTitle, env.desk), lockedTitle, old(lastClick), old(originalState), env);
              reply == o.reply && ops == [Activate(win.value.title)] + o.ops
              && lastClick == o.click && originalState == o.saved)
    {
      var target := ChooseTarget(req.windowTitle, env.now);
      PlaceSoftLock(target);
      var win := FindInputWindow(target, env.desk);
      if win.None? {
        return HttpError(404), [];
      }
      var w := win.value;
      var forActions := GetTargetWindow(lockedTitle, env.desk);
      var o := HttpAction(req, w, forActions, lockedTitle, lastClick, originalState, env);
      lastClick := o.click;
      originalState := o.saved;
      return o.reply, [Activate(w.title)] + o.ops;
    }

    /**
     * The capture half of a stream cycle: under a lock, find the locked
     * window, activate it once if an activation is pending, and capture it
     * through the locked-mode chain; without one, capture the foreground
     * window through the auto-mode chain.
     */
    method CaptureTarget(input: CycleInput) returns (shot: Option<Shot>, caption: Option<string>, activation: seq<InputOp>)
      requires Valid()
      modifies this`pendingActivation, capturer`camera
      ensures Valid()
      ensures caption == CycleCaption(old(Lock()), Shown(), input.desk)
      ensures var target := if lockedTitle != "" then TargetWindow(lockedTitle, input.desk) else None;
        && Lock() == (if target.Some? then old(Lock()).(pending := false) else old(Lock()))
        && activation == (if target.Some? && old(pendingActivation) then [Activate(target.value.title)] else [])
      ensures capturer.engine == old(capturer.engine)
      ensures var c := CycleShot(old(Lock()), input, capturer.engine);
        shot == c.shot && capturer.camera == (old(capturer.camera) || c.newCamera)
    {
      shot, caption, activation := None, None, [];
      if lockedTitle != "" {
        var win := GetTargetWindow(lockedTitle, input.desk);
        if win.Some? {
          caption := Some(win.value.title);
          if pendingActivation {
            activation := [Activate(win.value.title)];
            pendingActivation := false;
          }
          shot := capturer.LockedCapture(win.value.hwnd, input.lockedRect, input.world);
        }
      } else {
        var fg := ForegroundHwndAndRect(input.desk);
        if fg.Some? {
          caption := Some(StickyTitle(input.desk.fgTitle, "", Shown()));
          shot := capturer.AutoCapture(fg.value.1, input.world);
        }
      }
    }

    /** `process_command` of the WebSocket stream. */
    method ProcessCommand(c: Command, desk: Snapshot) returns (reply: Reply, ops: seq<InputOp>)
      requires Valid()
      modifies this`lockedTitle, this`manualLock, this`pendingActivation, this`lastClick
      ensures Valid()
      ensures (State(), reply, ops) == ProcessCommandSpec(old(State()), c, desk)
    {
      var t := CommandType(c);
      if t == "lock_current" {
        var title := currentDisplay;
        if title == "" || Contains(title, OwnTitle) {
          title := lastValid;
        }
        if title != "" && !Contains(title, OwnTitle) {
          lockedTitle := title;
          manualLock := true;
          pendingActivation := false;
          return Done("locked", title, []), [];
        }
        return Failure("no window to lock"), [];
      }
      if t == "unlock" {
        // the pending activation is left as it was
        lockedTitle := "";
        manualLock := false;
        return Done("unlocked", "", []), [];
      }
      var targetTitle := if lockedTitle != "" then lockedTitle else if currentDisplay != "" then currentDisplay else lastValid;
      var win := FindInputWindow(targetTitle, desk);
      if win.None? {
        return Failure("target window not found"), [];
      }
      var o := WsAction(CommandAction(c), c, win.value, lastClick);
      lastClick := o.click;
      return o.reply, [Activate(win.value.title)] + o.ops;
    }
  }

  /** The stream of one WebSocket client: its command queue and what it has sent. */
  class LegacyStream {
    const server: LegacyServer
    var queue: seq<Command>
    var sent: seq<StreamMsg>

    constructor(s: LegacyServer)
      ensures server == s && queue == [] && sent == []
    {
      server := s;
      queue := [];
      sent := [];
    }

    /** The receiver task: a command parsed from the socket joins the queue. */
    method Receive(c: Command)
      modifies this`queue
      ensures queue == old(queue) + [c]
    {
      queue := queue + [c];
    }

    /** The session and the replies sent are where draining `done` from `start` leaves them. */
    ghost predicate Drained(start: Session, done: seq<Command>, desk: Snapshot, sent0: seq<StreamMsg>)
      reads this, server
    {
      server.State() == DrainSpec(start, done, desk).0 && sent == sent0 + Answers(DrainSpec(start, done, desk).1)
    }

    /**
     * Handle the first queued command and send its reply: the session and
     * the replies sent move on exactly as draining one more command does.
     */
    method DrainOne(desk: Snapshot, ghost start: Session, ghost done: seq<Command>, ghost sent0: seq<StreamMsg>)
      requires server.Valid() && |queue| > 0
      requires Drained(start, done, desk, sent0)
      modifies this, server
      ensures server.Valid()
      ensures server.Shown() == old(server.Shown()) && server.originalState == old(server.originalState) && server.fps == old(server.fps)
      ensures queue == old(queue)[1..]
      ensures Drained(start, done + [old(queue)[0]], desk, sent0)
    {
      ghost var before := server.State();
      var c := queue[0];
      queue := queue[1..];
      var reply, ops := server.ProcessCommand(c, desk);
      sent := sent + [Answer(reply)];
      ghost var next := DrainStep(start, done, c, desk, before, server.State(), reply);
    }

    /** Handle every queued command in order, sending each reply. */
    method Drain(desk: Snapshot)
      requires server.Valid()
      modifies this, server
      ensures server.Valid()
      ensures server.Shown() == old(server.Shown()) && server.originalState == old(server.originalState) && server.fps == old(server.fps)
      ensures queue == []
      ensures server.State() == DrainSpec(old(server.State()), old(queue), desk).0
      ensures sent == old(sent) + Answers(DrainSpec(old(server.State()), old(queue), desk).1)
    {
      ghost var start := server.State();
      ghost var cmds := queue;
      ghost var done: seq<Command> := [];
      ghost var sent0 := sent;
      while |queue| > 0
        invariant server.Valid()
        invariant server.Shown() == old(server.Shown()) && server.originalState == old(server.originalState) && server.fps == old(server.fps)
        invariant cmds == done + queue
        invariant Drained(start, done, desk, sent0)
        decreases |queue|
      {
        ghost var c := queue[0];
        DrainOne(desk, start, done, sent0);
        done := done + [c];
      }
      assert done == cmds;
    }

    /**
     * One pass of the stream loop: release a soft lock the user left,
     * capture the locked window (activating it once if asked) or the
     * foreground window, record what was shown, send metadata then the
     * frame (or "searching"), drain the command queue, and report the wait.
     */
    method Cycle(input: CycleInput) returns (waitMs: int, activation: seq<InputOp>, shown: seq<StreamMsg>)
      requires server.Valid()
      modifies this, server, server.capturer
      ensures server.Valid()
      ensures server.originalState == old(server.originalState) && server.fps == old(server.fps)
      ensures server.capturer.engine == old(server.capturer.engine)
      ensures waitMs == WaitMs(input.elapsedMs)
      ensures var p := ShowStep(old(server.State()), input, old(server.capturer.engine));
        && activation == p.activation && shown == p.shown
        && server.capturer.camera == (old(server.capturer.camera) || p.newCamera)
        && queue == []
        && server.State() == DrainSpec(p.session, old(queue), input.desk).0
        && sent == old(sent) + p.shown + Answers(DrainSpec(p.session, old(queue), input.desk).1)
    {
      activation, shown := Show(input);
      Drain(input.desk);
      waitMs := WaitMs(input.elapsedMs);
    }

    /** Release a soft lock the user left, capture the target and record what is shown. */
    method Track(input: CycleInput) returns (shot: Option<Shot>, caption: Option<string>, activation: seq<InputOp>)
      requires server.Valid()
      modifies server, server.capturer
      ensures server.Valid()
      ensures server.originalState == old(server.originalState) && server.fps == old(server.fps)
      ensures server.capturer.engine == old(server.capturer.engine)
      ensures var released := AutoRelease(old(server.Lock()), input.desk.win32, input.desk.fgTitle);
        var p := ShowStep(old(server.State()), input, old(server.capturer.engine));
        && caption == CycleCaption(released, old(server.Shown()), input.desk)
        && shot == CycleShot(released, input, old(server.capturer.engine)).shot
        && server.State() == p.session && activation == p.activation
        && server.capturer.camera == (old(server.capturer.camera) || p.newCamera)
    {
      server.ReleaseSoftLock(input.desk.win32, input.desk.fgTitle);
      shot, caption, activation := server.CaptureTarget(input);
      server.RecordDisplay(RecordedCaptionAsWritten(caption), input.now);
    }

    /** The first half of a pass: release, capture, record, and send metadata then the frame (or "searching"). */
    method Show(input: CycleInput) returns (activation: seq<InputOp>, shown: seq<StreamMsg>)
      requires server.Valid()
      modifies this, server, server.capturer
      ensures server.Valid()
      ensures server.originalState == old(server.originalState) && server.fps == old(server.fps)
      ensures server.capturer.engine == old(server.capturer.engine)
      ensures var p := ShowStep(old(server.State()), input, old(server.capturer.engine));
        && server.State() == p.session && activation == p.activation && shown == p.shown
        && server.capturer.camera == (old(server.capturer.camera) || p.newCamera)
      ensures queue == old(queue) && sent == old(sent) + shown
    {
      var shot, caption;
      shot, caption, activation := Track(input);
      if shot.Some? {
        shown := [Meta(shot.value.rect.Width(), shot.value.rect.Height(), MetaCaption(RecordedCaptionAsWritten(caption)),
                       server.lockedTitle, server.manualLock),
                  Frame(shot.value)];
      } else if server.lockedTitle == "" && ForegroundHwndAndRect(input.desk).None? {
        shown := [Searching];
      } else {
        shown := [];
      }
      sent := sent + shown;
    }
  }
}
