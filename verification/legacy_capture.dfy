/**
 * Screen-capture backend selection of the legacy WebSocket server: the
 * configured engine (desktop duplication, mss, or the PIL screen grab),
 * the per-call fallback from one backend to the next, the bounds check
 * that keeps the duplication backend on the primary monitor, the GDI
 * background capture with its near-black rejection, and the locked-mode
 * chain (graphics capture, then GDI, then a plain screen grab).
 *
 * Every backend is an oracle: the model is told whether a grab succeeds
 * and what the mean brightness of a GDI bitmap is, and it records which
 * backends were asked, in which order, and where the picture came from.
 */
module LegacyCapture {
  import opened Common
  import opened Geometry

  /** The values of the capture-engine setting. */
  datatype Engine = Auto | Dxcam | Mss | Legacy

  /** The optional libraries found at start-up. */
  datatype Libraries = Libraries(dxcam: bool, cv2: bool, mss: bool, win32: bool, wgc: bool)

  /** Where a picture came from. */
  datatype Backend = DxcamGrab | MssGrab | ScreenGrab | GdiPrint | GraphicsCapture

  /** A captured picture, kept symbolic: its source and the screen rectangle it shows. */
  datatype Shot = Shot(source: Backend, rect: Rect)

  /**
   * What the duplication backend reports: its surface size, whether its
   * streaming thread runs, whether a frame is available, and whether
   * cropping that frame to the rectangle leaves nothing.
   */
  datatype DxcamView = DxcamView(width: int, height: int, capturing: bool, frameReady: bool, cropEmpty: bool)

  /** The outcome of each GDI method; `false` means it returned false or raised. */
  datatype GdiOutcomes = GdiOutcomes(printFull: bool, wmPrint: bool, printPlain: bool, bitBlt: bool)

  datatype GdiMethod = PrintWindowFull | WmPrint | PrintWindowPlain | BitBlt

  /** Everything the capture code learns from the system during one call. */
  datatype CaptureWorld = CaptureWorld(
    libs: Libraries,
    cam: DxcamView,
    mssOk: bool,
    grabOk: bool,
    gdi: GdiOutcomes,
    brightness: nat,
    graphics: Option<Rect>)

  // ---------------------------------------------------------------- engine choice

  /** The engine `simple_capture` starts from, as written: "auto" looks only at the duplication library. */
  function StartEngineAsWritten(setting: Engine, libs: Libraries): Engine {
    if setting == Auto then (if libs.dxcam then Dxcam else if libs.mss then Mss else Legacy) else setting
  }

  /** `get_current_capture_engine`: "auto" asks for both the duplication and the colour-conversion library. */
  function ReportedEngine(setting: Engine, libs: Libraries): (e: Engine)
    ensures e != Auto
    ensures setting != Auto ==> e == setting
    ensures setting == Auto && e == Dxcam ==> libs.dxcam && libs.cv2
  {
    if setting == Auto then (if libs.dxcam && libs.cv2 then Dxcam else if libs.mss then Mss else Legacy) else setting
  }

  /** The engine `simple_capture` starts from, with "auto" resolved the way it is reported. */
  function StartEngine(setting: Engine, libs: Libraries): Engine {
    ReportedEngine(setting, libs)
  }

  /** The backend a call tries first for a given starting engine. */
  function FirstBackend(e: Engine, libs: Libraries): Backend {
    if e == Dxcam && libs.dxcam && libs.cv2 then DxcamGrab
    else if e == Mss && libs.mss then MssGrab
    else ScreenGrab
  }

  /**
   * As written, "auto" with the duplication library but without the
   * colour-conversion library is reported as "mss" while the capture goes
   * straight to the PIL screen grab, skipping mss.
   */
  lemma EngineReportMismatch()
    ensures var libs := Libraries(true, false, true, true, false);
      && ReportedEngine(Auto, libs) == Mss
      && FirstBackend(StartEngineAsWritten(Auto, libs), libs) == ScreenGrab
      && FirstBackend(ReportedEngine(Auto, libs), libs) == MssGrab
  {
  }

  /** With "auto" resolved as reported, the backend used first is always the one the reported engine names. */
  lemma ReportedEngineIsUsed(setting: Engine, libs: Libraries)
    requires setting == Auto
    ensures var e := StartEngine(setting, libs);
      && e == ReportedEngine(setting, libs)
      && (e == Dxcam ==> FirstBackend(e, libs) == DxcamGrab)
      && (e == Mss ==> FirstBackend(e, libs) == MssGrab)
      && (e == Legacy ==> FirstBackend(e, libs) == ScreenGrab)
  {
  }

  /** The duplication backend sees only the primary monitor: the rectangle must lie inside its surface. */
  predicate DxcamInBounds(r: Rect, cam: DxcamView) {
    r.left >= 0 && r.top >= 0 && r.right <= cam.width && r.bottom <= cam.height
  }

  function Rank(b: Backend): nat {
    match b
    case DxcamGrab => 0
    case MssGrab => 1
    case ScreenGrab => 2
    case GdiPrint => 3
    case GraphicsCapture => 4
  }

  /** Backends appear in the fixed fallback order, each at most once. */
  predicate InFallbackOrder(tried: seq<Backend>) {
    forall i, j :: 0 <= i < j < |tried| ==> Rank(tried[i]) < Rank(tried[j])
  }

  // ---------------------------------------------------------------- GDI background capture

  /** The near-black limit: 2 when the caller asked to keep dark pictures, 10 otherwise. */
  function BlackThreshold(skipBlackCheck: bool): (t: nat)
    ensures t == 2 || t == 10
    ensures skipBlackCheck <==> t == 2
  {
    if skipBlackCheck then 2 else 10
  }

  function GdiRank(m: GdiMethod): nat {
    match m
    case PrintWindowFull => 0
    case WmPrint => 1
    case PrintWindowPlain => 2
    case BitBlt => 3
  }

  /** The picture `capture_window_background` keeps: the window's rectangle, unless it is empty or too dark. */
  function GdiShot(win32: bool, rect: Rect, brightness: nat, skipBlackCheck: bool): (s: Option<Shot>)
    ensures s.Some? <==> win32 && rect.NonEmpty() && brightness >= BlackThreshold(skipBlackCheck)
    ensures s.Some? ==> s.value == Shot(GdiPrint, rect)
  {
    if win32 && rect.NonEmpty() && brightness >= BlackThreshold(skipBlackCheck) then Some(Shot(GdiPrint, rect)) else None
  }

  /**
   * `capture_window_background`.  The brightness is the integer part of the
   * bitmap's mean brightness; comparing it with an integer threshold gives
   * the same answer as comparing the mean itself.
   */
  method CaptureWindowBackground(win32: bool, rect: Rect, gdi: GdiOutcomes, brightness: nat, skipBlackCheck: bool)
    returns (shot: Option<Shot>, tried: seq<GdiMethod>)
    ensures !win32 || !rect.NonEmpty() ==> shot == None && tried == []
    ensures win32 && rect.NonEmpty() ==> |tried| >= 1 && tried[0] == PrintWindowFull
    ensures forall i, j :: 0 <= i < j < |tried| ==> GdiRank(tried[i]) < GdiRank(tried[j])
    ensures gdi.printFull ==> |tried| <= 1
    ensures gdi.wmPrint ==> |tried| <= 2
    ensures shot == GdiShot(win32, rect, brightness, skipBlackCheck)
  {
    tried := [];
    if !win32 || rect.Width() <= 0 || rect.Height() <= 0 {
      return None, tried;
    }
    var result := gdi.printFull;
    tried := tried + [PrintWindowFull];
    if !result {
      result := gdi.wmPrint;
      tried := tried + [WmPrint];
    }
    if !result {
      result := gdi.printPlain;
      tried := tried + [PrintWindowPlain];
    }
    if !result {
      tried := tried + [BitBlt];
    }
    // the bitmap is read back whatever the methods reported
    if brightness < BlackThreshold(skipBlackCheck) {
      shot := None;
    } else {
      shot := Some(Shot(GdiPrint, rect));
    }
  }

  /** A dark-themed window (brightness 5) survives the locked-mode check but not the default one. */
  lemma DarkWindowThresholds()
    ensures 5 >= BlackThreshold(true) && 5 < BlackThreshold(false)
  {
  }

  // ---------------------------------------------------------------- simple_capture

  /** What one capture call did: the picture, the screen backends asked in order, and whether it created the duplication camera. */
  datatype Capture = Capture(shot: Option<Shot>, tried: seq<Backend>, newCamera: bool)

  /** Whether a screen backend, once asked, returns a picture. */
  predicate Works(b: Backend, w: CaptureWorld) {
    match b
    case DxcamGrab => w.cam.frameReady && !w.cam.cropEmpty
    case MssGrab => w.mssOk
    case ScreenGrab => w.grabOk
    case GdiPrint => false
    case GraphicsCapture => false
  }

  /** Screen backends only, in the fixed fallback order. */
  predicate ScreenOrder(tried: seq<Backend>) {
    InFallbackOrder(tried) && forall b :: b in tried ==> Rank(b) <= 2
  }

  /** Each order in which a `simple_capture` call can ask the screen backends. */
  lemma ScreenFallbackOrders()
    ensures ScreenOrder([DxcamGrab]) && ScreenOrder([DxcamGrab, MssGrab]) && ScreenOrder([DxcamGrab, ScreenGrab])
    ensures ScreenOrder([DxcamGrab, MssGrab, ScreenGrab])
    ensures ScreenOrder([MssGrab]) && ScreenOrder([MssGrab, ScreenGrab]) && ScreenOrder([ScreenGrab])
  {
  }

  /**
   * `simple_capture` from the starting engine `start`: try its backend and
   * fall back along duplication, mss, screen grab.  The fallback only
   * changes the engine used for this call.
   */
  function SimpleChain(start: Engine, rect: Option<Rect>, w: CaptureWorld): (c: Capture)
    ensures rect.None? || !rect.value.NonEmpty() ==> c == Capture(None, [], false)
    ensures rect.Some? && rect.value.NonEmpty() ==> |c.tried| >= 1
    ensures rect.Some? && rect.value.NonEmpty() && DxcamInBounds(rect.value, w.cam) ==>
      c.tried[0] == FirstBackend(start, w.libs)
    ensures ScreenOrder(c.tried)
    ensures DxcamGrab in c.tried ==> rect.Some? && DxcamInBounds(rect.value, w.cam) && w.libs.dxcam && w.libs.cv2
    // the chain stops at the first backend that works, and that backend's picture is the result
    ensures forall i :: 0 <= i < |c.tried| - 1 ==> !Works(c.tried[i], w)
    ensures c.shot.Some? <==> |c.tried| >= 1 && Works(c.tried[|c.tried| - 1], w)
    ensures c.shot.Some? ==> rect.Some? && c.shot.value == Shot(c.tried[|c.tried| - 1], rect.value)
    // nothing comes back only after the screen grab, the last resort, failed too
    ensures c.shot.None? && rect.Some? && rect.value.NonEmpty() ==> c.tried[|c.tried| - 1] == ScreenGrab && !w.grabOk
    ensures c.newCamera <==> rect.Some? && rect.value.NonEmpty() && start == Dxcam && w.libs.dxcam && w.libs.cv2
  {
    ScreenFallbackOrders();
    if rect.None? || !rect.value.NonEmpty() then Capture(None, [], false)
    else
      var r := rect.value;
      var useDx := start == Dxcam && w.libs.dxcam && w.libs.cv2;
      var grab := if w.grabOk then Some(Shot(ScreenGrab, r)) else None;
      if useDx && DxcamInBounds(r, w.cam) then
        // the duplication grab failed: the engine falls back to mss for this call
        if Works(DxcamGrab, w) then Capture(Some(Shot(DxcamGrab, r)), [DxcamGrab], true)
        else if w.libs.mss && w.mssOk then Capture(Some(Shot(MssGrab, r)), [DxcamGrab, MssGrab], true)
        else if w.libs.mss then Capture(grab, [DxcamGrab, MssGrab, ScreenGrab], true)
        else Capture(grab, [DxcamGrab, ScreenGrab], true)
      else
        var askMss := (useDx || start == Mss) && w.libs.mss;
        if askMss && w.mssOk then Capture(Some(Shot(MssGrab, r)), [MssGrab], useDx)
        else if askMss then Capture(grab, [MssGrab, ScreenGrab], useDx)
        else Capture(grab, [ScreenGrab], useDx)
  }

  /**
   * Under the setting the server starts with (mss), a working mss grab is
   * the picture, and a failing one falls back to the screen grab alone.
   */
  lemma MssSettingChain(r: Rect, w: CaptureWorld)
    requires r.NonEmpty() && w.libs.mss
    ensures var c := SimpleChain(StartEngineAsWritten(Mss, w.libs), Some(r), w);
      && c.tried[0] == MssGrab && !c.newCamera
      && (w.mssOk ==> c.shot == Some(Shot(MssGrab, r)))
      && (!w.mssOk ==> c.tried == [MssGrab, ScreenGrab] && (c.shot.Some? <==> w.grabOk))
  {
  }

  /**
   * The locked-mode chain of the stream: graphics capture when its library
   * is present, then the GDI background capture (keeping dark pictures),
   * then `simple_capture` on the window rectangle.
   */
  function LockedChain(start: Engine, hwnd: nat, rect: Option<Rect>, w: CaptureWorld): (c: Capture)
    ensures w.libs.wgc && w.graphics.Some? ==> c == Capture(Some(Shot(GraphicsCapture, w.graphics.value)), [], false)
    // nothing comes back only when every step of the chain failed
    ensures c.shot.None? <==>
      && !(w.libs.wgc && w.graphics.Some?)
      && !(hwnd != 0 && rect.Some? && GdiShot(w.libs.win32, rect.value, w.brightness, true).Some?)
      && (hwnd == 0 || SimpleChain(start, rect, w).shot.None?)
    ensures c.shot.Some? && c.shot.value.source != GraphicsCapture ==>
      hwnd != 0 && rect.Some? && c.shot.value.rect == rect.value
    ensures c.shot.Some? && c.shot.value.source == GdiPrint ==> w.libs.win32 && w.brightness >= BlackThreshold(true)
    ensures c.tried != [] || c.newCamera ==> hwnd != 0 && c == SimpleChain(start, rect, w)
  {
    if w.libs.wgc && w.graphics.Some? then Capture(Some(Shot(GraphicsCapture, w.graphics.value)), [], false)
    else
      var gdi := if hwnd != 0 && rect.Some? then GdiShot(w.libs.win32, rect.value, w.brightness, true) else None;
      if gdi.Some? then Capture(gdi, [], false)
      else if hwnd != 0 then SimpleChain(start, rect, w)
      else Capture(None, [], false)
  }

  /** The auto-mode chain: `simple_capture` first, then the GDI background capture with the default threshold. */
  function AutoChain(start: Engine, rect: Rect, w: CaptureWorld): (c: Capture)
    ensures c.tried == SimpleChain(start, Some(rect), w).tried && c.newCamera == SimpleChain(start, Some(rect), w).newCamera
    ensures SimpleChain(start, Some(rect), w).shot.Some? ==> c.shot == SimpleChain(start, Some(rect), w).shot
    ensures c.shot.None? <==> SimpleChain(start, Some(rect), w).shot.None? && GdiShot(w.libs.win32, rect, w.brightness, false).None?
    ensures c.shot.Some? ==> c.shot.value.rect == rect
  {
    var s := SimpleChain(start, Some(rect), w);
    if s.shot.None? && w.libs.win32 then s.(shot := GdiShot(w.libs.win32, rect, w.brightness, false)) else s
  }

  /**
   * A dark window that only the GDI capture can see is streamed under a
   * lock and dropped in auto mode, where the near-black check is stricter.
   */
  lemma DarkWindowOnlyWhenLocked(start: Engine, hwnd: nat, r: Rect, w: CaptureWorld)
    requires hwnd != 0 && w.libs.win32 && r.NonEmpty() && !(w.libs.wgc && w.graphics.Some?)
    requires BlackThreshold(true) <= w.brightness < BlackThreshold(false)
    requires SimpleChain(start, Some(r), w).shot.None?
    ensures LockedChain(start, hwnd, Some(r), w).shot == Some(Shot(GdiPrint, r))
    ensures AutoChain(start, r, w).shot.None?
  {
  }

  /** The capture settings kept between calls: the engine setting and whether a duplication camera exists. */
  class Capturer {
    var engine: Engine
    var camera: bool

    constructor()
      ensures engine == Mss && !camera
    {
      engine := Mss;
      camera := false;
    }

    /** `simple_capture`, starting from the engine the setting names (with "auto" resolved as written). */
    method SimpleCapture(rect: Option<Rect>, w: CaptureWorld) returns (shot: Option<Shot>, tried: seq<Backend>)
      modifies this`camera
      ensures engine == old(engine)
      ensures var c := SimpleChain(StartEngineAsWritten(engine, w.libs), rect, w);
        shot == c.shot && tried == c.tried && camera == (old(camera) || c.newCamera)
    {
      var e := StartEngineAsWritten(engine, w.libs);
      tried := [];
      if rect.None? || rect.value.right <= rect.value.left || rect.value.bottom <= rect.value.top {
        return None, tried;
      }
      var r := rect.value;
      if e == Dxcam && w.libs.dxcam && w.libs.cv2 {
        camera := true;
        if !DxcamInBounds(r, w.cam) {
          // out of bounds: raised before any grab
          e := Mss;
        } else {
          tried := tried + [DxcamGrab];
          if !w.cam.frameReady || w.cam.cropEmpty {
            e := Mss;
          } else {
            return Some(Shot(DxcamGrab, r)), tried;
          }
        }
      }
      if e == Mss && w.libs.mss {
        tried := tried + [MssGrab];
        if w.mssOk {
          return Some(Shot(MssGrab, r)), tried;
        }
        e := Legacy;
      }
      tried := tried + [ScreenGrab];
      if w.grabOk {
        shot := Some(Shot(ScreenGrab, r));
      } else {
        shot := None;
      }
    }

    /** The locked-mode chain of the stream, on the locked window's handle and rectangle. */
    method LockedCapture(hwnd: nat, rect: Option<Rect>, w: CaptureWorld) returns (shot: Option<Shot>)
      modifies this`camera
      ensures engine == old(engine)
      ensures var c := LockedChain(StartEngineAsWritten(engine, w.libs), hwnd, rect, w);
        shot == c.shot && camera == (old(camera) || c.newCamera)
    {
      shot := None;
      if w.libs.wgc && w.graphics.Some? {
        shot := Some(Shot(GraphicsCapture, w.graphics.value));
      }
      if shot.None? && hwnd != 0 && w.libs.win32 && rect.Some? {
        var gdiShot, methods := CaptureWindowBackground(w.libs.win32, rect.value, w.gdi, w.brightness, true);
        shot := gdiShot;
      }
      if shot.None? && hwnd != 0 {
        var tried;
        shot, tried := SimpleCapture(rect, w);
      }
    }

    /** The auto-mode chain of the stream, on the foreground window's rectangle. */
    method AutoCapture(rect: Rect, w: CaptureWorld) returns (shot: Option<Shot>)
      modifies this`camera
      ensures engine == old(engine)
      ensures var c := AutoChain(StartEngineAsWritten(engine, w.libs), rect, w);
        shot == c.shot && camera == (old(camera) || c.newCamera)
    {
      var tried, methods;
      shot, tried := SimpleCapture(Some(rect), w);
      if shot.None? && w.libs.win32 {
        shot, methods := CaptureWindowBackground(w.libs.win32, rect, w.gdi, w.brightness, false);
      }
    }
  }
}
