/**
 * Windows Graphics Capture for the legacy WebSocket server: capture by
 * window handle through a camera that is cached for one handle at a time,
 * capture by title through a one-shot capture context whose BGRA frames
 * are reordered to RGB, the handle-first fallback order, and the
 * module-wide instance.  The capture libraries are oracles: whether a
 * library is installed, whether a camera can be made, what a grab yields.
 */
module Wgc {
  import opened Common

  /** A numpy frame: `depth` is None for a 2-D array, else the size of the third axis; `pixels` holds one value list per pixel. */
  datatype Frame = Frame(depth: Option<nat>, pixels: seq<seq<int>>)

  /** `frame.size > 0`. */
  predicate NonEmpty(f: Frame) {
    |f.pixels| > 0 && (f.depth.None? || f.depth.value > 0)
  }

  /** The outcome of a grab: an exception, no frame (None), or a frame. */
  datatype Grab = Raised | NoFrame | Got(frame: Frame)

  /** `Image.fromarray` of a frame, as far as the server looks at it. */
  datatype Image = Image(depth: Option<nat>, pixels: seq<seq<int>>)

  /** Every pixel of a four-channel frame has its first three values. */
  predicate FourChannel(f: Frame) {
    f.depth == Some(4) && forall i :: 0 <= i < |f.pixels| ==> |f.pixels[i]| >= 3
  }

  /** `frame[:, :, [2, 1, 0]]` on a four-channel frame: blue and red swap places and alpha is dropped. */
  function ToRgb(f: Frame): (r: Frame)
    ensures |r.pixels| == |f.pixels|
    ensures FourChannel(f) ==> r.depth == Some(3) && forall i :: 0 <= i < |f.pixels| ==>
      r.pixels[i] == [f.pixels[i][2], f.pixels[i][1], f.pixels[i][0]]
    ensures !FourChannel(f) ==> r == f
  {
    if FourChannel(f) then
      Frame(Some(3), seq(|f.pixels|, i requires 0 <= i < |f.pixels| => [f.pixels[i][2], f.pixels[i][1], f.pixels[i][0]]))
    else f
  }

  /** Reading a BGRA pixel back from the RGB image gives its colour channels where BGRA keeps them, and the result has no alpha. */
  lemma ToRgbSwapsBlueAndRed(f: Frame, i: nat)
    requires FourChannel(f) && i < |f.pixels|
    ensures var p := ToRgb(f).pixels[i];
      |p| == 3 && p[0] == f.pixels[i][2] && p[2] == f.pixels[i][0] && p[1] == f.pixels[i][1]
    ensures !FourChannel(ToRgb(f))
  {
  }

  /** The image a grab yields: a non-empty frame becomes an image, anything else None. */
  function GrabImage(g: Grab): (r: Option<Image>)
    ensures r.Some? <==> g.Got? && NonEmpty(g.frame)
    ensures r.Some? ==> r.value.pixels == g.frame.pixels
  {
    if g.Got? && NonEmpty(g.frame) then Some(Image(g.frame.depth, g.frame.pixels)) else None
  }

  /** `capture_window_by_name`: None without zbl, else the grabbed frame, reordered to RGB when it has four channels. */
  function CaptureByName(zbl: bool, g: Grab): (r: Option<Image>)
    ensures !zbl ==> r.None?
    ensures zbl ==> r == GrabImage(if g.Got? then Got(ToRgb(g.frame)) else g)
  {
    if !zbl then None
    else if g.Got? && NonEmpty(g.frame) then
      var f := ToRgb(g.frame);
      Some(Image(f.depth, f.pixels))
    else None
  }

  /** A wincam camera, made for one window handle; `serial` tells cameras apart. */
  datatype Camera = Camera(hwnd: int, serial: nat)

  /** The camera cache of a capture: the camera, the handle it was made for, and the cameras made and closed so far. */
  datatype Cache = Cache(camera: Option<Camera>, currentHwnd: Option<int>, made: nat, closed: nat)

  /** The recorded handle is the cached camera's, there is none without a camera, and every camera made is either cached or closed, never both. */
  predicate CacheValid(c: Cache) {
    && (c.camera.Some? ==> c.currentHwnd == Some(c.camera.value.hwnd) && c.camera.value.serial < c.made)
    && (c.camera.None? ==> c.currentHwnd.None?)
    && c.closed + (if c.camera.Some? then 1 else 0) <= c.made
  }

  /** A camera for `hwnd` is ready without making a new one. */
  predicate CachedFor(c: Cache, hwnd: int) {
    c.camera.Some? && c.currentHwnd == Some(hwnd)
  }

  /**
   * `capture_window_by_hwnd` with wincam installed: reuse the camera made
   * for this handle, or close the cached one and make one for this handle
   * (`createOk`), then grab.  Any exception resets the cache.
   */
  function ByHwndStep(c: Cache, hwnd: int, createOk: bool, g: Grab): (r: (Cache, Option<Image>))
    ensures CacheValid(c) ==> CacheValid(r.0)
    // an image only ever comes through a camera made for this very handle
    ensures r.1.Some? ==> CachedFor(r.0, hwnd) && r.1 == GrabImage(g)
    ensures CachedFor(c, hwnd) && !g.Raised? ==> r == (c, GrabImage(g))
    ensures !CachedFor(c, hwnd) ==>
      && r.0.made == c.made + (if createOk then 1 else 0)
      && r.0.closed == c.closed + (if c.camera.Some? then 1 else 0)
    ensures CachedFor(c, hwnd) ==> r.0.made == c.made && r.0.closed == c.closed
    ensures r.0.camera.None? <==> g.Raised? || !(CachedFor(c, hwnd) || createOk)
  {
    var cached := CachedFor(c, hwnd);
    var closed := if !cached && c.camera.Some? then c.closed + 1 else c.closed;
    if !cached && !createOk then (Cache(None, None, c.made, closed), None)
    else
      var c1 := if cached then c else Cache(Some(Camera(hwnd, c.made)), Some(hwnd), c.made + 1, closed);
      if g.Raised? then (c1.(camera := None, currentHwnd := None), None)
      else (c1, GrabImage(g))
  }

  /** A second capture of the handle just captured reuses its camera: no camera is made or closed. */
  lemma SecondCaptureReusesCamera(c: Cache, hwnd: int, createOk: bool, g1: Grab, createOk2: bool, g2: Grab)
    requires ByHwndStep(c, hwnd, createOk, g1).0.camera.Some?
    ensures var first := ByHwndStep(c, hwnd, createOk, g1).0;
      var second := ByHwndStep(first, hwnd, createOk2, g2).0;
      second.made == first.made && second.closed == first.closed
  {
  }

  /**
   * `capture_window` from the cache `c`: by handle first when a handle is
   * given and wincam is installed, then by title when a title is given and
   * zbl is installed, and None when neither yields an image.  The title
   * capture never touches the camera cache.
   */
  function WindowCapture(c: Cache, hwnd: int, name: string, wincam: bool, zbl: bool, createOk: bool, hwndGrab: Grab, nameGrab: Grab)
    : (r: (Cache, Option<Image>))
    ensures r.0 == (if hwnd != 0 && wincam then ByHwndStep(c, hwnd, createOk, hwndGrab).0 else c)
    ensures CacheValid(c) ==> CacheValid(r.0)
    ensures hwnd != 0 && wincam && ByHwndStep(c, hwnd, createOk, hwndGrab).1.Some? ==> r.1 == ByHwndStep(c, hwnd, createOk, hwndGrab).1
    ensures r.1.None? <==>
      && (hwnd == 0 || !wincam || ByHwndStep(c, hwnd, createOk, hwndGrab).1.None?)
      && (name == "" || CaptureByName(zbl, nameGrab).None?)
  {
    var h := if hwnd != 0 && wincam then ByHwndStep(c, hwnd, createOk, hwndGrab) else (c, None);
    if h.1.Some? then h
    else (h.0, if name != "" then CaptureByName(zbl, nameGrab) else None)
  }

  /** `WGCCapture`. */
  class WgcCapture {
    var camera: Option<Camera>
    var currentHwnd: Option<int>
    var currentWindowName: Option<string>
    /** Cameras made and closed so far. */
    var made: nat
    var closed: nat

    function State(): Cache
      reads this
    {
      Cache(camera, currentHwnd, made, closed)
    }

    predicate Valid()
      reads this
    {
      CacheValid(State())
    }

    constructor()
      ensures Valid()
      ensures camera.None? && currentHwnd.None? && currentWindowName.None? && made == 0 && closed == 0
    {
      camera := None;
      currentHwnd := None;
      currentWindowName := None;
      made := 0;
      closed := 0;
    }

    /** A camera for `hwnd` is ready without making a new one. */
    predicate Cached(hwnd: int)
      reads this
    {
      CachedFor(State(), hwnd)
    }

    /**
     * `capture_window_by_hwnd`: reuse the camera made for this handle, or
     * close the cached one and make one for this handle (`createOk`), then
     * grab.  Any exception resets the cache.
     */
    method CaptureByHwnd(wincam: bool, hwnd: int, createOk: bool, g: Grab) returns (r: Option<Image>)
      requires Valid()
      modifies this
      ensures Valid()
      ensures wincam ==> (State(), r) == ByHwndStep(old(State()), hwnd, createOk, g)
      ensures !wincam ==> r.None? && camera == old(camera) && currentHwnd == old(currentHwnd) && closed == old(closed) && made == old(made)
      ensures wincam && old(Cached(hwnd)) ==> made == old(made) && closed == old(closed)
      ensures wincam && old(Cached(hwnd)) && !g.Raised? ==> camera == old(camera)
      ensures wincam && !old(Cached(hwnd)) ==> made == old(made) + (if createOk then 1 else 0)
      ensures wincam && !old(Cached(hwnd)) ==> closed == old(closed) + (if old(camera).Some? then 1 else 0)
      ensures wincam && !old(Cached(hwnd)) && createOk && !g.Raised? ==> camera == Some(Camera(hwnd, old(made)))
      ensures wincam && (old(Cached(hwnd)) || createOk) ==> r == GrabImage(g)
      ensures wincam && !old(Cached(hwnd)) && !createOk ==> r.None?
      ensures wincam && (g.Raised? || !(old(Cached(hwnd)) || createOk)) ==> camera.None? && currentHwnd.None?
      ensures wincam && !g.Raised? && (old(Cached(hwnd)) || createOk) ==> currentHwnd == Some(hwnd)
      ensures currentWindowName == old(currentWindowName)
    {
      if !wincam {
        return None;
      }
      if camera.None? || currentHwnd != Some(hwnd) {
        if camera.Some? {
          closed := closed + 1;
        }
        if !createOk {
          camera := None;
          currentHwnd := None;
          return None;
        }
        camera := Some(Camera(hwnd, made));
        made := made + 1;
        currentHwnd := Some(hwnd);
      }
      if g.Raised? {
        camera := None;
        currentHwnd := None;
        return None;
      }
      r := GrabImage(g);
    }

    /**
     * `capture_window`: by handle first when a handle is given and wincam
     * is installed, then by title when a title is given and zbl is
     * installed, and None when neither yields an image.
     */
    method CaptureWindow(hwnd: int, name: string, wincam: bool, zbl: bool, createOk: bool, hwndGrab: Grab, nameGrab: Grab)
      returns (r: Option<Image>)
      requires Valid()
      modifies this
      ensures Valid()
      ensures var byHwnd := if hwnd != 0 && wincam && (old(Cached(hwnd)) || createOk) then GrabImage(hwndGrab) else None;
        var byName := if name != "" then CaptureByName(zbl, nameGrab) else None;
        r == (if byHwnd.Some? then byHwnd else byName)
      ensures hwnd == 0 || !wincam ==> camera == old(camera) && currentHwnd == old(currentHwnd)
      ensures (State(), r) == WindowCapture(old(State()), hwnd, name, wincam, zbl, createOk, hwndGrab, nameGrab)
      ensures currentWindowName == old(currentWindowName)
    {
      if hwnd != 0 && wincam {
        r := CaptureByHwnd(wincam, hwnd, createOk, hwndGrab);
        if r.Some? {
          return r;
        }
      }
      if name != "" && zbl {
        r := CaptureByName(zbl, nameGrab);
        if r.Some? {
          return r;
        }
      }
      return None;
    }

    /** `cleanup`: close the camera, if any, and forget the handle and the title. */
    method Cleanup()
      requires Valid()
      modifies this
      ensures Valid()
      ensures camera.None? && currentHwnd.None? && currentWindowName.None?
      ensures made == old(made) && closed == old(closed) + (if old(camera).Some? then 1 else 0)
    {
      if camera.Some? {
        closed := closed + 1;
        camera := None;
      }
      currentHwnd := None;
      currentWindowName := None;
    }
  }

  /** The module-wide `_wgc_capture`. */
  class WgcRegistry {
    var capture: WgcCapture?

    constructor()
      ensures capture == null
    {
      capture := null;
    }

    /** `get_wgc_capture`: the existing instance, or a new one that is kept from now on. */
    method Get() returns (c: WgcCapture)
      modifies this
      ensures old(capture) != null ==> c == old(capture) && capture == c
      ensures old(capture) == null ==>
        && fresh(c) && c.Valid() && capture == c
        && c.State() == Cache(None, None, 0, 0) && c.currentWindowName.None?
    {
      if capture == null {
        capture := new WgcCapture();
      }
      c := capture;
    }

    /** `capture_window_wgc`: None when no capture library is installed, else the shared instance's `capture_window`. */
    method CaptureWindowWgc(hwnd: int, name: string, wincam: bool, zbl: bool, createOk: bool, hwndGrab: Grab, nameGrab: Grab)
      returns (r: Option<Image>)
      requires capture != null ==> capture.Valid()
      modifies this, capture
      ensures !wincam && !zbl ==> r.None? && capture == old(capture)
      ensures wincam || zbl ==> capture != null && capture.Valid() && (old(capture) != null ==> capture == old(capture))
      ensures (wincam || zbl) && old(capture) == null && hwnd != 0 && wincam && !createOk ==> r == (if name != "" then CaptureByName(zbl, nameGrab) else None)
      ensures wincam || zbl ==>
        var c0 := if old(capture) == null then Cache(None, None, 0, 0) else old(capture.State());
        var w := WindowCapture(c0, hwnd, name, wincam, zbl, createOk, hwndGrab, nameGrab);
        && r == w.1 && capture.State() == w.0
        && capture.currentWindowName == (if old(capture) == null then None else old(capture.currentWindowName))
    {
      if !wincam && !zbl {
        return None;
      }
      var c := Get();
      r := c.CaptureWindow(hwnd, name, wincam, zbl, createOk, hwndGrab, nameGrab);
    }
  }
}
