/**
 * Window bookkeeping of the Go server: the window list (visible, titled,
 * larger than 10x10, with a "WxH" size string), the integer formatting
 * that writes the size, the monitor work area, the visual bounds of a
 * window, the calls that bring a window to the front, and the two
 * SetWindowPos forms.
 *
 * Handles, rectangles and answers of the system are inputs; the calls the
 * server makes are recorded in order.
 */
module GoWindow {
  import opened Common
  import opened Text
  import opened Geometry

  /** Go's `int32`. */
  newtype i32 = x: int | -0x8000_0000 <= x < 0x8000_0000

  /** A Win32 RECT. */
  datatype Rect32 = Rect32(left: i32, top: i32, right: i32, bottom: i32)

  /** `a - b` in `int32`: wraps around on overflow. */
  function Sub32(a: i32, b: i32): (d: i32)
    ensures -0x8000_0000 <= a as int - b as int < 0x8000_0000 ==> d as int == a as int - b as int
    ensures (d as int - (a as int - b as int)) % 0x1_0000_0000 == 0
  {
    ((a as int - b as int + 0x8000_0000) % 0x1_0000_0000 - 0x8000_0000) as i32
  }

  function AsRect(r: Rect32): Rect {
    Rect(r.left as int, r.top as int, r.right as int, r.bottom as int)
  }

  // ---------------------------------------------------------------- itoa

  /** Bytes read as Latin-1 characters, the way `string(b)` shows ASCII. */
  function Chars(b: seq<byte>): (s: string)
    ensures |s| == |b|
  {
    if |b| == 0 then "" else [b[0] as int as char] + Chars(b[1..])
  }

  lemma CharsCons(c: byte, b: seq<byte>)
    ensures Chars([c] + b) == [c as int as char] + Chars(b)
  {
    assert ([c] + b)[1..] == b;
  }

  function Pow10(k: nat): (p: nat)
    ensures p >= 1
  {
    if k == 0 then 1 else 10 * Pow10(k - 1)
  }

  /** Twenty digits hold any 64-bit number. */
  lemma Pow10Twenty()
    ensures Pow10(20) > MaxInt64
  {
    assert Pow10(1) == 10;
    assert Pow10(2) == 100;
    assert Pow10(3) == 1000;
    assert Pow10(4) == 10000;
    assert Pow10(5) == 100000;
    assert Pow10(6) == 1000000;
    assert Pow10(7) == 10000000;
    assert Pow10(8) == 100000000;
    assert Pow10(9) == 1000000000;
    assert Pow10(10) == 10000000000;
    assert Pow10(11) == 100000000000;
    assert Pow10(12) == 1000000000000;
    assert Pow10(13) == 10000000000000;
    assert Pow10(14) == 100000000000000;
    assert Pow10(15) == 1000000000000000;
    assert Pow10(16) == 10000000000000000;
    assert Pow10(17) == 100000000000000000;
    assert Pow10(18) == 1000000000000000000;
    assert Pow10(19) == 10000000000000000000;
    assert Pow10(20) == 100000000000000000000;
  }

  /**
   * One turn of the `itoa` loop: writing the last digit of `n` in front of
   * what is already written leaves the quotient's spelling still to write.
   */
  lemma ItoaStep(v: nat, n: nat, i: nat, written: seq<byte>, after: seq<byte>)
    requires 0 < n < Pow10(i + 1)
    requires Decimal(n) + Chars(written) == Decimal(v)
    requires |after| == |written| + 1 && after[0] == (0x30 + n % 10) as byte && after[1..] == written
    ensures (if n / 10 > 0 then Decimal(n / 10) else "") + Chars(after) == Decimal(v)
    ensures n / 10 < Pow10(i)
  {
    var c := (0x30 + n % 10) as byte;
    assert after == [c] + written;
    CharsCons(c, written);
    assert c as int as char == DigitChar(n % 10);
    if n / 10 > 0 {
      assert Decimal(n) == Decimal(n / 10) + [DigitChar(n % 10)];
    } else {
      assert Decimal(n) == [DigitChar(n % 10)];
    }
  }

  /**
   * `itoa`: the decimal digits of a non-negative number, written backwards
   * into a 20-byte buffer; a negative number gives no digits.
   */
  method Itoa(v: int) returns (b: seq<byte>)
    requires v <= MaxInt64
    ensures v >= 0 ==> Chars(b) == Decimal(v)
    ensures v < 0 ==> b == []
    ensures |b| <= 20
  {
    if v == 0 {
      return [0x30];
    }
    var buf := new byte[20];
    var i := buf.Length - 1;
    var n := v;
    Pow10Twenty();
    while n > 0
      invariant -1 <= i <= 19
      invariant v < 0 ==> n == v && i == 19
      invariant v > 0 ==> 0 <= n < Pow10(i + 1)
      invariant v > 0 ==> (if n > 0 then Decimal(n) else "") + Chars(buf[i + 1..]) == Decimal(v)
    {
      ghost var written := buf[i + 1..];
      buf[i] := (0x30 + n % 10) as byte;
      ItoaStep(v, n, i, written, buf[i..]);
      n := n / 10;
      i := i - 1;
    }
    b := buf[i + 1..];
  }

  /** Reading the bytes `itoa` writes with `strconv.Atoi` gives the number back. */
  lemma ItoaReadsBack(v: nat, b: seq<byte>)
    requires v <= MaxInt64 && Chars(b) == Decimal(v)
    ensures GoAtoi(Chars(b)) == Some(v)
  {
    GoAtoiRoundTrip(v);
  }

  // ---------------------------------------------------------------- window list

  /** What enumeration learns about one top-level window. */
  datatype RawWindow = RawWindow(hwnd: nat, visible: bool, title: string, rect: Rect32)

  /** An entry of the window list sent to the phone. */
  datatype WindowInfo = WindowInfo(title: string, hwnd: nat, size: string)

  /** The filter of `enumWindows`: visible, titled, not the desktop, and wider and taller than 10 pixels. */
  predicate Listable(w: RawWindow) {
    w.visible && w.title != "" && w.title != "Program Manager"
    && Sub32(w.rect.right, w.rect.left) > 10 && Sub32(w.rect.bottom, w.rect.top) > 10
  }

  /** The "WxH" size string. */
  function SizeText(width: nat, height: nat): string {
    Decimal(width) + "x" + Decimal(height)
  }

  function Entry(w: RawWindow): WindowInfo
    requires Listable(w)
  {
    WindowInfo(w.title, w.hwnd, SizeText(Sub32(w.rect.right, w.rect.left) as int, Sub32(w.rect.bottom, w.rect.top) as int))
  }

  /** The entry one window contributes: none unless it passes the filter. */
  function EntryOf(w: RawWindow): seq<WindowInfo> {
    if Listable(w) then [Entry(w)] else []
  }

  /** What `f` gives for each item, concatenated in order. */
  function FlatMap<T, U>(f: T -> seq<U>, xs: seq<T>): seq<U>
    decreases |xs|
  {
    if |xs| == 0 then [] else f(xs[0]) + FlatMap(f, xs[1..])
  }

  lemma {:induction false} FlatMapAppend<T, U>(f: T -> seq<U>, xs: seq<T>, x: T)
    ensures FlatMap(f, xs + [x]) == FlatMap(f, xs) + f(x)
    decreases |xs|
  {
    if |xs| == 0 {
      assert xs + [x] == [x];
      assert FlatMap(f, [x]) == f(x) + FlatMap(f, []);
    } else {
      assert (xs + [x])[0] == xs[0];
      assert (xs + [x])[1..] == xs[1..] + [x];
      FlatMapAppend(f, xs[1..], x);
    }
  }

  /** When no item gives more than one value, there are no more values than items. */
  lemma {:induction false} FlatMapShort<T, U>(f: T -> seq<U>, xs: seq<T>)
    requires forall x :: |f(x)| <= 1
    ensures |FlatMap(f, xs)| <= |xs|
    decreases |xs|
  {
    if |xs| > 0 {
      FlatMapShort(f, xs[1..]);
    }
  }

  /** The list `enumWindows` builds from the windows in enumeration order. */
  function Listed(raw: seq<RawWindow>): (list: seq<WindowInfo>)
    ensures |list| <= |raw|
  {
    FlatMapShort(EntryOf, raw);
    FlatMap(EntryOf, raw)
  }

  lemma ListedAppend(raw: seq<RawWindow>, w: RawWindow)
    ensures Listed(raw + [w]) == Listed(raw) + EntryOf(w)
  {
    FlatMapAppend(EntryOf, raw, w);
  }

  /**
   * Every entry of the list is a listable window, and every listable
   * window has an entry (the order is `ListedAppend`'s).
   */
  lemma {:induction false} ListedExactly(raw: seq<RawWindow>)
    ensures forall e :: e in Listed(raw) ==> exists w :: w in raw && Listable(w) && e == Entry(w)
    ensures forall w :: w in raw && Listable(w) ==> Entry(w) in Listed(raw)
  {
    if |raw| > 0 {
      ListedExactly(raw[1..]);
      assert Listed(raw) == EntryOf(raw[0]) + Listed(raw[1..]);
      assert forall w :: w in raw ==> w == raw[0] || w in raw[1..];
    }
  }

  /** The size string splits at its 'x' into two numbers that read back as the window's width and height. */
  lemma SizeReadsBack(width: nat, height: nat)
    requires width <= MaxInt64 && height <= MaxInt64
    ensures Split(SizeText(width, height), 'x') == [Decimal(width), Decimal(height)]
    ensures GoAtoi(Decimal(width)) == Some(width) && GoAtoi(Decimal(height)) == Some(height)
  {
    var a := Decimal(width);
    var c := Decimal(height);
    assert 'x' !in a && 'x' !in c by {
      assert forall k :: 0 <= k < |a| ==> IsDigit(a[k]);
      assert forall k :: 0 <= k < |c| ==> IsDigit(c[k]);
    }
    assert SizeText(width, height) == a + ['x'] + c;
    SplitAfter(a, c, 'x');
    GoAtoiRoundTrip(width);
    GoAtoiRoundTrip(height);
  }

  lemma {:induction false} SplitAfter(a: string, b: string, sep: char)
    requires sep !in a && sep !in b
    ensures Split(a + [sep] + b, sep) == [a, b]
    decreases |a|
  {
    if |a| == 0 {
      assert a + [sep] + b == [sep] + b;
      assert ([sep] + b)[1..] == b;
      SplitCount(b, sep);
      SplitJoin(b, sep);
    } else {
      SplitAfter(a[1..], b, sep);
      assert (a + [sep] + b)[1..] == a[1..] + [sep] + b;
      assert [a[0]] + a[1..] == a;
    }
  }

  // ---------------------------------------------------------------- geometry queries

  /**
   * `getMonitorWorkArea`: the work area of the window's monitor when the
   * monitor and its information are available, else the primary screen.
   */
  function MonitorWorkArea(work: Option<Rect32>, screenW: int, screenH: int): (a: Area)
    ensures work.None? ==> a == Area(0, 0, screenW, screenH)
    ensures work.Some? ==> a.left == work.value.left as int && a.top == work.value.top as int
    ensures work.Some? ==> a.width == Sub32(work.value.right, work.value.left) as int
    ensures work.Some? ==> a.height == Sub32(work.value.bottom, work.value.top) as int
  {
    if work.Some? then
      var r := work.value;
      Area(r.left as int, r.top as int, Sub32(r.right, r.left) as int, Sub32(r.bottom, r.top) as int)
    else Area(0, 0, screenW, screenH)
  }

  /** Without monitor information the Go server uses the whole screen, where the Python servers leave 40 pixels for the taskbar. */
  lemma FallbackKeepsTaskbarRow(screenW: int, screenH: int)
    ensures MonitorWorkArea(None, screenW, screenH).height == PyWorkArea(None, screenW, screenH).height + 40
  {
  }

  /** `getWindowVisualBounds`: the frame bounds from the compositor when it answers, else the window rectangle. */
  function VisualBounds(dwm: Option<Rect32>, windowRect: Rect32): (r: Rect32)
    ensures dwm.Some? ==> r == dwm.value
    ensures dwm.None? ==> r == windowRect
  {
    if dwm.Some? then dwm.value else windowRect
  }

  // ---------------------------------------------------------------- calls

  const SwpNoMove: int := 0x0002
  const SwpNoZOrder: int := 0x0004
  const SwpNoActivate: int := 0x0010
  const SwRestore: int := 9

  datatype WinCall =
    | AttachThreadInput(from: nat, to: nat, attach: bool)
    | SetForegroundWindow(hwnd: nat)
    | ShowWindow(hwnd: nat, cmd: int)
    | SetWindowPos(hwnd: nat, x: int, y: int, width: int, height: int, flags: int)

  /**
   * `activateWindow`: foreground and restore, bracketed by attaching to
   * and detaching from the foreground thread when the window belongs to
   * another thread.
   */
  function ActivationCalls(hwnd: nat, fgThread: nat, targetThread: nat): (calls: seq<WinCall>)
    ensures SetForegroundWindow(hwnd) in calls && ShowWindow(hwnd, SwRestore) in calls
    ensures fgThread == targetThread <==> |calls| == 2
    ensures fgThread != targetThread ==>
      calls[0] == AttachThreadInput(fgThread, targetThread, true)
      && calls[|calls| - 1] == AttachThreadInput(fgThread, targetThread, false)
    ensures forall i :: 0 <= i < |calls| && calls[i].SetForegroundWindow? ==>
      exists j :: i < j < |calls| && calls[j] == ShowWindow(hwnd, SwRestore)
  {
    if fgThread != targetThread then
      [AttachThreadInput(fgThread, targetThread, true), SetForegroundWindow(hwnd),
       ShowWindow(hwnd, SwRestore), AttachThreadInput(fgThread, targetThread, false)]
    else [SetForegroundWindow(hwnd), ShowWindow(hwnd, SwRestore)]
  }

  /** The window list of the last enumeration and the window calls made so far. */
  class WindowManager {
    var currentWindowList: seq<WindowInfo>
    var calls: seq<WinCall>

    constructor()
      ensures currentWindowList == [] && calls == []
    {
      currentWindowList := [];
      calls := [];
    }

    /** `enumWindows`: rebuild the list from the windows in enumeration order. */
    method EnumWindows(raw: seq<RawWindow>) returns (list: seq<WindowInfo>)
      modifies this`currentWindowList
      ensures list == currentWindowList == Listed(raw)
    {
      currentWindowList := [];
      var k := 0;
      while k < |raw|
        invariant 0 <= k <= |raw|
        invariant currentWindowList == Listed(raw[..k])
      {
        var w := raw[k];
        ghost var before := currentWindowList;
        ListedAppend(raw[..k], w);
        assert raw[..k + 1] == raw[..k] + [w];
        assert Listed(raw[..k + 1]) == before + EntryOf(w);
        if w.visible && w.title != "" && w.title != "Program Manager" {
          var width := Sub32(w.rect.right, w.rect.left);
          var height := Sub32(w.rect.bottom, w.rect.top);
          if width > 10 && height > 10 {
            var ws := Itoa(width as int);
            var hs := Itoa(height as int);
            currentWindowList := currentWindowList + [WindowInfo(w.title, w.hwnd, Chars(ws) + "x" + Chars(hs))];
            assert Listable(w) && EntryOf(w) == [Entry(w)];
          }
        }
        assert currentWindowList == before + EntryOf(w);
        k := k + 1;
      }
      assert raw[..k] == raw;
      list := currentWindowList;
    }

    /** `activateWindow`. */
    method ActivateWindow(hwnd: nat, fgThread: nat, targetThread: nat)
      modifies this`calls
      ensures calls == old(calls) + ActivationCalls(hwnd, fgThread, targetThread)
    {
      if fgThread != targetThread {
        calls := calls + [AttachThreadInput(fgThread, targetThread, true)];
        calls := calls + [SetForegroundWindow(hwnd)];
        calls := calls + [ShowWindow(hwnd, SwRestore)];
        calls := calls + [AttachThreadInput(fgThread, targetThread, false)];
      } else {
        calls := calls + [SetForegroundWindow(hwnd)];
        calls := calls + [ShowWindow(hwnd, SwRestore)];
      }
    }

    /** `resizeWindow`: new size, position and z-order kept, not activated. */
    method ResizeWindow(hwnd: nat, width: int, height: int)
      modifies this`calls
      ensures calls == old(calls) + [SetWindowPos(hwnd, 0, 0, width, height, SwpNoMove + SwpNoZOrder + SwpNoActivate)]
    {
      calls := calls + [SetWindowPos(hwnd, 0, 0, width, height, SwpNoMove + SwpNoZOrder + SwpNoActivate)];
    }

    /** `moveAndResizeWindow`: new position and size, z-order kept, not activated. */
    method MoveAndResizeWindow(hwnd: nat, x: int, y: int, width: int, height: int)
      modifies this`calls
      ensures calls == old(calls) + [SetWindowPos(hwnd, x, y, width, height, SwpNoZOrder + SwpNoActivate)]
    {
      calls := calls + [SetWindowPos(hwnd, x, y, width, height, SwpNoZOrder + SwpNoActivate)];
    }
  }
}
