/**
 * Frames of the Go server: the GDI screen capture (which rectangle is
 * grabbed, when nothing is returned, and the BGRA-to-RGBA conversion of
 * the pixel bytes), the similarity test that drops a frame when it
 * hardly differs from the last one sent, and the growing buffer the JPEG
 * encoder writes into.
 */
module GoFrames {
  import opened Common
  import opened Geometry
  import opened GoWindow

  /** An RGBA picture: its bounds and its bytes, four per pixel, row by row. */
  datatype Image = Image(rect: Rect, pix: seq<byte>)

  /** The screen metrics `captureScreen` reads. */
  datatype Screen = Screen(virtualLeft: i32, virtualTop: i32, virtualWidth: i32, virtualHeight: i32,
                           primaryWidth: i32, primaryHeight: i32)

  /** The region `captureScreen` copies: its top-left corner and size. */
  datatype Region = Region(x: i32, y: i32, w: i32, h: i32)

  /**
   * The region grabbed: the target when it is not degenerate, else the
   * virtual screen, or the primary screen when the virtual screen reports
   * no size.
   */
  function GrabRegion(target: Rect32, s: Screen): (g: Region)
    ensures target.right > target.left && target.bottom > target.top ==>
      g == Region(target.left, target.top, Sub32(target.right, target.left), Sub32(target.bottom, target.top))
    ensures !(target.right > target.left && target.bottom > target.top) && s.virtualWidth != 0 && s.virtualHeight != 0 ==>
      g == Region(s.virtualLeft, s.virtualTop, s.virtualWidth, s.virtualHeight)
    ensures !(target.right > target.left && target.bottom > target.top) && (s.virtualWidth == 0 || s.virtualHeight == 0) ==>
      g == Region(0, 0, s.primaryWidth, s.primaryHeight)
  {
    if target.right > target.left && target.bottom > target.top then
      Region(target.left, target.top, Sub32(target.right, target.left), Sub32(target.bottom, target.top))
    else if s.virtualWidth == 0 || s.virtualHeight == 0 then Region(0, 0, s.primaryWidth, s.primaryHeight)
    else Region(s.virtualLeft, s.virtualTop, s.virtualWidth, s.virtualHeight)
  }

  /** A window rectangle is grabbed at its own corner with its own size unless the subtraction wraps. */
  lemma WindowRegion(target: Rect32, s: Screen)
    requires target.right > target.left && target.bottom > target.top
    requires target.right as int - target.left as int < 0x8000_0000 && target.bottom as int - target.top as int < 0x8000_0000
    ensures var g := GrabRegion(target, s);
      g.x == target.left && g.y == target.top && g.w > 0 && g.h > 0
      && AsRect(target) == Rect(g.x as int, g.y as int, g.x as int + g.w as int, g.y as int + g.h as int)
  {
  }

  /** Byte k of the RGBA conversion: red and blue swap places, green stays, alpha is opaque. */
  function RgbaByte(bgra: seq<byte>, k: nat): byte
    requires |bgra| % 4 == 0 && k < |bgra|
  {
    if k % 4 == 0 then bgra[k + 2]
    else if k % 4 == 1 then bgra[k]
    else if k % 4 == 2 then bgra[k - 2]
    else 255
  }

  /** The RGBA bytes of a BGRA bitmap. */
  function ToRgba(bgra: seq<byte>): (rgba: seq<byte>)
    requires |bgra| % 4 == 0
    ensures |rgba| == |bgra|
    ensures forall k :: 0 <= k < |bgra| ==> rgba[k] == RgbaByte(bgra, k)
  {
    seq(|bgra|, k requires 0 <= k < |bgra| => RgbaByte(bgra, k))
  }

  /** Converting is lossless for colour: swapping red and blue back gives the bitmap's colours, and every pixel is opaque. */
  lemma ToRgbaKeepsColours(bgra: seq<byte>, p: nat)
    requires |bgra| % 4 == 0 && 4 * p + 3 < |bgra|
    ensures var rgba := ToRgba(bgra);
      rgba[4 * p] == bgra[4 * p + 2] && rgba[4 * p + 1] == bgra[4 * p + 1]
      && rgba[4 * p + 2] == bgra[4 * p] && rgba[4 * p + 3] == 255
  {
    assert (4 * p) % 4 == 0 && (4 * p + 1) % 4 == 1 && (4 * p + 2) % 4 == 2 && (4 * p + 3) % 4 == 3;
  }

  /** The bytes GetDIBits writes for a `w` by `h` bitmap, four per pixel. */
  function DibBytes(w: int, h: int, bitmap: int -> byte): (b: seq<byte>)
    requires w > 0 && h > 0
    ensures |b| == w * h * 4 && |b| % 4 == 0
    ensures forall k :: 0 <= k < |b| ==> b[k] == bitmap(k)
  {
    var n: nat := w * h;
    seq(n * 4, k => bitmap(k))
  }

  /**
   * What `captureScreen` returns: the picture of the grab rectangle and its
   * top-left corner; nothing (at the origin) when the rectangle has no area
   * or the bitmap cannot be read.  `bitmap` gives the byte GetDIBits writes
   * at each offset.
   */
  function Captured(target: Rect32, s: Screen, dibOk: bool, bitmap: int -> byte): (r: (Option<Image>, int, int))
    ensures var g := GrabRegion(target, s);
      r.0.Some? <==> g.w > 0 && g.h > 0 && dibOk
    ensures r.0.None? ==> r.1 == 0 && r.2 == 0
    ensures r.0.Some? ==> var g := GrabRegion(target, s);
      && r.1 == g.x as int && r.2 == g.y as int
      && r.0.value.rect == Rect(0, 0, g.w as int, g.h as int)
      && r.0.value.pix == ToRgba(DibBytes(g.w as int, g.h as int, bitmap))
  {
    var g := GrabRegion(target, s);
    if g.w > 0 && g.h > 0 && dibOk then
      (Some(Image(Rect(0, 0, g.w as int, g.h as int), ToRgba(DibBytes(g.w as int, g.h as int, bitmap)))), g.x as int, g.y as int)
    else (None, 0, 0)
  }

  /** `captureScreen`: copy the grab rectangle out of the screen and convert it to RGBA. */
  method CaptureScreen(target: Rect32, s: Screen, dibOk: bool, bitmap: int -> byte)
    returns (img: Option<Image>, originX: int, originY: int)
    ensures (img, originX, originY) == Captured(target, s, dibOk, bitmap)
  {
    var g := GrabRegion(target, s);
    var x, y, w, h := g.x, g.y, g.w, g.h;
    if w <= 0 || h <= 0 {
      return None, 0, 0;
    }
    var pixelData := DibBytes(w as int, h as int, bitmap);
    if !dibOk {
      return None, 0, 0;
    }
    var pix := ConvertToRgba(pixelData);
    img := Some(Image(Rect(0, 0, w as int, h as int), pix));
    originX, originY := x as int, y as int;
  }

  /** The conversion loop of `captureScreen`, four bytes at a time into a fresh buffer. */
  method ConvertToRgba(pixelData: seq<byte>) returns (rgba: seq<byte>)
    requires |pixelData| % 4 == 0
    ensures rgba == ToRgba(pixelData)
  {
    var n := |pixelData|;
    var pix := new byte[n];
    var i := 0;
    while i < n
      invariant 0 <= i <= n && i % 4 == 0
      invariant forall k :: 0 <= k < i ==> pix[k] == RgbaByte(pixelData, k)
    {
      pix[i] := pixelData[i + 2];
      pix[i + 1] := pixelData[i + 1];
      pix[i + 2] := pixelData[i];
      pix[i + 3] := 255;
      i := i + 4;
    }
    rgba := pix[..];
  }

  // ---------------------------------------------------------------- similarity

  /** Bytes between two sampled offsets. */
  const SampleStep: nat := 32

  /** How many of the sampled offsets below n (multiples of 32) hold different bytes. */
  function SampledDiffs(a: seq<byte>, b: seq<byte>, n: nat): nat
    requires n <= |a| == |b|
  {
    if n == 0 then 0
    else SampledDiffs(a, b, n - 1) + (if (n - 1) % SampleStep == 0 && a[n - 1] != b[n - 1] then 1 else 0)
  }

  /** The tolerated number of differing samples: half a percent of the samples. */
  function Tolerance(len: nat): nat {
    (len / SampleStep) / 200
  }

  /** `framesAreSimilar`: same bounds and size, and equal bytes or few enough differing samples. */
  predicate Similar(a: Image, b: Image) {
    a.rect == b.rect && |a.pix| == |b.pix|
    && (a.pix == b.pix || SampledDiffs(a.pix, b.pix, |a.pix|) <= Tolerance(|a.pix|))
  }

  /** The offsets between two samples add nothing to the count. */
  lemma {:induction false} SampledDiffsBetween(a: seq<byte>, b: seq<byte>, i: nat, m: nat)
    requires i % SampleStep == 0 && i < m <= i + SampleStep && m <= |a| == |b|
    ensures SampledDiffs(a, b, m) == SampledDiffs(a, b, i) + (if a[i] != b[i] then 1 else 0)
    decreases m
  {
    if m > i + 1 {
      SampledDiffsBetween(a, b, i, m - 1);
      NotSampled(i, m - 1);
    }
  }

  /** Only the first offset of each run of `SampleStep` is sampled. */
  lemma NotSampled(i: nat, j: nat)
    requires i % SampleStep == 0 && i < j < i + SampleStep
    ensures j % SampleStep != 0
  {
    var q := i / SampleStep;
    assert j == SampleStep * q + (j - i);
  }

  lemma {:induction false} SampledDiffsGrow(a: seq<byte>, b: seq<byte>, m: nat, n: nat)
    requires m <= n <= |a| == |b|
    ensures SampledDiffs(a, b, m) <= SampledDiffs(a, b, n)
    decreases n
  {
    if m < n {
      SampledDiffsGrow(a, b, m, n - 1);
    }
  }

  /** `framesAreSimilar` itself: stops at the first sample that goes over the tolerance. */
  method FramesAreSimilar(a: Image, b: Image) returns (similar: bool)
    ensures similar == Similar(a, b)
  {
    if a.rect != b.rect {
      return false;
    }
    if |a.pix| != |b.pix| {
      return false;
    }
    if a.pix == b.pix {
      return true;
    }
    var diffCount := 0;
    var samples := 0;
    var threshold := (|a.pix| / SampleStep) / 200;
    var i := 0;
    ghost var step := 0;
    while i < |a.pix|
      invariant i == SampleStep * step && i <= |a.pix| + SampleStep - 1
      invariant diffCount == SampledDiffs(a.pix, b.pix, Min(i, |a.pix|))
      invariant diffCount <= threshold
      decreases |a.pix| - i
    {
      samples := samples + 1;
      SampledDiffsBetween(a.pix, b.pix, i, Min(i + SampleStep, |a.pix|));
      if a.pix[i] != b.pix[i] {
        diffCount := diffCount + 1;
        if diffCount > threshold {
          SampledDiffsGrow(a.pix, b.pix, Min(i + SampleStep, |a.pix|), |a.pix|);
          return false;
        }
      }
      i := i + SampleStep;
      step := step + 1;
    }
    return true;
  }

  /** A frame is always similar to itself, so an unchanged screen is never sent twice. */
  lemma SameFrameIsSimilar(a: Image)
    ensures Similar(a, a)
  {
  }

  /** Sampling sees only every 32nd byte: frames that differ elsewhere alone are judged similar. */
  lemma {:induction false} UnsampledChangesUnseen(a: Image, b: Image)
    requires a.rect == b.rect && |a.pix| == |b.pix|
    requires forall k :: 0 <= k < |a.pix| && k % SampleStep == 0 ==> a.pix[k] == b.pix[k]
    ensures Similar(a, b)
  {
    NoSampledDiffs(a.pix, b.pix, |a.pix|);
  }

  lemma {:induction false} NoSampledDiffs(a: seq<byte>, b: seq<byte>, n: nat)
    requires n <= |a| == |b|
    requires forall k :: 0 <= k < n && k % SampleStep == 0 ==> a[k] == b[k]
    ensures SampledDiffs(a, b, n) == 0
  {
    if n > 0 {
      NoSampledDiffs(a, b, n - 1);
    }
  }

  /** Below 6400 bytes (1600 pixels) nothing is tolerated: one differing sample makes a new frame. */
  lemma {:induction false} SmallFramesShowEveryChange(a: Image, b: Image, k: nat)
    requires a.rect == b.rect && |a.pix| == |b.pix| < 6400
    requires k < |a.pix| && k % SampleStep == 0 && a.pix[k] != b.pix[k]
    ensures !Similar(a, b)
  {
    SampledDiffsBetween(a.pix, b.pix, k, k + 1);
    SampledDiffsGrow(a.pix, b.pix, k + 1, |a.pix|);
  }

  // ---------------------------------------------------------------- encoder output

  /** The `io.Writer` the JPEG encoder writes into: every write is appended whole. */
  class BufWriter {
    var buf: seq<byte>

    constructor()
      ensures buf == []
    {
      buf := [];
    }

    method Write(p: seq<byte>) returns (n: int, err: Option<string>)
      modifies this
      ensures buf == old(buf) + p && n == |p| && err.None?
    {
      buf := buf + p;
      return |p|, None;
    }
  }
}
