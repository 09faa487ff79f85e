/**
 * The WebRTC video side of the legacy server: the screen track that turns
 * whatever the capture function returns (nothing, a BGR numpy array or a
 * PIL image) into a three-channel video frame, with a black 480x640 frame
 * whenever there is nothing to show, and the manager that keeps the set of
 * open peer connections and hands its capture function to every new track.
 * SDP and ICE negotiation are not part of this model.
 */
module WebRtc {
  import opened Common
  import RtcAudio

  /**
   * A numpy image: `depth` is None for a 2-D (grey) array and the size of
   * the third axis otherwise; `data` holds the values of each pixel in
   * row-major order.
   */
  datatype Pixels = Pixels(height: nat, width: nat, depth: Option<nat>, data: seq<seq<int>>)

  /** Every pixel has one value per channel, and one value in a 2-D array. */
  predicate Shaped(a: Pixels) {
    forall i :: 0 <= i < |a.data| ==> |a.data[i]| == (if a.depth.None? then 1 else a.depth.value)
  }

  /** Exactly three values per pixel, which is what a `bgr24` or `rgb24` frame holds. */
  predicate ThreeChannel(a: Pixels) {
    a.depth == Some(3) && forall i :: 0 <= i < |a.data| ==> |a.data[i]| == 3
  }

  /** The dimensionality fix of both paths: a 2-D array is stacked three times, four channels are cut to the first three, anything else is kept. */
  function Normalise(a: Pixels): (r: Pixels)
    requires Shaped(a)
    ensures r.height == a.height && r.width == a.width && |r.data| == |a.data|
    ensures a.depth.None? ==> ThreeChannel(r) && forall i :: 0 <= i < |a.data| ==> r.data[i] == [a.data[i][0], a.data[i][0], a.data[i][0]]
    ensures a.depth == Some(4) ==> ThreeChannel(r) && forall i :: 0 <= i < |a.data| ==> r.data[i] == a.data[i][..3]
    ensures a.depth.Some? && a.depth != Some(4) ==> r == a
    ensures ThreeChannel(r) <==> a.depth.None? || a.depth == Some(3) || a.depth == Some(4)
  {
    match a.depth
    case None =>
      Pixels(a.height, a.width, Some(3), seq(|a.data|, i requires 0 <= i < |a.data| => [a.data[i][0], a.data[i][0], a.data[i][0]]))
    case Some(d) =>
      if d == 4 then Pixels(a.height, a.width, Some(3), seq(|a.data|, i requires 0 <= i < |a.data| => a.data[i][..3]))
      else a
  }

  /** Normalising twice is normalising once. */
  lemma NormaliseIdempotent(a: Pixels)
    requires Shaped(a)
    ensures Shaped(Normalise(a)) && Normalise(Normalise(a)) == Normalise(a)
  {
  }

  /** An `av.VideoFrame` as far as the client sees it. */
  datatype VideoFrame = VideoFrame(format: string, height: nat, width: nat, data: seq<seq<int>>, pts: int)

  /** `VideoFrame.from_ndarray` for a 24-bit format: it accepts only arrays of three channels, and raises otherwise (None). */
  function FromNdarray(a: Pixels, format: string, pts: int): (r: Option<VideoFrame>)
    ensures r.Some? <==> a.depth == Some(3)
    ensures r.Some? ==> r.value == VideoFrame(format, a.height, a.width, a.data, pts)
  {
    if a.depth == Some(3) then Some(VideoFrame(format, a.height, a.width, a.data, pts)) else None
  }

  /** `np.zeros((480, 640, 3))` as a frame of the given format. */
  function Black(format: string, pts: int): (f: VideoFrame)
    ensures f.format == format && f.pts == pts && f.height == 480 && f.width == 640
    ensures |f.data| == 480 * 640 && forall i :: 0 <= i < |f.data| ==> f.data[i] == [0, 0, 0]
  {
    VideoFrame(format, 480, 640, seq(480 * 640, _ => [0, 0, 0]), pts)
  }

  /**
   * What the capture function returned; `Raised` is a call that raised, or
   * whose result does not unpack into a (screenshot, title) pair.
   */
  datatype Screenshot = NoShot | Ndarray(a: Pixels) | Pil(a: Pixels) | Raised

  predicate ShotShaped(s: Screenshot) {
    s.NoShot? || s.Raised? || Shaped(s.a)
  }

  /**
   * The frame `recv` makes of a screenshot: black `bgr24` for none, the
   * normalised array as `bgr24` or the normalised image as `rgb24`, and
   * the black `rgb24` frame of the error path when the capture function
   * raised or the array still has no three channels.
   */
  function FrameFor(shot: Screenshot, pts: int): (f: VideoFrame)
    requires ShotShaped(shot)
  {
    match shot
    case NoShot => Black("bgr24", pts)
    case Raised => Black("rgb24", pts)
    case Ndarray(a) =>
      (match FromNdarray(Normalise(a), "bgr24", pts)
       case Some(f) => f
       case None => Black("rgb24", pts))
    case Pil(a) =>
      (match FromNdarray(Normalise(a), "rgb24", pts)
       case Some(f) => f
       case None => Black("rgb24", pts))
  }

  /**
   * Every frame carries the pts it was given and three values per pixel;
   * arrays are sent as BGR and PIL images as RGB whenever they can be
   * normalised, with their own pixels; the rest is black.
   */
  lemma FrameForFormats(shot: Screenshot, pts: int)
    requires ShotShaped(shot)
    ensures var f := FrameFor(shot, pts);
      f.pts == pts && forall i :: 0 <= i < |f.data| ==> |f.data[i]| == 3
    ensures var f := FrameFor(shot, pts);
      shot.NoShot? ==> f == Black("bgr24", pts)
    ensures var f := FrameFor(shot, pts);
      shot.Raised? ==> f == Black("rgb24", pts)
    ensures var f := FrameFor(shot, pts);
      (shot.Ndarray? || shot.Pil?) && ThreeChannel(Normalise(shot.a)) ==>
        f.format == (if shot.Ndarray? then "bgr24" else "rgb24") && f.data == Normalise(shot.a).data
        && f.height == shot.a.height && f.width == shot.a.width
    ensures var f := FrameFor(shot, pts);
      (shot.Ndarray? || shot.Pil?) && !ThreeChannel(Normalise(shot.a)) ==> f == Black("rgb24", pts)
  {
    if shot.Ndarray? || shot.Pil? {
      var n := Normalise(shot.a);
      if shot.a.depth.Some? && shot.a.depth.value != 3 && shot.a.depth.value != 4 {
        assert !ThreeChannel(n);
      }
    }
  }

  /** The fallback without a capture function: the screen grab's first three channels, reversed (BGRA to RGB), as `rgb24`. */
  function ScreenFrame(raw: Pixels, pts: int): (f: VideoFrame)
    requires Shaped(raw)
    ensures f.pts == pts && f.format == "rgb24"
    ensures raw.depth.Some? && raw.depth.value >= 3 ==> f.height == raw.height && f.width == raw.width && |f.data| == |raw.data|
    ensures raw.depth.Some? && raw.depth.value >= 3 ==>
      forall i :: 0 <= i < |raw.data| ==> f.data[i] == [raw.data[i][2], raw.data[i][1], raw.data[i][0]]
    ensures !(raw.depth.Some? && raw.depth.value >= 3) ==> f == Black("rgb24", pts)
  {
    if raw.depth.Some? && raw.depth.value >= 3 then
      VideoFrame("rgb24", raw.height, raw.width,
        seq(|raw.data|, i requires 0 <= i < |raw.data| => [raw.data[i][2], raw.data[i][1], raw.data[i][0]]), pts)
    else Black("rgb24", pts)
  }

  /** `ScreenCaptureTrack`; the capture function is known by an identifier. */
  class ScreenCaptureTrack {
    const fps: int
    const clientDims: Option<(int, int)>
    var frameCount: nat
    var captureFn: Option<nat>

    constructor(fps: int := 30, clientDims: Option<(int, int)> := None)
      ensures this.fps == fps && this.clientDims == clientDims && frameCount == 0 && captureFn.None?
    {
      this.fps := fps;
      this.clientDims := clientDims;
      frameCount := 0;
      captureFn := None;
    }

    method SetCaptureFunction(fn: nat)
      modifies this
      ensures captureFn == Some(fn) && frameCount == old(frameCount)
    {
      captureFn := Some(fn);
    }

    /**
     * `recv`: `timestamp` is the pts `next_timestamp` gives (None when it
     * raises), `shot` what the capture function returns (`Raised` when the
     * call fails) and `screen` what the screen grab returns.  Only a recv
     * that got its timestamp counts, including one whose capture then fails.
     */
    method Recv(timestamp: Option<int>, shot: Screenshot, screen: Pixels) returns (f: VideoFrame)
      requires ShotShaped(shot) && Shaped(screen)
      modifies this
      ensures frameCount == old(frameCount) + (if timestamp.Some? then 1 else 0)
      ensures timestamp.None? ==> f == Black("rgb24", 0)
      ensures timestamp.Some? && captureFn.Some? ==> f == FrameFor(shot, timestamp.value)
      ensures timestamp.Some? && captureFn.None? ==> f == ScreenFrame(screen, timestamp.value)
      ensures timestamp.Some? && captureFn.Some? && shot.Raised? ==> f == Black("rgb24", timestamp.value)
      ensures captureFn == old(captureFn)
    {
      if timestamp.None? {
        return Black("rgb24", 0);
      }
      var pts := timestamp.value;
      frameCount := frameCount + 1;
      if captureFn.None? {
        return ScreenFrame(screen, pts);
      }
      f := FrameFor(shot, pts);
    }
  }

  /** `WebRTCManager`: open peer connections are known by an identifier, handed out in order. */
  class WebRtcManager {
    var pcs: set<nat>
    var captureFn: Option<nat>
    /** The identifier the next peer connection gets, and the ones closed so far. */
    var nextPc: nat
    var closed: set<nat>

    predicate Valid()
      reads this
    {
      forall p :: p in pcs ==> p < nextPc
    }

    constructor()
      ensures Valid() && pcs == {} && captureFn.None? && closed == {}
    {
      pcs := {};
      captureFn := None;
      nextPc := 0;
      closed := {};
    }

    method SetCaptureFunction(fn: nat)
      modifies this
      ensures captureFn == Some(fn) && pcs == old(pcs) && nextPc == old(nextPc) && closed == old(closed)
    {
      captureFn := Some(fn);
    }

    /**
     * `handle_offer` up to the negotiation: a new peer connection joins
     * the set, and gets a video track that has the manager's capture
     * function only when the manager has one, and an audio track when
     * audio is available.
     */
    method HandleOffer(fps: int, clientDims: Option<(int, int)>, audioAvailable: bool)
      returns (pc: nat, video: ScreenCaptureTrack, audio: RtcAudio.SystemAudioTrack?)
      requires Valid()
      modifies this
      ensures Valid()
      ensures pc == old(nextPc) && pc !in old(pcs) && pcs == old(pcs) + {pc}
      ensures fresh(video) && video.fps == fps && video.clientDims == clientDims && video.frameCount == 0
      ensures video.captureFn == captureFn
      ensures audio == null <==> !audioAvailable
      ensures audio != null ==> fresh(audio) && audio.running && audio.timestamp == 0
      ensures captureFn == old(captureFn) && closed == old(closed)
    {
      pc := nextPc;
      nextPc := nextPc + 1;
      pcs := pcs + {pc};
      video := new ScreenCaptureTrack(fps, clientDims);
      if captureFn.Some? {
        video.SetCaptureFunction(captureFn.value);
      }
      audio := RtcAudio.GetAudioTrack(audioAvailable);
    }

    /** `cleanup_pc`: discard the connection from the set and close it. */
    method CleanupPc(pc: nat)
      requires Valid()
      modifies this
      ensures Valid()
      ensures pcs == old(pcs) - {pc} && closed == old(closed) + {pc}
      ensures nextPc == old(nextPc) && captureFn == old(captureFn)
    {
      pcs := pcs - {pc};
      closed := closed + {pc};
    }

    /** `shutdown`: close every open connection and empty the set. */
    method Shutdown()
      requires Valid()
      modifies this
      ensures Valid()
      ensures pcs == {} && closed == old(closed) + old(pcs)
      ensures nextPc == old(nextPc) && captureFn == old(captureFn)
    {
      closed := closed + pcs;
      pcs := {};
    }
  }
}
