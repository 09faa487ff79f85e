/**
 * The frame encoders of the legacy Python server: the priority chain
 * NVENC > FFmpeg H.264 > JPEG, the FFmpeg process that is started for the
 * picture size and restarted when it changes, the JPEG bytes every
 * encoder actually returns for now, and the module-wide encoder manager.
 * Encoded bytes are symbolic: a JPEG records the picture and quality it
 * was made from.
 */
module Encoders {
  import opened Common
  import opened Text

  /** A PIL image as far as the encoders look at it: its size and mode. */
  datatype Picture = Picture(width: int, height: int, mode: string)

  /** Encoded frame bytes, by what they contain. */
  datatype Encoded = Jpeg(source: Picture, quality: nat) | H264(source: Picture)

  /** The format a client has to decode the bytes with. */
  function FormatOf(e: Encoded): string {
    match e
    case Jpeg(_, _) => "jpeg"
    case H264(_) => "h264"
  }

  /** `image.convert('RGB')` unless the image already is RGB. */
  function AsRgb(p: Picture): (q: Picture)
    ensures q.mode == "RGB" && q.width == p.width && q.height == p.height
    ensures p.mode == "RGB" ==> q == p
  {
    if p.mode == "RGB" then p else Picture(p.width, p.height, "RGB")
  }

  /** The default JPEG quality, used by `JPEGEncoder()`, NVENC's fallback and FFmpeg's fallback. */
  const DefaultQuality: nat := 85

  /** `JPEGEncoder.encode`: the picture saved as JPEG at the encoder's quality. */
  function JpegEncode(p: Picture, quality: nat): (e: Encoded)
    ensures e.Jpeg? && e.source == p && e.quality == quality && FormatOf(e) == "jpeg"
  {
    Jpeg(p, quality)
  }

  // ---------------------------------------------------------------- selection

  datatype EncoderKind = Nvenc | FfmpegH264 | JpegOnly

  /** What is known when the manager is created: an NVIDIA device, ffmpeg on PATH, and the output of `ffmpeg -encoders` (None when running it raised). */
  datatype Probe = Probe(nvidia: bool, ffmpeg: bool, encoderList: Option<string>)

  predicate NvencListed(p: Probe) {
    p.encoderList.Some? && Contains(p.encoderList.value, "h264_nvenc")
  }

  /** `_detect_best_encoder`. */
  function DetectBest(p: Probe): (k: EncoderKind)
    ensures k == Nvenc <==> p.nvidia && p.ffmpeg && NvencListed(p)
    ensures k == FfmpegH264 <==> p.ffmpeg && !(p.nvidia && NvencListed(p))
    ensures k == JpegOnly <==> !p.ffmpeg
  {
    if p.nvidia && p.ffmpeg && NvencListed(p) then Nvenc
    else if p.ffmpeg then FfmpegH264
    else JpegOnly
  }

  /** A better encoder is never passed over: each one is chosen whenever it is available and no better one is. */
  lemma DetectPrefersBest(p: Probe)
    ensures DetectBest(p) == JpegOnly ==> !p.ffmpeg
    ensures DetectBest(p) != Nvenc ==> !(p.nvidia && p.ffmpeg && NvencListed(p))
    ensures p.ffmpeg ==> DetectBest(p) != JpegOnly
    ensures !p.nvidia || p.encoderList.None? ==> DetectBest(p) != Nvenc
  {
  }

  /** The `name` property. */
  function Name(k: EncoderKind): string {
    match k
    case Nvenc => "NVENC"
    case FfmpegH264 => "FFmpeg H.264"
    case JpegOnly => "JPEG"
  }

  /** The `format_type` property as written: FFmpeg announces H.264 although it returns JPEG bytes. */
  function FormatTypeAsWritten(k: EncoderKind): string {
    match k
    case Nvenc => "jpeg"
    case FfmpegH264 => "h264"
    case JpegOnly => "jpeg"
  }

  /** What each encoder returns for a picture: a JPEG at quality 85, FFmpeg's of the RGB conversion. */
  function Output(k: EncoderKind, p: Picture): (e: Encoded)
    ensures e.Jpeg? && e.quality == DefaultQuality
    ensures e.source.width == p.width && e.source.height == p.height
  {
    if k == FfmpegH264 then JpegEncode(AsRgb(p), DefaultQuality) else JpegEncode(p, DefaultQuality)
  }

  /** The `format_type` as evidently intended: the format of the bytes the encoder returns, as NVENC already does. */
  function FormatType(k: EncoderKind): (f: string)
    ensures forall p :: f == FormatOf(Output(k, p))
  {
    "jpeg"
  }

  /** As written, the FFmpeg encoder labels its JPEG bytes "h264"; the other two label them correctly. */
  lemma FfmpegLabelMismatch(p: Picture)
    ensures FormatTypeAsWritten(FfmpegH264) != FormatOf(Output(FfmpegH264, p))
    ensures FormatTypeAsWritten(Nvenc) == FormatOf(Output(Nvenc, p)) == FormatType(Nvenc)
    ensures FormatTypeAsWritten(JpegOnly) == FormatOf(Output(JpegOnly, p)) == FormatType(JpegOnly)
  {
  }

  // ---------------------------------------------------------------- FFmpeg process

  /** A running `ffmpeg` encoding raw RGB frames of a fixed size and rate; `frames` are the pictures written to its stdin. */
  datatype Process = Process(width: int, height: int, fps: int, frames: seq<Picture>)

  /** `FFmpegEncoder`: the size it was last started for and its process, if any. */
  class FfmpegEncoder {
    var width: int
    var height: int
    const fps: int
    var process: Option<Process>
    /** How many processes have been started. */
    var launches: nat

    /** A running process was started for the current size. */
    predicate Valid()
      reads this
    {
      process.Some? ==> process.value.width == width && process.value.height == height && process.value.fps == fps
    }

    constructor(width: int := 1920, height: int := 1080, fps: int := 30)
      ensures Valid()
      ensures this.width == width && this.height == height && this.fps == fps
      ensures process.None? && launches == 0
    {
      this.width := width;
      this.height := height;
      this.fps := fps;
      process := None;
      launches := 0;
    }

    /** `cleanup`: close, terminate and forget the process; any error on the way is ignored. */
    method Cleanup()
      modifies this
      ensures Valid() && process.None?
      ensures width == old(width) && height == old(height) && launches == old(launches)
    {
      if process.Some? {
        process := None;
      }
    }

    /** `_ensure_process`: a process for this size, kept when the size is unchanged and restarted when it differs. */
    method EnsureProcess(w: int, h: int)
      requires Valid()
      modifies this
      ensures Valid()
      ensures process.Some? && width == w && height == h
      ensures process.value.width == w && process.value.height == h && process.value.fps == fps
      ensures old(process).Some? && old(width) == w && old(height) == h ==> process == old(process) && launches == old(launches)
      ensures !(old(process).Some? && old(width) == w && old(height) == h) ==> process.value.frames == [] && launches == old(launches) + 1
    {
      if process.Some? && (width != w || height != h) {
        Cleanup();
      }
      if process.None? {
        width := w;
        height := h;
        process := Some(Process(w, h, fps, []));
        launches := launches + 1;
      }
    }

    /**
     * `encode`: the process is made ready for the picture's size, the RGB
     * bytes are written to it (`pipeOk` is whether the write succeeds),
     * and on either path a JPEG of the RGB picture is returned.
     */
    method Encode(p: Picture, pipeOk: bool) returns (e: Encoded)
      requires Valid()
      modifies this
      ensures Valid()
      ensures e == Output(FfmpegH264, p)
      ensures process.Some? && width == p.width && height == p.height
      ensures pipeOk ==> |process.value.frames| >= 1 && process.value.frames[|process.value.frames| - 1] == AsRgb(p)
      ensures var kept := old(process).Some? && old(width) == p.width && old(height) == p.height;
        && process.value.frames == (if kept then old(process).value.frames else []) + (if pipeOk then [AsRgb(p)] else [])
        && launches == old(launches) + (if kept then 0 else 1)
    {
      EnsureProcess(p.width, p.height);
      var rgb := AsRgb(p);
      if pipeOk {
        process := Some(process.value.(frames := process.value.frames + [rgb]));
      }
      e := JpegEncode(rgb, DefaultQuality);
    }
  }

  // ---------------------------------------------------------------- manager

  /** `EncoderManager`: the encoder chosen at creation, and the FFmpeg instance when that is the one. */
  class EncoderManager {
    const kind: EncoderKind
    const ffmpeg: FfmpegEncoder?

    predicate Valid()
      reads ffmpeg
    {
      && (kind == FfmpegH264 <==> ffmpeg != null)
      && (ffmpeg != null ==> ffmpeg.Valid())
    }

    constructor(probe: Probe)
      ensures kind == DetectBest(probe) && Valid()
      ensures ffmpeg != null ==> fresh(ffmpeg) && ffmpeg.process.None? && ffmpeg.width == 1920 && ffmpeg.height == 1080 && ffmpeg.fps == 30
    {
      kind := DetectBest(probe);
      if DetectBest(probe) == FfmpegH264 {
        ffmpeg := new FfmpegEncoder();
      } else {
        ffmpeg := null;
      }
    }

    /**
     * `encode`: the active encoder's bytes and the format label the encoder
     * reports, which for FFmpeg does not name the format of the bytes.
     */
    method Encode(p: Picture, pipeOk: bool) returns (data: Encoded, format: string)
      requires Valid()
      modifies ffmpeg
      ensures Valid()
      ensures data == Output(kind, p)
      ensures format == FormatTypeAsWritten(kind)
      ensures format == FormatOf(data) <==> kind != FfmpegH264
      ensures ffmpeg != null ==> ffmpeg.process.Some? && ffmpeg.width == p.width && ffmpeg.height == p.height
    {
      if ffmpeg != null {
        data := ffmpeg.Encode(p, pipeOk);
      } else {
        data := JpegEncode(p, DefaultQuality);
      }
      format := FormatTypeAsWritten(kind);
    }

    /** `cleanup`: only the FFmpeg encoder holds anything to release. */
    method Cleanup()
      modifies ffmpeg
      ensures ffmpeg != null ==> ffmpeg.process.None?
    {
      if ffmpeg != null {
        ffmpeg.Cleanup();
      }
    }
  }

  /** The module-wide `_encoder_manager`. */
  class EncoderRegistry {
    var manager: EncoderManager?

    constructor()
      ensures manager == null
    {
      manager := null;
    }

    /** `get_encoder_manager`: the existing manager, or a new one that is kept from now on. */
    method Get(probe: Probe) returns (m: EncoderManager)
      modifies this
      ensures old(manager) != null ==> m == old(manager) && manager == old(manager)
      ensures old(manager) == null ==> fresh(m) && m.kind == DetectBest(probe) && m.Valid() && manager == m
    {
      if manager == null {
        manager := new EncoderManager(probe);
      }
      m := manager;
    }

    /** `cleanup_encoder`: release the manager's encoder and forget the manager. */
    method CleanupEncoder()
      modifies this, if manager != null then {manager.ffmpeg} else {}
      ensures manager == null
      ensures old(manager) != null && old(manager).ffmpeg != null ==> old(manager).ffmpeg.process.None?
    {
      if manager != null {
        manager.Cleanup();
        manager := null;
      }
    }
  }
}
