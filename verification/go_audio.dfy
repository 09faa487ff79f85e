/**
 * Audio of the Go server: the COM start-up check, the choice between
 * float and integer samples from the mix format, the decoding of 16-,
 * 24- and 32-bit little-endian integer samples, the stereo remix, the
 * serialisation of 16-bit samples, the bounded broadcast channel and the
 * set of audio listeners, and the debug WAV capture with its 44-byte
 * RIFF/WAVE header.  Floating-point steps (float samples, resampling,
 * the clamp and scale to 16 bits) are not modelled.
 */
module GoAudio {
  import opened Common

  // ---------------------------------------------------------------- COM

  /** `oleCoInitializeEx`: S_OK (0) and S_FALSE (1) both mean success; any other code is returned as the error. */
  function CoInitializeError(ret: nat): (err: Option<nat>)
    ensures err.None? <==> ret == 0 || ret == 1
    ensures err.Some? ==> err.value == ret && err.value > 1
  {
    if ret != 0 && ret != 1 then Some(ret) else None
  }

  // ---------------------------------------------------------------- mix format

  const FormatFloat := 3
  const FormatExtensible := 0xFFFE
  const SubtypePcm := 1
  const SubtypeFloat := 3

  /** How the captured bytes are read: the sample width in bits and whether they are IEEE floats. */
  datatype MixFormat = MixFormat(bits: nat, isFloat: bool)

  /**
   * The mix format as `runAudioLoop` decides it from the reported bit
   * depth, the format tag and, for the extensible tag, the first field of
   * the sub-format GUID.
   */
  function ReadMixFormat(reportedBits: nat, tag: nat, data1: nat): (f: MixFormat)
    ensures f.bits == (if reportedBits == 0 then 32 else reportedBits)
    ensures f.isFloat <==> tag == FormatFloat || (tag == FormatExtensible && data1 != SubtypePcm)
  {
    var bits := if reportedBits == 0 then 32 else reportedBits;
    if tag == FormatFloat then MixFormat(bits, true)
    else if tag == FormatExtensible then
      if data1 == SubtypePcm then MixFormat(bits, false)
      else if data1 == SubtypeFloat then MixFormat(bits, true)
      else MixFormat(bits, true)
    else MixFormat(bits, false)
  }

  /** Plain PCM (tag 1) and every tag other than float and extensible are integer samples. */
  lemma OtherTagsAreIntegers(reportedBits: nat, tag: nat, data1: nat)
    requires tag != FormatFloat && tag != FormatExtensible
    ensures !ReadMixFormat(reportedBits, tag, data1).isFloat
    ensures ReadMixFormat(reportedBits, tag, data1) == ReadMixFormat(reportedBits, tag, 0)
  {
  }

  // ---------------------------------------------------------------- samples

  /** A 16-bit little-endian two's-complement sample. */
  function Int16Le(lo: byte, hi: byte): (v: int)
    ensures -0x8000 <= v < 0x8000
    ensures v % 0x1_0000 == lo as int + 0x100 * hi as int
    ensures v < 0 <==> hi >= 0x80
  {
    var u := lo as int + 0x100 * hi as int;
    if u >= 0x8000 then u - 0x1_0000 else u
  }

  /**
   * A 24-bit little-endian sample: the three bytes side by side, and when
   * bit 23 is set every higher bit is set too (`val |= -0x1000000`).
   */
  function Int24Le(b0: byte, b1: byte, b2: byte): (v: int)
    ensures -0x80_0000 <= v < 0x80_0000
    ensures v % 0x100_0000 == b0 as int + 0x100 * b1 as int + 0x1_0000 * b2 as int
    ensures v < 0 <==> b2 >= 0x80
  {
    var u := b0 as int + 0x100 * b1 as int + 0x1_0000 * b2 as int;
    if u >= 0x80_0000 then u - 0x100_0000 else u
  }

  /** A 32-bit little-endian integer sample, read as `int32`. */
  function Int32Le(b0: byte, b1: byte, b2: byte, b3: byte): (v: int)
    ensures -0x8000_0000 <= v < 0x8000_0000
    ensures v % 0x1_0000_0000 == b0 as int + 0x100 * b1 as int + 0x1_0000 * b2 as int + 0x100_0000 * b3 as int
    ensures v < 0 <==> b3 >= 0x80
  {
    var u := b0 as int + 0x100 * b1 as int + 0x1_0000 * b2 as int + 0x100_0000 * b3 as int;
    if u >= 0x8000_0000 then u - 0x1_0000_0000 else u
  }

  /**
   * A 24-bit sample whose low byte is zero is the 16-bit sample of its two
   * upper bytes shifted left by 8: both depths give it the same level
   * relative to their full scale (8388608 = 256 * 32768).
   */
  lemma Int24ExtendsInt16(b1: byte, b2: byte)
    ensures Int24Le(0, b1, b2) == 0x100 * Int16Le(b1, b2)
  {
  }

  /** The value integer samples `width` bytes wide are divided by to bring them into [-1, 1). */
  function FullScale(width: nat): nat {
    if width == 2 then 0x8000 else if width == 3 then 0x80_0000 else 0x8000_0000
  }

  /** Sample `k` of a packet of integer samples `width` bytes wide. */
  function SampleAt(raw: seq<byte>, width: nat, k: nat): (v: int)
    requires width == 2 || width == 3 || width == 4
    requires k < |raw| / width
    ensures -(FullScale(width) as int) <= v < FullScale(width)
  {
    if width == 2 then Int16Le(raw[2 * k], raw[2 * k + 1])
    else if width == 3 then Int24Le(raw[3 * k], raw[3 * k + 1], raw[3 * k + 2])
    else Int32Le(raw[4 * k], raw[4 * k + 1], raw[4 * k + 2], raw[4 * k + 3])
  }

  /** The integer samples of a packet: as many as whole samples fit, trailing bytes ignored. */
  function PcmValues(raw: seq<byte>, width: nat): (vals: seq<int>)
    requires width == 2 || width == 3 || width == 4
    ensures |vals| == |raw| / width
    ensures forall k :: 0 <= k < |vals| ==> vals[k] == SampleAt(raw, width, k)
  {
    seq(|raw| / width, k requires 0 <= k < |raw| / width => SampleAt(raw, width, k))
  }

  /**
   * What the first conversion step makes of a packet: integer samples with
   * the full-scale value they are divided by, IEEE floats (their values
   * are not modelled), or, for any other bit depth, that many zero samples.
   */
  datatype Samples = Pcm(values: seq<int>, fullScale: nat) | FloatBits(count: nat) | Zeros(count: nat)

  function Count(s: Samples): nat {
    match s
    case Pcm(values, _) => |values|
    case FloatBits(count) => count
    case Zeros(count) => count
  }

  /**
   * The samples of a packet under a mix format; None when the bit depth is
   * below 8, where `len(raw) / (bitsPerSample / 8)` divides by zero and the
   * capture loop panics.
   */
  function DecodeSamples(raw: seq<byte>, f: MixFormat): (r: Option<Samples>)
    ensures r.None? <==> f.bits < 8
    ensures r.Some? ==> Count(r.value) == |raw| / (f.bits / 8)
    ensures r.Some? && r.value.Pcm? ==> !f.isFloat || f.bits != 32
    ensures r.Some? && r.value.Pcm? ==> forall k :: 0 <= k < |r.value.values| ==> -(r.value.fullScale as int) <= r.value.values[k] < r.value.fullScale
  {
    if f.bits / 8 == 0 then None
    else if f.bits == 32 then
      if f.isFloat then Some(FloatBits(|raw| / 4)) else Some(Pcm(PcmValues(raw, 4), FullScale(4)))
    else if f.bits == 16 then Some(Pcm(PcmValues(raw, 2), FullScale(2)))
    else if f.bits == 24 then Some(Pcm(PcmValues(raw, 3), FullScale(3)))
    else Some(Zeros(|raw| / (f.bits / 8)))
  }

  /** The sample loops of `runAudioLoop`: one sample per `width` bytes into a new slice. */
  method DecodeIntegers(raw: seq<byte>, width: nat) returns (vals: seq<int>)
    requires width == 2 || width == 3 || width == 4
    ensures vals == PcmValues(raw, width)
  {
    var n := |raw| / width;
    var a := new int[n];
    var i := 0;
    while i < n
      invariant 0 <= i <= n
      invariant forall k :: 0 <= k < i ==> a[k] == SampleAt(raw, width, k)
    {
      a[i] := SampleAt(raw, width, i);
      i := i + 1;
    }
    vals := a[..];
  }

  /** Step 1 of the packet pipeline: the bytes read under the mix format. */
  method DecodePacket(raw: seq<byte>, f: MixFormat) returns (r: Option<Samples>)
    ensures r == DecodeSamples(raw, f)
  {
    if f.bits / 8 == 0 {
      r := None;
    } else if f.bits == 32 {
      if f.isFloat {
        r := Some(FloatBits(|raw| / 4));
      } else {
        var vals := DecodeIntegers(raw, 4);
        r := Some(Pcm(vals, FullScale(4)));
      }
    } else if f.bits == 16 {
      var vals := DecodeIntegers(raw, 2);
      r := Some(Pcm(vals, FullScale(2)));
    } else if f.bits == 24 {
      var vals := DecodeIntegers(raw, 3);
      r := Some(Pcm(vals, FullScale(3)));
    } else {
      r := Some(Zeros(|raw| / (f.bits / 8)));
    }
  }

  // ---------------------------------------------------------------- stereo remix

  /** Channel `c` of interleaved samples with `channels` per frame, one value per whole frame. */
  function Channel<T>(s: seq<T>, channels: nat, c: nat): (r: seq<T>)
    requires c < channels
    ensures |r| == |s| / channels
  {
    seq(|s| / channels, i requires 0 <= i < |s| / channels => FrameFits(|s|, channels, i); s[i * channels + c])
  }

  /** Two equally long channels as interleaved stereo: left, right, left, right, ... */
  function Interleave<T>(left: seq<T>, right: seq<T>): (r: seq<T>)
    requires |left| == |right|
    ensures |r| == 2 * |left|
  {
    seq(2 * |left|, k requires 0 <= k < 2 * |left| => if k % 2 == 0 then left[k / 2] else right[k / 2])
  }

  /** Frame `i` of interleaved stereo is the left sample at `2i` and the right sample after it. */
  lemma InterleaveAt<T>(left: seq<T>, right: seq<T>, i: nat)
    requires |left| == |right| && i < |left|
    ensures Interleave(left, right)[2 * i] == left[i] && Interleave(left, right)[2 * i + 1] == right[i]
  {
    assert (2 * i) % 2 == 0 && (2 * i) / 2 == i;
    assert (2 * i + 1) % 2 == 1 && (2 * i + 1) / 2 == i;
  }

  /** Sample `i` of channel `c` is value `c` of frame `i`. */
  lemma ChannelAt<T>(s: seq<T>, channels: nat, c: nat, i: nat)
    requires c < channels && i < |s| / channels
    ensures i * channels + c < |s| && Channel(s, channels, c)[i] == s[i * channels + c]
  {
    FrameFits(|s|, channels, i);
  }

  /** Interleaved stereo splits back into the two channels it was made of. */
  lemma InterleaveSplits<T>(left: seq<T>, right: seq<T>)
    requires |left| == |right|
    ensures Channel(Interleave(left, right), 2, 0) == left
    ensures Channel(Interleave(left, right), 2, 1) == right
  {
    var r := Interleave(left, right);
    assert |r| / 2 == |left|;
    forall i | 0 <= i < |left| ensures Channel(r, 2, 0)[i] == left[i] && Channel(r, 2, 1)[i] == right[i] {
      ChannelAt(r, 2, 0, i);
      ChannelAt(r, 2, 1, i);
      InterleaveAt(left, right, i);
    }
  }

  /** Step 3: more than two channels are cut to the front pair, mono is duplicated, anything else is left as it is. */
  function Stereo<T>(s: seq<T>, channels: int): seq<T> {
    if channels > 2 then Interleave(Channel(s, channels, 0), Channel(s, channels, 1))
    else if channels == 1 then Interleave(s, s)
    else s
  }

  /** The downmix as the loop writes it: frame `i` gives samples `2i` and `2i+1`, from channels 0 and 1 of that frame. */
  lemma DownmixFrames<T>(s: seq<T>, channels: nat, i: nat)
    requires channels > 2 && i < |s| / channels
    ensures |Stereo(s, channels)| == 2 * (|s| / channels)
    ensures i * channels + 1 < |s|
    ensures Stereo(s, channels)[2 * i] == s[i * channels] && Stereo(s, channels)[2 * i + 1] == s[i * channels + 1]
  {
    ChannelAt(s, channels, 0, i);
    ChannelAt(s, channels, 1, i);
    InterleaveAt(Channel(s, channels, 0), Channel(s, channels, 1), i);
  }

  /** The remix loops: a new slice of two samples per frame, filled by index. */
  method Remix<T(0)>(s: seq<T>, channels: int) returns (out: seq<T>)
    ensures out == Stereo(s, channels)
  {
    if channels > 2 {
      ghost var left := Channel(s, channels, 0);
      ghost var right := Channel(s, channels, 1);
      var frames := |s| / channels;
      var a := new T[frames * 2];
      var i := 0;
      while i < frames
        invariant 0 <= i <= frames
        invariant forall j :: 0 <= j < i ==> a[2 * j] == left[j] && a[2 * j + 1] == right[j]
      {
        ChannelAt(s, channels, 0, i);
        ChannelAt(s, channels, 1, i);
        a[2 * i] := s[i * channels];
        a[2 * i + 1] := s[i * channels + 1];
        i := i + 1;
      }
      out := a[..];
      InterleaveByPairs(out, left, right);
    } else if channels == 1 {
      var frames := |s|;
      var a := new T[frames * 2];
      var i := 0;
      while i < frames
        invariant 0 <= i <= frames
        invariant forall j :: 0 <= j < i ==> a[2 * j] == s[j] && a[2 * j + 1] == s[j]
      {
        a[2 * i] := s[i];
        a[2 * i + 1] := s[i];
        i := i + 1;
      }
      out := a[..];
      InterleaveByPairs(out, s, s);
    } else {
      out := s;
    }
  }

  /** A sequence that holds `left[j]` at `2j` and `right[j]` at `2j+1` is their interleaving. */
  lemma InterleaveByPairs<T>(out: seq<T>, left: seq<T>, right: seq<T>)
    requires |left| == |right| && |out| == 2 * |left|
    requires forall j :: 0 <= j < |left| ==> out[2 * j] == left[j] && out[2 * j + 1] == right[j]
    ensures out == Interleave(left, right)
  {
    var r := Interleave(left, right);
    forall k | 0 <= k < |out| ensures out[k] == r[k] {
      assert out[k] == (if k % 2 == 0 then left[k / 2] else right[k / 2]) by {
        var j := k / 2;
        if k % 2 == 0 {
          assert k == 2 * j;
        } else {
          assert k == 2 * j + 1;
        }
      }
    }
  }

  /** A downmix keeps the front-left and front-right channels of every whole frame, sample for sample. */
  lemma DownmixKeepsFrontPair<T>(s: seq<T>, channels: nat)
    requires channels > 2
    ensures Channel(Stereo(s, channels), 2, 0) == Channel(s, channels, 0)
    ensures Channel(Stereo(s, channels), 2, 1) == Channel(s, channels, 1)
  {
    InterleaveSplits(Channel(s, channels, 0), Channel(s, channels, 1));
  }

  /** After the mono up-mix both stereo channels are the original mono signal. */
  lemma UpmixDuplicates<T>(s: seq<T>)
    ensures |Stereo(s, 1)| == 2 * |s|
    ensures Channel(Stereo(s, 1), 2, 0) == s
    ensures Channel(Stereo(s, 1), 2, 1) == s
  {
    InterleaveSplits(s, s);
  }

  // ---------------------------------------------------------------- 16-bit bytes

  newtype i16 = x: int | -0x8000 <= x < 0x8000

  /** `byte(v)`: the low eight bits of the two's-complement value. */
  function LowByte(v: i16): byte {
    (v as int % 0x100) as byte
  }

  /** `byte(v >> 8)`: the arithmetic shift keeps the sign, the cast keeps the low eight bits. */
  function HighByte(v: i16): byte {
    ((v as int / 0x100) % 0x100) as byte
  }

  /** A 16-bit sample written low byte then high byte reads back as the same sample. */
  lemma BytesReadBack(v: i16)
    ensures Int16Le(LowByte(v), HighByte(v)) == v as int
  {
    var x := v as int;
    assert x == 0x100 * (x / 0x100) + x % 0x100;
    if x >= 0 {
      assert 0 <= x / 0x100 < 0x80;
    } else {
      assert -0x80 <= x / 0x100 < 0;
      assert (x / 0x100) % 0x100 == x / 0x100 + 0x100;
    }
  }

  /** Little-endian bytes of 16-bit samples, two per sample. */
  function Serialise(pcm: seq<i16>): (out: seq<byte>)
    ensures |out| == 2 * |pcm|
    ensures forall i :: 0 <= i < |pcm| ==> out[2 * i] == LowByte(pcm[i]) && out[2 * i + 1] == HighByte(pcm[i])
  {
    seq(2 * |pcm|, k requires 0 <= k < 2 * |pcm| => if k % 2 == 0 then LowByte(pcm[k / 2]) else HighByte(pcm[k / 2]))
  }

  /** Step 5: the `outBytes` loop. */
  method SerialisePcm(pcm: seq<i16>) returns (out: seq<byte>)
    ensures out == Serialise(pcm)
  {
    var a := new byte[|pcm| * 2];
    var i := 0;
    while i < |pcm|
      invariant 0 <= i <= |pcm|
      invariant forall k :: 0 <= k < 2 * i ==> a[k] == if k % 2 == 0 then LowByte(pcm[k / 2]) else HighByte(pcm[k / 2])
    {
      a[i * 2] := LowByte(pcm[i]);
      a[i * 2 + 1] := HighByte(pcm[i]);
      i := i + 1;
    }
    out := a[..];
  }

  /** Serialised samples decode, as a 16-bit integer packet, to the same samples. */
  lemma SerialiseRoundTrip(pcm: seq<i16>)
    ensures DecodeSamples(Serialise(pcm), MixFormat(16, false)) == Some(Pcm(seq(|pcm|, i requires 0 <= i < |pcm| => pcm[i] as int), 0x8000))
  {
    var out := Serialise(pcm);
    var vals := PcmValues(out, 2);
    assert |vals| == |pcm|;
    forall i | 0 <= i < |pcm| ensures vals[i] == pcm[i] as int {
      BytesReadBack(pcm[i]);
      assert vals[i] == Int16Le(out[2 * i], out[2 * i + 1]);
    }
    assert vals == seq(|pcm|, i requires 0 <= i < |pcm| => pcm[i] as int);
  }

  // ---------------------------------------------------------------- broadcast

  /** The buffer of the `audioBroadcast` channel. */
  const BroadcastCapacity := 100

  /** The non-blocking send: the packet is queued when there is room and dropped otherwise. */
  function Offered(pending: seq<seq<byte>>, packet: seq<byte>): seq<seq<byte>> {
    if |pending| < BroadcastCapacity then pending + [packet] else pending
  }

  /** Packets offered one after another with nobody receiving. */
  function OfferedAll(pending: seq<seq<byte>>, packets: seq<seq<byte>>): seq<seq<byte>>
    decreases |packets|
  {
    if packets == [] then pending else OfferedAll(Offered(pending, packets[0]), packets[1..])
  }

  /**
   * Offered packets fill the channel in order until it is full and every
   * later one is lost; the channel never holds more than its capacity.
   */
  lemma {:induction false} OfferedKeepsPrefix(pending: seq<seq<byte>>, packets: seq<seq<byte>>)
    requires |pending| <= BroadcastCapacity
    ensures OfferedAll(pending, packets) == pending + packets[..Min(|packets|, BroadcastCapacity - |pending|)]
    ensures |OfferedAll(pending, packets)| <= BroadcastCapacity
    decreases |packets|
  {
    if packets != [] {
      var next := Offered(pending, packets[0]);
      OfferedKeepsPrefix(next, packets[1..]);
      if |pending| < BroadcastCapacity {
        assert next + packets[1..][..Min(|packets| - 1, BroadcastCapacity - |next|)]
            == pending + packets[..Min(|packets|, BroadcastCapacity - |pending|)];
      } else {
        assert packets[1..][..0] == [] && packets[..0] == [];
      }
    }
  }

  /** The connections still registered after a packet went out: those whose write succeeded. */
  function Survivors(conns: set<nat>, writeOk: nat -> bool): (r: set<nat>)
    ensures r <= conns
    ensures forall c :: c in conns ==> (c in r <==> writeOk(c))
  {
    set c | c in conns && writeOk(c)
  }

  /**
   * The audio channel and the listener set: `audioBroadcast`, filled by
   * the capture loop, and `audioConns`, maintained by the audio endpoint
   * and pruned by `broadcastAudio`.  A connection is its number.
   */
  class AudioHub {
    var pending: seq<seq<byte>>
    var conns: set<nat>

    predicate Valid()
      reads this
    {
      |pending| <= BroadcastCapacity
    }

    constructor()
      ensures Valid() && pending == [] && conns == {}
    {
      pending := [];
      conns := {};
    }

    /** The `select` with an empty `default`: queue the packet, or drop it when the channel is full. */
    method Offer(packet: seq<byte>) returns (queued: bool)
      requires Valid()
      modifies this
      ensures Valid()
      ensures queued <==> |old(pending)| < BroadcastCapacity
      ensures pending == Offered(old(pending), packet)
      ensures conns == old(conns)
    {
      queued := |pending| < BroadcastCapacity;
      if queued {
        pending := pending + [packet];
      }
    }

    /** An audio client connects. */
    method Connect(c: nat)
      modifies this
      ensures conns == old(conns) + {c} && pending == old(pending)
    {
      conns := conns + {c};
    }

    /** An audio client's read fails: it is removed (deleting an absent key is harmless). */
    method Disconnect(c: nat)
      modifies this
      ensures conns == old(conns) - {c} && pending == old(pending)
    {
      conns := conns - {c};
    }

    /** One packet to every connection; a connection whose write fails is closed and forgotten. */
    method Broadcast(packet: seq<byte>, writeOk: nat -> bool) returns (reached: set<nat>)
      modifies this
      ensures reached == Survivors(old(conns), writeOk)
      ensures conns == reached
      ensures pending == old(pending)
    {
      var todo := conns;
      while todo != {}
        invariant todo <= old(conns)
        invariant forall c :: c in conns <==> c in old(conns) && (c in todo || writeOk(c))
        invariant pending == old(pending)
        decreases |todo|
      {
        var c :| c in todo;
        if !writeOk(c) {
          conns := conns - {c};
        }
        todo := todo - {c};
      }
      reached := conns;
    }

    /** One turn of `broadcastAudio`: the oldest queued packet goes out; with nothing queued the loop waits. */
    method Pump(writeOk: nat -> bool) returns (sent: Option<seq<byte>>)
      requires Valid()
      modifies this
      ensures Valid()
      ensures old(pending) == [] ==> sent.None? && pending == [] && conns == old(conns)
      ensures old(pending) != [] ==> sent == Some(old(pending)[0]) && pending == old(pending)[1..]
      ensures old(pending) != [] ==> conns == Survivors(old(conns), writeOk)
    {
      if pending == [] {
        sent := None;
      } else {
        var packet := pending[0];
        pending := pending[1..];
        var _ := Broadcast(packet, writeOk);
        sent := Some(packet);
      }
    }
  }

  // ---------------------------------------------------------------- WAV header

  /** A 16-bit value, low byte first. */
  function Le16(x: nat): (b: seq<byte>)
    requires x < 0x1_0000
    ensures |b| == 2
  {
    [(x % 0x100) as byte, (x / 0x100) as byte]
  }

  /** A 32-bit value, low byte first. */
  function Le32(x: nat): (b: seq<byte>)
    requires x < 0x1_0000_0000
    ensures |b| == 4
  {
    Le16(x % 0x1_0000) + Le16(x / 0x1_0000)
  }

  function Read16(h: seq<byte>, at: nat): nat
    requires at + 2 <= |h|
  {
    h[at] as nat + 0x100 * h[at + 1] as nat
  }

  function Read32(h: seq<byte>, at: nat): nat
    requires at + 4 <= |h|
  {
    Read16(h, at) + 0x1_0000 * Read16(h, at + 2)
  }

  const TagRiff: seq<byte> := [0x52, 0x49, 0x46, 0x46]  // "RIFF"
  const TagWave: seq<byte> := [0x57, 0x41, 0x56, 0x45]  // "WAVE"
  const TagFmt: seq<byte> := [0x66, 0x6D, 0x74, 0x20]   // "fmt "
  const TagData: seq<byte> := [0x64, 0x61, 0x74, 0x61]  // "data"

  const Uint32Range := 0x1_0000_0000

  /** The RIFF chunk header: the tag, the size of everything after it, and the form type. */
  function RiffChunk(dataLen: nat): (c: seq<byte>)
    ensures |c| == 12
  {
    TagRiff + Le32((36 + dataLen) % Uint32Range) + TagWave
  }

  /** The "fmt " chunk: 16 bytes of PCM description, stereo at 48 kHz in 16 bits. */
  function FmtChunk(): (c: seq<byte>)
    ensures |c| == 24
  {
    TagFmt + Le32(16) + Le16(1) + Le16(2) + Le32(48000) + Le32(48000 * 2 * 2) + Le16(4) + Le16(16)
  }

  /** The header of the "data" chunk: its tag and its size. */
  function DataChunk(dataLen: nat): (c: seq<byte>)
    ensures |c| == 8
  {
    TagData + Le32(dataLen % Uint32Range)
  }

  /**
   * The header `updateWavHeader` writes for `dataLen` bytes of audio: 48 kHz
   * stereo 16-bit PCM, with both sizes truncated to 32 bits.
   */
  function WavHeader(dataLen: nat): (h: seq<byte>)
    ensures |h| == 44
  {
    RiffChunk(dataLen) + FmtChunk() + DataChunk(dataLen)
  }

  /** The fields of a RIFF/WAVE header with one "fmt " chunk followed by the "data" chunk. */
  datatype WavFields = WavFields(riffSize: nat, format: nat, channels: nat, sampleRate: nat,
                                 byteRate: nat, blockAlign: nat, bitsPerSample: nat, dataSize: nat)

  /** The four bytes at `at` spell `tag`. */
  predicate HasTag(h: seq<byte>, at: nat, tag: seq<byte>)
    requires |tag| == 4 && at + 4 <= |h|
  {
    h[at] == tag[0] && h[at + 1] == tag[1] && h[at + 2] == tag[2] && h[at + 3] == tag[3]
  }

  /** Reads a canonical 44-byte header: None unless the four tags and a 16-byte "fmt " chunk are in place. */
  function ReadWavHeader(h: seq<byte>): Option<WavFields> {
    if |h| < 44 || !HasTag(h, 0, TagRiff) || !HasTag(h, 8, TagWave) || !HasTag(h, 12, TagFmt)
      || Read32(h, 16) != 16 || !HasTag(h, 36, TagData)
    then None
    else Some(WavFields(Read32(h, 4), Read16(h, 20), Read16(h, 22), Read32(h, 24),
                        Read32(h, 28), Read16(h, 32), Read16(h, 34), Read32(h, 40)))
  }

  /** A 16-bit field written at `at` reads back as the value written. */
  lemma Le16ReadsBack(x: nat, h: seq<byte>, at: nat)
    requires x < 0x1_0000 && at + 2 <= |h|
    requires h[at] == Le16(x)[0] && h[at + 1] == Le16(x)[1]
    ensures Read16(h, at) == x
  {
  }

  /** A 32-bit field written at `at` reads back as the value written. */
  lemma Le32ReadsBack(x: nat, h: seq<byte>, at: nat)
    requires x < 0x1_0000_0000 && at + 4 <= |h|
    requires h[at] == Le32(x)[0] && h[at + 1] == Le32(x)[1] && h[at + 2] == Le32(x)[2] && h[at + 3] == Le32(x)[3]
    ensures Read32(h, at) == x
  {
    Le16ReadsBack(x % 0x1_0000, h, at);
    Le16ReadsBack(x / 0x1_0000, h, at + 2);
  }

  /** Bytes of a part read the same inside a larger sequence, shifted by what comes before. */
  lemma ReadInside(pre: seq<byte>, c: seq<byte>, post: seq<byte>, k: nat)
    requires k + 4 <= |c|
    ensures Read16(pre + c + post, |pre| + k) == Read16(c, k)
    ensures Read32(pre + c + post, |pre| + k) == Read32(c, k)
  {
    var h := pre + c + post;
    assert h[|pre| + k] == c[k] && h[|pre| + k + 1] == c[k + 1];
    assert h[|pre| + k + 2] == c[k + 2] && h[|pre| + k + 3] == c[k + 3];
  }

  /** A tag inside a larger sequence is found where the part holding it begins, shifted by what comes before. */
  lemma TagInside(pre: seq<byte>, c: seq<byte>, post: seq<byte>, k: nat, tag: seq<byte>)
    requires k + 4 <= |c| && |tag| == 4
    ensures HasTag(pre + c + post, |pre| + k, tag) <==> HasTag(c, k, tag)
  {
    var h := pre + c + post;
    assert h[|pre| + k] == c[k] && h[|pre| + k + 1] == c[k + 1];
    assert h[|pre| + k + 2] == c[k + 2] && h[|pre| + k + 3] == c[k + 3];
  }

  /** The RIFF size field reads back as the data length plus 36, modulo 2^32. */
  lemma RiffChunkReadsBack(dataLen: nat)
    ensures var c := RiffChunk(dataLen);
      HasTag(c, 0, TagRiff) && HasTag(c, 8, TagWave) && Read32(c, 4) == (36 + dataLen) % Uint32Range
  {
    Le32ReadsBack((36 + dataLen) % Uint32Range, RiffChunk(dataLen), 4);
  }

  /** The "fmt " chunk reads back as 16 bytes of PCM, stereo, 48 kHz, 192000 bytes a second, blocks of 4, 16 bits. */
  lemma FmtChunkReadsBack()
    ensures var c := FmtChunk();
      && HasTag(c, 0, TagFmt) && Read32(c, 4) == 16 && Read16(c, 8) == 1 && Read16(c, 10) == 2
      && Read32(c, 12) == 48000 && Read32(c, 16) == 192000 && Read16(c, 20) == 4 && Read16(c, 22) == 16
  {
    var c := FmtChunk();
    Le32ReadsBack(16, c, 4);
    Le16ReadsBack(1, c, 8);
    Le16ReadsBack(2, c, 10);
    Le32ReadsBack(48000, c, 12);
    Le32ReadsBack(192000, c, 16);
    Le16ReadsBack(4, c, 20);
    Le16ReadsBack(16, c, 22);
  }

  /** The data size field reads back as the data length modulo 2^32. */
  lemma DataChunkReadsBack(dataLen: nat)
    ensures var c := DataChunk(dataLen);
      HasTag(c, 0, TagData) && Read32(c, 4) == dataLen % Uint32Range
  {
    Le32ReadsBack(dataLen % Uint32Range, DataChunk(dataLen), 4);
  }

  /** Every tag and field of the header, read where the reader looks for it. */
  lemma WavHeaderLayout(dataLen: nat)
    ensures Canonical(WavHeader(dataLen), (36 + dataLen) % Uint32Range, dataLen % Uint32Range)
  {
    var r, f, d := RiffChunk(dataLen), FmtChunk(), DataChunk(dataLen);
    RiffChunkReadsBack(dataLen);
    FmtChunkReadsBack();
    DataChunkReadsBack(dataLen);
    assert WavHeader(dataLen) == [] + r + (f + d) == r + f + d == (r + f) + d + [];
    TagInside([], r, f + d, 0, TagRiff);
    TagInside([], r, f + d, 8, TagWave);
    ReadInside([], r, f + d, 4);
    TagInside(r, f, d, 0, TagFmt);
    ReadInside(r, f, d, 4);
    ReadInside(r, f, d, 8);
    ReadInside(r, f, d, 10);
    ReadInside(r, f, d, 12);
    ReadInside(r, f, d, 16);
    ReadInside(r, f, d, 20);
    TagInside(r + f, d, [], 0, TagData);
    ReadInside(r + f, d, [], 4);
  }

  /**
   * The header reads back as the canonical PCM description of the debug
   * stream: format 1, two channels, 48000 Hz, 16 bits, a block of
   * channels * bits / 8 bytes, a byte rate of rate * block, and sizes
   * that are the data length and 36 more, modulo 2^32.
   */
  lemma WavHeaderReadsBack(dataLen: nat)
    ensures ReadWavHeader(WavHeader(dataLen)) == Some(WavFields((36 + dataLen) % Uint32Range, 1, 2, 48000,
                                                                 192000, 4, 16, dataLen % Uint32Range))
    ensures var f := ReadWavHeader(WavHeader(dataLen)).value;
      f.blockAlign == f.channels * f.bitsPerSample / 8 && f.byteRate == f.sampleRate * f.blockAlign
      && (dataLen + 36 < Uint32Range ==> f.riffSize == f.dataSize + 36)
  {
    WavHeaderLayout(dataLen);
    CanonicalFields(WavHeader(dataLen), (36 + dataLen) % Uint32Range, dataLen % Uint32Range);
  }

  /** The canonical header for the given sizes: tags and fields where `WriteWavHeader` puts them. */
  predicate Canonical(h: seq<byte>, riffSize: nat, dataSize: nat) {
    && |h| == 44
    && HasTag(h, 0, TagRiff) && HasTag(h, 8, TagWave) && HasTag(h, 12, TagFmt) && HasTag(h, 36, TagData)
    && Read32(h, 4) == riffSize && Read32(h, 16) == 16
    && Read16(h, 20) == 1 && Read16(h, 22) == 2 && Read32(h, 24) == 48000 && Read32(h, 28) == 192000
    && Read16(h, 32) == 4 && Read16(h, 34) == 16 && Read32(h, 40) == dataSize
  }

  /** A canonical header reads as the fields found at their offsets. */
  lemma CanonicalFields(h: seq<byte>, riffSize: nat, dataSize: nat)
    requires Canonical(h, riffSize, dataSize)
    ensures ReadWavHeader(h) == Some(WavFields(riffSize, 1, 2, 48000, 192000, 4, 16, dataSize))
  {
  }

  // ---------------------------------------------------------------- debug capture

  /** About 25 seconds of 48 kHz stereo 16-bit audio. */
  const DebugLimit := 5 * 1024 * 1024

  /**
   * The debug capture: whether `debugWavFile` is open, the bytes of
   * "audio_debug.wav" on disk, and `debugWavSize`.
   */
  datatype DebugWav = DebugWav(open: bool, disk: seq<byte>, size: nat)

  /** The 44 zero bytes written as a placeholder when the file is created. */
  function Placeholder(): (z: seq<byte>)
    ensures |z| == 44
  {
    seq(44, _ => 0 as byte)
  }

  /** Seeking to 0 and writing the header over the first bytes of the file. */
  function WithHeader(disk: seq<byte>, size: nat): (d: seq<byte>)
    ensures |d| == Max(44, |disk|)
    ensures d[..44] == WavHeader(size)
  {
    WavHeader(size) + disk[Min(44, |disk|)..]
  }

  /**
   * `saveAudioDebug` as written: a closed file is (re)created first, which
   * truncates it to the placeholder, and only then is the size limit
   * checked.  `created` is whether `os.Create` succeeds.
   */
  function SaveAsWritten(st: DebugWav, data: seq<byte>, created: bool): (r: DebugWav)
    ensures !st.open && !created ==> r == st
    ensures (st.open || created) && st.size > DebugLimit ==> !r.open && r.size == st.size && |r.disk| >= 44 && r.disk[..44] == WavHeader(st.size)
    ensures (st.open || created) && st.size <= DebugLimit ==> r.open && r.size == st.size + |data|
  {
    if !st.open && !created then st
    else
      var cur := if st.open then st.disk else Placeholder();
      if st.size > DebugLimit then DebugWav(false, WithHeader(cur, st.size), st.size)
      else DebugWav(true, cur + data, st.size + |data|)
  }

  /**
   * `saveAudioDebug` as evidently intended: once the limit is passed the
   * file is finished (header written, closed) and left alone; below it,
   * the data is appended, creating the file first if need be.
   */
  function Save(st: DebugWav, data: seq<byte>, created: bool): (r: DebugWav)
    ensures st.size > DebugLimit ==> !r.open && r.size == st.size
    ensures r.open ==> r.size == st.size + |data|
  {
    if st.size > DebugLimit then
      if st.open then DebugWav(false, WithHeader(st.disk, st.size), st.size) else st
    else if st.open then DebugWav(true, st.disk + data, st.size + |data|)
    else if created then DebugWav(true, Placeholder() + data, st.size + |data|)
    else st
  }

  /**
   * The layout of the capture file the intended `Save` keeps: while open, a
   * placeholder and the data so far; once finished, the real header and
   * the data; and nothing counted before the file is first created.
   */
  predicate Layout(st: DebugWav) {
    && (st.open ==> |st.disk| == 44 + st.size && st.disk[..44] == Placeholder())
    && (!st.open ==> st.size == 0 || (st.size > DebugLimit && |st.disk| == 44 + st.size && st.disk[..44] == WavHeader(st.size)))
  }

  /** Every intended save keeps the layout, and the file is finished exactly when the size passes the limit. */
  lemma SaveKeepsLayout(st: DebugWav, data: seq<byte>, created: bool)
    requires Layout(st)
    ensures Layout(Save(st, data, created))
    ensures Save(st, data, created).open ==> Save(st, data, created).disk[44..] == (if st.open then st.disk[44..] else []) + data
  {
    var r := Save(st, data, created);
    if st.size <= DebugLimit && st.open {
      assert r.disk[..44] == st.disk[..44];
      assert r.disk[44..] == st.disk[44..] + data;
    } else if st.size <= DebugLimit && !st.open && created {
      assert r.disk[..44] == Placeholder();
      assert r.disk[44..] == data;
    }
  }

  /** A finished capture is final under the intended save: nothing more is written and the file stays as it is. */
  lemma FinishedCaptureIsFinal(st: DebugWav, data: seq<byte>, created: bool)
    requires Layout(st) && st.size > DebugLimit
    ensures !Save(st, data, created).open
    ensures Save(Save(st, data, created), data, created) == Save(st, data, created)
  {
  }

  /**
   * As written, the next save after a capture is finished re-creates the
   * file: the recorded audio is gone and only a header is left.
   */
  lemma FinishedCaptureLostAsWritten(st: DebugWav, data: seq<byte>)
    requires Layout(st) && !st.open && st.size > DebugLimit
    ensures Save(st, data, true) == st && |st.disk| > 44
    ensures SaveAsWritten(st, data, true).disk == WavHeader(st.size)
  {
  }

  /** The debug-capture globals of `audio.go`. */
  class DebugCapture {
    var open: bool
    var disk: seq<byte>
    var size: nat

    function State(): DebugWav
      reads this
    {
      DebugWav(open, disk, size)
    }

    constructor()
      ensures State() == DebugWav(false, [], 0) && Layout(State())
    {
      open := false;
      disk := [];
      size := 0;
    }

    /** `updateWavHeader`: nothing without an open file, else the header over the first 44 bytes. */
    method UpdateWavHeader()
      modifies this
      ensures open == old(open) && size == old(size)
      ensures disk == if old(open) then WithHeader(old(disk), old(size)) else old(disk)
    {
      if open {
        disk := WithHeader(disk, size);
      }
    }

    /** `saveAudioDebug` as written. */
    method SaveAudioDebugAsWritten(data: seq<byte>, created: bool)
      modifies this
      ensures State() == SaveAsWritten(old(State()), data, created)
    {
      if !open {
        if !created {
          return;
        }
        open := true;
        disk := Placeholder();
      }
      if size > DebugLimit {
        UpdateWavHeader();
        open := false;
        return;
      }
      disk := disk + data;
      size := size + |data|;
    }

    /** `saveAudioDebug` with the limit checked before a closed file is re-created. */
    method SaveAudioDebug(data: seq<byte>, created: bool)
      modifies this
      ensures State() == Save(old(State()), data, created)
      ensures Layout(old(State())) ==> Layout(State())
    {
      if Layout(State()) {
        SaveKeepsLayout(State(), data, created);
      }
      if size > DebugLimit {
        if open {
          UpdateWavHeader();
          open := false;
        }
        return;
      }
      if !open {
        if !created {
          return;
        }
        open := true;
        disk := Placeholder();
      }
      disk := disk + data;
      size := size + |data|;
    }
  }
}
