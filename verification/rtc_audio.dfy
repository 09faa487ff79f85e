/**
 * The WebRTC audio track of the Python server: the capture callback that
 * shapes 16-bit loopback samples into rows of one value per channel,
 * adjusts the channel count and queues them (dropping the oldest chunk
 * when the queue is full), and `recv`, which always hands out exactly 960
 * samples per frame with a timestamp that advances by 960.
 */
module RtcAudio {
  import opened Common
  import opened Wasapi

  /** A block of samples: `rows` of `width` values, one row per sample instant (a numpy array of shape (n, width)). */
  datatype Chunk = Chunk(width: nat, rows: seq<seq<int>>)

  predicate WellShaped(c: Chunk) {
    forall i :: 0 <= i < |c.rows| ==> |c.rows[i]| == c.width
  }

  /** The `i`-th row of `width` values of a flat buffer. */
  function Row(data: seq<int>, width: nat, i: nat): (r: seq<int>)
    requires width > 0 && i < |data| / width
    ensures |r| == width
  {
    FrameFits(|data|, width, i);
    data[i * width..i * width + width]
  }

  /** `np.frombuffer(...).reshape(-1, n)` with n the device's channels, or 1 when it has at most one. */
  function Reshape(data: seq<int>, deviceChannels: int): (c: Chunk)
    ensures WellShaped(c) && c.width == (if deviceChannels > 1 then deviceChannels else 1)
    ensures |c.rows| == |data| / c.width
    ensures forall i :: 0 <= i < |c.rows| ==> c.rows[i] == Row(data, c.width, i)
  {
    var w := if deviceChannels > 1 then deviceChannels else 1;
    Chunk(w, seq(|data| / w, i requires 0 <= i < |data| / w => Row(data, w, i)))
  }

  /** Rows are consecutive: value `j` of row `i` is value `i * width + j` of the buffer. */
  lemma RowValues(data: seq<int>, width: nat, i: nat, j: nat)
    requires width > 0 && i < |data| / width && j < width
    ensures i * width + j < |data| && Row(data, width, i)[j] == data[i * width + j]
  {
    FrameFits(|data|, width, i);
  }

  /** `audio_data[indices]`: the rows the resampling picks (the indices come from a floating-point `linspace`). */
  function PickRows(c: Chunk, indices: seq<nat>): (r: Chunk)
    requires forall k :: 0 <= k < |indices| ==> indices[k] < |c.rows|
    ensures r.width == c.width && |r.rows| == |indices|
    ensures forall k :: 0 <= k < |indices| ==> r.rows[k] == c.rows[indices[k]]
    ensures WellShaped(c) ==> WellShaped(r)
  {
    Chunk(c.width, seq(|indices|, k requires 0 <= k < |indices| => c.rows[indices[k]]))
  }

  /**
   * The channel adjustment as written: mono becomes stereo by repeating the
   * column, two or more channels become mono by keeping column 0, and any
   * other mismatch is left as it is, so a capture of more than two
   * channels keeps all of them on a stereo track.
   */
  function AdjustChannelsAsWritten(c: Chunk, channels: int): (r: Chunk)
    requires WellShaped(c)
    ensures WellShaped(r) && |r.rows| == |c.rows|
    ensures channels == 2 && c.width == 1 ==> r.width == 2 && forall i :: 0 <= i < |c.rows| ==> r.rows[i] == [c.rows[i][0], c.rows[i][0]]
    ensures channels == 1 && c.width >= 2 ==> r.width == 1 && forall i :: 0 <= i < |c.rows| ==> r.rows[i] == [c.rows[i][0]]
    ensures !(channels == 2 && c.width == 1) && !(channels == 1 && c.width >= 2) ==> r == c
  {
    if c.width != channels && channels == 2 && c.width == 1 then
      Chunk(2, seq(|c.rows|, i requires 0 <= i < |c.rows| => [c.rows[i][0], c.rows[i][0]]))
    else if c.width != channels && channels == 1 && c.width >= 2 then
      Chunk(1, seq(|c.rows|, i requires 0 <= i < |c.rows| => [c.rows[i][0]]))
    else c
  }

  /** A 5.1 capture on the default stereo track stays six channels wide, so each stereo frame carries three times the bytes its layout announces. */
  lemma SurroundStaysWideAsWritten(c: Chunk)
    requires WellShaped(c) && c.width == 6
    ensures AdjustChannelsAsWritten(c, 2).width == 6
    ensures |FitFrame(AdjustChannelsAsWritten(c, 2)).rows| * FitFrame(AdjustChannelsAsWritten(c, 2)).width == 3 * (SamplesPerFrame * 2)
  {
  }

  /**
   * The channel adjustment as evidently intended: as written, and in
   * addition a capture of more than two channels keeps its front pair on a
   * stereo track (as the Go server's downmix does).
   */
  function AdjustChannels(c: Chunk, channels: int): (r: Chunk)
    requires WellShaped(c)
    ensures WellShaped(r) && |r.rows| == |c.rows|
    ensures channels == 2 && c.width == 1 ==> r.width == 2 && forall i :: 0 <= i < |c.rows| ==> r.rows[i] == [c.rows[i][0], c.rows[i][0]]
    ensures channels == 2 && c.width > 2 ==> r.width == 2 && forall i :: 0 <= i < |c.rows| ==> r.rows[i] == c.rows[i][..2]
    ensures channels == 1 && c.width >= 2 ==> r.width == 1 && forall i :: 0 <= i < |c.rows| ==> r.rows[i] == [c.rows[i][0]]
    ensures !(channels == 2 && c.width != 2) && !(channels == 1 && c.width >= 2) ==> r == c
  {
    if channels == 2 && c.width > 2 then
      Chunk(2, seq(|c.rows|, i requires 0 <= i < |c.rows| => c.rows[i][..2]))
    else AdjustChannelsAsWritten(c, channels)
  }

  /** On a mono or stereo track, every capture of at least one channel comes out with the track's channel count. */
  lemma AdjustedWidth(c: Chunk, channels: int)
    requires WellShaped(c) && c.width >= 1 && (channels == 1 || channels == 2)
    ensures AdjustChannels(c, channels).width == channels
    ensures c.width <= 2 ==> AdjustChannels(c, channels) == AdjustChannelsAsWritten(c, channels)
  {
  }

  /** `_audio_queue`'s size. */
  const QueueSize := 100

  /** `put_nowait`, and when the queue is full, `get_nowait` then `put_nowait`. */
  function Enqueue<T>(queue: seq<T>, c: T): (r: seq<T>)
    requires |queue| <= QueueSize
    ensures |r| <= QueueSize && |r| >= 1 && r[|r| - 1] == c
    ensures |r| == Min(|queue| + 1, QueueSize)
  {
    if |queue| < QueueSize then queue + [c] else queue[1..] + [c]
  }

  /** One item queued: the newest of the old items and the new one, in order. */
  lemma EnqueueSuffix<T>(queue: seq<T>, c: T)
    requires |queue| <= QueueSize
    ensures Enqueue(queue, c) == (queue + [c])[|queue| + 1 - |Enqueue(queue, c)|..]
  {
  }

  /** Chunks queued one after another, with nobody receiving. */
  function EnqueueAll<T>(queue: seq<T>, cs: seq<T>): seq<T>
    requires |queue| <= QueueSize
    decreases |cs|
  {
    if cs == [] then queue else EnqueueAll(Enqueue(queue, cs[0]), cs[1..])
  }

  /** Appending after dropping the first `a` items is dropping them after appending. */
  lemma DropThenAppend<T>(s: seq<T>, t: seq<T>, a: nat)
    requires a <= |s|
    ensures s[a..] + t == (s + t)[a..]
  {
  }

  /** Dropping `a` then `b` items from the front is dropping `a + b`. */
  lemma DropTwice<T>(s: seq<T>, a: nat, b: nat)
    requires a + b <= |s|
    ensures s[a..][b..] == s[a + b..]
  {
  }

  /** Capping at the queue size after one chunk and again after the rest is capping once. */
  lemma MinAfterOne(q: nat, rest: nat)
    ensures Min(Min(q + 1, QueueSize) + rest, QueueSize) == Min(q + 1 + rest, QueueSize)
  {
  }

  /**
   * The newest items of a queue that took one item and then the rest are
   * the newest items of everything that arrived.
   */
  lemma SuffixStep<T>(queue: seq<T>, c: T, rest: seq<T>, next: seq<T>, r: seq<T>)
    requires |next| <= |queue| + 1 && next == (queue + [c])[|queue| + 1 - |next|..]
    requires |r| <= |next| + |rest| && r == (next + rest)[|next| + |rest| - |r|..]
    ensures r == (queue + ([c] + rest))[|queue| + 1 + |rest| - |r|..]
  {
    var qc := queue + [c];
    var a := |queue| + 1 - |next|;
    var b := |next| + |rest| - |r|;
    DropThenAppend(qc, rest, a);
    assert qc + rest == queue + ([c] + rest);
    DropTwice(qc + rest, a, b);
  }

  /** One item queued ahead of the rest: if the rest leave the newest of what followed, all of them leave the newest of everything. */
  lemma EnqueueStep<T>(queue: seq<T>, cs: seq<T>, r: seq<T>)
    requires |queue| <= QueueSize && |cs| > 0
    requires var next := Enqueue(queue, cs[0]);
      |r| == Min(|next| + |cs[1..]|, QueueSize) && r == (next + cs[1..])[|next| + |cs[1..]| - |r|..]
    ensures |r| == Min(|queue| + |cs|, QueueSize)
    ensures r == (queue + cs)[|queue| + |cs| - |r|..]
  {
    var c, rest := cs[0], cs[1..];
    var next := Enqueue(queue, c);
    EnqueueSuffix(queue, c);
    MinAfterOne(|queue|, |rest|);
    SuffixStep(queue, c, rest, next, r);
    assert cs == [c] + rest;
  }

  /** However many chunks arrive, the queue holds the newest ones, at most 100 of them, in arrival order. */
  lemma {:induction false} EnqueueKeepsNewest<T>(queue: seq<T>, cs: seq<T>)
    requires |queue| <= QueueSize
    ensures |EnqueueAll(queue, cs)| == Min(|queue| + |cs|, QueueSize)
    ensures EnqueueAll(queue, cs) == (queue + cs)[|queue| + |cs| - |EnqueueAll(queue, cs)|..]
    decreases |cs|
  {
    if cs == [] {
      assert queue + cs == queue;
    } else {
      var next := Enqueue(queue, cs[0]);
      EnqueueKeepsNewest(next, cs[1..]);
      EnqueueStep(queue, cs, EnqueueAll(next, cs[1..]));
    }
  }

  /** Samples per frame: 20 ms at 48 kHz, the Opus frame. */
  const SamplesPerFrame := 960

  /** A zero-filled block. */
  function Zeros(n: nat, width: nat): (c: Chunk)
    ensures WellShaped(c) && |c.rows| == n && c.width == width
    ensures forall i, j :: 0 <= i < n && 0 <= j < width ==> c.rows[i][j] == 0
  {
    Chunk(width, seq(n, _ => seq(width, _ => 0)))
  }

  /** `recv`'s length fix: short blocks are padded with zero rows of their own width, long ones cut. */
  function FitFrame(c: Chunk): (r: Chunk)
    ensures |r.rows| == SamplesPerFrame && r.width == c.width
    ensures r.rows[..Min(|c.rows|, SamplesPerFrame)] == c.rows[..Min(|c.rows|, SamplesPerFrame)]
    ensures forall i :: |c.rows| <= i < SamplesPerFrame ==> r.rows[i] == seq(c.width, _ => 0)
    ensures WellShaped(c) ==> WellShaped(r)
  {
    if |c.rows| < SamplesPerFrame then Chunk(c.width, c.rows + Zeros(SamplesPerFrame - |c.rows|, c.width).rows)
    else Chunk(c.width, c.rows[..SamplesPerFrame])
  }

  /** Fitting is idempotent, and a block of exactly 960 rows passes through unchanged. */
  lemma FitFrameStable(c: Chunk)
    ensures FitFrame(FitFrame(c)) == FitFrame(c)
    ensures |c.rows| == SamplesPerFrame ==> FitFrame(c) == c
  {
    var r := FitFrame(c);
    assert r.rows[..SamplesPerFrame] == r.rows;
    if |c.rows| == SamplesPerFrame {
      assert c.rows[..SamplesPerFrame] == c.rows;
    }
  }

  /** One `AudioFrame`: s16 samples, stereo or mono, with its pts in units of 1/rate seconds. */
  datatype AudioFrame = AudioFrame(stereo: bool, samples: nat, sampleRate: int, pts: int, data: Chunk)

  /** The stream opened on the chosen device. */
  datatype StreamParams = StreamParams(device: nat, channels: int, rate: int)

  /** `SystemAudioTrack`. */
  class SystemAudioTrack {
    const audioAvailable: bool
    const sampleRate: int
    const channels: int
    var timestamp: int
    var queue: seq<Chunk>
    var running: bool
    var stream: Option<StreamParams>
    var pyAudio: bool
    /** How many capture threads have been started. */
    var threadsStarted: nat

    predicate Valid()
      reads this
    {
      |queue| <= QueueSize && timestamp % SamplesPerFrame == 0 && timestamp >= 0
    }

    /** The constructor starts the capture when audio is available. */
    constructor(audioAvailable: bool, sampleRate: int := 48000, channels: int := 2)
      ensures Valid()
      ensures this.audioAvailable == audioAvailable && this.sampleRate == sampleRate && this.channels == channels
      ensures timestamp == 0 && queue == [] && stream.None? && !pyAudio
      ensures running == audioAvailable && threadsStarted == (if audioAvailable then 1 else 0)
    {
      this.audioAvailable := audioAvailable;
      this.sampleRate := sampleRate;
      this.channels := channels;
      timestamp := 0;
      queue := [];
      running := false;
      stream := None;
      pyAudio := false;
      threadsStarted := 0;
      new;
      if audioAvailable {
        StartCapture();
      }
    }

    /** `_start_capture`: nothing when already running, else mark running and start one capture thread. */
    method StartCapture()
      modifies this
      ensures running
      ensures threadsStarted == old(threadsStarted) + (if old(running) then 0 else 1)
      ensures timestamp == old(timestamp) && queue == old(queue) && stream == old(stream) && pyAudio == old(pyAudio)
    {
      if running {
        return;
      }
      running := true;
      threadsStarted := threadsStarted + 1;
    }

    /** `_cleanup_stream`. */
    method CleanupStream()
      modifies this
      ensures stream.None? && !pyAudio
      ensures running == old(running) && timestamp == old(timestamp) && queue == old(queue) && threadsStarted == old(threadsStarted)
    {
      stream := None;
      pyAudio := false;
    }

    /**
     * The capture thread up to its wait loop: choose the device, and open
     * the stream on it (`openOk`), or give up.  Without a device the track
     * stops running; a failed open releases everything but leaves the
     * track marked as running.
     */
    method OpenCapture(speakers: Option<Device>, devices: seq<Device>, openOk: bool) returns (device: Option<Device>)
      modifies this
      ensures device == (if speakers.None? then None else Some(LoopbackChoice(speakers.value, devices)))
      ensures device.None? ==> !running && stream.None? && !pyAudio
      ensures device.Some? && !openOk ==> running == old(running) && stream.None? && !pyAudio
      ensures device.Some? && openOk ==> running == old(running) && pyAudio
      ensures device.Some? && openOk ==> stream == Some(StreamParams(device.value.index, device.value.maxInputChannels, device.value.defaultSampleRate))
      ensures timestamp == old(timestamp) && queue == old(queue) && threadsStarted == old(threadsStarted)
    {
      pyAudio := true;
      device := FindLoopback(speakers, devices);
      if device.None? {
        running := false;
        CleanupStream();
        return;
      }
      if !openOk {
        CleanupStream();
        return;
      }
      stream := Some(StreamParams(device.value.index, device.value.maxInputChannels, device.value.defaultSampleRate));
    }

    /**
     * `audio_callback`: `data` are the int16 values delivered, `indices`
     * the rows picked when the device rate differs from the track's.
     */
    method OnAudio(data: seq<int>, deviceChannels: int, deviceRate: int, indices: seq<nat>)
      requires Valid()
      requires |data| % (if deviceChannels > 1 then deviceChannels else 1) == 0
      requires forall k :: 0 <= k < |indices| ==> indices[k] < |data| / (if deviceChannels > 1 then deviceChannels else 1)
      modifies this
      ensures Valid()
      ensures var shaped := Reshape(data, deviceChannels);
        var picked := if deviceRate != sampleRate then PickRows(shaped, indices) else shaped;
        queue == Enqueue(old(queue), AdjustChannelsAsWritten(picked, channels))
      ensures timestamp == old(timestamp) && running == old(running) && stream == old(stream)
    {
      var chunk := Reshape(data, deviceChannels);
      if deviceRate != sampleRate {
        chunk := PickRows(chunk, indices);
      }
      chunk := AdjustChannelsAsWritten(chunk, channels);
      queue := Enqueue(queue, chunk);
    }

    /**
     * `recv`: the oldest queued block (silence when audio is unavailable,
     * the track is not running or nothing arrived), fitted to 960 rows and
     * stamped with the running timestamp, which then advances by 960.
     */
    method Recv() returns (f: AudioFrame)
      requires Valid()
      modifies this
      ensures Valid()
      ensures f.samples == SamplesPerFrame && |f.data.rows| == SamplesPerFrame && f.sampleRate == sampleRate
      ensures f.pts == old(timestamp) && timestamp == old(timestamp) + SamplesPerFrame
      ensures f.stereo <==> channels == 2
      ensures (!audioAvailable || !running || old(queue) == []) ==> queue == old(queue) && f.data == FitFrame(Zeros(SamplesPerFrame, if channels >= 0 then channels else 0))
      ensures audioAvailable && running && old(queue) != [] ==> queue == old(queue)[1..] && f.data == FitFrame(old(queue)[0])
      ensures running == old(running) && stream == old(stream)
    {
      var samples: Chunk;
      var width: nat := if channels >= 0 then channels else 0;
      if !audioAvailable || !running {
        samples := Zeros(SamplesPerFrame, width);
      } else if queue == [] {
        samples := Zeros(SamplesPerFrame, width);
      } else {
        samples := queue[0];
        queue := queue[1..];
      }
      samples := FitFrame(samples);
      f := AudioFrame(channels == 2, SamplesPerFrame, sampleRate, timestamp, samples);
      timestamp := timestamp + SamplesPerFrame;
    }

    /** `stop`: stop running and release the stream. */
    method Stop()
      modifies this
      ensures !running && stream.None? && !pyAudio
      ensures timestamp == old(timestamp) && queue == old(queue)
    {
      running := false;
      CleanupStream();
    }
  }

  /** `get_audio_track`: no track without audio, else a fresh, running one per connection. */
  method GetAudioTrack(audioAvailable: bool) returns (t: SystemAudioTrack?)
    ensures t == null <==> !audioAvailable
    ensures t != null ==> fresh(t) && t.Valid() && t.running && t.timestamp == 0 && t.channels == 2 && t.sampleRate == 48000
  {
    if !audioAvailable {
      return null;
    }
    t := new SystemAudioTrack(true);
  }
}
