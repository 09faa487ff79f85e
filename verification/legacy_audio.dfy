/**
 * The system-audio capture of the legacy WebSocket server: a set of
 * listener queues, a capture thread that reads raw 16-bit chunks and puts
 * each into every listener's queue without blocking, and the start/stop
 * life cycle around the WASAPI loopback stream.
 */
module LegacyAudio {
  import opened Common
  import opened Wasapi

  /** A raw chunk as `stream.read` returns it. */
  type Packet = seq<byte>

  /** An `asyncio.Queue`: its `maxsize` (0 or less meaning unbounded) and what it holds. */
  datatype ListenerQueue = ListenerQueue(maxsize: int, items: seq<Packet>)

  predicate Full(q: ListenerQueue) {
    q.maxsize > 0 && |q.items| >= q.maxsize
  }

  /** `put_nowait`, with `QueueFull` swallowed: a full queue keeps what it had. */
  function PutNowait(q: ListenerQueue, data: Packet): (r: ListenerQueue)
    ensures r.maxsize == q.maxsize
    ensures Full(q) ==> r == q
    ensures !Full(q) ==> r.items == q.items + [data]
  {
    if Full(q) then q else q.(items := q.items + [data])
  }

  /** A chunk offered to every registered listener. */
  function Deliver(queues: map<nat, ListenerQueue>, listeners: set<nat>, data: Packet): (r: map<nat, ListenerQueue>)
    ensures r.Keys == queues.Keys
    ensures forall q :: q in queues && q in listeners ==> r[q] == PutNowait(queues[q], data)
    ensures forall q :: q in queues && q !in listeners ==> r[q] == queues[q]
  {
    map q | q in queues :: if q in listeners then PutNowait(queues[q], data) else queues[q]
  }

  /** A listener whose queue is full misses the chunk; every other listener still receives it, and no queue ever exceeds its bound. */
  lemma FullQueueMissesOnlyItself(queues: map<nat, ListenerQueue>, listeners: set<nat>, data: Packet, full: nat)
    requires full in queues && full in listeners && Full(queues[full])
    requires forall q :: q in queues && queues[q].maxsize > 0 ==> |queues[q].items| <= queues[q].maxsize
    ensures Deliver(queues, listeners, data)[full] == queues[full]
    ensures forall q :: q in queues && q in listeners && !Full(queues[q]) ==>
      Deliver(queues, listeners, data)[q].items == queues[q].items + [data]
    ensures var r := Deliver(queues, listeners, data);
      forall q :: q in r && r[q].maxsize > 0 ==> |r[q].items| <= r[q].maxsize
  {
  }

  /** Successive chunks, each offered to every listener. */
  function DeliverAll(queues: map<nat, ListenerQueue>, listeners: set<nat>, chunks: seq<Packet>): map<nat, ListenerQueue>
    decreases |chunks|
  {
    if chunks == [] then queues
    else Deliver(DeliverAll(queues, listeners, chunks[..|chunks| - 1]), listeners, chunks[|chunks| - 1])
  }

  /** A listener with an unbounded queue receives every chunk, in order. */
  lemma {:induction false} UnboundedGetsEverything(queues: map<nat, ListenerQueue>, listeners: set<nat>, chunks: seq<Packet>, q: nat)
    requires q in queues && q in listeners && queues[q].maxsize <= 0
    ensures q in DeliverAll(queues, listeners, chunks)
    ensures DeliverAll(queues, listeners, chunks)[q] == queues[q].(items := queues[q].items + chunks)
    decreases |chunks|
  {
    if chunks == [] {
      assert queues[q].items + chunks == queues[q].items;
    } else {
      var init := chunks[..|chunks| - 1];
      UnboundedGetsEverything(queues, listeners, init, q);
      assert chunks == init + [chunks[|chunks| - 1]];
    }
  }

  /** The chunks read before the first failed read (None). */
  function ReadsBeforeError(outcomes: seq<Option<Packet>>): (r: seq<Packet>)
    ensures |r| <= |outcomes|
    ensures forall i :: 0 <= i < |r| ==> outcomes[i] == Some(r[i])
    ensures |r| < |outcomes| ==> outcomes[|r|].None?
    decreases |outcomes|
  {
    if outcomes == [] || outcomes[0].None? then [] else [outcomes[0].value] + ReadsBeforeError(outcomes[1..])
  }

  /** The stream that `start` opened. */
  datatype OpenStream = OpenStream(device: nat, channels: int, rate: int)

  /** `AudioCapture`; `audio` and `thread` say whether a PyAudio handle and a capture thread are held. */
  class AudioCapture {
    var sampleRate: int
    const channels: int
    var isRunning: bool
    var listeners: set<nat>
    /** Every listener queue known so far, registered or not. */
    var queues: map<nat, ListenerQueue>
    var stream: Option<OpenStream>
    var audio: bool
    var thread: bool
    var deviceInfo: Option<Device>

    predicate Valid()
      reads this
    {
      listeners <= queues.Keys
    }

    constructor(sampleRate: int := 48000, channels: int := 2)
      ensures Valid()
      ensures this.sampleRate == sampleRate && this.channels == channels
      ensures !isRunning && listeners == {} && queues == map[] && stream.None? && !audio && !thread && deviceInfo.None?
    {
      this.sampleRate := sampleRate;
      this.channels := channels;
      isRunning := false;
      listeners := {};
      queues := map[];
      stream := None;
      audio := false;
      thread := false;
      deviceInfo := None;
    }

    /** `add_listener`: registering a queue twice registers it once; `maxsize` is that of a queue not seen before. */
    method AddListener(q: nat, maxsize: int)
      requires Valid()
      modifies this
      ensures Valid()
      ensures listeners == old(listeners) + {q}
      ensures q in old(queues) ==> queues == old(queues)
      ensures q !in old(queues) ==> queues == old(queues)[q := ListenerQueue(maxsize, [])]
      ensures isRunning == old(isRunning) && stream == old(stream) && sampleRate == old(sampleRate)
    {
      listeners := listeners + {q};
      if q !in queues {
        queues := queues[q := ListenerQueue(maxsize, [])];
      }
    }

    /** `remove_listener`: a set discard, so removing a queue that is not registered changes nothing. */
    method RemoveListener(q: nat)
      requires Valid()
      modifies this
      ensures Valid()
      ensures listeners == old(listeners) - {q}
      ensures q !in old(listeners) ==> listeners == old(listeners)
      ensures queues == old(queues) && isRunning == old(isRunning) && stream == old(stream)
    {
      listeners := listeners - {q};
    }

    /**
     * `_find_loopback_device`: None without an audio handle, and otherwise
     * the shared WASAPI search (`speakers` is None when looking up the
     * default output device raised).
     */
    method FindLoopbackDevice(speakers: Option<Device>, devices: seq<Device>) returns (r: Option<Device>)
      ensures !audio || speakers.None? ==> r.None?
      ensures audio && speakers.Some? ==> r == Some(LoopbackChoice(speakers.value, devices))
    {
      if !audio {
        return None;
      }
      r := FindLoopback(speakers, devices);
    }

    /** One chunk put into every registered listener's queue, in turn. */
    method BroadcastChunk(data: Packet)
      requires Valid()
      modifies this
      ensures Valid()
      ensures queues == Deliver(old(queues), listeners, data)
      ensures listeners == old(listeners) && isRunning == old(isRunning) && stream == old(stream)
    {
      var todo := listeners;
      ghost var start := queues;
      while todo != {}
        invariant todo <= listeners && listeners <= queues.Keys
        invariant listeners == old(listeners) && isRunning == old(isRunning) && stream == old(stream)
        invariant queues.Keys == start.Keys
        invariant forall q :: q in start && q in listeners && q !in todo ==> queues[q] == PutNowait(start[q], data)
        invariant forall q :: q in start && (q !in listeners || q in todo) ==> queues[q] == start[q]
        decreases todo
      {
        var q :| q in todo;
        queues := queues[q := PutNowait(queues[q], data)];
        todo := todo - {q};
      }
      assert queues == Deliver(start, listeners, data);
    }

    /**
     * `_audio_thread`: while running with an open stream, read a chunk and
     * broadcast it; the first failed read ends the thread.  `outcomes` are
     * the outcomes of successive reads.
     */
    method AudioThread(outcomes: seq<Option<Packet>>) returns (count: nat)
      requires Valid()
      modifies this
      ensures Valid()
      ensures !isRunning || stream.None? ==> count == 0 && queues == old(queues)
      ensures isRunning && stream.Some? ==> count == |ReadsBeforeError(outcomes)|
      ensures queues == DeliverAll(old(queues), listeners, ReadsBeforeError(outcomes)[..count])
      ensures listeners == old(listeners) && isRunning == old(isRunning) && stream == old(stream)
    {
      count := 0;
      if !isRunning || stream.None? {
        return;
      }
      ghost var start := queues;
      var chunks := ReadsBeforeError(outcomes);
      while count < |outcomes| && outcomes[count].Some?
        invariant count <= |chunks| && chunks == ReadsBeforeError(outcomes)
        invariant Valid()
        invariant queues == DeliverAll(start, listeners, chunks[..count])
        invariant listeners == old(listeners) && isRunning == old(isRunning) && stream == old(stream)
        decreases |outcomes| - count
      {
        BroadcastChunk(outcomes[count].value);
        assert chunks[..count + 1][..count] == chunks[..count];
        count := count + 1;
      }
      assert chunks[..count] == chunks;
    }

    /**
     * `start`.  `available` is whether PyAudio could be imported,
     * `speakers` and `devices` what the device queries report, `openOk`
     * whether opening the stream succeeded.
     */
    method Start(available: bool, speakers: Option<Device>, devices: seq<Device>, openOk: bool) returns (ok: bool)
      requires Valid()
      modifies this
      ensures Valid()
      ensures !available ==> !ok && isRunning == old(isRunning) && stream == old(stream) && sampleRate == old(sampleRate) && audio == old(audio)
      ensures available && old(isRunning) ==> ok && isRunning && stream == old(stream) && sampleRate == old(sampleRate) && audio == old(audio)
      ensures available && !old(isRunning) && speakers.None? ==> !ok && !isRunning && !audio && sampleRate == old(sampleRate)
      ensures available && !old(isRunning) && speakers.Some? ==>
        var d := LoopbackChoice(speakers.value, devices);
        deviceInfo == Some(d) && sampleRate == d.defaultSampleRate
        && (ok <==> openOk) && isRunning == openOk && audio == openOk && thread == (openOk || old(thread))
        && (openOk ==> stream == Some(OpenStream(d.index, channels, d.defaultSampleRate)))
        && (!openOk ==> stream == old(stream))
      ensures listeners == old(listeners) && queues == old(queues)
    {
      if !available {
        return false;
      }
      if isRunning {
        return true;
      }
      audio := true;
      var device := FindLoopbackDevice(speakers, devices);
      if device.None? {
        audio := false;
        return false;
      }
      deviceInfo := device;
      var rate := device.value.defaultSampleRate;
      if rate != sampleRate {
        sampleRate := rate;
      }
      if !openOk {
        audio := false;
        return false;
      }
      stream := Some(OpenStream(device.value.index, channels, sampleRate));
      isRunning := true;
      thread := true;
      return true;
    }

    /** `stop`: whatever was running, nothing is held afterwards. */
    method Stop()
      requires Valid()
      modifies this
      ensures Valid()
      ensures !isRunning && !thread && stream.None? && !audio
      ensures listeners == old(listeners) && queues == old(queues) && sampleRate == old(sampleRate)
    {
      isRunning := false;
      thread := false;
      stream := None;
      audio := false;
    }
  }
}
