/**
 * The WASAPI loopback device search shared by both Python audio
 * captures: the default output device when it already is a loopback
 * device, else the first loopback device whose name contains the default
 * device's name, else the first loopback device, else the default device.
 */
module Wasapi {
  import opened Common
  import opened Text

  /** What `get_device_info_by_index` reports about a device. */
  datatype Device = Device(index: nat, name: string, loopback: bool, maxInputChannels: int, defaultSampleRate: int)

  /** A loopback device, whose name contains `name` when one is given. */
  predicate Candidate(d: Device, name: Option<string>) {
    d.loopback && (name.None? || Contains(d.name, name.value))
  }

  /** The position of the first candidate, if there is one. */
  function FirstCandidate(devices: seq<Device>, name: Option<string>): (r: Option<nat>)
    ensures r.Some? ==> r.value < |devices| && Candidate(devices[r.value], name)
    ensures r.Some? ==> forall j :: 0 <= j < r.value ==> !Candidate(devices[j], name)
    ensures r.None? ==> forall j :: 0 <= j < |devices| ==> !Candidate(devices[j], name)
    decreases |devices|
  {
    if devices == [] then None
    else if Candidate(devices[0], name) then Some(0)
    else match FirstCandidate(devices[1..], name)
      case None => None
      case Some(i) => Some(i + 1)
  }

  /** The device chosen once the default output device is known. */
  function LoopbackChoice(speakers: Device, devices: seq<Device>): Device {
    if speakers.loopback then speakers
    else match FirstCandidate(devices, Some(speakers.name))
      case Some(i) => devices[i]
      case None =>
        match FirstCandidate(devices, None)
        case Some(i) => devices[i]
        case None => speakers
  }

  /**
   * The four steps of the search, each taken only when the ones before it
   * found nothing; a loopback device is chosen whenever one exists.
   */
  lemma LoopbackOrder(speakers: Device, devices: seq<Device>)
    ensures speakers.loopback ==> LoopbackChoice(speakers, devices) == speakers
    ensures !speakers.loopback && (exists i :: 0 <= i < |devices| && Candidate(devices[i], Some(speakers.name))) ==>
      Candidate(LoopbackChoice(speakers, devices), Some(speakers.name))
    ensures (exists i :: 0 <= i < |devices| && devices[i].loopback) ==> LoopbackChoice(speakers, devices).loopback
    ensures !LoopbackChoice(speakers, devices).loopback ==> LoopbackChoice(speakers, devices) == speakers
    ensures LoopbackChoice(speakers, devices) == speakers || LoopbackChoice(speakers, devices) in devices
  {
    if !speakers.loopback && (exists i :: 0 <= i < |devices| && devices[i].loopback) {
      var i :| 0 <= i < |devices| && devices[i].loopback;
      assert Candidate(devices[i], None);
    }
  }

  /**
   * `_find_loopback_device`'s two searches; `speakers` is None when
   * looking up the default output device raised, which yields None.
   */
  method FindLoopback(speakers: Option<Device>, devices: seq<Device>) returns (r: Option<Device>)
    ensures speakers.None? ==> r.None?
    ensures speakers.Some? ==> r == Some(LoopbackChoice(speakers.value, devices))
  {
    if speakers.None? {
      return None;
    }
    var def := speakers.value;
    if !def.loopback {
      var i := 0;
      while i < |devices|
        invariant 0 <= i <= |devices|
        invariant forall j :: 0 <= j < i ==> !Candidate(devices[j], Some(def.name))
      {
        if devices[i].loopback && Contains(devices[i].name, def.name) {
          return Some(devices[i]);
        }
        i := i + 1;
      }
      i := 0;
      while i < |devices|
        invariant 0 <= i <= |devices|
        invariant forall j :: 0 <= j < i ==> !Candidate(devices[j], None)
      {
        if devices[i].loopback {
          return Some(devices[i]);
        }
        i := i + 1;
      }
    }
    return Some(def);
  }
}
