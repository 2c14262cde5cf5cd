/**
 * The older device list and session object of core.py: the list is extended
 * rather than rebuilt on every `initialize`, only endpoints that fail to
 * activate are skipped, and a session looks its volume interface up once by
 * exact process name, the last matching session winning.
 */
module Legacy {
  import opened Base
  import opened Driver
  import opened Devices
  import opened Strings

  /** The device an activated endpoint becomes in core.py: its friendly name as it is, flagged default by id. */
  function LegacyCandidate(m: Mixer, defaultId: string): DeviceView
  {
    DeviceView(m.id, m.friendlyName, m.id == defaultId, m.endpoint)
  }

  /** One iteration of the loop in `AudioDevices.initialize`. */
  function LegacyStep(before: seq<DeviceView>, m: Mixer, defaultId: string): seq<DeviceView>
  {
    if m.endpoint == null then before
    else if m.id == defaultId then [LegacyCandidate(m, defaultId)] + before
    else before + [LegacyCandidate(m, defaultId)]
  }

  /** The list `start` after the loop has seen the enumeration `ms`. */
  function LegacyExtend(start: seq<DeviceView>, ms: seq<Mixer>, defaultId: string): seq<DeviceView>
  {
    if |ms| == 0 then start else LegacyStep(LegacyExtend(start, ms[..|ms| - 1], defaultId), ms[|ms| - 1], defaultId)
  }

  /** The activated endpoints with the default id, as devices, in enumeration order. */
  function ActivatedDefaults(ms: seq<Mixer>, defaultId: string): (r: seq<DeviceView>)
    ensures forall k :: 0 <= k < |r| ==> r[k].isDefault && r[k].endpoint != null
  {
    if |ms| == 0 then []
    else
      var m := ms[|ms| - 1];
      ActivatedDefaults(ms[..|ms| - 1], defaultId) + (if m.endpoint != null && m.id == defaultId then [LegacyCandidate(m, defaultId)] else [])
  }

  /** The other activated endpoints, as devices, in enumeration order. */
  function ActivatedOthers(ms: seq<Mixer>, defaultId: string): (r: seq<DeviceView>)
    ensures forall k :: 0 <= k < |r| ==> !r[k].isDefault && r[k].endpoint != null
  {
    if |ms| == 0 then []
    else
      var m := ms[|ms| - 1];
      ActivatedOthers(ms[..|ms| - 1], defaultId) + (if m.endpoint != null && m.id != defaultId then [LegacyCandidate(m, defaultId)] else [])
  }

  /**
   * The loop wraps the list it starts from: the default devices in front (the
   * last one seen first), then the old list untouched, then the other devices
   * in enumeration order.
   */
  lemma {:induction false} LegacyExtendShape(start: seq<DeviceView>, ms: seq<Mixer>, defaultId: string)
    ensures LegacyExtend(start, ms, defaultId) == Reverse(ActivatedDefaults(ms, defaultId)) + start + ActivatedOthers(ms, defaultId)
  {
    if |ms| > 0 {
      var init := ms[..|ms| - 1];
      var m := ms[|ms| - 1];
      LegacyExtendShape(start, init, defaultId);
      var d := ActivatedDefaults(init, defaultId);
      var o := ActivatedOthers(init, defaultId);
      if m.endpoint != null && m.id == defaultId {
        var c := LegacyCandidate(m, defaultId);
        assert ActivatedDefaults(ms, defaultId) == d + [c];
        assert ActivatedOthers(ms, defaultId) == o + [] == o;
        assert (d + [c])[..|d|] == d;
        assert Reverse(d + [c]) == [c] + Reverse(d);
      } else if m.endpoint != null {
        var c := LegacyCandidate(m, defaultId);
        assert LegacyExtend(start, ms, defaultId) == LegacyExtend(start, init, defaultId) + [c];
        assert ActivatedDefaults(ms, defaultId) == d + [] == d;
        assert ActivatedOthers(ms, defaultId) == o + [c];
        assert Reverse(d) + start + o + [c] == Reverse(d) + start + (o + [c]);
      } else {
        assert LegacyExtend(start, ms, defaultId) == LegacyExtend(start, init, defaultId);
        assert ActivatedDefaults(ms, defaultId) == d + [] == d;
        assert ActivatedOthers(ms, defaultId) == o + [] == o;
      }
    }
  }

  /** Nothing is ever removed: a second `initialize` over the same enumeration lists every activated endpoint twice. */
  lemma RepeatedInitializeDuplicates(ms: seq<Mixer>, defaultId: string)
    ensures |LegacyExtend(LegacyExtend([], ms, defaultId), ms, defaultId)| == 2 * |LegacyExtend([], ms, defaultId)|
    ensures LegacyExtend([], ms, defaultId) != [] ==> LegacyExtend(LegacyExtend([], ms, defaultId), ms, defaultId) != LegacyExtend([], ms, defaultId)
  {
    var once := LegacyExtend([], ms, defaultId);
    LegacyExtendShape([], ms, defaultId);
    LegacyExtendShape(once, ms, defaultId);
  }

  /** `AudioDevices` of core.py. */
  class LegacyDevices {
    var defaultId: string
    var devices: seq<DeviceView>

    constructor ()
      ensures defaultId == "" && devices == []
    {
      defaultId := "";
      devices := [];
    }

    /**
     * `initialize`: `defaultId` is the id of the default endpoint and `ms` the
     * enumeration (an enumeration failure is an empty `ms`); the current list
     * is extended, never cleared.
     */
    method Initialize(ms: seq<Mixer>, defaultId: string)
      modifies this
      ensures this.defaultId == defaultId
      ensures devices == LegacyExtend(old(devices), ms, defaultId)
    {
      this.defaultId := defaultId;
      for i := 0 to |ms|
        invariant this.defaultId == defaultId
        invariant devices == LegacyExtend(old(devices), ms[..i], defaultId)
      {
        assert ms[..i + 1][..i] == ms[..i];
        var m := ms[i];
        if m.endpoint == null {
          continue;
        }
        var device := DeviceView(m.id, m.friendlyName, false, m.endpoint);
        if device.id == this.defaultId {
          device := device.(isDefault := true);
          devices := [device] + devices;
        } else {
          devices := devices + [device];
        }
      }
      assert ms[..|ms|] == ms;
    }

    /** `devices[index]`, counting negative indexes from the end; None where it raises IndexError. */
    function Get(index: int): (r: Option<DeviceView>)
      reads this
      ensures r.None? <==> !(-|devices| <= index < |devices|)
      ensures 0 <= index < |devices| ==> r == Some(devices[index])
      ensures -|devices| <= index < 0 ==> r == Some(devices[|devices| + index])
    {
      At(devices, index)
    }
  }

  /** Does this live session belong to a process named exactly `name`? */
  predicate ExactMatch(s: LiveSession, name: string)
  {
    s.process.Some? && s.process.value == name
  }

  /** The position of the last live session of the process named `name`. */
  function LastExactIndex(live: seq<LiveSession>, name: string): (r: Option<nat>)
    ensures r.Some? ==> r.value < |live| && ExactMatch(live[r.value], name)
    ensures r.Some? ==> forall j :: r.value < j < |live| ==> !ExactMatch(live[j], name)
    ensures r.None? <==> forall j :: 0 <= j < |live| ==> !ExactMatch(live[j], name)
  {
    if |live| == 0 then None
    else if ExactMatch(live[|live| - 1], name) then Some(|live| - 1)
    else
      var r := LastExactIndex(live[..|live| - 1], name);
      assert forall j :: 0 <= j < |live| - 1 ==> live[..|live| - 1][j] == live[j];
      r
  }

  /** The interface the lookup loop ends with: that of the last exact match, null when there is none. */
  function LastExactVolume(live: seq<LiveSession>, name: string): Volume?
  {
    match LastExactIndex(live, name)
    case Some(k) => live[k].volume
    case None => null
  }

  /** `AudioSession` of core.py. */
  class LegacySession {
    const name: string
    var volume: Volume?

    constructor (name: string)
      ensures this.name == name && volume == null
    {
      this.name := name;
      volume := null;
    }

    /** `title`: the name without its last dot-separated piece, the other dots as spaces. */
    function Title(): string
    {
      DottedTitle(name)
    }

    /** `volume`: looked up among the live sessions on first use, then kept. */
    method GetVolume(live: seq<LiveSession>) returns (v: Volume?)
      modifies this
      ensures old(volume) != null ==> v == old(volume)
      ensures old(volume) == null ==> v == LastExactVolume(live, name)
      ensures volume == v
    {
      if volume == null {
        for i := 0 to |live|
          invariant volume == LastExactVolume(live[..i], name)
        {
          assert live[..i + 1][..i] == live[..i];
          if live[i].process.Some? && live[i].process.value == name {
            volume := live[i].volume;
          }
        }
        assert live[..|live|] == live;
      }
      v := volume;
    }
  }
}
