/**
 * The list of audio devices (VAAudioDevices in audiocore.py): built from the
 * endpoint enumeration, with hidden and unusable endpoints left out and
 * the default device at the front.
 */
module Devices {
  import opened Base
  import opened Driver
  import opened Audio

  /** What the list records about one device. */
  datatype DeviceView = DeviceView(id: string, name: string, isDefault: bool, endpoint: Volume?)

  function View(d: AudioSource): DeviceView
  {
    DeviceView(d.id, d.name, d.isDefault, d.volume)
  }

  function ViewsOf(ds: seq<AudioSource>): (r: seq<DeviceView>)
    ensures |r| == |ds|
  {
    if |ds| == 0 then [] else ViewsOf(ds[..|ds| - 1]) + [View(ds[|ds| - 1])]
  }

  lemma {:induction false} ViewsOfIndex(ds: seq<AudioSource>)
    ensures forall k :: 0 <= k < |ds| ==> ViewsOf(ds)[k] == View(ds[k])
  {
    if |ds| > 0 {
      ViewsOfIndex(ds[..|ds| - 1]);
    }
  }

  lemma ViewsOfConcat(a: seq<AudioSource>, b: seq<AudioSource>)
    ensures ViewsOf(a + b) == ViewsOf(a) + ViewsOf(b)
  {
    ViewsOfIndex(a);
    ViewsOfIndex(b);
    ViewsOfIndex(a + b);
    assert |ViewsOf(a + b)| == |ViewsOf(a) + ViewsOf(b)|;
    forall k | 0 <= k < |a + b| ensures ViewsOf(a + b)[k] == (ViewsOf(a) + ViewsOf(b))[k] {
      if k < |a| { assert (a + b)[k] == a[k]; } else { assert (a + b)[k] == b[k - |a|]; }
    }
  }

  lemma HasDefaultViews(ds: seq<AudioSource>)
    ensures HasDefault(ViewsOf(ds)) <==> exists k | 0 <= k < |ds| :: ds[k].isDefault
  {
    ViewsOfIndex(ds);
    if exists k | 0 <= k < |ds| :: ds[k].isDefault {
      var k :| 0 <= k < |ds| && ds[k].isDefault;
      assert ViewsOf(ds)[k].isDefault;
    }
  }

  /** `mixer.FriendlyName or mixer.id or ''`. */
  function NameOf(m: Mixer): string
  {
    if m.friendlyName != "" then m.friendlyName else m.id
  }

  /** The device an enumerated endpoint becomes, flagged default when its id is the default endpoint's. */
  function Candidate(m: Mixer, defaultId: string): DeviceView
  {
    DeviceView(m.id, NameOf(m), m.id == defaultId, m.endpoint)
  }

  /** An endpoint is listed when it activates, has an id and a name, and is not hidden. */
  predicate Admitted(m: Mixer, hidden: set<string>)
  {
    m.endpoint != null && m.id != "" && NameOf(m) != "" && m.id !in hidden
  }

  /** One iteration of the scan loop: an admitted endpoint is inserted at the front when it is the default, appended otherwise. */
  function AfterMixer(before: seq<DeviceView>, m: Mixer, defaultId: string, hidden: set<string>): seq<DeviceView>
  {
    if !Admitted(m, hidden) then before
    else if m.id == defaultId then [Candidate(m, defaultId)] + before
    else before + [Candidate(m, defaultId)]
  }

  /** The list after the scan loop has seen `ms`. */
  function Scanned(ms: seq<Mixer>, defaultId: string, hidden: set<string>): seq<DeviceView>
  {
    if |ms| == 0 then [] else AfterMixer(Scanned(ms[..|ms| - 1], defaultId, hidden), ms[|ms| - 1], defaultId, hidden)
  }

  /** The admitted endpoints carrying the default id, as devices, in enumeration order. */
  function DefaultsOf(ms: seq<Mixer>, defaultId: string, hidden: set<string>): (r: seq<DeviceView>)
    ensures forall k :: 0 <= k < |r| ==> r[k].isDefault
  {
    if |ms| == 0 then []
    else
      var m := ms[|ms| - 1];
      DefaultsOf(ms[..|ms| - 1], defaultId, hidden) + (if Admitted(m, hidden) && m.id == defaultId then [Candidate(m, defaultId)] else [])
  }

  /** The other admitted endpoints, as devices, in enumeration order. */
  function OthersOf(ms: seq<Mixer>, defaultId: string, hidden: set<string>): (r: seq<DeviceView>)
    ensures forall k :: 0 <= k < |r| ==> !r[k].isDefault
  {
    if |ms| == 0 then []
    else
      var m := ms[|ms| - 1];
      OthersOf(ms[..|ms| - 1], defaultId, hidden) + (if Admitted(m, hidden) && m.id != defaultId then [Candidate(m, defaultId)] else [])
  }

  function Reverse<T>(s: seq<T>): (r: seq<T>)
    ensures |r| == |s|
  {
    if |s| == 0 then [] else [s[|s| - 1]] + Reverse(s[..|s| - 1])
  }

  /** The scan puts the default devices first (the last one seen at index 0), then the others in enumeration order. */
  lemma {:induction false} ScannedShape(ms: seq<Mixer>, defaultId: string, hidden: set<string>)
    ensures Scanned(ms, defaultId, hidden) == Reverse(DefaultsOf(ms, defaultId, hidden)) + OthersOf(ms, defaultId, hidden)
  {
    if |ms| > 0 {
      var init := ms[..|ms| - 1];
      var m := ms[|ms| - 1];
      ScannedShape(init, defaultId, hidden);
      var d := DefaultsOf(init, defaultId, hidden);
      var o := OthersOf(init, defaultId, hidden);
      if Admitted(m, hidden) && m.id == defaultId {
        var c := Candidate(m, defaultId);
        assert DefaultsOf(ms, defaultId, hidden) == d + [c];
        assert (d + [c])[..|d|] == d;
        assert Reverse(d + [c]) == [c] + Reverse(d);
      } else if Admitted(m, hidden) {
        var c := Candidate(m, defaultId);
        assert Scanned(ms, defaultId, hidden) == Scanned(init, defaultId, hidden) + [c];
        assert DefaultsOf(ms, defaultId, hidden) == d + [] == d;
        assert OthersOf(ms, defaultId, hidden) == o + [c];
        assert Reverse(d) + o + [c] == Reverse(d) + (o + [c]);
      } else {
        assert Scanned(ms, defaultId, hidden) == Scanned(init, defaultId, hidden);
        assert DefaultsOf(ms, defaultId, hidden) == d + [] == d;
        assert OthersOf(ms, defaultId, hidden) == o + [] == o;
      }
    }
  }

  /** `getDeviceNameByID`: the friendly name of the first endpoint with that id, " " when there is none. */
  function NameById(ms: seq<Mixer>, id: string): string
  {
    if |ms| == 0 then " "
    else if ms[0].id == id then ms[0].friendlyName
    else NameById(ms[1..], id)
  }

  /** Without an endpoint of that id the name is a single space. */
  lemma {:induction false} NameByIdMissing(ms: seq<Mixer>, id: string)
    requires forall k :: 0 <= k < |ms| ==> ms[k].id != id
    ensures NameById(ms, id) == " "
  {
    if |ms| > 0 {
      assert forall k :: 1 <= k < |ms| ==> ms[k] == ms[1..][k - 1];
      NameByIdMissing(ms[1..], id);
    }
  }

  /** Otherwise it is the friendly name of the first endpoint with that id. */
  lemma {:induction false} NameByIdFirst(ms: seq<Mixer>, id: string, k: nat)
    requires k < |ms| && ms[k].id == id
    requires forall j :: 0 <= j < k ==> ms[j].id != id
    ensures NameById(ms, id) == ms[k].friendlyName
  {
    if k > 0 {
      assert forall j :: 0 <= j < k - 1 ==> ms[1..][j] == ms[j + 1];
      NameByIdFirst(ms[1..], id, k - 1);
    }
  }

  /** The default device added when the scan found none: id "default" when the default endpoint reports none. */
  function Synthesized(ms: seq<Mixer>, defaultId: string, defaultEndpoint: Volume): DeviceView
  {
    DeviceView(if defaultId != "" then defaultId else "default", NameById(ms, defaultId), true, defaultEndpoint)
  }

  predicate HasDefault(vs: seq<DeviceView>)
  {
    exists k :: 0 <= k < |vs| && vs[k].isDefault
  }

  /** The devices the scan loop lists: none with `advanced` off. */
  function ScannedIf(advanced: bool, ms: seq<Mixer>, defaultId: string, hidden: set<string>): seq<DeviceView>
  {
    if advanced then Scanned(ms, defaultId, hidden) else []
  }

  /**
   * `initialize` raises: the scan listed no default device and the default
   * endpoint's activation, outside any `try`, fails (a null handle).
   */
  predicate Raises(advanced: bool, ms: seq<Mixer>, defaultId: string, defaultEndpoint: Volume?, hidden: set<string>)
  {
    !HasDefault(ScannedIf(advanced, ms, defaultId, hidden)) && defaultEndpoint == null
  }

  /** The device list `initialize` leaves: the list it returns, or the scanned list when it raises. */
  function Registry(advanced: bool, ms: seq<Mixer>, defaultId: string, defaultEndpoint: Volume?, hidden: set<string>): seq<DeviceView>
  {
    var scanned := ScannedIf(advanced, ms, defaultId, hidden);
    if HasDefault(scanned) || defaultEndpoint == null then scanned else [Synthesized(ms, defaultId, defaultEndpoint)] + scanned
  }

  /** The list lacks a default device exactly when `initialize` raised, and it is then the scanned list. */
  lemma RegistryRaises(advanced: bool, ms: seq<Mixer>, defaultId: string, defaultEndpoint: Volume?, hidden: set<string>)
    ensures !HasDefault(Registry(advanced, ms, defaultId, defaultEndpoint, hidden)) <==> Raises(advanced, ms, defaultId, defaultEndpoint, hidden)
    ensures Raises(advanced, ms, defaultId, defaultEndpoint, hidden) ==> Registry(advanced, ms, defaultId, defaultEndpoint, hidden) == ScannedIf(advanced, ms, defaultId, hidden)
  {
    var scanned := ScannedIf(advanced, ms, defaultId, hidden);
    if !HasDefault(scanned) && defaultEndpoint != null {
      assert Registry(advanced, ms, defaultId, defaultEndpoint, hidden)[0].isDefault;
    }
  }

  /** When `initialize` returns, the list is never empty and index 0 holds a device flagged default. */
  lemma RegistryDefaultFirst(advanced: bool, ms: seq<Mixer>, defaultId: string, defaultEndpoint: Volume?, hidden: set<string>)
    ensures !Raises(advanced, ms, defaultId, defaultEndpoint, hidden) ==>
      |Registry(advanced, ms, defaultId, defaultEndpoint, hidden)| >= 1 && Registry(advanced, ms, defaultId, defaultEndpoint, hidden)[0].isDefault
  {
    if advanced {
      ScannedShape(ms, defaultId, hidden);
      var d := DefaultsOf(ms, defaultId, hidden);
      var o := OthersOf(ms, defaultId, hidden);
      var s := Scanned(ms, defaultId, hidden);
      if |d| == 0 {
        assert s == o;
        assert !HasDefault(s);
      }
      if HasDefault(s) {
        assert s[0] == Reverse(d)[0] == d[|d| - 1];
      }
    }
  }

  /** With enumeration of all devices switched off, the list is exactly the synthesised default device, or empty when its activation raises. */
  lemma RegistryWithoutAdvanced(ms: seq<Mixer>, defaultId: string, defaultEndpoint: Volume?, hidden: set<string>)
    ensures Registry(false, ms, defaultId, defaultEndpoint, hidden) == if defaultEndpoint == null then [] else [Synthesized(ms, defaultId, defaultEndpoint)]
  {
  }

  /** The devices not flagged default are exactly the admitted endpoints without the default id, in enumeration order. */
  lemma {:induction false} RegistryOthers(advanced: bool, ms: seq<Mixer>, defaultId: string, defaultEndpoint: Volume?, hidden: set<string>)
    requires advanced
    ensures |OthersOf(ms, defaultId, hidden)| <= |Registry(advanced, ms, defaultId, defaultEndpoint, hidden)|
    ensures var r := Registry(advanced, ms, defaultId, defaultEndpoint, hidden);
      r[|r| - |OthersOf(ms, defaultId, hidden)|..] == OthersOf(ms, defaultId, hidden) &&
      forall k :: 0 <= k < |r| - |OthersOf(ms, defaultId, hidden)| ==> r[k].isDefault
  {
    ScannedShape(ms, defaultId, hidden);
    var d := Reverse(DefaultsOf(ms, defaultId, hidden));
    var o := OthersOf(ms, defaultId, hidden);
    ReverseDefaults(DefaultsOf(ms, defaultId, hidden));
    var s := d + o;
    assert ScannedIf(advanced, ms, defaultId, hidden) == s;
    var r := Registry(advanced, ms, defaultId, defaultEndpoint, hidden);
    if HasDefault(s) || defaultEndpoint == null {
      assert r == s;
      assert r[|r| - |o|..] == o;
      assert forall k :: 0 <= k < |r| - |o| ==> r[k] == d[k];
    } else {
      var syn := Synthesized(ms, defaultId, defaultEndpoint);
      assert r == [syn] + (d + o);
      assert r[|r| - |o|..] == o;
      assert forall k :: 1 <= k < |r| - |o| ==> r[k] == d[k - 1];
    }
  }

  lemma {:induction false} ReverseDefaults(d: seq<DeviceView>)
    requires forall k :: 0 <= k < |d| ==> d[k].isDefault
    ensures forall k :: 0 <= k < |Reverse(d)| ==> Reverse(d)[k].isDefault
  {
    if |d| > 0 {
      ReverseDefaults(d[..|d| - 1]);
      forall k | 0 <= k < |Reverse(d)| ensures Reverse(d)[k].isDefault {
        if k > 0 { assert Reverse(d)[k] == Reverse(d[..|d| - 1])[k - 1]; }
      }
    }
  }

  /** Every listed device other than a synthesised default comes from an admitted endpoint. */
  lemma {:induction false} ScannedAdmitted(ms: seq<Mixer>, defaultId: string, hidden: set<string>, k: nat)
    requires k < |Scanned(ms, defaultId, hidden)|
    ensures exists i :: 0 <= i < |ms| && Admitted(ms[i], hidden) && Scanned(ms, defaultId, hidden)[k] == Candidate(ms[i], defaultId)
  {
    var init := ms[..|ms| - 1];
    var m := ms[|ms| - 1];
    var before := Scanned(init, defaultId, hidden);
    var s := Scanned(ms, defaultId, hidden);
    if Admitted(m, hidden) && m.id == defaultId && k == 0 {
      assert s[0] == Candidate(ms[|ms| - 1], defaultId);
    } else if Admitted(m, hidden) && m.id != defaultId && k == |before| {
      assert s[k] == Candidate(ms[|ms| - 1], defaultId);
    } else {
      var j := if Admitted(m, hidden) && m.id == defaultId then k - 1 else k;
      assert s[k] == before[j];
      ScannedAdmitted(init, defaultId, hidden, j);
      var i :| 0 <= i < |init| && Admitted(init[i], hidden) && before[j] == Candidate(init[i], defaultId);
      assert init[i] == ms[i];
    }
  }

  /** When at most one admitted endpoint has the default id, only index 0 is flagged default. */
  lemma UniqueDefault(advanced: bool, ms: seq<Mixer>, defaultId: string, defaultEndpoint: Volume?, hidden: set<string>)
    requires |DefaultsOf(ms, defaultId, hidden)| <= 1
    ensures var r := Registry(advanced, ms, defaultId, defaultEndpoint, hidden);
      forall k :: 1 <= k < |r| ==> !r[k].isDefault
  {
    if advanced {
      ScannedShape(ms, defaultId, hidden);
      var d := DefaultsOf(ms, defaultId, hidden);
      var o := OthersOf(ms, defaultId, hidden);
      var s := Scanned(ms, defaultId, hidden);
      assert ScannedIf(advanced, ms, defaultId, hidden) == s;
      if !HasDefault(s) {
        forall k | 0 <= k < |s| ensures !s[k].isDefault { }
        var r := Registry(advanced, ms, defaultId, defaultEndpoint, hidden);
        assert r == s || (r[1..] == s);
      } else {
        forall k | 1 <= k < |s| ensures !s[k].isDefault {
          assert s[k] == o[k - |d|];
        }
      }
    }
  }

  /** VAAudioDevices: the detected devices. */
  class DeviceRegistry {
    var devices: seq<AudioSource>

    constructor ()
      ensures devices == []
    {
      devices := [];
    }

    /** The body of the scan loop for one endpoint: activation, filtering, then insertion or appending. */
    method AddMixer(m: Mixer, defaultId: string, hidden: map<string, string>) returns (added: AudioSource?)
      modifies this
      ensures added == null <==> !Admitted(m, hidden.Keys)
      ensures added == null ==> devices == old(devices)
      ensures added != null ==> fresh(added) && !added.isSession && View(added) == Candidate(m, defaultId)
      ensures added != null && m.id == defaultId ==> devices == [added] + old(devices)
      ensures added != null && m.id != defaultId ==> devices == old(devices) + [added]
    {
      added := null;
      if m.endpoint == null {
        return;
      }
      var device := new AudioSource.Device(m.id, NameOf(m), m.endpoint, m.id == defaultId);
      if device.id != "" && device.name != "" && device.id !in hidden {
        added := device;
        if device.id == defaultId {
          devices := [device] + devices;
        } else {
          devices := devices + [device];
        }
      }
    }

    /** The scan loop over the enumerated endpoints, starting from an empty list. */
    method ScanEndpoints(ms: seq<Mixer>, defaultId: string, hidden: map<string, string>)
      requires devices == []
      modifies this
      ensures ViewsOf(devices) == Scanned(ms, defaultId, hidden.Keys)
      ensures forall d | d in devices :: fresh(d) && !d.isSession
    {
      var i := 0;
      while i < |ms|
        invariant 0 <= i <= |ms|
        invariant ViewsOf(devices) == Scanned(ms[..i], defaultId, hidden.Keys)
        invariant forall d | d in devices :: fresh(d) && !d.isSession
      {
        assert ms[..i + 1][..i] == ms[..i];
        assert Scanned(ms[..i + 1], defaultId, hidden.Keys) == AfterMixer(Scanned(ms[..i], defaultId, hidden.Keys), ms[i], defaultId, hidden.Keys);
        ghost var before := devices;
        var added := AddMixer(ms[i], defaultId, hidden);
        if added != null {
          if ms[i].id == defaultId {
            ViewsOfConcat([added], before);
            assert ViewsOf(devices) == [Candidate(ms[i], defaultId)] + ViewsOf(before);
          } else {
            ViewsOfConcat(before, [added]);
            assert ViewsOf(devices) == ViewsOf(before) + [Candidate(ms[i], defaultId)];
          }
        }
        i := i + 1;
      }
      assert ms[..|ms|] == ms;
    }

    /**
     * `initialize`: the list is rebuilt from the enumeration `ms` (an
     * enumeration failure is an empty `ms`), the default endpoint's id and
     * volume interface (null when its activation fails), and the hidden
     * device ids. The endpoints are scanned only when `advanced` is on; the
     * synthesised default device takes its name from `ms` either way.
     * `raised` reports the uncaught activation error, which leaves the
     * scanned list behind.
     */
    method Initialize(ms: seq<Mixer>, defaultId: string, defaultEndpoint: Volume?, hidden: map<string, string>, advanced: bool) returns (raised: bool)
      modifies this
      ensures raised == Raises(advanced, ms, defaultId, defaultEndpoint, hidden.Keys)
      ensures ViewsOf(devices) == Registry(advanced, ms, defaultId, defaultEndpoint, hidden.Keys)
      ensures forall d | d in devices :: fresh(d) && !d.isSession
    {
      devices := [];
      if advanced {
        ScanEndpoints(ms, defaultId, hidden);
      }
      raised := AddDefaultIfMissing(ms, defaultId, defaultEndpoint);
    }

    /**
     * The end of `initialize`: without a device flagged default, one is
     * synthesised and put first; its activation raises (`raised`) when the
     * default endpoint has no handle, and the list is then left as it was.
     */
    method AddDefaultIfMissing(ms: seq<Mixer>, defaultId: string, defaultEndpoint: Volume?) returns (raised: bool)
      modifies this
      ensures raised <==> !HasDefault(ViewsOf(old(devices))) && defaultEndpoint == null
      ensures ViewsOf(devices) == if HasDefault(ViewsOf(old(devices))) || defaultEndpoint == null then ViewsOf(old(devices)) else [Synthesized(ms, defaultId, defaultEndpoint)] + ViewsOf(old(devices))
      ensures forall d | d in devices :: d in old(devices) || (fresh(d) && !d.isSession)
    {
      HasDefaultViews(devices);
      raised := false;
      if !exists k | 0 <= k < |devices| :: devices[k].isDefault {
        if defaultEndpoint == null {
          raised := true;
          return;
        }
        var device := new AudioSource.Device(if defaultId != "" then defaultId else "default", NameById(ms, defaultId), defaultEndpoint, true);
        assert View(device) == Synthesized(ms, defaultId, defaultEndpoint);
        ViewsOfConcat([device], devices);
        devices := [device] + devices;
      }
    }

    /** `len(devices)`. */
    function Length(): (r: nat)
      reads this
      ensures r == |ViewsOf(devices)|
    {
      |devices|
    }

    /** `devices[index]`, counting negative indexes from the end; None where it raises IndexError. */
    function Get(index: int): (r: Option<AudioSource>)
      reads this
      ensures r.None? <==> !(-|devices| <= index < |devices|)
      ensures 0 <= index < |devices| ==> r == Some(devices[index]) && View(r.value) == ViewsOf(devices)[index]
    {
      ViewsOfIndex(devices);
      At(devices, index)
    }
  }
}
