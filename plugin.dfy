/**
 * The global plugin of __init__.py: the cursor over the audio sources
 * (devices first, then the running processes), following the focused
 * application, the gestures that change the selected source, and what each
 * of them announces.
 */
module Plugin {
  import opened Base
  import opened Strings
  import opened Levels
  import opened Options
  import opened Driver
  import opened Configurations
  import opened Sessions
  import opened Audio
  import opened Devices

  /** The process name used when no application can be determined. */
  const UndefinedApp: string := "UndefinedCurrentApplicationName"
  /** Put before the name of the default device. */
  const DefaultDevicePrefix: string := "Default audio device: "
  /** The name shown for the first output device when it has none. */
  const SoundMapper: string := "Microsoft Sound Mapper"

  /** What the add-on says. */
  datatype Announcement =
    | Title(text: string)
    | Level(percent: int)
    | Muted
    | NotPlaying(app: string)
    | Channel(number: int)
    | NotSupported

  /** `announceVolumeLevel`: the level in percent, truncated toward zero. */
  function LevelAnnouncement(level: real): Announcement
  {
    Level(Truncate(level * 100.0))
  }

  /** What follows a source's name when status reports are on: muted, or its level. */
  function Status(muted: bool, level: real): Announcement
  {
    if muted then Muted else LevelAnnouncement(level)
  }

  /** The name a device is announced by. */
  function DeviceTitle(d: AudioSource): string
  {
    if d.isDefault then DefaultDevicePrefix + d.name else d.name
  }

  /** `getAllSessions` before duplicates are dropped: the named processes that are not hidden, in enumeration order. */
  function VisibleProcesses(live: seq<LiveSession>, hidden: seq<string>): (r: seq<string>)
    ensures forall k :: 0 <= k < |r| ==> r[k] != "" && r[k] !in hidden
    ensures |r| <= |live|
  {
    if |live| == 0 then []
    else
      var rest := VisibleProcesses(live[1..], hidden);
      if Named(live[0]) && ProcessName(live[0]) !in hidden then [ProcessName(live[0])] + rest else rest
  }

  /** The visible names are exactly the names of the named live sessions that are not hidden. */
  lemma {:induction false} VisibleProcessesMembers(live: seq<LiveSession>, hidden: seq<string>)
    ensures forall k :: 0 <= k < |live| && Named(live[k]) && ProcessName(live[k]) !in hidden ==> ProcessName(live[k]) in VisibleProcesses(live, hidden)
    ensures forall x :: x in VisibleProcesses(live, hidden) ==> exists k :: 0 <= k < |live| && Named(live[k]) && ProcessName(live[k]) == x
  {
    if |live| > 0 {
      VisibleProcessesMembers(live[1..], hidden);
      assert forall k :: 1 <= k < |live| ==> live[k] == live[1..][k - 1];
    }
  }

  /** `getAllSessions`: the visible process names, each listed once when `duplicates` is on. */
  function AllSessions(live: seq<LiveSession>, hidden: seq<string>, duplicates: bool): (r: seq<string>)
    ensures forall x :: x in r <==> x in VisibleProcesses(live, hidden)
    ensures duplicates ==> NoDups(r)
    ensures !duplicates ==> r == VisibleProcesses(live, hidden)
  {
    if duplicates then Dedup(VisibleProcesses(live, hidden)) else VisibleProcesses(live, hidden)
  }

  /** `script_next`'s step over `total` sources: one forward, back to 0 after the last. */
  function NextIndex(index: int, total: int): (r: int)
    ensures -1 <= index ==> 0 <= r && (r < total || r == 0)
  {
    if index < total - 1 then index + 1 else 0
  }

  /** `script_prev`'s step over `total` sources: one back, on to the last from 0 or from the follow-focus state. */
  function PrevIndex(index: int, total: int): (r: int)
    ensures index <= total && 0 < total ==> 0 <= r < total
    ensures index <= 0 ==> r == total - 1
  {
    if index > 0 then index - 1 else total - 1
  }

  /** `k` presses of the next gesture. */
  function NextTimes(index: int, total: int, k: nat): int
  {
    if k == 0 then index else NextIndex(NextTimes(index, total, k - 1), total)
  }

  lemma {:induction false} NextTimesAdd(index: int, total: int, a: nat, b: nat)
    ensures NextTimes(index, total, a + b) == NextTimes(NextTimes(index, total, a), total, b)
  {
    if b > 0 {
      NextTimesAdd(index, total, a, b - 1);
    }
  }

  lemma {:induction false} NextTimesClimb(index: int, total: int, k: nat)
    requires 0 <= index && index + k < total
    ensures NextTimes(index, total, k) == index + k
  {
    if k > 0 {
      NextTimesClimb(index, total, k - 1);
    }
  }

  /** Pressing next once per source comes back to the source the cursor started on. */
  lemma NextCycle(index: int, total: int)
    requires 0 <= index < total
    ensures NextTimes(index, total, total) == index
  {
    NextTimesClimb(index, total, total - 1 - index);
    assert NextTimes(index, total, total - index) == 0;
    NextTimesAdd(index, total, total - index, index);
    NextTimesClimb(0, total, index);
  }

  /** Next and previous undo each other on every source. */
  lemma NextPrevInverse(index: int, total: int)
    requires 0 <= index < total
    ensures PrevIndex(NextIndex(index, total), total) == index
    ensures NextIndex(PrevIndex(index, total), total) == index
  {
  }

  /** The first session name containing `process` (`process in s`). */
  function FirstContaining(sessions: seq<string>, process: string): (r: Option<nat>)
    ensures r.None? <==> forall k :: 0 <= k < |sessions| ==> !Contains(sessions[k], process)
    ensures r.Some? ==> r.value < |sessions| && Contains(sessions[r.value], process)
    ensures r.Some? ==> forall k :: 0 <= k < r.value ==> !Contains(sessions[k], process)
  {
    if |sessions| == 0 then None
    else if Contains(sessions[0], process) then Some(0)
    else match FirstContaining(sessions[1..], process)
      case None => None
      case Some(k) => Some(k + 1)
  }

  /**
   * The position `script_next` and `script_prev` start from in the
   * follow-focus state: the device count plus `sessions.index` of the first
   * session containing the remembered process (`''` when there is none);
   * None where `index` raises ValueError.
   */
  function FocusPosition(sessions: seq<string>, process: string, devices: int): Option<int>
  {
    var found := match FirstContaining(sessions, process) case Some(j) => sessions[j] case None => "";
    match IndexOf(sessions, found)
    case Some(j) => Some(devices + j)
    case None => None
  }

  /** The focus position is that of the first session containing the process; without one (and no empty name listed) there is none. */
  lemma FocusPositionFirst(sessions: seq<string>, process: string, devices: int)
    ensures FirstContaining(sessions, process).Some? ==> FocusPosition(sessions, process, devices) == Some(devices + FirstContaining(sessions, process).value)
    ensures FirstContaining(sessions, process).None? && "" !in sessions ==> FocusPosition(sessions, process, devices).None?
  {
    var first := FirstContaining(sessions, process);
    if first.Some? {
      IndexOfFirst(sessions, sessions[first.value]);
    }
  }

  /** Where `script_next` starts from: the cursor, or in the follow-focus state the focus position (one before the sessions when there is none). */
  function ResolveNext(index: int, process: string, sessions: seq<string>, devices: int): int
  {
    if index >= 0 then index
    else match FocusPosition(sessions, process, devices) case Some(p) => p case None => devices - 1
  }

  /** Where `script_prev` starts from: as for next, but the cursor stays as it is when there is no focus position. */
  function ResolvePrev(index: int, process: string, sessions: seq<string>, devices: int): int
  {
    if index >= 0 then index
    else match FocusPosition(sessions, process, devices) case Some(p) => p case None => index
  }

  /** The cursor after `script_next`. */
  function NextCursor(index: int, process: string, sessions: seq<string>, devices: int): int
  {
    NextIndex(ResolveNext(index, process, sessions, devices), devices + |sessions|)
  }

  /** The cursor after `script_prev`. */
  function PrevCursor(index: int, process: string, sessions: seq<string>, devices: int): int
  {
    PrevIndex(ResolvePrev(index, process, sessions, devices), devices + |sessions|)
  }

  /** From a valid cursor or the follow-focus state, next and previous land on a source. */
  lemma CursorRange(index: int, process: string, sessions: seq<string>, devices: nat)
    requires -1 <= index < devices + |sessions|
    ensures devices + |sessions| > 0 ==> 0 <= NextCursor(index, process, sessions, devices) < devices + |sessions|
    ensures devices + |sessions| > 0 ==> 0 <= PrevCursor(index, process, sessions, devices) < devices + |sessions|
    ensures devices + |sessions| == 0 ==> NextCursor(index, process, sessions, devices) == 0
  {
    FocusPositionFirst(sessions, process, devices);
  }

  /** Following the focus, next selects the session after the first one containing the focused process. */
  lemma NextFromFocus(index: int, process: string, sessions: seq<string>, devices: int, j: nat)
    requires index < 0
    requires j < |sessions| && Contains(sessions[j], process)
    requires forall k :: 0 <= k < j ==> !Contains(sessions[k], process)
    ensures NextCursor(index, process, sessions, devices) == NextIndex(devices + j, devices + |sessions|)
    ensures PrevCursor(index, process, sessions, devices) == PrevIndex(devices + j, devices + |sessions|)
  {
    FocusPositionFirst(sessions, process, devices);
  }

  /** Following the focus with no session containing the process, next selects the first session (the first device without sessions), previous the last source. */
  lemma NeitherFromFocus(index: int, process: string, sessions: seq<string>, devices: nat)
    requires index < 0 && "" !in sessions
    requires forall k :: 0 <= k < |sessions| ==> !Contains(sessions[k], process)
    ensures NextCursor(index, process, sessions, devices) == if |sessions| > 0 then devices else 0
    ensures PrevCursor(index, process, sessions, devices) == devices + |sessions| - 1
  {
    FocusPositionFirst(sessions, process, devices);
  }

  /** `selectAudioSource`'s choice of process for a cursor past the devices: that slot, else the last session, else the undefined application. */
  function PickProcess(sessions: seq<string>, index: int, devices: int): string
  {
    match At(sessions, index - devices)
    case Some(p) => p
    case None =>
      match At(sessions, -1)
      case Some(p) => p
      case None => UndefinedApp
  }

  /** The slot under the cursor (negative slots counted from the end), else the last session, else the undefined application; always a listed session when there is one. */
  lemma PickProcessChoice(sessions: seq<string>, index: int, devices: int)
    ensures 0 <= index - devices < |sessions| ==> PickProcess(sessions, index, devices) == sessions[index - devices]
    ensures -|sessions| <= index - devices < 0 ==> PickProcess(sessions, index, devices) == sessions[|sessions| + index - devices]
    ensures |sessions| > 0 && !(-|sessions| <= index - devices < |sessions|) ==> PickProcess(sessions, index, devices) == sessions[|sessions| - 1]
    ensures |sessions| == 0 <==> PickProcess(sessions, index, devices) == UndefinedApp && UndefinedApp !in sessions
    ensures |sessions| > 0 ==> PickProcess(sessions, index, devices) in sessions
  {
  }

  /** `getOutputDeviceNames()` with an unnamed first entry, or the mapper itself, shown as the sound mapper. */
  function OutputDeviceNames(names: seq<string>): (r: seq<string>)
    requires |names| > 0
    ensures |r| == |names| && r[1..] == names[1..]
    ensures r[0] == if names[0] == "" then SoundMapper else names[0]
  {
    if names[0] == "" || names[0] == SoundMapper then names[0 := SoundMapper] else names
  }

  /** `selectOutputDevice(step)`: the output device `step` places after the configured one, cyclically, counting from the first when it is not listed. */
  function SelectOutputDevice(names: seq<string>, configured: string, step: int): (r: string)
    requires |names| > 0
    ensures r in OutputDeviceNames(names)
    ensures configured !in OutputDeviceNames(names) ==> r == OutputDeviceNames(names)[FloorMod(step, |names|)]
  {
    var shown := OutputDeviceNames(names);
    var current := match IndexOf(shown, configured) case Some(k) => k case None => 0;
    shown[FloorMod(current + step, |shown|)]
  }

  /** For distinct names, selecting from the device at position k lands `step` places further on. */
  lemma SelectOutputDeviceAt(names: seq<string>, k: nat, step: int)
    requires k < |names| && NoDups(OutputDeviceNames(names))
    ensures SelectOutputDevice(names, OutputDeviceNames(names)[k], step) == OutputDeviceNames(names)[FloorMod(k + step, |names|)]
  {
    IndexOfNoDups(OutputDeviceNames(names), k);
  }

  /** Selecting the next output device and then the previous one comes back to the configured device, and conversely. */
  lemma SelectOutputDeviceBack(names: seq<string>, configured: string)
    requires |names| > 0
    requires NoDups(OutputDeviceNames(names)) && configured in OutputDeviceNames(names)
    ensures SelectOutputDevice(names, SelectOutputDevice(names, configured, 1), -1) == configured
    ensures SelectOutputDevice(names, SelectOutputDevice(names, configured, -1), 1) == configured
  {
    var shown := OutputDeviceNames(names);
    var n := |shown|;
    var k: nat := IndexOf(shown, configured).value;
    assert shown[k] == configured;
    FloorModStepBack(k, n);
    var next: nat, prev: nat := FloorMod(k + 1, n), FloorMod(k - 1, n);
    SelectOutputDeviceAt(names, k, 1);
    assert SelectOutputDevice(names, configured, 1) == shown[next];
    SelectOutputDeviceAt(names, next, -1);
    assert SelectOutputDevice(names, shown[next], -1) == shown[k];
    SelectOutputDeviceAt(names, k, -1);
    assert SelectOutputDevice(names, configured, -1) == shown[prev];
    SelectOutputDeviceAt(names, prev, 1);
    assert SelectOutputDevice(names, shown[prev], 1) == shown[k];
  }

  /**
   * `selectProcessInFocus` as written: the process of the session that
   * `AudioSession(appName)` selects, None ("not playing any sound") when
   * that name is empty.
   */
  function FocusAsWritten(live: seq<LiveSession>, app: string): (r: Option<string>)
    requires |NamedSessions(live)| > 0
  {
    var name := ProcessName(SelectAudioSession(NamedSessions(live), app));
    if name == "" then None else Some(name)
  }

  /**
   * As written, the focused application is always reported found: when it has
   * no session, the session chosen by the fallbacks, which belongs to
   * another process, is selected in its place.
   */
  lemma FocusAsWrittenNeverMisses(live: seq<LiveSession>, app: string)
    requires |NamedSessions(live)| > 0
    requires forall k :: 0 <= k < |live| && Named(live[k]) ==> !Matches(live[k], app)
    ensures FocusAsWritten(live, app).Some?
    ensures !ContainsIgnoringCase(FocusAsWritten(live, app).value, app)
  {
    var named := NamedSessions(live);
    var s := SelectAudioSession(named, app);
    NamedSessionsMembers(live);
    var i :| 0 <= i < |named| && named[i] == s;
    assert s in live;
    var k :| 0 <= k < |live| && live[k] == s;
  }

  /**
   * `selectProcessInFocus` as intended: the process of the first named
   * session matching the focused application, None when the application
   * plays no sound.
   */
  function FocusedProcess(live: seq<LiveSession>, app: string): (r: Option<string>)
    ensures r.None? <==> forall k :: 0 <= k < |live| && Named(live[k]) ==> !Matches(live[k], app)
    ensures r.Some? ==> r.value != "" && ContainsIgnoringCase(r.value, app) && |NamedSessions(live)| > 0
  {
    var named := NamedSessions(live);
    NamedSessionsMembers(live);
    match FirstMatch(named, app)
    case Some(k) =>
      assert named[k] in live;
      Some(ProcessName(named[k]))
    case None =>
      assert forall k :: 0 <= k < |live| && Named(live[k]) ==> !Matches(live[k], app) by {
        forall k | 0 <= k < |live| && Named(live[k]) ensures !Matches(live[k], app) {
          var i :| 0 <= i < |named| && named[i] == live[k];
        }
      }
      None
  }

  /** Where the application does play sound, the intended lookup and the one as written select the same process. */
  lemma FocusedProcessAgrees(live: seq<LiveSession>, app: string)
    requires FocusedProcess(live, app).Some?
    ensures FocusAsWritten(live, app) == FocusedProcess(live, app)
  {
    var named := NamedSessions(live);
    SelectFirstMatch(named, app, FirstMatch(named, app).value);
  }

  lemma AppendAssociates<T>(a: seq<T>, b: seq<T>, c: seq<T>)
    ensures a + b + c == a + (b + c)
  {
  }

  /** The session `AudioSession(query)` stands for. */
  function SessionFor(live: seq<LiveSession>, query: string): LiveSession
    requires |NamedSessions(live)| > 0
  {
    SelectAudioSession(NamedSessions(live), query)
  }

  /** The session source `AudioSession(query)` builds. */
  predicate IsSessionOf(source: AudioSource, live: seq<LiveSession>, query: string)
    requires |NamedSessions(live)| > 0
    reads source
  {
    var s := SessionFor(live, query);
    source.isSession && source.id == query && source.name == ProcessName(s) && source.displayName == s.displayName && source.volume == s.volume && source.channel == 0
  }

  /** What `selectAudioSource` says for a device. */
  function DeviceAnnouncements(d: AudioSource, cfg: Configuration, conf: Settings): seq<Announcement>
    reads d.volume, cfg
  {
    [Title(DeviceTitle(d))] + if conf.status then [Status(d.IsMuted(cfg, conf), d.VolumeLevel())] else []
  }

  /** What `selectAudioSource` says for the session looked up by `query`. */
  function SessionAnnouncements(s: LiveSession, query: string, cfg: Configuration, conf: Settings): seq<Announcement>
    reads s.volume, cfg
  {
    [Title(SessionTitle(s.displayName, ProcessName(s)))] + if conf.status then [Status(MutedState(query, s.volume, cfg, conf), s.volume.level)] else []
  }

  /**
   * The muted list after `script_volumeDown`: the unmute of `volumeDown`
   * (when the source was muted and has a handle) drops the id, and the mute
   * at zero adds it back unless a complete mute fails without a handle.
   */
  function MutedAfterDown(entry: Option<seq<string>>, id: string, wasMuted: bool, hasHandle: bool, level: real, conf: Settings): Option<seq<string>>
  {
    var unmuted := if wasMuted && hasHandle then DelMutedFrom(entry, id) else entry;
    if level <= 0.0 && (!conf.muteCompletely || hasHandle) then AddMutedTo(unmuted, id) else unmuted
  }

  /** The muted list after `script_mute`: `unmute` drops the id when there is a handle; `mute` adds it unless a complete mute fails without one. */
  function MutedAfterToggle(entry: Option<seq<string>>, id: string, wasMuted: bool, hasHandle: bool, conf: Settings): Option<seq<string>>
  {
    if wasMuted then (if hasHandle then DelMutedFrom(entry, id) else entry)
    else if !conf.muteCompletely || hasHandle then AddMutedTo(entry, id) else entry
  }

  /** `GlobalPlugin`. */
  class GlobalPlugin {
    /** The selected source: devices first, then the listed sessions; negative while following the focus. */
    var index: int
    /** The process whose title was announced last. */
    var previous: string
    /** The selected process. */
    var process: string
    /** Everything announced so far. */
    ghost var spoken: seq<Announcement>
    const registry: DeviceRegistry
    const cfg: Configuration

    constructor (registry: DeviceRegistry, cfg: Configuration)
      ensures this.registry == registry && this.cfg == cfg
      ensures index == 0 && previous == "" && process == "" && spoken == []
    {
      this.registry := registry;
      this.cfg := cfg;
      index := 0;
      previous := "";
      process := "";
      spoken := [];
    }

    /** Every volume interface a gesture may change: those of the listed devices and of the live sessions. */
    function Volumes(live: seq<LiveSession>): set<Volume?>
      reads registry
    {
      (set d | d in registry.devices :: d.volume) + (set s | s in live :: s.volume as Volume?)
    }

    /** `getAllSessions` under the current settings. */
    function ListedSessions(live: seq<LiveSession>, conf: Settings): seq<string>
      reads cfg
    {
      AllSessions(live, cfg.processes, conf.duplicates)
    }

    /** `event_gainFocus`: with focus following on, the cursor leaves the list and the next title is announced anew. */
    method EventGainFocus(conf: Settings)
      modifies this
      ensures index == if conf.focus then -1 else old(index)
      ensures previous == if conf.focus then UndefinedApp else old(previous)
      ensures process == old(process) && spoken == old(spoken)
    {
      if conf.focus {
        index := -1;
        previous := UndefinedApp;
      }
    }

    /** `selectProcessInFocus` (as intended): selects the focused application's process, or says it plays no sound. */
    method SelectProcessInFocus(app: string, live: seq<LiveSession>) returns (found: bool)
      modifies this
      ensures found <==> FocusedProcess(live, app).Some?
      ensures found ==> process == FocusedProcess(live, app).value && spoken == old(spoken)
      ensures !found ==> process == old(process) && spoken == old(spoken) + [NotPlaying(app)]
      ensures index == old(index) && previous == old(previous)
    {
      var focused := FocusedProcess(live, app);
      if focused.None? {
        spoken := spoken + [NotPlaying(app)];
        return false;
      }
      process := focused.value;
      found := true;
    }

    /** The device half of `selectAudioSource`: the device's title, then its status. */
    method AnnounceDevice(conf: Settings)
      requires 0 <= index < |registry.devices|
      modifies this
      ensures index == old(index) && process == old(process) && previous == old(previous)
      ensures spoken == old(spoken) + DeviceAnnouncements(registry.devices[index], cfg, conf)
    {
      var source := registry.devices[index];
      var title := if source.isDefault then DefaultDevicePrefix + source.name else source.name;
      spoken := spoken + [Title(title)];
      if conf.status {
        spoken := spoken + [Status(source.IsMuted(cfg, conf), source.VolumeLevel())];
      }
    }

    /** The session half of `selectAudioSource`: picks the process for the cursor, then announces its session's title and status. */
    method SelectSession(sessions: seq<string>, live: seq<LiveSession>, conf: Settings)
      requires |NamedSessions(live)| > 0
      modifies this
      ensures index == old(index) && process == PickProcess(sessions, index, |registry.devices|) && previous == process
      ensures spoken == old(spoken) + SessionAnnouncements(SessionFor(live, process), process, cfg, conf)
    {
      ghost var cursor := index;
      process := PickProcess(sessions, index, |registry.devices|);
      previous := process;
      var source := new AudioSource.Session(process, live);
      assert index == cursor;
      ghost var s := SessionFor(live, process);
      assert source.IsMuted(cfg, conf) == MutedState(process, s.volume, cfg, conf);
      assert source.VolumeLevel() == s.volume.level;
      assert source.displayName == s.displayName && source.name == ProcessName(s);
      ghost var title := Title(SessionTitle(s.displayName, ProcessName(s)));
      ghost var tail := if conf.status then [Status(MutedState(process, s.volume, cfg, conf), s.volume.level)] else [];
      ghost var before := spoken;
      spoken := spoken + [Title(SessionTitle(source.displayName, source.name))];
      if conf.status {
        spoken := spoken + [Status(source.IsMuted(cfg, conf), source.VolumeLevel())];
      }
      assert spoken == before + [title] + tail;
      AppendAssociates(before, [title], tail);
    }

    /** `selectAudioSource`: announces the device under the cursor, or selects and announces a session. */
    method SelectAudioSource(sessions: seq<string>, live: seq<LiveSession>, conf: Settings)
      requires 0 <= index < |registry.devices| || |NamedSessions(live)| > 0
      modifies this
      ensures index == old(index)
      ensures 0 <= index < |registry.devices| ==> process == old(process) && previous == old(previous) && spoken == old(spoken) + DeviceAnnouncements(registry.devices[index], cfg, conf)
      ensures !(0 <= index < |registry.devices|) ==> process == PickProcess(sessions, index, |registry.devices|) && previous == process
      ensures !(0 <= index < |registry.devices|) ==> spoken == old(spoken) + SessionAnnouncements(SessionFor(live, process), process, cfg, conf)
    {
      if 0 <= index < |registry.devices| {
        AnnounceDevice(conf);
      } else {
        SelectSession(sessions, live, conf);
      }
    }

    /** `getAudioSource`: the device under the cursor, or the selected process's session, whose title is announced once per change of process. */
    method GetAudioSource(live: seq<LiveSession>) returns (source: AudioSource)
      requires 0 <= index < |registry.devices| || |NamedSessions(live)| > 0
      modifies this
      ensures index == old(index) && process == old(process)
      ensures source.volume in Volumes(live)
      ensures 0 <= index < |registry.devices| ==> source == registry.devices[index] && previous == UndefinedApp && spoken == old(spoken)
      ensures !(0 <= index < |registry.devices|) ==> fresh(source) && IsSessionOf(source, live, process) && previous == source.name
      ensures !(0 <= index < |registry.devices|) ==> spoken == old(spoken) + if source.name != old(previous) then [Title(SessionTitle(source.displayName, source.name))] else []
    {
      if 0 <= index < |registry.devices| {
        source := registry.devices[index];
        previous := UndefinedApp;
      } else {
        source := new AudioSource.Session(process, live);
        var s := SessionFor(live, process);
        NamedSessionsMembers(live);
        assert s in live;
        if source.name != previous {
          spoken := spoken + [Title(SessionTitle(source.displayName, source.name))];
          previous := source.name;
        }
      }
    }

    /** `script_volumeUp`: a step up of the selected source, then its new level. */
    method ScriptVolumeUp(app: string, live: seq<LiveSession>, conf: Settings) returns (ghost source: AudioSource?, ghost level: real)
      requires conf.Valid()
      requires index < |registry.devices| || |NamedSessions(live)| > 0
      modifies this, cfg, Volumes(live)
      ensures source == null <==> old(index) < 0 && FocusedProcess(live, app).None?
      ensures source == null ==> index == old(index) && process == old(process) && previous == old(previous) && spoken == old(spoken) + [NotPlaying(app)]
      ensures source == null ==> unchanged(cfg) && forall w | w in Volumes(live) && w != null :: unchanged(w)
      ensures source != null ==> index == old(index) && |spoken| > 0 && spoken[|spoken| - 1] == LevelAnnouncement(level)
      ensures source != null && 0 <= index < |registry.devices| ==> source == registry.devices[index]
      ensures source != null && !(0 <= index < |registry.devices|) ==> source.isSession && source.id == process
      ensures source != null && old(index) < 0 ==> FocusedProcess(live, app) == Some(process)
      ensures source != null && old(index) >= 0 ==> process == old(process)
      ensures source != null ==> previous == if 0 <= index < |registry.devices| then UndefinedApp else source.name
      ensures source != null ==> cfg.devices == old(cfg.devices) && cfg.processes == old(cfg.processes)
      ensures source != null ==> forall w | w in Volumes(live) && w != null && w != source.volume :: unchanged(w)
      ensures source != null ==> var id, v := source.id, source.volume;
        v in old(Volumes(live)) &&
        level == StepUp(old(UnmutedLevelOf(id, v, cfg, conf)), conf.step) &&
        (v != null ==> v.level == level && !v.muted && v.channels == old(v.channels)) &&
        cfg.mutedEntry == (if old(MutedState(id, v, cfg, conf)) && v != null then DelMutedFrom(old(cfg.mutedEntry), id) else old(cfg.mutedEntry))
    {
      source := null;
      level := 0.0;
      if index < 0 {
        var found := SelectProcessInFocus(app, live);
        if !found {
          return;
        }
      }
      label Guarded:
      assert unchanged(cfg);
      var s;
      s, level := VolumeUpSelected(live, conf);
      ghost var id, v := s.id, s.volume;
      assert old@Guarded(MutedState(id, v, cfg, conf)) == old(MutedState(id, v, cfg, conf));
      assert old@Guarded(UnmutedLevelOf(id, v, cfg, conf)) == old(UnmutedLevelOf(id, v, cfg, conf));
      source := s;
    }

    /** `script_volumeUp` past the focus guard: the selected source, stepped up. */
    method VolumeUpSelected(live: seq<LiveSession>, conf: Settings) returns (s: AudioSource, level: real)
      requires conf.Valid()
      requires 0 <= index < |registry.devices| || |NamedSessions(live)| > 0
      modifies this, cfg, Volumes(live)
      ensures index == old(index) && process == old(process) && |spoken| > 0 && spoken[|spoken| - 1] == LevelAnnouncement(level)
      ensures 0 <= index < |registry.devices| ==> s == registry.devices[index]
      ensures !(0 <= index < |registry.devices|) ==> s.isSession && s.id == process
      ensures previous == if 0 <= index < |registry.devices| then UndefinedApp else s.name
      ensures cfg.devices == old(cfg.devices) && cfg.processes == old(cfg.processes)
      ensures forall w | w in Volumes(live) && w != null && w != s.volume :: unchanged(w)
      ensures var id, v := s.id, s.volume;
        v in old(Volumes(live)) &&
        level == StepUp(old(UnmutedLevelOf(id, v, cfg, conf)), conf.step) &&
        (v != null ==> v.level == level && !v.muted && v.channels == old(v.channels)) &&
        cfg.mutedEntry == (if old(MutedState(id, v, cfg, conf)) && v != null then DelMutedFrom(old(cfg.mutedEntry), id) else old(cfg.mutedEntry))
    {
      s := GetAudioSource(live);
      level := StepUpSource(s, conf);
    }

    /** `script_volumeUp` once the source is known: the step up, then the new level. */
    method StepUpSource(s: AudioSource, conf: Settings) returns (level: real)
      requires conf.Valid()
      modifies this, cfg, s.volume
      ensures index == old(index) && process == old(process) && previous == old(previous)
      ensures level == StepUp(old(s.UnmutedLevel(cfg, conf)), conf.step)
      ensures spoken == old(spoken) + [LevelAnnouncement(level)]
      ensures s.volume != null ==> s.volume.level == level && !s.volume.muted && s.volume.channels == old(s.volume.channels)
      ensures cfg.mutedEntry == if old(s.IsMuted(cfg, conf)) && s.volume != null then DelMutedFrom(old(cfg.mutedEntry), s.id) else old(cfg.mutedEntry)
      ensures cfg.devices == old(cfg.devices) && cfg.processes == old(cfg.processes)
    {
      level := s.VolumeUp(cfg, conf);
      spoken := spoken + [LevelAnnouncement(level)];
    }

    /** `script_volumeDown`: a step down of the selected source, and a mute once the level reaches zero. */
    method ScriptVolumeDown(app: string, live: seq<LiveSession>, conf: Settings) returns (ghost source: AudioSource?, ghost level: real)
      requires conf.Valid()
      requires index < |registry.devices| || |NamedSessions(live)| > 0
      modifies this, cfg, Volumes(live)
      ensures source == null <==> old(index) < 0 && FocusedProcess(live, app).None?
      ensures source == null ==> index == old(index) && process == old(process) && previous == old(previous) && spoken == old(spoken) + [NotPlaying(app)]
      ensures source == null ==> unchanged(cfg) && forall w | w in Volumes(live) && w != null :: unchanged(w)
      ensures source != null ==> index == old(index) && |spoken| > 0 && spoken[|spoken| - 1] == if level > 0.0 then LevelAnnouncement(level) else Muted
      ensures source != null && level <= 0.0 && source.id != "" && (!conf.muteCompletely || source.volume != null) ==> source.IsMuted(cfg, conf)
      ensures source != null && 0 <= index < |registry.devices| ==> source == registry.devices[index]
      ensures source != null && !(0 <= index < |registry.devices|) ==> source.isSession && source.id == process
      ensures source != null && old(index) < 0 ==> FocusedProcess(live, app) == Some(process)
      ensures source != null && old(index) >= 0 ==> process == old(process)
      ensures source != null ==> previous == if 0 <= index < |registry.devices| then UndefinedApp else source.name
      ensures source != null ==> cfg.devices == old(cfg.devices) && cfg.processes == old(cfg.processes)
      ensures source != null ==> forall w | w in Volumes(live) && w != null && w != source.volume :: unchanged(w)
      ensures source != null ==> var id, v := source.id, source.volume;
        v in old(Volumes(live)) &&
        level == StepDown(old(UnmutedLevelOf(id, v, cfg, conf)), conf.step) &&
        (v != null ==> v.level == level && v.muted == (level <= 0.0 && conf.muteCompletely) && v.channels == old(v.channels)) &&
        cfg.mutedEntry == MutedAfterDown(old(cfg.mutedEntry), id, old(MutedState(id, v, cfg, conf)), v != null, level, conf)
    {
      source := null;
      level := 0.0;
      if index < 0 {
        var found := SelectProcessInFocus(app, live);
        if !found {
          return;
        }
      }
      label Guarded:
      assert unchanged(cfg);
      var s;
      s, level := VolumeDownSelected(live, conf);
      ghost var id, v := s.id, s.volume;
      assert old@Guarded(MutedState(id, v, cfg, conf)) == old(MutedState(id, v, cfg, conf));
      assert old@Guarded(UnmutedLevelOf(id, v, cfg, conf)) == old(UnmutedLevelOf(id, v, cfg, conf));
      source := s;
    }

    /** `script_volumeDown` past the focus guard: the selected source, stepped down. */
    method VolumeDownSelected(live: seq<LiveSession>, conf: Settings) returns (s: AudioSource, level: real)
      requires conf.Valid()
      requires 0 <= index < |registry.devices| || |NamedSessions(live)| > 0
      modifies this, cfg, Volumes(live)
      ensures index == old(index) && process == old(process) && |spoken| > 0 && spoken[|spoken| - 1] == if level > 0.0 then LevelAnnouncement(level) else Muted
      ensures level <= 0.0 && s.id != "" && (!conf.muteCompletely || s.volume != null) ==> s.IsMuted(cfg, conf)
      ensures 0 <= index < |registry.devices| ==> s == registry.devices[index]
      ensures !(0 <= index < |registry.devices|) ==> s.isSession && s.id == process
      ensures previous == if 0 <= index < |registry.devices| then UndefinedApp else s.name
      ensures cfg.devices == old(cfg.devices) && cfg.processes == old(cfg.processes)
      ensures forall w | w in Volumes(live) && w != null && w != s.volume :: unchanged(w)
      ensures var id, v := s.id, s.volume;
        v in old(Volumes(live)) &&
        level == StepDown(old(UnmutedLevelOf(id, v, cfg, conf)), conf.step) &&
        (v != null ==> v.level == level && v.muted == (level <= 0.0 && conf.muteCompletely) && v.channels == old(v.channels)) &&
        cfg.mutedEntry == MutedAfterDown(old(cfg.mutedEntry), id, old(MutedState(id, v, cfg, conf)), v != null, level, conf)
    {
      s := GetAudioSource(live);
      level := StepDownSource(s, conf);
    }

    /** `script_volumeDown` once the source is known: the step down, then the level or, at zero, a mute. */
    method StepDownSource(s: AudioSource, conf: Settings) returns (level: real)
      requires conf.Valid()
      modifies this, cfg, s.volume
      ensures index == old(index) && process == old(process) && previous == old(previous)
      ensures level == StepDown(old(s.UnmutedLevel(cfg, conf)), conf.step)
      ensures spoken == old(spoken) + [if level > 0.0 then LevelAnnouncement(level) else Muted]
      ensures level <= 0.0 && s.id != "" && (!conf.muteCompletely || s.volume != null) ==> s.IsMuted(cfg, conf)
      ensures s.volume != null ==> s.volume.level == level && s.volume.muted == (level <= 0.0 && conf.muteCompletely) && s.volume.channels == old(s.volume.channels)
      ensures cfg.mutedEntry == MutedAfterDown(old(cfg.mutedEntry), s.id, old(s.IsMuted(cfg, conf)), s.volume != null, level, conf)
      ensures cfg.devices == old(cfg.devices) && cfg.processes == old(cfg.processes)
    {
      level := s.VolumeDown(cfg, conf);
      if level > 0.0 {
        spoken := spoken + [LevelAnnouncement(level)];
        return;
      }
      var _ := s.Mute(cfg, conf);
      spoken := spoken + [Muted];
    }

    /** `script_mute`: toggles the mute state of the selected source. */
    method ScriptMute(app: string, live: seq<LiveSession>, conf: Settings) returns (ghost source: AudioSource?, ghost wasMuted: bool)
      requires conf.Valid()
      requires index < |registry.devices| || |NamedSessions(live)| > 0
      modifies this, cfg, Volumes(live)
      ensures source == null <==> old(index) < 0 && FocusedProcess(live, app).None?
      ensures source == null ==> index == old(index) && process == old(process) && previous == old(previous) && spoken == old(spoken) + [NotPlaying(app)]
      ensures source == null ==> unchanged(cfg) && forall w | w in Volumes(live) && w != null :: unchanged(w)
      ensures source != null ==> index == old(index) && |spoken| > 0 && spoken[|spoken| - 1] == if wasMuted then LevelAnnouncement(source.VolumeLevel()) else Muted
      ensures source != null && 0 <= index < |registry.devices| ==> source == registry.devices[index]
      ensures source != null && !(0 <= index < |registry.devices|) ==> source.isSession && source.id == process
      ensures source != null && old(index) < 0 ==> FocusedProcess(live, app) == Some(process)
      ensures source != null && old(index) >= 0 ==> process == old(process)
      ensures source != null ==> previous == if 0 <= index < |registry.devices| then UndefinedApp else source.name
      ensures source != null ==> cfg.devices == old(cfg.devices) && cfg.processes == old(cfg.processes)
      ensures source != null ==> forall w | w in Volumes(live) && w != null && w != source.volume :: unchanged(w)
      ensures source != null && wasMuted && source.volume != null && old(cfg.Valid()) ==> !source.IsMuted(cfg, conf)
      ensures source != null && !wasMuted && source.id != "" && (!conf.muteCompletely || source.volume != null) ==> source.IsMuted(cfg, conf)
      ensures source != null ==> var id, v := source.id, source.volume;
        v in old(Volumes(live)) && wasMuted == old(MutedState(id, v, cfg, conf)) &&
        (wasMuted && v != null ==> v.level == old(UnmutedLevelOf(id, v, cfg, conf)) && !v.muted && v.channels == old(v.channels)) &&
        (!wasMuted && v != null ==> v.level == old(if conf.muteCompletely then v.level else Attenuate(v.level, conf.mutePercentage)) && v.muted == conf.muteCompletely && v.channels == old(v.channels)) &&
        cfg.mutedEntry == MutedAfterToggle(old(cfg.mutedEntry), id, wasMuted, v != null, conf)
    {
      source := null;
      wasMuted := false;
      if index < 0 {
        var found := SelectProcessInFocus(app, live);
        if !found {
          return;
        }
      }
      var s;
      s, wasMuted := MuteSelected(live, conf);
      source := s;
    }

    /** `script_mute` past the focus guard: the selected source, muted or unmuted. */
    method MuteSelected(live: seq<LiveSession>, conf: Settings) returns (s: AudioSource, wasMuted: bool)
      requires conf.Valid()
      requires 0 <= index < |registry.devices| || |NamedSessions(live)| > 0
      modifies this, cfg, Volumes(live)
      ensures index == old(index) && process == old(process) && |spoken| > 0 && spoken[|spoken| - 1] == if wasMuted then LevelAnnouncement(s.VolumeLevel()) else Muted
      ensures 0 <= index < |registry.devices| ==> s == registry.devices[index]
      ensures !(0 <= index < |registry.devices|) ==> s.isSession && s.id == process
      ensures previous == if 0 <= index < |registry.devices| then UndefinedApp else s.name
      ensures cfg.devices == old(cfg.devices) && cfg.processes == old(cfg.processes)
      ensures forall w | w in Volumes(live) && w != null && w != s.volume :: unchanged(w)
      ensures wasMuted && s.volume != null && old(cfg.Valid()) ==> !s.IsMuted(cfg, conf)
      ensures !wasMuted && s.id != "" && (!conf.muteCompletely || s.volume != null) ==> s.IsMuted(cfg, conf)
      ensures var id, v := s.id, s.volume;
        v in old(Volumes(live)) && wasMuted == old(MutedState(id, v, cfg, conf)) &&
        (wasMuted && v != null ==> v.level == old(UnmutedLevelOf(id, v, cfg, conf)) && !v.muted && v.channels == old(v.channels)) &&
        (!wasMuted && v != null ==> v.level == old(if conf.muteCompletely then v.level else Attenuate(v.level, conf.mutePercentage)) && v.muted == conf.muteCompletely && v.channels == old(v.channels)) &&
        cfg.mutedEntry == MutedAfterToggle(old(cfg.mutedEntry), id, wasMuted, v != null, conf)
    {
      s := GetAudioSource(live);
      wasMuted := ToggleMute(s, conf);
    }

    /** `script_mute` once the source is known: unmute and say the level, or mute and say so. */
    method ToggleMute(s: AudioSource, conf: Settings) returns (wasMuted: bool)
      requires conf.Valid()
      modifies this, cfg, s.volume
      ensures index == old(index) && process == old(process) && previous == old(previous)
      ensures wasMuted == old(s.IsMuted(cfg, conf))
      ensures spoken == old(spoken) + [if wasMuted then LevelAnnouncement(s.VolumeLevel()) else Muted]
      ensures wasMuted && s.volume != null && old(cfg.Valid()) ==> !s.IsMuted(cfg, conf)
      ensures !wasMuted && s.id != "" && (!conf.muteCompletely || s.volume != null) ==> s.IsMuted(cfg, conf)
      ensures wasMuted && s.volume != null ==> s.volume.level == old(s.UnmutedLevel(cfg, conf)) && !s.volume.muted && s.volume.channels == old(s.volume.channels)
      ensures !wasMuted && s.volume != null ==>
        s.volume.level == old(if conf.muteCompletely then s.volume.level else Attenuate(s.volume.level, conf.mutePercentage)) &&
        s.volume.muted == conf.muteCompletely && s.volume.channels == old(s.volume.channels)
      ensures cfg.mutedEntry == MutedAfterToggle(old(cfg.mutedEntry), s.id, wasMuted, s.volume != null, conf)
      ensures cfg.devices == old(cfg.devices) && cfg.processes == old(cfg.processes)
    {
      wasMuted := s.IsMuted(cfg, conf);
      if wasMuted {
        var _ := s.Unmute(cfg, conf);
        spoken := spoken + [LevelAnnouncement(s.VolumeLevel())];
      } else {
        var _ := s.Mute(cfg, conf);
        spoken := spoken + [Muted];
      }
    }

    /** `script_next`: moves the cursor one source forward and announces the new source. */
    method ScriptNext(live: seq<LiveSession>, conf: Settings)
      requires 0 <= NextCursor(index, process, ListedSessions(live, conf), |registry.devices|) < |registry.devices| || |NamedSessions(live)| > 0
      modifies this
      ensures index == NextCursor(old(index), old(process), ListedSessions(live, conf), |registry.devices|)
      ensures 0 <= index < |registry.devices| ==> process == old(process) && previous == old(previous) && spoken == old(spoken) + DeviceAnnouncements(registry.devices[index], cfg, conf)
      ensures !(0 <= index < |registry.devices|) ==> process == PickProcess(ListedSessions(live, conf), index, |registry.devices|) && previous == process
      ensures !(0 <= index < |registry.devices|) ==> spoken == old(spoken) + SessionAnnouncements(SessionFor(live, process), process, cfg, conf)
    {
      var sessions := AllSessions(live, cfg.processes, conf.duplicates);
      MoveNext(sessions);
      SelectAudioSource(sessions, live, conf);
    }

    /** The cursor move of `script_next`. */
    method MoveNext(sessions: seq<string>)
      modifies this
      ensures index == NextCursor(old(index), process, sessions, |registry.devices|)
      ensures process == old(process) && previous == old(previous) && spoken == old(spoken)
    {
      var n := |registry.devices|;
      if index < 0 {
        var found := FirstContaining(sessions, process);
        var target := if found.Some? then sessions[found.value] else "";
        var position := IndexOf(sessions, target);
        index := if position.Some? then n + position.value else n - 1;
      }
      index := if index < n + |sessions| - 1 then index + 1 else 0;
    }

    /** `script_prev`: moves the cursor one source back and announces the new source. */
    method ScriptPrev(live: seq<LiveSession>, conf: Settings)
      requires 0 <= PrevCursor(index, process, ListedSessions(live, conf), |registry.devices|) < |registry.devices| || |NamedSessions(live)| > 0
      modifies this
      ensures index == PrevCursor(old(index), old(process), ListedSessions(live, conf), |registry.devices|)
      ensures 0 <= index < |registry.devices| ==> process == old(process) && previous == old(previous) && spoken == old(spoken) + DeviceAnnouncements(registry.devices[index], cfg, conf)
      ensures !(0 <= index < |registry.devices|) ==> process == PickProcess(ListedSessions(live, conf), index, |registry.devices|) && previous == process
      ensures !(0 <= index < |registry.devices|) ==> spoken == old(spoken) + SessionAnnouncements(SessionFor(live, process), process, cfg, conf)
    {
      var sessions := AllSessions(live, cfg.processes, conf.duplicates);
      MovePrev(sessions);
      SelectAudioSource(sessions, live, conf);
    }

    /** The cursor move of `script_prev`. */
    method MovePrev(sessions: seq<string>)
      modifies this
      ensures index == PrevCursor(old(index), process, sessions, |registry.devices|)
      ensures process == old(process) && previous == old(previous) && spoken == old(spoken)
    {
      var n := |registry.devices|;
      if index < 0 {
        var found := FirstContaining(sessions, process);
        var target := if found.Some? then sessions[found.value] else "";
        var position := IndexOf(sessions, target);
        if position.Some? {
          index := n + position.value;
        }
      }
      index := if index > 0 then index - 1 else n + |sessions| - 1;
    }

    /** `script_nextChannel` (`delta` 1) and `script_prevChannel` (`delta` -1): selects the neighbouring channel of a device. */
    method ScriptStepChannel(app: string, live: seq<LiveSession>, conf: Settings, delta: int) returns (ghost source: AudioSource?)
      requires delta == 1 || delta == -1
      requires index < |registry.devices| || |NamedSessions(live)| > 0
      modifies this, registry.devices
      ensures source == null <==> old(index) < 0 && FocusedProcess(live, app).None?
      ensures source == null ==> index == old(index) && process == old(process) && previous == old(previous) && spoken == old(spoken) + [NotPlaying(app)]
      ensures source != null ==> index == old(index)
      ensures source != null && old(index) < 0 ==> FocusedProcess(live, app) == Some(process)
      ensures source != null && old(index) >= 0 ==> process == old(process)
      ensures source != null ==> previous == if 0 <= index < |registry.devices| then UndefinedApp else source.name
      ensures source != null && 0 <= index < |registry.devices| ==> source == registry.devices[index]
      ensures source != null && !(0 <= index < |registry.devices|) ==> source.isSession && source.id == process
      ensures forall d | d in registry.devices && d != source :: d.channel == old(d.channel)
      ensures source != null && source.ChannelCount() <= 0 ==> |spoken| > 0 && spoken[|spoken| - 1] == NotSupported
      ensures source != null && source.ChannelCount() <= 0 && 0 <= index < |registry.devices| ==> source.channel == old(registry.devices[index].channel)
      ensures source != null && source.ChannelCount() > 0 ==> 0 <= index < |registry.devices| && source == registry.devices[index]
      ensures source != null && source.ChannelCount() > 0 ==> source.channel == FloorMod(old(registry.devices[index].channel) + delta, source.ChannelCount())
      ensures source != null && source.ChannelCount() > 0 ==> spoken == old(spoken) + [Channel(source.channel)] + if conf.status then [Status(source.IsMuted(cfg, conf), source.ChannelLevel(-1))] else []
    {
      source := null;
      if index < 0 {
        var found := SelectProcessInFocus(app, live);
        if !found {
          return;
        }
      }
      var s := GetAudioSource(live);
      source := s;
      StepChannelOf(s, conf, delta);
    }

    /** The channel gestures once the source is known: not supported without channels, else the neighbouring channel and its status. */
    method StepChannelOf(s: AudioSource, conf: Settings, delta: int)
      modifies this, s
      ensures index == old(index) && process == old(process) && previous == old(previous)
      ensures s.ChannelCount() <= 0 ==> s.channel == old(s.channel) && spoken == old(spoken) + [NotSupported]
      ensures s.ChannelCount() > 0 ==> s.channel == FloorMod(old(s.channel) + delta, s.ChannelCount())
      ensures s.ChannelCount() > 0 ==> spoken == old(spoken) + [Channel(s.channel)] + if conf.status then [Status(s.IsMuted(cfg, conf), s.ChannelLevel(-1))] else []
    {
      if s.ChannelCount() <= 0 {
        spoken := spoken + [NotSupported];
        return;
      }
      s.SetChannel(s.channel + delta);
      spoken := spoken + [Channel(s.channel)];
      if conf.status {
        spoken := spoken + [Status(s.IsMuted(cfg, conf), s.ChannelLevel(-1))];
      }
    }
  }
}
