/**
 * AudioSource and its two kinds of audiocore.py: an audio device
 * (VAAudioDevice) and the audio session of a process (VAAudioSession), over
 * the volume handle of the driver. A missing handle makes every getter
 * answer -1.0 (0 channels) and every setter do nothing.
 */
module Audio {
  import opened Base
  import opened Levels
  import opened Options
  import opened Driver
  import opened Configurations
  import opened Sessions

  /** `isMuted` of a source with this id and handle: the native flag, or in partial-mute mode also a listing in the muted list. */
  function MutedState(id: string, volume: Volume?, cfg: Configuration, conf: Settings): bool
    reads volume, cfg
  {
    var state := volume != null && volume.muted;
    if !conf.muteCompletely then id in cfg.Muted() || state else state
  }

  /** The master level of such a source once `isMuted and unmute()` has run (-1.0 without a handle). */
  function UnmutedLevelOf(id: string, volume: Volume?, cfg: Configuration, conf: Settings): real
    requires conf.mutePercentage < 100
    reads volume, cfg
  {
    if volume == null then -1.0
    else if !conf.muteCompletely && id in cfg.Muted() then Restore(volume.level, conf.mutePercentage)
    else volume.level
  }

  class AudioSource {
    /** Device id, or for a session the process name it was looked up by. */
    const id: string
    /** Device name, or the full name of the session's process. */
    const name: string
    /** The session's display name ("" for devices). */
    const displayName: string
    const volume: Volume?
    const isSession: bool
    const isDefault: bool
    /** The selected channel. */
    var channel: int

    constructor Device(id: string, name: string, volume: Volume?, isDefault: bool)
      ensures this.id == id && this.name == name && this.volume == volume && this.isDefault == isDefault
      ensures !isSession && displayName == "" && channel == 0
    {
      this.id := id;
      this.name := name;
      this.displayName := "";
      this.volume := volume;
      this.isSession := false;
      this.isDefault := isDefault;
      this.channel := 0;
    }

    /** `VAAudioSession(query)`: the session chosen by `selectAudioSession` among those with a named process. */
    constructor Session(query: string, live: seq<LiveSession>)
      requires |NamedSessions(live)| > 0
      ensures var s := SelectAudioSession(NamedSessions(live), query);
        id == query && name == ProcessName(s) && displayName == s.displayName && volume == s.volume
      ensures isSession && !isDefault && channel == 0
    {
      var s := SelectAudioSession(NamedSessions(live), query);
      this.id := query;
      this.name := ProcessName(s);
      this.displayName := s.displayName;
      this.volume := s.volume;
      this.isSession := true;
      this.isDefault := false;
      this.channel := 0;
    }

    /** The master level; -1.0 without a handle. */
    function VolumeLevel(): (r: real)
      reads volume
      ensures volume == null ==> r == -1.0
      ensures volume != null && volume.Valid() ==> 0.0 <= r <= 1.0
    {
      if volume == null then -1.0 else volume.level
    }

    /** A device's channel count (0 without a handle); sessions report -1. */
    function ChannelCount(): (r: int)
      reads volume
      ensures isSession ==> r == -1
      ensures !isSession ==> r >= 0 && (volume == null ==> r == 0)
    {
      if isSession then -1 else if volume == null then 0 else |volume.channels|
    }

    /** The channel a channel operation acts on: a negative argument means the selected one. */
    function Target(ch: int): int
      reads this
    {
      if ch < 0 then channel else ch
    }

    /** `getChannelVolumeLevel`: -1.0 for sessions, without a handle and outside the device's channels. */
    function ChannelLevel(ch: int): (r: real)
      reads this, volume
      ensures r >= 0.0 ==> !isSession && volume != null && 0 <= Target(ch) < |volume.channels|
      ensures volume != null && volume.Valid() ==> (r >= 0.0 <==> 0 <= Target(ch) < ChannelCount())
    {
      var t := Target(ch);
      if isSession || volume == null || !(0 <= t < |volume.channels|) then -1.0
      else volume.channels[t]
    }

    /** `isMuted`. */
    function IsMuted(cfg: Configuration, conf: Settings): bool
      reads volume, cfg
    {
      MutedState(id, volume, cfg, conf)
    }

    /** The master level once `isMuted and unmute()` has run. */
    function UnmutedLevel(cfg: Configuration, conf: Settings): real
      requires conf.mutePercentage < 100
      reads volume, cfg
    {
      UnmutedLevelOf(id, volume, cfg, conf)
    }

    /** The `channel` setter: the number modulo the channel count, 0 when there are no channels. */
    method SetChannel(number: int)
      modifies this
      ensures channel == (if ChannelCount() == 0 then 0 else FloorMod(number, ChannelCount()))
      ensures ChannelCount() > 0 ==> 0 <= channel < ChannelCount()
      ensures ChannelCount() <= 0 ==> channel == 0
    {
      var count := ChannelCount();
      if count == 0 {
        channel := 0;
      } else {
        channel := FloorMod(number, count);
      }
    }

    /** The `volumeLevel` setter. */
    method SetVolumeLevel(level: real)
      modifies volume
      ensures volume != null ==> volume.level == level && volume.muted == old(volume.muted) && volume.channels == old(volume.channels)
    {
      if volume != null {
        volume.level := level;
      }
    }

    /** `setChannelVolumeLevel`: writes one channel of a device; nothing for sessions or outside the channels. */
    method SetChannelVolumeLevel(level: real, ch: int)
      modifies volume
      ensures volume != null ==> volume.level == old(volume.level) && volume.muted == old(volume.muted)
      ensures volume != null ==>
        volume.channels == (if !isSession && 0 <= Target(ch) < |old(volume.channels)| then old(volume.channels)[Target(ch) := level] else old(volume.channels))
    {
      var t := Target(ch);
      if !isSession && volume != null && 0 <= t < |volume.channels| {
        volume.channels := volume.channels[t := level];
      }
    }

    /**
     * `mute`: natively in complete mode (failing without a handle), otherwise
     * by lowering the level unless already muted; on success the id is added
     * to the muted list.
     */
    method Mute(cfg: Configuration, conf: Settings) returns (ok: bool)
      modifies volume, cfg
      ensures ok <==> !conf.muteCompletely || volume != null
      ensures cfg.mutedEntry == if ok then AddMutedTo(old(cfg.mutedEntry), id) else old(cfg.mutedEntry)
      ensures cfg.devices == old(cfg.devices) && cfg.processes == old(cfg.processes)
      ensures volume != null ==> volume.channels == old(volume.channels)
      ensures volume != null ==> volume.muted == (conf.muteCompletely || old(volume.muted))
      ensures volume != null ==>
        volume.level == (if conf.muteCompletely || old(IsMuted(cfg, conf)) then old(volume.level) else Attenuate(old(volume.level), conf.mutePercentage))
      ensures ok && id != "" ==> IsMuted(cfg, conf)
      ensures old(cfg.Valid()) ==> cfg.Valid()
    {
      if conf.muteCompletely {
        if volume == null {
          return false;
        }
        volume.muted := true;
      } else if !IsMuted(cfg, conf) {
        SetVolumeLevel(VolumeLevel() * (100 - conf.mutePercentage) as real / 100.0);
      }
      cfg.AddMuted(id);
      ok := true;
    }

    /**
     * `unmute`: fails without a handle; otherwise clears the native flag,
     * scales a partially muted level back up and removes the id from the
     * muted list.
     */
    method Unmute(cfg: Configuration, conf: Settings) returns (ok: bool)
      requires conf.mutePercentage < 100
      modifies volume, cfg
      ensures ok <==> volume != null
      ensures cfg.mutedEntry == if ok then DelMutedFrom(old(cfg.mutedEntry), id) else old(cfg.mutedEntry)
      ensures cfg.devices == old(cfg.devices) && cfg.processes == old(cfg.processes)
      ensures volume != null ==> !volume.muted && volume.channels == old(volume.channels)
      ensures volume != null ==> volume.level == old(UnmutedLevel(cfg, conf))
      ensures ok && old(cfg.Valid()) ==> !IsMuted(cfg, conf) && cfg.Valid()
    {
      if volume == null {
        return false;
      }
      volume.muted := false;
      if IsMuted(cfg, conf) {
        SetVolumeLevel(Min(1.0, Percent(VolumeLevel()) as real / (100 - conf.mutePercentage) as real));
      }
      cfg.DelMuted(id);
      ok := true;
    }

    /** `self.isMuted and self.unmute()`, the preamble of the volume operations. */
    method UnmuteIfMuted(cfg: Configuration, conf: Settings)
      requires conf.mutePercentage < 100
      modifies volume, cfg
      ensures cfg.mutedEntry ==
        if old(IsMuted(cfg, conf)) && volume != null then DelMutedFrom(old(cfg.mutedEntry), id) else old(cfg.mutedEntry)
      ensures cfg.devices == old(cfg.devices) && cfg.processes == old(cfg.processes)
      ensures volume != null ==> !volume.muted && volume.channels == old(volume.channels)
      ensures volume != null ==> volume.level == old(UnmutedLevel(cfg, conf))
      ensures old(cfg.Valid()) ==> cfg.Valid() && (volume != null ==> !IsMuted(cfg, conf))
    {
      if IsMuted(cfg, conf) {
        var _ := Unmute(cfg, conf);
      }
    }

    /** `volumeUp`: one step up from the (unmuted) level in whole percentage points, at most 1.0. */
    method VolumeUp(cfg: Configuration, conf: Settings) returns (level: real)
      requires conf.Valid()
      modifies volume, cfg
      ensures level == StepUp(old(UnmutedLevel(cfg, conf)), conf.step)
      ensures volume != null ==> volume.level == level && !volume.muted && volume.channels == old(volume.channels)
      ensures cfg.mutedEntry ==
        if old(IsMuted(cfg, conf)) && volume != null then DelMutedFrom(old(cfg.mutedEntry), id) else old(cfg.mutedEntry)
      ensures cfg.devices == old(cfg.devices) && cfg.processes == old(cfg.processes)
      ensures volume != null && old(volume.Valid()) ==> volume.Valid() && 0.0 < level <= 1.0 && WholePercent(level)
      ensures volume == null ==> level == (conf.step - 100) as real / 100.0
    {
      ghost var before := UnmutedLevel(cfg, conf);
      ghost var wasValid := volume != null && volume.Valid();
      if wasValid {
        RestoreRange(volume.level, conf.mutePercentage);
      }
      UnmuteIfMuted(cfg, conf);
      level := Min(1.0, (Percent(VolumeLevel()) + conf.step) as real / 100.0);
      SetVolumeLevel(level);
      if wasValid {
        StepUpRange(before, conf.step);
      }
    }

    /** `volumeDown`: one step down from the (unmuted) level in whole percentage points, at least 0.0. */
    method VolumeDown(cfg: Configuration, conf: Settings) returns (level: real)
      requires conf.Valid()
      modifies volume, cfg
      ensures level == StepDown(old(UnmutedLevel(cfg, conf)), conf.step)
      ensures volume != null ==> volume.level == level && !volume.muted && volume.channels == old(volume.channels)
      ensures cfg.mutedEntry ==
        if old(IsMuted(cfg, conf)) && volume != null then DelMutedFrom(old(cfg.mutedEntry), id) else old(cfg.mutedEntry)
      ensures cfg.devices == old(cfg.devices) && cfg.processes == old(cfg.processes)
      ensures volume != null && old(volume.Valid()) ==> volume.Valid() && 0.0 <= level < 1.0 && WholePercent(level)
      ensures volume == null ==> level == 0.0
    {
      ghost var before := UnmutedLevel(cfg, conf);
      ghost var wasValid := volume != null && volume.Valid();
      if wasValid {
        RestoreRange(volume.level, conf.mutePercentage);
      }
      UnmuteIfMuted(cfg, conf);
      level := Max(0.0, (Percent(VolumeLevel()) - conf.step) as real / 100.0);
      SetVolumeLevel(level);
      if wasValid {
        StepDownRange(before, conf.step);
      }
    }

    /** `volumeMax`: unmutes and sets 1.0; reports the level read back (-1.0 without a handle). */
    method VolumeMax(cfg: Configuration, conf: Settings) returns (level: real)
      requires conf.Valid()
      modifies volume, cfg
      ensures level == if volume != null then 1.0 else -1.0
      ensures volume != null ==> volume.level == 1.0 && !volume.muted && volume.channels == old(volume.channels)
      ensures cfg.mutedEntry ==
        if old(IsMuted(cfg, conf)) && volume != null then DelMutedFrom(old(cfg.mutedEntry), id) else old(cfg.mutedEntry)
      ensures cfg.devices == old(cfg.devices) && cfg.processes == old(cfg.processes)
    {
      UnmuteIfMuted(cfg, conf);
      SetVolumeLevel(1.0);
      level := VolumeLevel();
    }

    /** `volumeMin`: unmutes and sets 0.0; reports the level read back (-1.0 without a handle). */
    method VolumeMin(cfg: Configuration, conf: Settings) returns (level: real)
      requires conf.Valid()
      modifies volume, cfg
      ensures level == if volume != null then 0.0 else -1.0
      ensures volume != null ==> volume.level == 0.0 && !volume.muted && volume.channels == old(volume.channels)
      ensures cfg.mutedEntry ==
        if old(IsMuted(cfg, conf)) && volume != null then DelMutedFrom(old(cfg.mutedEntry), id) else old(cfg.mutedEntry)
      ensures cfg.devices == old(cfg.devices) && cfg.processes == old(cfg.processes)
    {
      UnmuteIfMuted(cfg, conf);
      SetVolumeLevel(0.0);
      level := VolumeLevel();
    }

    /**
     * `channelVolumeUp`: after unmuting, a negative channel level (an
     * unsupported channel) is returned as it is and nothing is written;
     * otherwise the channel goes one step up.
     */
    method ChannelVolumeUp(ch: int, cfg: Configuration, conf: Settings) returns (level: real)
      requires conf.Valid()
      modifies volume, cfg
      ensures old(ChannelLevel(ch)) < 0.0 ==> level == old(ChannelLevel(ch)) && (volume != null ==> volume.channels == old(volume.channels))
      ensures old(ChannelLevel(ch)) >= 0.0 ==> level == StepUp(old(ChannelLevel(ch)), conf.step)
      ensures old(ChannelLevel(ch)) >= 0.0 ==> volume != null && volume.channels == old(volume.channels)[Target(ch) := level]
      ensures volume != null ==> !volume.muted && volume.level == old(UnmutedLevel(cfg, conf))
      ensures cfg.mutedEntry ==
        if old(IsMuted(cfg, conf)) && volume != null then DelMutedFrom(old(cfg.mutedEntry), id) else old(cfg.mutedEntry)
      ensures cfg.devices == old(cfg.devices) && cfg.processes == old(cfg.processes)
    {
      UnmuteIfMuted(cfg, conf);
      var t := Target(ch);
      level := ChannelLevel(t);
      if level < 0.0 {
        return;
      }
      level := Min(1.0, (Percent(level) + conf.step) as real / 100.0);
      SetChannelVolumeLevel(level, t);
    }

    /** `channelVolumeDown`: as `channelVolumeUp`, one step down. */
    method ChannelVolumeDown(ch: int, cfg: Configuration, conf: Settings) returns (level: real)
      requires conf.Valid()
      modifies volume, cfg
      ensures old(ChannelLevel(ch)) < 0.0 ==> level == old(ChannelLevel(ch)) && (volume != null ==> volume.channels == old(volume.channels))
      ensures old(ChannelLevel(ch)) >= 0.0 ==> level == StepDown(old(ChannelLevel(ch)), conf.step)
      ensures old(ChannelLevel(ch)) >= 0.0 ==> volume != null && volume.channels == old(volume.channels)[Target(ch) := level]
      ensures volume != null ==> !volume.muted && volume.level == old(UnmutedLevel(cfg, conf))
      ensures cfg.mutedEntry ==
        if old(IsMuted(cfg, conf)) && volume != null then DelMutedFrom(old(cfg.mutedEntry), id) else old(cfg.mutedEntry)
      ensures cfg.devices == old(cfg.devices) && cfg.processes == old(cfg.processes)
    {
      UnmuteIfMuted(cfg, conf);
      var t := Target(ch);
      level := ChannelLevel(t);
      if level < 0.0 {
        return;
      }
      level := Max(0.0, (Percent(level) - conf.step) as real / 100.0);
      SetChannelVolumeLevel(level, t);
    }

    /** `channelVolumeMax`: unmutes, sets the channel to 1.0 and reads it back. */
    method ChannelVolumeMax(ch: int, cfg: Configuration, conf: Settings) returns (level: real)
      requires conf.Valid()
      modifies volume, cfg
      ensures level == if !isSession && volume != null && 0 <= Target(ch) < |volume.channels| then 1.0 else -1.0
      ensures volume != null ==>
        volume.channels == (if !isSession && 0 <= Target(ch) < |old(volume.channels)| then old(volume.channels)[Target(ch) := 1.0] else old(volume.channels))
      ensures volume != null ==> !volume.muted && volume.level == old(UnmutedLevel(cfg, conf))
      ensures cfg.mutedEntry ==
        if old(IsMuted(cfg, conf)) && volume != null then DelMutedFrom(old(cfg.mutedEntry), id) else old(cfg.mutedEntry)
      ensures cfg.devices == old(cfg.devices) && cfg.processes == old(cfg.processes)
    {
      UnmuteIfMuted(cfg, conf);
      var t := Target(ch);
      SetChannelVolumeLevel(1.0, t);
      level := ChannelLevel(t);
    }

    /** `channelVolumeMin`: unmutes, sets the channel to 0.0 and reads it back. */
    method ChannelVolumeMin(ch: int, cfg: Configuration, conf: Settings) returns (level: real)
      requires conf.Valid()
      modifies volume, cfg
      ensures level == if !isSession && volume != null && 0 <= Target(ch) < |volume.channels| then 0.0 else -1.0
      ensures volume != null ==>
        volume.channels == (if !isSession && 0 <= Target(ch) < |old(volume.channels)| then old(volume.channels)[Target(ch) := 0.0] else old(volume.channels))
      ensures volume != null ==> !volume.muted && volume.level == old(UnmutedLevel(cfg, conf))
      ensures cfg.mutedEntry ==
        if old(IsMuted(cfg, conf)) && volume != null then DelMutedFrom(old(cfg.mutedEntry), id) else old(cfg.mutedEntry)
      ensures cfg.devices == old(cfg.devices) && cfg.processes == old(cfg.processes)
    {
      UnmuteIfMuted(cfg, conf);
      var t := Target(ch);
      SetChannelVolumeLevel(0.0, t);
      level := ChannelLevel(t);
    }

    /** The sum of the device's channel levels, read one channel at a time. */
    method SumChannels() returns (total: real)
      requires !isSession && volume != null
      ensures total == Sum(volume.channels)
    {
      total := 0.0;
      var k := 0;
      while k < |volume.channels|
        invariant 0 <= k <= |volume.channels|
        invariant total == Sum(volume.channels[..k])
      {
        assert volume.channels[..k + 1][..k] == volume.channels[..k];
        total := total + ChannelLevel(k);
        k := k + 1;
      }
      assert volume.channels[..k] == volume.channels;
    }

    /** Writes `level` to every channel of the device, one channel at a time. */
    method FillChannels(level: real)
      requires !isSession && volume != null
      modifies volume
      ensures volume.channels == seq(|old(volume.channels)|, _ => level)
      ensures volume.level == old(volume.level) && volume.muted == old(volume.muted)
    {
      var k := 0;
      while k < |volume.channels|
        invariant 0 <= k <= |volume.channels| == |old(volume.channels)|
        invariant volume.channels == seq(k, _ => level) + old(volume.channels)[k..]
        invariant volume.level == old(volume.level) && volume.muted == old(volume.muted)
      {
        SetChannelVolumeLevel(level, k);
        assert seq(k + 1, _ => level) == seq(k, _ => level) + [level];
        k := k + 1;
      }
    }

    /**
     * `channelVolumeAverage`: -1.0 when the source has no channels; otherwise
     * every channel is set to the arithmetic mean, which is returned.
     */
    method ChannelVolumeAverage() returns (level: real)
      modifies volume
      ensures ChannelCount() <= 0 ==> level == -1.0 && (volume != null ==> volume.channels == old(volume.channels))
      ensures ChannelCount() > 0 ==> volume != null && |old(volume.channels)| > 0 && level == Mean(old(volume.channels))
      ensures ChannelCount() > 0 ==> volume != null && volume.channels == seq(|old(volume.channels)|, _ => level)
      ensures volume != null ==> volume.level == old(volume.level) && volume.muted == old(volume.muted)
      ensures volume != null && old(volume.Valid()) ==> volume.Valid()
    {
      var count := ChannelCount();
      if count <= 0 {
        return -1.0;
      }
      var total := SumChannels();
      level := total / count as real;
      if volume.Valid() {
        MeanBounds(volume.channels);
      }
      FillChannels(level);
    }
  }
}
