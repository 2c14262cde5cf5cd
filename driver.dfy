/**
 * The operating-system objects the engine talks to, reduced to what it reads
 * and writes: a volume handle (master level, native mute flag, channel
 * levels), the live audio sessions and the enumerated endpoints.
 */
module Driver {
  import opened Base

  /** An endpoint or session volume interface. */
  class Volume {
    var level: real
    var muted: bool
    var channels: seq<real>

    /** Levels as the driver reports them: within [0, 1]. */
    predicate Valid()
      reads this
    {
      0.0 <= level <= 1.0 && forall k :: 0 <= k < |channels| ==> 0.0 <= channels[k] <= 1.0
    }

    constructor (level: real, muted: bool, channels: seq<real>)
      ensures this.level == level && this.muted == muted && this.channels == channels
    {
      this.level := level;
      this.muted := muted;
      this.channels := channels;
    }
  }

  /**
   * A running audio session: the process it belongs to (None when it has no
   * process), its display name and its volume interface.
   */
  datatype LiveSession = LiveSession(process: Option<string>, displayName: string, volume: Volume)

  /**
   * An enumerated audio endpoint: its id and friendly name ("" where the
   * driver gives none) and the volume interface its activation yields (null
   * when activation fails).
   */
  datatype Mixer = Mixer(id: string, friendlyName: string, endpoint: Volume?)
}
