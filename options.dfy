/**
 * The add-on's settings as declared by its configuration specification
 * (`config.conf[addonName]`), passed to the engine as a value.
 */
module Options {

  datatype Settings = Settings(
    status: bool,          // announce the level or "muted" after switching sources
    step: int,             // volume step in percentage points
    focus: bool,           // follow the application in focus
    duplicates: bool,      // list each process name once
    advanced: bool,        // enumerate every audio device, not just the default one
    muteCompletely: bool,  // mute natively instead of lowering the level
    mutePercentage: int)   // how far a partial mute lowers the level
  {
    /** The ranges the specification enforces on the integer options. */
    predicate Valid()
    {
      1 <= step <= 20 && 1 <= mutePercentage <= 99
    }
  }

  /** The declared defaults. */
  function Defaults(): (s: Settings)
    ensures s.Valid()
    ensures s.status && s.focus && s.duplicates && !s.advanced && !s.muteCompletely
  {
    Settings(true, 1, true, true, false, false, 75)
  }
}
