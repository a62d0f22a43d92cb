/**
 * The shared types and constants of the timer app: modes, timer settings in
 * minutes, tasks, session-history entries, lifetime stats and the built-in
 * use-case presets.
 */
module Constants {
  import opened JsValues

  datatype Mode = Focus | ShortBreak | LongBreak

  /** Minutes per mode and the number of focus sessions between long breaks. */
  datatype Settings = Settings(focus: int, shortBreak: int, longBreak: int, longBreakInterval: int)
  {
    /** `settings[mode]`: the minutes configured for a mode. */
    function Minutes(m: Mode): int
    {
      match m
      case Focus => focus
      case ShortBreak => shortBreak
      case LongBreak => longBreak
    }
  }

  /** Every field set (non-zero): what a settings load always produces. */
  predicate NonZero(s: Settings)
  {
    s.focus != 0 && s.shortBreak != 0 && s.longBreak != 0 && s.longBreakInterval != 0
  }

  const DefaultSettings: Settings := Settings(25, 5, 15, 4)

  datatype Task = Task(id: string, text: string, done: bool)

  /**
   * One completed focus session. `id` keeps whatever truthy JSON value was
   * stored (freshly generated ids are strings).
   */
  datatype SessionEntry = SessionEntry(id: Json, completedAt: string, focusMinutes: int)

  /** Lifetime totals of completed focus sessions and their minutes. */
  datatype Stats = Stats(completed: int, focusMinutes: int)

  /** A use-case preset: its id and the settings it applies. */
  datatype Preset = Preset(id: string, settings: Settings)

  const UseCasePresets: seq<Preset> := [
    Preset("student-revision", Settings(25, 5, 15, 4)),
    Preset("deep-work", Settings(50, 10, 20, 3)),
    Preset("high-energy", Settings(15, 3, 10, 4)),
    Preset("mobile-commute", Settings(10, 2, 8, 5)),
    Preset("meeting-buffer", Settings(20, 5, 12, 3))
  ]

  /** The legacy build's settings: no long-break interval. */
  datatype LegacySettings = LegacySettings(focus: int, shortBreak: int, longBreak: int)

  const LegacyDefaultSettings: LegacySettings := LegacySettings(25, 5, 15)
}
