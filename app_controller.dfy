/**
 * The application controller: it owns the mode, settings, lifetime stats,
 * tasks and session history, drives one `Timer`, validates settings edits and
 * runs the focus-completion cascade.
 *
 * Repositories are a ghost log of what was saved, the notifier a ghost log of
 * notices, and the snapshot callback is a no-op. `crypto.randomUUID()` and
 * `new Date().toISOString()` are parameters.
 */
module AppController {
  import opened Wrappers
  import opened JsValues
  import opened Constants
  import TaskList
  import T = Timer
  import Utils

  datatype Field = FocusField | ShortBreakField | LongBreakField | IntervalField

  /** The candidate from the settings form: each field missing, a string or a number. */
  datatype SettingsInput = SettingsInput(
    focus: Option<Json>, shortBreak: Option<Json>, longBreak: Option<Json>, longBreakInterval: Option<Json>)

  /** `validateSettings`: the coerced settings, or the first failing field and its message. */
  datatype Validation = Accepted(value: Settings) | Rejected(field: Field, error: string)

  /** Position of a field in the validation order. */
  function Order(f: Field): nat
  {
    match f
    case FocusField => 0
    case ShortBreakField => 1
    case LongBreakField => 2
    case IntervalField => 3
  }

  function Lower(f: Field): int
  {
    match f
    case FocusField => 10
    case ShortBreakField => 1
    case LongBreakField => 5
    case IntervalField => 2
  }

  function Upper(f: Field): int
  {
    match f
    case FocusField => 90
    case ShortBreakField => 30
    case LongBreakField => 60
    case IntervalField => 8
  }

  function ErrorMessage(f: Field): string
  {
    match f
    case FocusField => "Focus must be between 10 and 90 minutes."
    case ShortBreakField => "Short break must be between 1 and 30 minutes."
    case LongBreakField => "Long break must be between 5 and 60 minutes."
    case IntervalField => "Long break interval must be between 2 and 8 focus sessions."
  }

  /** `Number(raw[field])`. */
  function InputNumber(raw: SettingsInput, f: Field): Num
  {
    match f
    case FocusField => NumberOf(raw.focus)
    case ShortBreakField => NumberOf(raw.shortBreak)
    case LongBreakField => NumberOf(raw.longBreak)
    case IntervalField => NumberOf(raw.longBreakInterval)
  }

  function SettingsField(s: Settings, f: Field): int
  {
    match f
    case FocusField => s.focus
    case ShortBreakField => s.shortBreak
    case LongBreakField => s.longBreak
    case IntervalField => s.longBreakInterval
  }

  /** Finite and inside the field's closed range. */
  predicate InBounds(n: Num, f: Field)
  {
    n.Finite? && Lower(f) <= n.value <= Upper(f)
  }

  /** Settings every field of which lies in its range. */
  predicate ValidSettings(s: Settings)
  {
    forall f: Field :: InBounds(Finite(SettingsField(s, f)), f)
  }

  /**
   * Coerces the four fields and checks them in the order focus, short break,
   * long break, interval, stopping at the first one that is not finite or out
   * of range.
   */
  function ValidateSettings(raw: SettingsInput): (r: Validation)
    ensures r.Accepted? <==> forall f: Field :: InBounds(InputNumber(raw, f), f)
    ensures r.Accepted? ==> ValidSettings(r.value)
    ensures r.Accepted? ==> forall f: Field :: Finite(SettingsField(r.value, f)) == InputNumber(raw, f)
    ensures r.Rejected? ==> !InBounds(InputNumber(raw, r.field), r.field)
    ensures r.Rejected? ==> forall f: Field :: Order(f) < Order(r.field) ==> InBounds(InputNumber(raw, f), f)
    ensures r.Rejected? ==> r.error == ErrorMessage(r.field)
  {
    var focus, shortBreak := InputNumber(raw, FocusField), InputNumber(raw, ShortBreakField);
    var longBreak, interval := InputNumber(raw, LongBreakField), InputNumber(raw, IntervalField);
    if !InBounds(focus, FocusField) then Rejected(FocusField, ErrorMessage(FocusField))
    else if !InBounds(shortBreak, ShortBreakField) then Rejected(ShortBreakField, ErrorMessage(ShortBreakField))
    else if !InBounds(longBreak, LongBreakField) then Rejected(LongBreakField, ErrorMessage(LongBreakField))
    else if !InBounds(interval, IntervalField) then Rejected(IntervalField, ErrorMessage(IntervalField))
    else Accepted(Settings(focus.value, shortBreak.value, longBreak.value, interval.value))
  }

  /** The form input that carries exactly these settings as numbers. */
  function InputOf(s: Settings): SettingsInput
  {
    SettingsInput(Some(JNum(s.focus)), Some(JNum(s.shortBreak)), Some(JNum(s.longBreak)), Some(JNum(s.longBreakInterval)))
  }

  /** Numeric settings are accepted unchanged exactly when they lie in the ranges. */
  lemma ValidateNumbers(s: Settings)
    ensures ValidSettings(s) ==> ValidateSettings(InputOf(s)) == Accepted(s)
    ensures ValidateSettings(InputOf(s)).Accepted? <==> ValidSettings(s)
  {
    var raw := InputOf(s);
    forall f: Field
      ensures InputNumber(raw, f) == Finite(SettingsField(s, f))
    {
    }
  }

  /** The defaults and all five use-case presets pass validation. */
  lemma PresetsAreValid()
    ensures ValidSettings(DefaultSettings)
    ensures forall p :: p in UseCasePresets ==> ValidSettings(p.settings)
  {
  }

  /** A focus of 5 minutes is refused on the focus field whatever the other fields hold. */
  lemma ShortFocusRefused(raw: SettingsInput)
    requires raw.focus == Some(JNum(5))
    ensures ValidateSettings(raw) == Rejected(FocusField, "Focus must be between 10 and 90 minutes.")
  {
  }

  /** `getModeDurationSeconds`: the mode's minutes as a whole number of seconds. */
  function DurationSeconds(s: Settings, m: Mode): (r: int)
    ensures r % 60 == 0 && r / 60 == s.Minutes(m)
  {
    s.Minutes(m) * 60
  }

  /** Valid settings give every mode between one minute and ninety minutes. */
  lemma ValidDurations(s: Settings, m: Mode)
    requires ValidSettings(s)
    ensures 60 <= DurationSeconds(s, m) <= 90 * 60
  {
    assert InBounds(Finite(SettingsField(s, FocusField)), FocusField);
    assert InBounds(Finite(SettingsField(s, ShortBreakField)), ShortBreakField);
    assert InBounds(Finite(SettingsField(s, LongBreakField)), LongBreakField);
  }

  const HistoryCap: nat := 365

  /**
   * `history.unshift(entry)` then `history.slice(0, 365)`: the new entry first,
   * then the newest of the old entries, the oldest beyond the cap dropped.
   */
  function RecordSession(history: seq<SessionEntry>, entry: SessionEntry): (r: seq<SessionEntry>)
    ensures |r| == Utils.Min(|history| + 1, HistoryCap)
    ensures r[0] == entry
    ensures r[1..] == history[..|r| - 1]
  {
    var added := [entry] + history;
    var r := added[..Utils.Min(|added|, HistoryCap)];
    assert r[1..] == history[..|r| - 1];
    r
  }

  /** Recording a session into a full history keeps 365 entries and evicts the oldest. */
  lemma FullHistoryEvictsOldest(history: seq<SessionEntry>, entry: SessionEntry)
    requires |history| == HistoryCap
    ensures |RecordSession(history, entry)| == HistoryCap
    ensures RecordSession(history, entry) == [entry] + history[..HistoryCap - 1]
  {
    var r := RecordSession(history, entry);
    assert r == [r[0]] + r[1..];
  }

  /**
   * The break after a focus session: long exactly when the completed count is
   * a multiple of the interval (`completed % interval === 0`).
   */
  function NextBreak(completed: int, interval: int): (m: Mode)
    requires interval != 0
    ensures m != Focus
    ensures completed >= 0 && interval > 0 ==> (m == LongBreak <==> completed % interval == 0)
  {
    if JsRem(completed, interval) == 0 then LongBreak else ShortBreak
  }

  /** With an interval of 4, the fourth session earns a long break and the fifth a short one. */
  lemma FourthSessionEarnsLongBreak()
    ensures NextBreak(4, 4) == LongBreak
    ensures NextBreak(5, 4) == ShortBreak
    ensures NextBreak(8, 4) == LongBreak
  {
  }

  /** What the notifier is asked to show. */
  datatype Notice = FocusDone | BreakOver

  /** One repository `save` call. */
  datatype Saved =
    | SavedStats(stats: Stats)
    | SavedTasks(tasks: seq<Task>)
    | SavedSettings(settings: Settings)
    | SavedHistory(history: seq<SessionEntry>)

  /** `updateSettings`' result: `{ ok: true, message }` or `{ ok: false, field, error }`. */
  datatype SettingsUpdate = Applied(message: string) | Refused(field: Field, error: string)

  class AppController {
    var mode: Mode
    var stats: Stats
    var tasks: seq<Task>
    var settings: Settings
    var sessionHistory: seq<SessionEntry>
    const timer: T.Timer
    ghost var saved: seq<Saved>
    ghost var notices: seq<Notice>

    /** The timer always holds the current mode's duration; settings never hold a zero. */
    ghost predicate Valid()
      reads this, timer
    {
      timer.Valid() && NonZero(settings) && timer.total == DurationSeconds(settings, mode)
    }

    /** Starts in focus mode with the loaded state and the focus duration, paused. */
    constructor (loadedStats: Stats, loadedTasks: seq<Task>, loadedSettings: Settings, loadedHistory: seq<SessionEntry>)
      requires NonZero(loadedSettings)
      ensures Valid() && fresh(timer)
      ensures mode == Focus && stats == loadedStats && tasks == loadedTasks
      ensures settings == loadedSettings && sessionHistory == loadedHistory
      ensures timer.remaining == timer.total && !timer.running
      ensures saved == [] && notices == []
    {
      mode := Focus;
      stats := loadedStats;
      tasks := loadedTasks;
      settings := loadedSettings;
      sessionHistory := loadedHistory;
      timer := new T.Timer();
      saved, notices := [], [];
      new;
      timer.SetDuration(DurationSeconds(settings, mode));
    }

    /** Switches mode and loads that mode's full duration, paused. */
    method SetMode(m: Mode)
      requires Valid()
      modifies this, timer
      ensures Valid() && mode == m
      ensures stats == old(stats) && tasks == old(tasks) && settings == old(settings)
      ensures sessionHistory == old(sessionHistory) && saved == old(saved) && notices == old(notices)
      ensures timer.total == DurationSeconds(settings, m) && timer.remaining == timer.total
      ensures !timer.running && timer.clockMs == old(timer.clockMs)
    {
      mode := m;
      timer.SetDuration(DurationSeconds(settings, m));
    }

    /** Pauses a running timer, otherwise starts it. */
    method ToggleTimer(nowMs: int)
      requires Valid() && nowMs >= timer.clockMs
      modifies timer
      ensures Valid()
      ensures timer.remaining == old(timer.remaining) && timer.total == old(timer.total)
      ensures old(timer.running) ==> !timer.running && timer.clockMs == old(timer.clockMs)
      ensures !old(timer.running) ==> (timer.running <==> old(timer.remaining) > 0)
      ensures !old(timer.running) && timer.running ==> timer.targetEndMs == Some(nowMs + timer.remaining * 1000)
    {
      if timer.running {
        timer.Pause();
      } else {
        timer.Start(nowMs);
      }
    }

    /** Restores the current mode's full duration, paused. */
    method ResetTimer()
      requires Valid()
      modifies timer
      ensures Valid()
      ensures timer.total == old(timer.total) && timer.remaining == timer.total && !timer.running
    {
      var _ := timer.Reset();
    }

    method AddTask(text: string, freshId: string)
      requires Valid()
      modifies this
      ensures Valid()
      ensures tasks == TaskList.AddTask(old(tasks), freshId, text)
      ensures saved == old(saved) + [SavedTasks(tasks)]
      ensures mode == old(mode) && stats == old(stats) && settings == old(settings)
      ensures sessionHistory == old(sessionHistory) && notices == old(notices)
    {
      tasks := TaskList.AddTask(tasks, freshId, text);
      saved := saved + [SavedTasks(tasks)];
    }

    method ToggleTask(id: string)
      requires Valid()
      modifies this
      ensures Valid()
      ensures tasks == TaskList.ToggleTask(old(tasks), id)
      ensures saved == old(saved) + [SavedTasks(tasks)]
      ensures mode == old(mode) && stats == old(stats) && settings == old(settings)
      ensures sessionHistory == old(sessionHistory) && notices == old(notices)
    {
      tasks := TaskList.ToggleTask(tasks, id);
      saved := saved + [SavedTasks(tasks)];
    }

    method DeleteTask(id: string)
      requires Valid()
      modifies this
      ensures Valid()
      ensures tasks == TaskList.DeleteTask(old(tasks), id)
      ensures saved == old(saved) + [SavedTasks(tasks)]
      ensures mode == old(mode) && stats == old(stats) && settings == old(settings)
      ensures sessionHistory == old(sessionHistory) && notices == old(notices)
    {
      tasks := TaskList.DeleteTask(tasks, id);
      saved := saved + [SavedTasks(tasks)];
    }

    /**
     * Validates a settings candidate. A refusal changes nothing and saves
     * nothing; an acceptance stores exactly the coerced values, saves them and
     * reloads the current mode's new duration, paused.
     */
    method UpdateSettings(raw: SettingsInput) returns (r: SettingsUpdate)
      requires Valid()
      modifies this, timer
      ensures Valid()
      ensures mode == old(mode) && stats == old(stats) && tasks == old(tasks)
      ensures sessionHistory == old(sessionHistory) && notices == old(notices)
      ensures ValidateSettings(raw).Rejected? ==>
        && r == Refused(ValidateSettings(raw).field, ValidateSettings(raw).error)
        && settings == old(settings) && saved == old(saved) && unchanged(timer)
      ensures ValidateSettings(raw).Accepted? ==>
        && r == Applied("Settings saved.")
        && settings == ValidateSettings(raw).value && ValidSettings(settings)
        && saved == old(saved) + [SavedSettings(settings)]
        && timer.total == DurationSeconds(settings, mode) && timer.remaining == timer.total && !timer.running
    {
      var validated := ValidateSettings(raw);
      if validated.Rejected? {
        return Refused(validated.field, validated.error);
      }
      settings := validated.value;
      assert InBounds(Finite(settings.longBreakInterval), IntervalField);
      assert InBounds(Finite(settings.focus), FocusField);
      assert InBounds(Finite(settings.shortBreak), ShortBreakField);
      assert InBounds(Finite(settings.longBreak), LongBreakField);
      saved := saved + [SavedSettings(settings)];
      timer.SetDuration(DurationSeconds(settings, mode));
      r := Applied("Settings saved.");
    }

    /** Restores `{25, 5, 15, 4}`, saves it and reloads the current mode's duration. */
    method ResetSettingsToDefaults() returns (r: SettingsUpdate)
      requires Valid()
      modifies this, timer
      ensures Valid()
      ensures settings == DefaultSettings && r == Applied("Default settings restored.")
      ensures saved == old(saved) + [SavedSettings(DefaultSettings)]
      ensures mode == old(mode) && stats == old(stats) && tasks == old(tasks)
      ensures sessionHistory == old(sessionHistory) && notices == old(notices)
      ensures timer.total == DurationSeconds(settings, mode) && timer.remaining == timer.total && !timer.running
    {
      settings := DefaultSettings;
      saved := saved + [SavedSettings(settings)];
      timer.SetDuration(DurationSeconds(settings, mode));
      r := Applied("Default settings restored.");
    }

    /**
     * The completion cascade. After focus: one more session and its minutes,
     * the entry recorded at the head of the capped history, then a long break
     * on every `longBreakInterval`-th session and a short one otherwise. After
     * a break: back to focus, with stats and history untouched.
     */
    method HandleComplete(freshId: string, completedAt: string)
      requires Valid()
      modifies this, timer
      ensures Valid() && tasks == old(tasks) && settings == old(settings)
      ensures timer.remaining == timer.total && !timer.running && timer.clockMs == old(timer.clockMs)
      ensures old(mode) == Focus ==>
        && stats == Stats(old(stats.completed) + 1, old(stats.focusMinutes) + settings.focus)
        && sessionHistory == RecordSession(old(sessionHistory), SessionEntry(JStr(freshId), completedAt, settings.focus))
        && saved == old(saved) + [SavedStats(stats), SavedHistory(sessionHistory)]
        && notices == old(notices) + [FocusDone]
        && mode == NextBreak(stats.completed, settings.longBreakInterval)
      ensures old(mode) != Focus ==>
        && stats == old(stats) && sessionHistory == old(sessionHistory) && saved == old(saved)
        && notices == old(notices) + [BreakOver]
        && mode == Focus
    {
      if mode == Focus {
        stats := Stats(stats.completed + 1, stats.focusMinutes + settings.focus);
        saved := saved + [SavedStats(stats)];
        sessionHistory := RecordSession(sessionHistory, SessionEntry(JStr(freshId), completedAt, settings.focus));
        saved := saved + [SavedHistory(sessionHistory)];
        notices := notices + [FocusDone];
        var nextMode := NextBreak(stats.completed, settings.longBreakInterval);
        SetMode(nextMode);
        return;
      }
      notices := notices + [BreakOver];
      SetMode(Focus);
    }

    /**
     * One run of the timer's polling callback, with `onComplete` wired to the
     * completion cascade. Until the countdown ends only the timer changes.
     */
    method OnTimerInterval(nowMs: int, freshId: string, completedAt: string) returns (completed: bool)
      requires Valid() && nowMs >= timer.clockMs
      modifies this, timer
      ensures Valid() && tasks == old(tasks) && settings == old(settings)
      ensures completed <==> old(timer.running) && T.NextRemaining(old(timer.targetEndMs).value, nowMs) == 0
      ensures !completed ==>
        && mode == old(mode) && stats == old(stats) && sessionHistory == old(sessionHistory)
        && saved == old(saved) && notices == old(notices)
        && timer.total == old(timer.total) && timer.running == old(timer.running)
      ensures !completed && old(timer.running) ==>
        timer.remaining == T.NextRemaining(old(timer.targetEndMs).value, nowMs) && timer.remaining <= old(timer.remaining)
      ensures !old(timer.running) ==> timer.remaining == old(timer.remaining)
      ensures completed && old(mode) == Focus ==>
        && stats == Stats(old(stats.completed) + 1, old(stats.focusMinutes) + settings.focus)
        && sessionHistory == RecordSession(old(sessionHistory), SessionEntry(JStr(freshId), completedAt, settings.focus))
        && saved == old(saved) + [SavedStats(stats), SavedHistory(sessionHistory)]
        && notices == old(notices) + [FocusDone]
        && mode == NextBreak(stats.completed, settings.longBreakInterval)
      ensures completed && old(mode) != Focus ==>
        && stats == old(stats) && sessionHistory == old(sessionHistory) && mode == Focus
        && saved == old(saved) && notices == old(notices) + [BreakOver]
      ensures completed ==> timer.remaining == timer.total && !timer.running
    {
      var _, done := timer.Step(nowMs);
      completed := done;
      if completed {
        HandleComplete(freshId, completedAt);
      }
    }

    method Dispose()
      requires Valid()
      modifies timer
      ensures Valid() && !timer.running
      ensures timer.remaining == old(timer.remaining) && timer.total == old(timer.total)
    {
      timer.Dispose();
    }
  }
}
