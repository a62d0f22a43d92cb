/**
 * The legacy controller of the ES-module build: fixed per-mode durations,
 * a long break on every fourth focus session, no settings and no session
 * history. `MODES` is a constructor parameter (its values in `script.js` are
 * `ScriptModes`); the notifier and repositories are ghost logs and `render`
 * is a no-op.
 */
module LegacyAppController {
  import opened JsValues
  import opened Constants
  import TaskList
  import L = LegacyTimer

  /** `MODES`: the duration of each mode in seconds. */
  datatype Modes = Modes(focus: int, shortBreak: int, longBreak: int)
  {
    function Seconds(m: Mode): int
    {
      match m
      case Focus => focus
      case ShortBreak => shortBreak
      case LongBreak => longBreak
    }
  }

  const ScriptModes: Modes := Modes(25 * 60, 5 * 60, 15 * 60)

  /** `Math.round(seconds / 60)`: the nearest whole minute, halves rounded up. */
  function RoundMinutes(seconds: int): (r: int)
    ensures 60 * r - 30 <= seconds < 60 * r + 30
  {
    MathRound(seconds as real / 60.0)
  }

  /** The 25-minute focus of `script.js` credits 25 minutes. */
  lemma ScriptFocusCredit()
    ensures RoundMinutes(ScriptModes.focus) == 25
  {
  }

  /** The break after a focus session: long exactly on multiples of four completions. */
  function NextBreak(completed: int): (m: Mode)
    ensures m != Focus
    ensures completed >= 0 ==> (m == LongBreak <==> completed % 4 == 0)
  {
    if JsRem(completed, 4) == 0 then LongBreak else ShortBreak
  }

  datatype Notice = FocusDone | BreakOver

  datatype Saved = SavedStats(stats: Stats) | SavedTasks(tasks: seq<Task>)

  class LegacyAppController {
    var mode: Mode
    var stats: Stats
    var tasks: seq<Task>
    const modes: Modes
    const timer: L.LegacyTimer
    ghost var saved: seq<Saved>
    ghost var notices: seq<Notice>

    /** The timer's total is always the current mode's duration. */
    ghost predicate Valid()
      reads this, timer
    {
      timer.Valid() && timer.total == modes.Seconds(mode)
    }

    constructor (durations: Modes, loadedStats: Stats, loadedTasks: seq<Task>)
      ensures Valid() && fresh(timer)
      ensures modes == durations && mode == Focus && stats == loadedStats && tasks == loadedTasks
      ensures timer.remaining == modes.focus && !timer.running
      ensures saved == [] && notices == []
    {
      modes := durations;
      mode := Focus;
      stats := loadedStats;
      tasks := loadedTasks;
      timer := new L.LegacyTimer();
      saved, notices := [], [];
      new;
      timer.SetDuration(modes.Seconds(mode));
    }

    /** Switches mode and loads `MODES[m]`, paused. */
    method SetMode(m: Mode)
      modifies this, timer
      ensures Valid() && mode == m
      ensures stats == old(stats) && tasks == old(tasks) && saved == old(saved) && notices == old(notices)
      ensures timer.total == modes.Seconds(m) && timer.remaining == timer.total && !timer.running
    {
      mode := m;
      timer.SetDuration(modes.Seconds(m));
    }

    /** Pauses a running timer, otherwise starts it (whatever is left, even nothing). */
    method ToggleTimer()
      requires Valid()
      modifies timer
      ensures Valid()
      ensures timer.running == !old(timer.running)
      ensures timer.remaining == old(timer.remaining) && timer.total == old(timer.total)
    {
      if timer.running {
        timer.Pause();
      } else {
        timer.Start();
      }
    }

    method ResetTimer()
      requires Valid()
      modifies timer
      ensures Valid()
      ensures timer.total == old(timer.total) && timer.remaining == timer.total && !timer.running
    {
      var _ := timer.Reset();
    }

    method AddTask(text: string, freshId: string)
      requires Valid()
      modifies this
      ensures Valid()
      ensures tasks == TaskList.AddTask(old(tasks), freshId, text)
      ensures saved == old(saved) + [SavedTasks(tasks)]
      ensures mode == old(mode) && stats == old(stats) && notices == old(notices)
    {
      tasks := TaskList.AddTask(tasks, freshId, text);
      saved := saved + [SavedTasks(tasks)];
    }

    method ToggleTask(id: string)
      requires Valid()
      modifies this
      ensures Valid()
      ensures tasks == TaskList.ToggleTask(old(tasks), id)
      ensures saved == old(saved) + [SavedTasks(tasks)]
      ensures mode == old(mode) && stats == old(stats) && notices == old(notices)
    {
      tasks := TaskList.ToggleTask(tasks, id);
      saved := saved + [SavedTasks(tasks)];
    }

    method DeleteTask(id: string)
      requires Valid()
      modifies this
      ensures Valid()
      ensures tasks == TaskList.DeleteTask(old(tasks), id)
      ensures saved == old(saved) + [SavedTasks(tasks)]
      ensures mode == old(mode) && stats == old(stats) && notices == old(notices)
    {
      tasks := TaskList.DeleteTask(tasks, id);
      saved := saved + [SavedTasks(tasks)];
    }

    /**
     * After focus: one more session, `round(MODES.focus / 60)` more minutes,
     * then a long break on every fourth session. After a break: back to focus
     * with the stats untouched.
     */
    method HandleComplete()
      modifies this, timer
      ensures Valid() && tasks == old(tasks)
      ensures timer.remaining == timer.total && !timer.running
      ensures old(mode) == Focus ==>
        && stats == Stats(old(stats.completed) + 1, old(stats.focusMinutes) + RoundMinutes(modes.focus))
        && saved == old(saved) + [SavedStats(stats)]
        && notices == old(notices) + [FocusDone]
        && mode == NextBreak(stats.completed)
      ensures old(mode) != Focus ==>
        stats == old(stats) && saved == old(saved) && notices == old(notices) + [BreakOver] && mode == Focus
    {
      if mode == Focus {
        stats := Stats(stats.completed + 1, stats.focusMinutes + RoundMinutes(modes.focus));
        saved := saved + [SavedStats(stats)];
        notices := notices + [FocusDone];
        SetMode(NextBreak(stats.completed));
        return;
      }
      notices := notices + [BreakOver];
      SetMode(Focus);
    }

    /** One run of the timer's interval callback, with `onComplete` wired to `HandleComplete`. */
    method OnTimerInterval() returns (completed: bool)
      requires Valid() && timer.running
      modifies this, timer
      ensures Valid() && tasks == old(tasks)
      ensures completed <==> old(timer.remaining) <= 1
      ensures !completed ==>
        && mode == old(mode) && stats == old(stats) && saved == old(saved) && notices == old(notices)
        && timer.running && timer.remaining == old(timer.remaining) - 1
      ensures completed && old(mode) == Focus ==>
        && stats == Stats(old(stats.completed) + 1, old(stats.focusMinutes) + RoundMinutes(modes.focus))
        && saved == old(saved) + [SavedStats(stats)]
        && notices == old(notices) + [FocusDone]
        && mode == NextBreak(stats.completed)
      ensures completed && old(mode) != Focus ==>
        stats == old(stats) && saved == old(saved) && notices == old(notices) + [BreakOver] && mode == Focus
      ensures completed ==> timer.remaining == timer.total && !timer.running
    {
      var _, done := timer.Tick();
      completed := done;
      if completed {
        HandleComplete();
      }
    }
  }

  /**
   * Four focus completions in a row with the `script.js` durations: the
   * fourth earns the long break and the running total reaches 100 minutes.
   */
  method FourFocusSessions() returns (modeAfterThird: Mode, modeAfterFourth: Mode, minutes: int)
    ensures modeAfterThird == ShortBreak && modeAfterFourth == LongBreak && minutes == 100
  {
    var c := new LegacyAppController(ScriptModes, Stats(0, 0), []);
    c.HandleComplete();
    c.SetMode(Focus);
    c.HandleComplete();
    c.SetMode(Focus);
    c.HandleComplete();
    modeAfterThird := c.mode;
    c.SetMode(Focus);
    c.HandleComplete();
    modeAfterFourth := c.mode;
    minutes := c.stats.focusMinutes;
  }
}
