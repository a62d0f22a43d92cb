# Pomodoro Glass core, in Dafny

A model of the timer, settings, task and streak engine of the Pomodoro Glass
browser app, and of the pure calculators built on it, with proofs of what each
piece promises. The app comes in two generations: the current TypeScript app
(`src/`) and an older ES-module build (`js/`). Both are modelled.

- `timer.dfy` (module `Timer`): the anchored countdown class. It re-derives the
  seconds left from an absolute end time on every poll. `Step(nowMs)` is one
  poll at one clock reading, with the clock never running backwards.
- `legacy_timer.dfy` (module `LegacyTimer`): the legacy countdown. Every
  `Tick()` subtracts one second, and `start()` has no guard on the time left.
- `app_controller.dfy` (module `AppController`): the controller class. It
  covers settings validation, the to-do list edits, and the focus-completion cascade
  (stats, the capped history, long or short break). Repositories and the
  notifier are ghost logs.
- `legacy_app_controller.dfy` (module `LegacyAppController`): the legacy
  controller. It uses fixed per-mode durations (`MODES`, here a constructor
  parameter) and a long break on every fourth session.
- `task_list.dfy` (module `TaskList`): the three task-list edits both
  controllers perform.
- `analytics.dfy` (module `Analytics`): day buckets, today, the week strip,
  `last7`, and the best and current streaks. The same algorithm is in
  `src/services/AnalyticsService.ts` and `js/services/analyticsService.js`.
- `gamification.dfy` (module `Gamification`): experience, levels, achievements
  and daily quests.
- `session_planner.dfy` (module `SessionPlanner`): the planner summary, the
  timeline loop, the weekly forecast, the plan performance and the readiness
  signal.
- `preset_ranking.dfy` (module `PresetRanking`): ranking and re-sorting the
  use-case presets, and recommending one for a matchmaker profile.
  `stable_sort.dfy` (module `StableSort`) models JavaScript's stable
  `Array.prototype.sort`.
- `quick_start.dfy` (module `QuickStart`): snapping a planning window to the
  15-minute grid, and parsing the matchmaker words.
- `settings_repository.dfy` (modules `SettingsRepository` and
  `LegacySettingsRepository`) and `session_history_repository.dfy` (module
  `SessionHistoryRepository`): the load normalisers and their save/load pairs.
- `utils.dfy` (module `Utils`): `formatTime` and `clamp`.
- Shared helpers:
  - `js_values.dfy` (module `JsValues`) models JSON values, `Number(x)`,
    truthiness, `x || fallback`, the truncating `%`, `Math.round` and integer
    `toString`.
  - `storage.dfy` (module `Storage`) models the `getJson` fallback.
  - `constants.dfy` (module `Constants`) holds the shared types, the default
    settings and the five built-in presets.
  - `wrappers.dfy` (module `Wrappers`) holds `Option`.

Behaviours of the code the model records:

- Week keys: the code builds the week strip's keys with `toISOString` (UTC),
  not as local days. `Analytics.Build` takes the resulting shift of the strip
  as a parameter. The code as written is `ShiftedWeekMissesToday`; the local
  week is `LocalWeekEndsToday` (first row under Findings).
- Consecutive days: the code compares two day keys' midnights as exactly
  `DAY_MS` apart, and walks the current streak back from local midnight in
  fixed 24-hour steps. The model idealises both as day numbers one apart, so
  the daylight-saving cases where they differ are not captured (see Left out,
  `Analytics.CurrentStreak`).
- Stored `null`: in the code, a stored JSON `null` makes the settings load
  throw. The model has both versions. `LoadAsWritten` throws, and `Load`, the
  corrected version the controllers use, falls back to the defaults (Findings).
- Negative focus: the code's timeline loop never ends for a negative stored
  focus length, which loading accepts. `NegativeFocusEveryBlockFits` shows this,
  and `BuildTimeline` keeps to the settings the app itself accepts (Findings).
- Legacy start: the legacy timer starts even with nothing left.
- `setDuration`: it accepts any number of seconds.

## Model

| member | source | states |
|---|---|---|
| Timer.CeilSeconds | src/domain/Timer.ts:39 | `Math.ceil(ms / 1000)` is the one integer `s` with `(s-1)*1000 < ms <= s*1000` |
| Timer.NextRemaining | src/domain/Timer.ts:39 | the recomputed value is never negative, is 0 exactly when the end time has passed, and otherwise is the whole seconds covering the time left |
| Timer.NextRemainingMonotone | src/domain/Timer.ts:39-44 | a later poll never reports more seconds than an earlier one, so with a non-decreasing clock `remaining` never increases |
| Timer.PollAtStartKeepsRemaining | src/domain/Timer.ts:34-39 | a poll at the instant of `start()` reports exactly the seconds that were left (no drift) |
| Timer.Timer.constructor | src/domain/Timer.ts:5-10 | a new timer is paused with `remaining == total == 0` and no end time |
| Timer.Timer.SetDuration | src/domain/Timer.ts:23-28 | `total == remaining == seconds`, stopped, no end time, and no callback fires |
| Timer.Timer.Start | src/domain/Timer.ts:30-35 | a no-op when running or when `remaining <= 0`; otherwise running with `targetEndMs = now + remaining*1000`; time left unchanged |
| Timer.Timer.Step | src/domain/Timer.ts:36-50 | one poll: `remaining' = max(0, ceil((end-now)/1000))` and `0 <= remaining' <= remaining`; `onTick(remaining, total)` fires exactly when the value changed; completion fires exactly when a running timer reaches 0, after it has stopped; a stopped timer is untouched |
| Timer.Timer.Pause | src/domain/Timer.ts:53-58 | stops and clears the end time without touching `remaining` or `total`, so pausing twice is pausing once |
| Timer.Timer.Reset | src/domain/Timer.ts:60-64 | `remaining = total`, stopped, and exactly one `onTick(total, total)` |
| Timer.Timer.Dispose | src/domain/Timer.ts:66-68 | the same state change as `pause()`, safe from any state |
| Timer.CountdownScenario | src/domain/Timer.ts:30-58 | a 2-second countdown polled past its end reports 1 then 0, completes once, and a later `start()` is refused |
| LegacyTimer.LegacyTimer.constructor | js/domain/timer.js:2-9 | a new legacy timer is stopped at 0 of 0 |
| LegacyTimer.LegacyTimer.SetDuration | js/domain/timer.js:11-15 | `total == remaining == seconds` and stopped |
| LegacyTimer.LegacyTimer.Start | js/domain/timer.js:17-19 | afterwards the timer runs, whatever `remaining` is; time left unchanged |
| LegacyTimer.LegacyTimer.Tick | js/domain/timer.js:20-27 | one interval run: `remaining` drops by exactly 1, `onTick` always fires with the new value, and the timer stops and completes exactly when `remaining <= 0` |
| LegacyTimer.LegacyTimer.Pause | js/domain/timer.js:30-34 | stops without touching `remaining` or `total` |
| LegacyTimer.LegacyTimer.Reset | js/domain/timer.js:36-40 | `remaining = total`, stopped, and exactly one `onTick(total, total)` |
| LegacyTimer.ZeroDurationScenario | js/domain/timer.js:17-27 | a zero-length countdown is accepted by `start()`, ticks to -1 and completes |
| AppController.ValidateSettings | src/application/AppController.ts:172-205 | accepted exactly when all four coerced fields are finite and inside focus [10,90], short break [1,30], long break [5,60], interval [2,8]; the accepted value is the coerced numbers; a refusal names the first failing field in that order, with its message |
| AppController.ValidateNumbers | src/application/AppController.ts:172-205 | numeric settings are accepted, unchanged, exactly when they lie in the four ranges |
| AppController.PresetsAreValid | src/constants/useCases.ts:51-139 | the default settings and all five built-in presets pass validation |
| AppController.ShortFocusRefused | src/application/AppController.ts:180-182 | a 5-minute focus is refused on the focus field, whatever the other fields hold |
| AppController.ValidDurations | src/application/AppController.ts:168-170 | with valid settings every mode lasts between 60 and 5400 seconds |
| AppController.DurationSeconds | src/application/AppController.ts:168-170 | a mode's duration is a whole number of minutes in seconds: divisible by 60, and the quotient is that mode's setting |
| AppController.RecordSession | src/application/AppController.ts:134-139 | the new entry comes first, followed by the newest old entries, and the length is `min(old + 1, 365)` |
| AppController.FullHistoryEvictsOldest | src/application/AppController.ts:139 | recording into a 365-entry history keeps 365 entries and evicts exactly the oldest |
| AppController.NextBreak | src/application/AppController.ts:143 | the next mode is a break, long exactly when `completed % longBreakInterval == 0` |
| AppController.FourthSessionEarnsLongBreak | src/application/AppController.ts:143 | with interval 4, session 4 earns a long break, session 5 a short one and session 8 a long one |
| AppController.AppController.constructor | src/application/AppController.ts:39-60 | starts in focus with the loaded state and the focus duration loaded, paused |
| AppController.AppController.SetMode | src/application/AppController.ts:71-75 | sets the mode and loads `settings[mode]*60` seconds, paused; nothing else changes |
| AppController.AppController.ToggleTimer | src/application/AppController.ts:77-81 | a running timer pauses, otherwise it starts (when time is left); the time left is kept |
| AppController.AppController.ResetTimer | src/application/AppController.ts:83-86 | the current mode's full duration, paused |
| AppController.AppController.AddTask | src/application/AppController.ts:88-92 | the to-do list becomes the new not-done task followed by the old list, which is saved; nothing else changes |
| AppController.AppController.ToggleTask | src/application/AppController.ts:94-98 | the to-do list becomes the toggled list, which is saved; nothing else changes |
| AppController.AppController.DeleteTask | src/application/AppController.ts:100-104 | the to-do list becomes the filtered list, which is saved; nothing else changes |
| AppController.AppController.UpdateSettings | src/application/AppController.ts:106-118 | a refusal returns the first failing field and changes and saves nothing (timer included); an acceptance stores and saves exactly the coerced values and reloads the current mode's new duration, paused, without changing the mode |
| AppController.AppController.ResetSettingsToDefaults | src/application/AppController.ts:120-126 | settings become `{25, 5, 15, 4}` and are saved; the current mode's duration is reloaded |
| AppController.AppController.HandleComplete | src/application/AppController.ts:128-150 | after focus: one more session, `settings.focus` more minutes, the entry at the head of the capped history, the saves in order, the focus notice, then a long break exactly on multiples of the interval; after a break: back to focus with stats and history untouched |
| AppController.AppController.OnTimerInterval | src/application/AppController.ts:55-58 | a poll completes exactly when a running countdown reaches 0; a completed focus poll records the session, saves stats and history and notifies, a completed break poll switches to focus and notifies, and both leave a stopped full countdown; otherwise the remaining time becomes the rounded-up time to the target (never rising), or stays as it was when stopped, and nothing else changes |
| AppController.AppController.Dispose | src/application/AppController.ts:67-69 | stops the timer and keeps its time left |
| TaskList.AddTask | src/application/AppController.ts:89 | the new task `{id, text, done: false}` comes first, followed by the old list unchanged |
| TaskList.ToggleTask | src/application/AppController.ts:95 | same length and order; `done` is flipped exactly on the tasks with that id, and ids and texts are kept |
| TaskList.DeleteTask | src/application/AppController.ts:101 | exactly the tasks without that id remain |
| TaskList.Flip | src/application/AppController.ts:95 | a task keeps its id and text, and its done flag changes exactly when its id is the toggled one |
| TaskList.ToggleUnknownId | src/application/AppController.ts:95 | toggling an id no task has leaves the list equal |
| TaskList.ToggleTwice | src/application/AppController.ts:95 | toggling the same id twice restores the list |
| TaskList.DeleteDistributes | src/application/AppController.ts:101 | deletion distributes over concatenation, so the survivors keep their order |
| TaskList.DeleteUnknownId | src/application/AppController.ts:101 | deleting an id no task has leaves the list equal |
| TaskList.AddThenDelete | src/application/AppController.ts:88-101 | adding a task under a fresh id and then deleting that id restores the list |
| TaskList.DeleteIdempotent | src/application/AppController.ts:101 | deleting twice is deleting once |
| LegacyAppController.RoundMinutes | js/appController.js:64 | `Math.round(seconds / 60)` is the nearest minute, halves going up |
| LegacyAppController.ScriptFocusCredit | script.js:1-5 | the 25-minute focus of `MODES` credits 25 minutes |
| LegacyAppController.NextBreak | js/appController.js:67 | the next mode is a break, long exactly on multiples of four completions |
| LegacyAppController.LegacyAppController.constructor | js/appController.js:5-20 | starts in focus with the loaded stats and tasks and `MODES.focus` seconds, paused |
| LegacyAppController.LegacyAppController.SetMode | js/appController.js:26-30 | sets the mode and loads `MODES[mode]` seconds, paused |
| LegacyAppController.LegacyAppController.ToggleTimer | js/appController.js:32-36 | a running timer pauses, otherwise it starts |
| LegacyAppController.LegacyAppController.ResetTimer | js/appController.js:38-41 | the current mode's full duration, paused |
| LegacyAppController.LegacyAppController.AddTask | js/appController.js:43-47 | prepends a not-done task and saves the list |
| LegacyAppController.LegacyAppController.ToggleTask | js/appController.js:49-53 | flips `done` on the matching ids and saves the list |
| LegacyAppController.LegacyAppController.DeleteTask | js/appController.js:55-59 | removes the matching ids, keeping the order of the rest, and saves the list |
| LegacyAppController.LegacyAppController.HandleComplete | js/appController.js:61-74 | after focus: one more session and `round(MODES.focus/60)` more minutes, saved, then a long break exactly when `completed % 4 == 0`; after a break: back to focus with stats untouched; there is no history |
| LegacyAppController.LegacyAppController.OnTimerInterval | js/appController.js:15-18 | an interval run completes exactly when it takes the countdown to 0 or below; a completed focus run credits the session, saves stats and notifies, a completed break run switches to focus, saves nothing and notifies; an uncompleted run changes only the countdown |
| LegacyAppController.FourFocusSessions | js/appController.js:61-74 | with the `script.js` durations, the third completion earns a short break, the fourth a long one, and 100 minutes are credited |
| Analytics.DayTotal | src/services/AnalyticsService.ts:26-33 | a day's session count is never negative, and a day without sessions has no minutes |
| Analytics.ActiveDays | src/services/AnalyticsService.ts:46 | a day is a key of the bucket map exactly when its bucket has a session |
| Analytics.DayTotalAppend | src/services/AnalyticsService.ts:27-33 | the bucket of a concatenation is the sum of the parts' buckets |
| Analytics.MoveToEnd | src/services/AnalyticsService.ts:20 | moving one entry to the end leaves every bucket unchanged |
| Analytics.DayTotalPermutation | src/services/AnalyticsService.ts:14-33 | a bucket depends only on the multiset of entries, not on their order |
| Analytics.ActiveDaysPermutation | src/services/AnalyticsService.ts:46 | the set of active days does not depend on the order of the history |
| Analytics.DescribesIgnoresOrder | src/services/AnalyticsService.ts:13-50 | the whole analytics result does not depend on the order of the history |
| Analytics.LocalWeekEndsToday | src/services/AnalyticsService.ts:52-59 | with local keys the week strip is seven consecutive days, oldest first, ending today |
| Analytics.WeekDays | src/services/AnalyticsService.ts:52-59 | seven consecutive day numbers, oldest first, ending at the (possibly shifted) current day |
| Analytics.ShiftedWeekMissesToday | src/services/AnalyticsService.ts:57 | with the UTC keys one day behind, the strip ends yesterday and never contains today |
| Analytics.LongestRunUnique | src/services/AnalyticsService.ts:65-75 | the best streak is determined by the active days |
| Analytics.CurrentStreakUnique | src/services/AnalyticsService.ts:80-86 | the current streak is determined by the active days and today |
| Analytics.CurrentAtMostBest | src/services/AnalyticsService.ts:62-88 | on the idealised calendar, the current streak is at most the best, and it is 0 when today has no session |
| Analytics.SortKeys | src/services/AnalyticsService.ts:46 | sorting the distinct day keys gives them in strictly ascending order, none gained or lost |
| Analytics.ConsecutiveIsRun | src/services/AnalyticsService.ts:69-75 | adjacent sorted keys one day apart form a run of active days |
| Analytics.RunIsConsecutive | src/services/AnalyticsService.ts:69-75 | a run of active days occupies adjacent positions among the sorted keys |
| Analytics.BucketByDay | src/services/AnalyticsService.ts:26-33 | the loop builds, for every day, the count and minutes of that day's entries; its keys are exactly the active days, listed once each |
| Analytics.ScanStep | src/services/AnalyticsService.ts:69-75 | one step of the forward scan keeps `run` as the run ending at the current key and `best` as the longest so far |
| Analytics.ScanGivesLongestRun | src/services/AnalyticsService.ts:69-75 | after the whole scan, `best` is the longest run of consecutive active days |
| Analytics.BestStreak | src/services/AnalyticsService.ts:65-75 | the forward scan over the sorted keys returns the length of the longest run of consecutive active days |
| Analytics.CurrentStreak | src/services/AnalyticsService.ts:80-86 | the backward walk from today counts the active days up to the first inactive one, one calendar day per step (the source's fixed 24-hour step is listed under Left out) |
| Analytics.ComputeStreak | src/services/AnalyticsService.ts:61-89 | `best` is the longest run of consecutive active days (0 for none); `current` is the number of active days walking back from today, ending at the first inactive day |
| Analytics.Build | src/services/AnalyticsService.ts:13-50 | `today` is today's bucket; `week` has exactly 7 days, oldest first, each with its bucket (zero when empty); `last7` is the sum of `week`; the streaks are as in `ComputeStreak` (identical in js/services/analyticsService.js:4-50) |
| Analytics.WindowGrows | src/services/AnalyticsService.ts:41-44 | the total of a window of `n >= 1` days is the total of its first `n - 1` days plus the bucket of its last day |
| Analytics.SumStats | src/services/AnalyticsService.ts:41-44 | summing the week's buckets gives a session total at least each day's count when counts are non-negative |
| Analytics.DaysTotalIsWindow | src/services/AnalyticsService.ts:41-44 | summing `n` consecutive buckets equals counting the entries whose day lies in those `n` days |
| Analytics.WeekPrefixTotal | src/services/AnalyticsService.ts:41-44 | the running sum over the first `k` week days equals the sum of their buckets |
| Analytics.Last7IsWindow | src/services/AnalyticsService.ts:36-44 | `last7` counts exactly the parsable entries whose local day falls inside the strip's seven days, and sums their minutes |
| Analytics.EmptyHistory | src/services/AnalyticsService.ts:62 | an empty history gives zero today, zero `last7`, seven zero days and streaks `{0, 0}` |
| Analytics.SmokeBuckets | scripts/smoke-check.mjs:7-17 | the smoke-test history has active days today, -1, -2 and -4, and today's bucket is `{1, 25}` |
| Analytics.SmokeStreaks | scripts/smoke-check.mjs:18-19 | those active days give current and best streaks of 3 |
| Analytics.SmokeCheck | scripts/smoke-check.mjs:4-20 | the smoke test's expectations: today `{1, 25}`, streak `{3, 3}`, seven week days (the test runs js/services/analyticsService.js) |
| Gamification.BuildProgress | src/application/GamificationEngine.ts:62-71 | the experience is `Xp(stats)`; the level is the 500-point band holding it; `1 <= xpToNextLevel <= 500`; `xp + xpToNextLevel == level*500`; progress is the experience into the level as a percentage of 500, in [0, 100] |
| Gamification.Xp | src/application/GamificationEngine.ts:63 | experience is never negative for non-negative session and minute counts |
| Gamification.LevelIsBand | src/application/GamificationEngine.ts:64 | any level whose band holds the experience is the computed level |
| Gamification.LevelAtLeastOne | src/application/GamificationEngine.ts:64 | non-negative totals give level 1 or more |
| Gamification.FocusBlockXp | src/application/GamificationEngine.ts:63 | a completed focus block of `m` minutes earns `100 + 2m` experience |
| Gamification.LevelMonotone | src/application/GamificationEngine.ts:64 | more experience never gives a lower level |
| Gamification.CountDone | src/application/GamificationEngine.ts:58 | the done count is at most the number of tasks |
| Gamification.GoalStatus | src/application/GamificationEngine.ts:73-85 | a goal is reached exactly when the measured value reaches the target; the bar is clamped to [0, 100] and full exactly when reached |
| Gamification.StatusAll | src/application/GamificationEngine.ts:74 | one row per goal, in table order |
| Gamification.PercentReachesFull | src/application/GamificationEngine.ts:76-77 | the raw percentage reaches 100 exactly when the progress value reaches the target, so the clamped bar is full exactly when the goal is met |
| Gamification.BuildAchievementProgress | src/application/GamificationEngine.ts:73-86 | three achievements, each with progress in [0, 100]; they unlock at 1 session, 1000 focus minutes and a 7-day current streak |
| Gamification.BuildDailyQuestProgress | src/application/GamificationEngine.ts:88-101 | three quests, each with progress in [0, 100]; they complete at 120 minutes today, 4 sessions today and 3 done tasks |
| Gamification.CountDoneAppend | src/application/GamificationEngine.ts:58 | the done count of a concatenation is the sum of the parts' counts |
| Gamification.AddKeepsDoneCount | src/application/AppController.ts:89 | adding a task never changes the Task Clarity count |
| Gamification.DeleteLowersDoneCount | src/application/AppController.ts:101 | deleting tasks never raises the Task Clarity count |
| SessionPlanner.BuildSummary | src/application/SessionPlannerEngine.ts:72-85 | `cycle = focus + shortBreak`, non-zero of either sign; sessions is `max(1, floor(planning / cycle))`, stated by its bounds (for a positive cycle: at least 1, and otherwise the largest count of whole cycles inside the window); `focusMinutes = sessions*focus`; `xp = 100*sessions + 2*focusMinutes`; weekly xp is five times that |
| SessionPlanner.SummarySessionsUnique | src/application/SessionPlannerEngine.ts:74 | the session estimate is the only count with the bounds of `max(1, floor(planning / cycle))`, for a cycle of either sign |
| SessionPlanner.CycleCountUnique | src/application/SessionPlannerEngine.ts:74 | for a non-zero cycle of either sign, at most one count has the bounds of `max(1, floor(x / c))` |
| SessionPlanner.NegativeCycleSummary | src/application/SessionPlannerEngine.ts:72-76 | settings `{focus: -10, shortBreak: 5}` over 120 minutes give one session of -10 focus minutes; the floor of 121 / -5 is -25, not Dafny's -24 |
| SessionPlanner.BuildTimeline | src/application/SessionPlannerEngine.ts:87-126 | the loop emits exactly the longest prefix of the alternating focus/break schedule whose blocks each start before and end within the window |
| SessionPlanner.TimelineShape | src/application/SessionPlannerEngine.ts:97-121 | the first block is focus at minute 0; each block starts where the previous ended; `endsAt = startsAt + minutes <= planning`; focus and breaks alternate |
| SessionPlanner.BreakKindRule | src/application/SessionPlannerEngine.ts:108-110 | the break after the k-th focus is long exactly when the interval is non-zero and divides `k` (the truncating `%` gives 0); the k-th break always follows the k-th focus |
| SessionPlanner.LongBreakDue | src/application/SessionPlannerEngine.ts:108 | for a non-negative count of finished focus sessions, a long break is due exactly when the interval is non-zero and divides the count |
| SessionPlanner.TimelineUnique | src/application/SessionPlannerEngine.ts:92-123 | the loop's postcondition determines the timeline completely |
| SessionPlanner.NegativeFocusStarts | src/application/SessionPlannerEngine.ts:92-123 | with a focus of -5 the focus blocks all start at minute 0 and the breaks at minute -5, so the plan never advances |
| SessionPlanner.NegativeFocusEveryBlockFits | src/application/SessionPlannerEngine.ts:92 | settings with a focus of -5 survive a save and load unchanged, and every block of their plan starts before the 120-minute window ends, so the loop guard never fails |
| SessionPlanner.CeilDiv | src/application/SessionPlannerEngine.ts:138 | `ceil(a / b)` is the least `q >= 0` with `q*b >= a` |
| SessionPlanner.BuildForecast | src/application/SessionPlannerEngine.ts:128-146 | five days of sessions and experience; the ETA is at least 1 day, enough days reach the next level at the daily rate, and one day fewer would not |
| SessionPlanner.ForecastEtaIsLeast | src/application/SessionPlannerEngine.ts:137-138 | no shorter run of planned days reaches the next level |
| SessionPlanner.FloorDiv | src/application/SessionPlannerEngine.ts:74 | `Math.floor(a / b)` for a non-zero `b` of either sign: `q*b <= a < (q+1)*b` when `b > 0`, and `(q+1)*b < a <= q*b` when `b < 0` |
| SessionPlanner.WholeCycles | src/application/SessionPlannerEngine.ts:151 | `max(1, floor(n / cycle))` for a non-zero cycle, stated by its bounds; for a positive cycle it leaves less than one cycle over, and the leftover is negative exactly when `n < cycle`; for a negative cycle the leftover is above the cycle |
| SessionPlanner.Share | src/application/SessionPlannerEngine.ts:154 | the focus ratio times the window is the focus time |
| SessionPlanner.HourlyRate | src/application/SessionPlannerEngine.ts:156 | the rate is the nearest integer to `amount / minutes * 60` (halves rounding up) |
| SessionPlanner.DaysToReach | src/application/SessionPlannerEngine.ts:138 | at least one day; that many days at the daily rate reach the target, and one day fewer would not (unless the answer is the floor of 1) |
| SessionPlanner.BuildPerformance | src/application/SessionPlannerEngine.ts:148-167 | over `normalized = max(planning, focus)` and a non-zero cycle: sessions is `max(1, floor(normalized / cycle))` by its bounds, `focusMinutes = sessions*focus`, `remainder = normalized - sessions*cycle`, which for a positive cycle is below one cycle and negative exactly when `normalized < cycle` and for a negative cycle lies above it, and the experience is that of `sessions` sessions of `focusMinutes` |
| SessionPlanner.PerformanceRates | src/application/SessionPlannerEngine.ts:154-156 | `focusRatio*normalized == focusMinutes`, and the xp per hour is `xp/normalized*60` rounded to the nearest integer |
| SessionPlanner.PerformanceAgreesWithSummary | src/application/SessionPlannerEngine.ts:148-153 | for a window at least one focus block long, performance and summary count the same sessions and experience |
| SessionPlanner.BreakBudgetRange | src/application/SessionPlannerEngine.ts:171 | the break budget lies between 0 and 60 minutes an hour |
| SessionPlanner.BreakMinutesPerHour | src/application/SessionPlannerEngine.ts:171 | the short-break share of a cycle, scaled to an hour, rounded to the nearest minute |
| SessionPlanner.ReadinessSignal | src/application/SessionPlannerEngine.ts:169-194 | Intense exactly when `focus >= 40` or `ratio >= 0.82`; otherwise Recovery exactly when `focus <= 18` or `ratio <= 0.62`; otherwise Balanced; each label with its tone and sentence |
| SessionPlanner.MiddleIsBalanced | src/application/SessionPlannerEngine.ts:189-193 | a 19-39 minute focus with a ratio strictly between 0.62 and 0.82 is Balanced |
| PresetRanking.PlanFor | src/application/SessionPlannerEngine.ts:199-200 | a plan's score is `focusRatio*100 - remainder` of its performance |
| PresetRanking.Plans | src/application/SessionPlannerEngine.ts:197-211 | one plan per preset, in preset order |
| PresetRanking.RankPresetPlans | src/application/SessionPlannerEngine.ts:196-213 | a permutation of the per-preset plans, ordered by non-increasing score, with equal scores in preset order |
| PresetRanking.SortPresetPlans | src/application/SessionPlannerEngine.ts:215-239 | a permutation of the plans, ordered by the chosen mode's comparator (score; xp per hour then score; cycle length then score), and stable: plans the comparator ties keep their input order |
| PresetRanking.BestFitKeepsRanking | src/application/SessionPlannerEngine.ts:212-235 | re-sorting the ranked list by best fit gives back the same list |
| PresetRanking.SortedIsFixed | src/application/SessionPlannerEngine.ts:221-236 | sorting an already ordered list changes nothing |
| PresetRanking.ScoreBounds | src/application/SessionPlannerEngine.ts:247-295 | a profile score lies between 0 and 4 per rule, with at most one reason per rule |
| PresetRanking.ScorePreset | src/application/SessionPlannerEngine.ts:247-295 | the imperative scoring pass yields the sum of the weights of the rules that fire and their reasons in rule order |
| PresetRanking.Confidence | src/application/SessionPlannerEngine.ts:297 | never above 98, and `55 + 6*score` unless capped at 98 |
| PresetRanking.RecommendationFor | src/application/SessionPlannerEngine.ts:308-315 | a recommendation carries at most two reasons and a confidence of at most 98 |
| PresetRanking.RecommendPresetByProfile | src/application/SessionPlannerEngine.ts:241-316 | null exactly for an empty list; otherwise the first preset with the highest score, its confidence and its first two reasons |
| PresetRanking.ConsistencyProfilePicksStudentRevision | src/application/SessionPlannerEngine.ts:262-275 | a steady-energy desk user aiming for consistency gets student-revision, with score 6 |
| StableSort.Insert | src/application/SessionPlannerEngine.ts:212 | insertion adds one element and keeps the others (multiset) |
| StableSort.Sort | src/application/SessionPlannerEngine.ts:212 | the sorted sequence is a permutation of the input |
| StableSort.InsertSorted | src/application/SessionPlannerEngine.ts:212 | insertion into an ordered sequence keeps it ordered |
| StableSort.SortSorted | src/application/SessionPlannerEngine.ts:212 | the result is ordered by the comparator's key |
| StableSort.InsertWithKey | src/application/SessionPlannerEngine.ts:212 | inserting places the element before every later element with the same key |
| StableSort.SortStable | src/application/SessionPlannerEngine.ts:306 | for every key, its elements appear in the output in input order (the sort is stable) |
| StableSort.FirstMin | src/application/SessionPlannerEngine.ts:306-308 | the position of the first element with the smallest key |
| StableSort.SortHead | src/application/SessionPlannerEngine.ts:306-308 | the head of the sorted list is the first element with the smallest key |
| QuickStart.NormalizePlanningMinutes | src/lib/quickStart.ts:90-93 | the result lies in [60, 360] and is a multiple of 15 |
| QuickStart.RoundingStep | src/lib/quickStart.ts:91 | `Math.round(v/15)` is `(2v + 15) div 30`, halves going up |
| QuickStart.GridPointsFixed | src/lib/quickStart.ts:90-93 | every multiple of 15 in [60, 360] is left unchanged |
| QuickStart.NormalizeIdempotent | src/lib/quickStart.ts:90-93 | normalising twice is normalising once |
| QuickStart.NormalizeMonotone | src/lib/quickStart.ts:91-92 | a longer requested window never normalises to a shorter one |
| QuickStart.ParseEnergy | src/lib/quickStart.ts:75-78 | yields an energy exactly when the query value is that energy's word |
| QuickStart.ParseContext | src/lib/quickStart.ts:80-83 | yields a context exactly when the query value is that context's word |
| QuickStart.ParseGoal | src/lib/quickStart.ts:85-88 | yields a goal exactly when the query value is that goal's word |
| QuickStart.ProfileRoundTrip | src/lib/quickStart.ts:75-88 | each allowed word parses back to its value |
| QuickStart.UnknownWordsRejected | src/lib/quickStart.ts:75-78 | a missing parameter or any other word reads as no choice |
| Storage.GetJson | src/services/StorageService.ts:11-18 | a missing or unparsable entry reads as the fallback, and a parsed entry reads as its parsed value |
| SettingsRepository.Load | src/repositories/SettingsRepository.ts:10-18 | each field is the stored number when it is finite and non-zero, and that field's default otherwise; the result has no zero field |
| SettingsRepository.Save | src/repositories/SettingsRepository.ts:20-22 | the stored document is an object with exactly the four settings keys, each holding that setting as a number |
| SettingsRepository.LoadAsWritten | src/repositories/SettingsRepository.ts:10-18 | the load as written throws exactly for a stored `null` and agrees with `Load` everywhere else |
| SettingsRepository.NullStoredThrows | src/repositories/SettingsRepository.ts:11-13 | a stored `null` throws in the written load; the corrected load gives the defaults |
| SettingsRepository.AbsentLoadsDefaults | src/repositories/SettingsRepository.ts:11 | absent or unparsable storage loads exactly `{25, 5, 15, 4}` |
| SettingsRepository.SaveLoadRoundTrip | src/repositories/SettingsRepository.ts:10-22 | `load(save(s)) == s` exactly when no field of `s` is zero |
| SettingsRepository.CorruptFieldDefaultsOnlyItself | src/repositories/SettingsRepository.ts:13-16 | an unusable value in one field resets that field to its default and leaves the other three as they were |
| SettingsRepository.LoadKeepsOutOfRangeValues | src/repositories/SettingsRepository.ts:10-18 | loading enforces no range: a saved 500-minute focus comes back |
| LegacySettingsRepository.Load | js/repositories/settingsRepository.js:9-16 | three fields only, each the stored number when finite and non-zero, and its default otherwise |
| LegacySettingsRepository.Save | js/repositories/settingsRepository.js:18-20 | the stored document is an object with exactly the keys focus, shortBreak and longBreak, each holding that setting as a number |
| LegacySettingsRepository.SaveRecord | js/repositories/settingsRepository.js:18-20 | whatever record the app passes is stored as it is: every key reads back its own value and no other key is present |
| LegacySettingsRepository.LoadAsWritten | js/repositories/settingsRepository.js:9-16 | the legacy load as written throws exactly for a stored `null` |
| LegacySettingsRepository.NullStoredThrows | js/repositories/settingsRepository.js:10-12 | a stored `null` throws in the written load; the corrected load gives the defaults |
| LegacySettingsRepository.AbsentLoadsDefaults | js/repositories/settingsRepository.js:10 | absent or unparsable storage loads exactly `{25, 5, 15}` |
| LegacySettingsRepository.SaveLoadRoundTrip | js/repositories/settingsRepository.js:9-20 | a three-field record round-trips exactly when no field is zero |
| LegacySettingsRepository.IntervalIsDropped | js/repositories/settingsRepository.js:11-15 | a stored `longBreakInterval` never reaches the loaded value |
| SessionHistoryRepository.Survivors | src/repositories/SessionHistoryRepository.ts:15 | the kept entries are exactly the truthy ones with a string `completedAt`, taken from the input, and no more of them than the input has |
| SessionHistoryRepository.Normalize | src/repositories/SessionHistoryRepository.ts:16-20 | a truthy `id` is kept and a falsy one replaced by the fresh id; `completedAt` passes through; `focusMinutes` is 0 exactly when not finite and non-zero, and otherwise is the stored number |
| SessionHistoryRepository.Load | src/repositories/SessionHistoryRepository.ts:10-21 | a non-array loads as `[]`; otherwise one normalised entry per kept entry, in order (the same code as js/repositories/sessionHistoryRepository.js:7-18) |
| SessionHistoryRepository.SurvivorsAppend | src/repositories/SessionHistoryRepository.ts:15 | filtering distributes over concatenation, so the survivors keep their relative order |
| SessionHistoryRepository.SurvivorsOfWellFormed | src/repositories/SessionHistoryRepository.ts:15 | entries that all pass the filter are kept as they are |
| SessionHistoryRepository.NonArrayLoadsEmpty | src/repositories/SessionHistoryRepository.ts:11-12 | nothing stored, unparsable content or a non-array loads as the empty history |
| SessionHistoryRepository.EntriesToJson | src/repositories/SessionHistoryRepository.ts:23-25 | saving writes one record per entry, in order |
| SessionHistoryRepository.EntryToJson | src/repositories/SessionHistoryRepository.ts:23-25 | an entry is written as an object with exactly the keys id, completedAt and focusMinutes, holding the entry's values |
| SessionHistoryRepository.Save | src/repositories/SessionHistoryRepository.ts:23-25 | the stored document is an array with one object per history entry, in order |
| SessionHistoryRepository.EntryRoundTrip | src/repositories/SessionHistoryRepository.ts:16-20 | a recorded entry passes the filter and normalises back to itself |
| SessionHistoryRepository.SaveLoadRoundTrip | src/repositories/SessionHistoryRepository.ts:10-25 | a saved history of entries with truthy ids and non-zero minutes loads back unchanged, whatever fresh ids are at hand |
| SessionHistoryRepository.MalformedEntryDropped | js/repositories/sessionHistoryRepository.js:11-12 | an entry without a string `completedAt` is dropped wherever it sits and the rest keep their order |
| Utils.Pad2 | js/utils.js:2-3 | `padStart(2, '0')` prefixes one zero to a shorter string and leaves longer ones alone |
| Utils.PadDigits | js/utils.js:2-3 | padding keeps a digit string's value and widens it to at least 2 |
| Utils.SecondsField | js/utils.js:3 | for `s >= 0` the seconds field is two digits worth `s mod 60`, after a colon |
| Utils.FormatTimeRoundTrip | js/utils.js:1-5 | for `s >= 0`, reading the fields back gives `60*minutes + seconds == s` |
| Utils.FormatTimeWidth | js/utils.js:2 | the text is 5 characters exactly when `s < 6000`; beyond that the minutes field widens instead of truncating |
| Utils.FormatTime | js/utils.js:1-5 | the text is at least five characters, and for a non-negative count it ends in a colon and a two-digit seconds field |
| Utils.Clamp | js/utils.js:7-9 | with `lo <= hi` the result lies in [lo, hi] and equals the value exactly when the value is already in range; with `lo > hi` it is `lo` |
| Utils.ClampReal | src/application/GamificationEngine.ts:68 | the same three facts for the real-valued percentage clamp |
| Utils.ClampMonotone | js/utils.js:7-9 | clamping is monotone in the value |
| Utils.ClampRealAgrees | js/utils.js:7-9 | on whole numbers the fractional clamp agrees with the integer one |
| JsValues.OrDefault | src/repositories/SettingsRepository.ts:13 | `Number(x) \|\| d` keeps a finite non-zero number, and gives `d` for NaN and 0 |
| JsValues.Truthy | src/repositories/SessionHistoryRepository.ts:15-17 | a value is truthy exactly when it is not null, false, 0 or the empty string |
| JsValues.StringToNumber | src/repositories/SettingsRepository.ts:13 | a string of decimal digits converts to its value, and any other finite result comes from an optionally signed digit string |
| JsValues.NumberOfValue | src/repositories/SettingsRepository.ts:13-16 | a number converts to itself; an object, or an array of two or more items, converts to NaN |
| JsValues.IntToStringRoundTrip | src/repositories/SettingsRepository.ts:13-16 | an integer written as decimal text converts back to the same integer |
| JsValues.JsRem | js/utils.js:3 | the truncating `%`: the remainder has the sign of the dividend and lies strictly inside `(-\|b\|, \|b\|)` |
| JsValues.MathRound | src/lib/quickStart.ts:91 | `Math.round(x)` is the one integer in `(x - 1/2, x + 1/2]` |
| JsValues.MathRoundMonotone | src/lib/quickStart.ts:91 | rounding preserves order |
| JsValues.NatToString | js/utils.js:2 | `n.toString()` is the shortest decimal digit string worth `n` |

## Left out

- Scheduling and the clock: `setInterval`, `clearInterval` and `Date.now()` are
  replaced by explicit `Step(nowMs)` and `Tick()` calls. The 250 ms and 1 s
  periods are not modelled.
- Timer.Timer.Step: requires a non-decreasing clock (`nowMs >= clockMs`). A
  clock that runs backwards is not modelled.
- AppController.AppController.OnTimerInterval: requires a non-decreasing
  clock, as `Timer.Timer.Step` does. So does
  `AppController.AppController.ToggleTimer`.
- LegacyTimer.LegacyTimer.Tick: requires `running`. The callback exists only
  while an interval is live.
- LegacyAppController.LegacyAppController.OnTimerInterval: requires a running
  timer, for the same reason.
- Callback plumbing is not modelled:
  - `emit` and `onState` snapshots, and the legacy `render`;
  - the async `initialize` and the notification permission request;
  - the React hook.
  Notices are an enum, and their text is not modelled.
- Storage and notification I/O: `localStorage` becomes the `Stored` value
  (missing, unparsable, or a parsed JSON document). The write side of `save` is
  what a later read would see. Stats and tasks repositories are pass-through
  I/O and are not modelled.
- Identifiers: `crypto.randomUUID()` and `new Date().toISOString()` are
  parameters. Uniqueness of generated ids is the caller's assumption.
- Settings and minutes are integers. Fractional minutes (which `validateSettings`
  accepts, e.g. 25.5) are not modelled.
- Numeric coercion: `Number()` of a string covers an optional sign and
  decimal digits. Exponents, fractions, `Infinity`, hex and surrounding white
  space are not modelled, and JSON numbers are integers.
- AppController.ValidateSettings: does not model fractional or exponent-form
  numeric strings, which the source accepts when they fall in range.
- AppController.AppController.constructor: requires settings without a zero
  field. `SettingsRepository.Load` always produces such settings.
- Time zones and the calendar:
  - timestamps reach the analytics through a `localDay` parameter, the local
    day number, or none when unparsable;
  - consecutive days differ by exactly 1, so the `=== DAY_MS` test's failure
    across a DST change is not modelled;
  - week-strip labels (`key.slice(5)`) are day numbers.
- Analytics.CurrentStreak: walks back one day number at a time. The source
  steps back a fixed 24 hours from local midnight (`cursor -= DAY_MS`,
  `src/services/AnalyticsService.ts:80-86`, and the same in
  `js/services/analyticsService.js:85`). Across a spring-forward day that lands
  on 23:00 two calendar days back, so the source skips the short day. In US
  Eastern time with today 2026-03-09, active days {03-07, 03-09} give the
  source a current streak of 2 and the model 1; active days {03-08, 03-09}
  give the source 1 and the model 2.
- Analytics.ComputeStreak: its `current` is `CurrentStreak`'s, with the same
  daylight-saving gap; its `best` idealises the `=== DAY_MS` test.
- Analytics.CurrentAtMostBest: holds on the idealised calendar only. On the
  first example above the source reports a current streak of 2 with a best of
  1.
- Analytics.Build: the chronological sort of the parsed sessions is skipped.
  Instead, `DescribesIgnoresOrder` proves the result does not depend on
  order.
- SessionPlanner.BuildSummary: requires a non-zero cycle (`focus + shortBreak
  != 0`). A zero cycle makes the source divide by zero and yield Infinity or
  NaN. A negative cycle, which only edited storage produces, is modelled.
- SessionPlanner.BuildForecast: requires a non-zero cycle, as `BuildSummary`
  does. `focusHours` is the exact quotient, without the `toFixed(1)` display
  rounding.
- SessionPlanner.BuildPerformance: requires a non-zero cycle and a non-zero
  normalised window (`PlanReady`). The source divides by zero otherwise.
- SessionPlanner.ReadinessSignal: requires `PlanReady`, for the same reason.
- PresetRanking.RankPresetPlans: requires every preset to be `PlanReady`. All
  five built-in presets are.
- SessionPlanner.BuildTimeline: requires `focus >= 1` and non-negative breaks.
  The source still ends for some other inputs (a zero focus with positive
  breaks) but loops forever for others, such as a stored negative focus
  (`NegativeFocusEveryBlockFits`, under Findings). Block ids are the pair (kind,
  ordinal) instead of the `focus-1` strings.
- SessionPlanner.LongBreakDue: the divisibility reading is stated for
  non-negative session counts only. The timeline asks only about counts from 1.
- Gamification.GoalStatus: requires a positive target. Every achievement and
  quest target is positive.
- PresetRanking.ScorePreset: reasons are the `Reason` enum. `ReasonText`
  gives the sentences.
- Sorting: every comparator is modelled as a two-level key, and JavaScript's
  sort as a stable insertion sort.
- URL construction and consumption in `src/lib/quickStart.ts` are not
  modelled, nor the UI, the site metadata, `script.js` beyond its `MODES`
  values, or the marketing constants.
- The gamification helpers that are imported but not shown are not part of
  this model: `buildFocusCombo`, `buildFocusHealthScore`,
  `buildNextMilestone`, and `src/lib/utils`. The `clamp` of `src/lib/utils`
  is taken to be the `clamp` of `js/utils.js`.
- Utils.FormatTime: whole seconds only. Its round-trip and width lemmas cover
  `s >= 0`. For negative counts the model prints what the source prints but
  proves nothing about it.
- The legacy module graph does not link: `js/appController.js:1` imports
  `MODES`, which `js/constants.js` does not export. `MODES` is therefore a
  constructor parameter, with the `script.js` values as `ScriptModes`. The
  legacy `js/main.js` wiring is not modelled.
- The legacy settings repository drops `longBreakInterval`
  (`LegacySettingsRepository.IntervalIsDropped`). This is recorded as
  behaviour, not as a finding.

## Findings

| source | as written | input that shows it | evidently intended | confidence | as-written member | corrected member |
|---|---|---|---|---|---|---|
| src/services/AnalyticsService.ts:57 | the week strip's keys are the UTC date (`toISOString`) of each local midnight, while buckets use local dates | `now` at local noon in UTC+8: local midnight is 16:00 UTC the day before, so the strip's last key is yesterday and today's sessions never appear in `week` or `last7` | seven local days ending today (`weekShift = 0`) | medium, not executed | Analytics.ShiftedWeekMissesToday | Analytics.LocalWeekEndsToday |
| src/repositories/SettingsRepository.ts:13 | `raw.focus` is read from whatever `JSON.parse` returned | storage holding the text `null`: `getJson` returns `null` and the property read throws a TypeError out of the constructor | corrupt storage falls back to the defaults, as it does for unparsable text | low, not executed | SettingsRepository.NullStoredThrows | SettingsRepository.Load |
| js/repositories/settingsRepository.js:12 | the same property read on the parsed value | storage holding the text `null` | fall back to `{25, 5, 15}` | low, not executed | LegacySettingsRepository.NullStoredThrows | LegacySettingsRepository.Load |
| src/application/SessionPlannerEngine.ts:92 | the loop runs while `elapsed < planningMinutes` and assumes every block moves `elapsed` forward | stored settings `{focus: -5, shortBreak: 5, longBreak: 5, longBreakInterval: 4}`, which the settings load keeps and the app passes to `buildSessionTimeline` with the default 120-minute window: `elapsed` goes 0, -5, 0, ... and the loop never ends | a finite timeline: the longest prefix of the schedule that fits, for settings with a positive focus and non-negative breaks, as the settings form enforces | medium, not executed | SessionPlanner.NegativeFocusEveryBlockFits | SessionPlanner.BuildTimeline |
