/**
 * Experience points, levels, achievements and daily quests, all derived from
 * the app state (stats, tasks and the analytics summary) without changing it.
 */
module Gamification {
  import opened Constants
  import opened TaskList
  import Utils
  import A = Analytics

  const XpPerSession: int := 100
  const XpPerFocusMinute: int := 2
  const XpPerLevel: int := 500

  /** The part of the app state the engine reads. */
  datatype GameState = GameState(stats: Stats, tasks: seq<Task>, analytics: A.Analytics)

  datatype Progress = Progress(xp: int, level: int, xpToNextLevel: int, levelProgress: real)

  /** Experience earned by the given totals: never negative for non-negative totals. */
  function Xp(stats: Stats): (r: int)
    ensures stats.completed >= 0 && stats.focusMinutes >= 0 ==> r >= 0
  {
    stats.completed * XpPerSession + stats.focusMinutes * XpPerFocusMinute
  }

  /**
   * `buildGamificationProgress`: the level is the floored quotient by 500 plus
   * one, and the bar shows how far into the level the experience reaches.
   */
  function BuildProgress(stats: Stats): (p: Progress)
    ensures p.xp == Xp(stats)
    ensures (p.level - 1) * XpPerLevel <= p.xp < p.level * XpPerLevel
    ensures 1 <= p.xpToNextLevel <= XpPerLevel
    ensures p.xp + p.xpToNextLevel == p.level * XpPerLevel
    ensures 0.0 <= p.levelProgress <= 100.0
    ensures p.levelProgress == (p.xp - (p.level - 1) * XpPerLevel) as real / 5.0
  {
    var xp := Xp(stats);
    var level := xp / XpPerLevel + 1;
    var xpIntoLevel := xp - (level - 1) * XpPerLevel;
    var xpToNextLevel := XpPerLevel - xpIntoLevel;
    var levelProgress := Utils.ClampReal((xpIntoLevel as real / XpPerLevel as real) * 100.0, 0.0, 100.0);
    Progress(xp, level, xpToNextLevel, levelProgress)
  }

  /** The level is determined by the experience alone: it is the unique band holding it. */
  lemma LevelIsBand(stats: Stats, level: int)
    requires (level - 1) * XpPerLevel <= Xp(stats) < level * XpPerLevel
    ensures BuildProgress(stats).level == level
  {
    var p := BuildProgress(stats);
  }

  /** Non-negative totals give a level of at least one. */
  lemma LevelAtLeastOne(stats: Stats)
    requires stats.completed >= 0 && stats.focusMinutes >= 0
    ensures BuildProgress(stats).level >= 1
  {
    var p := BuildProgress(stats);
    assert p.xp >= 0;
  }

  /** Completing a focus block of `minutes` earns `100 + 2 * minutes` experience. */
  lemma FocusBlockXp(stats: Stats, minutes: int)
    ensures BuildProgress(Stats(stats.completed + 1, stats.focusMinutes + minutes)).xp
         == BuildProgress(stats).xp + XpPerSession + XpPerFocusMinute * minutes
  {
  }

  /** More experience never means a lower level. */
  lemma LevelMonotone(a: Stats, b: Stats)
    requires Xp(a) <= Xp(b)
    ensures BuildProgress(a).level <= BuildProgress(b).level
  {
    var pa := BuildProgress(a);
    var pb := BuildProgress(b);
  }

  /** What an achievement or quest measures. */
  datatype Metric =
    | CompletedSessions
    | TotalFocusMinutes
    | CurrentStreak
    | TodayFocusMinutes
    | TodaySessions
    | DoneTasks

  datatype Goal = Goal(id: string, target: int, metric: Metric)

  const Achievements: seq<Goal> := [
    Goal("ach-first-session", 1, CompletedSessions),
    Goal("ach-focus-1000", 1000, TotalFocusMinutes),
    Goal("ach-streak-7", 7, CurrentStreak)
  ]

  const DailyQuests: seq<Goal> := [
    Goal("quest-focus-minutes", 120, TodayFocusMinutes),
    Goal("quest-sessions", 4, TodaySessions),
    Goal("quest-task-clear", 3, DoneTasks)
  ]

  /** The number of finished tasks, `tasks.filter(t => t.done).length`. */
  function CountDone(tasks: seq<Task>): (n: nat)
    ensures n <= |tasks|
  {
    if tasks == [] then 0
    else (if tasks[0].done then 1 else 0) + CountDone(tasks[1..])
  }

  function MetricValue(state: GameState, m: Metric): int
  {
    match m
    case CompletedSessions => state.stats.completed
    case TotalFocusMinutes => state.stats.focusMinutes
    case CurrentStreak => state.analytics.streak.current
    case TodayFocusMinutes => state.analytics.today.focusMinutes
    case TodaySessions => state.analytics.today.sessions
    case DoneTasks => CountDone(state.tasks)
  }

  /** One row of the achievement or quest list. */
  datatype GoalProgress = GoalProgress(id: string, target: int, progressValue: int, progress: real, reached: bool)

  /**
   * The progress of one goal: the percentage is clamped to [0, 100], and the
   * goal is reached exactly when the bar is full.
   */
  function GoalStatus(g: Goal, state: GameState): (r: GoalProgress)
    requires g.target > 0
    ensures r.id == g.id && r.target == g.target
    ensures r.progressValue == MetricValue(state, g.metric)
    ensures r.reached <==> r.progressValue >= g.target
    ensures 0.0 <= r.progress <= 100.0
    ensures r.progress == 100.0 <==> r.reached
  {
    var value := MetricValue(state, g.metric);
    var percent := (value as real / g.target as real) * 100.0;
    PercentReachesFull(value, g.target);
    GoalProgress(g.id, g.target, value, Utils.ClampReal(percent, 0.0, 100.0), value >= g.target)
  }

  /** A value reaches the target exactly when its percentage of the target reaches 100. */
  lemma PercentReachesFull(value: int, target: int)
    requires target > 0
    ensures (value as real / target as real) * 100.0 >= 100.0 <==> value >= target
  {
    var ratio := value as real / target as real;
    assert ratio * (target as real) == value as real;
    if value >= target {
      assert ratio >= 1.0;
    } else {
      assert ratio < 1.0;
    }
  }

  function StatusAll(goals: seq<Goal>, state: GameState): (r: seq<GoalProgress>)
    requires forall i :: 0 <= i < |goals| ==> goals[i].target > 0
    ensures |r| == |goals|
    ensures forall i :: 0 <= i < |r| ==> r[i] == GoalStatus(goals[i], state)
  {
    seq(|goals|, i requires 0 <= i < |goals| => GoalStatus(goals[i], state))
  }

  /**
   * `buildAchievementProgress`: what unlocks each achievement, in table order
   * (a first session, 1000 focus minutes, a seven-day streak).
   */
  function BuildAchievementProgress(state: GameState): (r: seq<GoalProgress>)
    ensures |r| == 3
    ensures r[0].reached <==> state.stats.completed >= 1
    ensures r[1].reached <==> state.stats.focusMinutes >= 1000
    ensures r[2].reached <==> state.analytics.streak.current >= 7
    ensures forall i :: 0 <= i < 3 ==> 0.0 <= r[i].progress <= 100.0
  {
    StatusAll(Achievements, state)
  }

  /**
   * `buildDailyQuestProgress`: what completes each daily quest, in table order
   * (120 focus minutes today, four sessions today, three finished tasks).
   */
  function BuildDailyQuestProgress(state: GameState): (r: seq<GoalProgress>)
    ensures |r| == 3
    ensures r[0].reached <==> state.analytics.today.focusMinutes >= 120
    ensures r[1].reached <==> state.analytics.today.sessions >= 4
    ensures r[2].reached <==> CountDone(state.tasks) >= 3
    ensures forall i :: 0 <= i < 3 ==> 0.0 <= r[i].progress <= 100.0
  {
    StatusAll(DailyQuests, state)
  }

  /** The done count of a concatenation is the sum of the parts' counts. */
  lemma {:induction false} CountDoneAppend(a: seq<Task>, b: seq<Task>)
    ensures CountDone(a + b) == CountDone(a) + CountDone(b)
  {
    if a != [] {
      assert (a + b)[0] == a[0] && (a + b)[1..] == a[1..] + b;
      CountDoneAppend(a[1..], b);
    } else {
      assert a + b == b;
    }
  }

  /** Adding a task (never done) leaves the Task Clarity count unchanged. */
  lemma AddKeepsDoneCount(tasks: seq<Task>, id: string, text: string)
    ensures CountDone(AddTask(tasks, id, text)) == CountDone(tasks)
  {
    assert AddTask(tasks, id, text)[1..] == tasks;
  }

  /** Deleting tasks never raises the Task Clarity count. */
  lemma {:induction false} DeleteLowersDoneCount(tasks: seq<Task>, id: string)
    ensures CountDone(DeleteTask(tasks, id)) <= CountDone(tasks)
  {
    if tasks != [] {
      assert tasks == [tasks[0]] + tasks[1..];
      DeleteDistributes([tasks[0]], tasks[1..], id);
      CountDoneAppend(DeleteTask([tasks[0]], id), DeleteTask(tasks[1..], id));
      DeleteLowersDoneCount(tasks[1..], id);
    }
  }
}
