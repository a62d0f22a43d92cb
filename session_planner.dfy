/**
 * The planning calculators: how many focus cycles fit in a planning window,
 * the block-by-block timeline of that window, a weekly forecast, the plan's
 * efficiency figures and the readiness label derived from them.
 */
module SessionPlanner {
  import opened JsValues
  import opened Constants
  import Gamification
  import SettingsRepository
  import opened Utils

  /** Floored division by a positive number, characterised by its bounds. */
  lemma FloorDivBounds(a: int, b: int)
    requires b > 0
    ensures (a / b) * b <= a < (a / b + 1) * b
  {
    var q := a / b;
    var r := a % b;
    assert a == q * b + r;
    assert (q + 1) * b == q * b + b;
  }

  /**
   * `Math.floor(a / b)` for a non-zero `b`. Dafny's `/` rounds down only for a
   * positive divisor, so a negative one goes through `(-a) / (-b)`.
   */
  function FloorDiv(a: int, b: int): (q: int)
    requires b != 0
    ensures b > 0 ==> q * b <= a < (q + 1) * b
    ensures b < 0 ==> (q + 1) * b < a <= q * b
  {
    if b > 0 then
      FloorDivBounds(a, b);
      a / b
    else
      var q := (-a) / (-b);
      FloorDivBounds(-a, -b);
      assert q * (-b) == -(q * b) && (q + 1) * (-b) == -((q + 1) * b);
      q
  }

  /**
   * `k` is `Math.max(1, Math.floor(x / c))`, stated by its bounds: `k` is at
   * least one, `x / c` lies below `k + 1`, and at or above `k` unless `k` is
   * the floor of one.
   */
  predicate CycleCount(x: int, c: int, k: int)
  {
    && k >= 1
    && (c > 0 ==> x < (k + 1) * c && (k == 1 || k * c <= x))
    && (c < 0 ==> (k + 1) * c < x && (k == 1 || x <= k * c))
  }

  /** How a whole count scales a cycle of either sign, compared with the cycle itself. */
  lemma ScaleByCycle(q: int, c: int)
    requires c != 0
    ensures (q + 1) * c == q * c + c
    ensures q >= 1 && c > 0 ==> q * c >= c
    ensures q >= 1 && c < 0 ==> q * c <= c
    ensures q <= 0 && c > 0 ==> q * c <= 0
    ensures q <= 0 && c < 0 ==> q * c >= 0
  {
    if c > 0 {
      if q >= 1 { MulMonotone(1, q, c); } else { MulMonotone(q, 0, c); }
    } else {
      if q >= 1 { MulMonotone(1, q, -c); } else { MulMonotone(q, 0, -c); }
    }
  }

  /** `Math.max(1, Math.floor(n / cycle))`: whole cycles in the window, at least one. */
  function WholeCycles(n: int, cycle: int): (sessions: int)
    requires cycle != 0
    ensures CycleCount(n, cycle, sessions)
    ensures cycle > 0 ==> n - sessions * cycle < cycle && (n - sessions * cycle < 0 <==> n < cycle)
    ensures cycle < 0 ==> cycle < n - sessions * cycle
  {
    var q := FloorDiv(n, cycle);
    ScaleByCycle(q, cycle);
    if q >= 1 then q else 1
  }

  datatype Summary = Summary(
    estimatedSessions: int,
    estimatedFocusMinutes: int,
    estimatedXp: int,
    estimatedWeeklyXp: int,
    cycleMinutes: int)

  /**
   * `buildSessionPlannerSummary`: the number of whole focus-plus-short-break
   * cycles the window holds, but at least one, and what they are worth.
   */
  function BuildSummary(s: Settings, planningMinutes: int): (r: Summary)
    requires s.focus + s.shortBreak != 0
    ensures r.cycleMinutes == s.focus + s.shortBreak
    ensures CycleCount(planningMinutes, r.cycleMinutes, r.estimatedSessions)
    ensures r.estimatedFocusMinutes == r.estimatedSessions * s.focus
    ensures r.estimatedXp == Gamification.Xp(Stats(r.estimatedSessions, r.estimatedFocusMinutes))
    ensures r.estimatedWeeklyXp == 5 * r.estimatedXp
  {
    var cycle := s.focus + s.shortBreak;
    var sessions := WholeCycles(planningMinutes, cycle);
    var focusMinutes := sessions * s.focus;
    var xp := sessions * Gamification.XpPerSession + focusMinutes * Gamification.XpPerFocusMinute;
    Summary(sessions, focusMinutes, xp, xp * 5, cycle)
  }

  /**
   * Stored settings with a negative cycle still get a finite summary:
   * `Math.floor(120 / -5)` is -24, so the estimate is the floor of one session.
   * The floor of 121 / -5 is -25, where Dafny's Euclidean `/` gives -24.
   */
  lemma NegativeCycleSummary()
    ensures BuildSummary(Settings(-10, 5, 15, 4), 120).estimatedSessions == 1
    ensures BuildSummary(Settings(-10, 5, 15, 4), 120).estimatedFocusMinutes == -10
    ensures FloorDiv(121, -5) == -25 && 121 / -5 == -24
  {
  }

  /** Multiplying by a positive number keeps order. */
  lemma MulMonotone(a: int, b: int, c: int)
    requires a <= b && c > 0
    ensures a * c <= b * c
  {
    assert b * c - a * c == (b - a) * c;
  }

  /** For a positive cycle at most one count has the bounds of `CycleCount`. */
  lemma PositiveCountUnique(x: int, c: int, n: int, k: int)
    requires c > 0 && CycleCount(x, c, n) && CycleCount(x, c, k)
    ensures n == k
  {
    if n < k {
      MulMonotone(n + 1, k, c);
    } else if k < n {
      MulMonotone(k + 1, n, c);
    }
  }

  /** For either sign of the cycle at most one count has the bounds of `CycleCount`. */
  lemma CycleCountUnique(x: int, c: int, n: int, k: int)
    requires c != 0 && CycleCount(x, c, n) && CycleCount(x, c, k)
    ensures n == k
  {
    if c > 0 {
      PositiveCountUnique(x, c, n, k);
    } else {
      assert (n + 1) * (-c) == -((n + 1) * c) && n * (-c) == -(n * c);
      assert (k + 1) * (-c) == -((k + 1) * c) && k * (-c) == -(k * c);
      PositiveCountUnique(-x, -c, n, k);
    }
  }

  /** The session estimate is the only count the summary's bounds allow. */
  lemma SummarySessionsUnique(s: Settings, planningMinutes: int, k: int)
    requires s.focus + s.shortBreak != 0
    requires CycleCount(planningMinutes, s.focus + s.shortBreak, k)
    ensures BuildSummary(s, planningMinutes).estimatedSessions == k
  {
    var r := BuildSummary(s, planningMinutes);
    CycleCountUnique(planningMinutes, s.focus + s.shortBreak, r.estimatedSessions, k);
  }

  /** One block of the timeline; the source's `id` is the pair (kind, ordinal). */
  datatype Block = Block(kind: Mode, ordinal: int, minutes: int, startsAt: int, endsAt: int)

  /** Block `i` of the unbounded schedule: focus at even positions, a break after each. */
  function Ordinal(i: nat): int
  {
    i / 2 + 1
  }

  /**
   * The break after the k-th focus is long when `k % longBreakInterval === 0`;
   * an interval of 0 gives NaN, which never equals 0.
   */
  predicate LongBreakDue(s: Settings, k: int)
    ensures k >= 0 ==> (LongBreakDue(s, k) <==> s.longBreakInterval != 0 && k % Abs(s.longBreakInterval) == 0)
  {
    s.longBreakInterval != 0 && JsRem(k, s.longBreakInterval) == 0
  }

  function BlockKind(s: Settings, i: nat): Mode
  {
    if i % 2 == 0 then Focus
    else if LongBreakDue(s, Ordinal(i)) then LongBreak
    else ShortBreak
  }

  function BlockMinutes(s: Settings, i: nat): int
  {
    s.Minutes(BlockKind(s, i))
  }

  /** Where block `i` of the unbounded schedule starts: the sum of the blocks before it. */
  function StartOf(s: Settings, i: nat): int
  {
    if i == 0 then 0 else StartOf(s, i - 1) + BlockMinutes(s, i - 1)
  }

  function ScheduleBlock(s: Settings, i: nat): Block
  {
    Block(BlockKind(s, i), Ordinal(i), BlockMinutes(s, i), StartOf(s, i), StartOf(s, i) + BlockMinutes(s, i))
  }

  /** Block `i` is placed when it starts before the window ends and ends inside it. */
  predicate Fits(s: Settings, planningMinutes: int, i: nat)
  {
    StartOf(s, i) < planningMinutes && StartOf(s, i) + BlockMinutes(s, i) <= planningMinutes
  }

  /** Every block is the schedule's block at its position and fits in the window. */
  predicate Placed(s: Settings, planningMinutes: int, blocks: seq<Block>)
  {
    forall i :: 0 <= i < |blocks| ==> blocks[i] == ScheduleBlock(s, i) && Fits(s, planningMinutes, i)
  }

  /** Appending the next scheduled block, when it fits, keeps the timeline placed. */
  lemma PlacedAppend(s: Settings, planningMinutes: int, blocks: seq<Block>, b: Block)
    requires Placed(s, planningMinutes, blocks)
    requires b == ScheduleBlock(s, |blocks|) && Fits(s, planningMinutes, |blocks|)
    ensures Placed(s, planningMinutes, blocks + [b])
  {
  }

  /** From an even position the schedule continues with a focus block and then its break. */
  lemma ScheduleStep(s: Settings, n: nat)
    requires n % 2 == 0
    ensures ScheduleBlock(s, n) == Block(Focus, n / 2 + 1, s.focus, StartOf(s, n), StartOf(s, n) + s.focus)
    ensures StartOf(s, n + 1) == StartOf(s, n) + s.focus
    ensures var due := LongBreakDue(s, n / 2 + 1);
      var minutes := if due then s.longBreak else s.shortBreak;
      && ScheduleBlock(s, n + 1)
         == Block(if due then LongBreak else ShortBreak, n / 2 + 1, minutes, StartOf(s, n + 1), StartOf(s, n + 1) + minutes)
      && StartOf(s, n + 2) == StartOf(s, n + 1) + minutes
  {
    assert (n + 1) / 2 == n / 2;
  }

  /**
   * `buildSessionTimeline`: the longest prefix of the alternating schedule
   * whose blocks each fit in the window; the first block that does not fit
   * ends the timeline.
   */
  method BuildTimeline(s: Settings, planningMinutes: int) returns (blocks: seq<Block>)
    requires s.focus >= 1 && s.shortBreak >= 0 && s.longBreak >= 0
    ensures forall i :: 0 <= i < |blocks| ==> blocks[i] == ScheduleBlock(s, i) && Fits(s, planningMinutes, i)
    ensures !Fits(s, planningMinutes, |blocks|)
  {
    blocks := [];
    var elapsed := 0;
    var completedFocusSessions := 0;
    while elapsed < planningMinutes
      invariant |blocks| % 2 == 0 && completedFocusSessions == |blocks| / 2
      invariant elapsed == StartOf(s, |blocks|)
      invariant Placed(s, planningMinutes, blocks)
      decreases planningMinutes - elapsed
    {
      ScheduleStep(s, |blocks|);
      var focusEnd := elapsed + s.focus;
      if focusEnd > planningMinutes {
        break;
      }
      completedFocusSessions := completedFocusSessions + 1;
      var focus := Block(Focus, completedFocusSessions, s.focus, elapsed, focusEnd);
      PlacedAppend(s, planningMinutes, blocks, focus);
      blocks := blocks + [focus];
      elapsed := focusEnd;
      if elapsed >= planningMinutes {
        break;
      }
      var isLongBreakDue := s.longBreakInterval != 0 && JsRem(completedFocusSessions, s.longBreakInterval) == 0;
      var breakMinutes := if isLongBreakDue then s.longBreak else s.shortBreak;
      var breakKind := if isLongBreakDue then LongBreak else ShortBreak;
      var breakEnd := elapsed + breakMinutes;
      if breakEnd > planningMinutes {
        break;
      }
      var pause := Block(breakKind, completedFocusSessions, breakMinutes, elapsed, breakEnd);
      PlacedAppend(s, planningMinutes, blocks, pause);
      blocks := blocks + [pause];
      elapsed := breakEnd;
    }
  }

  /** The shape every timeline has: contiguous from minute 0, inside the window, alternating. */
  lemma TimelineShape(s: Settings, planningMinutes: int, blocks: seq<Block>)
    requires forall i :: 0 <= i < |blocks| ==> blocks[i] == ScheduleBlock(s, i) && Fits(s, planningMinutes, i)
    ensures |blocks| > 0 ==> blocks[0].startsAt == 0 && blocks[0].kind == Focus
    ensures forall i :: 0 <= i < |blocks| ==>
      blocks[i].endsAt == blocks[i].startsAt + blocks[i].minutes &&
      blocks[i].startsAt < planningMinutes && blocks[i].endsAt <= planningMinutes &&
      (blocks[i].kind == Focus <==> i % 2 == 0)
    ensures forall i :: 0 < i < |blocks| ==> blocks[i].startsAt == blocks[i - 1].endsAt
  {
  }

  /**
   * Which break follows the k-th focus block: the long one exactly when the
   * count is a multiple of the interval (a zero interval never gives one).
   */
  lemma BreakKindRule(s: Settings, k: int)
    requires k >= 1
    ensures BlockKind(s, 2 * k - 1) == LongBreak <==>
      s.longBreakInterval != 0 && k % Abs(s.longBreakInterval) == 0
    ensures BlockKind(s, 2 * k - 1) != Focus && Ordinal(2 * k - 1) == k
  {
    assert (2 * k - 1) / 2 == k - 1;
  }

  /** The post-state of `BuildTimeline` determines the timeline completely. */
  lemma TimelineUnique(s: Settings, planningMinutes: int, a: seq<Block>, b: seq<Block>)
    requires forall i :: 0 <= i < |a| ==> a[i] == ScheduleBlock(s, i) && Fits(s, planningMinutes, i)
    requires !Fits(s, planningMinutes, |a|)
    requires forall i :: 0 <= i < |b| ==> b[i] == ScheduleBlock(s, i) && Fits(s, planningMinutes, i)
    requires !Fits(s, planningMinutes, |b|)
    ensures a == b
  {
  }

  /** Stored settings with a negative focus length, which loading keeps as they are. */
  const NegativeFocus: Settings := Settings(-5, 5, 5, 4)

  /**
   * With a -5 minute focus and 5 minute breaks the schedule never advances:
   * every focus block starts at minute 0 and every break at minute -5.
   */
  lemma {:induction false} NegativeFocusStarts(m: nat)
    ensures StartOf(NegativeFocus, 2 * m) == 0
    ensures StartOf(NegativeFocus, 2 * m + 1) == -5
  {
    if m == 0 {
      ScheduleStep(NegativeFocus, 0);
    } else {
      NegativeFocusStarts(m - 1);
      ScheduleStep(NegativeFocus, 2 * (m - 1));
      ScheduleStep(NegativeFocus, 2 * m);
    }
  }

  /**
   * `buildSessionTimeline` as written on settings loaded from storage: a stored
   * `{focus: -5, shortBreak: 5, longBreak: 5, longBreakInterval: 4}` loads
   * unchanged, and in the default 120-minute window every block of the schedule
   * fits, so `elapsed` goes 0, -5, 0, ... and the loop never ends. No finite
   * timeline has a first block that does not fit.
   */
  lemma NegativeFocusEveryBlockFits(i: nat)
    ensures SettingsRepository.Load(SettingsRepository.Save(NegativeFocus)) == NegativeFocus
    ensures StartOf(NegativeFocus, i) < 120
    ensures Fits(NegativeFocus, 120, i)
  {
    SettingsRepository.SaveLoadRoundTrip(NegativeFocus);
    NegativeFocusStarts(i / 2);
    ScheduleStep(NegativeFocus, 2 * (i / 2));
  }

  datatype Forecast = Forecast(focusHours: real, sessions: int, xp: int, milestoneEtaDays: int)

  /** `Math.ceil(a / b)` for a non-negative `a` and positive `b`. */
  function CeilDiv(a: int, b: int): (q: int)
    requires a >= 0 && b > 0
    ensures q >= 0 && q * b >= a
    ensures q == 0 || (q - 1) * b < a
  {
    FloorDivBounds(a + b - 1, b);
    (a + b - 1) / b
  }

  /**
   * `Math.max(1, Math.ceil(Math.max(needed, 0) / daily))`: the fewest days, at
   * least one, whose earnings reach `needed`.
   */
  function DaysToReach(needed: int, daily: int): (days: int)
    requires daily > 0
    ensures days >= 1 && days * daily >= needed
    ensures days == 1 || (days - 1) * daily < needed
  {
    var q := CeilDiv(Max(needed, 0), daily);
    if q >= 1 then q else 1
  }

  /**
   * `buildWeeklyMomentumForecast`: five planned days' worth of sessions and
   * experience, and the number of such days needed to reach the next level.
   */
  function BuildForecast(s: Settings, planningMinutes: int, xpToNextLevel: int): (f: Forecast)
    requires s.focus + s.shortBreak != 0
    ensures var sm := BuildSummary(s, planningMinutes);
      var daily := Max(sm.estimatedXp, 1);
      f.sessions == 5 * sm.estimatedSessions && f.xp == sm.estimatedWeeklyXp &&
      f.focusHours == (sm.estimatedFocusMinutes * 5) as real / 60.0 &&
      f.milestoneEtaDays >= 1 &&
      f.milestoneEtaDays * daily >= xpToNextLevel &&
      (f.milestoneEtaDays == 1 || (f.milestoneEtaDays - 1) * daily < xpToNextLevel)
  {
    var summary := BuildSummary(s, planningMinutes);
    var dailyXp := Max(summary.estimatedXp, 1);
    var eta := DaysToReach(xpToNextLevel, dailyXp);
    Forecast((summary.estimatedFocusMinutes * 5) as real / 60.0, summary.estimatedSessions * 5,
      summary.estimatedWeeklyXp, eta)
  }

  /** No shorter run of planned days reaches the next level. */
  lemma ForecastEtaIsLeast(s: Settings, planningMinutes: int, xpToNextLevel: int, days: int)
    requires s.focus + s.shortBreak != 0
    requires days >= 1
    requires days * Max(BuildSummary(s, planningMinutes).estimatedXp, 1) >= xpToNextLevel
    ensures BuildForecast(s, planningMinutes, xpToNextLevel).milestoneEtaDays <= days
  {
    var eta := BuildForecast(s, planningMinutes, xpToNextLevel).milestoneEtaDays;
    var daily := Max(BuildSummary(s, planningMinutes).estimatedXp, 1);
    if eta > days {
      MulMonotone(days, eta - 1, daily);
    }
  }

  datatype Performance = Performance(
    sessions: int,
    focusMinutes: int,
    remainder: int,
    focusRatio: real,
    xpPerHour: int,
    estimatedXp: int,
    cycleMinutes: int)

  /** The window the performance figures use: never shorter than one focus block. */
  function Normalized(s: Settings, planningMinutes: int): int
  {
    Max(planningMinutes, s.focus)
  }

  /** The performance figures divide by the cycle and by the window: neither may be zero. */
  predicate PlanReady(s: Settings, planningMinutes: int)
  {
    s.focus + s.shortBreak != 0 && Normalized(s, planningMinutes) != 0
  }

  /** A share of a whole: multiplied back by the whole it gives the part. */
  function Share(part: int, whole: int): (r: real)
    requires whole != 0
    ensures r * (whole as real) == part as real
  {
    part as real / whole as real
  }

  /** `Math.round(amount / minutes * 60)`: an amount per minute scaled to an hour, to the nearest integer. */
  function HourlyRate(amount: int, minutes: int): (r: int)
    requires minutes != 0
    ensures (amount as real / minutes as real) * 60.0 - 0.5 < r as real <= (amount as real / minutes as real) * 60.0 + 0.5
  {
    MathRound((amount as real / minutes as real) * 60.0)
  }

  /**
   * `buildPlanPerformance`: whole cycles in the normalised window (at least
   * one), the minutes left over, the focus share of the window and the
   * experience per hour.
   */
  function BuildPerformance(s: Settings, planningMinutes: int): (p: Performance)
    requires PlanReady(s, planningMinutes)
    ensures var n := Normalized(s, planningMinutes);
      p.cycleMinutes == s.focus + s.shortBreak && CycleCount(n, p.cycleMinutes, p.sessions) &&
      p.focusMinutes == p.sessions * s.focus &&
      p.remainder == n - p.sessions * p.cycleMinutes &&
      (p.cycleMinutes > 0 ==> p.remainder < p.cycleMinutes && (p.remainder < 0 <==> n < p.cycleMinutes)) &&
      (p.cycleMinutes < 0 ==> p.cycleMinutes < p.remainder) &&
      p.estimatedXp == Gamification.Xp(Stats(p.sessions, p.focusMinutes))
  {
    var n := Normalized(s, planningMinutes);
    var cycle := s.focus + s.shortBreak;
    var sessions := WholeCycles(n, cycle);
    var focusMinutes := sessions * s.focus;
    var remainder := n - sessions * cycle;
    var focusRatio := Share(focusMinutes, n);
    var xp := sessions * Gamification.XpPerSession + focusMinutes * Gamification.XpPerFocusMinute;
    var xpPerHour := HourlyRate(xp, n);
    Performance(sessions, focusMinutes, remainder, focusRatio, xpPerHour, xp, cycle)
  }

  /**
   * The rates of a performance record over a window of `n` minutes: the focus
   * share times the window is the focus time, and the experience per hour is
   * `xp / n * 60` rounded to the nearest integer.
   */
  predicate RatesHold(p: Performance, n: int)
  {
    && n != 0
    && p.focusRatio * (n as real) == p.focusMinutes as real
    && (p.estimatedXp as real / n as real) * 60.0 - 0.5 < p.xpPerHour as real
    && p.xpPerHour as real <= (p.estimatedXp as real / n as real) * 60.0 + 0.5
  }

  /** The performance figures' two rates hold over the normalised window. */
  lemma PerformanceRates(s: Settings, planningMinutes: int)
    requires PlanReady(s, planningMinutes)
    ensures RatesHold(BuildPerformance(s, planningMinutes), Normalized(s, planningMinutes))
  {
    RatesArePerformance(s, planningMinutes);
    RatesOf(BuildPerformance(s, planningMinutes), Normalized(s, planningMinutes));
  }

  /** The performance figures' rates are the share and the hourly rate over the normalised window. */
  lemma RatesArePerformance(s: Settings, planningMinutes: int)
    requires PlanReady(s, planningMinutes)
    ensures var p := BuildPerformance(s, planningMinutes);
      var n := Normalized(s, planningMinutes);
      p.focusRatio == Share(p.focusMinutes, n) && p.xpPerHour == HourlyRate(p.estimatedXp, n)
  {
  }

  /** A record whose rates are the share and the hourly rate over `n` has their properties. */
  lemma RatesOf(p: Performance, n: int)
    requires n != 0
    requires p.focusRatio == Share(p.focusMinutes, n) && p.xpPerHour == HourlyRate(p.estimatedXp, n)
    ensures RatesHold(p, n)
  {
  }

  /**
   * When the window is at least one focus block long, the performance figures
   * count the same sessions and experience as the planner summary.
   */
  lemma PerformanceAgreesWithSummary(s: Settings, planningMinutes: int)
    requires PlanReady(s, planningMinutes) && planningMinutes >= s.focus
    ensures BuildPerformance(s, planningMinutes).sessions == BuildSummary(s, planningMinutes).estimatedSessions
    ensures BuildPerformance(s, planningMinutes).estimatedXp == BuildSummary(s, planningMinutes).estimatedXp
  {
    var p := BuildPerformance(s, planningMinutes);
    var c := s.focus + s.shortBreak;
    SummarySessionsUnique(s, planningMinutes, p.sessions);
  }

  datatype Label = Balanced | Intense | Recovery
  datatype Tone = Positive | Caution | Neutral
  datatype Signal = Signal(readiness: Label, tone: Tone, summary: string)

  /** `Math.round(shortBreak / (focus + shortBreak) * 60)`: break minutes per hour. */
  function BreakMinutesPerHour(s: Settings): (r: int)
    requires s.focus + s.shortBreak != 0
    ensures var share := s.shortBreak as real / (s.focus + s.shortBreak) as real;
      share * 60.0 - 0.5 < r as real <= share * 60.0 + 0.5
  {
    HourlyRate(s.shortBreak, s.focus + s.shortBreak)
  }

  /** With non-negative durations the break budget is between 0 and 60 minutes an hour. */
  lemma BreakBudgetRange(s: Settings)
    requires s.focus >= 0 && s.shortBreak >= 0 && s.focus + s.shortBreak > 0
    ensures 0 <= BreakMinutesPerHour(s) <= 60
  {
    var share := s.shortBreak as real / (s.focus + s.shortBreak) as real;
    assert share * ((s.focus + s.shortBreak) as real) == s.shortBreak as real;
    assert 0.0 <= share <= 1.0;
  }

  function IntenseSummary(breakMinutesPerHour: int): string
  {
    "High-output cadence. Protect it with at least " + IntToString(breakMinutesPerHour) + "m recovery per hour."
  }

  const RecoverySummary: string := "Lower-friction rhythm for restart days and interruption-heavy schedules."
  const BalancedSummary: string := "Sustainable tempo for multi-hour consistency without overloading energy."

  /**
   * `buildPlanReadinessSignal`: long focus blocks or a high focus share are
   * intense, short blocks or a low share are a recovery pace, and the rest is
   * balanced.
   */
  function ReadinessSignal(s: Settings, planningMinutes: int): (r: Signal)
    requires PlanReady(s, planningMinutes)
    ensures var ratio := BuildPerformance(s, planningMinutes).focusRatio;
      (r.readiness == Intense <==> s.focus >= 40 || ratio >= 0.82) &&
      (r.readiness == Recovery <==> !(s.focus >= 40 || ratio >= 0.82) && (s.focus <= 18 || ratio <= 0.62))
    ensures r.readiness == Intense ==> r.tone == Caution && r.summary == IntenseSummary(BreakMinutesPerHour(s))
    ensures r.readiness == Recovery ==> r.tone == Neutral && r.summary == RecoverySummary
    ensures r.readiness == Balanced ==> r.tone == Positive && r.summary == BalancedSummary
  {
    var performance := BuildPerformance(s, planningMinutes);
    if s.focus >= 40 || performance.focusRatio >= 0.82 then
      Signal(Intense, Caution, IntenseSummary(BreakMinutesPerHour(s)))
    else if s.focus <= 18 || performance.focusRatio <= 0.62 then
      Signal(Recovery, Neutral, RecoverySummary)
    else
      Signal(Balanced, Positive, BalancedSummary)
  }

  /** A focus share strictly between 0.62 and 0.82 with a 19-39 minute block is balanced. */
  lemma MiddleIsBalanced(s: Settings, planningMinutes: int)
    requires PlanReady(s, planningMinutes) && 19 <= s.focus <= 39
    requires 0.62 < BuildPerformance(s, planningMinutes).focusRatio < 0.82
    ensures ReadinessSignal(s, planningMinutes).readiness == Balanced
  {
  }
}
