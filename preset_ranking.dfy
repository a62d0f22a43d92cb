/**
 * Ranking the use-case presets for a planning window, re-sorting the ranked
 * list by the order the user picks, and recommending one preset for a
 * matchmaker profile. All three sorts are JavaScript's stable sort.
 */
module PresetRanking {
  import opened Wrappers
  import opened Constants
  import opened StableSort
  import opened SessionPlanner
  import opened QuickStart

  /** One row of the ranked list. */
  datatype RankedPlan = RankedPlan(
    preset: Preset,
    sessions: int,
    focusMinutes: int,
    remainder: int,
    score: real,
    focusRatio: real,
    xpPerHour: int)

  /** A plan's score: the focus share in percent, less the idle minutes. */
  function PlanFor(preset: Preset, planningMinutes: int): (r: RankedPlan)
    requires PlanReady(preset.settings, planningMinutes)
    ensures var p := BuildPerformance(preset.settings, planningMinutes);
      r.preset == preset && r.score == p.focusRatio * 100.0 - p.remainder as real
  {
    var p := BuildPerformance(preset.settings, planningMinutes);
    RankedPlan(preset, p.sessions, p.focusMinutes, p.remainder, p.focusRatio * 100.0 - p.remainder as real,
      p.focusRatio, p.xpPerHour)
  }

  predicate AllReady(presets: seq<Preset>, planningMinutes: int)
  {
    forall i :: 0 <= i < |presets| ==> PlanReady(presets[i].settings, planningMinutes)
  }

  function Plans(presets: seq<Preset>, planningMinutes: int): (r: seq<RankedPlan>)
    requires AllReady(presets, planningMinutes)
    ensures |r| == |presets|
    ensures forall i :: 0 <= i < |r| ==> r[i] == PlanFor(presets[i], planningMinutes)
  {
    seq(|presets|, i requires 0 <= i < |presets| => PlanFor(presets[i], planningMinutes))
  }

  /** `b.score - a.score` as a comparator: higher scores first. */
  function ScoreKey(p: RankedPlan): Key
  {
    Key(-p.score, 0.0)
  }

  /**
   * `rankPresetPlans`: one plan per preset, highest score first, presets with
   * equal scores in their original order.
   */
  function RankPresetPlans(presets: seq<Preset>, planningMinutes: int): (r: seq<RankedPlan>)
    requires AllReady(presets, planningMinutes)
    ensures multiset(r) == multiset(Plans(presets, planningMinutes))
    ensures forall i, j :: 0 <= i < j < |r| ==> r[i].score >= r[j].score
    ensures forall k :: WithKey(r, ScoreKey, k) == WithKey(Plans(presets, planningMinutes), ScoreKey, k)
  {
    var plans := Plans(presets, planningMinutes);
    SortSorted(plans, ScoreKey);
    forall k | true
      ensures WithKey(Sort(plans, ScoreKey), ScoreKey, k) == WithKey(plans, ScoreKey, k)
    {
      SortStable(plans, ScoreKey, k);
    }
    Sort(plans, ScoreKey)
  }

  datatype SortMode = BestFit | XpHour | FastFinish

  function Cycle(p: RankedPlan): int
  {
    p.preset.settings.focus + p.preset.settings.shortBreak
  }

  function XpHourKey(p: RankedPlan): Key
  {
    Key(-(p.xpPerHour as real), -p.score)
  }

  function FastFinishKey(p: RankedPlan): Key
  {
    Key(Cycle(p) as real, -p.score)
  }

  function ModeKey(mode: SortMode): RankedPlan -> Key
  {
    match mode
    case BestFit => ScoreKey
    case XpHour => XpHourKey
    case FastFinish => FastFinishKey
  }

  /** The comparator of `sortPresetPlans`, written out: may `a` come before `b`? */
  predicate InOrder(mode: SortMode, a: RankedPlan, b: RankedPlan)
  {
    match mode
    case BestFit => a.score >= b.score
    case XpHour => a.xpPerHour > b.xpPerHour || (a.xpPerHour == b.xpPerHour && a.score >= b.score)
    case FastFinish => Cycle(a) < Cycle(b) || (Cycle(a) == Cycle(b) && a.score >= b.score)
  }

  /**
   * `sortPresetPlans`: a sorted copy of the plans, the input itself being left
   * alone: the same plans, ordered by the chosen mode's comparator, and plans
   * the comparator ties in their input order (`Array.prototype.sort` is stable).
   */
  function SortPresetPlans(plans: seq<RankedPlan>, mode: SortMode): (r: seq<RankedPlan>)
    ensures multiset(r) == multiset(plans)
    ensures forall i, j :: 0 <= i < j < |r| ==> InOrder(mode, r[i], r[j])
    ensures forall k :: WithKey(r, ModeKey(mode), k) == WithKey(plans, ModeKey(mode), k)
  {
    SortSorted(plans, ModeKey(mode));
    forall k | true
      ensures WithKey(Sort(plans, ModeKey(mode)), ModeKey(mode), k) == WithKey(plans, ModeKey(mode), k)
    {
      SortStable(plans, ModeKey(mode), k);
    }
    Sort(plans, ModeKey(mode))
  }

  /** Re-sorting the ranked list by best fit gives back the ranked list. */
  lemma BestFitKeepsRanking(presets: seq<Preset>, planningMinutes: int)
    requires AllReady(presets, planningMinutes)
    ensures SortPresetPlans(RankPresetPlans(presets, planningMinutes), BestFit)
         == RankPresetPlans(presets, planningMinutes)
  {
    var r := RankPresetPlans(presets, planningMinutes);
    SortedIsFixed(r, ScoreKey);
  }

  /** Sorting an already sorted sequence changes nothing. */
  lemma {:induction false} SortedIsFixed<T>(s: seq<T>, key: T -> Key)
    requires Sorted(s, key)
    ensures Sort(s, key) == s
  {
    if s != [] {
      assert Sorted(s[1..], key);
      SortedIsFixed(s[1..], key);
      assert s == [s[0]] + s[1..];
    }
  }

  datatype Profile = Profile(energy: Energy, context: Context, goal: Goal)

  const RuleCount: nat := 9

  /** Whether scoring rule `i` applies to this preset and profile, in source order. */
  predicate RuleFires(i: nat, preset: Preset, profile: Profile)
  {
    var focus := preset.settings.focus;
    match i
    case 0 => profile.context == Mobile && preset.id == "mobile-commute"
    case 1 => profile.context == Mobile && focus <= 15
    case 2 => profile.context == Desk && focus >= 25
    case 3 => profile.goal == Depth && preset.id == "deep-work"
    case 4 => profile.goal == Consistency && preset.id == "student-revision"
    case 5 => profile.goal == Restart && preset.id == "high-energy"
    case 6 => profile.energy == Low && focus <= 20
    case 7 => profile.energy == Steady && focus >= 20 && focus <= 30
    case _ => profile.energy == High && focus >= 40
  }

  function RuleWeight(i: nat): int
  {
    match i
    case 0 => 4
    case 1 => 2
    case 2 => 1
    case 3 => 4
    case 4 => 3
    case 5 => 4
    case _ => 2
  }

  /** The reasons the recommender can give, one per rule. */
  datatype Reason =
    | MobileCommute
    | ShortBlocksOnTheMove
    | DeskSessions
    | DeepWork
    | DailyConsistency
    | FastRestart
    | LowEnergy
    | SteadyEnergy
    | HighEnergy

  /** The sentence shown for each reason. */
  function ReasonText(r: Reason): string
  {
    match r
    case MobileCommute => "Optimized for short mobile windows and interruption-heavy days."
    case ShortBlocksOnTheMove => "Short focus blocks reduce friction when you are on the move."
    case DeskSessions => "Longer focus blocks fit stable desk sessions."
    case DeepWork => "Deep-work cadence maximizes uninterrupted concentration."
    case DailyConsistency => "Balanced cycle supports repeatable daily consistency."
    case FastRestart => "Fast loops rebuild momentum when starting feels hard."
    case LowEnergy => "Lower energy days benefit from shorter wins."
    case SteadyEnergy => "Mid-length sessions match steady cognitive output."
    case HighEnergy => "High energy can sustain deeper focus intervals."
  }

  function RuleReason(i: nat): Reason
  {
    match i
    case 0 => MobileCommute
    case 1 => ShortBlocksOnTheMove
    case 2 => DeskSessions
    case 3 => DeepWork
    case 4 => DailyConsistency
    case 5 => FastRestart
    case 6 => LowEnergy
    case 7 => SteadyEnergy
    case _ => HighEnergy
  }

  /** The summed weight of the rules among the first `n` that fire. */
  function MatchScore(preset: Preset, profile: Profile, n: nat): int
  {
    if n == 0 then 0
    else if RuleFires(n - 1, preset, profile) then MatchScore(preset, profile, n - 1) + RuleWeight(n - 1)
    else MatchScore(preset, profile, n - 1)
  }

  /** The reasons of the rules among the first `n` that fire, in rule order. */
  function MatchReasons(preset: Preset, profile: Profile, n: nat): seq<Reason>
  {
    if n == 0 then []
    else if RuleFires(n - 1, preset, profile) then MatchReasons(preset, profile, n - 1) + [RuleReason(n - 1)]
    else MatchReasons(preset, profile, n - 1)
  }

  lemma {:induction false} ScoreBounds(preset: Preset, profile: Profile, n: nat)
    ensures 0 <= MatchScore(preset, profile, n) <= 4 * n
    ensures |MatchReasons(preset, profile, n)| <= n
  {
    if n > 0 {
      ScoreBounds(preset, profile, n - 1);
    }
  }

  /**
   * The scoring pass of `recommendPresetByProfile` for one preset: each rule
   * that applies adds its weight and appends its reason.
   */
  method ScorePreset(preset: Preset, profile: Profile) returns (score: int, reasons: seq<Reason>)
    ensures score == MatchScore(preset, profile, RuleCount)
    ensures reasons == MatchReasons(preset, profile, RuleCount)
  {
    score := 0;
    reasons := [];
    if profile.context == Mobile {
      if preset.id == "mobile-commute" {
        score := score + 4;
        reasons := reasons + [MobileCommute];
      }
      assert score == MatchScore(preset, profile, 1) && reasons == MatchReasons(preset, profile, 1);
      if preset.settings.focus <= 15 {
        score := score + 2;
        reasons := reasons + [ShortBlocksOnTheMove];
      }
    } else {
      assert score == MatchScore(preset, profile, 1) && reasons == MatchReasons(preset, profile, 1);
    }
    assert score == MatchScore(preset, profile, 2) && reasons == MatchReasons(preset, profile, 2);
    if profile.context == Desk && preset.settings.focus >= 25 {
      score := score + 1;
      reasons := reasons + [DeskSessions];
    }
    assert score == MatchScore(preset, profile, 3) && reasons == MatchReasons(preset, profile, 3);
    if profile.goal == Depth && preset.id == "deep-work" {
      score := score + 4;
      reasons := reasons + [DeepWork];
    }
    assert score == MatchScore(preset, profile, 4) && reasons == MatchReasons(preset, profile, 4);
    if profile.goal == Consistency && preset.id == "student-revision" {
      score := score + 3;
      reasons := reasons + [DailyConsistency];
    }
    assert score == MatchScore(preset, profile, 5) && reasons == MatchReasons(preset, profile, 5);
    if profile.goal == Restart && preset.id == "high-energy" {
      score := score + 4;
      reasons := reasons + [FastRestart];
    }
    assert score == MatchScore(preset, profile, 6) && reasons == MatchReasons(preset, profile, 6);
    if profile.energy == Low && preset.settings.focus <= 20 {
      score := score + 2;
      reasons := reasons + [LowEnergy];
    }
    assert score == MatchScore(preset, profile, 7) && reasons == MatchReasons(preset, profile, 7);
    if profile.energy == Steady && preset.settings.focus >= 20 && preset.settings.focus <= 30 {
      score := score + 2;
      reasons := reasons + [SteadyEnergy];
    }
    assert score == MatchScore(preset, profile, 8) && reasons == MatchReasons(preset, profile, 8);
    if profile.energy == High && preset.settings.focus >= 40 {
      score := score + 2;
      reasons := reasons + [HighEnergy];
    }
  }

  /** A scored preset, before the sort. */
  datatype Scored = Scored(preset: Preset, score: int, confidence: int, reasons: seq<Reason>)

  function Confidence(score: int): (c: int)
    ensures c <= 98
    ensures c == 98 || c == 55 + 6 * score
  {
    if 55 + score * 6 <= 98 then 55 + score * 6 else 98
  }

  function ScoredFor(preset: Preset, profile: Profile): Scored
  {
    var score := MatchScore(preset, profile, RuleCount);
    Scored(preset, score, Confidence(score), MatchReasons(preset, profile, RuleCount))
  }

  function ScoredKey(s: Scored): Key
  {
    Key(-(s.score as real), 0.0)
  }

  datatype Recommendation = Recommendation(preset: Preset, confidence: int, reasons: seq<Reason>)

  /** What is recommended when `preset` wins: its confidence and first two reasons. */
  function RecommendationFor(preset: Preset, profile: Profile): (r: Recommendation)
    ensures |r.reasons| <= 2 && r.confidence <= 98
  {
    var score := MatchScore(preset, profile, RuleCount);
    var reasons := MatchReasons(preset, profile, RuleCount);
    Recommendation(preset, Confidence(score), reasons[..if |reasons| < 2 then |reasons| else 2])
  }

  /** Preset `i` has the highest score, and no earlier preset ties it. */
  predicate IsBest(presets: seq<Preset>, profile: Profile, i: nat)
  {
    i < |presets| &&
    (forall j :: 0 <= j < |presets| ==>
       MatchScore(presets[j], profile, RuleCount) <= MatchScore(presets[i], profile, RuleCount)) &&
    (forall j :: 0 <= j < i ==>
       MatchScore(presets[j], profile, RuleCount) < MatchScore(presets[i], profile, RuleCount))
  }

  /**
   * `recommendPresetByProfile`: nothing for an empty list; otherwise the first
   * preset with the highest score, a confidence of `min(98, 55 + 6 * score)`
   * and the first two of its reasons.
   */
  method RecommendPresetByProfile(presets: seq<Preset>, profile: Profile) returns (r: Option<Recommendation>)
    ensures r.None? <==> |presets| == 0
    ensures r.Some? ==>
      exists i :: 0 <= i < |presets| && IsBest(presets, profile, i) && r.value == RecommendationFor(presets[i], profile)
  {
    var recommendations: seq<Scored> := [];
    for k := 0 to |presets|
      invariant |recommendations| == k
      invariant forall j :: 0 <= j < k ==> recommendations[j] == ScoredFor(presets[j], profile)
    {
      var score, reasons := ScorePreset(presets[k], profile);
      recommendations := recommendations + [Scored(presets[k], score, Confidence(score), reasons)];
    }
    if |recommendations| == 0 {
      return None;
    }
    var sorted := Sort(recommendations, ScoredKey);
    SortHead(recommendations, ScoredKey);
    var i := FirstMin(recommendations, ScoredKey);
    var top := sorted[0];
    assert top == ScoredFor(presets[i], profile);
    var count := if |top.reasons| < 2 then |top.reasons| else 2;
    r := Some(Recommendation(top.preset, top.confidence, top.reasons[..count]));
    assert IsBest(presets, profile, i);
  }

  /**
   * A steady-energy desk user aiming for consistency is matched with the
   * student-revision preset, the first of the built-in presets.
   */
  lemma ConsistencyProfilePicksStudentRevision()
    ensures IsBest(UseCasePresets, Profile(Steady, Desk, Consistency), 0)
    ensures MatchScore(UseCasePresets[0], Profile(Steady, Desk, Consistency), RuleCount) == 6
  {
    var profile := Profile(Steady, Desk, Consistency);
    assert MatchScore(UseCasePresets[0], profile, RuleCount) == 6;
    assert MatchScore(UseCasePresets[1], profile, RuleCount) == 1;
    assert MatchScore(UseCasePresets[2], profile, RuleCount) == 0;
    assert MatchScore(UseCasePresets[3], profile, RuleCount) == 0;
    assert MatchScore(UseCasePresets[4], profile, RuleCount) == 2;
  }
}
