/**
 * The value-level helpers of the quick-start links: snapping a planning window
 * to the 15-minute grid inside [60, 360], and reading the matchmaker profile
 * words back from query parameters.
 */
module QuickStart {
  import opened Wrappers
  import opened JsValues
  import Utils

  const PlanningMinutesMin: int := 60
  const PlanningMinutesMax: int := 360
  const PlanningMinutesStep: int := 15

  /**
   * `normalizePlanningMinutes`: round to the nearest multiple of 15 (halves
   * up), then clamp into [60, 360].
   */
  function NormalizePlanningMinutes(value: int): (r: int)
    ensures PlanningMinutesMin <= r <= PlanningMinutesMax
    ensures r % PlanningMinutesStep == 0
  {
    var stepped := MathRound(value as real / PlanningMinutesStep as real) * PlanningMinutesStep;
    Utils.Clamp(stepped, PlanningMinutesMin, PlanningMinutesMax)
  }

  /** The rounding step in integer arithmetic: `(2v + 15) div 30` grid steps. */
  lemma RoundingStep(value: int)
    ensures MathRound(value as real / 15.0) == (2 * value + 15) / 30
  {
    var q := (2 * value + 15) / 30;
    var r := MathRound(value as real / 15.0);
    assert 30 * q <= 2 * value + 15 < 30 * q + 30;
    assert (q as real) - 0.5 <= value as real / 15.0 < (q as real) + 0.5;
    assert r == q;
  }

  /** Every multiple of 15 within [60, 360] is left as it is. */
  lemma GridPointsFixed(k: int)
    requires 4 <= k <= 24
    ensures NormalizePlanningMinutes(15 * k) == 15 * k
  {
    assert (15 * k) as real / 15.0 == k as real;
  }

  /** Normalising twice is normalising once. */
  lemma NormalizeIdempotent(value: int)
    ensures NormalizePlanningMinutes(NormalizePlanningMinutes(value)) == NormalizePlanningMinutes(value)
  {
    var r := NormalizePlanningMinutes(value);
    GridPointsFixed(r / 15);
  }

  /** A longer requested window never normalises to a shorter one. */
  lemma NormalizeMonotone(a: int, b: int)
    requires a <= b
    ensures NormalizePlanningMinutes(a) <= NormalizePlanningMinutes(b)
  {
    MathRoundMonotone(a as real / 15.0, b as real / 15.0);
    var sa := MathRound(a as real / 15.0) * 15;
    var sb := MathRound(b as real / 15.0) * 15;
    Utils.ClampMonotone(sa, sb, PlanningMinutesMin, PlanningMinutesMax);
  }

  datatype Energy = Low | Steady | High
  datatype Context = Desk | Mobile
  datatype Goal = Consistency | Depth | Restart

  function EnergyName(e: Energy): string
  {
    match e
    case Low => "low"
    case Steady => "steady"
    case High => "high"
  }

  function ContextName(c: Context): string
  {
    match c
    case Desk => "desk"
    case Mobile => "mobile"
  }

  function GoalName(g: Goal): string
  {
    match g
    case Consistency => "consistency"
    case Depth => "depth"
    case Restart => "restart"
  }

  /** `parseMatchmakerEnergy`: a query value (`None` for a missing one) to an energy level. */
  function ParseEnergy(value: Option<string>): (r: Option<Energy>)
    ensures forall e :: r == Some(e) <==> value == Some(EnergyName(e))
  {
    if value == Some("low") then Some(Low)
    else if value == Some("steady") then Some(Steady)
    else if value == Some("high") then Some(High)
    else None
  }

  /** `parseMatchmakerContext`. */
  function ParseContext(value: Option<string>): (r: Option<Context>)
    ensures forall c :: r == Some(c) <==> value == Some(ContextName(c))
  {
    if value == Some("desk") then Some(Desk)
    else if value == Some("mobile") then Some(Mobile)
    else None
  }

  /** `parseMatchmakerGoal`. */
  function ParseGoal(value: Option<string>): (r: Option<Goal>)
    ensures forall g :: r == Some(g) <==> value == Some(GoalName(g))
  {
    if value == Some("consistency") then Some(Consistency)
    else if value == Some("depth") then Some(Depth)
    else if value == Some("restart") then Some(Restart)
    else None
  }

  /** The words the links write are the words the parsers accept. */
  lemma ProfileRoundTrip(e: Energy, c: Context, g: Goal)
    ensures ParseEnergy(Some(EnergyName(e))) == Some(e)
    ensures ParseContext(Some(ContextName(c))) == Some(c)
    ensures ParseGoal(Some(GoalName(g))) == Some(g)
  {
  }

  /** A missing parameter, or any word outside the allowed set, reads as no choice. */
  lemma UnknownWordsRejected(value: Option<string>)
    requires forall e :: value != Some(EnergyName(e))
    ensures ParseEnergy(value) == None
  {
  }
}
