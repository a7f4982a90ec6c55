/**
 * The seven-day forecast panel: for each of the next seven days a simulated
 * risk level, primary threat, probability and confidence, with the triggers of
 * the threat and the recommendations of the level. The source draws these from
 * `Math.random()`; here the four draws of a day are a parameter.
 */
module WeeklyPrediction {
  import opened Samples

  datatype RiskLevel = Low | Moderate | High | Critical

  /** The name the source stores for a level. */
  function LevelName(l: RiskLevel): string
  {
    match l
    case Low => "low"
    case Moderate => "moderate"
    case High => "high"
    case Critical => "critical"
  }

  /** Severity order of the levels. */
  function Rank(l: RiskLevel): (n: nat)
    ensures n <= 3
  {
    match l
    case Low => 0
    case Moderate => 1
    case High => 2
    case Critical => 3
  }

  /** The four `Math.random()` results of one day, in the order the source draws them. */
  datatype Draws = Draws(base: real, threat: real, probability: real, confidence: real)

  predicate ValidDraws(d: Draws)
  {
    0.0 <= d.base < 1.0 && 0.0 <= d.threat < 1.0
    && 0.0 <= d.probability < 1.0 && 0.0 <= d.confidence < 1.0
  }

  datatype WeeklyForecast = WeeklyForecast(
    day: int,
    riskLevel: RiskLevel,
    primaryThreat: string,
    probability: int,
    confidence: int,
    triggers: seq<string>,
    recommendations: seq<string>,
    generatedAt: string)

  const Threats: seq<string> := ["tsunami", "earthquake", "cyclone", "severe_weather"]

  /** The base draw scaled down by a tenth per day ahead. */
  function AdjustedRisk(base: real, day: int): (r: real)
    ensures day == 0 ==> r == base
    ensures 0.0 <= base && 0 <= day <= 10 ==> 0.0 <= r <= base
  {
    var decay := 1.0 - day as real * 0.1;
    ScaledWithin(base, decay);
    base * decay
  }

  /** Scaling a non-negative number by a factor in [0, 1] keeps it between 0 and itself. */
  lemma ScaledWithin(base: real, decay: real)
    ensures 0.0 <= base && 0.0 <= decay <= 1.0 ==> 0.0 <= base * decay <= base
  {
    if 0.0 <= base && 0.0 <= decay <= 1.0 {
      PositiveFactor(-decay, base);
      PositiveFactor(decay - 1.0, base);
      assert (decay - 1.0) * base == base * decay - base;
    }
  }

  function LevelOf(adjusted: real): (l: RiskLevel)
    ensures l == Critical <==> adjusted > 0.8
    ensures l == High <==> 0.6 < adjusted <= 0.8
    ensures l == Moderate <==> 0.3 < adjusted <= 0.6
    ensures l == Low <==> adjusted <= 0.3
  {
    if adjusted > 0.8 then Critical
    else if adjusted > 0.6 then High
    else if adjusted > 0.3 then Moderate
    else Low
  }

  /** The smallest and the largest rounded probability of each level. */
  function ProbabilityFloor(l: RiskLevel): int
  {
    match l
    case Critical => 75
    case High => 55
    case Moderate => 25
    case Low => 5
  }

  function ProbabilityCeiling(l: RiskLevel): int
  {
    match l
    case Critical => 95
    case High => 75
    case Moderate => 55
    case Low => 25
  }

  /** The probability of a level before rounding: a floor plus a drawn share of a span. */
  function RawProbability(l: RiskLevel, r: real): real
  {
    match l
    case Critical => 75.0 + r * 20.0
    case High => 55.0 + r * 20.0
    case Moderate => 25.0 + r * 30.0
    case Low => 5.0 + r * 20.0
  }

  /** `Math.floor(r * threats.length)`: an index into the threat list. */
  function ThreatIndex(r: real): (i: int)
    requires 0.0 <= r < 1.0
    ensures 0 <= i < |Threats|
  {
    (r * 4.0).Floor
  }

  function GetTriggers(threat: string): (ts: seq<string>)
    ensures threat in Threats ==> |ts| == 3
    ensures threat !in Threats ==> ts == ["Multiple climate factors"]
  {
    if threat == "tsunami" then
      ["Seismic activity increase", "Ocean temperature anomaly", "Pressure gradient shift"]
    else if threat == "earthquake" then
      ["Micro-seismic patterns", "Tectonic stress buildup", "Ground deformation"]
    else if threat == "cyclone" then
      ["Sea surface warming", "Wind shear reduction", "Atmospheric instability"]
    else if threat == "severe_weather" then
      ["Pressure system convergence", "Temperature gradient", "Moisture accumulation"]
    else ["Multiple climate factors"]
  }

  const LowRecommendations: seq<string> := ["Routine monitoring", "Standard precautions", "Regular system checks"]

  /** The recommendations stored under a level name; an unknown name falls back to
      the low list. The threat is accepted and not consulted. */
  function GetRecommendations(risk: string, threat: string): (recs: seq<string>)
    ensures |recs| == 3
    ensures risk !in {"critical", "high", "moderate"} ==> recs == LowRecommendations
  {
    if risk == "critical" then
      ["Immediate evacuation planning", "Emergency services on standby", "Public warning systems active"]
    else if risk == "high" then
      ["Enhanced monitoring", "Prepare emergency protocols", "Alert relevant authorities"]
    else if risk == "moderate" then
      ["Continue surveillance", "Review emergency plans", "Monitor weather updates"]
    else LowRecommendations
  }

  /** Every level gets its own list, so the fallback is reached only for the low level. */
  lemma RecommendationsIdentifyLevel(l: RiskLevel, l': RiskLevel, threat: string, threat': string)
    ensures GetRecommendations(LevelName(l), threat) == GetRecommendations(LevelName(l'), threat') <==> l == l'
  {
    var recs, recs' := GetRecommendations(LevelName(l), threat), GetRecommendations(LevelName(l'), threat');
    if l != l' {
      assert recs[0] != recs'[0];
    }
  }

  /** The forecast of one day (all of it except the two date strings). */
  function AnalyzeWeeklyRisk(day: int, d: Draws, generatedAt: string): (f: WeeklyForecast)
    requires ValidDraws(d)
    ensures f.day == day && f.generatedAt == generatedAt
    ensures f.riskLevel == LevelOf(AdjustedRisk(d.base, day))
    ensures f.primaryThreat == Threats[ThreatIndex(d.threat)] && f.triggers == GetTriggers(f.primaryThreat)
    ensures f.primaryThreat in Threats && |f.triggers| == 3
    ensures ProbabilityFloor(f.riskLevel) <= f.probability <= ProbabilityCeiling(f.riskLevel)
    ensures 60 <= f.confidence <= 90
    ensures f.recommendations == GetRecommendations(LevelName(f.riskLevel), f.primaryThreat)
  {
    var level := LevelOf(AdjustedRisk(d.base, day));
    var threat := Threats[ThreatIndex(d.threat)];
    WeeklyForecast(day, level, threat, Round(RawProbability(level, d.probability)),
      Round(60.0 + d.confidence * 30.0), GetTriggers(threat),
      GetRecommendations(LevelName(level), threat), generatedAt)
  }

  /** The adjusted risk of a later day is never higher. */
  lemma AdjustedRiskNonIncreasing(base: real, day: int, day': int)
    requires 0.0 <= base && day <= day'
    ensures AdjustedRisk(base, day') <= AdjustedRisk(base, day)
  {
    assert AdjustedRisk(base, day) - AdjustedRisk(base, day') == base * ((day' - day) as real * 0.1);
  }

  /** For the same base draw, a later day never gets a more severe level. */
  lemma LevelNonIncreasing(base: real, day: int, day': int)
    requires 0.0 <= base && day <= day'
    ensures Rank(LevelOf(AdjustedRisk(base, day'))) <= Rank(LevelOf(AdjustedRisk(base, day)))
  {
    AdjustedRiskNonIncreasing(base, day, day');
  }

  /** The decay caps the level: from day 2 nothing is critical, from day 4 nothing
      is high, and day 7 is always low. */
  lemma DayCeilings(base: real, day: int)
    requires 0.0 <= base < 1.0 && 1 <= day
    ensures day >= 2 ==> Rank(LevelOf(AdjustedRisk(base, day))) <= 2
    ensures day >= 4 ==> Rank(LevelOf(AdjustedRisk(base, day))) <= 1
    ensures day >= 7 ==> LevelOf(AdjustedRisk(base, day)) == Low
  {
    var decay := 1.0 - day as real * 0.1;
    var adjusted := AdjustedRisk(base, day);
    assert adjusted == base * decay;
    assert day >= 2 ==> decay <= 0.8;
    assert day >= 4 ==> decay <= 0.6;
    assert day >= 7 ==> decay <= 0.3;
    if decay > 0.0 {
      assert (1.0 - base) * decay > 0.0;
      assert (1.0 - base) * decay == decay - adjusted;
    } else {
      PositiveFactor(decay, base);
    }
  }

  /** A seven-day forecast generated at `analysisTime`: one entry per day, in day order. */
  predicate IsWeeklyForecast(predictions: seq<WeeklyForecast>, draws: seq<Draws>, analysisTime: string)
    requires |draws| == 7 && forall i :: 0 <= i < 7 ==> ValidDraws(draws[i])
  {
    |predictions| == 7
    && forall i :: 0 <= i < 7 ==> predictions[i] == AnalyzeWeeklyRisk(i + 1, draws[i], analysisTime)
  }

  /** In a seven-day forecast only the first day can be critical, and the last day is low. */
  lemma WeekCeilings(predictions: seq<WeeklyForecast>, draws: seq<Draws>, analysisTime: string)
    requires |draws| == 7 && forall i :: 0 <= i < 7 ==> ValidDraws(draws[i])
    requires IsWeeklyForecast(predictions, draws, analysisTime)
    ensures forall i :: 1 <= i < 7 ==> predictions[i].riskLevel != Critical
    ensures predictions[6].riskLevel == Low
  {
    forall i | 1 <= i < 7
      ensures predictions[i].riskLevel != Critical
    {
      DayCeilings(draws[i].base, i + 1);
    }
    DayCeilings(draws[6].base, 7);
  }

  /** The day loop; `draws[i]` are the random draws of day `i + 1`. */
  method GenerateWeeklyPredictions(draws: seq<Draws>, analysisTime: string)
    returns (predictions: seq<WeeklyForecast>)
    requires |draws| == 7 && forall i :: 0 <= i < 7 ==> ValidDraws(draws[i])
    ensures IsWeeklyForecast(predictions, draws, analysisTime)
    ensures forall i :: 0 <= i < 7 ==> predictions[i].day == i + 1 && predictions[i].generatedAt == analysisTime
    ensures forall i :: 1 <= i < 7 ==> predictions[i].riskLevel != Critical
    ensures predictions[6].riskLevel == Low
  {
    predictions := [];
    for day := 1 to 8
      invariant |predictions| == day - 1
      invariant forall i :: 0 <= i < day - 1 ==>
        predictions[i] == AnalyzeWeeklyRisk(i + 1, draws[i], analysisTime)
    {
      var prediction := AnalyzeWeeklyRisk(day, draws[day - 1], analysisTime);
      ghost var before := predictions;
      predictions := predictions + [prediction];
      forall i | 0 <= i < day
        ensures predictions[i] == AnalyzeWeeklyRisk(i + 1, draws[i], analysisTime)
      {
        if i < day - 1 {
          assert predictions[i] == before[i];
        }
      }
    }
    WeekCeilings(predictions, draws, analysisTime);
  }
}
