/**
 * The risk assessment panel: six risk factors scored from the readings (and,
 * for the seismic, ocean-current and historical factors, from random draws
 * passed in), their status labels, the weighted overall score and its level,
 * the confidence, the primary threats, the expected timeframe and the bounded
 * history of past assessments.
 */
module RiskAssessment {
  import opened Samples

  datatype Status = Normal | Elevated | High | Critical

  /** The overall level; the source's 'low' | 'moderate' | 'high' | 'critical'. */
  datatype Level = LowRisk | ModerateRisk | HighRisk | CriticalRisk

  datatype RiskFactor = RiskFactor(
    name: string,
    value: real,
    weight: real,
    status: Status,
    description: string,
    lastUpdate: string)

  /** The threats an assessment can name. */
  datatype Threat = Tsunami | SevereWeather | Earthquake | CycloneHurricane | GeneralWeather

  /** The label the source stores for a threat. */
  function ThreatName(t: Threat): string
  {
    match t
    case Tsunami => "Tsunami"
    case SevereWeather => "Severe Weather"
    case Earthquake => "Earthquake"
    case CycloneHurricane => "Cyclone/Hurricane"
    case GeneralWeather => "General Weather"
  }

  datatype OverallRisk = OverallRisk(
    level: Level,
    score: int,
    confidence: int,
    primaryThreats: seq<Threat>,
    timeframe: string,
    lastAssessment: string)

  // ---------------------------------------------------------------------------
  // Atmospheric pressure

  /** Change per hour between the latest pressure and the one five readings before
      it (the first one, when there are at most six), over a divisor of six hours. */
  function PressureChangeRate(ps: seq<real>): (r: real)
    requires |ps| > 0
    ensures var earlier := ps[if |ps| <= 6 then 0 else |ps| - 6];
      && 6.0 * r == ps[|ps| - 1] - earlier
      && (r < 0.0 <==> ps[|ps| - 1] < earlier)
    ensures |ps| == 1 ==> r == 0.0
  {
    var previous := ps[if |ps| < 6 then 0 else |ps| - 6];
    (ps[|ps| - 1] - previous) / 6.0
  }

  /** Points for a falling pressure. */
  function DropPoints(rate: real): (r: real)
    ensures r == 70.0 <==> rate < -8.0
    ensures r == 50.0 <==> -8.0 <= rate < -5.0
    ensures r == 30.0 <==> -5.0 <= rate < -3.0
    ensures r == 0.0 <==> -3.0 <= rate
  {
    if rate < -8.0 then 70.0
    else if rate < -5.0 then 50.0
    else if rate < -3.0 then 30.0
    else 0.0
  }

  /** Points for an abnormal absolute pressure. */
  function LevelPoints(latest: real): (r: real)
    ensures r == 60.0 <==> latest < 970.0
    ensures r == 40.0 <==> 970.0 <= latest < 980.0
    ensures r == 30.0 <==> 1040.0 < latest
    ensures r == 0.0 <==> 980.0 <= latest <= 1040.0
  {
    if latest < 970.0 then 60.0
    else if latest < 980.0 then 40.0
    else if latest > 1040.0 then 30.0
    else 0.0
  }

  /** The pressure factor: 20 without pressure readings, otherwise the drop and
      level points capped at 100. */
  function PressureScore(data: seq<Reading>): (r: real)
    ensures 0.0 <= r <= 100.0
    ensures Values(data, Pressure) == [] ==> r == 20.0
  {
    var ps := Values(data, Pressure);
    if ps == [] then 20.0
    else Min(DropPoints(PressureChangeRate(ps)) + LevelPoints(ps[|ps| - 1]), 100.0)
  }

  method CalculatePressureRisk(data: seq<Reading>) returns (risk: real)
    ensures risk == PressureScore(data)
  {
    if data == [] {
      return 20.0;
    }
    var pressures := Values(data, Pressure);
    if |pressures| == 0 {
      return 20.0;
    }
    var latest := pressures[|pressures| - 1];
    var previous := pressures[if |pressures| - 6 < 0 then 0 else |pressures| - 6];
    var changeRate := (latest - previous) / 6.0;
    risk := 0.0;
    if changeRate < -8.0 {
      risk := risk + 70.0;
    } else if changeRate < -5.0 {
      risk := risk + 50.0;
    } else if changeRate < -3.0 {
      risk := risk + 30.0;
    }
    if latest < 970.0 {
      risk := risk + 60.0;
    } else if latest < 980.0 {
      risk := risk + 40.0;
    } else if latest > 1040.0 {
      risk := risk + 30.0;
    }
    risk := Min(risk, 100.0);
  }

  /** A fall of more than 8 hPa an hour into a pressure below 980 hPa saturates the factor. */
  lemma RapidDeepDropSaturates(data: seq<Reading>)
    requires var ps := Values(data, Pressure);
      ps != [] && PressureChangeRate(ps) < -8.0 && ps[|ps| - 1] < 980.0
    ensures PressureScore(data) == 100.0
  {
  }

  /** A pressure that is not falling faster than 3 hPa an hour and lies within
      980..1040 hPa scores nothing. */
  lemma SteadyNormalPressureScoresZero(data: seq<Reading>)
    requires var ps := Values(data, Pressure);
      ps != [] && PressureChangeRate(ps) >= -3.0 && 980.0 <= ps[|ps| - 1] <= 1040.0
    ensures PressureScore(data) == 0.0
  {
  }

  /** Of two readings tables ending at the same pressure, the faster fall never scores less. */
  lemma FasterDropScoresAtLeast(data: seq<Reading>, data': seq<Reading>)
    requires var ps, ps' := Values(data, Pressure), Values(data', Pressure);
      ps != [] && ps' != [] && ps[|ps| - 1] == ps'[|ps'| - 1]
      && PressureChangeRate(ps) <= PressureChangeRate(ps')
    ensures PressureScore(data) >= PressureScore(data')
  {
  }

  // ---------------------------------------------------------------------------
  // Temperature anomalies

  /** Points for the gap between the mean of the last five temperatures and the
      mean of the up to five before them; nothing without an older window. */
  function TrendPoints(temps: seq<real>): (r: real)
    ensures r == 0.0 || r == 15.0 || r == 25.0
    ensures |temps| <= 5 ==> r == 0.0
    ensures |temps| > 5 ==>
      var c := Abs(Mean(Recent(temps)) - Mean(Older(temps)));
      && (r == 25.0 <==> c > 5.0)
      && (r == 15.0 <==> 3.0 < c <= 5.0)
  {
    var recent, older := Recent(temps), Older(temps);
    if |recent| > 0 && |older| > 0 then
      var change := Abs(Mean(recent) - Mean(older));
      if change > 5.0 then 25.0 else if change > 3.0 then 15.0 else 0.0
    else 0.0
  }

  /** The share of anomalous temperatures, scaled to 80 points. */
  function AnomalyPoints(temps: seq<real>): real
    requires |temps| > 0
  {
    Anomalies(temps) as real / |temps| as real * 80.0
  }

  /** Fewer than a quarter of the values are anomalies, so the anomaly points stay below 20. */
  lemma AnomalyPointsBelowTwenty(temps: seq<real>)
    requires |temps| > 0
    ensures 0.0 <= AnomalyPoints(temps) < 20.0
  {
    AnomaliesUnderQuarter(temps);
    ShareBelowQuarter(Anomalies(temps) as real, |temps| as real);
  }

  lemma NoAnomalyNoPoints(temps: seq<real>)
    requires |temps| > 0 && Anomalies(temps) == 0
    ensures AnomalyPoints(temps) == 0.0
  {
    var n := |temps| as real;
    assert AnomalyPoints(temps) == 0.0 / n * 80.0;
  }

  lemma ShareBelowQuarter(k: real, n: real)
    requires 0.0 <= k && 4.0 * k < n
    ensures 0.0 <= k / n * 80.0 < 20.0
  {
    var q := k / n;
    assert q * n == k;
    assert (0.25 - q) * n == 0.25 * n - k;
    PositiveFactor(0.25 - q, n);
  }

  /** The temperature factor: 15 without temperature readings, otherwise anomaly
      points plus trend points, which always stays below 45. */
  function TemperatureScore(data: seq<Reading>): (r: real)
    ensures Values(data, Temperature) == [] ==> r == 15.0
    ensures 0.0 <= r < 45.0
    ensures |Values(data, Temperature)| in {1, 2, 3, 4, 5} ==> r < 20.0
  {
    var temps := Values(data, Temperature);
    if temps == [] then 15.0
    else
      AnomalyPointsBelowTwenty(temps);
      Min(AnomalyPoints(temps) + TrendPoints(temps), 100.0)
  }

  method CalculateTemperatureRisk(data: seq<Reading>) returns (risk: real)
    ensures risk == TemperatureScore(data)
  {
    if data == [] {
      return 15.0;
    }
    var temperatures := Values(data, Temperature);
    if |temperatures| == 0 {
      return 15.0;
    }
    var mean := Mean(temperatures);
    var variance := Variance(temperatures);
    var anomalies := 0;
    for i := 0 to |temperatures|
      invariant anomalies == CountAbove(temperatures[..i], mean, 4.0 * variance)
    {
      assert temperatures[..i + 1][..i] == temperatures[..i];
      if Outlying(temperatures[i], mean, 4.0 * variance) {
        anomalies := anomalies + 1;
      }
    }
    assert temperatures[..|temperatures|] == temperatures;
    risk := anomalies as real / |temperatures| as real * 80.0;
    assert risk == AnomalyPoints(temperatures);
    ghost var points := risk;
    var recent := Recent(temperatures);
    var older := Older(temperatures);
    if |recent| > 0 && |older| > 0 {
      var change := Abs(Mean(recent) - Mean(older));
      if change > 5.0 {
        risk := risk + 25.0;
      } else if change > 3.0 {
        risk := risk + 15.0;
      }
    }
    assert risk == points + TrendPoints(temperatures);
    risk := Min(risk, 100.0);
  }

  /** A temperature column whose values are all equal scores nothing. */
  lemma SteadyTemperatureScoresZero(data: seq<Reading>)
    requires var temps := Values(data, Temperature);
      temps != [] && forall i :: 0 <= i < |temps| ==> temps[i] == temps[0]
    ensures TemperatureScore(data) == 0.0
  {
    var temps := Values(data, Temperature);
    ConstantHasNoAnomalies(temps);
    NoAnomalyNoPoints(temps);
    if |temps| > 5 {
      var recent, older := Recent(temps), Older(temps);
      assert forall i :: 0 <= i < |recent| ==> recent[i] == temps[|temps| - |recent| + i];
      assert forall i :: 0 <= i < |older| ==> older[i] == temps[|temps| - 5 - |older| + i];
      MeanOfConstant(recent, temps[0]);
      MeanOfConstant(older, temps[0]);
    }
    assert TrendPoints(temps) == 0.0;
  }

  // ---------------------------------------------------------------------------
  // Seismic indicators, ocean conditions, wind patterns, historical patterns

  /** `Math.random()` in the source: a number in [0, 1). */
  predicate IsDraw(x: real)
  {
    0.0 <= x < 1.0
  }

  /** The simulated seismic factor: a base risk below 40, recent activity below 30
      and tectonic stress below 30. */
  function SeismicScore(base: real, activity: real, stress: real): (r: real)
    requires IsDraw(base) && IsDraw(activity) && IsDraw(stress)
    ensures 0.0 <= r < 100.0
  {
    Min(base * 40.0 + activity * 30.0 + stress * 30.0, 100.0)
  }

  /** The simulated historical factor: seasonal, cyclical and recent-event terms
      below 30, 25 and 20. */
  function HistoricalScore(seasonal: real, cyclical: real, recentEvents: real): (r: real)
    requires IsDraw(seasonal) && IsDraw(cyclical) && IsDraw(recentEvents)
    ensures 0.0 <= r < 75.0
  {
    Min(seasonal * 30.0 + cyclical * 25.0 + recentEvents * 20.0, 100.0)
  }

  /** The normal sea surface temperature the ocean factor compares against. */
  const NormalSeaTemperature: real := 26.0

  /** Points for the distance of the mean temperature from the normal sea temperature. */
  function SeaAnomalyPoints(anomaly: real): (r: real)
    ensures r == 40.0 <==> anomaly > 3.0
    ensures r == 25.0 <==> 2.0 < anomaly <= 3.0
    ensures r == 15.0 <==> 1.0 < anomaly <= 2.0
    ensures r == 0.0 <==> anomaly <= 1.0
  {
    if anomaly > 3.0 then 40.0
    else if anomaly > 2.0 then 25.0
    else if anomaly > 1.0 then 15.0
    else 0.0
  }

  /** The ocean factor: 10 without temperatures, otherwise the sea anomaly points
      plus up to 20 points of simulated current and salinity. */
  function OceanScore(data: seq<Reading>, currents: real): (r: real)
    requires IsDraw(currents)
    ensures Values(data, Temperature) == [] ==> r == 10.0
    ensures 0.0 <= r < 60.0
  {
    var temps := Values(data, Temperature);
    if temps == [] then 10.0
    else Min(SeaAnomalyPoints(Abs(Mean(temps) - NormalSeaTemperature)) + currents * 20.0, 100.0)
  }

  method CalculateOceanRisk(data: seq<Reading>, currents: real) returns (risk: real)
    requires IsDraw(currents)
    ensures risk == OceanScore(data, currents)
  {
    if data == [] {
      return 10.0;
    }
    var temperatures := Values(data, Temperature);
    if |temperatures| == 0 {
      return 10.0;
    }
    var avgTemp := Mean(temperatures);
    risk := 0.0;
    var tempAnomaly := Abs(avgTemp - NormalSeaTemperature);
    if tempAnomaly > 3.0 {
      risk := risk + 40.0;
    } else if tempAnomaly > 2.0 {
      risk := risk + 25.0;
    } else if tempAnomaly > 1.0 {
      risk := risk + 15.0;
    }
    risk := risk + currents * 20.0;
    risk := Min(risk, 100.0);
  }

  /** Within a degree of the normal sea temperature the ocean factor is below 20;
      more than three degrees away it is at least 40. */
  lemma OceanScoreBands(data: seq<Reading>, currents: real)
    requires IsDraw(currents)
    requires Values(data, Temperature) != []
    ensures var m := Mean(Values(data, Temperature));
      (Abs(m - NormalSeaTemperature) <= 1.0 ==> OceanScore(data, currents) < 20.0)
      && (Abs(m - NormalSeaTemperature) > 3.0 ==> OceanScore(data, currents) >= 40.0)
  {
  }

  /** Points for the strongest wind. */
  function GustPoints(maxWind: real): (r: real)
    ensures r == 40.0 <==> maxWind > 25.0
    ensures r == 25.0 <==> 20.0 < maxWind <= 25.0
    ensures r == 15.0 <==> 15.0 < maxWind <= 20.0
    ensures r == 0.0 <==> maxWind <= 15.0
  {
    if maxWind > 25.0 then 40.0
    else if maxWind > 20.0 then 25.0
    else if maxWind > 15.0 then 15.0
    else 0.0
  }

  /** Points for the spread between the strongest and the weakest wind. */
  function SpreadPoints(spread: real): (r: real)
    ensures r == 20.0 <==> spread > 15.0
    ensures r == 10.0 <==> 10.0 < spread <= 15.0
    ensures r == 0.0 <==> spread <= 10.0
  {
    if spread > 15.0 then 20.0
    else if spread > 10.0 then 10.0
    else 0.0
  }

  /** The wind factor: 10 without wind readings, otherwise gust and spread points,
      which never exceed 60, so the cap at 100 never applies. */
  function WindScore(data: seq<Reading>): (r: real)
    ensures Values(data, WindSpeed) == [] ==> r == 10.0
    ensures 0.0 <= r <= 60.0
  {
    var ws := Values(data, WindSpeed);
    if ws == [] then 10.0
    else Min(GustPoints(SeqMax(ws)) + SpreadPoints(SeqMax(ws) - SeqMin(ws)), 100.0)
  }

  method CalculateWindRisk(data: seq<Reading>) returns (risk: real)
    ensures risk == WindScore(data)
  {
    if data == [] {
      return 10.0;
    }
    var windSpeeds := Values(data, WindSpeed);
    if |windSpeeds| == 0 {
      return 10.0;
    }
    var maxWind := SeqMax(windSpeeds);
    risk := 0.0;
    if maxWind > 25.0 {
      risk := risk + 40.0;
    } else if maxWind > 20.0 {
      risk := risk + 25.0;
    } else if maxWind > 15.0 {
      risk := risk + 15.0;
    }
    var windVariability := SeqMax(windSpeeds) - SeqMin(windSpeeds);
    if windVariability > 15.0 {
      risk := risk + 20.0;
    } else if windVariability > 10.0 {
      risk := risk + 10.0;
    }
    risk := Min(risk, 100.0);
  }

  /** Winds that all stay within 0..10 score nothing. */
  lemma LightWindScoresZero(data: seq<Reading>)
    requires var ws := Values(data, WindSpeed);
      ws != [] && forall i :: 0 <= i < |ws| ==> 0.0 <= ws[i] <= 10.0
    ensures WindScore(data) == 0.0
  {
    var ws := Values(data, WindSpeed);
    var hi, lo := SeqMax(ws), SeqMin(ws);
    assert hi <= 10.0 && lo >= 0.0;
  }

  // ---------------------------------------------------------------------------
  // The six factors and their status

  /** The source's seven `Math.random()` calls of one assessment. */
  datatype ScoreDraws = ScoreDraws(
    seismicBase: real,
    seismicActivity: real,
    tectonicStress: real,
    oceanCurrents: real,
    seasonal: real,
    cyclical: real,
    recentEvents: real)

  predicate ValidDraws(d: ScoreDraws)
  {
    IsDraw(d.seismicBase) && IsDraw(d.seismicActivity) && IsDraw(d.tectonicStress)
    && IsDraw(d.oceanCurrents) && IsDraw(d.seasonal) && IsDraw(d.cyclical) && IsDraw(d.recentEvents)
  }

  const PressureFactor := "Atmospheric Pressure"
  const TemperatureFactor := "Temperature Anomalies"
  const SeismicFactor := "Seismic Indicators"
  const OceanFactor := "Ocean Conditions"
  const WindFactor := "Wind Patterns"
  const HistoricalFactor := "Historical Patterns"

  const FactorNames: seq<string> :=
    [PressureFactor, TemperatureFactor, SeismicFactor, OceanFactor, WindFactor, HistoricalFactor]

  /** The factor weights, in factor order. */
  const FactorWeights: seq<real> := [0.25, 0.20, 0.20, 0.15, 0.10, 0.10]

  const FactorDescriptions: seq<string> := [
    "Rapid pressure changes indicate potential severe weather or tsunami risk",
    "Unusual temperature patterns can trigger various disaster scenarios",
    "Ground movement and tectonic activity monitoring",
    "Sea surface temperature and current anomalies",
    "Atmospheric circulation and wind shear analysis",
    "Comparison with past disaster precursor patterns"]

  /** Six factors in factor order with the given values, all with status Normal. */
  function FactorsOf(values: seq<real>, time: string): (fs: seq<RiskFactor>)
    requires |values| == 6
    ensures |fs| == 6
    ensures forall i :: 0 <= i < 6 ==>
      fs[i] == RiskFactor(FactorNames[i], values[i], FactorWeights[i], Normal, FactorDescriptions[i], time)
  {
    seq(6, i requires 0 <= i < 6 =>
      RiskFactor(FactorNames[i], values[i], FactorWeights[i], Normal, FactorDescriptions[i], time))
  }

  /** The six factor values of one assessment, in factor order. */
  function ScoreValues(data: seq<Reading>, d: ScoreDraws): (vs: seq<real>)
    requires ValidDraws(d)
    ensures |vs| == 6 && forall i :: 0 <= i < 6 ==> InPercent(vs[i])
  {
    var pressure, temperature := PressureScore(data), TemperatureScore(data);
    var seismic := SeismicScore(d.seismicBase, d.seismicActivity, d.tectonicStress);
    var ocean, wind := OceanScore(data, d.oceanCurrents), WindScore(data);
    var historical := HistoricalScore(d.seasonal, d.cyclical, d.recentEvents);
    SixInPercent(pressure, temperature, seismic, ocean, wind, historical);
    [pressure, temperature, seismic, ocean, wind, historical]
  }

  predicate InPercent(x: real)
  {
    0.0 <= x <= 100.0
  }

  lemma SixInPercent(a: real, b: real, c: real, d: real, e: real, f: real)
    requires InPercent(a) && InPercent(b) && InPercent(c)
    requires InPercent(d) && InPercent(e) && InPercent(f)
    ensures var vs := [a, b, c, d, e, f]; forall i :: 0 <= i < 6 ==> InPercent(vs[i])
  {
    var vs := [a, b, c, d, e, f];
    forall i | 0 <= i < 6
      ensures InPercent(vs[i])
    {
      if i == 0 {} else if i == 1 {} else if i == 2 {} else if i == 3 {} else if i == 4 {}
    }
  }

  /** The six factors as first built, all with status Normal. */
  function InitialFactors(data: seq<Reading>, d: ScoreDraws, time: string): (fs: seq<RiskFactor>)
    requires ValidDraws(d)
    ensures |fs| == 6
    ensures forall i :: 0 <= i < 6 ==>
      fs[i].name == FactorNames[i] && 0.0 <= fs[i].value <= 100.0 && fs[i].weight == FactorWeights[i]
      && fs[i].status == Normal && fs[i].lastUpdate == time
  {
    FactorsOf(ScoreValues(data, d), time)
  }

  /** The status a factor value earns. */
  function StatusOf(value: real): (s: Status)
    ensures s == Critical <==> value >= 80.0
    ensures s == High <==> 60.0 <= value < 80.0
    ensures s == Elevated <==> 40.0 <= value < 60.0
    ensures s == Normal <==> value < 40.0
  {
    if value >= 80.0 then Critical
    else if value >= 60.0 then High
    else if value >= 40.0 then Elevated
    else Normal
  }

  /** Every factor carries the status its value earns. */
  predicate Labelled(fs: seq<RiskFactor>)
  {
    forall i :: 0 <= i < |fs| ==> fs[i].status == StatusOf(fs[i].value)
  }

  /** The status pass over the factor list, updating each record in place. */
  method AssignStatuses(factors: array<RiskFactor>)
    modifies factors
    ensures forall i :: 0 <= i < factors.Length ==>
      factors[i] == old(factors[i]).(status := StatusOf(old(factors[i]).value))
    ensures Labelled(factors[..])
  {
    for i := 0 to factors.Length
      invariant forall j :: 0 <= j < i ==>
        factors[j] == old(factors[j]).(status := StatusOf(old(factors[j]).value))
      invariant forall j :: i <= j < factors.Length ==> factors[j] == old(factors[j])
    {
      var factor := factors[i];
      var status;
      if factor.value >= 80.0 {
        status := Critical;
      } else if factor.value >= 60.0 {
        status := High;
      } else if factor.value >= 40.0 {
        status := Elevated;
      } else {
        status := Normal;
      }
      factors[i] := factor.(status := status);
    }
  }

  // ---------------------------------------------------------------------------
  // Weighted score and level

  /** Every factor has a non-negative value and a non-negative weight. */
  predicate NonNegativeFactors(fs: seq<RiskFactor>)
  {
    forall i :: 0 <= i < |fs| ==> fs[i].value >= 0.0 && fs[i].weight >= 0.0
  }

  /** Sum over the factors of value times weight, accumulated from zero in list order. */
  function WeightedScore(fs: seq<RiskFactor>): real
  {
    if fs == [] then 0.0 else WeightedScore(fs[..|fs| - 1]) + fs[|fs| - 1].value * fs[|fs| - 1].weight
  }

  /** Factors with non-negative values and weights never give a negative score. */
  lemma {:induction false} WeightedScoreNonNegative(fs: seq<RiskFactor>)
    requires NonNegativeFactors(fs)
    ensures WeightedScore(fs) >= 0.0
  {
    if fs != [] {
      var init, f := fs[..|fs| - 1], fs[|fs| - 1];
      assert forall i :: 0 <= i < |init| ==> init[i] == fs[i];
      WeightedScoreNonNegative(init);
      PositiveFactor(-f.value, f.weight);
    }
  }

  function TotalWeight(fs: seq<RiskFactor>): real
  {
    if fs == [] then 0.0 else TotalWeight(fs[..|fs| - 1]) + fs[|fs| - 1].weight
  }

  lemma ScaledBetween(v: real, w: real, lo: real, hi: real)
    requires w >= 0.0 && lo <= v <= hi
    ensures lo * w <= v * w <= hi * w
  {
    assert (v - lo) * w >= 0.0;
    assert (hi - v) * w >= 0.0;
  }

  /** With non-negative weights, the weighted score lies between the smallest and
      the largest value, each scaled by the total weight. */
  lemma {:induction false} WeightedScoreBetween(fs: seq<RiskFactor>, lo: real, hi: real)
    requires forall i :: 0 <= i < |fs| ==> fs[i].weight >= 0.0 && lo <= fs[i].value <= hi
    ensures lo * TotalWeight(fs) <= WeightedScore(fs) <= hi * TotalWeight(fs)
  {
    if fs != [] {
      var init, f := fs[..|fs| - 1], fs[|fs| - 1];
      assert forall i :: 0 <= i < |init| ==> init[i] == fs[i];
      WeightedScoreBetween(init, lo, hi);
      var w, t := WeightedScore(init), TotalWeight(init);
      assert WeightedScore(fs) == w + f.value * f.weight;
      assert TotalWeight(fs) == t + f.weight;
      ScaledBetween(f.value, f.weight, lo, hi);
      Distribute(lo, TotalWeight(fs), t, f.weight);
      Distribute(hi, TotalWeight(fs), t, f.weight);
    }
  }

  lemma Distribute(c: real, total: real, t: real, w: real)
    requires total == t + w
    ensures c * total == c * t + c * w
  {
  }

  /** Factors that all have the value `v` give the weighted score `v` times the total weight. */
  lemma {:induction false} WeightedScoreOfEqualValues(fs: seq<RiskFactor>, v: real)
    requires forall i :: 0 <= i < |fs| ==> fs[i].value == v
    ensures WeightedScore(fs) == v * TotalWeight(fs)
  {
    if fs != [] {
      WeightedScoreOfEqualValues(fs[..|fs| - 1], v);
      assert v * TotalWeight(fs) == v * TotalWeight(fs[..|fs| - 1]) + v * fs[|fs| - 1].weight;
    }
  }

  /** Six factors that all have the value `v` score exactly `v`. */
  lemma SixEqualValuesScoreValue(fs: seq<RiskFactor>, v: real)
    requires |fs| == 6 && forall i :: 0 <= i < 6 ==> fs[i].weight == FactorWeights[i] && fs[i].value == v
    ensures WeightedScore(fs) == v
  {
    WeightedScoreOfEqualValues(fs, v);
    FactorWeightsSumToOne(fs);
  }

  /** The six factor weights add up to one. */
  lemma FactorWeightsSumToOne(fs: seq<RiskFactor>)
    requires |fs| == 6 && forall i :: 0 <= i < 6 ==> fs[i].weight == FactorWeights[i]
    ensures TotalWeight(fs) == 1.0
  {
    assert fs[..1][..0] == [];
    assert fs[..2][..1] == fs[..1];
    assert fs[..3][..2] == fs[..2];
    assert fs[..4][..3] == fs[..3];
    assert fs[..5][..4] == fs[..4];
    assert fs[..6] == fs;
    assert TotalWeight(fs[..1]) == 0.25;
    assert TotalWeight(fs[..2]) == 0.45;
    assert TotalWeight(fs[..3]) == 0.65;
    assert TotalWeight(fs[..4]) == 0.80;
    assert TotalWeight(fs[..5]) == 0.90;
  }

  /** So the overall score of six factors scored in 0..100 lies in 0..100. */
  lemma WeightedScoreInRange(fs: seq<RiskFactor>)
    requires |fs| == 6 && forall i :: 0 <= i < 6 ==> fs[i].weight == FactorWeights[i]
    requires forall i :: 0 <= i < 6 ==> 0.0 <= fs[i].value <= 100.0
    ensures 0.0 <= WeightedScore(fs) <= 100.0
  {
    FactorWeightsSumToOne(fs);
    WeightedScoreBetween(fs, 0.0, 100.0);
  }

  function RiskLevel(score: real): (l: Level)
    ensures l == CriticalRisk <==> score >= 75.0
    ensures l == HighRisk <==> 55.0 <= score < 75.0
    ensures l == ModerateRisk <==> 35.0 <= score < 55.0
    ensures l == LowRisk <==> score < 35.0
  {
    if score >= 75.0 then CriticalRisk
    else if score >= 55.0 then HighRisk
    else if score >= 35.0 then ModerateRisk
    else LowRisk
  }

  // ---------------------------------------------------------------------------
  // Confidence

  /** Number of factors whose value exceeds `bound`. */
  function CountOver(fs: seq<RiskFactor>, bound: real): (k: nat)
    ensures k <= |fs|
  {
    if fs == [] then 0
    else CountOver(fs[..|fs| - 1], bound) + (if fs[|fs| - 1].value > bound then 1 else 0)
  }

  lemma {:induction false} CountOverAntitone(fs: seq<RiskFactor>, lo: real, hi: real)
    requires lo <= hi
    ensures CountOver(fs, hi) <= CountOver(fs, lo)
  {
    if fs != [] {
      CountOverAntitone(fs[..|fs| - 1], lo, hi);
    }
  }

  /** Confidence of an assessment over `rows` readings: 50, plus 20 or 10 for
      more than 50 or 20 rows, plus 15 when more than two factors exceed 50,
      minus 5 per factor above 90, clamped to 30..95. The raw value never exceeds
      85, and with at most six factors it never falls below 35. */
  function AssessmentConfidence(fs: seq<RiskFactor>, rows: nat): (c: real)
    ensures 30.0 <= c <= 85.0
    ensures |fs| <= 6 ==> c >= 35.0
    ensures CountOver(fs, 90.0) == 0 ==> c >= 50.0
  {
    CountOverAntitone(fs, 50.0, 90.0);
    var quality := if rows > 50 then 20.0 else if rows > 20 then 10.0 else 0.0;
    var consistency := if CountOver(fs, 50.0) > 2 then 15.0 else 0.0;
    Clamp(50.0 + quality + consistency - 5.0 * CountOver(fs, 90.0) as real, 30.0, 95.0)
  }

  // ---------------------------------------------------------------------------
  // Primary threats

  /** `factors.find(f => f.name === name)`: the first factor with that name. */
  function FindFactor(fs: seq<RiskFactor>, name: string): (r: Option<RiskFactor>)
    ensures r.Some? ==> r.value.name == name
  {
    if fs == [] then None
    else if fs[0].name == name then Some(fs[0])
    else FindFactor(fs[1..], name)
  }

  /** FindFactor finds nothing exactly when no factor has the name, and otherwise
      the first factor that has it. */
  lemma {:induction false} FindFactorIsFirst(fs: seq<RiskFactor>, name: string)
    ensures FindFactor(fs, name).None? <==> forall i :: 0 <= i < |fs| ==> fs[i].name != name
    ensures FindFactor(fs, name).Some? ==>
      exists i :: 0 <= i < |fs| && fs[i] == FindFactor(fs, name).value
                  && (forall j :: 0 <= j < i ==> fs[j].name != name)
  {
    if fs != [] && fs[0].name != name {
      var r := FindFactor(fs[1..], name);
      FindFactorIsFirst(fs[1..], name);
      assert forall i :: 0 <= i < |fs[1..]| ==> fs[1..][i] == fs[i + 1];
      if r.Some? {
        var i :| 0 <= i < |fs[1..]| && fs[1..][i] == r.value
                 && (forall j :: 0 <= j < i ==> fs[1..][j].name != name);
        assert forall j :: 1 <= j < i + 1 ==> fs[j] == fs[1..][j - 1];
        assert fs[i + 1] == r.value;
      }
    } else if fs != [] {
      assert fs[0] == FindFactor(fs, name).value;
    }
  }

  /** The named factor exists and its value exceeds `bound`. */
  predicate Exceeds(fs: seq<RiskFactor>, name: string, bound: real)
  {
    var f := FindFactor(fs, name);
    f.Some? && f.value.value > bound
  }

  const ThreatOrder: seq<Threat> := [Tsunami, SevereWeather, Earthquake, CycloneHurricane]

  /** Whether the factors point at a threat; "General Weather" is never indicated itself. */
  predicate Indicates(fs: seq<RiskFactor>, threat: Threat)
  {
    match threat
    case Tsunami => Exceeds(fs, PressureFactor, 70.0)
    case SevereWeather => Exceeds(fs, PressureFactor, 50.0)
    case Earthquake => Exceeds(fs, SeismicFactor, 50.0)
    case CycloneHurricane => Exceeds(fs, OceanFactor, 50.0) && Exceeds(fs, WindFactor, 40.0)
    case GeneralWeather => false
  }

  /** The threats of `order` that the factors indicate, in that order. */
  function Indicated(fs: seq<RiskFactor>, order: seq<Threat>): (r: seq<Threat>)
    ensures |r| <= |order|
  {
    if order == [] then []
    else (if Indicates(fs, order[0]) then [order[0]] else []) + Indicated(fs, order[1..])
  }

  /** The primary threats: the indicated ones in the fixed order, or "General
      Weather" alone when none is indicated. */
  function PrimaryThreats(fs: seq<RiskFactor>): (ts: seq<Threat>)
    ensures 1 <= |ts| <= 4
  {
    var ts := Indicated(fs, ThreatOrder);
    if ts == [] then [GeneralWeather] else ts
  }

  /** The indicated threats written out in their fixed order. */
  lemma IndicatedInOrder(fs: seq<RiskFactor>)
    ensures Indicated(fs, ThreatOrder) ==
      (if Exceeds(fs, PressureFactor, 70.0) then [Tsunami] else [])
      + (if Exceeds(fs, PressureFactor, 50.0) then [SevereWeather] else [])
      + (if Exceeds(fs, SeismicFactor, 50.0) then [Earthquake] else [])
      + (if Exceeds(fs, OceanFactor, 50.0) && Exceeds(fs, WindFactor, 40.0) then [CycloneHurricane] else [])
  {
    var o4: seq<Threat> := [CycloneHurricane];
    var o3 := [Earthquake] + o4;
    var o2 := [SevereWeather] + o3;
    assert ThreatOrder == [Tsunami] + o2;
    assert o4[1..] == [];
    assert Indicated(fs, o4) == (if Indicates(fs, CycloneHurricane) then [CycloneHurricane] else []);
    assert o3[1..] == o4;
    assert Indicated(fs, o3) == (if Indicates(fs, Earthquake) then [Earthquake] else []) + Indicated(fs, o4);
    assert o2[1..] == o3;
    assert Indicated(fs, o2) == (if Indicates(fs, SevereWeather) then [SevereWeather] else []) + Indicated(fs, o3);
    assert ([Tsunami] + o2)[1..] == o2;
    assert Indicated(fs, ThreatOrder) == (if Indicates(fs, Tsunami) then [Tsunami] else []) + Indicated(fs, o2);
  }

  /** Each threat is named exactly when its factors indicate it; "General Weather"
      stands alone and only when nothing else is indicated; a tsunami always comes
      with severe weather. */
  lemma PrimaryThreatsNamed(fs: seq<RiskFactor>)
    ensures var threats := PrimaryThreats(fs);
      |threats| >= 1
      && (Tsunami in threats <==> Exceeds(fs, PressureFactor, 70.0))
      && (SevereWeather in threats <==> Exceeds(fs, PressureFactor, 50.0))
      && (Earthquake in threats <==> Exceeds(fs, SeismicFactor, 50.0))
      && (CycloneHurricane in threats
          <==> Exceeds(fs, OceanFactor, 50.0) && Exceeds(fs, WindFactor, 40.0))
      && (GeneralWeather in threats <==> threats == [GeneralWeather])
      && (Tsunami in threats ==> SevereWeather in threats)
  {
    IndicatedInOrder(fs);
  }

  method IdentifyPrimaryThreats(factors: seq<RiskFactor>) returns (threats: seq<Threat>)
    ensures threats == PrimaryThreats(factors)
  {
    threats := [];
    var pressure := FindFactor(factors, PressureFactor);
    var seismic := FindFactor(factors, SeismicFactor);
    var ocean := FindFactor(factors, OceanFactor);
    var wind := FindFactor(factors, WindFactor);
    if pressure.Some? && pressure.value.value > 50.0 {
      if pressure.value.value > 70.0 {
        threats := threats + [Tsunami];
      }
      threats := threats + [SevereWeather];
    }
    if seismic.Some? && seismic.value.value > 50.0 {
      threats := threats + [Earthquake];
    }
    if ocean.Some? && ocean.value.value > 50.0 && wind.Some? && wind.value.value > 40.0 {
      threats := threats + [CycloneHurricane];
    }
    IndicatedInOrder(factors);
    if |threats| == 0 {
      threats := threats + [GeneralWeather];
    }
  }

  // ---------------------------------------------------------------------------
  // Timeframe

  function FactorValues(fs: seq<RiskFactor>): (vs: seq<real>)
    ensures |vs| == |fs| && forall i :: 0 <= i < |fs| ==> vs[i] == fs[i].value
  {
    seq(|fs|, i requires 0 <= i < |fs| => fs[i].value)
  }

  /** How soon the assessed level is expected to matter. Without factors the
      source's maximum is minus infinity, which exceeds nothing. */
  function Timeframe(level: Level, fs: seq<RiskFactor>): (t: string)
    ensures t == "6-24 hours" <==> level == CriticalRisk && exists i :: 0 <= i < |fs| && fs[i].value > 90.0
    ensures t == "1-3 days" <==> level == CriticalRisk && forall i :: 0 <= i < |fs| ==> fs[i].value <= 90.0
    ensures t == "2-7 days" <==> level == HighRisk
    ensures t == "1-2 weeks" <==> level == ModerateRisk
    ensures t == "2+ weeks" <==> level == LowRisk
  {
    var maxRisk := if fs == [] then None else Some(SeqMax(FactorValues(fs)));
    match level
    case CriticalRisk =>
      if maxRisk.Some? && maxRisk.value > 90.0 then "6-24 hours" else "1-3 days"
    case HighRisk => "2-7 days"
    case ModerateRisk => "1-2 weeks"
    case LowRisk => "2+ weeks"
  }

  // ---------------------------------------------------------------------------
  // Assessment history

  /** `[overall, ...prev.slice(0, 9)]`: the new assessment first, then at most nine older ones. */
  function NextHistory(overall: OverallRisk, prev: seq<OverallRisk>): (h: seq<OverallRisk>)
    ensures |h| == (if |prev| < 9 then |prev| else 9) + 1
    ensures h[0] == overall && h[1..] == prev[..|h| - 1]
  {
    [overall] + prev[..if |prev| < 9 then |prev| else 9]
  }

  function Reversed<T>(xs: seq<T>): (r: seq<T>)
    ensures |r| == |xs|
  {
    if xs == [] then [] else [xs[|xs| - 1]] + Reversed(xs[..|xs| - 1])
  }

  /** The history after recording the assessments `xs`, oldest first, starting empty. */
  function Replay(xs: seq<OverallRisk>): seq<OverallRisk>
  {
    if xs == [] then [] else NextHistory(xs[|xs| - 1], Replay(xs[..|xs| - 1]))
  }

  /** The history always holds the ten most recent assessments, newest first. */
  lemma {:induction false} HistoryKeepsLatestTen(xs: seq<OverallRisk>)
    ensures Replay(xs) == Reversed(xs)[..if |xs| < 10 then |xs| else 10]
  {
    if xs != [] {
      var init := xs[..|xs| - 1];
      HistoryKeepsLatestTen(init);
      var k := if |init| < 9 then |init| else 9;
      assert Replay(init)[..k] == Reversed(init)[..k];
      assert Reversed(xs)[..k + 1] == [xs[|xs| - 1]] + Reversed(init)[..k];
    }
  }

  // ---------------------------------------------------------------------------
  // The component's state

  /** The overall record the assessment derives from labelled factors. */
  function Summary(fs: seq<RiskFactor>, rows: nat, time: string): (r: OverallRisk)
    ensures r.level == RiskLevel(WeightedScore(fs)) && r.lastAssessment == time
    ensures r.score == Round(WeightedScore(fs)) && r.confidence == Round(AssessmentConfidence(fs, rows))
    ensures r.primaryThreats == PrimaryThreats(fs) && r.timeframe == Timeframe(r.level, fs)
    ensures 1 <= |r.primaryThreats| <= 4
    ensures r.level == CriticalRisk <==> r.timeframe == "6-24 hours" || r.timeframe == "1-3 days"
    ensures r.level == LowRisk <==> r.timeframe == "2+ weeks"
  {
    var score := WeightedScore(fs);
    var level := RiskLevel(score);
    OverallRisk(level, Round(score), Round(AssessmentConfidence(fs, rows)),
      PrimaryThreats(fs), Timeframe(level, fs), time)
  }

  /** Six factors with the factor weights and values in 0..100 give a rounded
      score in 0..100 and a rounded confidence in 35..85. */
  lemma SummaryBounds(fs: seq<RiskFactor>, rows: nat, time: string)
    requires |fs| == 6 && forall i :: 0 <= i < 6 ==> fs[i].weight == FactorWeights[i]
    requires forall i :: 0 <= i < 6 ==> 0.0 <= fs[i].value <= 100.0
    ensures 0 <= Summary(fs, rows, time).score <= 100
    ensures 35 <= Summary(fs, rows, time).confidence <= 85
  {
    WeightedScoreInRange(fs);
  }

  /** The factor list of one assessment, each scorer run on the readings. */
  method ScoreFactors(data: seq<Reading>, draws: ScoreDraws, assessmentTime: string)
    returns (factors: seq<RiskFactor>)
    requires ValidDraws(draws)
    ensures factors == InitialFactors(data, draws, assessmentTime)
  {
    var pressure := CalculatePressureRisk(data);
    var temperature := CalculateTemperatureRisk(data);
    var seismic := SeismicScore(draws.seismicBase, draws.seismicActivity, draws.tectonicStress);
    var ocean := CalculateOceanRisk(data, draws.oceanCurrents);
    var wind := CalculateWindRisk(data);
    var historical := HistoricalScore(draws.seasonal, draws.cyclical, draws.recentEvents);
    factors := FactorsOf([pressure, temperature, seismic, ocean, wind, historical], assessmentTime);
  }

  class RiskAssessmentState {
    var riskFactors: seq<RiskFactor>
    var overallRisk: Option<OverallRisk>
    var assessmentHistory: seq<OverallRisk>

    /** The factors carry the status their values earn, the history holds at most
        ten entries, and its newest entry is the current overall risk. Every
        assessment establishes it, whatever the state before. */
    ghost predicate Valid()
      reads this
    {
      Labelled(riskFactors)
      && |assessmentHistory| <= 10
      && (overallRisk.Some? ==> assessmentHistory != [] && assessmentHistory[0] == overallRisk.value)
    }

    constructor ()
      ensures Valid()
      ensures riskFactors == [] && overallRisk == None && assessmentHistory == []
    {
      riskFactors := [];
      overallRisk := None;
      assessmentHistory := [];
    }

    /** One assessment over `historicalData` taken at `assessmentTime`. */
    method PerformRiskAssessment(historicalData: seq<Reading>, draws: ScoreDraws, assessmentTime: string)
      requires ValidDraws(draws)
      modifies this
      ensures Valid()
      ensures var initial := InitialFactors(historicalData, draws, assessmentTime);
        |riskFactors| == 6
        && forall i :: 0 <= i < 6 ==> riskFactors[i] == initial[i].(status := StatusOf(initial[i].value))
      ensures overallRisk == Some(Summary(riskFactors, |historicalData|, assessmentTime))
      ensures 0 <= overallRisk.value.score <= 100
      ensures 35 <= overallRisk.value.confidence <= 85
      ensures assessmentHistory == NextHistory(overallRisk.value, old(assessmentHistory))
    {
      var initial := ScoreFactors(historicalData, draws, assessmentTime);
      var factors := new RiskFactor[6](i requires 0 <= i < 6 => initial[i]);
      AssignStatuses(factors);
      riskFactors := factors[..];
      SummaryBounds(riskFactors, |historicalData|, assessmentTime);

      var weightedScore := WeightedScore(riskFactors);
      var confidence := AssessmentConfidence(riskFactors, |historicalData|);
      var riskLevel := RiskLevel(weightedScore);
      var primaryThreats := IdentifyPrimaryThreats(riskFactors);
      var timeframe := Timeframe(riskLevel, riskFactors);
      var overall := OverallRisk(riskLevel, Round(weightedScore), Round(confidence),
        primaryThreats, timeframe, assessmentTime);
      overallRisk := Some(overall);
      assessmentHistory := NextHistory(overall, assessmentHistory);
    }
  }
}
