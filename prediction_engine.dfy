/**
 * The prediction engine hook: pattern analysis of the historical readings
 * (trend per column, anomaly count, volatility), the four hazard scores with
 * their linear time decay, the overall risk and confidence, the advice table,
 * and the seven-day forecast loop.
 *
 * `Math.sqrt` enters as the parameter `sqrt`; see Samples.IsSquareRoot.
 */
module PredictionEngine {
  import opened Samples

  datatype Trend = Rising | Falling | Stable

  datatype PatternAnalysis = PatternAnalysis(
    temperatureTrend: Trend,
    pressureTrend: Trend,
    humidityTrend: Trend,
    windPatterns: Trend,
    anomalies: nat,
    volatility: real)

  datatype RiskAssessment = RiskAssessment(
    tsunamiRisk: real,
    earthquakeRisk: real,
    cycloneRisk: real,
    severeWeatherRisk: real,
    overallRisk: real,
    confidence: real)

  datatype Hazard = Tsunami | Earthquake | Cyclone | SevereWeather

  /** The summary returned for missing or empty data. */
  const Neutral := PatternAnalysis(Stable, Stable, Stable, Stable, 0, 0.0)

  // ---------------------------------------------------------------------------
  // Trend of one column

  /** The source's three-way test of a relative change, in percent. */
  function Direction(change: real): Trend
  {
    if change > 5.0 then Rising else if change < -5.0 then Falling else Stable
  }

  /** `calculateTrend` exactly as written: the relative change of the recent mean
      against the older mean, divided by the signed older mean. With five or fewer
      values the older window is empty and its mean is 0/0, NaN, which no comparison
      accepts; a zero older mean gives +Infinity, -Infinity or NaN after the division. */
  function TrendAsWritten(values: seq<real>): (t: Trend)
    ensures |values| <= 5 ==> t == Stable
    ensures |values| > 5 && Mean(Older(values)) > 0.0 ==>
      var d, o := Mean(Recent(values)) - Mean(Older(values)), Mean(Older(values));
      && (t == Rising <==> d > o / 20.0)
      && (t == Falling <==> d < -o / 20.0)
    ensures |values| > 5 && Mean(Older(values)) < 0.0 ==>
      var d, o := Mean(Recent(values)) - Mean(Older(values)), Mean(Older(values));
      && (t == Rising <==> d < o / 20.0)
      && (t == Falling <==> d > -o / 20.0)
  {
    if |values| < 2 then Stable
    else if |values| <= 5 then Stable
    else
      var recentAvg := Mean(Recent(values));
      var olderAvg := Mean(Older(values));
      if olderAvg == 0.0 then
        (if recentAvg > 0.0 then Rising else if recentAvg < 0.0 then Falling else Stable)
      else
        SignedChangeBands(recentAvg - olderAvg, olderAvg);
        Direction((recentAvg - olderAvg) / olderAvg * 100.0)
  }

  /** Five percent of a signed base: against a negative base the bands swap sides. */
  lemma SignedChangeBands(d: real, o: real)
    requires o != 0.0
    ensures o > 0.0 ==> (d / o * 100.0 > 5.0 <==> d > o / 20.0) && (d / o * 100.0 < -5.0 <==> d < -o / 20.0)
    ensures o < 0.0 ==> (d / o * 100.0 > 5.0 <==> d < o / 20.0) && (d / o * 100.0 < -5.0 <==> d > -o / 20.0)
  {
    if o > 0.0 {
      RelativeChangeBands(d, o);
    } else {
      assert d / o == -d / -o;
      RelativeChangeBands(-d, -o);
    }
  }

  /** `calculateTrend` with the relative change taken against the magnitude of the
      older mean, so that the direction of the change is kept when the older mean is
      negative. Everything else is as written. */
  function CalculateTrend(values: seq<real>): (t: Trend)
    ensures |values| <= 5 ==> t == Stable
    ensures |values| > 5 ==>
      var d := Mean(Recent(values)) - Mean(Older(values));
      var band := Abs(Mean(Older(values))) / 20.0;
      && (t == Rising <==> d > band)
      && (t == Falling <==> d < -band)
  {
    if |values| < 2 then Stable
    else if |values| <= 5 then Stable
    else
      var recentAvg := Mean(Recent(values));
      var olderAvg := Mean(Older(values));
      if olderAvg == 0.0 then
        (if recentAvg > 0.0 then Rising else if recentAvg < 0.0 then Falling else Stable)
      else
        RelativeChangeBands(recentAvg - olderAvg, Abs(olderAvg));
        Direction((recentAvg - olderAvg) / Abs(olderAvg) * 100.0)
  }

  /** A change of more than five percent of a positive base. */
  lemma RelativeChangeBands(d: real, a: real)
    requires a > 0.0
    ensures d / a * 100.0 > 5.0 <==> d > a / 20.0
    ensures d / a * 100.0 < -5.0 <==> d < -a / 20.0
  {
    var q := d / a;
    assert d == q * a;
    if q > 0.05 {
      assert q * a > 0.05 * a;
    } else {
      assert q * a <= 0.05 * a;
    }
    if q < -0.05 {
      assert q * a < -0.05 * a;
    } else {
      assert q * a >= -0.05 * a;
    }
  }

  /** Both trends agree unless the older window has a negative mean. */
  lemma TrendAgreesForNonNegativeBase(values: seq<real>)
    requires |values| > 5 ==> Mean(Older(values)) >= 0.0
    ensures TrendAsWritten(values) == CalculateTrend(values)
  {
  }

  /** Readings warming from -10 to -5 degrees: as written the trend is reported as
      falling, although every recent value is above every older one. */
  lemma SubzeroWarmingReportedFalling()
    ensures var values := [-10.0, -10.0, -10.0, -10.0, -10.0, -5.0, -5.0, -5.0, -5.0, -5.0];
      && TrendAsWritten(values) == Falling
      && CalculateTrend(values) == Rising
  {
    var values := [-10.0, -10.0, -10.0, -10.0, -10.0, -5.0, -5.0, -5.0, -5.0, -5.0];
    var older, recent := Older(values), Recent(values);
    assert older == values[..5];
    assert recent == values[5..];
    MeanOfConstant(older, -10.0);
    MeanOfConstant(recent, -5.0);
    assert (-5.0 - -10.0) / -10.0 * 100.0 == -50.0;
    assert TrendAsWritten(values) == Direction(-50.0);
    assert Abs(-10.0) / 20.0 == 0.5;
  }

  // ---------------------------------------------------------------------------
  // Anomalies

  /** A column's contribution to the anomaly count; an empty column is skipped. */
  function FieldAnomalies(vs: seq<real>): nat
  {
    if vs == [] then 0 else Anomalies(vs)
  }

  function AnomaliesOver(data: seq<Reading>, fields: seq<Field>): nat
  {
    if fields == [] then 0
    else AnomaliesOver(data, fields[..|fields| - 1]) + FieldAnomalies(Values(data, fields[|fields| - 1]))
  }

  /** Number of non-null values in the given columns. */
  function PresentOver(data: seq<Reading>, fields: seq<Field>): nat
  {
    if fields == [] then 0
    else PresentOver(data, fields[..|fields| - 1]) + |Values(data, fields[|fields| - 1])|
  }

  /** The inner `values.forEach` of `detectAnomalies`: counts the values of one
      column lying more than two standard deviations from its mean. */
  method CountAnomalies(values: seq<real>) returns (count: nat)
    requires |values| > 0
    ensures count == Anomalies(values)
  {
    var mean := Mean(values);
    var variance := Variance(values);
    count := 0;
    for j := 0 to |values|
      invariant count == CountAbove(values[..j], mean, 4.0 * variance)
    {
      assert values[..j + 1][..j] == values[..j];
      if Outlying(values[j], mean, 4.0 * variance) {
        count := count + 1;
      }
    }
    assert values[..|values|] == values;
  }

  /** `detectAnomalies`: sums the anomaly counts of the four columns, skipping empty ones. */
  method DetectAnomalies(data: seq<Reading>) returns (anomalies: nat)
    ensures anomalies == AnomaliesOver(data, AllFields)
  {
    anomalies := 0;
    for i := 0 to |AllFields|
      invariant anomalies == AnomaliesOver(data, AllFields[..i])
    {
      assert AllFields[..i + 1][..i] == AllFields[..i];
      var values := Values(data, AllFields[i]);
      if |values| == 0 {
        continue;
      }
      var count := CountAnomalies(values);
      anomalies := anomalies + count;
    }
    assert AllFields[..|AllFields|] == AllFields;
  }

  /** The anomaly count never exceeds a quarter of the non-null values (and is
      strictly below it when any value is present). */
  lemma {:induction false} AnomalyCountBound(data: seq<Reading>, fields: seq<Field>)
    ensures 4 * AnomaliesOver(data, fields) <= PresentOver(data, fields)
    ensures PresentOver(data, fields) > 0 ==> 4 * AnomaliesOver(data, fields) < PresentOver(data, fields)
  {
    if fields != [] {
      AnomalyCountBound(data, fields[..|fields| - 1]);
      var vs := Values(data, fields[|fields| - 1]);
      if vs != [] {
        AnomaliesUnderQuarter(vs);
      }
    }
  }

  // ---------------------------------------------------------------------------
  // Volatility

  /** The source's coefficient of variation of a column of at least two values,
      `Math.sqrt(variance) / mean`, or None when the mean is zero and the division
      yields NaN or an infinity. */
  function CoefficientAsWritten(vs: seq<real>, sqrt: real -> real): Option<real>
    requires |vs| >= 2
  {
    var mean := Mean(vs);
    if mean == 0.0 then None else Some(sqrt(Variance(vs)) / mean)
  }

  /** The running `totalVolatility` as written; None once it is NaN or infinite,
      which every later addition keeps it. */
  function VolatilityTotalAsWritten(data: seq<Reading>, fields: seq<Field>, sqrt: real -> real): Option<real>
  {
    if fields == [] then Some(0.0)
    else
      var vs := Values(data, fields[|fields| - 1]);
      match VolatilityTotalAsWritten(data, fields[..|fields| - 1], sqrt)
      case None => None
      case Some(total) =>
        if |vs| < 2 then Some(total)
        else match CoefficientAsWritten(vs, sqrt)
          case None => None
          case Some(c) => Some(total + c)
  }

  /** `calculateVolatility` as written: None when the result is not a finite number. */
  function VolatilityAsWritten(data: seq<Reading>, sqrt: real -> real): (r: Option<real>)
    ensures r.None? <==> exists i :: 0 <= i < |AllFields| && ZeroMeanColumn(data, AllFields[i])
  {
    VolatilityTotalUndefined(data, AllFields, sqrt);
    match VolatilityTotalAsWritten(data, AllFields, sqrt)
    case None => None
    case Some(total) => Some(total / |AllFields| as real)
  }

  /** A column of at least two values whose mean is zero: its coefficient divides by zero. */
  predicate ZeroMeanColumn(data: seq<Reading>, f: Field)
  {
    |Values(data, f)| >= 2 && Mean(Values(data, f)) == 0.0
  }

  /** The running total as written is lost exactly when one of the columns seen so
      far has at least two values and a zero mean. */
  lemma {:induction false} VolatilityTotalUndefined(data: seq<Reading>, fields: seq<Field>, sqrt: real -> real)
    ensures VolatilityTotalAsWritten(data, fields, sqrt).None? <==>
      exists i :: 0 <= i < |fields| && ZeroMeanColumn(data, fields[i])
  {
    if fields != [] {
      var init, last := fields[..|fields| - 1], fields[|fields| - 1];
      VolatilityTotalUndefined(data, init, sqrt);
      VolatilityTotalStep(data, fields, sqrt);
      ExistsSplit(fields, init, f => ZeroMeanColumn(data, f));
    }
  }

  /** Some element satisfies `p` exactly when one before the last does, or the last. */
  lemma ExistsSplit<T>(xs: seq<T>, init: seq<T>, p: T -> bool)
    requires xs != [] && init == xs[..|xs| - 1]
    ensures (exists i :: 0 <= i < |xs| && p(xs[i])) <==>
      (exists i :: 0 <= i < |init| && p(init[i])) || p(xs[|xs| - 1])
  {
    if exists i :: 0 <= i < |init| && p(init[i]) {
      var i :| 0 <= i < |init| && p(init[i]);
      assert xs[i] == init[i];
    }
    if exists i :: 0 <= i < |xs| && p(xs[i]) {
      var i :| 0 <= i < |xs| && p(xs[i]);
      if i < |init| {
        assert init[i] == xs[i];
      }
    }
  }

  /** One more column loses the running total exactly when it was already lost or
      the new column has a zero mean. */
  lemma VolatilityTotalStep(data: seq<Reading>, fields: seq<Field>, sqrt: real -> real)
    requires fields != []
    ensures VolatilityTotalAsWritten(data, fields, sqrt).None? <==>
      VolatilityTotalAsWritten(data, fields[..|fields| - 1], sqrt).None? || ZeroMeanColumn(data, fields[|fields| - 1])
  {
  }

  /** The coefficient of variation of a column of at least two values, against the
      magnitude of the mean; a zero mean skips the column. */
  function Coefficient(vs: seq<real>, sqrt: real -> real): real
    requires |vs| >= 2
  {
    var mean := Mean(vs);
    if mean == 0.0 then 0.0 else sqrt(Variance(vs)) / Abs(mean)
  }

  function VolatilityTotal(data: seq<Reading>, fields: seq<Field>, sqrt: real -> real): real
  {
    if fields == [] then 0.0
    else
      var vs := Values(data, fields[|fields| - 1]);
      VolatilityTotal(data, fields[..|fields| - 1], sqrt) + (if |vs| < 2 then 0.0 else Coefficient(vs, sqrt))
  }

  /** The mean coefficient of variation over the four columns; a column with fewer
      than two values adds nothing but still counts in the divisor. */
  function Volatility(data: seq<Reading>, sqrt: real -> real): real
  {
    VolatilityTotal(data, AllFields, sqrt) / |AllFields| as real
  }

  /** `calculateVolatility`: accumulates the coefficients of variation column by column. */
  method CalculateVolatility(data: seq<Reading>, sqrt: real -> real) returns (volatility: real)
    ensures volatility == Volatility(data, sqrt)
  {
    var totalVolatility := 0.0;
    for i := 0 to |AllFields|
      invariant totalVolatility == VolatilityTotal(data, AllFields[..i], sqrt)
    {
      assert AllFields[..i + 1][..i] == AllFields[..i];
      var values := Values(data, AllFields[i]);
      if |values| < 2 {
        continue;
      }
      var mean := Mean(values);
      var variance := Variance(values);
      if mean != 0.0 {
        totalVolatility := totalVolatility + sqrt(variance) / Abs(mean);
      }
    }
    assert AllFields[..|AllFields|] == AllFields;
    volatility := totalVolatility / |AllFields| as real;
  }

  lemma {:induction false} VolatilityTotalNonNegative(data: seq<Reading>, fields: seq<Field>, sqrt: real -> real)
    requires IsSquareRoot(sqrt)
    ensures VolatilityTotal(data, fields, sqrt) >= 0.0
  {
    if fields != [] {
      VolatilityTotalNonNegative(data, fields[..|fields| - 1], sqrt);
      var vs := Values(data, fields[|fields| - 1]);
      if |vs| >= 2 && Mean(vs) != 0.0 {
        assert sqrt(Variance(vs)) >= 0.0;
      }
    }
  }

  /** Volatility is never negative. */
  lemma VolatilityNonNegative(data: seq<Reading>, sqrt: real -> real)
    requires IsSquareRoot(sqrt)
    ensures Volatility(data, sqrt) >= 0.0
  {
    VolatilityTotalNonNegative(data, AllFields, sqrt);
  }

  /** Every column with at least two values has a positive mean. */
  predicate PositiveMeans(data: seq<Reading>, fields: seq<Field>)
  {
    forall i :: 0 <= i < |fields| ==> |Values(data, fields[i])| >= 2 ==> Mean(Values(data, fields[i])) > 0.0
  }

  lemma {:induction false} VolatilityTotalAgrees(data: seq<Reading>, fields: seq<Field>, sqrt: real -> real)
    requires PositiveMeans(data, fields)
    ensures VolatilityTotalAsWritten(data, fields, sqrt) == Some(VolatilityTotal(data, fields, sqrt))
  {
    if fields != [] {
      var front := fields[..|fields| - 1];
      assert forall i :: 0 <= i < |front| ==> front[i] == fields[i];
      VolatilityTotalAgrees(data, front, sqrt);
    }
  }

  /** Where every column's mean is positive, the corrected volatility is the source's. */
  lemma VolatilityAgreesForPositiveMeans(data: seq<Reading>, sqrt: real -> real)
    requires PositiveMeans(data, AllFields)
    ensures VolatilityAsWritten(data, sqrt) == Some(Volatility(data, sqrt))
  {
    VolatilityTotalAgrees(data, AllFields, sqrt);
  }

  /** Two calm readings (wind speed 0, other columns null): as written the wind
      column's coefficient is 0/0, so the volatility is NaN. */
  lemma CalmWindVolatilityNotFinite(sqrt: real -> real)
    ensures var calm := [Reading(None, None, None, Some(0.0)), Reading(None, None, None, Some(0.0))];
      && VolatilityAsWritten(calm, sqrt) == None
      && Volatility(calm, sqrt) == 0.0
  {
    var calm := [Reading(None, None, None, Some(0.0)), Reading(None, None, None, Some(0.0))];
    assert calm[..1][..0] == [];
    assert calm[..1] == [calm[0]];
    assert Values(calm, WindSpeed) == [0.0, 0.0];
    assert Values(calm, Temperature) == [];
    assert Values(calm, Pressure) == [];
    assert Values(calm, Humidity) == [];
    assert Sum([0.0, 0.0]) == 0.0 by {
      assert [0.0, 0.0][..1] == [0.0];
      assert [0.0][..0] == [];
    }
    assert Mean(Values(calm, WindSpeed)) == 0.0;
    assert AllFields[..3] == [Temperature, Pressure, Humidity];
    assert AllFields[..3][..2] == [Temperature, Pressure];
    assert AllFields[..3][..2][..1] == [Temperature];
    assert AllFields[..3][..2][..1][..0] == [];
    assert VolatilityTotal(calm, AllFields[..3][..2][..1], sqrt) == 0.0;
    assert VolatilityTotal(calm, AllFields[..3][..2], sqrt) == 0.0;
    assert VolatilityTotal(calm, AllFields[..3], sqrt) == 0.0;
    assert VolatilityTotal(calm, AllFields, sqrt) == 0.0;
  }

  // ---------------------------------------------------------------------------
  // Pattern analysis

  /** What `analyzePatterns` returns for `data`. */
  predicate Describes(p: PatternAnalysis, data: seq<Reading>, sqrt: real -> real)
  {
    && p.temperatureTrend == CalculateTrend(Values(data, Temperature))
    && p.pressureTrend == CalculateTrend(Values(data, Pressure))
    && p.humidityTrend == CalculateTrend(Values(data, Humidity))
    && p.windPatterns == CalculateTrend(Values(data, WindSpeed))
    && p.anomalies == AnomaliesOver(data, AllFields)
    && p.volatility == Volatility(data, sqrt)
  }

  lemma {:induction false} NoDataContributesNothing(fields: seq<Field>, sqrt: real -> real)
    ensures AnomaliesOver([], fields) == 0
    ensures VolatilityTotal([], fields, sqrt) == 0.0
  {
    if fields != [] {
      NoDataContributesNothing(fields[..|fields| - 1], sqrt);
    }
  }

  /** With no readings every column is empty, so the general path would give the
      neutral summary too. */
  lemma EmptyDataIsNeutral(sqrt: real -> real)
    ensures Describes(Neutral, [], sqrt)
  {
    NoDataContributesNothing(AllFields, sqrt);
  }

  /** `analyzePatterns`. */
  method AnalyzePatterns(data: seq<Reading>, sqrt: real -> real) returns (p: PatternAnalysis)
    ensures Describes(p, data, sqrt)
    ensures data == [] ==> p == Neutral
  {
    if |data| == 0 {
      EmptyDataIsNeutral(sqrt);
      return Neutral;
    }
    var tempTrend := CalculateTrend(Values(data, Temperature));
    var pressureTrend := CalculateTrend(Values(data, Pressure));
    var humidityTrend := CalculateTrend(Values(data, Humidity));
    var windTrend := CalculateTrend(Values(data, WindSpeed));
    var anomalies := DetectAnomalies(data);
    var volatility := CalculateVolatility(data, sqrt);
    p := PatternAnalysis(tempTrend, pressureTrend, humidityTrend, windTrend, anomalies, volatility);
  }

  // ---------------------------------------------------------------------------
  // Hazard scores

  function Indicator(b: bool, w: real): real
  {
    if b then w else 0.0
  }

  /** The anomaly term: five points per anomaly up to 25 for tsunami, eight up to
      40 for earthquake; the other hazards ignore anomalies. */
  function AnomalyTerm(h: Hazard, anomalies: nat): real
  {
    match h
    case Tsunami => Min(anomalies as real * 5.0, 25.0)
    case Earthquake => Min(anomalies as real * 8.0, 40.0)
    case Cyclone => 0.0
    case SevereWeather => 0.0
  }

  /** The sum of a hazard's terms before the time decay is applied. */
  function PreDecay(h: Hazard, p: PatternAnalysis): real
  {
    match h
    case Tsunami =>
      Indicator(p.pressureTrend == Falling, 30.0) + Indicator(p.temperatureTrend == Rising, 20.0)
      + p.volatility * 20.0 + AnomalyTerm(h, p.anomalies)
    case Earthquake =>
      Indicator(p.pressureTrend != Stable, 25.0) + Indicator(p.temperatureTrend != Stable, 15.0)
      + AnomalyTerm(h, p.anomalies) + p.volatility * 15.0
    case Cyclone =>
      Indicator(p.temperatureTrend == Rising, 35.0) + Indicator(p.pressureTrend == Falling, 30.0)
      + Indicator(p.humidityTrend == Rising, 20.0) + Indicator(p.windPatterns != Stable, 15.0)
    case SevereWeather =>
      Indicator(p.temperatureTrend != Stable, 20.0) + Indicator(p.pressureTrend != Stable, 25.0)
      + Indicator(p.humidityTrend != Stable, 15.0) + Indicator(p.windPatterns != Stable, 20.0)
      + p.volatility * 25.0
  }

  /** Loss of weight per day beyond the first. */
  function DecaySlope(h: Hazard): real
  {
    match h
    case Tsunami => 0.1
    case Earthquake => 0.08
    case Cyclone => 0.12
    case SevereWeather => 0.15
  }

  /** `1 - (timeframe - 1) * slope`: not clamped, it turns negative for far days. */
  function DecayFactor(h: Hazard, timeframe: int): real
  {
    1.0 - (timeframe - 1) as real * DecaySlope(h)
  }

  /** The first day on which a hazard's decay factor is no longer positive. */
  function CutoffDay(h: Hazard): int
  {
    match h
    case Tsunami => 11
    case Earthquake => 14
    case Cyclone => 10
    case SevereWeather => 8
  }

  /** A sum scaled by a decay factor and clamped into [0, 100]. */
  function Decayed(x: real, f: real): (r: real)
    ensures 0.0 <= r <= 100.0
  {
    Clamp(x * f, 0.0, 100.0)
  }

  /** A hazard's score on day `timeframe`: the decayed sum, clamped into [0, 100]. */
  function HazardScore(h: Hazard, p: PatternAnalysis, timeframe: int): (r: real)
    ensures 0.0 <= r <= 100.0
  {
    Decayed(PreDecay(h, p), DecayFactor(h, timeframe))
  }

  /** The anomaly term stays under its cap, and the first day is undecayed. */
  lemma AnomalyCapsAndFirstDay(h: Hazard, p: PatternAnalysis)
    ensures AnomalyTerm(Tsunami, p.anomalies) <= 25.0
    ensures AnomalyTerm(Earthquake, p.anomalies) <= 40.0
    ensures p.anomalies <= 5 ==> AnomalyTerm(Tsunami, p.anomalies) == 5.0 * p.anomalies as real
    ensures p.anomalies <= 5 ==> AnomalyTerm(Earthquake, p.anomalies) == 8.0 * p.anomalies as real
    ensures DecayFactor(h, 1) == 1.0
    ensures HazardScore(h, p, 1) == Clamp(PreDecay(h, p), 0.0, 100.0)
  {
  }

  /** The decay factor falls strictly from day to day and is positive exactly
      before the cutoff day. */
  lemma DecayFactorShape(h: Hazard, t: int, t': int)
    ensures t < t' ==> DecayFactor(h, t') < DecayFactor(h, t)
    ensures DecayFactor(h, t) > 0.0 <==> t < CutoffDay(h)
  {
    var k := (t - 1) as real;
    if t < CutoffDay(h) {
      assert t <= CutoffDay(h) - 1;
      assert k <= (CutoffDay(h) - 2) as real;
    } else {
      assert k >= (CutoffDay(h) - 1) as real;
    }
  }

  /** With a non-negative pre-decay sum, a score vanishes exactly when the sum is
      zero or the day has reached the cutoff. */
  lemma HazardScoreVanishes(h: Hazard, p: PatternAnalysis, t: int)
    requires PreDecay(h, p) >= 0.0
    ensures HazardScore(h, p, t) == 0.0 <==> PreDecay(h, p) == 0.0 || t >= CutoffDay(h)
  {
    DecayFactorShape(h, t, t);
    var x := PreDecay(h, p);
    var f := DecayFactor(h, t);
    if f <= 0.0 {
      assert x * f == -(x * -f);
      assert x * -f >= 0.0;
    } else if x > 0.0 {
      assert x * f > 0.0;
    }
  }

  /** A smaller factor never gives a larger decayed score. */
  lemma DecayedMonotone(x: real, f: real, g: real)
    requires x >= 0.0 && g <= f
    ensures Decayed(x, g) <= Decayed(x, f)
  {
    assert x * f - x * g == x * (f - g);
    ClampMonotone(x * g, x * f, 0.0, 100.0);
  }

  /** With a non-negative pre-decay sum, a score never rises from one day to a later one. */
  lemma HazardScoreNonIncreasing(h: Hazard, p: PatternAnalysis, t: int, t': int)
    requires PreDecay(h, p) >= 0.0
    requires t <= t'
    ensures HazardScore(h, p, t') <= HazardScore(h, p, t)
  {
    var x, f, g := PreDecay(h, p), DecayFactor(h, t), DecayFactor(h, t');
    if t < t' {
      DecayFactorShape(h, t, t');
    }
    DecayedMonotone(x, f, g);
  }

  /** Non-negative volatility makes every pre-decay sum non-negative. */
  lemma PreDecayNonNegative(h: Hazard, p: PatternAnalysis)
    requires p.volatility >= 0.0
    ensures PreDecay(h, p) >= 0.0
  {
  }

  /** Falling pressure, rising temperature, five anomalies and volatility 0.3 give a
      tsunami score of 81 on the first day. */
  lemma TsunamiFirstDayExample(p: PatternAnalysis)
    requires p.pressureTrend == Falling && p.temperatureTrend == Rising
    requires p.anomalies == 5 && p.volatility == 0.3
    ensures HazardScore(Tsunami, p, 1) == 81.0
  {
  }

  method CalculateTsunamiRisk(p: PatternAnalysis, timeframe: int) returns (risk: real)
    ensures risk == HazardScore(Tsunami, p, timeframe)
  {
    risk := 0.0;
    if p.pressureTrend == Falling { risk := risk + 30.0; }
    if p.temperatureTrend == Rising { risk := risk + 20.0; }
    risk := risk + p.volatility * 20.0;
    risk := risk + Min(p.anomalies as real * 5.0, 25.0);
    assert risk == PreDecay(Tsunami, p);
    risk := risk * (1.0 - (timeframe - 1) as real * 0.1);
    assert risk == PreDecay(Tsunami, p) * DecayFactor(Tsunami, timeframe);
    risk := Min(Max(risk, 0.0), 100.0);
  }

  method CalculateEarthquakeRisk(p: PatternAnalysis, timeframe: int) returns (risk: real)
    ensures risk == HazardScore(Earthquake, p, timeframe)
  {
    risk := 0.0;
    if p.pressureTrend != Stable { risk := risk + 25.0; }
    if p.temperatureTrend != Stable { risk := risk + 15.0; }
    risk := risk + Min(p.anomalies as real * 8.0, 40.0);
    risk := risk + p.volatility * 15.0;
    assert risk == PreDecay(Earthquake, p);
    risk := risk * (1.0 - (timeframe - 1) as real * 0.08);
    assert risk == PreDecay(Earthquake, p) * DecayFactor(Earthquake, timeframe);
    risk := Min(Max(risk, 0.0), 100.0);
  }

  method CalculateCycloneRisk(p: PatternAnalysis, timeframe: int) returns (risk: real)
    ensures risk == HazardScore(Cyclone, p, timeframe)
  {
    risk := 0.0;
    if p.temperatureTrend == Rising { risk := risk + 35.0; }
    if p.pressureTrend == Falling { risk := risk + 30.0; }
    if p.humidityTrend == Rising { risk := risk + 20.0; }
    if p.windPatterns != Stable { risk := risk + 15.0; }
    assert risk == PreDecay(Cyclone, p);
    risk := risk * (1.0 - (timeframe - 1) as real * 0.12);
    assert risk == PreDecay(Cyclone, p) * DecayFactor(Cyclone, timeframe);
    risk := Min(Max(risk, 0.0), 100.0);
  }

  method CalculateSevereWeatherRisk(p: PatternAnalysis, timeframe: int) returns (risk: real)
    ensures risk == HazardScore(SevereWeather, p, timeframe)
  {
    risk := 0.0;
    if p.temperatureTrend != Stable { risk := risk + 20.0; }
    if p.pressureTrend != Stable { risk := risk + 25.0; }
    if p.humidityTrend != Stable { risk := risk + 15.0; }
    if p.windPatterns != Stable { risk := risk + 20.0; }
    risk := risk + p.volatility * 25.0;
    assert risk == PreDecay(SevereWeather, p);
    risk := risk * (1.0 - (timeframe - 1) as real * 0.15);
    assert risk == PreDecay(SevereWeather, p) * DecayFactor(SevereWeather, timeframe);
    risk := Min(Max(risk, 0.0), 100.0);
  }

  // ---------------------------------------------------------------------------
  // Overall risk and confidence

  /** `Math.max` of the four hazard scores. */
  function OverallRisk(p: PatternAnalysis, timeframe: int): (r: real)
    ensures HazardScore(Tsunami, p, timeframe) <= r && HazardScore(Earthquake, p, timeframe) <= r
    ensures HazardScore(Cyclone, p, timeframe) <= r && HazardScore(SevereWeather, p, timeframe) <= r
    ensures r == HazardScore(Tsunami, p, timeframe) || r == HazardScore(Earthquake, p, timeframe)
         || r == HazardScore(Cyclone, p, timeframe) || r == HazardScore(SevereWeather, p, timeframe)
  {
    Max(Max(HazardScore(Tsunami, p, timeframe), HazardScore(Earthquake, p, timeframe)),
        Max(HazardScore(Cyclone, p, timeframe), HazardScore(SevereWeather, p, timeframe)))
  }

  /** The overall risk is the largest hazard score: at least each of them, equal
      to one of them, and so within [0, 100]. */
  lemma OverallRiskIsMaximum(p: PatternAnalysis, timeframe: int)
    ensures forall h :: HazardScore(h, p, timeframe) <= OverallRisk(p, timeframe)
    ensures exists h :: HazardScore(h, p, timeframe) == OverallRisk(p, timeframe)
    ensures 0.0 <= OverallRisk(p, timeframe) <= 100.0
  {
    forall h ensures HazardScore(h, p, timeframe) <= OverallRisk(p, timeframe) {
      match h
      case Tsunami =>
      case Earthquake =>
      case Cyclone =>
      case SevereWeather =>
    }
    var r := OverallRisk(p, timeframe);
    if r == HazardScore(Tsunami, p, timeframe) {
    } else if r == HazardScore(Earthquake, p, timeframe) {
    } else if r == HazardScore(Cyclone, p, timeframe) {
    } else {
      assert HazardScore(SevereWeather, p, timeframe) == r;
    }
  }

  /** Number of trends that are not stable. */
  function NonStableTrends(p: PatternAnalysis): (n: nat)
    ensures n <= 4
    ensures n == 0 <==> p.temperatureTrend == Stable && p.pressureTrend == Stable
                        && p.humidityTrend == Stable && p.windPatterns == Stable
  {
    (if p.temperatureTrend != Stable then 1 else 0) + (if p.pressureTrend != Stable then 1 else 0)
    + (if p.humidityTrend != Stable then 1 else 0) + (if p.windPatterns != Stable then 1 else 0)
  }

  /** `calculateConfidence`: base 50, two points per anomaly up to 20, five per
      non-stable trend, 15 for moderate volatility, clamped into [30, 95]. Because
      the anomaly count is never negative the lower clamp is never reached. */
  function Confidence(p: PatternAnalysis): (c: real)
    ensures 50.0 <= c <= 95.0
  {
    var raw := 50.0 + Min(p.anomalies as real * 2.0, 20.0) + NonStableTrends(p) as real * 5.0
               + (if 0.1 < p.volatility < 0.5 then 15.0 else 0.0);
    Clamp(raw, 30.0, 95.0)
  }

  /** Ten anomalies, two non-stable trends and volatility 0.2 give the full 95. */
  lemma ConfidenceExample(p: PatternAnalysis)
    requires p.anomalies == 10 && NonStableTrends(p) == 2 && p.volatility == 0.2
    ensures Confidence(p) == 95.0
  {
  }

  /** Confidence is 95 as soon as ten anomalies meet two non-stable trends and
      moderate volatility, and without anomalies or trends it stays at or below 65. */
  lemma ConfidenceExtremes(p: PatternAnalysis)
    ensures p.anomalies >= 10 && NonStableTrends(p) >= 2 && 0.1 < p.volatility < 0.5 ==> Confidence(p) == 95.0
    ensures p.anomalies == 0 && NonStableTrends(p) == 0 ==> Confidence(p) <= 65.0
  {
  }

  /** The result of `calculateRisk` for day `timeframe`. */
  predicate Assesses(a: RiskAssessment, p: PatternAnalysis, timeframe: int)
  {
    && a.tsunamiRisk == HazardScore(Tsunami, p, timeframe)
    && a.earthquakeRisk == HazardScore(Earthquake, p, timeframe)
    && a.cycloneRisk == HazardScore(Cyclone, p, timeframe)
    && a.severeWeatherRisk == HazardScore(SevereWeather, p, timeframe)
    && a.overallRisk == OverallRisk(p, timeframe)
    && a.confidence == Confidence(p)
  }

  /** `calculateRisk`. */
  method CalculateRisk(p: PatternAnalysis, timeframe: int) returns (a: RiskAssessment)
    ensures Assesses(a, p, timeframe)
    ensures a.overallRisk >= a.tsunamiRisk && a.overallRisk >= a.earthquakeRisk
    ensures a.overallRisk >= a.cycloneRisk && a.overallRisk >= a.severeWeatherRisk
    ensures a.overallRisk in {a.tsunamiRisk, a.earthquakeRisk, a.cycloneRisk, a.severeWeatherRisk}
    ensures 0.0 <= a.overallRisk <= 100.0 && 50.0 <= a.confidence <= 95.0
  {
    var tsunamiRisk := CalculateTsunamiRisk(p, timeframe);
    var earthquakeRisk := CalculateEarthquakeRisk(p, timeframe);
    var cycloneRisk := CalculateCycloneRisk(p, timeframe);
    var severeWeatherRisk := CalculateSevereWeatherRisk(p, timeframe);
    var overallRisk := Max(Max(tsunamiRisk, earthquakeRisk), Max(cycloneRisk, severeWeatherRisk));
    var confidence := Confidence(p);
    a := RiskAssessment(tsunamiRisk, earthquakeRisk, cycloneRisk, severeWeatherRisk, overallRisk, confidence);
  }

  /** With non-negative volatility the overall risk never rises from one day to a later one. */
  lemma OverallRiskNonIncreasing(p: PatternAnalysis, t: int, t': int)
    requires p.volatility >= 0.0
    requires t <= t'
    ensures OverallRisk(p, t') <= OverallRisk(p, t)
  {
    forall h ensures HazardScore(h, p, t') <= HazardScore(h, p, t) {
      PreDecayNonNegative(h, p);
      HazardScoreNonIncreasing(h, p, t, t');
    }
    OverallRiskIsMaximum(p, t);
  }

  // ---------------------------------------------------------------------------
  // Recommendations

  /** The four advice bands of `generateRecommendations`. */
  datatype Band = Evacuate | Prepare | Watch | Routine

  function BandOf(overallRisk: real): (b: Band)
    ensures b == Evacuate <==> overallRisk > 70.0
    ensures b == Prepare <==> 50.0 < overallRisk <= 70.0
    ensures b == Watch <==> 30.0 < overallRisk <= 50.0
    ensures b == Routine <==> overallRisk <= 30.0
  {
    if overallRisk > 70.0 then Evacuate
    else if overallRisk > 50.0 then Prepare
    else if overallRisk > 30.0 then Watch
    else Routine
  }

  function Advice(b: Band): (recs: seq<string>)
    ensures |recs| == 3
  {
    match b
    case Evacuate =>
      ["Immediate evacuation planning required", "Emergency services on high alert", "Public warning systems activated"]
    case Prepare =>
      ["Enhanced monitoring protocols", "Prepare emergency response teams", "Issue weather advisories"]
    case Watch =>
      ["Continue surveillance", "Review emergency procedures", "Monitor weather updates closely"]
    case Routine =>
      ["Maintain routine monitoring", "Standard precautionary measures", "Regular system maintenance"]
  }

  /** Different bands give different advice, so the band can be read back from it. */
  lemma AdviceIdentifiesBand(b: Band, b': Band)
    requires Advice(b) == Advice(b')
    ensures b == b'
  {
    assert Advice(b)[0] == Advice(b')[0];
  }

  /** An overall risk of exactly 70 is not above 70: it gets the second band. */
  lemma BoundaryRiskSeventy()
    ensures BandOf(70.0) == Prepare && BandOf(70.5) == Evacuate && BandOf(30.0) == Routine
  {
  }

  /** `generateRecommendations`: pushes the three strings of the band. */
  method GenerateRecommendations(risk: RiskAssessment) returns (recommendations: seq<string>)
    ensures recommendations == Advice(BandOf(risk.overallRisk))
    ensures |recommendations| == 3
  {
    recommendations := [];
    if risk.overallRisk > 70.0 {
      recommendations := recommendations + ["Immediate evacuation planning required"];
      recommendations := recommendations + ["Emergency services on high alert"];
      recommendations := recommendations + ["Public warning systems activated"];
    } else if risk.overallRisk > 50.0 {
      recommendations := recommendations + ["Enhanced monitoring protocols"];
      recommendations := recommendations + ["Prepare emergency response teams"];
      recommendations := recommendations + ["Issue weather advisories"];
    } else if risk.overallRisk > 30.0 {
      recommendations := recommendations + ["Continue surveillance"];
      recommendations := recommendations + ["Review emergency procedures"];
      recommendations := recommendations + ["Monitor weather updates closely"];
    } else {
      recommendations := recommendations + ["Maintain routine monitoring"];
      recommendations := recommendations + ["Standard precautionary measures"];
      recommendations := recommendations + ["Regular system maintenance"];
    }
  }

  // ---------------------------------------------------------------------------
  // Seven-day forecast

  datatype DayPrediction = DayPrediction(
    day: int,
    risk: RiskAssessment,
    recommendations: seq<string>,
    patterns: PatternAnalysis)

  /** Entry `d` of the forecast made from `patterns` for day `day`. */
  predicate ForecastFor(d: DayPrediction, patterns: PatternAnalysis, day: int)
  {
    && d.day == day
    && d.patterns == patterns
    && Assesses(d.risk, patterns, day)
    && d.recommendations == Advice(BandOf(d.risk.overallRisk))
  }

  /** Forecasts for consecutive days from non-negative volatility never grow more alarming. */
  lemma ForecastNonIncreasing(predictions: seq<DayPrediction>, patterns: PatternAnalysis)
    requires patterns.volatility >= 0.0
    requires forall i :: 0 <= i < |predictions| ==> ForecastFor(predictions[i], patterns, i + 1)
    ensures forall i, j :: 0 <= i <= j < |predictions| ==>
      predictions[j].risk.overallRisk <= predictions[i].risk.overallRisk
  {
    forall i, j | 0 <= i <= j < |predictions|
      ensures predictions[j].risk.overallRisk <= predictions[i].risk.overallRisk
    {
      assert ForecastFor(predictions[i], patterns, i + 1);
      assert ForecastFor(predictions[j], patterns, j + 1);
      OverallRiskNonIncreasing(patterns, i + 1, j + 1);
    }
  }

  /** `generateWeeklyPredictions`: nothing before the model is ready; otherwise the
      patterns of the historical readings and, for days 1 to 7, that day's risk and advice.
      The forecast never grows more alarming from one day to the next. */
  method GenerateWeeklyPredictions(modelReady: bool, historicalData: seq<Reading>, sqrt: real -> real)
    returns (predictions: seq<DayPrediction>)
    requires IsSquareRoot(sqrt)
    ensures !modelReady ==> predictions == []
    ensures modelReady ==> |predictions| == 7
    ensures forall i :: 0 <= i < |predictions| ==>
      && ForecastFor(predictions[i], predictions[0].patterns, i + 1)
      && Describes(predictions[i].patterns, historicalData, sqrt)
    ensures forall i, j :: 0 <= i <= j < |predictions| ==>
      predictions[j].risk.overallRisk <= predictions[i].risk.overallRisk
  {
    if !modelReady {
      return [];
    }
    var patterns := AnalyzePatterns(historicalData, sqrt);
    VolatilityNonNegative(historicalData, sqrt);
    predictions := [];
    for day := 1 to 8
      invariant |predictions| == day - 1
      invariant forall i :: 0 <= i < |predictions| ==> ForecastFor(predictions[i], patterns, i + 1)
    {
      var risk := CalculateRisk(patterns, day);
      var recommendations := GenerateRecommendations(risk);
      var prediction := DayPrediction(day, risk, recommendations, patterns);
      assert ForecastFor(prediction, patterns, day);
      ghost var before := predictions;
      predictions := predictions + [prediction];
      forall i | 0 <= i < day
        ensures ForecastFor(predictions[i], patterns, i + 1)
      {
        if i < day - 1 {
          assert predictions[i] == before[i];
        } else {
          assert predictions[i] == prediction;
        }
      }
    }
    ForecastNonIncreasing(predictions, patterns);
  }
}
