# Climate disaster dashboard — scoring core in Dafny

This project models the scoring logic of a climate-monitoring dashboard and
proves properties of it. The dashboard turns a table of weather readings
(temperature, pressure, humidity, wind speed, any of which may be null) into
risk scores, forecasts and labels:

- **Prediction engine** (`prediction_engine.dfy`, module `PredictionEngine`).
  It analyses the readings into a pattern summary: one trend per column, an
  anomaly count (values more than two standard deviations from their column's
  mean) and a volatility (the mean coefficient of variation). From the summary
  it scores four hazards (tsunami, earthquake, cyclone, severe weather) for a
  given day, applying a linear time decay. It also derives the overall risk,
  a confidence and a three-line advice text, and runs the seven-day forecast
  loop.
- **Risk assessment panel** (`risk_assessment.dfy`, module `RiskAssessment`).
  It scores six weighted risk factors:
  - pressure, temperature and wind, from the readings;
  - ocean conditions, from the readings plus one random draw;
  - seismic and historical, from random draws only.

  It then labels each factor with a status and computes the weighted overall
  score, its level, a confidence, the primary threats and a timeframe. It
  keeps the last ten assessments. The panel's state is the class
  `RiskAssessmentState`, and the status pass updates an array of factors in
  place.
- **Weekly forecast panel** (`weekly_prediction.dfy`, module
  `WeeklyPrediction`). It gives each of the next seven days a level,
  probability, confidence, primary threat, triggers and recommendations.
  These are derived from four random draws per day, after a decay of one
  tenth per day.
- **Timestamp display** (`timestamp_display.dfy`, module `TimestampDisplay`).
  It produces the relative-time label: "Just now", "5m ago", "3h ago",
  "2d ago" or "1w ago".
- **Shared statistics** (`samples.dfy`, module `Samples`). This holds the
  reading record and the non-null column extraction. It also holds sum, mean,
  variance, the outlier count, the five-value windows, rounding and clamping.

Numbers are Dafny `real`s, so arithmetic is exact. `Math.sqrt` is never
computed. Functions that need it take a parameter `sqrt`, and the proofs that
need its meaning require `IsSquareRoot(sqrt)`. The two-standard-deviation
test is stated on squares, `(v - mean)^2 > 4 * variance`. The lemma
`Samples.OutlierTestMatchesSource` proves this is the source's
`|v - mean| > 2 * sqrt(variance)`.

Each `Math.random()` call becomes a parameter in [0, 1):

- `ScoreDraws` holds the seven draws of one risk assessment.
- `Draws` holds the four draws of one forecast day.

The current time is also a parameter. The source's JavaScript NaN and
infinity results are modelled explicitly where they change the outcome:

- An empty window has a mean of 0/0. It makes no trend comparison succeed, so
  the trend is stable.
- A zero older mean makes the relative change infinite. The trend then
  follows the sign of the recent mean.
- An unparsable timestamp gives an invalid date. Building the ISO form of
  that date fails, so the formatter yields no label at all (None).

## Model

| member | source | states |
|---|---|---|
| Samples.Values | src/hooks/usePredictionEngine.ts:48 | a column has at most one value per row, and no values for no rows; ValuesOfRow and ValuesOfConcat pin it as the filter that keeps row order |
| Samples.ValuesAreNonNullEntries | src/hooks/usePredictionEngine.ts:156 | the set of a column's values is the set of non-null entries of its field, and a column without nulls has one value per row |
| Samples.ValuesOfRow | src/hooks/usePredictionEngine.ts:156 | one row contributes its entry when present and nothing when null |
| Samples.ValuesOfConcat | src/hooks/usePredictionEngine.ts:156 | the column of two tables in sequence is the first table's column followed by the second's, so values keep row order and each entry appears once |
| Samples.Recent | src/hooks/usePredictionEngine.ts:138 | the window holds the last five values, or all of them when there are fewer |
| Samples.Older | src/hooks/usePredictionEngine.ts:139 | the window is empty for five or fewer values. Otherwise it holds exactly min(5, n - 5) values, the ones just before the last five |
| Samples.AnomaliesUnderQuarter | src/hooks/usePredictionEngine.ts:159-166 | Chebyshev's bound: fewer than a quarter of a non-empty column's values lie more than two standard deviations from its mean |
| Samples.ConstantHasNoAnomalies | src/hooks/usePredictionEngine.ts:159-166 | a column whose values are all equal has no anomalies |
| Samples.OutlierTestMatchesSource | src/hooks/usePredictionEngine.ts:160-163 | given a true square root, the squared test counts exactly the values the source's `Math.abs(v - mean) > 2 * stdDev` counts |
| Samples.Clamp | src/hooks/usePredictionEngine.ts:210 | `Math.min(Math.max(x, lo), hi)` lies in [lo, hi]; it equals x inside, lo below and hi above |
| Samples.Round | src/components/RiskAssessment.tsx:114 | `Math.round` gives the integer within half a unit, with halves rounded up |
| Samples.SeqMax | src/components/RiskAssessment.tsx:225 | `Math.max(...s)` is an element of s and no element exceeds it |
| Samples.SeqMin | src/components/RiskAssessment.tsx:236 | `Math.min(...s)` is an element of s and no element is below it |
| PredictionEngine.CalculateTrend | src/hooks/usePredictionEngine.ts:135-149 | five or fewer values are stable. Otherwise the trend is rising exactly when the recent mean exceeds the older mean by more than 5% of the older mean's magnitude, and falling exactly when it is that much below (corrected version, see Findings) |
| PredictionEngine.TrendAsWritten | src/hooks/usePredictionEngine.ts:135-149 | five or fewer values are stable. For a positive older mean, rising exactly when the recent mean exceeds it by more than a twentieth of it, and falling exactly when it is that much below. For a negative older mean the two bands swap: a rise beyond a twentieth of the magnitude is reported falling |
| PredictionEngine.SignedChangeBands | src/hooks/usePredictionEngine.ts:144-147 | against a positive base a relative change above 5% (below -5%) is a change above (below minus) a twentieth of the base; against a negative base the two tests swap sides |
| PredictionEngine.RelativeChangeBands | src/hooks/usePredictionEngine.ts:144-147 | a relative change above 5% (below -5%) is an absolute change above (below minus) a twentieth of the base |
| PredictionEngine.TrendAgreesForNonNegativeBase | src/hooks/usePredictionEngine.ts:135-149 | the corrected trend and the trend as written agree whenever the older mean is not negative |
| PredictionEngine.SubzeroWarmingReportedFalling | src/hooks/usePredictionEngine.ts:144 | readings warming from -10 to -5 are reported falling as written, and rising by the corrected trend |
| PredictionEngine.CountAnomalies | src/hooks/usePredictionEngine.ts:159-166 | the counting loop returns the number of two-sigma outliers of the column |
| PredictionEngine.DetectAnomalies | src/hooks/usePredictionEngine.ts:151-170 | the sum of the outlier counts of the four columns, skipping empty columns |
| PredictionEngine.AnomalyCountBound | src/hooks/usePredictionEngine.ts:151-170 | four times the anomaly count is at most the number of non-null values, and strictly less when any value is present |
| PredictionEngine.CalculateVolatility | src/hooks/usePredictionEngine.ts:172-189 | the loop returns the corrected volatility: coefficients of variation of columns with at least two values, summed and divided by four |
| PredictionEngine.VolatilityAsWritten | src/hooks/usePredictionEngine.ts:172-189 | the source's volatility is not a finite number exactly when some column has at least two values and a zero mean |
| PredictionEngine.VolatilityTotalUndefined | src/hooks/usePredictionEngine.ts:177-186 | the running total is lost exactly when one of the columns seen so far has at least two values and a zero mean |
| PredictionEngine.VolatilityNonNegative | src/hooks/usePredictionEngine.ts:172-189 | the corrected volatility is never negative |
| PredictionEngine.VolatilityAgreesForPositiveMeans | src/hooks/usePredictionEngine.ts:183 | when every column with two or more values has a positive mean, the source's volatility is finite and equals the corrected one |
| PredictionEngine.CalmWindVolatilityNotFinite | src/hooks/usePredictionEngine.ts:178-188 | two readings with wind speed 0 make the source's volatility NaN, while the corrected volatility is 0 |
| PredictionEngine.EmptyDataIsNeutral | src/hooks/usePredictionEngine.ts:36-45 | the neutral summary returned for no data is also what the general path yields for no data |
| PredictionEngine.AnalyzePatterns | src/hooks/usePredictionEngine.ts:35-75 | the summary holds each column's trend, the anomaly count and the volatility (the corrected trend and volatility, see Left out); for empty data it is the neutral summary |
| PredictionEngine.HazardScore | src/hooks/usePredictionEngine.ts:192-277 | every hazard score lies in [0, 100] |
| PredictionEngine.AnomalyCapsAndFirstDay | src/hooks/usePredictionEngine.ts:205-208 | the anomaly terms stay below 25 (tsunami) and 40 (earthquake) and are linear up to five anomalies; day 1 carries no decay |
| PredictionEngine.DecayFactorShape | src/hooks/usePredictionEngine.ts:208 | the decay factor falls strictly with the day. It is positive exactly before day 11, 14, 10 or 8 (tsunami, earthquake, cyclone, severe weather) |
| PredictionEngine.HazardScoreVanishes | src/hooks/usePredictionEngine.ts:207-210 | with a non-negative raw sum, a score is 0 exactly when the sum is 0 or the day has reached the hazard's cutoff |
| PredictionEngine.DecayedMonotone | src/hooks/usePredictionEngine.ts:208-210 | a smaller decay factor never gives a larger clamped score for a non-negative sum |
| PredictionEngine.HazardScoreNonIncreasing | src/hooks/usePredictionEngine.ts:207-210 | with a non-negative raw sum, a hazard score never rises on a later day |
| PredictionEngine.PreDecayNonNegative | src/hooks/usePredictionEngine.ts:192-277 | non-negative volatility makes every raw hazard sum non-negative |
| PredictionEngine.TsunamiFirstDayExample | src/hooks/usePredictionEngine.ts:192-211 | falling pressure, rising temperature, five anomalies and volatility 0.3 give a day-1 tsunami score of 81 |
| PredictionEngine.CalculateTsunamiRisk | src/hooks/usePredictionEngine.ts:192-211 | the step-by-step accumulation returns the tsunami hazard score for the day |
| PredictionEngine.CalculateEarthquakeRisk | src/hooks/usePredictionEngine.ts:213-232 | the step-by-step accumulation returns the earthquake hazard score for the day |
| PredictionEngine.CalculateCycloneRisk | src/hooks/usePredictionEngine.ts:234-253 | the step-by-step accumulation returns the cyclone hazard score for the day |
| PredictionEngine.CalculateSevereWeatherRisk | src/hooks/usePredictionEngine.ts:255-277 | the step-by-step accumulation returns the severe-weather hazard score for the day |
| PredictionEngine.OverallRisk | src/hooks/usePredictionEngine.ts:91 | the overall risk is at least each hazard score and equal to one of them |
| PredictionEngine.OverallRiskIsMaximum | src/hooks/usePredictionEngine.ts:91 | the overall risk is the maximum over all hazards and lies in [0, 100] |
| PredictionEngine.NonStableTrends | src/hooks/usePredictionEngine.ts:286-291 | at most four; zero exactly when all four trends are stable |
| PredictionEngine.Confidence | src/hooks/usePredictionEngine.ts:279-301 | the confidence lies in [50, 95], so the lower clamp at 30 is never used |
| PredictionEngine.ConfidenceExample | src/hooks/usePredictionEngine.ts:279-301 | ten anomalies, two non-stable trends and volatility 0.2 give 95 |
| PredictionEngine.ConfidenceExtremes | src/hooks/usePredictionEngine.ts:279-301 | ten or more anomalies, two or more non-stable trends and moderate volatility give the maximum 95. With no anomalies and no trends the confidence is at most 65 |
| PredictionEngine.CalculateRisk | src/hooks/usePredictionEngine.ts:77-104 | the four hazard scores, their maximum as overall risk (at least each and one of them, in [0, 100]) and a confidence in [50, 95] |
| PredictionEngine.OverallRiskNonIncreasing | src/hooks/usePredictionEngine.ts:77-104 | with non-negative volatility the overall risk never rises on a later day |
| PredictionEngine.BandOf | src/hooks/usePredictionEngine.ts:109-125 | the advice band is chosen by the strict thresholds 70, 50 and 30, each band given as its interval |
| PredictionEngine.Advice | src/hooks/usePredictionEngine.ts:109-125 | every band has three lines of advice |
| PredictionEngine.AdviceIdentifiesBand | src/hooks/usePredictionEngine.ts:109-125 | different bands give different advice |
| PredictionEngine.BoundaryRiskSeventy | src/hooks/usePredictionEngine.ts:109-113 | a risk of exactly 70 gets the second band, and 30 the last |
| PredictionEngine.GenerateRecommendations | src/hooks/usePredictionEngine.ts:106-128 | the pushes produce the three lines of the overall risk's band |
| PredictionEngine.ForecastNonIncreasing | src/hooks/usePredictionEngine.ts:311-321 | forecasts for consecutive days from one summary with non-negative volatility have a non-increasing overall risk |
| PredictionEngine.GenerateWeeklyPredictions | src/hooks/usePredictionEngine.ts:304-324 | empty before the model is ready. Otherwise seven entries for days 1..7, all sharing the summary of the historical readings, each with that day's assessment and advice. The overall risk never increases along the week |
| RiskAssessment.PressureChangeRate | src/components/RiskAssessment.tsx:132-135 | six times the rate is the latest pressure minus the one five readings earlier (the first, for at most six readings); the rate is negative exactly when the pressure fell, and 0 for one reading |
| RiskAssessment.DropPoints | src/components/RiskAssessment.tsx:139-142 | 70, 50 or 30 points for a fall faster than 8, 5 or 3 hPa per hour, and none otherwise |
| RiskAssessment.LevelPoints | src/components/RiskAssessment.tsx:144-147 | 60 or 40 points below 970 or 980 hPa, 30 above 1040 hPa, and none in 980..1040 |
| RiskAssessment.PressureScore | src/components/RiskAssessment.tsx:126-150 | the pressure factor lies in [0, 100] and is 20 without pressure readings |
| RiskAssessment.CalculatePressureRisk | src/components/RiskAssessment.tsx:126-150 | the step-by-step scorer returns the pressure factor |
| RiskAssessment.RapidDeepDropSaturates | src/components/RiskAssessment.tsx:139-149 | a fall faster than 8 hPa per hour to below 980 hPa scores the full 100 |
| RiskAssessment.SteadyNormalPressureScoresZero | src/components/RiskAssessment.tsx:139-149 | a pressure falling no faster than 3 hPa per hour and within 980..1040 hPa scores 0 |
| RiskAssessment.FasterDropScoresAtLeast | src/components/RiskAssessment.tsx:132-149 | of two tables ending at the same pressure, the faster fall never scores less |
| RiskAssessment.TrendPoints | src/components/RiskAssessment.tsx:171-181 | nothing with five or fewer temperatures. Otherwise 25 points exactly when the recent and older means differ by more than 5 degrees, 15 exactly when they differ by more than 3 and at most 5, and none otherwise |
| RiskAssessment.AnomalyPointsBelowTwenty | src/components/RiskAssessment.tsx:164-169 | the anomaly points (share of outliers times 80) stay below 20 |
| RiskAssessment.TemperatureScore | src/components/RiskAssessment.tsx:152-184 | 15 without temperatures. Otherwise in [0, 45), and below 20 with five or fewer temperatures, so the cap at 100 is never used |
| RiskAssessment.CalculateTemperatureRisk | src/components/RiskAssessment.tsx:152-184 | the scorer, with its counting loop, returns the temperature factor |
| RiskAssessment.SteadyTemperatureScoresZero | src/components/RiskAssessment.tsx:152-184 | a temperature column of equal values scores 0 |
| RiskAssessment.SeismicScore | src/components/RiskAssessment.tsx:186-193 | the simulated seismic factor lies in [0, 100) |
| RiskAssessment.HistoricalScore | src/components/RiskAssessment.tsx:243-250 | the simulated historical factor lies in [0, 75) |
| RiskAssessment.SeaAnomalyPoints | src/components/RiskAssessment.tsx:208-211 | 40, 25 or 15 points when the mean is more than 3, 2 or 1 degrees from 26, and none otherwise |
| RiskAssessment.OceanScore | src/components/RiskAssessment.tsx:195-217 | the ocean factor lies in [0, 60) and is 10 without temperatures |
| RiskAssessment.CalculateOceanRisk | src/components/RiskAssessment.tsx:195-217 | the step-by-step scorer returns the ocean factor for the drawn current term |
| RiskAssessment.OceanScoreBands | src/components/RiskAssessment.tsx:208-216 | within a degree of 26 the ocean factor is below 20; more than three degrees away it is at least 40 |
| RiskAssessment.GustPoints | src/components/RiskAssessment.tsx:231-233 | 40, 25 or 15 points for a strongest wind above 25, 20 or 15, and none otherwise |
| RiskAssessment.SpreadPoints | src/components/RiskAssessment.tsx:236-238 | 20 or 10 points for a spread above 15 or 10, and none otherwise |
| RiskAssessment.WindScore | src/components/RiskAssessment.tsx:219-241 | the wind factor is 10 without wind readings and otherwise lies in [0, 60] |
| RiskAssessment.CalculateWindRisk | src/components/RiskAssessment.tsx:219-241 | the step-by-step scorer returns the wind factor |
| RiskAssessment.LightWindScoresZero | src/components/RiskAssessment.tsx:225-240 | winds that all stay within 0..10 score 0 |
| RiskAssessment.FactorsOf | src/components/RiskAssessment.tsx:38-87 | six values become the six factor records in factor order, each with its name, weight and description, status normal and the assessment time |
| RiskAssessment.ScoreValues | src/components/RiskAssessment.tsx:38-87 | every one of the six factor scores lies in [0, 100] |
| RiskAssessment.InitialFactors | src/components/RiskAssessment.tsx:38-87 | six factors named in factor order, with values in [0, 100], the weights 0.25, 0.20, 0.20, 0.15, 0.10, 0.10, status normal and the assessment time |
| RiskAssessment.ScoreFactors | src/components/RiskAssessment.tsx:38-87 | running the six scorers yields the initial factor list |
| RiskAssessment.StatusOf | src/components/RiskAssessment.tsx:90-95 | critical from 80, high in [60, 80), elevated in [40, 60), normal below 40 |
| RiskAssessment.AssignStatuses | src/components/RiskAssessment.tsx:90-95 | each factor in the array is replaced by itself with the status its value earns, and nothing else changes |
| RiskAssessment.WeightedScoreNonNegative | src/components/RiskAssessment.tsx:100 | factors with non-negative values and weights never give a negative weighted score |
| RiskAssessment.WeightedScoreBetween | src/components/RiskAssessment.tsx:100 | with non-negative weights, the weighted score lies between the smallest and largest value, each times the total weight |
| RiskAssessment.WeightedScoreOfEqualValues | src/components/RiskAssessment.tsx:100 | factors that all have value v score v times the total weight |
| RiskAssessment.SixEqualValuesScoreValue | src/components/RiskAssessment.tsx:42-100 | six factors with the panel's weights and one common value v score exactly v |
| RiskAssessment.FactorWeightsSumToOne | src/components/RiskAssessment.tsx:42-82 | the six factor weights add up to 1 |
| RiskAssessment.WeightedScoreInRange | src/components/RiskAssessment.tsx:100 | six weighted factors with values in [0, 100] have an overall score in [0, 100] |
| RiskAssessment.RiskLevel | src/components/RiskAssessment.tsx:103-107 | critical from 75, high in [55, 75), moderate in [35, 55), low below 35 |
| RiskAssessment.CountOver | src/components/RiskAssessment.tsx:260-264 | the number of factors above a bound is at most the number of factors |
| RiskAssessment.CountOverAntitone | src/components/RiskAssessment.tsx:260-264 | raising the bound never raises the count, so factors above 90 are also above 50 |
| RiskAssessment.AssessmentConfidence | src/components/RiskAssessment.tsx:252-268 | the confidence lies in [30, 85], so the upper clamp at 95 is never used. It is at least 35 for six factors, and at least 50 when no factor exceeds 90 |
| RiskAssessment.FindFactor | src/components/RiskAssessment.tsx:273-276 | a factor that `find` returns has the name looked for |
| RiskAssessment.FindFactorIsFirst | src/components/RiskAssessment.tsx:273-276 | `find` returns nothing exactly when no factor has the name, and otherwise the first factor with the name |
| RiskAssessment.IndicatedInOrder | src/components/RiskAssessment.tsx:278-289 | the indicated threats in order: tsunami (pressure above 70), severe weather (pressure above 50), earthquake (seismic above 50), cyclone (ocean above 50 and wind above 40) |
| RiskAssessment.PrimaryThreats | src/components/RiskAssessment.tsx:270-294 | one to four threats are named, never none |
| RiskAssessment.PrimaryThreatsNamed | src/components/RiskAssessment.tsx:270-294 | each threat appears exactly when its factors indicate it. "General Weather" appears only alone, and only when nothing else is indicated. A tsunami always comes with severe weather |
| RiskAssessment.IdentifyPrimaryThreats | src/components/RiskAssessment.tsx:270-294 | the pushes produce the indicated threats in order, or "General Weather" alone |
| RiskAssessment.Timeframe | src/components/RiskAssessment.tsx:296-309 | "6-24 hours" exactly for a critical level with a factor above 90; "1-3 days" for a critical level without one; "2-7 days", "1-2 weeks" and "2+ weeks" exactly for the high, moderate and low levels |
| RiskAssessment.NextHistory | src/components/RiskAssessment.tsx:122 | the new assessment first, followed by the first (newest) nine of the previous history, so at most ten entries |
| RiskAssessment.HistoryKeepsLatestTen | src/components/RiskAssessment.tsx:122 | after any sequence of assessments, the history is the ten most recent ones, newest first |
| RiskAssessment.Summary | src/components/RiskAssessment.tsx:100-119 | the level is that of the weighted score, the score and confidence are the rounded weighted score and assessment confidence, the threats are the primary threats (one to four), the timeframe is that of the level (a critical one exactly for the critical level and "2+ weeks" exactly for the low level), and the record carries the assessment time |
| RiskAssessment.SummaryBounds | src/components/RiskAssessment.tsx:100-119 | six weighted factors in [0, 100] give a rounded score in [0, 100] and a rounded confidence in [35, 85] |
| RiskAssessment.RiskAssessmentState.constructor | src/components/RiskAssessment.tsx:28-30 | the panel starts with no factors, no overall risk and an empty history |
| RiskAssessment.RiskAssessmentState.PerformRiskAssessment | src/components/RiskAssessment.tsx:33-123 | the panel holds the six scored factors labelled by status, the overall record derived from them (score in [0, 100], confidence in [35, 85]), and the history with the new record first. From any prior state it leaves the factors labelled, at most ten history entries, and the current record as the newest entry |
| WeeklyPrediction.LevelOf | src/components/WeeklyPrediction.tsx:65-77 | critical above 0.8, high in (0.6, 0.8], moderate in (0.3, 0.6], low at or below 0.3 |
| WeeklyPrediction.ThreatIndex | src/components/WeeklyPrediction.tsx:58-59 | a draw in [0, 1) picks a valid index into the four threats |
| WeeklyPrediction.GetTriggers | src/components/WeeklyPrediction.tsx:80-93 | three triggers for each of the four threats, and the single "Multiple climate factors" otherwise |
| WeeklyPrediction.GetRecommendations | src/components/WeeklyPrediction.tsx:96-104 | three recommendations; any name other than critical, high and moderate falls back to the low list |
| WeeklyPrediction.RecommendationsIdentifyLevel | src/components/WeeklyPrediction.tsx:96-104 | two levels get the same recommendations exactly when they are the same level |
| WeeklyPrediction.AnalyzeWeeklyRisk | src/components/WeeklyPrediction.tsx:51-114 | the day's level comes from the decayed base draw. The threat is the one the threat draw indexes, and its triggers are that threat's three triggers. The rounded probability lies in the level's range (75-95, 55-75, 25-55, 5-25), the confidence in [60, 90], and the recommendations are those of the level |
| WeeklyPrediction.AdjustedRisk | src/components/WeeklyPrediction.tsx:53-55 | day 0 keeps the base draw; for a non-negative base and days 0..10 the decayed risk lies between 0 and the base |
| WeeklyPrediction.AdjustedRiskNonIncreasing | src/components/WeeklyPrediction.tsx:53-55 | for a fixed base draw the decayed risk never rises on a later day |
| WeeklyPrediction.LevelNonIncreasing | src/components/WeeklyPrediction.tsx:53-77 | for a fixed base draw a later day never gets a more severe level |
| WeeklyPrediction.DayCeilings | src/components/WeeklyPrediction.tsx:53-77 | no day after the first is critical, no day from the fourth is high or critical, and day 7 is always low |
| WeeklyPrediction.WeekCeilings | src/components/WeeklyPrediction.tsx:26-48 | in any seven-day forecast only day 1 can be critical, and day 7 is low |
| WeeklyPrediction.GenerateWeeklyPredictions | src/components/WeeklyPrediction.tsx:26-48 | seven forecasts for days 1..7, each from its own draws and stamped with the analysis time. Only day 1 can be critical, and day 7 is low |
| TimestampDisplay.DiffInMinutes | src/components/TimestampDisplay.tsx:22 | the elapsed whole minutes, rounded down, also for timestamps in the future |
| TimestampDisplay.Bucket | src/components/TimestampDisplay.tsx:25-31 | each bucket with its exact minute range. The hours (1-23), days (1-6) or weeks (1 and up) shown are the floor of the elapsed time in that unit |
| TimestampDisplay.NatToString | src/components/TimestampDisplay.tsx:27-30 | a count is written as a decimal numeral without leading zeros |
| TimestampDisplay.ParseNatToString | src/components/TimestampDisplay.tsx:27-30 | reading back a written count gives the count |
| TimestampDisplay.GetRelativeTime | src/components/TimestampDisplay.tsx:25-31 | "Just now" exactly for less than one minute |
| TimestampDisplay.RelativeLabel | src/components/TimestampDisplay.tsx:19-72 | no label exactly when the timestamp does not parse, since the formatter fails on the ISO form of an invalid date. Otherwise the label of the elapsed minutes, which reads back as their bucket |
| TimestampDisplay.ReadAgo | src/components/TimestampDisplay.tsx:27-30 | a count-and-unit label reads back as that count and unit |
| TimestampDisplay.LabelReadsAsBucket | src/components/TimestampDisplay.tsx:25-31 | every label reads back as its minute count's bucket and whole number of units |
| TimestampDisplay.SameLabelSameBucket | src/components/TimestampDisplay.tsx:25-31 | two minute counts get the same label exactly when they fall in the same bucket |
| TimestampDisplay.FutureIsJustNow | src/components/TimestampDisplay.tsx:22-26 | a timestamp in the future is labelled "Just now" |

## Left out

- Fetching readings, the Supabase client and the data hook. `getHistoricalData(15)` is replaced by a `historicalData` parameter.
- The `!data` null checks. A missing table is the empty sequence, and the model has no null value besides a null column (None).
- React state, effects, timers, rendering, colours and icons. The risk panel's state is the class `RiskAssessmentState`. The engine's "model ready" flag is the parameter `modelReady`.
- `Math.random()`: every draw is a parameter in [0, 1). The range is stated by `IsDraw` / `ValidDraws`.
- `Math.sqrt` is a parameter `sqrt`. IEEE floating point is modelled as exact real arithmetic, and rounding error is not modelled.
- The current time (`new Date()`) and ISO timestamp strings are parameters.
- Date parsing (`new Date(ts)`) and locale formatting are left out. This includes `getFullTime`, `getDateOnly` and `getTimeOnly` in TimestampDisplay.tsx, and `date` and `fullDate` of the weekly forecast. An unparsable timestamp is the value None.
- The wind scorer computes an average wind speed and never uses it; the model leaves it out.
- `analyzeWeeklyRisk` ignores its readings argument, and `getRecommendations` ignores its threat argument. The model omits the first and keeps the second only as an unused parameter.
- `baseRecs[risk] || baseRecs.low` would also look up inherited object keys such as "toString". Such names never reach it, because the level is always one of the four names, and the model treats every other name as the fallback.
- The weekly forecast panel regenerates its forecast only once readings are loaded and non-empty. That effect (src/components/WeeklyPrediction.tsx:116-120) is left to the caller of `WeeklyPrediction.GenerateWeeklyPredictions`.
- The primary threats of the risk panel are values of the datatype `RiskAssessment.Threat` rather than strings; `RiskAssessment.ThreatName` gives the label the panel displays for each.
- The other dashboard components (alerts, live map, historical analysis, metrics, disaster prediction) are outside the modelled core.
- PredictionEngine.CalculateTrend: divides by the magnitude of the older mean. TrendAsWritten keeps the source's signed division (see Findings).
- PredictionEngine.CalculateVolatility: uses the magnitude of the mean and skips a zero mean. VolatilityAsWritten keeps the source's signed division with its non-finite results (see Findings).

## Findings

| source | as written | input that shows it | evidently intended | confidence | as-written member | corrected member |
|---|---|---|---|---|---|---|
| src/hooks/usePredictionEngine.ts:144 | the relative change is divided by the signed older mean | temperatures -10 (five readings) then -5 (five readings): the change is -50%, reported "falling" | the direction of the change is reported, so the divisor is the magnitude of the older mean | high, not executed | PredictionEngine.SubzeroWarmingReportedFalling (on PredictionEngine.TrendAsWritten) | PredictionEngine.CalculateTrend |
| src/hooks/usePredictionEngine.ts:183 | the coefficient of variation is `sqrt(variance) / mean` with the signed mean | two readings with wind speed 0: 0/0 is NaN, so the volatility and then the tsunami, earthquake and severe-weather scores are NaN; a negative-mean column (subzero temperatures) subtracts from the volatility | a finite, non-negative volatility: divide by the magnitude of the mean and skip a zero-mean column | medium, not executed | PredictionEngine.CalmWindVolatilityNotFinite (on PredictionEngine.VolatilityAsWritten) | PredictionEngine.CalculateVolatility, PredictionEngine.VolatilityNonNegative |
