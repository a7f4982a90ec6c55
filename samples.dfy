/**
 * Readings as the scoring code sees them, and the small statistics that the
 * prediction engine and the risk assessment compute over them: sums and means
 * (the source's `reduce` expressions), population variance, and the count of
 * samples lying more than two standard deviations from the mean.
 */
module Samples {

  datatype Option<T> = None | Some(value: T)

  /** One row of the readings table. A column that is null in the row is None:
      every consumer maps a column over the rows and filters out the nulls. */
  datatype Reading = Reading(
    temperature: Option<real>,
    humidity: Option<real>,
    pressure: Option<real>,
    windSpeed: Option<real>)

  /** The four monitored columns, in the order the source lists them. */
  datatype Field = Temperature | Pressure | Humidity | WindSpeed

  const AllFields: seq<Field> := [Temperature, Pressure, Humidity, WindSpeed]

  function Column(r: Reading, f: Field): Option<real>
  {
    match f
    case Temperature => r.temperature
    case Pressure => r.pressure
    case Humidity => r.humidity
    case WindSpeed => r.windSpeed
  }

  /** `data.map(d => d[field]).filter(v => v !== null)`: the non-null values of a column, in row order. */
  function Values(data: seq<Reading>, f: Field): (vs: seq<real>)
    ensures |vs| <= |data|
    ensures data == [] ==> vs == []
  {
    if data == [] then []
    else
      var front := Values(data[..|data| - 1], f);
      match Column(data[|data| - 1], f)
      case None => front
      case Some(v) => front + [v]
  }

  /** The column's values are exactly its non-null entries: every value comes from
      some row, every non-null entry is among them, and a column without nulls keeps
      one value per row. */
  lemma {:induction false} ValuesAreNonNullEntries(data: seq<Reading>, f: Field)
    ensures forall v :: v in Values(data, f) <==> exists i :: 0 <= i < |data| && Column(data[i], f) == Some(v)
    ensures (forall i :: 0 <= i < |data| ==> Column(data[i], f).Some?) ==> |Values(data, f)| == |data|
  {
    if data != [] {
      var init, last := data[..|data| - 1], data[|data| - 1];
      ValuesAreNonNullEntries(init, f);
      assert forall i :: 0 <= i < |init| ==> init[i] == data[i];
      forall v
        ensures v in Values(data, f) <==> exists i :: 0 <= i < |data| && Column(data[i], f) == Some(v)
      {
        if exists i :: 0 <= i < |data| && Column(data[i], f) == Some(v) {
          var i :| 0 <= i < |data| && Column(data[i], f) == Some(v);
          if i < |init| {
            assert Column(init[i], f) == Some(v);
          }
        }
        if v in Values(init, f) {
          var i :| 0 <= i < |init| && Column(init[i], f) == Some(v);
          assert Column(data[i], f) == Some(v);
        }
      }
    }
  }

  /** A single row contributes its entry when it has one, and nothing when it is null. */
  lemma ValuesOfRow(r: Reading, f: Field)
    ensures Column(r, f).None? ==> Values([r], f) == []
    ensures Column(r, f).Some? ==> Values([r], f) == [Column(r, f).value]
  {
    assert [r][..0] == [];
  }

  /** The column of two tables one after the other is the first table's column
      followed by the second's: together with ValuesOfRow, the values keep the
      row order and each non-null entry appears once. */
  lemma {:induction false} ValuesOfConcat(a: seq<Reading>, b: seq<Reading>, f: Field)
    ensures Values(a + b, f) == Values(a, f) + Values(b, f)
  {
    if b == [] {
      assert a + b == a;
    } else {
      var front := b[..|b| - 1];
      ValuesOfConcat(a, front, f);
      assert (a + b)[..|a + b| - 1] == a + front;
      assert (a + b)[|a + b| - 1] == b[|b| - 1];
    }
  }

  /** `values.reduce((a, b) => a + b, 0)`. */
  function Sum(s: seq<real>): real
  {
    if s == [] then 0.0 else Sum(s[..|s| - 1]) + s[|s| - 1]
  }

  function Mean(s: seq<real>): real
    requires |s| > 0
  {
    Sum(s) / |s| as real
  }

  function Square(x: real): (r: real)
    ensures r >= 0.0
    ensures x == 0.0 ==> r == 0.0
  {
    if x >= 0.0 then x * x else (-x) * (-x)
  }

  /** `values.slice(-5)`: the last five values, or all of them when there are fewer. */
  function Recent(values: seq<real>): (r: seq<real>)
    ensures |r| == if |values| < 5 then |values| else 5
    ensures r == values[|values| - |r|..]
  {
    if |values| < 5 then values else values[|values| - 5..]
  }

  /** `values.slice(-10, -5)`: the up to five values before the last five. */
  function Older(values: seq<real>): (r: seq<real>)
    ensures |values| <= 5 ==> r == []
    ensures |values| > 5 ==> |r| == (if |values| < 10 then |values| - 5 else 5)
    ensures |values| > 5 ==> r == values[|values| - 5 - |r|..|values| - 5]
  {
    if |values| <= 5 then []
    else values[(if |values| < 10 then 0 else |values| - 10)..|values| - 5]
  }

  /** Sum of squared deviations from `m`. */
  function SqDev(s: seq<real>, m: real): (r: real)
    ensures r >= 0.0
  {
    if s == [] then 0.0 else SqDev(s[..|s| - 1], m) + Square(s[|s| - 1] - m)
  }

  /** Population variance: the mean of the squared deviations (the square of the source's `stdDev`). */
  function Variance(s: seq<real>): (r: real)
    requires |s| > 0
    ensures r >= 0.0
  {
    SqDev(s, Mean(s)) / |s| as real
  }

  /** `v` deviates from `m` by more than the square root of `t`. With `t` equal to
      four times the variance this is the source's test `|v - mean| > 2 * stdDev`
      (see OutlierTestMatchesSource). */
  predicate Outlying(v: real, m: real, t: real)
  {
    Square(v - m) > t
  }

  /** Number of values of `s` with `Outlying(v, m, t)`. */
  function CountAbove(s: seq<real>, m: real, t: real): (k: nat)
    ensures k <= |s|
  {
    if s == [] then 0
    else CountAbove(s[..|s| - 1], m, t) + (if Outlying(s[|s| - 1], m, t) then 1 else 0)
  }

  /** The anomalies of one column: values more than two standard deviations from its mean. */
  function Anomalies(s: seq<real>): (k: nat)
    requires |s| > 0
  {
    CountAbove(s, Mean(s), 4.0 * Variance(s))
  }

  /** `Math.sqrt`, which the model does not compute: a function that returns the
      non-negative square root of every non-negative number. */
  ghost predicate IsSquareRoot(sqrt: real -> real)
  {
    forall x :: 0.0 <= x ==> 0.0 <= sqrt(x) && sqrt(x) * sqrt(x) == x
  }

  function Abs(x: real): (r: real)
    ensures r >= 0.0 && (r == x || r == -x)
  {
    if x < 0.0 then -x else x
  }

  function Min(x: real, y: real): (r: real)
    ensures r <= x && r <= y && (r == x || r == y)
  {
    if x <= y then x else y
  }

  function Max(x: real, y: real): (r: real)
    ensures r >= x && r >= y && (r == x || r == y)
  {
    if x >= y then x else y
  }

  /** `Math.min(Math.max(x, lo), hi)`. */
  function Clamp(x: real, lo: real, hi: real): (r: real)
    requires lo <= hi
    ensures lo <= r <= hi
    ensures lo <= x <= hi ==> r == x
    ensures x < lo ==> r == lo
    ensures x > hi ==> r == hi
  {
    Min(Max(x, lo), hi)
  }

  lemma ClampMonotone(x: real, y: real, lo: real, hi: real)
    requires lo <= hi && x <= y
    ensures Clamp(x, lo, hi) <= Clamp(y, lo, hi)
  {
  }

  /** `Math.round`: the nearest integer, halves rounded up. */
  function Round(x: real): (n: int)
    ensures x - 0.5 < n as real <= x + 0.5
  {
    (x + 0.5).Floor
  }

  /** `Math.max(...s)` of a non-empty list. */
  function SeqMax(s: seq<real>): (r: real)
    requires |s| > 0
    ensures r in s
    ensures forall i :: 0 <= i < |s| ==> s[i] <= r
  {
    if |s| == 1 then s[0] else Max(SeqMax(s[..|s| - 1]), s[|s| - 1])
  }

  /** `Math.min(...s)` of a non-empty list. */
  function SeqMin(s: seq<real>): (r: real)
    requires |s| > 0
    ensures r in s
    ensures forall i :: 0 <= i < |s| ==> r <= s[i]
  {
    if |s| == 1 then s[0] else Min(SeqMin(s[..|s| - 1]), s[|s| - 1])
  }

  // ---------------------------------------------------------------------------
  // Facts about the statistics

  lemma {:induction false} SumOfConstant(s: seq<real>, c: real)
    requires forall i :: 0 <= i < |s| ==> s[i] == c
    ensures Sum(s) == |s| as real * c
  {
    if s != [] {
      SumOfConstant(s[..|s| - 1], c);
    }
  }

  /** The mean of a column whose values are all `c` is `c`. */
  lemma MeanOfConstant(s: seq<real>, c: real)
    requires |s| > 0
    requires forall i :: 0 <= i < |s| ==> s[i] == c
    ensures Mean(s) == c
  {
    SumOfConstant(s, c);
  }

  /** A threshold `t >= 0` that a value does not exceed: nothing equal to the centre is counted. */
  lemma {:induction false} NoneAboveAtCentre(s: seq<real>, c: real, t: real)
    requires t >= 0.0
    requires forall i :: 0 <= i < |s| ==> s[i] == c
    ensures CountAbove(s, c, t) == 0
  {
    if s != [] {
      NoneAboveAtCentre(s[..|s| - 1], c, t);
    }
  }

  /** A column whose values are all equal has no anomalies. */
  lemma ConstantHasNoAnomalies(s: seq<real>)
    requires |s| > 0
    requires forall i :: 0 <= i < |s| ==> s[i] == s[0]
    ensures Anomalies(s) == 0
  {
    MeanOfConstant(s, s[0]);
    NoneAboveAtCentre(s, s[0], 4.0 * Variance(s));
  }

  /** `t` for every value that `CountAbove` counts: the count scaled by `t`. */
  function WeightAbove(s: seq<real>, m: real, t: real): real
  {
    if s == [] then 0.0
    else WeightAbove(s[..|s| - 1], m, t) + (if Outlying(s[|s| - 1], m, t) then t else 0.0)
  }

  lemma {:induction false} WeightIsScaledCount(s: seq<real>, m: real, t: real)
    ensures WeightAbove(s, m, t) == CountAbove(s, m, t) as real * t
  {
    if s != [] {
      WeightIsScaledCount(s[..|s| - 1], m, t);
      var k := CountAbove(s[..|s| - 1], m, t) as real;
      assert (k + 1.0) * t == k * t + t;
    }
  }

  /** Each counted value contributes more than `t` to the squared deviations. */
  lemma {:induction false} CountedWeight(s: seq<real>, m: real, t: real)
    ensures WeightAbove(s, m, t) <= SqDev(s, m)
    ensures CountAbove(s, m, t) > 0 ==> WeightAbove(s, m, t) < SqDev(s, m)
  {
    if s != [] {
      CountedWeight(s[..|s| - 1], m, t);
    }
  }

  /** A positive product with a non-negative factor has a positive other factor. */
  lemma PositiveFactor(x: real, c: real)
    requires c >= 0.0
    ensures x * c > 0.0 ==> x > 0.0
  {
    if x <= 0.0 {
      assert x * c == -((-x) * c);
      assert (-x) * c >= 0.0;
    }
  }

  /** The arithmetic of the bound below: `k` values weighing more than `4v` each
      inside a total of `n * v` number fewer than `n / 4`. */
  lemma FewHeavyValues(k: real, n: real, v: real, total: real)
    requires k > 0.0 && v >= 0.0 && total == n * v && k * (4.0 * v) < total
    ensures 4.0 * k < n
  {
    assert (n - 4.0 * k) * v == total - k * (4.0 * v);
    PositiveFactor(n - 4.0 * k, v);
  }

  /** Chebyshev's inequality for the source's two-sigma test: fewer than a quarter
      of a column's values can be anomalies. */
  lemma AnomaliesUnderQuarter(s: seq<real>)
    requires |s| > 0
    ensures 4 * Anomalies(s) < |s|
  {
    var m, v := Mean(s), Variance(s);
    var k := Anomalies(s);
    CountedWeight(s, m, 4.0 * v);
    WeightIsScaledCount(s, m, 4.0 * v);
    if k > 0 {
      var n := |s| as real;
      var total := SqDev(s, m);
      assert total == n * v;
      FewHeavyValues(k as real, n, v, total);
    }
  }

  lemma SquareBelow(a: real, b: real)
    requires 0.0 <= a && 0.0 <= b
    ensures a > b <==> a * a > b * b
  {
    assert a * a - b * b == (a - b) * (a + b);
    if a > b {
      assert a + b > 0.0;
      assert (a - b) * (a + b) > 0.0;
    } else {
      assert a + b >= 0.0;
      assert (b - a) * (a + b) >= 0.0;
    }
  }

  /** The squared comparison used by the model agrees with the source's
      `Math.abs(v - mean) > 2 * stdDev` whenever `stdDev` is the square root of the variance. */
  lemma OutlierTestMatchesSource(sqrt: real -> real, v: real, m: real, variance: real)
    requires IsSquareRoot(sqrt)
    requires variance >= 0.0
    ensures Abs(v - m) > 2.0 * sqrt(variance) <==> Outlying(v, m, 4.0 * variance)
  {
    var sd := sqrt(variance);
    assert 0.0 <= sd && sd * sd == variance;
    SquareBelow(Abs(v - m), 2.0 * sd);
    assert Abs(v - m) * Abs(v - m) == Square(v - m);
    assert (2.0 * sd) * (2.0 * sd) == 4.0 * variance;
  }
}
