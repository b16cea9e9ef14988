/**
 * The rule-based `Predicted_Cases` column:
 * Cases + round(0.02 * Rainfall) + round(0.5 * (Temp_Max - 28)), cast to int and
 * clipped below at 0. pandas rounds halves to the even neighbour.
 */
module Projection {
  import opened Tables
  import Cleaning

  const RainfallWeight: real := 0.02
  const TemperatureWeight: real := 0.5
  const TemperatureBaseline: real := 28.0

  /** `Series.round()`: the nearest integer, and the even one of two equally near. */
  function RoundHalfEven(x: real): (n: int)
    ensures n as real - 0.5 <= x <= n as real + 0.5
    ensures x - n as real == 0.5 || n as real - x == 0.5 ==> n % 2 == 0
  {
    var f := x.Floor;
    var frac := x - f as real;
    if frac < 0.5 then f
    else if frac > 0.5 then f + 1
    else if f % 2 == 0 then f
    else f + 1
  }

  /** Any integer that is nearest to x, choosing the even one on a tie, is `RoundHalfEven(x)`. */
  lemma RoundHalfEvenUnique(x: real, m: int)
    requires m as real - 0.5 <= x <= m as real + 0.5
    requires x - m as real == 0.5 || m as real - x == 0.5 ==> m % 2 == 0
    ensures m == RoundHalfEven(x)
  {
  }

  /** The rule's value in whole numbers, before the clip. */
  function RuleTotal(row: CombinedRow): int
  {
    row.cases + RoundHalfEven(RainfallWeight * row.rainfall)
      + RoundHalfEven(TemperatureWeight * (row.tempMax - TemperatureBaseline))
  }

  /**
   * Lines 95 to 99 for one row: the float sum, then `astype(int)`, then `clip(lower=0)`.
   * The sum of whole numbers survives the cast, so the result is the rule's value
   * when that is not negative and 0 otherwise.
   */
  function PredictedCases(row: CombinedRow): (p: int)
    ensures p >= 0
    ensures RuleTotal(row) >= 0 ==> p == RuleTotal(row)
    ensures RuleTotal(row) < 0 ==> p == 0
  {
    var total := row.cases as real
      + RoundHalfEven(RainfallWeight * row.rainfall) as real
      + RoundHalfEven(TemperatureWeight * (row.tempMax - TemperatureBaseline)) as real;
    assert total == RuleTotal(row) as real;
    Cleaning.TruncOfWhole(RuleTotal(row));
    var whole := Cleaning.TruncTowardZero(total);
    if whole < 0 then 0 else whole
  }

  /** `combined['Predicted_Cases'] = ...`: one new column, every other column unchanged. */
  function AddPredicted(combined: seq<CombinedRow>): (r: seq<ProjectedRow>)
    ensures |r| == |combined|
    ensures forall i :: 0 <= i < |r| ==> r[i].row == combined[i] && r[i].predictedCases == PredictedCases(combined[i])
    ensures forall i :: 0 <= i < |r| ==> r[i].predictedCases >= 0
  {
    seq(|combined|, i requires 0 <= i < |combined| => ProjectedRow(combined[i], PredictedCases(combined[i])))
  }

  /** 5 cases, 10 mm of rain and 30 degrees: 5 + round(0.2) + round(1.0) = 6. */
  lemma ExampleOfRule()
    ensures PredictedCases(CombinedRow(0, 5, map[], 30.0, 24.0, 10.0)) == 6
  {
    assert RoundHalfEven(RainfallWeight * 10.0) == 0;
    assert RoundHalfEven(TemperatureWeight * (30.0 - TemperatureBaseline)) == 1;
  }

  /** Halves go to the even neighbour: 25 mm gives round(0.5) = 0, 31 degrees round(1.5) = 2. */
  lemma ExampleOfTies()
    ensures PredictedCases(CombinedRow(0, 5, map[], 31.0, 24.0, 25.0)) == 7
  {
    assert RoundHalfEven(RainfallWeight * 25.0) == 0;
    assert RoundHalfEven(TemperatureWeight * (31.0 - TemperatureBaseline)) == 2;
  }

  /** Cold dry days cannot push the prediction below zero: 0 cases at 20 degrees gives 0, not -4. */
  lemma ExampleOfClip()
    ensures RuleTotal(CombinedRow(0, 0, map[], 20.0, 15.0, 0.0)) == -4
    ensures PredictedCases(CombinedRow(0, 0, map[], 20.0, 15.0, 0.0)) == 0
  {
    assert RoundHalfEven(RainfallWeight * 0.0) == 0;
    assert RoundHalfEven(TemperatureWeight * (20.0 - TemperatureBaseline)) == -4;
  }
}
