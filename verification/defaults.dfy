/**
 * What the configuration with the intended shipped values does: its
 * threshold never needs clamping, every hour off the multiple-of-3 rule keeps
 * a commit chance between 0.7% and 31.25%, and worked examples of each path.
 */
module DefaultConfigProperties {
  import opened CommitConfig
  import opened DecisionDetails
  import opened DecisionEngine
  import opened ModifierProperties

  /** Lower and upper bounds of a product of three non-negative bounded factors. */
  lemma ProductBounds(a: real, b: real, c: real, aLo: real, aHi: real, bLo: real, bHi: real, cLo: real, cHi: real)
    requires 0.0 <= aLo <= a <= aHi
    requires 0.0 <= bLo <= b <= bHi
    requires 0.0 <= cLo <= c <= cHi
    ensures aLo * bLo * cLo <= a * b * c <= aHi * bHi * cHi
  {
    ProductMonotone(aLo, bLo, cLo, a, b, c);
    ProductMonotone(a, b, c, aHi, bHi, cHi);
  }

  /**
   * Every probability and modifier of the intended configuration is
   * non-negative, so the monotonicity lemmas of ModifierProperties apply to it.
   */
  lemma DefaultConfigNonNegative()
    ensures NonNegative(DEFAULT_CONFIG)
  {
  }

  /** Every month of the seasonal table lies between 0.7 and 1.25. */
  lemma SeasonalRange(month: int)
    requires 1 <= month <= 12
    ensures 0.7 <= SeasonalModifier(DEFAULT_CONFIG, month) <= 1.25
  {
  }

  /**
   * With the intended shipped values the probabilistic path never clamps: the
   * threshold is the plain product of the layers, at least 0.02 * 0.5 * 0.7
   * and at most 0.25 * 1.0 * 1.25.
   */
  lemma DefaultThresholdRange(now: UtcTime)
    requires now.Valid()
    ensures FinalThreshold(DEFAULT_CONFIG, now) == RawThreshold(DEFAULT_CONFIG, now)
    ensures 0.007 <= FinalThreshold(DEFAULT_CONFIG, now) <= 0.3125
  {
    var q := QuarterIndex(now.minute);
    var b := BaseProbability(DEFAULT_CONFIG, now.hour, q);
    var d := DayModifier(DEFAULT_CONFIG, now.weekday);
    var s := SeasonalModifier(DEFAULT_CONFIG, now.month);
    assert now.hour in PROBABILITY_MATRIX;
    assert b == STANDARD_HOUR_PROBS[q];
    assert 0.02 <= b <= 0.25;
    assert 0.5 <= d <= 1.0;
    SeasonalRange(now.month);
    ProductBounds(b, d, s, 0.02, 0.25, 0.5, 1.0, 0.7, 1.25);
  }

  /** 2024-03-14T06:10Z: hour 6 is a multiple of 3, so the run commits whatever the draw. */
  lemma ScenarioMultipleOf3(roll: real)
    ensures var d := GetCommitDecision(DEFAULT_CONFIG, UtcTime("2024-03-14T06:10:00+00:00", 6, 10, 3, 3), roll);
      d.shouldCommit && d.reason == HourMultipleOf3(6)
  {
  }

  /** 2024-07-01T14:20Z, a Monday in July: threshold 0.25 * 1.0 * 0.7 = 0.175. */
  lemma ScenarioJulyWeekday()
    ensures var now := UtcTime("2024-07-01T14:20:00+00:00", 14, 20, 0, 7);
      && FinalThreshold(DEFAULT_CONFIG, now) == 0.175
      && GetCommitDecision(DEFAULT_CONFIG, now, 0.10).shouldCommit
      && !GetCommitDecision(DEFAULT_CONFIG, now, 0.30).shouldCommit
  {
  }

  /** A Saturday in January at 14:35, in the dip quarter: threshold 0.02 * 0.5 * 1.1 = 0.011. */
  lemma ScenarioJanuaryWeekendDip()
    ensures var now := UtcTime("2024-01-06T14:35:00+00:00", 14, 35, 5, 1);
      && FinalThreshold(DEFAULT_CONFIG, now) == 0.011
      && GetCommitDecision(DEFAULT_CONFIG, now, 0.5).reason == RollFailed(true, 3, 0.011)
  {
  }
}
