/**
 * How the multiplicative layers move the commit chance: for a configuration
 * whose probabilities and modifiers are non-negative, raising a modifier never
 * lowers the final threshold, so every draw that committed still commits.
 */
module ModifierProperties {
  import opened CommitConfig
  import opened DecisionEngine

  lemma MulMonotone(a: real, b: real, c: real)
    requires 0.0 <= a && b <= c
    ensures a * b <= a * c && b * a <= c * a
  {
    assert a * c - a * b == a * (c - b);
    assert b * a == a * b && c * a == a * c;
  }

  /** A product of three non-negative factors grows when each factor does. */
  lemma ProductMonotone(a: real, b: real, c: real, a': real, b': real, c': real)
    requires 0.0 <= a <= a' && 0.0 <= b <= b' && 0.0 <= c <= c'
    ensures a * b * c <= a' * b' * c'
  {
    MulMonotone(a, b, b');
    MulMonotone(b', a, a');
    assert a * b <= a' * b';
    MulMonotone(a, 0.0, b);
    MulMonotone(a * b, c, c');
    MulMonotone(c', a * b, a' * b');
  }

  lemma MulStrict(a: real, b: real, c: real)
    requires 0.0 < a && b < c
    ensures a * b < a * c && b * a < c * a
  {
    assert a * c - a * b == a * (c - b);
    assert b * a == a * b && c * a == a * c;
  }

  /** With equal positive outer factors, a larger middle factor gives a strictly larger product. */
  lemma ProductStrictInMiddle(b: real, d: real, s: real, b': real, d': real, s': real)
    requires 0.0 < b && b == b' && 0.0 < s && s == s' && 0.0 <= d < d'
    ensures 0.0 <= b * d * s < b' * d' * s'
  {
    MulStrict(b, d, d');
    MulStrict(s, b * d, b * d');
    MulMonotone(b, 0.0, d);
    MulMonotone(b * d, 0.0, s);
  }

  /** Below 1, a clamped value grows strictly with its argument. */
  lemma ClampStrict(x: real, y: real)
    requires 0.0 <= x < y && x < 1.0
    ensures Clamp(x) < Clamp(y)
  {
  }

  lemma ClampMonotone(x: real, y: real)
    requires x <= y
    ensures Clamp(x) <= Clamp(y)
  {
  }

  /** Each layer of a non-negative configuration is non-negative. */
  lemma LayersNonNegative(cfg: Config, now: UtcTime)
    requires NonNegative(cfg)
    ensures 0.0 <= BaseProbability(cfg, now.hour, QuarterIndex(now.minute))
    ensures 0.0 <= DayModifier(cfg, now.weekday)
    ensures 0.0 <= SeasonalModifier(cfg, now.month)
  {
    var q := QuarterIndex(now.minute);
    if now.hour in cfg.probabilityMatrix {
      assert 0.0 <= cfg.probabilityMatrix[now.hour][q];
    }
    if now.month in cfg.seasonalModifiers {
      assert 0.0 <= cfg.seasonalModifiers[now.month];
    }
  }

  /**
   * A configuration whose three layers are each at least as large at `now`
   * has at least as large a threshold, so every draw that commits under the
   * smaller one commits under the larger one too.
   */
  lemma LayerwiseMonotone(cfg: Config, other: Config, now: UtcTime, roll: real)
    requires 0.0 <= BaseProbability(cfg, now.hour, QuarterIndex(now.minute)) <= BaseProbability(other, now.hour, QuarterIndex(now.minute))
    requires 0.0 <= DayModifier(cfg, now.weekday) <= DayModifier(other, now.weekday)
    requires 0.0 <= SeasonalModifier(cfg, now.month) <= SeasonalModifier(other, now.month)
    requires cfg.guaranteeCommit == other.guaranteeCommit
    ensures FinalThreshold(cfg, now) <= FinalThreshold(other, now)
    ensures GetCommitDecision(cfg, now, roll).shouldCommit ==> GetCommitDecision(other, now, roll).shouldCommit
  {
    var q := QuarterIndex(now.minute);
    ProductMonotone(BaseProbability(cfg, now.hour, q), DayModifier(cfg, now.weekday), SeasonalModifier(cfg, now.month),
                    BaseProbability(other, now.hour, q), DayModifier(other, now.weekday), SeasonalModifier(other, now.month));
    ClampMonotone(RawThreshold(cfg, now), RawThreshold(other, now));
  }

  /**
   * Replacing the current month's seasonal modifier by a larger one never
   * lowers the threshold, and a draw that committed still commits.
   */
  lemma RaisingSeasonalModifierNeverLowers(cfg: Config, now: UtcTime, m: real, roll: real)
    requires NonNegative(cfg)
    requires SeasonalModifier(cfg, now.month) <= m
    ensures var raised := cfg.(seasonalModifiers := cfg.seasonalModifiers[now.month := m]);
      && FinalThreshold(cfg, now) <= FinalThreshold(raised, now)
      && (GetCommitDecision(cfg, now, roll).shouldCommit ==> GetCommitDecision(raised, now, roll).shouldCommit)
  {
    var raised := cfg.(seasonalModifiers := cfg.seasonalModifiers[now.month := m]);
    LayersNonNegative(cfg, now);
    assert SeasonalModifier(raised, now.month) == m;
    LayerwiseMonotone(cfg, raised, now, roll);
  }

  /**
   * Replacing the weekday and weekend modifiers by larger ones never lowers the
   * threshold, and a draw that committed still commits. The increase need not
   * be strict: a zero base probability, or a threshold already clamped at 1,
   * stays where it is.
   */
  lemma RaisingDayModifierNeverLowers(cfg: Config, now: UtcTime, weekdayMod: real, weekendMod: real, roll: real)
    requires NonNegative(cfg)
    requires cfg.weekdayModifier <= weekdayMod && cfg.weekendModifier <= weekendMod
    ensures var raised := cfg.(weekdayModifier := weekdayMod, weekendModifier := weekendMod);
      && FinalThreshold(cfg, now) <= FinalThreshold(raised, now)
      && (GetCommitDecision(cfg, now, roll).shouldCommit ==> GetCommitDecision(raised, now, roll).shouldCommit)
  {
    var raised := cfg.(weekdayModifier := weekdayMod, weekendModifier := weekendMod);
    LayersNonNegative(cfg, now);
    LayerwiseMonotone(cfg, raised, now, roll);
  }

  /**
   * Two configurations that agree on the positive base probability and
   * seasonal modifier at `now` but differ in the day modifier: the larger
   * modifier gives the strictly larger threshold, unless the smaller one is
   * already clamped at 1.
   */
  lemma DayLayerStrict(cfg: Config, other: Config, now: UtcTime)
    requires 0.0 < BaseProbability(cfg, now.hour, QuarterIndex(now.minute)) == BaseProbability(other, now.hour, QuarterIndex(now.minute))
    requires 0.0 < SeasonalModifier(cfg, now.month) == SeasonalModifier(other, now.month)
    requires 0.0 <= DayModifier(cfg, now.weekday) < DayModifier(other, now.weekday)
    requires RawThreshold(cfg, now) < 1.0
    ensures FinalThreshold(cfg, now) < FinalThreshold(other, now)
  {
    var q := QuarterIndex(now.minute);
    ProductStrictInMiddle(BaseProbability(cfg, now.hour, q), DayModifier(cfg, now.weekday), SeasonalModifier(cfg, now.month),
                          BaseProbability(other, now.hour, q), DayModifier(other, now.weekday), SeasonalModifier(other, now.month));
    ClampStrict(RawThreshold(cfg, now), RawThreshold(other, now));
  }

  /**
   * The modifier of the current kind of day changes the chance strictly, as
   * the configuration's comments promise ("> 1.0 increases chance, < 1.0
   * decreases it"), exactly where nothing masks it: the base probability and
   * the seasonal modifier are positive and the threshold is not already
   * clamped at 1. Comparing a modifier above 1.0 with the neutral 1.0 is the
   * case `DayModifier(cfg, now.weekday) == 1.0 < m`; one below 1.0 against
   * the neutral 1.0 is the case `m == 1.0`.
   */
  lemma ChangingDayModifierIsStrict(cfg: Config, now: UtcTime, m: real)
    requires NonNegative(cfg)
    requires DayModifier(cfg, now.weekday) < m
    requires 0.0 < BaseProbability(cfg, now.hour, QuarterIndex(now.minute))
    requires 0.0 < SeasonalModifier(cfg, now.month)
    requires RawThreshold(cfg, now) < 1.0
    ensures var raised := if IsWeekend(now.weekday) then cfg.(weekendModifier := m) else cfg.(weekdayModifier := m);
      FinalThreshold(cfg, now) < FinalThreshold(raised, now)
  {
    var raised := if IsWeekend(now.weekday) then cfg.(weekendModifier := m) else cfg.(weekdayModifier := m);
    LayersNonNegative(cfg, now);
    assert BaseProbability(raised, now.hour, QuarterIndex(now.minute)) == BaseProbability(cfg, now.hour, QuarterIndex(now.minute));
    assert SeasonalModifier(raised, now.month) == SeasonalModifier(cfg, now.month);
    assert DayModifier(raised, now.weekday) == m;
    DayLayerStrict(cfg, raised, now);
  }
}
