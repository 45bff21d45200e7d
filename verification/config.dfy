/**
 * The tunable parameters of the dice-roll committer: the global guarantee
 * switch, the per-hour quarter-hour probability matrix, the weekday/weekend
 * modifiers and the seasonal (per-month) modifiers, together with the values
 * the script's configuration class is meant to define. As written, that class
 * fails to define its matrix (see ConfigDefinition); DEFAULT_CONFIG is the
 * configuration its author evidently intended.
 */
module CommitConfig {

  /** The four quarter-hour probabilities of one hour (minutes 0-14, 15-29, 30-44, 45-59). */
  type QuarterProbs = s: seq<real> | |s| == 4 witness [0.0, 0.0, 0.0, 0.0]

  /** Configuration, read-only during an evaluation. */
  datatype Config = Config(
    guaranteeCommit: bool,
    probabilityMatrix: map<int, QuarterProbs>,
    weekdayModifier: real,
    weekendModifier: real,
    seasonalModifiers: map<int, real>)

  const BASE_PROBABILITY: real := 0.25
  const HALF_HOUR_DIP_PROBABILITY: real := 0.02

  /** The pattern every hour of the intended matrix uses: a dip in the third quarter. */
  const STANDARD_HOUR_PROBS: QuarterProbs :=
    [BASE_PROBABILITY, BASE_PROBABILITY, HALF_HOUR_DIP_PROBABILITY, BASE_PROBABILITY]

  const PROBABILITY_MATRIX: map<int, QuarterProbs> :=
    map hour | 0 <= hour < 24 :: STANDARD_HOUR_PROBS

  const WEEKDAY_MODIFIER: real := 1.0
  const WEEKEND_MODIFIER: real := 0.5

  const SEASONAL_MODIFIERS: map<int, real> := map[
    1 := 1.1, 2 := 1.0, 3 := 1.0, 4 := 1.1, 5 := 0.9, 6 := 0.8,
    7 := 0.7, 8 := 0.8, 9 := 1.1, 10 := 1.2, 11 := 1.25, 12 := 1.0]

  /** The configuration with the intended shipped values. */
  const DEFAULT_CONFIG: Config :=
    Config(false, PROBABILITY_MATRIX, WEEKDAY_MODIFIER, WEEKEND_MODIFIER, SEASONAL_MODIFIERS)

  /** Every probability and modifier of the configuration is non-negative. */
  predicate NonNegative(cfg: Config)
  {
    && (forall hour, q :: hour in cfg.probabilityMatrix && 0 <= q < 4 ==> 0.0 <= cfg.probabilityMatrix[hour][q])
    && 0.0 <= cfg.weekdayModifier
    && 0.0 <= cfg.weekendModifier
    && (forall month :: month in cfg.seasonalModifiers ==> 0.0 <= cfg.seasonalModifiers[month])
  }
}
