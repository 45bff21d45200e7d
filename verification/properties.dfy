/**
 * Properties of the decision engine for every configuration: precedence of
 * the two overrides, the quarter-hour partition, the table defaults, the
 * threshold's range, the commit rule and the details each path records.
 */
module EngineProperties {
  import opened CommitConfig
  import opened DecisionDetails
  import opened DecisionEngine

  /** The guarantee commits and records mode "guaranteed", and the draw plays no part in the result. */
  lemma GuaranteeOverride(cfg: Config, now: UtcTime, roll: real, otherRoll: real)
    requires cfg.guaranteeCommit
    ensures var d := GetCommitDecision(cfg, now, roll);
      && d.shouldCommit
      && Get(d.details, "mode") == Some(StrValue("guaranteed"))
      && Get(d.details, "timestamp") == Some(StrValue(now.iso))
      && d == GetCommitDecision(cfg, now, otherRoll)
  {
    DetailsAreADictionary(cfg, now, roll);
  }

  /**
   * Without the guarantee, an hour that is a multiple of 3 commits with mode
   * "multiple_of_3" and records the hour; minute, weekday, month and draw play
   * no part in the result.
   */
  lemma MultipleOf3Override(cfg: Config, now: UtcTime, roll: real, other: UtcTime, otherRoll: real)
    requires !cfg.guaranteeCommit && now.hour % 3 == 0
    requires other.hour == now.hour
    ensures var d := GetCommitDecision(cfg, now, roll);
      && d.shouldCommit
      && Get(d.details, "mode") == Some(StrValue("multiple_of_3"))
      && Get(d.details, "hour_utc") == Some(IntValue(now.hour))
      && d == GetCommitDecision(cfg, other, otherRoll)
  {
    DetailsAreADictionary(cfg, now, roll);
  }

  /** Every minute of an hour falls in exactly one quarter. */
  lemma QuarterPartition(minute: int, q: int)
    requires 0 <= minute < 60 && 0 <= q < 4
    ensures 15 * q <= minute < 15 * q + 15 <==> QuarterIndex(minute) == q
  {
  }

  /** The weekend modifier applies exactly on Saturday and Sunday. */
  lemma WeekendSelection(cfg: Config, weekday: int)
    requires 0 <= weekday < 7
    ensures IsWeekend(weekday) <==> weekday == 5 || weekday == 6
    ensures DayModifier(cfg, weekday) == if weekday >= 5 then cfg.weekendModifier else cfg.weekdayModifier
  {
  }

  /** An hour missing from the matrix has base probability 0; a missing month has modifier 1.0. */
  lemma TableDefaults(cfg: Config, hour: int, month: int, quarter: int)
    requires 0 <= quarter < 4
    ensures hour !in cfg.probabilityMatrix ==> BaseProbability(cfg, hour, quarter) == 0.0
    ensures hour in cfg.probabilityMatrix ==> BaseProbability(cfg, hour, quarter) == cfg.probabilityMatrix[hour][quarter]
    ensures month !in cfg.seasonalModifiers ==> SeasonalModifier(cfg, month) == 1.0
    ensures month in cfg.seasonalModifiers ==> SeasonalModifier(cfg, month) == cfg.seasonalModifiers[month]
  {
  }

  /** With a zero base probability (an hour missing from the matrix, say) no draw in [0, 1) commits. */
  lemma ZeroBaseNeverCommits(cfg: Config, now: UtcTime, roll: real)
    requires !cfg.guaranteeCommit && now.hour % 3 != 0
    requires BaseProbability(cfg, now.hour, QuarterIndex(now.minute)) == 0.0
    requires 0.0 <= roll
    ensures !GetCommitDecision(cfg, now, roll).shouldCommit
  {
    assert RawThreshold(cfg, now) == 0.0;
  }

  /** On the probabilistic path the threshold is the product of the three layers whenever that is a probability. */
  lemma ThresholdIsClampedProduct(cfg: Config, now: UtcTime)
    ensures 0.0 <= FinalThreshold(cfg, now) <= 1.0
    ensures var p := BaseProbability(cfg, now.hour, QuarterIndex(now.minute))
                     * DayModifier(cfg, now.weekday) * SeasonalModifier(cfg, now.month);
      && (0.0 <= p <= 1.0 ==> FinalThreshold(cfg, now) == p)
      && (p < 0.0 ==> FinalThreshold(cfg, now) == 0.0)
      && (1.0 < p ==> FinalThreshold(cfg, now) == 1.0)
  {
  }

  /**
   * On the probabilistic path the run commits exactly when the draw is below
   * the threshold, the details carry no mode, and the outcome is "success"
   * exactly when the run commits and "failure" otherwise.
   */
  lemma ProbabilisticOutcome(cfg: Config, now: UtcTime, roll: real)
    requires !cfg.guaranteeCommit && now.hour % 3 != 0
    ensures var d := GetCommitDecision(cfg, now, roll);
      && (d.shouldCommit <==> roll < FinalThreshold(cfg, now))
      && Get(d.details, "mode") == None
      && Get(d.details, "outcome") == Some(StrValue(if d.shouldCommit then "success" else "failure"))
  {
    var d := GetCommitDecision(cfg, now, roll);
    DetailsAreADictionary(cfg, now, roll);
    GetAt(d.details, 8);
  }

  /** The probabilistic path records the clock reading, the weekend flag and the 1-based quarter. */
  lemma ProbabilisticTimeDetails(cfg: Config, now: UtcTime, roll: real)
    requires !cfg.guaranteeCommit && now.hour % 3 != 0
    ensures var d := GetCommitDecision(cfg, now, roll);
      && Get(d.details, "timestamp_utc") == Some(StrValue(now.iso))
      && Get(d.details, "is_weekend") == Some(BoolValue(now.weekday >= 5))
      && Get(d.details, "quarter_of_hour") == Some(IntValue(QuarterIndex(now.minute) + 1))
  {
    var d := GetCommitDecision(cfg, now, roll);
    DetailsAreADictionary(cfg, now, roll);
    GetAt(d.details, 0);
    GetAt(d.details, 1);
    GetAt(d.details, 2);
  }

  /** The probabilistic path records every factor of the threshold, the threshold and the draw. */
  lemma ProbabilisticFactorDetails(cfg: Config, now: UtcTime, roll: real)
    requires !cfg.guaranteeCommit && now.hour % 3 != 0
    ensures var d := GetCommitDecision(cfg, now, roll);
      && Get(d.details, "base_probability") == Some(RealValue(BaseProbability(cfg, now.hour, QuarterIndex(now.minute))))
      && Get(d.details, "weekday_modifier") == Some(RealValue(DayModifier(cfg, now.weekday)))
      && Get(d.details, "seasonal_modifier") == Some(RealValue(SeasonalModifier(cfg, now.month)))
      && Get(d.details, "final_threshold") == Some(RealValue(FinalThreshold(cfg, now)))
      && Get(d.details, "roll") == Some(RealValue(roll))
  {
    var d := GetCommitDecision(cfg, now, roll);
    DetailsAreADictionary(cfg, now, roll);
    GetAt(d.details, 3);
    GetAt(d.details, 4);
    GetAt(d.details, 5);
    GetAt(d.details, 6);
    GetAt(d.details, 7);
  }

  /** Every decision's details form a dictionary: no key occurs twice, so `Get` reads each entry back. */
  lemma DetailsAreADictionary(cfg: Config, now: UtcTime, roll: real)
    ensures DistinctKeys(GetCommitDecision(cfg, now, roll).details)
    ensures var e := GetCommitDecision(cfg, now, roll).details;
      forall i :: 0 <= i < |e| ==> Get(e, e[i].0) == Some(e[i].1)
  {
    var e := GetCommitDecision(cfg, now, roll).details;
    forall i | 0 <= i < |e| ensures Get(e, e[i].0) == Some(e[i].1) {
      GetAt(e, i);
    }
  }

  /** A smaller draw commits whenever a larger one does: the committing draws form [0, threshold). */
  lemma CommitIsDownwardClosed(cfg: Config, now: UtcTime, low: real, high: real)
    requires low <= high
    requires GetCommitDecision(cfg, now, high).shouldCommit
    ensures GetCommitDecision(cfg, now, low).shouldCommit
  {
  }

  /** The two overrides and the probabilistic path never contradict: the decision commits iff one of them says so. */
  lemma DecisionCases(cfg: Config, now: UtcTime, roll: real)
    ensures GetCommitDecision(cfg, now, roll).shouldCommit
      <==> cfg.guaranteeCommit || now.hour % 3 == 0 || roll < FinalThreshold(cfg, now)
  {
  }
}
