/**
 * The commit decision engine: maps one UTC clock reading, the configuration
 * and one random draw to a decision with its explanation. The steps run in a
 * fixed order and the first that applies decides: the configuration's
 * guarantee, the multiple-of-3 hour rule, then the probabilistic path
 * (quarter-hour base probability times the weekday/weekend and seasonal
 * modifiers, clamped to [0, 1] and compared with the draw).
 */
module DecisionEngine {
  import opened CommitConfig
  import opened DecisionDetails

  /**
   * The clock reading the engine consumes, in UTC. `iso` is the ISO-8601
   * rendering of the instant, carried into the details as an opaque string.
   * `weekday` counts from Monday = 0 to Sunday = 6.
   */
  datatype UtcTime = UtcTime(iso: string, hour: int, minute: int, weekday: int, month: int)
  {
    /** The ranges a calendar clock reading always falls in. */
    predicate Valid()
    {
      0 <= hour < 24 && 0 <= minute < 60 && 0 <= weekday < 7 && 1 <= month <= 12
    }
  }

  /** Why the decision came out as it did; `quarter` is 1-based, as displayed. */
  datatype Reason =
    | GuaranteedByConfig
    | HourMultipleOf3(hour: int)
    | RollSucceeded(weekend: bool, quarter: int, threshold: real)
    | RollFailed(weekend: bool, quarter: int, threshold: real)

  datatype CommitDecision = CommitDecision(shouldCommit: bool, reason: Reason, details: Entries)

  /** The quarter-hour bucket of a minute, 0 to 3; anything outside 0-44 falls in the last one. */
  function QuarterIndex(minute: int): (q: int)
    ensures 0 <= q <= 3
    ensures 0 <= minute < 60 ==> q == minute / 15 && 15 * q <= minute < 15 * q + 15
    ensures minute < 0 || 45 <= minute ==> q == 3
  {
    if 0 <= minute <= 14 then 0
    else if 15 <= minute <= 29 then 1
    else if 30 <= minute <= 44 then 2
    else 3
  }

  /** Base probability of an hour's quarter; an hour missing from the matrix has all four at zero. */
  function BaseProbability(cfg: Config, hour: int, quarter: int): (p: real)
    requires 0 <= quarter < 4
    ensures hour !in cfg.probabilityMatrix ==> p == 0.0
    ensures hour in cfg.probabilityMatrix ==> p == cfg.probabilityMatrix[hour][quarter]
  {
    var probs: QuarterProbs := if hour in cfg.probabilityMatrix then cfg.probabilityMatrix[hour] else [0.0, 0.0, 0.0, 0.0];
    probs[quarter]
  }

  /** Saturday (5) and Sunday (6) are the weekend. */
  predicate IsWeekend(weekday: int)
    ensures 0 <= weekday < 7 ==> (IsWeekend(weekday) <==> weekday == 5 || weekday == 6)
  {
    weekday >= 5
  }

  /** The weekend modifier on a weekend day, the weekday modifier otherwise. */
  function DayModifier(cfg: Config, weekday: int): (m: real)
    ensures 0 <= weekday < 5 ==> m == cfg.weekdayModifier
    ensures 5 <= weekday < 7 ==> m == cfg.weekendModifier
  {
    if IsWeekend(weekday) then cfg.weekendModifier else cfg.weekdayModifier
  }

  /** The month's seasonal modifier; an unmapped month leaves the probability unchanged. */
  function SeasonalModifier(cfg: Config, month: int): (m: real)
    ensures month !in cfg.seasonalModifiers ==> m == 1.0
    ensures month in cfg.seasonalModifiers ==> m == cfg.seasonalModifiers[month]
  {
    if month in cfg.seasonalModifiers then cfg.seasonalModifiers[month] else 1.0
  }

  /** The product of the three layers, before clamping. */
  function RawThreshold(cfg: Config, now: UtcTime): (r: real)
    ensures BaseProbability(cfg, now.hour, QuarterIndex(now.minute)) == 0.0 ==> r == 0.0
    ensures DayModifier(cfg, now.weekday) == 1.0 && SeasonalModifier(cfg, now.month) == 1.0 ==>
      r == BaseProbability(cfg, now.hour, QuarterIndex(now.minute))
  {
    BaseProbability(cfg, now.hour, QuarterIndex(now.minute))
      * DayModifier(cfg, now.weekday)
      * SeasonalModifier(cfg, now.month)
  }

  function Min(a: real, b: real): real { if a <= b then a else b }
  function Max(a: real, b: real): real { if a >= b then a else b }

  /** max(0.0, min(1.0, x)): the nearest probability to x. */
  function Clamp(x: real): (r: real)
    ensures 0.0 <= r <= 1.0
    ensures 0.0 <= x <= 1.0 ==> r == x
    ensures x < 0.0 ==> r == 0.0
    ensures 1.0 < x ==> r == 1.0
  {
    Max(0.0, Min(1.0, x))
  }

  /** The probability the draw is compared with. */
  function FinalThreshold(cfg: Config, now: UtcTime): (t: real)
    ensures 0.0 <= t <= 1.0
    ensures 0.0 <= RawThreshold(cfg, now) <= 1.0 ==> t == RawThreshold(cfg, now)
  {
    Clamp(RawThreshold(cfg, now))
  }

  /** The keys of the probabilistic path's details, in the order the source inserts them. */
  const PROBABILISTIC_KEYS: seq<string> :=
    ["timestamp_utc", "is_weekend", "quarter_of_hour", "base_probability",
     "weekday_modifier", "seasonal_modifier", "final_threshold", "roll", "outcome"]

  lemma ProbabilisticKeysAreDistinct()
    ensures |PROBABILISTIC_KEYS| == 9
    ensures forall i, j :: 0 <= i < j < 9 ==> PROBABILISTIC_KEYS[i] != PROBABILISTIC_KEYS[j]
    ensures forall i :: 0 <= i < 9 ==> PROBABILISTIC_KEYS[i] != "mode"
  {
    var k := PROBABILISTIC_KEYS;
    forall i, j | 0 <= i < j < 9 ensures k[i] != k[j] {
      assert k[i] != k[j];
    }
    forall i | 0 <= i < 9 ensures k[i] != "mode" {
      assert k[i] != "mode";
    }
  }

  /**
   * The details of the probabilistic path: a dictionary (no key twice) whose
   * keys are those of PROBABILISTIC_KEYS in that order, the last one the
   * outcome label.
   */
  function ProbabilisticDetails(cfg: Config, now: UtcTime, roll: real, success: bool): (e: Entries)
    ensures |e| == |PROBABILISTIC_KEYS| && forall i :: 0 <= i < |e| ==> e[i].0 == PROBABILISTIC_KEYS[i]
    ensures DistinctKeys(e)
    ensures Get(e, "mode") == None
    ensures e[8] == ("outcome", StrValue(if success then "success" else "failure"))
  {
    ProbabilisticKeysAreDistinct();
    [ ("timestamp_utc", StrValue(now.iso)),
      ("is_weekend", BoolValue(IsWeekend(now.weekday))),
      ("quarter_of_hour", IntValue(QuarterIndex(now.minute) + 1)),
      ("base_probability", RealValue(BaseProbability(cfg, now.hour, QuarterIndex(now.minute)))),
      ("weekday_modifier", RealValue(DayModifier(cfg, now.weekday))),
      ("seasonal_modifier", RealValue(SeasonalModifier(cfg, now.month))),
      ("final_threshold", RealValue(FinalThreshold(cfg, now))),
      ("roll", RealValue(roll)),
      ("outcome", StrValue(if success then "success" else "failure")) ]
  }

  /** One evaluation of the decision rules at clock reading `now` with random draw `roll`. */
  function GetCommitDecision(cfg: Config, now: UtcTime, roll: real): (d: CommitDecision)
    ensures cfg.guaranteeCommit ==> d.shouldCommit && d.reason == GuaranteedByConfig
    ensures !cfg.guaranteeCommit && now.hour % 3 == 0 ==> d.shouldCommit && d.reason == HourMultipleOf3(now.hour)
    ensures !cfg.guaranteeCommit && now.hour % 3 != 0 ==>
      && (d.shouldCommit <==> roll < FinalThreshold(cfg, now))
      && (d.reason.RollSucceeded? <==> d.shouldCommit)
      && (d.reason.RollSucceeded? || d.reason.RollFailed?)
      && d.reason.quarter == QuarterIndex(now.minute) + 1
      && d.reason.weekend == (now.weekday >= 5)
      && d.reason.threshold == FinalThreshold(cfg, now)
  {
    if cfg.guaranteeCommit then
      CommitDecision(true, GuaranteedByConfig,
        [("mode", StrValue("guaranteed")), ("timestamp", StrValue(now.iso))])
    else if now.hour % 3 == 0 then
      CommitDecision(true, HourMultipleOf3(now.hour),
        [("mode", StrValue("multiple_of_3")), ("hour_utc", IntValue(now.hour))])
    else
      var quarter := QuarterIndex(now.minute);
      var weekend := IsWeekend(now.weekday);
      var threshold := FinalThreshold(cfg, now);
      var success := roll < threshold;
      CommitDecision(success,
        if success then RollSucceeded(weekend, quarter + 1, threshold) else RollFailed(weekend, quarter + 1, threshold),
        ProbabilisticDetails(cfg, now, roll, success))
  }
}
