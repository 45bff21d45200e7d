# Dice-roll committer: the commit decision engine in Dafny

The dice-roll committer decides on each run whether an automated commit
should be made "now". The decision depends on a probability computed from the
current UTC time. This project models the decision engine
(`get_commit_decision`), the configuration tables it reads, and the exit-code
rule of the entry point (`main`). It proves the rules' precedence, the
defaults, the threshold's range and the commit rule. As written, the
configuration class cannot define its probability matrix, so the script stops
before deciding; the model records that (see "## Findings") and otherwise
works with the configuration its author evidently intended.

The engine runs its rules in a fixed order, and the first rule that applies
decides:

1. **Guarantee.** If the configuration guarantees a commit, the run commits
   and records mode `"guaranteed"`.
2. **Multiple-of-3 hour.** If the UTC hour is a multiple of 3, the run commits
   and records mode `"multiple_of_3"` and the hour.
3. **Probabilistic path.** Otherwise:
   - the minute picks a quarter-hour bucket;
   - a per-hour table gives the bucket's base probability, and an hour missing
     from the table gives 0;
   - the base probability is multiplied by the weekend or weekday modifier and
     by the month's seasonal modifier, and a missing month gives 1.0;
   - the product is clamped to [0, 1];
   - the run commits exactly when the random draw is below that threshold.

Files:

- `config.dfy` (module `CommitConfig`): the configuration as an immutable
  value, with the tables at the intended shipped values (`DEFAULT_CONFIG`). A
  matrix row has type `QuarterProbs`, a `seq<real>` of length 4.
- `config_definition.dfy` (module `ConfigDefinition`): how the configuration
  class builds its matrix, as written and as intended, and what a run of the
  script does as a result (see "## Findings").
- `details.dfy` (module `DecisionDetails`): the decision's `details` record.
  It is an insertion-ordered list of key/value pairs and is read by dictionary
  lookup (`Get`).
- `engine.dfy` (module `DecisionEngine`): the clock reading (`UtcTime`), the
  abstract `Reason`, the layers, the clamp, and `GetCommitDecision`.
- `properties.dfy` (module `EngineProperties`): properties that hold for every
  configuration.
- `modifiers.dfy` (module `ModifierProperties`): raising a layer never lowers
  the commit chance.
- `defaults.dfy` (module `DefaultConfigProperties`): the configuration with
  the intended shipped values never clamps. The file also has worked
  scenarios.
- `orchestrator.dfy` (module `Orchestrator`): the exit code and whether the
  commit-message file write is attempted, given the outcomes of the two file
  writes.

The clock reading and the random draw are parameters, not ambient globals.
The clock reading is `UtcTime`: hour, minute, weekday with Monday = 0, month,
and the ISO-8601 text of the instant, which is kept as an opaque string. The
random draw is `roll: real`. The engine is total over all integer fields, as
the source's `if`/`elif` chain is. `UtcTime.Valid()` states the calendar
ranges and is assumed only by the lemmas that need them.

The weekend is Saturday (5) and Sunday (6). The code tests `weekday >= 5`,
and the model keeps that test. `WeekendSelection` proves that it holds
exactly on those two days for weekdays 0..6.

## Model

| member | source | states |
|---|---|---|
| `DecisionDetails.Get` | dice_roll_committer.py:157-169 | dictionary lookup of a details key: absent exactly when no entry has that key, and otherwise a stored key/value pair |
| `DecisionDetails.GetAt` | dice_roll_committer.py:157-169 | in a record with distinct keys, looking up an entry's key gives that entry's value |
| `DecisionEngine.QuarterIndex` | dice_roll_committer.py:132-135 | the bucket is always in 0..3; for minutes 0..59 it is `minute / 15`, the bucket whose 15-minute window holds the minute; minutes outside 0..44 fall in bucket 3 |
| `DecisionEngine.BaseProbability` | dice_roll_committer.py:137 | an hour missing from the matrix gives 0 in every quarter; a present hour gives its stored probability for the quarter |
| `DecisionEngine.IsWeekend` | dice_roll_committer.py:140-141 | for weekdays 0..6 the weekend test holds exactly on Saturday (5) and Sunday (6) |
| `DecisionEngine.DayModifier` | dice_roll_committer.py:141-142 | Monday to Friday use the weekday modifier, Saturday and Sunday the weekend modifier |
| `DecisionEngine.SeasonalModifier` | dice_roll_committer.py:145-146 | a month missing from the table gives the neutral 1.0; a present month gives its stored modifier |
| `DecisionEngine.RawThreshold` | dice_roll_committer.py:149 | a zero base probability gives a zero product whatever the modifiers; with both modifiers neutral (1.0) the product is the base probability |
| `DecisionEngine.Clamp` | dice_roll_committer.py:152 | `max(0, min(1, x))` is always in [0, 1]; it leaves a value already in [0, 1] unchanged and sends values below 0 to 0 and above 1 to 1 |
| `DecisionEngine.FinalThreshold` | dice_roll_committer.py:149-152 | the threshold is in [0, 1] and equals the product of the three layers whenever that product is in [0, 1] |
| `DecisionEngine.ProbabilisticKeysAreDistinct` | dice_roll_committer.py:157-169 | the probabilistic path's nine detail keys are pairwise distinct and none of them is "mode" |
| `DecisionEngine.ProbabilisticDetails` | dice_roll_committer.py:157-173 | the probabilistic details are a dictionary (no key twice) with the nine keys in insertion order, no "mode" key, and last the outcome "success" or "failure" according to the draw |
| `DecisionEngine.GetCommitDecision` | dice_roll_committer.py:102-175 | the guarantee commits; otherwise a multiple-of-3 hour commits with that hour as its reason; otherwise the run commits iff `roll < threshold`, and the reason is success iff it commits and names the weekend flag, the 1-based quarter and the threshold |
| `EngineProperties.GuaranteeOverride` | dice_roll_committer.py:116-120 | with the guarantee on, the run commits and records mode "guaranteed" and the timestamp, and the decision is the same for every draw |
| `EngineProperties.MultipleOf3Override` | dice_roll_committer.py:123-127 | without the guarantee, a multiple-of-3 hour commits and records mode "multiple_of_3" and `hour_utc`; the decision is the same for every minute, weekday, month and draw |
| `EngineProperties.QuarterPartition` | dice_roll_committer.py:132-135 | every minute 0..59 lies in exactly one quarter q in 0..3, namely `15q <= minute < 15q + 15` |
| `EngineProperties.WeekendSelection` | dice_roll_committer.py:141-142 | for weekdays 0..6, the weekend test holds exactly on 5 and 6, and the weekend modifier is chosen exactly then |
| `EngineProperties.TableDefaults` | dice_roll_committer.py:137-146 | an hour missing from the matrix gives base probability 0 in every quarter, and a missing month gives seasonal modifier 1.0; present entries are used as stored |
| `EngineProperties.ZeroBaseNeverCommits` | dice_roll_committer.py:137-175 | on the probabilistic path, a zero base probability never commits for any draw >= 0 |
| `EngineProperties.ThresholdIsClampedProduct` | dice_roll_committer.py:149-152 | the threshold is in [0, 1] for any modifiers: it is the layer product when that is a probability, 0 below and 1 above |
| `EngineProperties.ProbabilisticOutcome` | dice_roll_committer.py:168-175 | on the probabilistic path the run commits iff `roll < threshold`, the details have no mode, and outcome is "success" exactly when the run commits and "failure" otherwise |
| `EngineProperties.ProbabilisticTimeDetails` | dice_roll_committer.py:157-160 | the probabilistic details record the timestamp, the weekend flag (`weekday >= 5`) and the 1-based quarter (bucket + 1) |
| `EngineProperties.ProbabilisticFactorDetails` | dice_roll_committer.py:161-165 | the probabilistic details record the base probability, both modifiers, the clamped threshold and the draw |
| `EngineProperties.DetailsAreADictionary` | dice_roll_committer.py:91-96 | on every path the decision's details have no key twice, so each recorded entry is what a lookup of its key returns |
| `EngineProperties.CommitIsDownwardClosed` | dice_roll_committer.py:168 | if a draw commits, every smaller draw commits too |
| `EngineProperties.DecisionCases` | dice_roll_committer.py:116-175 | the run commits iff the guarantee is on, or the hour is a multiple of 3, or the draw is below the threshold |
| `ModifierProperties.LayerwiseMonotone` | dice_roll_committer.py:137-152 | if a configuration's three layers are each non-negative and no larger than another's, its threshold is no larger, and each of its committing draws also commits under the other |
| `ModifierProperties.RaisingSeasonalModifierNeverLowers` | dice_roll_committer.py:144-152 | in a non-negative configuration, a larger modifier for the current month never lowers the threshold and never turns a commit into no commit |
| `ModifierProperties.RaisingDayModifierNeverLowers` | dice_roll_committer.py:56-59 | in a non-negative configuration, larger weekday and weekend modifiers never lower the threshold and never turn a commit into no commit (the increase need not be strict: a zero base or a threshold clamped at 1 stays put) |
| `ModifierProperties.DayLayerStrict` | dice_roll_committer.py:137-152 | two configurations with the same positive base probability and seasonal modifier at a time: the larger day modifier gives a strictly larger threshold unless the smaller product is already at least 1 |
| `ModifierProperties.ChangingDayModifierIsStrict` | dice_roll_committer.py:56-59 | in a non-negative configuration, raising the modifier of the current kind of day strictly raises the threshold whenever the base probability and the seasonal modifier are positive and the product is below 1; so a modifier above 1.0 raises the chance over a neutral one and a neutral one raises it over one below 1.0 |
| `DefaultConfigProperties.DefaultConfigNonNegative` | dice_roll_committer.py:35-76 | every probability and modifier of the configuration with the intended shipped values is non-negative, so the monotonicity lemmas apply to it |
| `DefaultConfigProperties.SeasonalRange` | dice_roll_committer.py:63-76 | every month of the intended seasonal table has a modifier between 0.7 and 1.25 |
| `DefaultConfigProperties.DefaultThresholdRange` | dice_roll_committer.py:35-76 | with the intended shipped values and a valid clock reading, clamping never changes the product, and the threshold lies in [0.007, 0.3125] |
| `DefaultConfigProperties.ScenarioMultipleOf3` | dice_roll_committer.py:123-127 | at 06:10 UTC the intended configuration commits for any draw, with the hour as its reason |
| `DefaultConfigProperties.ScenarioJulyWeekday` | dice_roll_committer.py:137-175 | on a Monday in July at 14:20 the threshold is 0.175, so a draw of 0.10 commits and 0.30 does not |
| `DefaultConfigProperties.ScenarioJanuaryWeekendDip` | dice_roll_committer.py:137-175 | on a Saturday in January at 14:35 the threshold is 0.02 * 0.5 * 1.1 = 0.011, and a draw of 0.5 fails on the weekend in Q3 |
| `Orchestrator.FinishRun` | dice_roll_committer.py:242-259 | the exit code is always 0, 1 or 2, and writing the commit-message file is attempted only when a commit is recommended |
| `Orchestrator.ExitCodeMeaning` | dice_roll_committer.py:221-226 | 0 iff commit and both writes succeed; 1 iff the log write fails or the message write is attempted and fails; 2 iff no commit and the log write succeeds; the message write is attempted iff commit and the log write succeeds |
| `Orchestrator.LogFailureIsCritical` | dice_roll_committer.py:242-245 | a failed log write gives 1 whatever the decision, and no message write is attempted |
| `ConfigDefinition.HourTable` | dice_roll_committer.py:52-54 | the dictionary built for `range(n)` has exactly the hours 0..n-1 as keys, each mapped to the given pattern |
| `ConfigDefinition.EvalMatrixComprehension` | dice_roll_committer.py:52-54 | the matrix comprehension is defined iff `range` is visible in the class body and the value's name is visible in the comprehension's own scope (globals and builtins, not class attributes); otherwise it raises NameError naming the missing name; when defined it maps exactly the hours 0..23 to the pattern |
| `ConfigDefinition.RunScript` | dice_roll_committer.py:27-76 | a run aborts with status 1 exactly when defining the configuration raises; otherwise it decides with the defined matrix and finishes with exit 0, 1 or 2, attempting the message write only for a commit |
| `ConfigDefinition.MatrixAsWrittenRaises` | dice_roll_committer.py:43-54 | as written, STANDARD_HOUR_PROBS is bound in the class body yet the matrix comprehension raises NameError for it |
| `ConfigDefinition.ScriptAsWrittenAlwaysAborts` | dice_roll_committer.py:52-54 | as written, every run ends with status 1 before deciding, whatever the time, draw and file system |
| `ConfigDefinition.IntendedMatrix` | dice_roll_committer.py:50-54 | with the pattern visible to the comprehension, the matrix is the 24-hour table mapping every hour to the standard pattern, and a run decides with `DEFAULT_CONFIG` |
| `Orchestrator.NoCommitIgnoresMessageWrite` | dice_roll_committer.py:256-259 | without a commit recommendation, the message write's result plays no part |

## Left out

- Reading the clock (`datetime.now`) and the random generator (`random.random`): both are parameters of the engine (`UtcTime`, `roll`).
- ISO-8601 rendering of the timestamp: the engine carries `UtcTime.iso` as given.
- The float formatting of details and reasons (`:.4f`, `:.2%`): details hold the base probability, threshold and roll as `real` values, not formatted strings. `Reason` is a datatype naming what the reason text would say (weekend or weekday, the 1-based quarter, the threshold), and its rendering is not modelled.
- IEEE-754 rounding in the threshold product: the model computes with exact `real` arithmetic, so a product such as 0.02 * 0.5 * 1.1 is exactly 0.011 here.
- ZeroBaseNeverCommits: assumes finite modifiers, as every `real` is. A configuration holding an infinite or NaN modifier is not modelled. In the source, 0 * inf is NaN, and `min(1.0, nan)` returns 1.0, so such a threshold becomes 1.0 and every draw in [0, 1) commits.
- ThresholdIsClampedProduct: states the clamp for finite products only. For an infinite or NaN product, the source's `max(0.0, min(1.0, x))` gives 1.0 for +inf and NaN and 0.0 for -inf; these values are not modelled.
- The default row for a missing hour is the integer tuple `(0,0,0,0)` in the source and `0.0` here: the only difference is in how the value would be printed.
- `generate_commit_message` (dice_roll_committer.py:178-186): string templating. It also reads the clock a second time, so the message's timestamp can differ from the decision's.
- `write_log_entry` and `write_commit_message_file` (dice_roll_committer.py:192-214): file I/O. Only their success or failure enters the model, as the inputs of `Orchestrator.FinishRun`.
- Logging, `logging.basicConfig`, the path handling and `sys.exit` in `main` (dice_roll_committer.py:227-259): only the mapping from outcomes to exit codes is modelled. The traceback Python prints for an uncaught exception is not modelled; `ConfigDefinition.RunScript` keeps only its exit status, 1. The file names and message templates of the configuration (dice_roll_committer.py:30-31, 79-85) belong to these parts and are not modelled either.
- The comment on December (dice_roll_committer.py:75) says "Holiday slowdown", but the value is 1.0, a neutral modifier. The model uses the value.
- Python name resolution in general: `ConfigDefinition` models only the two scopes the matrix definition involves (a class body, and a comprehension nested in it), with the names bound at that point.

## Findings

| source | as written | input that shows it | evidently intended | confidence | as-written member | corrected member |
|---|---|---|---|---|---|---|
| dice_roll_committer.py:52-54 | the matrix comprehension in the `Config` class body reads the class attribute `STANDARD_HOUR_PROBS`; a comprehension's scope does not see class attributes, so defining the class raises NameError and the script exits with status 1 at import, before `main`, with no log entry and no decision | any run (any time, any draw): importing the script defines the class | every hour 0..23 maps to the standard pattern (for example, by binding the pattern at module level), so runs decide with `DEFAULT_CONFIG` | high; not executed | `ConfigDefinition.ScriptAsWrittenAlwaysAborts` | `ConfigDefinition.IntendedMatrix` |
