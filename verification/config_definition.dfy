/**
 * How the configuration's probability matrix comes into being when the
 * script's `Config` class body runs, and what a run of the script does as a
 * result.
 *
 * The matrix is a dictionary comprehension inside the class body whose value
 * expression names the class attribute STANDARD_HOUR_PROBS. Python evaluates
 * the outermost iterable of a comprehension (`range(24)`) in the enclosing
 * scope, but the rest of the comprehension runs in a scope of its own, and a
 * nested scope does not see the names of an enclosing class body: it sees
 * the module's globals and the builtins only. STANDARD_HOUR_PROBS is a class
 * attribute, not a global, so the lookup fails with NameError on the first
 * hour, the class definition fails, and the script stops with status 1
 * before its entry point runs. `MatrixAsWritten` and
 * `ScriptAsWrittenAlwaysAborts` model that; `IntendedMatrix` shows that with
 * the pattern visible to the comprehension the matrix is the 24-hour table
 * PROBABILITY_MATRIX that DEFAULT_CONFIG uses.
 */
module ConfigDefinition {
  import opened CommitConfig
  import opened DecisionEngine
  import opened Orchestrator

  /** The result of evaluating an expression: a value, or the NameError it raises. */
  datatype Evaluated<T> = Defined(value: T) | NameError(name: string)

  /** The module-level names bound when the class body runs: the script's imports. */
  const MODULE_GLOBALS: set<string> :=
    {"datetime", "random", "os", "sys", "logging", "dataclass", "Dict", "Any", "Tuple"}

  /** The builtins the matrix definition uses. */
  const BUILTINS: set<string> := {"range"}

  /** The attributes the class body has bound when it reaches the matrix. */
  const CLASS_NAMES_AT_MATRIX: set<string> :=
    {"__module__", "__qualname__", "__doc__",
     "LOG_FILENAME", "COMMIT_MSG_FILENAME", "GUARANTEE_COMMIT", "BASE_PROBABILITY",
     "HALF_HOUR_DIP_PROBABILITY", "STANDARD_HOUR_PROBS"}

  /** A name read directly in a class body: the class's own names, then globals, then builtins. */
  predicate VisibleInClassBody(name: string, classNames: set<string>, globals: set<string>)
  {
    name in classNames || name in globals || name in BUILTINS
  }

  /** A name read in a scope nested in a class body (a comprehension): globals and builtins only. */
  predicate VisibleInNestedScope(name: string, globals: set<string>)
  {
    name in globals || name in BUILTINS
  }

  /** The dictionary `{hour: value for hour in range(n)}`, built one hour at a time. */
  function HourTable(n: nat, value: QuarterProbs): (t: map<int, QuarterProbs>)
    ensures forall hour :: hour in t <==> 0 <= hour < n
    ensures forall hour :: hour in t ==> t[hour] == value
  {
    if n == 0 then map[] else HourTable(n - 1, value)[n - 1 := value]
  }

  /**
   * `{hour: <valueName> for hour in range(24)}` run in a class body whose
   * names are `classNames`: `range` is looked up in the class body, then the
   * value name is looked up in the comprehension's scope for the first hour;
   * `value` is what that name denotes when it is found.
   */
  function EvalMatrixComprehension(valueName: string, value: QuarterProbs, classNames: set<string>, globals: set<string>)
    : (r: Evaluated<map<int, QuarterProbs>>)
    ensures r.Defined? <==> VisibleInClassBody("range", classNames, globals) && VisibleInNestedScope(valueName, globals)
    ensures r.NameError? && VisibleInClassBody("range", classNames, globals) ==> r.name == valueName
    ensures r.Defined? ==> forall hour :: (hour in r.value <==> 0 <= hour < 24)
    ensures r.Defined? ==> forall hour :: hour in r.value ==> r.value[hour] == value
  {
    if !VisibleInClassBody("range", classNames, globals) then NameError("range")
    else if !VisibleInNestedScope(valueName, globals) then NameError(valueName)
    else Defined(HourTable(24, value))
  }

  /** The matrix as the class body defines it. */
  const MatrixAsWritten: Evaluated<map<int, QuarterProbs>> :=
    EvalMatrixComprehension("STANDARD_HOUR_PROBS", STANDARD_HOUR_PROBS, CLASS_NAMES_AT_MATRIX, MODULE_GLOBALS)

  /**
   * A run of the script: either defining the configuration fails and the
   * uncaught exception ends the process before the entry point (no decision,
   * no log entry, no message file), or the entry point decides and finishes.
   */
  datatype ScriptRun = Aborted(exitCode: int) | Completed(decision: CommitDecision, outcome: RunOutcome)

  function RunScript(matrix: Evaluated<map<int, QuarterProbs>>, now: UtcTime, roll: real, logWriteOk: bool, msgWriteOk: bool)
    : (r: ScriptRun)
    ensures r.Aborted? <==> matrix.NameError?
    ensures r.Aborted? ==> r.exitCode == EXIT_CRITICAL
    ensures r.Completed? ==> r.decision == GetCommitDecision(DEFAULT_CONFIG.(probabilityMatrix := matrix.value), now, roll)
    ensures r.Completed? ==> r.outcome.exitCode in {EXIT_COMMIT, EXIT_CRITICAL, EXIT_NO_COMMIT}
    ensures r.Completed? && r.outcome.attemptsMessageWrite ==> r.decision.shouldCommit
  {
    match matrix
    case NameError(_) => Aborted(EXIT_CRITICAL)
    case Defined(m) =>
      var decision := GetCommitDecision(DEFAULT_CONFIG.(probabilityMatrix := m), now, roll);
      Completed(decision, FinishRun(decision.shouldCommit, logWriteOk, msgWriteOk))
  }

  /**
   * As written, the pattern is a class attribute the comprehension cannot
   * see: the matrix raises NameError although the name is bound in the class.
   */
  lemma MatrixAsWrittenRaises()
    ensures "STANDARD_HOUR_PROBS" in CLASS_NAMES_AT_MATRIX
    ensures MatrixAsWritten == NameError("STANDARD_HOUR_PROBS")
  {
  }

  /** As written, every run stops with status 1 before deciding, whatever the time, draw and file system. */
  lemma ScriptAsWrittenAlwaysAborts(now: UtcTime, roll: real, logWriteOk: bool, msgWriteOk: bool)
    ensures RunScript(MatrixAsWritten, now, roll, logWriteOk, msgWriteOk) == Aborted(EXIT_CRITICAL)
  {
    MatrixAsWrittenRaises();
  }

  /**
   * With the pattern visible to the comprehension (bound at module level, for
   * one), the matrix is PROBABILITY_MATRIX, every hour 0..23 gets the standard
   * pattern, and a run decides with DEFAULT_CONFIG.
   */
  lemma IntendedMatrix(now: UtcTime, roll: real, logWriteOk: bool, msgWriteOk: bool)
    ensures var intended := EvalMatrixComprehension("STANDARD_HOUR_PROBS", STANDARD_HOUR_PROBS,
                                                    CLASS_NAMES_AT_MATRIX, MODULE_GLOBALS + {"STANDARD_HOUR_PROBS"});
      && intended == Defined(PROBABILITY_MATRIX)
      && (forall hour :: 0 <= hour < 24 ==> hour in PROBABILITY_MATRIX && PROBABILITY_MATRIX[hour] == STANDARD_HOUR_PROBS)
      && RunScript(intended, now, roll, logWriteOk, msgWriteOk)
         == Completed(GetCommitDecision(DEFAULT_CONFIG, now, roll),
                      FinishRun(GetCommitDecision(DEFAULT_CONFIG, now, roll).shouldCommit, logWriteOk, msgWriteOk))
  {
    var table := HourTable(24, STANDARD_HOUR_PROBS);
    assert table.Keys == PROBABILITY_MATRIX.Keys;
    assert table == PROBABILITY_MATRIX;
    assert DEFAULT_CONFIG.(probabilityMatrix := table) == DEFAULT_CONFIG;
  }
}
