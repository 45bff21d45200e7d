/**
 * The exit-code rule of the script's entry point, with the outcomes of its two
 * file writes taken as inputs: the log entry is always written first; the
 * commit-message file is written only when a commit is recommended and the log
 * write succeeded.
 */
module Orchestrator {

  const EXIT_COMMIT: int := 0
  const EXIT_CRITICAL: int := 1
  const EXIT_NO_COMMIT: int := 2

  /**
   * What one run does after the decision: whether it attempts to write the
   * commit-message file, and the code it exits with. `msgWriteOk` is the
   * result that write would have; it is consulted only when the write is
   * attempted.
   */
  datatype RunOutcome = RunOutcome(attemptsMessageWrite: bool, exitCode: int)

  function FinishRun(shouldCommit: bool, logWriteOk: bool, msgWriteOk: bool): (r: RunOutcome)
    ensures r.exitCode in {EXIT_COMMIT, EXIT_CRITICAL, EXIT_NO_COMMIT}
    ensures r.attemptsMessageWrite ==> shouldCommit
  {
    if !logWriteOk then RunOutcome(false, EXIT_CRITICAL)
    else if shouldCommit then
      if msgWriteOk then RunOutcome(true, EXIT_COMMIT) else RunOutcome(true, EXIT_CRITICAL)
    else RunOutcome(false, EXIT_NO_COMMIT)
  }

  /**
   * The documented meaning of the exit codes: 0 when a commit is recommended and
   * every write succeeded, 1 when a write that was attempted failed, 2 when no
   * commit is recommended and the log was written.
   */
  lemma ExitCodeMeaning(shouldCommit: bool, logWriteOk: bool, msgWriteOk: bool)
    ensures var r := FinishRun(shouldCommit, logWriteOk, msgWriteOk);
      && (r.exitCode == EXIT_COMMIT <==> shouldCommit && logWriteOk && msgWriteOk)
      && (r.exitCode == EXIT_CRITICAL <==> !logWriteOk || (r.attemptsMessageWrite && !msgWriteOk))
      && (r.exitCode == EXIT_NO_COMMIT <==> !shouldCommit && logWriteOk)
      && (r.attemptsMessageWrite <==> shouldCommit && logWriteOk)
  {
  }

  /** A failed log write aborts the run with 1, whatever the decision, and no message write is attempted. */
  lemma LogFailureIsCritical(shouldCommit: bool, msgWriteOk: bool)
    ensures FinishRun(shouldCommit, false, msgWriteOk) == RunOutcome(false, EXIT_CRITICAL)
  {
  }

  /** Without a commit recommendation the message write's result plays no part. */
  lemma NoCommitIgnoresMessageWrite(logWriteOk: bool)
    ensures FinishRun(false, logWriteOk, true) == FinishRun(false, logWriteOk, false)
  {
  }
}
