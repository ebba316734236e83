/** The command runner `execute` of deployment-lambda/index.ts. */
module Shell {
  import opened Wrappers

  /**
   * What the child process reports to the `exec` callback: the process error
   * (a non-zero exit, given by its message) if any, and the captured streams.
   */
  datatype ExecOutcome = ExecOutcome(error: Option<string>, stdout: string, stderr: string)

  /**
   * How the promise returned by `execute` settles: it resolves with stdout when
   * there is no process error and rejects with the error's message otherwise.
   * The streams are only logged, so stderr has no say in the outcome.
   */
  function Execute(o: ExecOutcome): (r: Result<string, string>)
    ensures r.Success? <==> o.error.None?
    ensures r.Success? ==> r.value == o.stdout
    ensures r.Failure? ==> r.error == o.error.value
  {
    match o.error
    case Some(message) => Failure(message)
    case None => Success(o.stdout)
  }

  /** Non-empty stderr alone never makes `execute` reject. */
  lemma StderrNeverRejects(stdout: string, stderr: string)
    requires stderr != []
    ensures Execute(ExecOutcome(None, stdout, stderr)) == Success(stdout)
  {
  }

  /** Replacing stderr never changes how `execute` settles. */
  lemma StderrIrrelevant(o: ExecOutcome, stderr: string)
    ensures Execute(o.(stderr := stderr)) == Execute(o)
  {
  }
}
