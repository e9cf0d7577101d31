/** Recovering the JSON report of a `powerpipe ... run` that exited with an
    alarm or error status (src/utils/powerpipe_run.ts). */
module PowerpipeRun {
  import opened Values
  import opened Text
  import opened Outcomes
  import opened Command

  /** `handlePowerpipeRunOutput(error, cmd)`: an error carrying non-empty
      stdout that parses is answered with that report; anything else becomes
      `formatCommandError(error, cmd)`. A parse failure is swallowed. */
  function HandleRunOutput(error: Thrown, cmd: string, parse: Parser): (r: Response)
    ensures r.Content? ==> HasStdout(error) && error.stdout.value != "" && parse(error.stdout.value).Parsed?
    ensures !r.Content? ==> r == CommandError(error, Some(cmd))
  {
    if HasStdout(error) && error.stdout.value != "" then
      match parse(error.stdout.value)
      case Parsed(v) => Content(Envelope("output", v, cmd))
      case Unparsable(_) => CommandError(error, Some(cmd))
    else CommandError(error, Some(cmd))
  }

  /** Parsable stdout on the error is reported under `output` as the parsed
      value, with the command under `debug`. */
  lemma RecoversParsedStdout(error: Thrown, cmd: string, parse: Parser)
    requires HasStdout(error) && error.stdout.value != ""
    requires parse(error.stdout.value).Parsed?
    ensures HandleRunOutput(error, cmd, parse)
            == Content(Envelope("output", parse(error.stdout.value).value, cmd))
  {
  }

  /** Stdout that is absent, empty or not JSON leaves the error as it was. */
  lemma UnrecoverableStaysAnError(error: Thrown, cmd: string, parse: Parser)
    requires !HasStdout(error) || error.stdout.value == "" || parse(error.stdout.value).Unparsable?
    ensures HandleRunOutput(error, cmd, parse) == CommandError(error, Some(cmd))
  {
  }

  /** The exit status (0 success, 1 alarm, 2 error) plays no part. */
  lemma ExitStatusIrrelevant(error: Thrown, cmd: string, parse: Parser, status: Option<int>)
    requires error.ExecError?
    ensures HandleRunOutput(error.(status := status), cmd, parse).Content?
            == HandleRunOutput(error, cmd, parse).Content?
    ensures HandleRunOutput(error, cmd, parse).Content? ==>
            HandleRunOutput(error.(status := status), cmd, parse) == HandleRunOutput(error, cmd, parse)
  {
  }

  /** Every error `executeCommand` throws is a bare `Error` without stdout,
      so on those the recovery never happens: the run's report is lost. */
  lemma NoRecoveryAfterExecuteCommand(cmd: string, outcome: SpawnOutcome, parse: Parser)
    requires ExecuteCommand(cmd, outcome).Err?
    ensures var e := ExecuteCommand(cmd, outcome).error;
      HandleRunOutput(e, cmd, parse) == CommandError(e, Some(cmd))
  {
    FailuresNameTheCommand(cmd, outcome);
  }
}
