/** The catch block shared by detection_show.ts and benchmark_list.ts: parse
    errors and process errors are rewritten, anything else is rethrown. */
module CliFailure {
  import opened Values
  import opened Text
  import opened Outcomes
  import opened Command

  /** `value && `${prefix}${value}``: a line only for a present, non-empty value. */
  function DetailLine(prefix: string, value: Option<string>): (r: seq<string>)
    ensures |r| <= 1
    ensures r != [] <==> value.Some? && value.value != ""
    ensures r != [] ==> r[0] == prefix + value.value
  {
    if value.Some? && value.value != "" then [prefix + value.value] else []
  }

  /** The `details` list of a process error after `filter(Boolean)`: the
      stderr, exit code, signal and command lines, in that order, each only
      when its field is truthy. */
  function DetailLines(e: Thrown): (r: seq<string>)
    requires e.ExecError?
    ensures |r| <= 4
    ensures forall i :: 0 <= i < |r| ==> r[i] != ""
  {
    DetailLine("Error: ", e.stderr) + DetailLine("Exit code: ", e.code)
    + DetailLine("Signal: ", e.signal) + DetailLine("Command: ", e.cmd)
  }

  /** What the catch block throws for a caught `error`. */
  function Classify(error: Thrown, cmd: string): (r: Thrown)
    ensures error.SyntaxError? ==>
      r == Error("Failed to parse Powerpipe CLI output: " + error.message + ". Command: " + cmd)
    ensures HasStderr(error) ==> r == Error("Failed to run Powerpipe CLI:\n" + Join(DetailLines(error), "\n"))
    ensures !error.SyntaxError? && !HasStderr(error) ==> r == error
  {
    if error.SyntaxError? then
      Error("Failed to parse Powerpipe CLI output: " + error.message + ". Command: " + cmd)
    else if HasStderr(error) then
      Error("Failed to run Powerpipe CLI:\n" + Join(DetailLines(error), "\n"))
    else error
  }

  /** With every field present the message lists all four lines in order. */
  lemma AllDetailsInOrder(e: Thrown)
    requires e.ExecError?
    requires e.stderr.Some? && e.stderr.value != "" && e.code.Some? && e.code.value != ""
    requires e.signal.Some? && e.signal.value != "" && e.cmd.Some? && e.cmd.value != ""
    ensures DetailLines(e) == ["Error: " + e.stderr.value, "Exit code: " + e.code.value,
                               "Signal: " + e.signal.value, "Command: " + e.cmd.value]
  {
  }

  /** Only the present lines appear: with just stderr set, the message is
      that one line. */
  lemma OnlyStderrDetail(e: Thrown)
    requires e.ExecError? && e.stderr.Some? && e.stderr.value != ""
    requires e.code.None? && e.signal.None? && e.cmd.None?
    ensures Classify(e, "") == Error("Failed to run Powerpipe CLI:\n" + "Error: " + e.stderr.value)
  {
    assert DetailLines(e) == ["Error: " + e.stderr.value];
  }

  /** The errors `executeCommand` throws have no stderr field, so the detail
      branch never sees them: they are rethrown unchanged. */
  lemma ExecuteCommandErrorsPassThrough(cmd: string, outcome: SpawnOutcome, cmd': string)
    requires ExecuteCommand(cmd, outcome).Err?
    ensures Classify(ExecuteCommand(cmd, outcome).error, cmd') == ExecuteCommand(cmd, outcome).error
  {
    FailuresNameTheCommand(cmd, outcome);
  }
}
