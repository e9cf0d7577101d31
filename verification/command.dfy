/** Running a command line and classifying how it ended (src/utils/command.ts).
    The process itself is not modelled: `execSync` becomes the input
    `SpawnOutcome`. */
module Command {
  import opened Values
  import opened Text
  import opened Outcomes

  /** Ten mebibytes, the output buffer used when the caller gives none. */
  const DEFAULT_MAX_BUFFER: int := 10 * 1024 * 1024

  /** `CommandOptions`: both fields may be absent. */
  datatype CommandOptions = CommandOptions(env: Option<map<string, string>>, maxBuffer: Option<int>)

  /** The options actually handed to `execSync`. */
  datatype ExecOptions = ExecOptions(env: map<string, string>, maxBuffer: int)

  /** `options.env || process.env` and `options.maxBuffer || DEFAULT_MAX_BUFFER`:
      an environment object is always truthy, a buffer size of 0 is not. */
  function EffectiveOptions(options: CommandOptions, processEnv: map<string, string>): (r: ExecOptions)
    ensures options.env.Some? ==> r.env == options.env.value
    ensures options.env.None? ==> r.env == processEnv
    ensures options.maxBuffer.Some? && options.maxBuffer.value != 0 ==> r.maxBuffer == options.maxBuffer.value
    ensures options.maxBuffer.None? || options.maxBuffer.value == 0 ==> r.maxBuffer == DEFAULT_MAX_BUFFER
    ensures r.maxBuffer != 0
  {
    var env := if options.env.Some? then options.env.value else processEnv;
    var maxBuffer := if options.maxBuffer.Some? && options.maxBuffer.value != 0 then options.maxBuffer.value else DEFAULT_MAX_BUFFER;
    ExecOptions(env, maxBuffer)
  }

  /** The message of every error `executeCommand` throws. */
  function FailureMessage(detail: string, cmd: string): (m: string)
    ensures var n := |"Command execution failed: "|;
      n + |detail| <= |m| && m[n..n + |detail|] == detail
  {
    var m := "Command execution failed: " + detail + ". Command: " + cmd;
    assert m == "Command execution failed: " + detail + (". Command: " + cmd);
    m
  }

  /** `executeCommand(cmd, options)` once `execSync` has produced `outcome`:
      the standard output, or the error it throws. */
  function ExecuteCommand(cmd: string, outcome: SpawnOutcome): (r: Result<string, Thrown>)
    ensures outcome.Exited? ==> r == Ok(outcome.stdout)
    ensures r.Err? ==> r.error.Error? && outcome.Raised?
  {
    match outcome
    case Exited(stdout) => Ok(stdout)
    case Raised(e) =>
      if HasStderr(e) then
        var stderr := Trim(e.stderr.value);
        if stderr == "" && e.stdout.Some? && e.stdout.value != "" then Ok(e.stdout.value)
        else Err(Error(FailureMessage(stderr, cmd)))
      else Err(Error(FailureMessage(Message(e), cmd)))
  }

  /** Whitespace-only standard error counts as no error at all: the process
      output is returned exactly when its stdout is non-empty. */
  lemma BlankStderrRecoversStdout(cmd: string, stderr: string, stdout: string, message: string,
                                  status: Option<int>, code: Option<string>, signal: Option<string>)
    requires forall i :: 0 <= i < |stderr| ==> IsWhitespace(stderr[i])
    requires stdout != ""
    ensures ExecuteCommand(cmd, Raised(ExecError(message, Some(stderr), Some(stdout), status, code, signal, Some(cmd))))
            == Ok(stdout)
  {
    TrimIsEmptyIffBlank(stderr);
  }

  /** Standard error with any visible character makes the call fail, whatever
      stdout holds, and the message carries the trimmed stderr. */
  lemma VisibleStderrFails(cmd: string, e: Thrown)
    requires HasStderr(e)
    requires exists i :: 0 <= i < |e.stderr.value| && !IsWhitespace(e.stderr.value[i])
    ensures ExecuteCommand(cmd, Raised(e)) == Err(Error(FailureMessage(Trim(e.stderr.value), cmd)))
  {
    TrimIsEmptyIffBlank(e.stderr.value);
  }

  /** A thrown value without a stderr field (an `Error` raised before the
      process ran, or a non-`Error` value) fails with its own message. */
  lemma NoStderrFailsWithMessage(cmd: string, e: Thrown)
    requires !HasStderr(e)
    ensures ExecuteCommand(cmd, Raised(e)) == Err(Error(FailureMessage(Message(e), cmd)))
  {
  }

  /** The failure message opens with a fixed phrase and closes with the command. */
  lemma FailureMessageShape(detail: string, cmd: string)
    ensures StartsWith(FailureMessage(detail, cmd), "Command execution failed: ")
    ensures EndsWith(FailureMessage(detail, cmd), ". Command: " + cmd)
  {
    var head := "Command execution failed: ";
    var tail := ". Command: " + cmd;
    assert FailureMessage(detail, cmd) == head + (detail + tail);
    ConcatEnds(head, detail + tail);
    assert FailureMessage(detail, cmd) == (head + detail) + tail;
    ConcatEnds(head + detail, tail);
  }

  /** Every error `executeCommand` throws is a plain `Error` whose message ends
      with the command: it carries no stdout, stderr, status or signal. */
  lemma FailuresNameTheCommand(cmd: string, outcome: SpawnOutcome)
    requires ExecuteCommand(cmd, outcome).Err?
    ensures var e := ExecuteCommand(cmd, outcome).error;
      && e.Error?
      && !HasStdout(e) && !HasStderr(e)
      && StartsWith(e.message, "Command execution failed: ")
      && EndsWith(e.message, ". Command: " + cmd)
  {
    var thrown := outcome.error;
    var detail := if HasStderr(thrown) then Trim(thrown.stderr.value) else Message(thrown);
    assert ExecuteCommand(cmd, outcome) == Err(Error(FailureMessage(detail, cmd)));
    FailureMessageShape(detail, cmd);
  }

  /** Success never alters the text: whatever `executeCommand` returns is
      stdout that the process produced, either on exit or attached to its error. */
  lemma ReturnsProcessStdout(cmd: string, outcome: SpawnOutcome)
    requires ExecuteCommand(cmd, outcome).Ok?
    ensures outcome.Exited? ==> ExecuteCommand(cmd, outcome).value == outcome.stdout
    ensures outcome.Raised? ==> HasStdout(outcome.error) && ExecuteCommand(cmd, outcome).value == outcome.error.stdout.value
    ensures outcome.Raised? ==> HasStderr(outcome.error) && Trim(outcome.error.stderr.value) == ""
    ensures outcome.Raised? ==> ExecuteCommand(cmd, outcome).value != ""
  {
  }

  /** Whitespace-only standard error with no stdout, or an empty one, is
      still a failure, and its message has an empty detail. */
  lemma BlankStderrWithoutStdoutFails(cmd: string, e: Thrown)
    requires HasStderr(e) && Trim(e.stderr.value) == ""
    requires !(HasStdout(e) && e.stdout.value != "")
    ensures ExecuteCommand(cmd, Raised(e)) == Err(Error(FailureMessage("", cmd)))
  {
  }
}
