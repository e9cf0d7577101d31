/** The `powerpipe_control_run` tool (src/tools/powerpipe_control_run.ts):
    run one control and report its JSON result, recovering the report from a
    failed run as src/utils/powerpipe_run.ts does. */
module ControlRun {
  import opened Values
  import opened Text
  import opened Outcomes
  import opened Powerpipe
  import opened Command
  import opened Args
  import opened PowerpipeRun

  /** The command line for one control. */
  function ControlRunCommand(qualifiedName: string, modLocation: string): (cmd: string)
    ensures cmd == "powerpipe " + "control run " + qualifiedName + FixedFlags(modLocation) + " --output json"
  {
    var cmd := BuildPowerpipeCommand("control run " + qualifiedName, modLocation, Some("json"));
    assert "powerpipe " + ("control run " + qualifiedName) == "powerpipe " + "control run " + qualifiedName;
    cmd
  }

  /** The handler: validation errors are thrown; once the command is built
      every failure is returned. `execSync` did `outcome` and `parse` stands
      for `JSON.parse`. The catch block is the inline twin of
      `handlePowerpipeRunOutput`, which models it. */
  function Handle(args: Value, modLocation: string, outcome: SpawnOutcome, parse: Parser): (r: Reply)
    ensures ValidateQualifiedName(args).Err? ==> r == Throw(ValidateQualifiedName(args).error)
    ensures ValidateQualifiedName(args).Ok? ==> r.Return?
  {
    match ValidateQualifiedName(args)
    case Err(e) => Throw(e)
    case Ok(name) =>
      var cmd := ControlRunCommand(name, modLocation);
      match ExecuteCommand(cmd, outcome)
      case Ok(output) =>
        (match parse(output)
         case Parsed(v) => Return(Content(Envelope("output", v, cmd)))
         case Unparsable(m) => Return(HandleRunOutput(SyntaxError(m), cmd, parse)))
      case Err(e) => Return(HandleRunOutput(e, cmd, parse))
  }

  /** A run that exits cleanly with JSON output yields `{output, debug}`. */
  lemma SuccessReportsParsedOutput(args: Value, modLocation: string, stdout: string, parse: Parser)
    requires ValidateQualifiedName(args).Ok? && parse(stdout).Parsed?
    ensures var cmd := ControlRunCommand(ValidateQualifiedName(args).value, modLocation);
      Handle(args, modLocation, Exited(stdout), parse) == Return(Content(Envelope("output", parse(stdout).value, cmd)))
  {
  }

  /** Clean output that is not JSON raises a SyntaxError with no stdout, so
      the handler returns it as a command error instead of content. */
  lemma UnparsableSuccessIsAnError(args: Value, modLocation: string, stdout: string, parse: Parser)
    requires ValidateQualifiedName(args).Ok? && parse(stdout).Unparsable?
    ensures var cmd := ControlRunCommand(ValidateQualifiedName(args).value, modLocation);
      Handle(args, modLocation, Exited(stdout), parse)
      == Return(CommandError(SyntaxError(parse(stdout).message), Some(cmd)))
  {
  }

  /** A run that fails with visible stderr always ends in a command error,
      even when its stdout held a valid JSON report: `executeCommand` has
      already replaced the process error by a bare one. */
  lemma StderrFailureLosesReport(args: Value, modLocation: string, e: Thrown, parse: Parser)
    requires ValidateQualifiedName(args).Ok?
    requires HasStderr(e) && Trim(e.stderr.value) != ""
    ensures var cmd := ControlRunCommand(ValidateQualifiedName(args).value, modLocation);
      Handle(args, modLocation, Raised(e), parse)
      == Return(CommandError(Error(FailureMessage(Trim(e.stderr.value), cmd)), Some(cmd)))
  {
  }

  /** A failed run whose stderr is blank but whose stdout is a JSON report
      gives the same envelope as a clean run. */
  lemma BlankStderrRecoversReport(args: Value, modLocation: string, e: Thrown, parse: Parser)
    requires ValidateQualifiedName(args).Ok?
    requires HasStderr(e) && Trim(e.stderr.value) == ""
    requires HasStdout(e) && e.stdout.value != "" && parse(e.stdout.value).Parsed?
    ensures Handle(args, modLocation, Raised(e), parse) == Handle(args, modLocation, Exited(e.stdout.value), parse)
    ensures Handle(args, modLocation, Raised(e), parse).response.Content?
  {
    var cmd := ControlRunCommand(ValidateQualifiedName(args).value, modLocation);
    BlankStderrGivesStdout(cmd, e);
    SameOutputSameReply(args, modLocation, Raised(e), Exited(e.stdout.value), parse);
    SuccessReportsParsedOutput(args, modLocation, e.stdout.value, parse);
  }

  /** Blank stderr and non-empty stdout: `executeCommand` returns the stdout,
      as a clean exit with that stdout would. */
  lemma BlankStderrGivesStdout(cmd: string, e: Thrown)
    requires HasStderr(e) && Trim(e.stderr.value) == ""
    requires HasStdout(e) && e.stdout.value != ""
    ensures ExecuteCommand(cmd, Raised(e)) == Ok(e.stdout.value) == ExecuteCommand(cmd, Exited(e.stdout.value))
  {
  }

  /** The handler sees the process only through `executeCommand`'s output. */
  lemma SameOutputSameReply(args: Value, modLocation: string, o1: SpawnOutcome, o2: SpawnOutcome, parse: Parser)
    requires ValidateQualifiedName(args).Ok?
    requires var cmd := ControlRunCommand(ValidateQualifiedName(args).value, modLocation);
      ExecuteCommand(cmd, o1).Ok? && ExecuteCommand(cmd, o1) == ExecuteCommand(cmd, o2)
    ensures Handle(args, modLocation, o1, parse) == Handle(args, modLocation, o2, parse)
  {
  }
}
