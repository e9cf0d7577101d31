/** The `detection_show` tool (src/tools/detection_show.ts). */
module DetectionShow {
  import opened Values
  import opened Text
  import opened Outcomes
  import opened Powerpipe
  import opened Command
  import opened Args
  import opened CliFailure

  /** The command line for one detection; the name goes in verbatim. */
  function DetectionShowCommand(qualifiedName: string, modLocation: string): (cmd: string)
    ensures cmd == "powerpipe " + "detection show " + qualifiedName + FixedFlags(modLocation) + " --output json"
  {
    var cmd := BuildPowerpipeCommand("detection show " + qualifiedName, modLocation, Some("json"));
    assert "powerpipe " + ("detection show " + qualifiedName) == "powerpipe " + "detection show " + qualifiedName;
    cmd
  }

  /** The handler: parsed output is wrapped as `{detection, debug}`; every
      failure is thrown after the shared classification. */
  function Handle(args: Value, modLocation: string, outcome: SpawnOutcome, parse: Parser): (r: Reply)
    ensures ValidateQualifiedName(args).Err? ==> r == Throw(ValidateQualifiedName(args).error)
    ensures r.Return? ==> outcome.Exited? || HasStdout(outcome.error)
  {
    match ValidateQualifiedName(args)
    case Err(e) => Throw(e)
    case Ok(name) =>
      var cmd := DetectionShowCommand(name, modLocation);
      match ExecuteCommand(cmd, outcome)
      case Err(e) => Throw(Classify(e, cmd))
      case Ok(output) =>
        match parse(output)
        case Parsed(v) => Return(Content(Envelope("detection", v, cmd)))
        case Unparsable(m) => Throw(Classify(SyntaxError(m), cmd))
  }

  /** Parsed output is reported under `detection`, with the command. */
  lemma ParsedOutputIsReported(args: Value, modLocation: string, stdout: string, parse: Parser)
    requires ValidateQualifiedName(args).Ok? && parse(stdout).Parsed?
    ensures var cmd := DetectionShowCommand(ValidateQualifiedName(args).value, modLocation);
      Handle(args, modLocation, Exited(stdout), parse) == Return(Content(Envelope("detection", parse(stdout).value, cmd)))
  {
  }

  /** Output that is not JSON throws the parse message naming the command. */
  lemma UnparsableOutputThrows(args: Value, modLocation: string, stdout: string, parse: Parser)
    requires ValidateQualifiedName(args).Ok? && parse(stdout).Unparsable?
    ensures var cmd := DetectionShowCommand(ValidateQualifiedName(args).value, modLocation);
      Handle(args, modLocation, Exited(stdout), parse)
      == Throw(Error("Failed to parse Powerpipe CLI output: " + parse(stdout).message + ". Command: " + cmd))
  {
  }

  /** A failed process is rethrown as the `executeCommand` error itself. */
  lemma ProcessFailureRethrown(args: Value, modLocation: string, outcome: SpawnOutcome, parse: Parser)
    requires ValidateQualifiedName(args).Ok?
    requires ExecuteCommand(DetectionShowCommand(ValidateQualifiedName(args).value, modLocation), outcome).Err?
    ensures var cmd := DetectionShowCommand(ValidateQualifiedName(args).value, modLocation);
      Handle(args, modLocation, outcome, parse) == Throw(ExecuteCommand(cmd, outcome).error)
  {
    var cmd := DetectionShowCommand(ValidateQualifiedName(args).value, modLocation);
    ExecuteCommandErrorsPassThrough(cmd, outcome, cmd);
  }
}
