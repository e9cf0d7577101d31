/** The `control_list` tool (src/tools/control_list.ts). Unlike the other
    list tools it builds its own command line, calls `execSync` directly and
    retries the projection on the stdout of a failed process. */
module ControlList {
  import opened Values
  import opened Text
  import opened Outcomes
  import opened Command
  import opened ListRecords
  import ListTools

  /** The hand-built command: no `--no-update-check`, and `--output json`
      before the mod location. */
  function ControlListCommand(modDirectory: string): (cmd: string)
    ensures StartsWith(cmd, "powerpipe control list --output json ")
    ensures EndsWith(cmd, "--mod-location \"" + modDirectory + "\"")
  {
    var flag := "--mod-location \"" + modDirectory + "\"";
    ConcatEnds("powerpipe control list --output json ", flag);
    "powerpipe control list --output json " + flag
  }

  /** The environment: the process environment plus `POWERPIPE_MOD_DIRECTORY`. */
  function ControlListEnv(processEnv: map<string, string>, modDirectory: string): (r: map<string, string>)
    ensures r.Keys == processEnv.Keys + {"POWERPIPE_MOD_DIRECTORY"}
    ensures r["POWERPIPE_MOD_DIRECTORY"] == modDirectory
    ensures forall k :: k in processEnv && k != "POWERPIPE_MOD_DIRECTORY" ==> r[k] == processEnv[k]
  {
    processEnv["POWERPIPE_MOD_DIRECTORY" := modDirectory]
  }

  const RUN_FAILED := "Failed to run Powerpipe CLI: "
  const OUTPUT_UNPARSABLE := "Failed to parse Powerpipe CLI output: "
  const STDOUT_UNPARSABLE := "Failed to parse Powerpipe CLI stdout: "
  const COMMAND_SUFFIX := ". Command: "

  /** The error of a failed run. */
  function RunFailure(detail: string, cmd: string): Thrown {
    Error(RUN_FAILED + detail + COMMAND_SUFFIX + cmd)
  }

  /** The error of recovered stdout that does not parse or project. */
  function StdoutFailure(detail: string, cmd: string): Thrown {
    Error(STDOUT_UNPARSABLE + detail + COMMAND_SUFFIX + cmd)
  }

  /** The error of clean output that does not parse or project. */
  function OutputFailure(detail: string, cmd: string): Thrown {
    Error(OUTPUT_UNPARSABLE + detail + COMMAND_SUFFIX + cmd)
  }

  /** Each of the three errors is a plain `Error` that opens with its own
      phrase and closes by naming the command. */
  lemma FailuresNameTheCommand(detail: string, cmd: string)
    ensures var e := RunFailure(detail, cmd);
      e.Error? && StartsWith(e.message, RUN_FAILED) && EndsWith(e.message, COMMAND_SUFFIX + cmd)
    ensures var e := StdoutFailure(detail, cmd);
      e.Error? && StartsWith(e.message, STDOUT_UNPARSABLE) && EndsWith(e.message, COMMAND_SUFFIX + cmd)
    ensures var e := OutputFailure(detail, cmd);
      e.Error? && StartsWith(e.message, OUTPUT_UNPARSABLE) && EndsWith(e.message, COMMAND_SUFFIX + cmd)
  {
    Framed(RUN_FAILED, detail, COMMAND_SUFFIX + cmd);
    assert RUN_FAILED + detail + COMMAND_SUFFIX + cmd == RUN_FAILED + detail + (COMMAND_SUFFIX + cmd);
    Framed(STDOUT_UNPARSABLE, detail, COMMAND_SUFFIX + cmd);
    assert STDOUT_UNPARSABLE + detail + COMMAND_SUFFIX + cmd == STDOUT_UNPARSABLE + detail + (COMMAND_SUFFIX + cmd);
    Framed(OUTPUT_UNPARSABLE, detail, COMMAND_SUFFIX + cmd);
    assert OUTPUT_UNPARSABLE + detail + COMMAND_SUFFIX + cmd == OUTPUT_UNPARSABLE + detail + (COMMAND_SUFFIX + cmd);
  }

  /** The handler, for the mod directory the registry reports. */
  function Handle(modDirectory: string, outcome: SpawnOutcome, parse: Parser): (r: Reply)
    ensures r.Return? ==> r.response.Content? && r.response.payload.Obj?
                          && r.response.payload.fields.Keys == {"controls", "debug"}
  {
    var cmd := ControlListCommand(modDirectory);
    match outcome
    case Exited(output) =>
      (match ParseRecords(output, parse, true)
       case Ok(records) => Return(Content(Envelope("controls", Arr(records), cmd)))
       case Err(inner) => Throw(RunFailure(OutputFailure(Message(inner), cmd).message, cmd)))
    case Raised(e) =>
      if HasStderr(e) then
        var errorMessage := Trim(e.stderr.value);
        if errorMessage == "" && HasStdout(e) && e.stdout.value != "" then
          match parse(e.stdout.value)
          case Unparsable(m) => Throw(StdoutFailure(m, cmd))
          case Parsed(v) =>
            if v.Arr? then
              match ProjectAll(v.items, true)
              case Ok(records) => Return(Content(Envelope("controls", Arr(records), cmd)))
              case Err(te) => Throw(StdoutFailure(Message(te), cmd))
            else Throw(RunFailure(errorMessage, cmd))
        else Throw(RunFailure(errorMessage, cmd))
      else Throw(RunFailure(Message(e), cmd))
  }

  /** A parse, shape or projection failure on clean output is caught a second
      time by the outer block, so the message names the command twice. */
  lemma CleanOutputFailureNamesCommandTwice(modDirectory: string, output: string, parse: Parser)
    requires ParseRecords(output, parse, true).Err?
    ensures var cmd := ControlListCommand(modDirectory);
      var m := Message(ParseRecords(output, parse, true).error);
      Handle(modDirectory, Exited(output), parse)
      == Throw(Error(RUN_FAILED + OUTPUT_UNPARSABLE + m + COMMAND_SUFFIX + cmd + COMMAND_SUFFIX + cmd))
  {
    var cmd := ControlListCommand(modDirectory);
    var m := Message(ParseRecords(output, parse, true).error);
    var inner := OUTPUT_UNPARSABLE + m + COMMAND_SUFFIX + cmd;
    assert RUN_FAILED + inner == RUN_FAILED + OUTPUT_UNPARSABLE + m + COMMAND_SUFFIX + cmd;
  }

  /** A failed process with blank stderr whose stdout is a JSON array of
      records answers exactly as a clean run with that stdout. */
  lemma BlankStderrRecoveryMatchesSuccess(modDirectory: string, e: Thrown, parse: Parser)
    requires HasStderr(e) && Trim(e.stderr.value) == ""
    requires HasStdout(e) && e.stdout.value != ""
    requires ParseRecords(e.stdout.value, parse, true).Ok?
    ensures Handle(modDirectory, Raised(e), parse) == Handle(modDirectory, Exited(e.stdout.value), parse)
    ensures Handle(modDirectory, Raised(e), parse).Return?
  {
    RecoveredReply(modDirectory, e, parse);
    CleanReply(modDirectory, e.stdout.value, parse);
  }

  /** The recovery branch's reply for blank stderr and a projectable array. */
  lemma RecoveredReply(modDirectory: string, e: Thrown, parse: Parser)
    requires HasStderr(e) && Trim(e.stderr.value) == ""
    requires HasStdout(e) && e.stdout.value != ""
    requires ParseRecords(e.stdout.value, parse, true).Ok?
    ensures Handle(modDirectory, Raised(e), parse)
            == Return(Content(Envelope("controls", Arr(ParseRecords(e.stdout.value, parse, true).value),
                                       ControlListCommand(modDirectory))))
  {
    var v := parse(e.stdout.value).value;
    assert v.Arr? && ProjectAll(v.items, true) == ParseRecords(e.stdout.value, parse, true);
  }

  /** The clean run's reply for output that projects. */
  lemma CleanReply(modDirectory: string, output: string, parse: Parser)
    requires ParseRecords(output, parse, true).Ok?
    ensures Handle(modDirectory, Exited(output), parse)
            == Return(Content(Envelope("controls", Arr(ParseRecords(output, parse, true).value),
                                       ControlListCommand(modDirectory))))
  {
  }

  /** Blank stderr and stdout that is not JSON: the stdout parse message. */
  lemma BlankStderrUnparsableStdout(modDirectory: string, e: Thrown, parse: Parser)
    requires HasStderr(e) && Trim(e.stderr.value) == ""
    requires HasStdout(e) && e.stdout.value != "" && parse(e.stdout.value).Unparsable?
    ensures Handle(modDirectory, Raised(e), parse)
            == Throw(StdoutFailure(parse(e.stdout.value).message, ControlListCommand(modDirectory)))
  {
  }

  /** Blank stderr and stdout that is JSON but not an array falls through to
      the run failure with an empty detail. */
  lemma BlankStderrNonArrayFallsThrough(modDirectory: string, e: Thrown, parse: Parser)
    requires HasStderr(e) && Trim(e.stderr.value) == ""
    requires HasStdout(e) && e.stdout.value != ""
    requires parse(e.stdout.value).Parsed? && !parse(e.stdout.value).value.Arr?
    ensures Handle(modDirectory, Raised(e), parse) == Throw(RunFailure("", ControlListCommand(modDirectory)))
  {
  }

  /** Visible stderr throws the trimmed stderr, whatever stdout holds. */
  lemma VisibleStderrThrows(modDirectory: string, e: Thrown, parse: Parser)
    requires HasStderr(e) && Trim(e.stderr.value) != ""
    ensures Handle(modDirectory, Raised(e), parse)
            == Throw(RunFailure(Trim(e.stderr.value), ControlListCommand(modDirectory)))
  {
  }

  /** The hand-built command is not what the shared builder gives for the
      same listing: it lacks `--no-update-check` and is 18 characters shorter. */
  lemma DiffersFromBuilder(modDirectory: string)
    ensures |ListTools.ListCommand(ListTools.POWERPIPE_CONTROL_LIST, modDirectory)|
            == |ControlListCommand(modDirectory)| + |" --no-update-check"|
    ensures ListTools.ListCommand(ListTools.POWERPIPE_CONTROL_LIST, modDirectory) != ControlListCommand(modDirectory)
  {
  }
}
