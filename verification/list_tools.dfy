/** The ten `... list` tools. Each runs `powerpipe <resource> list` with JSON
    output, projects the array it prints, and wraps the records; they differ
    only in the resource, the reported key, whether `tags` is kept and what
    happens to a failure. */
module ListTools {
  import opened Values
  import opened Outcomes
  import opened Powerpipe
  import opened Command
  import opened ListRecords
  import opened CliFailure

  /** What a tool's catch block does with the error. */
  datatype FailureMode =
      /** `return formatCommandError(error, cmd)` */
    | ReturnError
      /** `throw formatCommandError(error, cmd)` */
    | ThrowError
      /** The parse-message / process-details / rethrow block. */
    | ThrowClassified

  /** One list tool. `viaFormatResult` marks the tool that hands `{key: records}`
      to the shared `formatResult` instead of building its own envelope. */
  datatype ListTool = ListTool(subcommand: string, key: string, withTags: bool,
                               onFailure: FailureMode, viaFormatResult: bool)

  const BENCHMARK_LIST := ListTool("benchmark list", "benchmarks", true, ThrowClassified, false)
  const POWERPIPE_BENCHMARK_LIST := ListTool("benchmark list", "benchmarks", true, ReturnError, false)
  const POWERPIPE_CONTROL_LIST := ListTool("control list", "controls", true, ReturnError, false)
  const DETECTION_LIST := ListTool("detection list", "detections", false, ThrowError, false)
  const POWERPIPE_DETECTION_LIST := ListTool("detection list", "detections", false, ReturnError, false)
  const QUERY_LIST := ListTool("query list", "queries", false, ThrowError, false)
  const POWERPIPE_QUERY_LIST := ListTool("query list", "queries", false, ReturnError, false)
  const VARIABLE_LIST := ListTool("variable list", "variables", false, ThrowError, false)
  const POWERPIPE_VARIABLE_LIST := ListTool("variable list", "variables", false, ReturnError, true)
  const MOD_LIST := ListTool("mod list", "mods", false, ReturnError, false)

  /** The command line of a list tool. */
  function ListCommand(tool: ListTool, modLocation: string): (cmd: string)
    ensures cmd == "powerpipe " + tool.subcommand + FixedFlags(modLocation) + " --output json"
  {
    BuildPowerpipeCommand(tool.subcommand, modLocation, Some("json"))
  }

  /** The body of the `try`: run, then parse and project. */
  function Attempt(tool: ListTool, cmd: string, outcome: SpawnOutcome, parse: Parser): (r: Result<seq<Value>, Thrown>)
    ensures ExecuteCommand(cmd, outcome).Err? ==> r == Err(ExecuteCommand(cmd, outcome).error)
    ensures ExecuteCommand(cmd, outcome).Ok? ==> r == ParseRecords(ExecuteCommand(cmd, outcome).value, parse, tool.withTags)
  {
    match ExecuteCommand(cmd, outcome)
    case Err(e) => Err(e)
    case Ok(output) => ParseRecords(output, parse, tool.withTags)
  }

  /** What the tool hands back for a successful attempt. */
  function Success(tool: ListTool, records: seq<Value>, cmd: string): (r: Response)
    ensures r.FormattedResult? <==> tool.viaFormatResult
    ensures r.FormattedResult? ==> r.data == Obj(map[tool.key := Arr(records)]) && r.resultCommand == cmd
    ensures r.Content? ==> r.payload == Envelope(tool.key, Arr(records), cmd)
  {
    if tool.viaFormatResult then FormattedResult(Obj(map[tool.key := Arr(records)]), cmd)
    else Content(Envelope(tool.key, Arr(records), cmd))
  }

  /** What the tool does with a failed attempt. */
  function Failure(tool: ListTool, error: Thrown, cmd: string): (r: Reply)
    ensures r.Return? <==> tool.onFailure == ReturnError
    ensures r.Return? ==> r.response == CommandError(error, Some(cmd))
    ensures tool.onFailure == ThrowError ==> r.error == Formatted(CommandError(error, Some(cmd)))
    ensures tool.onFailure == ThrowClassified ==> r.error == Classify(error, cmd)
  {
    match tool.onFailure
    case ReturnError => Return(CommandError(error, Some(cmd)))
    case ThrowError => Throw(Formatted(CommandError(error, Some(cmd))))
    case ThrowClassified => Throw(Classify(error, cmd))
  }

  /** The handler of a list tool. */
  function Handle(tool: ListTool, modLocation: string, outcome: SpawnOutcome, parse: Parser): (r: Reply)
    ensures var cmd := ListCommand(tool, modLocation);
      var a := Attempt(tool, cmd, outcome, parse);
      && (a.Ok? && tool.viaFormatResult ==> r == Return(FormattedResult(Obj(map[tool.key := Arr(a.value)]), cmd)))
      && (a.Ok? && !tool.viaFormatResult ==> r == Return(Content(Envelope(tool.key, Arr(a.value), cmd))))
      && (a.Err? && tool.onFailure == ReturnError ==> r == Return(CommandError(a.error, Some(cmd))))
      && (a.Err? && tool.onFailure == ThrowError ==> r == Throw(Formatted(CommandError(a.error, Some(cmd)))))
      && (a.Err? && tool.onFailure == ThrowClassified ==> r == Throw(Classify(a.error, cmd)))
  {
    var cmd := ListCommand(tool, modLocation);
    match Attempt(tool, cmd, outcome, parse)
    case Ok(records) => Return(Success(tool, records, cmd))
    case Err(e) => Failure(tool, e, cmd)
  }

  /** On success the reported list has one projected record per element the
      CLI printed, in the CLI's order. */
  lemma ReportedRecordsFollowOutput(tool: ListTool, modLocation: string, stdout: string, parse: Parser)
    requires parse(stdout).Parsed? && parse(stdout).value.Arr?
    requires forall i :: 0 <= i < |parse(stdout).value.items| ==> !IsNullish(parse(stdout).value.items[i])
    ensures var items := parse(stdout).value.items;
      var r := Handle(tool, modLocation, Exited(stdout), parse);
      && r.Return?
      && (exists records ::
            && r.response == Success(tool, records, ListCommand(tool, modLocation))
            && |records| == |items|
            && forall i :: 0 <= i < |items| ==> records[i] == Project(items[i], tool.withTags))
  {
    var items := parse(stdout).value.items;
    var records := ProjectAll(items, tool.withTags).value;
    assert Handle(tool, modLocation, Exited(stdout), parse).response == Success(tool, records, ListCommand(tool, modLocation));
  }

  /** A JSON value that is not an array is a failure of every list tool,
      with the message "Expected array output from Powerpipe CLI". */
  lemma NonArrayIsRejected(tool: ListTool, modLocation: string, stdout: string, parse: Parser)
    requires parse(stdout).Parsed? && !parse(stdout).value.Arr?
    ensures Handle(tool, modLocation, Exited(stdout), parse)
            == Failure(tool, Error(NOT_AN_ARRAY), ListCommand(tool, modLocation))
  {
  }

  /** benchmark_list: `{benchmarks, debug}` with tags; a parse error becomes
      the parse message, and every other failure, the non-array error
      included, is rethrown unchanged because none carries stderr. */
  lemma BenchmarkListFailures(modLocation: string, outcome: SpawnOutcome, parse: Parser)
    requires Attempt(BENCHMARK_LIST, ListCommand(BENCHMARK_LIST, modLocation), outcome, parse).Err?
    ensures var cmd := ListCommand(BENCHMARK_LIST, modLocation);
      var e := Attempt(BENCHMARK_LIST, cmd, outcome, parse).error;
      && (e.SyntaxError? ==> Handle(BENCHMARK_LIST, modLocation, outcome, parse)
                             == Throw(Error("Failed to parse Powerpipe CLI output: " + e.message + ". Command: " + cmd)))
      && (!e.SyntaxError? ==> Handle(BENCHMARK_LIST, modLocation, outcome, parse) == Throw(e))
  {
    var cmd := ListCommand(BENCHMARK_LIST, modLocation);
    if ExecuteCommand(cmd, outcome).Err? {
      FailuresNameTheCommand(cmd, outcome);
    }
  }

  /** The tools whose catch block returns `formatCommandError(error, cmd)`:
      powerpipe_benchmark_list, powerpipe_control_list,
      powerpipe_detection_list, powerpipe_query_list, powerpipe_variable_list
      and mod_list never throw. */
  lemma ReturningToolsNeverThrow(tool: ListTool, modLocation: string, outcome: SpawnOutcome, parse: Parser)
    requires tool in {POWERPIPE_BENCHMARK_LIST, POWERPIPE_CONTROL_LIST, POWERPIPE_DETECTION_LIST,
                      POWERPIPE_QUERY_LIST, POWERPIPE_VARIABLE_LIST, MOD_LIST}
    ensures var cmd := ListCommand(tool, modLocation);
      var r := Handle(tool, modLocation, outcome, parse);
      && r.Return?
      && (Attempt(tool, cmd, outcome, parse).Err? ==> r.response == CommandError(Attempt(tool, cmd, outcome, parse).error, Some(cmd)))
  {
  }

  /** detection_list, query_list and variable_list throw the formatted error
      instead of returning it; success never throws. */
  lemma ThrowingToolsThrowFormatted(tool: ListTool, modLocation: string, outcome: SpawnOutcome, parse: Parser)
    requires tool in {DETECTION_LIST, QUERY_LIST, VARIABLE_LIST}
    ensures var cmd := ListCommand(tool, modLocation);
      var r := Handle(tool, modLocation, outcome, parse);
      && (r.Throw? <==> Attempt(tool, cmd, outcome, parse).Err?)
      && (r.Throw? ==> r.error == Formatted(CommandError(Attempt(tool, cmd, outcome, parse).error, Some(cmd))))
  {
  }

  /** Only benchmarks and controls keep `tags`; the other kinds report exactly
      title, qualified_name and documentation. */
  lemma RecordShapePerTool(tool: ListTool, raw: Value)
    requires tool in {BENCHMARK_LIST, POWERPIPE_BENCHMARK_LIST, POWERPIPE_CONTROL_LIST, DETECTION_LIST,
                      POWERPIPE_DETECTION_LIST, QUERY_LIST, POWERPIPE_QUERY_LIST, VARIABLE_LIST,
                      POWERPIPE_VARIABLE_LIST, MOD_LIST}
    requires !IsNullish(raw)
    ensures "tags" in Project(raw, tool.withTags).fields <==> tool.key in {"benchmarks", "controls"}
    ensures |Project(raw, tool.withTags).fields| == if tool.key in {"benchmarks", "controls"} then 4 else 3
  {
  }

  /** powerpipe_variable_list hands `{variables}` and the command to the
      shared `formatResult`; every other list tool builds `{key, debug}`. */
  lemma VariableListUsesFormatResult(records: seq<Value>, cmd: string)
    ensures Success(POWERPIPE_VARIABLE_LIST, records, cmd) == FormattedResult(Obj(map["variables" := Arr(records)]), cmd)
    ensures Success(VARIABLE_LIST, records, cmd) == Content(Envelope("variables", Arr(records), cmd))
  {
  }
}
