# powerpipe-mcp, modelled in Dafny

powerpipe-mcp is a Model Context Protocol server that exposes the
`powerpipe` command-line tool as a set of tools and one resource. Each tool
validates its arguments, turns them into a `powerpipe` command line, runs
it, and wraps what the process printed. Failures are either returned as an
error response or thrown. A small registry holds the mod location that
every command runs against.

This project models that core. Its external pieces become inputs:

- The process run by `execSync` is a `SpawnOutcome`: the stdout it returned, or the value it threw.
- `JSON.parse` is a `Parser` parameter.
- `path.resolve`, `fs.statSync`, `existsSync` and `os.homedir` are a `Host`: an uninterpreted resolve function, a map from path to node kind, and a home directory.
- The HTTPS request for documentation pages is a `Fetcher`: a function from URL to status code and body, or to a request error.
- The process environment is a `map<string, string>`.

What stays is the string and sequence logic the server adds on top of those
pieces:

- command construction, and the classification of process outcomes;
- recovery of reports from failed runs;
- projection of the CLI's JSON listings;
- argument validators and dashboard flag assembly;
- the mod-location registry (a class with one mutable field);
- the documentation tools' element list, overview and status handling;
- version extraction for the status resource.

Modules. Most follow one source file. `ListTools`, `ModLocationTools` and `DocsHcl` each gather several tools that share their logic. `Values`, `Text` and `Outcomes` model JavaScript behaviour the sources rely on, and `Args`, `CliFailure` and `ListRecords` hold steps that several tools repeat:

- `Values`: JavaScript values and truthiness.
- `Text`: `trim`, `join`, `split`, number rendering.
- `Outcomes`: thrown values, responses, process outcomes.
- `Powerpipe`, `Command`, `PowerpipeRun`: src/utils.
- `Config`: src/services/config.ts.
- `Args`, `CliFailure`, `ListRecords`: argument, catch-block and projection steps that several tools in src/tools repeat.
- `ControlRun`, `DetectionShow`, `ControlList`, `DashboardRun`: one tool each.
- `ListTools`: the ten `... list` tools.
- `ModLocationTools`: mod_location, powerpipe_mod_location, set_mod_location and set_mod_directory.
- `DocsHcl`: powerpipe_docs_hcl and docs_hcl.
- `Status`: src/resources/status.ts.

## Model

| member | source | states |
|---|---|---|
| Values.EnvOr | src/services/config.ts:11-13 | `env[key] \|\| fallback`: the variable when it is set and non-empty, the fallback otherwise |
| Values.Strings | src/tools/dashboard_run.ts:48-56 | the strings of an all-string array, same length, element by element |
| Values.Truthy | src/utils/powerpipe.ts:18 | a truthy value is neither null nor undefined |
| Values.IsObject | src/tools/benchmark_list.ts:25 | `typeof v === 'object' && v !== null` holds only for truthy values |
| Values.Field | src/tools/benchmark_list.ts:22-25 | reading a key gives its value on an object that has it, and `undefined` otherwise |
| Text.TrimStart | src/utils/command.ts:25 | removes exactly the leading whitespace: the result is a suffix, everything cut is whitespace, and the result does not start with whitespace |
| Text.TrimEnd | src/utils/command.ts:25 | the same for trailing whitespace: a prefix, everything cut is whitespace, no trailing whitespace left |
| Text.Trim | src/utils/command.ts:25 | `trim()`: no longer than the input, and neither end of a non-empty result is whitespace |
| Text.TrimIsMiddle | src/utils/command.ts:25 | the trim is the slice of the input after its leading whitespace and before its trailing whitespace; with `Text.Trim`'s end conditions this fixes the result |
| Text.WhitespaceClasses | src/utils/command.ts:25 | space, tab and line breaks are trimmed; no visible ASCII character is |
| Text.TrimIsEmptyIffBlank | src/utils/command.ts:25-28 | a string trims to empty if and only if every character is whitespace, so whitespace-only stderr counts as empty |
| Text.TrimEndDropsTrailing | src/resources/status.ts:29 | trimming text that ends in a non-blank character plus whitespace removes exactly that whitespace |
| Text.TrimOfTrimmed | src/resources/status.ts:29-30 | a string with no whitespace at either end is its own trim |
| Text.JoinConcat | src/utils/powerpipe.ts:22 | joining a concatenation joins the halves with one extra separator |
| Text.JoinFour | src/utils/powerpipe.ts:11-16 | four words joined are the words with three separators |
| Text.JoinEnds | src/utils/powerpipe.ts:22 | a join opens with the first element and closes with the last one |
| Text.Split | src/tools/powerpipe_docs_hcl.ts:41 | splitting always gives at least one piece |
| Text.SplitAfterPiece | src/tools/powerpipe_docs_hcl.ts:41 | splitting a separator-free piece followed by more text extends the first piece |
| Text.SplitJoin | src/tools/powerpipe_docs_hcl.ts:41 | splitting undoes joining when no piece holds the separator |
| Text.DigitChar | src/tools/dashboard_run.ts:127-129 | the character of a digit below ten is a decimal digit |
| Text.NatToString | src/tools/dashboard_run.ts:127-129 | the decimal rendering `${n}` is a non-empty string of digits without a leading zero |
| Text.NatToStringRoundTrip | src/tools/dashboard_run.ts:127-129 | reading the rendering back gives the number, so nothing is lost |
| Text.ConcatEnds | src/utils/command.ts:34 | a concatenation starts with its left part and ends with its right part |
| Text.ReplaceFirst | src/tools/set_mod_directory.ts:15 | `replace` with a target that does not occur leaves the string unchanged |
| Text.ReplaceFirstAt | src/tools/set_mod_directory.ts:15 | only the first occurrence of the target is replaced: the text before it and everything after it are kept |
| Powerpipe.CommandParts | src/utils/powerpipe.ts:11-20 | four words, and a fifth exactly when `output` is non-empty |
| Powerpipe.FixedPartsLayout | src/utils/powerpipe.ts:11-22 | the four fixed words joined are `powerpipe <command> --no-update-check --mod-location "<loc>"` |
| Powerpipe.PartsLayout | src/utils/powerpipe.ts:18-22 | the output word adds ` --output <fmt>` after the fixed flags, and an absent or empty format adds nothing |
| Powerpipe.BuildPowerpipeCommand | src/utils/powerpipe.ts:10-23 | the command is exactly `powerpipe ` + command + the fixed flags + the output suffix |
| Powerpipe.CommandLayout | src/utils/powerpipe.ts:13-15 | the command begins with `powerpipe <command>` verbatim, followed by the fixed flags, even for an empty mod location |
| Powerpipe.ModLocationVerbatim | src/utils/powerpipe.ts:15 | the mod location stands unescaped between two double quotes, so a quote inside it ends the quoted word |
| Powerpipe.OutputFlagIsSuffix | src/utils/powerpipe.ts:18-20 | a non-empty format's flag is the last thing on the line, after the output-less command; otherwise the line equals the output-less command |
| Powerpipe.ModLocationFlagQuotes | src/utils/powerpipe.ts:15 | the flag is `--mod-location "` + the location unchanged + `"` |
| Powerpipe.FixedFlagsOrder | src/utils/powerpipe.ts:14-15 | `--no-update-check` comes first and the mod location flag closes the fixed part |
| Powerpipe.OutputSuffixPresence | src/utils/powerpipe.ts:18-20 | the `--output` part is present exactly for a truthy format and ends with that format |
| Powerpipe.GetPowerpipeEnv | src/utils/powerpipe.ts:30-35 | `POWERPIPE_MOD_LOCATION` is set to the location and every other key keeps its value |
| Command.EffectiveOptions | src/utils/command.ts:9-16 | env is the caller's when given, else the process's; maxBuffer is the caller's when non-zero, else 10 MiB; never zero |
| Command.ExecuteCommand | src/utils/command.ts:11-42 | a clean exit returns stdout unchanged; every failure is a plain `Error` and comes from a thrown value |
| Command.BlankStderrRecoversStdout | src/utils/command.ts:25-29 | whitespace-only stderr with non-empty stdout returns that stdout as if the run succeeded |
| Command.VisibleStderrFails | src/utils/command.ts:25-34 | stderr with a visible character throws `Command execution failed: <trimmed stderr>. Command: <cmd>` |
| Command.NoStderrFailsWithMessage | src/utils/command.ts:37-40 | a thrown value without stderr throws its own message in the same frame |
| Command.FailureMessageShape | src/utils/command.ts:34-40 | the failure message opens with `Command execution failed: ` and ends with `. Command: <cmd>` |
| Command.FailuresNameTheCommand | src/utils/command.ts:34-40 | every thrown error names the command and has no stdout or stderr field |
| Command.ReturnsProcessStdout | src/utils/command.ts:19-29 | whatever is returned is stdout the process produced: on exit, or non-empty stdout attached to an error whose stderr trims to empty |
| Command.BlankStderrWithoutStdoutFails | src/utils/command.ts:25-34 | whitespace-only stderr with absent or empty stdout throws `Command execution failed: . Command: <cmd>` |
| Command.FailureMessage | src/utils/command.ts:34 | the detail sits verbatim right after `Command execution failed: ` |
| Outcomes.Message | src/utils/command.ts:38 | an `Error`'s message, or the string form of any other thrown value |
| Outcomes.Envelope | src/tools/benchmark_list.ts:29-41 | `{key: data, debug: {command}}`: exactly those two keys, the data under the key and the command under `debug` |
| Args.ValidateQualifiedName | src/tools/powerpipe_control_run.ts:11-22 | accepts exactly a truthy object with a non-empty string `qualified_name` and returns it verbatim; otherwise `Arguments must be an object` or `qualified_name is required and must be a string` |
| PowerpipeRun.HandleRunOutput | src/utils/powerpipe_run.ts:23-47 | content only from non-empty stdout that parses; otherwise `formatCommandError(error, cmd)` |
| PowerpipeRun.RecoversParsedStdout | src/utils/powerpipe_run.ts:25-41 | parsable stdout is reported as `{output: parsed, debug: {command}}` |
| PowerpipeRun.UnrecoverableStaysAnError | src/utils/powerpipe_run.ts:25-47 | absent, empty or non-JSON stdout gives the command error, and the parse failure is not rethrown |
| PowerpipeRun.ExitStatusIrrelevant | src/utils/powerpipe_run.ts:7-30 | changing the exit status changes neither whether content is produced nor what content |
| PowerpipeRun.NoRecoveryAfterExecuteCommand | src/utils/powerpipe_run.ts:25 | composed with `executeCommand` (src/utils/command.ts:34,40), recovery never fires, because its errors carry no stdout |
| ControlRun.ControlRunCommand | src/tools/powerpipe_control_run.ts:42 | `powerpipe control run <name>` + fixed flags + ` --output json` |
| ControlRun.Handle | src/tools/powerpipe_control_run.ts:38-84 | validation errors are thrown; once validated, every outcome is returned, never thrown |
| ControlRun.SuccessReportsParsedOutput | src/tools/powerpipe_control_run.ts:45-56 | a clean run with JSON output gives `{output, debug}` |
| ControlRun.UnparsableSuccessIsAnError | src/tools/powerpipe_control_run.ts:51-82 | clean output that is not JSON becomes a SyntaxError without stdout, returned as a command error |
| ControlRun.StderrFailureLosesReport | src/tools/powerpipe_control_run.ts:60-62 | a run failing with visible stderr ends in a command error even if its stdout was a valid report |
| ControlRun.BlankStderrRecoversReport | src/tools/powerpipe_control_run.ts:60-76 | blank stderr with a JSON stdout gives the same reply as a clean run |
| ControlRun.BlankStderrGivesStdout | src/utils/command.ts:25-29 | blank stderr with non-empty stdout makes `executeCommand` return that stdout, as a clean exit would |
| ControlRun.SameOutputSameReply | src/tools/powerpipe_control_run.ts:45-57 | two outcomes with the same successful `executeCommand` output get the same reply |
| CliFailure.DetailLine | src/tools/detection_show.ts:68-78 | a line exists exactly for a present, non-empty value and is prefix + value |
| CliFailure.DetailLines | src/tools/detection_show.ts:68-78 | at most four lines, none empty |
| CliFailure.Classify | src/tools/detection_show.ts:60-82 | SyntaxError gives the parse message with the command; a stderr-carrying error gives the detail lines; anything else is rethrown unchanged |
| CliFailure.AllDetailsInOrder | src/tools/detection_show.ts:68-77 | with every field present the lines are Error, Exit code, Signal, Command in that order |
| CliFailure.OnlyStderrDetail | src/tools/detection_show.ts:68-78 | falsy fields are left out: with only stderr the message is that one line |
| CliFailure.ExecuteCommandErrorsPassThrough | src/tools/detection_show.ts:81 | errors from `executeCommand` are rethrown unchanged |
| DetectionShow.DetectionShowCommand | src/tools/detection_show.ts:42 | `powerpipe detection show <name>` + fixed flags + ` --output json`, name verbatim |
| DetectionShow.Handle | src/tools/detection_show.ts:38-84 | validation errors are thrown; a returned reply needs stdout from the process |
| DetectionShow.ParsedOutputIsReported | src/tools/detection_show.ts:46-59 | parsed output gives `{detection, debug}` |
| DetectionShow.UnparsableOutputThrows | src/tools/detection_show.ts:62-65 | non-JSON output throws `Failed to parse Powerpipe CLI output: <msg>. Command: <cmd>` |
| DetectionShow.ProcessFailureRethrown | src/tools/detection_show.ts:60-82 | a failed process is rethrown as the `executeCommand` error itself |
| ListRecords.OrEmpty | src/tools/benchmark_list.ts:22-24 | `v \|\| ''`: truthy values kept, falsy ones become `''` |
| ListRecords.TagsOrEmpty | src/tools/benchmark_list.ts:25 | a non-null object is kept, anything else becomes `{}` |
| ListRecords.Project | src/tools/benchmark_list.ts:21-26 | exactly the listed fields; string fields kept when truthy, else `''`; tags kept when an object, else `{}` |
| ListRecords.ProjectAll | src/tools/benchmark_list.ts:21-26 | succeeds exactly when no element is null or undefined, preserving length and order; otherwise the TypeError of the first such element |
| ListRecords.ParseRecords | src/tools/benchmark_list.ts:14-27 | a parse error is the SyntaxError; a non-array is `Expected array output from Powerpipe CLI`; an array is projected |
| ListRecords.ProjectIdempotent | src/tools/benchmark_list.ts:21-26 | projecting a projected record changes nothing |
| ListRecords.EmptyRecordDefaults | src/tools/benchmark_list.ts:22-25 | an empty object becomes empty strings and empty tags |
| ListRecords.ExtraFieldsDropped | src/tools/benchmark_list.ts:21-26 | no field outside the fixed set survives |
| ListRecords.ArrayTagsKept | src/tools/benchmark_list.ts:25 | an array passes the object test and is kept as tags |
| ListRecords.ParseRecordsSucceedsIff | src/tools/detection_list.ts:13-25 | parsing succeeds if and only if the output is a JSON array without null or missing elements |
| ListTools.ListCommand | src/tools/powerpipe_benchmark_list.ts:54 | `powerpipe <resource> list` + fixed flags + ` --output json` |
| ListTools.Attempt | src/tools/benchmark_list.ts:56-60 | a run failure propagates unchanged; otherwise the result is the parse and projection of stdout |
| ListTools.Handle | src/tools/benchmark_list.ts:51-84 | success gives the tool's own `{key, debug}` envelope, or `formatResult({key: records}, cmd)` for the one tool that uses it; a failure is returned as `formatCommandError(error, cmd)`, thrown formatted, or classified, per tool |
| ListTools.Success | src/tools/benchmark_list.ts:29-41 | `formatResult` exactly for the tool that uses it, with the records under the key and the command; otherwise the envelope |
| ListTools.Failure | src/tools/benchmark_list.ts:61-83 | a failure is returned only by the returning tools, as `formatCommandError(error, cmd)`; throwing tools throw it formatted; benchmark_list throws the classified error |
| ListTools.ReportedRecordsFollowOutput | src/tools/powerpipe_control_list.ts:14-41 | the reported list has one projected record per printed element, in the CLI's order |
| ListTools.NonArrayIsRejected | src/tools/detection_list.ts:14-17 | non-array JSON fails every list tool with the array message |
| ListTools.BenchmarkListFailures | src/tools/benchmark_list.ts:61-82 | a parse error becomes the parse message; every other failure, including the non-array one, is rethrown unchanged |
| ListTools.ReturningToolsNeverThrow | src/tools/powerpipe_query_list.ts:59-60 | the six returning tools never throw and return `formatCommandError(error, cmd)` on failure |
| ListTools.ThrowingToolsThrowFormatted | src/tools/query_list.ts:59-60 | detection_list, query_list and variable_list throw exactly when the attempt fails, and throw the formatted error |
| ListTools.RecordShapePerTool | src/tools/mod_list.ts:13-25 | only benchmarks and controls keep `tags`: four fields for those, three for the others |
| ListTools.VariableListUsesFormatResult | src/tools/powerpipe_variable_list.ts:44 | powerpipe_variable_list goes through `formatResult({variables}, cmd)`; variable_list builds its own envelope |
| ControlList.ControlListEnv | src/tools/control_list.ts:27-30 | `POWERPIPE_MOD_DIRECTORY` is set and every other variable kept |
| ControlList.ControlListCommand | src/tools/control_list.ts:24 | starts `powerpipe control list --output json ` and ends with the quoted mod directory |
| ControlList.FailuresNameTheCommand | src/tools/control_list.ts:102-115 | each of the three thrown errors is a plain `Error` with its own opening phrase, ending with `. Command: <cmd>` |
| ControlList.Handle | src/tools/control_list.ts:37-116 | a returned reply is always `{controls, debug}` |
| ControlList.CleanOutputFailureNamesCommandTwice | src/tools/control_list.ts:64-115 | a parse or shape failure on clean output is wrapped twice and names the command twice |
| ControlList.BlankStderrRecoveryMatchesSuccess | src/tools/control_list.ts:76-101 | blank stderr with a projectable JSON array gives the same reply as a clean run |
| ControlList.RecoveredReply | src/tools/control_list.ts:76-101 | blank stderr with a projectable JSON array on stdout gives `{controls, debug}` with the projected records |
| ControlList.CleanReply | src/tools/control_list.ts:37-63 | a clean run whose output projects gives `{controls, debug}` with the projected records |
| ControlList.BlankStderrUnparsableStdout | src/tools/control_list.ts:102-104 | blank stderr with non-JSON stdout throws the stdout parse message |
| ControlList.BlankStderrNonArrayFallsThrough | src/tools/control_list.ts:80-109 | blank stderr with non-array JSON throws the run failure with an empty detail |
| ControlList.VisibleStderrThrows | src/tools/control_list.ts:108-109 | visible stderr throws `Failed to run Powerpipe CLI: <stderr>. Command: <cmd>` |
| ControlList.DiffersFromBuilder | src/tools/control_list.ts:24 | the hand-built command lacks `--no-update-check` and differs from the shared builder's |
| DashboardRun.OptionalNat | src/tools/dashboard_run.ts:39-47 | an accepted number is a positive integer equal to the argument |
| DashboardRun.OptionalString | src/tools/dashboard_run.ts:30 | an accepted output is absent or the string given |
| DashboardRun.OptionalBoolean | src/tools/dashboard_run.ts:33-38 | an accepted progress or input is absent or the boolean given |
| DashboardRun.StringList | src/tools/dashboard_run.ts:48-56 | an accepted array keeps its strings in the caller's order; an absent one is empty |
| DashboardRun.AcceptedArgs | src/tools/dashboard_run.ts:19-58 | passing every check includes passing the qualified-name checks |
| DashboardRun.ValidateParams | src/tools/dashboard_run.ts:19-59 | accepts exactly the arguments that pass every check; keeps the name, output, progress, input, the three limits and the three lists as given; the qualified-name errors come first and every error is a plain `Error` |
| DashboardRun.FirstFailingCheckWins | src/tools/dashboard_run.ts:30-58 | the nine checks run in source order; the first failing one picks its message, and passing all nine accepts |
| DashboardRun.SwitchChecksFirst | src/tools/dashboard_run.ts:30-38 | the output, progress and input messages, each after the checks before it pass |
| DashboardRun.LimitChecksNext | src/tools/dashboard_run.ts:39-47 | the max_parallel, query_timeout and dashboard_timeout messages, each after the checks before it pass |
| DashboardRun.ListChecksLast | src/tools/dashboard_run.ts:48-58 | the var, var_file and arg messages, and acceptance once every check passes |
| DashboardRun.PrefixEach | src/tools/dashboard_run.ts:130-132 | one prefixed word per element, in order |
| DashboardRun.FlagIf | src/tools/dashboard_run.ts:124-129 | exactly the given word when present, nothing otherwise |
| DashboardRun.OutputFlag | src/tools/dashboard_run.ts:124 | `--output=<format>` for a non-empty format, nothing otherwise |
| DashboardRun.ProgressFlag | src/tools/dashboard_run.ts:125 | `--progress=<true or false>` whenever a boolean was given |
| DashboardRun.InputFlag | src/tools/dashboard_run.ts:126 | `--input=<true or false>` whenever a boolean was given |
| DashboardRun.NumberFlag | src/tools/dashboard_run.ts:127-129 | the name and the decimal number for a truthy number, nothing otherwise |
| DashboardRun.BoolText | src/tools/dashboard_run.ts:125-126 | `${b}` is `true` exactly for true and `false` exactly for false |
| DashboardRun.OptionFlags | src/tools/dashboard_run.ts:124-129 | at most six single-valued flags |
| DashboardRun.OptionFlagsInSourceOrder | src/tools/dashboard_run.ts:124-129 | output, progress, input, max-parallel, query-timeout, dashboard-timeout: each set option's flag text, after exactly the flags of the set options before it |
| DashboardRun.ListFlags | src/tools/dashboard_run.ts:130-132 | one flag per var, var-file and arg element |
| DashboardRun.PushEach | src/tools/dashboard_run.ts:130-132 | the `forEach` loop appends the prefixed elements in order |
| DashboardRun.OptionParts | src/tools/dashboard_run.ts:121-129 | `dashboard run` followed by the single-valued flags in source order |
| DashboardRun.PushSwitches | src/tools/dashboard_run.ts:124-126 | output, progress and input flags are pushed in that order, each only when set |
| DashboardRun.PushLimits | src/tools/dashboard_run.ts:127-129 | the three numeric flags are pushed in that order, each only when truthy |
| DashboardRun.PushIf | src/tools/dashboard_run.ts:124-129 | a conditional push appends the word exactly when its condition holds |
| DashboardRun.BuildCmdParts | src/tools/dashboard_run.ts:121-135 | the assembled word list is the token list: options, then var, var-file and arg flags, then the name |
| DashboardRun.Handle | src/tools/dashboard_run.ts:115-157 | invalid arguments are thrown; the raw output string is reported with the command; failures are returned |
| DashboardRun.DashboardCommand | src/tools/dashboard_run.ts:137 | the words are space-joined and passed to the builder with no output format |
| DashboardRun.DashboardTokens | src/tools/dashboard_run.ts:121-135 | starts with `dashboard run`, ends with the name, one word per set option and list element |
| DashboardRun.OptionFlagsFollowHead | src/tools/dashboard_run.ts:121-129 | the single-valued flags come right after `dashboard run`, in the order OptionFlagsInSourceOrder gives |
| DashboardRun.ListFlagsInCallerOrder | src/tools/dashboard_run.ts:130-132 | after the options come every `--var=`, then every `--var-file=`, then every `--arg=`, each in the caller's order |
| DashboardRun.FalseFlagsEmitted | src/tools/dashboard_run.ts:125-126 | `--progress=false` and `--input=false` are emitted; only an absent value leaves the flag out |
| DashboardRun.JoinedWordsSplitBack | src/tools/dashboard_run.ts:137 | the joined command splits back into the words when no word contains a space |
| DashboardRun.NoJsonOutputFlag | src/tools/dashboard_run.ts:137 | the command ends with the fixed flags: no `--output json` |
| Config.InitialModLocation | src/services/config.ts:11-13 | the MCP variable if non-empty, else `POWERPIPE_MOD_LOCATION` if non-empty, else `''` |
| Config.ValidateModLocation | src/services/config.ts:30-46 | succeeds exactly when the resolved path is a directory, and returns that path |
| Config.ValidationMessages | src/services/config.ts:35-42 | missing path, non-directory and other filesystem errors each get their own message |
| Config.ConfigurationService.constructor | src/services/config.ts:9-15 | the location starts from the environment |
| Config.ConfigurationService.SetModLocation | src/services/config.ts:53-64 | succeeds exactly when validation does; success stores the resolved path, failure leaves the location unchanged and reports the message |
| Config.ConfigurationService.GetModLocation | src/services/config.ts:70-72 | returns the stored location and changes nothing |
| Config.ConfigurationService.ParseCommandLineArgs | src/services/config.ts:78-90 | a missing or empty `args[2]`, or a failed set, exits with status 1 and leaves the location; otherwise the resolved path is stored |
| Config.Runtime.constructor | src/services/config.ts:6 | no instance yet |
| Config.Runtime.GetInstance | src/services/config.ts:17-22 | created from the environment on the first call, the same object afterwards |
| Config.SameRegistryEveryCall | src/services/config.ts:17-72 | two calls give the same registry, and a location set through the first is read back through the second |
| ModLocationTools.SetResultValue | src/tools/mod_location.ts:51 | the result object is always truthy |
| ModLocationTools.LocationDocument | src/tools/mod_location.ts:44 | `{location}`: one key, holding the location |
| ModLocationTools.SetFailureMessage | src/tools/powerpipe_mod_location.ts:60 | never empty: the registry's message, or a fallback that ends with the location |
| ModLocationTools.ValidateLocationArg | src/tools/mod_location.ts:9-20 | a non-object is a get; a truthy non-string location is the error; a non-empty string location is a set |
| ModLocationTools.ModLocation | src/tools/mod_location.ts:35-61 | a get reports the location unchanged; a set hands on the resolved path and reports it even when the registry refused it |
| ModLocationTools.ValidatePowerpipeLocationArgs | src/tools/powerpipe_mod_location.ts:13-24 | a non-object becomes `{}`; a truthy non-string location is an error response; other objects pass unchanged |
| ModLocationTools.PowerpipeModLocation | src/tools/powerpipe_mod_location.ts:39-69 | never throws; a get leaves the state alone; a set stores the resolved path and reports it, or leaves the state and returns the registry's message |
| ModLocationTools.FallbackOnlyForEmptyMessage | src/tools/powerpipe_mod_location.ts:58-61 | the fallback message appears only when the registry's message is empty, and that happens exactly for a `stat` error other than `ENOENT` whose message is empty |
| ModLocationTools.ValidateSetArgs | src/tools/set_mod_location.ts:9-20 | accepts exactly an object with a non-empty string location; otherwise `Invalid arguments` or `location is required and must be a string` |
| ModLocationTools.SetModLocationTool | src/tools/set_mod_location.ts:36-61 | the resolved path goes to the registry; the reply reports what the registry holds afterwards, the old value when the set failed |
| ModLocationTools.ResolvePath | src/tools/set_mod_directory.ts:12-19 | a leading `~` becomes the home directory before resolving; any other path is resolved unchanged |
| ModLocationTools.Exists | src/tools/set_mod_directory.ts:38 | a path exists only if the filesystem knows it, and every directory or file that `stat` can read exists |
| ModLocationTools.OnlyLeadingTildeExpanded | src/tools/set_mod_directory.ts:15 | only the first `~` is replaced; the rest reaches `resolve` as written |
| ModLocationTools.SetModDirectory | src/tools/set_mod_directory.ts:34-55 | a missing directory throws `Directory does not exist`; success names the resolved path |
| ModLocationTools.MissingDirectoryRejectedFirst | src/tools/set_mod_directory.ts:38-41 | a missing directory is rejected whatever the registry would answer |
| DocsHcl.Bullets | src/tools/powerpipe_docs_hcl.ts:41 | one bullet per element, in order |
| DocsHcl.Bullet | src/tools/powerpipe_docs_hcl.ts:41 | the line opens with the element in backticks and ends with it quoted |
| DocsHcl.GenerateOverview | src/tools/powerpipe_docs_hcl.ts:36-44 | the overview is its lines (title, intro, one bullet per element, closing line) joined by newlines |
| DocsHcl.BulletsAreSingleLines | src/tools/powerpipe_docs_hcl.ts:10-41 | no bullet of a listed element contains a newline |
| DocsHcl.OverviewLayout | src/tools/powerpipe_docs_hcl.ts:36-44 | the overview template equals its lines joined by newlines |
| DocsHcl.FixedLinesAreSingleLines | src/tools/powerpipe_docs_hcl.ts:36-44 | the title, introduction and closing line contain no newline |
| DocsHcl.IntroIsSingleLine | src/tools/powerpipe_docs_hcl.ts:36-44 | the introduction contains no newline |
| DocsHcl.OutroIsSingleLine | src/tools/powerpipe_docs_hcl.ts:36-44 | the closing line contains no newline |
| DocsHcl.NoNewlineIn | src/tools/powerpipe_docs_hcl.ts:36-44 | a string with no newline at any index contains no newline |
| DocsHcl.OverviewSplitsBack | src/tools/powerpipe_docs_hcl.ts:36-44 | splitting an overview of this layout at newlines gives back its lines |
| DocsHcl.OverviewListsEveryElementOnce | src/tools/powerpipe_docs_hcl.ts:36-44 | line by line, the overview is four heading lines, one bullet per element in list order, and two closing lines |
| DocsHcl.DocsUrl | src/tools/powerpipe_docs_hcl.ts:67 | the fixed prefix, then the element verbatim, then `.md` |
| DocsHcl.FetchDocs | src/tools/powerpipe_docs_hcl.ts:66-93 | 200 gives the body; 404 gives `Documentation not found for element: X`; other codes give `Failed to fetch documentation: HTTP <code>`; a request error propagates |
| DocsHcl.ValidateElementArgs | src/tools/powerpipe_docs_hcl.ts:46-64 | accepts exactly an object whose element is absent or a listed string; the three rejections carry their messages |
| DocsHcl.NoEmptyElement | src/tools/powerpipe_docs_hcl.ts:10-34 | no listed element is empty |
| DocsHcl.PowerpipeDocsHcl | src/tools/powerpipe_docs_hcl.ts:109-126 | argument errors are thrown; no element gives the overview; fetch errors are returned without a command |
| DocsHcl.OverviewNeedsNoFetch | src/tools/powerpipe_docs_hcl.ts:113-115 | without an element the reply is the overview and does not depend on the network |
| DocsHcl.OnlyListedPagesFetched | src/tools/powerpipe_docs_hcl.ts:54-61 | only the listed pages are ever requested: fetchers that agree on the 23 documentation URLs give the same reply to every call |
| DocsHcl.ValidateRequiredElement | src/tools/docs_hcl.ts:10-21 | accepts exactly an object with a non-empty string element; otherwise one of the two messages |
| DocsHcl.DocsHclTool | src/tools/docs_hcl.ts:66-80 | argument errors are thrown; the page is fetched and failures are returned without a command |
| DocsHcl.UnlistedElementReachesNetwork | src/tools/docs_hcl.ts:23-24 | an unlisted name is fetched by docs_hcl, where powerpipe_docs_hcl would have thrown |
| Status.StatusCommand | src/resources/status.ts:25 | `powerpipe --version` plus the fixed flags with an empty mod location |
| Status.DigitRun | src/resources/status.ts:29 | a run of digits never reaches past the end |
| Status.GroupAt | src/resources/status.ts:29 | capture group 1 is a slice of the text at the match position |
| Status.FirstMatchAt | src/resources/status.ts:29 | the leftmost matching position: nothing before it matches; no result means no position matches |
| Status.MatchAt | src/resources/status.ts:29 | the pattern matches wherever group 1 does, and a match is group 1 there or, after a `v` or `V`, one character on |
| Status.StatusDocument | src/resources/status.ts:36-44 | two keys: the Powerpipe version, and the server version and start time from the environment, each `unknown` when unset or empty |
| Status.DigitRunInSlice | src/resources/status.ts:29 | a digit run measured inside a slice is the whole-string run cut at the slice end |
| Status.GroupIsVersionNumber | src/resources/status.ts:29 | what group 1 captures is digits.digits with an optional .digits, never the `v` |
| Status.MatchIsVersionNumber | src/resources/status.ts:29 | the same holds for the whole pattern, with or without the `v` |
| Status.ExtractVersion | src/resources/status.ts:29-30 | group 1 of the leftmost match in the trimmed output, which is a version number; the whole trimmed output when nothing matches |
| Status.NoDigitsFallsBack | src/resources/status.ts:30 | output without digits is reported trimmed |
| Status.NoMatchWithoutDigit | src/resources/status.ts:29 | the pattern cannot match where neither the character nor the next one is a digit |
| Status.DigitRunOver | src/resources/status.ts:29 | a run of digits ended by a non-digit is measured exactly |
| Status.FirstMatchFinds | src/resources/status.ts:29 | the search stops at the first matching position |
| Status.ReleaseNumberRead | src/resources/status.ts:29-30 | for `<words> v<major>.<minor>.<patch>` and trailing whitespace, the version is exactly `<major>.<minor>.<patch>`: the `v` is dropped and the third part kept |
| Status.TrimmedReleaseLine | src/resources/status.ts:29 | trimming a line ending in a digit drops only the whitespace after it |
| Status.PrefixNeverMatches | src/resources/status.ts:29 | no position inside a digit-free prefix matches |
| Status.GroupTakesRelease | src/resources/status.ts:29 | three dotted digit runs filling the rest of the text are captured whole |
| Status.GroupFromRuns | src/resources/status.ts:29 | group 1 read off three run lengths covers all three runs |
| Status.RunBeforeDot | src/resources/status.ts:29 | a digit run followed by a dot is measured exactly |
| Status.RunToEnd | src/resources/status.ts:29 | a digit run that ends the text is measured exactly |
| Status.HandleStatusResource | src/resources/status.ts:18-51 | any URI other than `powerpipe://status` gives null; otherwise the document holds the extracted version and the server fields defaulting to `unknown`; a failure is thrown formatted without a command |

## Left out

- Process spawning. `execSync` is replaced by its outcome, an input. The `encoding` option and the buffer limit's effect are not modelled.
- `JSON.parse` and `JSON.stringify`. Parsing is a parameter. A `Content` response stands for the text block holding the stringified payload, so indentation is not modelled.
- `formatCommandError` and the shared `formatResult` are not part of this model. They are opaque constructors of `Outcomes.Response`, and their shapes are not invented.
- The HTTPS request and the accumulation of its chunks. Only the URL, the status branching and the body or error that come back are modelled. Status codes are natural numbers.
- Logging. It is a side channel with no effect on results.
- `async`/`await`. Each handler is sequential, and the model has no concurrency.
- The filesystem, `path.resolve` and `os.homedir`. They are uninterpreted inputs in `Config.Host`.
- The registry methods that the tools call but `ConfigurationService` does not define: `getModDirectory`, `setModDirectory`, `resetModDirectory` and `resetModLocation`. As written, those calls throw a TypeError at run time.
  - control_list receives the directory as an input.
  - set_mod_directory receives the result of the missing call as a boolean.
  - The reset tools are not modelled.
- ModLocationTools.SetModDirectory: the TypeError that the missing `setModDirectory` method raises is not modelled. The call's result is taken as an input instead.
- ControlList.Handle: does not model the TypeError that the missing `getModDirectory` call raises before the command is built.
- Text.IsWhitespace uses the ECMAScript WhiteSpace and LineTerminator set as of ES2023. Later Unicode changes to the space separators are not followed.
- Text.NatToString covers integers only. The exponent notation that `${n}` uses from 1e21 upward is not modelled.
- Text.ReplaceFirst handles a plain replacement string. `$` patterns in the home directory are not interpreted.
- Status.ExtractVersion: `\d` is read as the ASCII digits 0-9, as JavaScript defines it without the `u` flag. The `i` flag matters only for the `v`.
- DashboardRun.FalseFlagsEmitted: states the word as `"--progress=" + "false"`, the form the handler builds, rather than as one literal.
- The thin wrappers are not modelled: the show handlers, the run handlers that delegate to the run-output recovery, and the passthrough list tools. They add nothing beyond build, execute, parse and wrap, which the modelled tools cover.
- Protocol plumbing is not modelled: tool and resource registration, schemas, prompts, and the resource templates.
- JSON key order. Objects are maps, so the order in which `JSON.stringify` writes keys is not modelled: for example the record fields `title, qualified_name, documentation, tags`, the envelope's key before `debug`, and the status document's `powerpipe` before `server`.
- Numbers. Tool arguments are JSON numbers, modelled as reals. The validator's `Number.isInteger` check is exact.
