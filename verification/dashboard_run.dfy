/** The `dashboard_run` tool (src/tools/dashboard_run.ts): argument checks,
    then the word list of `powerpipe dashboard run`, assembled flag by flag. */
module DashboardRun {
  import opened Values
  import opened Text
  import opened Outcomes
  import opened Powerpipe
  import opened Command
  import opened Args

  /** The parameters once `validateParams` has accepted them. An absent array
      is the empty sequence: pushing one flag per element of nothing and not
      pushing at all are the same. */
  datatype DashboardParams = DashboardParams(
    qualifiedName: string,
    output: Option<string>,
    progress: Option<bool>,
    input: Option<bool>,
    maxParallel: Option<nat>,
    queryTimeout: Option<nat>,
    dashboardTimeout: Option<nat>,
    vars: seq<string>,
    varFiles: seq<string>,
    args: seq<string>)

  const OUTPUT_FORMATS := ["snapshot", "pps", "none"]

  /** `v === undefined || ['snapshot', 'pps', 'none'].includes(v)` */
  predicate ValidOutput(v: Value) {
    v.Undefined? || (v.Str? && v.s in OUTPUT_FORMATS)
  }

  /** `v === undefined || typeof v === 'boolean'` */
  predicate OptionalBool(v: Value) {
    v.Undefined? || v.Bool?
  }

  /** `v === undefined || (Number.isInteger(v) && v > 0)` */
  predicate OptionalPositiveInteger(v: Value) {
    v.Undefined? || (IsInteger(v) && v.n > 0.0)
  }

  /** `v === undefined || (Array.isArray(v) && v.every(x => typeof x === 'string'))` */
  predicate OptionalStringArray(v: Value) {
    v.Undefined? || IsStringArray(v)
  }

  /** An accepted `output`: absent, or the string given. */
  function OptionalString(v: Value): (r: Option<string>)
    ensures r.Some? <==> v.Str?
    ensures r.Some? ==> Str(r.value) == v
  {
    if v.Str? then Some(v.s) else None
  }

  /** An accepted `progress` or `input`: absent, or the boolean given. */
  function OptionalBoolean(v: Value): (r: Option<bool>)
    ensures r.Some? <==> v.Bool?
    ensures r.Some? ==> Bool(r.value) == v
  {
    if v.Bool? then Some(v.b) else None
  }

  function OptionalNat(v: Value): (r: Option<nat>)
    requires OptionalPositiveInteger(v)
    ensures r.Some? <==> v.Num?
    ensures r.Some? ==> r.value > 0 && r.value as real == v.n
  {
    if v.Num? then Some(v.n.Floor as nat) else None
  }

  /** The caller's array as a list of strings, in the caller's order; an
      absent array is the empty list. */
  function StringList(v: Value): (r: seq<string>)
    requires OptionalStringArray(v)
    ensures v.Undefined? ==> r == []
    ensures v.Arr? ==> |r| == |v.items| && forall i :: 0 <= i < |r| ==> Str(r[i]) == v.items[i]
  {
    if v.Arr? then Strings(v.items) else []
  }

  /** Every check of `validateParams` passes. */
  predicate AcceptedArgs(args: Value)
    ensures AcceptedArgs(args) ==> ValidateQualifiedName(args).Ok?
  {
    && IsArgumentObject(args)
    && IsNonEmptyString(Field(args, "qualified_name"))
    && ValidOutput(Field(args, "output"))
    && OptionalBool(Field(args, "progress")) && OptionalBool(Field(args, "input"))
    && OptionalPositiveInteger(Field(args, "max_parallel"))
    && OptionalPositiveInteger(Field(args, "query_timeout"))
    && OptionalPositiveInteger(Field(args, "dashboard_timeout"))
    && OptionalStringArray(Field(args, "var")) && OptionalStringArray(Field(args, "var_file"))
    && OptionalStringArray(Field(args, "arg"))
  }

  /** `validateParams(args)`: the checks in source order, the first failing
      one choosing the message. */
  function ValidateParams(args: Value): (r: Result<DashboardParams, Thrown>)
    ensures r.Ok? <==> AcceptedArgs(args)
    ensures r.Ok? ==>
      && Str(r.value.qualifiedName) == Field(args, "qualified_name")
      && r.value.output == OptionalString(Field(args, "output"))
      && (r.value.output.Some? ==> r.value.output.value in OUTPUT_FORMATS)
      && r.value.progress == OptionalBoolean(Field(args, "progress"))
      && r.value.input == OptionalBoolean(Field(args, "input"))
      && (r.value.progress.Some? <==> !Field(args, "progress").Undefined?)
      && (r.value.input.Some? <==> !Field(args, "input").Undefined?)
    ensures r.Ok? ==>
      && r.value.maxParallel == OptionalNat(Field(args, "max_parallel"))
      && r.value.queryTimeout == OptionalNat(Field(args, "query_timeout"))
      && r.value.dashboardTimeout == OptionalNat(Field(args, "dashboard_timeout"))
    ensures r.Ok? ==>
      && r.value.vars == StringList(Field(args, "var"))
      && r.value.varFiles == StringList(Field(args, "var_file"))
      && r.value.args == StringList(Field(args, "arg"))
    ensures ValidateQualifiedName(args).Err? ==> r == Err(ValidateQualifiedName(args).error)
    ensures r.Err? ==> r.error.Error?
  {
    match ValidateQualifiedName(args)
    case Err(e) => Err(e)
    case Ok(name) =>
      var output := Field(args, "output");
      var progress := Field(args, "progress");
      var input := Field(args, "input");
      var maxParallel := Field(args, "max_parallel");
      var queryTimeout := Field(args, "query_timeout");
      var dashboardTimeout := Field(args, "dashboard_timeout");
      var vars := Field(args, "var");
      var varFiles := Field(args, "var_file");
      var argList := Field(args, "arg");
      if !ValidOutput(output) then Err(Error("output must be one of: snapshot, pps, none"))
      else if !OptionalBool(progress) then Err(Error("progress must be a boolean"))
      else if !OptionalBool(input) then Err(Error("input must be a boolean"))
      else if !OptionalPositiveInteger(maxParallel) then Err(Error("max_parallel must be a positive integer"))
      else if !OptionalPositiveInteger(queryTimeout) then Err(Error("query_timeout must be a positive integer"))
      else if !OptionalPositiveInteger(dashboardTimeout) then Err(Error("dashboard_timeout must be a positive integer"))
      else if !OptionalStringArray(vars) then Err(Error("var must be an array of strings"))
      else if !OptionalStringArray(varFiles) then Err(Error("var_file must be an array of strings"))
      else if !OptionalStringArray(argList) then Err(Error("arg must be an array of strings"))
      else Ok(DashboardParams(name, OptionalString(output), OptionalBoolean(progress), OptionalBoolean(input),
                              OptionalNat(maxParallel), OptionalNat(queryTimeout), OptionalNat(dashboardTimeout),
                              StringList(vars), StringList(varFiles), StringList(argList)))
  }

  /** `${b}` for a boolean. */
  function BoolText(b: bool): (r: string)
    ensures r == "true" <==> b
    ensures r == "false" <==> !b
  {
    if b then "true" else "false"
  }

  /** `[prefix + x for x in xs]`, defined from the end as the loop builds it. */
  function PrefixEach(prefix: string, xs: seq<string>): (r: seq<string>)
    ensures |r| == |xs|
    ensures forall i :: 0 <= i < |xs| ==> r[i] == prefix + xs[i]
  {
    if xs == [] then [] else PrefixEach(prefix, xs[..|xs| - 1]) + [prefix + xs[|xs| - 1]]
  }

  /** One flag word when `present`, nothing otherwise. */
  function FlagIf(present: bool, word: string): (r: seq<string>)
    ensures present ==> r == [word]
    ensures !present ==> r == []
  {
    if present then [word] else []
  }

  /** `--output=<format>` when the format is a non-empty string. */
  function OutputFlag(p: DashboardParams): (r: seq<string>)
    ensures p.output.Some? && p.output.value != "" ==> r == ["--output=" + p.output.value]
    ensures p.output.None? || p.output.value == "" ==> r == []
  {
    FlagIf(p.output.Some? && p.output.value != "", "--output=" + (if p.output.Some? then p.output.value else ""))
  }

  /** `--progress=true` or `--progress=false` whenever a boolean was given. */
  function ProgressFlag(p: DashboardParams): (r: seq<string>)
    ensures p.progress.Some? ==> r == ["--progress=" + BoolText(p.progress.value)]
    ensures p.progress.None? ==> r == []
  {
    FlagIf(p.progress.Some?, "--progress=" + (if p.progress.Some? then BoolText(p.progress.value) else ""))
  }

  /** `--input=true` or `--input=false` whenever a boolean was given. */
  function InputFlag(p: DashboardParams): (r: seq<string>)
    ensures p.input.Some? ==> r == ["--input=" + BoolText(p.input.value)]
    ensures p.input.None? ==> r == []
  {
    FlagIf(p.input.Some?, "--input=" + (if p.input.Some? then BoolText(p.input.value) else ""))
  }

  /** `${n}` flag for a numeric option, present only when the number is truthy. */
  function NumberFlag(name: string, n: Option<nat>): (r: seq<string>)
    ensures n.Some? && n.value != 0 ==> r == [name + NatToString(n.value)]
    ensures n.None? || n.value == 0 ==> r == []
  {
    FlagIf(n.Some? && n.value != 0, name + NatToString(if n.Some? then n.value else 0))
  }

  /** The single-valued flags, in source order, each present only when set. */
  function OptionFlags(p: DashboardParams): (r: seq<string>)
    ensures |r| <= 6
  {
    OutputFlag(p) + ProgressFlag(p) + InputFlag(p)
    + NumberFlag("--max-parallel=", p.maxParallel)
    + NumberFlag("--query-timeout=", p.queryTimeout)
    + NumberFlag("--dashboard-timeout=", p.dashboardTimeout)
  }

  /** The repeated flags: every `--var=`, then every `--var-file=`, then
      every `--arg=`. */
  function ListFlags(p: DashboardParams): (r: seq<string>)
    ensures |r| == |p.vars| + |p.varFiles| + |p.args|
  {
    PrefixEach("--var=", p.vars) + PrefixEach("--var-file=", p.varFiles) + PrefixEach("--arg=", p.args)
  }

  /** The word list the handler assembles: `dashboard run`, one word per set
      option and per list element, and the dashboard name last. */
  function DashboardTokens(p: DashboardParams): (t: seq<string>)
    ensures |t| == 3 + |OptionFlags(p)| + |p.vars| + |p.varFiles| + |p.args|
    ensures t[0] == "dashboard" && t[1] == "run" && t[|t| - 1] == p.qualifiedName
  {
    ["dashboard", "run"] + OptionFlags(p) + ListFlags(p) + [p.qualifiedName]
  }

  /** `items.forEach(v => parts.push(prefix + v))` */
  method PushEach(parts: seq<string>, prefix: string, items: seq<string>) returns (r: seq<string>)
    ensures r == parts + PrefixEach(prefix, items)
  {
    r := parts;
    var i := 0;
    while i < |items|
      invariant 0 <= i <= |items|
      invariant r == parts + PrefixEach(prefix, items[..i])
    {
      assert items[..i + 1][..i] == items[..i];
      r := r + [prefix + items[i]];
      i := i + 1;
    }
    assert items[..|items|] == items;
  }

  /** `['dashboard', 'run']` followed by the single-valued flags, each pushed
      only when its option is set. */
  method OptionParts(p: DashboardParams) returns (parts: seq<string>)
    ensures parts == ["dashboard", "run"] + OptionFlags(p)
  {
    var head := ["dashboard", "run"];
    var switches := PushSwitches(head, p);
    parts := PushLimits(switches, p);
    Regroup(head, OutputFlag(p), ProgressFlag(p), InputFlag(p),
            NumberFlag("--max-parallel=", p.maxParallel), NumberFlag("--query-timeout=", p.queryTimeout),
            NumberFlag("--dashboard-timeout=", p.dashboardTimeout));
  }

  /** The pushes for `output`, `progress` and `input`. */
  method PushSwitches(parts: seq<string>, p: DashboardParams) returns (r: seq<string>)
    ensures r == parts + OutputFlag(p) + ProgressFlag(p) + InputFlag(p)
  {
    r := PushIf(parts, p.output.Some? && p.output.value != "",
                "--output=" + (if p.output.Some? then p.output.value else ""));
    r := PushIf(r, p.progress.Some?,
                "--progress=" + (if p.progress.Some? then BoolText(p.progress.value) else ""));
    r := PushIf(r, p.input.Some?,
                "--input=" + (if p.input.Some? then BoolText(p.input.value) else ""));
  }

  /** The pushes for the three numeric limits. */
  method PushLimits(parts: seq<string>, p: DashboardParams) returns (r: seq<string>)
    ensures r == parts + NumberFlag("--max-parallel=", p.maxParallel)
                 + NumberFlag("--query-timeout=", p.queryTimeout)
                 + NumberFlag("--dashboard-timeout=", p.dashboardTimeout)
  {
    r := PushIf(parts, p.maxParallel.Some? && p.maxParallel.value != 0,
                "--max-parallel=" + NatToString(if p.maxParallel.Some? then p.maxParallel.value else 0));
    r := PushIf(r, p.queryTimeout.Some? && p.queryTimeout.value != 0,
                "--query-timeout=" + NatToString(if p.queryTimeout.Some? then p.queryTimeout.value else 0));
    r := PushIf(r, p.dashboardTimeout.Some? && p.dashboardTimeout.value != 0,
                "--dashboard-timeout=" + NatToString(if p.dashboardTimeout.Some? then p.dashboardTimeout.value else 0));
  }

  /** `if (present) parts.push(word)` */
  method PushIf(parts: seq<string>, present: bool, word: string) returns (r: seq<string>)
    ensures r == parts + FlagIf(present, word)
  {
    r := parts;
    if present {
      r := r + [word];
    }
  }

  /** Pushing three blocks one after the other appends their concatenation. */
  lemma Regroup3<T>(h: seq<T>, a: seq<T>, b: seq<T>, c: seq<T>)
    ensures h + a + b + c == h + (a + b + c)
  {
  }

  /** Pushing six blocks one after the other appends their concatenation. */
  lemma Regroup(h: seq<string>, a: seq<string>, b: seq<string>, c: seq<string>,
                d: seq<string>, e: seq<string>, f: seq<string>)
    ensures h + a + b + c + d + e + f == h + (a + b + c + d + e + f)
  {
    assert h + a + b == h + (a + b);
    assert h + (a + b) + c == h + (a + b + c);
    assert h + (a + b + c) + d == h + (a + b + c + d);
    assert h + (a + b + c + d) + e == h + (a + b + c + d + e);
  }

  /** The `cmdParts` assembly of the handler. */
  method BuildCmdParts(p: DashboardParams) returns (parts: seq<string>)
    ensures parts == DashboardTokens(p)
  {
    var head := OptionParts(p);
    parts := PushEach(head, "--var=", p.vars);
    parts := PushEach(parts, "--var-file=", p.varFiles);
    parts := PushEach(parts, "--arg=", p.args);
    Regroup3(head, PrefixEach("--var=", p.vars), PrefixEach("--var-file=", p.varFiles), PrefixEach("--arg=", p.args));
    parts := parts + [p.qualifiedName];
  }

  /** The handler: invalid arguments are thrown; the words are joined with
      spaces and handed to the builder without an output format; the raw
      output string is reported, and a failure is returned. */
  method Handle(args: Value, modLocation: string, outcome: SpawnOutcome) returns (r: Reply)
    ensures ValidateParams(args).Err? ==> r == Throw(ValidateParams(args).error)
    ensures ValidateParams(args).Ok? ==>
      var cmd := DashboardCommand(ValidateParams(args).value, modLocation);
      match ExecuteCommand(cmd, outcome)
      case Ok(output) => r == Return(Content(Envelope("output", Str(output), cmd)))
      case Err(e) => r == Return(CommandError(e, Some(cmd)))
  {
    match ValidateParams(args)
    case Err(e) =>
      return Throw(e);
    case Ok(p) =>
      var parts := BuildCmdParts(p);
      var cmd := BuildPowerpipeCommand(Join(parts, " "), modLocation, None);
      match ExecuteCommand(cmd, outcome)
      case Ok(output) =>
        return Return(Content(Envelope("output", Str(output), cmd)));
      case Err(e) =>
        return Return(CommandError(e, Some(cmd)));
  }

  /** The command line of a dashboard run. */
  function DashboardCommand(p: DashboardParams, modLocation: string): (cmd: string)
    ensures cmd == "powerpipe " + Join(DashboardTokens(p), " ") + FixedFlags(modLocation)
  {
    BuildPowerpipeCommand(Join(DashboardTokens(p), " "), modLocation, None)
  }

  /** The repeated flags follow the single-valued ones: first every `--var=`,
      then every `--var-file=`, then every `--arg=`, each list in the
      caller's order. */
  lemma ListFlagsInCallerOrder(p: DashboardParams)
    ensures var t := DashboardTokens(p);
      var k := 2 + |OptionFlags(p)|;
      && (forall i :: 0 <= i < |p.vars| ==> t[k + i] == "--var=" + p.vars[i])
      && (forall i :: 0 <= i < |p.varFiles| ==> t[k + |p.vars| + i] == "--var-file=" + p.varFiles[i])
      && (forall i :: 0 <= i < |p.args| ==> t[k + |p.vars| + |p.varFiles| + i] == "--arg=" + p.args[i])
  {
    VarFlagsAt(p);
    VarFileFlagsAt(p);
    ArgFlagsAt(p);
  }

  lemma VarFlagsAt(p: DashboardParams)
    ensures var t := DashboardTokens(p);
      forall i :: 0 <= i < |p.vars| ==> t[2 + |OptionFlags(p)| + i] == "--var=" + p.vars[i]
  {
    var head := ["dashboard", "run"] + OptionFlags(p);
    var v1, v2, v3 := PrefixEach("--var=", p.vars), PrefixEach("--var-file=", p.varFiles), PrefixEach("--arg=", p.args);
    assert DashboardTokens(p) == head + (v1 + v2 + v3) + [p.qualifiedName];
    BlocksAt(head, v1, v2, v3, [p.qualifiedName]);
  }

  lemma VarFileFlagsAt(p: DashboardParams)
    ensures var t := DashboardTokens(p);
      forall i :: 0 <= i < |p.varFiles| ==> t[2 + |OptionFlags(p)| + |p.vars| + i] == "--var-file=" + p.varFiles[i]
  {
    var head := ["dashboard", "run"] + OptionFlags(p);
    var v1, v2, v3 := PrefixEach("--var=", p.vars), PrefixEach("--var-file=", p.varFiles), PrefixEach("--arg=", p.args);
    assert DashboardTokens(p) == head + (v1 + v2 + v3) + [p.qualifiedName];
    BlocksAt(head, v1, v2, v3, [p.qualifiedName]);
  }

  lemma ArgFlagsAt(p: DashboardParams)
    ensures var t := DashboardTokens(p);
      forall i :: 0 <= i < |p.args| ==> t[2 + |OptionFlags(p)| + |p.vars| + |p.varFiles| + i] == "--arg=" + p.args[i]
  {
    var head := ["dashboard", "run"] + OptionFlags(p);
    var v1, v2, v3 := PrefixEach("--var=", p.vars), PrefixEach("--var-file=", p.varFiles), PrefixEach("--arg=", p.args);
    assert DashboardTokens(p) == head + (v1 + v2 + v3) + [p.qualifiedName];
    BlocksAt(head, v1, v2, v3, [p.qualifiedName]);
  }

  /** The single-valued flags sit right after `dashboard run`, so the
      positions of OptionFlagsInSourceOrder carry over to the token list,
      two places on. */
  lemma OptionFlagsFollowHead(p: DashboardParams)
    ensures var t := DashboardTokens(p);
      2 + |OptionFlags(p)| <= |t| && t[2..2 + |OptionFlags(p)|] == OptionFlags(p)
  {
    var head := ["dashboard", "run"];
    var rest := ListFlags(p) + [p.qualifiedName];
    assert DashboardTokens(p) == head + OptionFlags(p) + rest;
  }

  /** Where the elements of each of three blocks sit after a head. */
  lemma BlocksAt<T>(h: seq<T>, v1: seq<T>, v2: seq<T>, v3: seq<T>, q: seq<T>)
    ensures var t := h + (v1 + v2 + v3) + q;
      && (forall i :: 0 <= i < |v1| ==> t[|h| + i] == v1[i])
      && (forall i :: 0 <= i < |v2| ==> t[|h| + |v1| + i] == v2[i])
      && (forall i :: 0 <= i < |v3| ==> t[|h| + |v1| + |v2| + i] == v3[i])
  {
    forall i | 0 <= i < |v1| ensures (h + (v1 + v2 + v3) + q)[|h| + i] == v1[i] {
      BlockIndices(h, v1, v2, v3, q, i);
    }
    forall i | 0 <= i < |v2| ensures (h + (v1 + v2 + v3) + q)[|h| + |v1| + i] == v2[i] {
      BlockIndices(h, v1, v2, v3, q, |v1| + i);
    }
    forall i | 0 <= i < |v3| ensures (h + (v1 + v2 + v3) + q)[|h| + |v1| + |v2| + i] == v3[i] {
      BlockIndices(h, v1, v2, v3, q, |v1| + |v2| + i);
    }
  }

  /** Where the elements of the middle block sit. */
  lemma BlockIndices<T>(h: seq<T>, v1: seq<T>, v2: seq<T>, v3: seq<T>, q: seq<T>, j: int)
    requires 0 <= j < |v1| + |v2| + |v3|
    ensures (h + (v1 + v2 + v3) + q)[|h| + j] == (v1 + v2 + v3)[j]
    ensures j < |v1| ==> (v1 + v2 + v3)[j] == v1[j]
    ensures |v1| <= j < |v1| + |v2| ==> (v1 + v2 + v3)[j] == v2[j - |v1|]
    ensures |v1| + |v2| <= j ==> (v1 + v2 + v3)[j] == v3[j - |v1| - |v2|]
  {
  }

  /** `--progress=` and `--input=` are emitted for `false` too: only an
      absent value leaves them out. */
  lemma FalseFlagsEmitted(p: DashboardParams)
    ensures p.progress == Some(false) ==> "--progress=" + "false" in DashboardTokens(p)
    ensures p.input == Some(false) ==> "--input=" + "false" in DashboardTokens(p)
    ensures p.progress.None? ==> ProgressFlag(p) == []
  {
    if p.progress == Some(false) {
      assert ProgressFlag(p) == ["--progress=" + "false"];
      assert "--progress=" + "false" in OptionFlags(p);
    }
    if p.input == Some(false) {
      assert InputFlag(p) == ["--input=" + "false"];
      assert "--input=" + "false" in OptionFlags(p);
    }
  }

  /** Joining with spaces loses nothing as long as no word holds a space:
      splitting the command's word string gives the words back. A value with
      a space in it becomes several words of the shell command. */
  lemma JoinedWordsSplitBack(p: DashboardParams)
    requires forall i :: 0 <= i < |DashboardTokens(p)| ==> ' ' !in DashboardTokens(p)[i]
    ensures Split(Join(DashboardTokens(p), " "), ' ') == DashboardTokens(p)
  {
    SplitJoin(DashboardTokens(p), ' ');
  }

  /** The command carries no `--output json`: it ends with the fixed flags. */
  lemma NoJsonOutputFlag(p: DashboardParams, modLocation: string)
    ensures EndsWith(DashboardCommand(p, modLocation), FixedFlags(modLocation))
  {
    ConcatEnds("powerpipe " + Join(DashboardTokens(p), " "), FixedFlags(modLocation));
  }

  /** The first `n` checks after the name, in source order, all pass. */
  predicate PassesChecks(args: Value, n: nat) {
    && (n > 0 ==> ValidOutput(Field(args, "output")))
    && (n > 1 ==> OptionalBool(Field(args, "progress")))
    && (n > 2 ==> OptionalBool(Field(args, "input")))
    && (n > 3 ==> OptionalPositiveInteger(Field(args, "max_parallel")))
    && (n > 4 ==> OptionalPositiveInteger(Field(args, "query_timeout")))
    && (n > 5 ==> OptionalPositiveInteger(Field(args, "dashboard_timeout")))
    && (n > 6 ==> OptionalStringArray(Field(args, "var")))
    && (n > 7 ==> OptionalStringArray(Field(args, "var_file")))
    && (n > 8 ==> OptionalStringArray(Field(args, "arg")))
  }

  /** The checks run in source order: the first one that fails names the
      message, whatever the later fields hold. */
  lemma FirstFailingCheckWins(args: Value)
    requires ValidateQualifiedName(args).Ok?
    ensures !ValidOutput(Field(args, "output")) ==>
      ValidateParams(args) == Err(Error("output must be one of: snapshot, pps, none"))
    ensures PassesChecks(args, 1) && !OptionalBool(Field(args, "progress")) ==>
      ValidateParams(args) == Err(Error("progress must be a boolean"))
    ensures PassesChecks(args, 2) && !OptionalBool(Field(args, "input")) ==>
      ValidateParams(args) == Err(Error("input must be a boolean"))
    ensures PassesChecks(args, 3) && !OptionalPositiveInteger(Field(args, "max_parallel")) ==>
      ValidateParams(args) == Err(Error("max_parallel must be a positive integer"))
    ensures PassesChecks(args, 4) && !OptionalPositiveInteger(Field(args, "query_timeout")) ==>
      ValidateParams(args) == Err(Error("query_timeout must be a positive integer"))
    ensures PassesChecks(args, 5) && !OptionalPositiveInteger(Field(args, "dashboard_timeout")) ==>
      ValidateParams(args) == Err(Error("dashboard_timeout must be a positive integer"))
    ensures PassesChecks(args, 6) && !OptionalStringArray(Field(args, "var")) ==>
      ValidateParams(args) == Err(Error("var must be an array of strings"))
    ensures PassesChecks(args, 7) && !OptionalStringArray(Field(args, "var_file")) ==>
      ValidateParams(args) == Err(Error("var_file must be an array of strings"))
    ensures PassesChecks(args, 8) && !OptionalStringArray(Field(args, "arg")) ==>
      ValidateParams(args) == Err(Error("arg must be an array of strings"))
    ensures PassesChecks(args, 9) ==> ValidateParams(args).Ok?
  {
    SwitchChecksFirst(args);
    LimitChecksNext(args);
    ListChecksLast(args);
  }

  /** The output, progress and input checks. */
  lemma SwitchChecksFirst(args: Value)
    requires ValidateQualifiedName(args).Ok?
    ensures !ValidOutput(Field(args, "output")) ==>
      ValidateParams(args) == Err(Error("output must be one of: snapshot, pps, none"))
    ensures PassesChecks(args, 1) && !OptionalBool(Field(args, "progress")) ==>
      ValidateParams(args) == Err(Error("progress must be a boolean"))
    ensures PassesChecks(args, 2) && !OptionalBool(Field(args, "input")) ==>
      ValidateParams(args) == Err(Error("input must be a boolean"))
  {
  }

  /** The three numeric checks. */
  lemma LimitChecksNext(args: Value)
    requires ValidateQualifiedName(args).Ok?
    ensures PassesChecks(args, 3) && !OptionalPositiveInteger(Field(args, "max_parallel")) ==>
      ValidateParams(args) == Err(Error("max_parallel must be a positive integer"))
    ensures PassesChecks(args, 4) && !OptionalPositiveInteger(Field(args, "query_timeout")) ==>
      ValidateParams(args) == Err(Error("query_timeout must be a positive integer"))
    ensures PassesChecks(args, 5) && !OptionalPositiveInteger(Field(args, "dashboard_timeout")) ==>
      ValidateParams(args) == Err(Error("dashboard_timeout must be a positive integer"))
  {
  }

  /** The three array checks, and acceptance once all have passed. */
  lemma ListChecksLast(args: Value)
    requires ValidateQualifiedName(args).Ok?
    ensures PassesChecks(args, 6) && !OptionalStringArray(Field(args, "var")) ==>
      ValidateParams(args) == Err(Error("var must be an array of strings"))
    ensures PassesChecks(args, 7) && !OptionalStringArray(Field(args, "var_file")) ==>
      ValidateParams(args) == Err(Error("var_file must be an array of strings"))
    ensures PassesChecks(args, 8) && !OptionalStringArray(Field(args, "arg")) ==>
      ValidateParams(args) == Err(Error("arg must be an array of strings"))
    ensures PassesChecks(args, 9) ==> ValidateParams(args).Ok?
  {
  }

  /** The single-valued flags come in source order (output, progress, input,
      max-parallel, query-timeout, dashboard-timeout): each set option's flag
      sits after exactly the flags of the set options before it. */
  lemma OptionFlagsInSourceOrder(p: DashboardParams)
    ensures var f := OptionFlags(p);
      var i1 := |OutputFlag(p)|;
      var i2 := i1 + |ProgressFlag(p)|;
      var i3 := i2 + |InputFlag(p)|;
      var i4 := i3 + |NumberFlag("--max-parallel=", p.maxParallel)|;
      var i5 := i4 + |NumberFlag("--query-timeout=", p.queryTimeout)|;
      && |f| == i5 + |NumberFlag("--dashboard-timeout=", p.dashboardTimeout)|
      && (p.output.Some? && p.output.value != "" ==> f[0] == "--output=" + p.output.value)
      && (p.progress.Some? ==> f[i1] == "--progress=" + BoolText(p.progress.value))
      && (p.input.Some? ==> f[i2] == "--input=" + BoolText(p.input.value))
      && (p.maxParallel.Some? && p.maxParallel.value != 0 ==> f[i3] == "--max-parallel=" + NatToString(p.maxParallel.value))
      && (p.queryTimeout.Some? && p.queryTimeout.value != 0 ==> f[i4] == "--query-timeout=" + NatToString(p.queryTimeout.value))
      && (p.dashboardTimeout.Some? && p.dashboardTimeout.value != 0 ==> f[i5] == "--dashboard-timeout=" + NatToString(p.dashboardTimeout.value))
  {
  }
}
