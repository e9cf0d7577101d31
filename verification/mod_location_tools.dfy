/** The tools that read or change the registry's mod location:
    mod_location.ts, powerpipe_mod_location.ts, set_mod_location.ts and
    set_mod_directory.ts. */
module ModLocationTools {
  import opened Values
  import opened Text
  import opened Outcomes
  import opened Config

  /** `{ location }` */
  function LocationDocument(location: string): (r: Value)
    ensures r.Obj? && r.fields.Keys == {"location"} && Field(r, "location") == Str(location)
  {
    Obj(map["location" := Str(location)])
  }

  /** The object `setModLocation` returns, as JavaScript sees it. */
  function SetResultValue(result: SetResult): (v: Value)
    ensures Truthy(v)
  {
    var fields := map["success" := Bool(result.success)];
    Obj(if result.error.Some? then fields["error" := Str(result.error.value)] else fields)
  }

  const LOCATION_NOT_STRING := "If provided, location must be a string"

  /** `validateParams` of mod_location.ts: no object means a get; a truthy
      location must be a string. `Some` carries the location of a set. */
  function ValidateLocationArg(args: Value): (r: Result<Option<string>, Thrown>)
    ensures !IsArgumentObject(args) ==> r == Ok(None)
    ensures r.Err? <==> IsArgumentObject(args) && Truthy(Field(args, "location")) && !Field(args, "location").Str?
    ensures r.Err? ==> r.error == Error(LOCATION_NOT_STRING)
    ensures r.Ok? && r.value.Some? <==> IsArgumentObject(args) && IsNonEmptyString(Field(args, "location"))
    ensures r.Ok? && r.value.Some? ==> Field(args, "location") == Str(r.value.value)
  {
    if !IsArgumentObject(args) then Ok(None)
    else
      var location := Field(args, "location");
      if Truthy(location) && !location.Str? then Err(Error(LOCATION_NOT_STRING))
      else if Truthy(location) then Ok(Some(location.s))
      else Ok(None)
  }

  /** The mod_location handler. A set resolves the location, hands the
      resolved path to the registry and reports that path whether or not the
      registry accepted it: the result object is always truthy. */
  method ModLocation(config: ConfigurationService, args: Value, host: Host) returns (r: Reply)
    modifies config
    ensures ValidateLocationArg(args).Err? ==>
      r == Throw(ValidateLocationArg(args).error) && config.modLocation == old(config.modLocation)
    ensures ValidateLocationArg(args) == Ok(None) ==>
      r == Return(Content(LocationDocument(old(config.modLocation)))) && config.modLocation == old(config.modLocation)
    ensures ValidateLocationArg(args).Ok? && ValidateLocationArg(args).value.Some? ==>
      var resolved := host.resolve(ValidateLocationArg(args).value.value);
      && r == Return(Content(LocationDocument(resolved)))
      && config.modLocation == (if ValidateModLocation(resolved, host).Ok? then host.resolve(resolved) else old(config.modLocation))
  {
    match ValidateLocationArg(args)
    case Err(e) =>
      return Throw(e);
    case Ok(None) =>
      var current := config.GetModLocation();
      return Return(Content(LocationDocument(current)));
    case Ok(Some(location)) =>
      var resolvedLocation := host.resolve(location);
      var result := config.SetModLocation(resolvedLocation, host);
      if !Truthy(SetResultValue(result)) {
        assert false;
      }
      return Return(Content(LocationDocument(resolvedLocation)));
  }

  /** `validateParams` of powerpipe_mod_location.ts: the arguments (or `{}`
      for a non-object), or the error response for a non-string location. */
  function ValidatePowerpipeLocationArgs(args: Value): (r: Result<Value, Response>)
    ensures !IsArgumentObject(args) ==> r == Ok(Obj(map[]))
    ensures r.Err? <==> IsArgumentObject(args) && Truthy(Field(args, "location")) && !Field(args, "location").Str?
    ensures r.Err? ==> r.error == CommandError(Error(LOCATION_NOT_STRING), None)
    ensures IsArgumentObject(args) && r.Ok? ==> r.value == args
  {
    if !IsArgumentObject(args) then Ok(Obj(map[]))
    else
      var location := Field(args, "location");
      if Truthy(location) && !location.Str? then Err(CommandError(Error(LOCATION_NOT_STRING), None))
      else Ok(args)
  }

  /** The message of a failed set: the registry's, or a fallback naming the
      location as given when the registry's is empty. */
  function SetFailureMessage(result: SetResult, location: string): (m: string)
    ensures m != ""
    ensures (result.error.Some? && m == result.error.value) || EndsWith(m, location)
  {
    ConcatEnds("Failed to set mod location to: ", location);
    if result.error.Some? && result.error.value != "" then result.error.value
    else "Failed to set mod location to: " + location
  }

  /** The powerpipe_mod_location handler. Errors are returned, not thrown;
      an argument object that itself has an `isError` key is returned as is.
      A set passes the location unresolved (the registry resolves it) and
      reports what the registry then holds. */
  method PowerpipeModLocation(config: ConfigurationService, args: Value, host: Host) returns (r: Reply)
    modifies config
    ensures r.Return?
    ensures ValidatePowerpipeLocationArgs(args).Err? ==>
      r.response == ValidatePowerpipeLocationArgs(args).error && config.modLocation == old(config.modLocation)
    ensures args.Obj? && "isError" in args.fields && ValidatePowerpipeLocationArgs(args).Ok? ==>
      r.response == Passthrough(args) && config.modLocation == old(config.modLocation)
    ensures ValidatePowerpipeLocationArgs(args).Ok? && !(args.Obj? && "isError" in args.fields)
            && !IsNonEmptyString(Field(args, "location")) ==>
      r.response == Content(LocationDocument(old(config.modLocation))) && config.modLocation == old(config.modLocation)
    ensures ValidatePowerpipeLocationArgs(args).Ok? && !(args.Obj? && "isError" in args.fields)
            && IsNonEmptyString(Field(args, "location")) ==>
      var location := Field(args, "location").s;
      match ValidateModLocation(location, host)
      case Ok(resolved) => config.modLocation == resolved && r.response == Content(LocationDocument(resolved))
      case Err(m) => config.modLocation == old(config.modLocation)
                     && r.response == CommandError(Error(SetFailureMessage(SetResult(false, Some(m)), location)), None)
  {
    match ValidatePowerpipeLocationArgs(args)
    case Err(response) =>
      return Return(response);
    case Ok(params) =>
      if params.Obj? && "isError" in params.fields {
        return Return(Passthrough(params));
      }
      var location := Field(params, "location");
      if !Truthy(location) {
        var current := config.GetModLocation();
        return Return(Content(LocationDocument(current)));
      }
      var result := config.SetModLocation(location.s, host);
      if !result.success {
        return Return(CommandError(Error(SetFailureMessage(result, location.s)), None));
      }
      var current := config.GetModLocation();
      return Return(Content(LocationDocument(current)));
  }

  /** A registry failure always has a message of its own, except for a
      filesystem error with an empty message, where the fallback names the
      location. */
  lemma FallbackOnlyForEmptyMessage(location: string, host: Host)
    requires ValidateModLocation(location, host).Err?
    ensures var m := ValidateModLocation(location, host).error;
      SetFailureMessage(SetResult(false, Some(m)), location)
      == if m == "" then "Failed to set mod location to: " + location else m
    ensures var p := host.resolve(location);
      ValidateModLocation(location, host).error == "" <==>
        p in host.fs && host.fs[p].StatFails? && host.fs[p].code != Some("ENOENT") && host.fs[p].message == ""
  {
  }

  /** `validateParams` of set_mod_location.ts. */
  function ValidateSetArgs(args: Value): (r: Result<string, Thrown>)
    ensures r.Ok? <==> IsArgumentObject(args) && IsNonEmptyString(Field(args, "location"))
    ensures r.Ok? ==> Str(r.value) == Field(args, "location")
    ensures !IsArgumentObject(args) ==> r == Err(Error("Invalid arguments"))
    ensures IsArgumentObject(args) && !IsNonEmptyString(Field(args, "location")) ==>
      r == Err(Error("location is required and must be a string"))
  {
    if !IsArgumentObject(args) then Err(Error("Invalid arguments"))
    else
      var location := Field(args, "location");
      if !IsNonEmptyString(location) then Err(Error("location is required and must be a string")) else Ok(location.s)
  }

  /** The set_mod_location handler: it resolves the location, sets it and
      reports what the registry holds afterwards, which is the previous
      location when the set failed. The failure branch of the source cannot
      be reached because the result object is always truthy. */
  method SetModLocationTool(config: ConfigurationService, args: Value, host: Host) returns (r: Reply)
    modifies config
    ensures ValidateSetArgs(args).Err? ==>
      r == Throw(ValidateSetArgs(args).error) && config.modLocation == old(config.modLocation)
    ensures ValidateSetArgs(args).Ok? ==>
      var resolved := host.resolve(ValidateSetArgs(args).value);
      && config.modLocation == (if ValidateModLocation(resolved, host).Ok? then host.resolve(resolved) else old(config.modLocation))
      && r == Return(Text("Set mod location to: " + config.modLocation))
  {
    match ValidateSetArgs(args)
    case Err(e) =>
      return Throw(e);
    case Ok(location) =>
      var resolvedLocation := host.resolve(location);
      var success := config.SetModLocation(resolvedLocation, host);
      if Truthy(SetResultValue(success)) {
        var current := config.GetModLocation();
        return Return(Text("Set mod location to: " + current));
      } else {
        assert false;
      }
  }

  /** `resolvePath(path)`: a leading `~` becomes the home directory, then
      the path is resolved. */
  function ResolvePath(path: string, host: Host): (r: string)
    ensures StartsWith(path, "~") ==> r == host.resolve(host.home + path[1..])
    ensures !StartsWith(path, "~") ==> r == host.resolve(path)
  {
    var expanded := if StartsWith(path, "~") then ReplaceFirst(path, '~', host.home) else path;
    host.resolve(expanded)
  }

  /** Only the leading `~` is expanded: later ones reach `resolve` as written. */
  lemma OnlyLeadingTildeExpanded(rest: string, host: Host)
    ensures ResolvePath("~" + rest, host) == host.resolve(host.home + rest)
  {
    assert StartsWith("~" + rest, "~");
    assert ("~" + rest)[1..] == rest;
  }

  /** `existsSync(path)`: true for anything `stat` can see. */
  predicate Exists(path: string, host: Host)
    ensures Exists(path, host) ==> path in host.fs
    ensures path in host.fs && (host.fs[path].Directory? || host.fs[path].NonDirectory?) ==> Exists(path, host)
  {
    path in host.fs && !host.fs[path].StatFails?
  }

  /** The set_mod_directory handler. The registry has no `setModDirectory`
      method; `updated` stands for what that call would report. */
  function SetModDirectory(directory: string, host: Host, updated: bool): (r: Reply)
    ensures var resolved := ResolvePath(directory, host);
      && (!Exists(resolved, host) ==> r == Throw(Error("Directory does not exist: " + resolved)))
      && (Exists(resolved, host) && !updated ==> r == Throw(Error("Failed to set mod directory to: " + resolved)))
      && (Exists(resolved, host) && updated ==> r == Return(TextItem("Successfully set mod directory to: " + resolved)))
  {
    var resolvedDirectory := ResolvePath(directory, host);
    if !Exists(resolvedDirectory, host) then Throw(Error("Directory does not exist: " + resolvedDirectory))
    else if !updated then Throw(Error("Failed to set mod directory to: " + resolvedDirectory))
    else Return(TextItem("Successfully set mod directory to: " + resolvedDirectory))
  }

  /** A missing directory is rejected before the registry is consulted. */
  lemma MissingDirectoryRejectedFirst(directory: string, host: Host)
    requires !Exists(ResolvePath(directory, host), host)
    ensures SetModDirectory(directory, host, true) == SetModDirectory(directory, host, false)
    ensures SetModDirectory(directory, host, true).Throw?
  {
  }
}
