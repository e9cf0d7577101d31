/** The mod-location registry (src/services/config.ts): one mutable field,
    set only after the new location has been checked on the filesystem. */
module Config {
  import opened Values
  import opened Text

  /** What `fs.statSync` finds at a path that is in the filesystem map; a
      path absent from the map does not exist (`ENOENT`). */
  datatype Node =
    | Directory
    | NonDirectory
      /** `statSync` threw an error with this `code` (if any) and message. */
    | StatFails(code: Option<string>, message: string)

  /** The host the registry runs on: `path.resolve` against the current
      directory, the filesystem, and `os.homedir()`. */
  datatype Host = Host(resolve: string -> string, fs: map<string, Node>, home: string)

  /** `process.env.POWERPIPE_MCP_MOD_LOCATION || process.env.POWERPIPE_MOD_LOCATION || ''` */
  function InitialModLocation(env: map<string, string>): (r: string)
    ensures "POWERPIPE_MCP_MOD_LOCATION" in env && env["POWERPIPE_MCP_MOD_LOCATION"] != ""
            ==> r == env["POWERPIPE_MCP_MOD_LOCATION"]
    ensures !("POWERPIPE_MCP_MOD_LOCATION" in env && env["POWERPIPE_MCP_MOD_LOCATION"] != "")
            && "POWERPIPE_MOD_LOCATION" in env && env["POWERPIPE_MOD_LOCATION"] != ""
            ==> r == env["POWERPIPE_MOD_LOCATION"]
    ensures r == "" <==> (forall k :: k in {"POWERPIPE_MCP_MOD_LOCATION", "POWERPIPE_MOD_LOCATION"} ==> k !in env || env[k] == "")
  {
    EnvOr(env, "POWERPIPE_MCP_MOD_LOCATION", EnvOr(env, "POWERPIPE_MOD_LOCATION", ""))
  }

  /** `validateModLocation(location)`: the resolved path, or the message of
      the error it throws. */
  function ValidateModLocation(location: string, host: Host): (r: Result<string, string>)
    ensures r.Ok? <==> host.resolve(location) in host.fs && host.fs[host.resolve(location)].Directory?
    ensures r.Ok? ==> r.value == host.resolve(location)
  {
    var resolvedPath := host.resolve(location);
    if resolvedPath !in host.fs then Err("Directory does not exist: " + resolvedPath)
    else
      match host.fs[resolvedPath]
      case Directory => Ok(resolvedPath)
      case NonDirectory => Err("Path exists but is not a directory: " + resolvedPath)
      case StatFails(code, message) =>
        if code == Some("ENOENT") then Err("Directory does not exist: " + resolvedPath) else Err(message)
  }

  /** Each kind of failure has its own message. */
  lemma ValidationMessages(location: string, host: Host)
    ensures var p := host.resolve(location);
      && (p !in host.fs ==> ValidateModLocation(location, host) == Err("Directory does not exist: " + p))
      && (p in host.fs && host.fs[p].NonDirectory? ==>
            ValidateModLocation(location, host) == Err("Path exists but is not a directory: " + p))
      && (p in host.fs && host.fs[p].StatFails? && host.fs[p].code != Some("ENOENT") ==>
            ValidateModLocation(location, host) == Err(host.fs[p].message))
  {
  }

  /** `{ success: boolean; error?: string }` */
  datatype SetResult = SetResult(success: bool, error: Option<string>)

  class ConfigurationService {
    var modLocation: string

    /** The private constructor: the location comes from the environment. */
    constructor(env: map<string, string>)
      ensures modLocation == InitialModLocation(env)
    {
      modLocation := InitialModLocation(env);
    }

    /** `setModLocation(location)`: validate first, store only on success. */
    method SetModLocation(location: string, host: Host) returns (result: SetResult)
      modifies this
      ensures result.success <==> ValidateModLocation(location, host).Ok?
      ensures result.success ==> modLocation == host.resolve(location) && result.error == None
      ensures !result.success ==> modLocation == old(modLocation)
      ensures !result.success ==> result.error == Some(ValidateModLocation(location, host).error)
    {
      match ValidateModLocation(location, host)
      case Ok(resolvedPath) =>
        modLocation := resolvedPath;
        result := SetResult(true, None);
      case Err(message) =>
        result := SetResult(false, Some(message));
    }

    /** `getModLocation()`: reads the field and changes nothing. */
    method GetModLocation() returns (location: string)
      ensures location == modLocation
    {
      location := modLocation;
    }

    /** `parseCommandLineArgs(args)`: `args[2]` is the location; a missing or
        empty one, or one that fails to set, ends the process with status 1
        (the returned exit status; `None` means the process carries on). */
    method ParseCommandLineArgs(args: seq<string>, host: Host) returns (exitCode: Option<int>)
      modifies this
      ensures (|args| <= 2 || args[2] == "") ==> exitCode == Some(1) && modLocation == old(modLocation)
      ensures |args| > 2 && args[2] != "" ==>
        (exitCode.None? <==> ValidateModLocation(args[2], host).Ok?)
        && (exitCode.None? ==> modLocation == host.resolve(args[2]))
        && (exitCode.Some? ==> exitCode == Some(1) && modLocation == old(modLocation))
    {
      if |args| <= 2 || args[2] == "" {
        return Some(1);
      }
      var result := SetModLocation(args[2], host);
      if !result.success {
        return Some(1);
      }
      return None;
    }
  }

  /** The static `instance` slot of the registry. */
  class Runtime {
    var instance: ConfigurationService?

    constructor()
      ensures instance == null
    {
      instance := null;
    }

    /** `getInstance()`: created on the first call, the same object afterwards. */
    method GetInstance(env: map<string, string>) returns (service: ConfigurationService)
      modifies this
      ensures old(instance) != null ==> service == old(instance)
      ensures old(instance) == null ==> fresh(service) && service.modLocation == InitialModLocation(env)
      ensures instance == service
    {
      if instance == null {
        instance := new ConfigurationService(env);
      }
      service := instance;
    }
  }

  /** Two calls give one registry: a location set through the first is what
      the second reads back. */
  method SameRegistryEveryCall(runtime: Runtime, env: map<string, string>, location: string, host: Host)
    returns (first: ConfigurationService, second: ConfigurationService, seen: string)
    modifies runtime, runtime.instance
    ensures first == second && second == runtime.instance
    ensures ValidateModLocation(location, host).Ok? ==> seen == host.resolve(location)
  {
    first := runtime.GetInstance(env);
    var _ := first.SetModLocation(location, host);
    second := runtime.GetInstance(env);
    seen := second.GetModLocation();
  }
}
