/** The command line and environment every tool hands to the `powerpipe` CLI
    (src/utils/powerpipe.ts). */
module Powerpipe {
  import opened Values
  import opened Text

  /** The environment key that tells the CLI where the mod lives. */
  const MOD_LOCATION_KEY := "POWERPIPE_MOD_LOCATION"

  const NO_UPDATE_CHECK := "--no-update-check"

  /** The mod location flag, its value wrapped in double quotes. */
  function ModLocationFlag(modLocation: string): string {
    "--mod-location \"" + modLocation + "\""
  }

  /** The flag is the location, unchanged, between double quotes. */
  lemma ModLocationFlagQuotes(modLocation: string)
    ensures var r := ModLocationFlag(modLocation);
      && StartsWith(r, "--mod-location \"") && EndsWith(r, "\"")
      && |r| == |"--mod-location \""| + |modLocation| + 1
      && r[|"--mod-location \""|..|r| - 1] == modLocation
  {
    Framed("--mod-location \"", modLocation, "\"");
  }

  /** The part of every command that follows the subcommand. */
  function FixedFlags(modLocation: string): string {
    " " + NO_UPDATE_CHECK + " " + ModLocationFlag(modLocation)
  }

  /** The update check is switched off first, then the mod location follows. */
  lemma FixedFlagsOrder(modLocation: string)
    ensures StartsWith(FixedFlags(modLocation), " --no-update-check ")
    ensures EndsWith(FixedFlags(modLocation), ModLocationFlag(modLocation))
  {
    ConcatEnds(" --no-update-check ", ModLocationFlag(modLocation));
  }

  /** The `--output` part, present only for a non-empty output format. */
  function OutputSuffix(output: Option<string>): string {
    if output.Some? && output.value != "" then " --output " + output.value else ""
  }

  /** The `--output` part is present exactly for a truthy format, and then
      names that format. */
  lemma OutputSuffixPresence(output: Option<string>)
    ensures OutputSuffix(output) != "" <==> output.Some? && output.value != ""
    ensures OutputSuffix(output) != "" ==>
      StartsWith(OutputSuffix(output), " --output ") && EndsWith(OutputSuffix(output), output.value)
  {
    if output.Some? && output.value != "" {
      ConcatEnds(" --output ", output.value);
    }
  }

  /** The `parts` array: four fixed words, and a fifth only when `options.output`
      is truthy. */
  function CommandParts(command: string, modLocation: string, output: Option<string>): (parts: seq<string>)
    ensures |parts| == if output.Some? && output.value != "" then 5 else 4
  {
    var parts := ["powerpipe", command, NO_UPDATE_CHECK, ModLocationFlag(modLocation)];
    if output.Some? && output.value != "" then parts + ["--output " + output.value] else parts
  }

  /** Joining the four fixed words with single spaces. */
  lemma FixedPartsLayout(command: string, modLocation: string)
    ensures Join(CommandParts(command, modLocation, None), " ") == "powerpipe " + command + FixedFlags(modLocation)
  {
    var flag := ModLocationFlag(modLocation);
    var ws := CommandParts(command, modLocation, None);
    assert ws == ["powerpipe", command, NO_UPDATE_CHECK, flag];
    JoinFour(ws, " ");
    assert Join(ws, " ") == "powerpipe" + " " + command + " " + NO_UPDATE_CHECK + " " + flag;
    assert "powerpipe" + " " == "powerpipe ";
  }

  /** Joining all the words: the output word adds one space and itself. */
  lemma PartsLayout(command: string, modLocation: string, output: Option<string>)
    ensures Join(CommandParts(command, modLocation, output), " ")
            == "powerpipe " + command + FixedFlags(modLocation) + OutputSuffix(output)
  {
    FixedPartsLayout(command, modLocation);
    if output.Some? && output.value != "" {
      var base := CommandParts(command, modLocation, None);
      var b := "powerpipe " + command + FixedFlags(modLocation);
      var x := "--output " + output.value;
      assert CommandParts(command, modLocation, output) == base + [x];
      JoinConcat(base, [x], " ");
      assert Join([x], " ") == x;
      assert Join(base + [x], " ") == b + " " + x;
      assert " " + x == " --output " + output.value;
      assert b + " " + x == b + (" " + x);
    }
  }

  /** `buildPowerpipeCommand(command, modLocation, { output })`: the words are
      joined with single spaces and nothing is quoted or escaped except that
      the mod location is wrapped in double quotes. */
  function BuildPowerpipeCommand(command: string, modLocation: string, output: Option<string>): (r: string)
    ensures r == "powerpipe " + command + FixedFlags(modLocation) + OutputSuffix(output)
  {
    PartsLayout(command, modLocation, output);
    Join(CommandParts(command, modLocation, output), " ")
  }

  /** The command starts with the executable and the subcommand verbatim,
      and the fixed flags follow even when the mod location is empty. */
  lemma CommandLayout(command: string, modLocation: string, output: Option<string>)
    ensures var r := BuildPowerpipeCommand(command, modLocation, output);
      var n := |"powerpipe "| + |command|;
      && StartsWith(r, "powerpipe " + command)
      && r[n..n + |FixedFlags(modLocation)|] == FixedFlags(modLocation)
  {
    var r := BuildPowerpipeCommand(command, modLocation, output);
    var n := |"powerpipe "| + |command|;
    assert r[..n] == "powerpipe " + command;
    assert r[n..n + |FixedFlags(modLocation)|] == FixedFlags(modLocation);
  }

  /** The mod location stands verbatim between the quotes: a quote inside it
      ends the quoted word early. */
  lemma ModLocationVerbatim(command: string, modLocation: string, output: Option<string>)
    ensures var r := BuildPowerpipeCommand(command, modLocation, output);
      var start := |"powerpipe "| + |command| + |" --no-update-check --mod-location \""|;
      && start + |modLocation| < |r|
      && r[start..start + |modLocation|] == modLocation
      && r[start - 1] == '"' && r[start + |modLocation|] == '"'
  {
    var r := BuildPowerpipeCommand(command, modLocation, output);
    var start := |"powerpipe "| + |command| + |" --no-update-check --mod-location \""|;
    var tail := OutputSuffix(output);
    assert r == ("powerpipe " + command + " " + NO_UPDATE_CHECK + " " + "--mod-location \"") + modLocation + ("\"" + tail);
    assert r[start..start + |modLocation|] == modLocation;
  }

  /** With a non-empty output format the `--output` flag is the last thing
      on the line; without one the line ends with the quoted mod location. */
  lemma OutputFlagIsSuffix(command: string, modLocation: string, output: Option<string>)
    ensures var r := BuildPowerpipeCommand(command, modLocation, output);
      if output.Some? && output.value != "" then
        && EndsWith(r, " --output " + output.value)
        && r[..|r| - |" --output " + output.value|] == BuildPowerpipeCommand(command, modLocation, None)
      else
        && r == BuildPowerpipeCommand(command, modLocation, None)
        && EndsWith(r, FixedFlags(modLocation))
  {
  }

  /** `getPowerpipeEnv(modLocation)`: the process environment with the mod
      location key set and every other key left as it was. */
  function GetPowerpipeEnv(processEnv: map<string, string>, modLocation: string): (r: map<string, string>)
    ensures MOD_LOCATION_KEY in r && r[MOD_LOCATION_KEY] == modLocation
    ensures r.Keys == processEnv.Keys + {MOD_LOCATION_KEY}
    ensures forall k :: k in processEnv && k != MOD_LOCATION_KEY ==> r[k] == processEnv[k]
  {
    processEnv[MOD_LOCATION_KEY := modLocation]
  }
}
