/** The `powerpipe://status` resource (src/resources/status.ts): the CLI's
    version, read out of `powerpipe --version` with a regular expression,
    and the server's own version and start time from the environment. */
module Status {
  import opened Values
  import opened Text
  import opened Outcomes
  import opened Powerpipe
  import opened Command

  const STATUS_URI := "powerpipe://status"

  /** What a resource request gets back: `null` for another URI, the one
      content item, or a thrown error. */
  datatype ResourceReply =
    | NotThisResource
    | Resource(uri: string, mimeType: string, document: Value)
    | ResourceThrow(error: Thrown)

  /** The command run: `--version` as the subcommand, an empty mod location
      and no output format. */
  function StatusCommand(): (cmd: string)
    ensures cmd == "powerpipe --version" + FixedFlags("")
  {
    BuildPowerpipeCommand("--version", "", None)
  }

  /* The pattern /v?(\d+\.\d+(\.\d+)?)/i, spelled out. `\d` is an ASCII
     digit. Each greedy `\d+` takes the whole run of digits, and giving any
     back never helps the next item (a digit never matches `.`), so the
     only backtracking left is that of the optional `v`. */

  /** The length of the run of digits starting at `i`. */
  function DigitRun(s: string, i: nat): (n: nat)
    requires i <= |s|
    ensures i + n <= |s|
    decreases |s| - i
  {
    if i < |s| && IsDigit(s[i]) then 1 + DigitRun(s, i + 1) else 0
  }

  /** Group 1, `\d+\.\d+(\.\d+)?`, matched from position `p`. */
  function GroupAt(s: string, p: nat): (r: Option<string>)
    requires p <= |s|
    ensures r.Some? ==> p + |r.value| <= |s| && r.value == s[p..p + |r.value|]
  {
    var a := DigitRun(s, p);
    if a == 0 || p + a == |s| || s[p + a] != '.' then None
    else
      var b := DigitRun(s, p + a + 1);
      if b == 0 then None
      else
        var e := p + a + 1 + b;
        if e < |s| && s[e] == '.' && DigitRun(s, e + 1) > 0 then Some(s[p..e + 1 + DigitRun(s, e + 1)])
        else Some(s[p..e])
  }

  /** The whole pattern tried at position `i`: first with a `v` or `V`
      taken, then without. */
  function MatchAt(s: string, i: nat): (r: Option<string>)
    requires i <= |s|
    ensures GroupAt(s, i).Some? ==> r.Some?
    ensures r.Some? ==> r == GroupAt(s, i) || (i < |s| && (s[i] == 'v' || s[i] == 'V') && r == GroupAt(s, i + 1))
  {
    if i < |s| && (s[i] == 'v' || s[i] == 'V') && GroupAt(s, i + 1).Some? then GroupAt(s, i + 1)
    else GroupAt(s, i)
  }

  /** Where `s.match(...)` finds the pattern, searching from position `i`
      on: the leftmost position where it matches. */
  function FirstMatchAt(s: string, i: nat): (r: Option<nat>)
    requires i <= |s|
    ensures r.Some? ==> i <= r.value < |s| && MatchAt(s, r.value).Some?
    ensures r.Some? ==> forall j :: i <= j < r.value ==> MatchAt(s, j).None?
    ensures r.None? ==> forall j :: i <= j <= |s| ==> MatchAt(s, j).None?
    decreases |s| - i
  {
    if i == |s| then None
    else if MatchAt(s, i).Some? then Some(i)
    else FirstMatchAt(s, i + 1)
  }

  /** The shape of what group 1 can capture: digits, a dot, digits, and
      optionally one more dot and digits. */
  predicate IsVersionNumber(g: string) {
    var a := DigitRun(g, 0);
    && 0 < a < |g| && g[a] == '.'
    && var b := DigitRun(g, a + 1);
    && b > 0
    && (|| a + 1 + b == |g|
        || (&& a + 1 + b < |g| && g[a + 1 + b] == '.'
            && DigitRun(g, a + 2 + b) > 0 && a + 2 + b + DigitRun(g, a + 2 + b) == |g|))
  }

  /** A run of digits measured inside a slice is the run in the whole
      string, cut at the slice's end. */
  lemma {:induction false} DigitRunInSlice(s: string, p: nat, q: nat, k: nat)
    requires p <= q <= |s| && p + k <= q
    ensures DigitRun(s[p..q], k) == if p + k + DigitRun(s, p + k) <= q then DigitRun(s, p + k) else q - p - k
    decreases q - p - k
  {
    var g := s[p..q];
    if p + k < q {
      assert g[k] == s[p + k];
      if IsDigit(s[p + k]) {
        DigitRunInSlice(s, p, q, k + 1);
      }
    }
  }

  /** Whatever group 1 captures has the version-number shape; in particular
      it never starts with the `v`. */
  lemma GroupIsVersionNumber(s: string, p: nat)
    requires p <= |s| && GroupAt(s, p).Some?
    ensures IsVersionNumber(GroupAt(s, p).value)
  {
    var g := GroupAt(s, p).value;
    var a := DigitRun(s, p);
    var b := DigitRun(s, p + a + 1);
    var e := p + a + 1 + b;
    var q := p + |g|;
    assert g == s[p..q];
    DigitRunInSlice(s, p, q, 0);
    DigitRunInSlice(s, p, q, a + 1);
    assert g[a] == s[p + a];
    assert DigitRun(g, 0) == a && 0 < a < |g| && g[a] == '.';
    assert DigitRun(g, a + 1) == b > 0;
    if e < |s| && s[e] == '.' && DigitRun(s, e + 1) > 0 {
      var c := DigitRun(s, e + 1);
      assert q == e + 1 + c;
      assert g[a + 1 + b] == s[e];
      DigitRunInSlice(s, p, q, a + 2 + b);
      assert DigitRun(g, a + 2 + b) == c;
    } else {
      assert q == e;
    }
  }

  /** The same holds for the whole pattern: the `v` is never captured. */
  lemma MatchIsVersionNumber(s: string, i: nat)
    requires i <= |s| && MatchAt(s, i).Some?
    ensures IsVersionNumber(MatchAt(s, i).value)
  {
    if i < |s| && (s[i] == 'v' || s[i] == 'V') && GroupAt(s, i + 1).Some? {
      GroupIsVersionNumber(s, i + 1);
    } else {
      GroupIsVersionNumber(s, i);
    }
  }

  /** `versionMatch ? versionMatch[1] : output.trim()` */
  function ExtractVersion(output: string): (version: string)
    ensures var t := Trim(output);
      match FirstMatchAt(t, 0)
      case Some(k) => version == MatchAt(t, k).value && IsVersionNumber(version)
      case None => version == t
  {
    var t := Trim(output);
    match FirstMatchAt(t, 0)
    case Some(k) =>
      MatchIsVersionNumber(t, k);
      MatchAt(t, k).value
    case None => t
  }

  /** Output with no digit at all is reported as it is, trimmed. */
  lemma NoDigitsFallsBack(output: string)
    requires forall i :: 0 <= i < |Trim(output)| ==> !IsDigit(Trim(output)[i])
    ensures ExtractVersion(output) == Trim(output)
  {
    var t := Trim(output);
    forall j | 0 <= j <= |t| ensures MatchAt(t, j).None? {
      if j < |t| {
        NoMatchWithoutDigit(t, j);
      }
    }
    assert FirstMatchAt(t, 0).None?;
  }

  /** At a position whose character, and the one after it, are not digits,
      the pattern does not match. */
  lemma NoMatchWithoutDigit(s: string, j: nat)
    requires j < |s| && !IsDigit(s[j])
    requires j + 1 < |s| ==> !IsDigit(s[j + 1])
    ensures MatchAt(s, j).None?
  {
  }

  /** A run of digits ended by a non-digit or the end of the string. */
  lemma {:induction false} DigitRunOver(s: string, i: nat, d: string)
    requires i + |d| <= |s| && s[i..i + |d|] == d && AllDigits(d)
    requires i + |d| == |s| || !IsDigit(s[i + |d|])
    ensures DigitRun(s, i) == |d|
    decreases |d|
  {
    if d != [] {
      assert s[i] == d[0];
      assert s[i + 1..i + 1 + |d[1..]|] == d[1..];
      DigitRunOver(s, i + 1, d[1..]);
    }
  }

  /** The leftmost search stops at the first position that matches. */
  lemma {:induction false} FirstMatchFinds(s: string, i: nat, k: nat)
    requires i <= k < |s| && MatchAt(s, k).Some?
    requires forall j :: i <= j < k ==> MatchAt(s, j).None?
    ensures FirstMatchAt(s, i) == Some(k)
    decreases k - i
  {
    if i < k {
      FirstMatchFinds(s, i + 1, k);
    }
  }

  /** The release number `major.minor.patch`, as the CLI prints it after a `v`. */
  function ReleaseNumber(major: nat, minor: nat, patch: nat): string {
    NatToString(major) + "." + NatToString(minor) + "." + NatToString(patch)
  }

  /** Version output of the form `<words> v<major>.<minor>.<patch>` and a line
      break: the `v` is dropped, all three numbers are kept, and the words
      before it are skipped. */
  lemma ReleaseNumberRead(prefix: string, major: nat, minor: nat, patch: nat, trailing: string)
    requires forall i :: 0 <= i < |prefix| ==> !IsDigit(prefix[i])
    requires prefix != [] ==> !IsWhitespace(prefix[0])
    requires forall i :: 0 <= i < |trailing| ==> IsWhitespace(trailing[i])
    ensures ExtractVersion(prefix + "v" + ReleaseNumber(major, minor, patch) + trailing)
            == ReleaseNumber(major, minor, patch)
  {
    var v := ReleaseNumber(major, minor, patch);
    var t := prefix + "v" + v;
    TrimmedReleaseLine(t, trailing);
    PrefixNeverMatches(prefix, v);
    var n := |prefix|;
    assert t[n + 1..] == v;
    GroupTakesRelease(t, n + 1, NatToString(major), NatToString(minor), NatToString(patch));
    assert t[n] == 'v';
    FirstMatchFinds(t, 0, n);
  }

  /** Trimming a line that starts with a non-blank character and ends in a
      digit drops only the whitespace after it. */
  lemma TrimmedReleaseLine(t: string, trailing: string)
    requires t != [] && !IsWhitespace(t[0]) && IsDigit(t[|t| - 1])
    requires forall i :: 0 <= i < |trailing| ==> IsWhitespace(trailing[i])
    ensures Trim(t + trailing) == t
  {
    var output := t + trailing;
    assert output[0] == t[0];
    assert TrimStart(output) == output;
    TrimEndDropsTrailing(t, trailing);
  }

  /** No position inside a digit-free prefix, before the `v`, matches. */
  lemma PrefixNeverMatches(prefix: string, v: string)
    requires forall i :: 0 <= i < |prefix| ==> !IsDigit(prefix[i])
    ensures forall j :: 0 <= j < |prefix| ==> MatchAt(prefix + "v" + v, j).None?
  {
    var t := prefix + "v" + v;
    var n := |prefix|;
    forall j | 0 <= j < n ensures MatchAt(t, j).None? {
      assert t[j] == prefix[j];
      if j + 1 < n {
        assert t[j + 1] == prefix[j + 1];
      } else {
        assert t[j + 1] == 'v';
      }
      NoMatchWithoutDigit(t, j);
    }
  }

  /** From a position where three non-empty digit runs separated by dots
      fill the rest of the string, group 1 takes all of it. */
  lemma GroupTakesRelease(s: string, p: nat, ma: string, mi: string, pa: string)
    requires p <= |s| && s[p..] == ma + "." + mi + "." + pa
    requires ma != [] && mi != [] && pa != [] && AllDigits(ma) && AllDigits(mi) && AllDigits(pa)
    ensures GroupAt(s, p) == Some(s[p..])
  {
    assert s[p..] == ma + "." + (mi + "." + pa);
    RunBeforeDot(s, p, ma, mi + "." + pa);
    var d1 := p + |ma|;
    RunBeforeDot(s, d1 + 1, mi, pa);
    var e := d1 + 1 + |mi|;
    RunToEnd(s, e + 1, pa);
    GroupFromRuns(s, p, |ma|, |mi|, |pa|);
  }

  /** Group 1 read off the three run lengths. */
  lemma GroupFromRuns(s: string, p: nat, a: nat, b: nat, c: nat)
    requires p + a + b + c + 2 == |s|
    requires a > 0 && DigitRun(s, p) == a && s[p + a] == '.'
    requires b > 0 && DigitRun(s, p + a + 1) == b && s[p + a + 1 + b] == '.'
    requires c > 0 && DigitRun(s, p + a + b + 2) == c
    ensures GroupAt(s, p) == Some(s[p..])
  {
    assert s[p..p + a + b + c + 2] == s[p..];
  }

  /** A digit run followed by a dot. */
  lemma RunBeforeDot(s: string, i: nat, d: string, rest: string)
    requires i <= |s| && s[i..] == d + "." + rest && AllDigits(d)
    ensures i + |d| < |s| && DigitRun(s, i) == |d| && s[i + |d|] == '.' && s[i + |d| + 1..] == rest
  {
    assert s[i..i + |d|] == s[i..][..|d|] == d;
    assert s[i + |d|] == s[i..][|d|] == '.';
    DigitRunOver(s, i, d);
    assert s[i + |d| + 1..] == s[i..][|d| + 1..];
  }

  /** A digit run that ends the string. */
  lemma RunToEnd(s: string, i: nat, d: string)
    requires i <= |s| && s[i..] == d && AllDigits(d)
    ensures i + |d| == |s| && DigitRun(s, i) == |d|
  {
    assert s[i..i + |d|] == d;
    DigitRunOver(s, i, d);
  }

  /** The document `JSON.stringify` renders into the content item. */
  function StatusDocument(version: string, env: map<string, string>): (r: Value)
    ensures r.Obj? && r.fields.Keys == {"powerpipe", "server"}
    ensures Field(Field(r, "powerpipe"), "version") == Str(version)
    ensures Field(Field(r, "server"), "version") == Str(EnvOr(env, "MCP_SERVER_VERSION", "unknown"))
    ensures Field(Field(r, "server"), "startTime") == Str(EnvOr(env, "MCP_SERVER_START_TIME", "unknown"))
  {
    Obj(map[
      "powerpipe" := Obj(map["version" := Str(version)]),
      "server" := Obj(map[
        "version" := Str(EnvOr(env, "MCP_SERVER_VERSION", "unknown")),
        "startTime" := Str(EnvOr(env, "MCP_SERVER_START_TIME", "unknown"))])])
  }

  /** `handleStatusResource(uri)`; `outcome` is what running the version
      command did and `env` the process environment. */
  function HandleStatusResource(uri: string, outcome: SpawnOutcome, env: map<string, string>): (r: ResourceReply)
    ensures uri != STATUS_URI <==> r.NotThisResource?
    ensures uri == STATUS_URI ==>
      match ExecuteCommand(StatusCommand(), outcome)
      case Ok(output) => r == Resource(STATUS_URI, "application/json", StatusDocument(ExtractVersion(output), env))
      case Err(e) => r == ResourceThrow(Formatted(CommandError(e, None)))
  {
    if uri != STATUS_URI then NotThisResource
    else
      match ExecuteCommand(StatusCommand(), outcome)
      case Ok(output) => Resource(uri, "application/json", StatusDocument(ExtractVersion(output), env))
      case Err(e) => ResourceThrow(Formatted(CommandError(e, None)))
  }
}
