/** The two HCL documentation tools: powerpipe_docs_hcl.ts (a fixed element
    list, an overview, membership checked) and docs_hcl.ts (any element
    name). Both fetch a Markdown file; the request itself is not modelled,
    only the URL asked for and how the reply's status is classified. */
module DocsHcl {
  import opened Values
  import opened Text
  import opened Outcomes

  const AVAILABLE_ELEMENTS: seq<string> := [
    "benchmark", "card", "category", "chart", "container", "control", "dashboard",
    "detection", "edge", "flow", "functions", "graph", "hierarchy", "image", "input",
    "locals", "mod", "node", "query", "table", "text", "variable", "with"]

  const DOCS_URL_PREFIX := "https://raw.githubusercontent.com/turbot/powerpipe-docs/refs/heads/main/docs/powerpipe-hcl/"

  /* The overview's fixed lines. */
  const OVERVIEW_TITLE := "# Powerpipe HCL Elements"
  const OVERVIEW_INTRO := "Powerpipe uses HCL (HashiCorp " + "Configuration Language) to define " + "its configuration. The following " + "elements are available:"
  const OVERVIEW_OUTRO := "Use this tool with a specific " + "element name to view its " + "detailed documentation."

  /** The overview's line for one element. */
  function Bullet(element: string): (r: string)
    ensures StartsWith(r, "- `" + element + "`") && EndsWith(r, "\"" + element + "\"`")
  {
    var head := "- `" + element + "`";
    var mid := " - View detailed " + "documentation with `element: ";
    var tail := "\"" + element + "\"`";
    Framed(head, mid, tail);
    assert head + mid + tail == "- `" + element + "` - View detailed " + "documentation with `element: \"" + element + "\"`";
    head + mid + tail
  }

  function Bullets(elements: seq<string>): (r: seq<string>)
    ensures |r| == |elements|
    ensures forall i :: 0 <= i < |elements| ==> r[i] == Bullet(elements[i])
  {
    seq(|elements|, i requires 0 <= i < |elements| => Bullet(elements[i]))
  }

  /** `generateOverview()`: the template with the bullets joined by newlines. */
  function GenerateOverview(): (r: string)
    ensures r == Join(OverviewLines(), "\n")
  {
    OverviewLayout(OVERVIEW_TITLE, OVERVIEW_INTRO, Bullets(AVAILABLE_ELEMENTS), OVERVIEW_OUTRO);
    OVERVIEW_TITLE + "\n\n" + OVERVIEW_INTRO + "\n\n" + Join(Bullets(AVAILABLE_ELEMENTS), "\n") + "\n\n" + OVERVIEW_OUTRO
  }

  /** The overview line by line. */
  function OverviewLines(): seq<string> {
    [OVERVIEW_TITLE, "", OVERVIEW_INTRO, ""] + Bullets(AVAILABLE_ELEMENTS) + ["", OVERVIEW_OUTRO]
  }

  /** No element name, and so no bullet, spans two lines. */
  lemma BulletsAreSingleLines()
    ensures forall i :: 0 <= i < |AVAILABLE_ELEMENTS| ==> '\n' !in Bullet(AVAILABLE_ELEMENTS[i])
  {
    assert forall i :: 0 <= i < |AVAILABLE_ELEMENTS| ==> '\n' !in AVAILABLE_ELEMENTS[i];
    NoNewlineIn("- `");
    NoNewlineIn("` - View detailed ");
    NoNewlineIn("documentation with `element: \"");
    NoNewlineIn("\"`");
  }

  /** An overview of this layout, whatever its text, is its lines joined by
      newlines. */
  lemma OverviewLayout(title: string, intro: string, bullets: seq<string>, outro: string)
    requires bullets != []
    ensures title + "\n\n" + intro + "\n\n" + Join(bullets, "\n") + "\n\n" + outro
            == Join([title, "", intro, ""] + bullets + ["", outro], "\n")
  {
    var head := [title, "", intro, ""];
    var tail := ["", outro];
    JoinConcat(head + bullets, tail, "\n");
    JoinConcat(head, bullets, "\n");
    assert Join(tail, "\n") == "" + "\n" + outro;
    JoinFour(head, "\n");
  }

  /** The fixed lines of the overview are single lines. */
  lemma FixedLinesAreSingleLines()
    ensures '\n' !in OVERVIEW_TITLE && '\n' !in OVERVIEW_INTRO && '\n' !in OVERVIEW_OUTRO
  {
    IntroIsSingleLine();
    OutroIsSingleLine();
  }

  lemma IntroIsSingleLine()
    ensures '\n' !in OVERVIEW_INTRO
  {
    NoNewlineIn("Powerpipe uses HCL (HashiCorp ");
    NoNewlineIn("Configuration Language) to define ");
    NoNewlineIn("its configuration. The following ");
    NoNewlineIn("elements are available:");
  }

  lemma OutroIsSingleLine()
    ensures '\n' !in OVERVIEW_OUTRO
  {
    NoNewlineIn("Use this tool with a specific ");
    NoNewlineIn("element name to view its ");
    NoNewlineIn("detailed documentation.");
  }

  /** A short literal, checked character by character. */
  lemma NoNewlineIn(s: string)
    requires forall i :: 0 <= i < |s| ==> s[i] != '\n'
    ensures '\n' !in s
  {
  }

  /** Splitting an overview of this layout at newlines gives back its lines,
      as long as none of them contains a newline. */
  lemma OverviewSplitsBack(title: string, intro: string, bullets: seq<string>, outro: string)
    requires bullets != []
    requires '\n' !in title && '\n' !in intro && '\n' !in outro
    requires forall i :: 0 <= i < |bullets| ==> '\n' !in bullets[i]
    ensures Split(title + "\n\n" + intro + "\n\n" + Join(bullets, "\n") + "\n\n" + outro, '\n')
            == [title, "", intro, ""] + bullets + ["", outro]
  {
    OverviewLayout(title, intro, bullets, outro);
    var lines := [title, "", intro, ""] + bullets + ["", outro];
    forall i | 0 <= i < |lines| ensures '\n' !in lines[i] {
      if 4 <= i < 4 + |bullets| {
        assert lines[i] == bullets[i - 4];
      }
    }
    SplitJoin(lines, '\n');
  }

  /** Split at newlines, the overview gives back its lines: four heading
      lines, then exactly one bullet per element in list order (`Bullets`),
      then two closing lines. */
  lemma OverviewListsEveryElementOnce()
    ensures Split(GenerateOverview(), '\n') == OverviewLines()
  {
    FixedLinesAreSingleLines();
    BulletsAreSingleLines();
    OverviewSplitsBack(OVERVIEW_TITLE, OVERVIEW_INTRO, Bullets(AVAILABLE_ELEMENTS), OVERVIEW_OUTRO);
  }

  /** The URL of an element's page. The name goes in verbatim. */
  function DocsUrl(element: string): (url: string)
    ensures StartsWith(url, DOCS_URL_PREFIX) && EndsWith(url, element + ".md")
  {
    ConcatEnds(DOCS_URL_PREFIX, element + ".md");
    DOCS_URL_PREFIX + element + ".md"
  }

  /** What the HTTPS request came back with. */
  datatype HttpOutcome = HttpResponse(statusCode: nat, body: string) | RequestFailed(error: Thrown)

  /** The request, which the model receives as a function from URL to outcome. */
  type Fetcher = string -> HttpOutcome

  /** `fetchDocs(element)`: 404 and any other non-200 status are errors with
      their own messages; 200 gives the whole body. */
  function FetchDocs(element: string, http: Fetcher): (r: Result<string, Thrown>)
    ensures var reply := http(DocsUrl(element));
      && (reply.HttpResponse? && reply.statusCode == 200 ==> r == Ok(reply.body))
      && (reply.HttpResponse? && reply.statusCode == 404 ==>
            r == Err(Error("Documentation not found for element: " + element)))
      && (reply.HttpResponse? && reply.statusCode != 200 && reply.statusCode != 404 ==>
            r == Err(Error("Failed to fetch documentation: HTTP " + NatToString(reply.statusCode))))
      && (reply.RequestFailed? ==> r == Err(reply.error))
  {
    match http(DocsUrl(element))
    case RequestFailed(error) => Err(error)
    case HttpResponse(statusCode, body) =>
      if statusCode == 404 then Err(Error("Documentation not found for element: " + element))
      else if statusCode != 200 then Err(Error("Failed to fetch documentation: HTTP " + NatToString(statusCode)))
      else Ok(body)
  }

  /** `validateParams` of powerpipe_docs_hcl.ts: `Some` is an element to fetch,
      `None` asks for the overview. */
  function ValidateElementArgs(args: Value): (r: Result<Option<string>, Thrown>)
    ensures r.Ok? <==> IsArgumentObject(args)
                       && (Field(args, "element").Undefined? || (Field(args, "element").Str? && Field(args, "element").s in AVAILABLE_ELEMENTS))
    ensures r.Ok? && r.value.Some? ==> r.value.value in AVAILABLE_ELEMENTS && Field(args, "element") == Str(r.value.value)
    ensures r.Ok? && r.value.None? ==> Field(args, "element").Undefined?
    ensures r.Ok? && r.value.Some? ==> r.value.value != ""
    ensures !IsArgumentObject(args) ==> r == Err(Error("Arguments must be an object"))
    ensures IsArgumentObject(args) && !Field(args, "element").Undefined? && !Field(args, "element").Str? ==>
      r == Err(Error("If provided, element must be a string"))
    ensures IsArgumentObject(args) && Field(args, "element").Str? && Field(args, "element").s !in AVAILABLE_ELEMENTS ==>
      r == Err(Error("Invalid element: " + Field(args, "element").s + ". Must be one of: " + Join(AVAILABLE_ELEMENTS, ", ")))
  {
    if !IsArgumentObject(args) then Err(Error("Arguments must be an object"))
    else
      var element := Field(args, "element");
      if element.Undefined? then Ok(None)
      else if !element.Str? then Err(Error("If provided, element must be a string"))
      else if element.s !in AVAILABLE_ELEMENTS then
        Err(Error("Invalid element: " + element.s + ". Must be one of: " + Join(AVAILABLE_ELEMENTS, ", ")))
      else
        NoEmptyElement();
        Ok(Some(element.s))
  }

  lemma NoEmptyElement()
    ensures "" !in AVAILABLE_ELEMENTS
  {
    assert forall i :: 0 <= i < |AVAILABLE_ELEMENTS| ==> |AVAILABLE_ELEMENTS[i]| > 0;
  }

  /** The powerpipe_docs_hcl handler: argument errors are thrown, fetch
      errors returned without a command. */
  function PowerpipeDocsHcl(args: Value, http: Fetcher): (r: Reply)
    ensures ValidateElementArgs(args).Err? ==> r == Throw(ValidateElementArgs(args).error)
    ensures ValidateElementArgs(args) == Ok(None) ==> r == Return(Text(GenerateOverview()))
    ensures ValidateElementArgs(args).Ok? && ValidateElementArgs(args).value.Some? ==>
      var element := ValidateElementArgs(args).value.value;
      match FetchDocs(element, http)
      case Ok(docs) => r == Return(Text(docs))
      case Err(e) => r == Return(CommandError(e, None))
  {
    match ValidateElementArgs(args)
    case Err(e) => Throw(e)
    case Ok(element) =>
      var docs := if element.Some? && element.value != "" then FetchDocs(element.value, http) else Ok(GenerateOverview());
      match docs
      case Ok(text) => Return(Text(text))
      case Err(e) => Return(CommandError(e, None))
  }

  /** Without an element the reply is the overview and the network plays no
      part: any two fetchers give the same answer. */
  lemma OverviewNeedsNoFetch(args: Value, http1: Fetcher, http2: Fetcher)
    requires IsArgumentObject(args) && Field(args, "element").Undefined?
    ensures PowerpipeDocsHcl(args, http1) == PowerpipeDocsHcl(args, http2) == Return(Text(GenerateOverview()))
  {
  }

  /** Only listed pages are ever fetched: two fetchers that agree on the
      23 documentation URLs give the same reply to every call. */
  lemma OnlyListedPagesFetched(args: Value, http1: Fetcher, http2: Fetcher)
    requires forall i :: 0 <= i < |AVAILABLE_ELEMENTS| ==>
      http1(DocsUrl(AVAILABLE_ELEMENTS[i])) == http2(DocsUrl(AVAILABLE_ELEMENTS[i]))
    ensures PowerpipeDocsHcl(args, http1) == PowerpipeDocsHcl(args, http2)
  {
    match ValidateElementArgs(args)
    case Err(_) =>
    case Ok(None) =>
    case Ok(Some(element)) =>
      var i :| 0 <= i < |AVAILABLE_ELEMENTS| && AVAILABLE_ELEMENTS[i] == element;
      assert http1(DocsUrl(element)) == http2(DocsUrl(element));
  }

  /** `validateParams` of docs_hcl.ts: a non-empty string, any string. */
  function ValidateRequiredElement(args: Value): (r: Result<string, Thrown>)
    ensures r.Ok? <==> IsArgumentObject(args) && IsNonEmptyString(Field(args, "element"))
    ensures r.Ok? ==> Str(r.value) == Field(args, "element")
    ensures !IsArgumentObject(args) ==> r == Err(Error("Arguments must be an object"))
    ensures IsArgumentObject(args) && !IsNonEmptyString(Field(args, "element")) ==>
      r == Err(Error("element is required and must be a string"))
  {
    if !IsArgumentObject(args) then Err(Error("Arguments must be an object"))
    else
      var element := Field(args, "element");
      if !IsNonEmptyString(element) then Err(Error("element is required and must be a string")) else Ok(element.s)
  }

  /** The docs_hcl handler: the element is fetched whatever its name. */
  function DocsHclTool(args: Value, http: Fetcher): (r: Reply)
    ensures ValidateRequiredElement(args).Err? ==> r == Throw(ValidateRequiredElement(args).error)
    ensures ValidateRequiredElement(args).Ok? ==>
      match FetchDocs(ValidateRequiredElement(args).value, http)
      case Ok(docs) => r == Return(Text(docs))
      case Err(e) => r == Return(CommandError(e, None))
  {
    match ValidateRequiredElement(args)
    case Err(e) => Throw(e)
    case Ok(element) =>
      match FetchDocs(element, http)
      case Ok(docs) => Return(Text(docs))
      case Err(e) => Return(CommandError(e, None))
  }

  /** docs_hcl asks for any page, listed or not: a name outside the list
      reaches the network, where powerpipe_docs_hcl would have refused it. */
  lemma UnlistedElementReachesNetwork(args: Value, element: string, http: Fetcher)
    requires IsArgumentObject(args) && Field(args, "element") == Str(element)
    requires element != "" && element !in AVAILABLE_ELEMENTS
    ensures && DocsHclTool(args, http) == (match FetchDocs(element, http)
                                     case Ok(docs) => Return(Text(docs))
                                     case Err(e) => Return(CommandError(e, None)))
      && PowerpipeDocsHcl(args, http).Throw?
  {
  }
}
