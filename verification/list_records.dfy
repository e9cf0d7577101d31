/** Projection of the arrays the `... list` commands print onto the fields a
    tool reports (`parseBenchmarks`, `parseControls`, `parseDetections`,
    `parseQueries`, `parseVariables`, `parseMods`). */
module ListRecords {
  import opened Values
  import opened Outcomes

  /** `v || ''` */
  function OrEmpty(v: Value): (r: Value)
    ensures Truthy(v) ==> r == v
    ensures !Truthy(v) ==> r == Str("")
  {
    if Truthy(v) then v else Str("")
  }

  /** `typeof v === 'object' && v !== null ? v : {}` */
  function TagsOrEmpty(v: Value): (r: Value)
    ensures IsObject(v) ==> r == v
    ensures !IsObject(v) ==> r == Obj(map[])
  {
    if IsObject(v) then v else Obj(map[])
  }

  /** The field names of a projected record. */
  function RecordKeys(withTags: bool): set<string> {
    if withTags then {"title", "qualified_name", "documentation", "tags"}
    else {"title", "qualified_name", "documentation"}
  }

  /** One record: the three descriptive fields defaulting to '' and, for
      benchmarks and controls, `tags` defaulting to `{}`. Reading a field of
      `null` or `undefined` throws, so those are excluded here. */
  function Project(raw: Value, withTags: bool): (r: Value)
    requires !IsNullish(raw)
    ensures r.Obj? && r.fields.Keys == RecordKeys(withTags)
    ensures forall k :: k in {"title", "qualified_name", "documentation"} ==>
      (Truthy(Field(raw, k)) ==> r.fields[k] == Field(raw, k)) && (!Truthy(Field(raw, k)) ==> r.fields[k] == Str(""))
    ensures withTags ==> IsObject(r.fields["tags"]) && (IsObject(Field(raw, "tags")) ==> r.fields["tags"] == Field(raw, "tags"))
    ensures withTags && !IsObject(Field(raw, "tags")) ==> r.fields["tags"] == Obj(map[])
  {
    var base := map["title" := OrEmpty(Field(raw, "title")),
                    "qualified_name" := OrEmpty(Field(raw, "qualified_name")),
                    "documentation" := OrEmpty(Field(raw, "documentation"))];
    if withTags then Obj(base["tags" := TagsOrEmpty(Field(raw, "tags"))]) else Obj(base)
  }

  /** The TypeError V8 raises for `x.title` when `x` is null or undefined. */
  function NullishReadError(v: Value): Thrown
    requires IsNullish(v)
  {
    TypeError("Cannot read properties of " + (if v.Null? then "null" else "undefined") + " (reading 'title')")
  }

  /** `items.map(...)`: every element projected in order; the first null or
      undefined element aborts the map with its TypeError. */
  function ProjectAll(items: seq<Value>, withTags: bool): (r: Result<seq<Value>, Thrown>)
    ensures r.Ok? <==> forall i :: 0 <= i < |items| ==> !IsNullish(items[i])
    ensures r.Ok? ==> |r.value| == |items| && forall i :: 0 <= i < |items| ==> r.value[i] == Project(items[i], withTags)
    ensures r.Err? ==> r.error.TypeError?
    ensures r.Err? ==> exists i :: 0 <= i < |items| && IsNullish(items[i]) && r.error == NullishReadError(items[i])
                                  && forall j :: 0 <= j < i ==> !IsNullish(items[j])
  {
    if items == [] then Ok([])
    else if IsNullish(items[0]) then Err(NullishReadError(items[0]))
    else
      match ProjectAll(items[1..], withTags)
      case Err(e) =>
        var i :| 0 <= i < |items[1..]| && IsNullish(items[1..][i]) && e == NullishReadError(items[1..][i])
                 && forall j :: 0 <= j < i ==> !IsNullish(items[1..][j]);
        assert IsNullish(items[i + 1]) && forall j :: 0 <= j < i + 1 ==> !IsNullish(items[j]);
        Err(e)
      case Ok(rest) => Ok([Project(items[0], withTags)] + rest)
  }

  const NOT_AN_ARRAY := "Expected array output from Powerpipe CLI"

  /** `parseX(output)`: parse, insist on an array, project. */
  function ParseRecords(output: string, parse: Parser, withTags: bool): (r: Result<seq<Value>, Thrown>)
    ensures parse(output).Unparsable? ==> r == Err(SyntaxError(parse(output).message))
    ensures parse(output).Parsed? && !parse(output).value.Arr? ==> r == Err(Error(NOT_AN_ARRAY))
    ensures parse(output).Parsed? && parse(output).value.Arr? ==> r == ProjectAll(parse(output).value.items, withTags)
  {
    match parse(output)
    case Unparsable(m) => Err(SyntaxError(m))
    case Parsed(v) => if v.Arr? then ProjectAll(v.items, withTags) else Err(Error(NOT_AN_ARRAY))
  }

  /** Projecting a projected record changes nothing: the defaults are
      themselves kept by the next projection. */
  lemma ProjectIdempotent(raw: Value, withTags: bool)
    requires !IsNullish(raw)
    ensures Project(Project(raw, withTags), withTags) == Project(raw, withTags)
  {
    var r := Project(raw, withTags);
    var r2 := Project(r, withTags);
    forall k | k in r.fields ensures r2.fields[k] == r.fields[k] {
      if k == "tags" {
        assert IsObject(r.fields["tags"]);
      } else {
        assert Field(r, k) == r.fields[k];
      }
    }
    assert r2.fields == r.fields;
  }

  /** An empty object becomes a record of empty strings (and empty tags). */
  lemma EmptyRecordDefaults(withTags: bool)
    ensures var r := Project(Obj(map[]), withTags);
      && r.fields["title"] == Str("") && r.fields["qualified_name"] == Str("")
      && r.fields["documentation"] == Str("")
      && (withTags ==> r.fields["tags"] == Obj(map[]))
  {
  }

  /** Extra fields of the CLI's records are dropped, whatever they hold. */
  lemma ExtraFieldsDropped(raw: Value, withTags: bool, key: string)
    requires !IsNullish(raw)
    requires key !in RecordKeys(withTags)
    ensures key !in Project(raw, withTags).fields
  {
  }

  /** The `tags` array case: an array is an object to `typeof`, so it is kept. */
  lemma ArrayTagsKept(fields: map<string, Value>, tags: seq<Value>)
    requires "tags" in fields && fields["tags"] == Arr(tags)
    ensures Project(Obj(fields), true).fields["tags"] == Arr(tags)
  {
  }

  /** Parsing succeeds exactly on a JSON array without null or missing elements. */
  lemma ParseRecordsSucceedsIff(output: string, parse: Parser, withTags: bool)
    ensures ParseRecords(output, parse, withTags).Ok?
            <==> parse(output).Parsed? && parse(output).value.Arr?
                 && forall i :: 0 <= i < |parse(output).value.items| ==> !IsNullish(parse(output).value.items[i])
  {
  }
}
