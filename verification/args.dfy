/** The argument check shared by the tools that act on one named resource
    (`validateParams` of powerpipe_control_run.ts and detection_show.ts). */
module Args {
  import opened Values
  import opened Outcomes

  const NOT_AN_OBJECT := "Arguments must be an object"
  const BAD_QUALIFIED_NAME := "qualified_name is required and must be a string"

  /** The arguments must be a truthy object and `qualified_name` a non-empty
      string; the name is returned exactly as given. */
  function ValidateQualifiedName(args: Value): (r: Result<string, Thrown>)
    ensures r.Ok? <==> IsArgumentObject(args) && IsNonEmptyString(Field(args, "qualified_name"))
    ensures r.Ok? ==> Str(r.value) == Field(args, "qualified_name") && r.value != ""
    ensures !IsArgumentObject(args) ==> r == Err(Error(NOT_AN_OBJECT))
    ensures IsArgumentObject(args) && !IsNonEmptyString(Field(args, "qualified_name"))
            ==> r == Err(Error(BAD_QUALIFIED_NAME))
  {
    if !IsArgumentObject(args) then Err(Error(NOT_AN_OBJECT))
    else
      var name := Field(args, "qualified_name");
      if !IsNonEmptyString(name) then Err(Error(BAD_QUALIFIED_NAME)) else Ok(name.s)
  }
}
