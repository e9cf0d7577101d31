/** What the tools throw, what they return to the protocol layer, and what a
    spawned `powerpipe` process leaves behind. */
module Outcomes {
  import opened Values

  /** A thrown JavaScript value. */
  datatype Thrown =
      /** `new Error(message)`: a message and no other fields. */
    | Error(message: string)
      /** What `JSON.parse` throws on malformed text. */
    | SyntaxError(message: string)
      /** What reading a property of `null` or `undefined` throws. */
    | TypeError(message: string)
      /** The error `execSync` throws when the process fails; a `None` field
          is one the error object does not carry at all. */
    | ExecError(message: string, stderr: Option<string>, stdout: Option<string>,
                status: Option<int>, code: Option<string>, signal: Option<string>, cmd: Option<string>)
      /** A thrown value that is not an `Error`, shown by `String(value)`. */
    | NonError(text: string)
      /** A thrown `formatCommandError(...)` result. */
    | Formatted(response: Response)

  /** What a tool handler hands back to the protocol layer. */
  datatype Response =
      /** One text content block holding `JSON.stringify(payload)`. */
    | Content(payload: Value)
      /** One text content block holding `text` verbatim. */
    | Text(text: string)
      /** `formatCommandError(error, command?)`, whose shape is not part of this model. */
    | CommandError(error: Thrown, command: Option<string>)
      /** The shared `formatResult(data, command)`, whose shape is not part of this model. */
    | FormattedResult(data: Value, resultCommand: string)
      /** A bare `{ type: "text", text }` item, not wrapped in a `content` list. */
    | TextItem(itemText: string)
      /** An object handed back to the protocol layer exactly as it is. */
    | Passthrough(value: Value)

  /** A handler either returns a response or throws. */
  datatype Reply = Return(response: Response) | Throw(error: Thrown)

  /** What `execSync` did: returned the standard output, or threw. */
  datatype SpawnOutcome = Exited(stdout: string) | Raised(error: Thrown)

  /** `error instanceof Error ? error.message : String(error)` */
  function Message(e: Thrown): (r: string)
    ensures e.Error? || e.SyntaxError? || e.TypeError? || e.ExecError? ==> r == e.message
    ensures e.NonError? ==> r == e.text
  {
    match e
    case NonError(text) => text
    case Formatted(_) => "[object Object]"
    case _ => e.message
  }

  /** `error instanceof Error && 'stderr' in error` */
  predicate HasStderr(e: Thrown) {
    e.ExecError? && e.stderr.Some?
  }

  /** `error instanceof Error && 'stdout' in error` */
  predicate HasStdout(e: Thrown) {
    e.ExecError? && e.stdout.Some?
  }

  /** `{ [key]: data, debug: { command } }`, the success document of most tools. */
  function Envelope(key: string, data: Value, command: string): (r: Value)
    ensures r.Obj? && "debug" in r.fields && r.fields["debug"] == Obj(map["command" := Str(command)])
    ensures key != "debug" ==> r.fields.Keys == {key, "debug"} && r.fields[key] == data
  {
    Obj(map[key := data, "debug" := Obj(map["command" := Str(command)])])
  }
}
