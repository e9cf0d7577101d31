/** JavaScript values as the tools see them: tool-call arguments, parsed JSON
    documents and process environments. */
module Values {

  datatype Option<+T> = None | Some(value: T)

  datatype Result<+T, +E> = Ok(value: T) | Err(error: E)

  /** A JavaScript value. Numbers are reals: JSON has no NaN or infinities. */
  datatype Value =
    | Undefined
    | Null
    | Bool(b: bool)
    | Num(n: real)
    | Str(s: string)
    | Arr(items: seq<Value>)
    | Obj(fields: map<string, Value>)

  /** JavaScript truthiness: `false`, `0`, `''`, `null` and `undefined` are falsy. */
  predicate Truthy(v: Value)
    ensures Truthy(v) ==> !IsNullish(v)
  {
    match v
    case Undefined => false
    case Null => false
    case Bool(b) => b
    case Num(n) => n != 0.0
    case Str(s) => s != ""
    case Arr(_) => true
    case Obj(_) => true
  }

  /** `typeof v === 'object' && v !== null`; arrays are objects too. */
  predicate IsObject(v: Value)
    ensures IsObject(v) ==> Truthy(v)
  {
    v.Arr? || v.Obj?
  }

  /** `v === null || v === undefined`: reading a property of these throws. */
  predicate IsNullish(v: Value) {
    v.Null? || v.Undefined?
  }

  /** `!v || typeof v !== 'object'`, the argument check every tool starts with. */
  predicate IsArgumentObject(v: Value) {
    Truthy(v) && IsObject(v)
  }

  /** Reading property `key` of a value that is neither null nor undefined.
      Only own fields of plain objects are visible: none of the property
      names the tools read exists on arrays, strings or prototypes. */
  function Field(v: Value, key: string): (r: Value)
    ensures v.Obj? && key in v.fields ==> r == v.fields[key]
    ensures !(v.Obj? && key in v.fields) ==> r.Undefined?
  {
    if v.Obj? && key in v.fields then v.fields[key] else Undefined
  }

  /** A string value that is not empty: `v && typeof v === 'string'`. */
  predicate IsNonEmptyString(v: Value) {
    v.Str? && v.s != ""
  }

  /** `Number.isInteger(v)` */
  predicate IsInteger(v: Value) {
    v.Num? && v.n.Floor as real == v.n
  }

  /** `Array.isArray(v) && v.every(x => typeof x === 'string')` */
  predicate IsStringArray(v: Value) {
    v.Arr? && forall i :: 0 <= i < |v.items| ==> v.items[i].Str?
  }

  /** The strings of an array that `IsStringArray` accepted. */
  function Strings(items: seq<Value>): (r: seq<string>)
    requires forall i :: 0 <= i < |items| ==> items[i].Str?
    ensures |r| == |items|
    ensures forall i :: 0 <= i < |items| ==> r[i] == items[i].s
  {
    if items == [] then [] else [items[0].s] + Strings(items[1..])
  }

  /** The outcome of `JSON.parse`: a value, or the message of its SyntaxError. */
  datatype ParseResult = Parsed(value: Value) | Unparsable(message: string)

  /** `JSON.parse`, which the model does not define: every operation that
      parses receives it as a parameter. */
  type Parser = string -> ParseResult

  /** `env[key] || fallback` for a process environment. */
  function EnvOr(env: map<string, string>, key: string, fallback: string): (r: string)
    ensures key in env && env[key] != "" ==> r == env[key]
    ensures !(key in env && env[key] != "") ==> r == fallback
  {
    if key in env && env[key] != "" then env[key] else fallback
  }
}
