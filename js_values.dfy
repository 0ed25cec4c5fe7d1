/**
 * The JavaScript values that reach the two error classifiers
 * (src/services/error.service.ts, src/helpers.ts/error.ts): primitives, plain objects
 * and arrays, and the three Error classes the code tests with `instanceof`.
 */
module JsValues {
  import opened Wrappers

  datatype JsValue =
    | Undefined
    | Null
    | Bool(b: bool)
    | Num(n: real)
    | Str(s: string)
      /** A plain object or an array (`typeof v === "object"`), its own properties in order. */
    | Obj(fields: seq<Field>)
      /** `CustomError` of error.service.ts; an absent `user_data`/`debug_data` is `Undefined`. */
    | CustomError(message: string, userData: JsValue, debugData: JsValue)
      /** An axios `AxiosError`; `response` is `Undefined` when the request got no response. */
    | AxiosError(message: string, response: JsValue)
      /** Any other `Error`; `ownProps` is what `Object.getOwnPropertyNames` lists (normally stack and message). */
    | PlainError(message: string, ownProps: seq<Field>)

  datatype Field = Field(key: string, value: JsValue)

  /**
   * A size measure: it makes the classifiers' recursion well founded, and it is at most the
   * length of any JSON text that denotes the value (see `ParsesJson`).
   */
  function Size(v: JsValue): nat
  {
    match v
    case Undefined => 0
    case Null => 1
    case Bool(_) => 1
    case Num(_) => 1
    case Str(s) => |s| + 2
    case Obj(fs) => 1 + FieldsSize(fs)
    case CustomError(m, u, d) => |m| + 3 + Size(u) + Size(d)
    case AxiosError(m, r) => |m| + 3 + Size(r)
    case PlainError(m, ps) => |m| + 3 + FieldsSize(ps)
  }

  function FieldsSize(fs: seq<Field>): nat
  {
    if fs == [] then 0 else 1 + Size(fs[0].value) + FieldsSize(fs[1..])
  }

  /** JavaScript truthiness (NaN, -0 and BigInt are not modelled). */
  predicate Truthy(v: JsValue)
  {
    match v
    case Undefined => false
    case Null => false
    case Bool(b) => b
    case Num(n) => n != 0.0
    case Str(s) => s != ""
    case _ => true
  }

  /** `o[key]` on a property list: the first binding of `key`, else `undefined`. */
  function Get(fs: seq<Field>, key: string): (r: JsValue)
    ensures r == Undefined || Size(r) < FieldsSize(fs)
    ensures (forall i :: 0 <= i < |fs| ==> fs[i].key != key) ==> r == Undefined
  {
    if fs == [] then Undefined
    else if fs[0].key == key then fs[0].value
    else Get(fs[1..], key)
  }

  /** Property access `v.key` (`v?.key` on null and undefined); prototype properties such as `length` are not modelled. */
  function Prop(v: JsValue, key: string): (r: JsValue)
    ensures Size(r) <= Size(v)
    ensures r == Undefined || Size(r) < Size(v)
  {
    match v
    case Obj(fs) => Get(fs, key)
    case PlainError(_, ps) => Get(ps, key)
    case CustomError(m, u, d) =>
      if key == "message" then Str(m)
      else if key == "user_data" then u
      else if key == "debug_data" then d
      else Undefined
    case AxiosError(m, resp) =>
      if key == "message" then Str(m)
      else if key == "response" then resp
      else Undefined
    case _ => Undefined
  }

  /**
   * `JSON.parse` as a table: the strings it accepts, each with the value it denotes; it throws
   * on every other string.
   */
  type JsonTable = map<string, JsValue>

  /** `JSON.parse(s)`: `None` when it throws. */
  function JsonParse(json: JsonTable, s: string): (r: Option<JsValue>)
    ensures r.Some? <==> s in json
  {
    if s in json then Some(json[s]) else None
  }

  /**
   * A value `JSON.parse` can produce: null, a boolean, a number, a string, or an object or
   * array of such values; never `undefined` and never an Error instance.
   */
  predicate IsJson(v: JsValue)
    decreases Size(v)
  {
    match v
    case Null => true
    case Bool(_) => true
    case Num(_) => true
    case Str(_) => true
    case Obj(fs) => FieldsAreJson(fs)
    case _ => false
  }

  predicate FieldsAreJson(fs: seq<Field>)
    decreases FieldsSize(fs)
  {
    fs == [] || (IsJson(fs[0].value) && FieldsAreJson(fs[1..]))
  }

  /**
   * What every `JSON.parse` table satisfies: each accepted string denotes a JSON value, and a
   * JSON text is at least as long as the size of the value it denotes, so a parsed value is
   * smaller than the string it came from.
   */
  ghost predicate ParsesJson(json: JsonTable)
  {
    forall s :: s in json ==> Size(json[s]) <= |s| && IsJson(json[s])
  }

  /** `new CustomError(message, user_data, debug_data)`: it keeps exactly what it was given. */
  function NewCustomError(message: string, userData: JsValue, debugData: JsValue): (e: JsValue)
    ensures Prop(e, "message") == Str(message)
    ensures Prop(e, "user_data") == userData && Prop(e, "debug_data") == debugData
  {
    CustomError(message, userData, debugData)
  }
}
