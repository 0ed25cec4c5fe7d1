/**
 * Error normalisation (src/services/error.service.ts): `parse_error` classifies a thrown value into
 * `{ message, user_data?, debug_data? }`, and `async_handler` turns a rejected handler into a 500.
 * The `show_debug_data` setting and `JSON.parse` are parameters.
 */
module ErrorService {
  import opened Wrappers
  import opened JsValues

  /** `FormattedError`; an absent optional field is `Undefined`. */
  datatype FormattedError = FormattedError(message: string, user_data: JsValue, debug_data: JsValue)

  const UnknownError: string := "An unknown error occurred"

  /** `acc[key] = value`: replace the binding of `key`, or append it. */
  function Assign(acc: seq<Field>, key: string, value: JsValue): (r: seq<Field>)
    ensures Get(r, key) == value
    ensures forall k :: k != key ==> Get(r, k) == Get(acc, k)
  {
    if acc == [] then [Field(key, value)]
    else if acc[0].key == key then [Field(key, value)] + acc[1..]
    else [acc[0]] + Assign(acc[1..], key, value)
  }

  /** The `reduce` of `errorToDebugObject`, one own property name at a time. */
  function CollectProps(error: JsValue, names: seq<string>, acc: seq<Field>): seq<Field>
  {
    if names == [] then acc
    else CollectProps(error, names[1..], Assign(acc, names[0], Prop(error, names[0])))
  }

  function Keys(fs: seq<Field>): seq<string>
  {
    if fs == [] then [] else [fs[0].key] + Keys(fs[1..])
  }

  /** `errorToDebugObject`: an object with one property per own property name of the error. */
  function ErrorToDebugObject(error: JsValue): JsValue
  {
    match error
    case PlainError(_, props) => Obj(CollectProps(error, Keys(props), []))
    case _ => Obj([])
  }

  /** After the fold, every collected name maps to the error's value for it; other names keep their binding. */
  lemma {:induction false} CollectPropsCopies(error: JsValue, names: seq<string>, acc: seq<Field>, k: string)
    ensures Get(CollectProps(error, names, acc), k) == if k in names then Prop(error, k) else Get(acc, k)
  {
    if names != [] {
      CollectPropsCopies(error, names[1..], Assign(acc, names[0], Prop(error, names[0])), k);
    }
  }

  /** The debug object of an error maps each of its own property names to the error's value for it. */
  lemma DebugObjectReadsEveryProperty(message: string, props: seq<Field>, k: string)
    ensures var d := ErrorToDebugObject(PlainError(message, props));
            Prop(d, k) == if k in Keys(props) then Prop(PlainError(message, props), k) else Undefined
  {
    CollectPropsCopies(PlainError(message, props), Keys(props), [], k);
  }

  /** `parse_error`. */
  function ParseError(error: JsValue, show_debug_data: bool, json: JsonTable): FormattedError
    requires ParsesJson(json)
    decreases Size(error)
  {
    match error
    case CustomError(message, user_data, debug_data) =>
      FormattedError(message, user_data, if show_debug_data then debug_data else Undefined)
    case AxiosError(message, response) =>
      var data := if response == Undefined || response == Null then Undefined else Prop(response, "data");
      if Truthy(data) then ParseError(data, show_debug_data, json)
      else ParseError(Str(message), show_debug_data, json)
    case PlainError(message, _) =>
      FormattedError(message, Undefined, if show_debug_data then ErrorToDebugObject(error) else Undefined)
    case Str(s) =>
      (match JsonParse(json, s)
       case Some(parsed) => ParseError(parsed, show_debug_data, json)
       case None => FormattedError(s, Undefined, Undefined))
    case Obj(fields) =>
      var nested := Get(fields, "error");
      var response := Get(fields, "response");
      if Truthy(nested) then ParseError(nested, show_debug_data, json)
      else if Truthy(response) then ParseError(Prop(response, "data"), show_debug_data, json)
      else
        var code := Get(fields, "code");
        FormattedError(if code.Str? then code.s else UnknownError, Undefined, if show_debug_data then error else Undefined)
    case _ =>
      FormattedError(UnknownError, Undefined, if show_debug_data then Obj([Field("original", error)]) else Undefined)
  }

  /** A `CustomError` is reported as it is: its message and `user_data`, its `debug_data` only when shown. */
  lemma CustomErrorsReportThemselves(message: string, ud: JsValue, dd: JsValue, show_debug_data: bool, json: JsonTable)
    requires ParsesJson(json)
    ensures ParseError(NewCustomError(message, ud, dd), show_debug_data, json)
            == FormattedError(message, ud, if show_debug_data then dd else Undefined)
  {
  }

  /** An axios error is reported as its response's `data` when that is truthy, else as its message. */
  lemma AxiosErrorsReportTheirResponse(message: string, response: JsValue, show_debug_data: bool, json: JsonTable)
    requires ParsesJson(json)
    ensures Truthy(Prop(response, "data")) ==>
      ParseError(AxiosError(message, response), show_debug_data, json) == ParseError(Prop(response, "data"), show_debug_data, json)
    ensures !Truthy(Prop(response, "data")) ==>
      ParseError(AxiosError(message, response), show_debug_data, json) == ParseError(Str(message), show_debug_data, json)
  {
  }

  /** Any other `Error` is reported by its message, with its own properties as debug data only when shown. */
  lemma PlainErrorsReportTheirMessage(message: string, props: seq<Field>, show_debug_data: bool, json: JsonTable)
    requires ParsesJson(json)
    ensures ParseError(PlainError(message, props), show_debug_data, json)
            == FormattedError(message, Undefined, if show_debug_data then ErrorToDebugObject(PlainError(message, props)) else Undefined)
  {
  }

  /** A string is reported as the value it parses to, or, when it is not JSON, as a bare message. */
  lemma StringsReportTheirJson(s: string, show_debug_data: bool, json: JsonTable)
    requires ParsesJson(json)
    ensures s in json ==> ParseError(Str(s), show_debug_data, json) == ParseError(json[s], show_debug_data, json)
    ensures s !in json ==> ParseError(Str(s), show_debug_data, json) == FormattedError(s, Undefined, Undefined)
  {
  }

  /**
   * An object is reported as its truthy `error`, else as its truthy `response`'s `data`, else by its
   * string `code` or the unknown-error message, with the object itself as debug data.
   */
  lemma ObjectsUnwrapErrorThenResponse(fields: seq<Field>, show_debug_data: bool, json: JsonTable)
    requires ParsesJson(json)
    ensures Truthy(Get(fields, "error")) ==>
      ParseError(Obj(fields), show_debug_data, json) == ParseError(Get(fields, "error"), show_debug_data, json)
    ensures !Truthy(Get(fields, "error")) && Truthy(Get(fields, "response")) ==>
      ParseError(Obj(fields), show_debug_data, json) == ParseError(Prop(Get(fields, "response"), "data"), show_debug_data, json)
    ensures !Truthy(Get(fields, "error")) && !Truthy(Get(fields, "response")) ==>
      && ParseError(Obj(fields), show_debug_data, json).message
         == (if Get(fields, "code").Str? then Get(fields, "code").s else UnknownError)
      && ParseError(Obj(fields), show_debug_data, json).user_data == Undefined
      && ParseError(Obj(fields), show_debug_data, json).debug_data == (if show_debug_data then Obj(fields) else Undefined)
  {
  }

  /** A value that is no error, string or object is unknown, with the value itself as debug data only when shown. */
  lemma OtherValuesAreUnknown(error: JsValue, show_debug_data: bool, json: JsonTable)
    requires ParsesJson(json)
    requires error.Undefined? || error.Null? || error.Bool? || error.Num?
    ensures ParseError(error, show_debug_data, json)
            == FormattedError(UnknownError, Undefined, if show_debug_data then Obj([Field("original", error)]) else Undefined)
  {
  }

  /** With `show_debug_data` off no result carries `debug_data`, however deeply the error is nested. */
  lemma {:induction false} NoDebugDataWhenHidden(error: JsValue, json: JsonTable)
    requires ParsesJson(json)
    ensures ParseError(error, false, json).debug_data == Undefined
    decreases Size(error)
  {
    match error
    case AxiosError(message, response) =>
      var data := if response == Undefined || response == Null then Undefined else Prop(response, "data");
      if Truthy(data) { NoDebugDataWhenHidden(data, json); } else { NoDebugDataWhenHidden(Str(message), json); }
    case Str(s) =>
      if JsonParse(json, s).Some? { NoDebugDataWhenHidden(JsonParse(json, s).value, json); }
    case Obj(fields) =>
      var nested := Get(fields, "error");
      var response := Get(fields, "response");
      if Truthy(nested) { NoDebugDataWhenHidden(nested, json); }
      else if Truthy(response) { NoDebugDataWhenHidden(Prop(response, "data"), json); }
    case _ =>
  }

  /** The debug setting changes only `debug_data`: the message and `user_data` are the same either way. */
  lemma {:induction false} DebugSettingOnlyAffectsDebugData(error: JsValue, json: JsonTable)
    requires ParsesJson(json)
    ensures ParseError(error, true, json).message == ParseError(error, false, json).message
    ensures ParseError(error, true, json).user_data == ParseError(error, false, json).user_data
    decreases Size(error)
  {
    match error
    case AxiosError(message, response) =>
      var data := if response == Undefined || response == Null then Undefined else Prop(response, "data");
      if Truthy(data) { DebugSettingOnlyAffectsDebugData(data, json); }
      else { DebugSettingOnlyAffectsDebugData(Str(message), json); }
    case Str(s) =>
      if JsonParse(json, s).Some? { DebugSettingOnlyAffectsDebugData(JsonParse(json, s).value, json); }
    case Obj(fields) =>
      var nested := Get(fields, "error");
      var response := Get(fields, "response");
      if Truthy(nested) { DebugSettingOnlyAffectsDebugData(nested, json); }
      else if Truthy(response) { DebugSettingOnlyAffectsDebugData(Prop(response, "data"), json); }
    case _ =>
  }

  /** Only a `CustomError` supplies `user_data`: the unwrapping cases pass it through, every other case leaves it out. */
  lemma {:induction false} UserDataComesFromCustomErrors(error: JsValue, show_debug_data: bool, json: JsonTable)
    requires ParsesJson(json)
    requires !HasCustomError(error)
    ensures ParseError(error, show_debug_data, json).user_data == Undefined
    decreases Size(error)
  {
    match error
    case AxiosError(message, response) =>
      var data := if response == Undefined || response == Null then Undefined else Prop(response, "data");
      PropKeepsNoCustomError(response, "data");
      if Truthy(data) { UserDataComesFromCustomErrors(data, show_debug_data, json); }
      else { UserDataComesFromCustomErrors(Str(message), show_debug_data, json); }
    case Str(s) =>
      if JsonParse(json, s).Some? {
        JsonHasNoCustomError(json[s]);
        UserDataComesFromCustomErrors(JsonParse(json, s).value, show_debug_data, json);
      }
    case Obj(fields) =>
      var nested := Get(fields, "error");
      var response := Get(fields, "response");
      GetKeepsNoCustomError(fields, "error");
      GetKeepsNoCustomError(fields, "response");
      PropKeepsNoCustomError(response, "data");
      if Truthy(nested) { UserDataComesFromCustomErrors(nested, show_debug_data, json); }
      else if Truthy(response) { UserDataComesFromCustomErrors(Prop(response, "data"), show_debug_data, json); }
    case _ =>
  }

  /** Whether a `CustomError` occurs anywhere inside a value. */
  predicate HasCustomError(v: JsValue)
    decreases Size(v)
  {
    match v
    case CustomError(_, _, _) => true
    case AxiosError(_, r) => HasCustomError(r)
    case Obj(fs) => FieldsHaveCustomError(fs)
    case PlainError(_, ps) => FieldsHaveCustomError(ps)
    case _ => false
  }

  predicate FieldsHaveCustomError(fs: seq<Field>)
    decreases FieldsSize(fs)
  {
    fs != [] && (HasCustomError(fs[0].value) || FieldsHaveCustomError(fs[1..]))
  }

  /** A value `JSON.parse` produces holds no `CustomError`. */
  lemma {:induction false} JsonHasNoCustomError(v: JsValue)
    requires IsJson(v)
    ensures !HasCustomError(v)
    decreases Size(v)
  {
    if v.Obj? {
      FieldsHaveNoCustomError(v.fields);
    }
  }

  lemma {:induction false} FieldsHaveNoCustomError(fs: seq<Field>)
    requires FieldsAreJson(fs)
    ensures !FieldsHaveCustomError(fs)
    decreases FieldsSize(fs)
  {
    if fs != [] {
      JsonHasNoCustomError(fs[0].value);
      FieldsHaveNoCustomError(fs[1..]);
    }
  }

  lemma {:induction false} GetKeepsNoCustomError(fs: seq<Field>, key: string)
    requires !FieldsHaveCustomError(fs)
    ensures !HasCustomError(Get(fs, key))
    decreases FieldsSize(fs)
  {
    if fs != [] && fs[0].key != key {
      GetKeepsNoCustomError(fs[1..], key);
    }
  }

  lemma PropKeepsNoCustomError(v: JsValue, key: string)
    requires !HasCustomError(v)
    ensures !HasCustomError(Prop(v, key))
  {
    match v
    case Obj(fs) => GetKeepsNoCustomError(fs, key);
    case PlainError(_, ps) => GetKeepsNoCustomError(ps, key);
    case _ =>
  }

  /** The JSON body `async_handler` sends: `{ error: parse_error(e) }`. */
  datatype ErrorBody = ErrorBody(error: FormattedError)

  /** The parts of an Express response that `async_handler` touches. */
  class HttpResponse {
    var headersSent: bool
    var statusCode: Option<int>
    var body: Option<ErrorBody>

    constructor (headersSent: bool)
      ensures this.headersSent == headersSent && statusCode == None && body == None
    {
      this.headersSent := headersSent;
      statusCode := None;
      body := None;
    }
  }

  /**
   * `async_handler` after the wrapped handler has run: `thrown` is the value it rejected with, if any.
   * A 500 with the normalised error is sent only when the handler failed and nothing was sent yet.
   */
  method AsyncHandler(thrown: Option<JsValue>, res: HttpResponse, show_debug_data: bool, json: JsonTable)
    requires ParsesJson(json)
    modifies res
    ensures thrown.Some? && !old(res.headersSent) ==>
              res.headersSent && res.statusCode == Some(500) &&
              res.body == Some(ErrorBody(ParseError(thrown.value, show_debug_data, json)))
    ensures thrown.None? || old(res.headersSent) ==> unchanged(res)
  {
    if thrown.Some? && !res.headersSent {
      res.statusCode := Some(500);
      res.body := Some(ErrorBody(ParseError(thrown.value, show_debug_data, json)));
      res.headersSent := true;
    }
  }
}
