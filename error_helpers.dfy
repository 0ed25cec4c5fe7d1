/**
 * The older error classifier `parseError` (src/helpers.ts/error.ts): it yields
 * `{ message, metadata? }` and has no `CustomError` case of its own.
 */
module ErrorHelpers {
  import opened Wrappers
  import opened JsValues

  /** `{ message, metadata? }`; absent metadata is `Undefined`. */
  datatype ParsedError = ParsedError(message: string, metadata: JsValue)

  const SeeMetadata: string := "An error occurred -- see metadata for details"
  const UnknownError: string := "An unknown error occurred"

  /** One step of `parseError`: either the answer, or the value it goes on to classify. */
  datatype Step = Answer(result: ParsedError) | Descend(next: JsValue)

  /** The branch `parseError` takes on `error`, without its recursive call. */
  function Classify(error: JsValue, json: JsonTable): (st: Step)
    requires ParsesJson(json)
  {
    match error
    case AxiosError(message, response) =>
      if Truthy(response) then Descend(Prop(response, "data"))
      else Answer(ParsedError(message, Undefined))
    case CustomError(message, _, _) => Answer(ParsedError(message, Undefined))
    case PlainError(message, _) => Answer(ParsedError(message, Undefined))
    case Str(s) => ClassifyJson(s, JsonParse(json, s))
    case Obj(fields) =>
      if Truthy(Get(fields, "error")) then Descend(Get(fields, "error"))
      else Answer(ParsedError(SeeMetadata, error))
    case _ => Answer(ParsedError(UnknownError, Undefined))
  }

  /** The branch taken on a thrown string `s`, given what `JSON.JsonParse(json, s)` gave. */
  function ClassifyJson(s: string, parsed: Option<JsValue>): (st: Step)
    ensures st.Descend? ==> parsed.Some? && Size(st.next) < Size(parsed.value)
  {
    match parsed
    case None => Answer(ParsedError(s, Undefined))
    case Some(v) =>
      // reading `.error` of a parsed `null` throws inside the try, and the catch answers with the string
      if v.Null? || v.Undefined? then Answer(ParsedError(s, Undefined))
      else if Truthy(Prop(v, "error")) then Descend(Prop(v, "error"))
      else Answer(ParsedError(SeeMetadata, v))
  }

  /** `parseError`. */
  function ParseError(error: JsValue, json: JsonTable): ParsedError
    requires ParsesJson(json)
    decreases Size(error)
  {
    match Classify(error, json)
    case Answer(result) => result
    case Descend(next) =>
      ClassifyShrinks(error, json);
      ParseError(next, json)
  }

  /** An axios error with a response is reported as the response's `data`; one without, by its message. */
  lemma AxiosErrorsReportTheirResponse(message: string, response: JsValue, json: JsonTable)
    requires ParsesJson(json)
    ensures Truthy(response) ==> ParseError(AxiosError(message, response), json) == ParseError(Prop(response, "data"), json)
    ensures !Truthy(response) ==> ParseError(AxiosError(message, response), json) == ParsedError(message, Undefined)
  {
    ClassifyShrinks(AxiosError(message, response), json);
  }

  /**
   * A JSON string is reported as its truthy `error`, else by the "see metadata" message with the
   * parsed value as metadata; a string that is not JSON (or is `null`) is its own message.
   */
  lemma StringsReportTheirJson(s: string, json: JsonTable)
    requires ParsesJson(json)
    ensures s in json && !json[s].Null? && !json[s].Undefined? && Truthy(Prop(json[s], "error")) ==>
      ParseError(Str(s), json) == ParseError(Prop(json[s], "error"), json)
    ensures s in json && !json[s].Null? && !json[s].Undefined? && !Truthy(Prop(json[s], "error")) ==>
      ParseError(Str(s), json) == ParsedError(SeeMetadata, json[s])
    ensures (s !in json || json[s].Null? || json[s].Undefined?) ==> ParseError(Str(s), json) == ParsedError(s, Undefined)
  {
    ClassifyShrinks(Str(s), json);
  }

  /** An object is reported as its truthy `error`, else by the "see metadata" message with itself as metadata. */
  lemma ObjectsUnwrapError(fields: seq<Field>, json: JsonTable)
    requires ParsesJson(json)
    ensures Truthy(Get(fields, "error")) ==> ParseError(Obj(fields), json) == ParseError(Get(fields, "error"), json)
    ensures !Truthy(Get(fields, "error")) ==> ParseError(Obj(fields), json) == ParsedError(SeeMetadata, Obj(fields))
  {
    ClassifyShrinks(Obj(fields), json);
  }

  /** A non-axios error, `CustomError` included, is reported by its message without metadata. */
  lemma ErrorsReportTheirMessage(error: JsValue, json: JsonTable)
    requires ParsesJson(json)
    requires error.CustomError? || error.PlainError?
    ensures ParseError(error, json) == ParsedError(error.message, Undefined)
  {
  }

  /** A value that is no error, string or object is unknown, without metadata. */
  lemma OtherValuesAreUnknown(error: JsValue, json: JsonTable)
    requires ParsesJson(json)
    requires error.Undefined? || error.Null? || error.Bool? || error.Num?
    ensures ParseError(error, json) == ParsedError(UnknownError, Undefined)
  {
  }

  /** Each step goes on to a strictly smaller value, so the classification terminates. */
  lemma ClassifyShrinks(error: JsValue, json: JsonTable)
    requires ParsesJson(json)
    ensures Classify(error, json).Descend? ==> Size(Classify(error, json).next) < Size(error)
  {
    match error
    case AxiosError(_, response) =>
    case Str(s) =>
    case Obj(fields) =>
    case _ =>
  }

  /** A step that answers attaches metadata only together with the "see metadata" message. */
  lemma StepMetadataOnlyWithSeeMetadata(error: JsValue, json: JsonTable)
    requires ParsesJson(json)
    ensures Classify(error, json).Answer? && Classify(error, json).result.metadata != Undefined
            ==> Classify(error, json).result.message == SeeMetadata
  {
  }

  /** Metadata is attached only together with the "see metadata" message. */
  lemma {:induction false} MetadataOnlyWithSeeMetadata(error: JsValue, json: JsonTable)
    requires ParsesJson(json)
    ensures ParseError(error, json).metadata != Undefined ==> ParseError(error, json).message == SeeMetadata
    decreases Size(error)
  {
    StepMetadataOnlyWithSeeMetadata(error, json);
    if Classify(error, json).Descend? {
      MetadataOnlyWithSeeMetadata(Classify(error, json).next, json);
    }
  }

  /** A step that answers attaches as metadata a parsed value or the object itself, never an Error instance. */
  lemma StepMetadataIsNeverAnError(error: JsValue, json: JsonTable)
    requires ParsesJson(json)
    ensures Classify(error, json).Answer? ==> !IsErrorInstance(Classify(error, json).result.metadata)
  {
  }

  /** When metadata is attached it is an object-like or parsed JSON value, never an Error instance. */
  lemma {:induction false} MetadataIsNeverAnError(error: JsValue, json: JsonTable)
    requires ParsesJson(json)
    ensures !IsErrorInstance(ParseError(error, json).metadata)
    decreases Size(error)
  {
    StepMetadataIsNeverAnError(error, json);
    if Classify(error, json).Descend? {
      MetadataIsNeverAnError(Classify(error, json).next, json);
    }
  }

  predicate IsErrorInstance(v: JsValue)
  {
    v.CustomError? || v.AxiosError? || v.PlainError?
  }
}
