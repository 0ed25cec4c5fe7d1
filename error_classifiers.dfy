/** How the two classifiers, `parse_error` and `parseError`, relate on the simple cases. */
module ErrorClassifiers {
  import opened Wrappers
  import opened JsValues
  import ErrorService
  import ErrorHelpers

  /** Both classifiers answer a plain `Error` with its message. */
  lemma ClassifiersAgreeOnPlainErrors(message: string, props: seq<Field>, show_debug_data: bool,
                                      json: JsonTable)
    requires ParsesJson(json)
    ensures ErrorHelpers.ParseError(PlainError(message, props), json).message == message
    ensures ErrorService.ParseError(PlainError(message, props), show_debug_data, json).message == message
  {
  }

  /** Both classifiers answer a string that is not JSON with the string itself. */
  lemma ClassifiersAgreeOnNonJsonStrings(message: string, show_debug_data: bool, json: JsonTable)
    requires ParsesJson(json)
    requires JsonParse(json, message).None?
    ensures ErrorHelpers.ParseError(Str(message), json).message == message
    ensures ErrorService.ParseError(Str(message), show_debug_data, json).message == message
  {
  }

  /** Both classifiers answer an `AxiosError` without a response, whose message is not JSON, with that message. */
  lemma ClassifiersAgreeOnResponselessAxiosErrors(message: string, show_debug_data: bool, json: JsonTable)
    requires ParsesJson(json)
    requires JsonParse(json, message).None?
    ensures ErrorHelpers.ParseError(AxiosError(message, Undefined), json).message == message
    ensures ErrorService.ParseError(AxiosError(message, Undefined), show_debug_data, json).message == message
  {
    ClassifiersAgreeOnNonJsonStrings(message, show_debug_data, json);
  }

  /** The older classifier drops a `CustomError`'s `user_data`, which `parse_error` keeps. */
  lemma OnlyParseErrorKeepsUserData(message: string, ud: JsValue, dd: JsValue, show_debug_data: bool,
                                    json: JsonTable)
    requires ParsesJson(json)
    ensures ErrorHelpers.ParseError(CustomError(message, ud, dd), json) == ErrorHelpers.ParsedError(message, Undefined)
    ensures ErrorService.ParseError(CustomError(message, ud, dd), show_debug_data, json).user_data == ud
  {
  }
}
