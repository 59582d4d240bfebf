/**
 * `process_result_with_code` of `commons_falcon/response/http.py`: turns a
 * downstream service's HTTP response into `(status, body)`.
 */
module HttpResponse {
  import opened Wrappers
  import opened Json
  import opened Falcon

  /**
   * A downstream response: its status code, its text, and `result.json()`,
   * which is `None` here when the text is not JSON (the call then raises).
   */
  datatype ServiceResponse = ServiceResponse(statusCode: int, text: string, parsed: Option<Json>)

  /** The body returned: decoded JSON, or the object a schema class builds from keyword arguments. */
  datatype Body<S> = Plain(json: Json) | Built(obj: S)

  /**
   * `process_result_with_code(result, schema=schema)`. A schema is called
   * with the decoded object's fields as keyword arguments, which needs a
   * JSON object.
   */
  function ProcessResultWithCode<S>(result: ServiceResponse, schema: Option<map<string, Json> -> S>)
    : (r: Result<(int, Body<S>), HttpError>)
    ensures r.Success? ==> r.value.0 == result.statusCode
  {
    if result.statusCode == 200 then
      if result.parsed.None? then Failure(Unhandled("JSONDecodeError"))
      else if schema.None? then Success((200, Plain(result.parsed.value)))
      else if result.parsed.value.JObject? then Success((200, Built(schema.value(result.parsed.value.fields))))
      else Failure(Unhandled("TypeError"))
    else if result.statusCode >= 400 then
      if result.parsed.Some? then Success((result.statusCode, Plain(result.parsed.value)))
      else Success((result.statusCode, Plain(JObject(map["error" := JString(result.text)]))))
    else Success((result.statusCode, Plain(JObject(map[]))))
  }

  /**
   * Status 200 returns the decoded body, or what the schema builds from it;
   * a body that is not JSON propagates as an error.
   */
  lemma OkReturnsDecodedBody<S>(result: ServiceResponse, schema: Option<map<string, Json> -> S>)
    requires result.statusCode == 200
    ensures ProcessResultWithCode(result, schema).Failure? <==>
              result.parsed.None? || (schema.Some? && !result.parsed.value.JObject?)
    ensures result.parsed.Some? && schema.None? ==>
              ProcessResultWithCode(result, schema) == Success((200, Plain(result.parsed.value)))
    ensures result.parsed.Some? && schema.Some? && result.parsed.value.JObject? ==>
              ProcessResultWithCode(result, schema) == Success((200, Built(schema.value(result.parsed.value.fields))))
  {
  }

  /** A status of 400 or more never raises: the decoded body, else `{"error": text}`. */
  lemma ErrorStatusNeverRaises<S>(result: ServiceResponse, schema: Option<map<string, Json> -> S>)
    requires result.statusCode >= 400
    ensures var r := ProcessResultWithCode(result, schema);
            && r.Success? && r.value.1.Plain?
            && r.value.1.json == (if result.parsed.Some? then result.parsed.value
                                  else JObject(map["error" := JString(result.text)]))
  {
  }

  /** Any other status (1xx, 201, 3xx, ...) returns an empty object, whatever the body. */
  lemma OtherStatusIsEmpty<S>(result: ServiceResponse, schema: Option<map<string, Json> -> S>)
    requires result.statusCode != 200 && result.statusCode < 400
    ensures ProcessResultWithCode(result, schema) == Success((result.statusCode, Plain(JObject(map[]))))
  {
  }
}
