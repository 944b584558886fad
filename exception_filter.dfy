/**
 * The catch-all exception filter of server/src/filter-all-exceptions.filter.ts:
 * how the status, message and errors of the JSON reply are derived.
 */
module ExceptionFilter {
  import opened Outcomes

  /** A JavaScript value as it can appear in an exception's response. */
  datatype Json =
    | JUndefined
    | JNull
    | JBool(b: bool)
    | JNumber(n: int)
    | JString(s: string)
    | JArray(items: seq<Json>)
    | JObject(fields: map<string, Json>)

  /** JavaScript truthiness. */
  predicate Truthy(j: Json)
  {
    match j
    case JUndefined => false
    case JNull => false
    case JBool(b) => b
    case JNumber(n) => n != 0
    case JString(s) => s != ""
    case _ => true
  }

  /** `name in value` for the two names the filter asks about (arrays carry neither). */
  predicate Has(j: Json, name: string)
  {
    j.JObject? && name in j.fields
  }

  /** `value[name]`, undefined when absent. */
  function Field(j: Json, name: string): Json
  {
    if Has(j, name) then j.fields[name] else JUndefined
  }

  /** A thrown value: an `HttpException` with its status and response, or anything else. */
  datatype Exception = HttpException(status: int, response: Json) | OtherException

  const INTERNAL_SERVER_ERROR: int := 500
  const INTERNAL_MESSAGE: string := "Internal server error"
  const VALIDATION_FAILED: string := "Validation failed"

  /** The three variables the filter assigns before building the reply. */
  datatype Derived = Derived(status: int, message: Json, errors: Json)

  /** The response body sent; `errors` is absent unless truthy. */
  datatype Body = Body(statusCode: int, timestamp: string, path: string, message: Json, errors: Option<Json>)

  datatype Reply = Reply(status: int, body: Body)

  /** The status/message/errors derivation; `stringify` stands for `JSON.stringify`. */
  function Derive(exception: Exception, stringify: Json -> string): (d: Derived)
    ensures exception.OtherException? ==> d == Derived(INTERNAL_SERVER_ERROR, JString(INTERNAL_MESSAGE), JUndefined)
    ensures exception.HttpException? ==> d.status == exception.status
    ensures d.errors != JUndefined ==> exception.HttpException? && Has(exception.response, "errors")
  {
    match exception
    case OtherException => Derived(INTERNAL_SERVER_ERROR, JString(INTERNAL_MESSAGE), JUndefined)
    case HttpException(status, response) =>
      match response
      case JString(s) => Derived(status, JString(s), JUndefined)
      case JObject(_) => DeriveFromObject(status, response, stringify)
      case JArray(_) => DeriveFromObject(status, response, stringify)
      case _ => Derived(status, JString(INTERNAL_MESSAGE), JUndefined)
  }

  /** An object or array response: validation errors first, then `message`, then the JSON text. */
  function DeriveFromObject(status: int, response: Json, stringify: Json -> string): (d: Derived)
    ensures d.status == status
    ensures Has(response, "errors") ==> Truthy(d.message) && d.errors == response.fields["errors"]
    ensures !Has(response, "errors") ==> d.errors == JUndefined
    ensures !Has(response, "errors") && !Has(response, "message") ==> d.message == JString(stringify(response))
  {
    if Has(response, "errors") then
      var msg := Field(response, "message");
      Derived(status, if Truthy(msg) then msg else JString(VALIDATION_FAILED), Field(response, "errors"))
    else if Has(response, "message") then
      var msg := Field(response, "message");
      var message := if msg.JArray? then (if |msg.items| > 0 then msg.items[0] else JUndefined) else msg;
      Derived(status, message, JUndefined)
    else Derived(status, JString(stringify(response)), JUndefined)
  }

  /** `catch(exception, host)`: the status and body written to the response. */
  function Catch(exception: Exception, url: string, timestamp: string, stringify: Json -> string): (r: Reply)
    ensures r.body.statusCode == r.status && r.body.path == url && r.body.timestamp == timestamp
    ensures r.body.errors.Some? ==> Truthy(r.body.errors.value)
    ensures exception.HttpException? ==> r.status == exception.status
  {
    var d := Derive(exception, stringify);
    Reply(d.status, Body(d.status, timestamp, url, d.message, if Truthy(d.errors) then Some(d.errors) else None))
  }

  /** Anything but an `HttpException` gives 500 and "Internal server error", with no errors. */
  lemma NonHttpIsInternalError(url: string, timestamp: string, stringify: Json -> string)
    ensures Catch(OtherException, url, timestamp, stringify)
         == Reply(500, Body(500, timestamp, url, JString("Internal server error"), None))
  {
  }

  /** A string response becomes the message verbatim. */
  lemma StringResponseVerbatim(status: int, s: string, url: string, timestamp: string, stringify: Json -> string)
    ensures Catch(HttpException(status, JString(s)), url, timestamp, stringify).body.message == JString(s)
  {
  }

  /**
   * An object with `errors` gives its `message`, or "Validation failed" when
   * that is falsy, and its `errors` are sent exactly when truthy.
   */
  lemma ValidationErrorsCopied(status: int, fields: map<string, Json>, url: string, timestamp: string, stringify: Json -> string)
    requires "errors" in fields
    ensures var body := Catch(HttpException(status, JObject(fields)), url, timestamp, stringify).body;
      && body.message == (if "message" in fields && Truthy(fields["message"]) then fields["message"] else JString("Validation failed"))
      && body.errors == (if Truthy(fields["errors"]) then Some(fields["errors"]) else None)
  {
  }

  /**
   * Without `errors`, an array `message` gives its first element (undefined
   * when empty) and any other `message` is used as is; no errors are sent.
   */
  lemma MessageFieldUsed(status: int, fields: map<string, Json>, url: string, timestamp: string, stringify: Json -> string)
    requires "errors" !in fields && "message" in fields
    ensures var body := Catch(HttpException(status, JObject(fields)), url, timestamp, stringify).body;
      && body.errors == None
      && body.message == match fields["message"] {
           case JArray(items) => if |items| > 0 then items[0] else JUndefined
           case other => other
         }
  {
  }

  /**
   * A null, undefined, boolean or number response matches none of the cases:
   * the exception's status is kept and the default message is sent.
   */
  lemma ScalarResponseKeepsDefaultMessage(status: int, response: Json, url: string, timestamp: string, stringify: Json -> string)
    requires response.JNull? || response.JUndefined? || response.JBool? || response.JNumber?
    ensures var r := Catch(HttpException(status, response), url, timestamp, stringify);
      && r.status == status && r.body.message == JString("Internal server error") && r.body.errors == None
  {
  }

  /** An object with neither field is sent as its JSON text. */
  lemma OtherObjectStringified(status: int, response: Json, url: string, timestamp: string, stringify: Json -> string)
    requires (response.JObject? || response.JArray?) && !Has(response, "errors") && !Has(response, "message")
    ensures Catch(HttpException(status, response), url, timestamp, stringify).body.message == JString(stringify(response))
  {
  }

  /** Only an object with an `errors` field can ever send `errors`. */
  lemma ErrorsOnlyFromValidation(exception: Exception, url: string, timestamp: string, stringify: Json -> string)
    requires Catch(exception, url, timestamp, stringify).body.errors.Some?
    ensures exception.HttpException? && Has(exception.response, "errors")
    ensures Catch(exception, url, timestamp, stringify).body.errors == Some(exception.response.fields["errors"])
  {
  }
}
