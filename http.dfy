/**
 * What the delivery routes see of HTTP: the JSON values a request body can
 * carry, JavaScript's truthiness and string conversion of them, the outcome
 * of the outbound webhook call, and the JSON response a route returns.
 */
module Http {
  import opened Wrappers
  import opened Text

  /**
   * A JSON value found in a request field. Numbers are whole numbers; arrays
   * and objects are `JComposite`, carrying the text `String(value)` gives.
   */
  datatype JsonValue =
    | JString(s: string)
    | JNumber(n: int)
    | JBool(b: bool)
    | JNull
    | JComposite(asText: string)

  /** JavaScript truthiness of a field; `None` is `undefined`. */
  predicate Truthy(v: Option<JsonValue>)
  {
    v.Some? &&
    match v.value
    case JString(s) => s != ""
    case JNumber(n) => n != 0
    case JBool(b) => b
    case JNull => false
    case JComposite(_) => true
  }

  /** The text a template literal `${v}` produces. */
  function JsToString(v: JsonValue): string
  {
    match v
    case JString(s) => s
    case JNumber(n) => IntToDecimal(n)
    case JBool(b) => if b then "true" else "false"
    case JNull => "null"
    case JComposite(t) => t
  }

  /**
   * The body as a handler sees it after `await request.json()` and
   * destructuring: `Unreadable` when parsing throws (malformed JSON) or the
   * destructuring does (a `null` body), with the thrown error's message;
   * `ObjectBody` for a JSON object; `OtherBody` for any other JSON value,
   * whose destructured fields are all `undefined`.
   */
  datatype RequestBody =
    | Unreadable(message: string)
    | ObjectBody(fields: map<string, JsonValue>)
    | OtherBody

  /** The destructured field `name` of a readable body; `None` is `undefined`. */
  function Field(body: RequestBody, name: string): (v: Option<JsonValue>)
    requires !body.Unreadable?
    ensures v.Some? <==> body.ObjectBody? && name in body.fields
  {
    if body.ObjectBody? && name in body.fields then Some(body.fields[name]) else None
  }

  /**
   * The outcome of the outbound webhook `fetch`: a response with its status
   * line and body text, or a thrown network error with its message.
   */
  datatype WebhookOutcome =
    | Responded(status: int, statusText: string, body: string)
    | NetworkError(message: string)

  /** `Response.ok`: a status in the range 200 to 299. */
  predicate IsOk(status: int) {
    200 <= status <= 299
  }

  /** Whether `process.env.ZAPIER_WEBHOOK_URL` is set to a non-empty string. */
  predicate Configured(webhookUrl: Option<string>) {
    webhookUrl.Some? && webhookUrl.value != ""
  }

  /** The JSON envelope of the save and retry routes: `{error, details?}` or `{message}`. */
  datatype ApiBody =
    | ErrorBody(error: string, details: Option<string>)
    | MessageBody(message: string)

  /** A route's JSON response: the HTTP status and the body. */
  datatype Response<B> = Response(status: int, body: B)

  const ConfigurationError := "Server configuration error: Zapier webhook URL missing."
}
