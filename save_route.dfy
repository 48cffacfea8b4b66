/**
 * The save-transcript endpoint: checks the request body and forwards the
 * transcript to the webhook. It writes nothing to the transcript store; the
 * only effect besides the response is the outbound webhook call, whose
 * payload the model returns beside the response.
 */
module SaveTranscriptRoute {
  import opened Wrappers
  import opened Http

  /** The JSON the webhook receives; `None` fields are `undefined` and are dropped by `JSON.stringify`. */
  datatype SavePayload = SavePayload(
    fileName: string,
    textContent: string,
    conversationId: Option<JsonValue>,
    eventTimestamp: Option<JsonValue>)

  /** The response, and the payload posted to the webhook when the handler got that far. */
  datatype SaveResult = SaveResult(response: Response<ApiBody>, forwarded: Option<SavePayload>)

  const InvalidBody := "Invalid request body: fileName (string) and content (string) are required."
  const ForwardFailed := "Failed to forward transcript to Zapier."
  const Forwarded := "Transcript successfully forwarded to Zapier."
  const ProcessingFailed := "Failed to process the request."

  /** `!v || typeof v !== "string"` fails exactly for anything but a non-empty string. */
  predicate IsNonEmptyString(v: Option<JsonValue>) {
    v.Some? && v.value.JString? && v.value.s != ""
  }

  /** The body passes validation: `fileName` and `content` are both non-empty strings. */
  predicate ValidBody(body: RequestBody)
    requires !body.Unreadable?
  {
    IsNonEmptyString(Field(body, "fileName")) && IsNonEmptyString(Field(body, "content"))
  }

  /** The payload built from a valid body: `content` travels as `textContent`, the rest as given. */
  function PayloadOf(body: RequestBody): (p: SavePayload)
    requires !body.Unreadable? && ValidBody(body)
    ensures Some(JString(p.fileName)) == Field(body, "fileName")
    ensures Some(JString(p.textContent)) == Field(body, "content")
    ensures p.conversationId == Field(body, "conversationId") && p.eventTimestamp == Field(body, "timestamp")
  {
    SavePayload(Field(body, "fileName").value.s, Field(body, "content").value.s,
                Field(body, "conversationId"), Field(body, "timestamp"))
  }

  /**
   * `POST /api/save-transcript`. `webhookUrl` is the configured webhook
   * address, `body` the parsed request, and `outcome` what the webhook call
   * gives back (read only when the payload is forwarded).
   */
  function Post(webhookUrl: Option<string>, body: RequestBody, outcome: WebhookOutcome): SaveResult
  {
    if !Configured(webhookUrl) then
      SaveResult(Response(500, ErrorBody(ConfigurationError, None)), None)
    else if body.Unreadable? then
      SaveResult(Response(500, ErrorBody(ProcessingFailed, Some(body.message))), None)
    else if !ValidBody(body) then
      SaveResult(Response(400, ErrorBody(InvalidBody, None)), None)
    else
      var payload := PayloadOf(body);
      match outcome
      case Responded(status, _, text) =>
        if !IsOk(status) then SaveResult(Response(status, ErrorBody(ForwardFailed, Some(text))), Some(payload))
        else SaveResult(Response(200, MessageBody(Forwarded)), Some(payload))
      case NetworkError(message) =>
        SaveResult(Response(500, ErrorBody(ProcessingFailed, Some(message))), Some(payload))
  }

  /**
   * The webhook is called exactly when the endpoint is configured and the
   * body is readable and valid, and then with the body's own file name and text.
   */
  lemma ForwardedIffValid(webhookUrl: Option<string>, body: RequestBody, outcome: WebhookOutcome)
    ensures var r := Post(webhookUrl, body, outcome);
      && (r.forwarded.Some? <==> Configured(webhookUrl) && !body.Unreadable? && ValidBody(body))
      && (r.forwarded.Some? ==>
            && Field(body, "fileName") == Some(JString(r.forwarded.value.fileName))
            && Field(body, "content") == Some(JString(r.forwarded.value.textContent)))
  {
  }

  /**
   * The caller sees a success status (200 to 299) exactly when the
   * transcript was forwarded and the webhook answered with a success status;
   * the success status is then always 200.
   */
  lemma SuccessIffWebhookAccepted(webhookUrl: Option<string>, body: RequestBody, outcome: WebhookOutcome)
    ensures var r := Post(webhookUrl, body, outcome);
      && (IsOk(r.response.status) <==> r.forwarded.Some? && outcome.Responded? && IsOk(outcome.status))
      && (IsOk(r.response.status) ==> r.response.status == 200 && r.response.body.MessageBody?)
  {
  }

  /** A rejected webhook call passes the webhook's own status and body text through to the caller. */
  lemma WebhookRejectionPassedThrough(webhookUrl: Option<string>, body: RequestBody, status: int, statusText: string, text: string)
    requires Configured(webhookUrl) && !body.Unreadable? && ValidBody(body) && !IsOk(status)
    ensures Post(webhookUrl, body, Responded(status, statusText, text)).response
      == Response(status, ErrorBody(ForwardFailed, Some(text)))
  {
  }

  /**
   * Every client error is answered before the webhook is called: a 400 or a
   * configuration 500 never comes with a forwarded payload. A thrown error,
   * whether reading the body or calling the webhook, answers 500 with the
   * error's message as details.
   */
  lemma ErrorsBeforeForwarding(webhookUrl: Option<string>, body: RequestBody, outcome: WebhookOutcome)
    ensures var r := Post(webhookUrl, body, outcome);
      && (!Configured(webhookUrl) ==> r.response == Response(500, ErrorBody(ConfigurationError, None)) && r.forwarded.None?)
      && (Configured(webhookUrl) && !body.Unreadable? && !ValidBody(body) ==> r.response.status == 400 && r.forwarded.None?)
      && (Configured(webhookUrl) && body.Unreadable? ==>
            r == SaveResult(Response(500, ErrorBody(ProcessingFailed, Some(body.message))), None))
      && (r.forwarded.Some? && outcome.NetworkError? ==>
            r.response == Response(500, ErrorBody(ProcessingFailed, Some(outcome.message))))
  {
  }

  /** A body whose text is empty is refused, as is one whose file name is not a string. */
  lemma EmptyContentRejected(webhookUrl: Option<string>, outcome: WebhookOutcome)
    requires Configured(webhookUrl)
    ensures Post(webhookUrl, ObjectBody(map["fileName" := JString("a.txt"), "content" := JString("")]), outcome).response.status == 400
    ensures Post(webhookUrl, ObjectBody(map["fileName" := JNumber(7), "content" := JString("hi")]), outcome).response.status == 400
    ensures Post(webhookUrl, OtherBody, outcome).response.status == 400
  {
  }
}
