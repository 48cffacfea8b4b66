/**
 * The retry-transcript endpoint: re-sends a stored transcript to the
 * webhook and records the attempt in the store.
 *
 * `Decide` says, as a pure function of the request, the stored records and
 * the webhook's answer, which response the caller gets, what is posted and
 * which status update is recorded; `Post` performs it against a `Store`.
 */
module RetryTranscriptRoute {
  import opened Wrappers
  import opened Text
  import opened Http
  import opened StatusIndex
  import opened TranscriptStore

  /** The JSON the webhook receives on a retry. */
  datatype RetryPayload = RetryPayload(
    fileName: string,
    textContent: string,
    conversationId: JsonValue,
    eventTimestamp: string,
    isRetry: bool,
    previousAttempts: nat,
    deliveryId: string)

  /** A status update to record: the id whose record changes, the new status and the response details. */
  datatype Update = Update(id: string, status: Status, details: ResponseDetails)

  datatype RetryResult = RetryResult(response: Response<ApiBody>, forwarded: Option<RetryPayload>, update: Option<Update>)

  const IdRequired := "conversationId is required"
  const NotFound := "Transcript not found"
  const RetryFailed := "Retry failed"
  const NetworkFailed := "Network error during retry"
  const Resent := "Transcript successfully resent to Zapier"
  const ProcessingFailed := "Failed to process retry request"

  /** The idempotency key of a delivery: the id, a dash, and the number of this attempt. */
  function DeliveryId(id: string, attempts: nat): (d: string)
    ensures |d| == |id| + 1 + |NatToDecimal(attempts + 1)|
  {
    id + "-" + NatToDecimal(attempts + 1)
  }

  /** What is posted for a stored transcript at the clock reading `nowIso`. */
  function PayloadFor(idValue: JsonValue, t: Transcript, nowIso: string): RetryPayload
  {
    RetryPayload(t.metadata.fileName, t.content.text, idValue, nowIso, true,
                 t.metadata.zapierAttempts, DeliveryId(JsToString(idValue), t.metadata.zapierAttempts))
  }

  /**
   * The request's conversation id, when it has one, is a JSON string. Only
   * then do the store's id lists see the same id as its keys: the keys are
   * built from the id's string form, but the lists are searched for and
   * extended with the raw value.
   */
  predicate StringId(body: RequestBody) {
    body.Unreadable? || Field(body, "conversationId").None? || Field(body, "conversationId").value.JString?
  }

  /**
   * `POST /api/retry-transcript` as a decision. The store key is the id's
   * string form, as the template literals of the store build it.
   */
  function Decide(webhookUrl: Option<string>, body: RequestBody, md: map<string, Metadata>, ct: map<string, Content>,
                  outcome: WebhookOutcome, nowIso: string): RetryResult
  {
    if !Configured(webhookUrl) then
      RetryResult(Response(500, ErrorBody(ConfigurationError, None)), None, None)
    else if body.Unreadable? then
      RetryResult(Response(500, ErrorBody(ProcessingFailed, None)), None, None)
    else if !Truthy(Field(body, "conversationId")) then
      RetryResult(Response(400, ErrorBody(IdRequired, None)), None, None)
    else
      var idValue := Field(body, "conversationId").value;
      var id := JsToString(idValue);
      var stored := Stored(md, ct, id);
      if stored.None? then
        RetryResult(Response(404, ErrorBody(NotFound, None)), None, None)
      else
        var payload := PayloadFor(idValue, stored.value, nowIso);
        match outcome
        case Responded(status, statusText, text) =>
          if !IsOk(status) then
            RetryResult(Response(status, ErrorBody(RetryFailed, Some(text))), Some(payload),
                        Some(Update(id, Failed, HttpResponse(status, statusText, Some(text), true))))
          else
            RetryResult(Response(200, MessageBody(Resent)), Some(payload),
                        Some(Update(id, Sent, HttpResponse(status, statusText, None, true))))
        case NetworkError(message) =>
          RetryResult(Response(500, ErrorBody(NetworkFailed, Some(message))), Some(payload),
                      Some(Update(id, Failed, NetworkFailure(message, true))))
  }

  /**
   * Performs the retry against `store`: reads the transcript, then records
   * the attempt with `updateTranscriptStatus` at clock reading `now`.
   */
  method Post(store: Store, webhookUrl: Option<string>, body: RequestBody, outcome: WebhookOutcome, now: int, nowIso: string)
    returns (response: Response<ApiBody>, forwarded: Option<RetryPayload>)
    modifies store
    ensures var d := Decide(webhookUrl, body, old(store.metadata), old(store.content), outcome, nowIso);
      && response == d.response && forwarded == d.forwarded
      && (d.update.None? ==>
            store.metadata == old(store.metadata) && store.content == old(store.content) && store.indexes == old(store.indexes))
      && (d.update.Some? ==>
            var u := d.update.value;
            var was := old(store.metadata)[u.id];
            && store.metadata == old(store.metadata)[u.id := Attempted(was, u.status, Some(u.details), now)]
            && store.content == old(store.content)
            && store.indexes == StatusMoved(old(store.indexes), u.id, was.status, u.status))
    ensures old(store.Valid()) && StringId(body) ==> store.Valid()
  {
    if !Configured(webhookUrl) {
      return Response(500, ErrorBody(ConfigurationError, None)), None;
    }
    if body.Unreadable? {
      return Response(500, ErrorBody(ProcessingFailed, None)), None;
    }
    var field := Field(body, "conversationId");
    if !Truthy(field) {
      return Response(400, ErrorBody(IdRequired, None)), None;
    }
    var id := JsToString(field.value);
    var transcript := store.GetTranscript(id);
    if transcript.None? {
      return Response(404, ErrorBody(NotFound, None)), None;
    }
    var payload := PayloadFor(field.value, transcript.value, nowIso);
    forwarded := Some(payload);
    var update: Update;
    match outcome {
      case Responded(status, statusText, text) =>
        if !IsOk(status) {
          update := Update(id, Failed, HttpResponse(status, statusText, Some(text), true));
          response := Response(status, ErrorBody(RetryFailed, Some(text)));
        } else {
          update := Update(id, Sent, HttpResponse(status, statusText, None, true));
          response := Response(200, MessageBody(Resent));
        }
      case NetworkError(message) =>
        update := Update(id, Failed, NetworkFailure(message, true));
        response := Response(500, ErrorBody(NetworkFailed, Some(message)));
    }
    var _ := store.UpdateTranscriptStatus(update.id, update.status, Some(update.details), now);
  }

  // ---------------------------------------------------------------------------
  // Properties of the decision.

  /**
   * The delivery id reads back: it starts with the id, then a dash, and the
   * digits after it spell the number of this attempt, one more than the
   * attempts made before.
   */
  lemma DeliveryIdReadsBack(id: string, attempts: nat)
    ensures var d := DeliveryId(id, attempts);
      && d[..|id|] == id && d[|id|] == '-'
      && AllDigits(d[|id| + 1..]) && DecimalToNat(d[|id| + 1..]) == attempts + 1
  {
    var d := DeliveryId(id, attempts);
    assert d[|id| + 1..] == NatToDecimal(attempts + 1);
    DecimalRoundTrip(attempts + 1);
  }

  /**
   * Delivery ids never collide: two deliveries with the same id string have
   * the same conversation id and the same attempt number, even when
   * conversation ids themselves contain dashes.
   */
  lemma DeliveryIdInjective(a: string, m: nat, b: string, n: nat)
    requires DeliveryId(a, m) == DeliveryId(b, n)
    ensures a == b && m == n
  {
    var d := DeliveryId(a, m);
    var sa, sb := NatToDecimal(m + 1), NatToDecimal(n + 1);
    assert d == a + "-" + sa && d == b + "-" + sb;
    LastIndexAfter(a, '-', sa);
    LastIndexAfter(b, '-', sb);
    assert a == d[..|a|] == b;
    assert sa == d[|a| + 1..] == sb;
    NatToDecimalInjective(m + 1, n + 1);
  }

  /**
   * A retry that reaches the webhook records exactly one attempt: the record
   * it updates is the one named by the request's conversation id and the one
   * the payload was built from (its file name, text and attempt count), the
   * payload passes the id through, carries the clock reading and is marked as
   * a retry, and the update says `sent` exactly when the webhook answered with
   * a success status.
   */
  lemma ForwardedRetryIsRecorded(webhookUrl: Option<string>, body: RequestBody, md: map<string, Metadata>, ct: map<string, Content>,
                                 outcome: WebhookOutcome, nowIso: string)
    ensures var r := Decide(webhookUrl, body, md, ct, outcome, nowIso);
      && (r.update.Some? <==> r.forwarded.Some?)
      && (r.update.Some? ==>
            && !body.Unreadable? && Field(body, "conversationId").Some?
            && r.update.value.id == JsToString(Field(body, "conversationId").value)
            && r.update.value.id in md && r.update.value.id in ct
            && r.forwarded.value.fileName == md[r.update.value.id].fileName
            && r.forwarded.value.conversationId == Field(body, "conversationId").value
            && r.forwarded.value.eventTimestamp == nowIso
            && r.forwarded.value.isRetry
            && r.forwarded.value.previousAttempts == md[r.update.value.id].zapierAttempts
            && r.forwarded.value.textContent == ct[r.update.value.id].text
            && r.forwarded.value.deliveryId == DeliveryId(r.update.value.id, md[r.update.value.id].zapierAttempts)
            && (r.update.value.status == Sent <==> outcome.Responded? && IsOk(outcome.status)))
  {
  }

  /**
   * The caller sees 200 exactly when the transcript was found and the
   * webhook answered with a success status; a missing transcript is a 404
   * and a falsy id a 400, with nothing posted and nothing recorded.
   */
  lemma RetryResponses(webhookUrl: Option<string>, body: RequestBody, md: map<string, Metadata>, ct: map<string, Content>,
                       outcome: WebhookOutcome, nowIso: string)
    ensures var r := Decide(webhookUrl, body, md, ct, outcome, nowIso);
      && (IsOk(r.response.status) <==> r.forwarded.Some? && outcome.Responded? && IsOk(outcome.status))
      && (IsOk(r.response.status) ==> r.response.status == 200)
      && (Configured(webhookUrl) && !body.Unreadable? && !Truthy(Field(body, "conversationId")) ==>
            r.response.status == 400 && r.update.None?)
      && (Configured(webhookUrl) && !body.Unreadable? && Truthy(Field(body, "conversationId"))
          && Stored(md, ct, JsToString(Field(body, "conversationId").value)).None? ==>
            r.response.status == 404 && r.update.None? && r.forwarded.None?)
  {
  }

  /**
   * The failure answers: without a webhook URL the route answers 500 and
   * neither posts nor records anything, and so it does for an unreadable
   * body. A rejected webhook call passes the webhook's status and body text
   * through, and a network error answers 500 with its message; both record
   * the attempt as `failed`, with what the webhook or the network said.
   */
  lemma RetryFailures(webhookUrl: Option<string>, body: RequestBody, md: map<string, Metadata>, ct: map<string, Content>,
                      outcome: WebhookOutcome, nowIso: string)
    ensures var r := Decide(webhookUrl, body, md, ct, outcome, nowIso);
      && (!Configured(webhookUrl) ==>
            r == RetryResult(Response(500, ErrorBody(ConfigurationError, None)), None, None))
      && (Configured(webhookUrl) && body.Unreadable? ==>
            r == RetryResult(Response(500, ErrorBody(ProcessingFailed, None)), None, None))
      && (r.forwarded.Some? && outcome.Responded? && !IsOk(outcome.status) ==>
            && r.response == Response(outcome.status, ErrorBody(RetryFailed, Some(outcome.body)))
            && r.update.Some? && r.update.value.status == Failed
            && r.update.value.details == HttpResponse(outcome.status, outcome.statusText, Some(outcome.body), true))
      && (r.forwarded.Some? && outcome.NetworkError? ==>
            && r.response == Response(500, ErrorBody(NetworkFailed, Some(outcome.message)))
            && r.update.Some? && r.update.value.status == Failed
            && r.update.value.details == NetworkFailure(outcome.message, true))
      && (r.forwarded.Some? && outcome.Responded? && IsOk(outcome.status) ==>
            && r.update.Some? && r.update.value.status == Sent
            && r.update.value.details == HttpResponse(outcome.status, outcome.statusText, None, true))
  {
  }

  /**
   * Two retries of the same transcript in a row carry different delivery
   * ids: the first records an attempt, so the second counts one further.
   */
  lemma SuccessiveRetriesDiffer(webhookUrl: Option<string>, body: RequestBody, md: map<string, Metadata>, ct: map<string, Content>,
                                first: WebhookOutcome, second: WebhookOutcome, nowIso: string, now: int, laterIso: string)
    requires Decide(webhookUrl, body, md, ct, first, nowIso).update.Some?
    ensures var r1 := Decide(webhookUrl, body, md, ct, first, nowIso);
      var u := r1.update.value;
      var md' := md[u.id := Attempted(md[u.id], u.status, Some(u.details), now)];
      var r2 := Decide(webhookUrl, body, md', ct, second, laterIso);
      && r2.forwarded.Some?
      && r2.forwarded.value.previousAttempts == r1.forwarded.value.previousAttempts + 1
      && r2.forwarded.value.deliveryId != r1.forwarded.value.deliveryId
  {
    var r1 := Decide(webhookUrl, body, md, ct, first, nowIso);
    var u := r1.update.value;
    var md' := md[u.id := Attempted(md[u.id], u.status, Some(u.details), now)];
    var r2 := Decide(webhookUrl, body, md', ct, second, laterIso);
    ForwardedRetryIsRecorded(webhookUrl, body, md, ct, first, nowIso);
    ForwardedRetryIsRecorded(webhookUrl, body, md', ct, second, laterIso);
    if r2.forwarded.value.deliveryId == r1.forwarded.value.deliveryId {
      DeliveryIdInjective(u.id, md'[u.id].zapierAttempts, u.id, md[u.id].zapierAttempts);
    }
  }

  /** A transcript already tried once is re-sent with delivery id "abc-2" and previousAttempts 1. */
  lemma SecondAttemptExample(webhookUrl: Option<string>, m: Metadata, c: Content, outcome: WebhookOutcome, nowIso: string)
    requires Configured(webhookUrl) && m.zapierAttempts == 1
    ensures var r := Decide(webhookUrl, ObjectBody(map["conversationId" := JString("abc")]), map["abc" := m], map["abc" := c], outcome, nowIso);
      && r.forwarded.Some?
      && r.forwarded.value.deliveryId == "abc-2"
      && r.forwarded.value.previousAttempts == 1
      && r.forwarded.value.isRetry
  {
    assert NatToDecimal(2) == "2";
  }
}
