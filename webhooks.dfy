/** The two webhook entry points, routes/webhookRoutes.js and the POST of routes/zoomRoutes.js, and
    the recordings lookup of routes/zoomRoutes.js. Each is a decision on the event name and a few
    payload fields; the one effect, the awaited `handleEngagementEnded` call, is recorded as the
    argument it was given, and whether it resolved is a parameter. */
module Webhooks {
  import opened Common
  import opened Recording

  const ENGAGEMENT_ENDED: string := "contact_center.engagement_ended"
  const URL_VALIDATION: string := "endpoint.url_validation"

  /** The payload fields the routes read: `payload.object.engagement_id`, `payload.engagement.id`
      (webhookRoutes.js), `payload.engagement_id` (zoomRoutes.js) and `payload.plainToken`. */
  datatype Payload = Payload(
    objectEngagementId: Option<string>,
    engagementRefId: Option<string>,
    engagementId: Option<string>,
    plainToken: Option<string>)

  /** A parsed JSON object body: its `event` and `payload` members. */
  datatype Body = Body(event: Option<string>, payload: Option<Payload>)

  datatype ReplyBody =
    | Text(text: string)
    | Validation(plainToken: string, encryptedToken: string)
    | Received
    | ErrorJson(error: Option<string>)
    | Urls(recordingUrl: Option<string>, transcriptUrl: Option<string>)

  datatype Reply = Reply(status: int, body: ReplyBody)

  /** Whether, and with what, `handleEngagementEnded` was called; `Called(None)` is a call with
      `undefined`. */
  datatype Call = NoCall | Called(arg: Option<string>)

  datatype Dispatch = Dispatch(reply: Reply, call: Call)

  /** `payload?.object?.engagement_id || payload?.engagement?.id`. */
  function WebhookEngagementId(payload: Option<Payload>): Option<string> {
    if payload.None? then None else Or(payload.value.objectEngagementId, payload.value.engagementRefId)
  }

  /** POST /webhook. `body` is `None` when the request body is missing or not an object, and
      `handled(id)` tells whether `handleEngagementEnded(id)` resolved. */
  function Webhook(body: Option<Body>, handled: Option<string> -> bool): (d: Dispatch)
    ensures body.None? ==> d == Dispatch(Reply(400, Text("Invalid JSON body")), NoCall)
    ensures d.call.Called? <==>
      body.Some? && body.value.event == Some(ENGAGEMENT_ENDED) && Truthy(WebhookEngagementId(body.value.payload))
    ensures d.call.Called? ==> d.call.arg == WebhookEngagementId(body.value.payload) && d.call.arg.value != ""
    ensures d.call.Called? ==> (d.reply.status == 200 <==> handled(d.call.arg))
    ensures d.call.Called? ==> d.reply.status in {200, 500}
    ensures d.reply.status == 500 ==> d.call.Called? && !handled(d.call.arg)
    ensures d.reply.body.Validation? ==>
      d.reply.body.encryptedToken == d.reply.body.plainToken && d.reply.status == 200
  {
    if body.None? then Dispatch(Reply(400, Text("Invalid JSON body")), NoCall)
    else
      var event := body.value.event;
      var payload := body.value.payload;
      if event == Some(ENGAGEMENT_ENDED) then
        var id := WebhookEngagementId(payload);
        if !Truthy(id) then Dispatch(Reply(400, Text("Engagement ID missing")), NoCall)
        else if handled(id) then Dispatch(Reply(200, Text("Engagement processed")), Called(id))
        else Dispatch(Reply(500, Text("Webhook error")), Called(id))
      else if event == Some(URL_VALIDATION) then
        var token := if payload.Some? then payload.value.plainToken else None;
        if !Truthy(token) then Dispatch(Reply(400, Text("plainToken missing")), NoCall)
        else Dispatch(Reply(200, Validation(token.value, token.value)), NoCall)
      else Dispatch(Reply(200, Text("Event ignored")), NoCall)
  }

  /** The object id wins over the engagement reference; the reference is used only when the object
      id is absent or empty. */
  lemma WebhookIdPreference(body: Body, handled: Option<string> -> bool)
    requires body.event == Some(ENGAGEMENT_ENDED) && body.payload.Some?
    ensures Truthy(body.payload.value.objectEngagementId) ==>
      Webhook(Some(body), handled).call == Called(body.payload.value.objectEngagementId)
    ensures !Truthy(body.payload.value.objectEngagementId) && Truthy(body.payload.value.engagementRefId) ==>
      Webhook(Some(body), handled).call == Called(body.payload.value.engagementRefId)
    ensures !Truthy(body.payload.value.objectEngagementId) && !Truthy(body.payload.value.engagementRefId) ==>
      Webhook(Some(body), handled) == Dispatch(Reply(400, Text("Engagement ID missing")), NoCall)
  {
  }

  /** URL validation echoes a non-empty `plainToken` as both fields, and refuses a missing one. */
  lemma UrlValidationEcho(payload: Option<Payload>, handled: Option<string> -> bool)
    ensures var d := Webhook(Some(Body(Some(URL_VALIDATION), payload)), handled);
      var token := if payload.Some? then payload.value.plainToken else None;
      && d.call == NoCall
      && (Truthy(token) ==> d.reply == Reply(200, Validation(token.value, token.value)))
      && (!Truthy(token) ==> d.reply == Reply(400, Text("plainToken missing")))
  {
  }

  /** Every event other than the two known ones is acknowledged with 200 and nothing is done. */
  lemma OtherEventsIgnored(event: Option<string>, payload: Option<Payload>, handled: Option<string> -> bool)
    requires event != Some(ENGAGEMENT_ENDED) && event != Some(URL_VALIDATION)
    ensures Webhook(Some(Body(event, payload)), handled) == Dispatch(Reply(200, Text("Event ignored")), NoCall)
  {
  }

  /** POST /api/zoom. `body` is `None` when `req.body` is undefined, so that destructuring it throws;
      a missing `payload` makes `payload.engagement_id` throw. Both throws, like a rejected handler,
      give 500 with the error's message; a `TypeError`'s message is the engine's and is left
      unnamed (`None`). */
  function ZoomWebhook(body: Option<Body>, handled: Option<string> -> bool, failure: string): (d: Dispatch)
    ensures d.call.Called? <==>
      body.Some? && body.value.event == Some(ENGAGEMENT_ENDED) && body.value.payload.Some?
    ensures d.call.Called? ==> d.call.arg == body.value.payload.value.engagementId
    ensures d.reply.status == 200 <==> d.reply == Reply(200, Received)
    ensures d.reply.status == 200 <==>
      body.Some? && (body.value.event == Some(ENGAGEMENT_ENDED) ==> d.call.Called? && handled(d.call.arg))
    ensures d.reply.status != 200 ==> d.reply.status == 500 && d.reply.body.ErrorJson?
  {
    if body.None? then Dispatch(Reply(500, ErrorJson(None)), NoCall)
    else if body.value.event == Some(ENGAGEMENT_ENDED) then
      if body.value.payload.None? then Dispatch(Reply(500, ErrorJson(None)), NoCall)
      else
        var id := body.value.payload.value.engagementId;
        if handled(id) then Dispatch(Reply(200, Received), Called(id))
        else Dispatch(Reply(500, ErrorJson(Some(failure))), Called(id))
    else Dispatch(Reply(200, Received), NoCall)
  }

  /** The two routes read different payload shapes: a payload that carries only
      `object.engagement_id` is processed for that id by /webhook, while /api/zoom calls the
      handler with `undefined`. */
  lemma PayloadShapesDiffer(id: string, handled: Option<string> -> bool, failure: string)
    requires id != ""
    ensures var b := Some(Body(Some(ENGAGEMENT_ENDED), Some(Payload(Some(id), None, None, None))));
      && Webhook(b, handled).call == Called(Some(id))
      && ZoomWebhook(b, handled, failure).call == Called(None)
  {
  }

  /** GET /api/zoom/:engagementId/recordings. `token` is `getAccessToken()`'s outcome and
      `fetch(token)` the recordings endpoint's answer. Only a voice entry is returned: unlike
      `getRecording` there is no fallback to the first entry. */
  function RecordingUrls(token: Outcome<string>, fetch: string -> Outcome<RecordingsResponse>): (r: Reply)
    ensures r.status == 200 <==> token.Ok? && fetch(token.value).Ok? && FindVoice(Listed(fetch(token.value).value)).Some?
    ensures r.status == 200 ==>
      var recs := Listed(fetch(token.value).value);
      exists i :: 0 <= i < |recs| && IsVoice(recs[i]) && r.body.Urls? && r.body.recordingUrl == recs[i].downloadUrl
        && (r.body.transcriptUrl.Some? ==> r.body.transcriptUrl == recs[i].transcriptUrl)
    ensures r.status == 404 <==>
      token.Ok? && fetch(token.value).Ok? && forall e :: e in Listed(fetch(token.value).value) ==> !IsVoice(e)
    ensures r.status in {200, 404, 500}
  {
    if token.Err? then Reply(500, ErrorJson(Some("Failed to fetch recordings")))
    else
      var resp := fetch(token.value);
      if resp.Err? then Reply(500, ErrorJson(Some("Failed to fetch recordings")))
      else
        var recs := Listed(resp.value);
        match FindVoice(recs)
        case None => Reply(404, ErrorJson(Some("No voice recording found")))
        case Some(i) =>
          var t := recs[i].transcriptUrl;
          Reply(200, Urls(recs[i].downloadUrl, if Truthy(t) then t else None))
  }

  /** The URLs returned are those of the first voice entry, and an empty transcript URL is
      reported as null. */
  lemma RecordingUrlsFirstVoice(token: string, fetch: string -> Outcome<RecordingsResponse>, i: nat)
    requires fetch(token).Ok?
    requires var recs := Listed(fetch(token).value);
      i < |recs| && IsVoice(recs[i]) && forall j :: 0 <= j < i ==> !IsVoice(recs[j])
    ensures var e := Listed(fetch(token).value)[i];
      RecordingUrls(Ok(token), fetch) ==
        Reply(200, Urls(e.downloadUrl, if Truthy(e.transcriptUrl) then e.transcriptUrl else None))
  {
  }

  /** A list of recordings without a voice entry is refused with 404 by this route, while the
      ingestion run falls back to the first entry of the same list. */
  lemma NoVoiceFallbackDiffers(token: string, fetch: string -> Outcome<RecordingsResponse>)
    requires fetch(token).Ok?
    requires var recs := Listed(fetch(token).value);
      |recs| > 0 && forall j :: 0 <= j < |recs| ==> !IsVoice(recs[j])
    ensures RecordingUrls(Ok(token), fetch).status == 404
    ensures Chosen(Listed(fetch(token).value)) == Some(Listed(fetch(token).value)[0])
  {
    var recs := Listed(fetch(token).value);
    assert forall e :: e in recs ==> !IsVoice(e);
  }
}
