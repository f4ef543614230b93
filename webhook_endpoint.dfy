/** `POST /webhook`: the secret-header dependency, then the scheduling rule. FastAPI's
    routing and `BackgroundTasks` are not modelled beyond "scheduled once with message m". */
module WebhookEndpoint {
  import opened Wrappers
  import opened Json

  const SecretHeader := "X-Telegram-Bot-Api-Secret-Token"
  const InvalidDetail := "X-Telegram-Bot-Api-Secret-Token header invalid"
  const MissingDetail := "X-Telegram-Bot-Api-Secret-Token header missing"

  datatype Response = Response(status: int, body: Json)

  /** The verdict of the secret-header dependency. */
  datatype Verdict = Accept | Reject(response: Response)

  /** FastAPI's answer when the required header `x_telegram_bot_api_secret_token` is absent. */
  const MissingHeaderResponse := Response(422, JObj(map["detail" := JArr([JObj(map[
      "type" := JStr("missing"),
      "loc" := JArr([JStr("header"), JStr("x-telegram-bot-api-secret-token")]),
      "msg" := JStr("Field required"),
      "input" := JNull])])]))

  const InvalidHeaderResponse := Response(401, JObj(map["detail" := JStr(InvalidDetail)]))

  /** `require_valid_api_secret_token` as written: the header is a required `str`, and it is
      compared with the configured secret, which is `None` when the variable is unset. */
  function CheckSecret(configured: Option<string>, header: Option<string>): (v: Verdict)
    ensures v.Accept? <==> header.Some? && configured == header
    ensures header.None? ==> v == Reject(MissingHeaderResponse)
    ensures header.Some? && configured != header ==> v == Reject(InvalidHeaderResponse)
  {
    match header
    case None => Reject(MissingHeaderResponse)
    case Some(h) => if configured != Some(h) then Reject(InvalidHeaderResponse) else Accept
  }

  /** As written, an unset secret admits no request at all: without the header FastAPI
      rejects it, and any header differs from `None`. */
  lemma NoSecretRejectsEverything(header: Option<string>)
    ensures CheckSecret(None, header).Reject?
    ensures header.Some? ==> CheckSecret(None, header).response.status == 401
  {
  }

  /** The check the test suite expects of a later revision (optional header, settings
      object): no secret configured accepts every request (the tests show this for a
      request without the header; the model assumes the same for one that sends a header);
      a configured secret rejects a missing header with 401 "header missing" and a
      different one with 401 "header invalid". */
  function CheckSecretTested(configured: Option<string>, header: Option<string>): (v: Verdict)
    ensures configured.None? ==> v.Accept?
    ensures configured.Some? ==> (v.Accept? <==> header == configured)
    ensures configured.Some? && header.None? ==>
              v == Reject(Response(401, JObj(map["detail" := JStr(MissingDetail)])))
  {
    if configured.None? then Accept
    else if header.None? then Reject(Response(401, JObj(map["detail" := JStr(MissingDetail)])))
    else if header != configured then Reject(InvalidHeaderResponse)
    else Accept
  }

  /** The two revisions agree whenever a secret is configured and the header is sent;
      they differ on a missing header (422 against 401) and on an unset secret. */
  lemma RevisionsOfSecretCheck(configured: Option<string>, header: Option<string>)
    ensures configured.Some? && header.Some? ==> CheckSecret(configured, header) == CheckSecretTested(configured, header)
    ensures configured.Some? && header.None? ==>
              CheckSecret(configured, header).response.status == 422 &&
              CheckSecretTested(configured, header).response.status == 401
    ensures configured.None? ==> CheckSecret(configured, header) != CheckSecretTested(configured, header)
  {
  }

  /** What the endpoint function did: answered, with the handler runs it scheduled, or
      raised (the body is not a JSON object, so `body.get` fails). */
  datatype Outcome = Answered(response: Response, scheduled: seq<Json>) | Crashed

  const OkBody := JObj(map["ok" := JBool(true)])

  /** `webhook`: schedule `handle_incoming_message` with `body["message"]` when that is
      present and non-empty, and always answer `{"ok": True}`. */
  function Webhook(body: Json): (r: Outcome)
    ensures r.Crashed? <==> !body.JObj?
    ensures r.Answered? ==> r.response == Response(200, OkBody)
    ensures r.Answered? ==>
              (|r.scheduled| == 1 <==> "message" in body.fields && Truthy(body.fields["message"]))
    ensures r.Answered? ==> |r.scheduled| <= 1
    ensures r.Answered? && |r.scheduled| == 1 ==> r.scheduled[0] == body.fields["message"]
  {
    if !body.JObj? then Crashed
    else
      var message := Get(body.fields, "message", JObj(map[]));
      Answered(Response(200, OkBody), if Truthy(message) then [message] else [])
  }

  /** A whole request: the dependency runs first; a rejected request gets its error response
      and schedules nothing. */
  function HandleRequest(configured: Option<string>, header: Option<string>, body: Json): (r: Outcome)
    ensures CheckSecret(configured, header).Reject? ==>
              r == Answered(CheckSecret(configured, header).response, [])
    ensures CheckSecret(configured, header).Accept? ==> r == Webhook(body)
  {
    match CheckSecret(configured, header)
    case Reject(resp) => Answered(resp, [])
    case Accept => Webhook(body)
  }

  /** A request schedules work only when it carried exactly the configured secret, and then
      it schedules the body's own message, once. */
  lemma ScheduledOnlyWithSecret(configured: Option<string>, header: Option<string>, body: Json)
    requires HandleRequest(configured, header, body).Answered?
    requires |HandleRequest(configured, header, body).scheduled| > 0
    ensures header.Some? && configured == header
    ensures body.JObj? && "message" in body.fields
    ensures HandleRequest(configured, header, body).scheduled == [body.fields["message"]]
  {
  }

  /** The test-suite scenario: with secret "secret123" and the matching header, the body
      `{"message": {"chat": {"id": 123}}}` is answered 200 `{"ok": true}` and schedules
      that message. */
  lemma CorrectSecretScenario()
    ensures var m := JObj(map["chat" := JObj(map["id" := JNum(123)])]);
            HandleRequest(Some("secret123"), Some("secret123"), JObj(map["message" := m]))
              == Answered(Response(200, OkBody), [m])
  {
    var m := JObj(map["chat" := JObj(map["id" := JNum(123)])]);
    assert Truthy(m) by {
      assert "chat" in m.fields;
    }
  }
}
