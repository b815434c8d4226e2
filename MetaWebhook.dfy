/**
 * The two HTTP endpoints the platform calls (app/api/v1/endpoints/meta_webhook.py):
 * the subscription handshake (GET) and the event intake (POST).
 *
 * The shared secret of the handshake is a parameter, as is the body the
 * intake receives: reading and parsing the bytes either gives a JSON value or
 * an error message.
 */
module MetaWebhook {
  import opened Json
  import Meta
  import LlmService
  import MetaService

  /** An HTTP answer: a plain response, an error raised as `HTTPException`, or
      the framework's refusal of a request that lacks required parameters. */
  datatype Response =
    | Response(status: int, content: string, mediaType: Option<string>)
    | HttpError(status: int, detail: string)
    | MissingParameters(status: int, missing: set<string>)

  const SubscribeMode := "subscribe"
  const VerifyFailureDetail := "Token de verificación inválido o modo incorrecto."
  const EventReceived := "EVENT_RECEIVED"
  const InvalidPayloadPrefix := "Payload inválido: "

  /** The query parameters of the handshake, under their dotted names. */
  const ModeParam := Meta.ModeAlias
  const ChallengeParam := Meta.ChallengeAlias
  const TokenParam := Meta.TokenAlias

  /** The handshake: the challenge is echoed as plain text exactly when the
      mode is "subscribe" and the token is the configured secret. */
  function VerifyWebhook(hubMode: string, hubChallenge: string, hubVerifyToken: string, secret: string): (r: Response)
    ensures r.Response? <==> hubMode == SubscribeMode && hubVerifyToken == secret
    ensures r.Response? ==> r == Response(200, hubChallenge, Some("text/plain"))
    ensures !r.Response? ==> r == HttpError(403, VerifyFailureDetail)
  {
    if hubMode == SubscribeMode && hubVerifyToken == secret then
      Response(200, hubChallenge, Some("text/plain"))
    else
      HttpError(403, VerifyFailureDetail)
  }

  /** The GET endpoint on its raw query: the three parameters are required, and
      a request missing any of them is refused before the handler runs. */
  function VerifyQuery(query: map<string, string>, secret: string): (r: Response)
    ensures r.MissingParameters? <==> !(ModeParam in query && ChallengeParam in query && TokenParam in query)
    ensures r.MissingParameters? ==> r.status == 422 && r.missing == {ModeParam, ChallengeParam, TokenParam} - query.Keys
    ensures r.MissingParameters? ==> r.missing != {}
    ensures !r.MissingParameters? ==> r == VerifyWebhook(query[ModeParam], query[ChallengeParam], query[TokenParam], secret)
  {
    var missing := {ModeParam, ChallengeParam, TokenParam} - query.Keys;
    if ModeParam in query && ChallengeParam in query && TokenParam in query then
      VerifyWebhook(query[ModeParam], query[ChallengeParam], query[TokenParam], secret)
    else
      assert ModeParam !in query ==> ModeParam in missing;
      assert ChallengeParam !in query ==> ChallengeParam in missing;
      assert TokenParam !in query ==> TokenParam in missing;
      MissingParameters(422, missing)
  }

  /** Only the holder of the secret completes the handshake: two tokens that
      both succeed are the same token, the secret. */
  lemma HandshakeNeedsSecret(challenge: string, t1: string, t2: string, secret: string)
    requires VerifyWebhook(SubscribeMode, challenge, t1, secret).Response?
    requires VerifyWebhook(SubscribeMode, challenge, t2, secret).Response?
    ensures t1 == t2 == secret
  {
  }

  /** Any mode other than "subscribe" is refused, even with the secret. */
  lemma HandshakeNeedsSubscribe(mode: string, challenge: string, secret: string)
    requires mode != SubscribeMode
    ensures VerifyWebhook(mode, challenge, secret, secret) == HttpError(403, VerifyFailureDetail)
  {
  }

  /** The request body as the handler obtains it: parsed JSON, or the message
      of the exception raised while reading, decoding or parsing it. */
  datatype Body = Parsed(json: Json) | Unparseable(error: string)

  /** The POST endpoint. A body that cannot be read is answered with 400 and
      nothing is dispatched; any parsed body, whatever its shape, is handed to
      the dispatcher and acknowledged with 200, because the dispatcher never
      raises. */
  method ReceiveWebhook(body: Body, cfg: MetaService.Config, provider: nat -> LlmService.Completion)
    returns (resp: Response, calls: seq<MetaService.Call>)
    ensures body.Unparseable? ==> resp == HttpError(400, InvalidPayloadPrefix + body.error) && calls == []
    ensures body.Parsed? ==> resp == Response(200, EventReceived, None)
    ensures body.Parsed? ==> calls == MetaService.Dispatch(body.json, cfg, provider).calls
  {
    match body
    case Unparseable(e) =>
      resp := HttpError(400, InvalidPayloadPrefix + e);
      calls := [];
    case Parsed(payload) =>
      var outcome;
      calls, outcome := MetaService.ProcessWebhookMessage(payload, cfg, provider);
      resp := Response(200, EventReceived, None);
  }
}
