/**
 * The exchanges of the integration tests (tests/integration/test_meta_webhook_integration.py),
 * stated on the model.
 */
module Scenarios {
  import opened Json
  import Meta
  import LlmService
  import MetaService
  import MetaWebhook

  /** The text message of the test: "Hola bot" from 1234567890. */
  function SampleRequest(phoneNumberId: string): Meta.MetaWebhookRequest
  {
    var message := Meta.MetaMessage("wamid.test_message_id", "1234567890", "1600000000",
                                    Some(Meta.MetaMessageText("Hola bot")), "text");
    var contact := map["profile" := JObj(map["name" := JStr("Test User")]), "wa_id" := JStr("1234567890")];
    var metadata := map["display_phone_number" := JStr("PHONE_NUMBER"), "phone_number_id" := JStr(phoneNumberId)];
    var value := Meta.MetaValue("whatsapp", metadata, Some([contact]), Some([message]), None);
    Meta.MetaWebhookRequest(MetaService.WhatsAppObject,
      [Meta.MetaEntry("WHATSAPP_BUSINESS_ACCOUNT_ID", [Meta.MetaChange(value, "messages")])])
  }

  /** The provider is asked once, with "Hola bot" on behalf of 1234567890,
      and its reply is sent back to 1234567890; with the sender configured
      that send is a POST to the phone number's messages endpoint. */
  lemma TextMessageScenario(cfg: MetaService.Config, provider: nat -> LlmService.Completion, post: MetaService.PostOutcome)
    ensures var d := MetaService.Dispatch(JObj(Meta.RequestFields(SampleRequest(cfg.phoneNumberId))), cfg, provider);
            d == MetaService.Dispatched(
                   [MetaService.Generate(JStr("Hola bot"), JStr("1234567890")),
                    MetaService.Send(JStr("1234567890"), LlmService.Reply(provider(0)))],
                   MetaService.Completed)
    ensures MetaService.Configured(cfg) ==>
              var s := MetaService.SendWhatsAppMessage(cfg, JStr("1234567890"), LlmService.Reply(provider(0)), post);
              s.Posted? && s.request.endpoint == "/" + cfg.phoneNumberId + "/messages"
  {
    var r := SampleRequest(cfg.phoneNumberId);
    var tm := MetaService.TextMessagesOf(MetaService.RequestMessagesOf(r.entry));
    assert MetaService.RequestMessagesOf(r.entry) == r.entry[0].changes[0].value.messages.value by {
      assert MetaService.RequestMessagesOf(r.entry[1..]) == [];
      assert MetaService.ChangesMessagesOf(r.entry[0].changes[1..]) == [];
    }
    assert tm == MetaService.RequestMessagesOf(r.entry);
    MetaService.DispatchRecord(r, cfg, provider);
    var d := MetaService.Dispatch(JObj(Meta.RequestFields(r)), cfg, provider);
    assert d.calls == [d.calls[0], d.calls[1]];
  }

  /** An audio message reaches neither the provider nor the sender, and the
      dispatch still runs to its end. */
  lemma AudioMessageScenario(cfg: MetaService.Config, provider: nat -> LlmService.Completion)
    ensures var audio := JObj(map["type" := JStr("audio")]);
            var value := JObj(map["messages" := JArr([audio])]);
            var change := JObj(map["value" := value]);
            var entry := JObj(map["changes" := JArr([change])]);
            var payload := JObj(map["object" := JStr(MetaService.WhatsAppObject), "entry" := JArr([entry])]);
            MetaService.Dispatch(payload, cfg, provider) == MetaService.Dispatched([], MetaService.Completed)
  {
    var audio := map["type" := JStr("audio")];
    var value := map["messages" := JArr([JObj(audio)])];
    var change := map["value" := JObj(value)];
    var entry := map["changes" := JArr([JObj(change)])];
    var payload := map["object" := JStr(MetaService.WhatsAppObject), "entry" := JArr([JObj(entry)])];
    assert !MetaService.IsText(audio);
    assert MetaService.ChangeMessages(change) == Gen([audio], false);
    assert MetaService.ChangesMessages([change]) == Gen([audio], false);
    assert MetaService.EntryMessages(entry) == Gen([audio], false);
    assert MetaService.EntriesMessages([entry]) == Gen([audio], false);
    assert MetaService.AllMessages(payload) == Gen([audio], false);
    assert MetaService.FilterText([audio]) == [];
  }

  /** The handshake of the tests: the right token echoes the challenge, a
      wrong one is refused with 403. */
  lemma HandshakeScenario(secret: string)
    requires secret != "wrong_token"
    ensures MetaWebhook.VerifyWebhook("subscribe", "12345challenge", secret, secret)
         == MetaWebhook.Response(200, "12345challenge", Some("text/plain"))
    ensures MetaWebhook.VerifyWebhook("subscribe", "12345challenge", "wrong_token", secret)
         == MetaWebhook.HttpError(403, "Token de verificación inválido o modo incorrecto.")
  {
  }
}
