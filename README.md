# WhatsApp webhook relay — a Dafny model

This project models how a small WhatsApp-to-LLM relay handles an inbound
event from the messaging platform. It covers the following pieces.

- **Endpoints.** The subscription handshake (GET) and the event intake (POST).
  The intake answers 400 to a body it cannot parse. Every parsed body gets
  200 "EVENT_RECEIVED".
- **Dispatcher.** It drops events of any other object kind. It flattens
  entry → change → value.messages and keeps the text messages in payload
  order. For each one it asks the completion provider for a reply, then
  hands that reply to the sender.
- **Sender.** It has a configuration guard. It builds the endpoint, the JSON
  body and the headers of one POST, and it swallows HTTP and transport errors.
- **Completion service.** It refuses an empty key. It builds the prompt and
  a fixed two-message request. It falls back to a fixed apology text when the
  provider fails.
- **Records.** The payload and outbound records, with their JSON validation
  and encoding.
- **Retrieval.** The two-variant retrieval capability, of which the no-op
  variant is the active one.

## Files and modules

- `Json.dfy` (`Json`) holds the parsed JSON tree and `dict.get`. It also
  models the Python iteration rules the dispatcher relies on. A lazy
  generator is a value `Gen(items, raises)`: the items it yields, and whether
  advancing past the last one raises.
- `Meta.dfy` (`Meta`) holds the payload records as datatypes, their
  validation from JSON, their encoding to JSON, and the round trips.
- `MetaService.dfy` (`MetaService`) holds the extraction function, the sender
  and the dispatcher. The dispatcher is a method that records its calls as a
  trace (`Generate(text, from)`, `Send(to, reply)`). It is proved against the
  specification function `Dispatch`. The file also holds the lemmas on which
  calls happen in what order, and the bridge from the typed records to the
  raw-JSON traversal.
- `LlmService.dfy` (`LlmService`) holds the key check, the prompt, the
  request and the reply policy. The provider's answer is a parameter.
- `MetaWebhook.dfy` (`MetaWebhook`) holds the two endpoints.
- `RagInterface.dfy` (`RagInterface`) holds the retrieval stub as a
  two-constructor datatype.
- `Scenarios.dfy` (`Scenarios`) states the exchanges of the integration
  tests on the model.

Three behaviours of the code deserve a note:

- **Messages are not isolated.** One `try` wraps the whole loop, so the first
  message that raises stops every later message of the same payload. The
  model does the same: `Outcome.Aborted`, with `FirstFault` and `Reached` in
  the lemmas.
- **The sender's guard.** It checks the phone-number id and the verify
  token, not the access token that it actually sends.
- **The missing `messages` case.** Extraction treats a missing "messages"
  list as empty. A "messages" key whose value is `null` still validates as a
  record, yet extraction raises on it (`MetaService.NullMessagesRaise`).

## Model

| member | source | states |
|---|---|---|
| Json.ThenIdentity | app/services/meta_service.py:22-28 | chaining an empty, non-raising generator (a missing "entry", "changes" or "messages") on either side changes nothing |
| Json.ThenAssoc | app/services/meta_service.py:22-28 | chaining the nested loops' generators is associative, so entry → change → message order is the same however it is grouped |
| Json.Dicts | app/services/meta_service.py:24-26 | iterating a value and calling `.get` on each element ends normally iff the value is an array of dicts, an empty string or an empty dict; anything but an array yields nothing; an array yields its leading dicts, all of them when nothing raises, and when it raises it stops exactly at the first element that is not a dict |
| Json.DictPrefix | app/services/meta_service.py:24-26 | the yielded dicts are exactly the array's leading dicts; it raises iff some element is not a dict, and then it stops at the first such element |
| Json.DictsOfDictArray | app/services/meta_service.py:24-26 | iterating an array of dicts yields exactly those dicts and never raises |
| Meta.NewMessageResponse | app/models/meta.py:36-40 | an outbound message defaults to messaging_product "whatsapp" and type "text"; only `to` and the text body vary |
| Meta.DecodeAll | app/models/meta.py:21-34 | a list validates iff every element validates; the result has the same length, element for element |
| Meta.DecodeAllInverse | app/models/meta.py:21-34 | elements that each validate to given records make the list validate to exactly that list |
| Meta.DecodeText | app/models/meta.py:6-7 | a text record validates iff it is an object whose "body" is a string |
| Meta.DecodeMessage | app/models/meta.py:9-14 | a valid message has string "from", "id", "timestamp" and "type", each equal to the record's field; the sender is read under the key "from"; a present text is a valid text record |
| Meta.DecodeValue | app/models/meta.py:17-22 | a valid value has "messaging_product" and "metadata"; contacts, messages and statuses are optional |
| Meta.DecodeChange | app/models/meta.py:24-26 | a valid change has "value" and "field" |
| Meta.DecodeEntry | app/models/meta.py:28-30 | a valid entry has "id" and a "changes" list |
| Meta.DecodeRequest | app/models/meta.py:32-34 | a valid request has "object" (its kind) and an "entry" list |
| Meta.DecodeChallengeQuery | app/models/meta.py:42-45 | the handshake query is read under the aliases "hub.mode", "hub.challenge" and "hub.verify_token" |
| Meta.DecodeMessageResponse | app/models/meta.py:36-40 | `to` and `text` are required; an absent messaging_product or type takes its default "whatsapp" or "text"; a present one must be a string (null is refused) and is kept |
| Meta.DecodeMessageResponseDefaults | app/models/meta.py:36-40 | validating just a recipient and a text gives the same message as building it from them: the defaults of validation and construction agree |
| Meta.MessageResponseToJson | app/services/meta_service.py:68 | the by-alias dump of an outbound message has exactly the keys messaging_product, to, type and text, with text = {body} |
| Meta.MessageRoundTrip | app/models/meta.py:9-14 | encoding a message (sender under "from", an absent text left out) and validating it gives the message back |
| Meta.MessagesRoundTrip | app/models/meta.py:21 | round trip of a list of messages |
| Meta.DictListRoundTrip | app/models/meta.py:20-22 | round trip of the untyped contacts and statuses lists |
| Meta.ValueRoundTrip | app/models/meta.py:17-22 | round trip of a value, whichever optional fields are absent |
| Meta.ChangeRoundTrip | app/models/meta.py:24-26 | round trip of a change |
| Meta.EntryRoundTrip | app/models/meta.py:28-30 | round trip of an entry |
| Meta.RequestRoundTrip | app/models/meta.py:32-34 | round trip of a whole webhook request |
| Meta.MessageResponseRoundTrip | app/models/meta.py:36-40 | round trip of the outbound message |
| Meta.FromOnlyUnderAlias | app/models/meta.py:11 | a message without the key "from" never validates, whatever other keys it has |
| MetaService.FilterText | app/services/meta_service.py:27 | the kept messages are exactly the messages of type "text" (both directions), and no more than there were |
| MetaService.FilterTextAppend | app/services/meta_service.py:22-28 | filtering keeps payload order: filtering a concatenation concatenates the filtered parts |
| MetaService.NonTextIgnored | app/services/meta_service.py:27 | a message of another type, wherever it sits and whatever keys it lacks, does not change the text messages |
| MetaService.ChangeMessages | app/services/meta_service.py:26 | a change without "value", or a value without "messages", contributes no messages and does not raise |
| MetaService.EntryMessages | app/services/meta_service.py:25 | an entry without "changes" contributes no messages and does not raise |
| MetaService.AllMessages | app/services/meta_service.py:24 | a payload without "entry" has no messages and does not raise |
| MetaService.TextMessages | app/services/meta_service.py:22-28 | every yielded message has type "text"; a payload without "entry" yields nothing |
| MetaService.SendWhatsAppMessage | app/services/meta_service.py:45-76 | skips iff the phone-number id or verify token is empty; raises iff configured and the recipient is not a string; otherwise posts to "/" + id + "/messages" the body {messaging_product, to, type, text:{body}} with the bearer header; the POST's outcome never propagates |
| MetaService.ReadFields | app/services/meta_service.py:31-33 | the reads succeed iff "from", "text" (a dict holding "body") and "id" are present |
| MetaService.Handle | app/services/meta_service.py:30-39 | one pass of the loop body continues iff the message is not faulty |
| MetaService.RunAppend | app/services/meta_service.py:30-39 | the loop over a concatenation runs the second part only if the first part raised nothing |
| MetaService.RunStep | app/services/meta_service.py:30-39 | one more iteration adds that message's calls, and a faulty message ends the loop |
| MetaService.ProcessWebhookMessage | app/services/meta_service.py:11-41 | the calls made and the outcome equal the specification `Dispatch`; a non-dict payload aborts with no call; another object kind returns with no call |
| MetaService.FirstFault | app/services/meta_service.py:30-33 | the index of the first message on which the body raises: every earlier message is sound, and that one is faulty |
| MetaService.CountSendsAppend | app/services/meta_service.py:39 | sends of a concatenation add up |
| MetaService.CountSendsCallsFor | app/services/meta_service.py:38-39 | a handled message makes exactly one send |
| MetaService.RunLength | app/services/meta_service.py:16-41 | the loop goes through iff no message is faulty; it makes two calls per reached message, and no more messages are reached than exist |
| MetaService.RunPairAt | app/services/meta_service.py:30-39 | the j-th reached message makes, at positions 2j and 2j+1, a generate with its text and sender, then a send of the provider's reply to that sender |
| MetaService.RunPairs | app/services/meta_service.py:30-39 | the same, for every reached message at once |
| MetaService.ReachedCons | app/services/meta_service.py:30-41 | a sound first message adds one to the reached count |
| MetaService.PairShift | app/services/meta_service.py:30-39 | helper of `RunPairAt` (sequence indexing only): after a two-call prefix, the pair at position j is the pair at j-1 of the rest |
| MetaService.RunSends | app/services/meta_service.py:30-39 | the loop makes one send per reached message |
| MetaService.DispatchCalls | app/services/meta_service.py:11-41 | for a whatsapp payload: one generate, then one send of that reply to the same sender, per reached text message in order; sends ≤ text messages, with equality when the dispatch completes; it completes iff no message is faulty and extraction does not raise |
| MetaService.CompletedRepliesArePosted | app/services/meta_service.py:45-70 | when a dispatch completes with the sender configured, every reply is posted to a string recipient |
| MetaService.MessagesFieldsAppend | app/models/meta.py:21 | encoding a concatenation of messages concatenates the encodings |
| MetaService.ChangeMessagesOfRecord | app/services/meta_service.py:26 | on an encoded change, the traversal yields the encoded messages of its value and does not raise |
| MetaService.ChangesMessagesOfRecords | app/services/meta_service.py:25-26 | the same for a list of changes, in order |
| MetaService.EntryMessagesOfRecord | app/services/meta_service.py:25-26 | the same for an entry |
| MetaService.EntriesMessagesOfRecords | app/services/meta_service.py:24-26 | the same for a list of entries, in order |
| MetaService.FilterTextOfRecords | app/services/meta_service.py:27 | filtering encoded messages equals encoding the typed messages of type "text" |
| MetaService.TextMessagesOfRecord | app/services/meta_service.py:22-28 | on a payload built from the declared records, extraction yields exactly the request's text messages, entry by entry, change by change, and never raises |
| MetaService.ReadRecordFields | app/services/meta_service.py:31-33 | the loop reads the sender, body and id of an encoded message that has a text |
| MetaService.RecordMessagesSound | app/services/meta_service.py:31-33 | encoded messages that all carry a text are all sound: no read raises and their senders are strings |
| MetaService.DispatchRecord | app/services/meta_service.py:11-41 | a well-formed request whose text messages all have a text is processed to the end: one generate with (body, from), then one send of the reply to from, per text message, in order |
| MetaService.NullMessagesRaise | app/services/meta_service.py:26 | "messages": null validates as a record but makes the traversal raise |
| LlmService.NewLlmService | app/services/llm_service.py:10-15 | construction fails with "GROQ_API_KEY no configurada." iff the key is empty; otherwise the model is "llama3-8b-8192" |
| LlmService.BuildPrompt | app/services/llm_service.py:35-39 | the prompt always ends with "Usuario: " + message; with no context it is exactly that; with a context it starts with the context, then the fixed instruction |
| LlmService.BuildRequest | app/services/llm_service.py:42-57 | exactly two turns: the fixed persona as system, then the prompt as user |
| LlmService.Reply | app/services/llm_service.py:59-72 | the provider's first content unchanged when present, the fixed fallback otherwise |
| LlmService.GenerateResponse | app/services/llm_service.py:17-72 | the request carries "Usuario: " + message, because the context is always empty; the reply follows `Reply` |
| LlmService.RequestShape | app/services/llm_service.py:15-57 | a service built from a non-empty key sends the model "llama3-8b-8192" and the two fixed turns |
| LlmService.UserIdNotSent | app/services/llm_service.py:60-68 | the user id never changes the request or the reply |
| LlmService.FaultGivesFallback | app/services/llm_service.py:70-72 | any provider failure gives the non-empty fallback text and nothing is raised |
| MetaWebhook.VerifyWebhook | app/api/v1/endpoints/meta_webhook.py:24-29 | 200 echoing the challenge as text/plain iff mode is "subscribe" and the token is the secret; otherwise 403 with the fixed detail |
| MetaWebhook.VerifyQuery | app/api/v1/endpoints/meta_webhook.py:11-16 | the three dotted parameters are required: a missing one is refused with 422 naming it; otherwise the handshake decides |
| MetaWebhook.HandshakeNeedsSecret | app/api/v1/endpoints/meta_webhook.py:24 | two tokens that both pass the handshake are both the secret |
| MetaWebhook.HandshakeNeedsSubscribe | app/api/v1/endpoints/meta_webhook.py:24 | any other mode is refused even with the secret |
| MetaWebhook.ReceiveWebhook | app/api/v1/endpoints/meta_webhook.py:36-67 | an unreadable body gives 400 "Payload inválido: " + error and no dispatch; any parsed body is dispatched and answered 200 "EVENT_RECEIVED" whatever the dispatch outcome |
| RagInterface.SearchKnowledgeBase | app/services/rag_interface.py:28-43 | the no-op service finds nothing; the placeholder returns doc1 (0.9) then doc2 (0.85), in descending score |
| RagInterface.AddDocument | app/services/rag_interface.py:45-46 | the no-op service acknowledges with status "no_rag_service_active"; the placeholder has no implementation |
| RagInterface.ActiveServiceFindsNothing | app/services/rag_interface.py:50 | the active instance returns nothing for any query and limit |
| RagInterface.QdrantIgnoresQueryAndLimit | app/services/rag_interface.py:28-35 | the placeholder's answer does not depend on the query or the limit, and exceeds a limit below 2 |
| Scenarios.TextMessageScenario | tests/integration/test_meta_webhook_integration.py:29-77 | "Hola bot" from 1234567890 gives exactly one generate ("Hola bot", 1234567890) and one send of its reply to 1234567890, posted to the phone number's messages endpoint |
| Scenarios.AudioMessageScenario | tests/integration/test_meta_webhook_integration.py:80-93 | an audio message gives no call and the dispatch completes |
| Scenarios.HandshakeScenario | tests/integration/test_meta_webhook_integration.py:9-27 | the right token echoes "12345challenge"; "wrong_token" gets 403 with the fixed detail |

## Left out

- I/O, the network and the clock are not modelled. Two oracles stand in for them:
  - the provider's answer for the k-th handled message is `provider(k)`;
  - the POST's outcome is a `PostOutcome` parameter.
  The HTTP client (app/utils/http_client.py), including how the relative
  endpoint joins its base URL, is not part of this model.
- Logging, async scheduling and concurrency between requests are not
  modelled. The per-payload loop is sequential and is modelled as such.
- Reading the request bytes, UTF-8 decoding and JSON parsing are not
  modelled. The POST handler receives their result as `Body`, which is
  either the parsed value or the error message.
- JSON numbers are integers in the model, and floating point is not
  modelled. Within this core a number only matters as "not a string".
- MetaService.ProcessWebhookMessage: the generate call records the raw JSON
  body. The source formats a non-string body into the prompt text, and the
  model does not capture that formatting.
- Configuration loading (app/core/config.py) is not part of this model.
  Tokens and ids are `Config` fields. The handshake secret is an explicit
  argument, because the handshake reads a verify-token setting that the
  settings class does not declare. The settings class ignores undeclared
  values, so as written that read raises AttributeError whenever the mode is
  "subscribe", and the request ends in a 500 that `VerifyWebhook` does not
  model. `VerifyWebhook` and `Scenarios.HandshakeScenario` describe the
  handler with the secret defined. A mode other than "subscribe" is refused
  with 403 before the setting is read, as `HandshakeNeedsSubscribe` states.
- The model id setting from configuration is never read by the completion
  service, so it is left out.
- The commented-out retrieval lookup in the completion service is left out.
  Its context is always empty, which `BuildPrompt` covers.
- RagInterface.AddDocument: the placeholder variant returns `None`, standing
  for "not implemented". In the source the placeholder lacks the method, so
  the abstract class refuses to instantiate it. Its `add_document`-like lines
  after the `return` are dead code.
- The console message printed by the placeholder's constructor and search is
  not modelled.
- The chat endpoint and its models (app/api/v1/endpoints/chat.py,
  app/models/chat.py) are not part of this model. They only forward to the
  sender.
