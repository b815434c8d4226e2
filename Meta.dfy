/**
 * The records of the messaging platform's webhook payload and of the
 * outbound text message (app/models/meta.py), with their JSON encoding and
 * the validation that turns a parsed JSON value back into a record.
 *
 * Validation follows the declared fields: a required field must be present
 * with the declared type, an `Optional[...] = None` field may be absent or
 * `null`, keys not declared are ignored, and a field declared with an alias
 * is read only under its alias.
 */
module Meta {
  import opened Json

  datatype MetaMessageText = MetaMessageText(body: string)

  /** An inbound message; `fromNumber` travels under the JSON key "from". */
  datatype MetaMessage = MetaMessage(
    id: string,
    fromNumber: string,
    timestamp: string,
    text: Option<MetaMessageText>,
    msgType: string)

  datatype MetaValue = MetaValue(
    messagingProduct: string,
    metadata: map<string, Json>,
    contacts: Option<seq<map<string, Json>>>,
    messages: Option<seq<MetaMessage>>,
    statuses: Option<seq<map<string, Json>>>)

  datatype MetaChange = MetaChange(value: MetaValue, field: string)

  datatype MetaEntry = MetaEntry(id: string, changes: seq<MetaChange>)

  datatype MetaWebhookRequest = MetaWebhookRequest(objectKind: string, entry: seq<MetaEntry>)

  /** The outbound message; `messagingProduct` and `msgType` have defaults. */
  datatype MetaMessageResponse = MetaMessageResponse(
    messagingProduct: string,
    to: string,
    msgType: string,
    text: MetaMessageText)

  /** The handshake's query parameters, under their dotted aliases. */
  datatype MetaWebhookChallengeQuery = MetaWebhookChallengeQuery(
    hubMode: string,
    hubChallenge: string,
    hubVerifyToken: string)

  const FromKey := "from"

  /** The aliases of the handshake's query parameters. */
  const ModeAlias := "hub.mode"
  const ChallengeAlias := "hub.challenge"
  const TokenAlias := "hub.verify_token"

  /** Building an outbound message from the two fields that have no default. */
  function NewMessageResponse(to: string, text: MetaMessageText): (r: MetaMessageResponse)
    ensures r.messagingProduct == "whatsapp" && r.msgType == "text"
    ensures r.to == to && r.text == text
  {
    MetaMessageResponse(messagingProduct := "whatsapp", to := to, msgType := "text", text := text)
  }

  // ---------------------------------------------------------------------------
  // Validation helpers

  /** A required `str` field. */
  function StrField(d: map<string, Json>, key: string): Option<string>
  {
    if key in d && d[key].JStr? then Some(d[key].s) else None
  }

  /** An `Optional[...] = None` field: absent or `null` is `Some(None)`;
      present and valid is `Some(Some(x))`; present and invalid is `None`. */
  function OptField<A>(d: map<string, Json>, key: string, f: Json -> Option<A>): Option<Option<A>>
  {
    if key !in d || d[key].JNull? then Some(None)
    else match f(d[key])
      case None => None
      case Some(a) => Some(Some(a))
  }

  /** A list validates when every element does, and then keeps their order. */
  function DecodeAll<A>(f: Json -> Option<A>, xs: seq<Json>): (r: Option<seq<A>>)
    ensures r.Some? <==> forall k :: 0 <= k < |xs| ==> f(xs[k]).Some?
    ensures r.Some? ==> |r.value| == |xs| && forall k :: 0 <= k < |xs| ==> f(xs[k]) == Some(r.value[k])
  {
    if xs == [] then Some([])
    else match f(xs[0])
      case None => None
      case Some(a) =>
        match DecodeAll(f, xs[1..])
        case None =>
          assert exists k :: 1 <= k < |xs| && f(xs[k]).None? by {
            var k :| 0 <= k < |xs[1..]| && f(xs[1..][k]).None?;
            assert xs[1..][k] == xs[k + 1];
          }
          None
        case Some(rest) =>
          assert forall k :: 1 <= k < |xs| ==> xs[k] == xs[1..][k - 1];
          Some([a] + rest)
  }

  /** `List[dict]`. */
  function DecodeDictList(j: Json): Option<seq<map<string, Json>>>
  {
    if j.JArr? then DecodeAll(DecodeDict, j.items) else None
  }

  /** `dict`. */
  function DecodeDict(j: Json): Option<map<string, Json>>
  {
    if j.JObj? then Some(j.fields) else None
  }

  lemma DecodeAllInverse<A>(f: Json -> Option<A>, xs: seq<Json>, ys: seq<A>)
    requires |xs| == |ys|
    requires forall k :: 0 <= k < |xs| ==> f(xs[k]) == Some(ys[k])
    ensures DecodeAll(f, xs) == Some(ys)
  {
    var r := DecodeAll(f, xs);
    assert r.Some?;
    assert |r.value| == |ys|;
    assert forall k :: 0 <= k < |ys| ==> r.value[k] == ys[k];
    assert r.value == ys;
  }

  // ---------------------------------------------------------------------------
  // Validation of the inbound records

  function DecodeText(j: Json): (r: Option<MetaMessageText>)
    ensures r.Some? <==> j.JObj? && "body" in j.fields && j.fields["body"].JStr?
  {
    if !j.JObj? then None
    else match StrField(j.fields, "body")
      case None => None
      case Some(body) => Some(MetaMessageText(body))
  }

  function DecodeMessage(j: Json): (r: Option<MetaMessage>)
    ensures r.Some? ==> j.JObj? && FromKey in j.fields && j.fields[FromKey] == JStr(r.value.fromNumber)
    ensures r.Some? ==> "id" in j.fields && "timestamp" in j.fields && "type" in j.fields
    ensures r.Some? ==> j.fields["id"] == JStr(r.value.id) && j.fields["timestamp"] == JStr(r.value.timestamp)
    ensures r.Some? ==> j.fields["type"] == JStr(r.value.msgType)
    ensures r.Some? && r.value.text.Some? ==> "text" in j.fields && DecodeText(j.fields["text"]) == r.value.text
  {
    if !j.JObj? then None
    else
      var d := j.fields;
      var id, from, ts, ty := StrField(d, "id"), StrField(d, FromKey), StrField(d, "timestamp"), StrField(d, "type");
      var text := OptField(d, "text", DecodeText);
      if id.Some? && from.Some? && ts.Some? && ty.Some? && text.Some? then
        Some(MetaMessage(id.value, from.value, ts.value, text.value, ty.value))
      else None
  }

  function DecodeMessages(j: Json): Option<seq<MetaMessage>>
  {
    if j.JArr? then DecodeAll(DecodeMessage, j.items) else None
  }

  function DecodeValue(j: Json): (r: Option<MetaValue>)
    ensures r.Some? ==> j.JObj? && "messaging_product" in j.fields && "metadata" in j.fields
  {
    if !j.JObj? then None
    else
      var d := j.fields;
      var product := StrField(d, "messaging_product");
      var metadata := if "metadata" in d then DecodeDict(d["metadata"]) else None;
      var contacts := OptField(d, "contacts", DecodeDictList);
      var messages := OptField(d, "messages", DecodeMessages);
      var statuses := OptField(d, "statuses", DecodeDictList);
      if product.Some? && metadata.Some? && contacts.Some? && messages.Some? && statuses.Some? then
        Some(MetaValue(product.value, metadata.value, contacts.value, messages.value, statuses.value))
      else None
  }

  function DecodeChange(j: Json): (r: Option<MetaChange>)
    ensures r.Some? ==> j.JObj? && "value" in j.fields && "field" in j.fields
  {
    if !j.JObj? then None
    else
      var d := j.fields;
      var value := if "value" in d then DecodeValue(d["value"]) else None;
      var field := StrField(d, "field");
      if value.Some? && field.Some? then Some(MetaChange(value.value, field.value)) else None
  }

  function DecodeEntry(j: Json): (r: Option<MetaEntry>)
    ensures r.Some? ==> j.JObj? && "id" in j.fields && "changes" in j.fields && j.fields["changes"].JArr?
  {
    if !j.JObj? then None
    else
      var d := j.fields;
      var id := StrField(d, "id");
      var changes := if "changes" in d && d["changes"].JArr? then DecodeAll(DecodeChange, d["changes"].items) else None;
      if id.Some? && changes.Some? then Some(MetaEntry(id.value, changes.value)) else None
  }

  function DecodeRequest(j: Json): (r: Option<MetaWebhookRequest>)
    ensures r.Some? ==> j.JObj? && "object" in j.fields && "entry" in j.fields && j.fields["entry"].JArr?
    ensures r.Some? ==> j.fields["object"] == JStr(r.value.objectKind)
  {
    if !j.JObj? then None
    else
      var d := j.fields;
      var kind := StrField(d, "object");
      var entry := if "entry" in d && d["entry"].JArr? then DecodeAll(DecodeEntry, d["entry"].items) else None;
      if kind.Some? && entry.Some? then Some(MetaWebhookRequest(kind.value, entry.value)) else None
  }

  function DecodeChallengeQuery(j: Json): (r: Option<MetaWebhookChallengeQuery>)
    ensures r.Some? ==> j.JObj? && ModeAlias in j.fields && j.fields[ModeAlias] == JStr(r.value.hubMode)
    ensures r.Some? ==> ChallengeAlias in j.fields && j.fields[ChallengeAlias] == JStr(r.value.hubChallenge)
    ensures r.Some? ==> TokenAlias in j.fields && j.fields[TokenAlias] == JStr(r.value.hubVerifyToken)
  {
    if !j.JObj? then None
    else
      var d := j.fields;
      var mode, challenge, token := StrField(d, ModeAlias), StrField(d, ChallengeAlias), StrField(d, TokenAlias);
      if mode.Some? && challenge.Some? && token.Some? then
        Some(MetaWebhookChallengeQuery(mode.value, challenge.value, token.value))
      else None
  }

  /** A field with a default: absent means the default; present, it must be
      a string (`null` is refused, the field is not optional). */
  function DefaultStrField(d: map<string, Json>, key: string, default: string): Option<string>
  {
    if key !in d then Some(default) else StrField(d, key)
  }

  /** The outbound message validated from JSON: `messaging_product` and `type`
      take their defaults when absent; `to` and `text` are required. */
  function DecodeMessageResponse(j: Json): (r: Option<MetaMessageResponse>)
    ensures r.Some? ==> j.JObj? && "to" in j.fields && j.fields["to"] == JStr(r.value.to)
    ensures r.Some? ==> "text" in j.fields && DecodeText(j.fields["text"]) == Some(r.value.text)
    ensures r.Some? && "messaging_product" in j.fields ==> j.fields["messaging_product"] == JStr(r.value.messagingProduct)
    ensures r.Some? && "messaging_product" !in j.fields ==> r.value.messagingProduct == "whatsapp"
    ensures r.Some? && "type" in j.fields ==> j.fields["type"] == JStr(r.value.msgType)
    ensures r.Some? && "type" !in j.fields ==> r.value.msgType == "text"
    ensures j.JObj? && "messaging_product" in j.fields && !j.fields["messaging_product"].JStr? ==> r == None
    ensures j.JObj? && "type" in j.fields && !j.fields["type"].JStr? ==> r == None
  {
    if !j.JObj? then None
    else
      var d := j.fields;
      var product := DefaultStrField(d, "messaging_product", "whatsapp");
      var to := StrField(d, "to");
      var ty := DefaultStrField(d, "type", "text");
      var text := if "text" in d then DecodeText(d["text"]) else None;
      if product.Some? && to.Some? && ty.Some? && text.Some? then
        Some(MetaMessageResponse(product.value, to.value, ty.value, text.value))
      else None
  }

  /** Validating just a recipient and a text gives the same message as
      building it: the defaults agree. */
  lemma DecodeMessageResponseDefaults(to: string, t: MetaMessageText)
    ensures DecodeMessageResponse(JObj(map["to" := JStr(to), "text" := TextToJson(t)])) == Some(NewMessageResponse(to, t))
  {
    var d := map["to" := JStr(to), "text" := TextToJson(t)];
    assert "messaging_product" !in d && "type" !in d;
  }

  // ---------------------------------------------------------------------------
  // Encoding. An optional field that is None is left out, as the platform
  // sends it; the outbound message is encoded by alias with all its fields.

  function PutOpt(d: map<string, Json>, key: string, v: Option<Json>): map<string, Json>
  {
    if v.Some? then d[key := v.value] else d
  }

  function TextToJson(t: MetaMessageText): Json
  {
    JObj(map["body" := JStr(t.body)])
  }

  function MessageFields(m: MetaMessage): map<string, Json>
  {
    var text := if m.text.Some? then Some(TextToJson(m.text.value)) else None;
    PutOpt(map["id" := JStr(m.id), FromKey := JStr(m.fromNumber), "timestamp" := JStr(m.timestamp),
               "type" := JStr(m.msgType)], "text", text)
  }

  function MessagesFields(ms: seq<MetaMessage>): seq<map<string, Json>>
  {
    seq(|ms|, k requires 0 <= k < |ms| => MessageFields(ms[k]))
  }

  function MessagesToJson(ms: seq<MetaMessage>): Json
  {
    DictArray(MessagesFields(ms))
  }

  function ValueFields(v: MetaValue): map<string, Json>
  {
    var base := map["messaging_product" := JStr(v.messagingProduct), "metadata" := JObj(v.metadata)];
    var withContacts := PutOpt(base, "contacts", if v.contacts.Some? then Some(DictArray(v.contacts.value)) else None);
    var withMessages := PutOpt(withContacts, "messages", if v.messages.Some? then Some(MessagesToJson(v.messages.value)) else None);
    PutOpt(withMessages, "statuses", if v.statuses.Some? then Some(DictArray(v.statuses.value)) else None)
  }

  function ChangeFields(c: MetaChange): map<string, Json>
  {
    map["value" := JObj(ValueFields(c.value)), "field" := JStr(c.field)]
  }

  function ChangesFields(cs: seq<MetaChange>): seq<map<string, Json>>
  {
    seq(|cs|, k requires 0 <= k < |cs| => ChangeFields(cs[k]))
  }

  function EntryFields(e: MetaEntry): map<string, Json>
  {
    map["id" := JStr(e.id), "changes" := DictArray(ChangesFields(e.changes))]
  }

  function EntriesFields(es: seq<MetaEntry>): seq<map<string, Json>>
  {
    seq(|es|, k requires 0 <= k < |es| => EntryFields(es[k]))
  }

  function RequestFields(r: MetaWebhookRequest): map<string, Json>
  {
    map["object" := JStr(r.objectKind), "entry" := DictArray(EntriesFields(r.entry))]
  }

  function MessageResponseToJson(r: MetaMessageResponse): (j: Json)
    ensures j.JObj? && j.fields.Keys == {"messaging_product", "to", "type", "text"}
    ensures j.fields["messaging_product"] == JStr(r.messagingProduct) && j.fields["to"] == JStr(r.to)
    ensures j.fields["type"] == JStr(r.msgType) && j.fields["text"] == JObj(map["body" := JStr(r.text.body)])
  {
    JObj(map["messaging_product" := JStr(r.messagingProduct), "to" := JStr(r.to),
             "type" := JStr(r.msgType), "text" := TextToJson(r.text)])
  }

  // ---------------------------------------------------------------------------
  // Round trips: what is encoded validates back to the same record.

  lemma MessageRoundTrip(m: MetaMessage)
    ensures DecodeMessage(JObj(MessageFields(m))) == Some(m)
  {
  }

  lemma MessagesRoundTrip(ms: seq<MetaMessage>)
    ensures DecodeMessages(MessagesToJson(ms)) == Some(ms)
  {
    var j := MessagesToJson(ms);
    forall k | 0 <= k < |ms| ensures DecodeMessage(j.items[k]) == Some(ms[k]) {
      MessageRoundTrip(ms[k]);
    }
    DecodeAllInverse(DecodeMessage, j.items, ms);
  }

  lemma DictListRoundTrip(ds: seq<map<string, Json>>)
    ensures DecodeDictList(DictArray(ds)) == Some(ds)
  {
    DecodeAllInverse(DecodeDict, DictArray(ds).items, ds);
  }

  lemma ValueRoundTrip(v: MetaValue)
    ensures DecodeValue(JObj(ValueFields(v))) == Some(v)
  {
    var d := ValueFields(v);
    if v.contacts.Some? {
      assert d["contacts"] == DictArray(v.contacts.value);
      DictListRoundTrip(v.contacts.value);
    }
    if v.messages.Some? {
      assert d["messages"] == MessagesToJson(v.messages.value);
      MessagesRoundTrip(v.messages.value);
    }
    if v.statuses.Some? {
      DictListRoundTrip(v.statuses.value);
    }
  }

  lemma ChangeRoundTrip(c: MetaChange)
    ensures DecodeChange(JObj(ChangeFields(c))) == Some(c)
  {
    ValueRoundTrip(c.value);
  }

  lemma EntryRoundTrip(e: MetaEntry)
    ensures DecodeEntry(JObj(EntryFields(e))) == Some(e)
  {
    var cs := EntryFields(e)["changes"];
    forall k | 0 <= k < |e.changes| ensures DecodeChange(cs.items[k]) == Some(e.changes[k]) {
      ChangeRoundTrip(e.changes[k]);
    }
    DecodeAllInverse(DecodeChange, cs.items, e.changes);
  }

  lemma RequestRoundTrip(r: MetaWebhookRequest)
    ensures DecodeRequest(JObj(RequestFields(r))) == Some(r)
  {
    var es := RequestFields(r)["entry"];
    forall k | 0 <= k < |r.entry| ensures DecodeEntry(es.items[k]) == Some(r.entry[k]) {
      EntryRoundTrip(r.entry[k]);
    }
    DecodeAllInverse(DecodeEntry, es.items, r.entry);
  }

  lemma MessageResponseRoundTrip(r: MetaMessageResponse)
    ensures DecodeMessageResponse(MessageResponseToJson(r)) == Some(r)
  {
  }

  /** The sender travels under "from": a message carrying it only under the
      attribute's own name does not validate. */
  lemma FromOnlyUnderAlias(d: map<string, Json>)
    requires FromKey !in d
    ensures DecodeMessage(JObj(d)) == None
  {
  }
}
