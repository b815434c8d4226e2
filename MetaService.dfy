/**
 * The webhook dispatcher and the message sender (app/services/meta_service.py).
 *
 * `ProcessWebhookMessage` takes the parsed payload, keeps the text messages
 * in payload order, and for each one asks the completion provider for a
 * reply and hands that reply to the sender. It reports the calls it makes,
 * in order, as a trace. The whole loop sits in one guarded block: the first
 * exception (a missing key in a message, a payload part of the wrong shape, a
 * recipient the outbound record refuses) is caught and logged, and no later
 * message is processed.
 */
module MetaService {
  import opened Json
  import Meta
  import LlmService

  const WhatsAppObject := "whatsapp_business_account"

  /** A message, entry or change as the dispatcher sees it: a dict. */
  type Dict = map<string, Json>

  // ---------------------------------------------------------------------------
  // Extraction of the text messages

  /** `msg.get("type") == "text"`. */
  predicate IsText(msg: Dict)
  {
    Get(msg, "type", JNull) == JStr("text")
  }

  /** The text messages of `ms`, in their order. */
  function FilterText(ms: seq<Dict>): (r: seq<Dict>)
    ensures |r| <= |ms|
    ensures forall m :: m in r ==> m in ms && IsText(m)
    ensures forall m :: m in ms && IsText(m) ==> m in r
  {
    if ms == [] then []
    else
      assert forall m :: m in ms[1..] ==> m in ms;
      assert forall m :: m in ms ==> m == ms[0] || m in ms[1..];
      (if IsText(ms[0]) then [ms[0]] else []) + FilterText(ms[1..])
  }

  lemma {:induction false} FilterTextAppend(a: seq<Dict>, b: seq<Dict>)
    ensures FilterText(a + b) == FilterText(a) + FilterText(b)
  {
    if a == [] {
      assert a + b == b;
    } else {
      assert (a + b)[1..] == a[1..] + b;
      FilterTextAppend(a[1..], b);
    }
  }

  /** A message of another type, wherever it sits and whatever keys it
      lacks, leaves the text messages unchanged. */
  lemma NonTextIgnored(a: seq<Dict>, m: Dict, b: seq<Dict>)
    requires !IsText(m)
    ensures FilterText(a + [m] + b) == FilterText(a + b)
  {
    FilterTextAppend(a + [m], b);
    FilterTextAppend(a, [m]);
    FilterTextAppend(a, b);
    assert [m][1..] == [];
    assert FilterText([m]) == [];
    assert FilterText(a) + [] == FilterText(a);
  }

  /** `change.get("value", {}).get("messages", [])`, iterated. A missing value
      or a missing messages list counts as empty; a value that is not a dict,
      or a messages entry that is not a list of dicts, raises. */
  function ChangeMessages(change: Dict): (g: Gen<Dict>)
    ensures "value" !in change ==> g == Gen([], false)
    ensures "value" in change && change["value"].JObj? && "messages" !in change["value"].fields ==> g == Gen([], false)
  {
    var value := Get(change, "value", JObj(map[]));
    if !value.JObj? then Gen([], true)
    else Dicts(Get(value.fields, "messages", JArr([])))
  }

  function ChangesMessages(cs: seq<Dict>): Gen<Dict>
  {
    if cs == [] then Gen([], false)
    else Then(ChangeMessages(cs[0]), ChangesMessages(cs[1..]))
  }

  /** `entry.get("changes", [])`, each change's messages in turn. */
  function EntryMessages(entry: Dict): (g: Gen<Dict>)
    ensures "changes" !in entry ==> g == Gen([], false)
  {
    var cs := Dicts(Get(entry, "changes", JArr([])));
    Then(ChangesMessages(cs.items), Gen([], cs.raises))
  }

  function EntriesMessages(es: seq<Dict>): Gen<Dict>
  {
    if es == [] then Gen([], false)
    else Then(EntryMessages(es[0]), EntriesMessages(es[1..]))
  }

  /** Every message of the payload, entry by entry, change by change. */
  function AllMessages(payload: Dict): (g: Gen<Dict>)
    ensures "entry" !in payload ==> g == Gen([], false)
  {
    var es := Dicts(Get(payload, "entry", JArr([])));
    Then(EntriesMessages(es.items), Gen([], es.raises))
  }

  /** The generator of text messages: every message of the payload whose type
      is "text", in payload order; it raises where the traversal raises. */
  function TextMessages(payload: Dict): (g: Gen<Dict>)
    ensures forall m :: m in g.items ==> IsText(m)
    ensures "entry" !in payload ==> g == Gen([], false)
  {
    var all := AllMessages(payload);
    Gen(FilterText(all.items), all.raises)
  }

  // ---------------------------------------------------------------------------
  // The sender

  /** The settings the sender reads. */
  datatype Config = Config(accessToken: string, verifyToken: string, phoneNumberId: string)

  /** The sender's guard: it checks the phone-number id and the verify token
      (not the access token it actually uses). */
  predicate Configured(cfg: Config)
  {
    cfg.phoneNumberId != "" && cfg.verifyToken != ""
  }

  /** Building the outbound record raises a validation error when the
      recipient is not a string; this happens outside the sender's guarded
      block, so the error reaches the dispatcher. */
  predicate Rejects(cfg: Config, to: Json)
  {
    Configured(cfg) && !to.JStr?
  }

  /** One POST: the endpoint relative to the platform's versioned base URL,
      the JSON body and the headers. */
  datatype OutboundRequest = OutboundRequest(endpoint: string, body: Json, headers: map<string, string>)

  /** What the POST oracle answers. */
  datatype PostOutcome =
    | Delivered(responseBody: Json)
    | HttpStatusError(statusCode: int, responseText: string)
    | TransportError(error: string)

  /** What a call of the sender does: nothing, raise, or post. */
  datatype Delivery = Skipped | Rejected | Posted(request: OutboundRequest, outcome: PostOutcome)

  function SendWhatsAppMessage(cfg: Config, to: Json, text: string, post: PostOutcome): (d: Delivery)
    ensures d.Skipped? <==> !Configured(cfg)
    ensures d.Rejected? <==> Rejects(cfg, to)
    ensures d.Posted? ==> d.outcome == post && d.request.endpoint == "/" + cfg.phoneNumberId + "/messages"
    ensures d.Posted? ==> d.request.body == JObj(map["messaging_product" := JStr("whatsapp"), "to" := to,
                                                     "type" := JStr("text"), "text" := JObj(map["body" := JStr(text)])])
    ensures d.Posted? ==> d.request.headers == map["Authorization" := "Bearer " + cfg.accessToken,
                                                   "Content-Type" := "application/json"]
  {
    if !Configured(cfg) then Skipped
    else if !to.JStr? then Rejected
    else
      var message := Meta.NewMessageResponse(to.s, Meta.MetaMessageText(text));
      var headers := map["Authorization" := "Bearer " + cfg.accessToken, "Content-Type" := "application/json"];
      var body := Meta.MessageResponseToJson(message);
      assert body.fields.Keys == {"messaging_product", "to", "type", "text"};
      Posted(OutboundRequest("/" + cfg.phoneNumberId + "/messages", body, headers), post)
  }

  // ---------------------------------------------------------------------------
  // The dispatcher

  /** The calls the dispatcher makes, in order. */
  datatype Call = Generate(prompt: Json, userId: Json) | Send(to: Json, text: string)

  /** How a dispatch ends: dropped for another object kind, every text message
      handled, or stopped by a caught exception. It never raises. */
  datatype Outcome = Ignored | Completed | Aborted

  datatype Dispatched = Dispatched(calls: seq<Call>, outcome: Outcome)

  /** The calls of a prefix of the messages, and whether the loop can go on. */
  datatype Step = Step(calls: seq<Call>, ok: bool)

  /** The values read from a message before any call is made. */
  datatype Fields = Fields(from: Json, body: Json, id: Json)

  /** `msg["from"]`, `msg["text"]["body"]` and `msg["id"]`; None when one of
      them raises (a missing key, or a text that is not a dict). */
  function ReadFields(msg: Dict): (r: Option<Fields>)
    ensures r.Some? <==> "from" in msg && "text" in msg && msg["text"].JObj? && "body" in msg["text"].fields && "id" in msg
  {
    if "from" in msg && "text" in msg && msg["text"].JObj? && "body" in msg["text"].fields && "id" in msg then
      Some(Fields(msg["from"], msg["text"].fields["body"], msg["id"]))
    else None
  }

  /** The two calls made for a message whose fields could be read. */
  function CallsFor(f: Fields, answer: LlmService.Completion): seq<Call>
  {
    [Generate(f.body, f.from), Send(f.from, LlmService.Reply(answer))]
  }

  /** A message on which the loop body raises. */
  predicate Faulty(msg: Dict, cfg: Config)
  {
    ReadFields(msg).None? || Rejects(cfg, ReadFields(msg).value.from)
  }

  /** One pass of the loop body. */
  function Handle(msg: Dict, cfg: Config, answer: LlmService.Completion): (h: Step)
    ensures h.ok <==> !Faulty(msg, cfg)
  {
    match ReadFields(msg)
    case None => Step([], false)
    case Some(f) => Step(CallsFor(f, answer), !Rejects(cfg, f.from))
  }

  /** The loop over `msgs`; the k-th message gets the provider's answer
      `provider(start + k)`. */
  function Run(msgs: seq<Dict>, cfg: Config, provider: nat -> LlmService.Completion, start: nat): Step
    decreases |msgs|
  {
    if msgs == [] then Step([], true)
    else
      var h := Handle(msgs[0], cfg, provider(start));
      if !h.ok then h
      else
        var rest := Run(msgs[1..], cfg, provider, start + 1);
        Step(h.calls + rest.calls, rest.ok)
  }

  /** The specification of `process_webhook_message`. */
  function Dispatch(payload: Json, cfg: Config, provider: nat -> LlmService.Completion): Dispatched
  {
    if !payload.JObj? then Dispatched([], Aborted)
    else if Get(payload.fields, "object", JNull) != JStr(WhatsAppObject) then Dispatched([], Ignored)
    else
      var g := TextMessages(payload.fields);
      var run := Run(g.items, cfg, provider, 0);
      Dispatched(run.calls, if run.ok && !g.raises then Completed else Aborted)
  }

  lemma {:induction false} RunAppend(xs: seq<Dict>, ys: seq<Dict>, cfg: Config, provider: nat -> LlmService.Completion, s: nat)
    ensures var a := Run(xs, cfg, provider, s);
            var b := Run(ys, cfg, provider, s + |xs|);
            Run(xs + ys, cfg, provider, s) == if a.ok then Step(a.calls + b.calls, b.ok) else a
    decreases |xs|
  {
    if xs == [] {
      assert xs + ys == ys;
    } else {
      assert (xs + ys)[0] == xs[0];
      assert (xs + ys)[1..] == xs[1..] + ys;
      RunAppend(xs[1..], ys, cfg, provider, s + 1);
    }
  }

  /** One more turn of the loop, in terms of `Run`: after the i-th message the
      prefix's calls are extended by that message's calls, and when that
      message is faulty the rest of the messages change nothing. */
  lemma RunStep(msgs: seq<Dict>, i: nat, cfg: Config, provider: nat -> LlmService.Completion)
    requires i < |msgs| && Run(msgs[..i], cfg, provider, 0).ok
    ensures var h := Handle(msgs[i], cfg, provider(i));
            Run(msgs[..i + 1], cfg, provider, 0) == Step(Run(msgs[..i], cfg, provider, 0).calls + h.calls, h.ok)
    ensures !Handle(msgs[i], cfg, provider(i)).ok ==> Run(msgs, cfg, provider, 0) == Run(msgs[..i + 1], cfg, provider, 0)
  {
    var h := Handle(msgs[i], cfg, provider(i));
    RunAppend(msgs[..i], [msgs[i]], cfg, provider, 0);
    assert msgs[..i + 1] == msgs[..i] + [msgs[i]];
    assert Run([msgs[i]], cfg, provider, i) == Step(h.calls, h.ok) by {
      if h.ok {
        assert [msgs[i]][1..] == [];
        assert h.calls + [] == h.calls;
      }
    }
    assert msgs == msgs[..i + 1] + msgs[i + 1..];
    RunAppend(msgs[..i + 1], msgs[i + 1..], cfg, provider, 0);
  }

  method ProcessWebhookMessage(payload: Json, cfg: Config, provider: nat -> LlmService.Completion)
    returns (calls: seq<Call>, outcome: Outcome)
    ensures Dispatched(calls, outcome) == Dispatch(payload, cfg, provider)
    ensures !payload.JObj? ==> calls == [] && outcome == Aborted
    ensures payload.JObj? && Get(payload.fields, "object", JNull) != JStr(WhatsAppObject) ==> calls == [] && outcome == Ignored
  {
    calls := [];
    if !payload.JObj? {
      // `payload.get` raises on a value that is not a dict
      return calls, Aborted;
    }
    if Get(payload.fields, "object", JNull) != JStr(WhatsAppObject) {
      return calls, Ignored;
    }
    var textMessages := TextMessages(payload.fields);
    var msgs := textMessages.items;
    var i := 0;
    while i < |msgs|
      invariant 0 <= i <= |msgs|
      invariant Run(msgs[..i], cfg, provider, 0) == Step(calls, true)
    {
      var message := msgs[i];
      RunStep(msgs, i, cfg, provider);
      if !("from" in message) {
        return calls, Aborted;
      }
      var userPhoneNumber := message["from"];
      if !("text" in message && message["text"].JObj? && "body" in message["text"].fields) {
        return calls, Aborted;
      }
      var userMessageText := message["text"].fields["body"];
      if !("id" in message) {
        return calls, Aborted;
      }
      var botReply := LlmService.Reply(provider(i));
      calls := calls + [Generate(userMessageText, userPhoneNumber)];
      calls := calls + [Send(userPhoneNumber, botReply)];
      if Rejects(cfg, userPhoneNumber) {
        return calls, Aborted;
      }
      i := i + 1;
    }
    assert msgs[..i] == msgs;
    outcome := if textMessages.raises then Aborted else Completed;
  }

  // ---------------------------------------------------------------------------
  // Which calls happen, and in what order

  /** The index of the first message on which the loop body raises, or the
      number of messages when there is none. */
  function FirstFault(msgs: seq<Dict>, cfg: Config): (k: nat)
    ensures k <= |msgs|
    ensures forall j :: 0 <= j < k ==> !Faulty(msgs[j], cfg)
    ensures k < |msgs| ==> Faulty(msgs[k], cfg)
  {
    if msgs == [] then 0
    else if Faulty(msgs[0], cfg) then 0
    else
      var k := FirstFault(msgs[1..], cfg);
      assert forall j :: 1 <= j < k + 1 ==> msgs[j] == msgs[1..][j - 1];
      assert k < |msgs[1..]| ==> msgs[k + 1] == msgs[1..][k];
      k + 1
  }

  /** How many messages get their two calls: those before the first faulty
      one, and that one too when it only fails at the sender. */
  function Reached(msgs: seq<Dict>, cfg: Config): nat
  {
    var k := FirstFault(msgs, cfg);
    if k < |msgs| && ReadFields(msgs[k]).Some? then k + 1 else k
  }

  function CountSends(calls: seq<Call>): nat
  {
    if calls == [] then 0 else (if calls[0].Send? then 1 else 0) + CountSends(calls[1..])
  }

  lemma {:induction false} CountSendsAppend(a: seq<Call>, b: seq<Call>)
    ensures CountSends(a + b) == CountSends(a) + CountSends(b)
  {
    if a == [] {
      assert a + b == b;
    } else {
      assert (a + b)[1..] == a[1..] + b;
      CountSendsAppend(a[1..], b);
    }
  }

  lemma CountSendsCallsFor(f: Fields, answer: LlmService.Completion)
    ensures CountSends(CallsFor(f, answer)) == 1
  {
    var calls := CallsFor(f, answer);
    var last := calls[1..];
    assert last == [calls[1]] && last[1..] == [];
    assert CountSends(last) == 1 + CountSends([]);
    assert CountSends(calls) == 0 + CountSends(last);
  }

  /** The loop makes, for each reached message in order, a generate call with
      its text and sender followed by a send call of the reply to that
      sender; it goes on past the last message only when no message is
      faulty. */
  lemma {:induction false} RunLength(msgs: seq<Dict>, cfg: Config, provider: nat -> LlmService.Completion, s: nat)
    ensures Reached(msgs, cfg) <= |msgs|
    ensures Run(msgs, cfg, provider, s).ok <==> FirstFault(msgs, cfg) == |msgs|
    ensures |Run(msgs, cfg, provider, s).calls| == 2 * Reached(msgs, cfg)
    decreases |msgs|
  {
    if msgs != [] && Handle(msgs[0], cfg, provider(s)).ok {
      RunLength(msgs[1..], cfg, provider, s + 1);
      ReachedCons(msgs, cfg);
    }
  }

  /** The calls made for the j-th reached message. */
  lemma {:induction false} RunPairAt(msgs: seq<Dict>, cfg: Config, provider: nat -> LlmService.Completion, s: nat, j: nat)
    requires j < Reached(msgs, cfg)
    ensures j < |msgs| && ReadFields(msgs[j]).Some?
    ensures |Run(msgs, cfg, provider, s).calls| == 2 * Reached(msgs, cfg)
    ensures Run(msgs, cfg, provider, s).calls[2 * j..2 * j + 2] == CallsFor(ReadFields(msgs[j]).value, provider(s + j))
    decreases j
  {
    RunLength(msgs, cfg, provider, s);
    var r := Run(msgs, cfg, provider, s);
    var h := Handle(msgs[0], cfg, provider(s));
    if j == 0 {
      if h.ok {
        assert r.calls[0..2] == h.calls;
      } else {
        assert r.calls[0..2] == r.calls;
      }
    } else {
      var tail := msgs[1..];
      ReachedCons(msgs, cfg);
      RunPairAt(tail, cfg, provider, s + 1, j - 1);
      assert msgs[j] == tail[j - 1];
      PairShift(h.calls, Run(tail, cfg, provider, s + 1).calls, j);
      assert s + j == (s + 1) + (j - 1);
    }
  }

  lemma RunPairs(msgs: seq<Dict>, cfg: Config, provider: nat -> LlmService.Completion, s: nat)
    ensures |Run(msgs, cfg, provider, s).calls| == 2 * Reached(msgs, cfg)
    ensures forall j :: 0 <= j < Reached(msgs, cfg) ==>
      ReadFields(msgs[j]).Some? &&
      Run(msgs, cfg, provider, s).calls[2 * j..2 * j + 2] == CallsFor(ReadFields(msgs[j]).value, provider(s + j))
  {
    RunLength(msgs, cfg, provider, s);
    forall j | 0 <= j < Reached(msgs, cfg)
      ensures ReadFields(msgs[j]).Some?
      ensures Run(msgs, cfg, provider, s).calls[2 * j..2 * j + 2] == CallsFor(ReadFields(msgs[j]).value, provider(s + j))
    {
      RunPairAt(msgs, cfg, provider, s, j);
    }
  }

  /** A message that is not faulty adds one to the reached count. */
  lemma ReachedCons(msgs: seq<Dict>, cfg: Config)
    requires msgs != [] && !Faulty(msgs[0], cfg)
    ensures FirstFault(msgs, cfg) == FirstFault(msgs[1..], cfg) + 1
    ensures Reached(msgs, cfg) == Reached(msgs[1..], cfg) + 1
  {
  }

  lemma PairShift(a: seq<Call>, b: seq<Call>, j: nat)
    requires |a| == 2 && 1 <= j && 2 * j + 2 <= |a| + |b|
    ensures (a + b)[2 * j..2 * j + 2] == b[2 * (j - 1)..2 * (j - 1) + 2]
  {
  }

  /** The loop makes one send call per reached message. */
  lemma {:induction false} RunSends(msgs: seq<Dict>, cfg: Config, provider: nat -> LlmService.Completion, s: nat)
    ensures CountSends(Run(msgs, cfg, provider, s).calls) == Reached(msgs, cfg)
    decreases |msgs|
  {
    if msgs == [] {
      return;
    }
    var h := Handle(msgs[0], cfg, provider(s));
    if ReadFields(msgs[0]).Some? {
      CountSendsCallsFor(ReadFields(msgs[0]).value, provider(s));
    }
    if h.ok {
      var tail := msgs[1..];
      var rest := Run(tail, cfg, provider, s + 1);
      RunSends(tail, cfg, provider, s + 1);
      CountSendsAppend(h.calls, rest.calls);
      ReachedCons(msgs, cfg);
    }
  }

  /** What one webhook call does, stated on the text messages: each reached
      message gets exactly one generate and then one send of the provider's
      reply to its sender, in payload order; there are at most as many sends
      as text messages, and as many exactly when nothing raised; no message
      after the first faulty one is touched. */
  lemma DispatchCalls(payload: Json, cfg: Config, provider: nat -> LlmService.Completion)
    requires payload.JObj? && Get(payload.fields, "object", JNull) == JStr(WhatsAppObject)
    ensures var g := TextMessages(payload.fields);
            var d := Dispatch(payload, cfg, provider);
            var n := Reached(g.items, cfg);
            && n <= |g.items|
            && |d.calls| == 2 * n
            && CountSends(d.calls) == n
            && (d.outcome == Completed <==> FirstFault(g.items, cfg) == |g.items| && !g.raises)
            && (d.outcome == Completed ==> n == |g.items|)
            && d.outcome != Ignored
            && forall j :: 0 <= j < n ==>
                 ReadFields(g.items[j]).Some? &&
                 d.calls[2 * j..2 * j + 2] == CallsFor(ReadFields(g.items[j]).value, provider(j))
  {
    var g := TextMessages(payload.fields);
    var run := Run(g.items, cfg, provider, 0);
    RunLength(g.items, cfg, provider, 0);
    RunPairs(g.items, cfg, provider, 0);
    RunSends(g.items, cfg, provider, 0);
    forall j | 0 <= j < Reached(g.items, cfg)
      ensures ReadFields(g.items[j]).Some?
      ensures run.calls[2 * j..2 * j + 2] == CallsFor(ReadFields(g.items[j]).value, provider(j))
    {
      assert 0 + j == j;
    }
  }

  /** When a dispatch completes with the sender configured, every reply is
      posted: each text message has a string sender, and the sender builds
      the outbound message for it instead of raising. */
  lemma CompletedRepliesArePosted(payload: Json, cfg: Config, provider: nat -> LlmService.Completion, post: PostOutcome)
    requires payload.JObj? && Get(payload.fields, "object", JNull) == JStr(WhatsAppObject)
    requires Configured(cfg) && Dispatch(payload, cfg, provider).outcome == Completed
    ensures var g := TextMessages(payload.fields);
            forall j :: 0 <= j < |g.items| ==>
              && ReadFields(g.items[j]).Some?
              && ReadFields(g.items[j]).value.from.JStr?
              && SendWhatsAppMessage(cfg, ReadFields(g.items[j]).value.from, LlmService.Reply(provider(j)), post).Posted?
  {
    DispatchCalls(payload, cfg, provider);
  }

  // ---------------------------------------------------------------------------
  // The declared records, as a reference for the extraction

  function ValueMessagesOf(v: Meta.MetaValue): seq<Meta.MetaMessage>
  {
    if v.messages.Some? then v.messages.value else []
  }

  function ChangesMessagesOf(cs: seq<Meta.MetaChange>): seq<Meta.MetaMessage>
  {
    if cs == [] then [] else ValueMessagesOf(cs[0].value) + ChangesMessagesOf(cs[1..])
  }

  /** Every message of a request, entry by entry, change by change. */
  function RequestMessagesOf(es: seq<Meta.MetaEntry>): seq<Meta.MetaMessage>
  {
    if es == [] then [] else ChangesMessagesOf(es[0].changes) + RequestMessagesOf(es[1..])
  }

  function TextMessagesOf(ms: seq<Meta.MetaMessage>): seq<Meta.MetaMessage>
  {
    if ms == [] then []
    else (if ms[0].msgType == "text" then [ms[0]] else []) + TextMessagesOf(ms[1..])
  }

  lemma MessagesFieldsAppend(a: seq<Meta.MetaMessage>, b: seq<Meta.MetaMessage>)
    ensures Meta.MessagesFields(a + b) == Meta.MessagesFields(a) + Meta.MessagesFields(b)
  {
  }

  lemma ChangeMessagesOfRecord(c: Meta.MetaChange)
    ensures ChangeMessages(Meta.ChangeFields(c)) == Gen(Meta.MessagesFields(ValueMessagesOf(c.value)), false)
  {
  }

  lemma {:induction false} ChangesMessagesOfRecords(cs: seq<Meta.MetaChange>)
    ensures ChangesMessages(Meta.ChangesFields(cs)) == Gen(Meta.MessagesFields(ChangesMessagesOf(cs)), false)
  {
    var fs := Meta.ChangesFields(cs);
    if cs == [] {
      assert fs == [];
      assert Meta.MessagesFields([]) == [];
    } else {
      assert fs[0] == Meta.ChangeFields(cs[0]);
      assert fs[1..] == Meta.ChangesFields(cs[1..]);
      ChangeMessagesOfRecord(cs[0]);
      ChangesMessagesOfRecords(cs[1..]);
      MessagesFieldsAppend(ValueMessagesOf(cs[0].value), ChangesMessagesOf(cs[1..]));
    }
  }

  lemma EntryMessagesOfRecord(e: Meta.MetaEntry)
    ensures EntryMessages(Meta.EntryFields(e)) == Gen(Meta.MessagesFields(ChangesMessagesOf(e.changes)), false)
  {
    DictsOfDictArray(Meta.ChangesFields(e.changes));
    ChangesMessagesOfRecords(e.changes);
    var items := Meta.MessagesFields(ChangesMessagesOf(e.changes));
    assert items + [] == items;
  }

  lemma {:induction false} EntriesMessagesOfRecords(es: seq<Meta.MetaEntry>)
    ensures EntriesMessages(Meta.EntriesFields(es)) == Gen(Meta.MessagesFields(RequestMessagesOf(es)), false)
  {
    var fs := Meta.EntriesFields(es);
    if es == [] {
      assert fs == [];
      assert Meta.MessagesFields([]) == [];
    } else {
      assert fs[0] == Meta.EntryFields(es[0]);
      assert fs[1..] == Meta.EntriesFields(es[1..]);
      EntryMessagesOfRecord(es[0]);
      EntriesMessagesOfRecords(es[1..]);
      MessagesFieldsAppend(ChangesMessagesOf(es[0].changes), RequestMessagesOf(es[1..]));
    }
  }

  lemma {:induction false} FilterTextOfRecords(ms: seq<Meta.MetaMessage>)
    ensures FilterText(Meta.MessagesFields(ms)) == Meta.MessagesFields(TextMessagesOf(ms))
  {
    var fs := Meta.MessagesFields(ms);
    if ms == [] {
      assert fs == [];
      assert Meta.MessagesFields([]) == [];
    } else {
      assert fs[0] == Meta.MessageFields(ms[0]);
      assert fs[1..] == Meta.MessagesFields(ms[1..]);
      assert IsText(fs[0]) <==> ms[0].msgType == "text";
      FilterTextOfRecords(ms[1..]);
      var head := if ms[0].msgType == "text" then [ms[0]] else [];
      MessagesFieldsAppend(head, TextMessagesOf(ms[1..]));
      assert Meta.MessagesFields(head) == if IsText(fs[0]) then [fs[0]] else [];
    }
  }

  /** On a payload built from the declared records, the generator yields
      exactly the text messages of the request, entry by entry, change by
      change, in order, and never raises. */
  lemma TextMessagesOfRecord(r: Meta.MetaWebhookRequest)
    ensures TextMessages(Meta.RequestFields(r))
         == Gen(Meta.MessagesFields(TextMessagesOf(RequestMessagesOf(r.entry))), false)
  {
    DictsOfDictArray(Meta.EntriesFields(r.entry));
    EntriesMessagesOfRecords(r.entry);
    var items := Meta.MessagesFields(RequestMessagesOf(r.entry));
    assert items + [] == items;
    FilterTextOfRecords(RequestMessagesOf(r.entry));
  }

  /** The fields the loop reads from an encoded message with a text body. */
  lemma ReadRecordFields(m: Meta.MetaMessage)
    requires m.text.Some?
    ensures ReadFields(Meta.MessageFields(m)) == Some(Fields(JStr(m.fromNumber), JStr(m.text.value.body), JStr(m.id)))
  {
  }

  /** Encoded messages that all carry a text body are all sound. */
  lemma RecordMessagesSound(tm: seq<Meta.MetaMessage>, cfg: Config)
    requires forall m :: m in tm ==> m.text.Some?
    ensures FirstFault(Meta.MessagesFields(tm), cfg) == |tm|
  {
    var msgs := Meta.MessagesFields(tm);
    forall j | 0 <= j < |msgs| ensures !Faulty(msgs[j], cfg) {
      assert tm[j] in tm;
      ReadRecordFields(tm[j]);
    }
  }

  /** A well-formed request whose text messages all carry a text body is
      processed to the end: every text message gets its generate call and
      then the send of its reply, in order. */
  lemma DispatchRecord(r: Meta.MetaWebhookRequest, cfg: Config, provider: nat -> LlmService.Completion)
    requires r.objectKind == WhatsAppObject
    requires forall m :: m in TextMessagesOf(RequestMessagesOf(r.entry)) ==> m.text.Some?
    ensures var tm := TextMessagesOf(RequestMessagesOf(r.entry));
            var d := Dispatch(JObj(Meta.RequestFields(r)), cfg, provider);
            && d.outcome == Completed
            && |d.calls| == 2 * |tm|
            && forall j :: 0 <= j < |tm| ==>
                 && d.calls[2 * j] == Generate(JStr(tm[j].text.value.body), JStr(tm[j].fromNumber))
                 && d.calls[2 * j + 1] == Send(JStr(tm[j].fromNumber), LlmService.Reply(provider(j)))
  {
    var tm := TextMessagesOf(RequestMessagesOf(r.entry));
    var payload := JObj(Meta.RequestFields(r));
    TextMessagesOfRecord(r);
    var msgs := Meta.MessagesFields(tm);
    RecordMessagesSound(tm, cfg);
    DispatchCalls(payload, cfg, provider);
    var d := Dispatch(payload, cfg, provider);
    forall j | 0 <= j < |tm|
      ensures d.calls[2 * j] == Generate(JStr(tm[j].text.value.body), JStr(tm[j].fromNumber))
      ensures d.calls[2 * j + 1] == Send(JStr(tm[j].fromNumber), LlmService.Reply(provider(j)))
    {
      assert tm[j] in tm;
      ReadRecordFields(tm[j]);
      var pair := d.calls[2 * j..2 * j + 2];
      assert pair == CallsFor(ReadFields(msgs[j]).value, provider(j));
      assert d.calls[2 * j] == pair[0] && d.calls[2 * j + 1] == pair[1];
    }
  }

  /** A value whose "messages" is `null` validates as a record (the field is
      optional), yet the extraction raises on it: `.get("messages", [])`
      returns None, which is not iterable. */
  lemma NullMessagesRaise(v: Meta.MetaValue, field: string)
    requires v.messages.None?
    ensures var fields := Meta.ValueFields(v)["messages" := JNull];
            && Meta.DecodeValue(JObj(fields)) == Some(v)
            && ChangeMessages(map["value" := JObj(fields), "field" := JStr(field)]).raises
  {
    Meta.ValueRoundTrip(v);
    var base := Meta.ValueFields(v);
    var fields := base["messages" := JNull];
    assert "messages" !in base;
    assert forall k :: k != "messages" ==> Get(fields, k, JNull) == Get(base, k, JNull);
  }
}
