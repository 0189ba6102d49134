/**
 * The Unisender Go request and response models
 * (app/clients/unisender_go_client/models/): body validation, the
 * hand-written `model_dump` into the provider's `{"message": ...}` shape,
 * and the response accessors.
 */
module UnisenderModels {
  import opened Wrappers
  import opened Text
  import opened Json
  import opened EmailModels

  datatype SendMessageRequest = SendMessageRequest(
    to: seq<Address>,
    fromAddress: Address,
    subject: string,
    replyAddress: Option<Address>,
    plainBody: Option<string>,
    htmlBody: Option<string>,
    attachments: Option<seq<Attachment>>,
    headers: Option<map<string, string>>,
    trackLinks: Option<int>,
    trackRead: Option<int>)

  /**
   * Constructing the request: pydantic's `min_length=1` on `to`, then
   * `validate_body`, which refuses a request with neither body.
   */
  function Validate(r: SendMessageRequest): (v: Result<SendMessageRequest, string>)
    ensures v.Ok? <==> |r.to| > 0 && (r.plainBody.Some? || r.htmlBody.Some?)
    ensures v.Ok? ==> v.value == r
  {
    if |r.to| == 0 then Err("ValidationError: to")
    else if r.plainBody.None? && r.htmlBody.None? then Err("ValueError: At least one of plain_body or html_body must be provided")
    else Ok(r)
  }

  /**
   * Validation checks that a body is present, not that it has content: a
   * request whose bodies are all empty strings passes, and its dumped
   * `body` object is empty.
   */
  lemma EmptyHtmlPasses(r: SendMessageRequest, body: map<string, Json>)
    requires |r.to| > 0 && r.htmlBody == Some("") && (r.plainBody.None? || r.plainBody == Some(""))
    requires BodyDumped(r, body)
    ensures Validate(r).Ok? && body == map[]
  {
    assert body.Keys == {};
  }

  function Recipient(a: Address): Json {
    JObj(map["email" := JStr(EmailOf(a))])
  }

  function OptStr(o: Option<string>): Json {
    if o.Some? then JStr(o.value) else JNull
  }

  /** `.name` of the sender; a plain-string sender has none and raises AttributeError. */
  function SenderName(a: Address): Result<Option<string>, string> {
    match a
    case Plain(_) => Err("AttributeError: 'str' object has no attribute 'name'")
    case Structured(e) => Ok(e.name)
  }

  /** Recipients map one-to-one and in order to `{"email": ...}` objects. */
  predicate RecipientsDumped(r: SendMessageRequest, m: map<string, Json>) {
    && "recipients" in m && m["recipients"].JArr? && |m["recipients"].items| == |r.to|
    && forall i :: 0 <= i < |r.to| ==> m["recipients"].items[i] == Recipient(r.to[i])
  }

  /** Each body part appears only when it is a non-empty string. */
  predicate BodyDumped(r: SendMessageRequest, body: map<string, Json>) {
    && body.Keys <= {"html", "plaintext"}
    && ("html" in body <==> r.htmlBody.Some? && Truthy(r.htmlBody.value))
    && ("plaintext" in body <==> r.plainBody.Some? && Truthy(r.plainBody.value))
    && ("html" in body ==> body["html"] == JStr(r.htmlBody.value))
    && ("plaintext" in body ==> body["plaintext"] == JStr(r.plainBody.value))
  }

  /** The sender's address, and its name only when it is a structured address with a name. */
  predicate SenderDumped(r: SendMessageRequest, m: map<string, Json>) {
    && "from_email" in m && m["from_email"] == JStr(EmailOf(r.fromAddress))
    && ("from_name" in m <==> r.fromAddress.Structured? && HasName(r.fromAddress.address))
    && ("from_name" in m ==> m["from_name"] == JStr(r.fromAddress.address.name.value))
  }

  /**
   * `reply_to` is always present, possibly null; `reply_to_name` is
   * written for a structured reply when the *sender* has a name.
   */
  predicate ReplyDumped(r: SendMessageRequest, m: map<string, Json>) {
    && "reply_to" in m
    && m["reply_to"] == (if r.replyAddress.None? then JNull else JStr(EmailOf(r.replyAddress.value)))
    && ("reply_to_name" in m <==>
          && r.replyAddress.Some? && r.replyAddress.value.Structured?
          && r.fromAddress.Structured? && HasName(r.fromAddress.address))
    && ("reply_to_name" in m ==> m["reply_to_name"] == OptStr(r.replyAddress.value.address.name))
  }

  /** Attachments and headers only when non-empty; tracking flags whenever set. */
  predicate ExtrasDumped(r: SendMessageRequest, m: map<string, Json>) {
    && ("attachments" in m <==> r.attachments.Some? && |r.attachments.value| > 0)
    && ("headers" in m <==> r.headers.Some? && |r.headers.value| > 0)
    && ("headers" in m ==> m["headers"] == JObj(map k | k in r.headers.value :: JStr(r.headers.value[k])))
    && ("track_links" in m <==> r.trackLinks.Some?)
    && ("track_links" in m ==> m["track_links"] == JInt(r.trackLinks.value))
    && ("track_read" in m <==> r.trackRead.Some?)
    && ("track_read" in m ==> m["track_read"] == JInt(r.trackRead.value))
  }

  const HeadKeys: set<string> := {"recipients", "body", "subject"}
  const SenderKeys: set<string> := {"from_email", "from_name"}
  const ReplyKeys: set<string> := {"reply_to", "reply_to_name"}
  const ExtraKeys: set<string> := {"attachments", "headers", "track_links", "track_read"}

  /** The keys `model_dump` may write into the message. */
  const MessageKeys: set<string> := HeadKeys + SenderKeys + ReplyKeys + ExtraKeys

  /** The recipients list, built by appending one entry per address. */
  method DumpRecipients(to: seq<Address>) returns (recipients: seq<Json>)
    ensures |recipients| == |to|
    ensures forall i :: 0 <= i < |to| ==> recipients[i] == Recipient(to[i])
  {
    recipients := [];
    for i := 0 to |to|
      invariant |recipients| == i
      invariant forall k :: 0 <= k < i ==> recipients[k] == Recipient(to[k])
    {
      recipients := recipients + [Recipient(to[i])];
    }
  }

  /** The body object, built by conditional insertions. */
  method DumpBody(r: SendMessageRequest) returns (body: map<string, Json>)
    ensures BodyDumped(r, body)
  {
    body := map[];
    if r.htmlBody.Some? && Truthy(r.htmlBody.value) {
      body := body["html" := JStr(r.htmlBody.value)];
    }
    if r.plainBody.Some? && Truthy(r.plainBody.value) {
      body := body["plaintext" := JStr(r.plainBody.value)];
    }
  }

  /** The sender keys. */
  method DumpSender(r: SendMessageRequest) returns (m: map<string, Json>)
    ensures m.Keys <= SenderKeys && SenderDumped(r, m)
  {
    match r.fromAddress {
      case Structured(e) =>
        m := map["from_email" := JStr(e.email)];
        if HasName(e) {
          m := m["from_name" := JStr(e.name.value)];
        }
      case Plain(s) =>
        m := map["from_email" := JStr(s)];
    }
  }

  /** The reply keys; reading the name of a plain-string sender raises. */
  method DumpReply(r: SendMessageRequest) returns (m: Result<map<string, Json>, string>)
    ensures m.Err? <==> r.replyAddress.Some? && r.replyAddress.value.Structured? && r.fromAddress.Plain?
    ensures m.Ok? ==> m.value.Keys <= ReplyKeys && ReplyDumped(r, m.value)
  {
    if r.replyAddress.Some? && r.replyAddress.value.Structured? {
      var reply := r.replyAddress.value.address;
      var fields := map["reply_to" := JStr(reply.email)];
      var senderName := SenderName(r.fromAddress);
      if senderName.Err? {
        return Err(senderName.error);
      }
      if senderName.value.Some? && Truthy(senderName.value.value) {
        fields := fields["reply_to_name" := OptStr(reply.name)];
      }
      m := Ok(fields);
    } else {
      m := Ok(map["reply_to" := if r.replyAddress.None? then JNull else JStr(r.replyAddress.value.text)]);
    }
  }

  /** Attachments, headers and tracking flags. */
  method DumpExtras(r: SendMessageRequest) returns (m: map<string, Json>)
    ensures m.Keys <= ExtraKeys && ExtrasDumped(r, m)
  {
    m := map[];
    if r.attachments.Some? && |r.attachments.value| > 0 {
      var atts := r.attachments.value;
      m := m["attachments" := JArr(seq(|atts|, i requires 0 <= i < |atts| =>
        JObj(map["type" := JStr(atts[i].contentType), "name" := JStr(atts[i].name), "content" := JStr(atts[i].data)])))];
    }
    if r.headers.Some? && |r.headers.value| > 0 {
      var h := r.headers.value;
      m := m["headers" := JObj(map k | k in h :: JStr(h[k]))];
    }
    if r.trackLinks.Some? {
      m := m["track_links" := JInt(r.trackLinks.value)];
    }
    if r.trackRead.Some? {
      m := m["track_read" := JInt(r.trackRead.value)];
    }
  }

  /** `m` and `part` hold the same entries under the keys `keys`. */
  predicate Agree(m: map<string, Json>, part: map<string, Json>, keys: set<string>) {
    forall k :: k in keys ==> (k in m <==> k in part) && (k in m ==> m[k] == part[k])
  }

  lemma SenderFrame(r: SendMessageRequest, m: map<string, Json>, part: map<string, Json>)
    requires Agree(m, part, SenderKeys) && SenderDumped(r, part)
    ensures SenderDumped(r, m)
  {
    assert "from_email" in SenderKeys && "from_name" in SenderKeys;
  }

  lemma ReplyFrame(r: SendMessageRequest, m: map<string, Json>, part: map<string, Json>)
    requires Agree(m, part, ReplyKeys) && ReplyDumped(r, part)
    ensures ReplyDumped(r, m)
  {
    assert "reply_to" in ReplyKeys && "reply_to_name" in ReplyKeys;
  }

  lemma ExtrasFrame(r: SendMessageRequest, m: map<string, Json>, part: map<string, Json>)
    requires Agree(m, part, ExtraKeys) && ExtrasDumped(r, part)
    ensures ExtrasDumped(r, m)
  {
    assert "attachments" in ExtraKeys && "headers" in ExtraKeys;
    assert "track_links" in ExtraKeys && "track_read" in ExtraKeys;
  }

  /** The four groups of message keys are pairwise disjoint. */
  lemma KeyGroupsDisjoint()
    ensures HeadKeys !! SenderKeys && HeadKeys !! ReplyKeys && HeadKeys !! ExtraKeys
    ensures SenderKeys !! ReplyKeys && SenderKeys !! ExtraKeys && ReplyKeys !! ExtraKeys
  {
  }

  /** Recipients, body and subject carry over to a map that agrees on them. */
  lemma HeadFrame(r: SendMessageRequest, m: map<string, Json>, head: map<string, Json>)
    requires Agree(m, head, HeadKeys) && RecipientsDumped(r, head)
    requires "body" in head && head["body"].JObj? && BodyDumped(r, head["body"].fields)
    requires "subject" in head && head["subject"] == JStr(r.subject)
    ensures RecipientsDumped(r, m)
    ensures "body" in m && m["body"].JObj? && BodyDumped(r, m["body"].fields)
    ensures "subject" in m && m["subject"] == JStr(r.subject)
  {
    assert "recipients" in HeadKeys && "body" in HeadKeys && "subject" in HeadKeys;
  }

  /** After `m + part`, the entries under `part`'s keys are `part`'s. */
  lemma AgreeAdded(m: map<string, Json>, part: map<string, Json>, keys: set<string>)
    requires part.Keys <= keys && m.Keys !! keys
    ensures Agree(m + part, part, keys)
  {
  }

  /** Adding entries under other keys keeps the entries under `keys`. */
  lemma AgreeUnion(m: map<string, Json>, part: map<string, Json>, keys: set<string>, more: map<string, Json>)
    requires Agree(m, part, keys) && more.Keys !! keys
    ensures Agree(m + more, part, keys)
  {
  }

  /**
   * The message `model_dump` assembles from its four parts, each written
   * under its own keys, keeps what each part says.
   */
  lemma Assembled(r: SendMessageRequest, head: map<string, Json>, sender: map<string, Json>,
                  reply: map<string, Json>, extras: map<string, Json>)
    requires head.Keys == HeadKeys && RecipientsDumped(r, head)
    requires "body" in head && head["body"].JObj? && BodyDumped(r, head["body"].fields)
    requires "subject" in head && head["subject"] == JStr(r.subject)
    requires sender.Keys <= SenderKeys && SenderDumped(r, sender)
    requires reply.Keys <= ReplyKeys && ReplyDumped(r, reply)
    requires extras.Keys <= ExtraKeys && ExtrasDumped(r, extras)
    ensures var m := head + sender + reply + extras;
      && m.Keys <= MessageKeys
      && RecipientsDumped(r, m)
      && "body" in m && m["body"].JObj? && BodyDumped(r, m["body"].fields)
      && "subject" in m && m["subject"] == JStr(r.subject)
      && SenderDumped(r, m)
      && ReplyDumped(r, m)
      && ExtrasDumped(r, m)
  {
    KeyGroupsDisjoint();
    var message := head;
    assert Agree(message, head, HeadKeys);

    AgreeAdded(message, sender, SenderKeys);
    AgreeUnion(message, head, HeadKeys, sender);
    message := message + sender;
    assert message.Keys <= HeadKeys + SenderKeys;

    AgreeAdded(message, reply, ReplyKeys);
    AgreeUnion(message, sender, SenderKeys, reply);
    AgreeUnion(message, head, HeadKeys, reply);
    message := message + reply;
    assert message.Keys <= HeadKeys + SenderKeys + ReplyKeys;

    AgreeAdded(message, extras, ExtraKeys);
    AgreeUnion(message, sender, SenderKeys, extras);
    AgreeUnion(message, reply, ReplyKeys, extras);
    AgreeUnion(message, head, HeadKeys, extras);
    message := message + extras;

    SenderFrame(r, message, sender);
    ReplyFrame(r, message, reply);
    ExtrasFrame(r, message, extras);
    HeadFrame(r, message, head);
  }

  /**
   * `model_dump`: the message is built part by part in the source's
   * order. A structured reply address reads the *sender's* name to
   * decide on `reply_to_name`, so a plain-string sender with a structured
   * reply raises.
   */
  method ModelDump(r: SendMessageRequest) returns (d: Result<Json, string>)
    ensures d.Err? <==> r.replyAddress.Some? && r.replyAddress.value.Structured? && r.fromAddress.Plain?
    ensures d.Ok? ==> d.value.JObj? && d.value.fields.Keys == {"message"} && d.value.fields["message"].JObj?
    ensures d.Ok? ==>
      var m := d.value.fields["message"].fields;
      && m.Keys <= MessageKeys
      && RecipientsDumped(r, m)
      && "body" in m && m["body"].JObj? && BodyDumped(r, m["body"].fields)
      && "subject" in m && m["subject"] == JStr(r.subject)
      && SenderDumped(r, m)
      && ReplyDumped(r, m)
      && ExtrasDumped(r, m)
  {
    var recipients := DumpRecipients(r.to);
    var body := DumpBody(r);
    var head := map["recipients" := JArr(recipients), "body" := JObj(body), "subject" := JStr(r.subject)];
    var message := head;
    var sender := DumpSender(r);
    message := message + sender;
    var reply := DumpReply(r);
    if reply.Err? {
      return Err(reply.error);
    }
    message := message + reply.value;
    var extras := DumpExtras(r);
    message := message + extras;
    Assembled(r, head, sender, reply.value, extras);
    d := Ok(JObj(map["message" := JObj(message)]));
  }

  /** The provider's answer to a send. */
  datatype SendMessageResponse = SendMessageResponse(
    status: string,
    jobId: Option<string>,
    emails: Option<seq<string>>,
    code: Option<string>,
    message: Option<string>)

  predicate IsSuccess(r: SendMessageResponse) {
    r.status == "success"
  }

  /** `message_id`: the first accepted address when there is one, else the job id. */
  function MessageId(r: SendMessageResponse): (id: Option<string>)
    ensures r.emails.Some? && |r.emails.value| > 0 ==> id == Some(r.emails.value[0])
    ensures (r.emails.None? || |r.emails.value| == 0) ==> id == r.jobId
    ensures id.None? <==> (r.emails.None? || |r.emails.value| == 0) && r.jobId.None?
  {
    if r.emails.Some? && |r.emails.value| > 0 then Some(r.emails.value[0]) else r.jobId
  }
}
