/**
 * The Postal request and response models
 * (app/clients/postal_client/models/): body validation, the
 * post-processing of pydantic's dump, and the response accessors.
 */
module PostalModels {
  import opened Wrappers
  import opened Json
  import opened EmailModels

  datatype SendMessageRequest = SendMessageRequest(
    to: seq<Address>,
    fromAddress: Address,
    subject: string,
    plainBody: Option<string>,
    htmlBody: Option<string>,
    cc: Option<seq<Address>>,
    bcc: Option<seq<Address>>,
    replyTo: Option<string>,
    attachments: Option<seq<Attachment>>,
    headers: Option<map<string, string>>,
    bounce: Option<bool>,
    tag: Option<string>)

  /** Constructing the request: at least one recipient, and at least one body. */
  function Validate(r: SendMessageRequest): (v: Result<SendMessageRequest, string>)
    ensures v.Ok? <==> |r.to| > 0 && (r.plainBody.Some? || r.htmlBody.Some?)
    ensures v.Ok? ==> v.value == r
  {
    if |r.to| == 0 then Err("ValidationError: to")
    else if r.plainBody.None? && r.htmlBody.None? then Err("ValueError: At least one of plain_body or html_body must be provided")
    else Ok(r)
  }

  /** The keys of the dumped dictionary: the request's fields, and the `"from"` the model adds. */
  datatype Key =
    | To | FromAddress | Subject | PlainBody | HtmlBody | Cc | Bcc | ReplyTo | Attachments | Headers | Bounce | Tag
    | From
  {
    /** The key as it appears in the JSON body. */
    function Name(): string {
      match this
      case To => "to"
      case FromAddress => "from_address"
      case Subject => "subject"
      case PlainBody => "plain_body"
      case HtmlBody => "html_body"
      case Cc => "cc"
      case Bcc => "bcc"
      case ReplyTo => "reply_to"
      case Attachments => "attachments"
      case Headers => "headers"
      case Bounce => "bounce"
      case Tag => "tag"
      case From => "from"
    }
  }

  /** An optional field as pydantic dumps it: dropped under `exclude_none`, null otherwise. */
  function OptField(key: Key, o: Option<Json>, excludeNone: bool): (m: map<Key, Json>)
    ensures m.Keys <= {key}
  {
    if o.Some? then map[key := o.value] else if excludeNone then map[] else map[key := JNull]
  }

  function DumpList(xs: seq<Address>, excludeNone: bool): Json {
    JArr(seq(|xs|, i requires 0 <= i < |xs| => DumpAddress(xs[i], excludeNone)))
  }

  function DumpAttachments(atts: seq<Attachment>): Json {
    JArr(seq(|atts|, i requires 0 <= i < |atts| =>
      JObj(map["name" := JStr(atts[i].name), "content_type" := JStr(atts[i].contentType), "data" := JStr(atts[i].data)])))
  }

  function OptStr(o: Option<string>): Option<Json> {
    if o.Some? then Some(JStr(o.value)) else None
  }

  function OptList(o: Option<seq<Address>>, excludeNone: bool): Option<Json> {
    if o.Some? then Some(DumpList(o.value, excludeNone)) else None
  }

  /** The required fields, as dumped. */
  function Required(r: SendMessageRequest, excludeNone: bool): (d: map<Key, Json>)
    ensures d.Keys == {To, FromAddress, Subject}
  {
    map[To := DumpList(r.to, excludeNone), FromAddress := DumpAddress(r.fromAddress, excludeNone), Subject := JStr(r.subject)]
  }

  /** The bodies and the copy lists, as dumped. */
  function BodyAndCopies(r: SendMessageRequest, excludeNone: bool): (d: map<Key, Json>)
    ensures d.Keys <= {PlainBody, HtmlBody, Cc, Bcc}
  {
    var bodies := OptField(PlainBody, OptStr(r.plainBody), excludeNone) + OptField(HtmlBody, OptStr(r.htmlBody), excludeNone);
    var copies := OptField(Cc, OptList(r.cc, excludeNone), excludeNone) + OptField(Bcc, OptList(r.bcc, excludeNone), excludeNone);
    bodies + copies
  }

  /** The remaining optional fields, as dumped. */
  function Extras(r: SendMessageRequest, excludeNone: bool): (d: map<Key, Json>)
    ensures d.Keys <= {ReplyTo, Attachments, Headers, Bounce, Tag}
  {
    var a := OptField(ReplyTo, OptStr(r.replyTo), excludeNone)
      + OptField(Attachments, if r.attachments.Some? then Some(DumpAttachments(r.attachments.value)) else None, excludeNone);
    var b := OptField(Headers, if r.headers.Some? then Some(JObj(map k | k in r.headers.value :: JStr(r.headers.value[k]))) else None, excludeNone)
      + OptField(Bounce, if r.bounce.Some? then Some(JBool(r.bounce.value)) else None, excludeNone);
    a + b + OptField(Tag, OptStr(r.tag), excludeNone)
  }

  /** pydantic's `model_dump(exclude_none=...)` of the request, before the model's own changes. */
  function BaseDump(r: SendMessageRequest, excludeNone: bool): (d: map<Key, Json>)
    ensures To in d && FromAddress in d && Subject in d && From !in d
  {
    var required := Required(r, excludeNone);
    var optional := BodyAndCopies(r, excludeNone) + Extras(r, excludeNone);
    assert From !in optional;
    required + optional
  }

  /** The recipient lists the model rewrites, in the order it visits them. */
  const ListFields: seq<Key> := [To, Cc, Bcc]

  /** `getattr(self, field)` for a recipient list. */
  function ListValue(r: SendMessageRequest, f: Key): Option<seq<Address>> {
    match f
    case To => Some(r.to)
    case Cc => r.cc
    case Bcc => r.bcc
    case _ => None
  }

  /** Every address of a list as text, in order. */
  function ConvertAll(xs: seq<Address>): (j: Json)
    ensures j.JArr? && |j.items| == |xs|
    ensures forall i :: 0 <= i < |xs| ==> j.items[i] == JStr(Convert(xs[i]))
  {
    JArr(seq(|xs|, i requires 0 <= i < |xs| => JStr(Convert(xs[i]))))
  }

  /** A list field present in the dump and non-empty is rewritten as text; otherwise it is left as dumped. */
  predicate ListRewritten(d: map<Key, Json>, base: map<Key, Json>, f: Key, val: Option<seq<Address>>) {
    if f in base && val.Some? && |val.value| > 0 then f in d && d[f] == ConvertAll(val.value)
    else (f in d <==> f in base) && (f in d ==> d[f] == base[f])
  }

  /** Every entry of `base` outside the recipient lists and the sender is kept. */
  predicate OthersKept(d: map<Key, Json>, base: map<Key, Json>) {
    forall k :: k in base && k !in ListFields && k != FromAddress ==> k in d && d[k] == base[k]
  }

  /** The model's changes to a dump `base`: the loop over the recipient lists, then the sender. */
  method PostProcess(r: SendMessageRequest, base: map<Key, Json>) returns (d: map<Key, Json>)
    requires FromAddress in base && From !in base
    ensures d.Keys == base.Keys - {FromAddress} + {From}
    ensures d[From] == JStr(Convert(r.fromAddress))
    ensures OthersKept(d, base)
    ensures forall f :: f in ListFields ==> ListRewritten(d, base, f, ListValue(r, f))
  {
    d := base;
    for i := 0 to |ListFields|
      invariant d.Keys == base.Keys
      invariant forall k :: k in base && k !in ListFields[..i] ==> d[k] == base[k]
      invariant forall j :: 0 <= j < i ==> ListRewritten(d, base, ListFields[j], ListValue(r, ListFields[j]))
    {
      var f := ListFields[i];
      if f in d {
        var val := ListValue(r, f);
        if val.Some? && |val.value| > 0 {
          d := d[f := ConvertAll(val.value)];
        }
      }
    }
    assert ListFields[..|ListFields|] == ListFields;
    d := d[From := JStr(Convert(r.fromAddress))];
    d := d - {FromAddress};
  }

  /**
   * `model_dump`: pydantic's dump, then each present non-empty recipient
   * list rewritten with `to_string`, the sender written under `"from"`
   * and `"from_address"` deleted; every other field passes through.
   */
  method ModelDump(r: SendMessageRequest, excludeNone: bool) returns (d: map<Key, Json>)
    ensures var base := BaseDump(r, excludeNone);
      && d.Keys == base.Keys - {FromAddress} + {From}
      && d[From] == JStr(Convert(r.fromAddress))
      && OthersKept(d, base)
      && (forall f :: f in ListFields ==> ListRewritten(d, base, f, ListValue(r, f)))
  {
    d := PostProcess(r, BaseDump(r, excludeNone));
  }

  datatype MessageStatus = MessageStatus(id: int, token: string)

  /** `SendMessageData | dict`: the typed payload of an accepted message, or any other object. */
  datatype ResponseData =
    | SendMessageData(messageId: string, messages: map<string, MessageStatus>)
    | RawData(fields: map<string, Json>)

  datatype SendMessageResponse = SendMessageResponse(status: string, flags: map<string, Json>, data: ResponseData)

  predicate IsSuccess(r: SendMessageResponse) {
    r.status == "success"
  }

  /** `message_id`: only a typed payload carries one. */
  function MessageId(r: SendMessageResponse): (id: Option<string>)
    ensures id.Some? <==> r.data.SendMessageData?
    ensures id.Some? ==> id.value == r.data.messageId
  {
    if r.data.SendMessageData? then Some(r.data.messageId) else None
  }

  /**
   * Success is read from the status alone and the message id from the
   * data alone: whatever the status, a typed payload yields its id, so a
   * failed response can still carry one.
   */
  lemma FailureWithMessageId(r: SendMessageResponse)
    requires r.data.SendMessageData?
    ensures MessageId(r) == Some(r.data.messageId)
    ensures !IsSuccess(r) <==> r.status != "success"
  {
  }
}
