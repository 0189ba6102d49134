/**
 * The Postal client (app/clients/postal_client/client.py): the same
 * session, URL and retry handling as the shared base client, a different
 * validation status (422 only), and a `send_message` that takes the
 * `data` member out of the answer before building the response model.
 */
module PostalApi {
  import opened Wrappers
  import opened Json
  import opened PostalModels
  import opened HttpBase
  import opened Retry

  const SendEndpoint := "/api/v1/send/message"

  /** A dumped request body, as `ModelDump` with `exclude_none=True` describes it. */
  ghost predicate MessageDumped(r: SendMessageRequest, d: map<Key, Json>) {
    var base := BaseDump(r, true);
    && d.Keys == base.Keys - {FromAddress} + {From}
    && d[From] == JStr(EmailModels.Convert(r.fromAddress))
    && OthersKept(d, base)
    && (forall f :: f in ListFields ==> ListRewritten(d, base, f, ListValue(r, f)))
  }

  function ParseStatus(j: Json): Option<MessageStatus> {
    if j.JObj? && "id" in j.fields && j.fields["id"].JInt? && "token" in j.fields && j.fields["token"].JStr?
    then Some(MessageStatus(j.fields["id"].i, j.fields["token"].s))
    else None
  }

  /** The typed payload, when `data` validates as `SendMessageData`. */
  function ParseSendData(j: Json): (d: Option<ResponseData>)
    ensures d.Some? ==> d.value.SendMessageData?
  {
    if j.JObj? && "message_id" in j.fields && j.fields["message_id"].JStr?
      && "messages" in j.fields && j.fields["messages"].JObj?
      && (forall k :: k in j.fields["messages"].fields ==> ParseStatus(j.fields["messages"].fields[k]).Some?)
    then
      var ms := j.fields["messages"].fields;
      Some(SendMessageData(j.fields["message_id"].s, map k | k in ms :: ParseStatus(ms[k]).value))
    else None
  }

  /**
   * `response_data.pop("data")` then `SendMessageResponse(**rest, data=data)`:
   * the answer must be an object holding `data`; the rest needs a text
   * `status`, a numeric `time` and an object `flags`; `data` becomes the
   * typed payload when it validates as one and stays a plain object
   * otherwise.
   */
  function ParseResponse(j: Json): (r: Result<SendMessageResponse, ClientError>)
    ensures r.Err? ==> r.error == InvalidResponse
    ensures (!j.JObj? || "data" !in j.fields) ==> r.Err?
    ensures r.Ok? ==> j.JObj? && "status" in j.fields && j.fields["status"] == JStr(r.value.status)
    ensures r.Ok? ==> (r.value.data.SendMessageData? <==> ParseSendData(j.fields["data"]).Some?)
  {
    if !j.JObj? || "data" !in j.fields then Err(InvalidResponse)
    else
      var data := j.fields["data"];
      var rest := j.fields - {"data"};
      if "status" !in rest || !rest["status"].JStr? || "time" !in rest || !rest["time"].JInt?
        || "flags" !in rest || !rest["flags"].JObj? then Err(InvalidResponse)
      else
        var typed := ParseSendData(data);
        if typed.Some? then Ok(SendMessageResponse(rest["status"].s, rest["flags"].fields, typed.value))
        else if data.JObj? then Ok(SendMessageResponse(rest["status"].s, rest["flags"].fields, RawData(data.fields)))
        else Err(InvalidResponse)
  }

  function RenderStatus(m: MessageStatus): Json {
    JObj(map["id" := JInt(m.id), "token" := JStr(m.token)])
  }

  /** The answer the provider would send for an accepted message. */
  function Render(r: SendMessageResponse, time: int): Json
    requires r.data.SendMessageData?
  {
    var ms := r.data.messages;
    JObj(map[
      "status" := JStr(r.status),
      "time" := JInt(time),
      "flags" := JObj(r.flags),
      "data" := JObj(map[
        "message_id" := JStr(r.data.messageId),
        "messages" := JObj(map k | k in ms :: RenderStatus(ms[k]))])])
  }

  /** A response with a typed payload survives being sent as JSON and read back. */
  lemma ParseRender(r: SendMessageResponse, time: int)
    requires r.data.SendMessageData?
    ensures ParseResponse(Render(r, time)) == Ok(r)
  {
    var ms := r.data.messages;
    var data := Render(r, time).fields["data"];
    var parsed := ParseSendData(data);
    assert parsed.Some?;
    assert parsed.value.messages == ms;
  }

  /** An answer without `data` raises KeyError before any model is built. */
  lemma MissingDataRaises(status: string, time: int)
    ensures ParseResponse(JObj(map["status" := JStr(status), "time" := JInt(time), "flags" := JObj(map[])])) == Err(InvalidResponse)
  {
  }

  /** The status check at the end of `send_message`. */
  function Accept(resp: SendMessageResponse): (r: Result<SendMessageResponse, ClientError>)
    ensures r.Ok? <==> IsSuccess(resp)
    ensures r.Ok? ==> r.value == resp
    ensures r.Err? ==> r.error.ProviderError?
  {
    if IsSuccess(resp) then Ok(resp) else Err(ProviderError("Message sent error"))
  }

  /** What `send_message` returns or raises once the request is dumped. */
  function Delivered(hasSession: bool, wire: nat -> Wire): Result<SendMessageResponse, ClientError> {
    var x := Exchanged(Postal, hasSession, wire);
    if x.Err? then Err(x.error)
    else
      var resp := ParseResponse(x.value);
      if resp.Err? then resp else Accept(resp.value)
  }

  /**
   * A 400 answer is not a validation error for Postal: it is raised as
   * the provider's base error on the first attempt.
   */
  lemma BadRequestIsProviderError(wire: nat -> Wire, body: Option<Json>)
    requires wire(0) == Reply(400, body)
    ensures Attempts(Postal, true, wire) == 1
    ensures Delivered(true, wire).Err? && Delivered(true, wire).error.ProviderError?
  {
    NotRetried(AttemptErrors(Postal, true, wire), Retryable, MaxAttempts);
  }

  /** An ok answer on the first attempt ends the call with that answer's response, or its status error. */
  lemma FirstAnswerDecides(wire: nat -> Wire, status: int, resp: SendMessageResponse, time: int)
    requires resp.data.SendMessageData?
    requires IsOk(status) && wire(0) == Reply(status, Some(Render(resp, time)))
    ensures Attempts(Postal, true, wire) == 1
    ensures Delivered(true, wire) == Accept(resp)
  {
    var errors := AttemptErrors(Postal, true, wire);
    assert errors[0].None?;
    StoppedAfter(errors, Retryable, MaxAttempts, 0, 0);
    ParseRender(resp, time);
  }

  datatype Post = Post(url: string, body: map<Key, Json>)

  class PostalClient {
    const apiUrl: string
    const apiKey: string
    const ownedSession: bool
    var hasSession: bool
    var sessionClosed: bool
    /** Every request put on the wire, in order. */
    var posts: seq<Post>

    /** A client with its own session (`session=None`) or with the caller's. */
    constructor (url: string, key: string, givenSession: bool)
      ensures apiUrl == Text.RStripChar(url, '/') && apiKey == key
      ensures ownedSession == !givenSession && hasSession == givenSession
      ensures !sessionClosed && posts == []
    {
      apiUrl := Text.RStripChar(url, '/');
      apiKey := key;
      ownedSession := !givenSession;
      hasSession := givenSession;
      sessionClosed := false;
      posts := [];
    }

    /** `__aenter__`: opens a session when there is none. */
    method Enter()
      modifies this`hasSession
      ensures hasSession
    {
      hasSession := true;
    }

    /** `__aexit__`: closes the session only when the client owns it. */
    method Exit()
      modifies this`sessionClosed
      ensures sessionClosed == (old(sessionClosed) || (ownedSession && hasSession))
    {
      if ownedSession && hasSession {
        sessionClosed := true;
      }
    }

    /**
     * `send_message`: every attempt posts the same dumped body to the
     * send endpoint, and the call returns the parsed answer only when its
     * status is "success".
     */
    method SendMessage(req: SendMessageRequest, wire: nat -> Wire) returns (r: Result<SendMessageResponse, ClientError>)
      modifies this`posts
      ensures r == Delivered(hasSession, wire)
      ensures |posts| == |old(posts)| + (if hasSession then Attempts(Postal, hasSession, wire) else 0)
      ensures posts[..|old(posts)|] == old(posts)
      ensures forall k :: |old(posts)| <= k < |posts| ==> posts[k].url == Url(apiUrl, SendEndpoint) && MessageDumped(req, posts[k].body)
    {
      var payload := ModelDump(req, true);
      var x, sent := Exchange(Postal, hasSession, wire);
      posts := posts + seq(sent, _ => Post(Url(apiUrl, SendEndpoint), payload));
      if x.Err? {
        return Err(x.error);
      }
      var resp := ParseResponse(x.value);
      if resp.Err? {
        return resp;
      }
      r := Accept(resp.value);
    }
  }
}
