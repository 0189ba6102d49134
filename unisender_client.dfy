/**
 * The Unisender Go client (app/clients/unisender_go_client/client.py on
 * top of app/clients/base_client.py): a context-managed session, one
 * `send_message` that dumps the request, posts it with retries, reads
 * the answer into a response model and raises unless its status is
 * "success".
 */
module UnisenderApi {
  import opened Wrappers
  import opened Text
  import opened Json
  import opened UnisenderModels
  import opened HttpBase
  import opened Retry

  const SendEndpoint := "/email/send.json"

  /** A dumped request body, as `ModelDump` describes it. */
  ghost predicate MessageDumped(r: SendMessageRequest, body: Json) {
    && body.JObj? && body.fields.Keys == {"message"} && body.fields["message"].JObj?
    && var m := body.fields["message"].fields;
    && m.Keys <= MessageKeys
    && RecipientsDumped(r, m)
    && "body" in m && m["body"].JObj? && BodyDumped(r, m["body"].fields)
    && "subject" in m && m["subject"] == JStr(r.subject)
    && SenderDumped(r, m)
    && ReplyDumped(r, m)
    && ExtrasDumped(r, m)
  }

  /** An optional text field: absent or null is `None`. */
  function OptText(f: map<string, Json>, key: string): Option<Option<string>> {
    if key !in f || f[key].JNull? then Some(None)
    else if f[key].JStr? then Some(Some(f[key].s))
    else None
  }

  predicate AllText(items: seq<Json>) {
    forall k :: 0 <= k < |items| ==> items[k].JStr?
  }

  function Texts(items: seq<Json>): (t: seq<string>)
    requires AllText(items)
    ensures |t| == |items| && forall k :: 0 <= k < |t| ==> items[k] == JStr(t[k])
  {
    seq(|items|, k requires 0 <= k < |items| => items[k].s)
  }

  /** `code: str | int | None`; an integer code is kept as the text it prints as. */
  function OptCode(f: map<string, Json>): Option<Option<string>> {
    if "code" !in f || f["code"].JNull? then Some(None)
    else if f["code"].JStr? then Some(Some(f["code"].s))
    else if f["code"].JInt? then Some(Some(IntToString(f["code"].i)))
    else None
  }

  function OptTexts(f: map<string, Json>): Option<Option<seq<string>>> {
    if "emails" !in f || f["emails"].JNull? then Some(None)
    else if f["emails"].JArr? && AllText(f["emails"].items) then Some(Some(Texts(f["emails"].items)))
    else None
  }

  /**
   * `SendMessageResponse(**response_data)`: the answer must be an object
   * with a text `status`; the other fields are optional and extra fields
   * are ignored. Anything else fails validation.
   */
  function ParseResponse(j: Json): (r: Result<SendMessageResponse, ClientError>)
    ensures r.Err? ==> r.error == InvalidResponse
    ensures r.Ok? ==> j.JObj? && "status" in j.fields && j.fields["status"] == JStr(r.value.status)
  {
    if !j.JObj? || "status" !in j.fields || !j.fields["status"].JStr? then Err(InvalidResponse)
    else
      var f := j.fields;
      var jobId := OptText(f, "job_id");
      var emails := OptTexts(f);
      var code := OptCode(f);
      var message := OptText(f, "message");
      if jobId.None? || emails.None? || code.None? || message.None? then Err(InvalidResponse)
      else Ok(SendMessageResponse(f["status"].s, jobId.value, emails.value, code.value, message.value))
  }

  /** The answer the provider would send for a response. */
  function Render(r: SendMessageResponse): Json {
    JObj(map[
      "status" := JStr(r.status),
      "job_id" := (if r.jobId.Some? then JStr(r.jobId.value) else JNull),
      "emails" := (if r.emails.Some? then JArr(seq(|r.emails.value|, k requires 0 <= k < |r.emails.value| => JStr(r.emails.value[k]))) else JNull),
      "code" := (if r.code.Some? then JStr(r.code.value) else JNull),
      "message" := (if r.message.Some? then JStr(r.message.value) else JNull)])
  }

  /** Every response survives being sent as JSON and read back. */
  lemma ParseRender(r: SendMessageResponse)
    ensures ParseResponse(Render(r)) == Ok(r)
  {
    var f := Render(r).fields;
    if r.emails.Some? {
      assert AllText(f["emails"].items);
      assert Texts(f["emails"].items) == r.emails.value;
    }
  }

  /** A field as an f-string prints it: `None` for a missing value. */
  function Shown(o: Option<string>): string {
    if o.Some? then o.value else "None"
  }

  /** The status check at the end of `send_message`. */
  function Accept(resp: SendMessageResponse): (r: Result<SendMessageResponse, ClientError>)
    ensures r.Ok? <==> IsSuccess(resp)
    ensures r.Ok? ==> r.value == resp
    ensures r.Err? ==> r.error == ProviderError("Message sent error: " + Shown(resp.message) + " (code: " + Shown(resp.code) + ")")
  {
    if IsSuccess(resp) then Ok(resp)
    else Err(ProviderError("Message sent error: " + Shown(resp.message) + " (code: " + Shown(resp.code) + ")"))
  }

  /** What `send_message` returns or raises once the request is dumped. */
  function Delivered(hasSession: bool, wire: nat -> Wire): Result<SendMessageResponse, ClientError> {
    var x := Exchanged(UnisenderGo, hasSession, wire);
    if x.Err? then Err(x.error)
    else
      var resp := ParseResponse(x.value);
      if resp.Err? then resp else Accept(resp.value)
  }

  /**
   * An ok answer on the first attempt ends the call: the response it
   * carries is returned when its status is "success" and raised as a
   * provider error otherwise.
   */
  lemma FirstAnswerDecides(wire: nat -> Wire, status: int, resp: SendMessageResponse)
    requires IsOk(status) && wire(0) == Reply(status, Some(Render(resp)))
    ensures Attempts(UnisenderGo, true, wire) == 1
    ensures Delivered(true, wire) == Accept(resp)
  {
    var errors := AttemptErrors(UnisenderGo, true, wire);
    assert errors[0].None?;
    StoppedAfter(errors, Retryable, MaxAttempts, 0, 0);
    ParseRender(resp);
  }

  /** A call returns normally only with the parsed answer of its last attempt, and only when that says "success". */
  lemma DeliveredIsSuccess(hasSession: bool, wire: nat -> Wire)
    ensures Delivered(hasSession, wire).Ok? ==>
      && IsSuccess(Delivered(hasSession, wire).value)
      && Exchanged(UnisenderGo, hasSession, wire).Ok?
      && ParseResponse(Exchanged(UnisenderGo, hasSession, wire).value) == Delivered(hasSession, wire)
  {
  }

  datatype Post = Post(url: string, body: Json)

  class UnisenderGoClient {
    const apiUrl: string
    const apiKey: string
    const ownedSession: bool
    var hasSession: bool
    var sessionClosed: bool
    /** Every request put on the wire, in order. */
    var posts: seq<Post>

    /** A client with its own session (`session=None`) or with the caller's. */
    constructor (url: string, key: string, givenSession: bool)
      ensures apiUrl == RStripChar(url, '/') && apiKey == key
      ensures ownedSession == !givenSession && hasSession == givenSession
      ensures !sessionClosed && posts == []
    {
      apiUrl := RStripChar(url, '/');
      apiKey := key;
      ownedSession := !givenSession;
      hasSession := givenSession;
      sessionClosed := false;
      posts := [];
    }

    /** `__aenter__`: opens a session when there is none. */
    method Enter()
      modifies this`hasSession
      ensures hasSession
    {
      hasSession := true;
    }

    /** `__aexit__`: closes the session only when the client owns it. */
    method Exit()
      modifies this`sessionClosed
      ensures sessionClosed == (old(sessionClosed) || (ownedSession && hasSession))
    {
      if ownedSession && hasSession {
        sessionClosed := true;
      }
    }

    /**
     * `send_message`: a request whose dump raises sends nothing; otherwise
     * every attempt posts the same dumped body to the send endpoint, and
     * the call returns the parsed answer only when its status is "success".
     */
    method SendMessage(req: SendMessageRequest, wire: nat -> Wire) returns (r: Result<SendMessageResponse, ClientError>)
      modifies this`posts
      ensures var dumpFails := req.replyAddress.Some? && req.replyAddress.value.Structured? && req.fromAddress.Plain?;
        && (dumpFails ==> r.Err? && r.error.DumpFailed? && posts == old(posts))
        && (!dumpFails ==> r == Delivered(hasSession, wire))
        && (!dumpFails ==> |posts| == |old(posts)| + (if hasSession then Attempts(UnisenderGo, hasSession, wire) else 0))
      ensures posts[..|old(posts)|] == old(posts)
      ensures forall k :: |old(posts)| <= k < |posts| ==> posts[k].url == Url(apiUrl, SendEndpoint) && MessageDumped(req, posts[k].body)
    {
      var payload := ModelDump(req);
      if payload.Err? {
        return Err(DumpFailed(payload.error));
      }
      var x, sent := Exchange(UnisenderGo, hasSession, wire);
      posts := posts + seq(sent, _ => Post(Url(apiUrl, SendEndpoint), payload.value));
      if x.Err? {
        return Err(x.error);
      }
      var resp := ParseResponse(x.value);
      if resp.Err? {
        return resp;
      }
      r := Accept(resp.value);
    }
  }
}
