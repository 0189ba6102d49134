/**
 * The e-mail adapters (app/adapters/email.py): one adapter per provider,
 * each opening a fresh client for a single message, the SMTP adapter, and
 * the service that picks an adapter by the recipient's domain.
 */
module EmailAdapter {
  import opened Wrappers
  import opened Text
  import opened Json
  import opened EmailModels
  import opened HttpBase
  import UnisenderModels
  import PostalModels
  import UnisenderApi
  import PostalApi

  /** What a `send_email` raises. */
  datatype MailError = Provider(error: ClientError) | TypeError(message: string) | SmtpFailed

  function Raised(e: Option<ClientError>): Option<MailError> {
    if e.Some? then Some(Provider(e.value)) else None
  }

  /**
   * The Unisender Go request the adapter builds: one structured
   * recipient, a structured sender, a reply address only for a non-empty
   * reply e-mail, and the HTML body; the tracking flags keep the request
   * model's default of 0. It always validates, and its dump
   * cannot raise because the sender is structured.
   */
  function UnisenderRequest(to: string, from: string, fromName: Option<string>, reply: Option<string>,
                            replyName: Option<string>, subject: string, html: string): (req: UnisenderModels.SendMessageRequest)
    ensures req.to == [Structured(EmailAddress(to, None))] && req.fromAddress == Structured(EmailAddress(from, fromName))
    ensures req.replyAddress.Some? <==> reply.Some? && Truthy(reply.value)
    ensures req.replyAddress.Some? ==> req.replyAddress.value == Structured(EmailAddress(reply.value, replyName))
    ensures req.htmlBody == Some(html) && req.subject == subject
    ensures req.plainBody.None? && req.attachments.None? && req.headers.None?
    ensures req.trackLinks == Some(0) && req.trackRead == Some(0)
    ensures UnisenderModels.Validate(req).Ok? && !req.fromAddress.Plain?
  {
    UnisenderModels.SendMessageRequest(
      [Structured(EmailAddress(to, None))],
      Structured(EmailAddress(from, fromName)),
      subject,
      if reply.Some? && Truthy(reply.value) then Some(Structured(EmailAddress(reply.value, replyName))) else None,
      None, Some(html), None, None, Some(0), Some(0))
  }

  /** The posted body turns link and open tracking off: both flags are written, as 0. */
  predicate TrackingOff(body: Json) {
    && body.JObj? && "message" in body.fields && body.fields["message"].JObj?
    && var m := body.fields["message"].fields;
    && "track_links" in m && m["track_links"] == JInt(0)
    && "track_read" in m && m["track_read"] == JInt(0)
  }

  /** Every dump of the adapter's Unisender Go request carries both tracking flags as 0. */
  lemma UnisenderTrackingOff(to: string, from: string, fromName: Option<string>, reply: Option<string>,
                             replyName: Option<string>, subject: string, html: string, body: Json)
    requires UnisenderApi.MessageDumped(UnisenderRequest(to, from, fromName, reply, replyName, subject, html), body)
    ensures TrackingOff(body)
  {
  }

  /**
   * The Postal request as the adapter writes it: the reply address is
   * passed under a name the Postal model does not declare, so it is
   * dropped and `reply_to` stays unset.
   */
  function PostalRequestAsWritten(to: string, from: string, fromName: Option<string>, reply: Option<string>,
                                  replyName: Option<string>, subject: string, html: string): (req: PostalModels.SendMessageRequest)
    ensures req.to == [Structured(EmailAddress(to, None))] && req.fromAddress == Structured(EmailAddress(from, fromName))
    ensures req.htmlBody == Some(html) && req.subject == subject
    ensures PostalModels.Validate(req).Ok?
  {
    PostalModels.SendMessageRequest(
      [Structured(EmailAddress(to, None))], Structured(EmailAddress(from, fromName)), subject,
      None, Some(html), None, None, None, None, None, None, None)
  }

  /** Whatever the reply address, the Postal message goes out without one. */
  lemma PostalReplyDropped(to: string, from: string, fromName: Option<string>, reply: Option<string>,
                           replyName: Option<string>, subject: string, html: string)
    ensures var req := PostalRequestAsWritten(to, from, fromName, reply, replyName, subject, html);
      PostalModels.ReplyTo !in PostalModels.BaseDump(req, true)
  {
  }

  /** The Postal request with the reply address carried in `reply_to`, as the Unisender Go adapter carries it. */
  function PostalRequest(to: string, from: string, fromName: Option<string>, reply: Option<string>,
                         replyName: Option<string>, subject: string, html: string): (req: PostalModels.SendMessageRequest)
    ensures req.to == [Structured(EmailAddress(to, None))] && req.fromAddress == Structured(EmailAddress(from, fromName))
    ensures req.htmlBody == Some(html) && req.subject == subject
    ensures PostalModels.Validate(req).Ok?
    ensures req.replyTo.Some? <==> reply.Some? && Truthy(reply.value)
  {
    PostalModels.SendMessageRequest(
      [Structured(EmailAddress(to, None))], Structured(EmailAddress(from, fromName)), subject,
      None, Some(html), None, None,
      if reply.Some? && Truthy(reply.value) then Some(ToString(EmailAddress(reply.value, replyName))) else None,
      None, None, None, None)
  }

  /** A non-empty reply e-mail reaches the Postal dump, with the address in its text. */
  lemma PostalReplyKept(to: string, from: string, fromName: Option<string>, reply: string,
                        replyName: Option<string>, subject: string, html: string)
    requires Truthy(reply)
    ensures var d := PostalModels.BaseDump(PostalRequest(to, from, fromName, Some(reply), replyName, subject, html), true);
      && PostalModels.ReplyTo in d && d[PostalModels.ReplyTo].JStr?
      && Contains(d[PostalModels.ReplyTo].s, reply)
  {
  }

  /** `UnisenderGoEmailClient`: opens its own client for each message and closes it afterwards. */
  class UnisenderGoEmailClient {
    const apiUrl: string
    const apiKey: string

    constructor (url: string, key: string)
      ensures apiUrl == url && apiKey == key
    {
      apiUrl := url;
      apiKey := key;
    }

    /**
     * `send_email`: the request goes out on a fresh, owned session, the
     * provider's errors are re-raised, and the session is closed on the
     * way out whatever happened.
     */
    method SendEmail(to: string, from: string, fromName: Option<string>, reply: Option<string>, replyName: Option<string>,
                     subject: string, html: string, wire: nat -> Wire)
      returns (r: Option<MailError>, client: UnisenderApi.UnisenderGoClient)
      ensures fresh(client) && client.ownedSession && client.sessionClosed
      ensures r == Raised(ErrorOf(UnisenderApi.Delivered(true, wire)))
      ensures |client.posts| == Attempts(UnisenderGo, true, wire)
      ensures forall k :: 0 <= k < |client.posts| ==>
        UnisenderApi.MessageDumped(UnisenderRequest(to, from, fromName, reply, replyName, subject, html), client.posts[k].body)
      ensures forall k :: 0 <= k < |client.posts| ==> TrackingOff(client.posts[k].body)
    {
      client := new UnisenderApi.UnisenderGoClient(apiUrl, apiKey, false);
      client.Enter();
      var request := UnisenderRequest(to, from, fromName, reply, replyName, subject, html);
      var sent := client.SendMessage(request, wire);
      r := Raised(ErrorOf(sent));
      client.Exit();
    }
  }

  /** `PostalEmailClient`, building its request with the reply address kept. */
  class PostalEmailClient {
    const apiUrl: string
    const apiKey: string

    constructor (url: string, key: string)
      ensures apiUrl == url && apiKey == key
    {
      apiUrl := url;
      apiKey := key;
    }

    /** `send_email`: as for Unisender Go, on the Postal client. */
    method SendEmail(to: string, from: string, fromName: Option<string>, reply: Option<string>, replyName: Option<string>,
                     subject: string, html: string, wire: nat -> Wire)
      returns (r: Option<MailError>, client: PostalApi.PostalClient)
      ensures fresh(client) && client.ownedSession && client.sessionClosed
      ensures r == Raised(ErrorOf(PostalApi.Delivered(true, wire)))
      ensures |client.posts| == Attempts(Postal, true, wire)
      ensures forall k :: 0 <= k < |client.posts| ==>
        PostalApi.MessageDumped(PostalRequest(to, from, fromName, reply, replyName, subject, html), client.posts[k].body)
    {
      client := new PostalApi.PostalClient(apiUrl, apiKey, false);
      client.Enter();
      var request := PostalRequest(to, from, fromName, reply, replyName, subject, html);
      var sent := client.SendMessage(request, wire);
      r := Raised(ErrorOf(sent));
      client.Exit();
    }
  }

  /** The `From` header of the SMTP message. */
  function SmtpFrom(email: string, name: Option<string>): (h: string)
    ensures h == ToString(EmailAddress(email, name))
  {
    if name.Some? && Truthy(name.value) then name.value + " <" + email + ">" else email
  }

  /** The message the SMTP adapter hands to the mail server. */
  datatype SmtpMessage = SmtpMessage(subject: string, from: string, to: string, html: string)

  /** `SMTPClient.send_email`: one HTML part; a failure of the server is re-raised. */
  function SmtpSend(to: string, from: string, fromName: Option<string>, subject: string, html: string, fails: bool): (r: Result<SmtpMessage, MailError>)
    ensures r.Err? <==> fails
    ensures r.Err? ==> r.error == SmtpFailed
    ensures r.Ok? ==> r.value.to == to && r.value.subject == subject && r.value.html == html
    ensures r.Ok? ==> r.value.from == ToString(EmailAddress(from, fromName))
  {
    if fails then Err(SmtpFailed) else Ok(SmtpMessage(subject, SmtpFrom(from, fromName), to, html))
  }

  datatype ClientKind = UnisenderGoKind | PostalKind | SmtpKind

  /** The SMTP settings, each of which may be unset. */
  datatype SmtpSettings = SmtpSettings(host: Option<string>, port: Option<int>, user: Option<string>, password: Option<string>)

  /** `all([host, port, user, password])`: every setting present and truthy. */
  predicate SmtpConfigured(s: SmtpSettings) {
    && s.host.Some? && Truthy(s.host.value)
    && s.port.Some? && s.port.value != 0
    && s.user.Some? && Truthy(s.user.value)
    && s.password.Some? && Truthy(s.password.value)
  }

  /** The adapter `get_client_by_email` hands out. */
  datatype Chosen =
    | ApiAdapter(kind: ClientKind, apiUrl: string, apiKey: string)
    | SmtpAdapter(host: string, port: int, user: string, password: string)

  /** The selector the service is built with. */
  const DefaultSelector: map<string, ClientKind> := map["default" := UnisenderGoKind]

  /** The kind registered for the recipient's domain (the text after the last '@'), or the default. */
  function SelectedKind(selector: map<string, ClientKind>, to: string): (k: ClientKind)
    requires "default" in selector
    ensures LastPart(to, '@') in selector ==> k == selector[LastPart(to, '@')]
    ensures LastPart(to, '@') !in selector ==> k == selector["default"]
  {
    var domain := LastPart(to, '@');
    if domain in selector then selector[domain] else selector["default"]
  }

  /**
   * `get_client_by_email` as written: with SMTP selected but not
   * configured, the fallback calls the SMTP adapter's constructor with
   * the API adapters' arguments, which raises TypeError.
   */
  function GetClientAsWritten(selector: map<string, ClientKind>, apiUrl: string, apiKey: string, smtp: SmtpSettings, to: string): (c: Result<Chosen, MailError>)
    requires "default" in selector
    ensures c.Err? <==> SelectedKind(selector, to) == SmtpKind && !SmtpConfigured(smtp)
    ensures c.Err? ==> c.error.TypeError?
  {
    var kind := SelectedKind(selector, to);
    if kind == SmtpKind then
      if !SmtpConfigured(smtp) then Err(TypeError("SMTPClient.__init__() got an unexpected keyword argument 'api_url'"))
      else Ok(SmtpAdapter(smtp.host.value, smtp.port.value, smtp.user.value, smtp.password.value))
    else Ok(ApiAdapter(kind, apiUrl, apiKey))
  }

  /** A domain routed to SMTP while SMTP is not configured makes the service raise instead of falling back. */
  lemma FallbackRaises(apiUrl: string, apiKey: string)
    ensures var selector := DefaultSelector["mx" := SmtpKind];
      GetClientAsWritten(selector, apiUrl, apiKey, SmtpSettings(None, Some(2525), None, None), "a@mx").Err?
  {
    var to := "a@mx";
    LastPartIsTail(to, '@');
    var r := LastPart(to, '@');
    assert |r| != 0 && |r| != 1 && |r| != 3 && |r| != 4;
    assert r == to[2..] == "mx";
  }

  /**
   * `get_client_by_email` with the fallback it announces: an unconfigured
   * SMTP choice falls back to the selector's default, or to the Unisender
   * Go adapter when the default is SMTP as well.
   */
  function GetClient(selector: map<string, ClientKind>, apiUrl: string, apiKey: string, smtp: SmtpSettings, to: string): (c: Chosen)
    requires "default" in selector
    ensures c.SmtpAdapter? <==> SelectedKind(selector, to) == SmtpKind && SmtpConfigured(smtp)
    ensures SelectedKind(selector, to) == SmtpKind && !SmtpConfigured(smtp) ==>
      c == ApiAdapter(if selector["default"] == SmtpKind then UnisenderGoKind else selector["default"], apiUrl, apiKey)
    ensures GetClientAsWritten(selector, apiUrl, apiKey, smtp, to).Ok? ==> c == GetClientAsWritten(selector, apiUrl, apiKey, smtp, to).value
  {
    var kind := SelectedKind(selector, to);
    if kind == SmtpKind then
      if !SmtpConfigured(smtp) then
        ApiAdapter(if selector["default"] == SmtpKind then UnisenderGoKind else selector["default"], apiUrl, apiKey)
      else SmtpAdapter(smtp.host.value, smtp.port.value, smtp.user.value, smtp.password.value)
    else ApiAdapter(kind, apiUrl, apiKey)
  }

  /** With the selector the service is built with, every recipient is served by Unisender Go. */
  lemma DefaultIsUnisender(apiUrl: string, apiKey: string, smtp: SmtpSettings, to: string)
    ensures GetClient(DefaultSelector, apiUrl, apiKey, smtp, to) == ApiAdapter(UnisenderGoKind, apiUrl, apiKey)
    ensures GetClientAsWritten(DefaultSelector, apiUrl, apiKey, smtp, to) == Ok(ApiAdapter(UnisenderGoKind, apiUrl, apiKey))
  {
  }

  /**
   * The service hands every adapter the reply arguments; the SMTP
   * adapter's `send_email` does not take them, so the call raises
   * TypeError before anything is sent.
   */
  function ServiceCallAsWritten(c: Chosen): (r: Option<MailError>)
    ensures r.Some? <==> c.SmtpAdapter?
  {
    if c.SmtpAdapter? then Some(TypeError("SMTPClient.send_email() got an unexpected keyword argument 'reply_to_email'")) else None
  }

  /** What reached the outside world: the provider clients used, or the SMTP message. */
  datatype Dispatch = ViaUnisender(unisender: UnisenderApi.UnisenderGoClient) | ViaPostal(postal: PostalApi.PostalClient) | ViaSmtp(message: Option<SmtpMessage>)

  /** `EmailService`: the sender and reply identity, and the domain selector. */
  class EmailService {
    const fromEmail: string
    const fromName: string
    const replyEmail: string
    const replyName: string
    const selector: map<string, ClientKind>
    const apiUrl: string
    const apiKey: string
    const smtp: SmtpSettings

    constructor (from: string, name: string, reply: string, rName: string, url: string, key: string, smtpSettings: SmtpSettings)
      ensures fromEmail == from && fromName == name && replyEmail == reply && replyName == rName
      ensures selector == DefaultSelector && apiUrl == url && apiKey == key && smtp == smtpSettings
    {
      fromEmail, fromName, replyEmail, replyName := from, name, reply, rName;
      selector := DefaultSelector;
      apiUrl, apiKey, smtp := url, key, smtpSettings;
    }

    /**
     * `send_email`: the chosen adapter sends the message with the
     * service's sender and reply identity; SMTP receives only the
     * arguments it takes.
     */
    method SendEmail(to: string, subject: string, html: string, wire: nat -> Wire, smtpFails: bool)
      returns (r: Option<MailError>, via: Dispatch)
      requires "default" in selector
      ensures var c := GetClient(selector, apiUrl, apiKey, smtp, to);
        && (c == ApiAdapter(UnisenderGoKind, apiUrl, apiKey) ==> via.ViaUnisender? && r == Raised(ErrorOf(UnisenderApi.Delivered(true, wire))))
        && (c == ApiAdapter(PostalKind, apiUrl, apiKey) ==> via.ViaPostal? && r == Raised(ErrorOf(PostalApi.Delivered(true, wire))))
        && (c.SmtpAdapter? ==> via.ViaSmtp? && (r.Some? <==> smtpFails))
        && (c.SmtpAdapter? && !smtpFails ==> via.message == Some(SmtpMessage(subject, ToString(EmailAddress(fromEmail, Some(fromName))), to, html)))
      ensures via.ViaUnisender? ==>
        && |via.unisender.posts| == Attempts(UnisenderGo, true, wire)
        && forall k :: 0 <= k < |via.unisender.posts| ==>
             UnisenderApi.MessageDumped(UnisenderRequest(to, fromEmail, Some(fromName), Some(replyEmail), Some(replyName), subject, html),
                                        via.unisender.posts[k].body)
      ensures via.ViaUnisender? ==> forall k :: 0 <= k < |via.unisender.posts| ==> TrackingOff(via.unisender.posts[k].body)
      ensures via.ViaPostal? ==>
        && |via.postal.posts| == Attempts(Postal, true, wire)
        && forall k :: 0 <= k < |via.postal.posts| ==>
             PostalApi.MessageDumped(PostalRequest(to, fromEmail, Some(fromName), Some(replyEmail), Some(replyName), subject, html),
                                     via.postal.posts[k].body)
    {
      var c := GetClient(selector, apiUrl, apiKey, smtp, to);
      match c
      case ApiAdapter(kind, url, key) =>
        if kind == PostalKind {
          var adapter := new PostalEmailClient(url, key);
          var client;
          r, client := adapter.SendEmail(to, fromEmail, Some(fromName), Some(replyEmail), Some(replyName), subject, html, wire);
          via := ViaPostal(client);
        } else {
          var adapter := new UnisenderGoEmailClient(url, key);
          var client;
          r, client := adapter.SendEmail(to, fromEmail, Some(fromName), Some(replyEmail), Some(replyName), subject, html, wire);
          via := ViaUnisender(client);
        }
      case SmtpAdapter(_, _, _, _) =>
        var sent := SmtpSend(to, fromEmail, Some(fromName), subject, html, smtpFails);
        if sent.Err? {
          r := Some(sent.error);
          via := ViaSmtp(None);
        } else {
          r := None;
          via := ViaSmtp(Some(sent.value));
        }
    }
  }
}
