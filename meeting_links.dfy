/**
 * What the two meeting-link managers (app/services/meeting.py and
 * app/controllers/meeting.py) share: the Jitsi token claims, the
 * external-id scheme and the choice between the short and the long URL.
 */
module MeetingLinks {
  import opened Wrappers
  import opened Text
  import opened Shortener

  /** Seconds of slack before the start and after the end of a meeting. */
  const Timeshift := 5 * 60

  /** How many times the metadata sync reads the booking before giving up. */
  const MetadataWaitAttempts := 1

  /** The external id prefix of the client's link. */
  const ClientPrefix := "client_"

  /** The claims of a Jitsi meeting token. */
  datatype Claims = Claims(
    aud: string,
    iss: string,
    sub: string,
    room: string,
    iat: int,
    nbf: int,
    exp: int,
    userName: string,
    role: Option<string>)

  /** Deployment settings; `sign` is HS256 JWT encoding with the Jitsi secret. */
  datatype MeetingSettings = MeetingSettings(
    meetingHostUrl: string,
    jwtAud: string,
    jwtIss: string,
    sign: Claims -> string)

  /** `_get_meeting_expiration`: the link and the token expire after the meeting. */
  function Expiration(endTime: int): (exp: int)
    ensures exp > endTime
    ensures exp - endTime == Timeshift
  {
    endTime + Timeshift
  }

  /** The claims both managers put in a token; only the `role` differs. */
  function TokenClaims(s: MeetingSettings, uid: string, startTime: int, endTime: int, name: string, now: int, role: Option<string>): (c: Claims)
    ensures c.aud == s.jwtAud && c.iss == s.jwtIss && c.iat == now
  {
    Claims(s.jwtAud, s.jwtIss, "*", uid, now, startTime - Timeshift, Expiration(endTime), name, role)
  }

  /**
   * The token admits its holder to the booking's room from five minutes
   * before the start until five minutes after the end, and no longer.
   */
  lemma TokenWindow(s: MeetingSettings, uid: string, startTime: int, endTime: int, name: string, now: int, role: Option<string>)
    ensures var c := TokenClaims(s, uid, startTime, endTime, name, now, role);
      && c.room == uid && c.sub == "*" && c.userName == name && c.role == role
      && c.nbf < startTime && endTime < c.exp
      && c.nbf == startTime - Timeshift && c.exp == endTime + Timeshift
      && c.exp - c.nbf == (endTime - startTime) + 2 * Timeshift
  {
  }

  /** The external id of a link: the participant's prefix, then the booking uid. */
  function ExternalId(prefix: string, uid: string): string {
    prefix + uid
  }

  /** In update mode the link to move is under the previous uid, or under `uid` when there is none. */
  function OldExternalId(prefix: string, previousUid: Option<string>, uid: string): (r: string)
    ensures previousUid.None? || !Truthy(previousUid.value) ==> r == ExternalId(prefix, uid)
    ensures previousUid.Some? && Truthy(previousUid.value) ==> r == ExternalId(prefix, previousUid.value)
  {
    prefix + (if previousUid.Some? && Truthy(previousUid.value) then previousUid.value else uid)
  }

  /** `short_url if short_url else long_url`. */
  function FinalUrl(short: Option<string>, long: string): (url: string)
    ensures short.Some? && Truthy(short.value) ==> url == short.value
    ensures short.None? || !Truthy(short.value) ==> url == long
    ensures Truthy(long) ==> Truthy(url)
  {
    if short.Some? && Truthy(short.value) then short.value else long
  }

  /** What the shortener answers in update mode (repoint) or create mode. */
  function LinkAnswer(sh: UrlShortener, links: map<string, Link>, isUpdate: bool, oldId: string, net: Net): (r: Option<string>)
    ensures r.Some? ==> sh.HasApiKey() && net.reachable && (isUpdate ==> oldId in links)
    ensures !isUpdate ==> (r.Some? <==> sh.HasApiKey() && net.reachable && Truthy(net.assignedIdent))
  {
    if isUpdate then sh.UpdateAnswer(links, oldId, net) else sh.CreateAnswer(net)
  }

  /** The request `_generate_url` sends through the shortener, if any. */
  function LinkRequests(sh: UrlShortener, isUpdate: bool, long: string, exp: int, oldId: string, newId: string): seq<Request> {
    if !sh.HasApiKey() then []
    else if isUpdate then [Repoint(ExternalEndpoint(sh.baseUrl, oldId), long, exp, newId)]
    else [Shorten(ShortenEndpoint(sh.baseUrl), long, exp, newId)]
  }

  /** The shortening service's links after that request. */
  function LinksAfter(sh: UrlShortener, links: map<string, Link>, isUpdate: bool, long: string, exp: int, oldId: string, newId: string, net: Net): map<string, Link> {
    if !sh.HasApiKey() || !net.reachable then links
    else if isUpdate then (if oldId in links then Repointed(links, oldId, newId, long, exp) else links)
    else links[newId := Link(net.assignedIdent, long, exp)]
  }

  /**
   * The returned URL is the long URL exactly when the shortener gives no
   * URL: no API key, an unreachable service, an empty ident, or (in update
   * mode) no link under the old id.
   */
  lemma FallbackToLongUrl(sh: UrlShortener, links: map<string, Link>, isUpdate: bool, long: string, oldId: string, net: Net)
    ensures var short := LinkAnswer(sh, links, isUpdate, oldId, net);
      && (short.None? ==> FinalUrl(short, long) == long)
      && (short.None? <==>
            (|| !sh.HasApiKey()
             || !net.reachable
             || (isUpdate && (oldId !in links || !Truthy(links[oldId].ident)))
             || (!isUpdate && !Truthy(net.assignedIdent))))
  {
  }

  /**
   * A short URL handed out is the one the service now resolves for the new
   * external id, so `get_url` later returns the same link.
   */
  lemma ShortUrlResolves(sh: UrlShortener, links: map<string, Link>, isUpdate: bool, long: string, exp: int, oldId: string, newId: string, net: Net)
    requires LinkAnswer(sh, links, isUpdate, oldId, net).Some?
    ensures FinalUrl(LinkAnswer(sh, links, isUpdate, oldId, net), long) == LinkAnswer(sh, links, isUpdate, oldId, net).value
    ensures Resolve(LinksAfter(sh, links, isUpdate, long, exp, oldId, newId, net), sh.baseUrl, newId)
      == LinkAnswer(sh, links, isUpdate, oldId, net)
  {
    if isUpdate {
      ResolveRepointed(links, sh.baseUrl, oldId, newId, long, exp);
    }
  }
}
