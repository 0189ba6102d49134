/**
 * `MeetingService` (app/services/meeting.py): builds a participant's Jitsi
 * link for a booking event, shortens it under `prefix + uid`, and for the
 * organizer's link stores it in the booking's metadata.
 */
module ServicesMeeting {
  import opened Wrappers
  import opened Dtos
  import opened Shortener
  import opened BookingStore
  import opened MeetingLinks

  /** `_create_jitsi_token`'s claims: the participant's name and no role. */
  function ServiceClaims(s: MeetingSettings, p: BookingEventPayload, name: string, now: int): (c: Claims)
    ensures c.role.None? && c.userName == name && c.room == p.uid
    ensures c.nbf == p.startTime - Timeshift && c.exp == Expiration(p.endTime)
  {
    TokenClaims(s, p.uid, p.startTime, p.endTime, name, now, None)
  }

  /** `f"{meeting_host_url}/{uid}?jwt={token}"`. */
  function LongUrl(s: MeetingSettings, uid: string, token: string): (url: string)
    ensures var room := s.meetingHostUrl + "/" + uid;
      && |url| == |room| + |"?jwt="| + |token|
      && url[..|room|] == room && url[|room|..|room| + |"?jwt="|] == "?jwt=" && url[|url| - |token|..] == token
  {
    s.meetingHostUrl + "/" + uid + "?jwt=" + token
  }

  class MeetingService {
    const settings: MeetingSettings
    const shortener: UrlShortener
    const store: Store

    constructor (settings: MeetingSettings, shortener: UrlShortener, store: Store)
      ensures this.settings == settings && this.shortener == shortener && this.store == store
    {
      this.settings := settings;
      this.shortener := shortener;
      this.store := store;
    }

    /**
     * `_generate_url`: repoint `prefix + (reschedule_uid or uid)` to
     * `prefix + uid` in update mode, else shorten under `prefix + uid`; the
     * short URL when there is one, the long URL otherwise.
     */
    method GenerateUrl(p: BookingEventPayload, token: string, isUpdate: bool, prefix: string, net: Net) returns (url: string)
      modifies shortener`links, shortener`requests
      ensures var oldId := OldExternalId(prefix, p.rescheduleUid, p.uid);
        && url == FinalUrl(LinkAnswer(shortener, old(shortener.links), isUpdate, oldId, net), LongUrl(settings, p.uid, token))
        && shortener.requests == old(shortener.requests)
             + LinkRequests(shortener, isUpdate, LongUrl(settings, p.uid, token), Expiration(p.endTime), oldId, ExternalId(prefix, p.uid))
        && shortener.links == LinksAfter(shortener, old(shortener.links), isUpdate, LongUrl(settings, p.uid, token),
             Expiration(p.endTime), oldId, ExternalId(prefix, p.uid), net)
    {
      var longUrl := LongUrl(settings, p.uid, token);
      var expiresAt := Expiration(p.endTime);
      var short: Option<string>;
      if isUpdate {
        var oldId := OldExternalId(prefix, p.rescheduleUid, p.uid);
        short := shortener.UpdateUrlData(longUrl, expiresAt, oldId, ExternalId(prefix, p.uid), net);
      } else {
        short := shortener.CreateUrl(longUrl, expiresAt, ExternalId(prefix, p.uid), net);
      }
      url := FinalUrl(short, longUrl);
    }

    /** `_ensure_metadata_sync`: up to `MetadataWaitAttempts` (one) metadata reads, stopping at a synced one; the sleep is not modelled. */
    method EnsureMetadataSync(uid: string)
      modifies store`ops
      ensures store.ops == old(store.ops) + [ReadMetadata(uid)]
    {
      for attempt := 0 to MetadataWaitAttempts
        invariant store.ops == old(store.ops) + seq(attempt, _ => ReadMetadata(uid))
      {
        var m := store.GetBookingMetadata(uid);
        if m.Some? {
          return;
        }
      }
    }

    /**
     * `setup_meeting`: generate the link; when persisting, read the metadata
     * once and then write the link into it unconditionally.
     */
    method SetupMeeting(p: BookingEventPayload, participantName: string, isUpdateUrlData: bool,
                        isUpdateUrlInDb: bool, prefix: string, now: int, net: Net) returns (url: string)
      modifies shortener`links, shortener`requests, store`rows, store`ops
      ensures var token := settings.sign(ServiceClaims(settings, p, participantName, now));
        var oldId := OldExternalId(prefix, p.rescheduleUid, p.uid);
        && url == FinalUrl(LinkAnswer(shortener, old(shortener.links), isUpdateUrlData, oldId, net), LongUrl(settings, p.uid, token))
        && shortener.requests == old(shortener.requests)
             + LinkRequests(shortener, isUpdateUrlData, LongUrl(settings, p.uid, token), Expiration(p.endTime), oldId, ExternalId(prefix, p.uid))
        && shortener.links == LinksAfter(shortener, old(shortener.links), isUpdateUrlData, LongUrl(settings, p.uid, token),
             Expiration(p.endTime), oldId, ExternalId(prefix, p.uid), net)
      ensures isUpdateUrlInDb ==>
        && store.ops == old(store.ops) + [ReadMetadata(p.uid), WriteVideoUrl(p.uid, url)]
        && store.rows == WithVideoUrl(old(store.rows), p.uid, url)
      ensures !isUpdateUrlInDb ==> store.ops == old(store.ops) && store.rows == old(store.rows)
    {
      var token := settings.sign(ServiceClaims(settings, p, participantName, now));
      url := GenerateUrl(p, token, isUpdateUrlData, prefix, net);
      if isUpdateUrlInDb {
        EnsureMetadataSync(p.uid);
        store.UpdateBookingVideoUrl(p.uid, url);
      }
    }

    /** `delete_meeting`: delete the link `prefix + uid` and nothing else. */
    method DeleteMeeting(p: BookingEventPayload, prefix: string, net: Net)
      modifies shortener`links, shortener`requests
      ensures shortener.requests == old(shortener.requests)
        + (if shortener.HasApiKey() then [Remove(ExternalEndpoint(shortener.baseUrl, ExternalId(prefix, p.uid)))] else [])
      ensures shortener.links == if shortener.HasApiKey() && net.reachable
        then old(shortener.links) - {ExternalId(prefix, p.uid)} else old(shortener.links)
    {
      var _ := shortener.DeleteUrl(ExternalId(prefix, p.uid), net);
    }
  }
}
