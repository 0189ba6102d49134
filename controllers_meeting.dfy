/**
 * `MeetingController` (app/controllers/meeting.py): the newer meeting-link
 * manager. Its token carries a role, its long URL carries a video and a
 * chat token, and it reads whole bookings instead of their metadata.
 */
module ControllersMeeting {
  import opened Wrappers
  import opened Text
  import opened Dtos
  import opened Shortener
  import opened BookingStore
  import opened MeetingLinks

  /** The role a link grants: the client's link is the prefixed one. */
  function Role(prefix: string): (role: string)
    ensures role == "organizer" <==> !Truthy(prefix)
    ensures role == "client" <==> Truthy(prefix)
  {
    if Truthy(prefix) then "client" else "organizer"
  }

  /** `_create_jitsi_token`'s claims: name and role. */
  function ControllerClaims(s: MeetingSettings, b: Booking, name: string, prefix: string, now: int): (c: Claims)
    ensures c.role == Some(Role(prefix)) && c.userName == name && c.room == b.uid
    ensures c.nbf == b.startTime - Timeshift && c.exp == Expiration(b.endTime)
  {
    TokenClaims(s, b.uid, b.startTime, b.endTime, name, now, Some(Role(prefix)))
  }

  /** `f"{meeting_host_url}/{uid}?jwt_video={video}&jwt_chat={chat}"`. */
  function LongUrl(s: MeetingSettings, uid: string, video: string, chat: string): (url: string)
    ensures var head := s.meetingHostUrl + "/" + uid + "?jwt_video=";
      var tail := "&jwt_chat=" + chat;
      && |url| == |head| + |video| + |tail|
      && url[..|head|] == head && url[|head|..|head| + |video|] == video && url[|head| + |video|..] == tail
  {
    s.meetingHostUrl + "/" + uid + "?jwt_video=" + video + "&jwt_chat=" + chat
  }

  /** `booking and booking.metadata and str(booking.metadata) != "{}"`. */
  predicate BookingSynced(b: Option<Option<Metadata>>) {
    b.Some? && Synced(b.value)
  }

  class MeetingController {
    const settings: MeetingSettings
    /** `chat_controller.create_token(user_id, name, expires_at)`; the chat token is given the link's expiry. */
    const createChatToken: (string, string, int) -> string
    const shortener: UrlShortener
    const store: Store

    constructor (settings: MeetingSettings, createChatToken: (string, string, int) -> string, shortener: UrlShortener, store: Store)
      ensures this.settings == settings && this.createChatToken == createChatToken
      ensures this.shortener == shortener && this.store == store
    {
      this.settings := settings;
      this.createChatToken := createChatToken;
      this.shortener := shortener;
      this.store := store;
    }

    /**
     * `_generate_url`: repoint `prefix + (from_reschedule or uid)` to
     * `prefix + uid` in update mode, else shorten under `prefix + uid`.
     */
    method GenerateUrl(b: Booking, video: string, chat: string, isUpdate: bool, prefix: string, net: Net) returns (url: string)
      modifies shortener`links, shortener`requests
      ensures var oldId := OldExternalId(prefix, b.fromReschedule, b.uid);
        var long := LongUrl(settings, b.uid, video, chat);
        && url == FinalUrl(LinkAnswer(shortener, old(shortener.links), isUpdate, oldId, net), long)
        && shortener.requests == old(shortener.requests)
             + LinkRequests(shortener, isUpdate, long, Expiration(b.endTime), oldId, ExternalId(prefix, b.uid))
        && shortener.links == LinksAfter(shortener, old(shortener.links), isUpdate, long,
             Expiration(b.endTime), oldId, ExternalId(prefix, b.uid), net)
    {
      var longUrl := LongUrl(settings, b.uid, video, chat);
      var expiresAt := Expiration(b.endTime);
      var short: Option<string>;
      if isUpdate {
        var oldId := OldExternalId(prefix, b.fromReschedule, b.uid);
        short := shortener.UpdateUrlData(longUrl, expiresAt, oldId, ExternalId(prefix, b.uid), net);
      } else {
        short := shortener.CreateUrl(longUrl, expiresAt, ExternalId(prefix, b.uid), net);
      }
      url := FinalUrl(short, longUrl);
    }

    /** `_ensure_metadata_sync`: up to `MetadataWaitAttempts` (one) booking reads, stopping at a synced one; the sleep is not modelled. */
    method EnsureMetadataSync(uid: string)
      modifies store`ops
      ensures store.ops == old(store.ops) + [ReadBooking(uid)]
    {
      for attempt := 0 to MetadataWaitAttempts
        invariant store.ops == old(store.ops) + seq(attempt, _ => ReadBooking(uid))
      {
        var b := store.GetBooking(uid);
        if BookingSynced(b) {
          return;
        }
      }
    }

    /**
     * `create_meeting_url`: tokens, link, and when persisting one booking
     * read followed by an unconditional write of the returned link.
     */
    method CreateMeetingUrl(b: Booking, participantId: string, participantName: string, isUpdateUrlData: bool,
                            isUpdateUrlInDb: bool, prefix: string, now: int, net: Net) returns (url: string)
      modifies shortener`links, shortener`requests, store`rows, store`ops
      ensures var oldId := OldExternalId(prefix, b.fromReschedule, b.uid);
        var long := LongUrl(settings, b.uid, settings.sign(ControllerClaims(settings, b, participantName, prefix, now)), createChatToken(participantId, participantName, Expiration(b.endTime)));
        && url == FinalUrl(LinkAnswer(shortener, old(shortener.links), isUpdateUrlData, oldId, net), long)
        && shortener.requests == old(shortener.requests)
             + LinkRequests(shortener, isUpdateUrlData, long, Expiration(b.endTime), oldId, ExternalId(prefix, b.uid))
        && shortener.links == LinksAfter(shortener, old(shortener.links), isUpdateUrlData, long,
             Expiration(b.endTime), oldId, ExternalId(prefix, b.uid), net)
      ensures isUpdateUrlInDb ==>
        && store.ops == old(store.ops) + [ReadBooking(b.uid), WriteVideoUrl(b.uid, url)]
        && store.rows == WithVideoUrl(old(store.rows), b.uid, url)
      ensures !isUpdateUrlInDb ==> store.ops == old(store.ops) && store.rows == old(store.rows)
    {
      var video := settings.sign(ControllerClaims(settings, b, participantName, prefix, now));
      var chat := createChatToken(participantId, participantName, Expiration(b.endTime));
      url := GenerateUrl(b, video, chat, isUpdateUrlData, prefix, net);
      if isUpdateUrlInDb {
        EnsureMetadataSync(b.uid);
        store.UpdateBookingVideoUrl(b.uid, url);
      }
    }

    /** `get_meeting_url`: look up `prefix + uid`. */
    method GetMeetingUrl(b: Booking, prefix: string, net: Net) returns (r: Option<string>)
      modifies shortener`requests
      ensures r == if shortener.HasApiKey() && net.reachable
        then Resolve(shortener.links, shortener.baseUrl, ExternalId(prefix, b.uid)) else None
      ensures shortener.requests == old(shortener.requests)
        + (if shortener.HasApiKey() then [Lookup(ExternalEndpoint(shortener.baseUrl, ExternalId(prefix, b.uid)))] else [])
    {
      r := shortener.GetUrl(ExternalId(prefix, b.uid), net);
    }

    /** `delete_meeting_url`: delete `prefix + uid` and nothing else. */
    method DeleteMeetingUrl(b: Booking, prefix: string, net: Net)
      modifies shortener`links, shortener`requests
      ensures shortener.requests == old(shortener.requests)
        + (if shortener.HasApiKey() then [Remove(ExternalEndpoint(shortener.baseUrl, ExternalId(prefix, b.uid)))] else [])
      ensures shortener.links == if shortener.HasApiKey() && net.reachable
        then old(shortener.links) - {ExternalId(prefix, b.uid)} else old(shortener.links)
    {
      var _ := shortener.DeleteUrl(ExternalId(prefix, b.uid), net);
    }
  }
}
