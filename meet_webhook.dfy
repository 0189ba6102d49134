/**
 * `MeetWebhookController` (app/controllers/meet_webhook.py): when a client
 * joins the Jitsi room, tell the organizer once, remembering for two hours
 * under `meet_notified:{room}` that it was done.
 */
module MeetWebhook {
  import opened Wrappers
  import opened Text
  import opened Dtos
  import opened KeyValue
  import opened Notify
  import ControllersNotification

  /** How long a room stays marked as notified, in seconds. */
  const NotifiedTtl := 60 * 60 * 2

  function NotifiedKey(room: string): string {
    "meet_notified:" + room
  }

  lemma NotifiedKeyInjective(a: string, b: string)
    ensures NotifiedKey(a) == NotifiedKey(b) ==> a == b
  {
    if NotifiedKey(a) == NotifiedKey(b) {
      assert a == NotifiedKey(a)[|"meet_notified:"|..];
      assert b == NotifiedKey(b)[|"meet_notified:"|..];
    }
  }

  /**
   * The claims of the meeting token, decoded without verification. A
   * missing context or user gives role `None`.
   */
  datatype MeetClaims = MeetClaims(room: Option<string>, role: Option<string>)

  /** A meeting webhook; `claims` is `None` when the token does not decode. */
  datatype MeetEvent = MeetEvent(eventType: MeetWebhookEventType, claims: Option<MeetClaims>)

  /** What the handler decides to do with one event, before it notifies. */
  datatype Action =
    | Fail(error: string)
    | Ignore
    | AlreadyNotified(room: string)
    | NoBooking(room: string)
    | Notify(room: string, booking: Booking, meetingUrl: Option<string>)

  /** The only events acted upon: the client joined the conference. */
  predicate ClientJoined(ev: MeetEvent) {
    ev.eventType == VideoConferenceJoined && ev.claims.Some? && ev.claims.value.role == Some("client")
  }

  /** `json.loads(booking.metadata).get("videoCallUrl")`, given present metadata. */
  function VideoCallUrl(m: Metadata): Option<string> {
    if "videoCallUrl" in m then Some(m["videoCallUrl"]) else None
  }

  /**
   * `handle_webhook` up to the notification: decode, read the room (which
   * raises without one, whatever the event), keep only a client joining,
   * skip a room marked as notified, skip an unknown booking, read the
   * link from the metadata (which raises without metadata).
   */
  function Decide(entries: map<string, Entry>, bookings: map<string, Booking>, ev: MeetEvent, now: int): (a: Action)
    ensures a.Notify? || a.AlreadyNotified? || a.NoBooking? ==> ClientJoined(ev)
    ensures a.Notify? ==>
      && a.room in bookings && a.booking == bookings[a.room]
      && (Lookup(entries, NotifiedKey(a.room), now).None? || !Truthy(Lookup(entries, NotifiedKey(a.room), now).value))
    ensures ev.claims.Some? && ev.claims.value.room.None? ==> a.Fail?
    ensures ev.claims.Some? && ev.claims.value.room.Some? && ClientJoined(ev)
      && (Lookup(entries, NotifiedKey(ev.claims.value.room.value), now).None?
          || !Truthy(Lookup(entries, NotifiedKey(ev.claims.value.room.value), now).value))
      && ev.claims.value.room.value in bookings && bookings[ev.claims.value.room.value].metadata.Some?
      ==> a == Notify(ev.claims.value.room.value, bookings[ev.claims.value.room.value],
                      VideoCallUrl(bookings[ev.claims.value.room.value].metadata.value))
  {
    if ev.claims.None? then Fail("jwt.decode")
    else if ev.claims.value.room.None? then Fail("KeyError: room")
    else
      var room := ev.claims.value.room.value;
      if !ClientJoined(ev) then Ignore
      else
        var marked := Lookup(entries, NotifiedKey(room), now);
        if marked.Some? && Truthy(marked.value) then AlreadyNotified(room)
        else if room !in bookings then NoBooking(room)
        else
          var b := bookings[room];
          if b.metadata.None? then Fail("TypeError: json.loads")
          else Notify(room, b, VideoCallUrl(b.metadata.value))
  }

  /** The store after one event: the room is marked only when the notification call returned. */
  function After(entries: map<string, Entry>, a: Action, now: int, notified: bool): map<string, Entry> {
    if a.Notify? && notified then entries[NotifiedKey(a.room) := Written("1", Some(NotifiedTtl), now)] else entries
  }

  /** One webhook delivery: the event, its arrival time, and whether the notification call returns. */
  datatype Call = Call(ev: MeetEvent, now: int, notified: bool)

  /** How many completed notifications a sequence of webhooks produces for `room`. */
  function Notifications(entries: map<string, Entry>, bookings: map<string, Booking>, calls: seq<Call>, room: string): nat
    decreases |calls|
  {
    if |calls| == 0 then 0
    else
      var a := Decide(entries, bookings, calls[0].ev, calls[0].now);
      (if a.Notify? && a.room == room && calls[0].notified then 1 else 0)
        + Notifications(After(entries, a, calls[0].now, calls[0].notified), bookings, calls[1..], room)
  }

  predicate Within(calls: seq<Call>, from: int, until: int) {
    forall i :: 0 <= i < |calls| ==> from <= calls[i].now < until
  }

  /** While the room's mark outlives every call, no call notifies for that room. */
  lemma {:induction false} MarkSuppresses(entries: map<string, Entry>, bookings: map<string, Booking>, calls: seq<Call>,
                                          room: string, start: int)
    requires NotifiedKey(room) in entries
    requires entries[NotifiedKey(room)].value == "1"
    requires entries[NotifiedKey(room)].expiresAt.Some?
    requires entries[NotifiedKey(room)].expiresAt.value >= start + NotifiedTtl
    requires Within(calls, start, start + NotifiedTtl)
    ensures Notifications(entries, bookings, calls, room) == 0
    decreases |calls|
  {
    if |calls| > 0 {
      var a := Decide(entries, bookings, calls[0].ev, calls[0].now);
      var next := After(entries, a, calls[0].now, calls[0].notified);
      if a.Notify? {
        NotifiedKeyInjective(a.room, room);
      }
      assert next[NotifiedKey(room)].expiresAt.value >= start + NotifiedTtl;
      assert Within(calls[1..], start, start + NotifiedTtl);
      MarkSuppresses(next, bookings, calls[1..], room, start);
    }
  }

  /**
   * Within any two-hour window at most one notification reaches the
   * organizer for a room, however the webhooks interleave with other
   * rooms and with failed notification calls.
   */
  lemma {:induction false} AtMostOncePerTtl(entries: map<string, Entry>, bookings: map<string, Booking>, calls: seq<Call>,
                                            room: string, start: int)
    requires Within(calls, start, start + NotifiedTtl)
    ensures Notifications(entries, bookings, calls, room) <= 1
    decreases |calls|
  {
    if |calls| > 0 {
      var a := Decide(entries, bookings, calls[0].ev, calls[0].now);
      var next := After(entries, a, calls[0].now, calls[0].notified);
      assert Within(calls[1..], start, start + NotifiedTtl);
      if a.Notify? && a.room == room && calls[0].notified {
        MarkSuppresses(next, bookings, calls[1..], room, start);
      } else {
        AtMostOncePerTtl(next, bookings, calls[1..], room, start);
      }
    }
  }

  /** Once the mark has expired, a client joining again is announced again. */
  lemma RenotifyAfterExpiry(entries: map<string, Entry>, bookings: map<string, Booking>, ev: MeetEvent, t: int, later: int)
    requires ClientJoined(ev) && ev.claims.value.room.Some?
    requires ev.claims.value.room.value in bookings && bookings[ev.claims.value.room.value].metadata.Some?
    requires later >= t + NotifiedTtl
    ensures var room := ev.claims.value.room.value;
      Decide(entries[NotifiedKey(room) := Written("1", Some(NotifiedTtl), t)], bookings, ev, later).Notify?
  {
  }

  class MeetWebhookController {
    /** `db.get_booking`, by uid. */
    const bookings: map<string, Booking>
    const redis: KeyValueStore
    const notifier: ControllersNotification.NotificationController

    constructor (bookings: map<string, Booking>, redis: KeyValueStore, notifier: ControllersNotification.NotificationController)
      ensures this.bookings == bookings && this.redis == redis && this.notifier == notifier
    {
      this.bookings := bookings;
      this.redis := redis;
      this.notifier := notifier;
    }

    /** The Telegram message `notify_organizer_telegram` sends for action `a`, if it is reached. */
    function Sent(a: Action): seq<Delivery> {
      if a.Notify? && a.booking.user.Some?
      then notifier.OrganizerTelegram(a.booking.user.value, a.booking, MeetClientJoined, a.meetingUrl)
      else []
    }

    /**
     * `handle_webhook`. The notification call raises when the booking has
     * no user or when sending fails (`sendFails`); the room is marked only
     * after it returns.
     */
    method HandleWebhook(ev: MeetEvent, now: int, sendFails: bool) returns (r: Outcome)
      modifies redis`entries, notifier`deliveries
      ensures var a := Decide(old(redis.entries), bookings, ev, now);
        && (r.Raised? <==> a.Fail? || (a.Notify? && (a.booking.user.None? || (Sent(a) != [] && sendFails))))
        && redis.entries == After(old(redis.entries), a, now, r.Completed?)
        && notifier.deliveries == old(notifier.deliveries) + (if sendFails then [] else Sent(a))
    {
      var a := Decide(redis.entries, bookings, ev, now);
      if a.Fail? {
        return Raised(a.error);
      }
      if !a.Notify? {
        return Completed;
      }
      if a.booking.user.None? {
        return Raised("AttributeError: user");
      }
      r := notifier.NotifyOrganizerTelegram(a.booking.user.value, a.booking, MeetClientJoined, a.meetingUrl, sendFails);
      if r.Raised? {
        return;
      }
      redis.Set(NotifiedKey(a.room), "1", Some(NotifiedTtl), now);
    }
  }
}
