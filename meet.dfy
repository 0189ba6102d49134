/**
 * `MeetController` (app/controllers/meet.py): the older copy of the
 * meeting webhook. It decides exactly as `MeetWebhook.Decide` does but
 * notifies through `NotificationService`, which has no text for a client
 * joining, so the organizer is never told while the room is still marked.
 */
module Meet {
  import opened Wrappers
  import opened Dtos
  import opened KeyValue
  import opened Notify
  import opened MeetWebhook
  import ServicesNotification

  class MeetController {
    /** `db.get_booking`, by uid. */
    const bookings: map<string, Booking>
    const redis: KeyValueStore
    const notifier: ServicesNotification.NotificationService

    constructor (bookings: map<string, Booking>, redis: KeyValueStore, notifier: ServicesNotification.NotificationService)
      ensures this.bookings == bookings && this.redis == redis && this.notifier == notifier
    {
      this.bookings := bookings;
      this.redis := redis;
      this.notifier := notifier;
    }

    /**
     * `handle_webhook`: the same decision and marking as the newer
     * controller; the notification call raises only for a booking without
     * a user, and sends nothing.
     */
    method HandleWebhook(ev: MeetEvent, now: int) returns (r: Outcome)
      modifies redis`entries, notifier`deliveries
      ensures var a := Decide(old(redis.entries), bookings, ev, now);
        && (r.Raised? <==> a.Fail? || (a.Notify? && a.booking.user.None?))
        && redis.entries == After(old(redis.entries), a, now, r.Completed?)
        && notifier.deliveries == old(notifier.deliveries)
    {
      var a := Decide(redis.entries, bookings, ev, now);
      if a.Fail? {
        return Raised(a.error);
      }
      if !a.Notify? {
        return Completed;
      }
      if a.booking.user.None? {
        return Raised("AttributeError: user");
      }
      r := notifier.NotifyOrganizerTelegram(a.booking.user.value, a.booking, MeetClientJoined, a.meetingUrl, false);
      redis.Set(NotifiedKey(a.room), "1", Some(NotifiedTtl), now);
    }
  }
}
