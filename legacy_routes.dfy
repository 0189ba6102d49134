/**
 * The HTTP endpoints of app/routes.py: the booking webhook that forwards
 * a one-line notification to the organizer's Telegram chat, and the
 * Telegram webhook's secret-token check.
 */
module LegacyRoutes {
  import opened Wrappers
  import opened Text
  import opened Dtos
  import Users

  /** The three trigger events the endpoint's request model accepts. */
  datatype LegacyTrigger = Created | Rescheduled | Cancelled {
    function Name(): string {
      match this
      case Created => "BOOKING_CREATED"
      case Rescheduled => "BOOKING_RESCHEDULED"
      case Cancelled => "BOOKING_CANCELLED"
    }
  }

  /** The fields of the request the endpoint reads; `startTime` is the ISO text of the payload. */
  datatype LegacyEvent = LegacyEvent(
    trigger: LegacyTrigger,
    bookingId: int,
    title: string,
    startTime: string,
    endTime: string,
    organizerEmail: string,
    organizerTimeZone: string,
    description: Option<string>)

  /**
   * `get_notification_text`: a template per known event name, embedding
   * the title and the organizer's local time; any other name gives "".
   */
  function NotificationText(trigger: string, title: string, time: string): (t: string)
    ensures trigger !in {"BOOKING_CREATED", "BOOKING_RESCHEDULED", "BOOKING_CANCELLED"} ==> t == ""
  {
    if trigger == "BOOKING_CREATED" then "Создано бронирование " + title + " на " + time
    else if trigger == "BOOKING_RESCHEDULED" then "Бронирование " + title + " перенесено на " + time
    else if trigger == "BOOKING_CANCELLED" then "Бронирование " + title + " на " + time + " отменено"
    else ""
  }

  /**
   * For every event the request model lets through the text is
   * non-empty and carries the title and the time, so the "" fallback is
   * never reached from the endpoint.
   */
  lemma ValidatedTriggerHasText(trigger: LegacyTrigger, title: string, time: string)
    ensures var t := NotificationText(trigger.Name(), title, time);
      && Truthy(t)
      && Contains(t, title)
      && Contains(t, time)
  {
    var t := NotificationText(trigger.Name(), title, time);
    match trigger
    case Created =>
      var p := "Создано бронирование ";
      assert PartAt(t, title, |p|);
      assert PartAt(t, time, |p| + |title| + |" на "|);
    case Rescheduled =>
      var p := "Бронирование ";
      assert PartAt(t, title, |p|);
      assert PartAt(t, time, |p| + |title| + |" перенесено на "|);
    case Cancelled =>
      var p := "Бронирование ";
      assert PartAt(t, title, |p|);
      assert PartAt(t, time, |p| + |title| + |" на "|);
  }

  /**
   * The message the endpoint sends once the signature has passed: none
   * without a truthy chat id for the organizer, none for an empty text,
   * else the text to that chat. `localTime` is the time-zone conversion
   * and formatting of the start time.
   */
  function BookingMessage(users: seq<User>, e: LegacyEvent, localTime: (string, string) -> string): (m: Option<(int, string)>)
    ensures m.Some? ==> Users.OrganizerChatId(users, e.organizerEmail) == Some(m.value.0) && m.value.0 != 0
  {
    var chat := Users.OrganizerChatId(users, e.organizerEmail);
    if chat.None? || chat.value == 0 then None
    else
      var text := NotificationText(e.trigger.Name(), e.title, localTime(e.organizerTimeZone, e.startTime));
      if Truthy(text) then Some((chat.value, text)) else None
  }

  /** A message goes out exactly when the organizer has a truthy chat id; it names the booking's title. */
  lemma BookingMessageIff(users: seq<User>, e: LegacyEvent, localTime: (string, string) -> string)
    ensures BookingMessage(users, e, localTime).Some? <==>
      Users.OrganizerChatId(users, e.organizerEmail).Some? && Users.OrganizerChatId(users, e.organizerEmail).value != 0
    ensures BookingMessage(users, e, localTime).Some? ==> Contains(BookingMessage(users, e, localTime).value.1, e.title)
  {
    ValidatedTriggerHasText(e.trigger, e.title, localTime(e.organizerTimeZone, e.startTime));
  }

  datatype Reply = Forbidden | Done | SendFailed

  /** `bot_webhook`'s check: a missing or different secret-token header is refused. */
  function WebhookAccepts(header: Option<string>, secret: string): (ok: bool)
    ensures ok <==> header == Some(secret)
  {
    header.Some? && header.value == secret
  }

  class LegacyApp {
    const debug: bool
    /** The users table the chat id is read from. */
    const users: seq<User>
    /** Every Telegram message delivered, as (chat id, text). */
    var sent: seq<(int, string)>

    constructor (debugMode: bool, table: seq<User>)
      ensures debug == debugMode && users == table && sent == []
    {
      debug := debugMode;
      users := table;
      sent := [];
    }

    /**
     * The `/booking` endpoint: outside debug mode a bad signature is
     * refused with 403 before any lookup; otherwise the organizer's
     * message, if any, is sent, and a failing send propagates.
     */
    method Booking(e: LegacyEvent, signatureValid: bool, localTime: (string, string) -> string, sendFails: bool) returns (r: Reply)
      modifies this`sent
      ensures r == Forbidden <==> !debug && !signatureValid
      ensures r == SendFailed <==> (debug || signatureValid) && BookingMessage(users, e, localTime).Some? && sendFails
      ensures sent == old(sent) + (if r == Done && BookingMessage(users, e, localTime).Some? then [BookingMessage(users, e, localTime).value] else [])
    {
      if !debug && !signatureValid {
        return Forbidden;
      }
      var chat := Users.OrganizerChatId(users, e.organizerEmail);
      if chat.None? || chat.value == 0 {
        return Done;
      }
      var text := NotificationText(e.trigger.Name(), e.title, localTime(e.organizerTimeZone, e.startTime));
      if Truthy(text) {
        if sendFails {
          return SendFailed;
        }
        sent := sent + [(chat.value, text)];
      }
      r := Done;
    }
  }
}
