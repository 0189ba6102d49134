/**
 * The records exchanged between the webhook endpoints, the controllers and
 * the store (app/dtos.py). Times are integer epoch seconds.
 */
module Dtos {
  import opened Wrappers

  /** The booking and meeting events the bot reacts to. */
  datatype TriggerEvent =
    | BookingCreated
    | BookingRescheduled
    | BookingCancelled
    | BookingPaymentInitiated
    | BookingReminder
    | Ping
    | MeetClientJoined
  {
    /** The enum's string value. */
    function Name(): string {
      match this
      case BookingCreated => "BOOKING_CREATED"
      case BookingRescheduled => "BOOKING_RESCHEDULED"
      case BookingCancelled => "BOOKING_CANCELLED"
      case BookingPaymentInitiated => "BOOKING_PAYMENT_INITIATED"
      case BookingReminder => "BOOKING_REMINDER"
      case Ping => "PING"
      case MeetClientJoined => "MEET_CLIENT_JOINED"
    }
  }

  /** An attendee, organizer or client: the three DTOs share these fields. */
  datatype Contact = Contact(name: string, email: string, timeZone: string)

  /** The payload of a booking webhook. */
  datatype BookingEventPayload = BookingEventPayload(
    attendees: seq<Contact>,
    endTime: int,
    organizer: Contact,
    startTime: int,
    title: string,
    uid: string,
    description: Option<string>,
    cancellationReason: Option<string>,
    newOrganizerEmail: Option<string>,
    rescheduleEndTime: Option<int>,
    rescheduleStartTime: Option<int>,
    rescheduleUid: Option<string>)

  datatype BookingEvent = BookingEvent(payload: BookingEventPayload, triggerEvent: TriggerEvent)

  /** A row of the users table. */
  datatype User = User(
    id: int,
    name: string,
    email: string,
    locked: bool,
    timeZone: string,
    telegramChatId: Option<int>,
    telegramToken: Option<string>)

  /** The booking metadata column, a JSON object of strings. */
  type Metadata = map<string, string>

  /** The fields of a stored booking that the core reads. */
  datatype Booking = Booking(
    uid: string,
    title: string,
    startTime: int,
    endTime: int,
    cancellationReason: Option<string>,
    fromReschedule: Option<string>,
    previousBooking: Option<Booking>,
    metadata: Option<Metadata>,
    user: Option<User>,
    client: Option<Contact>)

  datatype MeetWebhookEventType = HandleApiReady | VideoConferenceJoined | VideoConferenceLeft

  /** The fields of a mail-server webhook that the core reads. */
  datatype MailWebhookEvent = MailWebhookEvent(messageId: int, to: string, status: string, output: string)
}
