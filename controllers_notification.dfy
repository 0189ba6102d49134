/**
 * `NotificationController` (app/controllers/notification.py): Telegram
 * messages to the organizer and template emails to organizer and client,
 * with a 10-minute buffer taken off the displayed duration.
 */
module ControllersNotification {
  import opened Wrappers
  import opened Text
  import opened Dtos
  import opened Users
  import opened Notify

  /** Seconds taken off a booking's length before it is shown. */
  const Timeshift := 10 * 60

  /**
   * `_get_telegram_notification_text`: a text for BOOKING_CREATED,
   * BOOKING_RESCHEDULED, BOOKING_CANCELLED and MEET_CLIENT_JOINED only.
   */
  function TelegramTextFor(clock: Clock, bookingHostUrl: string, b: Booking, timeZone: string,
                           meetingUrl: Option<string>, ev: TriggerEvent): (t: Option<TelegramText>)
    ensures t.Some? <==> ev in {BookingCreated, BookingRescheduled, BookingCancelled, MeetClientJoined}
    ensures t.Some? ==>
      && t.value.bookingLink == BookingLink(bookingHostUrl, b.uid)
      && t.value.organizerTime == ParticipantTime(clock, timeZone, Some(b.startTime))
    ensures t.Some? && !t.value.CancelledText? ==> t.value.meetingUrl == meetingUrl
    ensures ev == BookingCancelled ==> t.Some? && t.value.CancelledText?
    ensures ev == BookingRescheduled ==>
      && t.Some? && t.value.RescheduledText?
      && t.value.previousTime == ParticipantTime(clock, timeZone, PreviousStart(b))
  {
    var organizerTime := ParticipantTime(clock, timeZone, Some(b.startTime));
    var link := BookingLink(bookingHostUrl, b.uid);
    match ev
    case BookingCreated => Some(CreatedText(organizerTime, clock.city(timeZone), meetingUrl, link))
    case BookingRescheduled =>
      Some(RescheduledText(ParticipantTime(clock, timeZone, PreviousStart(b)), organizerTime, clock.city(timeZone), meetingUrl, link))
    case BookingCancelled => Some(CancelledText(organizerTime, clock.city(timeZone), link))
    case MeetClientJoined => Some(ClientJoinedText(organizerTime, meetingUrl, link))
    case _ => None
  }

  class NotificationController {
    const clock: Clock
    const bookingHostUrl: string
    const supportEmail: string
    /** The users table, read for the organizer's chat id. */
    const users: seq<User>
    /** Every message sent, oldest first. */
    var deliveries: seq<Delivery>

    constructor (clock: Clock, bookingHostUrl: string, supportEmail: string, users: seq<User>)
      ensures this.clock == clock && this.bookingHostUrl == bookingHostUrl
      ensures this.supportEmail == supportEmail && this.users == users && deliveries == []
    {
      this.clock := clock;
      this.bookingHostUrl := bookingHostUrl;
      this.supportEmail := supportEmail;
      this.users := users;
      deliveries := [];
    }

    /**
     * The Telegram message `notify_organizer_telegram` sends: exactly one,
     * to the organizer's chat, when that chat id is present and non-zero
     * and the event has a text.
     */
    function OrganizerTelegram(user: User, b: Booking, ev: TriggerEvent, meetingUrl: Option<string>): (plan: seq<Delivery>)
      ensures var chat := OrganizerChatId(users, user.email);
        && (plan != [] <==> chat.Some? && chat.value != 0 && ev in {BookingCreated, BookingRescheduled, BookingCancelled, MeetClientJoined})
        && (plan != [] ==> |plan| == 1 && plan[0].Telegram? && plan[0].chatId == chat.value)
        && (plan != [] ==> plan[0].text == TelegramTextFor(clock, bookingHostUrl, b, user.timeZone, meetingUrl, ev).value)
    {
      TelegramPlan(OrganizerChatId(users, user.email), TelegramTextFor(clock, bookingHostUrl, b, user.timeZone, meetingUrl, ev))
    }

    /** The organizer's email context: organizer and client names on top of the common keys. */
    function OrganizerContext(organizer: User, b: Booking, ev: TriggerEvent, meetingUrl: Option<string>): (ctx: map<string, Value>)
      requires b.client.Some?
      ensures "organizer_name" in ctx && ctx["organizer_name"] == Str(organizer.name)
      ensures "client_name" in ctx && ctx["client_name"] == Str(b.client.value.name)
      ensures "time_zone" in ctx && ctx["time_zone"] == Str(clock.city(organizer.timeZone))
      ensures "duration" in ctx && ctx["duration"] == Str(DurationText(b.startTime, b.endTime, Timeshift))
    {
      var extra := map["organizer_name" := Str(organizer.name), "client_name" := Str(b.client.value.name)];
      ContextDuration(clock, Timeshift, b, ev, organizer.timeZone, meetingUrl, extra);
      ContextZone(clock, Timeshift, b, ev, organizer.timeZone, meetingUrl, extra);
      ContextKeeps(clock, Timeshift, b, ev, organizer.timeZone, meetingUrl, extra, "organizer_name");
      ContextKeeps(clock, Timeshift, b, ev, organizer.timeZone, meetingUrl, extra, "client_name");
      EmailContext(clock, Timeshift, b, ev, organizer.timeZone, meetingUrl, extra)
    }

    /** The client's email context: name, cancel link and support address on top of the common keys. */
    function ClientContext(b: Booking, ev: TriggerEvent, meetingUrl: Option<string>): (ctx: map<string, Value>)
      requires b.client.Some?
      ensures "client_name" in ctx && ctx["client_name"] == Str(b.client.value.name)
      ensures "cancel_link" in ctx && ctx["cancel_link"] == Str(BookingLink(bookingHostUrl, b.uid))
      ensures "support_email" in ctx && ctx["support_email"] == Str(supportEmail)
      ensures "time_zone" in ctx && ctx["time_zone"] == Str(clock.city(b.client.value.timeZone))
      ensures "duration" in ctx && ctx["duration"] == Str(DurationText(b.startTime, b.endTime, Timeshift))
    {
      var extra := map["client_name" := Str(b.client.value.name),
                       "cancel_link" := Str(BookingLink(bookingHostUrl, b.uid)),
                       "support_email" := Str(supportEmail)];
      ContextDuration(clock, Timeshift, b, ev, b.client.value.timeZone, meetingUrl, extra);
      ContextZone(clock, Timeshift, b, ev, b.client.value.timeZone, meetingUrl, extra);
      ContextKeeps(clock, Timeshift, b, ev, b.client.value.timeZone, meetingUrl, extra, "client_name");
      ContextKeeps(clock, Timeshift, b, ev, b.client.value.timeZone, meetingUrl, extra, "cancel_link");
      ContextKeeps(clock, Timeshift, b, ev, b.client.value.timeZone, meetingUrl, extra, "support_email");
      EmailContext(clock, Timeshift, b, ev, b.client.value.timeZone, meetingUrl, extra)
    }

    /**
     * `notify_organizer_telegram`: look up the chat id, build the text, send
     * it. A failing send (`sendFails`) raises out of the call.
     */
    method NotifyOrganizerTelegram(user: User, b: Booking, ev: TriggerEvent, meetingUrl: Option<string>, sendFails: bool)
      returns (r: Outcome)
      modifies this`deliveries
      ensures var plan := OrganizerTelegram(user, b, ev, meetingUrl);
        && (r.Raised? <==> plan != [] && sendFails)
        && deliveries == old(deliveries) + (if sendFails then [] else plan)
    {
      var chatId := OrganizerChatId(users, user.email);
      if chatId.None? || chatId.value == 0 {
        return Completed;
      }
      var text := TelegramTextFor(clock, bookingHostUrl, b, user.timeZone, meetingUrl, ev);
      if text.Some? {
        if sendFails {
          return Raised("send_message failed");
        }
        deliveries := deliveries + [Telegram(chatId.value, text.value)];
      }
      r := Completed;
    }

    /**
     * `_send_email_notification`: skip without a template; rendering and
     * sending errors (`sendFails`) are logged and swallowed.
     */
    method SendEmailNotification(recipient: string, role: string, ev: TriggerEvent, ctx: map<string, Value>, sendFails: bool)
      modifies this`deliveries
      ensures deliveries == old(deliveries) + (if sendFails then [] else EmailPlan(recipient, role, ev, ctx))
    {
      var template := EmailTemplateFor(role, ev);
      if template.None? {
        return;
      }
      if !sendFails {
        deliveries := deliveries + [Email(recipient, template.value.subject, template.value.name, ctx)];
      }
    }

    /** `notify_organizer_email`; a booking without a client raises before anything is sent. */
    method NotifyOrganizerEmail(organizer: User, b: Booking, ev: TriggerEvent, meetingUrl: Option<string>, sendFails: bool)
      returns (r: Outcome)
      modifies this`deliveries
      ensures r.Raised? <==> b.client.None?
      ensures r.Raised? ==> deliveries == old(deliveries)
      ensures r.Completed? ==>
        deliveries == old(deliveries) + (if sendFails then [] else EmailPlan(organizer.email, "organizer", ev, OrganizerContext(organizer, b, ev, meetingUrl)))
    {
      if b.client.None? {
        return Raised("AttributeError: client");
      }
      SendEmailNotification(organizer.email, "organizer", ev, OrganizerContext(organizer, b, ev, meetingUrl), sendFails);
      r := Completed;
    }

    /** `notify_organizer`: Telegram first, then email; a Telegram failure stops before the email. */
    method NotifyOrganizer(user: User, b: Booking, ev: TriggerEvent, meetingUrl: Option<string>,
                           telegramFails: bool, emailFails: bool) returns (r: Outcome)
      modifies this`deliveries
      ensures var tg := OrganizerTelegram(user, b, ev, meetingUrl);
        if tg != [] && telegramFails then r.Raised? && deliveries == old(deliveries)
        else
          && (r.Raised? <==> b.client.None?)
          && deliveries == old(deliveries) + (if telegramFails then [] else tg)
               + (if b.client.None? || emailFails then []
                  else EmailPlan(user.email, "organizer", ev, OrganizerContext(user, b, ev, meetingUrl)))
    {
      r := NotifyOrganizerTelegram(user, b, ev, meetingUrl, telegramFails);
      if r.Raised? {
        return;
      }
      r := NotifyOrganizerEmail(user, b, ev, meetingUrl, emailFails);
    }

    /** `notify_client_email`; a booking without a client raises before anything is sent. */
    method NotifyClientEmail(b: Booking, ev: TriggerEvent, meetingUrl: Option<string>, sendFails: bool) returns (r: Outcome)
      modifies this`deliveries
      ensures r.Raised? <==> b.client.None?
      ensures r.Raised? ==> deliveries == old(deliveries)
      ensures r.Completed? ==>
        deliveries == old(deliveries) + (if sendFails then [] else EmailPlan(b.client.value.email, "client", ev, ClientContext(b, ev, meetingUrl)))
    {
      if b.client.None? {
        return Raised("AttributeError: client");
      }
      SendEmailNotification(b.client.value.email, "client", ev, ClientContext(b, ev, meetingUrl), sendFails);
      r := Completed;
    }

    /** `notify_client`: email only, never Telegram. */
    method NotifyClient(b: Booking, ev: TriggerEvent, meetingUrl: Option<string>, sendFails: bool) returns (r: Outcome)
      modifies this`deliveries
      ensures r.Raised? <==> b.client.None?
      ensures r.Raised? ==> deliveries == old(deliveries)
      ensures r.Completed? ==>
        deliveries == old(deliveries) + (if sendFails then [] else EmailPlan(b.client.value.email, "client", ev, ClientContext(b, ev, meetingUrl)))
      ensures forall i :: |old(deliveries)| <= i < |deliveries| ==> deliveries[i].Email?
    {
      r := NotifyClientEmail(b, ev, meetingUrl, sendFails);
    }
  }
}
