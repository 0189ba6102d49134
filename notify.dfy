/**
 * The pure parts both notification variants share
 * (app/controllers/notification.py, app/services/notification.py): the
 * email template table, the participant's local time, the integer duration
 * and the email template context.
 */
module Notify {
  import opened Wrappers
  import opened Text
  import opened Dtos

  /** A Jinja template file and the subject of the email rendered from it. */
  datatype EmailTemplate = EmailTemplate(name: string, subject: string)

  /** The time-zone functions: `strftime` of a time in a zone, and babel's city name for a zone. */
  datatype Clock = Clock(format: (int, string) -> string, city: string -> string)

  /** A value of the template context: a string or Python `None`. */
  datatype Value = Str(s: string) | Null

  /** What a notify call ends with: it completed, or an exception escaped it. */
  datatype Outcome = Completed | Raised(error: string)

  /**
   * An organizer's Telegram message, as the values interpolated into it
   * (the exact wording and HTML are not modelled). `bookingLink` points at
   * the booking page; a message with a `meetingUrl` links the meeting.
   */
  datatype TelegramText =
    | CreatedText(organizerTime: string, city: string, meetingUrl: Option<string>, bookingLink: string)
    | RescheduledText(previousTime: string, organizerTime: string, city: string, meetingUrl: Option<string>, bookingLink: string)
    | CancelledText(organizerTime: string, city: string, bookingLink: string)
    | ClientJoinedText(organizerTime: string, meetingUrl: Option<string>, bookingLink: string)

  /** A message that left the bot: a Telegram message or a rendered email. */
  datatype Delivery =
    | Telegram(chatId: int, text: TelegramText)
    | Email(to: string, subject: string, template: string, context: map<string, Value>)

  /**
   * `_send_email_notification` when the send succeeds: one email rendered
   * from the (role, event) template, or nothing when there is no template.
   */
  function EmailPlan(recipient: string, role: string, ev: TriggerEvent, ctx: map<string, Value>): (plan: seq<Delivery>)
    ensures plan == [] <==> EmailTemplateFor(role, ev).None?
    ensures |plan| <= 1 && forall d :: d in plan ==> d.Email? && d.to == recipient && d.context == ctx
    ensures plan != [] ==> plan[0].subject == EmailTemplateFor(role, ev).value.subject && plan[0].template == EmailTemplateFor(role, ev).value.name
  {
    match EmailTemplateFor(role, ev)
    case None => []
    case Some(t) => [Email(recipient, t.subject, t.name, ctx)]
  }

  /**
   * `notify_organizer_telegram`'s message, if one is sent: none without a
   * (truthy) chat id or without a text for the event.
   */
  function TelegramPlan(chatId: Option<int>, text: Option<TelegramText>): (plan: seq<Delivery>)
    ensures plan != [] <==> chatId.Some? && chatId.value != 0 && text.Some?
    ensures plan != [] ==> plan == [Telegram(chatId.value, text.value)]
  {
    if chatId.None? || chatId.value == 0 then [] else if text.None? then [] else [Telegram(chatId.value, text.value)]
  }

  function OptValue(o: Option<string>): (v: Value)
    ensures o.None? <==> v.Null?
    ensures o.Some? ==> v == Str(o.value)
  {
    if o.Some? then Str(o.value) else Null
  }

  /** A template file under the role's directory. */
  function TemplatePath(role: string, file: string): (path: string)
    requires |file| > 0
    ensures |path| > |role| && path[..|role| + 1] == role + "/"
  {
    var path := role + "/" + file;
    assert path[..|role| + 1] == role + "/";
    path
  }

  /** `EMAIL_TEMPLATES.get(role, {}).get(trigger_event)`. */
  function EmailTemplateFor(role: string, ev: TriggerEvent): (t: Option<EmailTemplate>)
    ensures t.Some? ==> role == "organizer" || role == "client"
    ensures t.Some? ==> |t.value.name| > |role| && t.value.name[..|role| + 1] == role + "/"
    ensures role == "organizer" ==> (t.Some? <==> ev in {BookingCreated, BookingRescheduled, BookingCancelled})
    ensures role == "client" ==> (t.Some? <==> ev in {BookingCreated, BookingRescheduled, BookingCancelled, BookingReminder})
  {
    if role == "organizer" then
      match ev
      case BookingCreated => Some(EmailTemplate(TemplatePath(role, "confirmation.html"), "✅Новая запись"))
      case BookingRescheduled => Some(EmailTemplate(TemplatePath(role, "reschedule.html"), "↻Встреча перенесена"))
      case BookingCancelled => Some(EmailTemplate(TemplatePath(role, "cancellation.html"), "❌Встреча отменена"))
      case _ => None
    else if role == "client" then
      match ev
      case BookingCreated => Some(EmailTemplate(TemplatePath(role, "confirmation.html"), "✅Новая запись"))
      case BookingRescheduled => Some(EmailTemplate(TemplatePath(role, "reschedule.html"), "↻Встреча перенесена"))
      case BookingCancelled => Some(EmailTemplate(TemplatePath(role, "cancellation.html"), "❌Ваша встреча отменена"))
      case BookingReminder => Some(EmailTemplate(TemplatePath(role, "reminder.html"), "📝Напоминание о встречи с волонтером"))
      case _ => None
    else None
  }

  /** `_get_participant_time`: the start in the participant's zone, `""` without a start. */
  function ParticipantTime(clock: Clock, timeZone: string, startTime: Option<int>): (t: string)
    ensures startTime.None? ==> t == ""
    ensures startTime.Some? ==> t == clock.format(startTime.value, timeZone)
  {
    if startTime.None? then "" else clock.format(startTime.value, timeZone)
  }

  /** The start of the booking this one was moved from, if any. */
  function PreviousStart(b: Booking): Option<int> {
    if b.previousBooking.Some? then Some(b.previousBooking.value.startTime) else None
  }

  /** Python's `int(x / 60)`: division truncating toward zero. */
  function TruncDiv60(x: int): (q: int)
    ensures x >= 0 ==> q >= 0 && q * 60 <= x < q * 60 + 60
    ensures x < 0 ==> q <= 0 && q * 60 - 60 < x <= q * 60
  {
    if x >= 0 then x / 60 else -((-x) / 60)
  }

  /** `_calculate_duration`'s number: whole minutes of the booking less `shift` seconds, truncated toward zero. */
  function DurationMinutes(startTime: int, endTime: int, shift: int): (m: int)
    ensures var d := endTime - startTime - shift;
      && (m == 0 <==> -60 < d < 60)
      && (m > 0 <==> d >= 60)
      && (d >= 0 ==> m * 60 <= d < m * 60 + 60)
      && (d < 0 ==> m * 60 - 60 < d <= m * 60)
  {
    TruncDiv60(endTime - startTime - shift)
  }

  /** `f"{duration_minutes} мин"`: a number followed by the unit. */
  function DurationText(startTime: int, endTime: int, shift: int): (text: string)
    ensures |text| > |" мин"| && text[|text| - |" мин"|..] == " мин"
  {
    IntToString(DurationMinutes(startTime, endTime, shift)) + " мин"
  }

  /**
   * A meeting shorter than the buffer by less than a minute reads as
   * 0 minutes, not -1: Python truncates where Euclidean division floors.
   */
  lemma ShortMeetingTruncates()
    ensures DurationMinutes(0, 570, 600) == 0 && (570 - 600) / 60 == -1
    ensures DurationMinutes(0, 3600, 600) == 50
    ensures DurationMinutes(0, 3600, 300) == 55
  {
  }

  /** `f"{booking_host_url}/booking/{uid}"`. */
  function BookingLink(bookingHostUrl: string, uid: string): string {
    bookingHostUrl + "/booking/" + uid
  }

  /**
   * `_prepare_email_context`: duration, zone city, link, cancellation
   * reason and the caller's extra keys; a rescheduled booking shows the
   * previous start as `start_time` and the new one as
   * `reschedule_start_time`.
   */
  function EmailContext(clock: Clock, shift: int, b: Booking, ev: TriggerEvent, timeZone: string,
                        meetingUrl: Option<string>, additional: map<string, Value>): (ctx: map<string, Value>)
    ensures "duration" in ctx && "time_zone" in ctx && "meeting_url" in ctx
      && "cancellation_reason" in ctx && "start_time" in ctx
  {
    var base := map[
      "duration" := Str(DurationText(b.startTime, b.endTime, shift)),
      "time_zone" := Str(clock.city(timeZone)),
      "meeting_url" := OptValue(meetingUrl),
      "cancellation_reason" := OptValue(b.cancellationReason)] + additional;
    var current := ParticipantTime(clock, timeZone, Some(b.startTime));
    if ev == BookingRescheduled then
      base["start_time" := Str(ParticipantTime(clock, timeZone, PreviousStart(b)))]["reschedule_start_time" := Str(current)]
    else
      base["start_time" := Str(current)]
  }

  /**
   * The reschedule swap: for BOOKING_RESCHEDULED `start_time` is the
   * previous start (`""` without a previous booking) and
   * `reschedule_start_time` the current one; for any other event
   * `start_time` is the current start. The caller's extra keys survive
   * unless they are one of those two.
   */
  lemma RescheduleSwap(clock: Clock, shift: int, b: Booking, ev: TriggerEvent, timeZone: string,
                       meetingUrl: Option<string>, additional: map<string, Value>)
    ensures var ctx := EmailContext(clock, shift, b, ev, timeZone, meetingUrl, additional);
      var current := Str(clock.format(b.startTime, timeZone));
      && (ev == BookingRescheduled ==>
            && ctx["start_time"] == (if b.previousBooking.None? then Str("")
                                     else Str(clock.format(b.previousBooking.value.startTime, timeZone)))
            && "reschedule_start_time" in ctx && ctx["reschedule_start_time"] == current)
      && (ev != BookingRescheduled ==> ctx["start_time"] == current)
      && (forall k :: k in additional && k != "start_time" && k != "reschedule_start_time" ==>
            k in ctx && ctx[k] == additional[k])
  {
  }

  /** A caller's key other than the two start times passes into the context unchanged. */
  lemma ContextKeeps(clock: Clock, shift: int, b: Booking, ev: TriggerEvent, timeZone: string,
                     meetingUrl: Option<string>, additional: map<string, Value>, k: string)
    requires k in additional && k != "start_time" && k != "reschedule_start_time"
    ensures var ctx := EmailContext(clock, shift, b, ev, timeZone, meetingUrl, additional);
      k in ctx && ctx[k] == additional[k]
  {
    RescheduleSwap(clock, shift, b, ev, timeZone, meetingUrl, additional);
  }

  /** The duration text reads back, before its unit, as the whole minutes it was made from. */
  lemma DurationTextReadsBack(startTime: int, endTime: int, shift: int)
    ensures var text := DurationText(startTime, endTime, shift);
      && |text| > |" мин"|
      && ParseInt(text[..|text| - |" мин"|]) == Some(DurationMinutes(startTime, endTime, shift))
  {
    var m := DurationMinutes(startTime, endTime, shift);
    var text := DurationText(startTime, endTime, shift);
    assert text[..|text| - |" мин"|] == IntToString(m);
    ParseIntOfIntToString(m);
  }

  /** The context names the city of the participant's time zone unless the caller overrides it. */
  lemma ContextZone(clock: Clock, shift: int, b: Booking, ev: TriggerEvent, timeZone: string,
                    meetingUrl: Option<string>, additional: map<string, Value>)
    requires "time_zone" !in additional
    ensures EmailContext(clock, shift, b, ev, timeZone, meetingUrl, additional)["time_zone"]
      == Str(clock.city(timeZone))
  {
  }

  /** The context shows the duration text unless the caller overrides it. */
  lemma ContextDuration(clock: Clock, shift: int, b: Booking, ev: TriggerEvent, timeZone: string,
                        meetingUrl: Option<string>, additional: map<string, Value>)
    requires "duration" !in additional
    ensures EmailContext(clock, shift, b, ev, timeZone, meetingUrl, additional)["duration"]
      == Str(DurationText(b.startTime, b.endTime, shift))
  {
  }
}
