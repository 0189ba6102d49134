# calendar-bot, modelled in Dafny

calendar-bot is a Telegram bot and web service that sits next to a
Cal.com-style booking system. This model covers the following parts of it:

- **Booking webhooks.** When a booking is created, rescheduled, reassigned
  (payment initiated) or cancelled, the booking controller sets up or
  deletes the organizer's and the client's Jitsi meeting links. It shortens
  them through an external URL shortener, stores the organizer's link in the
  booking's metadata, and notifies both sides by Telegram and e-mail.
- **Meeting links.** A link is a JWT whose validity window is widened by a
  fixed time shift on both sides. It is shortened under an external id, the
  booking uid with an optional `client_` prefix. A reschedule re-points the
  link registered under the previous booking's id. Whenever the shortener
  gives no answer, the long link is used.
- **Notifications.** The Telegram text and the e-mail template depend on
  the trigger event and the recipient's role. E-mail contexts carry the
  participant's local time, the duration (with the time shift subtracted
  and truncated to minutes), the meeting link and the cancellation reason.
- **E-mail delivery.** A service picks an adapter by the recipient's domain:
  Unisender Go, Postal or SMTP. Each API adapter opens an HTTP client that
  validates and serialises its request model, posts it with up to three
  attempts (only rate-limit and transport errors are retried), and maps
  HTTP statuses to error kinds.
- **Deduplicated webhooks.** Jitsi's "client joined" webhook notifies the
  organizer at most once per two hours per room, using a Redis key with a
  TTL. The mail webhook fans each new message id out to every admin chat,
  once.
- **Telegram commands.** `/start` with a deep-link payload binds a chat to a
  user row after checking the user's token. `/id` and `ping` are also
  covered.
- **GetStream chats.** User ids are encrypted and encoded with base64
  padding removed; chat creation and deletion are tried up to five times.
- **The legacy `/booking` route.** It checks the signature and sends one
  Telegram message.
- **The first-run check.** It compares the stored parent pid with the
  current one.

Every module follows one source file. Mutable objects are classes whose
methods update their fields: the shortener's links, the booking rows, the
Redis entries, the Telegram answers, the sent deliveries and the HTTP
posts. Each method is proved against specification functions, and lemmas
state what the source promises about those functions.

Time, cryptography and remote services enter as parameters:

- Times are integer epoch seconds.
- A `Clock` supplies formatting and time-zone names.
- An `IdCipher` supplies AES plus base64, and a `decode` function supplies
  `decode_payload`.
- A per-attempt `Wire` outcome stands for an HTTP exchange.
- A `Net` value stands for the shortener's reachability and the id it
  assigns.
- Boolean or set-valued oracles say which sends raise.

## Model

| member | source | states |
|---|---|---|
| Users.OrganizerChatId | app/adapters/db.py:12-23 | The chat id of the first unlocked user with that e-mail and a non-NULL chat id; `None` exactly when no row qualifies |
| Users.UserByEmail | app/adapters/db.py:8-10 | The first user row with that e-mail (every earlier row has another e-mail); `None` exactly when there is none |
| BookingStore.WithVideoUrl | app/adapters/db.py:35-43 | The metadata update keeps the set of booking uids, leaves every other uid's metadata unchanged, and changes nothing when the uid has no row |
| BookingStore.VideoUrlKeepsOtherKeys | app/adapters/db.py:35-43 | `COALESCE(metadata,'{}') \|\| {videoCallUrl}` sets `videoCallUrl`, keeps every other key of that row and leaves every other row unchanged |
| BookingStore.Store.GetBookingMetadata | app/adapters/db.py:25-33 | Returns the row's metadata exactly when the row exists and its metadata is truthy, otherwise `None`; logs one read |
| BookingStore.Store.GetBooking | app/controllers/meeting.py:130-135 | The booking row (its metadata) for the uid, `None` for a missing row; logs one read |
| BookingStore.Store.UpdateBookingVideoUrl | app/adapters/db.py:35-43 | The new rows are the COALESCE merge of the old ones; logs one write |
| MeetingLinks.Expiration | app/services/meeting.py:58-59 | A link expires exactly the time shift (300 s) after the meeting ends |
| MeetingLinks.TokenClaims | app/services/meeting.py:61-72 | The token's audience and issuer come from the settings, and it is issued now |
| MeetingLinks.TokenWindow | app/services/meeting.py:61-72 | The JWT claims name the room and the participant, `sub` is `*`; `nbf` is exactly start − 300 s and `exp` exactly end + 300 s, so the window is the meeting widened by the time shift on both sides |
| MeetingLinks.FinalUrl | app/services/meeting.py:102 | The short URL when it is present and non-empty, otherwise the long URL; the result is non-empty whenever the long URL is |
| MeetingLinks.LinkAnswer | app/services/meeting.py:85-100 | A short link is answered only with an API key and a reachable service, and in update mode only for a known old id; in create mode exactly when an ident is also assigned |
| MeetingLinks.OldExternalId | app/services/meeting.py:85-88 | The id to re-point is `prefix + reschedule_uid` when the reschedule uid is truthy, else `prefix + uid` |
| MeetingLinks.FallbackToLongUrl | app/services/meeting.py:74-106 | The short link is missing exactly when there is no API key, the service is unreachable, the old id is unknown or has no ident (update), or no ident is assigned (create); then the long URL is used |
| MeetingLinks.ShortUrlResolves | app/services/meeting.py:74-106 | Whenever a short link is returned, the shortener's new state resolves the new external id to exactly that link |
| Shortener.ShortUrl | app/adapters/shortener.py:33-34 | A short URL exists exactly when the returned ident is truthy, and it starts with the shortener's base URL |
| Shortener.ResolveRegistered | app/adapters/shortener.py:16-37 | After registering a link under an id, that id resolves to its short URL and every other id resolves as before |
| Shortener.ResolveRepointed | app/adapters/shortener.py:55-82 | After re-pointing, the new id resolves to what the old id resolved to, the old id (if different) resolves to nothing, and every other id is unchanged |
| Shortener.UrlShortener.CreateUrl | app/adapters/shortener.py:16-37 | Without an API key nothing is sent and `None` is returned; otherwise one POST is logged, and when reachable the link is registered and the answer resolves to it |
| Shortener.UrlShortener.GetUrl | app/adapters/shortener.py:39-53 | Without an API key `None` and no request; otherwise one lookup, answering the resolved short URL when reachable |
| Shortener.UrlShortener.UpdateUrlData | app/adapters/shortener.py:55-82 | Without an API key nothing is sent; otherwise one PATCH of the old id, which re-points the old link to the new id when it exists, and the answer resolves to it |
| Shortener.UrlShortener.DeleteUrl | app/adapters/shortener.py:84-98 | Always returns `None`; with an API key one DELETE, and when reachable the id no longer resolves |
| ServicesMeeting.ServiceClaims | app/services/meeting.py:61-72 | The service's token carries no role, the participant's name, the booking uid as room, and the widened window |
| ServicesMeeting.LongUrl | app/services/meeting.py:82 | The long URL is the host and the booking uid, then `?jwt=` and the participant's token |
| ServicesMeeting.MeetingService.GenerateUrl | app/services/meeting.py:74-106 | The returned URL is the short link the shortener answers, else the long URL; the shortener's requests and links change by exactly one create or update |
| ServicesMeeting.MeetingService.EnsureMetadataSync | app/services/meeting.py:108-113 | Reads the metadata up to `METADATA_WAIT_ATTEMPTS` (one) times |
| ServicesMeeting.MeetingService.SetupMeeting | app/services/meeting.py:27-48 | Generates the link as above; when the link is to be stored, reads the metadata and then writes `videoCallUrl`, otherwise the store is untouched |
| ServicesMeeting.MeetingService.DeleteMeeting | app/services/meeting.py:50-56 | Deletes the link under `prefix + uid` (one request with an API key, removed when reachable) |
| ControllersMeeting.Role | app/controllers/meeting.py:90 | The token's role is `organizer` exactly for an empty prefix and `client` exactly for a non-empty one |
| ControllersMeeting.ControllerClaims | app/controllers/meeting.py:81-92 | The controller's video token carries the role, the participant's name, the booking uid as room, and the widened window |
| ControllersMeeting.LongUrl | app/controllers/meeting.py:103-106 | The long URL is the host and the booking uid, then the video token after `?jwt_video=`, and it ends with `&jwt_chat=` and the chat token |
| ControllersMeeting.MeetingController.GenerateUrl | app/controllers/meeting.py:94-128 | The returned URL is the short link answered for the long URL with the video and chat tokens, else that long URL; exactly one create or update reaches the shortener |
| ControllersMeeting.MeetingController.EnsureMetadataSync | app/controllers/meeting.py:130-135 | Reads the booking up to `METADATA_WAIT_ATTEMPTS` (one) times |
| ControllersMeeting.MeetingController.CreateMeetingUrl | app/controllers/meeting.py:35-65 | Generates the link from both tokens; stores it in the booking's metadata only when asked, after one booking read |
| ControllersMeeting.MeetingController.GetMeetingUrl | app/controllers/meeting.py:67-68 | Answers what `prefix + uid` resolves to (when reachable and keyed), with one lookup |
| ControllersMeeting.MeetingController.DeleteMeetingUrl | app/controllers/meeting.py:70-76 | Deletes the link under `prefix + uid` |
| Notify.EmailTemplateFor | app/controllers/notification.py:27-39 | Organizers have templates for created, rescheduled and cancelled; clients for those and reminders; each template lives under the role's directory |
| Notify.EmailPlan | app/controllers/notification.py:185-206 | At most one e-mail, to the recipient with the given context, sent exactly when a template exists for the role and event, with that template's subject and file |
| Notify.TelegramPlan | app/controllers/notification.py:127-152 | One Telegram message exactly when the chat id is present and non-zero and there is a text |
| Notify.OptValue | app/controllers/notification.py:154-183 | A missing value becomes JSON null, a present one its string |
| Notify.ParticipantTime | app/controllers/notification.py:62-66 | An absent start time formats as the empty string; otherwise the clock's formatting in the participant's zone |
| Notify.TruncDiv60 | app/controllers/notification.py:68-71 | `int(x / 60)`: truncation toward zero, bounded on both signs |
| Notify.DurationMinutes | app/controllers/notification.py:68-71 | The minute count truncates toward zero: it is 0 exactly when the shortened duration lies within a minute either side of zero, positive exactly from 60 s on, and within a minute of the duration on both signs |
| Notify.DurationText | app/controllers/notification.py:71 | The text is a number followed by ` мин` |
| Notify.ShortMeetingTruncates | app/controllers/notification.py:68-71 | Worked examples of `DurationMinutes`: a meeting 30 s shorter than the shift reads as 0 minutes, not -1; one hour reads 50 min with the controller's shift and 55 with the service's |
| Notify.DurationTextReadsBack | app/controllers/notification.py:68-71 | The text `"<n> мин"` reads back as the truncated minute count |
| Notify.EmailContext | app/controllers/notification.py:154-183 | The context always holds duration, time zone, meeting URL, cancellation reason and start time |
| Notify.RescheduleSwap | app/controllers/notification.py:154-183 | For a reschedule, `start_time` is the previous booking's time and `reschedule_start_time` the new one; otherwise `start_time` is the booking's time; other extra keys pass through |
| Notify.ContextDuration | app/controllers/notification.py:154-183 | The context's duration is the duration text of the booking's start and end |
| Notify.ContextZone | app/controllers/notification.py:154-183 | The context's time zone is the city of the participant's zone |
| ControllersNotification.TelegramTextFor | app/controllers/notification.py:73-125 | A text exists exactly for created, rescheduled, cancelled and client-joined; it links the booking and shows the organizer's time, the previous time for a reschedule, and the meeting URL unless cancelled |
| ControllersNotification.NotificationController.OrganizerTelegram | app/controllers/notification.py:127-152 | The organizer gets a Telegram message exactly when their chat id is present and non-zero and the event has a text (created, rescheduled, cancelled, client joined), and then exactly one, to that chat, carrying the event's text from `TelegramTextFor` |
| ControllersNotification.NotificationController.OrganizerContext | app/controllers/notification.py:208-231 | The organizer's e-mail context names the organizer and the client, uses the organizer's time zone and shows the duration |
| ControllersNotification.NotificationController.ClientContext | app/controllers/notification.py:243-267 | The client's e-mail context names the client, carries the cancel link `…/booking/<uid>` and the support address, uses the client's time zone and shows the duration |
| ControllersNotification.NotificationController.NotifyOrganizerTelegram | app/controllers/notification.py:127-152 | Sends that plan, and raises exactly when there was something to send and sending fails |
| ControllersNotification.NotificationController.SendEmailNotification | app/controllers/notification.py:185-206 | Sends the e-mail plan; a failed send is swallowed |
| ControllersNotification.NotificationController.NotifyOrganizerEmail | app/controllers/notification.py:208-231 | Raises, sending nothing, exactly when the booking has no client; otherwise sends the organizer template with the organizer's context |
| ControllersNotification.NotificationController.NotifyOrganizer | app/controllers/notification.py:233-241 | A Telegram failure stops before the e-mail; otherwise the Telegram plan is followed by the organizer e-mail, and the call raises exactly when there is no client |
| ControllersNotification.NotificationController.NotifyClientEmail | app/controllers/notification.py:243-267 | Raises, sending nothing, exactly when there is no client; otherwise sends the client template to the client's e-mail |
| ControllersNotification.NotificationController.NotifyClient | app/controllers/notification.py:269-279 | Same as the client e-mail, and only e-mails are sent |
| ServicesNotification.NotificationText | app/services/notification.py:67-111 | A text exists exactly for created, rescheduled and cancelled (never client-joined); it links the booking, shows the organizer's and previous times, and the meeting URL unless cancelled |
| ServicesNotification.NotificationService.OrganizerTelegram | app/services/notification.py:113-140 | The organizer gets a Telegram message exactly when their chat id is present and non-zero and the event is created, rescheduled or cancelled, and then exactly one, to that chat, carrying the event's text from `NotificationText` |
| ServicesNotification.NotificationService.OrganizerContext | app/services/notification.py:196-219 | The organizer's e-mail context names the organizer and the client, uses the organizer's time zone and shows the duration |
| ServicesNotification.NotificationService.ClientContext | app/services/notification.py:231-255 | The client's e-mail context names the client, carries the cancel link and the support address, uses the client's time zone and shows the duration |
| ServicesNotification.NotificationService.NotifyOrganizerTelegram | app/services/notification.py:113-140 | Sends that plan, and raises exactly when there was something to send and sending fails |
| ServicesNotification.NotificationService.SendEmailNotification | app/services/notification.py:173-194 | Sends the e-mail plan; a failed send is swallowed |
| ServicesNotification.NotificationService.NotifyOrganizerEmail | app/services/notification.py:196-219 | Raises, sending nothing, exactly when there is no client; otherwise sends the organizer template |
| ServicesNotification.NotificationService.NotifyOrganizer | app/services/notification.py:221-229 | A Telegram failure stops before the e-mail; otherwise Telegram plan then organizer e-mail, raising exactly when there is no client |
| ServicesNotification.NotificationService.NotifyClientEmail | app/services/notification.py:231-255 | Raises, sending nothing, exactly when there is no client; otherwise sends the client template |
| ServicesNotification.NotificationService.NotifyClient | app/services/notification.py:257-267 | Same as the client e-mail, and only e-mails are sent |
| BookingController.FlowPlan | app/controllers/booking.py:24-55 | A create or reschedule plans four calls starting with the organizer's persisted setup, or only the organizer's two when there is no attendee (then `attendees[0]` raises); it never looks up a user or deletes a link |
| BookingController.ReassignPlan | app/controllers/booking.py:63-92 | A reassignment starts with the user lookup and fails right after it exactly when no user is found; otherwise four calls; it never notifies the client or deletes a link |
| BookingController.CancelPlan | app/controllers/booking.py:94-112 | A cancellation plans four calls, sets up no link and looks up no user |
| BookingController.EventPlan | app/controllers/booking.py:114-129 | The plan fails on its own exactly for a create or reschedule without an attendee or a reassignment to an unknown e-mail; it is empty exactly for the other triggers |
| BookingController.NewOrganizer | app/controllers/booking.py:67-73 | A new organizer exists only when the event names an e-mail that has a user row |
| BookingController.Performed | app/controllers/booking.py:114-129 | The effects that take place are a prefix of the planned ones |
| BookingController.FailureStopsFlow | app/controllers/booking.py:114-129 | Only the last effect that takes place can raise; a flow cut short ended on an effect that raised; some planned effect raises exactly when the last performed one did |
| BookingController.FlowSteps | app/controllers/booking.py:24-55 | Created and rescheduled events run organizer setup, organizer notification with its link, client setup under `client_`, and client notification with its link, in that order |
| BookingController.OnlyOrganizerLinksPersisted | app/controllers/booking.py:31-50 | Only the organizer's (unprefixed) link is stored in the booking |
| BookingController.UpdateModeUnlessCreated | app/controllers/booking.py:57-61 | Every link is re-pointed rather than created exactly when the event is not a creation |
| BookingController.LinksComeFromSetup | app/controllers/booking.py:24-55 | Every notification that carries a link carries the link set up earlier in the same flow |
| BookingController.ReassignOrder | app/controllers/booking.py:63-92 | Reassignment looks up the new organizer first; without one the flow fails; with one it tells the old organizer of a cancellation (no link), sets up the new organizer's link and sends them a creation with that link |
| BookingController.CancelDeletesBoth | app/controllers/booking.py:94-112 | Cancellation sets up no link, notifies without links, and ends by deleting the organizer's and then the client's link |
| BookingController.AsWrittenStopsAtFirstNotice | app/controllers/booking.py:24-112 | As written every notification call raises: a create or reschedule makes only the organizer's link, a reassignment stops at the cancellation notice, a cancellation deletes no link |
| BookingController.OtherTriggersDoNothing | app/controllers/booking.py:117-127 | Any other trigger does nothing |
| BookingController.BookingController.ProcessBookingFlow | app/controllers/booking.py:24-55 | Performs the flow's effects up to the first failure and reports whether it completed |
| BookingController.BookingController.HandleReassigned | app/controllers/booking.py:63-92 | Performs the reassignment plan up to the first failure |
| BookingController.BookingController.HandleCancelled | app/controllers/booking.py:94-112 | Performs the cancellation plan up to the first failure |
| BookingController.BookingController.BackgroundProcessing | app/controllers/booking.py:114-129 | Dispatches on the trigger (payment initiated counts as reassigned) and performs that plan up to the first failure, which is swallowed |
| KeyValue.Lookup | app/controllers/meet_webhook.py:32-34 | A key reads back its value exactly while its entry exists and has not expired |
| KeyValue.WrittenVisibleForTtl | app/controllers/meet_webhook.py:46 | A value written with a TTL is visible until the TTL has passed and gone after |
| KeyValue.KeyValueStore.Get | app/controllers/meet_webhook.py:32 | Returns the live value of the key |
| KeyValue.KeyValueStore.Set | app/controllers/meet_webhook.py:46 | Overwrites the key's entry, which then reads back unless the TTL is not positive |
| MeetWebhook.NotifiedKeyInjective | app/controllers/meet_webhook.py:31 | Different rooms use different `meet_notified:` keys |
| MeetWebhook.Decide | app/controllers/meet_webhook.py:26-47 | Only a client's join is acted on; a notification goes out exactly for a client's join to a known booking with metadata whose key is unset or falsy, with the link read from that metadata; a token without a room fails |
| MeetWebhook.MarkSuppresses | app/controllers/meet_webhook.py:32-46 | While the mark written for a room is live, no further join notifies for that room |
| MeetWebhook.AtMostOncePerTtl | app/controllers/meet_webhook.py:26-47 | Within any two-hour window, a room's organizer is notified at most once |
| MeetWebhook.RenotifyAfterExpiry | app/controllers/meet_webhook.py:46 | Once the two hours have passed, the next client join notifies again |
| MeetWebhook.MeetWebhookController.HandleWebhook | app/controllers/meet_webhook.py:26-47 | Follows the decision: raises exactly on a missing room, a booking without user or a failed send; sets the mark only on completion; sends what the decision says |
| Meet.MeetController.HandleWebhook | app/controllers/meet.py:23-44 | Same decision, but the service has no client-joined text, so nothing is sent; raises on a missing room or a booking without user |
| MailWebhook.MailText | app/controllers/mail_webhook.py:24-29 | The text starts with the header and the recipient and ends with the server's output |
| MailWebhook.Fanout | app/controllers/mail_webhook.py:31-39 | One attempt per admin chat, in order, each with the same text; a failing chat does not stop the others |
| MailWebhook.ActedOnce | app/controllers/mail_webhook.py:19-22 | Over a sequence of webhooks, each message id is acted on at most once, and never one already processed |
| MailWebhook.ActedCovers | app/controllers/mail_webhook.py:19-22 | Every message id not processed before is acted on |
| MailWebhook.MailWebhookController.HandleWebhook | app/controllers/mail_webhook.py:19-40 | A known id changes nothing; a new id is recorded and fanned out to every admin chat |
| FirstRun.Judge | app/system.py:13-16 | Not a first run exactly when the stored value parses as the current ppid; a truthy unparsable value raises |
| FirstRun.SecondRunIsNotFirst | app/system.py:13-19 | The value a first run stores makes the next run with that ppid not a first run |
| FirstRun.IsFirstRun | app/system.py:6-19 | Returns the verdict, stores the ppid only on a first run, and afterwards the stored value always says "not first run" |
| GetStream.Encode | app/adapters/get_stream.py:71-77 | The encoded id carries no `=` |
| GetStream.Decode | app/adapters/get_stream.py:79-82 | An encoded id whose length is already a multiple of four is opened as it is, with no padding added |
| GetStream.Repad | app/adapters/get_stream.py:80-82 | Appends the fewest `=` that make the length a multiple of four |
| GetStream.RepadStrip | app/adapters/get_stream.py:77-82 | Stripping `=` from a padded base64 text and re-padding it gives the text back |
| GetStream.DecodeEncode | app/adapters/get_stream.py:71-94 | With a sound cipher, decoding an encoded id gives the id back |
| GetStream.EncodeInjective | app/adapters/get_stream.py:71-77 | With a sound cipher, distinct ids encode differently |
| GetStream.CreateToken | app/adapters/get_stream.py:63-69 | The chat token carries the encoded id (decodable to the user id), the name and the expiry |
| GetStream.CreateRunShape | app/adapters/get_stream.py:29-50 | `n` attempts make exactly `n` upserts of both users, the first call is an upsert, and every channel creation (with the two users, owned by the organizer) comes right after an upsert |
| GetStream.GetStreamAdapter.CreateChat | app/adapters/get_stream.py:29-50 | Retries any failure up to five attempts, returns the final error, and logs exactly those attempts' calls |
| GetStream.GetStreamAdapter.DeleteChat | app/adapters/get_stream.py:52-61 | One delete per attempt, up to five, returning the final error |
| TelegramHandlers.ParsePayload | app/handlers/messages.py:26-32 | A payload that does not decode is rejected |
| TelegramHandlers.PayloadNeedsOneSeparator | app/handlers/messages.py:26-32 | A decoded payload without exactly one `@` is rejected |
| TelegramHandlers.ParsePayloadOfLink | app/handlers/messages.py:26-32 | The payload `str(user_id)@token` parses back to that id and token |
| TelegramHandlers.RowById | app/handlers/messages.py:34-39 | The unlocked row with that id, `None` exactly when there is none |
| TelegramHandlers.SetChatId | app/handlers/messages.py:46-48 | Sets the chat id of the rows with that id and changes nothing else |
| TelegramHandlers.StartDecision | app/handlers/messages.py:24-50 | A bad payload exactly when it does not parse; an unknown user exactly when it parses but no unlocked row has the id; already registered only for a row with a truthy chat id; a registration names the parsed id and the row's name |
| TelegramHandlers.OnlyMatchRegisters | app/handlers/messages.py:24-50 | A chat is bound exactly when the payload parses, the row exists, has no truthy chat id, and its token matches |
| TelegramHandlers.RowByIdAfterSet | app/handlers/messages.py:45-49 | After binding, the row reads back with the new chat id |
| TelegramHandlers.StartTwice | app/handlers/messages.py:41-49 | Repeating a successful `/start` answers "already registered" |
| TelegramHandlers.Bot.CmdStart | app/handlers/messages.py:24-50 | Binds the chat exactly on a registration and sends the answers the decision calls for |
| TelegramHandlers.Bot.CheckRow | app/handlers/messages.py:34-49 | The lookup, already-registered and token-match part of `/start` |
| TelegramHandlers.Bot.CmdId | app/handlers/messages.py:19-21 | Answers with the user id and the chat id |
| TelegramHandlers.Bot.Hello | app/handlers/messages.py:53-59 | Only `ping` is answered: `pong`, or `Nice try!` when that answer fails |
| LegacyRoutes.NotificationText | app/routes.py:101-107 | An unknown trigger gets the empty text |
| LegacyRoutes.ValidatedTriggerHasText | app/routes.py:101-107 | Every trigger that passes request validation gets a non-empty text naming the title and time |
| LegacyRoutes.BookingMessage | app/routes.py:142-160 | A message goes only to the organizer's non-zero chat id |
| LegacyRoutes.BookingMessageIff | app/routes.py:142-160 | A message is sent exactly when the organizer has a non-zero chat id, and it names the title |
| LegacyRoutes.WebhookAccepts | app/routes.py:169-171 | The Telegram webhook is accepted exactly when the secret header equals the configured token |
| LegacyRoutes.LegacyApp.Booking | app/routes.py:132-161 | 403 exactly when not in debug and the signature is wrong; otherwise the message is sent, and a failed send is reported |
| Retry.AttemptCount | app/clients/base_client.py:72-78 | Attempts continue exactly while the error is retryable and the limit is not reached |
| Retry.Final | app/clients/base_client.py:72-78 | A final error is one of the attempts' errors |
| Retry.NotRetried | app/clients/base_client.py:72-78 | A non-retryable first error is raised after one attempt |
| Retry.SucceedsIff | app/clients/base_client.py:72-78 | The call succeeds exactly when some attempt within the limit succeeds after only retryable failures |
| HttpBase.Classify | app/clients/unisender_go_client/client.py:79-122 | 2xx/3xx are no error; 401 is authentication, 429 rate limit, 422 (and 400 for Unisender Go) validation, other 4xx/5xx a provider error |
| HttpBase.OnlyRateLimitStatusRetried | app/clients/base_client.py:72-78 | Of the HTTP status errors, only 429 is retried |
| HttpBase.AttemptResult | app/clients/base_client.py:79-130 | No session raises before sending; a timeout is a provider error; success exactly on an OK status with a JSON body |
| HttpBase.Attempts | app/clients/base_client.py:72-78 | Between one and three attempts |
| HttpBase.Exchanged | app/clients/base_client.py:72-130 | The exchange's error is the retry policy's final error over the attempts |
| HttpBase.TimeoutNotRetried | app/clients/base_client.py:117-119 | A first-attempt timeout raises a provider error after one attempt |
| HttpBase.NoSessionNoRequest | app/clients/base_client.py:85-86 | Without a session, one failed attempt and a session error |
| HttpBase.OneSlashAtJoin | app/clients/base_client.py:88 | The request URL joins the stripped base and the endpoint with exactly one `/` |
| HttpBase.Exchange | app/clients/base_client.py:79-130 | Returns the exchange result and reports how many requests went out |
| UnisenderApi.ParseResponse | app/clients/unisender_go_client/client.py:54 | A parsed response carries the body's status; any failure is an invalid-response error |
| UnisenderApi.ParseRender | app/clients/unisender_go_client/client.py:54 | Every response parses back from its JSON form |
| UnisenderApi.Accept | app/clients/unisender_go_client/client.py:56-70 | Success exactly when the status is `success`; otherwise a provider error naming message and code |
| UnisenderApi.FirstAnswerDecides | app/clients/unisender_go_client/client.py:35-70 | An OK first answer ends the exchange, and acceptance decides the result |
| UnisenderApi.DeliveredIsSuccess | app/clients/unisender_go_client/client.py:56-62 | A delivered message has a successful response parsed from the exchange |
| UnisenderApi.UnisenderGoClient.constructor | app/clients/unisender_go_client/client.py:17-33 | The base URL loses its trailing slashes; the client owns the session exactly when none is given |
| UnisenderApi.UnisenderGoClient.Enter | app/clients/base_client.py:50-53 | Entering provides a session |
| UnisenderApi.UnisenderGoClient.Exit | app/clients/base_client.py:61-62 | Only an owned session is closed |
| UnisenderApi.UnisenderGoClient.SendMessage | app/clients/unisender_go_client/client.py:35-70 | A dump failure raises before posting; otherwise the result is the delivery outcome, and each attempt posts the dumped message to `/email/send.json` |
| PostalApi.ParseSendData | app/clients/postal_client/models/responses.py:11-20 | Typed data is recognised only when it has the accepted message's shape |
| PostalApi.ParseResponse | app/clients/postal_client/client.py:84 | A response without `data` is invalid; a parsed response carries the status and recognises typed data exactly when it parses |
| PostalApi.ParseRender | app/clients/postal_client/client.py:84 | Every response with typed data parses back from its JSON form |
| PostalApi.MissingDataRaises | app/clients/postal_client/models/responses.py:16-20 | A body without `data` is rejected |
| PostalApi.Accept | app/clients/postal_client/client.py:86-98 | Success exactly when the status is `success`; otherwise a provider error |
| PostalApi.BadRequestIsProviderError | app/clients/postal_client/client.py:106-136 | For Postal, a 400 is a provider error and is not retried |
| PostalApi.FirstAnswerDecides | app/clients/postal_client/client.py:64-98 | An OK first answer ends the exchange, and acceptance decides the result |
| PostalApi.PostalClient.constructor | app/clients/postal_client/client.py:30-48 | The base URL loses its trailing slashes; the client owns the session exactly when none is given |
| PostalApi.PostalClient.Enter | app/clients/postal_client/client.py:50-53 | Entering provides a session |
| PostalApi.PostalClient.Exit | app/clients/postal_client/client.py:61-62 | Only an owned session is closed |
| PostalApi.PostalClient.SendMessage | app/clients/postal_client/client.py:64-98 | The result is the delivery outcome, and each attempt posts the dumped message to `/api/v1/send/message` |
| UnisenderModels.Validate | app/clients/unisender_go_client/models/requests.py:20-24 | A request validates exactly when it has a recipient and a plain or HTML body |
| UnisenderModels.EmptyHtmlPasses | app/clients/unisender_go_client/models/requests.py:20-44 | Any request with a recipient whose bodies are all empty strings validates, and its dumped `body` object is empty |
| UnisenderModels.DumpRecipients | app/clients/unisender_go_client/models/requests.py:30-36 | One recipient object per address, in order |
| UnisenderModels.DumpBody | app/clients/unisender_go_client/models/requests.py:39-44 | The body holds exactly the present parts |
| UnisenderModels.DumpSender | app/clients/unisender_go_client/models/requests.py:49-54 | The sender's e-mail and name as `from_email`/`from_name` |
| UnisenderModels.DumpReply | app/clients/unisender_go_client/models/requests.py:56-61 | The reply address; raises exactly for a structured reply next to a plain-string sender |
| UnisenderModels.DumpExtras | app/clients/unisender_go_client/models/requests.py:64-75 | Attachments, headers and tracking flags exactly when present |
| UnisenderModels.ModelDump | app/clients/unisender_go_client/models/requests.py:26-77 | A `message` object with recipients, body, subject, sender, reply and extras, each as dumped; raises exactly in the reply case above |
| UnisenderModels.MessageId | app/clients/unisender_go_client/models/responses.py:15-19 | The first e-mail id when the list is non-empty, else the job id |
| PostalModels.Validate | app/clients/postal_client/models/requests.py:22-26 | A request validates exactly when it has a recipient and a plain or HTML body |
| PostalModels.BaseDump | app/clients/postal_client/models/requests.py:8-29 | The plain dump always holds `to`, `from_address` and `subject`, never `from` |
| PostalModels.ConvertAll | app/clients/postal_client/models/requests.py:34-38 | Each address becomes its string form, in order |
| PostalModels.PostProcess | app/clients/postal_client/models/requests.py:34-41 | `from_address` becomes `from` (as a string), non-empty recipient lists are converted, everything else is kept |
| PostalModels.ModelDump | app/clients/postal_client/models/requests.py:28-43 | The same, applied to the plain dump |
| PostalModels.MessageId | app/clients/postal_client/models/responses.py:26-30 | The message id exactly when the data is typed |
| PostalModels.FailureWithMessageId | app/clients/postal_client/models/responses.py:22-30 | For any response with typed data the message id is its id whatever the status, so a failed response can still carry one |
| EmailModels.ToString | app/clients/models.py:14-17 | `name <email>` when the name is truthy, else the bare e-mail; always contains the e-mail |
| EmailModels.Convert | app/clients/postal_client/models/requests.py:34-38 | The string form of an address contains its e-mail |
| Text.LastPartIsTail | app/adapters/email.py:184 | The domain is the text after the last `@`, or the whole address without one |
| EmailAdapter.UnisenderRequest | app/adapters/email.py:58-64 | One structured recipient, a structured sender, a reply address exactly for a non-empty reply e-mail, the HTML body only, and both tracking flags at the request model's default of 0 (app/clients/unisender_go_client/models/requests.py:17-18); it validates and dumps |
| EmailAdapter.UnisenderTrackingOff | app/clients/unisender_go_client/models/requests.py:17-18 | Every dump of that request writes `track_links` and `track_read`, both 0 |
| EmailAdapter.PostalRequestAsWritten | app/adapters/email.py:100-106 | The Postal request as written: recipient, sender, subject, HTML |
| EmailAdapter.PostalReplyDropped | app/adapters/email.py:100-106 | As written, the Postal dump never carries a reply-to |
| EmailAdapter.PostalRequest | app/adapters/email.py:100-106 | The Postal request with `reply_to` set exactly for a non-empty reply e-mail |
| EmailAdapter.PostalReplyKept | app/adapters/email.py:100-106 | With the reply carried, the Postal dump's `reply_to` contains the reply e-mail |
| EmailAdapter.UnisenderGoEmailClient.SendEmail | app/adapters/email.py:43-76 | Opens and closes its own client, raises the delivery error, and posts the dump of the adapter's request on every attempt, each with `track_links` and `track_read` at 0 |
| EmailAdapter.PostalEmailClient.SendEmail | app/adapters/email.py:85-118 | Same for Postal, with the reply carried |
| EmailAdapter.SmtpFrom | app/adapters/email.py:140 | The `From` header is the address's string form |
| EmailAdapter.SmtpSend | app/adapters/email.py:130-163 | Fails exactly when the server fails; otherwise one message with the given subject, recipient, HTML and `From` |
| EmailAdapter.SelectedKind | app/adapters/email.py:184-186 | The kind registered for the domain, else the default |
| EmailAdapter.GetClientAsWritten | app/adapters/email.py:183-214 | Raises (TypeError) exactly when SMTP is selected but not configured |
| EmailAdapter.FallbackRaises | app/adapters/email.py:189-199 | A domain routed to SMTP without SMTP settings makes the service raise |
| EmailAdapter.GetClient | app/adapters/email.py:183-214 | SMTP exactly when selected and configured; an unconfigured SMTP choice falls back to the selector's `default` adapter, or to Unisender Go when that is SMTP too; agrees with the code wherever the code does not raise |
| EmailAdapter.DefaultIsUnisender | app/adapters/email.py:179-181 | With the shipped selector every recipient goes through Unisender Go, as written and corrected |
| EmailAdapter.ServiceCallAsWritten | app/adapters/email.py:216-226 | As written, the service's call raises exactly for the SMTP adapter |
| EmailAdapter.EmailService.SendEmail | app/adapters/email.py:216-226 | Sends through the chosen adapter; for Unisender Go and Postal every attempt posts the dump of the request built from the service's sender and reply identity, and a Unisender Go post carries both tracking flags at 0; SMTP gets only the arguments it takes |

## Left out

- Cryptography and encodings are parameters, not modelled: JWT signing and decoding, AES and base64 of chat user ids, `decode_payload`, and the HMAC of the `/booking` signature. `GetStream.DecodeEncode` assumes only that the cipher inverts.
- Time-zone conversion, `strftime` and Babel city names are supplied by a `Clock` parameter. Times are integer epoch seconds, so sub-second floats (the Postal `time` field, `timestamp()`) are integers.
- The network, the database, Redis and Telegram are state or oracles. The URL shortener is a map of links by external id, and its answers depend on a `Net` value. HTTP exchanges are per-attempt `Wire` outcomes.
- A response body that is not JSON is treated like a transport error, which is retried.
- Tenacity's waits, `asyncio` concurrency, the background task set, logging and sleeps are not modelled.
- The e-mail clients accept a `max_retries` argument, but the retry decorator hard-codes three attempts. The model uses three and ignores the argument.
- Pydantic's lax coercions and `EmailStr` syntax checks, `hbold` escaping and Jinja rendering of e-mail templates are not modelled. An e-mail is recorded as recipient, template and context.
- Message texts are records of the values they interpolate, not their exact wording.
- `PostalApi.Accept`: the text of the provider error is not stated, only its kind.
- `TelegramHandlers.ParsePayload`: its own contract covers only payloads that do not decode. The one-separator rule and the round trip are lemmas beside it. A non-numeric user id is rejected, but no lemma states that.
- `LegacyRoutes.NotificationText`: its own contract covers only unknown triggers. Known triggers are covered by `LegacyRoutes.ValidatedTriggerHasText`.
- `GetStream.Encode`: its own contract states only that no `=` remains. Decoding is covered by `GetStream.DecodeEncode` and `GetStream.EncodeInjective`.
- `Notify.EmailContext`: its own contract states only the keys. The values are covered by `Notify.RescheduleSwap`, `Notify.ContextDuration` and `Notify.ContextZone`.
- `database.fetch_one` is taken to return the first matching row in table order.
- `db.get_booking` is called by app/controllers/meeting.py:133, app/controllers/meet_webhook.py:36 and app/controllers/meet.py:33, but app/adapters/db.py does not define it; it is only declared, at app/interfaces/booking.py:18. The model reads the booking row's metadata.
- `MeetWebhook.Decide` and `Meet.MeetController.HandleWebhook` assume that `get_booking` returns the metadata as JSON text, as the `json.loads(booking.metadata)` at app/controllers/meet_webhook.py:44 and app/controllers/meet.py:40 requires, and read it as an already parsed map. `BookingDTO.metadata` is declared `dict | None` (app/dtos.py:146); were a dict returned, `json.loads` would raise TypeError, and neither the notification nor the Redis mark would happen. The model does not capture that case.
- app/clients/postal_client/models/common.py is not part of this model. The Postal models are taken to use the address and attachment models of app/clients/models.py.
- app/services/notification.py:49 builds `EmailService` without the reply arguments that app/adapters/email.py:167-173 requires. As written, constructing `NotificationService` raises TypeError. The model's notification service takes e-mail sending as given, through a failure oracle.
- app/controllers/booking.py calls `notify_organizer` and `notify_client` with keyword names (`organizer=`, `booking_event_payload=`) that app/services/notification.py:221-227 and :257-262 do not accept. The calls to `setup_meeting` and `delete_meeting` match app/services/meeting.py:27-35 and :50-55. The booking flow is modelled on the effects it intends; the as-written consequence is the last row under Findings.
- Unknown time zones: the `Clock` parameter is total, but `get_timezone_location(...)` and `pytz.timezone(...)` raise on an unknown zone (app/controllers/notification.py:60,66; app/services/notification.py:54,60; app/routes.py:148). In the source such a zone aborts `notify_organizer` before the e-mail and ends the booking flow; in the model no notification fails because of its zone.
- `Text.ParseInt` accepts ASCII digits and ASCII whitespace only. Python's `int(user_id)` (app/handlers/messages.py:28) also accepts Unicode decimal digits and Unicode whitespace, so `TelegramHandlers.ParsePayload` rejects the few payloads that use them.
- `MailWebhook.MailWebhookController` keeps the processed ids in a field of the controller. The source keeps one module-level set (app/controllers/mail_webhook.py:16) shared by every controller, so with more than one controller the model's sets differ from it.
- A meeting token whose `context` claim is present but `null` makes `claims.get("context", {}).get(...)` raise AttributeError (app/controllers/meet_webhook.py:28). `MeetWebhook.MeetClaims` does not represent that token: a missing context or user gives role `None`.
- The OpenAI rewriting of booking descriptions in app/routes.py is commented out at its call site and is not modelled.
- Outside the named core: the dependency wiring (app/ioc.py, app/di.py), settings, the chat controller, schemas, the SQL adapter and the top-level legacy copies (main.py, routes.py, handlers/messages.py).

## Findings

| source | as written | input that shows it | evidently intended | confidence | as-written member | corrected member |
|---|---|---|---|---|---|---|
| app/adapters/email.py:189-199 | An unconfigured SMTP choice "falls back" by calling the SMTP adapter's constructor with `api_url`, `api_key` and `max_retries`, which it does not accept, so a TypeError is raised | selector `{"default": UnisenderGo, "mx": SMTP}`, no SMTP host, recipient `a@mx` | Fall back to the selector's `default` API adapter (Unisender Go when the default is SMTP as well) | not executed | EmailAdapter.GetClientAsWritten | EmailAdapter.GetClient |
| app/adapters/email.py:216-226 | `send_email` passes `reply_to_email` and `reply_to_email_name` to every adapter; the SMTP adapter's `send_email` (lines 130-137) does not take them, so a TypeError is raised | any recipient whose domain selects a configured SMTP adapter | Call the SMTP adapter with the arguments it takes | not executed | EmailAdapter.ServiceCallAsWritten | EmailAdapter.EmailService.SendEmail |
| app/adapters/email.py:100-106 | The Postal adapter passes `reply_address=...`, but the Postal request model (app/clients/postal_client/models/requests.py:8-20) declares `reply_to`, so pydantic drops the reply address | any call with a non-empty `reply_to_email` | Carry the reply address in `reply_to` | not executed | EmailAdapter.PostalReplyDropped | EmailAdapter.PostalReplyKept |
| app/controllers/booking.py:37-42 | Every notification call passes `organizer=` or `booking_event_payload=`, which `notify_organizer(user, booking, …)` and `notify_client(booking, …)` in app/services/notification.py:221-262 do not accept, so each raises TypeError and the background task swallows it | any booking event: a creation makes the organizer's link and stops; a reassignment stops after the lookup and the first notice; a cancellation deletes no link | Pass the user and booking the notification service takes | not executed | BookingController.AsWrittenStopsAtFirstNotice | BookingController.BookingController.BackgroundProcessing |

With the selector the service is actually built with (`{"default": UnisenderGo}`), the first two findings cannot occur; `EmailAdapter.DefaultIsUnisender` states this.
