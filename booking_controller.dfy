/**
 * The booking-event orchestration of app/controllers/booking.py. Each
 * trigger event runs a fixed, ordered list of effects on the meeting and
 * notification services; the services themselves are modelled elsewhere,
 * so here every call is an entry of an effect log. An exception in any
 * step ends its flow and is swallowed by the background task.
 */
module BookingController {
  import opened Wrappers
  import opened Dtos
  import Users

  /** The external-id prefix of the client's meeting link. */
  const ClientPrefix := "client_"

  /** One awaited call of a flow. */
  datatype Effect =
    | GetUser(email: Option<string>)
    | SetupMeeting(participant: string, prefix: string, updateMode: bool, persist: bool)
    | NotifyOrganizer(organizer: Contact, trigger: TriggerEvent, url: Option<string>)
    | NotifyClient(trigger: TriggerEvent, url: Option<string>)
    | DeleteMeeting(prefix: string)

  /** The calls a flow makes when none of them raises, and whether it then fails on its own (a missing user, no attendee). */
  datatype Plan = Plan(steps: seq<Effect>, crashes: bool)

  /**
   * `_process_booking_flow`: the organizer's link (persisted), the
   * organizer's notification with it, the client's link under the
   * client prefix (not persisted), the client's notification with it.
   * `attendees[0]` raises when there is no attendee. `url(name, prefix)`
   * is the link the meeting service returns.
   */
  function FlowPlan(p: BookingEventPayload, trigger: TriggerEvent, update: bool, url: (string, string) -> string): (plan: Plan)
    ensures plan.crashes <==> |p.attendees| == 0
    ensures |plan.steps| == if plan.crashes then 2 else 4
    ensures plan.steps[0] == SetupMeeting(p.organizer.name, "", update, true)
    ensures forall i :: 0 <= i < |plan.steps| ==> !plan.steps[i].DeleteMeeting? && !plan.steps[i].GetUser?
  {
    var head := [SetupMeeting(p.organizer.name, "", update, true), NotifyOrganizer(p.organizer, trigger, Some(url(p.organizer.name, "")))];
    if |p.attendees| == 0 then Plan(head, true)
    else
      var client := p.attendees[0].name;
      Plan(head + [SetupMeeting(client, ClientPrefix, update, false), NotifyClient(trigger, Some(url(client, ClientPrefix)))], false)
  }

  /** The organizer `get_user(new_organizer_email)` finds; `None` makes `user.name` raise. */
  function NewOrganizer(users: seq<User>, email: Option<string>): (c: Option<Contact>)
    ensures c.Some? ==> email.Some? && Users.UserByEmail(users, email.value).Some?
  {
    if email.None? then None
    else
      var u := Users.UserByEmail(users, email.value);
      if u.None? then None else Some(Contact(u.value.name, u.value.email, u.value.timeZone))
  }

  /**
   * `_handle_reassigned`: look the new organizer up, tell the previous
   * organizer the booking is cancelled (no link), then build the new
   * organizer's link (repointed, persisted) and announce the booking to
   * them as created with it.
   */
  function ReassignPlan(p: BookingEventPayload, users: seq<User>, url: (string, string) -> string): (plan: Plan)
    ensures plan.crashes <==> NewOrganizer(users, p.newOrganizerEmail).None?
    ensures |plan.steps| == if plan.crashes then 1 else 4
    ensures plan.steps[0] == GetUser(p.newOrganizerEmail)
    ensures forall i :: 0 <= i < |plan.steps| ==> !plan.steps[i].DeleteMeeting? && !plan.steps[i].NotifyClient?
  {
    var get := [GetUser(p.newOrganizerEmail)];
    var current := NewOrganizer(users, p.newOrganizerEmail);
    if current.None? then Plan(get, true)
    else
      var c := current.value;
      Plan(get + [
        NotifyOrganizer(p.organizer, BookingCancelled, None),
        SetupMeeting(c.name, "", true, true),
        NotifyOrganizer(c, BookingCreated, Some(url(c.name, "")))], false)
  }

  /** `_handle_cancelled`: both notifications without a link, then both links deleted, organizer's first. */
  function CancelPlan(p: BookingEventPayload, trigger: TriggerEvent): (plan: Plan)
    ensures !plan.crashes && |plan.steps| == 4
    ensures forall i :: 0 <= i < |plan.steps| ==> !plan.steps[i].SetupMeeting? && !plan.steps[i].GetUser?
  {
    Plan([NotifyOrganizer(p.organizer, trigger, None), NotifyClient(trigger, None), DeleteMeeting(""), DeleteMeeting(ClientPrefix)], false)
  }

  /** `_background_processing`'s dispatch on the trigger event. */
  function EventPlan(ev: BookingEvent, users: seq<User>, url: (string, string) -> string): (plan: Plan)
    ensures plan.crashes <==>
      || ((ev.triggerEvent == BookingCreated || ev.triggerEvent == BookingRescheduled) && |ev.payload.attendees| == 0)
      || (ev.triggerEvent == BookingPaymentInitiated && NewOrganizer(users, ev.payload.newOrganizerEmail).None?)
    ensures plan.steps == [] <==>
      ev.triggerEvent !in {BookingCreated, BookingRescheduled, BookingPaymentInitiated, BookingCancelled}
  {
    match ev.triggerEvent
    case BookingCreated => FlowPlan(ev.payload, ev.triggerEvent, false, url)
    case BookingRescheduled => FlowPlan(ev.payload, ev.triggerEvent, true, url)
    case BookingPaymentInitiated => ReassignPlan(ev.payload, users, url)
    case BookingCancelled => CancelPlan(ev.payload, ev.triggerEvent)
    case _ => Plan([], false)
  }

  /** The calls actually made: the plan up to and including the first call that raises. */
  function Performed(steps: seq<Effect>, raises: Effect -> bool): (done: seq<Effect>)
    ensures |done| <= |steps| && done == steps[..|done|]
  {
    if |steps| == 0 then []
    else if raises(steps[0]) then [steps[0]]
    else [steps[0]] + Performed(steps[1..], raises)
  }

  /** The calls before `k` returned and call `k` raised: the flow made exactly the calls up to `k`. */
  lemma {:induction false} PerformedUpTo(steps: seq<Effect>, raises: Effect -> bool, k: nat)
    requires k < |steps| && raises(steps[k])
    requires forall i :: 0 <= i < k ==> !raises(steps[i])
    ensures Performed(steps, raises) == steps[..k + 1]
  {
    if k > 0 {
      PerformedUpTo(steps[1..], raises, k - 1);
      assert [steps[0]] + steps[1..][..k] == steps[..k + 1];
    }
  }

  /** No call of the flow raised: it made all of them. */
  lemma {:induction false} PerformedAll(steps: seq<Effect>, raises: Effect -> bool)
    requires forall i :: 0 <= i < |steps| ==> !raises(steps[i])
    ensures Performed(steps, raises) == steps
  {
    if |steps| > 0 {
      PerformedAll(steps[1..], raises);
      assert [steps[0]] + steps[1..] == steps;
    }
  }

  /**
   * As written, every notification call of app/controllers/booking.py
   * passes keyword names (`organizer=`, `booking_event_payload=`) that the
   * notification service's `notify_organizer` and `notify_client` do not
   * take, so each such call raises TypeError.
   */
  predicate NoticeRaises(e: Effect) {
    e.NotifyOrganizer? || e.NotifyClient?
  }

  /**
   * What the flows do as written: each stops at its first notification.
   * A creation or rescheduling makes only the organizer's link, a
   * reassignment stops at the cancellation notice to the previous
   * organizer, and a cancellation deletes no link.
   */
  lemma AsWrittenStopsAtFirstNotice(ev: BookingEvent, users: seq<User>, url: (string, string) -> string)
    ensures var p := ev.payload;
      var done := Performed(EventPlan(ev, users, url).steps, NoticeRaises);
      && (ev.triggerEvent == BookingCreated || ev.triggerEvent == BookingRescheduled ==>
            done == [SetupMeeting(p.organizer.name, "", ev.triggerEvent == BookingRescheduled, true),
                     NotifyOrganizer(p.organizer, ev.triggerEvent, Some(url(p.organizer.name, "")))])
      && (ev.triggerEvent == BookingPaymentInitiated ==>
            done == [GetUser(p.newOrganizerEmail)]
                    + (if NewOrganizer(users, p.newOrganizerEmail).Some? then [NotifyOrganizer(p.organizer, BookingCancelled, None)] else []))
      && (ev.triggerEvent == BookingCancelled ==> done == [NotifyOrganizer(p.organizer, BookingCancelled, None)])
      && (forall i :: 0 <= i < |done| ==> !done[i].DeleteMeeting? && !(done[i].SetupMeeting? && done[i].prefix == ClientPrefix))
  {
    var steps := EventPlan(ev, users, url).steps;
    match ev.triggerEvent
    case BookingCreated =>
      PerformedUpTo(steps, NoticeRaises, 1);
    case BookingRescheduled =>
      PerformedUpTo(steps, NoticeRaises, 1);
    case BookingPaymentInitiated =>
      if NewOrganizer(users, ev.payload.newOrganizerEmail).Some? {
        PerformedUpTo(steps, NoticeRaises, 1);
      } else {
        PerformedAll(steps, NoticeRaises);
      }
    case BookingCancelled =>
      PerformedUpTo(steps, NoticeRaises, 0);
    case _ =>
  }

  /**
   * A failing call stops its flow: every performed call but the last
   * returned, and the flow was cut short exactly when some call raised,
   * the last one performed.
   */
  lemma {:induction false} FailureStopsFlow(steps: seq<Effect>, raises: Effect -> bool)
    ensures var done := Performed(steps, raises);
      && (forall i :: 0 <= i < |done| - 1 ==> !raises(done[i]))
      && (|done| < |steps| ==> |done| > 0 && raises(done[|done| - 1]))
      && ((exists i :: 0 <= i < |steps| && raises(steps[i])) <==> |done| > 0 && raises(done[|done| - 1]))
  {
    if |steps| > 0 {
      FailureStopsFlow(steps[1..], raises);
      var rest := Performed(steps[1..], raises);
      if !raises(steps[0]) {
        assert Performed(steps, raises) == [steps[0]] + rest;
        if exists i :: 0 <= i < |steps| && raises(steps[i]) {
          var i :| 0 <= i < |steps| && raises(steps[i]);
          assert i > 0 && raises(steps[1..][i - 1]);
        }
        if |rest| > 0 && raises(rest[|rest| - 1]) {
          assert raises(steps[1..][|rest| - 1]);
        }
      }
    }
  }

  /** The flow runs to its end exactly when no planned call raises and it does not fail on its own. */
  predicate Completes(plan: Plan, raises: Effect -> bool) {
    !plan.crashes && forall i :: 0 <= i < |plan.steps| ==> !raises(plan.steps[i])
  }

  /** A creation runs exactly the four calls, in order, with fresh links; a reschedule the same four with repointed links. */
  lemma FlowSteps(ev: BookingEvent, users: seq<User>, url: (string, string) -> string)
    requires ev.triggerEvent in {BookingCreated, BookingRescheduled} && |ev.payload.attendees| > 0
    ensures var p := ev.payload;
      var update := ev.triggerEvent == BookingRescheduled;
      var client := p.attendees[0].name;
      EventPlan(ev, users, url) == Plan([
        SetupMeeting(p.organizer.name, "", update, true),
        NotifyOrganizer(p.organizer, ev.triggerEvent, Some(url(p.organizer.name, ""))),
        SetupMeeting(client, ClientPrefix, update, false),
        NotifyClient(ev.triggerEvent, Some(url(client, ClientPrefix)))], false)
  {
  }

  /** Only links without the client prefix are written to the booking record, and client links never are. */
  lemma OnlyOrganizerLinksPersisted(ev: BookingEvent, users: seq<User>, url: (string, string) -> string)
    ensures var s := EventPlan(ev, users, url).steps;
      forall i :: 0 <= i < |s| && s[i].SetupMeeting? ==> (s[i].persist <==> s[i].prefix == "")
  {
  }

  /** Links are created fresh only for a new booking; every other flow repoints them. */
  lemma UpdateModeUnlessCreated(ev: BookingEvent, users: seq<User>, url: (string, string) -> string)
    ensures var s := EventPlan(ev, users, url).steps;
      forall i :: 0 <= i < |s| && s[i].SetupMeeting? ==> (s[i].updateMode <==> ev.triggerEvent != BookingCreated)
  {
  }

  /** A link in a notification is the one a call earlier in the same flow set up. */
  predicate LinkSetUpBefore(s: seq<Effect>, i: int, url: (string, string) -> string)
    requires 0 <= i < |s|
  {
    var u := if s[i].NotifyOrganizer? || s[i].NotifyClient? then s[i].url else None;
    u.Some? ==> exists j :: 0 <= j < i && s[j].SetupMeeting? && u.value == url(s[j].participant, s[j].prefix)
  }

  lemma LinksComeFromSetup(ev: BookingEvent, users: seq<User>, url: (string, string) -> string)
    ensures var s := EventPlan(ev, users, url).steps;
      forall i :: 0 <= i < |s| ==> LinkSetUpBefore(s, i, url)
  {
    var s := EventPlan(ev, users, url).steps;
    forall i | 0 <= i < |s|
      ensures LinkSetUpBefore(s, i, url)
    {
      if i == 1 && ev.triggerEvent in {BookingCreated, BookingRescheduled} {
        assert s[0].SetupMeeting?;
      } else if i == 3 && ev.triggerEvent in {BookingCreated, BookingRescheduled, BookingPaymentInitiated} {
        assert s[2].SetupMeeting?;
      }
    }
  }

  /**
   * A reassignment looks the new organizer up first; when found, the
   * previous organizer hears of a cancellation before the new link is
   * built, and the new organizer hears of a creation with that link.
   * Otherwise nothing follows the lookup.
   */
  lemma ReassignOrder(ev: BookingEvent, users: seq<User>, url: (string, string) -> string)
    requires ev.triggerEvent == BookingPaymentInitiated
    ensures var plan := EventPlan(ev, users, url);
      var c := NewOrganizer(users, ev.payload.newOrganizerEmail);
      && plan.steps[0] == GetUser(ev.payload.newOrganizerEmail)
      && (c.None? ==> plan.steps == [plan.steps[0]] && plan.crashes)
      && (c.Some? ==>
        && |plan.steps| == 4 && !plan.crashes
        && plan.steps[1] == NotifyOrganizer(ev.payload.organizer, BookingCancelled, None)
        && plan.steps[2] == SetupMeeting(c.value.name, "", true, true)
        && plan.steps[3] == NotifyOrganizer(c.value, BookingCreated, Some(url(c.value.name, ""))))
  {
  }

  /** A cancellation creates no link, sends no link, and deletes the organizer's link before the client's. */
  lemma CancelDeletesBoth(ev: BookingEvent, users: seq<User>, url: (string, string) -> string)
    requires ev.triggerEvent == BookingCancelled
    ensures var s := EventPlan(ev, users, url).steps;
      && (forall i :: 0 <= i < |s| ==> !s[i].SetupMeeting?)
      && (forall i :: 0 <= i < |s| && (s[i].NotifyOrganizer? || s[i].NotifyClient?) ==> s[i].url.None?)
      && s[|s| - 2] == DeleteMeeting("") && s[|s| - 1] == DeleteMeeting(ClientPrefix)
  {
  }

  /** Any other trigger does nothing. */
  lemma OtherTriggersDoNothing(ev: BookingEvent, users: seq<User>, url: (string, string) -> string)
    requires ev.triggerEvent !in {BookingCreated, BookingRescheduled, BookingPaymentInitiated, BookingCancelled}
    ensures EventPlan(ev, users, url).steps == []
  {
  }

  class BookingController {
    /** Every call made to the services and the store, in order. */
    var log: seq<Effect>

    constructor ()
      ensures log == []
    {
      log := [];
    }

    /** One awaited call: it is made, and reports whether it raised. */
    method Call(e: Effect, raises: Effect -> bool) returns (ok: bool)
      modifies this`log
      ensures log == old(log) + [e] && ok == !raises(e)
    {
      log := log + [e];
      ok := !raises(e);
    }

    /** `_process_booking_flow`, stopping at the first call that raises. */
    method ProcessBookingFlow(p: BookingEventPayload, trigger: TriggerEvent, update: bool, url: (string, string) -> string,
                              raises: Effect -> bool) returns (ok: bool)
      modifies this`log
      ensures log == old(log) + Performed(FlowPlan(p, trigger, update, url).steps, raises)
      ensures ok == Completes(FlowPlan(p, trigger, update, url), raises)
    {
      ghost var s := FlowPlan(p, trigger, update, url).steps;
      ghost var head := [SetupMeeting(p.organizer.name, "", update, true), NotifyOrganizer(p.organizer, trigger, Some(url(p.organizer.name, "")))];
      assert s[..2] == head;
      ok := Call(SetupMeeting(p.organizer.name, "", update, true), raises);
      if !ok { PerformedUpTo(s, raises, 0); return; }
      ok := Call(NotifyOrganizer(p.organizer, trigger, Some(url(p.organizer.name, ""))), raises);
      if !ok { PerformedUpTo(s, raises, 1); return; }
      if |p.attendees| == 0 {
        PerformedAll(s, raises);
        ok := false;
        return;
      }
      var client := p.attendees[0].name;
      ok := Call(SetupMeeting(client, ClientPrefix, update, false), raises);
      if !ok { PerformedUpTo(s, raises, 2); return; }
      ok := Call(NotifyClient(trigger, Some(url(client, ClientPrefix))), raises);
      if !ok { PerformedUpTo(s, raises, 3); return; }
      PerformedAll(s, raises);
    }

    /** `_handle_reassigned`. */
    method HandleReassigned(p: BookingEventPayload, users: seq<User>, url: (string, string) -> string, raises: Effect -> bool)
      returns (ok: bool)
      modifies this`log
      ensures log == old(log) + Performed(ReassignPlan(p, users, url).steps, raises)
      ensures ok == Completes(ReassignPlan(p, users, url), raises)
    {
      ghost var s := ReassignPlan(p, users, url).steps;
      ok := Call(GetUser(p.newOrganizerEmail), raises);
      if !ok { PerformedUpTo(s, raises, 0); return; }
      var current := NewOrganizer(users, p.newOrganizerEmail);
      if current.None? {
        PerformedAll(s, raises);
        ok := false;
        return;
      }
      var c := current.value;
      assert s == [GetUser(p.newOrganizerEmail), NotifyOrganizer(p.organizer, BookingCancelled, None),
                   SetupMeeting(c.name, "", true, true), NotifyOrganizer(c, BookingCreated, Some(url(c.name, "")))];
      ok := Call(NotifyOrganizer(p.organizer, BookingCancelled, None), raises);
      if !ok { PerformedUpTo(s, raises, 1); return; }
      ok := Call(SetupMeeting(c.name, "", true, true), raises);
      if !ok { PerformedUpTo(s, raises, 2); return; }
      ok := Call(NotifyOrganizer(c, BookingCreated, Some(url(c.name, ""))), raises);
      if !ok { PerformedUpTo(s, raises, 3); return; }
      PerformedAll(s, raises);
    }

    /** `_handle_cancelled`. */
    method HandleCancelled(p: BookingEventPayload, trigger: TriggerEvent, raises: Effect -> bool) returns (ok: bool)
      modifies this`log
      ensures log == old(log) + Performed(CancelPlan(p, trigger).steps, raises)
      ensures ok == Completes(CancelPlan(p, trigger), raises)
    {
      ghost var s := CancelPlan(p, trigger).steps;
      ok := Call(NotifyOrganizer(p.organizer, trigger, None), raises);
      if !ok { PerformedUpTo(s, raises, 0); return; }
      ok := Call(NotifyClient(trigger, None), raises);
      if !ok { PerformedUpTo(s, raises, 1); return; }
      ok := Call(DeleteMeeting(""), raises);
      if !ok { PerformedUpTo(s, raises, 2); return; }
      ok := Call(DeleteMeeting(ClientPrefix), raises);
      if !ok { PerformedUpTo(s, raises, 3); return; }
      PerformedAll(s, raises);
    }

    /**
     * `_background_processing` (run by `handle_booking` as a background
     * task): the flow for the trigger event, whose exception, if any, is
     * swallowed.
     */
    method BackgroundProcessing(ev: BookingEvent, users: seq<User>, url: (string, string) -> string, raises: Effect -> bool)
      modifies this`log
      ensures log == old(log) + Performed(EventPlan(ev, users, url).steps, raises)
    {
      var ok;
      match ev.triggerEvent
      case BookingCreated =>
        ok := ProcessBookingFlow(ev.payload, ev.triggerEvent, false, url, raises);
      case BookingRescheduled =>
        ok := ProcessBookingFlow(ev.payload, ev.triggerEvent, true, url, raises);
      case BookingPaymentInitiated =>
        ok := HandleReassigned(ev.payload, users, url, raises);
      case BookingCancelled =>
        ok := HandleCancelled(ev.payload, ev.triggerEvent, raises);
      case _ =>
    }
  }
}
