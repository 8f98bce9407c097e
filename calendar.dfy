/**
 * The calendar side of creating an event: the details the extraction step returns, the end
 * time derived from them, the event payload handed to the calendar insert call, and the
 * response reported on success.
 *
 * Date-times are `Instant`s, whole minutes on an absolute time line: the start has already
 * been parsed from its ISO 8601 text and converted to US Eastern time, and rendering an
 * instant back to ISO 8601 text is not modelled.
 */
module Calendar {
  import opened Wrappers

  /** An absolute point in time, in minutes. */
  type Instant = int

  /** The parsed result of the extraction call (`NewEventDetails`). */
  datatype NewEventDetails = NewEventDetails(
    name: string,
    date: string,                  // ISO 8601 text, possibly without a UTC offset
    durationMinutes: Option<int>,  // any integer; no positivity is enforced
    location: Option<string>,
    description: string)

  /** One attendee entry, `{'email': ...}`. */
  datatype Attendee = Attendee(email: string)

  /** One reminder override; `reminderMethod` is the payload's `method` key. */
  datatype ReminderOverride = ReminderOverride(reminderMethod: string, minutes: int)

  datatype Reminders = Reminders(useDefault: bool, overrides: seq<ReminderOverride>)

  /** The payload's `{'dateTime': ...}` entry. */
  datatype EventDateTime = EventDateTime(dateTime: Instant)

  /** The event dictionary built for the calendar insert call. */
  datatype Event = Event(
    summary: string,
    location: string,
    description: string,
    start: EventDateTime,
    end: EventDateTime,
    attendees: seq<Attendee>,
    reminders: Reminders)

  /** The final response (`CalendarResponse`). */
  datatype CalendarResponse = CalendarResponse(success: bool, message: string, calendarLink: Option<string>)

  /** Length of an event whose duration the extraction left out. */
  const DefaultDurationMinutes: int := 60

  /** Minutes before the start at which the single popup reminder fires. */
  const ReminderLeadMinutes: int := 10

  /** The prefix of the synthetic calendar link; the event name follows it. */
  const CalendarLinkPrefix: string := "calendar://new?event="

  /** Every event overrides the default reminders with one popup reminder. */
  const FixedReminders: Reminders :=
    Reminders(false, [ReminderOverride("popup", ReminderLeadMinutes)])

  /** The end of an event starting at `start`: the given duration later, or one hour later when none is given. */
  function EndTime(start: Instant, durationMinutes: Option<int>): Instant
  {
    if durationMinutes.None? then start + DefaultDurationMinutes
    else start + durationMinutes.value
  }

  /** The event payload built from the arguments of the insert helper. */
  function AddEventToCal(name: string, location: string, description: string,
                         startTime: Instant, endTime: Instant, attendees: seq<Attendee>): Event
  {
    Event(name, location, description, EventDateTime(startTime), EventDateTime(endTime),
          attendees, FixedReminders)
  }

  /** The arguments the handler passes to the insert helper, given the resolved start instant. */
  function ScheduleEvent(details: NewEventDetails, start: Instant, sender: string): Event
  {
    AddEventToCal(details.name, details.location.GetOr(""), details.description,
                  start, EndTime(start, details.durationMinutes), [Attendee(sender)])
  }

  /** The response reported after the event has been inserted. */
  function SuccessResponse(details: NewEventDetails, sender: string): CalendarResponse
  {
    CalendarResponse(
      true,
      "Created new event '" + details.name + "' for " + details.date + " with " + sender,
      Some(CalendarLinkPrefix + details.name))
  }

  /** Without a duration the event lasts exactly sixty minutes. */
  lemma EndTimeDefaultsToOneHour(start: Instant)
    ensures EndTime(start, None) - start == 60
  {
  }

  /** With a duration `d` the event lasts exactly `d` minutes, whatever the sign of `d`. */
  lemma EndTimeUsesDuration(start: Instant, d: int)
    ensures EndTime(start, Some(d)) - start == d
  {
  }

  /** The end lies after the start exactly when no duration is given or the given one is positive. */
  lemma EndAfterStartIffPositiveDuration(start: Instant, durationMinutes: Option<int>)
    ensures EndTime(start, durationMinutes) > start
        <==> durationMinutes.None? || durationMinutes.value > 0
  {
  }

  /** The payload copies summary, location, description, start, end and attendees, and fixes the reminders. */
  lemma PayloadCopiesArguments(name: string, location: string, description: string,
                               startTime: Instant, endTime: Instant, attendees: seq<Attendee>)
    ensures var e := AddEventToCal(name, location, description, startTime, endTime, attendees);
      && e.summary == name && e.location == location && e.description == description
      && e.start.dateTime == startTime && e.end.dateTime == endTime && e.attendees == attendees
      && !e.reminders.useDefault
      && e.reminders.overrides == [ReminderOverride("popup", 10)]
  {
  }

  /**
   * The scheduled event: its one attendee is the sender, its location is the extracted one
   * or `""`, its length is the extracted duration or sixty minutes, and the reminder policy is fixed.
   */
  lemma ScheduledEventShape(details: NewEventDetails, start: Instant, sender: string)
    ensures var e := ScheduleEvent(details, start, sender);
      && e.summary == details.name
      && e.description == details.description
      && (details.location.Some? ==> e.location == details.location.value)
      && (details.location.None? ==> e.location == "")
      && e.attendees == [Attendee(sender)]
      && e.start.dateTime == start
      && (details.durationMinutes.None? ==> e.end.dateTime - e.start.dateTime == 60)
      && (details.durationMinutes.Some? ==> e.end.dateTime - e.start.dateTime == details.durationMinutes.value)
      && e.reminders == FixedReminders
  {
  }

  /**
   * The success message reads "Created new event '<name>' for <date> with <sender>":
   * the name, the extracted date text and the sender stand at fixed places in it.
   */
  lemma SuccessMessageEmbedsDetails(details: NewEventDetails, sender: string)
    ensures var msg := SuccessResponse(details, sender).message;
      var n, d := |details.name|, |details.date|;
      && SuccessResponse(details, sender).success
      && |msg| == 19 + n + 6 + d + 6 + |sender|
      && msg[..19] == "Created new event '"
      && msg[19..19 + n] == details.name
      && msg[19 + n + 6..19 + n + 6 + d] == details.date
      && msg[|msg| - |sender|..] == sender
  {
  }

  /** The calendar link is the prefix followed by the event name, so the link gives back the name. */
  lemma CalendarLinkGivesName(details: NewEventDetails, sender: string)
    ensures var link := SuccessResponse(details, sender).calendarLink;
      && link.Some?
      && link.value[..|CalendarLinkPrefix|] == CalendarLinkPrefix
      && link.value[|CalendarLinkPrefix|..] == details.name
  {
  }
}
