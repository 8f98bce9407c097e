/**
 * The decision layer of the agent: the confidence gate over the routing result, the
 * new-event handler, and the processing of one mail message.
 *
 * The two language-model calls, the decoder and the date-time parser are external; they
 * reach the model as the functions bundled in `Collaborators`.
 */
module Agent {
  import opened Wrappers
  import opened Mail
  import opened Calendar

  /** `Literal["new_event", "other"]`. */
  datatype RequestType = NewEvent | Other

  /** The parsed result of the routing call. */
  datatype CalendarRequestType = CalendarRequestType(
    requestType: RequestType,
    confidenceScore: real,
    description: string)  // the cleaned restatement of the request

  /** Routing results scored below this are skipped. */
  const ConfidenceThreshold: real := 0.7

  /** What the gate does with a routing result: skip it, or call the new-event handler with these arguments. */
  datatype GateDecision = Skip | Forward(description: string, sender: string)

  /** Why processing raised instead of returning. */
  datatype Fault =
    | BodyNotDecodable(data: string)      // base64 or UTF-8 decoding of the body raised
    | StartNotIsoFormat(date: string)     // `datetime.fromisoformat` raised on the extracted date

  /**
   * How one request ends: skipped (the handler returns `None`), an event inserted together
   * with the response returned, or an exception.
   */
  datatype RequestOutcome =
    | Skipped
    | Created(inserted: Event, response: CalendarResponse)
    | Raised(fault: Fault)

  /** The external collaborators, as the results they give. */
  datatype Collaborators = Collaborators(
    decode: string -> Option<string>,          // URL-safe base64 then UTF-8; None when either raises
    route: string -> CalendarRequestType,      // the routing call on the message text
    extract: string -> NewEventDetails,        // the extraction call, with today's date in its prompt
    resolveStart: string -> Option<Instant>)   // ISO 8601 parse and conversion to US Eastern; None when parsing raises

  /** The confidence gate: only a confident `new_event` reaches the handler, with the routed description and the sender. */
  function Gate(route: CalendarRequestType, sender: string): GateDecision
  {
    if route.confidenceScore < ConfidenceThreshold then Skip
    else if route.requestType == NewEvent then Forward(route.description, sender)
    else Skip
  }

  /** The new-event handler: extract the details, resolve the start, insert the event, report success. */
  function HandleNewEvent(description: string, sender: string, c: Collaborators): RequestOutcome
  {
    var details := c.extract(description);
    match c.resolveStart(details.date)
    case None => Raised(StartNotIsoFormat(details.date))
    case Some(start) => Created(ScheduleEvent(details, start, sender), SuccessResponse(details, sender))
  }

  /** Route the text, then gate the routing result. */
  function ProcessCalendarRequest(userInput: string, sender: string, c: Collaborators): RequestOutcome
  {
    match Gate(c.route(userInput), sender)
    case Skip => Skipped
    case Forward(description, from) => HandleNewEvent(description, from, c)
  }

  /** One message of the batch: read its body, then its sender, then process the request. */
  function ProcessMessage(m: Message, c: Collaborators): RequestOutcome
  {
    match MessageBody(m, c.decode)
    case Undecodable(data) => Raised(BodyNotDecodable(data))
    case Text(body) => ProcessCalendarRequest(body, Sender(m), c)
  }

  /** Below the threshold the gate skips, whatever the request type. */
  lemma LowConfidenceIsSkipped(route: CalendarRequestType, sender: string)
    requires route.confidenceScore < 0.7
    ensures Gate(route, sender) == Skip
  {
  }

  /** At or above the threshold, a request of type `other` is skipped. */
  lemma OtherRequestIsSkipped(route: CalendarRequestType, sender: string)
    requires route.confidenceScore >= 0.7 && route.requestType == Other
    ensures Gate(route, sender) == Skip
  {
  }

  /** At or above the threshold, a `new_event` request reaches the handler with the routed description and the original sender. */
  lemma ConfidentNewEventIsForwarded(route: CalendarRequestType, sender: string)
    requires route.confidenceScore >= 0.7 && route.requestType == NewEvent
    ensures Gate(route, sender) == Forward(route.description, sender)
  {
  }

  /** A request is skipped exactly when the gate says so; otherwise the handler's outcome is returned unchanged. */
  lemma SkippedIffGateSkips(userInput: string, sender: string, c: Collaborators)
    ensures ProcessCalendarRequest(userInput, sender, c) == Skipped
        <==> c.route(userInput).confidenceScore < 0.7 || c.route(userInput).requestType == Other
    ensures Gate(c.route(userInput), sender) != Skip ==>
      ProcessCalendarRequest(userInput, sender, c) == HandleNewEvent(c.route(userInput).description, sender, c)
  {
  }

  /** The handler raises exactly when the extracted date does not parse, and inserts nothing then. */
  lemma UnparsableStartRaises(description: string, sender: string, c: Collaborators)
    ensures HandleNewEvent(description, sender, c).Raised?
        <==> c.resolveStart(c.extract(description).date).None?
    ensures HandleNewEvent(description, sender, c).Raised? ==>
      HandleNewEvent(description, sender, c).fault == StartNotIsoFormat(c.extract(description).date)
  {
  }

  /**
   * An event is created only for a confident `new_event`; it is built from the details extracted
   * from the routed description, has the sender as its one attendee, lasts the extracted duration
   * or sixty minutes, and comes with the success response.
   */
  lemma CreatedEventFollowsRouting(userInput: string, sender: string, c: Collaborators)
    requires ProcessCalendarRequest(userInput, sender, c).Created?
    ensures var route := c.route(userInput);
      var details := c.extract(route.description);
      var e := ProcessCalendarRequest(userInput, sender, c).inserted;
      var r := ProcessCalendarRequest(userInput, sender, c).response;
      && route.confidenceScore >= 0.7 && route.requestType == NewEvent
      && c.resolveStart(details.date) == Some(e.start.dateTime)
      && e.summary == details.name
      && e.location == details.location.GetOr("")
      && e.description == details.description
      && e.attendees == [Attendee(sender)]
      && e.end.dateTime - e.start.dateTime
         == (if details.durationMinutes.None? then 60 else details.durationMinutes.value)
      && e.reminders == Reminders(false, [ReminderOverride("popup", 10)])
      && r == CalendarResponse(true,
           "Created new event '" + details.name + "' for " + details.date + " with " + sender,
           Some("calendar://new?event=" + details.name))
  {
  }

  /** The one attendee of an event created from a message is that message's sender. */
  lemma AttendeeIsMessageSender(m: Message, c: Collaborators)
    requires ProcessMessage(m, c).Created?
    ensures ProcessMessage(m, c).inserted.attendees == [Attendee(Sender(m))]
    ensures MessageBody(m, c.decode).Text?
  {
  }

  /** A body that does not decode raises before the router is consulted. */
  lemma UndecodableBodyRaises(m: Message, c: Collaborators)
    requires MessageBody(m, c.decode).Undecodable?
    ensures ProcessMessage(m, c) == Raised(BodyNotDecodable(MessageBody(m, c.decode).data))
  {
  }

  /** The outcome of a message depends on its text only through the routing result. */
  lemma OutcomeDependsOnlyOnRouting(a: string, b: string, sender: string, c: Collaborators)
    requires c.route(a) == c.route(b)
    ensures ProcessCalendarRequest(a, sender, c) == ProcessCalendarRequest(b, sender, c)
  {
  }
}
