# ai-calendar-agent: the decision layer, in Dafny

The agent reads unread Gmail messages, asks a language model whether each one asks for a
meeting, and if so creates a Google Calendar event with the sender as attendee. Almost all of
the program is calls to external services. This project models the deterministic layer
between those calls:

- **Body and sender extraction** (`Mail`). The body is the first `text/plain` part that has
  data in a multipart message, or the top-level body data in a message without parts, or `""`.
  The sender is the value of the first header named exactly `From`, or `(Unknown sender)`.
  Both searches are loop methods, `GetMessageBody` and `GetSender`. They are proved equal to
  the specification functions `MessageBody` and `Sender`, which are built on a generic
  first-match search, `Search.FirstWhere`.
- **Event construction** (`Calendar`). The end time is the start plus the extracted duration,
  or plus 60 minutes when there is none. The location is the extracted one, or `""`. The only
  attendee is the sender. Reminders are always one popup 10 minutes before the start. On
  success, the response carries a message and a synthetic `calendar://new?event=<name>` link.
- **Confidence gate and pipeline** (`Agent`). A routing result scored below 0.7 is skipped.
  A result of type `other` is skipped too. A confident `new_event` goes to the handler with the
  routed description and the original sender. `ProcessMessage` chains body, sender, routing,
  the gate and the handler for one message.

The external collaborators are passed in as functions, bundled in `Agent.Collaborators`:

- `decode`: URL-safe base64 decoding followed by UTF-8 decoding. `None` means one of them raised.
- `route`: the routing model call.
- `extract`: the extraction model call. The current date that goes into its prompt is folded in.
- `resolveStart`: `datetime.fromisoformat` followed by conversion to America/New_York.
  `None` means parsing raised.

Instants are whole minutes on an absolute time line, so the duration arithmetic is exact.
The start instant keeps the offset it had when resolved. Adding a `timedelta` to it therefore
moves the absolute instant by exactly that many minutes.

Edge cases of the code that the model keeps as written:

- The code checks only whether the duration `is None` (ai-calendar-agent.py:165). A zero or
  negative duration is used as given, and `Calendar.EndAfterStartIffPositiveDuration` shows
  that the end then does not lie after the start.
- `astimezone` reads a date-time without a UTC offset in the host's local zone and then
  converts it (ai-calendar-agent.py:162). Both steps sit inside `resolveStart`.
- There is no `try` around the per-message call (ai-calendar-agent.py:203-206), so an
  exception in one message ends the run. The model reports such a message as `Raised` and
  does not model the batch.
- The threshold is the literal 0.7 (ai-calendar-agent.py:185). Here it is the constant
  `Agent.ConfidenceThreshold`.

## Model

| member | source | states |
|---|---|---|
| Search.FirstWhere | ai-calendar-agent.py:220-225 | the index returned satisfies the test and no earlier element does; `None` exactly when no element satisfies it |
| Search.FirstWhereIsFirst | ai-calendar-agent.py:222-224 | a satisfying index with no satisfying element before it is the one the search finds |
| Search.FirstWhereIgnoresSuffix | ai-calendar-agent.py:211-214 | once a match exists, appending elements does not change the result (the scan returns early) |
| Mail.GetMessageBody | ai-calendar-agent.py:208-218 | the loop over the parts returns exactly the body `MessageBody` specifies |
| Mail.GetSender | ai-calendar-agent.py:220-225 | the loop over the headers returns exactly the sender `Sender` specifies |
| Mail.MultipartUsesFirstPlainTextPart | ai-calendar-agent.py:209-214 | a multipart body is the decoded data of the first `text/plain` part that has data; parts without data are skipped, and a decoding failure there is not recovered by later parts |
| Mail.MultipartWithoutPlainTextIsEmpty | ai-calendar-agent.py:209-218 | a multipart message with no qualifying part has body `""` |
| Mail.MultipartIgnoresTopLevelBody | ai-calendar-agent.py:209-217 | a multipart message never falls back to its top-level body: changing that body leaves the result unchanged |
| Mail.MultipartIgnoresLaterParts | ai-calendar-agent.py:211-214 | parts after the first qualifying one never affect the body |
| Mail.SinglePartUsesTopLevelBody | ai-calendar-agent.py:215-217 | a message without parts whose top-level body has data yields that data decoded |
| Mail.SinglePartWithoutDataIsEmpty | ai-calendar-agent.py:215-218 | a message without parts and without top-level body data yields `""` |
| Mail.SenderIsFirstFromHeader | ai-calendar-agent.py:222-224 | the sender is the value of the first header named exactly `From` |
| Mail.SenderWithoutFromIsUnknown | ai-calendar-agent.py:220-225 | with no header named `From` the sender is `(Unknown sender)` |
| Mail.NonFromHeaderDoesNotChangeSender | ai-calendar-agent.py:222-224 | a header whose name is not exactly `From` (a lower-case `from`, say) put in front of the headers leaves the sender unchanged |
| Mail.LowerCaseFromIsNotASender | ai-calendar-agent.py:223 | the header name comparison is case-sensitive: a `from` header does not give a sender |
| Calendar.EndTimeDefaultsToOneHour | ai-calendar-agent.py:164-166 | without a duration, end minus start is exactly 60 minutes |
| Calendar.EndTimeUsesDuration | ai-calendar-agent.py:167-168 | with duration `d`, end minus start is exactly `d`, for every integer `d` |
| Calendar.EndAfterStartIffPositiveDuration | ai-calendar-agent.py:164-168 | the end lies after the start if and only if the duration is absent or positive |
| Calendar.PayloadCopiesArguments | ai-calendar-agent.py:55-72 | the payload copies summary, location, description, start, end and attendees unchanged, and reminders are `useDefault` false with one popup override of 10 minutes |
| Calendar.ScheduledEventShape | ai-calendar-agent.py:164-171 | the handler's event has the sender as its only attendee, the extracted location or `""`, the extracted duration or 60 minutes, and the fixed reminders |
| Calendar.SuccessMessageEmbedsDetails | ai-calendar-agent.py:173-175 | the success response has `success` true, and its message holds the name, the extracted date text and the sender at fixed places |
| Calendar.CalendarLinkGivesName | ai-calendar-agent.py:176 | the link is `calendar://new?event=` followed by the event name, so removing the prefix gives back the name |
| Agent.LowConfidenceIsSkipped | ai-calendar-agent.py:185-187 | a routing score below 0.7 is skipped whatever the request type |
| Agent.OtherRequestIsSkipped | ai-calendar-agent.py:189-193 | a score of at least 0.7 with type `other` is skipped |
| Agent.ConfidentNewEventIsForwarded | ai-calendar-agent.py:189-190 | a score of at least 0.7 with type `new_event` calls the handler with exactly the routed description and the original sender |
| Agent.SkippedIffGateSkips | ai-calendar-agent.py:179-193 | a request is skipped if and only if its score is below 0.7 or its type is `other`; otherwise the result is the handler's result |
| Agent.UnparsableStartRaises | ai-calendar-agent.py:161-162 | the handler raises exactly when the extracted date does not parse, and then inserts no event |
| Agent.CreatedEventFollowsRouting | ai-calendar-agent.py:138-190 | an event is created only for a confident `new_event`; it is built from the details extracted from the routed description, with the sender as attendee, the duration rule and the fixed reminders, and the success response goes with it |
| Agent.AttendeeIsMessageSender | ai-calendar-agent.py:206 | an event created from a message has that message's sender as its one attendee |
| Agent.UndecodableBodyRaises | ai-calendar-agent.py:206 | a body whose data does not decode raises before the router is called |
| Agent.OutcomeDependsOnlyOnRouting | ai-calendar-agent.py:183-190 | two texts with the same routing result lead to the same outcome |

## Left out

- `get_credentials` (ai-calendar-agent.py:30-47): the OAuth flow and the token file are external library calls and file-system state.
- The network calls: building the API clients, the calendar insert (line 74) and the Gmail list and get in `process_new_messages` (lines 195-206). The model keeps only the payload handed to the insert call. An insert that fails over the network is not modelled.
- The batch loop of `process_new_messages`: it only fetches each message over the network. The work done per message is `Agent.ProcessMessage`.
- `route_calendar_request` and the extraction call in `handle_new_event` (lines 111-135, 142-157): nondeterministic model calls. Their parsed results are the parameters `route` and `extract`, which always return a result. A call that fails over the network raises in the code, and so does a refusal, whose `parsed` is `None` and raises `AttributeError` at line 133 or line 159. Neither is represented, so `Agent.RequestOutcome.Raised` has only the two causes of `Agent.Fault`, and `Agent.UnparsableStartRaises` states "exactly when" only among outcomes where both calls return a result.
- `datetime.fromisoformat`, the conversion to America/New_York, `datetime.now()`, `strftime` and `isoformat`: library date handling. The parse and conversion are the parameter `resolveStart`. The payload holds instants rather than ISO 8601 text. An `OverflowError` from a date outside the supported years is not modelled.
- URL-safe base64 (section 5 of RFC 4648) and UTF-8 decoding: left to the parameter `decode`.
- KeyErrors from a message without `payload` or `headers`, or from a part without `mimeType` or `body`: the model's datatypes always hold those keys. Nested parts inside a part are not read by the code, so they are not represented.
- The confidence score is a real number. It is used only in the comparison with 0.7. The real that stands for a Python float is the float's value as Python prints it, the shortest decimal that parses back to the same double. Under that reading the model's `<` against 0.7 agrees with the code's comparison of doubles. Taking the double's exact binary value instead (0.69999999999999995559… for the float 0.7), or the decimal text the model wrote (`0.69999999999999999` parses to the float 0.7), would make `Agent.Gate` skip a score the code forwards. A NaN score, which compares false with 0.7 in Python and would pass the gate, cannot occur in the model.
- Logging, throughout.
