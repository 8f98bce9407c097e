/**
 * The part of a Gmail message the agent reads: its headers, for the sender, and its
 * MIME structure, for the plain-text body.
 *
 * A message is modelled as the Gmail API returns it: a `payload` with `headers`, an optional
 * list of `parts` and an optional top-level `body`. Keys the code indexes without checking
 * (`payload`, `headers`, a part's `mimeType` and `body`) are always present here.
 */
module Mail {
  import opened Wrappers
  import opened Search

  /** One message header, `{'name': ..., 'value': ...}`. */
  datatype Header = Header(name: string, value: string)

  /** A part body, whose `data` key (URL-safe base64 text) may be absent. */
  datatype PartBody = PartBody(data: Option<string>)

  /** One element of `payload['parts']`. Nested parts are not read by the agent. */
  datatype Part = Part(mimeType: string, body: PartBody)

  /** `message['payload']`: the `parts` key is present for multipart messages, `body` may be absent. */
  datatype Payload = Payload(headers: seq<Header>, parts: Option<seq<Part>>, body: Option<PartBody>)

  datatype Message = Message(payload: Payload)

  /** What reading the body yields: the decoded text, or the data whose decoding raised. */
  datatype BodyText = Text(text: string) | Undecodable(data: string)

  /** The placeholder sender used when no `From` header is present. */
  const UnknownSender: string := "(Unknown sender)"

  /** The media type of the part whose text is taken as the body. */
  const PlainText: string := "text/plain"

  /** A part that qualifies as the message body: exactly `text/plain`, and carrying data. */
  predicate IsPlainTextWithData(part: Part)
  {
    part.mimeType == PlainText && part.body.data.Some?
  }

  /** A header that names the sender: its name is exactly `From` (case-sensitive). */
  predicate IsFrom(header: Header)
  {
    header.name == "From"
  }

  /**
   * Applies the decoder (URL-safe base64 followed by UTF-8, an external collaborator given
   * as `decode`; `None` means that one of the two raised) to the data of a part.
   */
  function Decode(decode: string -> Option<string>, data: string): BodyText
  {
    match decode(data)
    case Some(text) => Text(text)
    case None => Undecodable(data)
  }

  /**
   * The body of a message: the decoded data of the first qualifying part of a multipart
   * message; for a message without parts, the decoded top-level body data; `""` otherwise.
   */
  function MessageBody(m: Message, decode: string -> Option<string>): BodyText
  {
    match m.payload.parts
    case Some(parts) =>
      (match FirstWhere(parts, IsPlainTextWithData)
       case Some(k) => Decode(decode, parts[k].body.data.value)
       case None => Text(""))
    case None =>
      if m.payload.body.Some? && m.payload.body.value.data.Some?
      then Decode(decode, m.payload.body.value.data.value)
      else Text("")
  }

  /** The sender of a message: the value of its first `From` header, or the placeholder. */
  function Sender(m: Message): string
  {
    var headers := m.payload.headers;
    match FirstWhere(headers, IsFrom)
    case Some(k) => headers[k].value
    case None => UnknownSender
  }

  /** Scans the parts and returns at the first one that qualifies. */
  method GetMessageBody(m: Message, decode: string -> Option<string>) returns (body: BodyText)
    ensures body == MessageBody(m, decode)
  {
    var payload := m.payload;
    if payload.parts.Some? {
      var parts := payload.parts.value;
      var i := 0;
      while i < |parts|
        invariant 0 <= i <= |parts|
        invariant forall j :: 0 <= j < i ==> !IsPlainTextWithData(parts[j])
      {
        var part := parts[i];
        if part.mimeType == PlainText {
          if part.body.data.Some? {
            FirstWhereIsFirst(parts, IsPlainTextWithData, i);
            return Decode(decode, part.body.data.value);
          }
        }
        i := i + 1;
      }
    } else if payload.body.Some? && payload.body.value.data.Some? {
      return Decode(decode, payload.body.value.data.value);
    }
    return Text("");
  }

  /** Scans the headers and returns the value of the first `From` header. */
  method GetSender(m: Message) returns (sender: string)
    ensures sender == Sender(m)
  {
    var headers := m.payload.headers;
    var i := 0;
    while i < |headers|
      invariant 0 <= i <= |headers|
      invariant forall j :: 0 <= j < i ==> !IsFrom(headers[j])
    {
      if headers[i].name == "From" {
        FirstWhereIsFirst(headers, IsFrom, i);
        return headers[i].value;
      }
      i := i + 1;
    }
    return UnknownSender;
  }

  /** A multipart message takes its body from its first `text/plain` part with data; earlier parts lacking data are skipped. */
  lemma MultipartUsesFirstPlainTextPart(m: Message, decode: string -> Option<string>, k: nat)
    requires m.payload.parts.Some?
    requires k < |m.payload.parts.value|
    requires m.payload.parts.value[k].mimeType == PlainText
    requires m.payload.parts.value[k].body.data.Some?
    requires forall j :: 0 <= j < k ==> !IsPlainTextWithData(m.payload.parts.value[j])
    ensures MessageBody(m, decode) == Decode(decode, m.payload.parts.value[k].body.data.value)
  {
    FirstWhereIsFirst(m.payload.parts.value, IsPlainTextWithData, k);
  }

  /** A multipart message with no qualifying part has the empty body, whatever its top-level body holds. */
  lemma MultipartWithoutPlainTextIsEmpty(m: Message, decode: string -> Option<string>)
    requires m.payload.parts.Some?
    requires forall j :: 0 <= j < |m.payload.parts.value| ==> !IsPlainTextWithData(m.payload.parts.value[j])
    ensures MessageBody(m, decode) == Text("")
  {
  }

  /** A multipart message never falls back to its top-level body: replacing that body changes nothing. */
  lemma MultipartIgnoresTopLevelBody(m: Message, b: Option<PartBody>, decode: string -> Option<string>)
    requires m.payload.parts.Some?
    ensures MessageBody(m.(payload := m.payload.(body := b)), decode) == MessageBody(m, decode)
  {
  }

  /** Once a qualifying part is found, the parts after it are never read. */
  lemma MultipartIgnoresLaterParts(m: Message, later: seq<Part>, decode: string -> Option<string>)
    requires m.payload.parts.Some?
    requires FirstWhere(m.payload.parts.value, IsPlainTextWithData).Some?
    ensures MessageBody(m.(payload := m.payload.(parts := Some(m.payload.parts.value + later))), decode)
         == MessageBody(m, decode)
  {
    var parts := m.payload.parts.value;
    var k := FirstWhere(parts, IsPlainTextWithData).value;
    FirstWhereIgnoresSuffix(parts, later, IsPlainTextWithData);
    assert (parts + later)[k] == parts[k];
  }

  /** A message without parts takes its body from the top-level body data, when present. */
  lemma SinglePartUsesTopLevelBody(m: Message, decode: string -> Option<string>)
    requires m.payload.parts.None?
    requires m.payload.body.Some? && m.payload.body.value.data.Some?
    ensures MessageBody(m, decode) == Decode(decode, m.payload.body.value.data.value)
  {
  }

  /** A message without parts and without top-level body data has the empty body. */
  lemma SinglePartWithoutDataIsEmpty(m: Message, decode: string -> Option<string>)
    requires m.payload.parts.None?
    requires m.payload.body.None? || m.payload.body.value.data.None?
    ensures MessageBody(m, decode) == Text("")
  {
  }

  /** The sender is the value of the first header named exactly `From`. */
  lemma SenderIsFirstFromHeader(m: Message, k: nat)
    requires k < |m.payload.headers| && m.payload.headers[k].name == "From"
    requires forall j :: 0 <= j < k ==> m.payload.headers[j].name != "From"
    ensures Sender(m) == m.payload.headers[k].value
  {
    FirstWhereIsFirst(m.payload.headers, IsFrom, k);
  }

  /** Without a header named exactly `From` the sender is the placeholder. */
  lemma SenderWithoutFromIsUnknown(m: Message)
    requires forall j :: 0 <= j < |m.payload.headers| ==> m.payload.headers[j].name != "From"
    ensures Sender(m) == UnknownSender
  {
  }

  /** A header whose name is not exactly `From` is passed over: putting it first leaves the sender unchanged. */
  lemma NonFromHeaderDoesNotChangeSender(m: Message, h: Header)
    requires h.name != "From"
    ensures Sender(m.(payload := m.payload.(headers := [h] + m.payload.headers))) == Sender(m)
  {
    assert ([h] + m.payload.headers)[1..] == m.payload.headers;
  }

  /** The comparison is case-sensitive: a lower-case `from` header is not a sender. */
  lemma LowerCaseFromIsNotASender(address: string)
    ensures Sender(Message(Payload([Header("from", address)], None, None))) == UnknownSender
  {
  }
}
