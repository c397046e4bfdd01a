/**
 * `fetchMessage`: resolve a Gmail history id to the message that was added and
 * extract sender, subject and plain-text body from it. The two Gmail API calls
 * and the base64 decoder are parameters; everything else is `fetchMessage`'s
 * own selection logic.
 */
module GmailFetch {
  import opened Js

  /** One `messagesAdded` item: `{ message: { id } }`. */
  datatype MessageAdded = MessageAdded(messageId: string)

  /** One history record; only its `messagesAdded` field is ever read. */
  datatype HistoryRecord = HistoryRecord(messagesAdded: Option<seq<MessageAdded>>)

  /** `historyResponse.data.history`, which the API omits when there is none. */
  type HistoryList = Option<seq<HistoryRecord>>

  /** A `{ name, value }` message header. */
  datatype Header = Header(name: string, value: string)

  /** A `body` object; its base64 `data` may be absent. */
  datatype PartBody = PartBody(data: Option<string>)

  /** One entry of `payload.parts`. */
  datatype Part = Part(mimeType: string, body: PartBody)

  /** `message.data.payload` of a message fetched in the `full` format. */
  datatype Payload = Payload(headers: seq<Header>, parts: Option<seq<Part>>, body: PartBody)

  /** The `history.list` request. */
  datatype HistoryRequest = HistoryRequest(userId: string, startHistoryId: JsValue, historyTypes: seq<string>)

  /** The `messages.get` request. */
  datatype MessageRequest = MessageRequest(userId: string, id: string, format: string)

  /** The Gmail API as seen by `fetchMessage`: each call answers or throws. */
  datatype GmailApi = GmailApi(
    listHistory: HistoryRequest -> Result<HistoryList>,
    getMessage: MessageRequest -> Result<Payload>)

  /** `Buffer.from(data, 'base64').toString('utf-8')`, a library routine. */
  type Decoder = string -> string

  /** The record `fetchMessage` returns: `{ valid: false }` or the decoded message. */
  datatype MessageInfo =
    | Invalid
    | Valid(from: string, subject: string, body: string, messageId: string)
  {
    predicate valid() {
      Valid?
    }
  }

  /** What the first history record says: no added message, or the id of the first one. */
  datatype Resolution = NoAddedMessage | Added(messageId: string)

  const HistoryTypes: seq<string> := ["messageAdded", "messageDeleted", "labelAdded", "labelRemoved"]
  const NoSubject := "No Subject"
  const UnknownSender := "Unknown Sender"
  const PlainText := "text/plain"

  function HistoryQuery(historyId: JsValue): HistoryRequest {
    HistoryRequest("me", historyId, HistoryTypes)
  }

  function MessageQuery(messageId: string): MessageRequest {
    MessageRequest("me", messageId, "full")
  }

  /**
   * What `fetchMessage` throws for an absent or empty history: its own
   * "No messages found" error, or the conversion error when `${historyId}`
   * itself throws while that message is built.
   */
  function NoMessagesFound(historyId: JsValue): (e: Error)
    ensures Convertible(historyId) ==>
      e.message == "No messages found for historyId: " + ToDisplayString(historyId).value
    ensures !Convertible(historyId) ==> e == CannotConvert
  {
    match ToDisplayString(historyId)
    case Ok(s) => Error("No messages found for historyId: " + s)
    case Throw(e) => e
  }

  /** The message Node throws for `Buffer.from(undefined, 'base64')`. */
  const BufferFromUndefined := Error("The first argument must be of type string or an instance of Buffer, ArrayBuffer, or Array or an Array-like Object. Received undefined")

  /** The index of the element `Array.prototype.find` returns: the first one satisfying `p`. */
  function Find<T>(s: seq<T>, p: T -> bool): (r: Option<nat>)
    ensures r.Some? ==> r.value < |s| && p(s[r.value])
    ensures r.Some? ==> forall j :: 0 <= j < r.value ==> !p(s[j])
    ensures r.None? <==> forall j :: 0 <= j < |s| ==> !p(s[j])
    decreases |s|
  {
    if |s| == 0 then None
    else if p(s[0]) then Some(0)
    else
      match Find(s[1..], p)
      case None => None
      case Some(i) => Some(i + 1)
  }

  /** `i` is the position of the first header called `name`. */
  predicate FirstNamed(headers: seq<Header>, name: string, i: int) {
    0 <= i < |headers| && headers[i].name == name &&
    forall j :: 0 <= j < i ==> headers[j].name != name
  }

  /** No header is called `name`. */
  predicate NoneNamed(headers: seq<Header>, name: string) {
    forall i :: 0 <= i < |headers| ==> headers[i].name != name
  }

  /**
   * `headers.find(h => h.name === name)?.value || fallback`: the value of the
   * first header with exactly that name, unless it is missing or empty.
   */
  function HeaderOr(headers: seq<Header>, name: string, fallback: string): (r: string)
    ensures NoneNamed(headers, name) ==> r == fallback
    ensures forall i :: FirstNamed(headers, name, i) ==>
      r == (if headers[i].value != "" then headers[i].value else fallback)
  {
    match Find(headers, (h: Header) => h.name == name)
    case None => fallback
    case Some(i) => if headers[i].value != "" then headers[i].value else fallback
  }

  predicate IsPlainText(p: Part) {
    p.mimeType == PlainText
  }

  /** `i` is the position of the first part whose MIME type is exactly `text/plain`. */
  predicate FirstPlainPart(parts: seq<Part>, i: int) {
    0 <= i < |parts| && parts[i].mimeType == PlainText &&
    forall j :: 0 <= j < i ==> parts[j].mimeType != PlainText
  }

  /** No part has MIME type exactly `text/plain`. */
  predicate NoPlainPart(parts: seq<Part>) {
    forall i :: 0 <= i < |parts| ==> parts[i].mimeType != PlainText
  }

  /** The first `text/plain` part exists and has no data. */
  predicate MissingPlainData(parts: seq<Part>) {
    exists i :: 0 <= i < |parts| && FirstPlainPart(parts, i) && parts[i].body.data.None?
  }

  /**
   * The body of a multipart message: the decoded data of the first part whose
   * MIME type is exactly `text/plain`, or the empty string when there is none.
   * Parts are scanned one level deep only.
   */
  function MultipartBody(parts: seq<Part>, decode: Decoder): (r: Result<string>)
    ensures NoPlainPart(parts) ==> r == Ok("")
    ensures forall i :: FirstPlainPart(parts, i) && parts[i].body.data.Some? ==>
      r == Ok(decode(parts[i].body.data.value))
    ensures forall i :: FirstPlainPart(parts, i) && parts[i].body.data.None? ==>
      r == Throw(BufferFromUndefined)
  {
    match Find(parts, IsPlainText)
    case None => Ok("")
    case Some(i) =>
      assert FirstPlainPart(parts, i);
      match parts[i].body.data
      case Some(d) => Ok(decode(d))
      case None => Throw(BufferFromUndefined)
  }

  /** The body of a single-part message: its data decoded, unless absent or empty. */
  function SinglePartBody(body: PartBody, decode: Decoder): (r: Result<string>)
    ensures r.Ok?
    ensures body.data.Some? && body.data.value != "" ==> r.value == decode(body.data.value)
    ensures body.data.None? || body.data.value == "" ==> r.value == ""
  {
    match body.data
    case Some(d) => if d != "" then Ok(decode(d)) else Ok("")
    case None => Ok("")
  }

  /**
   * The body text: a present `parts` list (even an empty one) decides alone;
   * otherwise the single-part body is used.
   */
  function SelectBody(payload: Payload, decode: Decoder): (r: Result<string>)
    ensures payload.parts.Some? && NoPlainPart(payload.parts.value) ==> r == Ok("")
    ensures forall i :: payload.parts.Some? && FirstPlainPart(payload.parts.value, i) ==>
      r == (match payload.parts.value[i].body.data
            case Some(d) => Ok(decode(d))
            case None => Throw(BufferFromUndefined))
    ensures payload.parts.None? && payload.body.data.Some? && payload.body.data.value != "" ==>
      r == Ok(decode(payload.body.data.value))
    ensures payload.parts.None? && (payload.body.data.None? || payload.body.data.value == "") ==>
      r == Ok("")
  {
    match payload.parts
    case Some(parts) => MultipartBody(parts, decode)
    case None => SinglePartBody(payload.body, decode)
  }

  /** A multipart message never consults `payload.body`. */
  lemma MultipartIgnoresSingleBody(p: Payload, q: Payload, decode: Decoder)
    requires p.parts.Some? && p.parts == q.parts
    ensures SelectBody(p, decode) == SelectBody(q, decode)
  {
  }

  /** Only a multipart message whose first `text/plain` part lacks data throws. */
  lemma SelectBodyThrowsOnlyOnMissingData(payload: Payload, decode: Decoder)
    ensures SelectBody(payload, decode).Throw? <==>
      payload.parts.Some? && MissingPlainData(payload.parts.value)
  {
  }


  /** The first record has no added message. */
  predicate NothingAddedFirst(history: seq<HistoryRecord>)
    requires |history| > 0
  {
    history[0].messagesAdded.None? || |history[0].messagesAdded.value| == 0
  }

  /**
   * Only the first history record is inspected, and only its first added
   * message; an absent or empty history throws.
   */
  function ResolveHistory(history: HistoryList, historyId: JsValue): (r: Result<Resolution>)
    ensures (history.None? || |history.value| == 0) <==> r.Throw?
    ensures r.Throw? ==> r.error == NoMessagesFound(historyId)
    ensures r == Ok(NoAddedMessage) <==>
      history.Some? && |history.value| > 0 && NothingAddedFirst(history.value)
    ensures r.Ok? && r.value.Added? ==>
      r.value.messageId == history.value[0].messagesAdded.value[0].messageId
  {
    match history
    case None => Throw(NoMessagesFound(historyId))
    case Some(records) =>
      if |records| == 0 then Throw(NoMessagesFound(historyId))
      else
        match records[0].messagesAdded
        case None => Ok(NoAddedMessage)
        case Some(added) =>
          if |added| == 0 then Ok(NoAddedMessage) else Ok(Added(added[0].messageId))
  }

  /** Records after the first one never change the resolution. */
  lemma LaterRecordsIgnored(h1: seq<HistoryRecord>, h2: seq<HistoryRecord>, historyId: JsValue)
    requires |h1| > 0 && |h2| > 0 && h1[0] == h2[0]
    ensures ResolveHistory(Some(h1), historyId) == ResolveHistory(Some(h2), historyId)
  {
  }

  /** The record built from a fetched message. */
  function DecodeMessage(payload: Payload, messageId: string, decode: Decoder): (r: Result<MessageInfo>)
    ensures r.Ok? ==> r.value.valid() && r.value.messageId == messageId
    ensures r.Ok? && NoneNamed(payload.headers, "Subject") ==> r.value.subject == NoSubject
    ensures forall i :: r.Ok? && FirstNamed(payload.headers, "Subject", i) ==>
      r.value.subject == (if payload.headers[i].value != "" then payload.headers[i].value else NoSubject)
    ensures r.Ok? && NoneNamed(payload.headers, "From") ==> r.value.from == UnknownSender
    ensures forall i :: r.Ok? && FirstNamed(payload.headers, "From", i) ==>
      r.value.from == (if payload.headers[i].value != "" then payload.headers[i].value else UnknownSender)
    ensures r.Throw? <==> payload.parts.Some? && MissingPlainData(payload.parts.value)
    ensures r.Throw? ==> r.error == BufferFromUndefined
    ensures r.Ok? && payload.parts.Some? && NoPlainPart(payload.parts.value) ==> r.value.body == ""
    ensures forall i :: payload.parts.Some? && FirstPlainPart(payload.parts.value, i) && payload.parts.value[i].body.data.Some? ==>
      r.Ok? && r.value.body == decode(payload.parts.value[i].body.data.value)
    ensures payload.parts.None? ==>
      r.Ok? && r.value.body == (if payload.body.data.Some? && payload.body.data.value != "" then decode(payload.body.data.value) else "")
  {
    var body :- SelectBody(payload, decode);
    Ok(Valid(
      from := HeaderOr(payload.headers, "From", UnknownSender),
      subject := HeaderOr(payload.headers, "Subject", NoSubject),
      body := body,
      messageId := messageId))
  }

  /** `fetchMessage` once the history has been listed. */
  function FetchFromHistory(gmail: GmailApi, decode: Decoder, historyId: JsValue, history: HistoryList): (r: Result<MessageInfo>)
    ensures ResolveHistory(history, historyId).Throw? ==> r == Throw(NoMessagesFound(historyId))
    ensures r == Ok(Invalid) <==> ResolveHistory(history, historyId) == Ok(NoAddedMessage)
    ensures r.Ok? && r.value.valid() ==>
      ResolveHistory(history, historyId) == Ok(Added(r.value.messageId)) &&
      gmail.getMessage(MessageQuery(r.value.messageId)).Ok?
  {
    var resolution :- ResolveHistory(history, historyId);
    match resolution
    case NoAddedMessage => Ok(Invalid)
    case Added(messageId) =>
      var payload :- gmail.getMessage(MessageQuery(messageId));
      DecodeMessage(payload, messageId, decode)
  }

  /** `history.list` for `historyId` answered with a non-empty history. */
  predicate ListedSome(gmail: GmailApi, historyId: JsValue) {
    var listed := gmail.listHistory(HistoryQuery(historyId));
    listed.Ok? && listed.value.Some? && |listed.value.value| > 0
  }

  /** The first record of a non-empty listed history. */
  function FirstRecord(gmail: GmailApi, historyId: JsValue): HistoryRecord
    requires ListedSome(gmail, historyId)
  {
    gmail.listHistory(HistoryQuery(historyId)).value.value[0]
  }

  /**
   * `fetchMessage(historyId)`: a record is returned only for a non-empty
   * history; it is `{ valid: false }` exactly when the first history record
   * adds no message, and otherwise describes the first message that record
   * adds, fetched by that id.
   */
  function FetchMessage(gmail: GmailApi, decode: Decoder, historyId: JsValue): (r: Result<MessageInfo>)
    ensures gmail.listHistory(HistoryQuery(historyId)).Throw? ==>
      r == Throw(gmail.listHistory(HistoryQuery(historyId)).error)
    ensures gmail.listHistory(HistoryQuery(historyId)).Ok? && !ListedSome(gmail, historyId) ==>
      r == Throw(NoMessagesFound(historyId))
    ensures r.Ok? ==> ListedSome(gmail, historyId)
    ensures r == Ok(Invalid) <==>
      ListedSome(gmail, historyId) && FirstRecord(gmail, historyId).messagesAdded.GetOr([]) == []
    ensures r.Ok? && r.value.valid() ==>
      var added := FirstRecord(gmail, historyId).messagesAdded.GetOr([]);
      && |added| > 0 && r.value.messageId == added[0].messageId
      && gmail.getMessage(MessageQuery(r.value.messageId)).Ok?
      && DecodeMessage(gmail.getMessage(MessageQuery(r.value.messageId)).value, r.value.messageId, decode) == r
  {
    var history :- gmail.listHistory(HistoryQuery(historyId));
    FetchFromHistory(gmail, decode, historyId, history)
  }

  /** An absent or empty history throws, so no record is returned. */
  lemma EmptyHistoryThrows(gmail: GmailApi, decode: Decoder, historyId: JsValue)
    requires gmail.listHistory(HistoryQuery(historyId)) == Ok(None) ||
             gmail.listHistory(HistoryQuery(historyId)) == Ok(Some([]))
    ensures FetchMessage(gmail, decode, historyId) == Throw(NoMessagesFound(historyId))
  {
  }

  /**
   * A first record without added messages yields `{ valid: false }`, whatever
   * later records contain.
   */
  lemma FirstRecordWithoutAdditionIsInvalid(gmail: GmailApi, decode: Decoder, historyId: JsValue, history: seq<HistoryRecord>)
    requires gmail.listHistory(HistoryQuery(historyId)) == Ok(Some(history))
    requires |history| > 0 && NothingAddedFirst(history)
    ensures FetchMessage(gmail, decode, historyId) == Ok(Invalid)
  {
  }

  /**
   * When the first record adds a message, exactly that message is fetched and
   * the record carries its id, headers and body, with `valid` set.
   */
  lemma FirstAddedMessageIsFetched(gmail: GmailApi, decode: Decoder, historyId: JsValue, history: seq<HistoryRecord>, payload: Payload)
    requires gmail.listHistory(HistoryQuery(historyId)) == Ok(Some(history))
    requires |history| > 0 && !NothingAddedFirst(history)
    requires gmail.getMessage(MessageQuery(history[0].messagesAdded.value[0].messageId)) == Ok(payload)
    requires SelectBody(payload, decode).Ok?
    ensures FetchMessage(gmail, decode, historyId) == Ok(Valid(
      from := HeaderOr(payload.headers, "From", UnknownSender),
      subject := HeaderOr(payload.headers, "Subject", NoSubject),
      body := SelectBody(payload, decode).value,
      messageId := history[0].messagesAdded.value[0].messageId))
  {
  }

  /** A failing `messages.get` propagates its error unchanged. */
  lemma MessageFetchFailurePropagates(gmail: GmailApi, decode: Decoder, historyId: JsValue, history: seq<HistoryRecord>, e: Error)
    requires gmail.listHistory(HistoryQuery(historyId)) == Ok(Some(history))
    requires |history| > 0 && !NothingAddedFirst(history)
    requires gmail.getMessage(MessageQuery(history[0].messagesAdded.value[0].messageId)) == Throw(e)
    ensures FetchMessage(gmail, decode, historyId) == Throw(e)
  {
  }
}
