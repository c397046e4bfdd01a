/**
 * The Gmail push handler (`lambda-gmail.js`): one notification per request.
 * It resolves the pushed `historyId` with `fetchMessage`, formats a valid
 * record into the German notification text with the body cut to 1000
 * characters, and passes it to the chat's `sendResponse`.
 */
module LambdaGmail {
  import opened Js
  import opened GmailFetch
  import opened ApiGateway

  /** How many body characters the notification keeps. */
  const BodyLimit: nat := 1000

  /** `s.substring(0, end)`: the first `end` characters, or all of a shorter `s`. */
  function Substring(s: string, end: nat): (r: string)
    ensures |r| == if |s| <= end then |s| else end
    ensures r == s[..|r|]
  {
    if |s| <= end then s else s[..end]
  }

  /** Cutting twice is cutting once. */
  lemma SubstringIdempotent(s: string, end: nat)
    ensures Substring(Substring(s, end), end) == Substring(s, end)
  {
  }

  /** The notification text up to, and not including, the body. */
  function NotificationHead(from: string, subject: string): string {
    "**Neue E-Mail:**\n_Von:_ " + from + "\n_Betreff:_ " + subject + "\n_Text:_\n"
  }

  /**
   * The text sent for a valid record: the fixed template with sender, subject
   * and the body cut to `BodyLimit` characters; nothing marks the cut.
   */
  function NotificationText(info: MessageInfo): (r: string)
    requires info.valid()
    ensures |NotificationHead(info.from, info.subject)| <= |r| <= |NotificationHead(info.from, info.subject)| + BodyLimit
    ensures r[..|NotificationHead(info.from, info.subject)|] == NotificationHead(info.from, info.subject)
    ensures r[|NotificationHead(info.from, info.subject)|..] == Substring(info.body, BodyLimit)
  {
    NotificationHead(info.from, info.subject) + Substring(info.body, BodyLimit)
  }

  /** A body of at most 1000 characters is sent whole. */
  lemma ShortBodySentWhole(info: MessageInfo)
    requires info.valid() && |info.body| <= BodyLimit
    ensures NotificationText(info) == NotificationHead(info.from, info.subject) + info.body
  {
  }

  /**
   * A longer body is cut to exactly its first 1000 characters and no marker
   * follows; characters after the 1000th never reach the chat.
   */
  lemma LongBodyCutWithoutMarker(info: MessageInfo, other: MessageInfo)
    requires info.valid() && |info.body| > BodyLimit
    requires other.valid() && other.from == info.from && other.subject == info.subject
    requires |other.body| >= BodyLimit && other.body[..BodyLimit] == info.body[..BodyLimit]
    ensures |NotificationText(info)| == |NotificationHead(info.from, info.subject)| + BodyLimit
    ensures NotificationText(info) == NotificationHead(info.from, info.subject) + info.body[..BodyLimit]
    ensures NotificationText(other) == NotificationText(info)
  {
  }

  /** The pipeline after the body has been parsed: fetch, format, send. */
  function Relay(body: JsValue, gmail: GmailApi, decode: Decoder, sendResponse: string -> Outcome): (r: Invocation)
    ensures Nullish(body) ==> r.response.statusCode == 500 && r.calls == []
    ensures !Nullish(body) ==> |r.calls| > 0 && r.calls[0] == FetchedMessage(Get(body, "historyId").value)
    ensures !Nullish(body) ==>
      var info := FetchMessage(gmail, decode, Get(body, "historyId").value);
      && (info.Throw? ==> r == Invocation(ServerError(info.error), r.calls[..1]))
      && (info == Ok(Invalid) ==> r == Invocation(SuccessResponse, r.calls[..1]))
      && (info.Ok? && info.value.valid() ==>
            r.calls[1..] == [SentResponse(NotificationText(info.value))] &&
            r.response == (match sendResponse(NotificationText(info.value))
                           case Pass => SuccessResponse
                           case Fail(e) => ServerError(e)))
  {
    match Get(body, "historyId")
    case Throw(e) => Invocation(ServerError(e), [])
    case Ok(historyId) =>
      var fetched := [FetchedMessage(historyId)];
      match FetchMessage(gmail, decode, historyId)
      case Throw(e) => Invocation(ServerError(e), fetched)
      case Ok(info) =>
        if !info.valid() then Invocation(SuccessResponse, fetched)
        else
          var text := NotificationText(info);
          var calls := fetched + [SentResponse(text)];
          match sendResponse(text)
          case Pass => Invocation(SuccessResponse, calls)
          case Fail(e) => Invocation(ServerError(e), calls)
  }

  /** `handler(event)` of `lambda-gmail.js`. */
  function Handler(event: Event, parse: Parser, gmail: GmailApi, decode: Decoder, sendResponse: string -> Outcome): (r: Invocation)
    ensures ReadRequest(event, parse).Rejected? ==>
      r == Invocation(ReadRequest(event, parse).response, [])
    ensures ReadRequest(event, parse).Parsed? ==>
      r == Relay(ReadRequest(event, parse).body, gmail, decode, sendResponse)
    ensures r.response.statusCode == 200 || r.response.statusCode == 400 || r.response.statusCode == 500
    ensures r.response.statusCode == 200 ==> r.response == SuccessResponse
    ensures r.response.statusCode == 500 ==> r.response.headers == CorsHeaders && r.response.body.ErrorField?
  {
    match ReadRequest(event, parse)
    case Rejected(response) => Invocation(response, [])
    case Parsed(body) => Relay(body, gmail, decode, sendResponse)
  }

  /** A body `JSON.parse` rejects is answered 400 and `fetchMessage` is never called. */
  lemma InvalidJsonNeverFetches(event: Event, parse: Parser, gmail: GmailApi, decode: Decoder, sendResponse: string -> Outcome)
    requires !NoBody(event) && parse(event.body.value).Throw?
    ensures Handler(event, parse, gmail, decode, sendResponse) == Invocation(InvalidJsonResponse, [])
  {
  }

  /** The empty-history error of `fetchMessage` becomes a 500 carrying its message. */
  lemma EmptyHistoryIsServerError(event: Event, parse: Parser, gmail: GmailApi, decode: Decoder, sendResponse: string -> Outcome, historyId: JsValue)
    requires !NoBody(event) && parse(event.body.value) == Ok(Obj(map["historyId" := historyId]))
    requires gmail.listHistory(HistoryQuery(historyId)) == Ok(Some([]))
    ensures Convertible(historyId) ==>
      Handler(event, parse, gmail, decode, sendResponse).response ==
      Response(500, CorsHeaders, ErrorField("No messages found for historyId: " + ToDisplayString(historyId).value))
    ensures !Convertible(historyId) ==>
      Handler(event, parse, gmail, decode, sendResponse).response ==
      Response(500, CorsHeaders, ErrorField("Cannot convert object to primitive value"))
    ensures Handler(event, parse, gmail, decode, sendResponse).calls == [FetchedMessage(historyId)]
  {
  }

  /** A `{ valid: false }` record sends nothing and is still answered 200. */
  lemma InvalidRecordSendsNothing(event: Event, parse: Parser, gmail: GmailApi, decode: Decoder, sendResponse: string -> Outcome, historyId: JsValue)
    requires !NoBody(event) && parse(event.body.value) == Ok(Obj(map["historyId" := historyId]))
    requires FetchMessage(gmail, decode, historyId) == Ok(Invalid)
    ensures Handler(event, parse, gmail, decode, sendResponse) == Invocation(SuccessResponse, [FetchedMessage(historyId)])
  {
  }

  /** A text reaches `sendResponse` only for a valid record, and it is that record's notification text. */
  lemma SendOnlyForValidRecord(event: Event, parse: Parser, gmail: GmailApi, decode: Decoder, sendResponse: string -> Outcome, text: string)
    requires SentResponse(text) in Handler(event, parse, gmail, decode, sendResponse).calls
    ensures ReadRequest(event, parse).Parsed?
    ensures var historyId := Get(ReadRequest(event, parse).body, "historyId").value;
      var info := FetchMessage(gmail, decode, historyId);
      info.Ok? && info.value.valid() && text == NotificationText(info.value)
  {
  }
}
