/**
 * The AI chat handler (`lambda-chat.js`): the prompt is whatever
 * `getMessageText` yields (`null` for a foreign chat, since this handler has
 * no 403 branch), the completion comes from `askAi` and is handed to
 * `sendResponse`.
 */
module LambdaChat {
  import opened Js
  import opened Telegram
  import opened ApiGateway

  /** The handler after the body has been parsed. */
  function Converse(body: JsValue, allowedChatId: JsValue, askAi: JsValue -> Result<string>, sendResponse: string -> Outcome): (r: Invocation)
    ensures GetMessageText(TelegramChat(body), allowedChatId).Throw? ==>
      r == Invocation(ServerError(GetMessageText(TelegramChat(body), allowedChatId).error), [])
    ensures GetMessageText(TelegramChat(body), allowedChatId).Ok? ==>
      var prompt := GetMessageText(TelegramChat(body), allowedChatId).value;
      && |r.calls| > 0 && r.calls[0] == AskedAi(prompt)
      && (askAi(prompt).Throw? ==> r == Invocation(ServerError(askAi(prompt).error), r.calls[..1]))
      && (askAi(prompt).Ok? ==>
            r.calls[1..] == [SentResponse(askAi(prompt).value)] &&
            r.response == (match sendResponse(askAi(prompt).value)
                           case Pass => SuccessResponse
                           case Fail(e) => ServerError(e)))
  {
    match GetMessageText(TelegramChat(body), allowedChatId)
    case Throw(e) => Invocation(ServerError(e), [])
    case Ok(prompt) =>
      match askAi(prompt)
      case Throw(e) => Invocation(ServerError(e), [AskedAi(prompt)])
      case Ok(completion) =>
        var calls := [AskedAi(prompt), SentResponse(completion)];
        match sendResponse(completion)
        case Pass => Invocation(SuccessResponse, calls)
        case Fail(e) => Invocation(ServerError(e), calls)
  }

  /** `handler(event)` of `lambda-chat.js`; `allowedChatId` is `TELEGRAM_CHAT_ID`. */
  function Handler(event: Event, parse: Parser, allowedChatId: JsValue, askAi: JsValue -> Result<string>, sendResponse: string -> Outcome): (r: Invocation)
    ensures ReadRequest(event, parse).Rejected? ==>
      r == Invocation(ReadRequest(event, parse).response, [])
    ensures ReadRequest(event, parse).Parsed? ==>
      r == Converse(ReadRequest(event, parse).body, allowedChatId, askAi, sendResponse)
    ensures r.response.statusCode in {200, 400, 500}
    ensures r.response.statusCode == 200 ==> r.response == SuccessResponse
    ensures r.response.statusCode == 500 ==> r.response.headers == CorsHeaders && r.response.body.ErrorField?
  {
    match ReadRequest(event, parse)
    case Rejected(response) => Invocation(response, [])
    case Parsed(body) => Converse(body, allowedChatId, askAi, sendResponse)
  }

  /** A foreign chat is not refused: the AI is asked with a `null` prompt. */
  lemma ForeignChatAsksWithNull(event: Event, parse: Parser, allowedChatId: JsValue, askAi: JsValue -> Result<string>, sendResponse: string -> Outcome)
    requires ReadRequest(event, parse).Parsed?
    requires GetChatId(TelegramChat(ReadRequest(event, parse).body)).Ok?
    requires GetChatId(TelegramChat(ReadRequest(event, parse).body)).value != allowedChatId
    ensures Handler(event, parse, allowedChatId, askAi, sendResponse).calls[0] == AskedAi(Null)
    ensures Handler(event, parse, allowedChatId, askAi, sendResponse).response.statusCode != 403
  {
  }

  /** When neither the AI call nor the send throws, the answer is 200 with CORS headers. */
  lemma QuietCallsSucceed(event: Event, parse: Parser, allowedChatId: JsValue, askAi: JsValue -> Result<string>, sendResponse: string -> Outcome)
    requires ReadRequest(event, parse).Parsed?
    requires GetChatId(TelegramChat(ReadRequest(event, parse).body)).Ok?
    requires forall p :: askAi(p).Ok?
    requires forall t :: sendResponse(t).Pass?
    ensures Handler(event, parse, allowedChatId, askAi, sendResponse).response == Response(200, CorsHeaders, EmptyString)
  {
  }
}
