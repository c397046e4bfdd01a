/**
 * The direct chat handler (`lambda.js`): it answers only the configured chat,
 * with "Hello, " followed by the text it received, through the Telegram
 * `sendMessage` endpoint. A failed send is logged and otherwise ignored.
 */
module LambdaEcho {
  import opened Js
  import opened Telegram
  import opened ApiGateway

  /** The 403 answer; unlike every other answer it carries no headers. */
  const NotAuthorizedResponse := Response(403, [], MessageField("Not authorized"))

  /** The `sendMessage` request body: `{ chat_id, text }`. */
  datatype SendRequest = SendRequest(chatId: JsValue, text: string)

  /** `` `Hello, ${prompt}` ``, which throws when `prompt` cannot be converted. */
  function Completion(prompt: JsValue): (r: Result<string>)
    ensures r.Throw? <==> !Convertible(prompt)
    ensures r.Throw? ==> r.error == CannotConvert
    ensures r.Ok? ==> |r.value| >= 7 && r.value[..7] == "Hello, "
    ensures prompt.Str? ==> r == Ok("Hello, " + prompt.s)
    ensures prompt == Undefined ==> r == Ok("Hello, undefined")
    ensures prompt == Null ==> r == Ok("Hello, null")
    ensures prompt.Num? && prompt.n >= 0 ==>
      r.Ok? && |r.value| > 7 && IsDigits(r.value[7..]) && DecimalValue(r.value[7..]) == prompt.n && (r.value[7..] == "0" || r.value[7] != '0')
  {
    var text :- ToDisplayString(prompt);
    assert prompt == Undefined ==> "Hello, " + text == "Hello, undefined";
    assert prompt == Null ==> "Hello, " + text == "Hello, null";
    Ok("Hello, " + text)
  }

  /**
   * The handler after the body has been parsed: the chat id is checked
   * before anything is sent, and the send's outcome does not matter.
   */
  function Reply(body: JsValue, allowedChatId: JsValue, sendMessage: SendRequest -> Outcome): (r: Invocation)
    ensures GetChatId(TelegramChat(body)).Throw? ==>
      r == Invocation(ServerError(GetChatId(TelegramChat(body)).error), [])
    ensures GetChatId(TelegramChat(body)).Ok? && GetChatId(TelegramChat(body)).value != allowedChatId ==>
      r == Invocation(NotAuthorizedResponse, [])
    ensures GetChatId(TelegramChat(body)).Ok? && GetChatId(TelegramChat(body)).value == allowedChatId ==>
      var completion := Completion(Get(MessageOf(TelegramChat(body)).value, "text").value);
      && (completion.Throw? ==> r == Invocation(ServerError(completion.error), []))
      && (completion.Ok? ==> r == Invocation(SuccessResponse, [SentMessage(allowedChatId, completion.value)]))
  {
    var chat := TelegramChat(body);
    match GetChatId(chat)
    case Throw(e) => Invocation(ServerError(e), [])
    case Ok(id) =>
      if id != allowedChatId then Invocation(NotAuthorizedResponse, [])
      else
        // reading the chat id succeeded, so `message.text` can be read
        var prompt := Get(MessageOf(chat).value, "text").value;
        match Completion(prompt)
        case Throw(e) => Invocation(ServerError(e), [])
        case Ok(completion) =>
          var _ := sendMessage(SendRequest(allowedChatId, completion));
          Invocation(SuccessResponse, [SentMessage(allowedChatId, completion)])
  }

  /** `handler(event)` of `lambda.js`; `allowedChatId` is `TELEGRAM_CHAT_ID`. */
  function Handler(event: Event, parse: Parser, allowedChatId: JsValue, sendMessage: SendRequest -> Outcome): (r: Invocation)
    ensures ReadRequest(event, parse).Rejected? ==>
      r == Invocation(ReadRequest(event, parse).response, [])
    ensures ReadRequest(event, parse).Parsed? ==>
      r == Reply(ReadRequest(event, parse).body, allowedChatId, sendMessage)
    ensures r.response.statusCode in {200, 400, 403, 500}
    ensures r.response.statusCode == 403 ==> r.response == NotAuthorizedResponse && r.calls == []
    ensures r.response.statusCode == 200 ==> r.response == SuccessResponse
  {
    match ReadRequest(event, parse)
    case Rejected(response) => Invocation(response, [])
    case Parsed(body) => Reply(body, allowedChatId, sendMessage)
  }

  /** Whether the send succeeds or throws, the invocation is the same. */
  lemma SendFailureSwallowed(event: Event, parse: Parser, allowedChatId: JsValue, send1: SendRequest -> Outcome, send2: SendRequest -> Outcome)
    ensures Handler(event, parse, allowedChatId, send1) == Handler(event, parse, allowedChatId, send2)
  {
  }

  /** A message from any other chat is refused with 403 and nothing is sent. */
  lemma ForeignChatRefused(event: Event, parse: Parser, allowedChatId: JsValue, sendMessage: SendRequest -> Outcome, id: JsValue, text: string)
    requires !NoBody(event)
    requires parse(event.body.value) == Ok(Obj(map["message" := Obj(map["chat" := Obj(map["id" := id]), "text" := Str(text)])]))
    requires id != allowedChatId
    ensures Handler(event, parse, allowedChatId, sendMessage) == Invocation(Response(403, [], MessageField("Not authorized")), [])
  {
  }

  /** The allowed chat is greeted with its own text and answered 200 with CORS headers. */
  lemma AllowedChatGreeted(event: Event, parse: Parser, allowedChatId: JsValue, sendMessage: SendRequest -> Outcome, text: string)
    requires !NoBody(event)
    requires parse(event.body.value) == Ok(Obj(map["message" := Obj(map["chat" := Obj(map["id" := allowedChatId]), "text" := Str(text)])]))
    ensures Handler(event, parse, allowedChatId, sendMessage) ==
      Invocation(Response(200, CorsHeaders, EmptyString), [SentMessage(allowedChatId, "Hello, " + text)])
  {
  }

  /** A payload without `message` makes the id read throw, answered 500 with V8's message. */
  lemma MissingMessageIsServerError(event: Event, parse: Parser, allowedChatId: JsValue, sendMessage: SendRequest -> Outcome, fields: map<string, JsValue>)
    requires !NoBody(event) && parse(event.body.value) == Ok(Obj(fields)) && "message" !in fields
    ensures Handler(event, parse, allowedChatId, sendMessage) ==
      Invocation(Response(500, CorsHeaders, ErrorField("Cannot read properties of undefined (reading 'chat')")), [])
  {
    assert ReadErrorMessage(Undefined, "chat") == "Cannot read properties of undefined (reading 'chat')";
  }

  /** The body `null` parses, and reading `message` of it throws; answered 500. */
  lemma NullPayloadIsServerError(event: Event, parse: Parser, allowedChatId: JsValue, sendMessage: SendRequest -> Outcome)
    requires !NoBody(event) && parse(event.body.value) == Ok(Null)
    ensures Handler(event, parse, allowedChatId, sendMessage) ==
      Invocation(Response(500, CorsHeaders, ErrorField("Cannot read properties of null (reading 'message')")), [])
  {
    assert ReadErrorMessage(Null, "message") == "Cannot read properties of null (reading 'message')";
  }

  /** A `message` without `chat` makes the id read throw; answered 500, nothing sent. */
  lemma MissingChatIsServerError(event: Event, parse: Parser, allowedChatId: JsValue, sendMessage: SendRequest -> Outcome, fields: map<string, JsValue>)
    requires !NoBody(event) && parse(event.body.value) == Ok(Obj(map["message" := Obj(fields)])) && "chat" !in fields
    ensures Handler(event, parse, allowedChatId, sendMessage) ==
      Invocation(Response(500, CorsHeaders, ErrorField("Cannot read properties of undefined (reading 'id')")), [])
  {
    assert ReadErrorMessage(Undefined, "id") == "Cannot read properties of undefined (reading 'id')";
  }

  /**
   * A text the template literal cannot convert, such as an object with an own
   * `toString` field, makes the greeting throw before the send: answered 500
   * with V8's message, and nothing is sent.
   */
  lemma UnconvertibleTextIsServerError(event: Event, parse: Parser, allowedChatId: JsValue, sendMessage: SendRequest -> Outcome, text: JsValue)
    requires !NoBody(event)
    requires parse(event.body.value) == Ok(Obj(map["message" := Obj(map["chat" := Obj(map["id" := allowedChatId]), "text" := text])]))
    requires !Convertible(text)
    ensures Handler(event, parse, allowedChatId, sendMessage) ==
      Invocation(Response(500, CorsHeaders, ErrorField("Cannot convert object to primitive value")), [])
  {
  }

  /** The object `{ "toString": 1 }` is such a text. */
  lemma OwnToStringIsUnconvertible(value: JsValue)
    ensures !Convertible(Obj(map["toString" := value]))
    ensures Completion(Obj(map["toString" := value])) == Throw(CannotConvert)
  {
  }
}
