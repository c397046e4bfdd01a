/**
 * The request/response contract shared by the three Lambda handlers: the
 * proxy event, the response record, the fixed header sets and the two 400
 * answers every handler gives before it looks at the request's content.
 */
module ApiGateway {
  import opened Js

  /** The proxy event; only `event.body` (a string, or absent) is read. */
  datatype Event = Event(body: Option<string>)

  /** The value a response body is `JSON.stringify` of. */
  datatype ResponseBody =
    | ErrorField(error: string)      // { error: ... }
    | MessageField(message: string)  // { message: ... }
    | EmptyString                    // ""

  datatype Response = Response(statusCode: int, headers: seq<(string, string)>, body: ResponseBody)

  /** An external call a handler made, in the order made. */
  datatype Call =
    | FetchedMessage(historyId: JsValue)
    | AskedAi(prompt: JsValue)
    | SentResponse(text: string)
    | SentMessage(chatId: JsValue, text: string)

  /** What one invocation did: its response and the external calls it made. */
  datatype Invocation = Invocation(response: Response, calls: seq<Call>)

  const JsonContentType: seq<(string, string)> := [("Content-Type", "application/json")]

  const CorsHeaders: seq<(string, string)> := JsonContentType + [
    ("Access-Control-Allow-Origin", "*"),
    ("Access-Control-Allow-Headers", "Content-Type"),
    ("Access-Control-Allow-Methods", "POST, OPTIONS")]

  const NoBodyResponse := Response(400, JsonContentType, ErrorField("No request body provided"))
  const InvalidJsonResponse := Response(400, JsonContentType, ErrorField("Invalid JSON in request body"))
  const SuccessResponse := Response(200, CorsHeaders, EmptyString)

  /** The `catch (error)` answer: status 500 carrying `error.message`. */
  function ServerError(e: Error): Response {
    Response(500, CorsHeaders, ErrorField(e.message))
  }

  /** `!event.body`: the body is absent or the empty string. */
  predicate NoBody(event: Event) {
    event.body.None? || event.body.value == ""
  }

  /** Reading the request: an early 400 answer, or the parsed body. */
  datatype Request = Rejected(response: Response) | Parsed(body: JsValue)

  /**
   * The first two steps of every handler: a falsy body is answered with 400
   * "No request body provided", a body `JSON.parse` rejects with 400
   * "Invalid JSON in request body"; anything else is parsed.
   */
  function ReadRequest(event: Event, parse: Parser): (r: Request)
    ensures NoBody(event) ==> r == Rejected(NoBodyResponse)
    ensures !NoBody(event) && parse(event.body.value).Throw? ==> r == Rejected(InvalidJsonResponse)
    ensures !NoBody(event) && parse(event.body.value).Ok? ==> r == Parsed(parse(event.body.value).value)
    ensures r.Rejected? ==> r.response.statusCode == 400 && r.response.headers == JsonContentType
  {
    if NoBody(event) then Rejected(NoBodyResponse)
    else
      match parse(event.body.value)
      case Throw(_) => Rejected(InvalidJsonResponse)
      case Ok(body) => Parsed(body)
  }
}
