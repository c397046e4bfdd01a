# Gmail-to-Telegram relay: decision logic

This project models the relay that turns Gmail push notifications into
Telegram chat messages, and two chat-facing Lambda handlers next to it. It
covers the selection and branching logic only. Every network call becomes a
function-typed parameter that returns a value or throws:

- the Gmail `history.list` and `messages.get` calls;
- the Pub/Sub `pull` and `acknowledge` calls;
- `askAi`;
- `sendResponse`;
- the Telegram `sendMessage` request;
- `JSON.parse`;
- the base64 body decoder.

Modules, one per source file plus two shared ones:

- `Js` (`js.dfy`): the JavaScript semantics the code relies on.
  - `JsValue` is the value `JSON.parse` yields.
  - `Get` is a property read. On `undefined`/`null` it throws V8's TypeError message.
  - `Truthy` is JavaScript truthiness.
  - `ToDisplayString` is `String(v)`, the conversion a template literal applies. It throws V8's "Cannot convert object to primitive value" for a parsed object with an own `toString` field, and for an array holding one (`Convertible`).
  - `Result` is "returns or throws". `Error` carries `error.message`.
- `GmailFetch` (`gmail_fetch_message.dfy`): `fetchMessage`.
  - Only the first history record is read, and only its first added message.
  - Subject and sender come from header lookup with defaults.
  - The body comes from a one-level `text/plain` part scan, or from the single-part body.
- `PubSubPull` (`gmail_pull_pubsub.dfy`): `pullMessages`.
  - The loop is a fold over the pulled batch.
  - It returns the truthy ack ids in order, or the first error thrown.
  - One pull cycle sends at most one acknowledge request.
- `Telegram` (`telegram_chat.dfy`): `TelegramChat`.
  - Its two accessors are pure functions of the stored update.
  - The allowed chat id is a parameter.
- `ApiGateway` (`api_gateway.dfy`): what the handlers share.
  - The event and response records.
  - The header sets.
  - The two 400 answers.
  - `Invocation`, which pairs a handler's response with the external calls it made, in order.
- `LambdaGmail`, `LambdaEcho`, `LambdaChat`: the handlers of `lambda-gmail.js`, `lambda.js` and `lambda-chat.js`.

Three behaviours of the code are worth stating up front:

- An absent or empty history throws. It does not mean "no change".
- The 1000-character cut of the notification body appends no ellipsis.
- A notification whose processing throws ends the pull cycle. Nothing in the batch is acknowledged.

## Model

| member | source | states |
|---|---|---|
| Js.Get | telegram-chat.js:28-31 | reading a property throws exactly when the value is `undefined` or `null`, with V8's message "Cannot read properties of X (reading 'k')"; an object's own field is returned; on any other value, or a missing field, the read gives `undefined` |
| Js.ToDisplayString | gmail-fetch-message.js:38 | `${v}` throws "Cannot convert object to primitive value" exactly when `v` is, or is an array reaching, an object with an own `toString` field; otherwise it gives `undefined`, `null`, a string unchanged and `[object Object]` for an object; a non-negative integer gives digits without a leading zero (other than `"0"`) that read back to it; a negative one gives `-` followed by such digits reading back to its magnitude |
| Js.JoinElements | lambda.js:54 | an array's `${…}` (its `join(",")`) throws exactly when some element cannot be converted, and then throws the conversion error |
| Js.NatToDecimal | gmail-fetch-message.js:38 | the decimal rendering of a natural number is a non-empty digit string; 0 renders as `"0"` and every other number without a leading zero |
| Js.NatToDecimalRoundTrip | gmail-fetch-message.js:38 | reading the decimal rendering back gives the original number |
| Js.NatToDecimalUnique | gmail-fetch-message.js:38 | any digit string without a leading zero (other than `"0"`) that reads back to n is exactly the rendering of n, so together with the round trip the digits `String(n)` produces are fixed |
| GmailFetch.Find | gmail-fetch-message.js:68-70 | the index of the element `find` returns: every earlier element fails the predicate and that one satisfies it; there is none exactly when every element fails |
| GmailFetch.NoMessagesFound | gmail-fetch-message.js:37-38 | for an empty history the error is "No messages found for historyId: " followed by `${historyId}`, unless that conversion throws, in which case its error is thrown instead |
| GmailFetch.HeaderOr | gmail-fetch-message.js:60-62 | the value of the first header whose name matches exactly (case-sensitive); the default when no header matches or the first match's value is empty |
| GmailFetch.MultipartBody | gmail-fetch-message.js:66-73 | a multipart body is the decoding of the first part whose MIME type is exactly `text/plain`; it is `""` when there is no such part (an empty part list included); that part having no data throws |
| GmailFetch.SinglePartBody | gmail-fetch-message.js:74-77 | a single-part body never throws; it is the decoding of `payload.body.data` when that is present and non-empty, else `""` |
| GmailFetch.SelectBody | gmail-fetch-message.js:64-77 | with `parts` present (even empty): `""` when no part is exactly `text/plain`, else the decoding of the first such part's data, throwing when that data is absent; with `parts` absent: the decoding of `payload.body.data` when it is present and non-empty, else `""` |
| GmailFetch.MultipartIgnoresSingleBody | gmail-fetch-message.js:66-77 | when `parts` is present, `payload.body` never influences the result |
| GmailFetch.SelectBodyThrowsOnlyOnMissingData | gmail-fetch-message.js:66-77 | body extraction throws if and only if the message is multipart and its first `text/plain` part has no data |
| GmailFetch.ResolveHistory | gmail-fetch-message.js:35-48 | an absent or empty history throws the `NoMessagesFound` error; a first record with missing or empty `messagesAdded` means "not an added message"; otherwise the id is that of the first message the first record adds |
| GmailFetch.LaterRecordsIgnored | gmail-fetch-message.js:41-48 | two histories with the same first record resolve identically, whatever later records add |
| GmailFetch.DecodeMessage | gmail-fetch-message.js:59-85 | a record built from a fetched message is `valid` and carries the fetched id; its subject (sender) is the value of the first header named exactly `Subject` (`From`) when that value is non-empty, and `No Subject` (`Unknown Sender`) when it is empty or no header has that name; it throws Node's `Buffer.from(undefined)` error exactly when the message is multipart and its first `text/plain` part has no data; otherwise its body is that part's decoded data, `""` when there is no such part, and for a single-part message the decoded truthy `body.data` or `""` |
| GmailFetch.FetchFromHistory | gmail-fetch-message.js:37-85 | once the history is listed: resolution errors propagate; `{valid:false}` comes exactly from "not an added message"; a valid record's id is the resolved id, and that id's fetch succeeded |
| GmailFetch.FetchMessage | gmail-fetch-message.js:26-86 | a `history.list` error propagates; a record is returned only for a non-empty history; it is `{valid:false}` exactly when the first record adds nothing; a valid record carries the first added id of the first record, and it is the decoding of that exact message |
| GmailFetch.EmptyHistoryThrows | gmail-fetch-message.js:37-39 | an absent or empty history makes `fetchMessage` throw the `NoMessagesFound` error for its history id |
| GmailFetch.FirstRecordWithoutAdditionIsInvalid | gmail-fetch-message.js:41-46 | a first record without added messages yields `{valid:false}` |
| GmailFetch.FirstAddedMessageIsFetched | gmail-fetch-message.js:48-85 | the message fetched is `history[0].messagesAdded[0].message.id`, and the returned record has exactly that id, its headers' subject and sender, and its body |
| GmailFetch.MessageFetchFailurePropagates | gmail-fetch-message.js:52-56 | a failing `messages.get` makes `fetchMessage` throw the same error |
| PubSubPull.ProcessNotification | gmail-pull-pubsub.js:23-25 | a notification whose data does not parse throws the parser's error; data that parses to `null` throws; otherwise `fetchMessage` runs on the parsed `historyId` |
| PubSubPull.TruthyAckIds | gmail-pull-pubsub.js:21-29 | the ack list has only non-empty ids; an id is in it exactly when some notification of the batch carries it as a truthy ack id; it is never longer than the batch; it is the whole list of ack ids when all are truthy |
| PubSubPull.TruthyAckIdsSingle | gmail-pull-pubsub.js:27-29 | one notification contributes `[ackId]` when its ack id is truthy and nothing otherwise |
| PubSubPull.TruthyAckIdsAppend | gmail-pull-pubsub.js:21-29 | the list collected from a concatenated batch is the first half's list followed by the second half's, so ids keep batch order and a repeated ack id is pushed once per occurrence |
| PubSubPull.CollectAcks | gmail-pull-pubsub.js:21-30 | the loop completes exactly when every notification is processed without a throw; it then yields the in-order truthy ack ids; otherwise it yields the error of the first notification that threw, and every notification before it was processed |
| PubSubPull.SameAckIds | gmail-pull-pubsub.js:27-29 | the ack list depends only on the notifications' ack ids |
| PubSubPull.PullMessages | gmail-pull-pubsub.js:16-42 | the pull asks for one message from the fixed subscription; a failed pull acknowledges nothing; an acknowledge request is sent exactly when the loop completed and collected at least one id; that one request covers exactly the collected list; a loop error is the cycle's failure |
| PubSubPull.FailureAcknowledgesNothing | gmail-pull-pubsub.js:22-41 | if any notification of the batch throws, no acknowledge request is sent and the cycle fails |
| PubSubPull.EveryTruthyAckIdCollected | gmail-pull-pubsub.js:22-30 | in a fully processed batch every truthy ack id is collected for acknowledgement, whether its record was valid or not |
| PubSubPull.AbsentBatchIsEmpty | gmail-pull-pubsub.js:22 | an absent `receivedMessages` is an empty batch: nothing is acknowledged and the cycle succeeds |
| PubSubPull.AcksIndependentOfRecords | gmail-pull-pubsub.js:25-29 | two fully processed batches with the same ack ids collect the same list, whatever their notifications resolved to |
| Telegram.GetChatId | telegram-chat.js:28-31 | reading the chat id succeeds exactly when the update, its `message` and its `message.chat` are all non-nullish; the result is `message.chat.id` |
| Telegram.GetMessageText | telegram-chat.js:15-26 | an error from reading the chat id propagates; any other chat gets `null`; the allowed chat gets the fixed German refusal when `voice` is truthy, else `message.text`; the allowed chat never throws |
| Telegram.UnauthorizedVoiceIsNull | telegram-chat.js:16-23 | the id check comes before the voice check, so a voice message from another chat yields `null` |
| Telegram.AuthorizedTextReturned | telegram-chat.js:24-25 | the allowed chat's non-voice message yields exactly its `text` |
| ApiGateway.ReadRequest | lambda-gmail.js:17-41 | a falsy body gets 400 "No request body provided"; an unparsable body gets 400 "Invalid JSON in request body"; both carry only the Content-Type header; otherwise the parsed body goes on |
| LambdaGmail.Substring | lambda-gmail.js:46 | `substring(0, n)` is a prefix of the input of length `min(|s|, n)` |
| LambdaGmail.SubstringIdempotent | lambda-gmail.js:46 | cutting an already cut body changes nothing |
| LambdaGmail.NotificationText | lambda-gmail.js:46 | the text is the fixed head with sender and subject, followed by the body cut to 1000 characters; it is never more than 1000 characters longer than the head |
| LambdaGmail.ShortBodySentWhole | lambda-gmail.js:46 | a body of at most 1000 characters is sent unchanged |
| LambdaGmail.LongBodyCutWithoutMarker | lambda-gmail.js:46 | a longer body contributes exactly its first 1000 characters with nothing appended; bodies that agree on those characters give the same text |
| LambdaGmail.Relay | lambda-gmail.js:43-79 | `fetchMessage` is called first, with `body.historyId`; its error gives 500 and nothing is sent; `{valid:false}` gives 200 and nothing is sent; a valid record sends exactly its notification text, and the answer is 200 unless the send throws |
| LambdaGmail.Handler | lambda-gmail.js:13-81 | the 400 answers come before any external call; the status is always 200, 400 or 500; every 200 carries the empty-string body and the CORS headers; every 500 carries the CORS headers and an error message |
| LambdaGmail.InvalidJsonNeverFetches | lambda-gmail.js:29-43 | an unparsable body gets 400 and `fetchMessage` is never called |
| LambdaGmail.EmptyHistoryIsServerError | lambda-gmail.js:68-79 | the empty-history error of `fetchMessage` becomes a 500 whose body is "No messages found for historyId: " followed by `${historyId}`, or "Cannot convert object to primitive value" when the id cannot be converted |
| LambdaGmail.InvalidRecordSendsNothing | lambda-gmail.js:44-67 | a `{valid:false}` record sends nothing and still gets 200 |
| LambdaGmail.SendOnlyForValidRecord | lambda-gmail.js:44-52 | a text reaches `sendResponse` only when the fetched record is valid, and that text is its notification text |
| LambdaEcho.Completion | lambda.js:52-54 | the greeting throws V8's conversion error exactly when the text cannot be converted; otherwise it starts with `"Hello, "`; a string text follows verbatim; an absent text gives `"Hello, undefined"`, a `null` one `"Hello, null"`; a non-negative number follows as digits without a leading zero (other than `"0"`) reading back to that number |
| LambdaEcho.Reply | lambda.js:41-84 | a chat-id read that throws gives 500; any other chat gets 403 and nothing is sent; for the allowed chat a greeting that throws gives 500 and nothing is sent, otherwise the answer is 200 and exactly one `sendMessage` goes to the configured chat with the greeting |
| LambdaEcho.Handler | lambda.js:13-98 | the status is always 200, 400, 403 or 500; every 403 has no headers and sends nothing; every 200 carries the empty-string body and the CORS headers |
| LambdaEcho.SendFailureSwallowed | lambda.js:58-72 | whether `sendMessage` succeeds or throws does not change the invocation |
| LambdaEcho.ForeignChatRefused | lambda.js:41-49 | a message from another chat gets 403 `{message:"Not authorized"}` with no headers, and nothing is sent |
| LambdaEcho.AllowedChatGreeted | lambda.js:52-84 | the allowed chat's text is answered with `"Hello, " + text` and 200 with CORS headers |
| LambdaEcho.UnconvertibleTextIsServerError | lambda.js:54 | an allowed chat's text that `${…}` cannot convert makes the greeting throw outside the send's `try`, so the answer is 500 "Cannot convert object to primitive value" and nothing is sent |
| LambdaEcho.OwnToStringIsUnconvertible | lambda.js:54 | a parsed object with an own `toString` field, such as `{"toString":1}`, cannot be converted, and the greeting throws V8's conversion error |
| LambdaEcho.MissingMessageIsServerError | lambda.js:43 | any object payload without a `message` field makes the chat-id read throw V8's TypeError "Cannot read properties of undefined (reading 'chat')", answered 500 with CORS headers and nothing sent |
| LambdaEcho.NullPayloadIsServerError | lambda.js:43 | the body `null` parses, and reading `message` of it throws "Cannot read properties of null (reading 'message')", answered 500 and nothing sent |
| LambdaEcho.MissingChatIsServerError | lambda.js:43 | a `message` without `chat` throws "Cannot read properties of undefined (reading 'id')", answered 500 and nothing sent |
| LambdaChat.Converse | lambda-chat.js:42-70 | a `getMessageText` error gives 500 with no call; otherwise the AI is asked first, with that prompt; its error gives 500; its completion goes to `sendResponse`, and the answer is 200 unless the send throws |
| LambdaChat.Handler | lambda-chat.js:12-72 | the 400 answers come before any call; the status is always 200, 400 or 500 (there is no 403); every 200 carries the empty-string body and the CORS headers |
| LambdaChat.ForeignChatAsksWithNull | lambda-chat.js:43-45 | another chat's message is not refused: the AI is asked with a `null` prompt |
| LambdaChat.QuietCallsSucceed | lambda-chat.js:45-58 | when neither the AI call nor the send throws, the answer is 200 with CORS headers |

## Left out

- Network calls are parameters. This covers Gmail, Pub/Sub, Telegram `fetch`, `askAi` and `sendResponse`. For the three handlers, `Invocation.calls` records which calls are made, with which arguments and in which order. For a pull cycle, `PullCycle` records only the pull request and the acknowledge request. The model says what happens when each call returns or throws. It says nothing about what the services do.
- Gmail calls are not recorded as calls. `FetchMessage` does not record `history.list` or `messages.get`, so the model does not state that `messages.get` is skipped for a `{ valid: false }` record. `PullCycle` does not record which notifications of a batch reached `fetchMessage` before a throw stopped the loop. Batch order shows only through `FirstFailure` and the order of the ack list.
- `sendResponse` is not defined in `telegram-chat.js`. It is an opaque call that returns or throws.
- `Buffer.from(data, 'base64').toString('utf-8')` is an uninterpreted decoder parameter. Its lenient base64/base64url handling and its UTF-8 replacement are not modelled.
- `JSON.parse` is an abstract parser parameter. `JSON.stringify` of response bodies is kept as the value being serialised (`ResponseBody`), not as its text.
- JavaScript's loose `!=` between a numeric chat id and the environment string is simplified to equality of `JsValue`s. Callers pass an already normalised allowed id.
- Numbers are integers. `String(n)` is the plain decimal form, so the exponent form above 10^21 and fractions are not modelled.
- Strings are sequences of Unicode scalar values, not UTF-16 code units. `substring` can therefore not split a surrogate pair as JavaScript can.
- Gmail API responses have their documented shape: every `messagesAdded` item has `message.id`, and the payload has `headers` and `body`. The TypeErrors that malformed responses would raise are not modelled. A `text/plain` part without `data` is modelled.
- Pub/Sub ack ids are strings, and only the empty string is falsy. The JSON text of a notification is its `data` field, already turned into a string.
- Property reads return `undefined` for every key on non-objects. The keys the code reads (`historyId`, `message`, `chat`, `id`, `text`, `voice`) are not built-in prototype properties.
- Credential and token loading, environment and dotenv configuration, and logging are left out. The allowed chat id is a parameter. `check-watch.py`, `convert_token.py` and `update-lambda.js` are setup and deployment scripts and are not part of this model.
- Concurrency between invocations, duplicate delivery and redelivery of unacknowledged notifications are not modelled.
- `pullMessages()` is invoked without `await` at the top of `gmail-pull-pubsub.js`. Its rejection is modelled as the cycle's `failure`.
