/**
 * `TelegramChat`: a wrapper around an incoming Telegram update that reads the
 * chat id and, for the one allowed chat, the text to answer.
 */
module Telegram {
  import opened Js

  /** The wrapper; the constructor only stores the parsed update. */
  datatype TelegramChat = TelegramChat(incomingChat: JsValue)

  /** The reply substituted for voice messages. */
  const VoiceRefusal := "Sag bitte, das Sprachanfragen nicht unterstützt werden."

  /** `incomingChat.message`. */
  function MessageOf(chat: TelegramChat): Result<JsValue> {
    Get(chat.incomingChat, "message")
  }

  /**
   * `getChatId()`: `incomingChat.message.chat.id`, throwing when the update
   * has no `message` or the message has no `chat`.
   */
  function GetChatId(chat: TelegramChat): (r: Result<JsValue>)
    ensures r.Ok? <==>
      !Nullish(chat.incomingChat) && !Nullish(MessageOf(chat).value) &&
      !Nullish(Get(MessageOf(chat).value, "chat").value)
    ensures r.Ok? ==> r.value == Get(Get(MessageOf(chat).value, "chat").value, "id").value
  {
    GetPath(chat.incomingChat, ["message", "chat", "id"])
  }

  /**
   * `getMessageText()`: `null` for any chat but the allowed one, checked first;
   * the fixed refusal for a voice message; otherwise `message.text`, which may
   * itself be `undefined`.
   */
  function GetMessageText(chat: TelegramChat, allowedChatId: JsValue): (r: Result<JsValue>)
    ensures GetChatId(chat).Throw? ==> r == Throw(GetChatId(chat).error)
    ensures GetChatId(chat).Ok? ==> r.Ok?
    ensures GetChatId(chat).Ok? && GetChatId(chat).value != allowedChatId ==> r.value == Null
    ensures GetChatId(chat).Ok? && GetChatId(chat).value == allowedChatId ==>
      var message := MessageOf(chat).value;
      r.value == if Truthy(Get(message, "voice").value) then Str(VoiceRefusal) else Get(message, "text").value
  {
    match GetChatId(chat)
    case Throw(e) => Throw(e)
    case Ok(id) =>
      if id != allowedChatId then Ok(Null)
      else
        // reading the chat id succeeded, so `message` is an object-like value
        var message := MessageOf(chat).value;
        if Truthy(Get(message, "voice").value) then Ok(Str(VoiceRefusal)) else Get(message, "text")
  }

  /** The authorization check precedes the voice check: a foreign voice message yields `null`. */
  lemma UnauthorizedVoiceIsNull(chat: TelegramChat, allowedChatId: JsValue)
    requires GetChatId(chat).Ok? && GetChatId(chat).value != allowedChatId
    requires Truthy(Get(MessageOf(chat).value, "voice").value)
    ensures GetMessageText(chat, allowedChatId) == Ok(Null)
  {
  }

  /** The allowed chat gets back exactly the text it sent, when it sent no voice. */
  lemma AuthorizedTextReturned(message: map<string, JsValue>, id: JsValue, text: string)
    requires "chat" in message && message["chat"] == Obj(map["id" := id])
    requires "voice" !in message && "text" in message && message["text"] == Str(text)
    ensures GetMessageText(TelegramChat(Obj(map["message" := Obj(message)])), id) == Ok(Str(text))
  {
  }
}
