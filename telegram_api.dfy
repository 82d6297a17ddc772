/**
 * The Telegram Bot API requests the relay issues (the TelegramBot class): one constructor per
 * Bot API method, and the form fields each send posts. The HTTP exchange itself is left to the caller;
 * its outcome comes back as a SendResult.
 */
module TelegramApi {
  import opened Wrappers

  /** A form field: the bot posts integers (ids) and strings. */
  datatype Field = IntField(i: int) | TextField(s: string)

  type Payload = map<string, Field>

  datatype Request =
    | SendMessage(chatId: int, text: string, replyTo: Option<int>)
    | SendPhoto(chatId: int, photo: string, caption: string, replyTo: Option<int>)
    | SendVideo(chatId: int, video: string, caption: string, replyTo: Option<int>)
    | SendDocument(chatId: int, document: string, caption: string, replyTo: Option<int>)
    | DeleteMessage(chatId: int, messageId: int)
    | GetUpdates(offset: int)
  {
    predicate IsSend() {
      SendMessage? || SendPhoto? || SendVideo? || SendDocument?
    }
  }

  /** What a call returns: an `ok` response carrying result.message_id, a response that is not
      `ok`, or an exception raised by the HTTP client. */
  datatype SendResult = Ok(messageId: int) | NotOk | Raised

  /** Long-poll timeout, in seconds, passed to getUpdates. */
  const PollTimeout := 30

  /** The reply field is added only when the reply id is truthy (present and non-zero). */
  function WithReply(p: Payload, replyTo: Option<int>): Payload {
    if Truthy(replyTo) then p["reply_to_message_id" := IntField(replyTo.value)] else p
  }

  /** A media send: chat, the media URL under its own key, caption and HTML parse mode. */
  function MediaPayload(chatId: int, key: string, url: string, caption: string, replyTo: Option<int>): Payload {
    WithReply(map["chat_id" := IntField(chatId), key := TextField(url),
                  "caption" := TextField(caption), "parse_mode" := TextField("HTML")], replyTo)
  }

  /** The form data (for getUpdates, the query parameters) of a request. */
  function Body(r: Request): Payload {
    match r
    case SendMessage(chat, text, reply) =>
      WithReply(map["chat_id" := IntField(chat), "text" := TextField(text), "parse_mode" := TextField("HTML")], reply)
    case SendPhoto(chat, url, caption, reply) => MediaPayload(chat, "photo", url, caption, reply)
    case SendVideo(chat, url, caption, reply) => MediaPayload(chat, "video", url, caption, reply)
    case SendDocument(chat, url, caption, reply) => MediaPayload(chat, "document", url, caption, reply)
    case DeleteMessage(chat, id) => map["chat_id" := IntField(chat), "message_id" := IntField(id)]
    case GetUpdates(offset) => map["offset" := IntField(offset), "timeout" := IntField(PollTimeout)]
  }

  /** The field a send puts its content under. */
  function ContentKey(r: Request): string
    requires r.IsSend()
  {
    match r
    case SendMessage(_, _, _) => "text"
    case SendPhoto(_, _, _, _) => "photo"
    case SendVideo(_, _, _, _) => "video"
    case SendDocument(_, _, _, _) => "document"
  }

  function Content(r: Request): string
    requires r.IsSend()
  {
    match r
    case SendMessage(_, text, _) => text
    case SendPhoto(_, url, _, _) => url
    case SendVideo(_, url, _, _) => url
    case SendDocument(_, url, _, _) => url
  }

  /**
   * Every send posts exactly chat_id, its content, parse_mode=HTML, a caption for media, and
   * reply_to_message_id if and only if the reply id is truthy, in which case it carries that id.
   */
  lemma SendPayloadFields(r: Request)
    requires r.IsSend()
    ensures var p := Body(r);
      && p.Keys == {"chat_id", ContentKey(r), "parse_mode"}
                   + (if r.SendMessage? then {} else {"caption"})
                   + (if Truthy(r.replyTo) then {"reply_to_message_id"} else {})
      && p["chat_id"] == IntField(r.chatId)
      && p[ContentKey(r)] == TextField(Content(r))
      && p["parse_mode"] == TextField("HTML")
      && (!r.SendMessage? ==> p["caption"] == TextField(r.caption))
      && ("reply_to_message_id" in p <==> Truthy(r.replyTo))
      && ("reply_to_message_id" in p ==> p["reply_to_message_id"] == IntField(r.replyTo.value))
  {
  }

  /** A reply id of 0 is falsy in Python, so the request goes out unthreaded. */
  lemma ZeroReplyIsDropped(chatId: int, text: string)
    ensures Body(SendMessage(chatId, text, Some(0))) == Body(SendMessage(chatId, text, None))
  {
  }
}
