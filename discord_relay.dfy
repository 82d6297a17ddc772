/**
 * Relay decisions for events that arrive from Discord: which events are handled, the text and
 * captions sent to Telegram, how each attachment is routed, the reply hint, and how the
 * correlation store changes once the sends have answered.
 */
module DiscordRelay {
  import opened Wrappers
  import Text
  import TelegramApi
  import Correlation

  datatype Attachment = Attachment(contentType: Option<string>, url: string)

  /** The fields of a discord.Message the relay reads. */
  datatype DiscordMessage = DiscordMessage(
    id: int,
    channelId: int,
    authorId: int,
    authorName: string,
    webhookId: Option<int>,
    content: string,
    referenceId: Option<int>,
    attachments: seq<Attachment>)

  /** on_message: not the bot's own message, not a webhook post, and in the configured channel. */
  predicate HandlesMessage(m: DiscordMessage, botUserId: int, channelId: int) {
    m.authorId != botUserId && !Truthy(m.webhookId) && m.channelId == channelId
  }

  /** on_message_delete: not a webhook post, and in the configured channel. */
  predicate HandlesDelete(m: DiscordMessage, channelId: int) {
    !Truthy(m.webhookId) && m.channelId == channelId
  }

  /** The tables key Discord messages by str(message.id). */
  function MessageKey(id: int): string {
    Text.IntString(id)
  }

  /** The standalone text line. */
  function TextLine(m: DiscordMessage): string {
    "💬 <b>" + m.authorName + "</b>: " + m.content
  }

  /** The caption every attachment carries: author and text, or empty when there is no text. */
  function Caption(m: DiscordMessage): string {
    if m.content != "" then "<b>" + m.authorName + "</b>: " + m.content else ""
  }

  /** The Telegram message to reply to: the counterpart of a truthy, mapped reference, else none. */
  function ReplyTarget(discordToTelegram: map<string, Correlation.TelegramRef>, referenceId: Option<int>): Option<int> {
    if Truthy(referenceId) && MessageKey(referenceId.value) in discordToTelegram
    then Some(discordToTelegram[MessageKey(referenceId.value)].messageId)
    else None
  }

  /** Routing by declared type: image/ to sendPhoto, video/ to sendVideo, the rest to sendDocument. */
  function AttachmentRequest(a: Attachment, chatId: int, caption: string, replyTo: Option<int>): TelegramApi.Request {
    match a.contentType
    case Some(ct) =>
      if Text.StartsWith(ct, "image/") then TelegramApi.SendPhoto(chatId, a.url, caption, replyTo)
      else if Text.StartsWith(ct, "video/") then TelegramApi.SendVideo(chatId, a.url, caption, replyTo)
      else TelegramApi.SendDocument(chatId, a.url, caption, replyTo)
    case None => TelegramApi.SendDocument(chatId, a.url, caption, replyTo)
  }

  /** How many sends a message makes when none raises: one for the text, one per attachment. */
  function SendCount(m: DiscordMessage): nat {
    (if m.content != "" then 1 else 0) + |m.attachments|
  }

  /** The sends of a handled message, in order: the text (if any), then each attachment. */
  function PlannedSends(m: DiscordMessage, chatId: int, replyTo: Option<int>): (sends: seq<TelegramApi.Request>)
    ensures |sends| == SendCount(m)
  {
    var caption := Caption(m);
    (if m.content != "" then [TelegramApi.SendMessage(chatId, TextLine(m), replyTo)] else [])
    + seq(|m.attachments|, i requires 0 <= i < |m.attachments| => AttachmentRequest(m.attachments[i], chatId, caption, replyTo))
  }

  /** The sends actually made: an exception from one send ends the handler after that send. */
  function Attempted(results: seq<TelegramApi.SendResult>): (n: nat)
    ensures n <= |results|
    ensures n == 0 <==> |results| == 0
    ensures forall i :: 0 <= i < n - 1 ==> !results[i].Raised?
    ensures n < |results| ==> results[n - 1].Raised?
    ensures n == |results| && n > 0 && !results[n - 1].Raised? ==> forall i :: 0 <= i < n ==> !results[i].Raised?
  {
    if |results| == 0 then 0
    else if results[0].Raised? then 1
    else 1 + Attempted(results[1..])
  }

  predicate NoneRaised(results: seq<TelegramApi.SendResult>) {
    forall i :: 0 <= i < |results| ==> !results[i].Raised?
  }

  /** The Telegram id recorded for the message: that of the last send, if no send raised and it was ok. */
  function RecordedTelegramId(results: seq<TelegramApi.SendResult>): Option<int> {
    if NoneRaised(results) && |results| > 0 && results[|results| - 1].Ok?
    then Some(results[|results| - 1].messageId)
    else None
  }

  /** handle_discord_message's effect on the store, given the results of its sends (main.py:292-328). */
  function MessageStep(t: Correlation.Tables, m: DiscordMessage, results: seq<TelegramApi.SendResult>): Correlation.Tables {
    match RecordedTelegramId(results)
    case Some(tgId) => Correlation.RecordDirect(t, MessageKey(m.id), tgId, m.authorName, m.authorId)
    case None => t
  }

  /** The deleteMessage request handle_discord_message_delete makes, if any. */
  function DeleteRequest(t: Correlation.Tables, chatId: int, id: int): Option<TelegramApi.Request> {
    var key := MessageKey(id);
    if key in t.discordToTelegram then Some(TelegramApi.DeleteMessage(chatId, t.discordToTelegram[key].messageId)) else None
  }

  /** handle_discord_message_delete's effect on the store, given whether deleteMessage answered ok. */
  function DeleteStep(t: Correlation.Tables, id: int, deleteOk: bool): Correlation.Tables {
    var key := MessageKey(id);
    if key in t.discordToTelegram && deleteOk then Correlation.RemoveDirectByDiscord(t, key) else t
  }

  // ---- properties ----

  /** Attachment routing by MIME prefix; a missing or other type goes to the document send. */
  lemma AttachmentRouting(a: Attachment, chatId: int, caption: string, replyTo: Option<int>)
    ensures var r := AttachmentRequest(a, chatId, caption, replyTo);
      && r.IsSend() && !r.SendMessage?
      && (r.SendPhoto? <==> a.contentType.Some? && Text.StartsWith(a.contentType.value, "image/"))
      && (r.SendVideo? <==> a.contentType.Some? && Text.StartsWith(a.contentType.value, "video/")
                            && !Text.StartsWith(a.contentType.value, "image/"))
      && (r.SendDocument? <==> a.contentType.None?
                               || (!Text.StartsWith(a.contentType.value, "image/") && !Text.StartsWith(a.contentType.value, "video/")))
      && r.chatId == chatId && TelegramApi.Content(r) == a.url && r.caption == caption && r.replyTo == replyTo
  {
  }

  /** Every attachment gets its own send, in order, after the text send, routed by its type. */
  lemma AttachmentSendAt(m: DiscordMessage, chatId: int, replyTo: Option<int>, j: nat)
    requires j < |m.attachments|
    ensures var k := if m.content != "" then 1 else 0;
      PlannedSends(m, chatId, replyTo)[k + j] == AttachmentRequest(m.attachments[j], chatId, Caption(m), replyTo)
  {
  }

  /**
   * A message with text and attachments sends the text on its own and repeats it, with the
   * author, in the caption of every attachment.
   */
  lemma TextRepeatedInCaptions(m: DiscordMessage, chatId: int, replyTo: Option<int>)
    requires m.content != ""
    ensures var sends := PlannedSends(m, chatId, replyTo);
      && sends[0] == TelegramApi.SendMessage(chatId, "💬 <b>" + m.authorName + "</b>: " + m.content, replyTo)
      && forall j :: 1 <= j < |sends| ==> !sends[j].SendMessage? && sends[j].caption == "<b>" + m.authorName + "</b>: " + m.content
  {
    var sends := PlannedSends(m, chatId, replyTo);
    forall j | 1 <= j < |sends|
      ensures !sends[j].SendMessage? && sends[j].caption == "<b>" + m.authorName + "</b>: " + m.content
    {
      AttachmentSendAt(m, chatId, replyTo, j - 1);
      AttachmentRouting(m.attachments[j - 1], chatId, Caption(m), replyTo);
    }
  }

  /** Without text, only the attachments are sent, each with an empty caption. */
  lemma NoTextMeansEmptyCaptions(m: DiscordMessage, chatId: int, replyTo: Option<int>)
    requires m.content == ""
    ensures var sends := PlannedSends(m, chatId, replyTo);
      forall j :: 0 <= j < |sends| ==> !sends[j].SendMessage? && sends[j].caption == ""
  {
    var sends := PlannedSends(m, chatId, replyTo);
    forall j | 0 <= j < |sends| ensures !sends[j].SendMessage? && sends[j].caption == "" {
      AttachmentSendAt(m, chatId, replyTo, j);
      AttachmentRouting(m.attachments[j], chatId, Caption(m), replyTo);
    }
  }

  /** The example of a plain text message: "Ann" writes "hi". */
  lemma AnnSaysHi(id: int, channelId: int, authorId: int, chatId: int)
    ensures var m := DiscordMessage(id, channelId, authorId, "Ann", None, "hi", None, []);
      PlannedSends(m, chatId, None) == [TelegramApi.SendMessage(chatId, "💬 <b>Ann</b>: hi", None)]
  {
    var m := DiscordMessage(id, channelId, authorId, "Ann", None, "hi", None, []);
    assert TextLine(m) == "💬 <b>Ann</b>: hi";
    assert PlannedSends(m, chatId, None) == [TelegramApi.SendMessage(chatId, TextLine(m), None)] + [];
  }

  /**
   * The reply hint is the Telegram copy of the referenced message when it is mapped; it is
   * absent otherwise (the send goes out unthreaded). In a mirrored store it maps back to the
   * referenced message.
   */
  lemma ReplyTargetIsCounterpart(t: Correlation.Tables, referenceId: Option<int>)
    requires Correlation.Mirrored(t)
    ensures var r := ReplyTarget(t.discordToTelegram, referenceId);
      && (r.Some? <==> Truthy(referenceId) && MessageKey(referenceId.value) in t.discordToTelegram)
      && (r.Some? ==> r.value in t.telegramToDiscord && t.telegramToDiscord[r.value].messageKey == MessageKey(referenceId.value))
  {
  }

  /** Only the last send decides the mapping: what the earlier, non-raising sends answered is irrelevant. */
  lemma {:induction false} OnlyLastSendCounts(t: Correlation.Tables, m: DiscordMessage,
                                              a: seq<TelegramApi.SendResult>, b: seq<TelegramApi.SendResult>,
                                              last: TelegramApi.SendResult)
    requires NoneRaised(a) && NoneRaised(b)
    ensures MessageStep(t, m, a + [last]) == MessageStep(t, m, b + [last])
  {
    assert NoneRaised(a + [last]) <==> !last.Raised? by {
      assert (a + [last])[|a|] == last;
      if !last.Raised? {
        forall i | 0 <= i < |a + [last]| ensures !(a + [last])[i].Raised? {
          if i < |a| { assert (a + [last])[i] == a[i]; }
        }
      }
    }
    assert NoneRaised(b + [last]) <==> !last.Raised? by {
      assert (b + [last])[|b|] == last;
      if !last.Raised? {
        forall i | 0 <= i < |b + [last]| ensures !(b + [last])[i].Raised? {
          if i < |b| { assert (b + [last])[i] == b[i]; }
        }
      }
    }
  }

  /** An ok last send records both halves for the message, with one author name and id. */
  lemma LastOkRecordsBothHalves(t: Correlation.Tables, m: DiscordMessage, results: seq<TelegramApi.SendResult>, tgId: int)
    requires NoneRaised(results) && |results| > 0 && results[|results| - 1] == TelegramApi.Ok(tgId)
    ensures var r := MessageStep(t, m, results);
      && r.discordToTelegram == t.discordToTelegram[MessageKey(m.id) := Correlation.TelegramRef(tgId, m.authorName, m.authorId)]
      && r.telegramToDiscord == t.telegramToDiscord[tgId := Correlation.DiscordRef(MessageKey(m.id), m.authorName, m.authorId)]
      && r.webhookToTelegram == t.webhookToTelegram && r.telegramToWebhook == t.telegramToWebhook
  {
  }

  /** No table changes when there was no send, the last send failed, or a send raised. */
  lemma FailureLeavesTablesAlone(t: Correlation.Tables, m: DiscordMessage, results: seq<TelegramApi.SendResult>)
    requires |results| == 0 || !results[|results| - 1].Ok? || !NoneRaised(results)
    ensures MessageStep(t, m, results) == t
  {
  }

  /** A message with neither text nor attachments sends nothing and changes nothing. */
  lemma EmptyMessageIsNoOp(t: Correlation.Tables, m: DiscordMessage, chatId: int, replyTo: Option<int>)
    requires m.content == "" && |m.attachments| == 0
    ensures PlannedSends(m, chatId, replyTo) == []
    ensures MessageStep(t, m, []) == t
  {
  }

  /** Deleting an unmapped message makes no call and changes nothing. */
  lemma DeleteUnmappedIsNoOp(t: Correlation.Tables, chatId: int, id: int, deleteOk: bool)
    requires MessageKey(id) !in t.discordToTelegram
    ensures DeleteRequest(t, chatId, id) == None && DeleteStep(t, id, deleteOk) == t
  {
  }

  /**
   * Deleting a mapped message asks Telegram to delete its copy; an ok answer removes both direct
   * halves, any other answer leaves every table as it was. The relay tables are never touched.
   */
  lemma DeleteMappedMessage(t: Correlation.Tables, chatId: int, id: int, deleteOk: bool)
    requires MessageKey(id) in t.discordToTelegram
    ensures var tgId := t.discordToTelegram[MessageKey(id)].messageId;
      && DeleteRequest(t, chatId, id) == Some(TelegramApi.DeleteMessage(chatId, tgId))
      && var r := DeleteStep(t, id, deleteOk);
      && (deleteOk ==> MessageKey(id) !in r.discordToTelegram && tgId !in r.telegramToDiscord)
      && (!deleteOk ==> r == t)
      && r.webhookToTelegram == t.webhookToTelegram && r.telegramToWebhook == t.telegramToWebhook
  {
  }

  /**
   * The two event filters: a message is relayed exactly when its deletion would be handled and it is not the
   * bot's own, and a webhook post (a relayed Telegram message) passes neither filter, so deleting it on
   * Discord never reaches the relay tables.
   */
  lemma EventFilters(m: DiscordMessage, botUserId: int, channelId: int)
    ensures HandlesMessage(m, botUserId, channelId) <==> HandlesDelete(m, channelId) && m.authorId != botUserId
    ensures Truthy(m.webhookId) ==> !HandlesMessage(m, botUserId, channelId) && !HandlesDelete(m, channelId)
  {
  }

  /** A Discord-side delete, whatever Telegram answered, keeps mirrored tables mirrored. */
  lemma DeleteKeepsMirror(t: Correlation.Tables, id: int, deleteOk: bool)
    requires Correlation.Mirrored(t)
    ensures Correlation.Mirrored(DeleteStep(t, id, deleteOk))
  {
    if deleteOk && MessageKey(id) in t.discordToTelegram {
      Correlation.RemoveByDiscordDropsPair(t, MessageKey(id));
    }
  }


  /** A relayed message whose ids were fresh and a later successful delete leave the store as it was. */
  lemma RelayThenDeleteRestores(t: Correlation.Tables, m: DiscordMessage, results: seq<TelegramApi.SendResult>, tgId: int)
    requires NoneRaised(results) && |results| > 0 && results[|results| - 1] == TelegramApi.Ok(tgId)
    requires MessageKey(m.id) !in t.discordToTelegram && tgId !in t.telegramToDiscord
    ensures DeleteStep(MessageStep(t, m, results), m.id, true) == t
  {
    Correlation.RecordThenRemoveByDiscord(t, MessageKey(m.id), tgId, m.authorName, m.authorId);
  }
}
