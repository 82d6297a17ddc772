/**
 * DiscordTelegramSync: the relay's state (the four correlation dictionaries and the poll
 * offset) and its event handlers. Every call into Discord or Telegram is replaced by its
 * result, passed in; each handler returns the requests it makes and updates the fields in
 * place, and its contract gives the new state as the corresponding step of the old one.
 */
module Sync {
  import opened Wrappers
  import Correlation
  import TelegramApi
  import Webhook
  import DiscordRelay
  import TelegramRelay
  import Polling

  class DiscordTelegramSync {
    const discordChannelId: int
    const telegramChatId: int
    const webhookUrl: string

    var discordToTelegram: map<string, Correlation.TelegramRef>
    var telegramToDiscord: map<int, Correlation.DiscordRef>
    var webhookToTelegram: map<string, int>
    var telegramToWebhook: map<int, string>
    var telegramOffset: int

    /** The four dictionaries as one value. */
    function Correlations(): Correlation.Tables
      reads this
    {
      Correlation.Tables(discordToTelegram, telegramToDiscord, webhookToTelegram, telegramToWebhook)
    }

    /** Each pair of dictionaries mirrors itself. */
    ghost predicate Valid()
      reads this
    {
      Correlation.Mirrored(Correlations())
    }

    constructor (discordChannelId: int, telegramChatId: int, webhookUrl: string)
      ensures this.discordChannelId == discordChannelId && this.telegramChatId == telegramChatId
      ensures this.webhookUrl == webhookUrl
      ensures Correlations() == Correlation.Empty && telegramOffset == 0
      ensures Valid()
    {
      this.discordChannelId := discordChannelId;
      this.telegramChatId := telegramChatId;
      this.webhookUrl := webhookUrl;
      discordToTelegram := map[];
      telegramToDiscord := map[];
      webhookToTelegram := map[];
      telegramToWebhook := map[];
      telegramOffset := 0;
    }

    /** on_message: the filters, then handle_discord_message. */
    method OnMessage(m: DiscordRelay.DiscordMessage, botUserId: int, results: seq<TelegramApi.SendResult>)
      returns (sent: seq<TelegramApi.Request>)
      requires DiscordRelay.HandlesMessage(m, botUserId, discordChannelId) ==> |results| == DiscordRelay.SendCount(m)
      modifies this
      ensures !DiscordRelay.HandlesMessage(m, botUserId, discordChannelId) ==>
                sent == [] && Correlations() == old(Correlations())
      ensures DiscordRelay.HandlesMessage(m, botUserId, discordChannelId) ==>
                && sent == DiscordRelay.PlannedSends(m, telegramChatId, DiscordRelay.ReplyTarget(old(discordToTelegram), m.referenceId))
                             [..DiscordRelay.Attempted(results)]
                && Correlations() == DiscordRelay.MessageStep(old(Correlations()), m, results)
      ensures telegramOffset == old(telegramOffset)
      ensures old(Valid())
              && (DiscordRelay.HandlesMessage(m, botUserId, discordChannelId) ==>
                    DiscordRelay.MessageKey(m.id) !in old(discordToTelegram)
                    && (DiscordRelay.RecordedTelegramId(results).Some? ==>
                          DiscordRelay.RecordedTelegramId(results).value !in old(telegramToDiscord)))
              ==> Valid()
    {
      if DiscordRelay.HandlesMessage(m, botUserId, discordChannelId) {
        sent := HandleDiscordMessage(m, results);
      } else {
        sent := [];
      }
    }

    /** on_message_delete: the filters, then handle_discord_message_delete. */
    method OnMessageDelete(m: DiscordRelay.DiscordMessage, deleteOk: bool) returns (request: Option<TelegramApi.Request>)
      modifies this
      ensures !DiscordRelay.HandlesDelete(m, discordChannelId) ==> request == None && Correlations() == old(Correlations())
      ensures DiscordRelay.HandlesDelete(m, discordChannelId) ==>
                && request == DiscordRelay.DeleteRequest(old(Correlations()), telegramChatId, m.id)
                && Correlations() == DiscordRelay.DeleteStep(old(Correlations()), m.id, deleteOk)
      ensures telegramOffset == old(telegramOffset)
      ensures old(Valid()) ==> Valid()
    {
      if DiscordRelay.HandlesDelete(m, discordChannelId) {
        request := HandleDiscordMessageDelete(m.id, deleteOk);
      } else {
        request := None;
      }
    }

    /** handle_discord_message_delete, given whether Telegram's deleteMessage answered ok (main.py:252-267). */
    method HandleDiscordMessageDelete(id: int, deleteOk: bool) returns (request: Option<TelegramApi.Request>)
      modifies this
      ensures request == DiscordRelay.DeleteRequest(old(Correlations()), telegramChatId, id)
      ensures Correlations() == DiscordRelay.DeleteStep(old(Correlations()), id, deleteOk)
      ensures telegramOffset == old(telegramOffset)
      ensures old(Valid()) ==> Valid()
    {
      var key := DiscordRelay.MessageKey(id);
      request := None;
      if key in discordToTelegram {
        var tgId := discordToTelegram[key].messageId;
        request := Some(TelegramApi.DeleteMessage(telegramChatId, tgId));
        if deleteOk {
          ghost var before := Correlations();
          discordToTelegram := discordToTelegram - {key};
          if tgId in telegramToDiscord {
            telegramToDiscord := telegramToDiscord - {tgId};
          }
          if Correlation.Mirrored(before) {
            Correlation.RemoveByDiscordDropsPair(before, key);
          }
        }
      }
    }

    /**
     * handle_discord_message: the text send, then one send per attachment, each answered by the
     * next element of results; an exception ends the handler; the last answer decides the mapping.
     */
    method HandleDiscordMessage(m: DiscordRelay.DiscordMessage, results: seq<TelegramApi.SendResult>)
      returns (sent: seq<TelegramApi.Request>)
      requires |results| == DiscordRelay.SendCount(m)
      modifies this
      ensures sent == DiscordRelay.PlannedSends(m, telegramChatId, DiscordRelay.ReplyTarget(old(discordToTelegram), m.referenceId))
                      [..DiscordRelay.Attempted(results)]
      ensures Correlations() == DiscordRelay.MessageStep(old(Correlations()), m, results)
      ensures telegramOffset == old(telegramOffset)
      ensures old(Valid()) && DiscordRelay.MessageKey(m.id) !in old(discordToTelegram)
              && (DiscordRelay.RecordedTelegramId(results).Some? ==>
                    DiscordRelay.RecordedTelegramId(results).value !in old(telegramToDiscord))
              ==> Valid()
    {
      var replyTo := DiscordRelay.ReplyTarget(discordToTelegram, m.referenceId);
      var recorded;
      sent, recorded := SendUnits(m, replyTo, results);
      if recorded.Some? {
        ghost var before := Correlations();
        var key := DiscordRelay.MessageKey(m.id);
        RecordDirect(key, recorded.value, m.authorName, m.authorId);
        if Correlation.Mirrored(before) && key !in before.discordToTelegram && recorded.value !in before.telegramToDiscord {
          Correlation.RecordDirectKeepsMirror(before, key, recorded.value, m.authorName, m.authorId);
        }
      }
    }

    /**
     * The send loop of handle_discord_message: the text, then each attachment, each answered by the
     * next element of results, until one raises. Returns what was sent and the Telegram id to record.
     */
    method SendUnits(m: DiscordRelay.DiscordMessage, replyTo: Option<int>, results: seq<TelegramApi.SendResult>)
      returns (sent: seq<TelegramApi.Request>, recorded: Option<int>)
      requires |results| == DiscordRelay.SendCount(m)
      ensures sent == DiscordRelay.PlannedSends(m, telegramChatId, replyTo)[..DiscordRelay.Attempted(results)]
      ensures recorded == DiscordRelay.RecordedTelegramId(results)
    {
      ghost var planned := DiscordRelay.PlannedSends(m, telegramChatId, replyTo);
      var caption := DiscordRelay.Caption(m);
      sent := [];
      var last: Option<TelegramApi.SendResult> := None;
      var raised := false;
      var n := 0;
      if m.content != "" {
        sent := [TelegramApi.SendMessage(telegramChatId, DiscordRelay.TextLine(m), replyTo)];
        assert planned[..1] == [planned[0]];
        last := Some(results[0]);
        n := 1;
        raised := results[0].Raised?;
      }
      var j := 0;
      while j < |m.attachments| && !raised
        invariant 0 <= j <= |m.attachments|
        invariant n == (if m.content != "" then 1 else 0) + j
        invariant sent == planned[..n]
        invariant n <= DiscordRelay.Attempted(results)
        invariant raised <==> n > 0 && results[n - 1].Raised?
        invariant last == if n == 0 then None else Some(results[n - 1])
      {
        DiscordRelay.AttachmentSendAt(m, telegramChatId, replyTo, j);
        assert planned[..n + 1] == planned[..n] + [planned[n]];
        sent := sent + [DiscordRelay.AttachmentRequest(m.attachments[j], telegramChatId, caption, replyTo)];
        last := Some(results[n]);
        n := n + 1;
        raised := results[n - 1].Raised?;
        j := j + 1;
      }
      AttemptedIs(results, n, raised);
      recorded := if !raised && last.Some? && last.value.Ok? then Some(last.value.messageId) else None;
    }

    /** The two direct halves written together (main.py:327-328). */
    method RecordDirect(key: string, tgId: int, username: string, userId: int)
      modifies this
      ensures Correlations() == Correlation.RecordDirect(old(Correlations()), key, tgId, username, userId)
      ensures telegramOffset == old(telegramOffset)
    {
      discordToTelegram := discordToTelegram[key := Correlation.TelegramRef(tgId, username, userId)];
      telegramToDiscord := telegramToDiscord[tgId := Correlation.DiscordRef(key, username, userId)];
    }

    /** Where the send loop stopped: after the send that raised, or after the last planned send. */
    static lemma AttemptedIs(results: seq<TelegramApi.SendResult>, n: nat, raised: bool)
      requires n <= |results|
      requires forall i :: 0 <= i < n - 1 ==> !results[i].Raised?
      requires raised <==> n > 0 && results[n - 1].Raised?
      requires !raised ==> n == |results|
      ensures DiscordRelay.Attempted(results) == n
      ensures DiscordRelay.NoneRaised(results) <==> !raised
    {
    }

    /** handle_telegram_message_delete, given whether the Discord channel was found (main.py:340-376). */
    method HandleTelegramMessageDelete(d: TelegramRelay.Deletion, channelFound: bool)
      returns (calls: seq<TelegramRelay.OutboundCall>)
      modifies this
      ensures calls == TelegramRelay.DeleteCalls(old(Correlations()), webhookUrl, d, channelFound)
      ensures Correlations() == TelegramRelay.DeleteStep(old(Correlations()), d)
      ensures telegramOffset == old(telegramOffset)
      ensures old(Valid()) ==> Valid()
    {
      calls := [];
      if !Truthy(d.messageId) {
        return;
      }
      var id := d.messageId.value;
      ghost var before := Correlations();
      if id in telegramToDiscord {
        var key := telegramToDiscord[id].messageKey;
        if channelFound {
          // delete_webhook_message: its outcome is logged and otherwise ignored.
          var url := Webhook.DeleteMessageUrl(webhookUrl, key);
          if url.Some? {
            calls := [TelegramRelay.DeleteWebhookMessage(url.value)];
          }
        }
        telegramToDiscord := telegramToDiscord - {id};
        if key in discordToTelegram {
          discordToTelegram := discordToTelegram - {key};
        }
      } else if id in telegramToWebhook {
        var webhookId := telegramToWebhook[id];
        telegramToWebhook := telegramToWebhook - {id};
        if webhookId in webhookToTelegram {
          webhookToTelegram := webhookToTelegram - {webhookId};
        }
      }
      if Correlation.Mirrored(before) {
        TelegramRelay.DeleteKeepsMirror(before, d);
      }
    }

    /** handle_telegram_message: a deletion, or a message relayed to the webhook (main.py:435-587). */
    method HandleTelegramMessage(u: TelegramRelay.Update, io: TelegramRelay.TelegramIO)
      returns (calls: seq<TelegramRelay.OutboundCall>)
      modifies this
      ensures calls == TelegramRelay.UpdateCalls(old(Correlations()), telegramChatId, webhookUrl, u, io)
      ensures Correlations() == TelegramRelay.UpdateStep(old(Correlations()), telegramChatId, u, io)
      ensures telegramOffset == old(telegramOffset)
      ensures old(Valid()) && (u.deletedMessage.None? && u.message.Some? && Truthy(u.message.value.messageId)
                               && io.posted.Some? ==>
                                 u.message.value.messageId.value !in old(telegramToWebhook)
                                 && io.posted.value !in old(webhookToTelegram))
              ==> Valid()
    {
      if u.deletedMessage.Some? {
        calls := HandleTelegramMessageDelete(u.deletedMessage.value, io.channelFound);
        return;
      }
      if u.message.None? {
        calls := [];
        return;
      }
      var m := u.message.value;
      var post := TelegramRelay.RelayPost(Correlations(), telegramChatId, m, io);
      calls := TelegramRelay.MessageCalls(Correlations(), telegramChatId, m, io);
      if post.Some? && io.posted.Some? && Truthy(m.messageId) {
        ghost var before := Correlations();
        var id, webhookId := m.messageId.value, io.posted.value;
        telegramToWebhook := telegramToWebhook[id := webhookId];
        webhookToTelegram := webhookToTelegram[webhookId := id];
        if Correlation.Mirrored(before) && id !in before.telegramToWebhook && webhookId !in before.webhookToTelegram {
          Correlation.RecordRelayKeepsMirror(before, id, webhookId);
        }
      }
    }

    /**
     * One cycle of telegram_polling: a failed fetch changes nothing, an ok batch is handed to
     * HandleBatch, and the result decides the pause before the next cycle (main.py:751-766).
     */
    method TelegramPollingCycle(response: Polling.PollResponse, ios: seq<TelegramRelay.TelegramIO>)
      returns (fetch: TelegramApi.Request, calls: seq<TelegramRelay.OutboundCall>, next: Polling.PollState)
      requires response.PollAnswer? ==> |ios| == |response.updates|
      modifies this
      ensures fetch == TelegramApi.GetUpdates(old(telegramOffset))
      ensures telegramOffset == Polling.CycleOffset(old(telegramOffset), response)
      ensures Correlations() == Polling.CycleTables(old(Correlations()), telegramChatId, response, ios)
      ensures calls == Polling.CycleCalls(old(Correlations()), telegramChatId, webhookUrl, response, ios)
      ensures next == Polling.NextState(response)
    {
      fetch := TelegramApi.GetUpdates(telegramOffset);
      if response.PollRaised? {
        return fetch, [], Polling.Backoff;
      }
      if !response.ok {
        return fetch, [], Polling.Running;
      }
      var stopped;
      calls, stopped := HandleBatch(response.updates, ios);
      next := if stopped then Polling.Backoff else Polling.Running;
    }

    /**
     * The loop over an ok batch: each update is handled and then acknowledged by setting the
     * offset one past its id; an update without an id ends the batch with an exception (main.py:757-760).
     */
    method HandleBatch(us: seq<TelegramRelay.Update>, ios: seq<TelegramRelay.TelegramIO>)
      returns (calls: seq<TelegramRelay.OutboundCall>, stopped: bool)
      requires |ios| == |us|
      modifies this
      ensures telegramOffset == Polling.OffsetAfterBatch(old(telegramOffset), us)
      ensures var n := Polling.HandledCount(us);
        && Correlations() == Polling.TablesAfter(old(Correlations()), telegramChatId, us[..n], ios[..n])
        && calls == Polling.CallsAfter(old(Correlations()), telegramChatId, webhookUrl, us[..n], ios[..n])
      ensures stopped <==> Polling.IdPrefix(us) < |us|
    {
      calls := [];
      for i := 0 to |us|
        invariant i <= Polling.IdPrefix(us)
        invariant telegramOffset == if i == 0 then old(telegramOffset) else us[i - 1].updateId.value + 1
        invariant Correlations() == Polling.TablesAfter(old(Correlations()), telegramChatId, us[..i], ios[..i])
        invariant calls == Polling.CallsAfter(old(Correlations()), telegramChatId, webhookUrl, us[..i], ios[..i])
      {
        Polling.TablesAfterStep(old(Correlations()), telegramChatId, webhookUrl, us, ios, i);
        var made := HandleTelegramMessage(us[i], ios[i]);
        calls := calls + made;
        match us[i].updateId
        case None =>
          // update['update_id'] raises: the batch ends before this update is acknowledged.
          return calls, true;
        case Some(id) =>
          telegramOffset := id + 1;
      }
      assert us[..|us|] == us && ios[..|ios|] == ios;
      return calls, false;
    }
  }
}
