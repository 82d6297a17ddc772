/**
 * The correlation store of DiscordTelegramSync: four dictionaries linking messages across the
 * two platforms. The direct pair links a Discord user's message to the bot's Telegram copy;
 * the relay pair links a Telegram user's message to the id of its webhook post on Discord.
 */
module Correlation {

  /** A value of discord_to_telegram: (telegram message id, author display name, author id). */
  datatype TelegramRef = TelegramRef(messageId: int, username: string, userId: int)

  /** A value of telegram_to_discord: (str(discord message id), author display name, author id). */
  datatype DiscordRef = DiscordRef(messageKey: string, username: string, userId: int)

  datatype Tables = Tables(
    discordToTelegram: map<string, TelegramRef>,
    telegramToDiscord: map<int, DiscordRef>,
    webhookToTelegram: map<string, int>,
    telegramToWebhook: map<int, string>)

  const Empty := Tables(map[], map[], map[], map[])

  /** Each direct entry has its mirror entry in the other direction, with the same author. */
  ghost predicate DirectMirrored(t: Tables) {
    && (forall k | k in t.discordToTelegram ::
          var e := t.discordToTelegram[k];
          e.messageId in t.telegramToDiscord && t.telegramToDiscord[e.messageId] == DiscordRef(k, e.username, e.userId))
    && (forall g | g in t.telegramToDiscord ::
          var e := t.telegramToDiscord[g];
          e.messageKey in t.discordToTelegram && t.discordToTelegram[e.messageKey] == TelegramRef(g, e.username, e.userId))
  }

  /** The two relay tables are inverse to each other. */
  ghost predicate RelayMirrored(t: Tables) {
    && (forall w | w in t.webhookToTelegram ::
          t.webhookToTelegram[w] in t.telegramToWebhook && t.telegramToWebhook[t.webhookToTelegram[w]] == w)
    && (forall g | g in t.telegramToWebhook ::
          t.telegramToWebhook[g] in t.webhookToTelegram && t.webhookToTelegram[t.telegramToWebhook[g]] == g)
  }

  ghost predicate Mirrored(t: Tables) {
    DirectMirrored(t) && RelayMirrored(t)
  }

  /** Both direct halves written after a Discord message reached Telegram (main.py:327-328). */
  function RecordDirect(t: Tables, key: string, tgId: int, username: string, userId: int): Tables {
    t.(discordToTelegram := t.discordToTelegram[key := TelegramRef(tgId, username, userId)],
       telegramToDiscord := t.telegramToDiscord[tgId := DiscordRef(key, username, userId)])
  }

  /** Both relay halves written after a Telegram message reached the webhook (main.py:583-584). */
  function RecordRelay(t: Tables, tgId: int, webhookId: string): Tables {
    t.(telegramToWebhook := t.telegramToWebhook[tgId := webhookId],
       webhookToTelegram := t.webhookToTelegram[webhookId := tgId])
  }

  /** Removal keyed by the Discord side: the entry, and the Telegram entry it names (main.py:262-264). */
  function RemoveDirectByDiscord(t: Tables, key: string): Tables
    requires key in t.discordToTelegram
  {
    var tgId := t.discordToTelegram[key].messageId;
    t.(discordToTelegram := t.discordToTelegram - {key},
       telegramToDiscord := t.telegramToDiscord - {tgId})
  }

  /** Removal keyed by the Telegram side: the entry, and the Discord entry it names (main.py:362-364). */
  function RemoveDirectByTelegram(t: Tables, tgId: int): Tables
    requires tgId in t.telegramToDiscord
  {
    var key := t.telegramToDiscord[tgId].messageKey;
    t.(telegramToDiscord := t.telegramToDiscord - {tgId},
       discordToTelegram := t.discordToTelegram - {key})
  }

  /** Relay removal keyed by the Telegram message id (main.py:373-376). */
  function RemoveRelayByTelegram(t: Tables, tgId: int): Tables
    requires tgId in t.telegramToWebhook
  {
    var webhookId := t.telegramToWebhook[tgId];
    t.(telegramToWebhook := t.telegramToWebhook - {tgId},
       webhookToTelegram := t.webhookToTelegram - {webhookId})
  }

  lemma EmptyMirrored()
    ensures Mirrored(Empty)
  {
  }

  /** Recording fresh ids links both directions with one author and keeps the store mirrored. */
  lemma RecordDirectKeepsMirror(t: Tables, key: string, tgId: int, username: string, userId: int)
    requires Mirrored(t)
    requires key !in t.discordToTelegram && tgId !in t.telegramToDiscord
    ensures var r := RecordDirect(t, key, tgId, username, userId);
      && Mirrored(r)
      && r.discordToTelegram[key] == TelegramRef(tgId, username, userId)
      && r.telegramToDiscord[tgId] == DiscordRef(key, username, userId)
      && r.webhookToTelegram == t.webhookToTelegram && r.telegramToWebhook == t.telegramToWebhook
  {
  }

  lemma RecordRelayKeepsMirror(t: Tables, tgId: int, webhookId: string)
    requires Mirrored(t)
    requires tgId !in t.telegramToWebhook && webhookId !in t.webhookToTelegram
    ensures var r := RecordRelay(t, tgId, webhookId);
      && Mirrored(r)
      && r.telegramToWebhook[tgId] == webhookId && r.webhookToTelegram[webhookId] == tgId
      && r.discordToTelegram == t.discordToTelegram && r.telegramToDiscord == t.telegramToDiscord
  {
  }

  /** The mirror needs fresh ids: a Telegram id handed out twice leaves one Discord entry without its mirror. */
  lemma ReusedTelegramIdBreaksMirror()
    ensures var t := RecordDirect(Empty, "1", 7, "Ann", 10);
      Mirrored(t) && !Mirrored(RecordDirect(t, "2", 7, "Bob", 11))
  {
    var t := RecordDirect(Empty, "1", 7, "Ann", 10);
    var r := RecordDirect(t, "2", 7, "Bob", 11);
    assert "1" in r.discordToTelegram && r.telegramToDiscord[7].messageKey == "2";
  }

  /** Removing from the Discord side drops both halves, and nothing else, and keeps the store mirrored. */
  lemma RemoveByDiscordDropsPair(t: Tables, key: string)
    requires Mirrored(t) && key in t.discordToTelegram
    ensures var r := RemoveDirectByDiscord(t, key);
      && Mirrored(r)
      && key !in r.discordToTelegram && t.discordToTelegram[key].messageId !in r.telegramToDiscord
      && |r.discordToTelegram| == |t.discordToTelegram| - 1 && |r.telegramToDiscord| == |t.telegramToDiscord| - 1
      && r.webhookToTelegram == t.webhookToTelegram && r.telegramToWebhook == t.telegramToWebhook
  {
  }

  lemma RemoveByTelegramDropsPair(t: Tables, tgId: int)
    requires Mirrored(t) && tgId in t.telegramToDiscord
    ensures var r := RemoveDirectByTelegram(t, tgId);
      && Mirrored(r)
      && tgId !in r.telegramToDiscord && t.telegramToDiscord[tgId].messageKey !in r.discordToTelegram
      && |r.discordToTelegram| == |t.discordToTelegram| - 1 && |r.telegramToDiscord| == |t.telegramToDiscord| - 1
      && r.webhookToTelegram == t.webhookToTelegram && r.telegramToWebhook == t.telegramToWebhook
  {
  }

  lemma RemoveRelayDropsPair(t: Tables, tgId: int)
    requires Mirrored(t) && tgId in t.telegramToWebhook
    ensures var r := RemoveRelayByTelegram(t, tgId);
      && Mirrored(r)
      && tgId !in r.telegramToWebhook && t.telegramToWebhook[tgId] !in r.webhookToTelegram
      && |r.telegramToWebhook| == |t.telegramToWebhook| - 1 && |r.webhookToTelegram| == |t.webhookToTelegram| - 1
      && r.discordToTelegram == t.discordToTelegram && r.telegramToDiscord == t.telegramToDiscord
  {
  }

  /** In a mirrored store, deleting either half of a direct correlation has the same effect. */
  lemma RemovalFromEitherSideAgrees(t: Tables, key: string)
    requires Mirrored(t) && key in t.discordToTelegram
    ensures t.discordToTelegram[key].messageId in t.telegramToDiscord
    ensures RemoveDirectByDiscord(t, key) == RemoveDirectByTelegram(t, t.discordToTelegram[key].messageId)
  {
  }

  /** Recording a fresh pair and then removing it from the Discord side restores the store. */
  lemma RecordThenRemoveByDiscord(t: Tables, key: string, tgId: int, username: string, userId: int)
    requires key !in t.discordToTelegram && tgId !in t.telegramToDiscord
    ensures RemoveDirectByDiscord(RecordDirect(t, key, tgId, username, userId), key) == t
  {
    var r := RemoveDirectByDiscord(RecordDirect(t, key, tgId, username, userId), key);
    assert r.discordToTelegram == t.discordToTelegram;
    assert r.telegramToDiscord == t.telegramToDiscord;
  }

  lemma RecordThenRemoveByTelegram(t: Tables, key: string, tgId: int, username: string, userId: int)
    requires key !in t.discordToTelegram && tgId !in t.telegramToDiscord
    ensures RemoveDirectByTelegram(RecordDirect(t, key, tgId, username, userId), tgId) == t
  {
    var r := RemoveDirectByTelegram(RecordDirect(t, key, tgId, username, userId), tgId);
    assert r.discordToTelegram == t.discordToTelegram;
    assert r.telegramToDiscord == t.telegramToDiscord;
  }

  lemma RecordThenRemoveRelay(t: Tables, tgId: int, webhookId: string)
    requires tgId !in t.telegramToWebhook && webhookId !in t.webhookToTelegram
    ensures RemoveRelayByTelegram(RecordRelay(t, tgId, webhookId), tgId) == t
  {
    var r := RemoveRelayByTelegram(RecordRelay(t, tgId, webhookId), tgId);
    assert r.telegramToWebhook == t.telegramToWebhook;
    assert r.webhookToTelegram == t.webhookToTelegram;
  }
}
