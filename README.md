# Discord ↔ Telegram relay: correlation and relay core

This project models the core of `DiscordTelegramSync` (`main.py`). That is a bot that mirrors one Discord
channel and one Telegram chat in both directions:

- A Discord user's message goes to Telegram through the Bot API. Its text is sent with `sendMessage`, and each
  attachment with `sendPhoto`, `sendVideo` or `sendDocument`.
- A Telegram message goes to Discord as a post on an execute-webhook URL. The post carries the sender's name and
  avatar, a reply quote, and at most one downloaded file.
- Deletions propagate in two of the four cases. Deleting a Discord user's message deletes the Telegram copy made
  by its last send. Deleting the bot's Telegram copy of a Discord message tries a webhook delete and forgets the pair. Deleting a
  Telegram user's message only forgets its pair and makes no Discord call. Deleting the webhook copy of a Telegram
  message on Discord does nothing, because `on_message_delete` skips webhook messages (`main.py:237-239`). So a
  relay pair can never be removed from the Discord side.
- Telegram is read by long polling with an update cursor (`telegram_offset`).

The relay remembers which message on one side corresponds to which message on the other. It keeps four tables
(`main.py:193-201`):

- `discord_to_telegram` and `telegram_to_discord` pair each Discord user's message with the Telegram copy made by its
  last send (the "direct" direction). Copies made by earlier sends are not recorded.
- `webhook_to_telegram` and `telegram_to_webhook` pair each Telegram message with the identifier of its webhook
  copy on Discord (the "relay" direction).

These tables drive reply threading and deletion propagation. The central invariant, `Correlation.Mirrored`, is
that each pair of tables is the inverse of the other.

How the model is organised:

- `wrappers.dfy`: `Option`, plus `Truthy`, the Python truthiness test the code applies to an optional integer.
- `text.dfy`: `str()` of an integer, `str.split`, `sep.join`, and the lemmas connecting them.
- `telegram_api.dfy`: the request payloads of the `TelegramBot` wrapper.
- `webhook.dfy`: `extract_webhook_info` and the URL built for a webhook message delete.
- `correlation.dfy`: the four tables as one value, the record and remove operations, and the mirror invariant.
- `discord_relay.dfy`: the Discord-side event filters, the Telegram requests a Discord message produces, the table
  update after the sends, and the Discord-delete handler.
- `telegram_relay.dfy`: content-type precedence, the webhook post, reply prefixes, avatars, the table update, and
  the Telegram-delete handler.
- `polling.dfy`: one polling cycle, meaning the cursor, the back-off state and the batch of handled updates.
- `sync.dfy`: the class `DiscordTelegramSync`. Its fields are the four tables and the cursor, which the handlers
  update in place. Each handler method is proved to leave the object in the state the pure step of the modules
  above computes, and to return the requests or calls that step makes.

Inputs stand in for the network. The outcome of every outbound call is a parameter:

- a Telegram send result: `ok` with a message id, not `ok`, or an exception;
- whether `deleteMessage` succeeded;
- the profile-photo URL that was found;
- the path of the downloaded file;
- the identifier returned by the webhook post;
- whether the Discord channel lookup succeeded;
- the poll response.

Behaviour of the code that a reader might not expect, all of which the model keeps:

- **Captions repeat the text.** A Discord message with text and attachments sends the text on its own, and then
  repeats it in the caption of every attachment (`main.py:293-302`). The comment at `main.py:298` says the
  attachments go out "without additional text message", but the code sends that message as well.
- **Only the last send is recorded.** A message with text and attachments makes several Telegram copies, but only
  the result of the last send is recorded (`main.py:292-328`, `DiscordRelay.OnlyLastSendCounts`). A Discord delete
  then removes only that copy, and the earlier ones stay. If the last send is not `ok`, nothing is recorded and a
  later delete removes nothing, even when earlier copies were made.
- **An exception aborts the whole handler.** If a send raises, the handler's single `try` abandons the remaining
  attachments and records nothing (`main.py:280-331`).
- **The cursor follows the last update.** It becomes one past the *last* update of the batch
  (`main.py:757-760`), whatever the ids before it were. An update without `update_id` raises after it was handled,
  so the cursor stays where the previous update left it and the loop backs off.
- **Telegram deletes remove the pair regardless.** Deleting a Telegram message that has a direct entry asks the
  webhook endpoint to delete the *Discord user's* message id (`main.py:353-359`), provided the Discord channel is
  found (`main.py:356`) and the webhook URL gives a non-empty id and token (`main.py:393`). It then removes the
  pair whether or not that worked.
- **Relay deletes make no Discord call.** Deleting a Telegram message that only has a relay entry just forgets the
  pair (`main.py:371-376`).
- **Inserting can break the mirror.** Nothing in the code keeps each message in at most one pair: an insert
  overwrites. So the mirror invariant is preserved by an insert only when both ids are fresh
  (`Correlation.ReusedTelegramIdBreaksMirror` shows the failure). Deletions preserve it unconditionally.

## Model

| member | source | states |
|---|---|---|
| Text.NatString | main.py:253 | `str()` of a natural number: non-empty, all digits, one digit exactly below 10, no leading zero |
| Text.NatStringRoundTrip | main.py:253 | reading the digits of `str(n)` back gives `n` |
| Text.NatStringInjective | main.py:253 | different ids give different keys |
| Text.IntString | main.py:327 | `str()` of an integer starts with `-` exactly when the integer is negative; a non-negative one gives only digits |
| Text.IntStringInjective | main.py:327-328 | `str(message.id)` keys of different message ids never collide |
| Text.Split | main.py:418 | `str.split(sep)` has at least one piece, and no piece contains the separator |
| Text.JoinSplit | main.py:418 | joining the pieces of a split with the separator gives back the original string |
| Text.SplitJoin | main.py:418 | splitting a join of separator-free pieces gives back exactly those pieces |
| Text.JoinAppend | main.py:418 | joining a list with one more piece appends the separator and that piece |
| Text.SplitPiece | main.py:418 | a separator-free string splits into itself alone |
| Text.SplitAfterPiece | main.py:418 | splitting `piece + sep + rest` puts `piece` in front of the pieces of `rest` |
| Text.SplitConcat | main.py:418 | the split of `a + sep + b` is the split of `a` followed by the split of `b` |
| Text.SplitMany | main.py:418-419 | the split has at least two pieces exactly when the separator occurs in the string |
| TelegramApi.SendPayloadFields | main.py:37-137 | each send carries exactly `chat_id`, its content field, `parse_mode` (plus `caption` for media), and `reply_to_message_id` exactly when the reply id is truthy, with the given values |
| TelegramApi.ZeroReplyIsDropped | main.py:55-56 | a reply id of 0 is dropped like a missing one |
| Webhook.ExtractWebhookInfo | main.py:406-425 | both parts are present exactly when the URL contains `/`; they are the last two slash-free pieces: the URL is `id/token` itself or ends with `/id/token` |
| Webhook.ExtractFromTwoPieces | main.py:418-422 | a URL `id/token` with slash-free id and token gives `(id, token)` |
| Webhook.TailJoin | main.py:420-421 | a join ends with its last two pieces and the separator between them; it is exactly those for two pieces, and has a separator in front of them for more |
| Webhook.ExtractFromStandardForm | main.py:416-422 | for any URL `prefix/id/token` with slash-free id and token, the extracted pair is `(id, token)` |
| Webhook.DeleteUrlOfStandardWebhook | main.py:391-394 | for a standard webhook URL, the delete URL is the webhook URL followed by `/messages/` and the identifier |
| Webhook.NoDeleteForTrailingSlash | main.py:391-394 | a webhook URL ending in `/` has an empty token, so no delete is attempted |
| Webhook.NoDeleteWithoutSlash | main.py:418-425 | a URL without `/` yields `(None, None)`, so no delete is attempted |
| Correlation.EmptyMirrored | main.py:193-201 | the initially empty tables are mirrored |
| Correlation.RecordDirectKeepsMirror | main.py:325-328 | recording a direct pair with fresh ids keeps the tables mirrored, stores the pair with the author's name and id in both directions, and keeps the relay tables |
| Correlation.RecordRelayKeepsMirror | main.py:580-584 | recording a relay pair with fresh ids keeps the tables mirrored, stores the pair in both directions, and keeps the direct tables |
| Correlation.ReusedTelegramIdBreaksMirror | main.py:327-328 | recording a second Discord message under a Telegram id already in use leaves the tables not mirrored |
| Correlation.RemoveByDiscordDropsPair | main.py:262-264 | removing by Discord key drops that pair from both directions, shrinking each direct table by one, keeps the relay tables, and keeps the mirror |
| Correlation.RemoveByTelegramDropsPair | main.py:362-364 | removing by Telegram id drops that pair from both directions, shrinking each direct table by one, keeps the relay tables, and keeps the mirror |
| Correlation.RemoveRelayDropsPair | main.py:373-376 | removing a relay entry drops that pair from both relay tables, shrinking each by one, keeps the direct tables, and keeps the mirror |
| Correlation.RemovalFromEitherSideAgrees | main.py:262-264 | on mirrored tables, removing a pair from the Discord side and from the Telegram side give the same tables |
| Correlation.RecordThenRemoveByDiscord | main.py:262-264 | recording a fresh direct pair and then removing it by Discord key restores the tables |
| Correlation.RecordThenRemoveByTelegram | main.py:362-364 | recording a fresh direct pair and then removing it by Telegram id restores the tables |
| Correlation.RecordThenRemoveRelay | main.py:373-376 | recording a fresh relay pair and then removing it restores the tables |
| DiscordRelay.PlannedSends | main.py:291-322 | a Discord message produces one send for its text if it has any, plus one per attachment |
| DiscordRelay.Attempted | main.py:280-331 | the sends attempted stop at the first one that raises: every earlier send returned, and all ran only if none raised |
| DiscordRelay.AttachmentRouting | main.py:305-322 | `image/` types go to `sendPhoto`, `video/` types to `sendVideo`, any other or missing type to `sendDocument`, each with the attachment URL, caption and reply id |
| DiscordRelay.AttachmentSendAt | main.py:299-322 | attachment `j` is send number `j + 1` when there is text and number `j` otherwise, with the routed request |
| DiscordRelay.TextRepeatedInCaptions | main.py:293-302 | with text, the first send is `sendMessage` of `💬 <b>name</b>: text`, and every attachment's caption is `<b>name</b>: text` |
| DiscordRelay.NoTextMeansEmptyCaptions | main.py:293-302 | without text, there is no `sendMessage`, and every caption is empty |
| DiscordRelay.AnnSaysHi | main.py:282-295 | "hi" from Ann produces exactly one `sendMessage` with `💬 <b>Ann</b>: hi` and no reply |
| DiscordRelay.ReplyTargetIsCounterpart | main.py:285-289 | the reply target is the Telegram copy of the referenced message when there is one; on mirrored tables that copy maps back to the referenced message |
| DiscordRelay.OnlyLastSendCounts | main.py:291-328 | when nothing raises, only the last send's result decides the update: earlier results do not matter |
| DiscordRelay.LastOkRecordsBothHalves | main.py:325-328 | when the last send returns ok with id `tgId`, both direct tables gain the pair with the author's name and id, and the relay tables stay the same |
| DiscordRelay.FailureLeavesTablesAlone | main.py:324-331 | no sends, a last send that is not ok, or an exception leaves the tables unchanged |
| DiscordRelay.EmptyMessageIsNoOp | main.py:291-328 | a message with neither text nor attachments sends nothing and records nothing |
| DiscordRelay.DeleteUnmappedIsNoOp | main.py:252-253 | deleting an unmapped Discord message makes no Telegram call and changes nothing |
| DiscordRelay.DeleteMappedMessage | main.py:252-267 | for any tables, deleting a mapped message asks Telegram to delete its copy; on success both halves of the pair are gone, on failure nothing changes, and the relay tables are kept |
| DiscordRelay.EventFilters | main.py:220-243 | a message is relayed exactly when its deletion would be handled and its author is not the bot; a webhook post passes neither filter, so deleting it on Discord never touches the tables |
| DiscordRelay.DeleteKeepsMirror | main.py:252-267 | a Discord-side delete keeps mirrored tables mirrored, whatever Telegram answers |
| DiscordRelay.RelayThenDeleteRestores | main.py:245-331 | relaying a message whose last send succeeds, and then deleting it successfully, restores the tables |
| TelegramRelay.LargestPhoto | main.py:488 | the chosen size is the first one of greatest width (missing width counts as 0) |
| TelegramRelay.KindIsFirstCarried | main.py:481-578 | the content kind handled is the first in the precedence text, photo, video, document, voice, animation, sticker that the message carries |
| TelegramRelay.FirstCarriedIsFirst | main.py:481-578 | the kind found is carried and no earlier kind is; there is none exactly when no kind in the list is carried |
| TelegramRelay.ReplyPrefixCases | main.py:467-475 | a reply to a direct copy quotes the original author; a reply to a relayed message gets the generic line; any other message gets no prefix |
| TelegramRelay.PostContent | main.py:481-578 | a post's name and avatar are the sender's, and for each kind its content is the prefix plus the text, caption, audio label or sticker placeholder, with the downloaded file |
| TelegramRelay.PostedUnlessStaticStickerLost | main.py:554-578 | no post is made exactly when the message carries no known kind, or is a static sticker whose download failed |
| TelegramRelay.StickerWithoutThumbnail | main.py:560-567 | an animated or video sticker without a thumbnail downloads nothing and posts the emoji placeholder |
| TelegramRelay.PhotoDownloadsWidest | main.py:486-489 | a photo message downloads the widest size |
| TelegramRelay.PostIdentity | main.py:449-464 | only messages from the configured chat are posted, under the username, falling back to the first name and then `User`, with the looked-up avatar |
| TelegramRelay.DefaultAvatarsDiffer | main.py:616 | different user ids get different default avatar URLs |
| TelegramRelay.AvatarOfUser42 | main.py:616-620 | user 42 without a profile photo gets `https://api.dicebear.com/7.x/initials/svg?seed=42` |
| TelegramRelay.OtherChatIgnored | main.py:449-450 | a message from another chat makes no call and records nothing |
| TelegramRelay.RelayRecordedOnSuccess | main.py:580-584 | the direct tables never change; a relay pair is recorded exactly when a post was made, returned an identifier, and the message id is truthy |
| TelegramRelay.DeleteCases | main.py:340-379 | for any tables, a Telegram delete removes the direct pair if there is one, otherwise the relay pair if there is one, otherwise nothing; a falsy message id changes nothing |
| TelegramRelay.DeleteKeepsMirror | main.py:350-376 | a Telegram delete keeps mirrored tables mirrored |
| TelegramRelay.DeleteCallTargetsDiscordCopy | main.py:350-359 | with a standard webhook URL and a found channel, deleting a mapped message calls the webhook delete on the stored Discord message id |
| TelegramRelay.RelayDeleteMakesNoCall | main.py:371-376 | deleting an unmapped message, or one with only a relay entry, makes no Discord call |
| TelegramRelay.RelayThenDeleteRestores | main.py:427-584 | relaying a Telegram message with fresh ids and then deleting it restores the tables |
| Polling.IdPrefix | main.py:757-760 | the updates handled before the first one without `update_id` all have one, and the next one has none |
| Polling.OffsetIsLastPlusOne | main.py:756-762 | after a good batch of well-formed updates, the cursor is one past the last update's id and polling continues |
| Polling.OffsetIsNotTheMaximum | main.py:757-760 | updates 7 then 3 leave the cursor at 4, not 8 |
| Polling.FailedFetchChangesNothing | main.py:754-766 | a poll answered not-ok, or a poll that raised, changes neither the cursor nor the tables and makes no outbound call; a raise leads to back-off |
| Polling.ForeignBatchIsIgnored | main.py:757-758 | a batch of messages from other chats, with no deletions, makes no outbound call and leaves the tables unchanged |
| Polling.PauseAfterCycle | main.py:762-766 | the loop pauses 5 seconds exactly when the fetch raised or the batch has an update without `update_id`, and 1 second otherwise |
| Polling.MissingIdStopsBatch | main.py:757-766 | an update without `update_id` is still handled, the rest of the batch is dropped, the cursor keeps the previous update's value, and the loop backs off |
| Polling.CursorNeverMovesBack | main.py:756-760 | when every update id in the batch is at or above the cursor, the cursor does not decrease |
| Sync.DiscordTelegramSync.constructor | main.py:185-204 | a new relay has the configured channel, chat and webhook URL, empty tables, cursor 0, and mirrored tables |
| Sync.DiscordTelegramSync.OnMessage | main.py:220-232 | own, webhook and other-channel messages are ignored; any other message is relayed as `HandleDiscordMessage` does, with the mirror kept for fresh ids |
| Sync.DiscordTelegramSync.OnMessageDelete | main.py:234-243 | webhook and other-channel deletions are ignored; any other deletion is handled as `HandleDiscordMessageDelete` does |
| Sync.DiscordTelegramSync.HandleDiscordMessageDelete | main.py:245-270 | issues the delete request for the Telegram copy, if any, and updates the tables as the Discord delete step does; keeps the cursor and the mirror |
| Sync.DiscordTelegramSync.HandleDiscordMessage | main.py:272-331 | issues the planned sends up to the first that raises, and updates the tables as the Discord message step does; keeps the cursor, and keeps the mirror for fresh ids |
| Sync.DiscordTelegramSync.SendUnits | main.py:291-328 | the send loop issues the planned sends up to and including the first that raises, and yields the Telegram id to record: the last send's, when none raised and it was ok |
| Sync.DiscordTelegramSync.RecordDirect | main.py:327-328 | stores the direct pair in both tables in place and changes nothing else |
| Sync.DiscordTelegramSync.HandleTelegramMessageDelete | main.py:333-379 | makes the Discord delete call, if any, and updates the tables as the Telegram delete step does; keeps the cursor and the mirror |
| Sync.DiscordTelegramSync.HandleTelegramMessage | main.py:427-587 | dispatches a deletion or a message, makes the step's calls, and updates the tables as the update step does; keeps the cursor, and keeps the mirror for fresh ids |
| Sync.DiscordTelegramSync.TelegramPollingCycle | main.py:751-766 | fetches `getUpdates` at the current cursor; a failed fetch changes nothing; a good batch is handled by `HandleBatch`; the returned cursor, tables, outbound calls and next loop state are the ones the polling cycle functions compute |
| Sync.DiscordTelegramSync.HandleBatch | main.py:757-760 | hands the updates to the handler in order, up to and including the first without `update_id`; sets the cursor one past the last acknowledged id; returns the calls made in order; reports whether the batch stopped early |

## Left out

- Network I/O through `aiohttp` and the Discord SDK: every reply is an input, as listed above. HTTP status codes,
  JSON decoding and the multipart form built by `send_webhook_message` (`main.py:695-744`) are not modelled. That
  function is an input that either yields an identifier or yields none.
- The timestamp fallback identifier of `send_webhook_message` (`main.py:726`, `main.py:739`): it reads the clock,
  so the identifier is an opaque input.
- `get_telegram_user_avatar` and `get_telegram_file_url` (`main.py:589-649`): whatever profile-photo URL the lookups
  find is an input. Only the default-avatar fallback is computed.
- `download_telegram_file` (`main.py:651-693`): the temporary file path is an input. Temporary file creation and
  `os.remove` are not modelled, and neither is the fact that files are removed only on the normal path.
- The response status of the webhook delete (`main.py:396-401`): it is only logged and changes nothing.
- Bot construction, intents, event registration, `on_ready` starting the poller, `start`, `init_session`,
  `close_session`, logging, configuration loading and `__main__`: none of them touches the correlation state.
- `asyncio` scheduling: each handler runs to completion atomically. The awaits in the source would let handlers
  interleave, and that interleaving is not modelled.
- The request URL `f"{self.api_url}/<method>"` (`main.py:24`): each `Request` constructor names its Bot API
  method, and the URL string built from it is not modelled.
- `asyncio.sleep`: the endless `while True` loop is one `TelegramPollingCycle` call per iteration. The sleep is the
  returned state (`Running` pauses 1 second, `Backoff` pauses 5).
- Malformed Telegram updates beyond a missing `update_id`: a `reply_to_message` without `message_id`, a
  `file_id` field missing where the code indexes it (`main.py:469`, `main.py:489-570`), or a non-dict payload are not modelled. Each of those raises
  before any table changes, so the tables would stay unchanged.
- Sync.DiscordTelegramSync.HandleDiscordMessage: the mirror is claimed only for a fresh Discord key and a fresh
  Telegram id, because the source's overwrite breaks the mirror otherwise.
- Sync.DiscordTelegramSync.HandleTelegramMessage: the mirror is claimed only for a fresh Telegram id and a fresh
  webhook identifier, for the same reason.
- Sync.DiscordTelegramSync.TelegramPollingCycle: no mirror claim is stated for a batch, and neither `HandleBatch` nor a
  lemma about `Polling.TablesAfter` gives one. `HandleTelegramMessage` keeps the mirror for fresh ids, but for a batch
  those ids would have to be fresh against the tables the earlier updates left, and the model does not state that.
- `discord_telegram_sync (2)-2.py` is a variant of the same program with Portuguese comments, and it is not part of this model.
