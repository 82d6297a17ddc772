/**
 * Relay decisions for updates that arrive from Telegram: the chat filter, the poster's name and
 * avatar, the reply prefix, which content branch is taken and what it posts to the Discord
 * webhook, how a deletion is propagated, and how the correlation store changes.
 */
module TelegramRelay {
  import opened Wrappers
  import Text
  import Webhook
  import Correlation

  /** The `from` object; each field may be absent. */
  datatype TelegramUser = TelegramUser(id: Option<int>, username: Option<string>, firstName: Option<string>)

  datatype PhotoSize = PhotoSize(fileId: string, width: Option<int>)

  datatype Sticker = Sticker(fileId: string, isAnimated: bool, isVideo: bool,
                             thumbnail: Option<string>, emoji: Option<string>)

  /**
   * The fields of a Telegram message the relay reads. A missing text or caption is "" (the code
   * only tests them for truthiness or reads them with default ''); a media field holds the
   * file_id of that media when the message has it; replyTo is reply_to_message.message_id.
   */
  datatype TelegramMessage = TelegramMessage(
    messageId: Option<int>,
    chatId: Option<int>,
    sender: TelegramUser,
    replyTo: Option<int>,
    text: string,
    caption: string,
    photo: seq<PhotoSize>,
    video: Option<string>,
    document: Option<string>,
    voice: Option<string>,
    animation: Option<string>,
    sticker: Option<Sticker>)

  /** A deleted_message object; its message_id may be missing. */
  datatype Deletion = Deletion(messageId: Option<int>)

  datatype Update = Update(updateId: Option<int>, deletedMessage: Option<Deletion>, message: Option<TelegramMessage>)

  /**
   * What the calls made while handling one update returned: the profile photo URL found for the
   * sender (None when there is none or the lookup failed), the local path of the one file the
   * branch downloads (None when the download failed), the id of the webhook post (None when
   * the post failed), and whether the configured Discord channel was found.
   */
  datatype TelegramIO = TelegramIO(profilePhotoUrl: Option<string>, downloaded: Option<string>,
                                   posted: Option<string>, channelFound: bool)

  /** The webhook payload (username, avatar_url, content) and the attached file, if any. */
  datatype WebhookPost = WebhookPost(username: string, avatarUrl: string, content: string, file: Option<string>)

  /** The outbound calls handling an update makes: the file download from Telegram, and the webhook post and
      webhook delete on Discord. */
  datatype OutboundCall =
    | DownloadFile(fileId: string)
    | ExecuteWebhook(post: WebhookPost)
    | DeleteWebhookMessage(url: string)

  // ---- who posts ----

  /** user.get('username', user.get('first_name', 'User')). */
  function Username(u: TelegramUser): string {
    match u.username
    case Some(name) => name
    case None => match u.firstName { case Some(first) => first case None => "User" }
  }

  const AvatarBase := "https://api.dicebear.com/7.x/initials/svg?seed="

  /** The placeholder avatar, seeded with str(user_id) ("None" when the id is missing). */
  function DefaultAvatarUrl(userId: Option<int>): string {
    AvatarBase + match userId { case Some(i) => Text.IntString(i) case None => "None" }
  }

  function AvatarUrl(userId: Option<int>, profilePhotoUrl: Option<string>): string {
    match profilePhotoUrl
    case Some(url) => url
    case None => DefaultAvatarUrl(userId)
  }

  // ---- reply prefix ----

  const DirectReplyOpen := "> 💬 Replying to **"
  const DirectReplyClose := "**\n\n"
  const RelayReplyLine := "> 💬 Replying to previous message\n\n"

  function ReplyPrefix(t: Correlation.Tables, replyTo: Option<int>): string {
    match replyTo
    case None => ""
    case Some(id) =>
      if id in t.telegramToDiscord then DirectReplyOpen + t.telegramToDiscord[id].username + DirectReplyClose
      else if id in t.telegramToWebhook then RelayReplyLine
      else ""
  }

  // ---- content branches ----

  datatype ContentKind = TextKind | PhotoKind | VideoKind | DocumentKind | VoiceKind | AnimationKind | StickerKind

  /** The branch handle_telegram_message takes, tried in the order of the code; None when no branch applies. */
  function Kind(m: TelegramMessage): Option<ContentKind> {
    if m.text != "" then Some(TextKind)
    else if |m.photo| > 0 then Some(PhotoKind)
    else if m.video.Some? then Some(VideoKind)
    else if m.document.Some? then Some(DocumentKind)
    else if m.voice.Some? then Some(VoiceKind)
    else if m.animation.Some? then Some(AnimationKind)
    else if m.sticker.Some? then Some(StickerKind)
    else None
  }

  /** Whether the message carries that kind of content at all. */
  predicate Carries(m: TelegramMessage, k: ContentKind) {
    match k
    case TextKind => m.text != ""
    case PhotoKind => |m.photo| > 0
    case VideoKind => m.video.Some?
    case DocumentKind => m.document.Some?
    case VoiceKind => m.voice.Some?
    case AnimationKind => m.animation.Some?
    case StickerKind => m.sticker.Some?
  }

  /** The order in which the code tries the branches. */
  const Precedence: seq<ContentKind> := [TextKind, PhotoKind, VideoKind, DocumentKind, VoiceKind, AnimationKind, StickerKind]

  /** The first kind in ks that the message carries. */
  function FirstCarried(m: TelegramMessage, ks: seq<ContentKind>): Option<ContentKind> {
    if |ks| == 0 then None else if Carries(m, ks[0]) then Some(ks[0]) else FirstCarried(m, ks[1..])
  }

  /** The value Telegram's photo array is compared by: width, 0 when absent. */
  function Width(p: PhotoSize): int {
    match p.width case Some(w) => w case None => 0
  }

  /** max(photo, key=width): the first of the widest sizes. */
  function LargestPhoto(sizes: seq<PhotoSize>): (k: nat)
    requires |sizes| > 0
    ensures k < |sizes|
    ensures forall j :: 0 <= j < |sizes| ==> Width(sizes[j]) <= Width(sizes[k])
    ensures forall j :: 0 <= j < k ==> Width(sizes[j]) < Width(sizes[k])
  {
    if |sizes| == 1 then 0
    else
      var k := LargestPhoto(sizes[..|sizes| - 1]);
      if Width(sizes[|sizes| - 1]) > Width(sizes[k]) then |sizes| - 1 else k
  }

  predicate MovingSticker(s: Sticker) {
    s.isAnimated || s.isVideo
  }

  /** The file the taken branch downloads; an animated or video sticker downloads its thumbnail, if it has one. */
  function DownloadTarget(m: TelegramMessage): Option<string> {
    match Kind(m)
    case None => None
    case Some(k) =>
      match k
      case TextKind => None
      case PhotoKind => Some(m.photo[LargestPhoto(m.photo)].fileId)
      case VideoKind => m.video
      case DocumentKind => m.document
      case VoiceKind => m.voice
      case AnimationKind => m.animation
      case StickerKind =>
        var s := m.sticker.value;
        if MovingSticker(s) then s.thumbnail else Some(s.fileId)
  }

  /** The sticker placeholder: a mask and the sticker's emoji, a camera when it has none. */
  function StickerPlaceholder(s: Sticker): string {
    "🎭 " + match s.emoji { case Some(e) => e case None => "📷" }
  }

  /**
   * The webhook post of the taken branch, given the reply prefix, the poster's identity and the
   * downloaded path (None when nothing was downloaded). None when nothing is posted: no branch
   * applies, or a static sticker could not be downloaded.
   */
  function ComposePost(m: TelegramMessage, prefix: string, username: string, avatar: string,
                       downloaded: Option<string>): Option<WebhookPost> {
    match Kind(m)
    case None => None
    case Some(k) =>
      match k
      case TextKind => Some(WebhookPost(username, avatar, prefix + m.text, None))
      case PhotoKind => Some(WebhookPost(username, avatar, prefix + m.caption, downloaded))
      case VideoKind => Some(WebhookPost(username, avatar, prefix + m.caption, downloaded))
      case DocumentKind => Some(WebhookPost(username, avatar, prefix + m.caption, downloaded))
      case VoiceKind => Some(WebhookPost(username, avatar, prefix + "🎤 Audio", downloaded))
      case AnimationKind => Some(WebhookPost(username, avatar, prefix + m.caption, downloaded))
      case StickerKind =>
        var s := m.sticker.value;
        if downloaded.Some? then Some(WebhookPost(username, avatar, prefix, downloaded))
        else if MovingSticker(s) then Some(WebhookPost(username, avatar, prefix + StickerPlaceholder(s), None))
        else None
  }

  /** The path the branch obtained: the download result if the branch downloads, else nothing. */
  function Downloaded(m: TelegramMessage, io: TelegramIO): Option<string> {
    if DownloadTarget(m).Some? then io.downloaded else None
  }

  /** The post handle_telegram_message makes for a message, None when it posts nothing. */
  function RelayPost(t: Correlation.Tables, chatId: int, m: TelegramMessage, io: TelegramIO): Option<WebhookPost> {
    if m.chatId != Some(chatId) then None
    else ComposePost(m, ReplyPrefix(t, m.replyTo), Username(m.sender),
                     AvatarUrl(m.sender.id, io.profilePhotoUrl), Downloaded(m, io))
  }

  function MessageCalls(t: Correlation.Tables, chatId: int, m: TelegramMessage, io: TelegramIO): seq<OutboundCall> {
    if m.chatId != Some(chatId) then []
    else
      (match DownloadTarget(m) { case Some(f) => [DownloadFile(f)] case None => [] })
      + (match RelayPost(t, chatId, m, io) { case Some(p) => [ExecuteWebhook(p)] case None => [] })
  }

  /** The relay pair is written when a post went out, the webhook returned an id and the message id is truthy. */
  function MessageStep(t: Correlation.Tables, chatId: int, m: TelegramMessage, io: TelegramIO): Correlation.Tables {
    if RelayPost(t, chatId, m, io).Some? && io.posted.Some? && Truthy(m.messageId)
    then Correlation.RecordRelay(t, m.messageId.value, io.posted.value)
    else t
  }

  // ---- deletions ----

  /** handle_telegram_message_delete's effect on the store (main.py:340-376). */
  function DeleteStep(t: Correlation.Tables, d: Deletion): Correlation.Tables {
    if !Truthy(d.messageId) then t
    else
      var id := d.messageId.value;
      if id in t.telegramToDiscord then Correlation.RemoveDirectByTelegram(t, id)
      else if id in t.telegramToWebhook then Correlation.RemoveRelayByTelegram(t, id)
      else t
  }

  /** The webhook DELETE the deletion issues: only for a direct entry, when the channel is found and the URL parses. */
  function DeleteCalls(t: Correlation.Tables, webhookUrl: string, d: Deletion, channelFound: bool): seq<OutboundCall> {
    if Truthy(d.messageId) && d.messageId.value in t.telegramToDiscord && channelFound then
      match Webhook.DeleteMessageUrl(webhookUrl, t.telegramToDiscord[d.messageId.value].messageKey)
      case Some(url) => [DeleteWebhookMessage(url)]
      case None => []
    else []
  }

  // ---- one update ----

  /** handle_telegram_message: a deletion goes to the delete path; a message to the relay path. */
  function UpdateStep(t: Correlation.Tables, chatId: int, u: Update, io: TelegramIO): Correlation.Tables {
    match u.deletedMessage
    case Some(d) => DeleteStep(t, d)
    case None => match u.message { case Some(m) => MessageStep(t, chatId, m, io) case None => t }
  }

  function UpdateCalls(t: Correlation.Tables, chatId: int, webhookUrl: string, u: Update, io: TelegramIO): seq<OutboundCall> {
    match u.deletedMessage
    case Some(d) => DeleteCalls(t, webhookUrl, d, io.channelFound)
    case None => match u.message { case Some(m) => MessageCalls(t, chatId, m, io) case None => [] }
  }

  // ---- properties ----

  /** The branches are tried in the order text, photo, video, document, voice, animation, sticker. */
  lemma KindIsFirstCarried(m: TelegramMessage)
    ensures Kind(m) == FirstCarried(m, Precedence)
  {
    var ks := Precedence;
    assert ks[6..][1..] == ks[7..] == [];
    assert ks[5..][1..] == ks[6..];
    assert ks[4..][1..] == ks[5..];
    assert ks[3..][1..] == ks[4..];
    assert ks[2..][1..] == ks[3..];
    assert ks[1..][1..] == ks[2..];
    assert ks[0..] == ks;
    assert FirstCarried(m, ks[6..]) == if m.sticker.Some? then Some(StickerKind) else None;
    assert FirstCarried(m, ks[5..]) == if m.animation.Some? then Some(AnimationKind) else FirstCarried(m, ks[6..]);
    assert FirstCarried(m, ks[4..]) == if m.voice.Some? then Some(VoiceKind) else FirstCarried(m, ks[5..]);
    assert FirstCarried(m, ks[3..]) == if m.document.Some? then Some(DocumentKind) else FirstCarried(m, ks[4..]);
    assert FirstCarried(m, ks[2..]) == if m.video.Some? then Some(VideoKind) else FirstCarried(m, ks[3..]);
    assert FirstCarried(m, ks[1..]) == if |m.photo| > 0 then Some(PhotoKind) else FirstCarried(m, ks[2..]);
    assert FirstCarried(m, ks) == if m.text != "" then Some(TextKind) else FirstCarried(m, ks[1..]);
  }

  /** The branch taken is carried by the message, and no earlier branch is. */
  lemma {:induction false} FirstCarriedIsFirst(m: TelegramMessage, ks: seq<ContentKind>)
    ensures var r := FirstCarried(m, ks);
      && (r.None? <==> forall i :: 0 <= i < |ks| ==> !Carries(m, ks[i]))
      && (r.Some? ==> exists i :: 0 <= i < |ks| && ks[i] == r.value && Carries(m, ks[i])
                                  && forall j :: 0 <= j < i ==> !Carries(m, ks[j]))
  {
    if |ks| > 0 && !Carries(m, ks[0]) {
      FirstCarriedIsFirst(m, ks[1..]);
      var r := FirstCarried(m, ks);
      if r.Some? {
        var i :| 0 <= i < |ks| - 1 && ks[1..][i] == r.value && Carries(m, ks[1..][i])
                 && forall j :: 0 <= j < i ==> !Carries(m, ks[1..][j]);
        assert forall j :: 0 <= j < i + 1 ==> !Carries(m, ks[j]) by {
          forall j | 0 <= j < i + 1 ensures !Carries(m, ks[j]) {
            if j > 0 { assert ks[j] == ks[1..][j - 1]; }
          }
        }
        assert ks[i + 1] == r.value;
      } else {
        forall i | 0 <= i < |ks| ensures !Carries(m, ks[i]) {
          if i > 0 { assert ks[i] == ks[1..][i - 1]; }
        }
      }
    }
  }

  /** The reply prefix names the Discord author for a direct entry, is generic for a relay entry, empty otherwise. */
  lemma ReplyPrefixCases(t: Correlation.Tables, replyTo: Option<int>)
    ensures var p := ReplyPrefix(t, replyTo);
      && (replyTo.Some? && replyTo.value in t.telegramToDiscord ==>
            p == "> 💬 Replying to **" + t.telegramToDiscord[replyTo.value].username + "**\n\n")
      && (replyTo.Some? && replyTo.value !in t.telegramToDiscord && replyTo.value in t.telegramToWebhook ==>
            p == "> 💬 Replying to previous message\n\n")
      && (p == "" <==> replyTo.None? || (replyTo.value !in t.telegramToDiscord && replyTo.value !in t.telegramToWebhook))
  {
  }

  /**
   * Whatever the branch, the posted content is the reply prefix followed by the branch's text:
   * the message text, the caption, the audio marker, the sticker placeholder, or nothing.
   */
  lemma PostContent(m: TelegramMessage, prefix: string, username: string, avatar: string, downloaded: Option<string>)
    requires ComposePost(m, prefix, username, avatar, downloaded).Some?
    ensures var p := ComposePost(m, prefix, username, avatar, downloaded).value;
      && p.username == username && p.avatarUrl == avatar
      && Text.StartsWith(p.content, prefix)
      && (Kind(m) == Some(TextKind) ==> p.content == prefix + m.text && p.file == None)
      && (Kind(m) in {Some(PhotoKind), Some(VideoKind), Some(DocumentKind), Some(AnimationKind)} ==>
            p.content == prefix + m.caption && p.file == downloaded)
      && (Kind(m) == Some(VoiceKind) ==> p.content == prefix + "🎤 Audio" && p.file == downloaded)
      && (Kind(m) == Some(StickerKind) && downloaded.Some? ==> p.content == prefix && p.file == downloaded)
      && (Kind(m) == Some(StickerKind) && downloaded.None? ==>
            p.content == prefix + "🎭 " + (if m.sticker.value.emoji.Some? then m.sticker.value.emoji.value else "📷")
            && p.file == None)
  {
  }

  /** Something is posted exactly when a branch applies, except for a static sticker whose download failed. */
  lemma PostedUnlessStaticStickerLost(m: TelegramMessage, prefix: string, username: string, avatar: string,
                                      downloaded: Option<string>)
    ensures ComposePost(m, prefix, username, avatar, downloaded).None? <==>
      Kind(m).None? || (Kind(m) == Some(StickerKind) && !MovingSticker(m.sticker.value) && downloaded.None?)
  {
  }

  /** A moving sticker without a thumbnail downloads nothing and posts the text placeholder. */
  lemma StickerWithoutThumbnail(m: TelegramMessage, prefix: string, username: string, avatar: string, io: TelegramIO)
    requires Kind(m) == Some(StickerKind) && MovingSticker(m.sticker.value) && m.sticker.value.thumbnail.None?
    ensures DownloadTarget(m) == None && Downloaded(m, io) == None
    ensures ComposePost(m, prefix, username, avatar, Downloaded(m, io))
      == Some(WebhookPost(username, avatar, prefix + StickerPlaceholder(m.sticker.value), None))
  {
  }

  /** A photo message downloads the widest size, the first of them if several are equally wide. */
  lemma PhotoDownloadsWidest(m: TelegramMessage)
    requires Kind(m) == Some(PhotoKind)
    ensures exists k :: (0 <= k < |m.photo| && DownloadTarget(m) == Some(m.photo[k].fileId)
      && (forall j :: 0 <= j < |m.photo| ==> Width(m.photo[j]) <= Width(m.photo[k]))
      && (forall j :: 0 <= j < k ==> Width(m.photo[j]) < Width(m.photo[k])))
  {
    var k := LargestPhoto(m.photo);
    assert DownloadTarget(m) == Some(m.photo[k].fileId);
  }

  /** The poster's name prefers the handle, then the first name, then "User"; the avatar falls back to the placeholder. */
  lemma PostIdentity(t: Correlation.Tables, chatId: int, m: TelegramMessage, io: TelegramIO)
    requires RelayPost(t, chatId, m, io).Some?
    ensures var p := RelayPost(t, chatId, m, io).value;
      && m.chatId == Some(chatId)
      && (m.sender.username.Some? ==> p.username == m.sender.username.value)
      && (m.sender.username.None? && m.sender.firstName.Some? ==> p.username == m.sender.firstName.value)
      && (m.sender.username.None? && m.sender.firstName.None? ==> p.username == "User")
      && (io.profilePhotoUrl.Some? ==> p.avatarUrl == io.profilePhotoUrl.value)
      && (io.profilePhotoUrl.None? ==> p.avatarUrl == DefaultAvatarUrl(m.sender.id))
  {
  }

  /** The placeholder avatar is keyed by the user id: different users get different URLs. */
  lemma DefaultAvatarsDiffer(a: int, b: int)
    requires a != b
    ensures DefaultAvatarUrl(Some(a)) != DefaultAvatarUrl(Some(b))
  {
    Text.IntStringInjective(a, b);
    var ua, ub := DefaultAvatarUrl(Some(a)), DefaultAvatarUrl(Some(b));
    assert ua[|AvatarBase|..] == Text.IntString(a);
    assert ub[|AvatarBase|..] == Text.IntString(b);
  }

  /** The example of user 42 without a profile photo. */
  lemma AvatarOfUser42()
    ensures AvatarUrl(Some(42), None) == "https://api.dicebear.com/7.x/initials/svg?seed=42"
  {
    assert Text.NatString(42) == Text.NatString(4) + [Text.DigitChar(2)];
  }

  /** Messages from any other chat are ignored: no call and no table change. */
  lemma OtherChatIgnored(t: Correlation.Tables, chatId: int, m: TelegramMessage, io: TelegramIO)
    requires m.chatId != Some(chatId)
    ensures MessageCalls(t, chatId, m, io) == [] && MessageStep(t, chatId, m, io) == t
  {
  }

  /**
   * The relay pair is recorded only after a post whose webhook returned an id, for a message with
   * a truthy id, and then links exactly those two ids; the direct pair is not touched.
   */
  lemma RelayRecordedOnSuccess(t: Correlation.Tables, chatId: int, m: TelegramMessage, io: TelegramIO)
    ensures var r := MessageStep(t, chatId, m, io);
      && r.discordToTelegram == t.discordToTelegram && r.telegramToDiscord == t.telegramToDiscord
      && (RelayPost(t, chatId, m, io).Some? && io.posted.Some? && Truthy(m.messageId) ==>
            r.telegramToWebhook == t.telegramToWebhook[m.messageId.value := io.posted.value]
            && r.webhookToTelegram == t.webhookToTelegram[io.posted.value := m.messageId.value])
      && (RelayPost(t, chatId, m, io).None? || io.posted.None? || !Truthy(m.messageId) ==> r == t)
  {
  }

  /**
   * A deletion of a direct entry removes both direct halves whatever the webhook delete did; of a
   * relay entry, both relay halves; the other pair is never touched; anything else is a no-op.
   */
  lemma DeleteCases(t: Correlation.Tables, d: Deletion)
    ensures var r := DeleteStep(t, d);
      && (!Truthy(d.messageId) ==> r == t)
      && (Truthy(d.messageId) && d.messageId.value in t.telegramToDiscord ==>
            var id := d.messageId.value;
            && id !in r.telegramToDiscord && t.telegramToDiscord[id].messageKey !in r.discordToTelegram
            && r.webhookToTelegram == t.webhookToTelegram && r.telegramToWebhook == t.telegramToWebhook)
      && (Truthy(d.messageId) && d.messageId.value !in t.telegramToDiscord && d.messageId.value in t.telegramToWebhook ==>
            var id := d.messageId.value;
            && id !in r.telegramToWebhook && t.telegramToWebhook[id] !in r.webhookToTelegram
            && r.discordToTelegram == t.discordToTelegram && r.telegramToDiscord == t.telegramToDiscord)
      && (Truthy(d.messageId) && d.messageId.value !in t.telegramToDiscord && d.messageId.value !in t.telegramToWebhook ==>
            r == t)
  {
  }

  /** A Telegram-side delete keeps mirrored tables mirrored. */
  lemma DeleteKeepsMirror(t: Correlation.Tables, d: Deletion)
    requires Correlation.Mirrored(t)
    ensures Correlation.Mirrored(DeleteStep(t, d))
  {
    if Truthy(d.messageId) {
      var id := d.messageId.value;
      if id in t.telegramToDiscord {
        Correlation.RemoveByTelegramDropsPair(t, id);
      } else if id in t.telegramToWebhook {
        Correlation.RemoveRelayDropsPair(t, id);
      }
    }
  }


  /** Only a direct entry leads to a Discord call: a DELETE to the webhook message URL of its Discord id. */
  lemma DeleteCallTargetsDiscordCopy(t: Correlation.Tables, id: int, token: string, webhookId: string,
                                     channelFound: bool)
    requires id != 0 && id in t.telegramToDiscord && channelFound
    requires webhookId != "" && token != "" && '/' !in webhookId && '/' !in token
    ensures var webhookUrl := Webhook.WebhooksPath + "/" + webhookId + "/" + token;
      DeleteCalls(t, webhookUrl, Deletion(Some(id)), channelFound)
        == [DeleteWebhookMessage(webhookUrl + "/messages/" + t.telegramToDiscord[id].messageKey)]
  {
    Webhook.DeleteUrlOfStandardWebhook(webhookId, token, t.telegramToDiscord[id].messageKey);
  }

  lemma RelayDeleteMakesNoCall(t: Correlation.Tables, webhookUrl: string, d: Deletion, channelFound: bool)
    requires !Truthy(d.messageId) || d.messageId.value !in t.telegramToDiscord
    ensures DeleteCalls(t, webhookUrl, d, channelFound) == []
  {
  }

  /** A relayed message whose ids were fresh, then deleted on Telegram, leaves the store as it was. */
  lemma RelayThenDeleteRestores(t: Correlation.Tables, chatId: int, m: TelegramMessage, io: TelegramIO)
    requires RelayPost(t, chatId, m, io).Some? && io.posted.Some? && Truthy(m.messageId)
    requires m.messageId.value !in t.telegramToDiscord && m.messageId.value !in t.telegramToWebhook
    requires io.posted.value !in t.webhookToTelegram
    ensures DeleteStep(MessageStep(t, chatId, m, io), Deletion(m.messageId)) == t
  {
    Correlation.RecordThenRemoveRelay(t, m.messageId.value, io.posted.value);
  }
}
