/** The Discord webhook address: how the relay takes it apart and builds a message-delete URL from it. */
module Webhook {
  import opened Wrappers
  import Text

  /**
   * extract_webhook_info: the last two '/'-separated pieces of the webhook URL as (id, token),
   * or (None, None) when the URL splits into fewer than two pieces, that is, has no '/'.
   */
  function ExtractWebhookInfo(webhookUrl: string): (info: (Option<string>, Option<string>))
    ensures info.0.Some? <==> '/' in webhookUrl
    ensures info.0.Some? <==> info.1.Some?
    ensures info.0.Some? ==> '/' !in info.0.value && '/' !in info.1.value
    ensures info.0.Some? ==> Text.EndsWith(webhookUrl, info.0.value + "/" + info.1.value)
    ensures info.0.Some? ==>
              webhookUrl == info.0.value + "/" + info.1.value
              || Text.EndsWith(webhookUrl, "/" + info.0.value + "/" + info.1.value)
  {
    Text.SplitMany(webhookUrl, '/');
    var parts := Text.Split(webhookUrl, '/');
    if |parts| >= 2 then
      var n := |parts|;
      Text.JoinSplit(webhookUrl, '/');
      TailJoin(parts, '/');
      (Some(parts[n - 2]), Some(parts[n - 1]))
    else
      (None, None)
  }

  /**
   * A joined string ends with its last two pieces joined: it is exactly those two when there
   * are two pieces, and has a separator in front of them when there are more.
   */
  lemma TailJoin(parts: seq<string>, sep: char)
    requires |parts| >= 2
    ensures var n := |parts|;
      Text.EndsWith(Text.Join(parts, sep), parts[n - 2] + [sep] + parts[n - 1])
    ensures |parts| == 2 ==> Text.Join(parts, sep) == parts[0] + [sep] + parts[1]
    ensures var n := |parts|;
      n > 2 ==> Text.EndsWith(Text.Join(parts, sep), [sep] + parts[n - 2] + [sep] + parts[n - 1])
  {
    var n := |parts|;
    var tail := parts[n - 2] + [sep] + parts[n - 1];
    JoinLastTwo(parts, sep);
    if n > 2 {
      var front := parts[..n - 2];
      assert parts == front + parts[n - 2..];
      Text.JoinAppend(front, parts[n - 2..], sep);
      SuffixOfConcat(Text.Join(front, sep), [sep], tail);
    } else {
      assert parts == parts[n - 2..];
      SuffixOfConcat("", "", tail);
    }
  }

  /** The last two pieces joined. */
  lemma JoinLastTwo(parts: seq<string>, sep: char)
    requires |parts| >= 2
    ensures var n := |parts|;
      Text.Join(parts[n - 2..], sep) == parts[n - 2] + [sep] + parts[n - 1]
  {
    var last2 := parts[|parts| - 2..];
    assert last2[1..] == [parts[|parts| - 1]];
  }

  /** a + b + c ends with b + c and with c. */
  lemma SuffixOfConcat(a: string, b: string, c: string)
    ensures Text.EndsWith(a + b + c, b + c) && Text.EndsWith(a + b + c, c)
  {
    var s := a + b + c;
    assert s == a + (b + c);
    assert s[|s| - |b + c|..] == b + c;
    assert s[|s| - |c|..] == c;
  }

  /** For I + "/" + T with I and T free of '/', the id is I and the token is T. */
  lemma ExtractFromTwoPieces(id: string, token: string)
    requires '/' !in id && '/' !in token
    ensures ExtractWebhookInfo(id + "/" + token) == (Some(id), Some(token))
  {
    Text.SplitAfterPiece(id, token, '/');
    Text.SplitPiece(token, '/');
  }

  /** For P + "/" + I + "/" + T with I and T free of '/', the id is I and the token is T. */
  lemma ExtractFromStandardForm(p: string, id: string, token: string)
    requires '/' !in id && '/' !in token
    ensures ExtractWebhookInfo(p + "/" + id + "/" + token) == (Some(id), Some(token))
  {
    Text.SplitConcat(p, id + "/" + token, '/');
    Text.SplitAfterPiece(id, token, '/');
    Text.SplitPiece(token, '/');
    assert p + "/" + id + "/" + token == p + "/" + (id + "/" + token);
  }

  const WebhooksPath := "https://discord.com/api/webhooks"

  /** delete_webhook_message: the URL it sends DELETE to, None when the id or the token is empty. */
  function DeleteMessageUrl(webhookUrl: string, messageIdentifier: string): (url: Option<string>) {
    match ExtractWebhookInfo(webhookUrl)
    case (Some(id), Some(token)) =>
      if id != "" && token != "" then Some(WebhooksPath + "/" + id + "/" + token + "/messages/" + messageIdentifier)
      else None
    case _ => None
  }

  /** For a webhook URL of Discord's own form the delete URL is that URL followed by /messages/ and the id. */
  lemma DeleteUrlOfStandardWebhook(id: string, token: string, messageIdentifier: string)
    requires id != "" && token != "" && '/' !in id && '/' !in token
    ensures var webhookUrl := WebhooksPath + "/" + id + "/" + token;
      DeleteMessageUrl(webhookUrl, messageIdentifier) == Some(webhookUrl + "/messages/" + messageIdentifier)
  {
    ExtractFromStandardForm(WebhooksPath, id, token);
  }

  /** A webhook URL that ends in '/' has an empty last piece, so no delete is attempted. */
  lemma NoDeleteForTrailingSlash(p: string, messageIdentifier: string)
    ensures DeleteMessageUrl(p + "/", messageIdentifier) == None
  {
    Text.SplitConcat(p, "", '/');
    assert p + "/" + "" == p + "/";
  }

  /** A webhook URL without any '/' yields neither id nor token, so no delete is attempted. */
  lemma NoDeleteWithoutSlash(webhookUrl: string, messageIdentifier: string)
    requires '/' !in webhookUrl
    ensures ExtractWebhookInfo(webhookUrl) == (None, None)
    ensures DeleteMessageUrl(webhookUrl, messageIdentifier) == None
  {
  }
}
