/**
 * The Telegram poll loop (telegram_polling): one cycle fetches a batch of updates at the
 * current offset, hands each to the update handler and acknowledges it by moving the offset
 * past it. A cycle ends normally (short pause) or by an exception (long pause).
 */
module Polling {
  import opened Wrappers
  import Correlation
  import TelegramRelay

  /** What getUpdates gave: an exception, or a response with its `ok` flag and its result list. */
  datatype PollResponse = PollRaised | PollAnswer(ok: bool, updates: seq<TelegramRelay.Update>)

  /** The two states of the loop: after a normal cycle, or backing off after an exception. */
  datatype PollState = Running | Backoff

  /** The pause, in seconds, before the next cycle. */
  function PauseSeconds(s: PollState): nat {
    match s case Running => 1 case Backoff => 5
  }

  /** How many leading updates carry an update_id; reading the first one that does not raises. */
  function IdPrefix(us: seq<TelegramRelay.Update>): (n: nat)
    ensures n <= |us|
    ensures forall i :: 0 <= i < n ==> us[i].updateId.Some?
    ensures n < |us| ==> us[n].updateId.None?
  {
    if |us| == 0 || us[0].updateId.None? then 0 else 1 + IdPrefix(us[1..])
  }

  /** The updates handed to the handler: all of them, or up to and including the one without an id. */
  function HandledCount(us: seq<TelegramRelay.Update>): (n: nat)
    ensures n <= |us|
  {
    if IdPrefix(us) < |us| then IdPrefix(us) + 1 else |us|
  }

  /** The offset after a batch: one past the last acknowledged update's id (not the largest id). */
  function OffsetAfterBatch(offset: int, us: seq<TelegramRelay.Update>): int {
    var n := IdPrefix(us);
    if n == 0 then offset else us[n - 1].updateId.value + 1
  }

  /** The store after handing the updates to the handler one after another. */
  function TablesAfter(t: Correlation.Tables, chatId: int, us: seq<TelegramRelay.Update>,
                       ios: seq<TelegramRelay.TelegramIO>): Correlation.Tables
    requires |ios| == |us|
  {
    if |us| == 0 then t
    else TelegramRelay.UpdateStep(TablesAfter(t, chatId, us[..|us| - 1], ios[..|ios| - 1]), chatId,
                                  us[|us| - 1], ios[|ios| - 1])
  }

  /** The Discord calls the handler makes for the updates, in order, each against the store the earlier ones left. */
  function CallsAfter(t: Correlation.Tables, chatId: int, webhookUrl: string, us: seq<TelegramRelay.Update>,
                      ios: seq<TelegramRelay.TelegramIO>): seq<TelegramRelay.OutboundCall>
    requires |ios| == |us|
  {
    if |us| == 0 then []
    else CallsAfter(t, chatId, webhookUrl, us[..|us| - 1], ios[..|ios| - 1])
         + TelegramRelay.UpdateCalls(TablesAfter(t, chatId, us[..|us| - 1], ios[..|ios| - 1]), chatId, webhookUrl,
                                     us[|us| - 1], ios[|ios| - 1])
  }

  function CycleOffset(offset: int, response: PollResponse): int {
    match response
    case PollRaised => offset
    case PollAnswer(ok, us) => if ok then OffsetAfterBatch(offset, us) else offset
  }

  function CycleTables(t: Correlation.Tables, chatId: int, response: PollResponse,
                       ios: seq<TelegramRelay.TelegramIO>): Correlation.Tables
    requires response.PollAnswer? ==> |ios| == |response.updates|
  {
    match response
    case PollRaised => t
    case PollAnswer(ok, us) =>
      if ok then var n := HandledCount(us); TablesAfter(t, chatId, us[..n], ios[..n]) else t
  }

  function CycleCalls(t: Correlation.Tables, chatId: int, webhookUrl: string, response: PollResponse,
                      ios: seq<TelegramRelay.TelegramIO>): seq<TelegramRelay.OutboundCall>
    requires response.PollAnswer? ==> |ios| == |response.updates|
  {
    match response
    case PollRaised => []
    case PollAnswer(ok, us) =>
      if ok then var n := HandledCount(us); CallsAfter(t, chatId, webhookUrl, us[..n], ios[..n]) else []
  }

  function NextState(response: PollResponse): PollState {
    match response
    case PollRaised => Backoff
    case PollAnswer(ok, us) => if ok && IdPrefix(us) < |us| then Backoff else Running
  }

  // ---- properties ----

  /** After an ok batch whose updates all carry ids, the offset is the last update's id plus one. */
  lemma OffsetIsLastPlusOne(offset: int, us: seq<TelegramRelay.Update>)
    requires |us| > 0 && forall i :: 0 <= i < |us| ==> us[i].updateId.Some?
    ensures CycleOffset(offset, PollAnswer(true, us)) == us[|us| - 1].updateId.value + 1
    ensures NextState(PollAnswer(true, us)) == Running
  {
  }

  /** The offset follows the last update, not the largest id: ids 7 then 3 leave it at 4. */
  lemma OffsetIsNotTheMaximum(offset: int, a: TelegramRelay.Update, b: TelegramRelay.Update)
    requires a.updateId == Some(7) && b.updateId == Some(3)
    ensures CycleOffset(offset, PollAnswer(true, [a, b])) == 4
  {
    assert IdPrefix([a, b]) == 2 by {
      assert [a, b][1..] == [b];
      assert [b][1..] == [];
    }
  }

  /** A failed fetch, or a response that is not ok, leaves offset and store as they were. */
  lemma FailedFetchChangesNothing(offset: int, t: Correlation.Tables, chatId: int, webhookUrl: string,
                                  response: PollResponse, ios: seq<TelegramRelay.TelegramIO>)
    requires response.PollRaised? || !response.ok
    requires response.PollAnswer? ==> |ios| == |response.updates|
    ensures CycleOffset(offset, response) == offset
    ensures CycleTables(t, chatId, response, ios) == t
    ensures CycleCalls(t, chatId, webhookUrl, response, ios) == []
    ensures NextState(response) == (if response.PollRaised? then Backoff else Running)
  {
  }

  /**
   * An update without an id is still handed to the handler; the offset stays one past the
   * update before it, and the loop backs off.
   */
  lemma MissingIdStopsBatch(offset: int, us: seq<TelegramRelay.Update>, k: nat)
    requires k < |us| && us[k].updateId.None?
    requires forall i :: 0 <= i < k ==> us[i].updateId.Some?
    ensures HandledCount(us) == k + 1
    ensures CycleOffset(offset, PollAnswer(true, us)) == if k == 0 then offset else us[k - 1].updateId.value + 1
    ensures NextState(PollAnswer(true, us)) == Backoff
  {
  }

  /** With ids no smaller than the cursor, as getUpdates returns them, a cycle never moves the cursor back. */
  lemma CursorNeverMovesBack(offset: int, response: PollResponse)
    requires response.PollAnswer? ==> forall i :: 0 <= i < |response.updates| && response.updates[i].updateId.Some? ==>
                                         response.updates[i].updateId.value >= offset
    ensures CycleOffset(offset, response) >= offset
  {
    if response.PollAnswer? && response.ok {
      var n := IdPrefix(response.updates);
      if n > 0 {
        assert response.updates[n - 1].updateId.Some?;
      }
    }
  }

  /** A batch of messages that all come from other chats makes no Discord call and leaves the store alone. */
  lemma {:induction false} ForeignBatchIsIgnored(t: Correlation.Tables, chatId: int, webhookUrl: string,
                                                 us: seq<TelegramRelay.Update>, ios: seq<TelegramRelay.TelegramIO>)
    requires |ios| == |us|
    requires forall i :: 0 <= i < |us| ==>
               us[i].deletedMessage.None? && (us[i].message.Some? ==> us[i].message.value.chatId != Some(chatId))
    ensures TablesAfter(t, chatId, us, ios) == t
    ensures CallsAfter(t, chatId, webhookUrl, us, ios) == []
  {
    if |us| > 0 {
      var n := |us| - 1;
      ForeignBatchIsIgnored(t, chatId, webhookUrl, us[..n], ios[..n]);
      match us[n].message
      case Some(m) => TelegramRelay.OtherChatIgnored(t, chatId, m, ios[n]);
      case None =>
    }
  }

  /** The loop pauses 5 seconds after a fetch that raised or a batch cut short by a missing update_id, and 1 second otherwise. */
  lemma PauseAfterCycle(response: PollResponse)
    ensures PauseSeconds(NextState(response)) == 5 <==>
              response.PollRaised? || (response.ok && exists i :: 0 <= i < |response.updates| && response.updates[i].updateId.None?)
    ensures PauseSeconds(NextState(response)) == 1 <==> !(PauseSeconds(NextState(response)) == 5)
  {
    if response.PollAnswer? && response.ok {
      var n := IdPrefix(response.updates);
      if n < |response.updates| {
        assert response.updates[n].updateId.None?;
      }
    }
  }

  /** Each handled update extends both folds by one step. */
  lemma TablesAfterStep(t: Correlation.Tables, chatId: int, webhookUrl: string, us: seq<TelegramRelay.Update>,
                        ios: seq<TelegramRelay.TelegramIO>, i: nat)
    requires |ios| == |us| && i < |us|
    ensures TablesAfter(t, chatId, us[..i + 1], ios[..i + 1])
      == TelegramRelay.UpdateStep(TablesAfter(t, chatId, us[..i], ios[..i]), chatId, us[i], ios[i])
    ensures CallsAfter(t, chatId, webhookUrl, us[..i + 1], ios[..i + 1])
      == CallsAfter(t, chatId, webhookUrl, us[..i], ios[..i])
         + TelegramRelay.UpdateCalls(TablesAfter(t, chatId, us[..i], ios[..i]), chatId, webhookUrl, us[i], ios[i])
  {
    assert us[..i + 1][..i] == us[..i];
    assert ios[..i + 1][..i] == ios[..i];
  }
}
