/** The per-user processing state: the last message seen and four counters. */
module MessageStates {
  import opened Text

  /** One row of the `user_message_state` table. */
  datatype StateRow = StateRow(
    userId: string,
    lastMessageId: Option<string>,
    lastMessageTime: Option<nat>,
    impressionUpdateCount: int,
    affectionUpdateCount: int,
    totalMessages: int,
    processedMessages: int)

  /** The row a new state starts as: no last message and all counters zero. */
  function NewStateRow(userId: string): StateRow {
    StateRow(userId, None, None, 0, 0, 0, 0)
  }

  /** What `increment_counters` does to a row. */
  function Counted(s: StateRow, impressionUpdated: bool, affectionUpdated: bool, now: nat): StateRow {
    s.(totalMessages := s.totalMessages + 1,
       processedMessages := s.processedMessages + 1,
       impressionUpdateCount := s.impressionUpdateCount + if impressionUpdated then 1 else 0,
       affectionUpdateCount := s.affectionUpdateCount + if affectionUpdated then 1 else 0,
       lastMessageTime := Some(now))
  }

  /** Counting one message raises the two message totals by exactly one, each update
      counter by one exactly when its flag is set, never lowers a counter, keeps the
      two totals equal when they were, and leaves the last message id alone. */
  lemma CountedSpec(s: StateRow, impressionUpdated: bool, affectionUpdated: bool, now: nat)
    ensures var t := Counted(s, impressionUpdated, affectionUpdated, now);
      && t.totalMessages == s.totalMessages + 1
      && t.processedMessages == s.processedMessages + 1
      && (t.impressionUpdateCount == s.impressionUpdateCount + 1 <==> impressionUpdated)
      && (t.affectionUpdateCount == s.affectionUpdateCount + 1 <==> affectionUpdated)
      && t.impressionUpdateCount >= s.impressionUpdateCount
      && t.affectionUpdateCount >= s.affectionUpdateCount
      && (s.totalMessages == s.processedMessages ==> t.totalMessages == t.processedMessages)
      && t.lastMessageId == s.lastMessageId && t.userId == s.userId
      && t.lastMessageTime == Some(now)
  {
  }

  /** A loaded `UserMessageState`. */
  class UserMessageState {
    var userId: string
    var lastMessageId: Option<string>
    var lastMessageTime: Option<nat>
    var impressionUpdateCount: int
    var affectionUpdateCount: int
    var totalMessages: int
    var processedMessages: int

    function Row(): StateRow
      reads this
    {
      StateRow(userId, lastMessageId, lastMessageTime, impressionUpdateCount, affectionUpdateCount,
               totalMessages, processedMessages)
    }

    /** A new state: all four counters zero, no last message id or time. */
    constructor (userId: string)
      ensures Row() == NewStateRow(userId)
      ensures lastMessageId.None? && lastMessageTime.None?
      ensures impressionUpdateCount == 0 && affectionUpdateCount == 0
      ensures totalMessages == 0 && processedMessages == 0
    {
      this.userId := userId;
      lastMessageId := None;
      lastMessageTime := None;
      impressionUpdateCount := 0;
      affectionUpdateCount := 0;
      totalMessages := 0;
      processedMessages := 0;
    }

    constructor Load(row: StateRow)
      ensures Row() == row
    {
      userId := row.userId;
      lastMessageId := row.lastMessageId;
      lastMessageTime := row.lastMessageTime;
      impressionUpdateCount := row.impressionUpdateCount;
      affectionUpdateCount := row.affectionUpdateCount;
      totalMessages := row.totalMessages;
      processedMessages := row.processedMessages;
    }

    /** `increment_counters`. */
    method IncrementCounters(impressionUpdated: bool, affectionUpdated: bool, now: nat)
      modifies this
      ensures Row() == Counted(old(Row()), impressionUpdated, affectionUpdated, now)
    {
      totalMessages := totalMessages + 1;
      processedMessages := processedMessages + 1;
      if impressionUpdated {
        impressionUpdateCount := impressionUpdateCount + 1;
      }
      if affectionUpdated {
        affectionUpdateCount := affectionUpdateCount + 1;
      }
      lastMessageTime := Some(now);
    }
  }
}
