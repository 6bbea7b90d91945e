/** `MessageService`: per-user processing state and the record of processed messages
    that keeps a message from being used twice. A storage error is the `fault` flag:
    the service catches it and carries on. */
module Messages {
  import opened Text
  import opened MessageStates
  import opened Storage

  /** The state a user has before an update: the stored one, or a fresh one. */
  function StateBefore(states: map<string, StateRow>, userId: string): StateRow {
    if userId in states then states[userId] else NewStateRow(userId)
  }

  /** What `update_message_state` writes: the last message id and time, both totals
      raised by one, and each update counter raised when its flag is set. */
  function Advanced(s: StateRow, messageId: string, now: nat, impressionUpdated: bool, affectionUpdated: bool): StateRow {
    s.(lastMessageId := Some(messageId),
       lastMessageTime := Some(now),
       totalMessages := s.totalMessages + 1,
       processedMessages := s.processedMessages + 1,
       impressionUpdateCount := s.impressionUpdateCount + if impressionUpdated then 1 else 0,
       affectionUpdateCount := s.affectionUpdateCount + if affectionUpdated then 1 else 0)
  }

  /** The service's inline update is `increment_counters` plus setting the last
      message id: the same counters, the same time, and the id on top. */
  lemma AdvancedIsCounted(s: StateRow, messageId: string, now: nat, impressionUpdated: bool, affectionUpdated: bool)
    ensures Advanced(s, messageId, now, impressionUpdated, affectionUpdated)
      == Counted(s, impressionUpdated, affectionUpdated, now).(lastMessageId := Some(messageId))
  {
  }

  /** `update_message_state`: creates the state lazily, then records the message. */
  method UpdateMessageState(db: Database, userId: string, messageId: string,
                            impressionUpdated: bool, affectionUpdated: bool, now: nat, fault: bool)
    requires db.Valid()
    modifies db
    ensures db.Valid()
    ensures fault ==> unchanged(db)
    ensures !fault ==> (db.states == old(db.states)[userId :=
        Advanced(StateBefore(old(db.states), userId), messageId, now, impressionUpdated, affectionUpdated)]
      && db.stateOrder == if userId in old(db.states) then old(db.stateOrder) else old(db.stateOrder) + [userId])
    ensures db.profiles == old(db.profiles) && db.processed == old(db.processed)
  {
    if fault {
      return;
    }
    var state, created := db.GetOrCreateState(userId);
    Advance(state, messageId, now, impressionUpdated, affectionUpdated);
    db.SaveState(state);
  }

  /** The field updates `update_message_state` makes on the loaded state. */
  method Advance(state: UserMessageState, messageId: string, now: nat, impressionUpdated: bool, affectionUpdated: bool)
    modifies state
    ensures state.Row() == Advanced(old(state.Row()), messageId, now, impressionUpdated, affectionUpdated)
  {
    state.lastMessageId := Some(messageId);
    state.lastMessageTime := Some(now);
    state.totalMessages := state.totalMessages + 1;
    state.processedMessages := state.processedMessages + 1;
    if impressionUpdated {
      state.impressionUpdateCount := state.impressionUpdateCount + 1;
    }
    if affectionUpdated {
      state.affectionUpdateCount := state.affectionUpdateCount + 1;
    }
  }

  /** The outcome of recording a pair: whether it was inserted, and the new set. */
  function Recorded(records: set<(string, string)>, userId: string, messageId: string, fault: bool)
    : (r: (bool, set<(string, string)>))
    ensures r.0 <==> !fault && (userId, messageId) !in records
    ensures r.1 == if r.0 then records + {(userId, messageId)} else records
  {
    if fault || (userId, messageId) in records then (false, records)
    else (true, records + {(userId, messageId)})
  }

  /** Recording a new pair twice inserts it once: the first call reports `true`, the
      second `false` and changes nothing. */
  lemma RecordTwice(records: set<(string, string)>, userId: string, messageId: string)
    requires (userId, messageId) !in records
    ensures var first := Recorded(records, userId, messageId, false);
      var second := Recorded(first.1, userId, messageId, false);
      && first.0 && !second.0 && second.1 == first.1
      && first.1 == records + {(userId, messageId)}
  {
  }

  /** `record_processed_message`. */
  method RecordProcessedMessage(db: Database, userId: string, messageId: string, fault: bool) returns (ok: bool)
    requires db.Valid()
    modifies db
    ensures db.Valid()
    ensures (ok, db.processed) == Recorded(old(db.processed), userId, messageId, fault)
    ensures db.profiles == old(db.profiles) && db.states == old(db.states) && db.stateOrder == old(db.stateOrder)
  {
    if fault {
      return false;
    }
    if (userId, messageId) in db.processed {
      return false;
    }
    db.InsertRecord(userId, messageId);
    ok := true;
  }

  /** `is_message_processed`: a storage error reads as "not processed". */
  function IsMessageProcessed(db: Database, userId: string, messageId: string, fault: bool): (r: bool)
    reads db
    ensures fault ==> !r
    ensures !fault ==> (r <==> (userId, messageId) in db.processed)
  {
    !fault && (userId, messageId) in db.processed
  }

  /** Once a pair has been recorded, it reads as processed (barring a storage error),
      and recording it again is refused. */
  lemma RecordedIsProcessed(records: set<(string, string)>, userId: string, messageId: string, fault: bool)
    ensures (userId, messageId) in Recorded(records, userId, messageId, fault).1
      <==> (userId, messageId) in records || !fault
    ensures (userId, messageId) in records ==> !Recorded(records, userId, messageId, fault).0
  {
  }

  /** `get_message_state`: the user's state, created when missing; None when storage fails. */
  method GetMessageState(db: Database, userId: string, fault: bool) returns (r: Option<UserMessageState>)
    requires db.Valid()
    modifies db
    ensures db.Valid()
    ensures fault ==> r.None? && unchanged(db)
    ensures !fault ==> (r.Some? && fresh(r.value) && r.value.Row() == StateBefore(old(db.states), userId)
      && db.states == old(db.states)[userId := StateBefore(old(db.states), userId)]
      && db.stateOrder == if userId in old(db.states) then old(db.stateOrder) else old(db.stateOrder) + [userId])
    ensures db.profiles == old(db.profiles) && db.processed == old(db.processed)
  {
    if fault {
      return None;
    }
    var state, created := db.GetOrCreateState(userId);
    r := Some(state);
  }
}
