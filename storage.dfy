/** The three tables the pipeline reads and writes, as the queries it issues see them:
    profiles and states keyed by their unique user id, and the processed-message
    records as a set of `(user_id, message_id)` pairs, which is how the composite
    unique index on those two columns is kept. States also remember their insertion
    order, which is the order an unordered `select().limit(n)` returns them in. */
module Storage {
  import opened Text
  import opened Profiles
  import opened MessageStates

  class Database {
    var profiles: map<string, ProfileRow>
    var states: map<string, StateRow>
    var stateOrder: seq<string>
    var processed: set<(string, string)>

    /** Rows sit under their own user id, and the state order lists every state once. */
    ghost predicate Valid()
      reads this
    {
      && (forall u :: u in profiles ==> profiles[u].userId == u)
      && (forall u :: u in states ==> states[u].userId == u)
      && (forall u :: u in states <==> u in stateOrder)
      && (forall i, j :: 0 <= i < j < |stateOrder| ==> stateOrder[i] != stateOrder[j])
    }

    constructor ()
      ensures Valid()
      ensures profiles == map[] && states == map[] && stateOrder == [] && processed == {}
    {
      profiles, states, stateOrder, processed := map[], map[], [], {};
    }

    /** `UserImpression.select().where(user_id == userId).first()`. */
    function FindProfile(userId: string): (r: Option<ProfileRow>)
      reads this
      ensures r.Some? <==> userId in profiles
      ensures r.Some? ==> r.value == profiles[userId]
    {
      if userId in profiles then Some(profiles[userId]) else None
    }

    /** `UserImpression.get_or_create(user_id=...)`: the stored profile, or a new one
        inserted with the column defaults. */
    method GetOrCreateProfile(userId: string, now: nat) returns (p: UserImpression, created: bool)
      requires Valid()
      modifies this
      ensures Valid() && fresh(p)
      ensures created <==> userId !in old(profiles)
      ensures created ==> p.Row() == NewProfileRow(userId, now) && profiles == old(profiles)[userId := p.Row()]
      ensures !created ==> p.Row() == old(profiles)[userId] && profiles == old(profiles)
      ensures states == old(states) && stateOrder == old(stateOrder) && processed == old(processed)
    {
      if userId in profiles {
        p := new UserImpression.Load(profiles[userId]);
        created := false;
      } else {
        p := new UserImpression(userId, now);
        profiles := profiles[userId := p.Row()];
        created := true;
      }
    }

    /** `impression.save()`: the object's fields become its row. */
    method SaveProfile(p: UserImpression)
      requires Valid()
      modifies this
      ensures Valid()
      ensures profiles == old(profiles)[p.userId := p.Row()]
      ensures states == old(states) && stateOrder == old(stateOrder) && processed == old(processed)
    {
      profiles := profiles[p.userId := p.Row()];
    }

    /** `UserMessageState.get_or_create(user_id=...)`. */
    method GetOrCreateState(userId: string) returns (s: UserMessageState, created: bool)
      requires Valid()
      modifies this
      ensures Valid() && fresh(s)
      ensures created <==> userId !in old(states)
      ensures created ==> (s.Row() == NewStateRow(userId) && states == old(states)[userId := s.Row()]
        && stateOrder == old(stateOrder) + [userId])
      ensures !created ==> s.Row() == old(states)[userId] && states == old(states) && stateOrder == old(stateOrder)
      ensures profiles == old(profiles) && processed == old(processed)
    {
      if userId in states {
        s := new UserMessageState.Load(states[userId]);
        created := false;
      } else {
        s := new UserMessageState(userId);
        states := states[userId := s.Row()];
        stateOrder := stateOrder + [userId];
        created := true;
      }
    }

    /** `state.save()` for a state that is already stored. */
    method SaveState(s: UserMessageState)
      requires Valid() && s.userId in states
      modifies this
      ensures Valid()
      ensures states == old(states)[s.userId := s.Row()]
      ensures profiles == old(profiles) && stateOrder == old(stateOrder) && processed == old(processed)
    {
      states := states[s.userId := s.Row()];
    }

    /** `ImpressionMessageRecord.create(...)`. */
    method InsertRecord(userId: string, messageId: string)
      requires Valid()
      modifies this
      ensures Valid()
      ensures processed == old(processed) + {(userId, messageId)}
      ensures profiles == old(profiles) && states == old(states) && stateOrder == old(stateOrder)
    {
      processed := processed + {(userId, messageId)};
    }
  }
}
