/** `ImpressionUpdateHandler`: the event handler that runs the enrichment pipeline
    after every model reply. Per message it checks the processed records, scores the
    message, selects the context, decides whether the profile is rebuilt, counts the
    message in the user's state and records the context and the message as processed. */
module Plugin {
  import opened Text
  import opened Oracle
  import opened Profiles
  import opened Storage
  import opened WeightFilter
  import opened Messages
  import opened Impressions

  // ---------------------------------------------------------------------------------
  // The event
  // ---------------------------------------------------------------------------------

  /** A message segment: `data` is None when the segment has no `data` attribute. */
  datatype Segment = Segment(data: Option<string>)

  /** The message object as `_extract_message_content` probes it: a `plain_text`
      attribute and a `message_segments` attribute, each possibly absent (None). */
  datatype Message = Message(plainText: Option<string>, segments: Option<seq<Segment>>)

  /** What the attribute probing in `handle` finds: `direct` when the event itself is
      the message (it has `message_base_info`, `user_id` or `plain_text`), otherwise the
      user id and message found under `message`, `msg` or `data` (an empty id when none
      was found). */
  datatype Event = Event(direct: bool, userId: string, message: Message)

  /** The text a segment contributes: its data, if it has any. */
  function SegmentText(seg: Segment): seq<string> {
    if seg.data.Some? then [seg.data.value] else []
  }

  /** The `str(seg.data)` of every segment that has data, in order. */
  function SegmentTexts(segs: seq<Segment>): (r: seq<string>)
    ensures |r| <= |segs|
    ensures forall t :: t in r <==> exists k :: 0 <= k < |segs| && segs[k].data == Some(t)
  {
    if segs == [] then []
    else
      var rest := SegmentTexts(segs[1..]);
      assert forall k :: 0 < k < |segs| ==> segs[k] == segs[1..][k - 1];
      SegmentText(segs[0]) + rest
  }

  /** Segment texts of a concatenation are the concatenation of the segment texts. */
  lemma {:induction false} SegmentTextsAppend(a: seq<Segment>, b: seq<Segment>)
    ensures SegmentTexts(a + b) == SegmentTexts(a) + SegmentTexts(b)
    decreases |a|
  {
    if a == [] {
      assert a + b == b;
    } else {
      var ab := a + b;
      assert ab[0] == a[0];
      assert ab[1..] == a[1..] + b;
      SegmentTextsAppend(a[1..], b);
      var x, y, z := SegmentText(a[0]), SegmentTexts(a[1..]), SegmentTexts(b);
      calc {
        SegmentTexts(ab);
        x + SegmentTexts(a[1..] + b);
        x + (y + z);
        { assert x + (y + z) == (x + y) + z; }
        (x + y) + z;
      }
    }
  }

  /** When every segment has data, the texts are exactly the segments' data, in order;
      when none has, there are no texts. */
  lemma {:induction false} SegmentTextsData(segs: seq<Segment>)
    ensures (forall k :: 0 <= k < |segs| ==> segs[k].data.Some?) ==>
      |SegmentTexts(segs)| == |segs| && forall k :: 0 <= k < |segs| ==> SegmentTexts(segs)[k] == segs[k].data.value
    ensures (forall k :: 0 <= k < |segs| ==> segs[k].data.None?) ==> SegmentTexts(segs) == []
  {
    if segs != [] {
      SegmentTextsData(segs[1..]);
    }
  }

  /** The text `_extract_message_content` strips: a non-empty plain text, otherwise the
      segment texts joined by spaces, otherwise nothing. */
  function RawContent(m: Message): string {
    if m.plainText.Some? && m.plainText.value != [] then m.plainText.value
    else if m.segments.Some? && m.segments.value != [] then Join(SegmentTexts(m.segments.value), " ")
    else ""
  }

  /** `_extract_message_content`: the stripped raw content, so it neither starts nor
      ends with whitespace, and it is a piece of the raw content. */
  function ExtractMessageContent(m: Message): (r: string)
    ensures r == [] || (!IsSpace(r[0]) && !IsSpace(r[|r| - 1]))
    ensures OccursAt(RawContent(m), r, |RawContent(m)| - |TrimStart(RawContent(m))|)
  {
    var raw := RawContent(m);
    StripEdges(raw);
    StripAt(raw);
    Strip(raw)
  }

  /** A non-empty plain text wins: the segments are then never looked at. */
  lemma PlainTextWins(text: string, segs: Option<seq<Segment>>, others: Option<seq<Segment>>)
    requires text != []
    ensures ExtractMessageContent(Message(Some(text), segs)) == ExtractMessageContent(Message(Some(text), others))
    ensures ExtractMessageContent(Message(Some(text), segs)) == Strip(text)
  {
  }

  /** Without a plain text, segments that all carry data are joined by single spaces. */
  lemma SegmentsJoined(plain: Option<string>, segs: seq<Segment>)
    requires plain.None? || plain.value == []
    requires segs != [] && forall k :: 0 <= k < |segs| ==> segs[k].data.Some?
    ensures ExtractMessageContent(Message(plain, Some(segs)))
      == Strip(Join(seq(|segs|, k requires 0 <= k < |segs| => segs[k].data.value), " "))
  {
    var datas := seq(|segs|, k requires 0 <= k < |segs| => segs[k].data.value);
    assert RawContent(Message(plain, Some(segs))) == Join(SegmentTexts(segs), " ");
    SegmentTextsData(segs);
    assert SegmentTexts(segs) == datas;
  }

  /** A message with neither a plain text nor segments has empty content. */
  lemma NothingToExtract(plain: Option<string>)
    requires plain.None? || plain.value == []
    ensures ExtractMessageContent(Message(plain, None)) == []
  {
  }

  // ---------------------------------------------------------------------------------
  // Outcomes and the admission rule
  // ---------------------------------------------------------------------------------

  const NoUserIdInEvent: string := "无法从事件数据中提取用户ID"
  const EmptyUserId: string := "无法获取用户ID"
  const EmptyContent: string := "消息内容为空"
  const AlreadyProcessed: string := "消息已处理，跳过"
  const Completed: string := "印象和好感度更新完成"

  /** The number of context entries `handle` asks `get_filtered_messages` for. */
  const ContextLimit: int := 10

  /** The result of the checks `handle` makes before touching any service: None when
      it goes on with a non-empty user id and non-empty content. */
  function EarlyExit(event: Event): (r: Option<string>)
    ensures r.None? <==> event.userId != [] && ExtractMessageContent(event.message) != []
    ensures r.Some? ==> r.value in {NoUserIdInEvent, EmptyUserId, EmptyContent}
    ensures event.userId == [] ==> r == Some(if event.direct then EmptyUserId else NoUserIdInEvent)
  {
    if !event.direct && event.userId == [] then Some(NoUserIdInEvent)
    else if event.userId == [] then Some(EmptyUserId)
    else if ExtractMessageContent(event.message) == [] then Some(EmptyContent)
    else None
  }

  /** Whether a score lets the profile be rebuilt: always when filtering is disabled,
      from the high threshold in selective mode, from the medium one in balanced mode,
      and never in any other mode. */
  predicate Admits(mode: string, high: real, medium: real, score: real) {
    if mode == "disabled" then true
    else if mode == "selective" then score >= high
    else if mode == "balanced" then score >= medium
    else false
  }

  /** The admission rule and the context filter agree in the two threshold modes;
      they part ways in the others: disabled admits every score but selects no
      context, and an unknown mode admits nothing while keeping every entry. */
  lemma AdmitsVersusKeeps(mode: string, high: real, medium: real, score: real)
    ensures mode == "selective" || mode == "balanced" ==>
      (Admits(mode, high, medium, score) <==> Keeps(mode, high, medium, score))
    ensures mode == "disabled" ==>
      Admits(mode, high, medium, score) && forall h: seq<WeightRecord>, limit: int :: Selected(h, mode, high, medium, limit) == []
    ensures mode != "disabled" && mode != "selective" && mode != "balanced" ==>
      !Admits(mode, high, medium, score) && Keeps(mode, high, medium, score)
  {
  }

  /** The pairs recording a user's ids adds to the processed set. */
  function Pairs(userId: string, ids: seq<string>): (r: set<(string, string)>)
    ensures forall p :: p in r <==> p.0 == userId && p.1 in ids
  {
    if ids == [] then {}
    else
      assert ids == ids[..|ids| - 1] + [ids[|ids| - 1]];
      Pairs(userId, ids[..|ids| - 1]) + {(userId, ids[|ids| - 1])}
  }

  /** Recording one more id adds exactly its pair. */
  lemma PairsSnoc(userId: string, ids: seq<string>, id: string)
    ensures Pairs(userId, ids + [id]) == Pairs(userId, ids) + {(userId, id)}
  {
    assert (ids + [id])[..|ids|] == ids;
  }

  /** `PairsSnoc` for a growing prefix of `ids`. */
  lemma PairsStep(userId: string, ids: seq<string>, i: nat)
    requires i < |ids|
    ensures Pairs(userId, ids[..i + 1]) == Pairs(userId, ids[..i]) + {(userId, ids[i])}
  {
    assert ids[..i + 1] == ids[..i] + [ids[i]];
    PairsSnoc(userId, ids[..i], ids[i]);
  }

  /** Where a storage error is raised inside the steps whose errors are swallowed:
      the processed lookup, the profile save, the state update and the recording. */
  datatype Faults = Faults(lookup: bool, save: bool, state: bool, record: bool)

  // ---------------------------------------------------------------------------------
  // The handler
  // ---------------------------------------------------------------------------------

  class ImpressionUpdateHandler {
    /** The weight service, with its thresholds and in-memory histories. */
    const weights: WeightService
    /** The profile, state and processed-record tables. */
    const db: Database
    /** The configured impression prompt template. */
    const template: string

    ghost predicate Valid()
      reads this, weights, db
    {
      weights.Valid() && db.Valid()
    }

    /** The handler with its services set up, as `_init_services` does on first use. */
    constructor (config: WeightConfig, template: string, db: Database)
      requires db.Valid()
      ensures Valid() && fresh(weights)
      ensures this.db == db && this.template == template
      ensures weights.messageWeights == map[]
      ensures weights.highThreshold == config.highThreshold.GetOr(DefaultHighThreshold)
      ensures weights.mediumThreshold == config.mediumThreshold.GetOr(DefaultMediumThreshold)
      ensures weights.filterMode == config.filterMode.GetOr(DefaultFilterMode)
    {
      weights := new WeightService(config);
      this.db := db;
      this.template := template;
    }

    /** Whether an evaluation lets the profile be rebuilt. */
    predicate Admitted(e: Evaluation)
      reads weights
    {
      e.ok && Admits(weights.filterMode, weights.highThreshold, weights.mediumThreshold, e.score)
    }

    /** The context `handle` selects for a user from the current history. */
    function Context(userId: string): seq<WeightRecord>
      reads weights
    {
      Selected(weights.History(userId), weights.filterMode, weights.highThreshold, weights.mediumThreshold, ContextLimit)
    }

    /** `handle`. The time-derived message id and the clock are the parameters
        `messageId` and `now`; the affection service is not part of this model, and
        `affectionOk` is whether its update reported success. */
    method Handle(event: Event, lib: Lib, llm: Llm, fmt: Render, messageId: string, now: nat,
                  affectionOk: bool, faults: Faults)
      returns (result: string)
      requires Valid()
      modifies weights, db
      ensures Valid()
      ensures result in {NoUserIdInEvent, EmptyUserId, EmptyContent, AlreadyProcessed, Completed}
      ensures EarlyExit(event).Some? ==> result == EarlyExit(event).value && unchanged(weights, db)
      ensures EarlyExit(event).None? && old(IsMessageProcessed(db, event.userId, messageId, faults.lookup)) ==>
        result == AlreadyProcessed && unchanged(weights, db)
      ensures result == Completed <==>
        EarlyExit(event).None? && !old(IsMessageProcessed(db, event.userId, messageId, faults.lookup))
      ensures result == Completed ==>
        var u := event.userId;
        var content := ExtractMessageContent(event.message);
        var e := Evaluate(old(weights.History(u)), lib, llm, messageId, content, "", now);
        var reply := llm(BuildPrompt(template, ContextText(Context(u), fmt), content));
        var data := ParseImpressionResponse(reply.text);
        var built := Admitted(e) && reply.ok && data != map[];
        && weights.messageWeights == (if e.saved then old(weights.messageWeights)[u := e.history] else old(weights.messageWeights))
        && db.profiles == (if built then SavedRows(old(db.profiles), u, data, now, faults.save) else old(db.profiles))
        && db.states == (if faults.state then old(db.states)
            else old(db.states)[u := Advanced(StateBefore(old(db.states), u), messageId, now, built, affectionOk)])
        && db.stateOrder == (if faults.state || u in old(db.states) then old(db.stateOrder) else old(db.stateOrder) + [u])
        && db.processed == (if faults.record then old(db.processed)
            else old(db.processed) + Pairs(u, Ids(Context(u)) + [messageId]))
    {
      if !event.direct && event.userId == [] {
        return NoUserIdInEvent;
      }
      if event.userId == [] {
        return EmptyUserId;
      }
      var content := ExtractMessageContent(event.message);
      if content == [] {
        return EmptyContent;
      }
      if IsMessageProcessed(db, event.userId, messageId, faults.lookup) {
        return AlreadyProcessed;
      }
      Proceed(event.userId, content, lib, llm, fmt, messageId, now, affectionOk, faults);
      result := Completed;
    }

    /** What `handle` does with a message it has not seen: enrich, then record. */
    method Proceed(u: string, content: string, lib: Lib, llm: Llm, fmt: Render, messageId: string, now: nat,
                   affectionOk: bool, faults: Faults)
      requires Valid()
      modifies weights, db
      ensures Valid()
      ensures var e := Evaluate(old(weights.History(u)), lib, llm, messageId, content, "", now);
        var reply := llm(BuildPrompt(template, ContextText(Context(u), fmt), content));
        var data := ParseImpressionResponse(reply.text);
        var built := Admitted(e) && reply.ok && data != map[];
        && weights.messageWeights == (if e.saved then old(weights.messageWeights)[u := e.history] else old(weights.messageWeights))
        && db.profiles == (if built then SavedRows(old(db.profiles), u, data, now, faults.save) else old(db.profiles))
        && db.states == (if faults.state then old(db.states)
            else old(db.states)[u := Advanced(StateBefore(old(db.states), u), messageId, now, built, affectionOk)])
        && db.stateOrder == (if faults.state || u in old(db.states) then old(db.stateOrder) else old(db.stateOrder) + [u])
        && db.processed == (if faults.record then old(db.processed)
            else old(db.processed) + Pairs(u, Ids(Context(u)) + [messageId]))
    {
      var built, ids := Enrich(u, content, lib, llm, fmt, messageId, now, faults.save);
      Record(u, messageId, ids, now, built, affectionOk, faults);
    }

    /** The scoring and profile steps of `handle`: evaluate the message, select the
        context, and rebuild the profile when the score is admitted. Reports whether
        the profile was rebuilt and the ids of the context entries. */
    method Enrich(u: string, content: string, lib: Lib, llm: Llm, fmt: Render, messageId: string, now: nat,
                  saveFault: bool)
      returns (built: bool, ids: seq<string>)
      requires Valid()
      modifies weights, db
      ensures Valid()
      ensures var e := Evaluate(old(weights.History(u)), lib, llm, messageId, content, "", now);
        var reply := llm(BuildPrompt(template, ContextText(Context(u), fmt), content));
        var data := ParseImpressionResponse(reply.text);
        && (built <==> Admitted(e) && reply.ok && data != map[])
        && weights.messageWeights == (if e.saved then old(weights.messageWeights)[u := e.history] else old(weights.messageWeights))
        && db.profiles == (if built then SavedRows(old(db.profiles), u, data, now, saveFault) else old(db.profiles))
        && ids == Ids(Context(u))
      ensures db.states == old(db.states) && db.stateOrder == old(db.stateOrder) && db.processed == old(db.processed)
    {
      ghost var e := Evaluate(weights.History(u), lib, llm, messageId, content, "", now);
      var weightOk, score, level, asked := weights.EvaluateMessage(lib, llm, u, messageId, content, "", now);
      assert weightOk == e.ok && score == e.score;
      ghost var sel := Context(u);
      var history;
      history, ids := weights.GetFilteredMessages(u, ContextLimit, fmt);
      assert history == ContextText(sel, fmt) && ids == Ids(sel);
      var admitted := false;
      if weightOk {
        if weights.filterMode == "disabled" {
          admitted := true;
        } else if weights.filterMode == "selective" {
          admitted := score >= weights.highThreshold;
        } else if weights.filterMode == "balanced" {
          admitted := score >= weights.mediumThreshold;
        }
      }
      assert admitted == Admitted(e);
      built := false;
      if admitted {
        var text, prompt;
        built, text, prompt := BuildImpression(db, llm, template, u, content, history, now, saveFault);
      }
      assert Context(u) == sel;
    }

    /** The bookkeeping steps of `handle`: count the message in the user's state, then
        record every context id and the message id as processed. */
    method Record(u: string, messageId: string, ids: seq<string>, now: nat, built: bool, affectionOk: bool,
                  faults: Faults)
      requires db.Valid()
      modifies db
      ensures db.Valid()
      ensures db.profiles == old(db.profiles)
      ensures db.states == (if faults.state then old(db.states)
        else old(db.states)[u := Advanced(StateBefore(old(db.states), u), messageId, now, built, affectionOk)])
      ensures db.stateOrder == (if faults.state || u in old(db.states) then old(db.stateOrder) else old(db.stateOrder) + [u])
      ensures db.processed == (if faults.record then old(db.processed) else old(db.processed) + Pairs(u, ids + [messageId]))
    {
      UpdateMessageState(db, u, messageId, built, affectionOk, now, faults.state);
      RecordAll(u, ids, faults.record);
      var recorded := RecordProcessedMessage(db, u, messageId, faults.record);
      PairsSnoc(u, ids, messageId);
    }

    /** The loop of `handle` over the context ids: each is recorded as processed. */
    method RecordAll(u: string, ids: seq<string>, fault: bool)
      requires db.Valid()
      modifies db
      ensures db.Valid()
      ensures db.processed == if fault then old(db.processed) else old(db.processed) + Pairs(u, ids)
      ensures db.profiles == old(db.profiles) && db.states == old(db.states) && db.stateOrder == old(db.stateOrder)
    {
      var store := db;
      ghost var processed0, profiles0, states0, order0 := store.processed, store.profiles, store.states, store.stateOrder;
      var i := 0;
      while i < |ids|
        invariant 0 <= i <= |ids|
        invariant store.Valid()
        invariant fault ==> store.processed == processed0
        invariant !fault ==> store.processed == processed0 + Pairs(u, ids[..i])
        invariant store.profiles == profiles0 && store.states == states0 && store.stateOrder == order0
      {
        var recorded := RecordProcessedMessage(store, u, ids[i], fault);
        PairsStep(u, ids, i);
        i := i + 1;
      }
      assert ids[..i] == ids;
    }
  }

  /** `execute`: always reports success and lets the event go on, with the handler's
      status text as the custom result and no message of its own. */
  method Execute(handler: ImpressionUpdateHandler, event: Event, lib: Lib, llm: Llm, fmt: Render,
                 messageId: string, now: nat, affectionOk: bool, faults: Faults)
    returns (r: (bool, bool, Option<string>, string, Option<string>))
    requires handler.Valid()
    modifies handler.weights, handler.db
    ensures handler.Valid()
    ensures r.0 && r.1 && r.2.None? && r.4.None?
    ensures r.3 in {NoUserIdInEvent, EmptyUserId, EmptyContent, AlreadyProcessed, Completed}
    ensures EarlyExit(event).Some? ==> r.3 == EarlyExit(event).value && unchanged(handler.weights, handler.db)
    ensures EarlyExit(event).None? && old(IsMessageProcessed(handler.db, event.userId, messageId, faults.lookup)) ==>
      r.3 == AlreadyProcessed && unchanged(handler.weights, handler.db)
    ensures r.3 == Completed <==>
      EarlyExit(event).None? && !old(IsMessageProcessed(handler.db, event.userId, messageId, faults.lookup))
    ensures r.3 == Completed ==>
      var u := event.userId;
      var content := ExtractMessageContent(event.message);
      var e := Evaluate(old(handler.weights.History(u)), lib, llm, messageId, content, "", now);
      var reply := llm(BuildPrompt(handler.template, ContextText(handler.Context(u), fmt), content));
      var data := ParseImpressionResponse(reply.text);
      var built := handler.Admitted(e) && reply.ok && data != map[];
      && handler.weights.messageWeights == (if e.saved then old(handler.weights.messageWeights)[u := e.history]
           else old(handler.weights.messageWeights))
      && handler.db.profiles == (if built then SavedRows(old(handler.db.profiles), u, data, now, faults.save)
           else old(handler.db.profiles))
      && handler.db.states == (if faults.state then old(handler.db.states)
          else old(handler.db.states)[u := Advanced(StateBefore(old(handler.db.states), u), messageId, now, built, affectionOk)])
      && handler.db.stateOrder == (if faults.state || u in old(handler.db.states) then old(handler.db.stateOrder)
           else old(handler.db.stateOrder) + [u])
      && handler.db.processed == (if faults.record then old(handler.db.processed)
          else old(handler.db.processed) + Pairs(u, Ids(handler.Context(u)) + [messageId]))
  {
    var result := handler.Handle(event, lib, llm, fmt, messageId, now, affectionOk, faults);
    r := (true, true, None, result, None);
  }
}
