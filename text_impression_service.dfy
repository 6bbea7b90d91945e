/** `TextImpressionService`: asks the language model for the eight dimensions of a
    user's impression, parses its `key:value;` answer, and upserts the profile. */
module Impressions {
  import opened Text
  import opened Oracle
  import opened Profiles
  import opened Storage

  /** The answer the prompt asks for when there is too little to go on. */
  const Placeholder: string := "待观察"

  predicate NotSemicolon(c: char) {
    c != ';'
  }

  /** `key:\s*([^;]+)` matches at `i` (case-insensitively): `key:` is there and is
      followed by at least one character other than `;`. */
  predicate FieldAt(s: string, key: string, i: nat) {
    CiMatchAt(s, i, key + ":") && i + |key| + 1 < |s| && NotSemicolon(s[i + |key| + 1])
  }

  /** The maximal run of characters other than `;` starting at `j`: it stops at the
      next `;` or at the end of `s`. */
  function RunFrom(s: string, j: nat): (r: string)
    requires j <= |s|
    decreases |s| - j
    ensures OccursAt(s, r, j)
    ensures forall k :: 0 <= k < |r| ==> r[k] != ';'
    ensures j + |r| < |s| ==> s[j + |r|] == ';'
  {
    if j < |s| && s[j] != ';' then [s[j]] + RunFrom(s, j + 1) else []
  }

  /** The leftmost position from `from` on where `key:\s*([^;]+)` matches. */
  function FirstField(s: string, key: string, from: nat): (r: Option<nat>)
    decreases |s| - from
    ensures r.Some? ==> from <= r.value && FieldAt(s, key, r.value)
    ensures r.Some? ==> forall k: nat :: from <= k < r.value ==> !FieldAt(s, key, k)
    ensures r.None? ==> forall k: nat :: from <= k ==> !FieldAt(s, key, k)
  {
    if from >= |s| then None
    else if FieldAt(s, key, from) then Some(from)
    else FirstField(s, key, from + 1)
  }

  /** Where the stripped run from `j` starts in `s`: after the whitespace it begins with. */
  function RunValueStart(s: string, j: nat): nat
    requires j <= |s|
  {
    var run := RunFrom(s, j);
    j + |run| - |TrimStart(run)|
  }

  /** The stripped run from `j`: it holds no `;`, has no whitespace at either end, and
      sits in `s` where its leading whitespace ends. */
  function StrippedRun(s: string, j: nat): (v: string)
    requires j <= |s|
    ensures OccursAt(s, v, RunValueStart(s, j))
    ensures forall k :: 0 <= k < |v| ==> v[k] != ';'
    ensures v == [] || (!IsSpace(v[0]) && !IsSpace(v[|v| - 1]))
  {
    StrippedRunFacts(s, j);
    Strip(RunFrom(s, j))
  }

  lemma StrippedRunFacts(s: string, j: nat)
    requires j <= |s|
    ensures var v := Strip(RunFrom(s, j));
      && OccursAt(s, v, RunValueStart(s, j))
      && (forall k :: 0 <= k < |v| ==> v[k] != ';')
      && (v == [] || (!IsSpace(v[0]) && !IsSpace(v[|v| - 1])))
  {
    var run := RunFrom(s, j);
    var a := |run| - |TrimStart(run)|;
    StripAt(run);
    StripEdges(run);
    PieceOfPiece(s, run, j, Strip(run), a);
  }

  /** Where the value of a match at `i` starts in `s`. */
  function ValueOffset(s: string, key: string, i: nat): nat {
    if i + |key| + 1 <= |s| then RunValueStart(s, i + |key| + 1) else 0
  }

  /** The stripped group of a match of `key:\s*([^;]+)` at `i`. The optional leading
      whitespace the pattern skips is removed by the strip in any case, so the group is
      taken from just after `key:`. */
  function FieldValueAt(s: string, key: string, i: nat): (r: string)
    ensures OccursAt(s, r, ValueOffset(s, key, i))
    ensures forall k :: 0 <= k < |r| ==> r[k] != ';'
    ensures r == [] || (!IsSpace(r[0]) && !IsSpace(r[|r| - 1]))
  {
    if i + |key| + 1 <= |s| then StrippedRun(s, i + |key| + 1) else []
  }

  /** `re.search(key:\s*([^;]+))`, stripped: the value at the leftmost match, if any. */
  function ExtractField(s: string, key: string): Option<string> {
    match FirstField(s, key, 0)
    case Some(i) => Some(FieldValueAt(s, key, i))
    case None => None
  }

  /** The search fails exactly when the pattern matches nowhere, and otherwise reads
      the value at the leftmost match. */
  lemma ExtractFieldLeftmost(s: string, key: string)
    ensures ExtractField(s, key).None? <==> forall i: nat :: !FieldAt(s, key, i)
    ensures ExtractField(s, key).Some? ==> exists i: nat :: (FieldAt(s, key, i)
      && (forall k: nat :: k < i ==> !FieldAt(s, key, k))
      && ExtractField(s, key).value == FieldValueAt(s, key, i))
  {
    match FirstField(s, key, 0)
    case Some(i) =>
      assert FieldAt(s, key, i);
    case None =>
  }

  /** A dimension's parsed value: the field's value unless it is empty or the placeholder. */
  function DimensionValue(s: string, d: Dimension): (r: Option<string>)
    ensures r.Some? <==> (ExtractField(s, FieldName(d)).Some?
      && ExtractField(s, FieldName(d)).value != [] && ExtractField(s, FieldName(d)).value != Placeholder)
    ensures r.Some? ==> r.value == ExtractField(s, FieldName(d)).value
  {
    match ExtractField(s, FieldName(d))
    case Some(v) => if v != [] && v != Placeholder then Some(v) else None
    case None => None
  }

  /** `_parse_impression_response`: the dimensions found, or failing all of them the
      `IMPRESSION:` text under `interests_hobbies`, or nothing. */
  function ParseImpressionResponse(content: string): (r: map<Dimension, string>)
    ensures var s := Strip(content);
      var found := exists d :: DimensionValue(s, d).Some?;
      && (found ==> forall d :: (d in r <==> DimensionValue(s, d).Some?)
                                && (d in r ==> r[d] == DimensionValue(s, d).value))
      && (!found ==> r == match ExtractField(s, "IMPRESSION") case Some(v) => map[Interests := v] case None => map[])
  {
    var s := Strip(content);
    var found := map d | d in AllDimensions && DimensionValue(s, d).Some? :: DimensionValue(s, d).value;
    if found != map[] then
      AllFound(s, found);
      found
    else
      NoneFound(s, found);
      match ExtractField(s, "IMPRESSION")
      case Some(v) => map[Interests := v]
      case None => map[]
  }

  lemma AllFound(s: string, found: map<Dimension, string>)
    requires found == map d | d in AllDimensions && DimensionValue(s, d).Some? :: DimensionValue(s, d).value
    ensures forall d :: d in found <==> DimensionValue(s, d).Some?
  {
    forall d ensures d in found <==> DimensionValue(s, d).Some? {
      AllDimensionsListed(d);
    }
  }

  lemma NoneFound(s: string, found: map<Dimension, string>)
    requires found == map d | d in AllDimensions && DimensionValue(s, d).Some? :: DimensionValue(s, d).value
    requires found == map[]
    ensures forall d :: DimensionValue(s, d).None?
  {
    AllFound(s, found);
  }

  /** A dimension value kept from an answer (which `_parse_impression_response` then
      reports for that dimension) is non-empty, is not the placeholder, holds no `;`,
      does not start or end with whitespace, and is a piece of the answer. */
  lemma DimensionValueShape(content: string, d: Dimension)
    requires DimensionValue(Strip(content), d).Some?
    ensures var v := DimensionValue(Strip(content), d).value;
      && v != [] && v != Placeholder && ';' !in v
      && !IsSpace(v[0]) && !IsSpace(v[|v| - 1])
      && Contains(content, v)
  {
    ExtractedInAnswer(content, FieldName(d));
  }

  /** A field found in the stripped answer holds no `;`, has no whitespace at either
      end, and is a piece of the answer. */
  lemma ExtractedInAnswer(content: string, key: string)
    requires ExtractField(Strip(content), key).Some?
    ensures var v := ExtractField(Strip(content), key).value;
      && ';' !in v && (v == [] || (!IsSpace(v[0]) && !IsSpace(v[|v| - 1])))
      && Contains(content, v)
  {
    var s := Strip(content);
    var v := ExtractField(s, key).value;
    var o := ExtractedPiece(s, key);
    StripAt(content);
    var b := |content| - |TrimStart(content)|;
    PieceOfPiece(content, s, b, v, o);
    assert OccursAt(content, v, b + o);
  }

  /** A field found in `s` holds no `;`, has no whitespace at either end, and sits in
      `s` at the returned offset. */
  lemma ExtractedPiece(s: string, key: string) returns (o: nat)
    requires ExtractField(s, key).Some?
    ensures var v := ExtractField(s, key).value;
      && ';' !in v && (v == [] || (!IsSpace(v[0]) && !IsSpace(v[|v| - 1])))
      && OccursAt(s, v, o)
  {
    match FirstField(s, key, 0)
    case Some(i) =>
      assert ExtractField(s, key) == Some(FieldValueAt(s, key, i));
      o := ValueOffset(s, key, i);
  }

  /** A piece of a piece of `t` is a piece of `t`. */
  lemma PieceOfPiece(t: string, s: string, b: nat, v: string, a: nat)
    requires OccursAt(t, s, b) && OccursAt(s, v, a)
    ensures OccursAt(t, v, b + a)
  {
    forall k | 0 <= k < |v| ensures v[k] == t[b + a + k] {
      assert v[k] == s[a + k];
    }
  }

  // ---------------------------------------------------------------------------------
  // The prompt
  // ---------------------------------------------------------------------------------

  /** `_build_prompt`: a configured template gets 500 characters of history and 200 of
      the message; the built-in prompt gets 300 and 200. */
  function BuildPrompt(templateConfig: string, history: string, message: string): (q: Query)
    ensures q.ImpressionQuery?
    ensures q.template.Some? <==> !Blank(templateConfig)
    ensures q.template.Some? ==> q.template.value == Strip(templateConfig)
    ensures q.history <= history && q.message <= message
    ensures |q.message| == if |message| <= 200 then |message| else 200
    ensures var cap := if q.template.Some? then 500 else 300;
      |q.history| == if |history| <= cap then |history| else cap
  {
    var template := Strip(templateConfig);
    BlankIffStripsEmpty(templateConfig);
    if template != [] then
      ImpressionQuery(Some(template), Prefix(history, 500), Prefix(message, 200))
    else
      var limitedHistory := if |history| > 300 then history[..300] else history;
      var limitedMessage := if |message| > 200 then message[..200] else message;
      ImpressionQuery(None, limitedHistory, limitedMessage)
  }

  // ---------------------------------------------------------------------------------
  // Saving
  // ---------------------------------------------------------------------------------

  /** The eight fields a save writes: the parsed value where there is one, `""` elsewhere. */
  function Merged(data: map<Dimension, string>): (dims: Dims)
    ensures forall d :: dims.Get(d) == if d in data then data[d] else ""
  {
    Dims(GetOrEmpty(data, Personality), GetOrEmpty(data, Interests), GetOrEmpty(data, Communication),
         GetOrEmpty(data, Emotional), GetOrEmpty(data, Behavior), GetOrEmpty(data, Values),
         GetOrEmpty(data, Relationship), GetOrEmpty(data, Growth))
  }

  function GetOrEmpty(data: map<Dimension, string>, d: Dimension): string {
    if d in data then data[d] else ""
  }

  /** The row `_save_impression` writes. */
  function Upserted(rows: map<string, ProfileRow>, userId: string, data: map<Dimension, string>, now: nat): ProfileRow {
    if userId in rows then
      rows[userId].(dims := Merged(data), messageCount := rows[userId].messageCount + 1,
                    lastInteraction := now, updatedAt := now)
    else
      NewProfileRow(userId, now).(dims := Merged(data), messageCount := 1)
  }

  /** A save overwrites all eight dimensions; a new profile starts at affection 50.0,
      `一般` and one message; an existing one keeps its affection and creation time and
      counts one more message. */
  lemma UpsertedSpec(rows: map<string, ProfileRow>, userId: string, data: map<Dimension, string>, now: nat, d: Dimension)
    ensures var r := Upserted(rows, userId, data, now);
      && r.dims.Get(d) == (if d in data then data[d] else "")
      && r.userId == (if userId in rows then rows[userId].userId else userId)
      && r.updatedAt == now && r.lastInteraction == now
      && (userId !in rows ==> r.affectionScore == 50.0 && r.affectionLevel == "一般" && r.messageCount == 1)
      && (userId in rows ==> (r.affectionScore == rows[userId].affectionScore
            && r.affectionLevel == rows[userId].affectionLevel
            && r.messageCount == rows[userId].messageCount + 1
            && r.createdAt == rows[userId].createdAt))
  {
  }

  /** The profile table after `_save_impression`: the upserted row, or, when `save()`
      fails, only the default row `get_or_create` may have inserted. */
  function SavedRows(rows: map<string, ProfileRow>, userId: string, data: map<Dimension, string>,
                     now: nat, saveFault: bool): map<string, ProfileRow> {
    if !saveFault then rows[userId := Upserted(rows, userId, data, now)]
    else if userId in rows then rows
    else rows[userId := NewProfileRow(userId, now)]
  }

  /** `_save_impression`. When `saveFault` holds, `save()` raises and the error is
      swallowed: only a row that `get_or_create` inserted remains. */
  method SaveImpression(db: Database, userId: string, data: map<Dimension, string>, now: nat, saveFault: bool)
    requires db.Valid()
    modifies db
    ensures db.Valid()
    ensures !saveFault ==> db.profiles == old(db.profiles)[userId := Upserted(old(db.profiles), userId, data, now)]
    ensures saveFault ==> (db.profiles ==
      if userId in old(db.profiles) then old(db.profiles) else old(db.profiles)[userId := NewProfileRow(userId, now)])
    ensures db.states == old(db.states) && db.stateOrder == old(db.stateOrder) && db.processed == old(db.processed)
  {
    var impression, created := db.GetOrCreateProfile(userId, now);
    Refill(impression, data, created, now);
    assert impression.Row() == Upserted(old(db.profiles), userId, data, now);
    if !saveFault {
      db.SaveProfile(impression);
    }
  }

  /** The field updates `_save_impression` makes on the loaded or created profile. */
  method Refill(impression: UserImpression, data: map<Dimension, string>, created: bool, now: nat)
    modifies impression
    ensures impression.Row() == old(impression.Row()).(dims := Merged(data),
      messageCount := if created then 1 else old(impression.messageCount) + 1,
      lastInteraction := now, updatedAt := now)
  {
    impression.dims := Merged(data);
    if created {
      impression.messageCount := 1;
    } else {
      impression.messageCount := impression.messageCount + 1;
    }
    impression.lastInteraction := now;
    impression.UpdateTimestamps(now);
  }

  // ---------------------------------------------------------------------------------
  // Building an impression
  // ---------------------------------------------------------------------------------

  const BuildSucceeded: string := "印象构建成功"

  /** `build_impression`: a failed call or an empty parse reports the model's text and
      leaves the profiles alone; otherwise the profile is saved and the fixed success
      text is reported, even when the save itself failed. */
  method BuildImpression(db: Database, llm: Llm, templateConfig: string, userId: string,
                         message: string, history: string, now: nat, saveFault: bool)
    returns (ok: bool, text: string, asked: Query)
    requires db.Valid()
    modifies db
    ensures db.Valid()
    ensures asked == BuildPrompt(templateConfig, history, message)
    ensures !llm(asked).ok ==> !ok && text == "LLM调用失败: " + llm(asked).text
    ensures llm(asked).ok && ParseImpressionResponse(llm(asked).text) == map[] ==>
      !ok && text == "解析失败: " + llm(asked).text
    ensures ok <==> llm(asked).ok && ParseImpressionResponse(llm(asked).text) != map[]
    ensures ok ==> text == BuildSucceeded
    ensures !ok ==> db.profiles == old(db.profiles)
    ensures ok ==> db.profiles == SavedRows(old(db.profiles), userId, ParseImpressionResponse(llm(asked).text), now, saveFault)
    ensures db.states == old(db.states) && db.stateOrder == old(db.stateOrder) && db.processed == old(db.processed)
  {
    asked := BuildPrompt(templateConfig, history, message);
    var reply := llm(asked);
    if !reply.ok {
      return false, "LLM调用失败: " + reply.text, asked;
    }
    var data := ParseImpressionResponse(reply.text);
    if data == map[] {
      return false, "解析失败: " + reply.text, asked;
    }
    SaveImpression(db, userId, data, now, saveFault);
    ok, text := true, BuildSucceeded;
  }

  // ---------------------------------------------------------------------------------
  // Reading and updating one dimension
  // ---------------------------------------------------------------------------------

  const UnknownUser: string := "用户不存在"

  /** What updating one dimension should report and leave in the table. */
  datatype DimUpdate = DimUpdate(ok: bool, message: string, rows: map<string, ProfileRow>)

  function DimensionUpdate(rows: map<string, ProfileRow>, userId: string, dimension: string,
                           content: string, now: nat): DimUpdate
  {
    if userId !in rows then DimUpdate(false, UnknownUser, rows)
    else
      match KeyToDimension(dimension)
      case None => DimUpdate(false, "更新维度失败: 未知维度: " + dimension, rows)
      case Some(d) =>
        var row := rows[userId];
        DimUpdate(true, dimension + "已更新: " + content,
                  rows[userId := row.(dims := row.dims.With(d, content), updatedAt := now)])
  }

  /** An update succeeds exactly for a stored user and a known key; it then makes the
      key read back as the new content and leaves every other key and user as it was,
      and otherwise changes nothing. */
  lemma DimensionUpdateSpec(rows: map<string, ProfileRow>, userId: string, dimension: string,
                            content: string, now: nat, other: string)
    ensures var u := DimensionUpdate(rows, userId, dimension, content, now);
      && (u.ok <==> userId in rows && KeyToDimension(dimension).Some?)
      && (userId !in rows ==> u.message == UnknownUser)
      && (!u.ok ==> u.rows == rows)
      && (u.ok ==> (u.rows.Keys == rows.Keys
            && Lookup(u.rows[userId].dims, dimension) == content
            && (other != dimension ==> Lookup(u.rows[userId].dims, other) == Lookup(rows[userId].dims, other))
            && forall v :: v in rows && v != userId ==> u.rows[v] == rows[v]))
  {
    var u := DimensionUpdate(rows, userId, dimension, content, now);
    if u.ok {
      var d := KeyToDimension(dimension).value;
      SetThenGet(rows[userId].dims, d, content, other);
    }
  }

  /** `update_dimension` as written: the loaded object is changed but never saved, so
      the reported success leaves the table as it was. */
  method UpdateDimensionAsWritten(db: Database, userId: string, dimension: string, content: string, now: nat)
    returns (ok: bool, message: string)
    requires db.Valid()
    ensures ok == DimensionUpdate(db.profiles, userId, dimension, content, now).ok
    ensures message == DimensionUpdate(db.profiles, userId, dimension, content, now).message
  {
    var found := db.FindProfile(userId);
    if found.None? {
      return false, UnknownUser;
    }
    var impression := new UserImpression.Load(found.value);
    var error := impression.SetDimension(dimension, content, now);
    if error.Some? {
      return false, "更新维度失败: " + error.value;
    }
    return true, dimension + "已更新: " + content;
  }

  /** A profile whose personality is empty: the as-written update reports that the
      personality was set, yet the table it leaves unchanged still reads `""` for it,
      where the intended table reads the new content. */
  lemma UpdateDimensionAsWrittenLoses()
    ensures var rows := map["u" := NewProfileRow("u", 0)];
      var u := DimensionUpdate(rows, "u", "personality", "开朗", 1);
      && u.ok
      && Lookup(rows["u"].dims, "personality") == ""
      && Lookup(u.rows["u"].dims, "personality") == "开朗"
      && u.rows != rows
  {
    var rows := map["u" := NewProfileRow("u", 0)];
    var u := DimensionUpdate(rows, "u", "personality", "开朗", 1);
    assert KeyToDimension("personality") == Some(Personality);
    assert Lookup(u.rows["u"].dims, "personality") == "开朗";
    assert u.rows["u"] != rows["u"];
  }

  /** `update_dimension` with the missing `save()`: the table afterwards is the
      intended one. */
  method UpdateDimension(db: Database, userId: string, dimension: string, content: string, now: nat)
    returns (ok: bool, message: string)
    requires db.Valid()
    modifies db
    ensures db.Valid()
    ensures var u := DimensionUpdate(old(db.profiles), userId, dimension, content, now);
      ok == u.ok && message == u.message && db.profiles == u.rows
    ensures db.states == old(db.states) && db.stateOrder == old(db.stateOrder) && db.processed == old(db.processed)
  {
    var found := db.FindProfile(userId);
    if found.None? {
      return false, UnknownUser;
    }
    var impression := new UserImpression.Load(found.value);
    var error := impression.SetDimension(dimension, content, now);
    if error.Some? {
      return false, "更新维度失败: " + error.value;
    }
    db.SaveProfile(impression);
    return true, dimension + "已更新: " + content;
  }

  /** `get_dimension`: `用户不存在` for an unknown user, otherwise the field the key
      names (`""` for an unknown key). */
  function GetDimension(db: Database, userId: string, dimension: string): (r: string)
    reads db
    ensures userId !in db.profiles ==> r == UnknownUser
    ensures userId in db.profiles ==> r == Lookup(db.profiles[userId].dims, dimension)
  {
    match db.FindProfile(userId)
    case None => UnknownUser
    case Some(row) => Lookup(row.dims, dimension)
  }

  const NoUserImpression: string := "暂无用户印象数据"

  /** `get_impression_summary`. */
  function GetImpressionSummary(db: Database, userId: string): (r: string)
    reads db
    ensures userId !in db.profiles ==> r == NoUserImpression
    ensures userId in db.profiles ==> r == SummaryOf(db.profiles[userId].dims)
  {
    match db.FindProfile(userId)
    case None => NoUserImpression
    case Some(row) => SummaryOf(row.dims)
  }
}
