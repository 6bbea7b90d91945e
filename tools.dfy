/** The two read-only tools the host offers the language model: `get_user_impression`,
    which finds a profile through a three-step fallback and renders it, and
    `search_impressions`, which lists the dimensions of one profile that mention a
    keyword. */
module Tools {
  import opened Text
  import opened Oracle
  import opened Profiles
  import opened MessageStates
  import opened Storage

  /** The `{"name": ..., "content": ...}` dictionary a tool returns. */
  datatype ToolResult = ToolResult(name: string, content: string)

  const GetImpressionName: string := "get_user_impression"
  const SearchName: string := "search_impressions"

  const MissingUserId: string := "错误：缺少user_id参数"
  const MissingArguments: string := "错误：缺少必要参数"
  const NoDetail: string := "  暂无详细数据"
  const NoStateRecords: string := "无用户记录"
  const DebugFailed: string := "调试信息查询失败"
  const Rule: string := "━━━━━━━━━━━━━━━━━━━━━━"

  /** How many state rows the second lookup step and the debug listing look at. */
  const StateWindow: int := 10
  const DebugWindow: int := 5

  /** The name a dimension is shown under in a tool's listing. */
  function DisplayName(d: Dimension): string {
    match d
    case Personality => "性格特征"
    case Interests => "兴趣爱好"
    case Communication => "交流风格"
    case Emotional => "情感倾向"
    case Behavior => "行为模式"
    case Values => "价值观态度"
    case Relationship => "关系偏好"
    case Growth => "成长发展"
  }

  /** `f"{n}"` for an integer. */
  function IntToString(n: int): (r: string)
    ensures |r| >= 1
    ensures n >= 0 ==> (forall k :: 0 <= k < |r| ==> IsDigit(r[k])) && DigitsValue(r) == n
    ensures n < 0 ==> r[0] == '-' && (forall k :: 1 <= k < |r| ==> IsDigit(r[k])) && DigitsValue(r[1..]) == -n
  {
    if n < 0 then "-" + NatToString(-n) else NatToString(n)
  }

  // ---------------------------------------------------------------------------------
  // Dimension listings
  // ---------------------------------------------------------------------------------

  /** A dimension's line in a listing: its display name and its stripped content. */
  function DetailLine(dims: Dims, d: Dimension): string {
    "  " + DisplayName(d) + ": " + Strip(dims.Get(d))
  }

  /** Whether a listing shows a dimension: its stripped content is non-empty and, when a
      keyword is given, contains the keyword, both lowercased. */
  predicate Shows(dims: Dims, d: Dimension, keyword: Option<string>) {
    && !Blank(dims.Get(d))
    && (keyword.None? || Contains(Lower(Strip(dims.Get(d))), Lower(keyword.value)))
  }

  /** `Shows` for one profile and keyword, as the test a listing applies. */
  function Keep(dims: Dims, keyword: Option<string>): Dimension -> bool {
    d => Shows(dims, d, keyword)
  }

  /** The dimensions of `ds` that pass `keep`, in the order of `ds`: with
      `Keep(dims, None)` those the detail listing of `get_user_impression` shows,
      with `Keep(dims, Some(keyword))` the matches of `search_impressions`. */
  function Shown(ds: seq<Dimension>, keep: Dimension -> bool): (r: seq<Dimension>)
    ensures |r| <= |ds|
  {
    if ds == [] then []
    else if keep(ds[|ds| - 1]) then Shown(ds[..|ds| - 1], keep) + [ds[|ds| - 1]]
    else Shown(ds[..|ds| - 1], keep)
  }

  /** One line per shown dimension, in order. */
  function DetailLines(dims: Dims, shown: seq<Dimension>): (lines: seq<string>)
    ensures |lines| == |shown|
  {
    if shown == [] then []
    else DetailLines(dims, shown[..|shown| - 1]) + [DetailLine(dims, shown[|shown| - 1])]
  }

  /** A dimension is shown exactly when it is one of `ds` and passes `keep`. */
  lemma {:induction false} ShownMembers(ds: seq<Dimension>, keep: Dimension -> bool, d: Dimension)
    ensures d in Shown(ds, keep) <==> d in ds && keep(d)
  {
    if ds != [] {
      var init, last := ds[..|ds| - 1], ds[|ds| - 1];
      assert ds == init + [last];
      ShownMembers(init, keep, d);
    }
  }

  /** Nothing is shown exactly when no dimension of `ds` passes `keep`. */
  lemma {:induction false} ShownEmpty(ds: seq<Dimension>, keep: Dimension -> bool)
    ensures Shown(ds, keep) == [] <==> forall k :: 0 <= k < |ds| ==> !keep(ds[k])
  {
    if ds != [] {
      var init := ds[..|ds| - 1];
      ShownEmpty(init, keep);
      assert forall k :: 0 <= k < |ds| - 1 ==> ds[k] == init[k];
    }
  }

  /** A stricter test shows a subset of the dimensions, and no more of them. */
  lemma {:induction false} ShownNarrows(ds: seq<Dimension>, strict: Dimension -> bool, loose: Dimension -> bool)
    requires forall d :: strict(d) ==> loose(d)
    ensures forall d :: d in Shown(ds, strict) ==> d in Shown(ds, loose)
    ensures |Shown(ds, strict)| <= |Shown(ds, loose)|
  {
    if ds != [] {
      ShownNarrows(ds[..|ds| - 1], strict, loose);
    }
  }

  /** Every dimension a keyword search reports is one the detail listing shows, so a
      search never reports more lines than the detail listing has. */
  lemma MatchesAreDetails(dims: Dims, keyword: string)
    ensures forall d :: d in Shown(AllDimensions, Keep(dims, Some(keyword))) ==> d in Shown(AllDimensions, Keep(dims, None))
    ensures |Shown(AllDimensions, Keep(dims, Some(keyword)))| <= |Shown(AllDimensions, Keep(dims, None))|
  {
    ShownNarrows(AllDimensions, Keep(dims, Some(keyword)), Keep(dims, None));
  }

  /** The detail listing shows a dimension exactly when its stripped content is
      non-empty. */
  lemma DetailsShow(dims: Dims, d: Dimension)
    ensures d in Shown(AllDimensions, Keep(dims, None)) <==> !Blank(dims.Get(d))
  {
    AllDimensionsListed(d);
    ShownMembers(AllDimensions, Keep(dims, None), d);
  }

  /** The detail listing is empty exactly when the summary is the no-data placeholder:
      the two renderings agree on which profiles are empty. */
  lemma DetailsAgreeWithSummary(dims: Dims)
    ensures Shown(AllDimensions, Keep(dims, None)) == [] <==> SummaryOf(dims) == NoImpressionData
  {
    var keep := Keep(dims, None);
    ShownEmpty(AllDimensions, keep);
    SummaryPlaceholder(dims);
    if forall e :: Blank(dims.Get(e)) {
      forall k | 0 <= k < |AllDimensions| ensures !keep(AllDimensions[k]) {
        assert Blank(dims.Get(AllDimensions[k]));
      }
    } else {
      var e :| !Blank(dims.Get(e));
      DetailsShow(dims, e);
      assert e in Shown(AllDimensions, keep);
    }
  }

  lemma ShownStep(ds: seq<Dimension>, keep: Dimension -> bool, i: nat)
    requires i < |ds|
    ensures Shown(ds[..i + 1], keep) == if keep(ds[i]) then Shown(ds[..i], keep) + [ds[i]] else Shown(ds[..i], keep)
  {
    assert ds[..i + 1][..i] == ds[..i];
  }

  lemma DetailLinesSnoc(dims: Dims, shown: seq<Dimension>, d: Dimension)
    ensures DetailLines(dims, shown + [d]) == DetailLines(dims, shown) + [DetailLine(dims, d)]
  {
    assert (shown + [d])[..|shown|] == shown;
  }

  /** The test the listing loop makes is `Keep`'s. */
  lemma KeepTest(dims: Dims, keyword: Option<string>, d: Dimension)
    ensures var content := Strip(dims.Get(d));
      Keep(dims, keyword)(d) <==> content != [] && (keyword.None? || Contains(Lower(content), Lower(keyword.value)))
  {
    BlankIffStripsEmpty(dims.Get(d));
  }

  /** The loop both tools run over the eight dimensions, appending each shown one. */
  method ListDimensions(dims: Dims, keyword: Option<string>) returns (lines: seq<string>)
    ensures lines == DetailLines(dims, Shown(AllDimensions, Keep(dims, keyword)))
  {
    var keywordLower := if keyword.Some? then Lower(keyword.value) else "";
    lines := [];
    var i := 0;
    while i < |AllDimensions|
      invariant 0 <= i <= |AllDimensions|
      invariant lines == DetailLines(dims, Shown(AllDimensions[..i], Keep(dims, keyword)))
    {
      var d := AllDimensions[i];
      var content := Strip(dims.Get(d));
      ghost var before := Shown(AllDimensions[..i], Keep(dims, keyword));
      ShownStep(AllDimensions, Keep(dims, keyword), i);
      KeepTest(dims, keyword, d);
      if content != [] && (keyword.None? || Contains(Lower(content), keywordLower)) {
        assert Shown(AllDimensions[..i + 1], Keep(dims, keyword)) == before + [d];
        DetailLinesSnoc(dims, before, d);
        lines := lines + ["  " + DisplayName(d) + ": " + content];
      } else {
        assert Shown(AllDimensions[..i + 1], Keep(dims, keyword)) == before;
      }
      i := i + 1;
    }
    assert AllDimensions[..i] == AllDimensions;
  }

  // ---------------------------------------------------------------------------------
  // get_user_impression
  // ---------------------------------------------------------------------------------

  /** The index of the first id in `ids` that has a profile. */
  function FirstWithProfile(profiles: map<string, ProfileRow>, ids: seq<string>): (r: Option<nat>)
    ensures r.Some? ==> (r.value < |ids| && ids[r.value] in profiles
      && forall k :: 0 <= k < r.value ==> ids[k] !in profiles)
    ensures r.None? ==> forall k :: 0 <= k < |ids| ==> ids[k] !in profiles
  {
    if ids == [] then None
    else
      var r := FirstWithProfile(profiles, ids[..|ids| - 1]);
      if r.Some? then r
      else if ids[|ids| - 1] in profiles then Some(|ids| - 1)
      else None
  }

  /** `order_by(updated_at.desc()).first()` may return `id`: no profile was updated later. */
  predicate IsNewest(profiles: map<string, ProfileRow>, id: string) {
    id in profiles && forall q :: q in profiles ==> profiles[q].updatedAt <= profiles[id].updatedAt
  }

  /** A table with a profile has a most recently updated one. */
  lemma {:induction false} NewestExists(profiles: map<string, ProfileRow>)
    requires profiles != map[]
    ensures exists id :: IsNewest(profiles, id)
    decreases |profiles.Keys|
  {
    var k :| k in profiles;
    var rest := profiles - {k};
    assert forall q :: q in profiles ==> q == k || (q in rest && rest[q] == profiles[q]);
    if rest == map[] {
      assert IsNewest(profiles, k);
    } else {
      assert |rest.Keys| < |profiles.Keys| by {
        assert rest.Keys == profiles.Keys - {k};
      }
      NewestExists(rest);
      var m :| IsNewest(rest, m);
      if profiles[k].updatedAt <= profiles[m].updatedAt {
        assert IsNewest(profiles, m);
      } else {
        assert IsNewest(profiles, k);
      }
    }
  }

  /** The id shown for a profile: the queried one, followed by the matched one when a
      non-empty matched id differs from it. */
  function DisplayId(query: string, matched: string): (r: string)
    ensures r == query <==> matched == [] || matched == query
    ensures query <= r
  {
    if matched != [] && matched != query then query + " (实际ID: " + matched + ")" else query
  }

  /** The profile report `get_user_impression` renders for a found profile. */
  function Report(query: string, matched: string, row: ProfileRow, fmt: Render): string {
    var lines := DetailLines(row.dims, Shown(AllDimensions, Keep(row.dims, None)));
    "用户印象数据 (ID: " + DisplayId(query, matched) + ")\n" + Rule + "\n"
      + "印象摘要: " + SummaryOf(row.dims) + "\n\n"
      + "详细信息:\n" + (if lines == [] then NoDetail else Join(lines, "\n")) + "\n\n"
      + "好感度: " + fmt.score(row.affectionScore) + "/100 (" + row.affectionLevel + ")\n"
      + "累计消息: " + IntToString(row.messageCount) + " 条\n"
      + "更新时间: " + fmt.longTime(row.updatedAt) + "\n" + Rule
  }

  /** One entry of the debug listing: a user id and its message total. */
  function StateEntry(states: map<string, StateRow>, id: string): string
    requires id in states
  {
    id + "(" + IntToString(states[id].totalMessages) + "条消息)"
  }

  /** The entries of the first `DebugWindow` states in their stored order. */
  function StateEntries(states: map<string, StateRow>, ids: seq<string>): (r: seq<string>)
    requires forall k :: 0 <= k < |ids| ==> ids[k] in states
    ensures |r| == |ids| && forall k :: 0 <= k < |ids| ==> r[k] == StateEntry(states, ids[k])
  {
    seq(|ids|, k requires 0 <= k < |ids| => StateEntry(states, ids[k]))
  }

  /** The debug text shown when no profile was found. */
  function DebugText(states: map<string, StateRow>, order: seq<string>, fault: bool): (r: string)
    requires forall k :: 0 <= k < |order| ==> order[k] in states
    ensures !fault ==> (r == NoStateRecords <==> order == [])
  {
    if fault then DebugFailed
    else
      var entries := StateEntries(states, Head(order, DebugWindow));
      if entries == [] then NoStateRecords
      else
        assert entries[0][|entries[0]| - 1] == ')';
        JoinHead(entries, ", ");
        "现有用户: " + Join(entries, ", ")
  }

  /** The text when no profile was found. */
  function NotFound(query: string, debug: string): string {
    "暂无用户 " + query + " 的印象数据 (" + debug + ")"
  }

  /** Where a storage error is raised in `get_user_impression`: in each lookup step and
      in the debug listing, each caught and logged. */
  datatype LookupFaults = LookupFaults(direct: bool, byState: bool, newest: bool, debug: bool)

  /** What the three lookup steps of `get_user_impression` may match for `u`: the
      queried id when it has a profile, else the first of the latest states' ids with
      a profile, else a most recently updated profile; nothing only when all three
      come up empty. */
  predicate LookupMatches(db: Database, u: string, faults: LookupFaults, matched: Option<string>)
    reads db
  {
    var direct := !faults.direct && u in db.profiles;
    var window := if faults.byState then [] else Head(db.stateOrder, StateWindow);
    var viaState := FirstWithProfile(db.profiles, window);
    && (matched.Some? <==> direct || viaState.Some? || (!faults.newest && db.profiles != map[]))
    && (direct ==> matched == Some(u))
    && (!direct && viaState.Some? ==> matched == Some(window[viaState.value]))
    && (!direct && viaState.None? && matched.Some? ==> IsNewest(db.profiles, matched.value))
  }

  /** `GetUserImpressionTool.execute`. Besides the tool's result, reports the profile
      id it matched (`matched_id`). */
  method GetUserImpression(db: Database, userId: Option<string>, fmt: Render, faults: LookupFaults)
    returns (r: ToolResult, matched: Option<string>)
    requires db.Valid()
    ensures r.name == GetImpressionName
    ensures userId.None? || userId.value == [] ==> r.content == MissingUserId && matched.None?
    ensures userId.Some? && userId.value != [] ==>
      && LookupMatches(db, userId.value, faults, matched)
      && (matched.Some? ==> (matched.value in db.profiles
            && r.content == Report(userId.value, matched.value, db.profiles[matched.value], fmt)))
      && (matched.None? ==> r.content == NotFound(userId.value, DebugText(db.states, db.stateOrder, faults.debug)))
  {
    if userId.None? || userId.value == [] {
      return ToolResult(GetImpressionName, MissingUserId), None;
    }
    var u := userId.value;
    matched := FindProfileFor(db, u, faults);
    if matched.Some? {
      var content := RenderReport(u, matched.value, db.profiles[matched.value], fmt);
      r := ToolResult(GetImpressionName, content);
    } else {
      var debug := DebugInfo(db, faults.debug);
      r := ToolResult(GetImpressionName, "暂无用户 " + u + " 的印象数据 (" + debug + ")");
    }
  }

  /** The three lookup steps of `get_user_impression`, each skipped when an earlier one
      matched and each failing on its own storage error. */
  method FindProfileFor(db: Database, u: string, faults: LookupFaults) returns (matched: Option<string>)
    requires db.Valid()
    ensures LookupMatches(db, u, faults, matched)
    ensures matched.Some? ==> matched.value in db.profiles
  {
    matched := None;
    if !faults.direct {
      var found := db.FindProfile(u);
      if found.Some? {
        matched := Some(u);
      }
    }
    if matched.None? && !faults.byState {
      matched := SearchStates(db, Head(db.stateOrder, StateWindow));
    }
    if matched.None? && !faults.newest && db.profiles != map[] {
      NewestExists(db.profiles);
      var newest :| IsNewest(db.profiles, newest);
      matched := Some(newest);
    }
  }

  /** The second lookup step: the first of the given state ids that has a profile. */
  method SearchStates(db: Database, window: seq<string>) returns (matched: Option<string>)
    requires db.Valid()
    ensures var first := FirstWithProfile(db.profiles, window);
      matched == if first.Some? then Some(window[first.value]) else None
  {
    matched := None;
    var i := 0;
    while i < |window| && matched.None?
      invariant 0 <= i <= |window|
      invariant matched.None? ==> forall k :: 0 <= k < i ==> window[k] !in db.profiles
      invariant matched.Some? ==> (0 < i && FirstWithProfile(db.profiles, window) == Some(i - 1)
        && matched == Some(window[i - 1]))
    {
      var test := db.FindProfile(window[i]);
      if test.Some? {
        matched := Some(window[i]);
      }
      i := i + 1;
    }
  }

  /** The report for a found profile, built as `get_user_impression` builds it. */
  method RenderReport(u: string, matchedId: string, row: ProfileRow, fmt: Render) returns (content: string)
    ensures content == Report(u, matchedId, row, fmt)
  {
    var lines := ListDimensions(row.dims, None);
    var dimensionsText := if lines != [] then Join(lines, "\n") else NoDetail;
    var display := u;
    if matchedId != [] && matchedId != u {
      display := u + " (实际ID: " + matchedId + ")";
    }
    content := "用户印象数据 (ID: " + display + ")\n" + Rule + "\n"
      + "印象摘要: " + SummaryOf(row.dims) + "\n\n"
      + "详细信息:\n" + dimensionsText + "\n\n"
      + "好感度: " + fmt.score(row.affectionScore) + "/100 (" + row.affectionLevel + ")\n"
      + "累计消息: " + IntToString(row.messageCount) + " 条\n"
      + "更新时间: " + fmt.longTime(row.updatedAt) + "\n" + Rule;
  }

  /** One more state id in the debug listing. */
  lemma StateEntriesStep(states: map<string, StateRow>, ids: seq<string>, i: nat)
    requires i < |ids| && forall k :: 0 <= k < |ids| ==> ids[k] in states
    ensures StateEntries(states, ids[..i + 1]) == StateEntries(states, ids[..i]) + [StateEntry(states, ids[i])]
  {
    assert ids[..i + 1][..i] == ids[..i];
  }

  /** The loop that lists the first states when no profile was found. */
  method DebugInfo(db: Database, fault: bool) returns (debug: string)
    requires db.Valid()
    ensures debug == DebugText(db.states, db.stateOrder, fault)
  {
    if fault {
      return DebugFailed;
    }
    var window := Head(db.stateOrder, DebugWindow);
    var entries: seq<string> := [];
    var i := 0;
    while i < |window|
      invariant 0 <= i <= |window|
      invariant entries == StateEntries(db.states, window[..i])
    {
      var id := window[i];
      StateEntriesStep(db.states, window, i);
      entries := entries + [id + "(" + IntToString(db.states[id].totalMessages) + "条消息)"];
      i := i + 1;
    }
    assert window[..i] == window;
    if entries != [] {
      debug := "现有用户: " + Join(entries, ", ");
    } else {
      debug := NoStateRecords;
    }
  }

  /** The lookup matches nothing, and so the tool answers with the not-found text, only
      when every step came up empty: the queried id has no profile, none of the latest
      states' ids has one, and the profile table is empty, unless a storage error
      struck the step in question. */
  lemma NotFoundOnlyWhenEmpty(db: Database, u: string, faults: LookupFaults)
    requires LookupMatches(db, u, faults, None)
    ensures faults.direct || u !in db.profiles
    ensures faults.byState || forall k :: 0 <= k < |Head(db.stateOrder, StateWindow)| ==>
      Head(db.stateOrder, StateWindow)[k] !in db.profiles
    ensures faults.newest || db.profiles == map[]
  {
  }

  // ---------------------------------------------------------------------------------
  // search_impressions
  // ---------------------------------------------------------------------------------

  /** The text a search reports. */
  function SearchReport(userId: string, keyword: string, row: ProfileRow, fmt: Render): string {
    var matches := DetailLines(row.dims, Shown(AllDimensions, Keep(row.dims, Some(keyword))));
    if matches == [] then "用户 " + userId + " 的印象中未找到关键词「" + keyword + "」的相关内容"
    else
      "用户 " + userId + " 印象中找到关键词「" + keyword + "」的相关内容:\n\n" + Join(matches, "\n")
        + "\n\n好感度: " + fmt.score(row.affectionScore) + "/100 (" + row.affectionLevel + ")"
        + "\n更新时间: " + fmt.longTime(row.updatedAt)
  }

  /** `SearchImpressionsTool.execute`. A storage error in the profile query is the
      exception text `lookupError`, which the tool reports. */
  method SearchImpressions(db: Database, userId: Option<string>, keyword: Option<string>, fmt: Render,
                           lookupError: Option<string>)
    returns (r: ToolResult)
    ensures r.name == SearchName
    ensures userId.None? || userId.value == [] || keyword.None? || keyword.value == [] ==>
      r.content == MissingArguments
    ensures userId.Some? && userId.value != [] && keyword.Some? && keyword.value != [] ==>
      r.content == (
        if lookupError.Some? then "搜索印象失败: " + lookupError.value
        else if userId.value !in db.profiles then "用户 " + userId.value + " 暂无印象数据"
        else SearchReport(userId.value, keyword.value, db.profiles[userId.value], fmt))
  {
    if userId.None? || userId.value == [] || keyword.None? || keyword.value == [] {
      return ToolResult(SearchName, MissingArguments);
    }
    var u, kw := userId.value, keyword.value;
    if lookupError.Some? {
      return ToolResult(SearchName, "搜索印象失败: " + lookupError.value);
    }
    var found := db.FindProfile(u);
    if found.None? {
      return ToolResult(SearchName, "用户 " + u + " 暂无印象数据");
    }
    var row := found.value;
    var matches := ListDimensions(row.dims, Some(kw));
    var result;
    if matches != [] {
      result := "用户 " + u + " 印象中找到关键词「" + kw + "」的相关内容:\n\n";
      result := result + Join(matches, "\n");
      result := result + "\n\n好感度: " + fmt.score(row.affectionScore) + "/100 (" + row.affectionLevel + ")";
      result := result + "\n更新时间: " + fmt.longTime(row.updatedAt);
    } else {
      result := "用户 " + u + " 的印象中未找到关键词「" + kw + "」的相关内容";
    }
    r := ToolResult(SearchName, result);
  }

  /** A dimension is reported by a search exactly when its stripped content is
      non-empty and contains the keyword, compared lowercased. */
  lemma SearchFinds(dims: Dims, keyword: string, d: Dimension)
    ensures d in Shown(AllDimensions, Keep(dims, Some(keyword)))
      <==> !Blank(dims.Get(d)) && Contains(Lower(Strip(dims.Get(d))), Lower(keyword))
  {
    AllDimensionsListed(d);
    ShownMembers(AllDimensions, Keep(dims, Some(keyword)), d);
  }
}
