/** The importance filter (`WeightService`): it scores each message through the language
    model, falls back to a length rule when the model or the parse fails, keeps a bounded
    per-user history of scored messages, and selects recent admissible history as
    context for the profile prompt. */
module WeightFilter {
  import opened Text
  import opened Oracle

  /** Most history entries kept per user; older ones are evicted first. */
  const HistoryCap: nat := 100
  /** Characters of the message and of the context kept in a history entry. */
  const ExcerptLen: nat := 100

  const DefaultHighThreshold: real := 70.0
  const DefaultMediumThreshold: real := 40.0
  const DefaultFilterMode: string := "selective"

  /** One scored message as the history keeps it. */
  datatype WeightRecord = WeightRecord(
    messageId: string, score: real, level: string, timestamp: nat, message: string, context: string)

  /** The `weight_filter` section of the configuration; absent keys take their defaults. */
  datatype WeightConfig = WeightConfig(
    highThreshold: Option<real>, mediumThreshold: Option<real>, filterMode: Option<string>)

  // ---------------------------------------------------------------------------------
  // Parsing the model's reply
  // ---------------------------------------------------------------------------------

  predicate IsNumChar(c: char) {
    IsDigit(c) || c == '.'
  }

  /** Where the value after `key` starts: past the key and all whitespace after it. */
  function ValueStart(s: string, i: nat, key: string): (j: nat)
    requires i + |key| <= |s|
    ensures i + |key| <= j <= |s|
  {
    i + |key| + RunLength(s, i + |key|, IsSpace)
  }

  /** `WEIGHT_SCORE:\s*([\d.]+)` matches at `i` (case-insensitively). */
  predicate ScoreAt(s: string, i: nat) {
    CiMatchAt(s, i, "WEIGHT_SCORE:")
    && var j := ValueStart(s, i, "WEIGHT_SCORE:"); j < |s| && IsNumChar(s[j])
  }

  function ScoreToken(s: string, i: nat): (tok: string)
    requires ScoreAt(s, i)
    ensures tok != [] && forall k :: 0 <= k < |tok| ==> IsNumChar(tok[k])
  {
    var j := ValueStart(s, i, "WEIGHT_SCORE:");
    s[j..j + RunLength(s, j, IsNumChar)]
  }

  /** `WEIGHT_LEVEL:\s*(\w+)` matches at `i` (case-insensitively). */
  predicate LevelAt(s: string, i: nat) {
    CiMatchAt(s, i, "WEIGHT_LEVEL:")
    && var j := ValueStart(s, i, "WEIGHT_LEVEL:"); j < |s| && IsWordChar(s[j])
  }

  function LevelToken(s: string, i: nat): (tok: string)
    requires LevelAt(s, i)
    ensures tok != [] && forall k :: 0 <= k < |tok| ==> IsWordChar(tok[k])
  {
    var j := ValueStart(s, i, "WEIGHT_LEVEL:");
    s[j..j + RunLength(s, j, IsWordChar)]
  }

  function Pow10(n: nat): (p: nat)
    ensures p >= 1
  {
    if n == 0 then 1 else 10 * Pow10(n - 1)
  }

  /** `float(tok)` for a token of digits and dots: Python accepts it exactly when it
      holds at most one dot and at least one digit. The value is exact; binary
      rounding is not modelled. */
  function ParseDecimal(tok: string): (r: Option<real>)
    requires forall k :: 0 <= k < |tok| ==> IsNumChar(tok[k])
    ensures r.Some? <==> multiset(tok)['.'] <= 1 && multiset(tok)['.'] < |tok|
    ensures r.Some? ==> r.value >= 0.0
  {
    match IndexOf(tok, '.')
    case None =>
      DotFree(tok);
      if tok == [] then None else Some(DigitsValue(tok) as real)
    case Some(d) =>
      var intPart, frac := tok[..d], tok[d + 1..];
      SplitAtDot(tok, d);
      if '.' in frac then
        None
      else if |tok| == 1 then
        None
      else
        DotFree(intPart);
        DotFree(frac);
        var fraction := DigitsValue(frac) as real / Pow10(|frac|) as real;
        assert fraction >= 0.0;
        Some(DigitsValue(intPart) as real + fraction)
  }

  predicate NumChars(t: string) {
    forall k :: 0 <= k < |t| ==> IsNumChar(t[k])
  }

  /** A token of digits and dots without a dot is all digits. */
  lemma DotFree(t: string)
    requires forall k :: 0 <= k < |t| ==> IsNumChar(t[k])
    requires '.' !in t
    ensures forall k :: 0 <= k < |t| ==> IsDigit(t[k])
    ensures multiset(t)['.'] == 0
  {
    forall k | 0 <= k < |t| ensures IsDigit(t[k]) {
      assert t[k] in t;
    }
  }

  /** Splitting a token at a dot: both sides are still digits and dots, and the dot
      count is the one dot plus those on either side. */
  lemma SplitAtDot(tok: string, d: nat)
    requires d < |tok| && tok[d] == '.'
    requires forall k :: 0 <= k < |tok| ==> IsNumChar(tok[k])
    ensures NumChars(tok[..d]) && NumChars(tok[d + 1..])
    ensures multiset(tok)['.'] == 1 + multiset(tok[..d])['.'] + multiset(tok[d + 1..])['.']
  {
    assert tok == tok[..d] + [tok[d]] + tok[d + 1..];
    var frac := tok[d + 1..];
    forall k | 0 <= k < |frac| ensures IsNumChar(frac[k]) {
      assert frac[k] == tok[d + 1 + k];
    }
  }

  /** What the parser extracts: the key-value reading (score and, when present, the
      lower-cased level) or the decoded JSON object holding `weight_score`. */
  datatype WeightParse =
    | KeyValue(score: real, level: Option<string>)
    | JsonDict(fields: map<string, Json>)

  /** `_parse_weight_response`. */
  function ParseWeightResponse(lib: Lib, raw: string): (r: Option<WeightParse>)
    ensures |Strip(raw)| < 10 ==> r.None?
    ensures r.Some? && r.value.JsonDict? ==> "weight_score" in r.value.fields
    ensures r.Some? && r.value.KeyValue? ==> r.value.score >= 0.0
  {
    var s := Strip(raw);
    if |s| < 10 then None
    else
      match FindFirst(|s|, (i: nat) => ScoreAt(s, i), 0)
      case Some(i) =>
        var tok := ScoreToken(s, i);
        var level :=
          match FindFirst(|s|, (k: nat) => LevelAt(s, k), 0)
          case Some(k) => Some(Lower(LevelToken(s, k)))
          case None => None;
        Some(KeyValue(ParseDecimal(tok).GetOr(0.0), level))
      case None =>
        JsonFallback(lib, s)
  }

  /** `a` is the first `{` of `s` and `b` the last `}`, and `a` comes before `b`. */
  predicate BraceSpan(s: string, a: nat, b: nat) {
    a < b < |s| && s[a] == '{' && '{' !in s[..a] && s[b] == '}' && '}' !in s[b + 1..]
  }

  /** The JSON fallback: the text from the first `{` to the last `}` must decode to an
      object holding `weight_score`. */
  function JsonFallback(lib: Lib, s: string): (r: Option<WeightParse>)
    ensures r.Some? ==> r.value.JsonDict? && "weight_score" in r.value.fields
    ensures r.Some? ==> exists a: nat, b: nat :: BraceSpan(s, a, b) && lib.jsonLoads(s[a..b + 1]) == Some(JObj(r.value.fields))
  {
    var first := IndexOf(s, '{');
    var last := LastIndexOf(s, '}');
    if first.Some? && last.Some? && last.value > first.value then
      assert BraceSpan(s, first.value, last.value);
      match lib.jsonLoads(s[first.value..last.value + 1])
      case Some(JObj(fields)) =>
        if "weight_score" in fields then Some(JsonDict(fields)) else None
      case _ => None
    else None
  }

  /** The converse: when the first `{` to the last `}` decodes to an object holding
      `weight_score`, that object is the result. */
  lemma JsonFallbackFinds(lib: Lib, s: string, a: nat, b: nat, fields: map<string, Json>)
    requires BraceSpan(s, a, b)
    requires lib.jsonLoads(s[a..b + 1]) == Some(JObj(fields)) && "weight_score" in fields
    ensures JsonFallback(lib, s) == Some(JsonDict(fields))
  {
    var first, last := IndexOf(s, '{'), LastIndexOf(s, '}');
    assert s[a] in s && s[b] in s;
  }

  /** The score read from the first `WEIGHT_SCORE:` match: a token `float()` rejects
      reads as 0.0, and the level is the lowercased token of the first `WEIGHT_LEVEL:`
      match, if any. */
  lemma ParsedScore(lib: Lib, raw: string, i: nat)
    requires |Strip(raw)| >= 10
    requires ScoreAt(Strip(raw), i) && forall k: nat :: k < i ==> !ScoreAt(Strip(raw), k)
    ensures var r := ParseWeightResponse(lib, raw);
      var tok := ScoreToken(Strip(raw), i);
      && r.Some? && r.value.KeyValue?
      && (ParseDecimal(tok).Some? ==> r.value.score == ParseDecimal(tok).value)
      && (ParseDecimal(tok).None? ==> r.value.score == 0.0)
      && (r.value.level.None? <==> forall k: nat :: !LevelAt(Strip(raw), k))
      && (forall k: nat :: LevelAt(Strip(raw), k) && (forall m: nat :: m < k ==> !LevelAt(Strip(raw), m)) ==>
            r.value.level == Some(Lower(LevelToken(Strip(raw), k))))
  {
    var s := Strip(raw);
    FindFirstAt(|s|, (j: nat) => ScoreAt(s, j), i);
    var lv := FindFirst(|s|, (k: nat) => LevelAt(s, k), 0);
    forall k: nat | LevelAt(s, k) && (forall m: nat :: m < k ==> !LevelAt(s, m))
      ensures lv == Some(k)
    {
      FindFirstAt(|s|, (j: nat) => LevelAt(s, j), k);
    }
    if lv.None? {
      forall k: nat ensures !LevelAt(s, k) {
        if k < |s| {
          assert !(k => LevelAt(s, k))(k);
        }
      }
    }
  }

  /** Without any `WEIGHT_SCORE:` match the reply is read as JSON, so a key-value result
      comes exactly from a score match. */
  lemma ParsedJson(lib: Lib, raw: string)
    requires |Strip(raw)| >= 10
    requires forall k: nat :: !ScoreAt(Strip(raw), k)
    ensures ParseWeightResponse(lib, raw) == JsonFallback(lib, Strip(raw))
    ensures ParseWeightResponse(lib, raw).Some? ==> ParseWeightResponse(lib, raw).value.JsonDict?
  {
  }

  // ---------------------------------------------------------------------------------
  // Evaluation
  // ---------------------------------------------------------------------------------

  /** `_save_default_weight`'s rule: longer than 20 characters is medium. */
  function DefaultWeight(message: string): (r: (real, string))
    ensures |message| > 20 ==> r == (50.0, "medium")
    ensures |message| <= 20 ==> r == (20.0, "low")
  {
    if |message| > 20 then (50.0, "medium") else (20.0, "low")
  }

  /** How a reply is judged: a score and level, or the exception `float()` raised. */
  datatype Judgement = Scored(score: real, level: string) | Crashed(error: string)

  function Judge(lib: Lib, reply: Reply, message: string): (j: Judgement)
    ensures !reply.ok ==> j == Scored(DefaultWeight(message).0, DefaultWeight(message).1)
    ensures reply.ok && ParseWeightResponse(lib, reply.text).None? ==>
      (j == Scored(DefaultWeight(message).0, DefaultWeight(message).1))
    ensures j.Crashed? ==> (reply.ok && ParseWeightResponse(lib, reply.text).Some?
      && ParseWeightResponse(lib, reply.text).value.JsonDict?)
    ensures var p := ParseWeightResponse(lib, reply.text);
      reply.ok && p.Some? && p.value.KeyValue? ==> j == Scored(p.value.score, p.value.level.GetOr("low"))
    ensures var p := ParseWeightResponse(lib, reply.text);
      reply.ok && p.Some? && p.value.JsonDict? ==>
        var fields := p.value.fields;
        var x := FloatOf(lib, fields["weight_score"]);
        && (x.None? ==> j == Crashed("评估权重失败: " + lib.floatError(fields["weight_score"])))
        && (x.Some? && "weight_level" in fields ==> j == Scored(x.value, TextOf(lib, fields["weight_level"])))
        && (x.Some? && "weight_level" !in fields ==> j == Scored(x.value, "low"))
  {
    if !reply.ok then Scored(DefaultWeight(message).0, DefaultWeight(message).1)
    else
      match ParseWeightResponse(lib, reply.text)
      case None => Scored(DefaultWeight(message).0, DefaultWeight(message).1)
      case Some(KeyValue(score, level)) => Scored(score, level.GetOr("low"))
      case Some(JsonDict(fields)) =>
        var raw := fields["weight_score"];
        match FloatOf(lib, raw)
        case None => Crashed("评估权重失败: " + lib.floatError(raw))
        case Some(x) =>
          Scored(x, if "weight_level" in fields then TextOf(lib, fields["weight_level"]) else "low")
  }

  /** The last `n` items of `s`. */
  function LastN<T>(s: seq<T>, n: nat): (r: seq<T>)
    ensures |r| == if |s| <= n then |s| else n
    ensures r == s[|s| - |r|..]
  {
    if |s| <= n then s else s[|s| - n..]
  }

  /** `_save_weight`'s list update: append, then keep the newest 100. */
  function Appended(h: seq<WeightRecord>, r: WeightRecord): (h': seq<WeightRecord>)
    ensures h' == LastN(h + [r], HistoryCap)
  {
    var all := h + [r];
    if |all| > HistoryCap then all[|all| - HistoryCap..] else all
  }

  /** The entry `_save_weight` stores. */
  function Entry(messageId: string, score: real, level: string, now: nat, message: string, context: string): WeightRecord {
    WeightRecord(messageId, score, level, now, Prefix(message, ExcerptLen), Prefix(context, ExcerptLen))
  }

  /** The first history entry carrying `messageId`. */
  function Cached(h: seq<WeightRecord>, messageId: string): (r: Option<nat>)
    ensures r.Some? ==> (r.value < |h| && h[r.value].messageId == messageId
      && forall j :: 0 <= j < r.value ==> h[j].messageId != messageId)
    ensures r.None? ==> forall j :: 0 <= j < |h| ==> h[j].messageId != messageId
  {
    if h == [] then None
    else if h[0].messageId == messageId then Some(0)
    else
      match Cached(h[1..], messageId)
      case Some(i) => Some(i + 1)
      case None => None
  }

  /** What `evaluate_message` returns and does: its three results, the query it put to
      the model (None when it asked nothing), whether it saved an entry, and the
      user's history afterwards. */
  datatype Evaluation = Evaluation(
    ok: bool, score: real, level: string, asked: Option<Query>, saved: bool, history: seq<WeightRecord>)

  function Evaluate(h: seq<WeightRecord>, lib: Lib, llm: Llm, messageId: string,
                    message: string, context: string, now: nat): Evaluation
  {
    match Cached(h, messageId)
    case Some(i) => Evaluation(true, h[i].score, h[i].level, None, false, h)
    case None =>
      var q := WeightQuery(message, context);
      match Judge(lib, llm(q), message)
      case Scored(score, level) =>
        Evaluation(true, score, level, Some(q), true, Appended(h, Entry(messageId, score, level, now, message, context)))
      case Crashed(error) => Evaluation(false, 0.0, error, Some(q), false, h)
  }

  /** A message id already in the history is answered from it, without asking the
      model and without saving; an id not there always makes the model be asked. */
  lemma EvaluateCacheHit(h: seq<WeightRecord>, lib: Lib, llm: Llm, messageId: string,
                         message: string, context: string, now: nat)
    ensures var e := Evaluate(h, lib, llm, messageId, message, context, now);
      && (e.asked.None? <==> exists i :: 0 <= i < |h| && h[i].messageId == messageId)
      && (e.asked.None? ==> (e.ok && !e.saved && e.history == h
            && exists i :: 0 <= i < |h| && h[i].messageId == messageId
                           && e.score == h[i].score && e.level == h[i].level))
  {
    match Cached(h, messageId)
    case Some(i) =>
    case None =>
  }

  /** On a miss the model is asked about the message and its context; a result is
      saved exactly when it was obtained, as the newest history entry with the cap
      applied, and an unreachable model yields the length-based default. */
  lemma EvaluateMiss(h: seq<WeightRecord>, lib: Lib, llm: Llm, messageId: string,
                     message: string, context: string, now: nat)
    ensures var e := Evaluate(h, lib, llm, messageId, message, context, now);
      && (e.asked.Some? ==> e.asked.value == WeightQuery(message, context))
      && (e.saved <==> e.asked.Some? && e.ok)
      && (e.saved ==> e.history == LastN(h + [Entry(messageId, e.score, e.level, now, message, context)], HistoryCap))
      && (!e.saved ==> e.history == h)
      && (!e.ok ==> e.score == 0.0)
      && (e.asked.Some? && !llm(WeightQuery(message, context)).ok ==>
            e.ok && (e.score, e.level) == DefaultWeight(message))
      && (|h| <= HistoryCap ==> |e.history| <= HistoryCap)
  {
    match Cached(h, messageId)
    case Some(i) =>
    case None =>
  }

  /** Appending many entries one at a time. */
  function AppendAll(h: seq<WeightRecord>, rs: seq<WeightRecord>): seq<WeightRecord>
    decreases |rs|
  {
    if rs == [] then h else AppendAll(Appended(h, rs[0]), rs[1..])
  }

  lemma LastNOfSuffix<T>(pre: seq<T>, a: seq<T>, n: nat)
    requires |a| >= n
    ensures LastN(pre + a, n) == LastN(a, n)
  {
    assert (pre + a)[|pre + a| - n..] == a[|a| - n..];
  }

  /** One append, seen from the whole stream: keeping the newest 100 after each step
      is the same as keeping the newest 100 at the end. */
  lemma AppendStep(h: seq<WeightRecord>, rs: seq<WeightRecord>)
    requires rs != []
    ensures LastN(Appended(h, rs[0]) + rs[1..], HistoryCap) == LastN(h + rs, HistoryCap)
  {
    var all := h + [rs[0]];
    var h1 := Appended(h, rs[0]);
    var rest := rs[1..];
    assert h + rs == all + rest by {
      assert rs == [rs[0]] + rest;
    }
    if |all| > HistoryCap {
      var pre := all[..|all| - HistoryCap];
      assert all == pre + h1;
      assert all + rest == pre + (h1 + rest);
      LastNOfSuffix(pre, h1 + rest, HistoryCap);
    } else {
      assert h1 == all;
    }
  }

  /** Whatever was appended before, the history holds the newest 100 entries in
      insertion order: appending 150 entries leaves exactly the last 100 of them. */
  lemma {:induction false} AppendAllKeepsNewest(h: seq<WeightRecord>, rs: seq<WeightRecord>)
    requires |h| <= HistoryCap
    ensures AppendAll(h, rs) == LastN(h + rs, HistoryCap)
    decreases |rs|
  {
    if rs != [] {
      AppendAllKeepsNewest(Appended(h, rs[0]), rs[1..]);
      AppendStep(h, rs);
    }
  }

  // ---------------------------------------------------------------------------------
  // Context selection
  // ---------------------------------------------------------------------------------

  /** `get_filtered_messages`' per-entry filter: selective keeps high scores, balanced
      medium ones, any other mode keeps everything. */
  predicate Keeps(mode: string, high: real, medium: real, score: real) {
    if mode == "selective" then score >= high
    else if mode == "balanced" then score >= medium
    else true
  }

  /** The entries the filter keeps, in history order. */
  function Qualifying(h: seq<WeightRecord>, mode: string, high: real, medium: real): (q: seq<WeightRecord>)
    ensures |q| <= |h|
    ensures forall k :: 0 <= k < |q| ==> Keeps(mode, high, medium, q[k].score)
  {
    if h == [] then []
    else
      var last := h[|h| - 1];
      assert h == h[..|h| - 1] + [last];
      Qualifying(h[..|h| - 1], mode, high, medium)
        + if Keeps(mode, high, medium, last.score) then [last] else []
  }

  lemma QualifyingSnoc(h: seq<WeightRecord>, r: WeightRecord, mode: string, high: real, medium: real)
    ensures Qualifying(h + [r], mode, high, medium)
      == Qualifying(h, mode, high, medium) + if Keeps(mode, high, medium, r.score) then [r] else []
  {
    assert (h + [r])[..|h|] == h;
  }

  /** The filter only drops entries. */
  lemma {:induction false} QualifyingSub(h: seq<WeightRecord>, mode: string, high: real, medium: real)
    ensures multiset(Qualifying(h, mode, high, medium)) <= multiset(h)
  {
    if h != [] {
      var init := h[..|h| - 1];
      assert h == init + [h[|h| - 1]];
      QualifyingSub(init, mode, high, medium);
    }
  }

  /** One more entry of the history: the filter's verdict on it decides whether it is
      appended. */
  lemma QualifyingStep(h: seq<WeightRecord>, i: nat, mode: string, high: real, medium: real)
    requires i < |h|
    ensures Qualifying(h[..i + 1], mode, high, medium)
      == Qualifying(h[..i], mode, high, medium) + if Keeps(mode, high, medium, h[i].score) then [h[i]] else []
  {
    assert h[..i + 1] == h[..i] + [h[i]];
    QualifyingSnoc(h[..i], h[i], mode, high, medium);
  }

  lemma {:induction false} QualifyingComplete(h: seq<WeightRecord>, mode: string, high: real, medium: real)
    ensures forall k :: 0 <= k < |h| && Keeps(mode, high, medium, h[k].score) ==> h[k] in Qualifying(h, mode, high, medium)
  {
    if h != [] {
      QualifyingComplete(h[..|h| - 1], mode, high, medium);
      forall k | 0 <= k < |h| - 1 ensures h[k] == h[..|h| - 1][k] { }
    }
  }

  /** Timestamps never increase along `s`. */
  predicate NewestFirst(s: seq<WeightRecord>) {
    forall i, j :: 0 <= i < j < |s| ==> s[i].timestamp >= s[j].timestamp
  }

  /** Inserts `r` after every entry at least as new. */
  function Insert(r: WeightRecord, s: seq<WeightRecord>): (t: seq<WeightRecord>)
    ensures multiset(t) == multiset(s) + multiset{r}
    ensures |t| == |s| + 1
  {
    if s == [] then [r]
    else if s[0].timestamp < r.timestamp then [r] + s
    else
      assert s == [s[0]] + s[1..];
      [s[0]] + Insert(r, s[1..])
  }

  /** Inserting into a newest-first sequence keeps it newest first. */
  lemma {:induction false} InsertKeepsOrder(r: WeightRecord, s: seq<WeightRecord>)
    requires NewestFirst(s)
    ensures NewestFirst(Insert(r, s))
  {
    if s != [] && s[0].timestamp >= r.timestamp {
      var rest := Insert(r, s[1..]);
      InsertKeepsOrder(r, s[1..]);
      forall k | 0 <= k < |rest| ensures s[0].timestamp >= rest[k].timestamp {
        assert rest[k] in multiset(rest);
        if rest[k] != r {
          assert rest[k] in multiset(s[1..]);
          var j :| 0 <= j < |s[1..]| && s[1..][j] == rest[k];
          assert s[1..][j] == s[j + 1];
        }
      }
    }
  }

  /** The newest-first sort `list.sort(key=timestamp, reverse=True)` performs. */
  function SortNewestFirst(s: seq<WeightRecord>): (t: seq<WeightRecord>)
    ensures NewestFirst(t)
    ensures multiset(t) == multiset(s)
    ensures |t| == |s|
  {
    if s == [] then []
    else
      assert s == s[..|s| - 1] + [s[|s| - 1]];
      InsertKeepsOrder(s[|s| - 1], SortNewestFirst(s[..|s| - 1]));
      Insert(s[|s| - 1], SortNewestFirst(s[..|s| - 1]))
  }

  /** The entries `get_filtered_messages` reports, newest first. */
  function Selected(h: seq<WeightRecord>, mode: string, high: real, medium: real, limit: int): seq<WeightRecord> {
    if mode == "disabled" then []
    else Head(SortNewestFirst(Qualifying(h, mode, high, medium)), limit)
  }

  /** One context line: the time and excerpt, and the score and level only when the
      score is positive. */
  function ContextLine(r: WeightRecord, fmt: Render): string {
    var line := "[" + fmt.shortTime(r.timestamp) + "] " + r.message;
    if r.score > 0.0 then line + " (权重: " + fmt.score(r.score) + ", 等级: " + r.level + ")" else line
  }

  function ContextHeader(count: nat): string {
    "\n\n最近对话记录 (共 " + NatToString(count) + " 条):\n"
  }

  function Ids(s: seq<WeightRecord>): (ids: seq<string>)
    ensures |ids| == |s| && forall k :: 0 <= k < |s| ==> ids[k] == s[k].messageId
  {
    seq(|s|, k requires 0 <= k < |s| => s[k].messageId)
  }

  function Lines(s: seq<WeightRecord>, fmt: Render): (lines: seq<string>)
    ensures |lines| == |s| && forall k :: 0 <= k < |s| ==> lines[k] == ContextLine(s[k], fmt)
  {
    seq(|s|, k requires 0 <= k < |s| => ContextLine(s[k], fmt))
  }

  lemma LinesSnoc(s: seq<WeightRecord>, r: WeightRecord, fmt: Render)
    ensures Lines(s + [r], fmt) == Lines(s, fmt) + [ContextLine(r, fmt)]
    ensures Ids(s + [r]) == Ids(s) + [r.messageId]
  {
  }

  /** The context block for a selection: empty when nothing was selected, otherwise a
      header with the count and one line per entry. */
  function ContextText(sel: seq<WeightRecord>, fmt: Render): string {
    if sel == [] then "" else ContextHeader(|sel|) + Join(Lines(sel, fmt), "\n")
  }

  /** Selection reports nothing in disabled mode, at most `limit` entries, newest first,
      and every entry when no more than `limit` qualify. */
  lemma SelectedShape(h: seq<WeightRecord>, mode: string, high: real, medium: real, limit: int)
    ensures var sel := Selected(h, mode, high, medium, limit);
      && (mode == "disabled" ==> sel == [])
      && (limit >= 0 ==> |sel| <= limit)
      && NewestFirst(sel)
      && (mode != "disabled" && |Qualifying(h, mode, high, medium)| <= limit ==>
            multiset(sel) == multiset(Qualifying(h, mode, high, medium)))
  {
  }

  /** Every selected entry comes from the history and passes the mode's threshold. */
  lemma SelectedQualify(h: seq<WeightRecord>, mode: string, high: real, medium: real, limit: int)
    ensures var sel := Selected(h, mode, high, medium, limit);
      && multiset(sel) <= multiset(h)
      && (mode == "selective" ==> forall k :: 0 <= k < |sel| ==> sel[k].score >= high)
      && (mode == "balanced" ==> forall k :: 0 <= k < |sel| ==> sel[k].score >= medium)
  {
    var sel := Selected(h, mode, high, medium, limit);
    if mode != "disabled" {
      var q := Qualifying(h, mode, high, medium);
      var sorted := SortNewestFirst(q);
      assert sorted == sel + sorted[|sel|..];
      assert multiset(sel) <= multiset(q);
      QualifyingSub(h, mode, high, medium);
      forall k | 0 <= k < |sel| ensures Keeps(mode, high, medium, sel[k].score) {
        assert sel[k] in multiset(q);
      }
    }
  }

  /** Selection takes the newest qualifying entries: one that qualifies and is left out
      is no newer than any selected one. */
  lemma SelectedNewest(h: seq<WeightRecord>, mode: string, high: real, medium: real, limit: int, k: nat)
    requires mode != "disabled" && k < |h| && Keeps(mode, high, medium, h[k].score)
    requires h[k] !in Selected(h, mode, high, medium, limit)
    ensures forall j :: 0 <= j < |Selected(h, mode, high, medium, limit)| ==>
      Selected(h, mode, high, medium, limit)[j].timestamp >= h[k].timestamp
  {
    var sel := Selected(h, mode, high, medium, limit);
    var q := Qualifying(h, mode, high, medium);
    var sorted := SortNewestFirst(q);
    QualifyingComplete(h, mode, high, medium);
    assert h[k] in q;
    assert h[k] in multiset(sorted);
    assert h[k] in sorted;
    var m :| 0 <= m < |sorted| && sorted[m] == h[k];
    assert sel == sorted[..|sel|];
    assert m >= |sel|;
    forall j | 0 <= j < |sel| ensures sel[j].timestamp >= h[k].timestamp {
      assert sel[j] == sorted[j];
    }
  }

  /** The in-memory scorer. */
  class WeightService {
    const highThreshold: real
    const mediumThreshold: real
    const filterMode: string
    var messageWeights: map<string, seq<WeightRecord>>

    /** Every stored history respects the cap and the excerpt length. */
    ghost predicate Valid()
      reads this
    {
      forall u :: u in messageWeights ==> WellFormed(messageWeights[u])
    }

    static ghost predicate WellFormed(h: seq<WeightRecord>) {
      |h| <= HistoryCap
      && forall k :: 0 <= k < |h| ==> |h[k].message| <= ExcerptLen && |h[k].context| <= ExcerptLen
    }

    /** `message_weights.get(user_id, [])`. */
    function History(userId: string): seq<WeightRecord>
      reads this
    {
      if userId in messageWeights then messageWeights[userId] else []
    }

    constructor(config: WeightConfig)
      ensures Valid()
      ensures highThreshold == config.highThreshold.GetOr(DefaultHighThreshold)
      ensures mediumThreshold == config.mediumThreshold.GetOr(DefaultMediumThreshold)
      ensures filterMode == config.filterMode.GetOr(DefaultFilterMode)
      ensures messageWeights == map[]
    {
      highThreshold := config.highThreshold.GetOr(DefaultHighThreshold);
      mediumThreshold := config.mediumThreshold.GetOr(DefaultMediumThreshold);
      filterMode := config.filterMode.GetOr(DefaultFilterMode);
      messageWeights := map[];
    }

    /** `_save_weight`. */
    method SaveWeight(userId: string, messageId: string, message: string, context: string,
                      score: real, level: string, now: nat)
      requires Valid()
      modifies this
      ensures Valid()
      ensures messageWeights == old(messageWeights)[userId :=
        Appended(old(History(userId)), Entry(messageId, score, level, now, message, context))]
    {
      var h := History(userId) + [Entry(messageId, score, level, now, message, context)];
      if |h| > HistoryCap {
        h := h[|h| - HistoryCap..];
      }
      messageWeights := messageWeights[userId := h];
    }

    /** `_save_default_weight`. */
    method SaveDefaultWeight(userId: string, messageId: string, message: string, context: string, now: nat)
      returns (ok: bool, score: real, level: string)
      requires Valid()
      modifies this
      ensures Valid()
      ensures ok && (score, level) == DefaultWeight(message)
      ensures messageWeights == old(messageWeights)[userId :=
        Appended(old(History(userId)), Entry(messageId, score, level, now, message, context))]
    {
      if |message| > 20 {
        score, level := 50.0, "medium";
      } else {
        score, level := 20.0, "low";
      }
      SaveWeight(userId, messageId, message, context, score, level, now);
      ok := true;
    }

    /** `evaluate_message`: answered from the history when the id is there, otherwise
        scored by the model (or the length rule) and saved. */
    method EvaluateMessage(lib: Lib, llm: Llm, userId: string, messageId: string,
                           message: string, context: string, now: nat)
      returns (ok: bool, score: real, level: string, asked: Option<Query>)
      requires Valid()
      modifies this
      ensures Valid()
      ensures var e := Evaluate(old(History(userId)), lib, llm, messageId, message, context, now);
        && ok == e.ok && score == e.score && level == e.level && asked == e.asked
        && messageWeights == if e.saved then old(messageWeights)[userId := e.history] else old(messageWeights)
    {
      var userMessages := History(userId);
      var i := 0;
      while i < |userMessages|
        invariant 0 <= i <= |userMessages|
        invariant forall j :: 0 <= j < i ==> userMessages[j].messageId != messageId
      {
        if userMessages[i].messageId == messageId {
          assert Cached(userMessages, messageId) == Some(i);
          return true, userMessages[i].score, userMessages[i].level, None;
        }
        i := i + 1;
      }
      assert Cached(userMessages, messageId).None?;
      var q := WeightQuery(message, context);
      asked := Some(q);
      var reply := llm(q);
      if !reply.ok {
        ok, score, level := SaveDefaultWeight(userId, messageId, message, context, now);
        return;
      }
      var judged := ReadReply(lib, reply, message);
      if judged.None? {
        ok, score, level := SaveDefaultWeight(userId, messageId, message, context, now);
        return;
      }
      match judged.value
      case Crashed(error) =>
        return false, 0.0, error, asked;
      case Scored(s, l) =>
        score, level := s, l;
        SaveWeight(userId, messageId, message, context, score, level, now);
        ok := true;
    }

    /** The part of `evaluate_message` after a successful reply: parse it (None when
        that fails) and convert the score with `float()`, which may raise. */
    static method ReadReply(lib: Lib, reply: Reply, message: string) returns (r: Option<Judgement>)
      requires reply.ok
      ensures r.None? <==> ParseWeightResponse(lib, reply.text).None?
      ensures r.None? ==> Judge(lib, reply, message) == Scored(DefaultWeight(message).0, DefaultWeight(message).1)
      ensures r.Some? ==> r.value == Judge(lib, reply, message)
    {
      var result := ParseWeightResponse(lib, reply.text);
      if result.None? {
        return None;
      }
      match result.value
      case KeyValue(s, l) =>
        r := Some(Scored(s, l.GetOr("low")));
      case JsonDict(fields) =>
        var raw := fields["weight_score"];
        var x := FloatOf(lib, raw);
        if x.None? {
          return Some(Crashed("评估权重失败: " + lib.floatError(raw)));
        }
        r := Some(Scored(x.value, if "weight_level" in fields then TextOf(lib, fields["weight_level"]) else "low"));
    }

    /** `get_filtered_messages`: the context block and the ids of the selected entries. */
    method GetFilteredMessages(userId: string, limit: int, fmt: Render)
      returns (text: string, ids: seq<string>)
      ensures var sel := Selected(History(userId), filterMode, highThreshold, mediumThreshold, limit);
        ids == Ids(sel) && text == ContextText(sel, fmt)
    {
      if filterMode == "disabled" {
        return "", [];
      }
      var userMessages := History(userId);
      var filtered := FilterHistory(userMessages, filterMode, highThreshold, mediumThreshold);
      filtered := Head(SortNewestFirst(filtered), limit);
      assert filtered == Selected(History(userId), filterMode, highThreshold, mediumThreshold, limit);
      if filtered == [] {
        return "", [];
      }
      var contexts;
      contexts, ids := RenderLines(filtered, fmt);
      text := ContextHeader(|contexts|) + Join(contexts, "\n");
    }

    /** The first loop of `get_filtered_messages`: the entries the mode keeps, in
        history order. */
    static method FilterHistory(userMessages: seq<WeightRecord>, mode: string, high: real, medium: real)
      returns (filtered: seq<WeightRecord>)
      ensures filtered == Qualifying(userMessages, mode, high, medium)
    {
      filtered := [];
      var i := 0;
      while i < |userMessages|
        invariant 0 <= i <= |userMessages|
        invariant filtered == Qualifying(userMessages[..i], mode, high, medium)
      {
        var r := userMessages[i];
        QualifyingStep(userMessages, i, mode, high, medium);
        ghost var keep := Keeps(mode, high, medium, r.score);
        if mode == "selective" {
          assert keep == (r.score >= high);
          if r.score >= high {
            filtered := filtered + [r];
          }
        } else if mode == "balanced" {
          assert keep == (r.score >= medium);
          if r.score >= medium {
            filtered := filtered + [r];
          }
        } else {
          assert keep;
          filtered := filtered + [r];
        }
        assert filtered == Qualifying(userMessages[..i], mode, high, medium) + if keep then [r] else [];
        i := i + 1;
      }
      assert userMessages[..i] == userMessages;
    }

    /** The second loop of `get_filtered_messages`: one context line and one id per
        selected entry, in order. */
    static method RenderLines(filtered: seq<WeightRecord>, fmt: Render)
      returns (contexts: seq<string>, ids: seq<string>)
      ensures contexts == Lines(filtered, fmt) && ids == Ids(filtered)
    {
      contexts, ids := [], [];
      var i := 0;
      while i < |filtered|
        invariant 0 <= i <= |filtered|
        invariant contexts == Lines(filtered[..i], fmt)
        invariant ids == Ids(filtered[..i])
      {
        var r := filtered[i];
        var line := "[" + fmt.shortTime(r.timestamp) + "] " + r.message;
        if r.score > 0.0 {
          line := line + " (权重: " + fmt.score(r.score) + ", 等级: " + r.level + ")";
        }
        assert line == ContextLine(r, fmt);
        assert filtered[..i + 1] == filtered[..i] + [r];
        LinesSnoc(filtered[..i], r, fmt);
        contexts := contexts + [line];
        ids := ids + [r.messageId];
        i := i + 1;
      }
      assert filtered[..i] == filtered;
    }
  }
}
