# Impression and affection plugin: the enrichment pipeline

This project models the per-message enrichment pipeline of the impression/affection
chat plugin and proves properties about it. After every model reply, the
`ImpressionUpdateHandler` takes the user's message and runs these steps:

1. It checks whether the message was already processed.
2. It scores the message's importance through the language model (`WeightService`),
   keeping a capped in-memory history per user.
3. It selects recent admissible history as context.
4. When the filter mode admits the score, it asks the model for an eight-dimension
   text profile, parses it and upserts the profile row (`TextImpressionService`).
5. It counts the message in the user's state row and records the context ids and the
   message id as processed (`MessageService`).

Two read-only tools render a profile: a three-step lookup and a keyword search.

The language model is a total function `Query -> Reply` passed in by the caller.
`json.loads`, `float()` of a string, `str()` of a decoded value, `strftime` and
`.1f` are abstract function fields (`Oracle.Lib`, `Oracle.Render`). Timestamps are
`nat` values supplied by the caller. Storage is one `Storage.Database` object with a
map of profile rows, a map of state rows (with their insertion order) and the set of
processed `(user_id, message_id)` pairs. A storage error is a boolean `fault`
parameter at the place where the source catches it.

Modules, one per source file:
- `Text`: string helpers, `str.strip` and `lower`.
- `Oracle`: the model and library boundary.
- `WeightFilter`: services/weight_service.py.
- `Impressions`: services/text_impression_service.py.
- `Messages`: services/message_service.py.
- `MessageStates`: models/user_message_state.py.
- `Profiles`: models/user_impression.py.
- `Storage`: the peewee tables as one object.
- `Helpers`: utils/helpers.py.
- `Plugin`: plugin.py.
- `Tools`: components/tools.py.

Three behaviours of the code that the model follows as written:
- A repeated message id is answered from the history and is not appended again.
- `_save_impression` overwrites all eight dimensions, writing `""` for a dimension
  the parse did not produce. It does not leave such a dimension untouched.
- An unknown filter mode keeps every entry in `get_filtered_messages`, but the
  admission rule in `handle` admits no score under it.

## Model

| member | source | states |
|---|---|---|
| WeightFilter.WeightService.constructor | services/weight_service.py:15-27 | thresholds and mode take the configured values or the defaults 70.0, 40.0 and `selective`; the history map starts empty |
| WeightFilter.WeightService.SaveWeight | services/weight_service.py:142-155 | the user's history becomes the old history plus the new entry, keeping the newest 100; excerpts are the first 100 characters; the cap invariant is preserved |
| WeightFilter.Appended | services/weight_service.py:144-155 | the appended history equals the last 100 of old history followed by the entry |
| WeightFilter.AppendAllKeepsNewest | services/weight_service.py:144-155 | any sequence of appends one at a time leaves exactly the last 100 of everything appended, in insertion order |
| WeightFilter.LastN | services/weight_service.py:154-155 | the result has length min(len, n) and is the tail of the input |
| WeightFilter.WeightService.SaveDefaultWeight | services/weight_service.py:157-168 | returns success with the length-rule score and level and appends exactly one entry |
| WeightFilter.DefaultWeight | services/weight_service.py:159-165 | more than 20 characters gives (50.0, `medium`), otherwise (20.0, `low`) |
| WeightFilter.WeightService.EvaluateMessage | services/weight_service.py:29-75 | the results and the new history are those of `Evaluate` on the old history |
| WeightFilter.EvaluateCacheHit | services/weight_service.py:44-47 | the model is not asked iff the id is in the history; then the stored score and level are returned, nothing is saved and the history is unchanged |
| WeightFilter.EvaluateMiss | services/weight_service.py:49-75 | on a miss the model is asked with the message and context; an entry is saved iff the outcome is a success; a failure has score 0.0 and leaves the history unchanged; an unreachable model gives the length default; the cap holds |
| WeightFilter.Judge | services/weight_service.py:55-72 | a failed call or a failed parse gives the length default; a key-value reading gives its score and its level, `low` when no level was found; a JSON reading gives `float()` of `weight_score` and `weight_level` (`low` when absent), or the `评估权重失败: ` error when `float()` raises, which happens only on a JSON result |
| WeightFilter.WeightService.ReadReply | services/weight_service.py:59-68 | returns nothing iff the parse fails, otherwise the judgement of the reply |
| WeightFilter.ParseWeightResponse | services/weight_service.py:87-140 | a stripped reply shorter than 10 characters gives None; a key-value score is non-negative; a JSON result holds `weight_score` |
| WeightFilter.ParsedScore | services/weight_service.py:104-122 | with a `WEIGHT_SCORE:` match the result is a key-value reading of the first match's token, 0.0 when `float()` rejects the token; the level is the lowercased token of the first `WEIGHT_LEVEL:` match, absent iff there is none |
| WeightFilter.ParsedJson | services/weight_service.py:120-137 | without any `WEIGHT_SCORE:` match the result is the JSON fallback on the stripped reply, so never a key-value reading |
| WeightFilter.JsonFallback | services/weight_service.py:123-137 | a result is the JSON object decoded from the slice between the first `{` and the last `}`, the `{` coming first, and holds `weight_score` |
| WeightFilter.JsonFallbackFinds | services/weight_service.py:123-137 | when the slice from the first `{` to the last `}` decodes to an object holding `weight_score`, that object is the result |
| WeightFilter.ScoreToken | services/weight_service.py:104 | the captured score token is non-empty and made of digits and dots |
| WeightFilter.LevelToken | services/weight_service.py:105 | the captured level token is non-empty and made of word characters |
| WeightFilter.ParseDecimal | services/weight_service.py:110-113 | `float()` of the token succeeds iff it has at most one dot and is not only a dot; a value is non-negative |
| WeightFilter.DotFree | services/weight_service.py:104 | a token without a dot is all digits |
| WeightFilter.SplitAtDot | services/weight_service.py:104 | splitting a token at a dot leaves two digit-and-dot tokens and accounts for every dot |
| WeightFilter.Cached | services/weight_service.py:44-47 | the index found is the first entry with the id; None iff no entry has it |
| WeightFilter.WeightService.GetFilteredMessages | services/weight_service.py:170-223 | the ids and the text are those of `Selected` on the user's history |
| WeightFilter.WeightService.FilterHistory | services/weight_service.py:188-199 | the loop collects exactly `Qualifying` of the history |
| WeightFilter.WeightService.RenderLines | services/weight_service.py:209-219 | one line and one id per selected entry, in order |
| WeightFilter.Qualifying | services/weight_service.py:188-199 | every kept entry passes the mode's threshold and none is invented |
| WeightFilter.QualifyingSnoc | services/weight_service.py:189-199 | filtering one more entry appends it iff the mode keeps it |
| WeightFilter.QualifyingStep | services/weight_service.py:189-199 | the same step stated for a growing prefix of the history |
| WeightFilter.QualifyingSub | services/weight_service.py:188-199 | the kept entries are a sub-multiset of the history |
| WeightFilter.QualifyingComplete | services/weight_service.py:188-199 | every entry the mode keeps is in the result |
| WeightFilter.Insert | services/weight_service.py:202 | inserting adds exactly one entry to the multiset |
| WeightFilter.InsertKeepsOrder | services/weight_service.py:202 | inserting into a newest-first sequence keeps it newest-first |
| WeightFilter.SortNewestFirst | services/weight_service.py:202 | the sort result is newest-first and a permutation of its input |
| WeightFilter.SelectedShape | services/weight_service.py:181-206 | nothing is selected in disabled mode, at most `limit` entries are selected, newest first, and all qualifying entries when no more than `limit` qualify |
| WeightFilter.SelectedQualify | services/weight_service.py:188-203 | selected entries come from the history and meet the high (selective) or medium (balanced) threshold |
| WeightFilter.SelectedNewest | services/weight_service.py:201-203 | a qualifying entry left out is no newer than any selected one |
| WeightFilter.Ids | services/weight_service.py:219 | the id list matches the selected entries one by one |
| WeightFilter.Lines | services/weight_service.py:215-218 | the line list matches the selected entries one by one |
| WeightFilter.LinesSnoc | services/weight_service.py:212-219 | one more entry adds one line and one id |
| Impressions.BuildImpression | services/text_impression_service.py:21-55 | a failed call reports `LLM调用失败` and an empty parse `解析失败`, both leaving profiles untouched; success iff the call succeeds and the parse is non-empty, then reports `印象构建成功` and the profiles are the saved rows |
| Impressions.BuildPrompt | services/text_impression_service.py:57-73 | a template is used iff the configured one is not blank; history is cut to 500 with a template and to 300 without; the message is cut to 200; both are prefixes |
| Impressions.ParseImpressionResponse | services/text_impression_service.py:75-128 | when any dimension is found, the map holds exactly the found dimensions and their values; otherwise it is the `IMPRESSION:` value under interests, or empty |
| Impressions.DimensionValue | services/text_impression_service.py:102-107 | a dimension is found iff its field matches with a value that is non-empty and not `待观察` |
| Impressions.DimensionValueShape | services/text_impression_service.py:90-107 | a parsed value is non-empty, not `待观察`, has no `;`, has no whitespace at either end and occurs in the model's reply |
| Impressions.ExtractedInAnswer | services/text_impression_service.py:84-105 | a field value matched in the stripped reply has no `;`, has stripped edges and occurs in the unstripped reply |
| Impressions.ExtractedPiece | services/text_impression_service.py:103-105 | a matched field value has no `;`, has stripped edges and occurs in the searched text |
| Impressions.ExtractFieldLeftmost | services/text_impression_service.py:103-105 | nothing is extracted iff no position matches; otherwise the value is the one at the leftmost match |
| Impressions.FirstField | services/text_impression_service.py:103 | the position found is the leftmost match; None iff no position matches |
| Impressions.FieldValueAt | services/text_impression_service.py:91-105 | the value at a match occurs in the text, has no `;` and has stripped edges |
| Impressions.StrippedRun | services/text_impression_service.py:91-105 | the stripped `[^;]+` run occurs in the text, has no `;` and has stripped edges |
| Impressions.StrippedRunFacts | services/text_impression_service.py:91-105 | the same facts proved about stripping the run |
| Impressions.RunFrom | services/text_impression_service.py:91 | the run is a piece of the text without `;`, and it ends at a `;` or at the end |
| Impressions.PieceOfPiece | services/text_impression_service.py:84-105 | a piece of a piece of the reply is a piece of the reply |
| Impressions.AllFound | services/text_impression_service.py:101-108 | the dictionary filled by the loop holds exactly the dimensions found |
| Impressions.NoneFound | services/text_impression_service.py:110-115 | an empty dictionary means no dimension was found |
| Impressions.SaveImpression | services/text_impression_service.py:130-164 | without an error the row becomes the upserted row; with a save error only the row created by `get_or_create` remains; other tables are unchanged |
| Impressions.Refill | services/text_impression_service.py:143-160 | all eight dimensions are overwritten from the parse, the count becomes 1 or grows by 1, and both timestamps are set |
| Impressions.Merged | services/text_impression_service.py:144-151 | each dimension is the parsed value when there is one and `""` otherwise |
| Impressions.UpsertedSpec | services/text_impression_service.py:134-161 | a created row has score 50.0, level `一般` and count 1; an existing row keeps its score, level and creation time and its count grows by 1 |
| Impressions.DimensionUpdateSpec | services/text_impression_service.py:176-186 | success iff the user exists and the key is known; an unknown user gets `用户不存在`; on success only that dimension of that user changes |
| Impressions.UpdateDimension | services/text_impression_service.py:176-186 | the corrected update leaves the rows of `DimensionUpdate` in the store |
| Impressions.UpdateDimensionAsWritten | services/text_impression_service.py:176-186 | the code as written reports the same outcome but does not write the store |
| Impressions.UpdateDimensionAsWrittenLoses | services/text_impression_service.py:183-184 | a concrete case where a success is reported while the store keeps the old value |
| Impressions.GetDimension | services/text_impression_service.py:188-197 | an unknown user gets `用户不存在`; otherwise the stored dimension by short key |
| Impressions.GetImpressionSummary | services/text_impression_service.py:199-208 | an unknown user gets `暂无用户印象数据`; otherwise the row's summary |
| Messages.UpdateMessageState | services/message_service.py:17-45 | creates the state lazily and advances it; a storage error changes nothing; other tables are unchanged |
| Messages.Advance | services/message_service.py:30-39 | the loaded state becomes `Advanced` of the old one |
| Messages.AdvancedIsCounted | services/message_service.py:30-39 | the service's inline update is `increment_counters` plus setting the last message id |
| Messages.RecordProcessedMessage | services/message_service.py:47-81 | returns true iff there was no error and the pair was new; the pair is then inserted, otherwise nothing changes |
| Messages.Recorded | services/message_service.py:59-81 | inserted iff there is no error and the pair is absent; the new set is the old one plus the pair exactly then |
| Messages.RecordTwice | services/message_service.py:61-77 | recording a new pair twice returns true then false and inserts it once |
| Messages.RecordedIsProcessed | services/message_service.py:61-103 | after recording, the pair is present unless an error struck; a present pair is never inserted again |
| Messages.IsMessageProcessed | services/message_service.py:83-103 | true only for a recorded pair; a storage error reads as false |
| Messages.GetMessageState | services/message_service.py:105-118 | returns the stored state or creates it, appending a new user to the state order and leaving the order alone otherwise; a storage error gives None and changes nothing |
| MessageStates.UserMessageState.constructor | models/user_message_state.py:13-23 | a new state has all four counters 0 and no last id or time |
| MessageStates.UserMessageState.IncrementCounters | models/user_message_state.py:29-40 | the state becomes `Counted` of the old one |
| MessageStates.CountedSpec | models/user_message_state.py:29-40 | both totals grow by exactly 1; each update counter grows by 1 iff its flag is set; no counter decreases; equal totals stay equal; the time is set and the last id is untouched |
| Profiles.UserImpression.constructor | models/user_impression.py:13-35 | a new profile has eight empty dimensions, score 50.0, level `一般` and count 0 |
| Profiles.UserImpression.UpdateTimestamps | models/user_impression.py:44-46 | only `updated_at` changes |
| Profiles.UserImpression.SetDimension | models/user_impression.py:71-88 | a known key sets exactly that dimension and `updated_at`; an unknown key raises `未知维度` and changes nothing |
| Profiles.UserImpression.GetDimension | models/user_impression.py:90-103 | a known short key reads the field of the dimension it names; an unknown key reads `""` |
| Profiles.UserImpression.Summary | models/user_impression.py:48-69 | the summary is `暂无印象数据` iff all eight dimensions are blank, and it lists a dimension's segment iff that dimension is non-blank |
| Profiles.SummaryListsAll | models/user_impression.py:48-69 | every dimension's segment is listed iff the dimension is non-blank |
| Profiles.KeyToDimension | models/user_impression.py:73-84 | a short key maps to the dimension with that key; None iff no dimension has it |
| Profiles.Dims.With | models/user_impression.py:84-85 | setting one dimension leaves every other one unchanged |
| Profiles.Lookup | models/user_impression.py:90-103 | an unknown key reads as `""` |
| Profiles.SetThenGet | models/user_impression.py:71-103 | getting a key after setting it returns what was set; every other key reads as before |
| Profiles.SummaryLists | models/user_impression.py:50-67 | a dimension's labelled segment is in the summary list iff the dimension is not blank |
| Profiles.SegmentsOverMembers | models/user_impression.py:50-67 | the same, over any list of dimensions containing it |
| Profiles.SegmentsOverOthers | models/user_impression.py:50-67 | a dimension outside the list contributes no segment |
| Profiles.SegmentsOverEmpty | models/user_impression.py:50-69 | the segment list is empty iff every listed dimension is blank |
| Profiles.SegmentHead | models/user_impression.py:52-67 | different dimensions give different segments |
| Profiles.SegmentOwner | models/user_impression.py:50-67 | every segment in the list belongs to a dimension |
| Profiles.SummaryPlaceholder | models/user_impression.py:69 | the summary is `暂无印象数据` iff every dimension is blank |
| Profiles.SummaryNotPlaceholder | models/user_impression.py:69 | a non-blank dimension rules out the placeholder |
| Profiles.AllDimensionsListed | models/user_impression.py:50-67 | the fixed order lists every dimension |
| Profiles.LabelHead | models/user_impression.py:53-66 | no label starts like the placeholder |
| Profiles.JoinHead | models/user_impression.py:69 | a join starts with the first part's first character |
| Storage.Database.GetOrCreateProfile | services/text_impression_service.py:134-141 | returns the stored row, or creates the default row iff the user had none |
| Storage.Database.GetOrCreateState | services/message_service.py:28 | returns the stored state, or creates a new one iff the user had none, appending the user to the state order |
| Storage.Database.SaveProfile | services/text_impression_service.py:161 | writes the row back under its user id |
| Storage.Database.SaveState | services/message_service.py:41 | writes the state back under its user id |
| Storage.Database.InsertRecord | services/message_service.py:70-75 | adds exactly the pair to the processed set |
| Storage.Database.FindProfile | components/tools.py:58-60 | a row is found iff the user has one, and it is that row |
| Helpers.AffectionLevel | utils/helpers.py:8-29 | a non-number gets `一般`; otherwise the label of the first band, in table order, holding the score with both ends inclusive, and `一般` when none holds it |
| Helpers.SomeBandHolds | utils/helpers.py:25-27 | a gap-free table covering a range holds every score in that range |
| Helpers.BandCoverage | utils/helpers.py:25-27 | with a gap-free table covering [0, 100], every score in range gets a band's label |
| Helpers.SharedBoundary | utils/helpers.py:25-27 | a shared boundary goes to the earlier band |
| Helpers.ValidateConfig | utils/helpers.py:32-50 | success iff every required key is present and truthy, with an empty message; otherwise the complaint about the first failing key in list order |
| Plugin.ImpressionUpdateHandler.constructor | plugin.py:68-85 | the handler starts with a fresh scorer built from the configuration |
| Plugin.ImpressionUpdateHandler.Handle | plugin.py:86-227 | early exits change nothing; an already processed message is skipped; otherwise the scorer, the profiles, the states and the processed set end as the pipeline prescribes, with the profile rebuilt only when admitted and the build succeeds |
| Plugin.ImpressionUpdateHandler.Proceed | plugin.py:142-223 | the same final state for a message that passed the checks |
| Plugin.ImpressionUpdateHandler.Enrich | plugin.py:144-196 | scoring, selection and the admitted profile build, with `built` true iff admitted, the call succeeded and the parse is non-empty; states and records are untouched |
| Plugin.ImpressionUpdateHandler.Record | plugin.py:212-221 | the state is advanced with the two flags, then every context id and the message id are recorded |
| Plugin.ImpressionUpdateHandler.RecordAll | plugin.py:218-219 | the loop adds exactly the user's pairs for the context ids, or nothing under a storage error |
| Plugin.Pairs | plugin.py:218-221 | a pair is added iff it belongs to the user and one of the ids |
| Plugin.PairsSnoc | plugin.py:218-221 | recording one more id adds exactly its pair |
| Plugin.PairsStep | plugin.py:218-219 | the same step for a growing prefix of the ids |
| Plugin.EarlyExit | plugin.py:119-131 | the handler continues iff the user id and the extracted content are non-empty; otherwise it returns one of the three early messages, choosing by how the id was probed |
| Plugin.AdmitsVersusKeeps | plugin.py:163-179 | in selective and balanced modes admission and the context filter agree; disabled admits every score but selects no context; any other mode admits nothing but keeps every entry |
| Plugin.ExtractMessageContent | plugin.py:229-241 | the content has stripped edges and is a piece of the raw text |
| Plugin.PlainTextWins | plugin.py:233-234 | a non-empty plain text decides the content, whatever the segments |
| Plugin.SegmentsJoined | plugin.py:235-239 | without a plain text, segments that all carry data are joined by single spaces and stripped |
| Plugin.NothingToExtract | plugin.py:229-241 | no plain text and no segments give empty content |
| Plugin.SegmentTexts | plugin.py:236-239 | a text is listed iff some segment carries it as its data, so segments without data contribute nothing; never more texts than segments |
| Plugin.SegmentTextsAppend | plugin.py:236-239 | the segment texts of a concatenation are the concatenation of the texts |
| Plugin.SegmentTextsData | plugin.py:236-239 | all segments with data give exactly their data in order; none with data gives nothing |
| Plugin.Execute | plugin.py:63-66 | always `(True, True, None, result, None)`; the result text and the final scorer and tables are those `Handle` promises: the early-exit texts and `消息已处理，跳过` change nothing, and `印象和好感度更新完成` is returned iff the message passed the checks and was not processed, with the scorer's history, the profile rows, the advanced state and the recorded ids as `Handle` gives them |
| Tools.GetUserImpression | components/tools.py:37-180 | a missing id gives the error content without a lookup; otherwise the match follows the three-step order, a match renders its report, and no match renders the not-found text with the debug listing |
| Tools.FindProfileFor | components/tools.py:52-97 | the direct match first, then the first of up to 10 state users with a profile, then a most recently updated profile; each step fails alone on its storage error |
| Tools.SearchStates | components/tools.py:68-87 | the first id in the window that has a profile |
| Tools.FirstWithProfile | components/tools.py:74-84 | the index found is the first id with a profile; None iff none has one |
| Tools.NewestExists | components/tools.py:92 | a non-empty profile table has a most recently updated row |
| Tools.NotFoundOnlyWhenEmpty | components/tools.py:57-97 | the lookup matches nothing only when the queried id has no profile, none of the latest states' ids has one and the table is empty, each unless a storage error struck that step |
| Tools.DisplayId | components/tools.py:106-108 | the id is annotated iff a non-empty matched id differs from the query |
| Tools.RenderReport | components/tools.py:101-142 | the report is built with the listed details, the summary and the affection and count lines |
| Tools.ListDimensions | components/tools.py:123-126 | the loop lists exactly the shown dimensions, in fixed order |
| Tools.KeepTest | components/tools.py:124-125 | the test in the loop is the listing predicate |
| Tools.ShownMembers | components/tools.py:123-126 | a dimension is listed iff it is in the order and passes the test |
| Tools.ShownEmpty | components/tools.py:128 | the listing is empty iff no dimension passes |
| Tools.ShownNarrows | components/tools.py:233-236 | a stricter test lists a subset, never more lines |
| Tools.ShownStep | components/tools.py:123-126 | one more dimension is appended iff it passes |
| Tools.DetailLinesSnoc | components/tools.py:126 | one more listed dimension adds one line |
| Tools.DetailsShow | components/tools.py:123-126 | a dimension gets a detail line iff it is not blank |
| Tools.DetailsAgreeWithSummary | components/tools.py:101-128 | the details are `暂无详细数据` exactly when the summary is `暂无印象数据` |
| Tools.MatchesAreDetails | components/tools.py:231-236 | every search match is also a detail line |
| Tools.DebugInfo | components/tools.py:143-166 | the debug text lists the first 5 states in order, `无用户记录` for none, or the failure text |
| Tools.DebugText | components/tools.py:150-158 | without an error the text is `无用户记录` iff there are no states |
| Tools.StateEntries | components/tools.py:152-153 | one entry per listed state, in order |
| Tools.StateEntriesStep | components/tools.py:152-153 | one more state adds one entry |
| Tools.SearchImpressions | components/tools.py:195-255 | missing arguments give `错误：缺少必要参数`; a storage error is reported; a user without a profile gets `暂无印象数据`; otherwise the search report |
| Tools.SearchFinds | components/tools.py:231-236 | a dimension matches iff its stripped content is non-empty and contains the keyword, both lowercased |
| Text.Lower | components/tools.py:231-235 | lowercasing keeps the length and maps each character |
| Text.LowerChar | components/tools.py:231-235 | ASCII capitals become lowercase, everything else is kept |
| Text.TrimStart | plugin.py:241 | the result does not start with whitespace |
| Text.TrimStartIsSuffix | plugin.py:241 | left-stripping leaves the tail of the text |
| Text.TrimStartRemovesSpace | plugin.py:241 | what left-stripping removes is whitespace |
| Text.TrimEnd | plugin.py:241 | the result is a head of the text that does not end with whitespace |
| Text.TrimEndRemovesSpace | plugin.py:241 | what right-stripping removes is whitespace |
| Text.BlankIffStripsEmpty | models/user_impression.py:52 | a text is all whitespace iff it strips to empty |
| Text.StripEdges | plugin.py:241 | a stripped text neither starts nor ends with whitespace |
| Text.StripAt | plugin.py:241 | a stripped text is a piece of the original where the leading whitespace ends |
| Text.NatToString | services/weight_service.py:221 | the count is rendered as decimal digits that read back as the number, with no leading zero |
| Tools.IntToString | components/tools.py:139 | a non-negative count is rendered as digits that read back as it; a negative one as `-` followed by the digits of its magnitude |
| Text.Prefix | services/text_impression_service.py:63-71 | a slice `[:n]` is a prefix of length min(len, n) |
| Text.Head | services/weight_service.py:203 | a slice `[:limit]` is a prefix of the right length for both signs of `limit` |

## Left out

- The language model client (network, timeouts, credentials) is the `llm` parameter. The wording of the prompts is not modelled, only what goes into them.
- `template.format` errors (a template with an unknown placeholder raises) are not modelled: a template is taken to format.
- peewee and SQLite are one in-memory `Database` object. The unique index on processed pairs is the set itself.
- The `hasattr` probing of the event is reduced to `Event(direct, userId, message)`. The time-derived message id is a parameter.
- `json.loads`, `float()` of a string, `str()` of a value, `strftime` and `.1f` are abstract functions (`Oracle.Lib`, `Oracle.Render`).
- `safe_json_parse` in utils/helpers.py is not part of this model; nothing in the pipeline calls it.
- async/await, logging and `print` are left out; every step runs in order.
- The affection service is not part of this model. Whether its update succeeded is the `affectionOk` input of `Handle`, and the affection score is never changed by the model.
- The `AFFECTION_LEVELS` table is not part of this model. `Helpers.AffectionLevel` takes the bands as a parameter.
- The configuration schema is left out beyond the three defaults of the weight filter.
- Only the storage errors the source catches inside the pipeline are modelled. Each is one flag per step, not a position inside the step.
- The outer `except` of `handle`, `build_impression` and `get_user_impression` is not modelled. Nothing modelled raises there except `float()` of a JSON score, which `evaluate_message` catches itself. The outer `except` of `search_impressions` is modelled: an error of its profile query becomes `搜索印象失败: …` in `Tools.SearchImpressions`.
- The save fault of `_save_impression` is `save()` raising, after `get_or_create` has made its row. An error inside `get_or_create`, which leaves no row, is not modelled.
- Text.LowerChar: case folding and `re.IGNORECASE` are ASCII-only. Python also folds non-ASCII letters.
- WeightFilter.ScoreToken: `\d` is modelled as the ASCII digits only. Python's `\d` also matches other Unicode decimal digits.
- WeightFilter.LevelToken: `\w` is modelled as ASCII letters, digits and `_`, plus every non-ASCII character that is not whitespace. Python excludes non-ASCII punctuation such as `，` from `\w`.
- WeightFilter.ParseDecimal: the value of a decimal token is exact. Floating-point rounding, NaN and infinity are not modelled.
- WeightFilter.ParseWeightResponse: its own contract states the length bound and the result shapes. Which match is read, the 0.0 for a rejected token, the level and the JSON fallback are stated by `WeightFilter.ParsedScore` and `WeightFilter.ParsedJson`.
- WeightFilter.SortNewestFirst: ties are not specified. Python's sort is stable, so entries with equal timestamps keep their history order; the contract states only newest-first and a permutation, so it does not fix which tied entries the `limit` cut keeps.
- Tools.FindProfileFor: a tie for the most recent `updated_at` may return any of the tied rows. The database's own tie-break is not modelled.
- `select().limit(n)` without an `order_by` is modelled as the first `n` state rows in insertion order. SQLite does not promise that order.
- Impressions.ParseImpressionResponse: the shape of each parsed value (no `;`, stripped, found in the reply) is proved per dimension by `Impressions.DimensionValueShape`, not in the map's own contract.
- Impressions.BuildImpression: it reports `印象构建成功` on success. The `impression` key it reads is never produced by the parser, so the model does not look it up.

## Findings

| source | as written | input that shows it | evidently intended | confidence | as-written member | corrected member |
|---|---|---|---|---|---|---|
| services/text_impression_service.py:176-186 | `update_dimension` calls `set_dimension` on the loaded row and returns success, but never calls `save()`, so the stored profile keeps the old value | a stored profile for `u` with an empty personality, then `update_dimension("u", "personality", "开朗")` | the new value is written to the store, with every other dimension and user unchanged | not executed | Impressions.UpdateDimensionAsWrittenLoses | Impressions.DimensionUpdateSpec |
