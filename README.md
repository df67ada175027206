# Story transformation backend, modelled in Dafny

This project models the server of a story-sharing installation for people
living with multiple sclerosis. A visitor submits a personal story; the
server checks that it is on topic, asks a generative model to rewrite it
as a short uplifting message, and scores the rewrite. It picks a decorative
emoji theme, stores the story as pending and notifies the moderator
consoles. A moderator then approves or rejects the story, and an approval
is broadcast to the public displays.

The model follows `backend/main.py` module by module:

- `Text`: Python's substring test, `str.lower()` and `str.strip()`, and an
  `Option` type.
- `Relevance`: `is_relevant_content`, the keyword gate for off-topic text.
- `Themes`: `get_emoji_theme`, the first-match keyword classifier.
- `Quality`: `assess_quality`, the advisory score.
- `Transformer`: `analyze_story` and `generate_enhanced`. The generative
  model is an oracle `Prompt -> CallOutcome`, and JSON decoding of the
  analysis reply is a second oracle `string -> ParseOutcome`. A branch
  that makes no call is one whose result does not depend on the oracle.
- `Connections`: the `ConnectionManager` class with its two connection
  lists. It keeps a delivery log of every send attempted. Which sends
  fail is an oracle, the set of connections whose `send_json` raises.
- `Stories`: the `stories` table as a map from id to row, inside a
  `StoryService` class that implements `submit_story`, `moderate_story`
  and `get_stats`. New ids follow SQLite's AUTOINCREMENT, one past the
  last id handed out. Timestamps are a `now` parameter.
- `Scenario`: two end-to-end runs, a too-short submission and a
  successful one.

Python's `in` as a substring test is modelled by `Text.Contains`, proved
equal to "has an occurrence at some index" (`Text.ContainsIff`).

Each prompt is sent to the model once. There is no retry and no second
model: a failed call goes straight to its fixed fallback.

## Model

| member | source | states |
|---|---|---|
| Text.Contains | backend/main.py:133 | Python's `key in text` as a scan over the suffixes of the text; what it means is stated by Text.ContainsIff |
| Text.ContainsIff | backend/main.py:133 | the scanning substring test used for `keyword in text` holds exactly when the key occurs at some index of the text |
| Text.ContainsTransitive | backend/main.py:133 | whatever occurs inside an occurring key occurs in the text |
| Text.PrefixContained | backend/main.py:124 | a prefix of an occurring keyword occurs too (so "βουλή" is found wherever "βουλής" is) |
| Text.AnyContains | backend/main.py:149 | `any(word in text for word in words)` is true exactly when some listed word occurs in the text |
| Text.Lower | backend/main.py:130 | `text.lower()` maps character by character, so the length is kept; the characters covered are listed under Left out |
| Text.LowerKeepsOccurrence | backend/main.py:130-133 | an occurrence of a key in the text survives lower-casing as an occurrence of the lower-cased key |
| Text.LowerIdempotent | backend/main.py:130 | lower-casing twice is lower-casing once |
| Text.Strip | backend/main.py:461 | `strip()` returns the slice between the leading and trailing whitespace; only whitespace is removed, and a non-empty result has no whitespace at either end |
| Text.StripIdempotent | backend/main.py:272 | stripping a stripped reply changes nothing |
| Relevance.CountMatches | backend/main.py:133 | the generator sum `sum(1 for keyword in ... if keyword in text_lower)` is at most the number of keywords; its meaning is stated by Relevance.CountIsDistinctMatches |
| Relevance.CountIsDistinctMatches | backend/main.py:133 | over a list without repeats, the generator sum equals the number of distinct keywords that occur |
| Relevance.IsRelevantContent | backend/main.py:120-141 | the text is turned away exactly when at least three distinct listed keywords occur in its lower-cased form |
| Relevance.GenitiveCountsTwice | backend/main.py:124 | a text containing "βουλής" matches both "βουλή" and "βουλής" |
| Relevance.GenitivePlusOneRejected | backend/main.py:123-138 | "βουλής" plus any one other listed keyword is enough to reject a text |
| Relevance.NoKeywordPasses | backend/main.py:137-141 | a text containing no listed keyword is accepted |
| Themes.Metadata | backend/main.py:150-200 | each theme's constant record carries that theme and five emojis |
| Themes.Classify | backend/main.py:146-200 | the chosen theme's list has a keyword in the text (unless the theme is hope), and no list checked earlier has one |
| Themes.FirstMatchUnique | backend/main.py:149-200 | any theme that meets the first-match condition is the classifier's answer, so the condition fixes the theme |
| Themes.GetEmojiTheme | backend/main.py:143-200 | the result is the constant record of a theme that is the first match on the lower-cased text |
| Themes.HopeIsDefault | backend/main.py:192-200 | hope is returned exactly when no keyword list has a match |
| Themes.SupportGivesLove | backend/main.py:157-166 | "υποστήριξη", which is on both the love and the community list, gives love whenever no strength keyword is present |
| Themes.CommunityExcludesEarlier | backend/main.py:149-166 | community is chosen only when no strength or love keyword occurs, so never because of "υποστήριξη" |
| Quality.Divisor | backend/main.py:310 | `max(len(original), 1)` is at least 1 and at least the original's length, and is one of the two |
| Quality.RatioOkCrossMultiplied | backend/main.py:310-315 | the ratio test 0.3 ≤ len(t)/d ≤ 1.5 is the integer test 3·d ≤ 10·len(t) ≤ 15·d |
| Quality.EmptyOriginalRatio | backend/main.py:310-315 | for an empty original, only a one-character rewrite passes the ratio test |
| Quality.AssessQuality | backend/main.py:307-322 | the score is 0.3 for a plausible ratio plus 0.4 for an emotion word plus 0.3 for a display-friendly length, so the cap at 1.0 never changes it; it lies in [0, 1] and takes one of six values; it contains the emotion bonus exactly when an emotion word occurs; it is 1.0 exactly when all three criteria hold and 0.0 exactly when none does |
| Transformer.TemplateFor | backend/main.py:267 | a known style key selects its own template; any other key selects the inspirational one |
| Transformer.TemplateForKey | backend/main.py:267 | every template is found under its own key |
| Transformer.Excerpt | backend/main.py:220 | `text[:200]` is the prefix of the text of length min(len(text), 200) |
| Transformer.AnalyzeStory | backend/main.py:202-246 | the record says "relevant" exactly when the keyword gate accepts the text; irrelevant text gets the fixed 0.1 record; otherwise a failed call gives the neutral record, an undecodable reply the hopeful one, and a decoded reply is returned with the relevance flag set |
| Transformer.IrrelevantAnalysisMakesNoCall | backend/main.py:204-212 | for irrelevant text the analysis is the same under any model and decoder, with confidence 0.1 and style "inspirational" |
| Transformer.MissingStyleOnlyFromDecodedReply | backend/main.py:222-246 | only a successfully decoded model reply can lack a suggested style; every default record has one |
| Transformer.GenerateEnhanced | backend/main.py:248-305 | the KeyError case arises exactly for relevant text with no style anywhere; success holds exactly when the text is relevant, the call returned and the stripped reply is no refusal; every failure scores 0.0 and carries an error kind; a success carries the stripped reply, the chosen style and the quality score; irrelevant text gets the fixed "none" result; a TransformationFailed result has style "fallback" and the failure message |
| Transformer.Refused | backend/main.py:275 | the refusal test: the lower-cased stripped reply contains "δεν είναι κατάλληλο" |
| Transformer.FailedCallFallsBack | backend/main.py:296-305 | for relevant text with a chosen style, a failed call gives exactly the failure message, style "fallback", score 0.0 and the TransformationFailed kind |
| Transformer.RefusalReported | backend/main.py:272-283 | for relevant text with a chosen style, a refused reply gives exactly the stripped reply under that style, score 0.0 and the AiRejected kind |
| Transformer.AnalysisStyleUsed | backend/main.py:264-267 | without a caller style, the analysis's suggested style is the one used whenever the call returns |
| Transformer.IrrelevantGenerationMakesNoCall | backend/main.py:250-261 | for irrelevant text the result is the same under any model and decoder, and is not a success |
| Transformer.CallerStyleWins | backend/main.py:264-267 | with a non-empty caller style nothing raises, and that style is reported unless the call failed |
| Transformer.SuccessPath | backend/main.py:266-295 | with a non-empty caller style, relevant text and a reply that is no refusal, the result is exactly the stripped reply, that style, its quality score and success |
| Connections.AttemptsAt | backend/main.py:346-360 | a fan-out makes one attempt per connection, in list order, and only a failing connection's own attempt fails |
| Connections.EveryHealthyConnectionReached | backend/main.py:346-352 | every listed connection whose send does not fail receives the message |
| Connections.AttemptsSnoc | backend/main.py:347-352 | one more connection in the list adds exactly its own attempt at the end |
| Connections.RemoveFirst | backend/main.py:338-344 | `list.remove` leaves a list without the value unchanged, otherwise shortens it by one, and removes exactly one occurrence of the value |
| Connections.RemoveFirstSplits | backend/main.py:341-344 | the removed occurrence is the first one; the elements before and after it keep their order |
| Connections.ConnectionManager.constructor | backend/main.py:327-329 | both connection lists start empty, and so does the delivery log |
| Connections.ConnectionManager.Connect | backend/main.py:331-336 | the connection is appended to its role's list only; duplicates are kept |
| Connections.ConnectionManager.Disconnect | backend/main.py:338-344 | one occurrence is removed from its role's list only, and an absent connection changes nothing |
| Connections.ConnectionManager.SendEach | backend/main.py:346-360 | the log grows by exactly one attempt per connection, in order, and a failed send does not stop the loop |
| Connections.ConnectionManager.Broadcast | backend/main.py:346-352 | one attempt per display, in order, with both lists unchanged |
| Connections.ConnectionManager.NotifyModerators | backend/main.py:354-360 | one attempt per moderator console, in order, with both lists unchanged |
| Stories.StatusPartition | backend/main.py:604-618 | the three status counts add up to the total |
| Stories.CountAfterInsert | backend/main.py:490-494 | inserting a new row raises only its own status's count, by one |
| Stories.CountAfterUpdate | backend/main.py:573-576 | overwriting a row moves one unit from its old status's count to its new one |
| Stories.NewStatus | backend/main.py:571 | "approve" writes approved and "reject" writes rejected |
| Stories.InsertKeepsValid | backend/main.py:490-495 | the next id is free, and a row stored under it keeps every row under its own id |
| Stories.UpdateKeepsValid | backend/main.py:573-576 | rewriting an existing row's fields keeps the table valid |
| Stories.ModerationMovesOneRow | backend/main.py:571-576 | moderation keeps the table size, raises the target status's count unless the row already had it, and lowers the pending count when the row was pending; a row that is no longer pending is not protected |
| Stories.StoryService.constructor | backend/main.py:35-56 | the table starts empty, with no id handed out yet |
| Stories.StoryService.GetStats | backend/main.py:604-618 | the total is the number of rows and the sum of the three status counts; approved, pending and rejected each count the rows with that status |
| Stories.StoryService.SubmitStory | backend/main.py:459-526 | too short a stripped text is refused; the KeyError is a transformation error; a failure is returned unsaved with no notification; a success stores one pending row under the next id, with the original, the rewrite, the author and the theme of the original, and notifies every moderator with that row |
| Stories.StoryService.ModerateStory | backend/main.py:559-602 | an invalid action and an unknown id are errors that change nothing; otherwise status, moderation time and moderator are written; only an approval broadcasts the row's rewrite, author, creation time and theme record to every display |
| Scenario.SubmitTooShort | backend/main.py:460-462 | a short text gets the length error, leaves all counts at zero and notifies nobody |
| Scenario.SubmitAnnounces | backend/main.py:459-526 | a successful submission gets id 1 and the original's theme, and reaches the moderator console with one event and the display with none |

## Left out

- Audio transcription (`transcribe_audio`) is outside this model. It is a call into a speech service plus file handling.
- SQLite itself is not modelled: connections, commits, row factories and database errors. The table is a map, and the HTTP 500 raised on a database error is left out.
- HTTP routing, request validation, CORS, static file mounts and the uvicorn entry point are left out. They are framework glue.
- The endpoints `get_stories`, `get_pending_stories`, `get_transformation_styles` and `preview_transformation` are left out.
- The WebSocket handshake (`accept`) and the receive loops of the two socket endpoints are left out. Their only effect on the core is a `connect` on open and a `disconnect` on close, and both are modelled.
- The wording of the prompts is not modelled. A prompt is its template name plus the text it quotes.
- The message texts of exceptions are not modelled. A failed call is `CallFailed`, and the `error` field's `str(e)` is the `TransformationFailed` kind.
- Text.Lower: `str.lower()` is modelled for ASCII, Greek capitals and accented Greek capitals only. Python's final-sigma rule is left out: a capital sigma at the end of a word always becomes "σ" here, never "ς". All keywords are already lower case, so only texts written in capitals are affected.
- Text.Contains: strings are sequences of code points; there is no Unicode normalisation, so a decomposed accent does not match a precomposed one, just as in Python.
- Quality.AssessQuality: scores are exact reals, not IEEE doubles. The six score values agree with Python's sums. The ratio test is exact division, while Python rounds first, which could differ only for ratios within rounding distance of 0.3 or 1.5.
- Transformer.AnalyzeStory: a decoded JSON reply is taken to have the record's fields with the right types. Missing fields other than `suggested_style`, non-string styles and a `null` style are not modelled. A reply that decodes to something other than an object counts as undecodable, because the assignment of `is_relevant` then raises and the fallback record is returned.
- Stories.StoryService.SubmitStory: `emoji_data` is taken to survive its JSON round trip, so the theme record is stored and broadcast as a value.
- Stories.StoryService.ModerateStory: the `null` emoji data of rows without theme data cannot occur, because every saved row has a theme.
- A `CURRENT_TIMESTAMP` reading is the `now` parameter.
- Concurrency between requests and the asynchronous interleaving of sends are left out. Each operation runs to completion.
- The two front-ends are not part of this model.
- The approval leg of an end-to-end run is not restated as a scenario. It is stated by Stories.StoryService.ModerateStory's contract.
