# NutriNote conversation engine in Dafny

NutriNote is a WhatsApp webhook that turns typed or spoken meal descriptions
into nutrition records. For each inbound message it decides, in a fixed
priority order, whether the message is a daily-summary request, a
confirmation or rejection of the sender's pending meal, or a new meal
description. It keeps at most one pending meal per sender in the
process-wide dictionary `user_last_meal`. It saves a confirmed meal as one
`food_logs` row per item, and it answers summary requests with the day's
rows, four totals and the inputs for a macro pie chart.

This project models that core of `app.py`:

- `wrappers.dfy` (`Wrappers`): the `Option` type.
- `text.dfy` (`Text`): `.lower()`, `.strip()` and the substring test `in` that classification uses.
- `chart.dfy` (`Chart`): the slice sizes and the exploded slice chosen by `generate_summary_chart`.
- `nutrition.dfy` (`Nutrition`): meal items, column sums, the preview loop, and the aggregation loop of `get_daily_summary`.
- `store.dfy` (`Store`): the `food_logs` table as a sequence of rows, the INSERT loop of `save_meal_to_db`, and the "today" query.
- `conversation.dfy` (`Conversation`): input resolution, the classifier, and the specification function `Transition` for one message. The class `Engine` holds `pending` (the pending-meal map) and `log` (the store). Its method `Handle` is the webhook, and it is proved to agree with `Transition`.
- `properties.dfy` (`Properties`): lemmas about `Transition`.

The transcriber, the extractor, the store's failure points, whether the
summary query succeeds, and the clock are all inputs. They travel in the
datatype `Conversation.Env`. The extractor is a function from the text it
is given to `Option<seq<Item>>`, so the model records which text the
extractor receives. A result that has an `items` key counts as a success,
even when the list is empty. Time is reduced to day numbers. A saved row
carries the day it was saved, and the summary keeps the sender's rows
whose day is on or after the current day. This stands for
`created_at >= date_trunc('day', NOW())`. The pending meals are a
`map<string, seq<Item>>`, so by construction a sender never has more than
one pending meal.

## Behaviour of the code worth knowing

- After a successful transcription, `app.py` classifies the lower-cased, stripped transcript (app.py:181) but hands the extractor the transcript as transcribed (app.py:179, app.py:211). A typed message is lower-cased and stripped for both uses (app.py:173, app.py:183).
- When a voice note cannot be transcribed, the lower-cased, stripped body stays the message (app.py:173, app.py:180). That body can still be a summary request, a confirmation or a rejection. Otherwise the reply is the prompt for input (app.py:228-229), not an extraction failure.
- An extraction that returns an empty item list still replaces the pending meal, and the preview total is 0 (app.py:213-224). A failed extraction leaves the pending map unchanged (app.py:226-227).
- A confirmation word from a sender with nothing pending goes to the extractor (app.py:196, app.py:210-211).
- `user_last_meal` is a plain module-level dictionary with no locking (app.py:25).

## Model

| member | source | states |
|---|---|---|
| `Text.Lower` | app.py:173 | same length, no ASCII capital left, each capital replaced by its small letter, every other character unchanged |
| `Text.Strip` | app.py:173 | the result is a slice of the input, only white space (Python's `isspace` set) is removed from either end, and the result neither starts nor ends with white space; it is empty exactly when the input is all white space |
| `Text.Contains` | app.py:186 | `t in s` holds exactly when `t` occurs in `s` at some index |
| `Text.ContainsTransitive` | app.py:185-186 | a text containing `u` contains every substring of `u` |
| `Text.NormalizeIdempotent` | app.py:181-183 | lower-then-strip applied twice equals applying it once |
| `Chart.MaxOf` | app.py:42-43 | `max(sizes)` is an element of the list and no element exceeds it |
| `Chart.IndexOf` | app.py:43 | `sizes.index(x)` is the first position holding `x` |
| `Chart.ChartFor` | app.py:34-43 | sizes are the totals clamped at 0; no chart exactly when protein, carbs and fat are all at most 0; otherwise the exploded slice is the first index of the maximum, and that maximum is positive (so the `max(sizes) > 0` guard always holds) |
| `Nutrition.SumAppend` | app.py:84-89 | a column total over two row lists is the sum of their totals |
| `Nutrition.SumNonNegative` | app.py:86-89 | a total is non-negative when no row holds a negative value |
| `Nutrition.SummaryOf` | app.py:79-97 | a failed query and only a failed query gives the apology; exactly the empty row list gives "nothing logged"; a report carries the rows with their column totals, and has no chart exactly when the protein, carbs and fat totals are all at most 0 |
| `Nutrition.ChartShowsTotals` | app.py:86-95 | with non-negative values the chart shows the protein, carbs and fat totals unclamped, and is left out exactly when all three total zero |
| `Nutrition.BuildPreview` | app.py:215-224 | one preview line per item in extraction order (quantity default "", food default "Unknown", calories default 0) and a total equal to the sum of calories with missing ones as 0 |
| `Nutrition.Summarize` | app.py:79-100 | a failed query gives the apology; no rows give the fixed "nothing logged" answer with no chart; otherwise the rows in store order, each of the four totals equal to its column sum with NULL as 0, and the chart built from the protein, carbs and fat totals |
| `Store.Commits` | app.py:107-117 | the commit happens with no fault, never when connecting or committing raises, and on an INSERT fault exactly when that INSERT is past the last item |
| `Store.Today` | app.py:74-76 | an item is returned exactly when it belongs to one of the sender's rows dated today or later: every such row's item is in the result and nothing else is; the result is empty when no row matches and never longer than the log (with `TodayAppend`, this fixes the result in log order) |
| `Store.StageInserts` | app.py:110-114 | the INSERT loop stages one row per item in order unless the INSERT of an existing item raises, in which case nothing is kept |
| `Store.TodayAppend` | app.py:74-76 | the "today" query over appended rows is the concatenation of the two queries |
| `Store.TodayOfStamp` | app.py:74-76 | a meal saved today comes back in full and in order from the sender's query |
| `Store.TodayOfOtherSender` | app.py:74-75 | another sender's rows never appear in this sender's query |
| `Conversation.IsSummaryRequest` | app.py:185-186 | a message is a summary request exactly when some keyword occurs in it at some index |
| `Conversation.KeywordListsDisjoint` | app.py:195-205 | no word is both a confirmation and a rejection |
| `Conversation.Resolve` | app.py:173-183 | the classified message is the lowered, stripped transcript when one was usable, else the lowered, stripped body; with media the text for the extractor is the transcript as transcribed; without media there is text to extract exactly when the message is non-empty, and it is the message |
| `Conversation.Decide` | app.py:185-229 | the branches in priority order, each as an if-and-only-if: summary on a keyword; confirm, then reject, only for a pending meal and an exact keyword; extraction of the text when it is truthy and nothing earlier fired; otherwise the prompt |
| `Conversation.AfterSave` | app.py:105-123 | existing rows are kept as they are, and the store gains all the meal's rows in order, stamped with the sender and the day, when the save commits and none otherwise |
| `Conversation.Transition` | app.py:170-231 | each reply kind comes from exactly one branch: summary, saved or failed save, discard, preview or extraction failure, prompt |
| `Conversation.Engine.constructor` | app.py:25 | the pending map starts empty; the store keeps the rows it already holds |
| `Conversation.Engine.SaveMeal` | app.py:105-123 | the meal's rows are appended all together exactly when the connection, every INSERT and the commit succeed, and the result is true exactly then; otherwise the store is unchanged |
| `Conversation.Engine.Handle` | app.py:170-231 | the reply, the new pending map and the new store equal `Transition` of the old state, the message and the collaborators' answers |
| `Properties.KeywordNotSummary` | app.py:185-205 | no confirmation or rejection word contains a summary keyword, so the summary check never pre-empts an exact confirmation or rejection |
| `Properties.SummaryKeywordsReduce` | app.py:185-186 | a message is a summary request exactly when it contains "summary", "today" or "what did i eat" |
| `Properties.KeywordOccurrenceIsSummary` | app.py:186 | any occurrence of a keyword, even inside a longer word, makes a summary request |
| `Properties.TodaysIsSummary` | app.py:186 | "todays" is a summary request |
| `Properties.MentionOfTodayIsSummary` | app.py:185-193 | any message whose classified text mentions "today", a meal description included, gets the summary reply and logs nothing: the pending map and the store are unchanged |
| `Properties.ClassifiedMessageIsNormal` | app.py:173-181 | the classified message, from the body or from a transcript, is in normal form: lowering and stripping it again changes nothing |
| `Properties.SummaryTakesPriority` | app.py:185-193 | a summary request gets the summary whatever is pending: the apology on a failed query, the fixed text for no rows, otherwise the sender's rows for today; the pending map and the store are unchanged |
| `Properties.ConfirmationSavesPending` | app.py:195-202 | with a pending meal, an exact confirmation word saves exactly the pending items, replies Saved exactly when the commit happened, and removes the entry in both cases |
| `Properties.RejectionDiscards` | app.py:204-208 | with a pending meal, an exact rejection word removes the entry, writes nothing and replies with the discard acknowledgement |
| `Properties.ConfirmWordWithoutPendingIsExtracted` | app.py:182-211 | a typed confirmation word with nothing pending is sent to the extractor, and the store is untouched |
| `Properties.TextIsExtractedNormalized` | app.py:182-183 | a typed message that reaches extraction hands over its lower-cased, stripped body, which is non-empty |
| `Properties.TranscriptIsExtractedVerbatim` | app.py:179-181 | a transcribed voice note that reaches extraction hands over the original transcript, while classification used its lowered, stripped copy |
| `Properties.FailedTranscriptionPrompts` | app.py:179-183 | an untranscribed voice note never reaches the extractor; unless its body is a summary request or a keyword for a pending meal, the reply is the prompt and nothing changes |
| `Properties.ExtractionReplacesPending` | app.py:210-227 | a successful extraction replaces the sender's pending meal (last one wins) and previews every item in order with the calorie total; a failed one changes nothing and apologises; the store is never written |
| `Properties.OnlySenderEntryChanges` | app.py:188-229 | entries of other senders are identical before and after; the sender's entry is kept, removed or set to the extractor's result; the store only gains this sender's pending meal; summary and prompt replies change nothing |
| `Properties.SavedMealShowsInSummary` | app.py:197-201 | after a successful save each of the sender's daily totals grows by the meal's total, and other senders' rows for any day are unchanged |
| `Properties.ConfirmPersistsCapturedItems` | app.py:196-214 | a confirmation after a preview persists exactly the items captured at preview time, whatever the extractor would answer later, and leaves nothing pending |
| `Properties.SummaryIsRepeatable` | app.py:188-193 | asking for the summary twice with no write in between gives the same answer |

## Left out

- Flask routing, the static-file route and the Twilio TwiML response: replies are the datatype `Conversation.Reply`, not rendered XML.
- psycopg2 connections, the SQL text and the time zone of `date_trunc`: the store is a row sequence, and time is a day number given by the caller. The `food_logs` schema is not part of this model. Saved rows are assumed to get the current day as `created_at`, and the query is assumed to return rows in insertion order (the SQL has no ORDER BY).
- The Gemini call, its prompt, the regex scraping and `json.loads`: the extractor is a function parameter, and a JSON object with an `items` key is `Some(items)`.
- Audio download, ogg-to-wav conversion and Google Speech: the transcript is an input.
- matplotlib drawing, saving the image and building its URL: only the sizes and the exploded slice are modelled. An exception while drawing, which turns the chart into None, is not modelled.
- Float values and the `:.0f` / `:.1f` formatting: quantities are integers, and replies carry structured fields instead of text.
- The crash (an uncaught TypeError) when an item has `calories: null` or a non-numeric value: an absent field and a JSON null are both modelled as `None`, which counts as 0.
- Nutrition.BuildPreview: an extracted item whose `food` or `quantity` key is present with a JSON null is treated like a missing key, so the model shows "Unknown" and "", while `item.get` returns None there and Python prints "None" (app.py:219-220).
- The crash when `NumMedia` is not an integer: `NumMedia` is an `Option<int>`.
- Text.Lower: maps only the ASCII capitals; Python's `lower()` also maps other Unicode letters.
- Conversation.Engine.SaveMeal: an exception from `cur.close()` after a successful commit is not modelled (Python would report False while keeping the rows), and neither is an error from closing the connection.
- Per-sender locking and concurrent requests: the code has none, and the model handles one message at a time.
- Diagnostic `print` calls.
