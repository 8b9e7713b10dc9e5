# Sehat-Sense core, modelled in Dafny

Sehat-Sense is a browser application for people managing diet-related health conditions (diabetes, fatty liver, high cholesterol and others):

- A four-step wizard builds a health profile.
- An uploaded lab report is read by an external generative model into lab values, and health conditions are derived from those values.
- Typed meal descriptions are analysed into a nutrition score and logged per calendar date.
- A food diary lists the log by date and exports it as CSV.
- A dashboard charts macronutrients and daily scores.
- A chat screen talks to the model about the profile.

This project models that core:

- the store that holds the profile and the food log;
- the service layer around the model: report parsing, condition rules, the profile context block, JSON extraction and chat history;
- the state and handlers of the onboarding, food analyser, food diary, dashboard and chat screens.

It proves what each operation promises. One module per source file:

| module | file | form |
|---|---|---|
| `Text`, `Numbers` | (library behaviour used throughout) | functions and lemmas: `trim`, one-character `split`, `join`, `replace`, `includes`, `parseFloat`, integer rendering, `Math.round` of a mean, `toFixed(1)`, sums |
| `Types` | `types.ts` | datatypes for the profile, lab values, analyses, meals and messages |
| `AppContext` | `context/AppContext.tsx` | the food log as a sequence of date buckets (the keys of a JavaScript object keep insertion order); functions `AddToLog` and `DeleteFromLog` with their laws; class `Store` whose methods update `profile` and `foodLog` |
| `GeminiService` | `services/geminiService.ts` | the model is an oracle `ask: Request -> Reply`; the line parser and `determineConditions` as loops proved against functions; pure helpers as functions |
| `Onboarding` | `features/Onboarding.tsx` | validation, edits, the condition toggle and the BMI as functions; class `Wizard` for the step/form/error state |
| `FoodDiary` | `features/FoodDiary.tsx` | date ordering, the daily summary loop, the CSV export loop |
| `Dashboard` | `features/Dashboard.tsx` | the macro totals loop, the weekly chart, the condition merge, class `UploadModal` |
| `FoodAnalyzer` | `features/FoodAnalyzer.tsx` | placeholder rotation, score colour, progress bars, condition cards, class `Analyzer` |
| `Chatbot` | `features/Chatbot.tsx` | the greeting, class `Chat` whose transcript, once each send has settled, alternates between answers and user messages |

Some calls are taken as parameters:

- `JSON.parse` is a partial function `decode`.
- `encodeURIComponent` is `encode`.
- The rendering of a fractional number in a template string is `fmt`.
- Generated ids, `Date.now()` and `new Date().toISOString()` are passed in as values.

The model follows the code where the code and its description differ:

- A lab value counts only when it is truthy, as written (`data.vitaminD && data.vitaminD < 20`). So a zero value fires no rule, but a negative vitamin D or B12 value does.
- The weekly chart takes the first seven keys of the log in insertion order. These are the oldest dates logged, not the latest seven, and the first of them is drawn last.
- The greeting of a chat opened without a profile reads `undefined` where the conditions go.

## Model

| member | source | states |
|---|---|---|
| Text.Trim | services/geminiService.ts:34-35 | the trimmed text is empty exactly when the input is all whitespace (the ECMAScript white space and line terminators, the Unicode space separators included); otherwise it neither starts nor ends with whitespace |
| Text.TrimSlice | services/geminiService.ts:34-35 | trim keeps one contiguous slice and only cuts whitespace off either end |
| Text.TrimPadded | services/geminiService.ts:34-35 | trimming text padded with whitespace gives the text back |
| Text.Split | services/geminiService.ts:32 | a one-character split has one piece more than separators, and no piece holds the separator |
| Text.JoinSplit | services/geminiService.ts:32 | joining the pieces of a split with the separator gives the original text |
| Text.SplitJoin | features/FoodDiary.tsx:32 | splitting separator-free pieces joined by the separator gives the pieces back |
| Text.JoinEmpty | services/geminiService.ts:86-87 | a join is empty exactly when there is no piece or a single empty piece |
| Text.JoinCount | services/geminiService.ts:86 | a character no piece holds occurs in the join as often as the separators carry it |
| Text.ReplaceChar | services/geminiService.ts:86 | a global one-character replace changes exactly the matching positions |
| Text.RemoveChar | features/FoodDiary.tsx:32 | removing a character drops every occurrence of it and keeps every other character, count for count |
| Text.MissingCharNotContained | features/FoodAnalyzer.tsx:95 | text lacking one of the pattern's characters does not include the pattern |
| Text.ContainsAppend | features/Chatbot.tsx:10-14 | text found in either part is found in the concatenation |
| Text.JoinContainsParts | features/Chatbot.tsx:10 | every piece is found in the joined text |
| Text.IntToString | features/FoodDiary.tsx:32 | an integer renders as digits with a leading minus exactly for negatives |
| Text.NatToStringValue | features/FoodDiary.tsx:32 | the rendered digits denote the number |
| Text.ParseFloat | services/geminiService.ts:35 | parsing yields NaN (none) only for text that starts with no digit |
| Text.ParseFloatOfInt | services/geminiService.ts:35 | parsing a rendered integer gives that integer back |
| Numbers.RoundedMean | features/FoodDiary.tsx:24 | the result is the integer nearest the mean, a half rounding up |
| Numbers.RoundedMeanWithin | features/FoodDiary.tsx:23-25 | the rounded mean of values within bounds stays within the bounds |
| Numbers.ToFixed1 | features/Onboarding.tsx:122 | the result is a multiple of a tenth within a twentieth of the input, with the input's sign; an exact tie rounds away from zero, as `toFixed` does |
| Numbers.SumAppend | features/Dashboard.tsx:21-26 | a sum over two lists in turn is the sum of the two sums |
| Numbers.SumWithin | features/FoodDiary.tsx:17-21 | a sum of bounded values is bounded by the count times the bounds |
| AppContext.DateKey | context/AppContext.tsx:42 | the date key holds no `T` |
| AppContext.DateKeyOfInstant | context/AppContext.tsx:42 | the key of `<date>T<time>` is `<date>` |
| AppContext.MealsOn | features/FoodDiary.tsx:15 | a date that is not a key has no meals |
| AppContext.BucketIndex | context/AppContext.tsx:45-46 | the index of a date's bucket, or the log's length exactly when the date is not a key |
| AppContext.AddToLog | context/AppContext.tsx:41-52 | the meal comes first in its date's list, every other date is untouched, and a new date is appended to the keys |
| AppContext.AddTwiceSameDate | context/AppContext.tsx:48-49 | two meals of one date end up newest first |
| AppContext.AddToLogAt | context/AppContext.tsx:44-49 | adding updates the date's bucket in place or appends a new bucket |
| AppContext.AddPreservesWellFormed | context/AppContext.tsx:41-52 | adding keeps keys distinct, buckets non-empty and every meal under its own date |
| AppContext.WithoutMeal | context/AppContext.tsx:58 | the filter never lengthens a list |
| AppContext.WithoutMealMembers | context/AppContext.tsx:58 | the filter keeps exactly the meals with another id |
| AppContext.WithoutMealAppend | context/AppContext.tsx:58 | the filter keeps order: it distributes over concatenation |
| AppContext.WithoutAbsentMeal | context/AppContext.tsx:58 | filtering an id no meal has changes nothing |
| AppContext.DeleteFromLog | context/AppContext.tsx:54-65 | after a delete no bucket is empty, no meal has the id, and no key is new |
| AppContext.DeleteKeepsOrder | context/AppContext.tsx:54-65 | the result holds, at increasing positions of the log, each bucket with the id filtered out, and those positions are exactly the buckets that keep a meal |
| AppContext.DeleteKeepsKeyOrder | context/AppContext.tsx:54-65 | the keys after a delete are the keys of the buckets that keep a meal, in their order in the log |
| AppContext.DeleteLookup | context/AppContext.tsx:57-61 | after a delete each date holds its former meals without the id, in order |
| AppContext.DeleteAbsent | context/AppContext.tsx:54-65 | deleting an id no meal has leaves the log unchanged |
| AppContext.DeletePreservesWellFormed | context/AppContext.tsx:54-65 | deleting keeps the log well formed |
| AppContext.AddThenDelete | context/AppContext.tsx:41-65 | adding a meal with a fresh id and deleting that id restores the log |
| AppContext.Merge | context/AppContext.tsx:34-39 | `{ ...profile, ...updates }`: each field the update gives replaces the profile's, the others stay; its laws are in `MergeLaws` |
| AppContext.MergeLaws | context/AppContext.tsx:34-39 | an empty update leaves the profile as it was, and repeating an update changes nothing more |
| AppContext.Store.constructor | context/AppContext.tsx:18-21 | the store starts with no profile and an empty log |
| AppContext.Store.SetProfile | context/AppContext.tsx:30-32 | setting a profile replaces it and wipes the log |
| AppContext.Store.UpdateProfile | context/AppContext.tsx:34-39 | an update merges into an existing profile, leaves a missing one missing, and keeps the log |
| AppContext.Store.AddMealToLog | context/AppContext.tsx:41-52 | the new log is `AddToLog` of the old, the profile is kept, and the log stays well formed |
| AppContext.Store.DeleteMealFromLog | context/AppContext.tsx:54-65 | the loop over the keys yields `DeleteFromLog` of the old log, and the log stays well formed |
| GeminiService.LabelField | services/geminiService.ts:18-29 | a label found in the mapping table is that field's label |
| GeminiService.LabelTable | services/geminiService.ts:18-29 | every field's label maps to that field, and only that label does |
| GeminiService.LineEntry | services/geminiService.ts:32-37 | a line contributes only when it holds one colon, a known label before it and a number after it |
| GeminiService.LineEntryOfParts | services/geminiService.ts:32-37 | conversely, two parts with a known label and a number always contribute that field and value |
| GeminiService.ReportLineRoundTrip | services/geminiService.ts:32-37 | a line written `<label>: <integer>` reads back as that field and value |
| GeminiService.Entries | services/geminiService.ts:31 | one contribution per line |
| GeminiService.ParseReportData | services/geminiService.ts:15-42 | the line loop builds the report of the lines' contributions, later lines overwriting earlier ones |
| GeminiService.CollectHasField | services/geminiService.ts:31-40 | a field is present exactly when some contribution supplies it |
| GeminiService.CollectLastWins | services/geminiService.ts:36-37 | a field's value is the one the last contribution supplying it gives |
| GeminiService.ReportHasField | services/geminiService.ts:31-40 | a field is in the report exactly when some reply line supplies it |
| GeminiService.ReportLastLineWins | services/geminiService.ts:31-40 | a field's value comes from the last line supplying it |
| GeminiService.Truthy | services/geminiService.ts:45-54 | a lab value counts only when present and non-zero, as `data.x && ...` |
| GeminiService.DerivedConditions | services/geminiService.ts:43-57 | the conditions in rule order; stated by `DerivedConditionsRules` and `DerivedConditionsRanked` |
| GeminiService.SugarRule | services/geminiService.ts:46-49 | diabetes from HbA1c 6.5, prediabetes from 5.7 below 6.5, never both, nothing for a missing or zero value |
| GeminiService.RuleOf | services/geminiService.ts:50-55 | a rule adds its condition exactly when it fires |
| GeminiService.DerivedConditionsRules | services/geminiService.ts:44-57 | each condition is derived exactly when its threshold rule fires on a truthy value, and no other condition ever is |
| GeminiService.DerivedConditionsRanked | services/geminiService.ts:44-57 | the derived list follows the rule order, so no condition appears twice |
| GeminiService.DetermineConditions | services/geminiService.ts:44-57 | the pushes yield exactly the derived list |
| GeminiService.DerivedConditionsExample | services/geminiService.ts:46-53 | HbA1c 6.6, LDL 140 and SGPT 10 give diabetes then high cholesterol |
| GeminiService.ReportResult | services/geminiService.ts:71-79 | success exactly when the reply yields a lab value, carrying the parsed report and its derived conditions; otherwise the unreadable-report error or the call's error |
| GeminiService.AnalyzeReport | services/geminiService.ts:60-80 | the operation's outcome is `ReportResult` of the model's reply to the file |
| GeminiService.ConditionText | services/geminiService.ts:86 | a condition's display text is non-empty and holds no underscore and no comma |
| GeminiService.ConditionList | services/geminiService.ts:86 | the conditions with `_` as spaces joined by `, `; stated by `ConditionListEmpty` and `ConditionListCommas` |
| GeminiService.ConditionListEmpty | services/geminiService.ts:86 | the condition list is empty, so "None specified" is shown, exactly when there is no condition; it holds no underscore |
| GeminiService.ConditionListCommas | services/geminiService.ts:86 | the list has one comma fewer than conditions |
| GeminiService.AllergiesFallback | services/geminiService.ts:87 | "None" is shown exactly when there is no allergy, a single empty one, or one named None |
| GeminiService.UserContext | services/geminiService.ts:83-97 | the profile block, one line per part of the profile, the goal line only with a weight-loss goal |
| GeminiService.BuildUserContext | services/geminiService.ts:83-97 | the appended lines form the profile block, the goal line only with a weight-loss goal |
| GeminiService.GoalLineIffWeightLossGoal | services/geminiService.ts:93-95 | the block ends with the goal line, which is empty exactly when the profile has no weight-loss goal |
| GeminiService.FirstIndex | services/geminiService.ts:126 | the first position of a character, or the length |
| GeminiService.LastIndex | services/geminiService.ts:126 | the last position of a character, or -1 |
| GeminiService.JsonSpan | services/geminiService.ts:125-127 | a span exists exactly when an opening bracket precedes a closing one, and it is bracketed |
| GeminiService.JsonSpanIsGreedy | services/geminiService.ts:126 | the span runs from the first opening bracket to the last closing one |
| GeminiService.DecodeReply | services/geminiService.ts:125-128 | the reply decodes exactly when it has a span that parses; no span gives the operation's own message |
| GeminiService.AnalyzeFood | services/geminiService.ts:99-129 | the meal analysis is the model's reply to the profile block and the description, cut to its object span and decoded |
| GeminiService.WithImages | services/geminiService.ts:165-168 | each idea is kept whole, in order, with its image URL built from the encoded search term |
| GeminiService.GenerateMealIdeas | services/geminiService.ts:132-169 | the ideas are the reply's array span decoded, each with an image URL, or the decoding error |
| GeminiService.GenerateDrinkSuggestions | services/geminiService.ts:171-200 | the drinks are the reply's array span decoded, or the error |
| GeminiService.History | services/geminiService.ts:208-211 | one turn per message of the transcript |
| GeminiService.HistoryTurn | services/geminiService.ts:208-211 | each turn carries its message's text, with role `user` exactly for user messages and `model` for all others |
| GeminiService.ChatResponse | services/geminiService.ts:202-216 | the answer is the model's raw reply to the message with the transcript as history |
| Onboarding.StepError | features/Onboarding.tsx:63-95 | for each step, an error exactly when that step's required fields are blank, missing or zero; no error outside steps 1-4 |
| Onboarding.OrNull | features/Onboarding.tsx:175 | a numeric field is stored exactly when it is truthy, and then unchanged |
| Onboarding.AllergiesFrom | features/Onboarding.tsx:210 | one trimmed entry per comma-separated piece |
| Onboarding.AllergiesTrimmed | features/Onboarding.tsx:210 | every allergy entry is comma-free and trimmed |
| Onboarding.EditKeepsEarlierSteps | features/Onboarding.tsx:97-99 | an edit on one screen never changes whether an earlier step passes |
| Onboarding.Toggle | features/Onboarding.tsx:103-106 | the clicked value flips in or out, no other value changes membership, and an absent value is appended at the end |
| Onboarding.Remove | features/Onboarding.tsx:105 | the filter keeps exactly the other values |
| Onboarding.RemoveAppend | features/Onboarding.tsx:105 | the filter keeps order: filtering a concatenation filters each part in place |
| Onboarding.RemoveAbsent | features/Onboarding.tsx:105 | filtering out an absent value changes nothing |
| Onboarding.ToggleTwice | features/Onboarding.tsx:103-106 | toggling an unselected value twice restores the selection |
| Onboarding.ToggleCondition | features/Onboarding.tsx:101-116 | the conditions are toggled (the clicked one flips, every other keeps its membership), the weight-loss flag follows the `weight_loss_goal` condition, and no other field changes |
| Onboarding.ExactBmi | features/Onboarding.tsx:122 | the BMI times the squared height in centimetres is the weight times 10000 |
| Onboarding.Bmi | features/Onboarding.tsx:121-123 | a BMI exists exactly when weight and height are both truthy |
| Onboarding.BmiNearExact | features/Onboarding.tsx:122 | the stored BMI has one decimal and is within a twentieth of the exact one, and a tie is stored rounded up |
| Onboarding.BmiTieExample | features/Onboarding.tsx:122 | 89 kg at 200 cm is exactly 22.25 and is stored as 22.3 |
| Onboarding.SavedProfilePasses | features/Onboarding.tsx:118-126 | a profile saved from a form passing every step passes every step and has a BMI |
| Onboarding.Wizard.constructor | features/Onboarding.tsx:41-43 | the wizard starts at step 1 on the initial form with no error |
| Onboarding.Wizard.ValidateStep | features/Onboarding.tsx:63-95 | the step passes exactly when it has no error; a failure sets that error |
| Onboarding.Wizard.HandleChange | features/Onboarding.tsx:97-99 | the form takes the edit, and the earlier steps still pass |
| Onboarding.Wizard.HandleMultiSelectChange | features/Onboarding.tsx:101-116 | the form becomes the toggled form |
| Onboarding.Wizard.HandleBack | features/Onboarding.tsx:57-61 | one step back, never below the first |
| Onboarding.Wizard.HandleSaveProfile | features/Onboarding.tsx:118-126 | a failing last step sets its error and stores nothing; otherwise the stored profile is the form with its BMI, it passes every step, and the log is wiped |
| Onboarding.Wizard.HandleNext | features/Onboarding.tsx:47-55 | a failing step stays with its error; a passing step clears the error and advances, or saves at the last step |
| FoodDiary.NoLaterTotal | features/FoodDiary.tsx:14 | any two dates compare one way or the other |
| FoodDiary.NoLaterTransitive | features/FoodDiary.tsx:14 | the date order is transitive |
| FoodDiary.InsertByDate | features/FoodDiary.tsx:14 | inserting keeps newest-first order and adds exactly the date |
| FoodDiary.SortNewestFirst | features/FoodDiary.tsx:14 | the sorted dates are newest first and a permutation of the input |
| FoodDiary.NewestFirstPairs | features/FoodDiary.tsx:14 | in the sorted list every date is no earlier than every later one |
| FoodDiary.DiaryDates | features/FoodDiary.tsx:14 | the diary lists every key exactly once, newest first |
| FoodDiary.SummaryOf | features/FoodDiary.tsx:17-25 | the day's total calories and rounded mean score, 0 for an empty day |
| FoodDiary.DailySummary | features/FoodDiary.tsx:17-25 | the reduce yields the total calories and the rounded mean score, or 0 for an empty day |
| FoodDiary.AverageScoreWithin | features/FoodDiary.tsx:23-25 | the day's average score is a percentage when every meal's is |
| FoodDiary.SummaryAfterAdd | features/FoodDiary.tsx:17-21 | logging a meal adds its calories to its day's total |
| FoodDiary.CsvRow | features/FoodDiary.tsx:32 | one CSV row: the date, the name without commas and the five numbers, joined by commas |
| FoodDiary.CsvRowFields | features/FoodDiary.tsx:32 | a row splits back on commas into exactly its seven fields |
| FoodDiary.BucketRows | features/FoodDiary.tsx:31-33 | one row per meal of a date |
| FoodDiary.RowsPerMeal | features/FoodDiary.tsx:30-34 | the export has exactly one row per logged meal |
| FoodDiary.CsvContent | features/FoodDiary.tsx:27-35 | the header followed by one CRLF-terminated row per meal, key by key |
| FoodDiary.ExportToCsv | features/FoodDiary.tsx:27-35 | the export is the header line and then one CRLF-terminated row per meal, key by key |
| Dashboard.AllMealsAppend | features/Dashboard.tsx:21 | flattening distributes over concatenation of logs |
| Dashboard.HasReportData | features/Dashboard.tsx:19 | a profile exists and holds at least one lab value |
| Dashboard.AllMeals | features/Dashboard.tsx:21 | the meals of all buckets, flattened in key order; `AllMealsAppend` states its law |
| Dashboard.MacroData | features/Dashboard.tsx:21-31 | the accumulated protein, carbs and fats are the sums over all logged meals |
| Dashboard.SumAfterAdd | features/Dashboard.tsx:21-31 | logging a meal adds exactly its amount to a total over all meals |
| Dashboard.MacrosAfterAdd | features/Dashboard.tsx:21-31 | after logging a meal the chart's totals have grown by its protein, carbs and fats |
| Dashboard.Reversed | features/Dashboard.tsx:39 | reversal puts each element at the mirrored position |
| Dashboard.DayScoreOf | features/Dashboard.tsx:34-37 | a bar: the date and the rounded mean score of its meals, 0 for none |
| Dashboard.DayScores | features/Dashboard.tsx:33-38 | one bar per date, in key order |
| Dashboard.WeeklyScores | features/Dashboard.tsx:33-39 | the chart has a bar for each of the first seven keys (all when fewer), the first key last |
| Dashboard.WeeklyScoresWithin | features/Dashboard.tsx:34-37 | every bar is a percentage when every meal's score is |
| Dashboard.Dedupe | features/Dashboard.tsx:166 | the result has no repetition |
| Dashboard.DedupeMembers | features/Dashboard.tsx:166 | nothing is lost and nothing invented |
| Dashboard.DedupeExtends | features/Dashboard.tsx:166 | appending never reorders what was kept before |
| Dashboard.DedupeDistinct | features/Dashboard.tsx:166 | a list without repetition is left as it is |
| Dashboard.MergeConditions | features/Dashboard.tsx:166 | the merged condition list has no repetition |
| Dashboard.MergeConditionsLaws | features/Dashboard.tsx:166 | the merge holds exactly the conditions of both lists and keeps the existing ones first, in order |
| Dashboard.UploadError | features/Dashboard.tsx:173 | the shown error is never empty: the thrown message, else the fallback text |
| Dashboard.UploadModal.constructor | features/Dashboard.tsx:135-137 | the modal opens with no file, no error and not loading |
| Dashboard.Acceptable | features/Dashboard.tsx:141 | a first file exists and is smaller than 5 MiB |
| Dashboard.ReportPatch | features/Dashboard.tsx:166-170 | the update sent after an upload: the report's values and the merged conditions |
| Dashboard.UploadModal.HandleFileChange | features/Dashboard.tsx:140-147 | a first file under 5 MiB is kept and the error cleared; otherwise the size error is shown |
| Dashboard.UploadModal.HandleAnalyze | features/Dashboard.tsx:159-177 | on success the profile takes the report's values and the merged conditions, and the modal closes; on failure the profile is untouched and the error shown |
| FoodAnalyzer.IndexOf | features/FoodAnalyzer.tsx:26 | the first position of the text, or -1 exactly when it is absent |
| FoodAnalyzer.NextPlaceholder | features/FoodAnalyzer.tsx:26 | the next placeholder is always one of the three |
| FoodAnalyzer.PlaceholderRotation | features/FoodAnalyzer.tsx:10-26 | the placeholders cycle in order, an unknown text restarts at the first, and three ticks return to the start |
| FoodAnalyzer.ScoreColorOf | features/FoodAnalyzer.tsx:70 | green above 80, yellow above 50, red otherwise |
| FoodAnalyzer.ProgressWidth | features/FoodAnalyzer.tsx:62 | the bar is the share of the goal in percent, capped at 100, full exactly when the goal is reached |
| FoodAnalyzer.KeyMentionsDiabetes | features/FoodAnalyzer.tsx:95 | exactly the diabetes and prediabetes keys include `diabetes` |
| FoodAnalyzer.KeyLacksDiabetes | features/FoodAnalyzer.tsx:95 | no other condition key includes `diabetes` |
| FoodAnalyzer.CardsFor | features/FoodAnalyzer.tsx:95-98 | which condition cards show: a key containing `diabetes`, and the exact keys for liver, cholesterol and weight loss; `BloodSugarCard` states the first |
| FoodAnalyzer.BloodSugarCard | features/FoodAnalyzer.tsx:95 | the blood-sugar card shows exactly for diabetes or prediabetes |
| FoodAnalyzer.Analyzer.constructor | features/FoodAnalyzer.tsx:18-22 | the screen starts empty on the first placeholder |
| FoodAnalyzer.Analyzer.SetFoodName | features/FoodAnalyzer.tsx:121 | typing changes only the description |
| FoodAnalyzer.Analyzer.RotatePlaceholder | features/FoodAnalyzer.tsx:24-29 | a tick moves to the next placeholder and changes nothing else |
| FoodAnalyzer.NewMeal | features/FoodAnalyzer.tsx:44-50 | the logged meal: the given id, the description as name, the timestamp, lunch, the analysis |
| FoodAnalyzer.Analyzer.HandleAnalyze | features/FoodAnalyzer.tsx:31-58 | a blank description or missing profile only shows the prompt; otherwise a decoded analysis is shown and logged as a lunch, or the failure message is shown and the log kept |
| Chatbot.GreetingNamesConditions | features/Chatbot.tsx:10-14 | the greeting names every condition of the profile |
| Chatbot.AlternatingSenders | features/Chatbot.tsx:31-57 | in a transcript the user wrote exactly the odd positions, and the length is odd |
| Chatbot.PendingAfterQuestion | features/Chatbot.tsx:37-39 | posting a question to a settled transcript leaves it pending: settled, then the user's message |
| Chatbot.SuggestionsBeforeFirstSend | features/Chatbot.tsx:93 | for a settled or a pending transcript, the suggested questions show exactly while no answer beyond the greeting has arrived, so also while the first answer is pending |
| Chatbot.Greeting | features/Chatbot.tsx:9-17 | the opening text: the conditions with `_` as spaces joined by `, `, or `undefined` without a profile; what it names is stated by `GreetingNamesConditions` |
| Chatbot.AnswerText | features/Chatbot.tsx:43-57 | the answer's text: the reply, or the apology when the call threw |
| Chatbot.SendDisabled | features/Chatbot.tsx:107 | the send button is disabled exactly when the input is whitespace only (JavaScript's whitespace set) |
| Chatbot.Chat.constructor | features/Chatbot.tsx:9-19 | the transcript opens with the greeting alone |
| Chatbot.Chat.SetInput | features/Chatbot.tsx:102 | typing changes only the input |
| Chatbot.AlternatingExtend | features/Chatbot.tsx:37-51 | a user message followed by an answer keeps the transcript alternating and takes it past the greeting |
| Chatbot.Chat.PostQuestion | features/Chatbot.tsx:31-39 | before the call the user's message is appended, the input cleared and the typing indicator on; a settled transcript becomes pending |
| Chatbot.Chat.PostAnswer | features/Chatbot.tsx:43-59 | after the call the answer is appended and the typing indicator off, the input untouched |
| Chatbot.Chat.Exchange | features/Chatbot.tsx:31-60 | the model is asked with the transcript as it was before the send; the question and its answer (or the apology) are appended and the transcript keeps alternating |
| Chatbot.Chat.HandleSend | features/Chatbot.tsx:28-61 | a blank message or missing profile changes nothing; otherwise the user message and the answer (or the apology) are appended, the input cleared, and the transcript keeps alternating |

## Left out

- The external model: prompts, model names, system instruction and response parsing inside the SDK are an oracle `ask`. Only what the code does with the reply text is modelled.
- Reading the uploaded file as base64 (`fileToBase64`): the request carries the file's name, size and type only.
- `JSON.parse` is a parameter `decode`. Field types of the decoded value are not checked by the source either.
- `encodeURIComponent` is a parameter `encode`.
- Rendering a fractional number inside a template string is a parameter `fmt`.
- Text.ParseFloat: accepts `[+-]digits[.digits]` with at least one whole digit or fraction digit. Exponents, `Infinity` and leading whitespace are not modelled; leading-dot forms such as `.5` and `-.5` are. Its contract states only when NaN can come out, plus the integer round trip.
- Meal numbers: the score, calories and macros of a `FoodAnalysis` are integers here. The source takes whatever `JSON.parse` yields, so a reply with `"protein": 12.5` gives fractional sums and CSV cells; those are not modelled.
- Binary floating point: all arithmetic is exact (`int` and `real`). `toFixed`, the progress division and `Math.round` are computed without rounding error.
- Dates: `new Date(...)`, `toISOString` and `toLocaleDateString` are not modelled. Timestamps are taken as ISO-8601 text. The diary compares `YYYY-MM-DD` keys character by character, which is their calendar order. The weekday label of a chart bar is left out.
- `uuid`, `Date.now()` and the current time are passed in as parameters.
- Persistence to `localStorage` (`useLocalStorage`) and the 500 ms loading timer.
- Concurrency: an analysis, upload or chat request is modelled as one atomic step. Interleavings of overlapping requests are not modelled, nor the stale transcript a React closure may hold. While an answer is pending the chat still offers the suggestions and the send button (`isTyping` does not disable it), so the source accepts a second send then. The model only captures the pending transcript between the two halves of one send (`Chatbot.Pending`), and its alternation holds of settled transcripts.
- `addMealToLog` copies the log shallowly and then `unshift`s into a date's array. That array is shared with the previous state. The model builds a new bucket, so this aliasing is not modelled.
- The label lookup `mappings[key]` also matches inherited `Object.prototype` names such as `constructor`. The model's table holds only the ten labels.
- Numeric profile fields: age, height, current weight and target weight are `parseInt(...) || null` integers (features/Onboarding.tsx:175, 229-233). Water intake is the number on the clicked 1–4 button, with no parsing (features/Onboarding.tsx:248). Sleep hours is the slider's `parseFloat` value, a real (features/Onboarding.tsx:266). The text parsing is not modelled: an edit carries the parsed value, or none for NaN.
- `handleMultiSelectChange` is generic over the field. Only its use on `conditions` is modelled.
- Rendering: JSX layout, charts, badges, icons, condition tile colours, card border colours, scrolling and the DOM download link of the CSV export.
- `features/MealSuggester.tsx`, `App.tsx`, `constants.ts`, `components/` and the remaining screens are not part of this model.
- FoodAnalyzer.ProgressWidth: requires a positive goal. The screen only draws bars against 50, 150 and 50.
- Onboarding.Wizard.HandleChange: requires the edit to belong to the current step. Each screen only offers its own fields.
- Onboarding.Wizard.HandleMultiSelectChange: requires step 2, the only screen showing the condition tiles.
- Onboarding.Wizard.HandleSaveProfile: requires the last step. It is only reached from `handleNext` there.
