# Couple wellness app — verified model of its logic

The application is a React front end with a Supabase back end. Two people track meals, workouts and moods together, and AI-generated workouts and recipes are streamed to them. Most of the code is UI and database calls. This project models the parts that are logic, and proves what they do:

- the dashboard's activity aggregation: the couple streak, the rolling seven-day counts, the dominant mood, weekly-target parsing, pagination and reset;
- the line decoder that reads the AI answer as it streams in, and the state handling of the two generator components that use it;
- the goal-progress card;
- the SPA fallback of the Cloudflare worker;
- the sign-in page's guards, backend-call sequencing and recovery-mode detection;
- the `ai-coach` edge function's dispatch and status mapping;
- the week strip's day remapping;
- the partner message card.

The model follows the code as written:

- The stream decoder splits every chunk on `"\n"` by itself. A line cut across two chunks is lost. `data: [DONE]` is skipped and does not stop the loop.
- The goal card computes its percentages from a fixed list, with no clamp. The dashboard passes it counts and targets, and the card ignores them.

Timestamps are integers:

- a local day number;
- a millisecond instant.

What the code gets from the outside world is a parameter of the model:

- backend replies, the clock and parsed JSON;
- `URLSearchParams`, the asset store and the AI gateway.

## Model

| member | source | states |
|---|---|---|
| Streak.ComputeStreak | src/pages/Index.tsx:368-390 | The method builds the per-day count map over all three histories, then probes back from today. It returns exactly `Streak` of the event days. |
| Streak.CountByDay | src/pages/Index.tsx:375-379 | The map ends with each day's number of events: its multiplicity among the event days. |
| Streak.Streak | src/pages/Index.tsx:380-388 | The streak is between 0 and 30. It is 0 when today has no event. Every day of the run ending today has an event. If the run is shorter than 30, the day before it has none. |
| Streak.StreakCharacterized | src/pages/Index.tsx:369-388 | Any count with those properties equals the streak. The streak is the length of the run of event days ending today, capped at 30. |
| Streak.RunUnique | src/pages/Index.tsx:380-388 | The run length from a day, over at most n days, is determined by its three characterizing properties. |
| Streak.Run | src/pages/Index.tsx:380-388 | The probe loop counts at most n days back from d. Every counted day has an event. Stopping early means the next day back has none. |
| Streak.AddingEventNeverLowers | src/pages/Index.tsx:375-386 | Adding an event never lowers the streak. |
| Streak.RunMonotone | src/pages/Index.tsx:380-388 | A superset of event days gives a run at least as long. |
| Streak.FarEventIsIgnored | src/pages/Index.tsx:382-386 | An event dated after today, or 30 or more days before today, leaves the streak unchanged. |
| Streak.RunIgnoresFarDays | src/pages/Index.tsx:382-386 | An event outside the probed days does not change the run. |
| Streak.EventDays | src/pages/Index.tsx:370-374 | The spread of the three histories: a day is in the list iff some meal, exercise or mood falls on it, and there is one entry per event. |
| Activity.Filter | src/pages/Index.tsx:415-418 | `filter` keeps exactly the elements that satisfy the predicate, and the result is no longer than the input. |
| Activity.FilterAppend | src/pages/Index.tsx:415-418 | Filtering distributes over concatenation. |
| Activity.FilterWeaker | src/pages/Index.tsx:415-417 | A weaker predicate never selects fewer elements. |
| Activity.TogetherAtMostExercises | src/pages/Index.tsx:415-417 | The week's together count never exceeds its exercise count. |
| Activity.ExerciseAtCutoffCounts | src/pages/Index.tsx:414-415 | The cutoff is inclusive: one more exercise counts iff its instant is at or after the cutoff. |
| Activity.HealthyOnlyWhenTrue | src/pages/Index.tsx:416 | A meal counts as healthy only when it is in the window and `healthy` is exactly true. Null and false do not count. |
| Activity.TogetherWhenMarked | src/pages/Index.tsx:417 | One more exercise adds one to the together count exactly when it is at or after the cutoff and `together` is true. |
| Activity.CheckinAtCutoffCounts | src/pages/Index.tsx:437 | One more mood adds one to the check-in count exactly when it is at or after the cutoff, whatever its label. |
| Activity.CheckinsIgnoreLabel | src/pages/Index.tsx:437 | The check-in count does not depend on the mood labels. |
| Activity.ExercisesThisWeek | src/pages/Index.tsx:414-415 | The week's exercise count is at most the history's length, and it is zero exactly when no exercise is at or after the cutoff. |
| Activity.HealthyMealsThisWeek | src/pages/Index.tsx:416 | The healthy-meal count is at most the history's length, and it is zero exactly when no in-window meal has `healthy` exactly true. |
| Activity.TogetherThisWeek | src/pages/Index.tsx:417 | The together count is at most the history's length, and it is zero exactly when no in-window exercise was done together. |
| Activity.CheckinsThisWeek | src/pages/Index.tsx:437 | The check-in count is at most the history's length, and it is zero exactly when no check-in is at or after the cutoff. |
| Activity.WindowMoods | src/pages/Index.tsx:418 | The window's labels are the moods of the in-window rows, in order. There are exactly as many as the check-in count. |
| DominantMood.ComputeDominant | src/pages/Index.tsx:419-422 | The frequency map and the strictly-greater scan return exactly `Dominant` of the window's labels. |
| DominantMood.CountMoods | src/pages/Index.tsx:419-420 | The map's keys, in insertion order, are the distinct labels. Each count is the label's multiplicity. |
| DominantMood.Dominant | src/pages/Index.tsx:419-422 | The dominant label is absent exactly when the window is empty. Otherwise it is one of the window's labels. |
| DominantMood.DominantIsFirstMostFrequent | src/pages/Index.tsx:419-422 | The winner is a label with the highest count. On a tie it is the label seen first. |
| DominantMood.TieGoesToFirst | src/pages/Index.tsx:420-422 | A label tied with the winner was first seen strictly after it. |
| DominantMood.Best | src/pages/Index.tsx:421-422 | The scan's `best` is the maximum count. `top` is absent iff `best` is 0. Otherwise `top` has count `best` and comes before every other key with that count. |
| DominantMood.Distinct | src/pages/Index.tsx:420 | The map's keys are exactly the labels. |
| DominantMood.DistinctSnoc | src/pages/Index.tsx:420 | Setting a label adds it as a new key only the first time it is seen. |
| DominantMood.DistinctOrder | src/pages/Index.tsx:420-421 | The keys iterate in the order of their first occurrence in the labels. |
| DominantMood.FirstIndexUnique | src/pages/Index.tsx:420 | A position holding the value, with no earlier occurrence, is the first occurrence. |
| DominantMood.FirstIndex | src/pages/Index.tsx:420 | The first position holding a label: it holds the label, and no earlier position does. |
| DominantMood.FirstIndexSnoc | src/pages/Index.tsx:420 | A later `set` of a new label does not move an existing key's first position. |
| DominantMood.AverageMood | src/pages/Index.tsx:423-424 | A label in the table gets its own glyph. No label, or a label outside the table, gets the default "😊". |
| DominantMood.ShownMood | src/pages/Index.tsx:418-424 | The glyph shown for the week is the table's glyph of the dominant label among the in-window check-ins. A week without check-ins shows "😊". Any other glyph shown is the glyph of a mood logged inside the window. |
| DominantMood.StrictLeaderIsShown | src/pages/Index.tsx:418-424 | A label that strictly outnumbers every other label of the week is the dominant one, and its glyph is shown ("😊" when it is outside the table). |
| DominantMood.MajorityExample | src/pages/Index.tsx:419-422 | ["Ok", "Bem", "Bem"] gives "Bem". |
| DominantMood.TieExample | src/pages/Index.tsx:421-422 | A one-to-one tie between "Baixo" and "Ok" goes to "Baixo", the first one seen. |
| DominantMood.UnknownLabelExample | src/pages/Index.tsx:423-424 | An unmapped label can win, and then "😊" is shown. |
| Dashboard.LoadTargets | src/pages/Index.tsx:91-101 | An absent or empty stored value keeps the current targets. So does a parse failure, which is caught. |
| Dashboard.TargetsFieldwise | src/pages/Index.tsx:106-116 | Each field falls back to 3, 14 or 7 on its own when it is missing, non-numeric or zero. Any other value, negatives included, is kept. |
| Dashboard.FromDateFor | src/pages/Index.tsx:289-306 | The query has no lower bound exactly for "all". |
| Dashboard.PageWindow | src/pages/Index.tsx:318 | A page spans `limit` = 10 offsets, starting at offset 0 or later for any page ≥ 1. |
| Dashboard.PagesAreContiguous | src/pages/Index.tsx:318 | Page p+1 starts right after page p ends. |
| Dashboard.OffsetOnOnePage | src/pages/Index.tsx:318 | Offset o is on page p iff p = o div 10 + 1, so the pages are disjoint and cover every offset. |
| Dashboard.PreviousPage | src/pages/Index.tsx:507 | "Anterior" never goes below 1, and otherwise goes back one page. |
| Dashboard.Dashboard.QueryOf | src/pages/Index.tsx:309-318 | A history's query uses the lower bound of that history's own range, with none exactly for "all". It asks for exactly the offsets that belong on that history's own page. In a valid state the first offset is non-negative. |
| Dashboard.Dashboard.constructor | src/pages/Index.tsx:25-38 | The initial state has no couple, empty histories, "today" on page 1 for every history, targets 3/14/7, and is not resetting. |
| Dashboard.Dashboard.SetPager | src/pages/Index.tsx:502-508 | Setting one history's range and page leaves the other histories' pagers and all other state unchanged. |
| Dashboard.Dashboard.SelectRange | src/pages/Index.tsx:502 | The range changes and the page resets to 1. Other histories and all other state are unchanged. |
| Dashboard.Dashboard.Previous | src/pages/Index.tsx:507 | The page becomes `max(1, p - 1)`. Nothing else changes. |
| Dashboard.Dashboard.Next | src/pages/Index.tsx:508 | The page grows by one, with no upper bound. Nothing else changes. |
| Dashboard.Dashboard.RestoreDefaults | src/pages/Index.tsx:584-585 | The targets become 3/14/7. Nothing else changes. |
| Dashboard.Dashboard.ApplySavedTargets | src/pages/Index.tsx:104-116 | The targets become `LoadTargets` of the old targets. Nothing else changes. |
| Dashboard.Dashboard.Reset | src/pages/Index.tsx:446-471 | Without a couple, nothing changes. Otherwise the histories are emptied exactly when the awaited `Promise.all` resolves, and `resetting` ends false either way. Pages and targets are untouched. |
| StreamDecoder.DecodeStream | src/components/AIWorkoutGenerator.tsx:63-86 | The final text is the concatenation of every non-empty content of every data line of every chunk, with each chunk split by itself. The published values are the successive prefixes. The meal generator runs the same loop (src/components/AIMealGenerator.tsx, lines 67-90). |
| StreamDecoder.DecodeLines | src/components/AIWorkoutGenerator.tsx:72-85 | One chunk's lines append exactly their non-empty contents to the accumulator, and publish one snapshot per append. |
| StreamDecoder.IsDataLine | src/components/AIWorkoutGenerator.tsx:73 | A data line carries the "data: " prefix, and its payload is anything but "[DONE]", including the empty payload. |
| StreamDecoder.StreamText | src/components/AIWorkoutGenerator.tsx:64-84 | Built chunk by chunk, each chunk adding the contents of its own lines, the text equals the contents of all the stream's lines concatenated in order. |
| StreamDecoder.LineContent | src/components/AIWorkoutGenerator.tsx:73-77 | A line contributes only if it starts with "data: ", is not "data: [DONE]", and the parsed payload has non-empty content. |
| StreamDecoder.Contents | src/components/AIWorkoutGenerator.tsx:72-80 | The contributions are non-empty, and there are at most as many as there are lines. |
| StreamDecoder.SplitLines | src/components/AIWorkoutGenerator.tsx:70 | `split("\n")` yields at least one line. |
| StreamDecoder.ContentsAppend | src/components/AIWorkoutGenerator.tsx:72-85 | Decoding concatenated line lists gives the concatenated contributions. |
| StreamDecoder.SnapshotsAppend | src/components/AIWorkoutGenerator.tsx:77-79 | The snapshots of a longer run continue from the text accumulated so far. |
| StreamDecoder.Snapshots | src/components/AIWorkoutGenerator.tsx:78-79 | There is one published value per appended content. |
| StreamDecoder.ContentsSnoc | src/components/AIWorkoutGenerator.tsx:72-80 | One more line adds its content, if it has one, at the end, and otherwise nothing. |
| StreamDecoder.SnapshotsSnoc | src/components/AIWorkoutGenerator.tsx:78-79 | One more append publishes the accumulator extended by that content. |
| StreamDecoder.ConcatAppend | src/components/AIWorkoutGenerator.tsx:78 | Appending contents in two runs gives the same text as appending them in one. |
| StreamDecoder.StreamLinesSnoc | src/components/AIWorkoutGenerator.tsx:65-72 | One more chunk adds its own split lines after the earlier ones. |
| StreamDecoderProperties.SnapshotsOnlyGrow | src/components/AIWorkoutGenerator.tsx:63-79 | Every published value strictly extends every earlier one, and the last one is the full text. |
| StreamDecoderProperties.JoinSplit | src/components/AIWorkoutGenerator.tsx:70 | Joining the lines with "\n" restores the chunk, and no line holds a newline. |
| StreamDecoderProperties.LinesHaveNoNewline | src/components/AIWorkoutGenerator.tsx:70 | No line of `split("\n")` holds a newline. |
| StreamDecoderProperties.SplitAfterNewline | src/components/AIWorkoutGenerator.tsx:70 | Text ending in a newline splits into its lines plus a final empty line, and the text after it adds its own lines. |
| StreamDecoderProperties.SplitJoin | src/components/AIWorkoutGenerator.tsx:70 | Splitting a join of newline-free lines gives those lines back. |
| StreamDecoderProperties.SplitAtNewline | src/components/AIWorkoutGenerator.tsx:70 | Splitting at a newline splits the line lists. |
| StreamDecoderProperties.SplitWithoutNewline | src/components/AIWorkoutGenerator.tsx:70 | A chunk with no newline is one line. |
| StreamDecoderProperties.SilentLineIsIsolated | src/components/AIWorkoutGenerator.tsx:73-83 | A non-data line, or a line with invalid JSON, no content or empty content, removes nothing from the lines around it. |
| StreamDecoderProperties.DoneDoesNotStop | src/components/AIWorkoutGenerator.tsx:65-73 | "data: [DONE]" contributes nothing, and the data lines after it are still decoded. |
| StreamDecoderProperties.NewlineAlignedChunking | src/components/AIWorkoutGenerator.tsx:69-72 | When every chunk ends with a newline, chunk-by-chunk decoding equals decoding the whole stream at once. |
| StreamDecoderProperties.AppendAfterNewline | src/components/AIWorkoutGenerator.tsx:70 | Text ending in a newline decodes independently of the text after it. |
| StreamDecoderProperties.SplitPayloadIsLost | src/components/AIWorkoutGenerator.tsx:69-83 | A data line whose JSON is cut by a chunk boundary yields "". The same bytes in one chunk yield the content. |
| StreamDecoderProperties.SplitLineIsSilent | src/components/AIWorkoutGenerator.tsx:73-83 | A cut data line whose head does not parse, followed by a tail that is not a data line, yields "". |
| StreamDecoderProperties.WholeLineDecodes | src/components/AIWorkoutGenerator.tsx:73-79 | A single data line with truthy content decodes to exactly that content. |
| StreamDecoderProperties.NoNewlineInDataLine | src/components/AIWorkoutGenerator.tsx:70-73 | Prefixing "data: " to a newline-free payload keeps it one line. |
| StreamDecoderProperties.ConcatEndsWithNewline | src/components/AIWorkoutGenerator.tsx:69-70 | Chunks that each end with a newline join into text that ends with one. |
| AIGenerators.NotOkMessage | src/components/AIWorkoutGenerator.tsx:56-58 | A non-OK response raises the body's `error` if it is truthy, and the fallback otherwise. |
| AIGenerators.Generator.Generate | src/components/AIWorkoutGenerator.tsx:31-96 | The result is "" at the start. On any error it becomes null, with the error's toast. With no body it stays "" and reports success. With a body, every snapshot is shown and the decoded text is the result. `isGenerating` is always false at the end. The meal handler (src/components/AIMealGenerator.tsx, lines 36-100) is the same state machine. |
| AIGenerators.Generator.Workout | src/components/AIWorkoutGenerator.tsx:28-58 | The workout component starts idle with a null result, and falls back to "Erro ao gerar treino". |
| AIGenerators.Generator.Meal | src/components/AIMealGenerator.tsx:33-62 | The meal component starts idle with a null result, and falls back to "Erro ao gerar receita". |
| AIGenerators.Generator.Show | src/components/AIWorkoutGenerator.tsx:33-92 | A setter call records the new value as the result and appends it to what was shown. |
| AIGenerators.Published | src/components/AIWorkoutGenerator.tsx:79 | Each snapshot is handed to the setter once, in order. |
| AIGenerators.FinalSnapshotIsText | src/components/AIWorkoutGenerator.tsx:63-79 | The last value shown is the decoded text. With no content the text is "". |
| CoupleGoals.Progress | src/components/CoupleGoals.tsx:31 | `Math.round((goal.current / goal.target) * 100)` is the integer nearest to 100·current/target, with halves rounded up. |
| CoupleGoals.IsComplete | src/components/CoupleGoals.tsx:31-32 | A complete goal shows at least 100%. An incomplete one shows at most 100%. |
| CoupleGoals.View | src/components/CoupleGoals.tsx:31-32 | A goal's row shows that percentage, and it is complete iff current ≥ target. |
| CoupleGoals.Card | src/components/CoupleGoals.tsx:14-32 | The card shows one row per goal of the fixed list, in order. |
| CoupleGoals.ProgressEndpoints | src/components/CoupleGoals.tsx:31-32 | current = target gives 100 and complete. current = 0 gives 0 and not complete. |
| CoupleGoals.ProgressIsNotClamped | src/components/CoupleGoals.tsx:31 | 20 of 14 shows 143: there is no clamp. |
| CoupleGoals.ProgressMonotone | src/components/CoupleGoals.tsx:31 | For a fixed target, more done never shows less. |
| CoupleGoals.CompletionIsNotRounded | src/components/CoupleGoals.tsx:31-32 | 199 of 200 shows 100 but is not complete. |
| CoupleGoals.CardContents | src/components/CoupleGoals.tsx:14-32 | The card always shows 67, 86 and 71, none complete. |
| Worker.LooksLikeFile | src/worker.ts:12 | True iff the path has a "." followed only by one or more ASCII letters or digits up to its end. |
| Worker.TrailingAlnum | src/worker.ts:12 | Counts the longest run of ASCII letters and digits that ends the path. |
| Worker.RunEndsAtNonAlnum | src/worker.ts:12 | That run stops right after the last non-alphanumeric character. |
| Worker.LooksLikeFileExamples | src/worker.ts:12 | True for "/app.js" and "/v1.2". False for "/a.b/c", "/x." and "/". |
| Worker.RewritesToIndex | src/worker.ts:11-14 | The fallback applies exactly to a GET answered 404 whose path has no "." followed only by ASCII letters and digits up to its end. |
| Worker.Fetch | src/worker.ts:4-19 | The worker rewrites to "/index.html" on the same origin exactly for a GET that got a 404 on a path that does not look like a file, and then returns that second fetch. Otherwise it returns the first response unchanged. It never makes more than two asset fetches. |
| Worker.NonGetIsPassedThrough | src/worker.ts:11-14 | A 404 for a non-GET request is returned as is, after one fetch. |
| Auth.SignupProblem | src/pages/Auth.tsx:48-59 | Sign-up is allowed iff the e-mail has "@", the passwords match and the password is at least 6 long. Otherwise the first failed check, in that order, is reported. |
| Auth.NewPasswordProblem | src/pages/Auth.tsx:127-134 | The new password is accepted iff it is at least 6 long and matches. Length is checked first. |
| Auth.GuardOrderDiffers | src/pages/Auth.tsx:48-134 | Both chains accept the same passwords. A short mismatched password is "different" on sign-up and "too short" on reset. |
| Auth.LowerAscii | src/pages/Auth.tsx:69 | `toLowerCase` keeps the length and lowers each ASCII letter in place. |
| Auth.IsAlreadyRegistered | src/pages/Auth.tsx:69 | The retry applies exactly when a message is present and some window of it lower-cases to "already registered". |
| Auth.PhraseWindows | src/pages/Auth.tsx:69 | Lower-casing the whole message and then searching it finds the phrase exactly when some window of the message lower-cases to the phrase. |
| Auth.AlreadyRegisteredAnyCase | src/pages/Auth.tsx:69 | "already registered" is detected in any ASCII letter case. |
| Auth.AbsentMessageIsNotRegistered | src/pages/Auth.tsx:69 | A missing message never triggers the retry. A mixed-case phrase does. |
| Auth.UpToQuestion | src/pages/Auth.tsx:24 | The text before the first "?": a prefix with no "?", followed by "?" or the end. |
| Auth.RecoveryQuery | src/pages/Auth.tsx:22-24 | With no "?" in the hash, the search string is used. Otherwise the text between the hash's first "?" and the next one is used. |
| Auth.FindsRecovery | src/pages/Auth.tsx:22-28 | With no "?" in the hash, recovery mode is chosen exactly when the search string's `type` is "recovery". With a "?", the search string plays no part. |
| Auth.HashSegmentWins | src/pages/Auth.tsx:24 | With "?params" in the hash, `params` up to the next "?" is used, whatever the search string. |
| Auth.StopsAtQuestion | src/pages/Auth.tsx:24 | `split("?")` stops at the first "?". |
| Auth.UpToQuestionAppend | src/pages/Auth.tsx:24 | A prefix with no "?" passes through unchanged. |
| Auth.SearchQueryExample | src/pages/Auth.tsx:24 | A hash without "?" defers to the search string. |
| Auth.CardTitle | src/pages/Auth.tsx:150 | The title is "Entrar" iff the mode is login. Sign-up and recovery both show "Criar conta". |
| Auth.AuthPage.constructor | src/pages/Auth.tsx:12-31 | The page starts in login mode with empty fields, and switches to recovery iff `type` is "recovery". |
| Auth.AuthPage.OnLogin | src/pages/Auth.tsx:33-44 | One sign-in request. A failure shows its message and clears `loading`. A success navigates home with `loading` still set. |
| Auth.AuthPage.OnSignup | src/pages/Auth.tsx:46-88 | Failed guards make no request. An "already registered" error triggers one login retry, and a failed retry shows the original sign-up error. Every path after the guards ends with `loading` false. |
| Auth.AuthPage.SendMagicLink | src/pages/Auth.tsx:90-106 | An empty e-mail is refused with no request. Otherwise one OTP request is made and `loading` ends false. |
| Auth.AuthPage.RequestReset | src/pages/Auth.tsx:108-123 | An empty e-mail is refused with no request. Otherwise one reset request is made and `loading` ends false. |
| Auth.AuthPage.ApplyNewPassword | src/pages/Auth.tsx:125-144 | Failed guards make no request. Only a successful update returns to login mode, and `loading` ends false after the request. |
| Auth.AuthPage.SelectMode | src/pages/Auth.tsx:157-158 | The tab buttons set the mode and nothing else. |
| Auth.AuthPage.Edit | src/pages/Auth.tsx:164-208 | An input changes its own field only. |
| AICoach.Handle | supabase/functions/ai-coach/index.ts:8-128 | OPTIONS gets an empty CORS response and no call. A bad body, a missing key or null preferences give 500 with no call. Otherwise exactly one gateway call is made, carrying the prompt the dispatch on `type` selects, and its answer is mapped. Every response carries CORS. |
| AICoach.MapUpstream | supabase/functions/ai-coach/index.ts:98-121 | An OK upstream is streamed through as `text/event-stream`. 429 keeps its status with the rate-limit error, and 402 with the credits error. Any other failure becomes 500 with the generic gateway error. A thrown fetch becomes 500 with its message. |
| AICoach.ErrorStatuses | supabase/functions/ai-coach/index.ts:98-117 | Only 200, 402, 429 and 500 are returned. 429 and 402 come only from the same upstream status. Every non-200 status carries an error. |
| AICoach.Prompt | supabase/functions/ai-coach/index.ts:21-80 | "workout" selects the trainer, "meal" the nutritionist, and anything else the coach, each with its own prompt lines. |
| AICoach.BuildPrompt | supabase/functions/ai-coach/index.ts:21-80 | The variables, starting empty and reassigned branch by branch, end as exactly the dispatched prompt. |
| AICoach.WorkoutLines | supabase/functions/ai-coach/index.ts:35-40 | Each absent workout field gets its default line, and each given one its value verbatim. The couple line appears iff `together` is truthy. |
| AICoach.MealLines | supabase/functions/ai-coach/index.ts:60-64 | Absent meal fields get defaults, and given ones their values verbatim. A given cuisine is used verbatim. An absent cuisine leaves an empty line. |
| AICoach.CoachLines | supabase/functions/ai-coach/index.ts:79 | The question, or the default question when it is absent. |
| AICoach.GivenValuesAreKept | supabase/functions/ai-coach/index.ts:36-39 | A given workout field's text is used verbatim. |
| AICoach.EmptyWorkoutPrompt | supabase/functions/ai-coach/index.ts:35-40 | With no preferences, a workout uses every default and no couple line. |
| WeeklyProgress.TodayIndex | src/components/WeeklyProgress.tsx:29-30 | Sunday maps to 6, and every other day d maps to d - 1, all within 0..6. |
| WeeklyProgress.WeekdayOf | src/components/WeeklyProgress.tsx:29-30 | A column stands for a `getDay()` value in 0..6. |
| WeeklyProgress.RemapIsBijection | src/components/WeeklyProgress.tsx:29-30 | The mapping and its inverse undo each other: a bijection onto the seven Monday-first columns. |
| WeeklyProgress.ColumnView | src/components/WeeklyProgress.tsx:43-85 | A column is highlighted exactly when it is today, and faded exactly when it is after today. Future bars are muted with no marker. Up to today a bar is coloured exactly when that partner exercised. The marker shows exactly on such days spent together. |
| WeeklyProgress.Week | src/components/WeeklyProgress.tsx:42-85 | There are seven columns. Exactly the remapped today is highlighted, and the future is exactly the later columns, muted and unmarked. Up to today each column shows that day's data. |
| WeeklyProgress.FutureColumns | src/components/WeeklyProgress.tsx:44 | There are 6 - todayIndex future columns: none on Sunday, six on Monday. |
| WeeklyProgress.FuturePrefix | src/components/WeeklyProgress.tsx:44 | Counts the future columns among the first k. |
| PartnerMessages.MessageBoard.constructor | src/components/PartnerMessages.tsx:23-30 | The history starts as the three mock messages. |
| PartnerMessages.MessageBoard.Send | src/components/PartnerMessages.tsx:32-39 | Exactly one message from "you" with the text is appended. Earlier messages and their order are unchanged. |
| PartnerMessages.Visible | src/components/PartnerMessages.tsx:56 | The visible list is the last min(4, n) messages, in order. |
| PartnerMessages.SentMessageIsShownLast | src/components/PartnerMessages.tsx:39-56 | After a send, the new message is the last one shown, after the earlier visible ones. |
| PartnerMessages.FirstOccurrence | src/components/PartnerMessages.tsx:93 | Absent iff the pattern does not occur. Otherwise it is an occurrence with none before it. |
| PartnerMessages.SearchFrom | src/components/PartnerMessages.tsx:93 | The first occurrence at or after a position. |
| PartnerMessages.RemoveFirst | src/components/PartnerMessages.tsx:93 | `replace(emoji, "")` cuts the first occurrence out and keeps the rest in order. Without an occurrence the text is unchanged. |
| PartnerMessages.Trim | src/components/PartnerMessages.tsx:93 | `trim()` keeps a middle piece: only spaces are removed at either end, and what remains neither starts nor ends with one. |
| PartnerMessages.LeadingSpaces | src/components/PartnerMessages.tsx:93 | Counts the maximal leading run of spaces. |
| PartnerMessages.TrailingSpacesOf | src/components/PartnerMessages.tsx:93 | Characterizes the maximal trailing run of spaces. |
| PartnerMessages.QuickLabel | src/components/PartnerMessages.tsx:93 | A quick message's label is its text with the first occurrence of the emoji cut out, then trimmed. It has no white space at its ends. When the emoji occurs, the label is shorter than the text by at least the emoji. When the emoji is absent and the text is already trimmed, the label is the text itself. |
| PartnerMessages.QuickLabelExample | src/components/PartnerMessages.tsx:10-93 | "Te amo! ❤️" is labelled "Te amo!". |

## Left out

- Supabase auth, storage and table reads and writes are left out, because they are network calls into a foreign SDK. Their results are parameters: `AuthError` options, the `deleted` flag of `Reset`, and stored strings. The history-loading effects are modelled only as the query they send (`QueryOf`), not as the rows the server returns.
- `fetch`, stream readers and `TextDecoder` are left out. Chunks are already-decoded strings, and the gateway's answer is an `Upstream` value.
- `JSON.parse` with the `choices[0].delta.content` lookup, and `URLSearchParams`, are parameters (`delta`, `parse`, `typeOf`), because their internals are outside this code.
- Calendar and time-zone arithmetic is left out: local-midnight keys, `setDate` across DST, and "now minus 7 days". Events carry a day number and an instant. The cutoff and the `fromDateFor` instants are inputs (`Clock`).
- The body of the `ai-coach` request that the generators build (selected goal, level and duration labels) is not modelled. The prompt texts are reduced to which line is chosen.
- `localStorage` persistence and the `Promise.all` concurrency of reset are left out. Reset takes one flag: whether `Promise.all` resolved rather than rejected.
- Dashboard.Dashboard.Reset: the source ignores the four results that `Promise.all` resolves to. A deletion that the backend refuses in-band, as `{ error }`, still empties the three lists and reports "Dados do casal resetados". The model has no per-deletion result, so it does not distinguish that case.
- The hard-coded streak history numbers of the progress tab and the random week data of the week strip are left out. The week data is a parameter.
- Avatar and logo upload, onboarding redirects, presentational and timer-driven widgets, routing and build configuration are left out, because they hold no logic of their own.
- The target inputs of the settings form (`Number(e.target.value)` per field) and the "save targets" button are left out, because they only write storage.
- CoupleGoals.Progress: uses exact rational rounding where the source rounds a floating-point quotient. Ties that floating point misrepresents are not modelled.
- Dashboard.LoadTargets: `Number(...)` is modelled as NaN or a finite real; `Infinity` is not modelled.
- DominantMood.AverageMood: the glyph table is a plain map. A label such as "toString", which the source would look up on the object's prototype, is not modelled.
- Auth.LowerAscii: only ASCII letters are lowered. Non-ASCII case folding is not modelled.
- Auth.SignupProblem: length is counted in code points, where JavaScript counts UTF-16 code units. The two differ only for characters outside the Basic Multilingual Plane.
- Auth.NewPasswordProblem: length is counted in code points, as above.
- PartnerMessages.Trim: removes ASCII white space, the no-break space and the byte-order mark. `trim()` also removes the other Unicode space separators (category Zs, such as U+2003) and the line terminators U+2028 and U+2029. Those are not modelled.
- StreamDecoder.LineContent: the `delta` parameter yields the text that `+=` would append, or "" for a falsy content. A truthy content whose string form is empty, such as `[]`, still makes the source call the setter with an unchanged text. The model treats it as no content, so `SnapshotsOnlyGrow` (each published value strictly extends the previous one) holds for the model but not for such a stream.
- An `occurred_at` that does not parse becomes an Invalid Date. In the streak count, `toISOString()` then throws a RangeError while the dashboard renders (src/pages/Index.tsx:377). In the weekly filters such a row compares false with the cutoff and is silently dropped. Events here always carry a day and an instant, so neither case is modelled.
- AICoach.Handle: a `type` that is not a string is modelled as absent. Preference values are modelled by the text they render to.
- AICoach.FieldLine: a preference is "given" when the text it renders to is non-empty. A truthy value whose text is empty, such as `[]`, takes the given branch in the source but gets the default line here.
