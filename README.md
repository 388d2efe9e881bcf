# Vibe writing editor: a verified model of its logic

This project is a Dafny model of the logic inside a browser writing editor. The editor scores the "vibe" of a draft between -1 and 1, shows that score in several widgets, and keeps a session record while the author writes. Most of the original code is React markup. The model keeps its statable rules:

- **Editor store.** One mutable record: content, the saved baseline, the current draft id, metadata, the vibe and its ten-entry history, the settings, and the session stats. It is the class `Store.EditorStore`.
- **Editor window.** How the current passage is cut from the text, the debounce slot, and whether a passage is analysed, skipped or given a fallback reason. Also saving with a cleaned baseline, loading and restoring a draft, the ambient colour, and the session-progression effect. This is `EditorWindow`, with the component state in the class `EditorWindow.EditorView`.
- **Analysis route.** The example analysis route checks, in order, the method, the authentication and the body. It then truncates the text, extracts and parses the model's JSON with a fallback, clamps the score, and maps provider errors to HTTP statuses. This is `AnalyzeExample`.
- **Placeholder routes.** The placeholder analysis and drafts routes are `AnalyzeStub` and `DraftsStub`.
- **Score widgets.** The five-bucket table at 0.5 / 0.2 / -0.2 / -0.5 is defined once in `Buckets`, and each widget's own wording is proved to follow it:
  - the draft list (`HomeScreen`);
  - the meter (`VibeMeter`);
  - the emotional-arc graph (`VibeProgression`);
  - the session card (`SessionInsights`).

  The ambient colour in the editor window differs from the table at -0.2 and -0.5. The writing coach uses other thresholds altogether (`WritingCoach.BandOf`). The hue, saturation and lightness mapping is `VibeUtils`, and the sparkline is `VibeSparkline`.
- **Small persisted state machines:**
  - the writing streak (`WritingStreak`);
  - the daily prompt (`DailyPrompt`);
  - the coach prompt selector (`CoachPrompts`);
  - the coach panel (`WritingCoach.Coach`);
  - the reading view's line classifier, word count and reading time (`ReadingMode`).

**Modelling choices.**
- Scores, coordinates and minutes are `real`.
- Instants are integer millisecond stamps (`Types.Stamp`). Calendar days are integer day numbers, so "yesterday" is `today - 1`.
- Every awaited call is a parameter of type `Reply<T>`: either the decoded reply or an exception. The same goes for other remote answers and for the model's text.
- Persisted browser storage becomes a field.
- JavaScript string behaviour is written out in `Text`:
  - the `\s` class;
  - `trim`;
  - `split(/\s+/).filter(w => w.length > 0).length` as `Text.WordCount`.
- JavaScript number behaviour is written out as well: `Math.round` is `Types.JsRound`, and `toFixed(2)` is `SessionInsights.Fixed2`.

**Where the code and its own comments or documentation differ, the model follows the code:**
- `setVibe` records every analysis. It does not drop a near-duplicate score; only the session-progression effect skips scores within 0.01 of the last point.
- The passage sent for analysis is trimmed, so it is a substring of the text but not always a prefix.
- The ambient colour uses `<= -0.5` and `<= -0.2`. So -0.2 is orange and -0.5 is red, where every other widget says neutral and flat.
- `saveDraft` makes the cleaned content the saved baseline. Content whose cleaned form differs, such as `x<p></p>`, still reads as unsaved right after a successful save.
- The drafts placeholder route refuses the PUT that the client sends for an existing draft.
- The session card's close button is undone at once, because the card's visibility is an input of the effect that shows it.
- The session card picks its emoji after rounding the average to two decimals. An average of 0.497 shows the emoji of 0.5.
- The writing-mode enumeration has two values, writer and vibe. There is no focus mode.

## Model

| member | source | states |
|---|---|---|
| Types.OrElse | src/components/EditorWindow.tsx:221 | `value \|\| fallback` on an optional string: a non-empty value wins, a missing or empty one gives the fallback |
| Types.Abs | src/lib/vibeUtils.ts:7 | `Math.abs`: non-negative, and equal to the argument or its negation |
| Types.JsRound | src/components/SessionInsights.tsx:24 | `Math.round` gives the integer within half of the argument, halves rounded up |
| Text.Trim | src/components/EditorWindow.tsx:350 | `trim()` is the substring that starts at the first non-whitespace character, neither starts nor ends with whitespace, and has only whitespace before and after it |
| Text.TrimEmptyIffBlank | src/components/EditorWindow.tsx:377 | `!text.trim()` holds exactly when every character is whitespace |
| Text.TrimOfTrimmed | src/components/EditorWindow.tsx:194 | a string that neither starts nor ends with whitespace is its own trim |
| Text.WordCountBounds | src/store.ts:199 | the whitespace-token count is at most the length, and 0 exactly for blank text |
| Text.WordCountJoin | src/components/ReadingMode.tsx:209 | word counts add up across a whitespace separator |
| Buckets.BucketOf | src/components/HomeScreen.tsx:100-107 | the five buckets, each exactly its half-open interval at 0.5 / 0.2 / -0.2 / -0.5 |
| Buckets.BucketMonotone | src/components/VibeMeter.tsx:18-24 | a higher score never lands in a lower bucket |
| Store.PushRecord | src/store.ts:114 | the new record first, then the old history in order, cut to ten entries |
| Store.PushAllNewestFirst | src/store.ts:112-126 | after any sequence of records, the history is the last ten filed, newest first |
| Store.SetVibeKeepsRepeats | src/store.ts:86-108 | two equal analyses in a row both enter the head of any history (no near-duplicate filter), and both add to a history with room for them |
| Store.MergeFocus | src/store.ts:177-180 | a partial focus update overwrites exactly the supplied fields |
| Store.MergeFocusIdempotent | src/store.ts:177-180 | applying the same partial update twice is applying it once; an empty one changes nothing |
| Store.MergeReading | src/store.ts:191-194 | a partial reading-mode update overwrites exactly the supplied fields |
| Store.MergeReadingIdempotent | src/store.ts:191-194 | the same partial update twice is once; an empty one changes nothing |
| Store.MergeSession | src/store.ts:224-230 | a partial session update overwrites exactly the supplied fields |
| Store.MergeFullPatch | src/store.ts:224-230 | an update that supplies every field replaces the record |
| Store.FreshSession | src/store.ts:198-210 | a session starts with no words written, the content's word count as baseline, no progression and no flow time |
| Store.EditorStore.constructor | src/store.ts:64-196 | the initial store: empty content and baseline, no draft, default metadata, no vibe, empty history, vibe mode, default settings, no session |
| Store.EditorStore.SetContent | src/store.ts:67 | sets the content; unsaved exactly when it differs from the baseline |
| Store.EditorStore.SetCurrentDraftId | src/store.ts:71 | sets the draft id and nothing else |
| Store.EditorStore.SetMetadata | src/store.ts:75 | replaces the metadata and nothing else |
| Store.EditorStore.UpdateTitle | src/store.ts:76-82 | changes the title and the update stamp, keeps the rest of the metadata |
| Store.EditorStore.SetWritingMode | src/store.ts:130 | sets the writing mode and nothing else |
| Store.EditorStore.AddVibeRecord | src/store.ts:112-126 | the history becomes `PushRecord` of the old one, the metadata is the old metadata carrying the new history, and the ten-entry bound is kept |
| Store.EditorStore.SetVibe | src/store.ts:86-108 | the vibe is set, one record is filed, and the metadata carries the history and the score as last vibe; the invariant is kept |
| Store.EditorStore.SetLastSaved | src/store.ts:135-154 | the baseline becomes the given content with the current stamp; unsaved exactly when the content differs from it |
| Store.EditorStore.ResetState | src/store.ts:157-166 | `IsReset`: content, id, metadata, vibe, history, mode and baseline return to their initial values, so nothing is unsaved; settings, session and reading view are not touched |
| Store.EditorStore.SetFocusSettings | src/store.ts:177-180 | the focus settings become `MergeFocus` of the old ones |
| Store.EditorStore.SetReadingModeSettings | src/store.ts:191-194 | the reading settings become `MergeReading` of the old ones |
| Store.EditorStore.StartSession | src/store.ts:198-210 | the session becomes `FreshSession` of the current content |
| Store.EditorStore.EndSession | src/store.ts:212-222 | no session stays none; otherwise only the end time is set |
| Store.EditorStore.UpdateSessionStats | src/store.ts:224-230 | no session stays none; otherwise the supplied fields are merged in |
| Store.EditorStore.ToggleReadingMode | src/store.ts:234 | the reading view flag flips |
| EditorWindow.LastSentenceEnd | src/components/EditorWindow.tsx:355-363 | the last index below `k` holding `.`, `!` or `?` followed by whitespace or the end, and -1 when there is none |
| EditorWindow.LastSentenceEndIs | src/components/EditorWindow.tsx:355-363 | a terminator with no later terminator is the one found |
| EditorWindow.GetCurrentPassage | src/components/EditorWindow.tsx:349-372 | the match loop returns `Passage(text)` |
| EditorWindow.PassageWithoutSentence | src/components/EditorWindow.tsx:365-368 | non-blank text without a complete sentence is returned unchanged |
| EditorWindow.TrimCutAfter | src/components/EditorWindow.tsx:371 | cutting one past the terminator and trimming keeps exactly the text from the first non-whitespace character through the terminator |
| EditorWindow.PassageThroughLastSentence | src/components/EditorWindow.tsx:370-371 | otherwise the passage runs from the first non-whitespace character through the last terminator |
| EditorWindow.PassageEndsSentence | src/components/EditorWindow.tsx:355-371 | such a passage ends with a terminator, and no complete sentence ends after it |
| EditorWindow.PassageIsSubstring | src/components/EditorWindow.tsx:349-372 | the passage always occurs in the text, so it is never longer |
| EditorWindow.PassageExample | src/components/EditorWindow.tsx:349-372 | "Hello world. This is great" gives "Hello world." |
| EditorWindow.BurstKeepsLast | src/components/EditorWindow.tsx:21-31 | a burst of calls leaves only the last call's arguments pending and runs nothing |
| EditorWindow.BurstRunsLastOnce | src/components/EditorWindow.tsx:21-31 | a burst followed by the quiet period runs the last call's arguments exactly once |
| EditorWindow.Debouncer.constructor | src/components/EditorWindow.tsx:25 | the slot starts empty |
| EditorWindow.Debouncer.Invoke | src/components/EditorWindow.tsx:27-30 | a call replaces whatever was pending |
| EditorWindow.Debouncer.Elapse | src/components/EditorWindow.tsx:29 | the timer runs the pending call, if any, and empties the slot |
| EditorWindow.NormalizeReply | src/components/EditorWindow.tsx:404-418 | a missing or sentinel reason is replaced by the bucket's fallback sentence; any other reason, and the score and error, are kept |
| EditorWindow.PlanAnalysis | src/components/EditorWindow.tsx:377-392 | blank text clears the vibe; an unchanged passage is skipped; otherwise the passage is sent, and it differs from the last one analysed |
| EditorWindow.Accepted | src/components/EditorWindow.tsx:420-430 | a reply is used exactly when it arrived and its normalised reason is not one of the two error reasons |
| EditorWindow.NormalizeSelectionReply | src/components/EditorWindow.tsx:450-463 | the same rule with the selection's own fallback sentences |
| EditorWindow.AmbientColor | src/components/EditorWindow.tsx:640-650 | away from -0.2 and -0.5 the ambient colour follows the bucket |
| EditorWindow.AmbientDisagreesAtBoundaries | src/components/EditorWindow.tsx:646-649 | at -0.2 and -0.5 the ambient colour is one bucket lower than the table |
| EditorWindow.StripEmptyParagraphs | src/components/EditorWindow.tsx:194 | the `replace` pass never lengthens the content |
| EditorWindow.StripWithoutMatch | src/components/EditorWindow.tsx:194 | content without `<p></p>` passes through unchanged |
| EditorWindow.StripLeadingEmptyParagraph | src/components/EditorWindow.tsx:194 | a leading `<p></p>` is removed |
| EditorWindow.StripConcat | src/components/EditorWindow.tsx:194 | when no `<p></p>` straddles the join, stripping a concatenation strips each part |
| EditorWindow.StripRemovesEmptyParagraph | src/components/EditorWindow.tsx:194 | a `<p></p>` between two parts is removed and the parts are stripped in turn |
| EditorWindow.CleanContent | src/components/EditorWindow.tsx:194 | the saved content is never longer, neither starts nor ends with whitespace, and content that is already clean (trimmed, no `<p></p>`) is saved as it is |
| EditorWindow.TrailingEmptyParagraphIsCleaned | src/components/EditorWindow.tsx:194 | `x<p></p>` is saved as `x` |
| EditorWindow.SaveMethod | src/lib/api.ts:18-23 | a save is a PUT exactly when the draft has a non-empty id |
| EditorWindow.ProgressionStep | src/components/EditorWindow.tsx:570-597 | a point is added only to an empty progression or after a move of more than 0.01; flow time grows only above 0.2; the word count is the growth since the session started |
| EditorWindow.ProgressionStaysSpread | src/components/EditorWindow.tsx:570-576 | neighbouring progression points always differ by more than 0.01 |
| EditorWindow.FlowNeverShrinks | src/components/EditorWindow.tsx:578-585 | with time moving forward, flow time never decreases |
| EditorWindow.EditorView.constructor | src/components/EditorWindow.tsx:57-77 | the component's initial state |
| EditorWindow.EditorView.AnalyzeText | src/components/EditorWindow.tsx:375-433 | follows `PlanAnalysis`: blank resets the vibe to 0 and clears the last passage; skip and refused replies change nothing; an accepted reply is applied through `setVibe` and becomes the last passage |
| EditorWindow.EditorView.AnalyzeSelection | src/components/EditorWindow.tsx:438-478 | blank clears the selection vibe without a call; a reply fills it and opens the coach in vibe mode for more than 20 characters; a failure changes nothing |
| EditorWindow.EditorView.SaveDraft | src/components/EditorWindow.tsx:181-232 | sends the cleaned content with PUT or POST; success adopts the id and makes the cleaned content the baseline, so the draft is unsaved exactly when content and cleaned content differ; failure sets only the error |
| EditorWindow.EditorView.LoadDraft | src/components/EditorWindow.tsx:111-166 | no id resets the store (`IsReset`) and keeps the error; a usable reply sets content, baseline and save stamp (nothing unsaved), id and metadata, files the stored vibe through `setVibe` when there is one, and schedules exactly the non-empty text for re-analysis; a failure sets the error and resets the store |
| EditorWindow.EditorView.RestoreVersion | src/components/EditorWindow.tsx:311-346 | no draft changes nothing; a usable reply sets content, baseline and stamp (nothing unsaved), closes the version list, and sets the metadata, with the stored vibe filed through `setVibe` when there is one; a failure sets only the error |
| EditorWindow.EditorView.LoadingSettled | src/components/EditorWindow.tsx:169-178 | the post-load effect analyses the editor text exactly when there is some, there is a draft id and loading has settled |
| EditorWindow.EditorView.LoadAndSettle | src/components/EditorWindow.tsx:111-178 | a usable draft with text is analysed twice, from the load's timer and from the effect; a failed load leaves the previous draft's text to be analysed; no id analyses nothing |
| EditorWindow.EditorView.RestoreAndSettle | src/components/EditorWindow.tsx:169-178 | after a restore of a saved draft, the effect analyses the editor text from before the restore, not the restored content |
| EditorWindow.EditorView.TrackFlow | src/components/EditorWindow.tsx:556-606 | with a session and a vibe the stats become `ProgressionStep`, otherwise they are unchanged |
| AnalyzeExample.Truncate | api-analyze-example.ts:57 | a prefix of at most 2000 characters, the whole text when shorter |
| AnalyzeExample.ExtractJson | api-analyze-example.ts:79-82 | an object is found exactly when some `{` precedes some `}`; it is braced at both ends and runs from the first `{` to the last `}` |
| AnalyzeExample.ParseOrFallback | api-analyze-example.ts:76-90 | no object or a failed parse gives score 0 with the apology; otherwise the parsed value |
| AnalyzeExample.Clamp | api-analyze-example.ts:93 | the result lies in [-1, 1] and equals an in-range score |
| AnalyzeExample.Handle | api-analyze-example.ts:30-161 | the handler's early returns and its catch block give `Outcome`, whose every status and message `AnalyzeExample.StatusOrder` fixes (405, 401, 400, 429, 500 with the configuration or generic message, 200); the text sent is `SentText`, the first 2000 characters of a non-empty text; history is written exactly for a 200 with a non-empty draft id, and failures of the database writes never change the response |
| AnalyzeExample.StatusOrder | api-analyze-example.ts:34-159 | 405, 401, 400, 429 and 200 each happen exactly when the earlier checks pass and their own fails; a failed authentication lookup and any provider error but 429 give 500, with the configuration message exactly for an upstream 401 and the generic one otherwise |
| AnalyzeExample.SuccessScoreInRange | api-analyze-example.ts:92-137 | a 200 carries a score in [-1, 1], and an in-range parsed answer comes back unchanged |
| AnalyzeExample.NoJsonFallsBack | api-analyze-example.ts:79-90 | a model reply without `{` still succeeds with score 0 and the apology |
| AnalyzeExample.SentTextIsBoundedPrefix | api-analyze-example.ts:50-57 | the text sent to the model is a prefix of at most 2000 characters, the whole text when short |
| AnalyzeStub.Handler | src/pages/api/analyze.ts:7-16 | 405 with an error body exactly for a method other than POST; a POST gets 200 with a score in [-1, 1] |
| AnalyzeStub.ReplyIgnoresBody | src/pages/api/analyze.ts:13-16 | every POST gets score 0.5 and the pending-integration reason, whatever its body |
| AnalyzeStub.ClientKeepsStubReason | src/pages/api/analyze.ts:15 | the editor accepts the stub's reply as it is: its reason is neither a placeholder nor an error reason |
| DraftsStub.Handler | src/pages/api/drafts/index.ts:7-21 | GET lists no drafts, POST creates with success, any other method gets 405 |
| DraftsStub.PostsShareId | src/pages/api/drafts/index.ts:13-18 | every creation returns the same id, `new-draft-id` |
| DraftsStub.UpdateIsRefused | src/pages/api/drafts/index.ts:19-21 | the PUT the client sends to save an existing draft gets 405 |
| CoachPrompts.Lookup | src/lib/writingCoachPrompts.ts:163-171 | a name finds the key with that name, and only a name of no key finds none |
| CoachPrompts.LookupKeyName | src/lib/writingCoachPrompts.ts:163-171 | each key is found by its own name |
| CoachPrompts.BasePrompt | src/lib/writingCoachPrompts.ts:174 | a known name with a non-empty prompt selects it; anything else falls back to the clarity prompt |
| CoachPrompts.EachKeyHasOwnPrompt | src/lib/writingCoachPrompts.ts:163-174 | with distinct prompts, each of the seven names selects its own prompt and two names never share one |
| CoachPrompts.CoachPrompt | src/lib/writingCoachPrompts.ts:162-187 | starts with the base prompt; no score gives it alone; above 0.7 the high note, below 0 the low note, otherwise nothing is added |
| CoachPrompts.NoteBands | src/lib/writingCoachPrompts.ts:177-183 | every score in [0, 0.7] gives the same prompt as no score |
| CoachPrompts.TipKeysArePromptKeys | src/lib/writingCoachPrompts.ts:190-226 | the tip table lists exactly the seven prompt keys, in the map's order |
| VibeUtils.ScoreToHue | src/lib/vibeUtils.ts:5-9 | hue in [0, 240] for a score in [-1, 1], in [140, 240) above 0, and 240 + 240·score at or below 0 |
| VibeUtils.HueAnchors | src/lib/vibeUtils.ts:1-9 | -1 is red (0), 0 is blue-gray (240), 1 is green (140) |
| VibeUtils.HueRisesOnNegatives | src/lib/vibeUtils.ts:6-7 | on [-1, 0] the hue rises with the score |
| VibeUtils.HueFallsOnPositives | src/lib/vibeUtils.ts:8 | above 0 the hue falls as the score rises |
| VibeUtils.Saturation | src/lib/vibeUtils.ts:19 | for a score in [-1, 1] the saturation lies in [30, 55] |
| VibeUtils.Lightness | src/lib/vibeUtils.ts:20 | for a score in [-1, 1] the lightness lies in [85, 94] |
| VibeUtils.IntensityIgnoresSign | src/lib/vibeUtils.ts:19-20 | both ignore the sign; a stronger score is more saturated and darker |
| VibeUtils.VibeVars.Set | src/lib/vibeUtils.ts:14-27 | the four style properties become the hue, saturation, lightness and alpha of the score |
| WritingStreak.Checked | src/components/WritingStreak.tsx:21-44 | today or yesterday keeps the stored streak; another date shows 0 and clears the record; no date shows 0 and writes nothing |
| WritingStreak.Marked | src/components/WritingStreak.tsx:46-70 | today changes nothing; yesterday extends the streak by one; otherwise it restarts at 1; the date becomes today |
| WritingStreak.MarkIdempotent | src/components/WritingStreak.tsx:50 | marking the same day twice is marking it once |
| WritingStreak.ConsecutiveDays | src/components/WritingStreak.tsx:55-68 | writing on n consecutive days extends a streak reaching the day before by n and starts any other at n |
| WritingStreak.GapBreaksStreak | src/components/WritingStreak.tsx:30-43 | after a skipped day the check shows 0 and the next mark starts at 1 |
| WritingStreak.StreakBadge.constructor | src/components/WritingStreak.tsx:5-6 | the badge starts at 0 without a celebration |
| WritingStreak.StreakBadge.CheckAndUpdate | src/components/WritingStreak.tsx:21-44 | the shown streak and the record become `Checked` |
| WritingStreak.StreakBadge.MarkToday | src/components/WritingStreak.tsx:46-70 | the record becomes `Marked`; the celebration starts exactly on a continued streak reaching 3, 7, 14, 30, 50 or 100 |
| WritingStreak.StreakBadge.ContentChanged | src/components/WritingStreak.tsx:13-19 | under 100 words nothing changes; from 100 words on, the day is marked as `MarkToday` marks it: record, shown streak and celebration |
| WritingStreak.StreakBadge.CelebrationEnds | src/components/WritingStreak.tsx:63 | the celebration's timer hides it |
| DailyPrompt.PromptIndex | src/components/DailyPrompt.tsx:40-42 | always a valid index, repeating every twenty days |
| DailyPrompt.Mount | src/components/DailyPrompt.tsx:31-55 | a new day shows the day's prompt and records the day unused; the same day shows it only while unused and persists nothing |
| DailyPrompt.UsedStaysHiddenToday | src/components/DailyPrompt.tsx:38-54 | once used, the card stays hidden that day and returns the next |
| DailyPrompt.PromptCard.constructor | src/components/DailyPrompt.tsx:27-29 | the card starts hidden and empty |
| DailyPrompt.PromptCard.OnMount | src/components/DailyPrompt.tsx:31-55 | the card and the stored keys become `Mount` |
| DailyPrompt.PromptCard.UsePrompt | src/components/DailyPrompt.tsx:65-72 | copies the prompt and records it as used, in storage and in the view |
| DailyPrompt.PromptCard.HideDelayEnds | src/components/DailyPrompt.tsx:73-76 | the two-second timer hides the card and persists nothing |
| DailyPrompt.PromptCard.Dismiss | src/components/DailyPrompt.tsx:79-81 | hides the card and persists nothing |
| HomeScreen.VibeDescription | src/components/HomeScreen.tsx:100-107 | empty exactly for a missing score, otherwise the bucket's word |
| HomeScreen.VibeColor | src/components/HomeScreen.tsx:109-116 | the bucket's colour; a missing score gets the neutral gray |
| HomeScreen.ColorFollowsDescription | src/components/HomeScreen.tsx:100-116 | two scores share a colour exactly when they share a description |
| HomeScreen.Without | src/components/HomeScreen.tsx:88 | removes every draft with the id and keeps every other |
| HomeScreen.WithoutKeepsOrder | src/components/HomeScreen.tsx:88 | the filter works piece by piece, so the survivors keep their order |
| HomeScreen.WithoutAbsentId | src/components/HomeScreen.tsx:88 | an id not in the list leaves it unchanged |
| HomeScreen.Home.constructor | src/components/HomeScreen.tsx:13-16 | no drafts, loading, no error, nothing being deleted |
| HomeScreen.Home.LoadDrafts | src/components/HomeScreen.tsx:43-61 | a listing replaces the drafts and clears the error; a failure keeps them and sets the reply's error or a default; loading ends |
| HomeScreen.Home.DeleteDraft | src/components/HomeScreen.tsx:74-98 | no call without confirmation; success removes the id's drafts; failure keeps the list and sets an error |
| HomeScreen.Home.NewDraft | src/components/HomeScreen.tsx:63-67 | the store is reset (`IsReset`: empty content, no id, default metadata, no vibe or history, vibe mode), so nothing is unsaved, and no draft is selected |
| VibeMeter.Position | src/components/VibeMeter.tsx:15 | in [0, 100] for a score in [-1, 1]: -1 at 0, 0 at 50, 1 at 100 |
| VibeMeter.PositionMonotone | src/components/VibeMeter.tsx:15 | a higher score sits further right |
| VibeMeter.MeterMatchesDraftList | src/components/VibeMeter.tsx:18-24 | the meter and the draft list give every score the same colour |
| VibeMeter.SignPrefix | src/components/VibeMeter.tsx:50 | '+' exactly for a positive score |
| VibeMeter.ShowsReasonIffNotBlank | src/components/VibeMeter.tsx:69 | the reason line shows exactly for a non-blank reason |
| VibeMeter.Meter.constructor | src/components/VibeMeter.tsx:11-12 | the reference score is the first score, not pulsing |
| VibeMeter.Meter.ScoreChanged | src/components/VibeMeter.tsx:37-43 | a change above 0.1 pulses and moves the reference; a smaller one changes nothing; afterwards the reference is within 0.1 |
| VibeMeter.Meter.PulseEnds | src/components/VibeMeter.tsx:41 | the timer stops the pulse |
| VibeMeter.Meter.ApplyTheme | src/components/VibeMeter.tsx:29-34 | a selection meter writes nothing; a document meter writes the hue, saturation and lightness of the score with the default alpha, and its colour |
| VibeProgression.ColorMatchesLabel | src/components/VibeProgression.tsx:128-147 | two scores share a colour exactly when they share a label |
| VibeProgression.DeltaSymbol | src/components/VibeProgression.tsx:136-139 | flat exactly within 0.05, up exactly from 0.05, down exactly from -0.05 |
| VibeProgression.ComputePoints | src/components/VibeProgression.tsx:54-63 | one point per sentence, each at `PointAt` of its index and score |
| VibeProgression.PointHeight | src/components/VibeProgression.tsx:61 | a score in [-1, 1] lies between the paddings, 1 on top and -1 at the bottom, higher scores higher |
| VibeProgression.PointEnds | src/components/VibeProgression.tsx:60 | with two or more sentences the first is on the left padding and the last on the right one |
| VibeProgression.PointOrder | src/components/VibeProgression.tsx:60 | sentences are drawn left to right in order |
| VibeProgression.Graph.constructor | src/components/VibeProgression.tsx:23-24 | nothing hovered, no tooltip |
| VibeProgression.Graph.MouseMove | src/components/VibeProgression.tsx:159-168 | an index inside [0, n) becomes the hovered sentence with the tooltip; any other changes nothing; a valid hover stays valid |
| VibeProgression.Graph.MouseLeave | src/components/VibeProgression.tsx:169-172 | leaving clears the hover and the tooltip |
| VibeProgression.InsideCanvasHits | src/components/VibeProgression.tsx:160-164 | a cursor inside the canvas always finds a sentence when there is one |
| VibeProgression.TrendOf | src/components/VibeProgression.tsx:208-214 | rising exactly for a positive last change and falling exactly for a negative one, given two or more sentences |
| VibeProgression.CurrentScore | src/components/VibeProgression.tsx:200-202 | the last sentence's score, 0 without sentences, and in [-1, 1] when the scores are |
| SessionInsights.SumScoresBounded | src/components/SessionInsights.tsx:42 | the sum of n scores in [-1, 1] lies in [-n, n] |
| SessionInsights.AverageInRange | src/components/SessionInsights.tsx:40-44 | the average of scores in [-1, 1] lies in [-1, 1] |
| SessionInsights.AverageOfConstant | src/components/SessionInsights.tsx:40-44 | a history of equal scores averages to that score |
| SessionInsights.RoundingCrossesBoundary | src/components/SessionInsights.tsx:92 | an average of 0.497 is engaging but shows the inspiring emoji |
| SessionInsights.Fixed2 | src/components/SessionInsights.tsx:43 | `toFixed(2)` gives a whole number of hundredths within half a hundredth of the argument, with its sign; a tie goes away from zero |
| SessionInsights.AverageEmoji | src/components/SessionInsights.tsx:40-52 | one of the five emoji, the neutral one for an empty history |
| SessionInsights.EmojiAwayFromBoundaries | src/components/SessionInsights.tsx:92 | an average clear of the four boundaries by half a hundredth shows its own bucket's emoji |
| SessionInsights.SessionDuration | src/components/SessionInsights.tsx:34-38 | the elapsed time to the end, or to now, rounded to the nearest minute; non-negative when time runs forward |
| SessionInsights.EndedSessionDuration | src/components/SessionInsights.tsx:35 | an ended session's duration does not depend on the clock |
| SessionInsights.FlowMinutes | src/components/SessionInsights.tsx:17-24 | one more than the recorded flow time above 0.2, the recorded time otherwise, rounded |
| SessionInsights.FlowPercentage | src/components/SessionInsights.tsx:54-58 | 0 for a zero duration; for a positive one, the share of flow minutes in percent rounded to the nearest whole number (within half a percent of the duration), and in [0, 100] when the flow fits in the duration |
| SessionInsights.WordsAddedPrefix | src/components/SessionInsights.tsx:84-86 | '+' exactly for a positive count |
| SessionInsights.Insights.constructor | src/components/SessionInsights.tsx:6-7 | hidden, no flow minutes |
| SessionInsights.Insights.Refresh | src/components/SessionInsights.tsx:9-30 | without a session nothing changes; otherwise the flow minutes are refreshed and the card shows from five minutes on and never hides |
| SessionInsights.Insights.Close | src/components/SessionInsights.tsx:9-30 | after the close button (line 64) re-runs the effect, the card shows exactly when the session is at least five minutes old, so closing later is undone at once; the flow minutes are refreshed |
| VibeSparkline.Scores | src/components/VibeSparkline.tsx:23 | the first min(10, n) scores of the history, reversed |
| VibeSparkline.NewestLast | src/components/VibeSparkline.tsx:23 | the newest record is plotted last and the oldest of the ten first |
| VibeSparkline.Y | src/components/VibeSparkline.tsx:64 | 0 on the midline, 1 on the top padding, -1 on the bottom one |
| VibeSparkline.XEnds | src/components/VibeSparkline.tsx:31 | with two or more points the first is on the left padding and the last on the right one |
| VibeSparkline.Dots | src/components/VibeSparkline.tsx:60-84 | one dot per plotted score, none for an empty history, dot i at `X` of i and `Y` of score i, green exactly for a score of at least 0 |
| VibeSparkline.SingleDot | src/components/VibeSparkline.tsx:44-51 | a single record draws one centred dot |
| ReadingMode.SplitLines | src/components/ReadingMode.tsx:188 | at least one line, none holding a newline |
| ReadingMode.SplitJoin | src/components/ReadingMode.tsx:188 | joining the lines with newlines gives the text back |
| ReadingMode.Classify | src/components/ReadingMode.tsx:189-202 | the first matching prefix (`# `, `## `, `### `, `> `, `• `) gives its block without the prefix; a paragraph is exactly a non-blank line with none of them, kept unchanged; nothing is rendered exactly for a blank line |
| ReadingMode.HeadingPrefixesDisjoint | src/components/ReadingMode.tsx:189-194 | no line has two heading prefixes, so their order does not matter |
| ReadingMode.Render | src/components/ReadingMode.tsx:188-203 | one rendered entry per line, entry i being `Classify` of line i |
| ReadingMode.ReadingTime | src/components/ReadingMode.tsx:213 | the fewest whole minutes at 200 words a minute that cover the words |
| ReadingMode.Stats | src/components/ReadingMode.tsx:206-214 | the word count, and the reading time `ReadingTime` of it, which is 0 exactly for blank text |
| ReadingMode.Title | src/components/ReadingMode.tsx:107 | the draft's title, or "Untitled" when it is empty |
| ReadingMode.FontFamilyClass | src/components/ReadingMode.tsx:86-92 | `font-sans` exactly for the sans-serif option, which reaches the default branch |
| ReadingMode.DefaultClasses | src/components/ReadingMode.tsx:50-92 | the default settings give narrow, large, relaxed, serif text on the light theme |
| WritingCoach.BandOf | src/components/WritingCoach.tsx:123-132 | the coach's four bands, each exactly its interval at 0.5 / 0 / -0.5, open below |
| WritingCoach.BandMonotone | src/components/WritingCoach.tsx:123-125 | a higher score never lands in a lower band |
| WritingCoach.BandsDifferFromBuckets | src/components/WritingCoach.tsx:123-125 | at 0.5, -0.5 and 0.1 the coach disagrees with the five-bucket table |
| WritingCoach.Label | src/components/WritingCoach.tsx:129-132 | a non-empty reason overrides the band's label |
| WritingCoach.FullPrompt | src/components/WritingCoach.tsx:61-62 | the sent prompt starts with the coach prompt, and the selection follows the passage heading |
| WritingCoach.SuggestionFor | src/components/WritingCoach.tsx:64-75 | the tab with the reply's reason, or the fixed apology on failure |
| WritingCoach.CopyNote | src/components/WritingCoach.tsx:221 | starts with the quoted selection and ends with the feedback, or "No feedback yet" |
| WritingCoach.Tabs | src/components/WritingCoach.tsx:88-93 | one tab per tip entry, in the tip table's order |
| WritingCoach.Coach.constructor | src/components/WritingCoach.tsx:21-23 | no suggestions, not generating, on the clarity tab |
| WritingCoach.Coach.StartSuggestions | src/components/WritingCoach.tsx:56-64 | no request exactly for an empty selection or while generating; otherwise the full prompt is sent and generation starts |
| WritingCoach.Coach.FinishSuggestions | src/components/WritingCoach.tsx:66-78 | the suggestion is `SuggestionFor` the reply and generation ends |
| WritingCoach.Coach.SelectTab | src/components/WritingCoach.tsx:142-146 | the tab is selected; through the effect at lines 82-86, a request for it goes out exactly when the tab changed, there is a selection, the panel is not loading and nothing is in flight |
| WritingCoach.Coach.SelectionChanged | src/components/WritingCoach.tsx:81-86 | on a new selection or on mount, a request for the active tab goes out exactly when there is a selection, the panel is not loading and nothing is in flight |

## Left out

- The HTML-to-text conversion of the reading view (src/components/ReadingMode.tsx:16-48) and of a loaded draft (src/components/EditorWindow.tsx:133-135) uses the browser's `innerHTML` and regular expressions. The plain text is an input of `ReadingMode.Render`, `ReadingMode.Stats` and `EditorWindow.EditorView.LoadDraft`.
- Timers are modelled only as events:
  - the 500 ms re-analysis of loadDraft's own timer is the returned `scheduled` text, and the 500 ms timer of the post-load effect is `EditorWindow.EditorView.LoadingSettled`, run once loading settles; cancelling that timer when `draftId` or `loading` changes again within 500 ms is not modelled;
  - debounce waits, the streak celebration, the meter pulse and the prompt card's hide delay are explicit methods (`EditorWindow.Debouncer.Elapse`, `WritingStreak.StreakBadge.CelebrationEnds`, `VibeMeter.Meter.PulseEnds`, `DailyPrompt.PromptCard.HideDelayEnds`);
  - the 2-second draft polling and 30-second autosave are not modelled.
- Concurrency between overlapping requests is not modelled. This includes the stale `drafts` list captured by a delete while polling replaces it. Every await is one atomic step with its reply as a parameter.
- The progression effect pushes the new point into the store's own array before it compares the stats. The model updates the stats as a value, which gives the same final state but does not model that aliasing.
- Canvas drawing, CSS custom properties, the clipboard, the console, and `localStorage` reads and writes are left out. Persisted records are fields.
- Floating point is not modelled. The model does not capture NaN (for example from clamping an absent score), infinities, or the string formatting of `toFixed`. `SessionInsights.Fixed2` gives its rounded value, as a real.
- `AnalyzeExample.Truncate` counts characters, while `slice` counts UTF-16 code units; they differ for text outside the Basic Multilingual Plane.
- The analysis route's authentication, database writes and usage tracking are parameters of `AnalyzeExample.Handle`. Only whether history is written is returned. A failure of any of them only gets logged.
- The prompt texts of the coach are a parameter (`CoachPrompts.PromptTable`). The model does not cover `getCoachPrompt` with a name inherited from `Object.prototype` (such as `toString`), which would select a function rather than fall back.
- Keyboard shortcuts, click-outside handling, the rich-text editor glue, the header and mode toggles, the spark widget's random prompt, authentication pages and environment checks are not part of this model.
- Export and version listing in the editor window are not modelled. The network client in src/lib/api.ts does not define `exportDraft`, `getDraftVersions` or `restoreDraftVersion`, so a restore reply is a parameter of `EditorWindow.EditorView.RestoreVersion`. Of the client, only the save verb is modelled (`EditorWindow.SaveMethod`).
- `EditorWindow.EditorView.AnalyzeSelection` models the call after its 300 ms debounce has fired; the debounce itself is `EditorWindow.Debouncer`.
- The text-change handler that counts words and sets `editorText` is not modelled; `editorText` is a field.
