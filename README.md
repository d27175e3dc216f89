# memoriza_biblia in Dafny

This project is a Dafny model of the core of memoriza_biblia, a progressive web
app that teaches children a Bible verse over a seven-day cycle. One small game
runs on each day. The model covers:

- the progress store: the current day, the completed days, the current verse,
  the history of memorised verses, the unlocked achievements and the
  pending achievement toast;
- the day navigator, which locks days that are too far ahead;
- the verse card, which dispatches each day to its activity and files a
  finished verse in the history;
- the three day activities that hold logic: day 3 (reference quiz and
  fill-in-the-blanks), day 5 (put the words in order) and day 6 (first letters);
- the history modal with its notes editor;
- the application shell: loading a verse, the recall button and the
  achievement toast;
- the verse service: it asks a language model with retries, strips Markdown
  fences from the reply, and falls back to a second model and then to an
  offline verse;
- the search modal: a remote lookup, then an accent- and case-insensitive
  offline filter;
- the sign-in/sign-up modal with its error translation table;
- the profile modal: display name and password change;
- the `send-reminder` edge function, which selects push subscriptions and
  sends reminder notifications.

Each source file is one module:

| module | file |
|---|---|
| `Prelude` (Option, Result) | `prelude.dfy` |
| `Text` (the JavaScript string built-ins the code relies on) | `text.dfy` |
| `Store` | `store.dfy` |
| `DayNavigator` | `day_navigator.dfy` |
| `App` | `app.dfy` |
| `VerseCard` | `verse_card.dfy` |
| `Day3Activity`, `Day5Activity`, `Day6Activity` | `day3.dfy`, `day5.dfy`, `day6.dfy` |
| `HistoryModal` | `history_modal.dfy` |
| `VerseService` | `verse_service.dfy` |
| `SearchModal` | `search_modal.dfy` |
| `AuthModal` | `auth_modal.dfy` |
| `ProfileModal` | `profile_modal.dfy` |
| `SendReminder` | `send_reminder.dfy` |

The model takes two forms, following the source:

- Components and the store update state fields step by step. They are classes
  whose methods state the whole new state. The store's `Valid()` invariant is
  preserved by every action: distinct references, achievements exactly those
  the history length earns, and no day completed twice.
- Pure decisions are functions, with lemmas that state what they mean:
  - achievement evaluation;
  - day locking;
  - keyword blanking;
  - the word-order check;
  - first-letter masking;
  - fence stripping and retries;
  - normalisation and filtering;
  - error translation;
  - reminder selection.

Everything outside the program's own logic is an input parameter:

- the language model's replies, `JSON.parse`, the Supabase answers, the push
  service and the local clock of a time zone;
- random choices, given as a permutation or an index in range.

The word-order check of day 5 compares normalised lines, not token positions: it
rejects an answer only when its line differs from the verse's after spaced colons
are collapsed, punctuation is removed and case is folded. So an answer that swaps
two identical words, or "Deus" and "deus", passes; `SwappedWordsFail` proves
rejection only for first letters that differ ignoring case.

The navigator's lock follows the code: a day is open when it is at most one more
than the largest completed day, or it is day 1.

## Model

| member | source | states |
|---|---|---|
| Store.ProgressStore.constructor | src/store.ts:39-45 | The first-run state: day 1, nothing completed, no verse, empty history, no achievements, no pending toast; it satisfies the store invariant. |
| Store.ProgressStore.SetCurrentDay | src/store.ts:46 | Sets the day unconditionally, changes nothing else and keeps the invariant. |
| Store.ProgressStore.CompleteDay | src/store.ts:47-52 | The day is appended only when absent, so it is then completed exactly once; the current day does not move; the invariant is kept. |
| Store.CompleteDayTwice | src/store.ts:47-52 | Completing the same day twice leaves the completed days as one call does. |
| Store.ProgressStore.SetVerse | src/store.ts:53 | Replaces the current verse (possibly absent) and nothing else. |
| Store.ProgressStore.AddToHistory | src/store.ts:54-81 | A known reference leaves the whole state unchanged. Otherwise the verse is prepended, the newly reached achievements are appended in ladder order and the pending toast becomes the last of them, or null. The invariant is kept. |
| Store.AddToHistoryTwice | src/store.ts:54-81 | Adding the same verse twice prepends it at most once, and unlocks achievements and sets the pending toast only as the first call does. |
| Store.FirstCycleEarnsFirstAchievement | src/store.ts:39-90 | On a fresh store, one memorised verse earns the first achievement; after the reset and the toast is cleared, the cycle is back at day 1 with the achievement kept. |
| Store.EarnedExactly | src/store.ts:64-74 | A history of n verses earns exactly the achievements whose threshold is at most n. |
| Store.MissingByRung | src/store.ts:71-74 | The newly reached achievements are those of the four checks, one rung at a time, in ascending threshold order. |
| Store.CheckAchievementStep | src/store.ts:64-69 | One `checkAchievement` appends the id exactly when the length reaches it and it is not yet unlocked, and makes it the pending toast. |
| Store.EvaluateLadderAppendsMissing | src/store.ts:60-79 | The four checks append exactly the missing reached ids, and leave the last of them as the pending toast (null when none). |
| Store.EvaluateLadderOnlyGrows | src/store.ts:60-74 | Achievements only grow: the old list is a prefix of the new one. |
| Store.EarnedStep | src/store.ts:64-74 | From a consistent list, one more verse unlocks exactly what the new length earns. |
| Store.AtMostOneUnlockPerVerse | src/store.ts:64-74 | One more verse unlocks at most one id, and one exactly when the new length is 1, 5, 10 or 25. |
| Store.OneVerseEarnsFirst | src/store.ts:71 | The first verse unlocks the first achievement and nothing else. |
| Store.HighestCrossedIsReported | src/store.ts:62-79 | When two thresholds are crossed in one call, both are appended and the higher one is reported. |
| Store.PrependKeepsValid | src/store.ts:56-59 | Prepending a verse with a new reference keeps references distinct and moves the earned list to the new length. |
| Store.LastOf | src/store.ts:62-67 | The last element of a list, or none exactly when the list is empty. |
| Store.ProgressStore.SetLoading | src/store.ts:82 | Sets the loading flag and nothing else. |
| Store.ProgressStore.ResetProgress | src/store.ts:83 | Day 1 and no day completed; the verse, history and achievements are unchanged. |
| Store.ProgressStore.UpdateNotes | src/store.ts:84-89 | The history becomes the notes-edited history; an absent reference leaves it unchanged; the invariant is kept. |
| Store.WithNotes | src/store.ts:86-88 | The edited history has the same length. |
| Store.WithNotesKeepsReferences | src/store.ts:86-88 | Editing notes keeps every reference in place, and so keeps references distinct. |
| Store.WithNotesAbsentIsNoOp | src/store.ts:84-89 | Editing the notes of an absent reference changes nothing. |
| Store.WithNotesChangesOnlyMatches | src/store.ts:86-88 | Exactly the entries with the reference change, and only in their notes. |
| Store.ProgressStore.ClearLastUnlockedAchievement | src/store.ts:90 | The pending toast becomes null and nothing else changes. |
| DayNavigator.MaxCompleted | src/components/DayNavigator.tsx:14 | `Math.max(0, ...completedDays)`: at least 0, at least every completed day, and 0 or one of them. |
| DayNavigator.Buttons | src/components/DayNavigator.tsx:11-14 | One button per day 1 to 7. |
| DayNavigator.OnlyDayOneOpenAtStart | src/components/DayNavigator.tsx:14 | Day 1 is never locked; with nothing completed every other day is locked. |
| DayNavigator.OpenDaysArePrefix | src/components/DayNavigator.tsx:11-14 | A day from 1 to 7 is open exactly when it is at most the largest completed day plus one. |
| DayNavigator.OpenBelowOpen | src/components/DayNavigator.tsx:14 | The open days form a prefix: every day below an open day is open. |
| DayNavigator.MoreCompletedNeverLocks | src/components/DayNavigator.tsx:14 | Completing more days never locks a day that was open. |
| DayNavigator.CompletedIsOpen | src/components/DayNavigator.tsx:12-14 | A completed day is never locked. |
| DayNavigator.ThirdDayCompletedOpensFour | src/components/DayNavigator.tsx:14 | With only day 3 completed, days 1 to 4 are open and 5 to 7 locked. |
| DayNavigator.OneCurrentButton | src/components/DayNavigator.tsx:13 | At most one button is current, and the current day's button is. |
| DayNavigator.ClickDay | src/components/DayNavigator.tsx:21-29 | A click on a locked day leaves the day unchanged; on an open day it sets it; nothing else changes. |
| App.Shell.constructor | src/App.tsx:17-20 | No recall verse and no toast shown. |
| App.Shell.StartLoading | src/App.tsx:38 | The loading flag goes up and nothing else changes. |
| App.Shell.FinishLoading | src/App.tsx:41-48 | On success the verse is set and the cycle restarts at day 1 with nothing completed; a failure changes neither; the flag comes down; history and achievements are untouched. |
| App.Shell.LoadNewVerse | src/App.tsx:37-49 | The same for the whole load, the flag ending down on both paths. |
| App.Shell.HandleRecall | src/App.tsx:30-35 | An empty history does nothing; otherwise the entry at the drawn index is shown, which is always a history entry. |
| App.Shell.Mount | src/App.tsx:51-55 | A verse is loaded only when the store has none; otherwise the store is unchanged. |
| App.Shell.AnnounceAchievement | src/App.tsx:57-76 | A pending achievement is shown once and then cleared. |
| App.FirstStart | src/App.tsx:17-55 | On a fresh store the mount loads a verse: it is current, the cycle is at day 1 with no day done, nothing loads and the history is empty, and a second mount keeps that verse. |
| App.AnnounceTwice | src/App.tsx:57-76 | A second run of the effect announces nothing more. |
| VerseCard.ActivityFor | src/components/VerseCard.tsx:84-116 | Days 1 to 7 each have an activity belonging to that day; any other day has none. |
| VerseCard.ActivityForDay | src/components/VerseCard.tsx:84-116 | Each activity is shown on its own day, and distinct days show distinct activities. |
| VerseCard.Rendered | src/components/VerseCard.tsx:53-116 | Something is rendered exactly when there is a verse and the day is 1 to 7. |
| VerseCard.ReferenceOptions | src/components/VerseCard.tsx:44 | The options are the reference and the fake references, one more than the fakes. |
| VerseCard.ShuffledOptionsOfferReference | src/components/VerseCard.tsx:44-45 | Any shuffle of the options offers the true reference, and exactly the reference and the fakes. |
| VerseCard.Card.constructor | src/components/VerseCard.tsx:20-29 | Every card field at its initial value. |
| VerseCard.Card.ResetForDay | src/components/VerseCard.tsx:31-51 | Input, selection, hint, success, error and quiz are reset; on day 3 with a verse the options become the shuffle; on day 5 the scramble is cleared. |
| VerseCard.Card.HandleComplete | src/components/VerseCard.tsx:55-64 | The success overlay shows and the current day is recorded as completed, once; the day itself does not change; the invariant is kept. |
| VerseCard.SeventhDayFilesVerse | src/components/VerseCard.tsx:55-169 | On a fresh store, finishing day 7 and starting a new verse files the verse, earns and reports the first achievement, and starts the new verse at day 1 with no day done. |
| VerseCard.Card.StartNewVerse | src/components/VerseCard.tsx:165-169 | The overlay closes, the verse is filed in the history as `addToHistory` does, and a new verse is loaded as `loadNewVerse` does. |
| Day3Activity.DisplayWord | src/components/days/Day3Activity.tsx:72-84 | A word shows as itself or as the blank, and the blank only for a keyword with the hint off. |
| Day3Activity.FillIn | src/components/days/Day3Activity.tsx:72-84 | One shown word per space-separated word of the text. |
| Day3Activity.BlankedIffKeyword | src/components/days/Day3Activity.tsx:73-83 | With the hint off a word is blanked exactly when it is a keyword (or is itself the blank); other words show verbatim. |
| Day3Activity.HintShowsText | src/components/days/Day3Activity.tsx:79-83 | With the hint on every word shows as written, so the words join back to the text. |
| Day3Activity.HintChangesOnlyKeywords | src/components/days/Day3Activity.tsx:76-83 | The two renderings differ only at keywords. |
| Day3Activity.FillInOfWords | src/components/days/Day3Activity.tsx:72-84 | For a text of space-free words, the shown words are the words displayed one by one. |
| Day3Activity.CleanWordLower | src/components/days/Day3Activity.tsx:73-74 | Removing punctuation commutes with lower-casing. |
| Day3Activity.IsKeywordIgnoresCase | src/components/days/Day3Activity.tsx:74 | Keyword matching ignores the word's case. |
| Day3Activity.IsKeywordIgnoresTrailingPunctuation | src/components/days/Day3Activity.tsx:73-74 | Keyword matching ignores a punctuation mark after the word. |
| Day3Activity.ReferenceQuiz.constructor | src/components/days/Day3Activity.tsx:14-16 | Unsolved, no error, hint off. |
| Day3Activity.ReferenceQuiz.Choose | src/components/days/Day3Activity.tsx:31-44 | Solved exactly when the option is the reference; a wrong option sets the error message. |
| Day3Activity.ReferenceQuiz.ClearError | src/components/days/Day3Activity.tsx:42 | The timer clears the error. |
| Day3Activity.ReferenceQuiz.ToggleHint | src/components/days/Day3Activity.tsx:91 | The hint flips; it exists only in the solved stage. |
| Day3Activity.ToggleHintTwice | src/components/days/Day3Activity.tsx:91-101 | Toggling twice restores the hint, and completion stays offered. |
| Day5Activity.LastIndexOf | src/components/days/Day5Activity.tsx:23 | `lastIndexOf`: -1 exactly when absent, otherwise a position of the character with none after it. |
| Day5Activity.ReferenceTokensSplit | src/components/days/Day5Activity.tsx:18-29 | Four tokens exactly when the reference has one colon and a space before it, and then they rebuild it as book, space, chapter, colon, verse, with the colon a token of its own and the chapter space-free; otherwise the reference is one token. |
| Day5Activity.ReferenceWithoutColon | src/components/days/Day5Activity.tsx:18-19 | A reference without a colon stays one token. |
| Day5Activity.ReferenceTokensOfShape | src/components/days/Day5Activity.tsx:18-27 | A `Book Chapter:Verse` reference gives exactly those four tokens. |
| Day5Activity.SpaceRun | src/components/days/Day5Activity.tsx:100 | The leading white-space run stops at a non-space. |
| Day5Activity.CollapseSpacedColons | src/components/days/Day5Activity.tsx:100 | The rewrite never lengthens the string. |
| Day5Activity.CollapseWithoutColon | src/components/days/Day5Activity.tsx:100 | A string without a colon is left unchanged. |
| Day5Activity.SpaceRunOfSpaces | src/components/days/Day5Activity.tsx:100 | A leading run of white space is matched whole by `\s+`. |
| Day5Activity.CollapseSpacedColonRun | src/components/days/Day5Activity.tsx:100 | A run of white space, a colon and a run of white space at the head become one colon, and the scan resumes after the second run. |
| Day5Activity.CollapseIdentity | src/components/days/Day5Activity.tsx:100 | Nothing collapses where no colon follows white space. |
| Day5Activity.CollapseAcrossSpacedColon | src/components/days/Day5Activity.tsx:100 | `x + " : " + v` collapses to `x + ":" + v` when nothing else matches. |
| Day5Activity.CollapseKeepsPrefix | src/components/days/Day5Activity.tsx:100 | A prefix that ends in a non-space and has no spaced colon passes through unchanged. |
| Day5Activity.InOrderPasses | src/components/days/Day5Activity.tsx:18-104 | Selecting every token in original order passes the check, for a `Book C:V` reference and a text where no colon follows white space. |
| Day5Activity.ExampleInOrderPasses | src/components/days/Day5Activity.tsx:18-104 | "Deus amou o mundo" with "João 3:16": four reference tokens, and the in-order answer passes. |
| Day5Activity.FirstLetterDecides | src/components/days/Day5Activity.tsx:99-104 | An answer line whose first letter differs, ignoring case, from the verse's first letter fails the check. |
| Day5Activity.SwappedWordsFail | src/components/days/Day5Activity.tsx:30-108 | Swapping the first two words of the text, when they start with letters that differ ignoring case, keeps every token in play and fails. |
| Day5Activity.ExampleSwappedFails | src/components/days/Day5Activity.tsx:30-108 | "Deus amou o mundo" with "João 3:16": the answer with "amou" and "Deus" swapped is a scramble and fails. |
| Day5Activity.Without | src/components/days/Day5Activity.tsx:49-69 | `filter((_, i) => i !== idx)`: one shorter, the others in order, and the multiset loses exactly that entry. |
| Day5Activity.Puzzle.constructor | src/components/days/Day5Activity.tsx:30-37 | A scramble of the tokens, an empty answer line, no error; every token in play. |
| Day5Activity.Puzzle.Select | src/components/days/Day5Activity.tsx:68-72 | The token leaves the pool for the end of the answer line, the error clears, and the two lists still hold every token. |
| Day5Activity.Puzzle.Deselect | src/components/days/Day5Activity.tsx:48-52 | The reverse move, with the same guarantees. |
| Day5Activity.Puzzle.Reset | src/components/days/Day5Activity.tsx:84-88 | A fresh scramble, an empty answer line, no error. |
| Day5Activity.Puzzle.Check | src/components/days/Day5Activity.tsx:98-109 | Completes exactly when the normalised answer equals the normalised verse; otherwise only the error changes. |
| Day5Activity.SelectThenDeselect | src/components/days/Day5Activity.tsx:48-70 | Selecting then deselecting a token keeps the answer line and the pool's contents. |
| Day6Activity.TrailingPunctuation | src/components/days/Day6Activity.tsx:15 | The word's last character exactly when it is one of `.,;!?`, otherwise nothing. |
| Day6Activity.MaskWord | src/components/days/Day6Activity.tsx:15 | Empty only for the empty word; starts with the first character, then `_` when the word is longer, and ends with the trailing punctuation; its length is exactly one, plus one for the `_`, plus one for the punctuation, so nothing else is in it. |
| Day6Activity.MaskWords | src/components/days/Day6Activity.tsx:15 | One token per word. |
| Day6Activity.FirstLettersTokens | src/components/days/Day6Activity.tsx:15 | One token per space-separated word, in order, each the masked word. |
| Day6Activity.FirstLettersOfWords | src/components/days/Day6Activity.tsx:15-18 | For space-free words, the masked line is their tokens joined with spaces. |
| Day6Activity.MaskReferenceWord | src/components/days/Day6Activity.tsx:18 | A one-character reference word shows as itself; a longer one as its first character and `_`, with no punctuation; only the empty word gives an empty token. |
| Day6Activity.MaskReferenceWords | src/components/days/Day6Activity.tsx:18 | One reference token per word. |
| Day6Activity.MaskReferenceWordsAsWritten | src/components/days/Day6Activity.tsx:18 | The as-written reference tokens: one per word. |
| Day6Activity.ExampleReferenceDoubleSpace | src/components/days/Day6Activity.tsx:18 | The words of "Jo  3" mask as written to "J_ undefined 3", and with the empty word kept empty to "J_  3". |
| Day6Activity.EmptyReferenceWordShowsUndefined | src/components/days/Day6Activity.tsx:18 | Two spaces in a reference: the code shows "J_ undefined 3" for "Jo  3" where "J_  3" is meant. |
| Day6Activity.FirstLettersExample | src/components/days/Day6Activity.tsx:15-18 | "Deus amou." shows "D_ a_." and "João 3:16" shows "J_ 3_". |
| Day6Activity.LonePunctuationDoubles | src/components/days/Day6Activity.tsx:15 | A word that is a lone punctuation mark shows the mark twice. |
| Day6Activity.MaskWordsAsWritten | src/components/days/Day6Activity.tsx:15 | The as-written tokens: one per word. |
| Day6Activity.EmptyWordShowsUndefined | src/components/days/Day6Activity.tsx:15 | Two spaces in a row: the code shows "D_ undefined a_" where "D_  a_" is meant. |
| HistoryModal.Find | src/components/HistoryModal.tsx:18 | `find`: none exactly when the reference is absent, otherwise the first entry with it. |
| HistoryModal.NoteOf | src/components/HistoryModal.tsx:18-19 | The note of the first entry with the reference, or empty when that entry has none; empty for an absent reference. |
| HistoryModal.NoteOfWithNotes | src/components/HistoryModal.tsx:23-29 | After saving, reading the note back gives the saved value. |
| HistoryModal.Editor.constructor | src/components/HistoryModal.tsx:13-14 | Nothing expanded, empty note. |
| HistoryModal.Editor.LoadNote | src/components/HistoryModal.tsx:16-23 | The note is the expanded verse's note (empty when it has none), and empty when nothing is expanded. |
| HistoryModal.Editor.ClickHeader | src/components/HistoryModal.tsx:86 | Expands the verse, or collapses it when it was expanded; collapsing empties the note and expanding loads it. |
| HistoryModal.Editor.EditNote | src/components/HistoryModal.tsx:113 | Typing sets the note. |
| HistoryModal.Editor.SaveNote | src/components/HistoryModal.tsx:16-29 | Nothing expanded: nothing changes. Otherwise the store's history gets the note and the note re-reads the saved value. The store invariant is kept. |
| HistoryModal.ClickTwice | src/components/HistoryModal.tsx:86 | Two clicks on the same header collapse it with an empty note. |
| VerseService.RemoveFencesLeavesNone | src/services/verseService.ts:72 | After removing every fence no three backticks remain in a row. |
| VerseService.NoFenceRemains | src/services/verseService.ts:72 | After the cleanup no code fence is left. |
| VerseService.RemoveAllSkips | src/services/verseService.ts:72 | A prefix that does not hold the pattern's first character is kept as it is, whatever follows. |
| VerseService.StripFencesOfPlainText | src/services/verseService.ts:72 | A text without backticks is only trimmed. |
| VerseService.StripFencesUnwraps | src/services/verseService.ts:72 | A JSON text wrapped in a json fence comes back trimmed. |
| VerseService.Outcome | src/services/verseService.ts:56-77 | A non-empty reply text is decoded, and only such a reply can succeed; a missing or empty text fails with "No response from AI"; a timeout fails with its message; a rejected request fails with its own message. |
| VerseService.FencedReplyParsed | src/services/verseService.ts:68-74 | A fenced JSON reply is parsed without its fences. |
| VerseService.AttemptsUsed | src/services/verseService.ts:53-81 | Between 1 and the attempts allowed; every earlier attempt failed; the last made succeeded or was the last allowed. |
| VerseService.AttemptsUsedIs | src/services/verseService.ts:53-81 | That count is the only one stopping at the first success. |
| VerseService.Settled | src/services/verseService.ts:53-83 | Success exactly when some attempt succeeds; otherwise the last attempt's error. |
| VerseService.RunStopsAt | src/services/verseService.ts:53-83 | Attempts used and result of a run whose first success or last attempt is at k. |
| VerseService.GenerateWithModel | src/services/verseService.ts:50-84 | At most `retries + 1` attempts, returning at the first success or rethrowing the last error; one pause between failed attempts and none after the last. |
| VerseService.OfflinePick | src/services/verseService.ts:95-112 | A verse of the collection when it is non-empty, nothing otherwise. |
| VerseService.GenerateVerse | src/services/verseService.ts:86-115 | Offline: an offline verse and no model asked. Online: the lite model, then the stable one, then an offline verse. It never fails while the collection is non-empty. |
| SearchModal.MapDbVerse | src/components/SearchModal.tsx:14-25 | The row renamed; notes and fallback flag unset. |
| SearchModal.MapDbVerseRoundTrip | src/components/SearchModal.tsx:14-25 | Mapping loses nothing of a row, and a verse without notes or flag survives the trip through a row. |
| SearchModal.MapRows | src/components/SearchModal.tsx:67 | One verse per row. |
| SearchModal.Decompose | src/components/SearchModal.tsx:28 | NFD of one character: itself, or a base letter `a`-`z` and a combining mark. |
| SearchModal.Nfd | src/components/SearchModal.tsx:28 | Decomposition never shortens. |
| SearchModal.StripMarks | src/components/SearchModal.tsx:28 | No combining mark is left. |
| SearchModal.Normalize | src/components/SearchModal.tsx:27-28 | A normalised text has no combining mark. |
| SearchModal.NormalizeAppend | src/components/SearchModal.tsx:27-28 | Normalisation works piecewise over a concatenation. |
| SearchModal.NormalizeIdempotent | src/components/SearchModal.tsx:27-28 | Normalising twice is normalising once. |
| SearchModal.NormalizeIgnoresCase | src/components/SearchModal.tsx:27-28 | Normalisation ignores case. |
| SearchModal.NormalizeAccentedLetter | src/components/SearchModal.tsx:27-28 | "Ã" and "ã" both normalise to "a". |
| SearchModal.NormalizeAsciiLetter | src/components/SearchModal.tsx:27-28 | An ASCII letter normalises to its lower case. |
| SearchModal.MatchingMembers | src/components/SearchModal.tsx:76-80 | The filter keeps exactly the verses whose normalised reference or text contains the term. |
| SearchModal.MatchingAppend | src/components/SearchModal.tsx:76-80 | The filter keeps collection order. |
| SearchModal.OfflineResults | src/components/SearchModal.tsx:75-81 | The first min(matches, 30) matches of the normalised term. |
| SearchModal.Search.constructor | src/components/SearchModal.tsx:31-37 | Empty query and results, no pending search, all flags down. |
| SearchModal.Search.Open | src/components/SearchModal.tsx:40-47 | Opening resets the query, the results and the searched flag. |
| SearchModal.Search.PerformSearch | src/components/SearchModal.tsx:49-85 | Blank term: empty results, not searched, no lookup. Otherwise remote success gives the mapped rows online, and failure gives the offline results of the trimmed term; searching ends either way. |
| SearchModal.Search.Type | src/components/SearchModal.tsx:87-95 | The query changes and the debounce restarts with it. |
| SearchModal.Search.FireDebounce | src/components/SearchModal.tsx:92-94 | The timer searches the value typed last: a blank value clears the results; otherwise the mapped rows online, or the offline results of the trimmed value, and searching ends. |
| SearchModal.Search.KeyDown | src/components/SearchModal.tsx:97-105 | Enter cancels the timer and searches the query now: a blank query clears the results, otherwise the mapped rows online or the offline results. Escape asks to close; other keys change nothing. |
| AuthModal.TranslateFirstMatch | src/components/AuthModal.tsx:12-31 | The translation of the first entry, in table order, whose key occurs in the message; the default when none does; always a translation or the default. |
| AuthModal.TranslationIsKnown | src/components/AuthModal.tsx:12-31 | The shown message is always one of the table's translations or the default. |
| AuthModal.TwelveMessages | src/components/AuthModal.tsx:13-30 | So a failed sign-in or sign-up shows one of at most twelve messages. |
| AuthModal.TranslationsBound | src/components/AuthModal.tsx:13-30 | A table of n entries has at most n + 1 messages. |
| AuthModal.EmptyMessageMatchesNothing | src/components/AuthModal.tsx:27-30 | Over keys that are not empty, the empty message gives the default. |
| AuthModal.MissingMessageShowsDefault | src/components/AuthModal.tsx:30-62 | An error without a message shows the default. |
| AuthModal.FirstKeyWins | src/components/AuthModal.tsx:27-29 | When a key occurs, the first occurring key at or before it wins. |
| AuthModal.Form.constructor | src/components/AuthModal.tsx:34-37 | Sign-in mode, empty fields, not loading. |
| AuthModal.Form.ToggleMode | src/components/AuthModal.tsx:158 | The link flips the mode. |
| AuthModal.Form.TypeEmail | src/components/AuthModal.tsx:116 | Typing sets the e-mail. |
| AuthModal.Form.TypePassword | src/components/AuthModal.tsx:128 | Typing sets the password. |
| AuthModal.Form.BeginSubmit | src/components/AuthModal.tsx:41-56 | Loading goes up, and the mode picks sign-in or sign-up with the typed credentials. |
| AuthModal.Form.FinishSubmit | src/components/AuthModal.tsx:49-65 | Success: the mode's welcome toast and the modal closes. Failure: the translated message, or the default when there is none, and the modal stays open. Loading comes down either way. |
| AuthModal.Form.Submit | src/components/AuthModal.tsx:39-66 | Sign-in exactly in login mode, with the typed credentials. One toast: the mode's welcome on success, the translated error otherwise. Closes only on success; loading ends down. |
| AuthModal.RefusalWithoutMessage | src/components/AuthModal.tsx:61-62 | A refusal without a message shows the default and leaves the modal open. |
| ProfileModal.PasswordProblem | src/components/ProfileModal.tsx:54-61 | No problem exactly when the password has at least 6 characters and matches its confirmation; length is reported first, then the mismatch. |
| ProfileModal.LengthCheckedFirst | src/components/ProfileModal.tsx:54-61 | A short password is reported as short even when the confirmation differs. |
| ProfileModal.Profile.constructor | src/components/ProfileModal.tsx:17-21 | Profile tab, empty fields, not loading. |
| ProfileModal.Profile.Open | src/components/ProfileModal.tsx:23-30 | The name from the account metadata (empty when missing), both password fields cleared, the profile tab selected. |
| ProfileModal.Profile.SelectTab | src/components/ProfileModal.tsx:122-132 | A tab click selects the tab. |
| ProfileModal.Profile.TypeName | src/components/ProfileModal.tsx:157 | Typing sets the name. |
| ProfileModal.Profile.TypeNewPassword | src/components/ProfileModal.tsx:186 | Typing sets the new password. |
| ProfileModal.Profile.TypeConfirmPassword | src/components/ProfileModal.tsx:196 | Typing sets the confirmation. |
| ProfileModal.Profile.SaveName | src/components/ProfileModal.tsx:32-50 | A blank name is refused with a toast and nothing is sent. Otherwise the trimmed name is sent, the toast tells the outcome, and loading ends down. |
| ProfileModal.Profile.ChangePassword | src/components/ProfileModal.tsx:52-74 | Sent exactly when the checks pass; a refusal toasts the first problem. A change that goes through clears both fields; otherwise they are kept. Loading ends down. |
| ProfileModal.ShortPasswordRefused | src/components/ProfileModal.tsx:54-57 | A five-letter password is refused as short and the fields keep their text. |
| SendReminder.ParsedBody | supabase/functions/send-reminder/index.ts:35-39 | A body that fails to parse is `{}`. |
| SendReminder.Or | supabase/functions/send-reminder/index.ts:119-123 | The JavaScript or-operator on an optional string: an absent or empty value falls back. |
| SendReminder.WithReminder | supabase/functions/send-reminder/index.ts:63 | Exactly the profiles with a reminder hour. |
| SendReminder.DueSubscriptions | supabase/functions/send-reminder/index.ts:69-95 | A subscription is selected exactly when it belongs to a profile whose local hour and minute, in its zone (default America/Sao_Paulo), are its reminder time. |
| SendReminder.DueSubscriptionsAppend | supabase/functions/send-reminder/index.ts:95 | The subscriptions keep profile order. |
| SendReminder.NotDueSkipped | supabase/functions/send-reminder/index.ts:81-94 | A profile that is not due, including one with an invalid zone, adds nothing, and the later profiles are still served. |
| SendReminder.ManualSubscriptions | supabase/functions/send-reminder/index.ts:97-110 | Every subscription without a user filter; with one, exactly that user's. |
| SendReminder.Selected | supabase/functions/send-reminder/index.ts:47-110 | Scheduled when the body says so, manual otherwise; it fails, with that query's error, exactly when the query it uses fails. A scheduled call selects exactly the subscriptions of due profiles with a reminder hour, in profile order; a manual call the manual query's. |
| SendReminder.UnparsableBodyNotifiesEveryone | supabase/functions/send-reminder/index.ts:35-110 | A body that is not JSON makes a manual call for every subscription. |
| SendReminder.NoReminderHourNoNotification | supabase/functions/send-reminder/index.ts:63-95 | A scheduled notification goes only to a due profile with a reminder hour. |
| SendReminder.PayloadOf | supabase/functions/send-reminder/index.ts:119-123 | A given non-empty title, text or address is used; an absent or empty one takes its default; no field is empty. |
| SendReminder.ResultOf | supabase/functions/send-reminder/index.ts:126-136 | Success exactly when delivered. |
| SendReminder.ExpiredOf | supabase/functions/send-reminder/index.ts:129-135 | Exactly the subscriptions whose delivery failed with 410 or 404. |
| SendReminder.ResultsOf | supabase/functions/send-reminder/index.ts:114-140 | One result per subscription, in order, successful exactly when delivered. |
| SendReminder.Notify | supabase/functions/send-reminder/index.ts:114-140 | The sends give those results and delete exactly the expired subscriptions. |
| SendReminder.Handle | supabase/functions/send-reminder/index.ts:10-158 | OPTIONS: the preflight and no work. A client that cannot be created (an empty project URL): status 500 with its error, before the keys are looked at. Missing VAPID keys: 500 with their message. Keys that `setVapidDetails` refuses: 500 with its error. A failed query: 500 with its error. Otherwise the message for the trigger, the count of subscriptions, one result each, and the expired ones deleted. |
| Text.Split | src/components/days/Day3Activity.tsx:17 | `split` never gives an empty list and no piece holds the separator. |
| Text.JoinSplit | src/components/days/Day3Activity.tsx:17 | Joining the pieces of a split gives the string back. |
| Text.SplitJoin | src/components/days/Day6Activity.tsx:15 | Splitting a join of separator-free pieces gives the pieces back. |
| Text.TrimStart | src/components/SearchModal.tsx:50 | The leading white space is removed and only it: the result is a suffix, everything dropped is space, and it starts with a non-space. |
| Text.TrimEnd | src/components/SearchModal.tsx:50 | The trailing white space is removed and only it: the result is a prefix, everything dropped is space, and it ends with a non-space. |
| Text.Trim | src/components/SearchModal.tsx:50 | `trim` is empty exactly for a blank string, otherwise starts and ends with a non-space. |
| Text.TrimCutsOnlySpace | src/components/SearchModal.tsx:50 | `trim` cuts only white space: the result is a piece of the string with only white space before and after it. |
| Text.ContainsIffInfix | src/components/AuthModal.tsx:28 | `includes` holds exactly when the pattern occurs at some offset. |
| Text.LowerIdempotent | src/components/days/Day3Activity.tsx:74 | Lower-casing twice is lower-casing once. |
| Text.RemoveChars | src/components/days/Day3Activity.tsx:73 | No removed character is left, and a string without them is unchanged. |
| Text.RemoveCharsKeepsOthers | src/components/days/Day3Activity.tsx:73 | Every character outside the class is kept, as often as it occurs. |
| Text.RemoveCharsSingle | src/components/days/Day3Activity.tsx:73 | A single character is kept exactly when it is outside the class. |
| Text.RemoveCharsAppend | src/components/days/Day3Activity.tsx:73 | Removal works piecewise over a concatenation, so the kept characters stay in order. |
| Text.RemoveAll | src/services/verseService.ts:72 | A string without the pattern is unchanged. |
| Text.RemoveAllKeepsPrefix | src/services/verseService.ts:72 | A prefix in which no occurrence of the pattern starts is kept as it is, whatever follows. |
| Text.RemoveAllDropsFirst | src/services/verseService.ts:72 | The first occurrence of the pattern is removed whole, the text before it is kept, and the scan goes on after it. |

## Left out

- Rendering, styling, animation, confetti and speech synthesis are not modelled. The card's `isSpeaking` flag is only reset.
- Every network call is an input, given as its outcome: the language model, Supabase lookups and authentication, and the push service. `JSON.parse` is an input too, and so are the outcomes of the reminder function's two set-up calls, `createClient` and `setVapidDetails`, whose argument checks belong to libraries that are not part of this model. Console logging is dropped.
- Timers are collapsed into immediate steps:
  - the 1.5-second delayed `completeDay`;
  - the 2-second clearing of the day-3 error, which is its own method;
  - the 12-second request timeout, which becomes an input reply;
  - the one-second pause between attempts, which is only counted;
  - the 400 ms search debounce, a pending value with an explicit firing step.
  The race in which a delayed `completeDay` lands after a fast new verse is not captured.
- `Promise.all` in the edge function is modelled as sends one after another. The deletions are listed, not performed.
- Randomness is an input: a shuffle is any permutation, and a pick is any index in range.
- Persistence (the `persist` middleware and local storage) is not modelled.
- Local time in a time zone (`Intl.DateTimeFormat`) is the `clock` input. An invalid zone name gives no time. The formatting quirks of `hour12: false`, such as hour 24, are not modelled.
- `toLowerCase` covers ASCII and the Latin-1 capitals. NFD covers the precomposed lower-case Latin-1 letters. Other characters are left unchanged.
- Lengths are counted in characters rather than UTF-16 code units. The password length check differs from the code for characters outside the Basic Multilingual Plane.
- The edge function takes `cron_trigger` as a boolean rather than any truthy value. A JSON body that is literally `null` or not an object is not modelled.
- App.Shell.LoadNewVerse: the history's references are computed as an exclusion list, but `generateVerse` takes no argument. The model therefore has no exclusion list.
- VerseService.GenerateVerse: with an empty offline collection it returns no verse instead of failing, as `Math.floor(Math.random() * 0)` is 0 and `offlineVerses[0]` is `undefined`. The store's `SetVerse` accepts that absent verse.
- Day5Activity.CollapseSpacedColons: its own contract gives only the length bound. What the rewrite does is stated by `CollapseSpacedColonRun` (a spaced colon becomes one colon), `CollapseIdentity` and `CollapseWithoutColon` (nothing else changes), `CollapseKeepsPrefix` and `CollapseAcrossSpacedColon`.
- Day5Activity.InOrderPasses: proved only for references shaped `Book Chapter:Verse` and texts where no colon follows white space. Other shapes can fail the check in the code too.
- Day5Activity.ReferenceTokens has no contract of its own; its properties are in `ReferenceTokensSplit`.
- Day3Activity.CleanWord has no contract of its own; its properties are in the keyword lemmas.
- Day6Activity: completion is an unconditional button and carries no logic.
- The day 1, 2, 4 and 7 activities, the history view, the recall modal, the reminder manager and picker, install prompts and the service worker hold no logic beyond rendering and browser calls.
- Syncing the store with a remote profile is not part of this code and is not modelled.

## Findings

| source | as written | input that shows it | evidently intended | confidence | as-written member | corrected member |
|---|---|---|---|---|---|---|
| src/components/days/Day6Activity.tsx:15 | `w[0] + ...` on an empty word, which arises from two spaces in a row or a leading or trailing space, concatenates `undefined`, and the word "undefined" appears in the masked verse | text "Deus  amou" shows "D_ undefined a_" | an empty word gives an empty token: "D_  a_" | not executed | Day6Activity.EmptyWordShowsUndefined | Day6Activity.FirstLettersTokens |
| src/components/days/Day6Activity.tsx:18 | the reference line has the same `w[0] + ...`, so an empty word of the reference shows `undefined` | reference "Jo  3" shows "J_ undefined 3" | an empty word gives an empty token: "J_  3" | not executed | Day6Activity.EmptyReferenceWordShowsUndefined | Day6Activity.MaskReferenceWord |
