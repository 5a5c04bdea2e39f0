# nyosu typing trainer, modelled in Dafny

nyosu is a browser typing trainer for Japanese romaji. This project models its core:

- **The romaji matcher** (`src/lib/typing.ts`):
  - strict prefix validation;
  - the twelve-rule spelling expansion ("shi" may be typed "si", "chi" as "ti" or "ci", and so on);
  - acceptance, the prefix check and the highlight split.
- **The practice store** (`src/store/useTypingStore.ts`):
  - picking a random prompt other than the current one;
  - counting mistakes and recording a finished round;
  - keeping the last 100 results;
  - adapting the difficulty target;
  - the practice input box (`src/components/Typing/InputBox.tsx`), whose change and key handlers are folded into the store as its keystroke methods.
- **The helpers it calls**: the difficulty target (`src/lib/difficulty.ts`), WPM, accuracy and progress (`src/lib/stats.ts`) and the per-prompt time limit (`src/utils/timeLimit.ts`).
- **The beat-sync engine** (`src/components/SuddenDeath/Game.tsx`):
  - the video-id check and the lyric fetch;
  - the polling callback that follows the player clock;
  - the 3-2-1 countdown before the first line;
  - the handlers for skip, solve, input, reset and volume;
  - the keyboard handler (F4, Space, Escape).
- **The flash session** (`src/components/Flash/FlashGame.tsx`):
  - a two-minute session of prompts, each shown for 1.5 s and then typed from memory within 10 s;
  - three lives;
  - the stored list of session records.
- **The practice page's timers** (`src/components/Game.tsx`): the per-prompt gauge with its time-up signal, and the hidden two-minute session timer and its mm:ss text.
- **The progress page** (`src/components/Progress.tsx`): the best session of each day, scored and sorted for display.
- **The room overlay** (`src/components/Multi/Overlay.tsx`):
  - the race clock and the 3-2-1-GO countdown;
  - the ranking table;
  - the bridge that forwards local game events as progress reports;
  - the guard that starts the local game once.

Pure code is modelled as functions and lemmas. Components that change state step by step are classes: `TypingStore.Store`, `BeatSync.Engine`, `Flash.FlashSession`, `PromptTimer.PromptClock`, `Overlay.ProgressBridge` and `Overlay.StartGuard`. Each class method states its whole new state. Most do so as a function of the old state (`ensures State() == F(old(State()), ...)`). A few state the new field values directly: `BeatSync.Engine.ResetState`, `HandleVolume`, `HandleReset`, `StartRun`, `BeginFetch` and `CompleteFetch`, and the store's methods. The properties are proved about those functions.

Shared conventions:

- The wall clock, `performance.now()`, `Math.random()`, the fetched data and the video player's clock reading are parameters.
- JavaScript numbers are modelled as exact integers and reals.
- `Math.round`, `Math.ceil` and `padStart` are written out in `Num` and `Text`.

## Model

| member | source | states |
|---|---|---|
| Typing.ValidateStrict | src/lib/typing.ts:1-5 | `prefixOK` iff the input is a prefix of the target; `completed` iff it is the whole target and the target is non-empty |
| Typing.EmptyNeverCompleted | src/lib/typing.ts:3 | the empty input is always a valid prefix and never complete |
| Typing.RulesShape | src/lib/typing.ts:44-57 | twelve rules; every rule but `zzi` lists its own pattern first; `zzi` has the single alternative `jji` |
| Typing.FirstRule | src/lib/typing.ts:64-65 | the rule tried is the first in table order whose pattern starts the suffix, or none matches |
| Typing.Expand | src/lib/typing.ts:60-84 | the per-suffix expansion holds between 1 and cap+1 spellings |
| Typing.DedupeFrom | src/lib/typing.ts:86-94 | no duplicates, at most max(cap,1) entries, only strings from the input, and every input string if the cap was not reached |
| Typing.Variants | src/lib/typing.ts:42-96 | `generateRomajiVariants`: distinct spellings, between 1 and max(cap,1) of them, all expansions of the input, and all of them when fewer than cap |
| Typing.VariantsOfEmpty | src/lib/typing.ts:63 | the empty string has exactly one variant, itself |
| Typing.ExpandFirstMatchWins | src/lib/typing.ts:64-78 | when a rule matches, the expansion is every alternative crossed with the expansions of the rest, cut after cap+1 entries |
| Typing.ExpandCopiesUnmatched | src/lib/typing.ts:80-83 | with no rule matching, the first character is copied in front of each expansion of the rest |
| Typing.ExpandCanExceedCap | src/lib/typing.ts:72-74 | a per-suffix list can hold cap+1 entries ("sha" with cap 1 keeps two), which the final dedupe cuts to cap |
| Typing.CanonicalIsFirstVariant | src/lib/typing.ts:85-95 | a canonical string without "zzi" is its own first variant |
| Typing.ZziCanonicalNotAVariant | src/lib/typing.ts:56 | a string starting with "zzi" expands only to spellings starting "jji", so it is not its own variant |
| Typing.ShiAndChiVariants | src/lib/typing.ts:51-52 | "shi" has the variants [shi, si]; "chi" has [chi, ti, ci] |
| Typing.CrossCapped | src/lib/typing.ts:67-75 | the nested alternative/tail loops with their cap break produce exactly the cross product cut after cap+1 entries |
| Typing.ExpandMemo | src/lib/typing.ts:60-84 | the memoised `helper` returns exactly `Expand(rest, cap)` and keeps every memo entry equal to the expansion of its key |
| Typing.GenerateRomajiVariants | src/lib/typing.ts:42-96 | the imperative generator returns exactly `Variants(s, cap)` |
| Typing.IsAcceptedRomaji | src/lib/typing.ts:9-15 | an input equal to the canonical string after trim and lower-casing is accepted |
| Typing.Normalize | src/lib/typing.ts:10-11 | `trim().toLowerCase()`: no longer than the input, and already trimmed and lower-cased |
| Typing.AcceptedIsSpelling | src/lib/typing.ts:9-15 | an accepted input is, normalised, the canonical string or one of its expansions |
| Typing.AcceptanceIgnoresCaseAndSpace | src/lib/typing.ts:10 | acceptance does not change when the input is trimmed and lower-cased first |
| Typing.CanonicalAccepted | src/lib/typing.ts:12 | every canonical string accepts itself, "zzi" included, although "zzi" is not its own variant |
| Typing.VariantAccepted | src/lib/typing.ts:13-14 | every variant of the normalised canonical string is accepted |
| Typing.ShiAcceptsSi | src/lib/typing.ts:9-15 | "si" and " SI " both complete "shi" |
| Typing.PrefixOfAnyIff | src/lib/typing.ts:22-25 | the loop predicate holds iff some listed spelling starts with the input |
| Typing.PrefixesSomeSpelling | src/lib/typing.ts:17-26 | `prefixOKVariants` as a predicate: the lower-cased input starts the lower-cased canonical string or one of its variants (a definition; `PrefixOKVariants` states it of the loop) |
| Typing.PrefixOKVariants | src/lib/typing.ts:17-26 | the loop returns true iff the lower-cased input starts the canonical string or one of its variants |
| Typing.KonnichiwaRejectsHa | src/lib/typing.ts:17-26 | "konnichiha" starts no spelling of "konnichiwa", while "konnichi" does |
| Typing.ExpandKonnichiwa | src/lib/typing.ts:52 | "konnichiwa" expands to [konnichiwa, konnitiwa, konniciwa] |
| Typing.CommonPrefix | src/lib/typing.ts:109-115 | the length of the longest common prefix: both agree up to it and differ right after it |
| Typing.CommonPrefixIs | src/lib/typing.ts:109-115 | a prefix length that cannot be extended is the common prefix length |
| Typing.CommonPrefixLen | src/lib/typing.ts:109-115 | the loop returns `CommonPrefix(a, b)` |
| Typing.Candidates | src/lib/typing.ts:31 | the lower-cased canonical string first, then expansions of it |
| Typing.FirstLongestUnique | src/lib/typing.ts:34-38 | at most one candidate is the first one with the longest match |
| Typing.FirstCandidateWinsTies | src/lib/typing.ts:32-36 | only a strictly longer match displaces the first candidate |
| Typing.FirstLongestIndex | src/lib/typing.ts:32-38 | the loop with its early break finds the first candidate with the longest common prefix |
| Typing.BestMatchVariantForHighlight | src/lib/typing.ts:28-40 | returns the first candidate whose common prefix with the lower-cased input is longest |
| Typing.CutAt | src/lib/typing.ts:101-106 | correct + next + rest rebuild the variant; next holds at most one character; it is a mistake iff the input is longer than the matched part |
| Typing.SplitForHighlight | src/lib/typing.ts:98-107 | the split is of the best variant; the correct part is its common prefix with the input; a mistake iff the input goes past it |
| TypingStore.Others | src/store/useTypingStore.ts:16-20 | exactly the prompts whose id differs from the current one |
| TypingStore.FloorIndex | src/store/useTypingStore.ts:22 | `Math.floor(rand * n)` is an index below n |
| TypingStore.PickRandomPrompt | src/store/useTypingStore.ts:10-24 | none iff there are no prompts; otherwise a listed prompt, and a different one from the current whenever one exists |
| TypingStore.PickFallsBack | src/store/useTypingStore.ts:21 | when every prompt is the current one, the pool falls back to the whole list |
| TypingStore.LastN | src/store/useTypingStore.ts:143 | `slice(-n)`: the last min(length, n) entries |
| TypingStore.LastNKeepsNewest | src/store/useTypingStore.ts:143 | the newest entry is always kept, and nothing is dropped below the limit |
| TypingStore.RoundEntry | src/store/useTypingStore.ts:130-141 | the round result records the prompt id, the timestamp and the WPM and accuracy of the input over the elapsed time |
| TypingStore.Store.constructor | src/store/useTypingStore.ts:45-54 | the initial state, with the difficulty target at 300 |
| TypingStore.Store.Init | src/store/useTypingStore.ts:61-101 | a failed or empty fetch empties the prompts; otherwise a random prompt is picked; the round is cleared |
| TypingStore.Store.SetInput | src/store/useTypingStore.ts:103-121 | without a prompt nothing changes; otherwise the input is stored, a mistake is counted for a non-prefix that grows the input, and the start time is kept or set |
| TypingStore.Store.SubmitIfComplete | src/store/useTypingStore.ts:123-152 | a complete round appends its result to the last 100, updates the target and moves to another prompt; otherwise nothing changes |
| TypingStore.Store.NextPrompt | src/store/useTypingStore.ts:154-165 | a prompt other than the current one and a cleared round |
| TypingStore.Store.Skip | src/store/useTypingStore.ts:167-169 | the same as `NextPrompt` |
| TypingStore.Store.OnChange | src/components/Typing/InputBox.tsx:63-72 | without a prompt nothing; an input that does not complete the prompt is stored as by `SetInput`; a completing one (never a mistake) submits at once: the round is recorded with the earlier mistakes and another prompt drawn, unless the start time reads 0 |
| TypingStore.Store.OnKeyDown | src/components/Typing/InputBox.tsx:21-36 | Enter submits exactly when the input completes a started round (else nothing changes); Escape skips to another prompt with the round cleared; any other key changes nothing |
| Difficulty.Clamp | src/lib/difficulty.ts:3-5 | the value when in range, else the nearer bound |
| Difficulty.ClampMonotone | src/lib/difficulty.ts:3-5 | clamping preserves order |
| Difficulty.UpdateDifficultyTarget | src/lib/difficulty.ts:8-11 | the new target lies within [100, 2000] |
| Difficulty.NeutralRoundKeepsTarget | src/lib/difficulty.ts:9 | 45 WPM at 95% accuracy leaves an in-range target unchanged |
| Difficulty.UpdateMonotone | src/lib/difficulty.ts:8-11 | a faster or more accurate round never lowers the target |
| Difficulty.FirstLowest | src/lib/difficulty.ts:16-18 | the first prompt with the smallest jittered distance from the target |
| Difficulty.Score | src/lib/difficulty.ts:16 | the distance from the target plus the jitter: never below the jitter, and equal to it iff the prompt is at the target |
| Difficulty.PickNextPrompt | src/lib/difficulty.ts:13-19 | none iff the list is empty; otherwise one of the listed prompts |
| Stats.ComputeWpm | src/lib/stats.ts:1-6 | 0 for no elapsed time; otherwise non-negative and within 0.05 of (chars/5)/minutes |
| Stats.WpmMonotoneInChars | src/lib/stats.ts:1-6 | more characters in the same time never give a lower WPM |
| Stats.ComputeAccuracy | src/lib/stats.ts:8-13 | 100 with no keystrokes; within [0, 100]; 0 when mistakes reach the keystrokes; otherwise the correct share rounded to a tenth |
| Stats.ProgressRatio | src/lib/stats.ts:15-18 | within [0, 1]; 0 for an empty target; 1 once the input reaches the target length; otherwise input/target exactly |
| TimeLimit.GetTimeLimitSeconds | src/utils/timeLimit.ts:40-62 | at most the mode's cap, and the rounded minimum of cap and length × per-character seconds (easy by default) |
| TimeLimit.PresetOf | src/utils/timeLimit.ts:20-33 | the preset of each mode: 0.3 to 0.5 s per character and a 20 to 45 s cap, 0.5 s only for easy |
| TimeLimit.RawTenths | src/utils/timeLimit.ts:46-48 | the uncapped limit in tenths: between 3 and 5 per character, and 0 iff the romaji is empty |
| TimeLimit.EmptyRomajiGetsZero | src/utils/timeLimit.ts:46-48 | an empty romaji gets no time |
| TimeLimit.OnlyLengthMatters | src/utils/timeLimit.ts:44-48 | prompts of equal romaji length get equal limits |
| TimeLimit.LongerGetsNoLess | src/utils/timeLimit.ts:46-51 | a longer romaji never gets less time |
| TimeLimit.HarderGetsNoMore | src/utils/timeLimit.ts:20-33 | hard ≤ normal ≤ easy for every prompt |
| TimeLimit.DefaultIsEasy | src/utils/timeLimit.ts:42 | no mode is the easy mode |
| Num.Round | src/lib/stats.ts:5 | `Math.round`: the integer within half of x |
| Num.CeilDiv | src/components/Multi/Overlay.tsx:37 | `Math.ceil(a / b)`: (r-1)·b < a ≤ r·b |
| Num.SecondsLeft | src/components/Flash/FlashGame.tsx:203-206 | 0 once the deadline has passed; otherwise the whole seconds left, rounded up |
| Num.SecondsLeftMonotone | src/components/Flash/FlashGame.tsx:203-206 | the seconds left never grow as the clock advances |
| Num.RoundTenth | src/lib/stats.ts:12 | `Math.round(x * 10) / 10` is within 0.05 of x |
| Text.Lower | src/lib/typing.ts:10 | `toLowerCase` on ASCII letters: same length, letter by letter |
| Text.TrimStart | src/lib/typing.ts:10 | `trimStart`: no longer than the input, and the first character left is not white space |
| Text.TrimEnd | src/lib/typing.ts:10 | `trimEnd`: no longer than the input, and the last character left is not white space |
| Text.Trim | src/lib/typing.ts:10 | `trim`: no white space left at either end |
| Text.TrimIdempotent | src/lib/typing.ts:10-11 | trimming twice is trimming once |
| Text.NormalizeIdempotent | src/lib/typing.ts:10-11 | `trim().toLowerCase()` applied twice is applied once |
| Text.DecimalRoundTrip | src/components/Flash/FlashGame.tsx:309-313 | `String(n)` reads back as n |
| Text.Decimal | src/components/Flash/FlashGame.tsx:311-312 | `String(n)`: at least one digit, only digits, and no leading zero |
| Text.PadTwo | src/components/Flash/FlashGame.tsx:311-312 | `padStart(2, '0')`: two characters or the input's length if longer, the input at the end, zeros in front |
| Text.MmSs | src/components/Multi/Overlay.tsx:153-157 | the minutes and the seconds, each padded to two digits, joined by a colon (a definition; `MmSsReadsBack` states it) |
| Text.ZeroPadKeepsValue | src/components/Flash/FlashGame.tsx:311-312 | `padStart(2, '0')` keeps the number a numeral denotes |
| Text.MmSsReadsBack | src/components/Multi/Overlay.tsx:153-157 | the mm:ss text is digits, a colon and two digits, and reads back as minutes·60 + seconds = the seconds given |
| BeatSync.AllIdCharsIff | src/components/SuddenDeath/Game.tsx:12 | the id character class holds for every character iff for each |
| BeatSync.IsValidVideoId | src/components/SuddenDeath/Game.tsx:12 | `isValidVideoId`: the trimmed id has at least six characters, all from `A-Z a-z 0-9 _ -` (a definition; `ValidIdIsTrimmed` states it) |
| BeatSync.ValidIdIsTrimmed | src/components/SuddenDeath/Game.tsx:12 | a valid id, once trimmed, has no white space left and is still valid |
| BeatSync.FirstLineStartMs | src/components/SuddenDeath/Game.tsx:67-70 | 0 with no lines; otherwise the start of some line, and no line starts earlier |
| BeatSync.FindIndex | src/components/SuddenDeath/Game.tsx:224 | -1 iff every line is over; otherwise the first line not yet over |
| BeatSync.FindIndexMonotone | src/components/SuddenDeath/Game.tsx:224 | a later clock never finds an earlier line |
| BeatSync.Sanitize | src/components/SuddenDeath/Game.tsx:533 | no longer than the input; only letters, apostrophes, white space and hyphens remain; typable input is unchanged |
| BeatSync.SanitizeKeepsExactly | src/components/SuddenDeath/Game.tsx:533 | the other characters are deleted, not replaced: each typable character stays as often as in the input, nothing else remains (with `SanitizeAppend`, the typable characters in order) |
| BeatSync.SanitizeAppend | src/components/SuddenDeath/Game.tsx:533 | sanitizing distributes over concatenation |
| BeatSync.SanitizeIdempotent | src/components/SuddenDeath/Game.tsx:533 | sanitizing twice is sanitizing once |
| BeatSync.Clamp01 | src/components/SuddenDeath/Game.tsx:462 | within [0, 1], and the value itself when already in range |
| BeatSync.SeekTarget | src/components/SuddenDeath/Game.tsx:460-465 | no seek without a duration; otherwise a time within the video, duration × ratio for an in-range ratio |
| BeatSync.Extrapolate | src/components/SuddenDeath/Game.tsx:175-186 | a reading is taken as is; without one, a playing clock advances by the elapsed time (never below 0); otherwise the last time holds |
| BeatSync.CountdownFor | src/components/SuddenDeath/Game.tsx:196 | the whole seconds to the first line rounded up, 1 to 3 within the 3 s lead |
| BeatSync.SpaceAction | src/components/SuddenDeath/Game.tsx:683-740 | Space skips a countdown, starts from the beginning when ready, counts down to the first line during the intro, else skips a line; nothing in other phases |
| BeatSync.SpaceNeverResets | src/components/SuddenDeath/Game.tsx:683-740 | for every phase and every flag, Space never resets the run |
| BeatSync.ReadyState | src/components/SuddenDeath/Game.tsx:338-380 | `handleReset` with `resetState({ resetManualStart: true })`: READY at line 0; input, mistakes, solves and the early-solve flag cleared; error, countdown, intro and manual-start refs cleared; paused at 0; id, lines and volume kept |
| BeatSync.ResetTwiceIsOnce | src/components/SuddenDeath/Game.tsx:338-358 | resetting twice is resetting once |
| BeatSync.Polled | src/components/SuddenDeath/Game.tsx:190-232 | the polling callback's setters in order: only phase, round, countdown, play state and intro flags change |
| BeatSync.PolledKeepsValid | src/components/SuddenDeath/Game.tsx:190-232 | the callback keeps the engine's invariant |
| BeatSync.PolledPlayingFollowsClock | src/components/SuddenDeath/Game.tsx:222-231 | while playing, the run is cleared iff every line is over; otherwise the current line is the first one not yet over |
| BeatSync.PolledPlayingNeverMovesBack | src/components/SuddenDeath/Game.tsx:222-231 | a later clock never moves the current line back |
| BeatSync.PolledCountdownShowsSeconds | src/components/SuddenDeath/Game.tsx:193-203 | a countdown started by the callback shows 1 to 3, the seconds to the first line |
| BeatSync.CountdownStarted | src/components/SuddenDeath/Game.tsx:549-574 | with lines, a first line after 0 and no countdown: counts down from 3 at line 0, playing from 3 s before the first line (not before 0), with the refs primed there; otherwise nothing |
| BeatSync.StartedFromBeginning | src/components/SuddenDeath/Game.tsx:492-514 | with lines: waiting at line 0, playing from 0, intro flags and countdown cleared; without lines nothing |
| BeatSync.LineSkipped | src/components/SuddenDeath/Game.tsx:279-300 | outside playing/waiting or without lines nothing; else input and early-solve flag cleared and the next line (with a seek, the clock at its start), or cleared after the last line |
| BeatSync.LineSkippedKeepsValid | src/components/SuddenDeath/Game.tsx:279-300 | skipping a line keeps the engine's invariant |
| BeatSync.CountdownSkipped | src/components/SuddenDeath/Game.tsx:683-700 | playing at line 0 from the primed start (0 if unset), countdown stopped, intro and countdown marked skipped |
| BeatSync.AfterReset | src/components/SuddenDeath/Game.tsx:338-358 | with lines, exactly `ReadyState`; without, nothing |
| BeatSync.IntroCleared | src/components/SuddenDeath/Game.tsx:662-675 | before the first line, a skipped intro is un-skipped (intro, pending-skip and countdown-skip flags cleared); otherwise nothing |
| BeatSync.Engine.constructor | src/components/SuddenDeath/Game.tsx:24-41 | idle, no lines, volume 0.6, every counter and ref cleared |
| BeatSync.Engine.ResetState | src/components/SuddenDeath/Game.tsx:360-380 | `resetState`: the whole new state, with lines and the clock cleared only on request |
| BeatSync.Engine.BeginFetch | src/components/SuddenDeath/Game.tsx:382-391 | an invalid id only sets the error; a valid one is trimmed, stored, and resets into loading |
| BeatSync.Engine.CompleteFetch | src/components/SuddenDeath/Game.tsx:392-403 | non-empty lines make the engine ready; an empty or failed fetch sets the error and goes idle |
| BeatSync.Engine.AdvanceClock | src/components/SuddenDeath/Game.tsx:174-190 | records the extrapolated clock and returns it adjusted by the offset |
| BeatSync.Engine.Track | src/components/SuddenDeath/Game.tsx:192-232 | performs `Polled` at the adjusted clock |
| BeatSync.Engine.Poll | src/components/SuddenDeath/Game.tsx:172-234 | extrapolates the clock, then performs `Polled` at it |
| BeatSync.Engine.CountdownTick | src/components/SuddenDeath/Game.tsx:252-270 | an inactive countdown does nothing; a positive one counts down; at 0 the run starts playing at line 0 |
| BeatSync.Engine.HandleSkipLine | src/components/SuddenDeath/Game.tsx:279-300 | performs `LineSkipped` |
| BeatSync.Engine.HandleSolved | src/components/SuddenDeath/Game.tsx:516-525 | one more solved line, input locked until the line ends, input emptied |
| BeatSync.Engine.HandleInput | src/components/SuddenDeath/Game.tsx:527-547 | ignored unless playing an unlocked line; a non-deleting input off every spelling counts a mistake; else stored, and an accepted one solves the line |
| BeatSync.Engine.StartCountdownToFirstLine | src/components/SuddenDeath/Game.tsx:549-574 | performs `CountdownStarted` and keeps the invariant |
| BeatSync.Engine.RequestIntroSkip | src/components/SuddenDeath/Game.tsx:588-602 | refused (nothing changes) within 200 ms of the first line; otherwise marks the skip pending and, with the player ready, performs `CountdownStarted` |
| BeatSync.Engine.StartFromBeginning | src/components/SuddenDeath/Game.tsx:492-514 | performs `StartedFromBeginning` |
| BeatSync.Engine.HandleReset | src/components/SuddenDeath/Game.tsx:338-358 | with lines, exactly `ReadyState`; without, nothing |
| BeatSync.Engine.StartRun | src/components/SuddenDeath/Game.tsx:473-490 | with lines, exactly `ReadyState`; without, idle |
| BeatSync.Engine.HandleVolume | src/components/SuddenDeath/Game.tsx:467-471 | only the volume changes, clamped to [0, 1] |
| BeatSync.Engine.SkipRunningCountdown | src/components/SuddenDeath/Game.tsx:683-700 | during a countdown, performs `CountdownSkipped` |
| BeatSync.Engine.OnSpace | src/components/SuddenDeath/Game.tsx:683-740 | chooses the `SpaceAction` for the old state, never a reset, and performs it |
| BeatSync.Engine.ClearIntroBeforeFirstLine | src/components/SuddenDeath/Game.tsx:662-675 | returns whether the clock is before the first line, and performs `IntroCleared` |
| BeatSync.Engine.OnKey | src/components/SuddenDeath/Game.tsx:661-746 | clears the intro flags before the first line, then F4 resets (`AfterReset`), Space performs its `SpaceAction`, Escape skips a line; only F4 resets; other keys do nothing more |
| Flash.NextPrompt | src/components/Flash/FlashGame.tsx:35-41 | none iff there are no prompts; otherwise one of them |
| Flash.ValidFlash | src/components/Flash/FlashGame.tsx:17-158 | the session invariant: pending timers fit the phase, at most three timeouts, counters cleared while idle or counting down, a prompt while revealing, hidden or answering, a deadline while hidden, the answer shown while answering, at most 200 records (a definition; each `FlashSession` method keeps it) |
| Flash.RecordOf | src/components/Flash/FlashGame.tsx:74-82 | the record holds the counters, 100 points per solve, and a 120 s span ending now |
| Flash.Stored | src/components/Flash/FlashGame.tsx:86-88 | the list with the record appended, cut to the newest 200 |
| Flash.StoredKeepsNewest | src/components/Flash/FlashGame.tsx:86-88 | before the new record, the stored list is the newest of the old records, in their order |
| Flash.RoundStarted | src/components/Flash/FlashGame.tsx:94-107 | without a prompt nothing; otherwise reveal it with input and answer cleared and its reveal timer pending |
| Flash.Ended | src/components/Flash/FlashGame.tsx:70-91 | the intended `endSession`: a finished session is unchanged; otherwise finished, no timer pending, and its record stored last |
| Flash.Started | src/components/Flash/FlashGame.tsx:46-68 | only from idle or finished: counters cleared, countdown at 3 with its three steps pending |
| Flash.PlayedAgain | src/components/Flash/FlashGame.tsx:188 | from the results, no session deadline and a fresh start |
| Flash.Fired | src/components/Flash/FlashGame.tsx:58-66 | the oldest timer fires: the countdown steps to 2 and 1, GO sets the 120 s deadline and reveals a prompt, the reveal end hides it with 10 s; the after-answer pause ends the session with the current counters or reveals the next prompt (the intended behaviour) |
| Flash.SessionTicked | src/components/Flash/FlashGame.tsx:110-118 | once the session deadline has passed, the intended `endSession` runs; otherwise nothing |
| Flash.PromptTicked | src/components/Flash/FlashGame.tsx:121-147 | once the hidden prompt's deadline has passed, the answer shows, a timeout is counted and the pause is pending |
| Flash.Changed | src/components/Flash/FlashGame.tsx:149-158 | while hidden, an accepted spelling counts a solve and reveals the next prompt; any other input is only stored |
| Flash.Cleared | src/components/Flash/FlashGame.tsx:226-227 | the intended Reset: idle, counters, deadlines and display cleared, no timer pending, the stored list kept |
| Flash.CountdownReachesFirstRound | src/components/Flash/FlashGame.tsx:46-68 | the countdown shows 3, 2, 1, then a listed prompt is revealed with 120 s on the clock |
| Flash.RevealThenSolve | src/components/Flash/FlashGame.tsx:94-107 | after the reveal the prompt is hidden with 10 s; an accepted spelling counts one solve and reveals the next |
| Flash.ThirdTimeoutRecorded | src/components/Flash/FlashGame.tsx:133-147 | the third timeout ends the session after its answer, and the record counts three timeouts |
| Flash.DeadlineDuringAnswerRecordsOnce | src/components/Flash/FlashGame.tsx:115-118 | a deadline during the pause ends the session once, with one record |
| Flash.ResetCancelsEverything | src/components/Flash/FlashGame.tsx:226-227 | Reset leaves nothing pending, and Start still works |
| Flash.UntrackedAsWritten | src/components/Flash/FlashGame.tsx:44 | as written, `clearTimers` leaves only after-answer timers, and every after-answer timer stays |
| Flash.StaleRecordAsWritten | src/components/Flash/FlashGame.tsx:133-147 | as written, the session ended by the third timeout is stored with two timeouts |
| Flash.ResetLeavesRoundAsWritten | src/components/Flash/FlashGame.tsx:44 | as written, a round starts after Reset on the idle screen, with no session deadline |
| Flash.DeadlineDuringAnswerAsWritten | src/components/Flash/FlashGame.tsx:70-91 | as written, a deadline during the last pause stores the session twice |
| Flash.EndedAsWrittenKeepsAnswer | src/components/Flash/FlashGame.tsx:70-91 | as written, ending a session paused on an answer stores one record and leaves the after-answer timer pending |
| Flash.ThirdTimeoutStoresSeen | src/components/Flash/FlashGame.tsx:139-145 | as written, a callback that saw a third timeout finishes the session and stores the counters it saw, whatever the phase is by then |
| Flash.AnswerPending | src/components/Flash/FlashGame.tsx:133-147 | while an answer is shown, exactly one after-answer timer is pending, and it saw one timeout fewer |
| Flash.EndedAsWritten | src/components/Flash/FlashGame.tsx:44-91 | as written, `endSession` of a running session finishes it and stores its record, but leaves the after-answer timers pending; a finished session is unchanged |
| Flash.ClearedAsWritten | src/components/Flash/FlashGame.tsx:226-227 | as written, Reset goes idle with counters, deadlines and prompt cleared and the stored list kept, but every after-answer timer stays pending |
| Flash.AfterAnswerAsWritten | src/components/Flash/FlashGame.tsx:139-146 | as written, the after-answer callback finishes and stores the counters it saw when they reach the third timeout, and otherwise reveals a prompt without looking at the phase |
| Flash.UntrackedKeepsExactly | src/components/Flash/FlashGame.tsx:44 | as written, `clearTimers` leaves exactly the after-answer timers, each as often as it was pending |
| Flash.RemainingSec | src/components/Flash/FlashGame.tsx:203-206 | 0 without a deadline; otherwise the seconds left |
| Flash.PerRemaining | src/components/Flash/FlashGame.tsx:208-211 | shown iff the prompt is hidden with a deadline; then its seconds left |
| Flash.LifeHearts | src/components/Flash/FlashGame.tsx:315-317 | one heart per remaining life, none below 1 |
| Flash.FlashSession.constructor | src/components/Flash/FlashGame.tsx:17-29 | idle, with the store's prompts and the stored list |
| Flash.FlashSession.StartSession | src/components/Flash/FlashGame.tsx:46-68 | performs `Started` |
| Flash.FlashSession.PlayAgain | src/components/Flash/FlashGame.tsx:188 | performs `PlayedAgain` |
| Flash.FlashSession.StartRound | src/components/Flash/FlashGame.tsx:94-107 | performs `RoundStarted` |
| Flash.FlashSession.EndSession | src/components/Flash/FlashGame.tsx:70-91 | performs `Ended`, the intended behaviour |
| Flash.FlashSession.FireNext | src/components/Flash/FlashGame.tsx:58-66 | performs `Fired` on the oldest pending timer, the intended behaviour |
| Flash.FlashSession.SessionTick | src/components/Flash/FlashGame.tsx:110-118 | performs `SessionTicked`, the intended behaviour |
| Flash.FlashSession.PromptTick | src/components/Flash/FlashGame.tsx:121-131 | performs `PromptTicked` |
| Flash.FlashSession.OnChange | src/components/Flash/FlashGame.tsx:149-158 | performs `Changed` |
| Flash.FlashSession.Reset | src/components/Flash/FlashGame.tsx:226-227 | performs `Cleared`, the intended behaviour |
| PromptTimer.Init | src/components/Game.tsx:35-53 | the time-up flags cleared; the limit of the prompt; the remainder set iff a prompt is playing |
| PromptTimer.Ticked | src/components/Game.tsx:56-77 | while counting, one second less, and time is up iff it reaches 0; otherwise nothing |
| PromptTimer.Ticks | src/components/Game.tsx:56-77 | k ticks keep the gauge's invariant |
| PromptTimer.TimeUpAfterRemainingTicks | src/components/Game.tsx:56-77 | after as many ticks as seconds remain, time is up at 0 |
| PromptTimer.ZeroLimitNeverTimesUp | src/components/Game.tsx:59 | a prompt with a zero limit never times up |
| PromptTimer.Signalled | src/components/Game.tsx:80-109 | `onPromptTimeUp` is called iff playing, time is up and it was not yet fired |
| PromptTimer.TimeUpReportedOnce | src/components/Game.tsx:80-109 | after time-up, a signal calls `onPromptTimeUp` once and further signals never again |
| PromptTimer.Ratio | src/components/Game.tsx:166-168 | the elapsed share within [0, 1], with NaN for 0/0 |
| PromptTimer.LowThreshold | src/components/Game.tsx:169 | at least 5 and at least 15% of the limit, rounded up |
| PromptTimer.LowIffLastFifteenPercent | src/components/Game.tsx:169 | red at 5 s or less, or within the last 15% of the limit; not red otherwise |
| PromptTimer.PromptClock.constructor | src/components/Game.tsx:17-20 | no limit, no remainder, nothing fired |
| PromptTimer.PromptClock.PromptChanged | src/components/Game.tsx:35-53 | performs `Init` |
| PromptTimer.PromptClock.Tick | src/components/Game.tsx:62-72 | performs `Ticked` |
| PromptTimer.PromptClock.Signal | src/components/Game.tsx:85-103 | performs `Signalled` |
| PromptTimer.SessionTicked | src/components/Game.tsx:223-227 | the clock is read only while the deadline is ahead |
| PromptTimer.SessionSignalled | src/components/Game.tsx:229-249 | fired iff already fired or no second is left |
| PromptTimer.SessionTimeUpOnce | src/components/Game.tsx:229-249 | `onTimeUp` is called exactly once after the deadline |
| PromptTimer.SessionRatio | src/components/Game.tsx:221 | within [0, 1]: 1 at the deadline, 0 with the whole session left |
| PromptTimer.SessionText | src/components/Game.tsx:266-280 | mm:ss digits that read back as the seconds left |
| Progress.InferDifficulty | src/components/Progress.tsx:180-190 | none iff there are no counts; normal wins ties with the others, hard wins a tie with easy |
| Progress.SolvedOf | src/components/Progress.tsx:51-53 | the stored count, else the sum of the per-mode counts, else 0 |
| Progress.PerSolve | src/components/Progress.tsx:54-60 | 200 for hard, 150 for normal, 100 otherwise |
| Progress.PointsOf | src/components/Progress.tsx:54-60 | the stored points, else solves × points per solve at the session's difficulty |
| Progress.InsertByStart | src/components/Progress.tsx:32 | one step of the load's sort: adds exactly the session |
| Progress.LoadSorted | src/components/Progress.tsx:32 | the load's sort by start, newest first: the same sessions |
| Progress.InsertByStartSorted | src/components/Progress.tsx:32 | inserting into a newest-first list keeps it newest first |
| Progress.LoadSortedSorts | src/components/Progress.tsx:32 | the loaded list is newest first and holds exactly the stored sessions |
| Progress.Entry | src/components/Progress.tsx:82-90 | the entry of a day holds that day and its session |
| Progress.Step | src/components/Progress.tsx:79-106 | one loop step: a new day gets the session, a better session replaces the day's entry, else nothing (a definition; `StepShape` states it) |
| Progress.Fold | src/components/Progress.tsx:78-107 | the loop as a left fold of `Step` (a definition; `FoldShape` and `FoldKeepsBest` state it) |
| Progress.Compare | src/components/Progress.tsx:70-76 | positive iff a has more points, or equal points and fewer mistakes, or equal both and an earlier end |
| Progress.Better | src/components/Progress.tsx:93-95 | a beats b iff `Compare` is positive (a definition; `BetterIsStrictWeakOrder` states it) |
| Progress.BetterIsStrictWeakOrder | src/components/Progress.tsx:70-76 | "better" is irreflexive, asymmetric, transitive, and incomparability is transitive |
| Progress.StepShape | src/components/Progress.tsx:78-107 | one loop step keeps the map well formed, adds the session's day, and changes at most that day's entry |
| Progress.FoldShape | src/components/Progress.tsx:78-107 | the map's keys are exactly the sessions' days, once each, and each entry holds a session of that day |
| Progress.FoldKeepsBest | src/components/Progress.tsx:78-107 | no session of a day beats the one kept for it |
| Progress.FoldTiesKeepFirst | src/components/Progress.tsx:96-100 | among sessions of equal rank, the earliest in the list is kept |
| Progress.KeptNoLater | src/components/Progress.tsx:93-95 | gives the position of a day's kept session: at or before every session of that day it does not beat |
| Progress.KeptStartedNoEarlier | src/components/Progress.tsx:93-95 | over a newest-first list, the session kept for a day started no earlier than any session of that day it does not beat |
| Progress.LoadedTiesKeepLatest | src/components/Progress.tsx:32-107 | after the load's sort, the session kept for a day started no earlier than any equal-ranked session of that day |
| Progress.DailyBests | src/components/Progress.tsx:78-107 | the loop builds exactly the left fold of the steps |
| Progress.ShownBeforeIsStrictTotal | src/components/Progress.tsx:124-128 | the display order is a strict order, total on entries of different days |
| Progress.ShownBefore | src/components/Progress.tsx:111-128 | the display order: more points, then fewer mistakes, then an earlier end, then the later day (a definition; `ShownBeforeIsStrictTotal` states it) |
| Progress.Insert | src/components/Progress.tsx:125-128 | one insertion step of the display sort: adds exactly the entry |
| Progress.SortShown | src/components/Progress.tsx:109-128 | the display sort: the same entries |
| Progress.SortShownSorts | src/components/Progress.tsx:109-111 | sorting puts entries of distinct days in display order, each once |
| Progress.ValuesOfDays | src/components/Progress.tsx:109 | the map's values in key order are of distinct days and are exactly its entries |
| Progress.Values | src/components/Progress.tsx:109 | `Object.values`: one value per key, in key order |
| Progress.Shown | src/components/Progress.tsx:109-128 | the displayed list has one entry per day in the map |
| Progress.ShownSorted | src/components/Progress.tsx:109-128 | the list is in display order and shows each entry of the map once |
| Progress.ShownIsDailyBest | src/components/Progress.tsx:46-128 | one entry per day with a session, and it holds that day's best session |
| Progress.Ordered | src/components/Progress.tsx:46-128 | the loop, then the sort, gives exactly `Shown` |
| Progress.LabelOf | src/components/Progress.tsx:192-199 | EASY, NORMAL, HARD or "-" without a mode, each iff its mode |
| Overlay.EndsAt | src/components/Multi/Overlay.tsx:34 | no deadline iff the start is unset; otherwise `durationSec` seconds after it |
| Overlay.RemainingSec | src/components/Multi/Overlay.tsx:35-38 | none iff unset; 0 after the deadline; otherwise the seconds left, rounded up |
| Overlay.ClockRunsDown | src/components/Multi/Overlay.tsx:34-38 | the race clock reads the whole duration at the start and never goes up |
| Overlay.Countdown | src/components/Multi/Overlay.tsx:41-48 | shown only from 3 s before the start to 300 ms after it; at most 3; GO (0) iff the start has passed |
| Overlay.CountdownShowsThreeTwoOneGo | src/components/Multi/Overlay.tsx:41-48 | k seconds before the start it shows k, then GO for 300 ms, then nothing |
| Overlay.ClockText | src/components/Multi/Overlay.tsx:103-105 | shown iff there is a deadline and the race has started; mm:ss that reads back as the seconds left |
| Overlay.InsertPlayer | src/components/Multi/Overlay.tsx:93 | inserting adds exactly the player |
| Overlay.RanksAbove | src/components/Multi/Overlay.tsx:93 | the ranking comparator: a higher score, or an equal score and fewer mistakes (a definition; `RankingSorts` states it) |
| Overlay.Ranked | src/components/Multi/Overlay.tsx:93 | no player ranks above an earlier one (a definition; `InsertPlayerRanked` and `RankingSorts` state it) |
| Overlay.Ranking | src/components/Multi/Overlay.tsx:93 | the same players, rearranged |
| Overlay.InsertPlayerRanked | src/components/Multi/Overlay.tsx:93 | inserting into a ranked list keeps it ranked |
| Overlay.RankingSorts | src/components/Multi/Overlay.tsx:93 | higher score first, then fewer mistakes, every player once |
| Overlay.FirstRowLeads | src/components/Multi/Overlay.tsx:93 | the first row has the top score and the fewest mistakes among those with it |
| Overlay.Handled | src/components/Multi/Overlay.tsx:67-89 | outside a room nothing; in one, the event's counter goes up (a correct answer adds 10 points) and the new totals are sent |
| Overlay.HandledAll | src/components/Multi/Overlay.tsx:67-89 | a run of events keeps the bridge's invariant |
| Overlay.TotalsCountEvents | src/components/Multi/Overlay.tsx:67-89 | in a room, each total counts its kind of event, the score is 10 per correct answer, and the last report is the totals |
| Overlay.GamesCountAlike | src/components/Multi/Overlay.tsx:69-74 | practice and flash events of a kind change the totals alike |
| Overlay.ProgressBridge.constructor | src/components/Multi/Overlay.tsx:19-22 | no progress, nothing sent |
| Overlay.ProgressBridge.OnEvent | src/components/Multi/Overlay.tsx:67-89 | performs `Handled` |
| Overlay.Rescheduled | src/components/Multi/Overlay.tsx:51-64 | a start is pending iff the room has started with a start time and the guard is unset; it captures the mode and duration |
| Overlay.TimerFired | src/components/Multi/Overlay.tsx:54-61 | a pending start sets the guard and starts practice for the duration, or signals the flash game, or nothing without a mode |
| Overlay.StartSteps | src/components/Multi/Overlay.tsx:51-64 | every run of re-schedules and firings keeps the guard's invariant |
| Overlay.StartsAtMostOnce | src/components/Multi/Overlay.tsx:51-64 | at most one start, and none once the guard is set |
| Overlay.StartedRoomStartsGame | src/components/Multi/Overlay.tsx:51-64 | a started room with a start time starts the game in its mode |
| Overlay.StartGuard.constructor | src/components/Multi/Overlay.tsx:51 | unset, nothing pending, nothing started |
| Overlay.StartGuard.DepsChanged | src/components/Multi/Overlay.tsx:52-63 | performs `Rescheduled` |
| Overlay.StartGuard.Fire | src/components/Multi/Overlay.tsx:54-61 | performs `TimerFired` |

## Left out

- The video player, the YouTube embed, the DOM, focus handling, animations, sounds and all rendering are not modelled. The player clock is a parameter of the handlers.
- The line-progress gauge of the beat-sync engine (`src/components/SuddenDeath/Game.tsx:302-336`) and its auto-advance effect are left out. They are fractions of wall-clock time feeding `HandleSkipLine`, which is modelled.
- Video search and the video picker are left out. They are network I/O.
- The beat-sync engine's `dead` phase is left out, because no code enters it.
- `BeatSync.Engine.RequestIntroSkip`, `BeatSync.Engine.HandleVolume` and `BeatSync.SeekTarget` model handlers the component defines but never calls. `requestIntroSkip` appears only in an effect's dependency list (`src/components/SuddenDeath/Game.tsx:749`), and `handleVolume` and `handleSeek` are not wired to any control.
- The beat-sync engine's `playerStarted` flag (`src/components/SuddenDeath/Game.tsx:41`) only drives rendering and is not modelled.
- `BeatSync.OffsetMs` is the constant 0: the component declares a setter for the lyric offset and never calls it.
- `BeatSync.Engine.CompleteFetch` requires the engine to be loading. The interleaving in which the user resets while the fetch is in flight is not modelled.
- The lyric fetch is modelled as returning the `lines` that the component reads. The API module's declared return type is not part of this model.
- `BeatSync.Engine.HandleInput` does not model the 200 ms shake animation. The beat-sync `<input>` element is folded into that handler.
- `TypingStore.Store.OnChange` and `TypingStore.Store.OnKeyDown` leave out the input box's glow animation and its timers, and `preventDefault`. They read the store's state after each action, as zustand's synchronous setters give them.
- The "zzi" rule follows the code: it lists only "jji", so "zzi" is not its own variant. Acceptance still holds through the equality check that runs first.
- `Flash.Changed`: input is handled only while the prompt is hidden. The input element is disabled in every other phase (`src/components/Flash/FlashGame.tsx:281`).
- Flash session records are a sequence, not the `localStorage` JSON text. The constant `mode` field and the update event are not modelled.
- `Flash.Ended`, like `Flash.FlashSession.EndSession`, models the intended `endSession`, which also cancels the after-answer timer. As written, that timer is never tracked and survives (`Flash.EndedAsWritten`, `Flash.UntrackedAsWritten`). See "## Findings".
- `Flash.Cleared`, like `Flash.FlashSession.Reset`, models the intended Reset, which cancels every timer. As written, the after-answer timer survives (`Flash.ClearedAsWritten`).
- `Flash.Fired`, like `Flash.FlashSession.FireNext`, models the intended after-answer callback: it ends the session with the current counters, and it never fires after the session has ended or been reset, because those cancel it. As written, it uses the counters of the render that scheduled it and ignores the phase (`Flash.AfterAnswerAsWritten`).
- `Flash.SessionTicked`, like `Flash.FlashSession.SessionTick`, ends the session through the intended `endSession`. The as-written double record is `Flash.DeadlineDuringAnswerAsWritten`.
- `Flash.FlashSession.EndSession` performs the intended `Ended`; the as-written behaviour is `Flash.EndedAsWritten`.
- `Flash.FlashSession.FireNext` performs the intended `Fired`; the as-written behaviour is `Flash.AfterAnswerAsWritten`.
- `Flash.FlashSession.SessionTick` performs the intended `SessionTicked`; the as-written behaviour is `Flash.DeadlineDuringAnswerAsWritten`.
- `Flash.FlashSession.Reset` performs the intended `Cleared`; the as-written behaviour is `Flash.ClearedAsWritten`.
- `FlashGame` calls `useMemo` (`src/components/Flash/FlashGame.tsx:203-211`) after the early returns at lines 160 and 168, so the number of hooks changes between renders. That breaks React's rules of hooks. This is rendering and is not modelled; `Flash.RemainingSec` and `Flash.PerRemaining` model the values the memos compute.
- React's effect ordering within one render is not modelled. The flash timers are fired oldest first, which their fixed delays make the only order.
- `Progress` takes the calendar day of a timestamp as the parameter `dayOf`. The `yyyy-mm-dd` key text in the local time zone, the `localStorage` read and its parse are left out. The day is a number whose order is the order of those keys, so `localeCompare` on the key becomes `<` on the day. The load's sort by start (`Progress.LoadSorted`) is modelled; a missing `startedAt` or `endedAt` (read as 0 by `??`) is not, since the model's records always carry both.
- `Progress.LoadSorted` is stable, like `Array.prototype.sort`, but no lemma states the stability. `Progress.LoadedTiesKeepLatest` states its consequence for the daily bests.
- `Progress` combines the memo's sort by day (`src/components/Progress.tsx:111`) and the stable display sort (`src/components/Progress.tsx:125-128`) into one order, `ShownBefore`. Points, mistakes and end time decide first; the later day breaks the remaining ties.
- `PromptTimer.LowThreshold` computes `ceil(limit * 0.15)` exactly. The floating-point product can differ from the exact one by one unit.
- `PromptTimer` folds the fire effect's local `done` flag into `timeUpFired`.
- `Overlay.Handled` models the intended behaviour, where each event sees the totals after the previous one. As written, the handlers read the totals of their render, so two events within one render would send stale reports. `sendProgress` also runs inside a state updater, which React may call twice in development.
- `Overlay.StartGuard` does not model the start timer's delay, only the order of re-schedules and firings. The room client and its socket are parameters.
- `Overlay.Ranking` is stable (it inserts after ties), but this model does not state that as a lemma.
- The practice page and the overlay read `timeMode`, `sessionActive`, `sessionEndsAt`, `sessionStats` and `startSession` from the typing store, which does not define them. The model takes the time mode, the status and the deadline as parameters, and the practice start as an action the guard records.
- Text.Lower, Typing.IsAcceptedRomaji, Typing.PrefixOfAnyIff, Typing.SplitForHighlight, TimeLimit.RawTenths, TimeLimit.GetTimeLimitSeconds, TypingStore.Store.SetInput, TypingStore.Store.OnChange and TypingStore.RoundEntry measure strings in Unicode scalar values, while JavaScript's string lengths count UTF-16 code units. So `romaji.length` in the time limit, the `next.length > prev.length` mistake test and `input.length` in the WPM count can differ on characters outside the Basic Multilingual Plane. `Text.Lower` and the typing members built on it also lower-case ASCII letters only, while JavaScript's `toLowerCase` is Unicode-aware: "\u212Aa" (Kelvin sign, then "a") is accepted for "ka" in JavaScript but not in this model.

## Findings

| source | as written | input that shows it | evidently intended | confidence | as-written member | corrected member |
|---|---|---|---|---|---|---|
| src/components/Flash/FlashGame.tsx:133-147 | the after-answer callback ends the session with the counters of the render that scheduled it | a third prompt timeout: `timeouts` is 2 in the closure, so the stored record has 2 timeouts | the record counts all three timeouts | not executed | Flash.StaleRecordAsWritten | Flash.ThirdTimeoutRecorded |
| src/components/Flash/FlashGame.tsx:44 | the after-answer timer is never pushed to `timers`, so `clearTimers` and the Reset button do not cancel it | Reset pressed during the 800 ms pause after a first timeout: a new round starts on the idle screen | Reset cancels every pending timer | not executed | Flash.ResetLeavesRoundAsWritten | Flash.ResetCancelsEverything |
| src/components/Flash/FlashGame.tsx:70-91 | the session deadline ends the session while the after-answer timer is pending, and that timer's stale `endSession` stores a second record; after a first or second timeout the same timer instead starts a new round on the results screen (`Flash.AfterAnswerAsWritten` ignores the phase) | the deadline passes during the pause after a third timeout | the session is stored once | not executed | Flash.DeadlineDuringAnswerAsWritten | Flash.DeadlineDuringAnswerRecordsOnce |
