# Typing-master session engine, in Dafny

Typing-master is a React typing-practice site. Each typing mode is one component with its own small engine. The engine has state fields, handlers that reassign them, and integer formulas for speed, accuracy and errors. This project models those engines and proves what their handlers and formulas promise.

The modes:

- **Quick test** (landing page, `LandingPage.QuickTest`). A fixed passage and a 30-second countdown. Statistics follow the input while the test runs.
- **Word-count test** (`HardMode.HardModeTest`). 5, 10 or 15 random words. The clock starts with the first keystroke. The test finishes when the typed text is as long as the passage.
- **Snippet test** (`CodeMode.CodeModeTest`). The same engine, with a code snippet as the passage.
- **Countdown test** (`TimeBase.SpeedTest`). 15, 30, 60 or 90 seconds. The ticks stop the test at 0. Edits count only while it runs.
- **Keyboard practice** (`KeyboardTest.KeyboardPractice`). A practice buffer driven by key events. An on-screen keyboard shows a finger hint for each key.

The logic shared by the modes lives in its own modules:

- `Comparator`: position-wise comparison, correct and mismatch counts, the error-counting loop, per-character marks.
- `Metrics`: `Math.round(a / b)` as round-half-up `(2a + b) div (2b)`, accuracy, words per minute, the statistics record.
- `Text`: JavaScript whitespace, `trim`, `join`, and the token count of `trim().split(/\s+/).filter(Boolean)`.
- `Clock`: the `m:ss` and `0:ss` clock texts, plus a parser that reads them back.

How the model maps the program:

- **Components are classes.** Each component's `useState` fields are class fields. Each handler is a method that reassigns them.
- **Effects are folded into methods.** A React effect that runs after a handler's state change becomes the corresponding method, or part of it:
  - the completion effects of the word-count and snippet tests;
  - the statistics effects of the quick and countdown tests;
  - the tick effects.
- **Effects as invariants.** The countdown test's statistics effect has no guard, so its statistics are part of the class invariant `Valid()`. The quick test's effect runs only while the test runs, so there the invariant holds only while the test is started.
- **Clock reads.** Wall-clock reads (`Date.now()`) are `now` parameters, in milliseconds.
- **Network replies.** The replies of the word and snippet services are datatype parameters (`WordsReply`, `SnippetReply`). They cover the failure and the malformed reply.
- **Ticks.** Each tick of a `setTimeout` or `setInterval` is one call of a `Tick` method.

Where the page text and the code disagree, the model follows the code:

- The landing page describes the word-count mode as "No backspace allowed! Mistakes are permanent." (src/components/Home/LandingPage.tsx:238). But `handleInputChange` accepts every edit. `HardMode.HardModeTest.HandleInputChange` takes shortening edits too.
- A comment says the countdown test's duration selection is "always available" (src/components/Modes/TimeBase.tsx:52). But its buttons are disabled while a test runs (line 232). `HandleSelectDuration` models the handler itself, which works in either state.

## Model

| member | source | states |
|---|---|---|
| Metrics.RoundDiv | src/components/Modes/HardMode.tsx:131-134 | `Math.round(a / b)` for b > 0 is the unique r with 2rb <= 2a + b < 2(r + 1)b: the nearest integer, halves up |
| Metrics.RoundDivUnique | src/components/Modes/HardMode.tsx:131-134 | the rounding condition has exactly one solution, so any integer meeting it is the rounded quotient |
| Metrics.RoundDivMonotone | src/components/Modes/HardMode.tsx:131-134 | rounding is monotone in the numerator |
| Metrics.RoundDivScale | src/components/Modes/HardMode.tsx:143-148 | scaling numerator and denominator by the same positive factor leaves the rounded quotient unchanged |
| Metrics.Accuracy | src/components/Modes/HardMode.tsx:135-137 | accuracy is 100 with nothing typed or everything correct, 0 with nothing correct, always within [0, 100], and otherwise the rounding of 100 * correct / typed |
| Metrics.AccuracyMonotone | src/components/Home/LandingPage.tsx:79-81 | more correct characters out of the same number typed never lower the accuracy |
| Metrics.ClampedErrors | src/components/Home/LandingPage.tsx:77-78 | `errorCount > 0 ? errorCount : 0` is at most the typed count, is typed - correct when correct <= typed, and 0 otherwise |
| Metrics.CharWpm | src/components/Modes/HardMode.tsx:129-134 | the speed is 0 without elapsed time, and otherwise the rounding of (chars / 5) per elapsed minute |
| Metrics.CharWpmMillis | src/components/Modes/HardMode.tsx:143-148 | the same speed over elapsed milliseconds, 0 when none have elapsed |
| Metrics.CharWpmMillisAgrees | src/components/Modes/HardMode.tsx:129-148 | measured over whole seconds, the final (millisecond) speed equals the live (second) speed |
| Metrics.CharWpmMonotone | src/components/Modes/HardMode.tsx:129-134 | at a fixed elapsed time, more characters never lower the speed |
| Metrics.LiveStats | src/components/Modes/HardMode.tsx:128-139 | the live statistics keep the error count, have accuracy in [0, 100] (100 with nothing typed) and no speed before time elapses |
| Metrics.FinalStats | src/components/Modes/HardMode.tsx:141-152 | the frozen statistics: the error count, accuracy in [0, 100], and the millisecond speed |
| Comparator.CorrectCount | src/components/Home/LandingPage.tsx:73-75 | the number of positions that equal the reference is bounded by both lengths |
| Comparator.MismatchCount | src/components/Modes/HardMode.tsx:121-124 | mismatches are at most the typed length, and every typed position beyond the reference is one |
| Comparator.CorrectPlusMismatch | src/components/Home/LandingPage.tsx:73-77 | every typed position is correct or a mismatch: the two counts add up to the typed length |
| Comparator.MismatchAtLeastOne | src/components/Modes/HardMode.tsx:122-124 | one differing position makes the error count positive |
| Comparator.ClampedErrorsAreMismatches | src/components/Modes/TimeBase.tsx:136-139 | the clamped `typed - correct` of the quick and countdown tests equals the loop-counted mismatches of the other modes |
| Comparator.CountErrors | src/components/Modes/HardMode.tsx:120-125 | the `for` loop counts exactly the positions where the input differs from the reference or runs past it |
| Comparator.Marks | src/components/Home/LandingPage.tsx:94-99 | a reference character below the typed length is correct iff it equals the typed one, otherwise incorrect; the cursor sits exactly at the typed length when shown |
| Comparator.MarksAgreeWithCounts | src/components/Modes/HardMode.tsx:225-232 | the correct marks count the correct characters, and the incorrect marks plus the overflow past the reference count the errors |
| Clock.DecimalString | src/components/Modes/TimeBase.tsx:34 | a template-literal number is a non-empty digit string with no leading zero |
| Clock.DecimalRoundTrip | src/components/Modes/TimeBase.tsx:34 | the decimal digits of a number read back as that number |
| Clock.TwoDigits | src/components/Modes/TimeBase.tsx:34 | seconds below 60 padded with `'0'` are exactly two digits, tens then units |
| Clock.FormatClock | src/components/Modes/TimeBase.tsx:31-35 | the clock text is the minutes in decimal, a colon, then the seconds of the minute as exactly two digits |
| Clock.FormatQuickClock | src/components/Home/LandingPage.tsx:24-26 | the quick clock always starts with "0:", and below 100 seconds it is "0:" then exactly two digits |
| Clock.ClockRoundTrip | src/components/Modes/TimeBase.tsx:31-35 | `formatTime` loses nothing: parsing `m:ss` gives back the seconds |
| Clock.ClockInjective | src/components/Modes/TimeBase.tsx:31-35 | different second counts show different clock texts |
| Clock.QuickClockShape | src/components/Home/LandingPage.tsx:24-26 | below one minute the quick clock is "0:" and two digits, the same text as the countdown clock |
| Text.SkipWordSuffix | src/components/Home/LandingPage.tsx:82 | skipping a word leaves the suffix after a run without whitespace, which starts at whitespace or is empty |
| Text.TokenCountZero | src/components/Home/LandingPage.tsx:82 | an input has no words exactly when it is all whitespace |
| Text.IsSpace | src/components/Home/LandingPage.tsx:82 | space, tab, line feed and carriage return are whitespace; digits and ASCII letters are not |
| Text.TokenCount | src/components/Home/LandingPage.tsx:82 | words are whitespace-separated, so there are at most half as many as characters, rounded up |
| Text.TokenCountJoin | src/components/Home/LandingPage.tsx:82 | the word count inverts `join(' ')`: words without whitespace joined by single spaces count as exactly that many words |
| Text.JoinLength | src/components/Modes/HardMode.tsx:76 | `join(' ')` of n words is as long as the words together plus n - 1 separators |
| Text.TrimStartSuffix | src/components/Modes/TimeBase.tsx:144 | trimming the start drops a whitespace prefix and leaves a suffix not starting with whitespace |
| Text.TrimEndPrefix | src/components/Modes/TimeBase.tsx:144 | trimming the end drops a whitespace suffix and leaves a prefix not ending with whitespace |
| Text.Trim | src/components/Modes/TimeBase.tsx:144 | `trim()` is a slice with whitespace only on either side and none at its ends, empty exactly for all-whitespace input |
| LandingPage.QuickWpm | src/components/Home/LandingPage.tsx:82-83 | the divisor 30 - timeLeft + 1 is at least 1, and the speed is the rounding of 60 * words over it; no words give 0 |
| LandingPage.QuickStats | src/components/Home/LandingPage.tsx:71-84 | errors are the mismatches (0 to the typed length), accuracy is that of the correct count, empty input gives the defaults, speed is the token speed |
| LandingPage.QuickSpeedOfSpace | src/components/Home/LandingPage.tsx:82-83 | the input has no words exactly when it is all whitespace, and then the speed is 0 |
| LandingPage.QuickSpeedBound | src/components/Home/LandingPage.tsx:82-83 | the speed is at most that of (typed length + 1) / 2 words over the elapsed seconds plus one |
| LandingPage.QuickSpeedOfWords | src/components/Home/LandingPage.tsx:82-83 | typing n whitespace-free words separated by single spaces gives the speed of exactly n words |
| LandingPage.LineBreakNeverMatches | src/components/Home/LandingPage.tsx:19-21 | the passage has a line break at position 65 that single-line input cannot match, so such input past it always carries an error |
| LandingPage.QuickTest.constructor | src/components/Home/LandingPage.tsx:30-36 | the initial state: empty input, not started, a full countdown, default statistics |
| LandingPage.QuickTest.StartTest | src/components/Home/LandingPage.tsx:43-52 | empty input, a full countdown, default statistics, started, the input enabled |
| LandingPage.QuickTest.Tick | src/components/Home/LandingPage.tsx:55-68 | while started the countdown drops by exactly one and never below 0; on 0 the test stops and the input is disabled; stopped, nothing changes |
| LandingPage.QuickTest.HandleInput | src/components/Home/LandingPage.tsx:71-89 | the input takes every value; the statistics follow it while started and stay as they were otherwise |
| LandingPage.QuickTest.Rendered | src/components/Home/LandingPage.tsx:94-99 | the passage marks against the input, with the cursor at the typed length only while started |
| LandingPage.QuickTest.ClockText | src/components/Home/LandingPage.tsx:24-26 | the clock is "0:" and two digits that read back as the remaining seconds |
| HardMode.SelectedWords | src/components/Modes/HardMode.tsx:73 | an array reply gives its words, any other reply none |
| HardMode.HardModeTest.constructor | src/components/Modes/HardMode.tsx:20-33 | the initial state: no word count, no words, empty texts, no clock, no errors, default statistics |
| HardMode.HardModeTest.InputShown | src/components/Modes/HardMode.tsx:217 | the input is shown only once a word count is chosen, and never after the test finished |
| HardMode.HardModeTest.CompletionDue | src/components/Modes/HardMode.tsx:52-61 | completion is due only for a non-empty typed text and passage on an unfinished test, and then the clock has started |
| HardMode.HardModeTest.LoadWords | src/components/Modes/HardMode.tsx:73-83 | the words become the passage joined by single spaces and every run field resets |
| HardMode.HardModeTest.HandleModeSelect | src/components/Modes/HardMode.tsx:66-88 | no count or a failed request changes nothing; otherwise the reply's words are the passage and the test is fresh |
| HardMode.HardModeTest.StartNewTest | src/components/Modes/HardMode.tsx:90-111 | without a count or on a failed request nothing changes; otherwise new words for the same count and a fresh test |
| HardMode.HardModeTest.HandleInputChange | src/components/Modes/HardMode.tsx:113-126 | every edit is taken, shortening ones too; the first non-empty edit starts the clock and only it; errors are the mismatches |
| HardMode.HardModeTest.FinishTest | src/components/Modes/HardMode.tsx:141-155 | the statistics freeze over the time since the clock started (or since 0), the test finishes, the clock clears and the input is hidden |
| HardMode.HardModeTest.CompletionEffect | src/components/Modes/HardMode.tsx:52-61 | the test finishes exactly when the typed length equals a non-empty passage length before finishing, and then its clock had started; the passage, words, count, timer, input and errors stay; when not due nothing changes |
| HardMode.HardModeTest.Edit | src/components/Modes/HardMode.tsx:113-126 | an edit then its effect: the input and its mismatch count; the passage, words, count and timer kept; finished iff it was or the edit reaches a non-empty passage's length; any edit that does not complete the test keeps the statistics; a completing edit freezes them over the time from the clock's start to the effect's own clock read |
| HardMode.HardModeTest.Tick | src/components/Modes/HardMode.tsx:41-50 | while running, the timer is the whole seconds since the clock started; otherwise it stays |
| HardMode.HardModeTest.RestartTest | src/components/Modes/HardMode.tsx:157-167 | the same words again as the passage, and every run field back to its start |
| HardMode.HardModeTest.CalcLiveStats | src/components/Modes/HardMode.tsx:128-139 | errors are the mismatches, accuracy is in [0, 100], empty input gives the defaults, and no time gives no speed |
| HardMode.HardModeTest.Rendered | src/components/Modes/HardMode.tsx:225-250 | the passage marks against the typed text, with the cursor at the typed length |
| HardMode.HardModeTest.TimerText | src/components/Modes/HardMode.tsx:266-268 | the `m:ss` timer text reads back as the timer's seconds |
| CodeMode.SnippetOf | src/components/Modes/CodeMode.tsx:37 | the reply's `code` field as the snippet, or empty text when the field is missing |
| CodeMode.CodeModeTest.constructor | src/components/Modes/CodeMode.tsx:16-26 | the initial state: empty snippet and input, no clock, default statistics |
| CodeMode.CodeModeTest.InputShown | src/components/Modes/CodeMode.tsx:182 | the input is shown exactly while the test is not finished |
| CodeMode.CodeModeTest.CompletionDue | src/components/Modes/CodeMode.tsx:65-73 | completion is due only for a non-empty typed text and snippet on an unfinished test, and then the clock has started |
| CodeMode.CodeModeTest.ResetRun | src/components/Modes/CodeMode.tsx:38-43 | every run field back to its start, the snippet kept |
| CodeMode.CodeModeTest.FetchSnippet | src/components/Modes/CodeMode.tsx:33-48 | a failed request changes nothing; otherwise the reply's code (or empty text) is the snippet and the test is fresh |
| CodeMode.CodeModeTest.HandleInputChange | src/components/Modes/CodeMode.tsx:75-87 | every edit is taken; the first non-empty edit starts the clock; errors are the mismatches, at most the typed length |
| CodeMode.CodeModeTest.FinishTest | src/components/Modes/CodeMode.tsx:102-116 | the statistics freeze over the elapsed time, the test finishes, the clock clears and the input is hidden |
| CodeMode.CodeModeTest.CompletionEffect | src/components/Modes/CodeMode.tsx:65-73 | the test finishes exactly when the typed length equals a non-empty snippet length before finishing; the snippet, input, timer and errors stay; when not due nothing changes |
| CodeMode.CodeModeTest.Edit | src/components/Modes/CodeMode.tsx:75-87 | an edit then its effect: the input and its mismatch count; the snippet and timer kept; finished iff it was or the edit reaches a non-empty snippet's length; any edit that does not complete the test keeps the statistics; a completing edit freezes them over the time from the clock's start to the effect's own clock read |
| CodeMode.CodeModeTest.Tick | src/components/Modes/CodeMode.tsx:54-63 | while running, the timer is the whole seconds since the clock started; otherwise it stays |
| CodeMode.CodeModeTest.RestartTest | src/components/Modes/CodeMode.tsx:118-126 | the snippet is kept and every run field is back to its start |
| CodeMode.CodeModeTest.CalcLiveStats | src/components/Modes/CodeMode.tsx:89-100 | errors are the mismatches, accuracy is in [0, 100], empty input gives the defaults, no time gives no speed |
| CodeMode.CodeModeTest.Rendered | src/components/Modes/CodeMode.tsx:158-178 | the snippet marks against the typed text, with the cursor at the typed length |
| CodeMode.CodeModeTest.TimerText | src/components/Modes/CodeMode.tsx:195-197 | the `m:ss` timer text reads back as the timer's seconds |
| TimeBase.FetchedText | src/components/Modes/TimeBase.tsx:19-29 | an array reply gives its words joined by spaces; a failure or a reply without `join` gives the fallback passage |
| TimeBase.SpeedStats | src/components/Modes/TimeBase.tsx:135-147 | errors are the mismatches (0 to the typed length), accuracy that of the correct count, empty input the defaults, and no elapsed time no speed |
| TimeBase.SpeedMeaning | src/components/Modes/TimeBase.tsx:144-146 | the speed is the rounding of (trimmed length / 5) per elapsed minute; all-whitespace input has none |
| TimeBase.SpeedStatsEmpty | src/components/Modes/TimeBase.tsx:138-143 | empty input has the default statistics whatever the passage and time |
| TimeBase.Progress | src/components/Modes/TimeBase.tsx:192-195 | the bar is 0 when stopped, within [0, 100], 0 at the start and 100 at the end |
| TimeBase.ProgressShare | src/components/Modes/TimeBase.tsx:194 | the elapsed share lies in [0, 1], 0 at the start and 1 at the end |
| TimeBase.ProgressMonotone | src/components/Modes/TimeBase.tsx:192-195 | as the countdown falls the bar only grows |
| TimeBase.SpeedTest.constructor | src/components/Modes/TimeBase.tsx:38-47 | 30 seconds, a full countdown, no passage, default statistics, no results |
| TimeBase.SpeedTest.RecomputeStats | src/components/Modes/TimeBase.tsx:135-147 | the statistics become those of the current input, passage, duration and time, and nothing else changes |
| TimeBase.SpeedTest.HandleSelectDuration | src/components/Modes/TimeBase.tsx:53-64 | the chosen duration and a full countdown, no passage or saved passage, empty input, default statistics, not running |
| TimeBase.SpeedTest.Reset | src/components/Modes/TimeBase.tsx:75-81 | the reset the start, try-again and new-test handlers share |
| TimeBase.SpeedTest.StartTest | src/components/Modes/TimeBase.tsx:67-83 | a running test is left alone; otherwise the passage is kept, or fetched and saved when empty, and the test runs from a full countdown |
| TimeBase.SpeedTest.TryAgainTest | src/components/Modes/TimeBase.tsx:86-96 | the saved passage again, empty input, a full countdown, not running |
| TimeBase.SpeedTest.NewTest | src/components/Modes/TimeBase.tsx:99-111 | a fetched passage, also saved, and otherwise as try-again |
| TimeBase.SpeedTest.Tick | src/components/Modes/TimeBase.tsx:114-132 | from 1 or less the countdown lands on 0, stops and shows the results; otherwise it drops by one, never below 0; stopped, nothing changes |
| TimeBase.SpeedTest.HandleInput | src/components/Modes/TimeBase.tsx:286-289 | edits are taken only while the test runs, so the input is frozen after expiry; duration, countdown, passage and saved passage stay, and the statistics follow the input |
| TimeBase.SpeedTest.ProgressPercent | src/components/Modes/TimeBase.tsx:192-195 | `progressPercent` lies within [0, 100] and is 0 when stopped |
| TimeBase.SpeedTest.Rendered | src/components/Modes/TimeBase.tsx:150-174 | the passage marks against the input, with the cursor at the typed length only while running |
| TimeBase.SpeedTest.ClockText | src/components/Modes/TimeBase.tsx:255 | the clock text reads back as the remaining seconds |
| KeyboardTest.FingerLookup | src/components/Keyboard-mastery/KeyboardTest.tsx:184 | the lookup fails exactly when no entry has the legend |
| KeyboardTest.FingerLookupFirst | src/components/Keyboard-mastery/KeyboardTest.tsx:6-61 | a successful lookup gives the finger of the first entry with the legend |
| KeyboardTest.FingerFound | src/components/Keyboard-mastery/KeyboardTest.tsx:6-61 | every legend of the finger map is found, with a non-empty finger |
| KeyboardTest.FingerEntriesNamed | src/components/Keyboard-mastery/KeyboardTest.tsx:6-61 | every finger the map names is non-empty |
| KeyboardTest.FingerHint | src/components/Keyboard-mastery/KeyboardTest.tsx:178-185 | the Shift keys by side, nothing for an empty legend, the thumbs for the space bar, else the map's entry or nothing |
| KeyboardTest.EveryKeyHinted | src/components/Keyboard-mastery/KeyboardTest.tsx:63-134 | a key on the keyboard has a hint exactly when it has a legend, and it has no legend exactly when it is a gap |
| KeyboardTest.NextBuffer | src/components/Keyboard-mastery/KeyboardTest.tsx:152-163 | backspace drops exactly the last character (empty stays empty), space appends one space, a one-character key appends itself, any other key changes nothing |
| KeyboardTest.BufferStep | src/components/Keyboard-mastery/KeyboardTest.tsx:151-163 | a keystroke changes the buffer's length by at most one, only at its end |
| KeyboardTest.BackspaceUndoes | src/components/Keyboard-mastery/KeyboardTest.tsx:152-161 | backspace undoes any keystroke that added a character |
| KeyboardTest.TooltipNamesFinger | src/components/Keyboard-mastery/KeyboardTest.tsx:286-290 | every tooltip the keyboard can show names a finger |
| KeyboardTest.KeyboardPractice.constructor | src/components/Keyboard-mastery/KeyboardTest.tsx:139-142 | off, an empty buffer, no pressed or hovered key |
| KeyboardTest.Printable | src/components/Keyboard-mastery/KeyboardTest.tsx:151 | a key that is not printable leaves every buffer as it is; a printable key other than Backspace lengthens it by one |
| KeyboardTest.KeyboardPractice.IsPressed | src/components/Keyboard-mastery/KeyboardTest.tsx:232 | a key shows as pressed only while on, with a pressed code, and never for a gap or the space bar |
| KeyboardTest.KeyboardPractice.KeyDown | src/components/Keyboard-mastery/KeyboardTest.tsx:144-165 | only while on: the code becomes the pressed key, so exactly the ordinary keys with that code show as pressed, and the buffer takes the keystroke |
| KeyboardTest.KeyboardPractice.KeyUp | src/components/Keyboard-mastery/KeyboardTest.tsx:166-168 | only while on: the pressed key clears, so no key shows as pressed; the buffer stays |
| KeyboardTest.KeyboardPractice.StartPractice | src/components/Keyboard-mastery/KeyboardTest.tsx:308-313 | from off: on with an empty buffer; from on: nothing |
| KeyboardTest.KeyboardPractice.StopPractice | src/components/Keyboard-mastery/KeyboardTest.tsx:323-328 | from on: off with an empty buffer; from off: nothing |
| KeyboardTest.KeyboardPractice.MouseEnter | src/components/Keyboard-mastery/KeyboardTest.tsx:275 | only while on, the key becomes the hovered key |
| KeyboardTest.KeyboardPractice.MouseLeave | src/components/Keyboard-mastery/KeyboardTest.tsx:276 | only while on, the hovered key clears |
| KeyboardTest.KeyboardPractice.Tooltip | src/components/Keyboard-mastery/KeyboardTest.tsx:233-235 | a tooltip shows exactly while on over a hovered key that is not a gap, and it is that key's finger hint |
| KeyboardTest.KeyboardPractice.Card | src/components/Keyboard-mastery/KeyboardTest.tsx:340-352 | the start prompt exactly when off, the typing prompt exactly when on with an empty buffer, else the buffer |

## Left out

- Rendering: JSX, CSS classes, the style-injection effect, icons, colours, the home-key markers and the pressed-key styling. Only the per-character marks, the clocks, the progress bar, the tooltips and the typing card are modelled.
- Routing and the mode-selection pages: they hold no logic.
- Network I/O: the word, snippet and fetch requests are their replies, passed as parameters. The requested word counts (25 or 50 words for the countdown test, 5, 10 or 15 for the word-count test) are not modelled, since the reply alone decides the passage.
- A word reply whose array holds non-strings: `join` would render those items, whereas the model's reply holds strings only.
- Snippet replies whose `code` is not a string: `data.code || ''` would keep such a value, whereas the model's field is a string or absent.
- The two clock reads of a completing keystroke: `Edit` takes one instant for the input handler (`now`) and another for the completion effect that runs after the re-render (`finishNow`). Nothing relates the two, because `Date.now()` promises no order.
- Timers and scheduling: `setTimeout`, `setInterval`, clearing them, focus calls, and the ordering and batching of React effects. Each tick is one call, and an effect that runs after a handler is folded into it.
- The asynchronous gap between a request and its reply: a handler that awaits a fetch is modelled as if the reply were already there, so two overlapping start requests are not modelled.
- HardMode.HardModeTest.Edit and CodeMode.CodeModeTest.Edit: an edit on a finished test starts the clock again, as the input handler is written, since finishing clears the start time. The input is not shown once the test has finished (src/components/Modes/HardMode.tsx:217, src/components/Modes/CodeMode.tsx:182), so the page never makes such an edit; the contract states the handler's behaviour rather than an unchanged start time.
- HardMode.HardModeTest.Tick: requires a clock that does not run backwards (`now` at least the start time), which `Date.now()` does not promise.
- CodeMode.CodeModeTest.Tick: requires a clock that does not run backwards, for the same reason.
- `Date.now()` itself: it is the `now` parameter.
- Floating point: `Math.round` over floating-point division is modelled as exact round-half-up on integers or rationals. Ties that floating-point rounding breaks differently are not modelled.
- Strings are modelled as sequences of Unicode scalar values, whereas JavaScript strings are UTF-16 code units. Lengths, indexing, `split('')` and the countdown test's `[...s]` (a split into code points) therefore agree only for text without characters beyond the Basic Multilingual Plane.
- The `\s` class and `trim` are modelled as the whitespace set of the ECMAScript standard (sections 12.2 and 12.3 of ECMA-262).
- KeyboardTest.FingerLookup: the property lookup `fingerMap[label]` also finds inherited object members (`constructor`, `toString`). The model looks up only the map's own entries.
- KeyboardTest.FingerHint: the `label === undefined` test is not modelled, because legends are always strings.
- The finger map's legends are not proved distinct. The lookup is proved to return the first entry with a legend.
- The landing page's "No backspace allowed" rule for the word-count test is not modelled, because the code does not enforce it.
- The results modals and the statistic cards: they only display the statistics the model computes.
