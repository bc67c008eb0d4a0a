/**
 * The word-count test: the user picks 5, 10 or 15 random words, the clock
 * starts with the first keystroke, every edit recomputes the error count, and
 * the test finishes when the typed text is as long as the (non-empty) passage.
 *
 * Wall-clock reads (`Date.now()`) are the `now` parameters, in milliseconds;
 * the random-word request is its reply, a parameter too.
 */
module HardMode {
  import opened Wrappers
  import opened Metrics
  import opened Comparator
  import opened Text
  import opened Clock

  /** The word counts on offer; no choice yet is `None`. */
  type WordCount = n: nat | n == 5 || n == 10 || n == 15 witness 5

  /** `Array.isArray(data) ? data : []`, for a reply that arrived. */
  function SelectedWords(reply: WordsReply): (ws: seq<string>)
    requires !reply.NetworkError?
    ensures reply.Words? ==> ws == reply.items
    ensures reply.NotAnArray? ==> ws == []
  {
    if reply.Words? then reply.items else []
  }

  class HardModeTest {
    var mode: Option<WordCount>
    var words: seq<string>
    var originalWords: seq<string>
    var fullText: string
    var typedText: string
    var errors: nat
    var startTime: Option<int>
    var timer: int
    var testFinished: bool
    var finalStats: Stats

    /**
     * The passage is the chosen words joined by single spaces, the error
     * count is the mismatch count of the typed text, the clock has started
     * once a running test has input, and the timer never goes negative.
     */
    ghost predicate Valid()
      reads this
    {
      && words == originalWords
      && fullText == Join(originalWords, " ")
      && errors == MismatchCount(typedText, fullText)
      && (!testFinished && |typedText| > 0 ==> startTime.Some?)
      && timer >= 0
    }

    /** The input box is shown once a word count is chosen and until the test finishes. */
    function InputShown(): (b: bool)
      reads this
      ensures b ==> mode.Some?
      ensures testFinished ==> !b
    {
      mode.Some? && !testFinished
    }

    /**
     * The condition of the completion effect. It never holds for empty input
     * or an empty passage, and in a valid state the clock has then started.
     */
    function CompletionDue(): (b: bool)
      reads this
      ensures b ==> |typedText| > 0 && |fullText| > 0 && !testFinished
      ensures b && Valid() ==> startTime.Some?
      ensures |fullText| == 0 ==> !b
    {
      |typedText| == |fullText| && |fullText| > 0 && !testFinished
    }

    constructor ()
      ensures Valid()
      ensures mode.None? && words == [] && originalWords == [] && fullText == "" && typedText == "" && errors == 0
      ensures startTime.None? && timer == 0 && !testFinished && finalStats == DefaultStats
    {
      mode := None;
      words, originalWords := [], [];
      fullText, typedText := "", "";
      errors := 0;
      startTime := None;
      timer := 0;
      testFinished := false;
      finalStats := DefaultStats;
    }

    /** The state both word requests install when their reply arrives. */
    method LoadWords(selected: seq<string>)
      modifies this
      ensures Valid()
      ensures words == selected && originalWords == selected && fullText == Join(selected, " ")
      ensures typedText == "" && errors == 0 && startTime.None? && timer == 0
      ensures !testFinished && finalStats == DefaultStats && mode == old(mode)
    {
      words, originalWords := selected, selected;
      fullText := Join(selected, " ");
      typedText := "";
      errors := 0;
      startTime := None;
      timer := 0;
      testFinished := false;
      finalStats := DefaultStats;
    }

    /**
     * `handleModeSelect`: with no count nothing happens, and a failed request
     * changes nothing; otherwise the reply's words become the passage and the
     * test is fresh.
     */
    method HandleModeSelect(count: Option<WordCount>, reply: WordsReply)
      requires Valid()
      modifies this
      ensures Valid()
      ensures count.None? || reply.NetworkError? ==> unchanged(this)
      ensures count.Some? && !reply.NetworkError? ==>
        && mode == count
        && originalWords == SelectedWords(reply) && fullText == Join(SelectedWords(reply), " ")
        && typedText == "" && errors == 0 && startTime.None? && timer == 0
        && !testFinished && finalStats == DefaultStats
    {
      if count.None? {
        return;
      }
      if !reply.NetworkError? {
        LoadWords(SelectedWords(reply));
        mode := count;
      }
    }

    /** `startNewTest`: new words for the chosen count; without a count, nothing happens. */
    method StartNewTest(reply: WordsReply)
      requires Valid()
      modifies this
      ensures Valid()
      ensures mode.None? || reply.NetworkError? ==> unchanged(this)
      ensures mode.Some? && !reply.NetworkError? ==>
        && mode == old(mode)
        && originalWords == SelectedWords(reply) && fullText == Join(SelectedWords(reply), " ")
        && typedText == "" && errors == 0 && startTime.None? && timer == 0
        && !testFinished && finalStats == DefaultStats
    {
      if mode.None? {
        return;
      }
      if !reply.NetworkError? {
        LoadWords(SelectedWords(reply));
      }
    }

    /**
     * `handleInputChange`: every edit is taken as it is, shortening ones
     * included; the first non-empty edit of a test starts the clock, and the
     * error count is recounted against the passage.
     */
    method HandleInputChange(value: string, now: int)
      requires Valid()
      modifies this
      ensures Valid()
      ensures typedText == value
      ensures errors == MismatchCount(value, fullText) && errors <= |value|
      ensures startTime == if old(startTime).None? && |value| > 0 then Some(now) else old(startTime)
      ensures mode == old(mode) && fullText == old(fullText) && originalWords == old(originalWords)
      ensures timer == old(timer) && testFinished == old(testFinished) && finalStats == old(finalStats)
    {
      if startTime.None? && |value| > 0 {
        startTime := Some(now);
      }
      typedText := value;
      errors := CountErrors(value, fullText);
    }

    /**
     * `finishTest`: freezes the statistics of the typed text over the time
     * since the clock started (from 0 when it never did), marks the test
     * finished, clears the clock and so hides the input.
     */
    method FinishTest(now: int)
      requires Valid()
      modifies this
      ensures Valid()
      ensures testFinished && startTime.None? && !InputShown()
      ensures finalStats == FinalStats(|typedText|, errors, now - old(startTime).GetOr(0))
      ensures finalStats.errors == MismatchCount(typedText, fullText) && finalStats.accuracy <= 100
      ensures typedText == old(typedText) && fullText == old(fullText) && errors == old(errors)
      ensures mode == old(mode) && originalWords == old(originalWords) && timer == old(timer)
    {
      finalStats := FinalStats(|typedText|, errors, now - startTime.GetOr(0));
      testFinished := true;
      startTime := None;
    }

    /**
     * The completion effect: the test finishes exactly when the typed text is
     * as long as a non-empty passage and the test has not finished yet; its
     * statistics then run from the start of the clock, which has started.
     */
    method CompletionEffect(now: int)
      requires Valid()
      modifies this
      ensures Valid()
      ensures old(CompletionDue()) ==>
        && old(startTime).Some? && testFinished && startTime.None?
        && finalStats == FinalStats(|typedText|, errors, now - old(startTime).value)
        && typedText == old(typedText) && fullText == old(fullText) && errors == old(errors)
        && mode == old(mode) && words == old(words) && originalWords == old(originalWords)
        && timer == old(timer)
      ensures !old(CompletionDue()) ==> unchanged(this)
    {
      if CompletionDue() {
        FinishTest(now);
      }
    }

    /**
     * A keystroke: the input handler, then the completion effect it triggers.
     * The handler reads the clock at `now`; the effect runs after the re-render
     * and reads it again at `finishNow`.
     */
    method Edit(value: string, now: int, finishNow: int)
      requires Valid()
      modifies this
      ensures Valid()
      ensures typedText == value && errors == MismatchCount(value, fullText)
      ensures fullText == old(fullText) && words == old(words) && originalWords == old(originalWords)
      ensures mode == old(mode) && timer == old(timer)
      ensures testFinished <==> old(testFinished) || |value| == |fullText| > 0
      ensures old(testFinished) || !testFinished ==> finalStats == old(finalStats)
      ensures old(testFinished) || !testFinished ==>
        startTime == if old(startTime).None? && |value| > 0 then Some(now) else old(startTime)
      ensures !old(testFinished) && |value| == |fullText| > 0 ==>
        && startTime.None?
        && finalStats == FinalStats(|value|, errors, finishNow - old(startTime).GetOr(now))
    {
      HandleInputChange(value, now);
      CompletionEffect(finishNow);
    }

    /**
     * The 100 ms interval while the clock runs: the timer becomes the whole
     * seconds elapsed since the start. `now` is a clock that does not run backwards.
     */
    method Tick(now: int)
      requires Valid()
      requires startTime.Some? ==> now >= startTime.value
      modifies this
      ensures Valid()
      ensures old(startTime).Some? && !old(testFinished) ==>
        1000 * timer <= now - old(startTime).value < 1000 * (timer + 1)
      ensures old(startTime).None? || old(testFinished) ==> timer == old(timer)
      ensures typedText == old(typedText) && fullText == old(fullText) && errors == old(errors)
      ensures startTime == old(startTime) && testFinished == old(testFinished)
      ensures finalStats == old(finalStats) && mode == old(mode) && originalWords == old(originalWords)
    {
      if startTime.Some? && !testFinished {
        timer := (now - startTime.value) / 1000;
      }
    }

    /** `restartTest`: the same words again, everything else back to the start. */
    method RestartTest()
      requires Valid()
      modifies this
      ensures Valid()
      ensures words == old(originalWords) && fullText == Join(old(originalWords), " ")
      ensures typedText == "" && errors == 0 && startTime.None? && timer == 0
      ensures !testFinished && finalStats == DefaultStats && mode == old(mode)
    {
      LoadWords(originalWords);
    }

    /**
     * `calcLiveStats`: the mismatch count, an accuracy within [0, 100] that is
     * 100 before anything is typed, and no speed before a whole second has passed.
     */
    function CalcLiveStats(): (s: Stats)
      reads this
      requires Valid()
      ensures s.errors == MismatchCount(typedText, fullText) && s.accuracy <= 100
      ensures typedText == "" ==> s == DefaultStats
      ensures timer == 0 ==> s.wpm == 0
      ensures s == LiveStats(|typedText|, errors, timer)
    {
      LiveStats(|typedText|, errors, timer)
    }

    /** The passage as shown: correct, incorrect, then the cursor at the typed length. */
    function Rendered(): (r: seq<Mark>)
      reads this
      ensures |r| == |fullText|
      ensures forall i :: 0 <= i < |fullText| ==>
        && (r[i] == Correct <==> i < |typedText| && typedText[i] == fullText[i])
        && (r[i] == Incorrect <==> i < |typedText| && typedText[i] != fullText[i])
        && (r[i] == Cursor <==> i == |typedText|)
    {
      Marks(fullText, typedText, true)
    }

    /** The running clock, `m:ss`, which reads back as the timer's seconds. */
    function TimerText(): (t: string)
      reads this
      requires Valid()
      ensures ParseClock(t) == Some(timer)
    {
      ClockRoundTrip(timer);
      FormatClock(timer)
    }
  }
}
