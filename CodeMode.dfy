/**
 * The code-snippet test: a snippet from the code service is the passage, the
 * clock starts with the first keystroke, every edit recomputes the error
 * count, and the test finishes when the typed text is as long as a non-empty
 * snippet.
 *
 * Wall-clock reads (`Date.now()`) are the `now` parameters, in milliseconds;
 * the snippet request is its reply, a parameter too.
 */
module CodeMode {
  import opened Wrappers
  import opened Metrics
  import opened Comparator
  import opened Clock

  /** The reply of the snippet request: a failure, or a body whose `code` field may be missing. */
  datatype SnippetReply =
    | SnippetNetworkError
    | SnippetBody(code: Option<string>)

  /** `data.code || ''`: the snippet text, or the empty text when the field is absent. */
  function SnippetOf(reply: SnippetReply): (s: string)
    requires reply.SnippetBody?
    ensures reply.code.Some? ==> s == reply.code.value
    ensures reply.code.None? ==> s == ""
  {
    reply.code.GetOr("")
  }

  class CodeModeTest {
    var snippet: string
    var typedText: string
    var errors: nat
    var startTime: Option<int>
    var timer: int
    var testFinished: bool
    var finalStats: Stats

    /**
     * The error count is the mismatch count of the typed text, the clock has
     * started once a running test has input, and the timer never goes negative.
     */
    ghost predicate Valid()
      reads this
    {
      && errors == MismatchCount(typedText, snippet)
      && (!testFinished && |typedText| > 0 ==> startTime.Some?)
      && timer >= 0
    }

    /** The input box is shown until the test finishes. */
    function InputShown(): (b: bool)
      reads this
      ensures testFinished <==> !b
    {
      !testFinished
    }

    /**
     * The condition of the completion effect. It never holds for empty input
     * or an empty snippet, and in a valid state the clock has then started.
     */
    function CompletionDue(): (b: bool)
      reads this
      ensures b ==> |typedText| > 0 && |snippet| > 0 && !testFinished
      ensures b && Valid() ==> startTime.Some?
      ensures |snippet| == 0 ==> !b
    {
      |typedText| == |snippet| && |snippet| > 0 && !testFinished
    }

    /** The state before the first snippet arrives. */
    constructor ()
      ensures Valid()
      ensures snippet == "" && typedText == "" && errors == 0
      ensures startTime.None? && timer == 0 && !testFinished && finalStats == DefaultStats
    {
      snippet, typedText := "", "";
      errors := 0;
      startTime := None;
      timer := 0;
      testFinished := false;
      finalStats := DefaultStats;
    }

    /** Everything but the snippet back to the start. */
    method ResetRun()
      modifies this
      ensures typedText == "" && errors == 0 && startTime.None? && timer == 0
      ensures !testFinished && finalStats == DefaultStats && snippet == old(snippet)
      ensures Valid()
    {
      typedText := "";
      errors := 0;
      startTime := None;
      timer := 0;
      testFinished := false;
      finalStats := DefaultStats;
    }

    /**
     * `fetchSnippet`: a failed request changes nothing; otherwise the reply's
     * code (or the empty text) becomes the snippet and the test is fresh.
     */
    method FetchSnippet(reply: SnippetReply)
      requires Valid()
      modifies this
      ensures Valid()
      ensures reply.SnippetNetworkError? ==> unchanged(this)
      ensures reply.SnippetBody? ==>
        && snippet == SnippetOf(reply)
        && typedText == "" && errors == 0 && startTime.None? && timer == 0
        && !testFinished && finalStats == DefaultStats
    {
      if reply.SnippetBody? {
        snippet := SnippetOf(reply);
        ResetRun();
      }
    }

    /**
     * `handleInputChange`: every edit is taken as it is; the first non-empty
     * edit of a test starts the clock, and the error count is recounted
     * against the snippet.
     */
    method HandleInputChange(value: string, now: int)
      requires Valid()
      modifies this
      ensures Valid()
      ensures typedText == value
      ensures errors == MismatchCount(value, snippet) && errors <= |value|
      ensures startTime == if old(startTime).None? && |value| > 0 then Some(now) else old(startTime)
      ensures snippet == old(snippet) && timer == old(timer)
      ensures testFinished == old(testFinished) && finalStats == old(finalStats)
    {
      if startTime.None? && |value| > 0 {
        startTime := Some(now);
      }
      typedText := value;
      errors := CountErrors(value, snippet);
    }

    /**
     * `finishTest`: freezes the statistics of the typed text over the time
     * since the clock started (from 0 when it never did), marks the test
     * finished, clears the clock and so hides the input.
     */
    method FinishTest(now: int)
      requires Valid()
      modifies this
      ensures Valid()
      ensures testFinished && startTime.None? && !InputShown()
      ensures finalStats == FinalStats(|typedText|, errors, now - old(startTime).GetOr(0))
      ensures finalStats.errors == MismatchCount(typedText, snippet) && finalStats.accuracy <= 100
      ensures typedText == old(typedText) && snippet == old(snippet)
      ensures errors == old(errors) && timer == old(timer)
    {
      finalStats := FinalStats(|typedText|, errors, now - startTime.GetOr(0));
      testFinished := true;
      startTime := None;
    }

    /**
     * The completion effect: the test finishes exactly when the typed text is
     * as long as a non-empty snippet and the test has not finished yet; its
     * statistics then run from the start of the clock, which has started.
     */
    method CompletionEffect(now: int)
      requires Valid()
      modifies this
      ensures Valid()
      ensures old(CompletionDue()) ==>
        && old(startTime).Some? && testFinished && startTime.None?
        && finalStats == FinalStats(|typedText|, errors, now - old(startTime).value)
        && typedText == old(typedText) && snippet == old(snippet)
        && errors == old(errors) && timer == old(timer)
      ensures !old(CompletionDue()) ==> unchanged(this)
    {
      if CompletionDue() {
        FinishTest(now);
      }
    }

    /**
     * A keystroke: the input handler, then the completion effect it triggers.
     * The handler reads the clock at `now`; the effect runs after the re-render
     * and reads it again at `finishNow`.
     */
    method Edit(value: string, now: int, finishNow: int)
      requires Valid()
      modifies this
      ensures Valid()
      ensures typedText == value && errors == MismatchCount(value, snippet)
      ensures snippet == old(snippet) && timer == old(timer)
      ensures testFinished <==> old(testFinished) || |value| == |snippet| > 0
      ensures old(testFinished) || !testFinished ==> finalStats == old(finalStats)
      ensures old(testFinished) || !testFinished ==>
        startTime == if old(startTime).None? && |value| > 0 then Some(now) else old(startTime)
      ensures !old(testFinished) && |value| == |snippet| > 0 ==>
        && startTime.None?
        && finalStats == FinalStats(|value|, errors, finishNow - old(startTime).GetOr(now))
    {
      HandleInputChange(value, now);
      CompletionEffect(finishNow);
    }

    /**
     * The 100 ms interval while the clock runs: the timer becomes the whole
     * seconds elapsed since the start. `now` is a clock that does not run backwards.
     */
    method Tick(now: int)
      requires Valid()
      requires startTime.Some? ==> now >= startTime.value
      modifies this
      ensures Valid()
      ensures old(startTime).Some? && !old(testFinished) ==>
        1000 * timer <= now - old(startTime).value < 1000 * (timer + 1)
      ensures old(startTime).None? || old(testFinished) ==> timer == old(timer)
      ensures typedText == old(typedText) && snippet == old(snippet) && errors == old(errors)
      ensures startTime == old(startTime) && testFinished == old(testFinished)
      ensures finalStats == old(finalStats)
    {
      if startTime.Some? && !testFinished {
        timer := (now - startTime.value) / 1000;
      }
    }

    /** `restartTest`: the same snippet again, everything else back to the start. */
    method RestartTest()
      requires Valid()
      modifies this
      ensures Valid()
      ensures snippet == old(snippet)
      ensures typedText == "" && errors == 0 && startTime.None? && timer == 0
      ensures !testFinished && finalStats == DefaultStats
    {
      ResetRun();
    }

    /**
     * `calcLiveStats`: the mismatch count, an accuracy within [0, 100] that is
     * 100 before anything is typed, and no speed before a whole second has passed.
     */
    function CalcLiveStats(): (s: Stats)
      reads this
      requires Valid()
      ensures s.errors == MismatchCount(typedText, snippet) && s.accuracy <= 100
      ensures typedText == "" ==> s == DefaultStats
      ensures timer == 0 ==> s.wpm == 0
      ensures s == LiveStats(|typedText|, errors, timer)
    {
      LiveStats(|typedText|, errors, timer)
    }

    /** The snippet as shown: correct, incorrect, then the cursor at the typed length. */
    function Rendered(): (r: seq<Mark>)
      reads this
      ensures |r| == |snippet|
      ensures forall i :: 0 <= i < |snippet| ==>
        && (r[i] == Correct <==> i < |typedText| && typedText[i] == snippet[i])
        && (r[i] == Incorrect <==> i < |typedText| && typedText[i] != snippet[i])
        && (r[i] == Cursor <==> i == |typedText|)
    {
      Marks(snippet, typedText, true)
    }

    /** The running clock, `m:ss`, which reads back as the timer's seconds. */
    function TimerText(): (t: string)
      reads this
      requires Valid()
      ensures ParseClock(t) == Some(timer)
    {
      ClockRoundTrip(timer);
      FormatClock(timer)
    }
  }
}
