/**
 * The countdown test: the user picks 15, 30, 60 or 90 seconds, starts the
 * test on a fetched passage (or a fixed fallback passage), types while the
 * countdown runs, and sees results when it reaches 0.
 *
 * The word request is its reply, a parameter of the methods that issue it;
 * each tick of the one-second interval is a call of `Tick`.
 */
module TimeBase {
  import opened Wrappers
  import opened Metrics
  import opened Comparator
  import opened Text
  import opened Clock

  /** The durations on offer, in seconds. */
  type Duration = d: nat | d == 15 || d == 30 || d == 60 || d == 90 witness 30

  /** The passage used when the word request fails. */
  const FallbackText: string :=
    "The quick brown fox jumps over the lazy dog. This sentence contains all letters of the alphabet. "
    + "Typing regularly improves your speed and accuracy. Practice makes perfect in the world of typing tests."

  /**
   * `fetchRandomWords`: the words of an array reply joined by single spaces;
   * a failed request, or a reply without `join`, falls back to the fixed passage.
   */
  function FetchedText(reply: WordsReply): (t: string)
    ensures reply.Words? ==> t == Join(reply.items, " ")
    ensures !reply.Words? ==> t == FallbackText
  {
    match reply
    case Words(items) => Join(items, " ")
    case _ => FallbackText
  }

  /**
   * What the statistics effect computes: errors are the mismatches, accuracy
   * the rounded share of correct characters, and speed the trimmed input's
   * length in five-character words over the elapsed minutes, 0 before any
   * time has elapsed.
   */
  function SpeedStats(input: string, text: string, duration: nat, timeLeft: int): (s: Stats)
    ensures s.errors == MismatchCount(input, text) && s.errors <= |input|
    ensures s.errors + CorrectCount(input, text) == |input|
    ensures s.accuracy == Accuracy(CorrectCount(input, text), |input|) && s.accuracy <= 100
    ensures |input| == 0 ==> s == DefaultStats
    ensures duration <= timeLeft ==> s.wpm == 0
  {
    var correct := CorrectCount(input, text);
    ClampedErrorsAreMismatches(input, text);
    CorrectPlusMismatch(input, text);
    Stats(CharWpm(|Trim(input)|, duration - timeLeft), Accuracy(correct, |input|), ClampedErrors(|input|, correct))
  }

  /**
   * The speed of the countdown test is the trimmed input's length in
   * five-character words per elapsed minute, rounded; input of spaces alone
   * has no speed.
   */
  lemma SpeedMeaning(input: string, text: string, duration: nat, timeLeft: int)
    requires timeLeft < duration
    ensures var wpm, elapsed := SpeedStats(input, text, duration, timeLeft).wpm, duration - timeLeft;
      2 * wpm * elapsed <= 24 * |Trim(input)| + elapsed < 2 * (wpm + 1) * elapsed
    ensures AllSpace(input) ==> SpeedStats(input, text, duration, timeLeft).wpm == 0
  {
    RoundDivUnique(0, duration - timeLeft, 0);
  }

  /** Before anything is typed, the statistics are the defaults, whatever the passage and time. */
  lemma SpeedStatsEmpty(text: string, duration: nat, timeLeft: int)
    ensures SpeedStats("", text, duration, timeLeft) == DefaultStats
  {
  }

  /**
   * The progress bar's width in percent: the elapsed share of the duration
   * while the test runs, 0 otherwise.
   */
  function Progress(duration: Duration, timeLeft: int, started: bool): (p: real)
    ensures !started ==> p == 0.0
    ensures 0 <= timeLeft <= duration ==> 0.0 <= p <= 100.0
    ensures started && timeLeft == duration ==> p == 0.0
    ensures started && timeLeft == 0 ==> p == 100.0
  {
    if started then ProgressShare(duration, timeLeft) * 100.0 else 0.0
  }

  /** `(testDuration - timeLeft) / testDuration`, as a real number. */
  function ProgressShare(duration: Duration, timeLeft: int): (q: real)
    ensures 0 <= timeLeft <= duration ==> 0.0 <= q <= 1.0
    ensures timeLeft == duration ==> q == 0.0
    ensures timeLeft == 0 ==> q == 1.0
  {
    var q := (duration - timeLeft) as real / duration as real;
    assert q * duration as real == (duration - timeLeft) as real;
    q
  }

  /** As the countdown falls, the bar only grows. */
  lemma ProgressMonotone(duration: Duration, t1: int, t2: int)
    requires t2 <= t1
    ensures Progress(duration, t1, true) <= Progress(duration, t2, true)
  {
    var d := duration as real;
    var q1, q2 := ProgressShare(duration, t1), ProgressShare(duration, t2);
    assert q1 * d == (duration - t1) as real;
    assert q2 * d == (duration - t2) as real;
    assert (q2 - q1) * d >= 0.0;
  }

  class SpeedTest {
    var testDuration: Duration
    var timeLeft: int
    var testText: string
    var userInput: string
    var testStarted: bool
    var wpm: nat
    var accuracy: nat
    var errors: nat
    var showModal: bool
    var lastTestText: string

    function CurrentStats(): Stats
      reads this
    {
      Stats(wpm, accuracy, errors)
    }

    /**
     * The countdown stays within [0, duration] and is positive while the test
     * runs, the results show only after the countdown has run out, and the
     * statistics are always those of the current input, passage and time.
     */
    ghost predicate Valid()
      reads this
    {
      && 0 <= timeLeft <= testDuration
      && (testStarted ==> timeLeft >= 1)
      && (showModal ==> !testStarted && timeLeft == 0)
      && CurrentStats() == SpeedStats(userInput, testText, testDuration, timeLeft)
    }

    constructor ()
      ensures Valid()
      ensures testDuration == 30 && timeLeft == 30 && testText == "" && userInput == ""
      ensures !testStarted && !showModal && lastTestText == "" && CurrentStats() == DefaultStats
    {
      testDuration := 30;
      timeLeft := 30;
      testText, userInput, lastTestText := "", "", "";
      testStarted := false;
      wpm, accuracy, errors := 0, 100, 0;
      showModal := false;
    }

    /** The statistics effect: the statistics follow the input, passage, duration and time. */
    method RecomputeStats()
      modifies this
      ensures CurrentStats() == SpeedStats(userInput, testText, testDuration, timeLeft)
      ensures testDuration == old(testDuration) && timeLeft == old(timeLeft)
      ensures testText == old(testText) && userInput == old(userInput) && testStarted == old(testStarted)
      ensures showModal == old(showModal) && lastTestText == old(lastTestText)
    {
      var s := SpeedStats(userInput, testText, testDuration, timeLeft);
      wpm, accuracy, errors := s.wpm, s.accuracy, s.errors;
    }

    /**
     * `handleSelectDuration`: the new duration, a full countdown, no passage
     * and no saved passage, an empty input, default statistics, not running.
     */
    method HandleSelectDuration(duration: Duration)
      modifies this
      ensures Valid()
      ensures testDuration == duration && timeLeft == duration
      ensures testText == "" && lastTestText == "" && userInput == ""
      ensures !testStarted && !showModal && CurrentStats() == DefaultStats
    {
      testDuration := duration;
      timeLeft := duration;
      userInput := "";
      testStarted := false;
      wpm, accuracy, errors := 0, 100, 0;
      testText := "";
      lastTestText := "";
      showModal := false;
      SpeedStatsEmpty("", duration, duration);
    }

    /**
     * The reset the start, try-again and new-test handlers share: the given
     * passage and saved passage, an empty input, a full countdown, default
     * statistics, no results, and the test running or not as given.
     */
    method Reset(text: string, saved: string, running: bool)
      modifies this
      ensures Valid()
      ensures testText == text && lastTestText == saved && testStarted == running
      ensures userInput == "" && timeLeft == testDuration && testDuration == old(testDuration)
      ensures !showModal && CurrentStats() == DefaultStats
    {
      testText, lastTestText := text, saved;
      userInput := "";
      timeLeft := testDuration;
      testStarted := running;
      wpm, accuracy, errors := 0, 100, 0;
      showModal := false;
      SpeedStatsEmpty(text, testDuration, testDuration);
    }

    /**
     * `startTest`: nothing happens while a test runs. Otherwise the passage is
     * kept when there is one and fetched (and saved) when there is none; the
     * input empties, the countdown is full and the test runs.
     */
    method StartTest(reply: WordsReply)
      requires Valid()
      modifies this
      ensures Valid()
      ensures old(testStarted) ==> unchanged(this)
      ensures !old(testStarted) ==>
        && testStarted && !showModal && userInput == "" && timeLeft == testDuration
        && testDuration == old(testDuration) && CurrentStats() == DefaultStats
        && (old(testText) != "" ==> testText == old(testText) && lastTestText == old(lastTestText))
        && (old(testText) == "" ==> testText == FetchedText(reply) && lastTestText == testText)
    {
      if testStarted {
        return;
      }
      if testText == "" {
        var text := FetchedText(reply);
        Reset(text, text, true);
      } else {
        Reset(testText, lastTestText, true);
      }
    }

    /** `tryAgainTest`: the saved passage again, an empty input, a full countdown, not running. */
    method TryAgainTest()
      requires Valid()
      modifies this
      ensures Valid()
      ensures testText == old(lastTestText) && lastTestText == old(lastTestText)
      ensures userInput == "" && timeLeft == testDuration && testDuration == old(testDuration)
      ensures !testStarted && !showModal && CurrentStats() == DefaultStats
    {
      Reset(lastTestText, lastTestText, false);
    }

    /** `newTest`: a freshly fetched passage, also saved; otherwise as `tryAgainTest`. */
    method NewTest(reply: WordsReply)
      requires Valid()
      modifies this
      ensures Valid()
      ensures testText == FetchedText(reply) && lastTestText == testText
      ensures userInput == "" && timeLeft == testDuration && testDuration == old(testDuration)
      ensures !testStarted && !showModal && CurrentStats() == DefaultStats
    {
      var text := FetchedText(reply);
      Reset(text, text, false);
    }

    /**
     * One second of the running countdown: from 1 or less it lands on 0, stops
     * the test and shows the results, whose statistics are those of the whole
     * duration; otherwise it drops by one. Without a running test there is no
     * interval and nothing changes.
     */
    method Tick()
      requires Valid()
      modifies this
      ensures Valid()
      ensures !old(testStarted) ==> unchanged(this)
      ensures old(testStarted) && old(timeLeft) <= 1 ==>
        && timeLeft == 0 && !testStarted && showModal
        && CurrentStats() == SpeedStats(userInput, testText, testDuration, 0)
      ensures old(testStarted) && old(timeLeft) > 1 ==>
        timeLeft == old(timeLeft) - 1 && testStarted && !showModal
      ensures userInput == old(userInput) && testText == old(testText)
      ensures testDuration == old(testDuration) && lastTestText == old(lastTestText)
    {
      if !testStarted {
        return;
      }
      if timeLeft <= 1 {
        testStarted := false;
        showModal := true;
        timeLeft := 0;
      } else {
        timeLeft := timeLeft - 1;
      }
      RecomputeStats();
    }

    /** The input's `onChange`: the edit is taken only while the test runs. */
    method HandleInput(value: string)
      requires Valid()
      modifies this
      ensures Valid()
      ensures old(testStarted) ==>
        && userInput == value
        && CurrentStats() == SpeedStats(value, testText, testDuration, timeLeft)
        && timeLeft == old(timeLeft) && testStarted && testText == old(testText)
        && testDuration == old(testDuration) && lastTestText == old(lastTestText) && !showModal
      ensures !old(testStarted) ==> unchanged(this)
    {
      if testStarted {
        userInput := value;
        RecomputeStats();
      }
    }

    /** `progressPercent`, which stays within [0, 100]. */
    function ProgressPercent(): (p: real)
      reads this
      requires Valid()
      ensures 0.0 <= p <= 100.0
      ensures !testStarted ==> p == 0.0
      ensures p == Progress(testDuration, timeLeft, testStarted)
    {
      Progress(testDuration, timeLeft, testStarted)
    }

    /** The passage as shown: correct, incorrect, and the cursor at the typed length while running. */
    function Rendered(): (r: seq<Mark>)
      reads this
      ensures |r| == |testText|
      ensures forall i :: 0 <= i < |testText| ==>
        && (r[i] == Correct <==> i < |userInput| && userInput[i] == testText[i])
        && (r[i] == Incorrect <==> i < |userInput| && userInput[i] != testText[i])
        && (r[i] == Cursor <==> i == |userInput| && testStarted)
    {
      Marks(testText, userInput, testStarted)
    }

    /** `formatTime(timeLeft)`, which reads back as the remaining seconds. */
    function ClockText(): (t: string)
      reads this
      requires Valid()
      ensures ParseClock(t) == Some(timeLeft)
    {
      ClockRoundTrip(timeLeft);
      FormatClock(timeLeft)
    }
  }
}
