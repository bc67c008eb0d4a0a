/**
 * The quick 30-second test on the landing page: a fixed passage, a countdown
 * that ticks once a second while the test runs, and statistics recomputed
 * from the input and the remaining time while the test runs.
 */
module LandingPage {
  import opened Metrics
  import opened Comparator
  import opened Text
  import opened Clock
  import opened Wrappers

  /** The passage of the quick test; its two line breaks sit at positions 65 and 157. */
  const TestText: string :=
    "The quick brown fox jumps over the lazy dog near the river bank. \n"
    + "This sentence contains every letter of the alphabet and is often used for typing practice. \n"
    + "Typing regularly helps improve speed and accuracy."

  /** The length of the quick test, in seconds. */
  const TestDuration: nat := 30

  /**
   * The quick test's speed: whitespace-separated tokens per elapsed second plus
   * one, times 60, rounded (`Math.round(words / (30 - timeLeft + 1) * 60)`).
   */
  function QuickWpm(tokens: nat, timeLeft: int): (r: nat)
    requires 0 <= timeLeft <= TestDuration
    ensures var d := TestDuration - timeLeft + 1;
      d >= 1 && 2 * r * d <= 120 * tokens + d < 2 * (r + 1) * d
    ensures tokens == 0 ==> r == 0
  {
    RoundDivUnique(0, TestDuration - timeLeft + 1, 0);
    RoundDiv(60 * tokens, TestDuration - timeLeft + 1)
  }

  /**
   * What the typing effect computes from the input and the remaining time.
   * The error count is the mismatch count, so it lies between 0 and the typed length.
   */
  function QuickStats(input: string, timeLeft: int): (s: Stats)
    requires 0 <= timeLeft <= TestDuration
    ensures s.errors == MismatchCount(input, TestText) && s.errors <= |input|
    ensures s.errors + CorrectCount(input, TestText) == |input|
    ensures s.accuracy == Accuracy(CorrectCount(input, TestText), |input|) && s.accuracy <= 100
    ensures |input| == 0 ==> s == DefaultStats
    ensures s.wpm == QuickWpm(TokenCount(input), timeLeft)
  {
    var correct := CorrectCount(input, TestText);
    ClampedErrorsAreMismatches(input, TestText);
    CorrectPlusMismatch(input, TestText);
    Stats(QuickWpm(TokenCount(input), timeLeft), Accuracy(correct, |input|), ClampedErrors(|input|, correct))
  }

  /**
   * The quick test's speed counts words, not characters: input of whitespace
   * alone has no words and so no speed.
   */
  lemma QuickSpeedOfSpace(input: string, timeLeft: int)
    requires 0 <= timeLeft <= TestDuration
    ensures TokenCount(input) == 0 <==> AllSpace(input)
    ensures AllSpace(input) ==> QuickStats(input, timeLeft).wpm == 0
  {
    TokenCountZero(input);
  }

  /**
   * Since words are separated by whitespace, the quick test's speed is at
   * most that of (length + 1) / 2 words.
   */
  lemma QuickSpeedBound(input: string, timeLeft: int)
    requires 0 <= timeLeft <= TestDuration
    ensures 2 * QuickStats(input, timeLeft).wpm * (TestDuration - timeLeft + 1)
      <= 60 * (|input| + 1) + (TestDuration - timeLeft + 1)
  {
    QuickWpmBound(TokenCount(input), timeLeft, |input|);
  }

  /**
   * Typing n whitespace-free words separated by single spaces counts as n
   * words, so its speed is that of n words over the elapsed seconds plus one.
   */
  lemma QuickSpeedOfWords(ws: seq<string>, timeLeft: int)
    requires 0 <= timeLeft <= TestDuration
    requires forall k :: 0 <= k < |ws| ==> ws[k] != [] && NoSpace(ws[k])
    ensures QuickStats(Join(ws, " "), timeLeft).wpm == QuickWpm(|ws|, timeLeft)
  {
    TokenCountJoin(ws);
  }

  lemma QuickWpmBound(tokens: nat, timeLeft: int, n: nat)
    requires 0 <= timeLeft <= TestDuration && 2 * tokens <= n + 1
    ensures 2 * QuickWpm(tokens, timeLeft) * (TestDuration - timeLeft + 1)
      <= 60 * (n + 1) + (TestDuration - timeLeft + 1)
  {
    assert 120 * tokens <= 60 * (n + 1);
  }

  /**
   * The passage holds line breaks, which a single-line input never produces:
   * once the input reaches position 65 it carries an error there.
   */
  lemma LineBreakNeverMatches(input: string, timeLeft: int)
    requires 0 <= timeLeft <= TestDuration
    requires |input| > 65 && forall i :: 0 <= i < |input| ==> input[i] != '\n'
    ensures TestText[65] == '\n'
    ensures Marks(TestText, input, true)[65] == Incorrect
    ensures QuickStats(input, timeLeft).errors >= 1
  {
    assert TestText[65] == '\n';
    MismatchAtLeastOne(input, TestText, 65);
  }

  class QuickTest {
    var userInput: string
    var started: bool
    var timeLeft: int
    var wpm: nat
    var accuracy: nat
    var errors: nat
    var inputDisabled: bool

    function CurrentStats(): Stats
      reads this
    {
      Stats(wpm, accuracy, errors)
    }

    /**
     * The countdown stays within [0, 30] and is positive while the test runs,
     * the input is disabled exactly when the test is not running, and while it
     * runs the statistics are those of the current input and time.
     */
    ghost predicate Valid()
      reads this
    {
      && 0 <= timeLeft <= TestDuration
      && (started ==> timeLeft > 0)
      && inputDisabled == !started
      && accuracy <= 100
      && (started ==> CurrentStats() == QuickStats(userInput, timeLeft))
    }

    constructor ()
      ensures Valid()
      ensures userInput == "" && !started && timeLeft == TestDuration && CurrentStats() == DefaultStats
    {
      userInput := "";
      started := false;
      timeLeft := TestDuration;
      wpm, accuracy, errors := 0, 100, 0;
      inputDisabled := true;
    }

    /** `startTest`: an empty input, a full countdown, default statistics, the input enabled. */
    method StartTest()
      requires Valid()
      modifies this
      ensures Valid()
      ensures userInput == "" && started && timeLeft == TestDuration
      ensures CurrentStats() == DefaultStats && !inputDisabled
    {
      userInput := "";
      started := true;
      timeLeft := TestDuration;
      wpm, accuracy, errors := 0, 100, 0;
      inputDisabled := false;
      assert QuickStats("", TestDuration) == DefaultStats;
    }

    /**
     * One second passes. While the test runs the countdown drops by exactly one,
     * the statistics are recomputed for the new time, and on reaching 0 the
     * test stops and the input is disabled. A stopped test does not change.
     */
    method Tick()
      requires Valid()
      modifies this
      ensures Valid()
      ensures userInput == old(userInput)
      ensures old(started) ==>
        && timeLeft == old(timeLeft) - 1
        && (started <==> timeLeft > 0) && inputDisabled == (timeLeft == 0)
        && CurrentStats() == QuickStats(userInput, timeLeft)
      ensures !old(started) ==> unchanged(this)
    {
      if started {
        timeLeft := timeLeft - 1;
        var s := QuickStats(userInput, timeLeft);
        wpm, accuracy, errors := s.wpm, s.accuracy, s.errors;
        if timeLeft == 0 {
          started := false;
          inputDisabled := true;
        }
      }
    }

    /**
     * `handleInput`: the input takes the new value; the statistics follow it
     * only while the test runs and are left as they were otherwise.
     */
    method HandleInput(value: string)
      requires Valid()
      modifies this
      ensures Valid()
      ensures userInput == value
      ensures started == old(started) && timeLeft == old(timeLeft) && inputDisabled == old(inputDisabled)
      ensures started ==> CurrentStats() == QuickStats(value, timeLeft)
      ensures !started ==> CurrentStats() == old(CurrentStats())
    {
      userInput := value;
      if started {
        var s := QuickStats(userInput, timeLeft);
        wpm, accuracy, errors := s.wpm, s.accuracy, s.errors;
      }
    }

    /**
     * `renderText`: each passage character is correct or incorrect below the
     * typed length and pending beyond it; the cursor marks the typed length
     * only while the test runs.
     */
    function Rendered(): (r: seq<Mark>)
      reads this
      ensures |r| == |TestText|
      ensures forall i :: 0 <= i < |TestText| ==>
        && (r[i] == Correct <==> i < |userInput| && userInput[i] == TestText[i])
        && (r[i] == Incorrect <==> i < |userInput| && userInput[i] != TestText[i])
        && (r[i] == Cursor <==> i == |userInput| && started)
    {
      Marks(TestText, userInput, started)
    }

    /** `formatTime(timeLeft)`: "0:" and two digits that read back as the remaining seconds. */
    function ClockText(): (t: string)
      reads this
      requires Valid()
      ensures |t| == 4 && t[..2] == "0:"
      ensures ParseClock(t) == Some(timeLeft)
    {
      QuickClockShape(timeLeft);
      ClockRoundTrip(timeLeft);
      FormatQuickClock(timeLeft)
    }
  }
}
