/**
 * Integer forms of the metric formulas every typing mode uses: rounding,
 * accuracy, error clamping and words per minute.
 *
 * The source computes `Math.round(a / b)` over JavaScript numbers. For a >= 0 and
 * b > 0 that is round-half-up of the exact quotient, which on integers is
 * `(2a + b) div (2b)`.
 */
module Metrics {

  /** `Math.round(a / b)`: the integer nearest to a/b, halves rounded up. */
  function RoundDiv(a: nat, b: nat): (r: nat)
    requires b > 0
    ensures 2 * r * b <= 2 * a + b < 2 * (r + 1) * b
  {
    (2 * a + b) / (2 * b)
  }

  /** The rounding condition determines the result: at most one integer satisfies it. */
  lemma RoundDivUnique(a: nat, b: nat, q: nat)
    requires b > 0
    requires 2 * q * b <= 2 * a + b < 2 * (q + 1) * b
    ensures q == RoundDiv(a, b)
  {
    var r := RoundDiv(a, b);
    MulCancel(q, r + 1, 2 * b);
    MulCancel(r, q + 1, 2 * b);
  }

  /** Cancelling a positive factor from a strict inequality. */
  lemma MulCancel(x: nat, y: nat, k: nat)
    requires k > 0 && x * k < y * k
    ensures x < y
  {
    if y <= x {
      MulMonotone(y, x, k);
    }
  }

  lemma MulMonotone(x: nat, y: nat, k: nat)
    requires x <= y
    ensures x * k <= y * k
  {
  }

  /** Rounding is monotone in the numerator. */
  lemma RoundDivMonotone(a1: nat, a2: nat, b: nat)
    requires b > 0 && a1 <= a2
    ensures RoundDiv(a1, b) <= RoundDiv(a2, b)
  {
    var r1, r2 := RoundDiv(a1, b), RoundDiv(a2, b);
    MulCancel(r1, r2 + 1, 2 * b);
  }

  /** An exact multiple rounds to its quotient. */
  lemma RoundDivExact(k: nat, b: nat)
    requires b > 0
    ensures RoundDiv(k * b, b) == k
  {
    RoundDivUnique(k * b, b, k);
  }

  /** A numerator of at most k times the denominator rounds to at most k. */
  lemma RoundDivAtMost(a: nat, b: nat, k: nat)
    requires b > 0 && a <= k * b
    ensures RoundDiv(a, b) <= k
  {
    RoundDivMonotone(a, k * b, b);
    RoundDivExact(k, b);
  }

  /** Scaling numerator and denominator by the same factor changes nothing. */
  lemma RoundDivScale(a: nat, b: nat, k: nat)
    requires b > 0 && k > 0
    ensures RoundDiv(k * a, k * b) == RoundDiv(a, b)
  {
    var r := RoundDiv(a, b);
    assert 2 * r * b * k <= (2 * a + b) * k by { MulMonotone(2 * r * b, 2 * a + b, k); }
    assert (2 * a + b) * k < 2 * (r + 1) * b * k by { MulStrict(2 * a + b, 2 * (r + 1) * b, k); }
    assert 2 * r * (k * b) == 2 * r * b * k;
    assert 2 * (k * a) + k * b == (2 * a + b) * k;
    assert 2 * (r + 1) * (k * b) == 2 * (r + 1) * b * k;
    RoundDivUnique(k * a, k * b, r);
  }

  lemma MulStrict(x: nat, y: nat, k: nat)
    requires x < y && k > 0
    ensures x * k < y * k
  {
  }

  /** The three numbers a mode shows: speed, accuracy percentage and error count. */
  datatype Stats = Stats(wpm: nat, accuracy: nat, errors: nat)

  /** The value every mode starts from and resets to: `{ wpm: 0, accuracy: 100, errors: 0 }`. */
  const DefaultStats: Stats := Stats(0, 100, 0)

  /**
   * Accuracy in percent: 100 when nothing is typed, otherwise
   * `Math.round(correct / typed * 100)`.
   */
  function Accuracy(correct: nat, typed: nat): (r: nat)
    requires correct <= typed
    ensures r <= 100
    ensures typed == 0 ==> r == 100
    ensures correct == typed ==> r == 100
    ensures 0 == correct < typed ==> r == 0
    ensures typed > 0 ==> 2 * r * typed <= 200 * correct + typed < 2 * (r + 1) * typed
  {
    if typed == 0 then 100
    else
      RoundDivAtMost(100 * correct, typed, 100);
      RoundDivExact(100, typed);
      RoundDivUnique(0, typed, 0);
      RoundDiv(100 * correct, typed)
  }

  /** More correct characters out of the same number typed never lowers accuracy. */
  lemma AccuracyMonotone(c1: nat, c2: nat, typed: nat)
    requires c1 <= c2 <= typed
    ensures Accuracy(c1, typed) <= Accuracy(c2, typed)
  {
    if typed > 0 {
      RoundDivMonotone(100 * c1, 100 * c2, typed);
    }
  }

  /** `errorCount > 0 ? errorCount : 0` and `Math.max(total - correct, 0)`. */
  function ClampedErrors(typed: nat, correct: nat): (r: nat)
    ensures r <= typed
    ensures correct <= typed ==> r + correct == typed
    ensures typed <= correct ==> r == 0
  {
    if typed - correct > 0 then typed - correct else 0
  }

  /**
   * Words per minute from a character count, five characters a word:
   * `Math.round(chars / 5 / (seconds / 60))` when the elapsed time is positive, 0 otherwise.
   */
  function CharWpm(chars: nat, seconds: int): (r: nat)
    ensures seconds <= 0 ==> r == 0
    ensures seconds > 0 ==> 2 * r * seconds <= 24 * chars + seconds < 2 * (r + 1) * seconds
  {
    if seconds <= 0 then 0 else RoundDiv(12 * chars, seconds)
  }

  /** The same formula over elapsed milliseconds, as `finishTest` computes it from `Date.now()`. */
  function CharWpmMillis(chars: nat, millis: int): (r: nat)
    ensures millis <= 0 ==> r == 0
    ensures millis > 0 ==> 2 * r * millis <= 24000 * chars + millis < 2 * (r + 1) * millis
  {
    if millis <= 0 then 0 else RoundDiv(12000 * chars, millis)
  }

  /** Measured over whole seconds, the millisecond formula and the second formula agree. */
  lemma CharWpmMillisAgrees(chars: nat, seconds: nat)
    ensures CharWpmMillis(chars, 1000 * seconds) == CharWpm(chars, seconds)
  {
    if seconds > 0 {
      RoundDivScale(12 * chars, seconds, 1000);
      assert 1000 * (12 * chars) == 12000 * chars;
    }
  }

  /** At a fixed elapsed time, typing more characters never lowers the speed. */
  lemma CharWpmMonotone(c1: nat, c2: nat, seconds: int)
    requires c1 <= c2
    ensures CharWpm(c1, seconds) <= CharWpm(c2, seconds)
  {
    if seconds > 0 {
      RoundDivMonotone(12 * c1, 12 * c2, seconds);
    }
  }

  /** The live statistics of the word-count and snippet modes (`calcLiveStats`). */
  function LiveStats(typed: nat, errors: nat, seconds: int): (s: Stats)
    requires errors <= typed
    ensures s.errors == errors && s.accuracy <= 100
    ensures typed == 0 ==> s.accuracy == 100
    ensures seconds <= 0 ==> s.wpm == 0
    ensures s.accuracy == Accuracy(typed - errors, typed) && s.wpm == CharWpm(typed, seconds)
  {
    Stats(CharWpm(typed, seconds), Accuracy(typed - errors, typed), errors)
  }

  /** The statistics `finishTest` freezes, from the elapsed milliseconds. */
  function FinalStats(typed: nat, errors: nat, millis: int): (s: Stats)
    requires errors <= typed
    ensures s.errors == errors && s.accuracy <= 100
    ensures typed == 0 ==> s.accuracy == 100
    ensures millis <= 0 ==> s.wpm == 0
    ensures s.accuracy == Accuracy(typed - errors, typed) && s.wpm == CharWpmMillis(typed, millis)
  {
    Stats(CharWpmMillis(typed, millis), Accuracy(typed - errors, typed), errors)
  }
}
