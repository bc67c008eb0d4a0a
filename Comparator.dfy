/**
 * Position-wise comparison of typed input against a reference text, shared by
 * every mode: the per-character marks the modes render, the correct-character
 * count (`input.split('').filter((ch, i) => ch === text[i]).length`) and the
 * error count the word-count and snippet modes accumulate in a `for` loop.
 *
 * Reading a reference position past its end yields `undefined` in JavaScript,
 * which equals no character: such a position never matches.
 */
module Comparator {
  import opened Metrics

  /** Whether typed position i equals the reference character at i. */
  predicate MatchesAt(input: string, ref: string, i: nat)
    requires i < |input|
  {
    i < |ref| && input[i] == ref[i]
  }

  /** The number of typed positions that equal the reference. */
  function CorrectCount(input: string, ref: string): (r: nat)
    ensures r <= |input|
    ensures r <= |ref|
  {
    if |input| == 0 then 0
    else
      var k := |input| - 1;
      var prev := CorrectCount(input[..k], ref);
      if MatchesAt(input, ref, k) then (assert prev <= k; prev + 1) else prev
  }

  /** The number of typed positions that differ from the reference, or lie beyond it. */
  function MismatchCount(input: string, ref: string): (r: nat)
    ensures r <= |input|
    ensures |input| > |ref| ==> r >= |input| - |ref|
  {
    if |input| == 0 then 0
    else
      var k := |input| - 1;
      MismatchCount(input[..k], ref) + if MatchesAt(input, ref, k) then 0 else 1
  }

  /** Every typed position is either correct or a mismatch. */
  lemma {:induction false} CorrectPlusMismatch(input: string, ref: string)
    ensures CorrectCount(input, ref) + MismatchCount(input, ref) == |input|
  {
    if |input| > 0 {
      CorrectPlusMismatch(input[..|input| - 1], ref);
    }
  }

  /** One mismatching position is enough for a non-zero mismatch count. */
  lemma {:induction false} MismatchAtLeastOne(input: string, ref: string, i: nat)
    requires i < |input| && !MatchesAt(input, ref, i)
    ensures MismatchCount(input, ref) >= 1
  {
    var k := |input| - 1;
    if i < k {
      assert input[..k][i] == input[i];
      MismatchAtLeastOne(input[..k], ref, i);
    }
  }

  /**
   * The clamped error count of the quick test and the countdown test
   * (`max(typed - correct, 0)`) equals the mismatch count of the other modes.
   */
  lemma ClampedErrorsAreMismatches(input: string, ref: string)
    ensures ClampedErrors(|input|, CorrectCount(input, ref)) == MismatchCount(input, ref)
  {
    CorrectPlusMismatch(input, ref);
  }

  /**
   * The error count `handleInputChange` computes:
   * `for (i = 0; i < value.length; i++) if (value[i] !== text[i]) err++`.
   */
  method CountErrors(value: string, ref: string) returns (err: nat)
    ensures err == MismatchCount(value, ref)
    ensures err + CorrectCount(value, ref) == |value|
  {
    err := 0;
    var i := 0;
    while i < |value|
      invariant 0 <= i <= |value|
      invariant err == MismatchCount(value[..i], ref)
    {
      assert value[..i + 1][..i] == value[..i];
      if i >= |ref| || value[i] != ref[i] {
        err := err + 1;
      }
      i := i + 1;
    }
    assert value[..|value|] == value;
    CorrectPlusMismatch(value, ref);
  }

  /** How one reference character is shown. */
  datatype Mark =
    | Correct    // typed and equal
    | Incorrect  // typed and different
    | Cursor     // the next position to type, when the cursor is shown
    | Pending    // not typed yet

  /**
   * The mark of reference position i: below the typed length it is correct or
   * incorrect, at the typed length it carries the cursor when `cursorShown`,
   * and beyond it is pending.
   */
  function MarkAt(ref: string, input: string, cursorShown: bool, i: nat): Mark
    requires i < |ref|
  {
    if i < |input| then (if ref[i] == input[i] then Correct else Incorrect)
    else if i == |input| && cursorShown then Cursor
    else Pending
  }

  /** The marks of the whole reference text, one per character. */
  function Marks(ref: string, input: string, cursorShown: bool): (r: seq<Mark>)
    ensures |r| == |ref|
    ensures forall i :: 0 <= i < |ref| ==>
      && (r[i] == Correct <==> i < |input| && input[i] == ref[i])
      && (r[i] == Incorrect <==> i < |input| && input[i] != ref[i])
      && (r[i] == Cursor <==> i == |input| && cursorShown)
  {
    seq(|ref|, i requires 0 <= i < |ref| => MarkAt(ref, input, cursorShown, i))
  }

  /** How many marks of a sequence are m. */
  function CountMark(ms: seq<Mark>, m: Mark): (r: nat)
    ensures r <= |ms|
  {
    if ms == [] then 0
    else CountMark(ms[..|ms| - 1], m) + if ms[|ms| - 1] == m then 1 else 0
  }

  function Min(x: nat, y: nat): nat { if x <= y then x else y }

  /** Typed positions beyond the reference add nothing to the correct count. */
  lemma {:induction false} CorrectBeyondRef(input: string, ref: string, n: nat)
    requires |ref| <= n <= |input|
    ensures CorrectCount(input[..n], ref) == CorrectCount(input[..|ref|], ref)
  {
    if n > |ref| {
      assert input[..n][..n - 1] == input[..n - 1];
      CorrectBeyondRef(input, ref, n - 1);
    }
  }

  lemma {:induction false} MarksCountPrefix(ref: string, input: string, cursorShown: bool, n: nat)
    requires n <= |ref|
    ensures CountMark(Marks(ref, input, cursorShown)[..n], Correct) == CorrectCount(input[..Min(n, |input|)], ref)
    ensures CountMark(Marks(ref, input, cursorShown)[..n], Correct)
          + CountMark(Marks(ref, input, cursorShown)[..n], Incorrect) == Min(n, |input|)
  {
    var ms := Marks(ref, input, cursorShown);
    if n > 0 {
      MarksCountPrefix(ref, input, cursorShown, n - 1);
      assert ms[..n][..n - 1] == ms[..n - 1];
      if n - 1 < |input| {
        assert input[..n][..n - 1] == input[..n - 1];
        assert Min(n, |input|) == n && Min(n - 1, |input|) == n - 1;
      } else {
        assert Min(n, |input|) == Min(n - 1, |input|);
      }
    }
  }

  /**
   * The rendered marks agree with the counts: the correct marks are exactly the
   * correct characters, and the incorrect marks plus the typed characters that
   * run past the reference are exactly the mismatches.
   */
  lemma MarksAgreeWithCounts(ref: string, input: string, cursorShown: bool)
    ensures CountMark(Marks(ref, input, cursorShown), Correct) == CorrectCount(input, ref)
    ensures CountMark(Marks(ref, input, cursorShown), Incorrect)
          + (if |input| > |ref| then |input| - |ref| else 0) == MismatchCount(input, ref)
  {
    var ms := Marks(ref, input, cursorShown);
    MarksCountPrefix(ref, input, cursorShown, |ref|);
    assert ms[..|ref|] == ms;
    if |input| > |ref| {
      CorrectBeyondRef(input, ref, |input|);
    }
    assert input[..|input|] == input;
    CorrectPlusMismatch(input, ref);
  }
}
