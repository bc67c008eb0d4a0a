/**
 * The clock texts the modes display: `formatTime` of the countdown test
 * (`m:ss`), the same layout the word-count and snippet modes build inline,
 * and the quick test's `0:ss`. A small parser inverts the `m:ss` layout, so
 * the displayed text determines the number of seconds.
 */
module Clock {
  import opened Wrappers

  predicate IsDigit(c: char) { '0' <= c <= '9' }

  predicate AllDigits(s: string) { forall i :: 0 <= i < |s| ==> IsDigit(s[i]) }

  function DigitChar(d: nat): (c: char)
    requires d < 10
    ensures IsDigit(c)
  {
    ('0' as int + d) as char
  }

  function DigitValue(c: char): (d: nat)
    requires IsDigit(c)
    ensures d < 10 && DigitChar(d) == c
  {
    (c as int - '0' as int)
  }

  /** A number as JavaScript writes it in a template literal: decimal, no leading zeros. */
  function DecimalString(n: nat): (r: string)
    ensures 1 <= |r| && AllDigits(r)
    ensures n < 10 <==> |r| == 1
    ensures (n < 10 || r[0] != '0')
  {
    if n < 10 then [DigitChar(n)]
    else
      var r := DecimalString(n / 10) + [DigitChar(n % 10)];
      assert r[0] == DecimalString(n / 10)[0];
      r
  }

  /** The value of a string of decimal digits. */
  function DigitsValue(s: string): nat
    requires AllDigits(s)
  {
    if s == [] then 0 else 10 * DigitsValue(s[..|s| - 1]) + DigitValue(s[|s| - 1])
  }

  lemma {:induction false} DecimalRoundTrip(n: nat)
    ensures DigitsValue(DecimalString(n)) == n
  {
    var r := DecimalString(n);
    if n < 10 {
      assert r[..0] == [];
    } else {
      DecimalRoundTrip(n / 10);
      assert r[..|r| - 1] == DecimalString(n / 10);
    }
  }

  /** Seconds below 60, zero-padded to two digits. */
  function TwoDigits(x: nat): (r: string)
    requires x < 60
    ensures |r| == 2 && AllDigits(r)
    ensures r == [DigitChar(x / 10), DigitChar(x % 10)]
  {
    DecimalBelowHundred(x);
    (if x < 10 then "0" else "") + DecimalString(x)
  }

  lemma DecimalBelowHundred(x: nat)
    requires x < 100
    ensures x < 10 ==> DecimalString(x) == [DigitChar(x)] && "0" == [DigitChar(x / 10)]
    ensures 10 <= x ==> DecimalString(x) == [DigitChar(x / 10), DigitChar(x % 10)]
  {
    if 10 <= x {
      assert DecimalString(x / 10) == [DigitChar(x / 10)];
    }
  }

  /**
   * `${Math.floor(s / 60)}:${s % 60 < 10 ? '0' : ''}${s % 60}`: the minutes in
   * decimal, a colon, then the tens and units of the remaining seconds.
   */
  function FormatClock(seconds: nat): (t: string)
    ensures |t| >= 4 && t[|t| - 3] == ':'
    ensures t[..|t| - 3] == DecimalString(seconds / 60)
    ensures t[|t| - 2..] == [DigitChar(seconds % 60 / 10), DigitChar(seconds % 60 % 10)]
  {
    var m := DecimalString(seconds / 60);
    var t := m + ":" + TwoDigits(seconds % 60);
    assert t[..|t| - 3] == m;
    assert t[|t| - 2..] == TwoDigits(seconds % 60);
    t
  }

  /**
   * `0:${sec < 10 ? '0' : ''}${sec}`, the quick test's clock: "0:" and, below
   * 100 seconds, exactly the tens and units of the seconds.
   */
  function FormatQuickClock(sec: nat): (t: string)
    ensures |t| >= 4 && t[..2] == "0:"
    ensures sec < 100 ==> t == ['0', ':', DigitChar(sec / 10), DigitChar(sec % 10)]
  {
    var t := "0:" + (if sec < 10 then "0" else "") + DecimalString(sec);
    if sec < 100 then (DecimalBelowHundred(sec); t) else t
  }

  /**
   * Reads an `m:ss` text back: digits for the minutes, a colon, and two
   * digits for seconds below 60; anything else is rejected.
   */
  function ParseClock(t: string): Option<nat> {
    if |t| < 4 || t[|t| - 3] != ':' then None
    else
      var m, ss := t[..|t| - 3], t[|t| - 2..];
      if !AllDigits(m) || !AllDigits(ss) then None
      else
        var secs := DigitsValue(ss);
        if secs < 60 then Some(60 * DigitsValue(m) + secs) else None
  }

  /** The countdown clock loses nothing: its text gives back the seconds. */
  lemma ClockRoundTrip(seconds: nat)
    ensures ParseClock(FormatClock(seconds)) == Some(seconds)
  {
    var m, x := seconds / 60, seconds % 60;
    DecimalRoundTrip(m);
    TwoDigitsValue(x);
  }

  lemma TwoDigitsValue(x: nat)
    requires x < 60
    ensures DigitsValue(TwoDigits(x)) == x
  {
    var r := TwoDigits(x);
    assert r[..1] == [DigitChar(x / 10)];
    assert r[..1][..0] == [];
    assert DigitsValue(r[..1]) == x / 10;
  }

  /** Different second counts show different clock texts. */
  lemma ClockInjective(s1: nat, s2: nat)
    requires FormatClock(s1) == FormatClock(s2)
    ensures s1 == s2
  {
    ClockRoundTrip(s1);
    ClockRoundTrip(s2);
  }

  /**
   * Below one minute the quick test's clock is "0:" and exactly two digits
   * naming the seconds, the same text as the countdown clock.
   */
  lemma QuickClockShape(sec: nat)
    requires sec <= 59
    ensures FormatQuickClock(sec) == ['0', ':', DigitChar(sec / 10), DigitChar(sec % 10)]
    ensures FormatQuickClock(sec) == FormatClock(sec)
  {
    DecimalBelowHundred(sec);
    assert DecimalString(0) == ['0'];
  }
}
