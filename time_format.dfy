/**
 * `formatTime(ms)` and the per-second timer label: integer milliseconds shown
 * as `m:ss`.
 */
module TimeFormat {
  import opened Wrappers

  predicate IsDigit(c: char)
  {
    '0' <= c <= '9'
  }

  predicate AllDigits(s: string)
  {
    forall i :: 0 <= i < |s| ==> IsDigit(s[i])
  }

  function DigitValue(c: char): (d: nat)
    requires IsDigit(c)
    ensures d < 10
  {
    c as int - '0' as int
  }

  function DigitChar(d: nat): (c: char)
    requires d < 10
    ensures IsDigit(c) && DigitValue(c) == d
  {
    ('0' as int + d) as char
  }

  /** `n.toString()` for a non-negative integer: its decimal digits, no leading zero. */
  function NatToString(n: nat): (s: string)
    ensures |s| >= 1 && AllDigits(s)
    ensures |s| > 1 ==> s[0] != '0'
    decreases n
  {
    if n < 10 then [DigitChar(n)] else NatToString(n / 10) + [DigitChar(n % 10)]
  }

  /** `i.toString()` for any integer: a minus sign before the digits of a negative one. */
  function IntToString(i: int): string
  {
    if i < 0 then "-" + NatToString(-i) else NatToString(i)
  }

  /** `s.padStart(2, '0')`. */
  function PadStart2(s: string): (r: string)
    ensures |r| == if |s| >= 2 then |s| else 2
    ensures r[|r| - |s|..] == s
    ensures forall i :: 0 <= i < |r| - |s| ==> r[i] == '0'
  {
    if |s| >= 2 then s else if |s| == 1 then "0" + s else "00"
  }

  /** JavaScript's `a % b`: the remainder takes the sign of the dividend. */
  function JsRem(a: int, b: int): (r: int)
    requires b > 0
    ensures a >= 0 ==> 0 <= r < b
    ensures a == b * (if a >= 0 then a / b else -((-a) / b)) + r
  {
    if a >= 0 then a % b else -((-a) % b)
  }

  /**
   * `formatTime(ms)`. `Math.floor(x / 1000)` and `Math.floor(secs / 60)` are
   * Dafny's `/`, which rounds down for a positive divisor.
   */
  function FormatTime(ms: int): (r: string)
    ensures ms >= 0 ==> ParseClock(r) == Some(ms / 1000)
  {
    var secs := ms / 1000;
    var mins := secs / 60;
    var remainingSecs := JsRem(secs, 60);
    assert secs >= 0 ==> ParseClock(IntToString(mins) + ":" + PadStart2(IntToString(remainingSecs))) == Some(secs) by {
      if secs >= 0 {
        ClockRoundTrip(secs);
      }
    }
    IntToString(mins) + ":" + PadStart2(IntToString(remainingSecs))
  }

  /**
   * The timer label: `Math.floor((Date.now() - questionStartTime) / 1000)`
   * whole seconds, shown as minutes and zero-padded seconds. The running timer
   * and the time shown with the results agree.
   */
  function TimerText(now: int, questionStartTime: int): (r: string)
    ensures r == FormatTime(now - questionStartTime)
    ensures now >= questionStartTime ==> ParseClock(r) == Some((now - questionStartTime) / 1000)
  {
    var elapsed := (now - questionStartTime) / 1000;
    var mins := elapsed / 60;
    var secs := JsRem(elapsed, 60);
    IntToString(mins) + ":" + PadStart2(IntToString(secs))
  }

  /** The number a string of decimal digits denotes. */
  function DigitsValue(s: string): nat
    requires AllDigits(s)
  {
    if |s| == 0 then 0 else DigitsValue(s[..|s| - 1]) * 10 + DigitValue(s[|s| - 1])
  }

  /**
   * Reads `m:ss` back: a decimal minute count, a colon and exactly two digits
   * forming a number below 60. The result is the total number of seconds.
   */
  function ParseClock(s: string): Option<nat>
  {
    if |s| >= 4 && s[|s| - 3] == ':' then ParseFields(s[..|s| - 3], s[|s| - 2], s[|s| - 1]) else None
  }

  /** The minutes field `m` and the two seconds digits `a` and `b` of `m:ab`. */
  function ParseFields(m: string, a: char, b: char): Option<nat>
  {
    if AllDigits(m) && IsDigit(a) && IsDigit(b) && 10 * DigitValue(a) + DigitValue(b) < 60
    then Some(DigitsValue(m) * 60 + 10 * DigitValue(a) + DigitValue(b))
    else None
  }

  lemma {:induction false} NatToStringValue(n: nat)
    ensures DigitsValue(NatToString(n)) == n
    decreases n
  {
    var s := NatToString(n);
    if n < 10 {
      assert s[..0] == [];
    } else {
      NatToStringValue(n / 10);
      assert s[..|s| - 1] == NatToString(n / 10);
    }
  }

  /** Below 60, `padStart(2, '0')` of the decimal digits is the tens digit, then the units digit. */
  lemma PaddedSeconds(secs: nat)
    requires secs < 60
    ensures PadStart2(NatToString(secs)) == [DigitChar(secs / 10), DigitChar(secs % 10)]
  {
    var tens, units := secs / 10, secs % 10;
    assert tens < 6 && units < 10;
    if secs >= 10 {
      assert NatToString(secs) == NatToString(tens) + [DigitChar(units)];
      assert NatToString(tens) == [DigitChar(tens)];
    } else {
      assert tens == 0 && units == secs;
      assert NatToString(secs) == [DigitChar(units)];
      assert DigitChar(0) == '0';
    }
  }

  lemma FieldsOfDigits(m: string, tens: nat, units: nat)
    requires AllDigits(m)
    requires tens < 6 && units < 10
    ensures ParseFields(m, DigitChar(tens), DigitChar(units)) == Some(DigitsValue(m) * 60 + 10 * tens + units)
  {
  }

  lemma SplitJoined(m: string, a: char, b: char)
    requires |m| >= 1
    ensures ParseClock(m + ":" + [a, b]) == ParseFields(m, a, b)
  {
    var r := m + ":" + [a, b];
    assert r[..|r| - 3] == m && r[|r| - 3] == ':';
  }

  /**
   * The label of a non-negative number of seconds reads back as that number:
   * minutes * 60 + seconds, the seconds being two digits in 00..59.
   */
  lemma ClockRoundTrip(secs: nat)
    ensures ParseClock(IntToString(secs / 60) + ":" + PadStart2(IntToString(JsRem(secs, 60)))) == Some(secs)
  {
    var mins, rem := secs / 60, secs % 60;
    assert JsRem(secs, 60) == rem;
    PaddedSeconds(rem);
    var m := NatToString(mins);
    assert IntToString(secs / 60) + ":" + PadStart2(IntToString(JsRem(secs, 60)))
      == m + ":" + [DigitChar(rem / 10), DigitChar(rem % 10)];
    SplitJoined(m, DigitChar(rem / 10), DigitChar(rem % 10));
    FieldsOfDigits(m, rem / 10, rem % 10);
    NatToStringValue(mins);
  }

  /**
   * A negative duration, which arises only when the clock is set back during
   * an answer, prints signed fields.
   */
  lemma NegativeDuration()
    ensures FormatTime(-1500) == "-1:-2"
  {
    assert -1500 / 1000 == -2 && -2 / 60 == -1 && JsRem(-2, 60) == -2;
    assert NatToString(1) == "1" && NatToString(2) == "2";
    assert IntToString(-1) == "-1" && IntToString(-2) == "-2";
  }
}
