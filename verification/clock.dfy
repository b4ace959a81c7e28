/** Formatting of the countdown display: `returnTime` and the `MM:SS` text built from it.

    The source computes with JavaScript numbers. For a whole number `t` it takes
    `parseInt(t / 60)` (the quotient truncated toward zero) and `t % 60` (a remainder
    with the sign of the dividend), and turns each part `x` into `'0' + x` when
    `x < 10` and into `x` otherwise; the display then shows the decimal text of
    both. This module models that on `int`. It is exact for the safe integers
    (magnitude at most 2^53 - 1), where JavaScript's doubles compute the same
    quotient, remainder and text. It proves what these mean for the non-negative
    values a normal countdown uses. */
module Clock {

  datatype Option<T> = None | Some(value: T)

  /** The character of a decimal digit. */
  function DigitChar(d: nat): (c: char)
    requires d < 10
    ensures '0' <= c <= '9' && c as int - '0' as int == d
  {
    ('0' as int + d) as char
  }

  /** The value of a decimal digit character. */
  function DigitValue(c: char): nat
    requires '0' <= c <= '9'
  {
    c as int - '0' as int
  }

  predicate IsDigits(s: string)
  {
    forall i :: 0 <= i < |s| ==> '0' <= s[i] <= '9'
  }

  /** The decimal text of a whole number, as JavaScript prints it: no leading zero. */
  function Digits(n: nat): string
    decreases n
  {
    if n < 10 then [DigitChar(n)] else Digits(n / 10) + [DigitChar(n % 10)]
  }

  /** `Digits` writes only digits, one character exactly for a single digit, two for a
      number below 100, and no leading zero. */
  lemma {:induction false} DigitsShape(n: nat)
    ensures IsDigits(Digits(n)) && |Digits(n)| >= 1
    ensures |Digits(n)| == 1 <==> n < 10
    ensures n < 100 ==> |Digits(n)| <= 2
    ensures n > 0 ==> Digits(n)[0] != '0'
    decreases n
  {
    if n >= 10 {
      DigitsShape(n / 10);
    }
  }

  /** The value of a string of decimal digits; the inverse of `Digits`. */
  function Parse(s: string): nat
    requires IsDigits(s)
  {
    if s == [] then 0 else Parse(s[..|s| - 1]) * 10 + DigitValue(s[|s| - 1])
  }

  /** JavaScript's text of an integer: a minus sign before the digits of a negative number. */
  function IntText(n: int): string
  {
    if n < 0 then "-" + Digits(-n) else Digits(n)
  }

  /** `x < 10 ? '0' + x : x`, as the text it puts on the display. */
  function Pad2(x: int): string
  {
    if x < 10 then "0" + IntText(x) else IntText(x)
  }

  /** `parseInt(a / b, 10)` for whole numbers: the quotient truncated toward zero. */
  function TruncDiv(a: int, b: int): int
    requires b > 0
  {
    if a >= 0 then a / b else -((-a) / b)
  }

  /** JavaScript's `a % b`: the remainder takes the sign of the dividend. */
  function TruncRem(a: int, b: int): int
    requires b > 0
  {
    if a >= 0 then a % b else -((-a) % b)
  }

  /** The `{ minutes, seconds }` pair returned by `returnTime`, as display text. */
  datatype Time = Time(minutes: string, seconds: string)

  function ReturnTime(time: int): Time
  {
    Time(Pad2(TruncDiv(time, 60)), Pad2(TruncRem(time, 60)))
  }

  /** The text a tick writes to the timer display: `${minutes}:${seconds}`. */
  function ClockText(time: int): string
  {
    var t := ReturnTime(time);
    t.minutes + ":" + t.seconds
  }

  /** Reads an `M…M:SS` display text back as a number of seconds. */
  function ParseClock(s: string): Option<nat>
  {
    if |s| >= 3 && s[|s| - 3] == ':' && IsDigits(s[..|s| - 3]) && IsDigits(s[|s| - 2..])
    then Some(Parse(s[..|s| - 3]) * 60 + Parse(s[|s| - 2..]))
    else None
  }

  lemma {:induction false} ParseDigits(n: nat)
    ensures IsDigits(Digits(n)) && Parse(Digits(n)) == n
    decreases n
  {
    DigitsShape(n);
    if n >= 10 {
      ParseDigits(n / 10);
      var s := Digits(n);
      assert s[..|s| - 1] == Digits(n / 10);
    }
  }

  /** A leading zero does not change the value of a digit string. */
  lemma {:induction false} ParseZeroPrefix(s: string)
    requires IsDigits(s)
    ensures IsDigits("0" + s) && Parse("0" + s) == Parse(s)
    decreases |s|
  {
    var t := "0" + s;
    if s != [] {
      assert t[..|t| - 1] == "0" + s[..|s| - 1];
      ParseZeroPrefix(s[..|s| - 1]);
    } else {
      assert t[..|t| - 1] == [];
    }
  }

  /** Padding a non-negative part: all digits, the same value, at least two characters,
      exactly two below 100, and a leading "0" exactly when the part is below 10. */
  lemma Pad2Correct(x: nat)
    ensures IsDigits(Pad2(x)) && Parse(Pad2(x)) == x
    ensures |Pad2(x)| >= 2 && (x < 100 ==> |Pad2(x)| == 2)
    ensures Pad2(x)[0] == '0' <==> x < 10
  {
    DigitsShape(x);
    ParseDigits(x);
    if x < 10 {
      ParseZeroPrefix(Digits(x));
    }
  }

  /** `returnTime(t)` for a whole number `t`: minutes `t div 60` and seconds `t mod 60`,
      each a digit string of at least two characters that starts with "0" exactly
      when the part is below 10; the seconds are always exactly two characters. */
  lemma ReturnTimeCorrect(time: nat)
    ensures var r := ReturnTime(time);
      && IsDigits(r.minutes) && Parse(r.minutes) == time / 60
      && IsDigits(r.seconds) && Parse(r.seconds) == time % 60
      && |r.minutes| >= 2 && |r.seconds| == 2 && (time / 60 < 100 ==> |r.minutes| == 2)
      && (r.minutes[0] == '0' <==> time / 60 < 10)
      && (r.seconds[0] == '0' <==> time % 60 < 10)
  {
    Pad2Correct(time / 60);
    Pad2Correct(time % 60);
  }

  /** Below 100 minutes (so for every clamped input, up to 3600) the display is exactly `MM:SS`. */
  lemma ClockTextShape(time: nat)
    requires time < 6000
    ensures |ClockText(time)| == 5 && ClockText(time)[2] == ':'
  {
    ReturnTimeCorrect(time);
  }

  /** Under ten seconds the display reads "00:0" and the single digit. */
  lemma ClockTextUnderTen(time: nat)
    requires time < 10
    ensures ClockText(time) == "00:0" + [DigitChar(time)]
  {
    assert ReturnTime(time) == Time("0" + Digits(0), "0" + Digits(time));
  }

  /** The display text of a whole number of seconds reads back as that number. */
  lemma ParseClockText(time: nat)
    ensures ParseClock(ClockText(time)) == Some(time)
  {
    ReturnTimeCorrect(time);
    var r := ReturnTime(time);
    var s := ClockText(time);
    assert s[..|s| - 3] == r.minutes;
    assert s[|s| - 2..] == r.seconds;
  }

  /** Different whole numbers of seconds are shown differently. */
  lemma ClockTextInjective(a: nat, b: nat)
    requires ClockText(a) == ClockText(b)
    ensures a == b
  {
    ParseClockText(a);
    ParseClockText(b);
  }
}
