/**
 * Decimal text of non-negative integers as the views render it:
 * `String(n)`, `String(n).padStart(2, '0')`, and the "left:right" clock
 * shape shared by the alarm time, the countdown and the pomodoro display.
 * Each formatter has a parser beside it, and a round-trip lemma shows the
 * text determines the numbers it was built from.
 */
module Format {
  import opened Wrappers

  predicate IsDigit(c: char) { '0' <= c <= '9' }

  predicate AllDigits(s: string) { forall i :: 0 <= i < |s| ==> IsDigit(s[i]) }

  function DigitValue(c: char): (d: nat)
    requires IsDigit(c)
    ensures d < 10
  {
    c as int - '0' as int
  }

  function DigitChar(d: nat): (c: char)
    requires d < 10
    ensures IsDigit(c) && DigitValue(c) == d
  {
    ('0' as int + d) as char
  }

  /** `String(n)` for a non-negative integer: its decimal digits, no leading zeros. */
  function DecimalString(n: nat): (s: string)
    ensures |s| >= 1 && AllDigits(s)
    ensures (|s| == 1) == (n < 10)
    ensures n < 100 ==> |s| <= 2
    ensures s[0] == '0' <==> n == 0
    decreases n
  {
    if n < 10 then [DigitChar(n)] else DecimalString(n / 10) + [DigitChar(n % 10)]
  }

  /** The number a string of decimal digits denotes (leading zeros allowed). */
  function DigitsValue(s: string): nat
    requires AllDigits(s)
    decreases |s|
  {
    if s == [] then 0 else DigitsValue(s[..|s| - 1]) * 10 + DigitValue(s[|s| - 1])
  }

  lemma {:induction false} DecimalStringRoundTrip(n: nat)
    ensures DigitsValue(DecimalString(n)) == n
    decreases n
  {
    if n >= 10 {
      var s := DecimalString(n);
      assert s[..|s| - 1] == DecimalString(n / 10);
      DecimalStringRoundTrip(n / 10);
    }
  }

  /** A leading '0' does not change the value of a digit string. */
  lemma {:induction false} LeadingZero(s: string)
    requires AllDigits(s)
    ensures AllDigits("0" + s) && DigitsValue("0" + s) == DigitsValue(s)
    decreases |s|
  {
    if s != [] {
      var t := "0" + s;
      assert t[..|t| - 1] == "0" + s[..|s| - 1];
      LeadingZero(s[..|s| - 1]);
    }
  }

  /** `s.padStart(2, '0')`: `s` itself when it is long enough, else `s` behind enough '0's to make two characters. */
  function Pad2(s: string): (r: string)
    ensures |r| == if |s| >= 2 then |s| else 2
    ensures r[|r| - |s|..] == s
    ensures forall i :: 0 <= i < |r| - |s| ==> r[i] == '0'
  {
    if |s| >= 2 then s else seq(2 - |s|, _ => '0') + s
  }

  /** `String(n).padStart(2, '0')`: at least two digits, exactly two below 100, and it still denotes `n`. */
  function TwoDigits(n: nat): (r: string)
    ensures |r| >= 2 && AllDigits(r)
    ensures n < 100 ==> |r| == 2
    ensures DigitsValue(r) == n
    ensures r[0] == '0' <==> n < 10
  {
    var s := DecimalString(n);
    DecimalStringRoundTrip(n);
    if |s| >= 2 then
      s
    else
      LeadingZero(s);
      assert Pad2(s) == "0" + s;
      Pad2(s)
  }

  /**
   * Reads back text of the shape `<digits>:<two digits>` (at least one digit
   * before the colon) as the pair of numbers it shows; anything else is None.
   */
  function ParseClock(s: string): Option<(nat, nat)>
  {
    if |s| >= 4 && s[|s| - 3] == ':' && AllDigits(s[..|s| - 3]) && AllDigits(s[|s| - 2..]) then
      Some((DigitsValue(s[..|s| - 3]), DigitsValue(s[|s| - 2..])))
    else
      None
  }

  lemma ParseClockJoin(left: string, right: string)
    requires |left| >= 1 && AllDigits(left)
    requires |right| == 2 && AllDigits(right)
    ensures ParseClock(left + ":" + right) == Some((DigitsValue(left), DigitsValue(right)))
  {
    var s := left + ":" + right;
    assert s[..|s| - 3] == left;
    assert s[|s| - 2..] == right;
  }

  /**
   * "HH:MM" as the tick and `addAlarm` build it: hour and minute each
   * zero-padded to two digits. The text names the hour and minute uniquely.
   */
  function ClockText(h: nat, m: nat): (r: string)
    ensures m < 100 ==> ParseClock(r) == Some((h, m))
    ensures m < 100 ==> |r| >= 5 && r[|r| - 3] == ':'
    ensures |r| >= 5 && (r[0] == '0' <==> h < 10)
    ensures h < 100 && m < 100 ==> |r| == 5 && r[2] == ':' && AllDigits(r[..2]) && AllDigits(r[3..])
  {
    var r := TwoDigits(h) + ":" + TwoDigits(m);
    if m < 100 then ParseClockJoin(TwoDigits(h), TwoDigits(m)); r else r
  }

  lemma ClockTextInjective(h: nat, m: nat, h': nat, m': nat)
    requires m < 100 && m' < 100
    requires ClockText(h, m) == ClockText(h', m')
    ensures h == h' && m == m'
  {
  }
}
