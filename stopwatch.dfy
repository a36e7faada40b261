/**
 * The stopwatch screen: elapsed milliseconds advanced by 10 on every
 * animation frame while it runs, shown as "mm:ss.cc", with a start/pause
 * button and a reset button.
 */
module StopwatchView {
  import opened Wrappers
  import opened Format

  /** What the display shows of a count of milliseconds: minutes, seconds within the minute, hundredths within the second. */
  datatype Parts = Parts(mins: nat, secs: nat, cents: nat)

  /** The three numbers `format` computes; together with the last millisecond digit they give back `ms`. */
  function Split(ms: nat): (p: Parts)
    ensures p.secs < 60 && p.cents < 100
    ensures p.mins * 60000 + p.secs * 1000 + p.cents * 10 + ms % 10 == ms
  {
    var p := Parts(ms / 60000, (ms % 60000) / 1000, (ms % 1000) / 10);
    SplitSum(ms);
    p
  }

  lemma SplitSum(ms: nat)
    ensures (ms / 60000) * 60000 + ((ms % 60000) / 1000) * 1000 + ((ms % 1000) / 10) * 10 + ms % 10 == ms
  {
    MinuteRemainder(ms);
    SecondRemainder(ms);
  }

  /** Taking off whole minutes leaves the milliseconds within the second as they were. */
  lemma MinuteRemainder(ms: nat)
    ensures (ms % 60000) % 1000 == ms % 1000
  {
    var r := ms % 60000;
    assert ms == 60000 * (ms / 60000) + r;
    assert r == 1000 * (r / 1000) + r % 1000;
    Mod1000Unique(ms, 60 * (ms / 60000) + r / 1000, r % 1000);
  }

  /** Taking off whole seconds leaves the last millisecond digit as it was. */
  lemma SecondRemainder(ms: nat)
    ensures (ms % 1000) % 10 == ms % 10
  {
    var r := ms % 1000;
    assert ms == 1000 * (ms / 1000) + r;
    assert r == 10 * (r / 10) + r % 10;
    Mod10Unique(ms, 100 * (ms / 1000) + r / 10, r % 10);
  }

  lemma Mod1000Unique(n: int, k: int, r: int)
    requires 0 <= r < 1000 && n == 1000 * k + r
    ensures n % 1000 == r
  {
    var k0 := n / 1000;
    assert n == 1000 * k0 + n % 1000;
    assert -1000 < 1000 * (k - k0) < 1000;
  }

  lemma Mod10Unique(n: int, k: int, r: int)
    requires 0 <= r < 10 && n == 10 * k + r
    ensures n % 10 == r
  {
    var k0 := n / 10;
    assert n == 10 * k0 + n % 10;
    assert -10 < 10 * (k - k0) < 10;
  }

  /**
   * Reads back text of the shape `<clock>.<two digits>`, where `<clock>` is
   * what ParseClock accepts; anything else is None.
   */
  function ParseStopwatch(s: string): Option<Parts>
  {
    if |s| >= 3 && s[|s| - 3] == '.' && AllDigits(s[|s| - 2..]) && ParseClock(s[..|s| - 3]).Some? then
      var (m, sec) := ParseClock(s[..|s| - 3]).value;
      Some(Parts(m, sec, DigitsValue(s[|s| - 2..])))
    else
      None
  }

  /**
   * `format(ms)`: minutes, seconds and hundredths, each zero-padded to two
   * digits, as "mm:ss.cc". The text reads back as exactly those three
   * numbers, and it is eight characters long below 100 minutes.
   */
  function FormatMillis(ms: nat): (r: string)
    ensures ParseStopwatch(r) == Some(Split(ms))
    ensures |r| >= 8 && (ms < 6000000 ==> |r| == 8)
    ensures r[0] == '0' <==> ms < 600000
  {
    var p := Split(ms);
    TextOfParts(p);
    MinutesBelow100(ms);
    PartsText(p)
  }

  /** The text for given parts: the "mm:ss" clock, a '.', and the two-digit hundredths. */
  function PartsText(p: Parts): string
  {
    ClockText(p.mins, p.secs) + "." + TwoDigits(p.cents)
  }

  lemma TextOfParts(p: Parts)
    requires p.secs < 60 && p.cents < 100
    ensures ParseStopwatch(PartsText(p)) == Some(p)
    ensures |PartsText(p)| >= 8 && PartsText(p)[|PartsText(p)| - 3] == '.' && PartsText(p)[|PartsText(p)| - 6] == ':'
    ensures p.mins < 100 ==> |PartsText(p)| == 8
  {
    var clock := ClockText(p.mins, p.secs);
    var cents := TwoDigits(p.cents);
    ParseStopwatchJoin(clock, cents);
    var r := clock + "." + cents;
    assert r[|r| - 6] == clock[|clock| - 3];
  }

  /** Below 6,000,000 ms the minutes fit in two digits. */
  lemma MinutesBelow100(ms: nat)
    ensures ms < 6000000 ==> ms / 60000 < 100
  {
  }

  lemma ParseStopwatchJoin(clock: string, cents: string)
    requires ParseClock(clock).Some?
    requires |cents| == 2 && AllDigits(cents)
    ensures ParseStopwatch(clock + "." + cents) ==
      Some(Parts(ParseClock(clock).value.0, ParseClock(clock).value.1, DigitsValue(cents)))
  {
    var r := clock + "." + cents;
    assert r[|r| - 3] == '.';
    assert r[..|r| - 3] == clock;
    assert r[|r| - 2..] == cents;
  }

  /** Two readings that show the same text agree to the hundredth of a second. */
  lemma FormatDetermines(ms: nat, ms': nat)
    requires FormatMillis(ms) == FormatMillis(ms')
    ensures ms / 10 == ms' / 10
  {
  }

  class Stopwatch {
    var isRunning: bool
    var time: nat

    /** Stopped at zero. */
    constructor ()
      ensures !isRunning && time == 0
    {
      isRunning := false;
      time := 0;
    }

    /** One animation frame: ten milliseconds more, so the time never goes back. */
    method Animate()
      modifies this
      ensures time == old(time) + 10 && isRunning == old(isRunning)
    {
      time := time + 10;
    }

    /** The start/pause button. */
    method Toggle()
      modifies this
      ensures isRunning == !old(isRunning) && time == old(time)
    {
      isRunning := !isRunning;
    }

    /** The reset button: stopped, back at zero. */
    method Reset()
      modifies this
      ensures !isRunning && time == 0
    {
      isRunning := false;
      time := 0;
    }
  }
}
