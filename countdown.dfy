/** The arithmetic and formatting of the panel's countdown
    (updateCountdownDisplay in popup.js): the remaining milliseconds split
    into whole minutes and seconds, shown as "<minutes>m <ss>s" with the
    seconds padded to two digits. */
module Countdown {
  import opened Schedule

  const MsPerSecond: int := 1000

  /** Whole minutes and the whole seconds left over. */
  datatype Clock = Clock(minutes: nat, seconds: nat)

  /** `Math.floor(remaining / 60000)` and `Math.floor((remaining % 60000) / 1000)`
      for a positive `remaining`, where flooring, truncating and Euclidean
      division agree. The result is the whole minutes and seconds that have
      fully elapsed of `remaining`. */
  function SplitRemaining(remaining: int): (c: Clock)
    requires remaining > 0
    ensures c.seconds <= 59
    ensures c.minutes * MsPerMinute + c.seconds * MsPerSecond <= remaining
    ensures remaining < c.minutes * MsPerMinute + (c.seconds + 1) * MsPerSecond
  {
    Clock(remaining / MsPerMinute, (remaining % MsPerMinute) / MsPerSecond)
  }

  /** The bounds of SplitRemaining determine its result: no other clock
      reading with seconds in 0..59 brackets `remaining` the same way. */
  lemma SplitUnique(remaining: int, m: nat, sec: nat)
    requires remaining > 0 && sec <= 59
    requires m * MsPerMinute + sec * MsPerSecond <= remaining < m * MsPerMinute + (sec + 1) * MsPerSecond
    ensures SplitRemaining(remaining) == Clock(m, sec)
  {
    var c := SplitRemaining(remaining);
    var a := m * 60 + sec;
    var b := c.minutes * 60 + c.seconds;
    assert a * 1000 <= remaining < (a + 1) * 1000;
    assert b * 1000 <= remaining < (b + 1) * 1000;
    assert a == b;
    assert m == a / 60 && sec == a % 60;
    assert c.minutes == b / 60 && c.seconds == b % 60;
  }

  predicate IsDigit(ch: char) {
    '0' <= ch <= '9'
  }

  function DigitChar(d: nat): (ch: char)
    requires d < 10
    ensures IsDigit(ch)
  {
    "0123456789"[d]
  }

  function DigitValue(ch: char): (d: nat)
    requires IsDigit(ch)
    ensures d < 10 && DigitChar(d) == ch
  {
    (ch as int - '0' as int)
  }

  /** `n.toString()` for a non-negative integer: its decimal digits, with no
      leading zero. */
  function DecimalString(n: nat): (s: string)
    ensures |s| >= 1
    ensures forall i :: 0 <= i < |s| ==> IsDigit(s[i])
    ensures |s| > 1 ==> s[0] != '0'
    ensures (n < 10) == (|s| == 1)
  {
    if n < 10 then [DigitChar(n)] else DecimalString(n / 10) + [DigitChar(n % 10)]
  }

  /** The number a string of decimal digits denotes. */
  function ParseDecimal(s: string): nat
    requires forall i :: 0 <= i < |s| ==> IsDigit(s[i])
  {
    if s == [] then 0 else ParseDecimal(s[..|s| - 1]) * 10 + DigitValue(s[|s| - 1])
  }

  /** The digits written are those of `n`. */
  lemma {:induction false} DecimalRoundTrip(n: nat)
    ensures ParseDecimal(DecimalString(n)) == n
  {
    var s := DecimalString(n);
    if n < 10 {
      assert s[..0] == [];
    } else {
      DecimalRoundTrip(n / 10);
      assert s[..|s| - 1] == DecimalString(n / 10);
    }
  }

  /** `str.padStart(2, '0')`. */
  function PadTwo(str: string): (r: string)
    ensures |r| == if |str| >= 2 then |str| else 2
    ensures r[|r| - |str|..] == str
    ensures forall i :: 0 <= i < |r| - |str| ==> r[i] == '0'
  {
    if |str| >= 2 then str else seq(2 - |str|, _ => '0') + str
  }

  /** Every seconds value the countdown shows is written with exactly two
      digits, tens first. */
  lemma TwoDigitSeconds(sec: nat)
    requires sec <= 59
    ensures PadTwo(DecimalString(sec)) == [DigitChar(sec / 10), DigitChar(sec % 10)]
  {
  }

  /** The countdown text `minStr + 'm ' + secStr + 's'`. */
  function ClockText(c: Clock): (text: string)
    ensures var m := DecimalString(c.minutes);
            && |text| >= |m| + 3
            && text[..|m|] == m && text[|m|..|m| + 2] == "m " && text[|text| - 1] == 's'
            && (c.seconds <= 59 ==> |text| == |m| + 5)
  {
    var m := DecimalString(c.minutes);
    var sec := PadTwo(DecimalString(c.seconds));
    assert c.seconds <= 59 ==> |sec| == 2 by {
      if c.seconds <= 59 {
        TwoDigitSeconds(c.seconds);
      }
    }
    var text := m + "m " + sec + "s";
    assert text[..|m|] == m;
    assert text[|m|..|m| + 2] == "m ";
    text
  }

  /** The countdown text of a positive remaining time is the minutes in
      decimal, "m ", two digits of seconds and "s". */
  lemma RemainingText(remaining: int)
    requires remaining > 0
    ensures var c := SplitRemaining(remaining);
            ClockText(c) == DecimalString(c.minutes) + "m " + [DigitChar(c.seconds / 10), DigitChar(c.seconds % 10)] + "s"
            && ParseDecimal(DecimalString(c.minutes)) == remaining / MsPerMinute
  {
    var c := SplitRemaining(remaining);
    TwoDigitSeconds(c.seconds);
    DecimalRoundTrip(c.minutes);
  }
}
