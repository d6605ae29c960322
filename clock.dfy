/**
 * The play clock: a play's `timeInPeriod` text ("MM:SS" within its period)
 * and the offset from the start of the game that the ingestion derives from
 * it, counting every period, overtime included, as 20 minutes.
 */
module Clock {

  /** Length of a period in minutes, overtime periods included. */
  const PeriodMinutes := 20
  const SecondsPerMinute := 60
  const PeriodSeconds := PeriodMinutes * SecondsPerMinute

  predicate IsDigit(c: char) {
    '0' <= c <= '9'
  }

  predicate AllDigits(s: string) {
    forall i | 0 <= i < |s| :: IsDigit(s[i])
  }

  function DigitValue(c: char): (d: nat)
    requires IsDigit(c)
    ensures d < 10
  {
    (c as int) - ('0' as int)
  }

  function DigitChar(d: nat): (c: char)
    requires d < 10
    ensures IsDigit(c) && DigitValue(c) == d
  {
    ('0' as int + d) as char
  }

  /** The value of a decimal digit string, leading zeros allowed ("0030" is 30). */
  function DigitsValue(s: string): nat
    requires AllDigits(s)
  {
    if |s| == 0 then 0 else 10 * DigitsValue(s[..|s| - 1]) + DigitValue(s[|s| - 1])
  }

  /**
   * A `timeInPeriod` the ingestion can read: two digits of minutes at
   * positions 0 and 1, and a non-empty run of digits from position 3 on.
   * The character at position 2 is never inspected.
   */
  predicate WellFormed(t: string) {
    |t| >= 4 && IsDigit(t[0]) && IsDigit(t[1]) && AllDigits(t[3..])
  }

  /** Minutes into the period: the number written by the first two characters. */
  function Minutes(t: string): (m: nat)
    requires WellFormed(t)
    ensures m == 10 * DigitValue(t[0]) + DigitValue(t[1])
    ensures m < 100
  {
    TwoDigitsValue(t[..2]);
    DigitsValue(t[..2])
  }

  /** Seconds into the minute: the number written from the fourth character on. */
  function Seconds(t: string): nat
    requires WellFormed(t)
  {
    DigitsValue(t[3..])
  }

  /**
   * Seconds from the start of the game to a play in period `period` at
   * clock text `t`: minutes are `Minutes(t) + (period - 1) * 20`.
   */
  function ElapsedSeconds(period: int, t: string): int
    requires WellFormed(t)
  {
    (Minutes(t) + (period - 1) * PeriodMinutes) * SecondsPerMinute + Seconds(t)
  }

  /** Period 2 at "05:30" is 25 minutes and 30 seconds into the game. */
  lemma ElapsedExample()
    ensures WellFormed("05:30")
    ensures ElapsedSeconds(2, "05:30") == 25 * 60 + 30
  {
    var t := "05:30";
    assert t[3..] == "30";
    assert t[3..][..1] == "3";
  }

  /** A clock inside its period (under 20 minutes, under 60 seconds) places the play inside that period's window. */
  lemma PeriodWindow(period: int, t: string)
    requires WellFormed(t) && Minutes(t) < PeriodMinutes && Seconds(t) < SecondsPerMinute
    ensures (period - 1) * PeriodSeconds <= ElapsedSeconds(period, t) < period * PeriodSeconds
  {
  }

  /** Within one period a later clock reading gives a strictly later offset. */
  lemma LaterClockLaterOffset(period: int, t1: string, t2: string)
    requires WellFormed(t1) && WellFormed(t2)
    requires Seconds(t1) < SecondsPerMinute && Seconds(t2) < SecondsPerMinute
    requires Minutes(t1) < Minutes(t2) || (Minutes(t1) == Minutes(t2) && Seconds(t1) < Seconds(t2))
    ensures ElapsedSeconds(period, t1) < ElapsedSeconds(period, t2)
  {
  }

  /**
   * On in-period clocks the offset determines period, minutes and seconds:
   * two plays share an offset exactly when they share all three.
   */
  lemma ElapsedInjective(p1: int, t1: string, p2: int, t2: string)
    requires WellFormed(t1) && Minutes(t1) < PeriodMinutes && Seconds(t1) < SecondsPerMinute
    requires WellFormed(t2) && Minutes(t2) < PeriodMinutes && Seconds(t2) < SecondsPerMinute
    ensures ElapsedSeconds(p1, t1) == ElapsedSeconds(p2, t2)
            <==> p1 == p2 && Minutes(t1) == Minutes(t2) && Seconds(t1) == Seconds(t2)
  {
    PeriodWindow(p1, t1);
    PeriodWindow(p2, t2);
    if p1 < p2 {
      assert p1 * PeriodSeconds <= (p2 - 1) * PeriodSeconds;
    } else if p2 < p1 {
      assert p2 * PeriodSeconds <= (p1 - 1) * PeriodSeconds;
    } else if Minutes(t1) != Minutes(t2) {
      if Minutes(t1) < Minutes(t2) {
        LaterClockLaterOffset(p1, t1, t2);
      } else {
        LaterClockLaterOffset(p1, t2, t1);
      }
    }
  }

  /** The canonical "MM:SS" rendering of a clock reading below 100 minutes and 100 seconds. */
  function FormatClock(m: nat, s: nat): (t: string)
    requires m < 100 && s < 100
    ensures |t| == 5 && t[2] == ':' && WellFormed(t)
  {
    [DigitChar(m / 10), DigitChar(m % 10), ':', DigitChar(s / 10), DigitChar(s % 10)]
  }

  /** Canonical clock text: exactly two digits, a colon, two digits. */
  predicate Canonical(t: string) {
    |t| == 5 && IsDigit(t[0]) && IsDigit(t[1]) && t[2] == ':' && IsDigit(t[3]) && IsDigit(t[4])
  }

  lemma TwoDigitsValue(s: string)
    requires |s| == 2 && AllDigits(s)
    ensures DigitsValue(s) == 10 * DigitValue(s[0]) + DigitValue(s[1])
  {
    assert s[..1][..0] == [];
    assert DigitsValue(s[..1]) == DigitValue(s[0]);
  }

  /** Reading back a formatted clock gives the minutes and seconds it was made from. */
  lemma ParseFormat(m: nat, s: nat)
    requires m < 100 && s < 100
    ensures Minutes(FormatClock(m, s)) == m && Seconds(FormatClock(m, s)) == s
  {
    var t := FormatClock(m, s);
    TwoDigitsValue(t[3..]);
  }

  /** Formatting what was read from canonical clock text gives that text back. */
  lemma FormatParse(t: string)
    requires Canonical(t)
    ensures WellFormed(t) && Minutes(t) < 100 && Seconds(t) < 100
    ensures FormatClock(Minutes(t), Seconds(t)) == t
  {
    TwoDigitsValue(t[3..]);
    var m, s := Minutes(t), Seconds(t);
    assert DigitChar(m / 10) == t[0] && DigitChar(m % 10) == t[1];
    assert DigitChar(s / 10) == t[3] && DigitChar(s % 10) == t[4];
  }
}
