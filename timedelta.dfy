/**
 * `str(datetime.timedelta(seconds=n))` for a whole number of seconds: `H:MM:SS`,
 * preceded by `"D day, "` / `"D days, "` when the value does not fit in one day.
 */
module Timedelta {
  import opened Wrappers
  import opened Decimal
  import Strings

  const SecondsPerDay: nat := 86400

  /** The `"%d:%02d:%02d"` clock part for a second of the day. */
  function Clock(secs: nat): string
    requires secs < SecondsPerDay
  {
    NatToDecimal(secs / 3600) + ":" + TwoDigits(secs % 3600 / 60) + ":" + TwoDigits(secs % 60)
  }

  /**
   * `timedelta` normalises `n` seconds to `days = n // 86400` and `seconds = n % 86400`
   * (floor division, which is Dafny's `/` and `%` for a positive divisor); `__str__`
   * prints the clock and, when `days != 0`, a day count in front of it.
   */
  function Str(n: int): string {
    var days := n / SecondsPerDay;
    var clock := Clock(n % SecondsPerDay);
    if days == 0 then clock
    else IntToDecimal(days) + " day" + (if days == 1 || days == -1 then "" else "s") + ", " + clock
  }

  /** Reads an `H:MM:SS` clock back: unpadded hours, then two-digit minutes and seconds below 60. */
  function ParseClock(s: string): Option<nat> {
    if |s| >= 7 && s[|s| - 6] == ':' && s[|s| - 3] == ':'
       && AllDigits(s[..|s| - 6]) && AllDigits(s[|s| - 5..|s| - 3]) && AllDigits(s[|s| - 2..])
    then
      var h, m, sec := DigitsValue(s[..|s| - 6]), DigitsValue(s[|s| - 5..|s| - 3]), DigitsValue(s[|s| - 2..]);
      if m < 60 && sec < 60 then Some(h * 3600 + m * 60 + sec) else None
    else
      None
  }

  /** The three fields of a clock string are read back from their fixed positions. */
  lemma ParseClockFields(hs: string, m: nat, sec: nat)
    requires |hs| >= 1 && AllDigits(hs) && m < 60 && sec < 60
    ensures var s := hs + ":" + TwoDigits(m) + ":" + TwoDigits(sec);
      && |s| >= 7 && s[..|s| - 6] == hs && s[|s| - 6] == ':' && s[|s| - 3] == ':'
      && s[|s| - 5..|s| - 3] == TwoDigits(m) && s[|s| - 2..] == TwoDigits(sec)
      && ParseClock(s) == Some(DigitsValue(hs) * 3600 + m * 60 + sec)
  {
    var s := hs + ":" + TwoDigits(m) + ":" + TwoDigits(sec);
    assert s[..|s| - 6] == hs;
    assert s[|s| - 5..|s| - 3] == TwoDigits(m);
    assert s[|s| - 2..] == TwoDigits(sec);
  }

  lemma ClockArithmetic(n: nat)
    requires n < SecondsPerDay
    ensures n / 3600 < 24 && n % 3600 / 60 < 60
    ensures n / 3600 * 3600 + n % 3600 / 60 * 60 + n % 60 == n
  {
    assert n % 3600 == n % 3600 / 60 * 60 + n % 3600 % 60;
    assert n % 3600 % 60 == n % 60;
  }

  /**
   * Within a day the string is exactly the clock: hours without padding (below 24),
   * then minutes and seconds as two digits each below 60.
   */
  lemma ClockShape(n: int)
    requires 0 <= n < SecondsPerDay
    ensures var s := Str(n);
      && |s| >= 7 && s[..|s| - 6] == NatToDecimal(n / 3600) && n / 3600 < 24
      && s[|s| - 6] == ':' && s[|s| - 3] == ':'
      && DigitsValue(s[|s| - 5..|s| - 3]) < 60 && DigitsValue(s[|s| - 2..]) < 60
  {
    StrWithinDay(n);
    ClockArithmetic(n);
    ParseClockFields(NatToDecimal(n / 3600), n % 3600 / 60, n % 60);
  }

  /** Within a day the string reads back as the same number of seconds. */
  lemma ClockRoundTrip(n: int)
    requires 0 <= n < SecondsPerDay
    ensures ParseClock(Str(n)) == Some(n)
  {
    StrWithinDay(n);
    ClockArithmetic(n);
    ParseClockFields(NatToDecimal(n / 3600), n % 3600 / 60, n % 60);
  }

  lemma StrWithinDay(n: int)
    requires 0 <= n < SecondsPerDay
    ensures Str(n) == Clock(n)
  {
    assert n / SecondsPerDay == 0 && n % SecondsPerDay == n;
  }

  /** Outside one day the day count comes first. */
  lemma DayPrefix(n: int)
    requires n < 0 || n >= SecondsPerDay
    ensures Strings.StartsWith(Str(n), IntToDecimal(n / SecondsPerDay) + " day")
  {
    var days := n / SecondsPerDay;
    DaysOutsideOneDay(n);
    var p := IntToDecimal(days) + " day";
    var plural := if days == 1 || days == -1 then "" else "s";
    var clock := Clock(n % SecondsPerDay);
    assert Str(n) == p + plural + ", " + clock;
    PrefixExtended(p, plural + ", ", clock);
  }

  /** A prefix of `p + t` stays a prefix when more text is appended. */
  lemma PrefixExtended(p: string, t: string, u: string)
    ensures Strings.StartsWith(p + t + u, p)
  {
    assert (p + t + u)[..|p|] == p;
  }

  lemma DaysOutsideOneDay(n: int)
    requires n < 0 || n >= SecondsPerDay
    ensures n / SecondsPerDay != 0
  {
    var days, secs := n / SecondsPerDay, n % SecondsPerDay;
    assert n == days * SecondsPerDay + secs && 0 <= secs < SecondsPerDay;
  }

  /** The text never contains a line break. */
  lemma NoNewline(n: int)
    ensures '\n' !in Str(n)
  {
    var days := n / SecondsPerDay;
    var secs := n % SecondsPerDay;
    var clock := Clock(secs);
    DigitsHaveNoNewline(NatToDecimal(secs / 3600));
    DigitsHaveNoNewline(TwoDigits(secs % 3600 / 60));
    DigitsHaveNoNewline(TwoDigits(secs % 60));
    assert '\n' !in clock;
    if days != 0 {
      DigitsHaveNoNewline(NatToDecimal(if days < 0 then -days else days));
      assert '\n' !in IntToDecimal(days);
    }
  }

  lemma DigitsHaveNoNewline(s: string)
    requires AllDigits(s)
    ensures '\n' !in s
  {
  }
}
