/** The "Total downtime" text of the closing note: the whole seconds between
    the correlation record's creation and now, written `[D days, ]HH:MM:SS`. */
module Downtime {
  import opened Optional
  import opened Text
  import opened Decimal


  function Abs(x: int): nat
  {
    if x < 0 then -x else x
  }

  /** `n.toString().padStart(2, 0)`. */
  function TwoDigits(n: nat): string
  {
    PadStart(NatToString(n), 2, '0')
  }

  /** `HH:MM:SS`, each field padded to two digits. */
  function Clock(h: nat, m: nat, sec: nat): string
  {
    TwoDigits(h) + ":" + TwoDigits(m) + ":" + TwoDigits(sec)
  }

  /** The downtime text of `d` seconds: whole days (only when there is at least
      one) and the hours, minutes and seconds of the day that remain. */
  function DowntimeText(d: nat): string
  {
    var rest := d % 86400;
    DowntimeOf(d / 86400, Clock(rest / 3600, rest % 3600 / 60, rest % 60))
  }

  /** The text of a day count and a clock; the day count is left out when it is zero. */
  function DowntimeOf(days: nat, clock: string): string
  {
    if days != 0 then NatToString(days) + DaysSeparator + clock else clock
  }

  /** The closing-note computation as the handler performs it: the day, hour
      and minute parts are taken off the difference one after another. */
  method FormatDowntime(now: int, downSince: int) returns (text: string)
    ensures text == DowntimeText(Abs(now - downSince))
  {
    var diff: int := Abs(now - downSince);
    ghost var d: nat := diff;
    ghost var rest: nat := d % 86400;
    var days := diff / 86400;
    diff := diff - days * 86400;
    DayRemainder(d);
    assert diff == rest;
    var hours := (diff / 3600) % 24;
    diff := diff - hours * 3600;
    HourRemainder(rest);
    assert hours == rest / 3600 && diff == rest % 3600;
    var minutes := (diff / 60) % 60;
    diff := diff - minutes * 60;
    MinuteRemainder(rest);
    assert minutes == rest % 3600 / 60 && diff == rest % 60;
    var seconds := diff % 60;
    assert seconds == rest % 60;
    text := Clock(hours, minutes, seconds);
    if days != 0 {
      text := NatToString(days) + DaysSeparator + text;
    }
  }

  lemma DayRemainder(d: nat)
    ensures d - d / 86400 * 86400 == d % 86400
  {
  }

  lemma HourRemainder(rest: nat)
    requires rest < 86400
    ensures rest / 3600 % 24 == rest / 3600
    ensures rest - rest / 3600 * 3600 == rest % 3600
  {
  }

  lemma MinuteRemainder(rest: nat)
    requires rest < 86400
    ensures rest % 3600 / 60 % 60 == rest % 3600 / 60
    ensures rest % 3600 - rest % 3600 / 60 * 60 == rest % 60
    ensures rest % 60 % 60 == rest % 60
  {
    assert rest == rest / 3600 * 3600 + rest % 3600;
  }

  // ---------------------------------------------------------------------
  // Reading a downtime text back

  /** The value of two decimal digits. */
  function PairValue(tens: char, ones: char): nat
    requires IsDigit(tens) && IsDigit(ones)
  {
    DigitValue(tens) * 10 + DigitValue(ones)
  }

  /** The seconds of an `HH:MM:SS` clock, each field two digits and in range. */
  function ParseClock(s: string): Option<nat>
  {
    if |s| != 8 || s[2] != ':' || s[5] != ':' then None
    else if !(IsDigit(s[0]) && IsDigit(s[1]) && IsDigit(s[3]) && IsDigit(s[4]) && IsDigit(s[6]) && IsDigit(s[7])) then None
    else
      var h, m, sec := PairValue(s[0], s[1]), PairValue(s[3], s[4]), PairValue(s[6], s[7]);
      if h < 24 && m < 60 && sec < 60 then Some(h * 3600 + m * 60 + sec) else None
  }

  const DaysSeparator: string := " days, "

  /** The number of seconds a downtime text stands for. */
  function ParseDowntime(t: string): Option<nat>
  {
    if |t| < 8 then None
    else
      var head := t[..|t| - 8];
      match ParseClock(t[|t| - 8..])
      case None => None
      case Some(c) =>
        if head == [] then Some(c)
        else if |head| > |DaysSeparator| && head[|head| - |DaysSeparator|..] == DaysSeparator then
          match ParseNat(head[..|head| - |DaysSeparator|])
          case None => None
          case Some(days) => Some(days * 86400 + c)
        else None
  }

  /** A number below 100 pads to its tens digit and its ones digit. */
  lemma TwoDigitsDigits(n: nat)
    requires n < 100
    ensures TwoDigits(n) == [DigitChar(n / 10), DigitChar(n % 10)]
  {
    if n >= 10 {
      assert NatToString(n / 10) == [DigitChar(n / 10)];
    }
  }

  lemma PairValueOfDigits(n: nat)
    requires n < 100
    ensures PairValue(DigitChar(n / 10), DigitChar(n % 10)) == n
  {
    DigitValueOfChar(n / 10);
    DigitValueOfChar(n % 10);
  }

  /** A number below 100 pads to two digits whose value is the number. */
  lemma TwoDigitsValue(n: nat)
    requires n < 100
    ensures var t := TwoDigits(n);
            |t| == 2 && IsDigit(t[0]) && IsDigit(t[1]) && PairValue(t[0], t[1]) == n
  {
    TwoDigitsDigits(n);
    PairValueOfDigits(n);
  }

  lemma ClockRoundTrip(h: nat, m: nat, sec: nat)
    requires h < 24 && m < 60 && sec < 60
    ensures |Clock(h, m, sec)| == 8
    ensures ParseClock(Clock(h, m, sec)) == Some(h * 3600 + m * 60 + sec)
  {
    TwoDigitsValue(h);
    TwoDigitsValue(m);
    TwoDigitsValue(sec);
    ParseClockOfPairs(TwoDigits(h), TwoDigits(m), TwoDigits(sec));
  }

  /** Three two-digit fields joined by colons read as their values. */
  lemma ParseClockOfPairs(a: string, b: string, c: string)
    requires |a| == 2 && IsDigit(a[0]) && IsDigit(a[1]) && PairValue(a[0], a[1]) < 24
    requires |b| == 2 && IsDigit(b[0]) && IsDigit(b[1]) && PairValue(b[0], b[1]) < 60
    requires |c| == 2 && IsDigit(c[0]) && IsDigit(c[1]) && PairValue(c[0], c[1]) < 60
    ensures |a + ":" + b + ":" + c| == 8
    ensures ParseClock(a + ":" + b + ":" + c)
              == Some(PairValue(a[0], a[1]) * 3600 + PairValue(b[0], b[1]) * 60 + PairValue(c[0], c[1]))
  {
    var s := a + ":" + b + ":" + c;
    assert s[0] == a[0] && s[1] == a[1] && s[2] == ':';
    assert s[3] == b[0] && s[4] == b[1] && s[5] == ':';
    assert s[6] == c[0] && s[7] == c[1];
  }

  /** A clock alone reads as its own seconds. */
  lemma ParseDowntimeClock(clock: string)
    requires |clock| == 8
    ensures ParseDowntime(clock) == ParseClock(clock)
  {
    assert clock[..0] == [] && clock[0..] == clock;
  }

  /** A day count, the separator and a clock read as the days' seconds plus the clock's. */
  lemma ParseDowntimeDays(days: nat, clock: string, c: nat)
    requires |clock| == 8 && ParseClock(clock) == Some(c)
    ensures ParseDowntime(NatToString(days) + DaysSeparator + clock) == Some(days * 86400 + c)
  {
    var head := NatToString(days) + DaysSeparator;
    var t := head + clock;
    assert t[..|t| - 8] == head && t[|t| - 8..] == clock;
    assert head[|head| - |DaysSeparator|..] == DaysSeparator;
    assert head[..|head| - |DaysSeparator|] == NatToString(days);
    ParseNatToString(days);
  }

  /** Every downtime text reads back as the number of seconds it was made from. */
  lemma DowntimeRoundTrip(d: nat)
    ensures ParseDowntime(DowntimeText(d)) == Some(d)
  {
    var rest := d % 86400;
    var days, h, m, sec := d / 86400, rest / 3600, rest % 3600 / 60, rest % 60;
    DayParts(d);
    assert d == days * 86400 + (h * 3600 + m * 60 + sec);
    ClockRoundTrip(h, m, sec);
    PartsRoundTrip(days, Clock(h, m, sec), h * 3600 + m * 60 + sec);
  }

  /** A day count and a clock read back as the days' seconds plus the clock's. */
  lemma PartsRoundTrip(days: nat, clock: string, c: nat)
    requires |clock| == 8 && ParseClock(clock) == Some(c)
    ensures ParseDowntime(DowntimeOf(days, clock)) == Some(days * 86400 + c)
  {
    if days != 0 {
      ParseDowntimeDays(days, clock, c);
    } else {
      ParseDowntimeClock(clock);
    }
  }

  /** A number of seconds is its days, hours, minutes and seconds put back together. */
  lemma DayParts(d: nat)
    ensures var rest := d % 86400;
      && d == d / 86400 * 86400 + rest
      && rest == rest / 3600 * 3600 + rest % 3600 / 60 * 60 + rest % 60
      && rest / 3600 < 24 && rest % 3600 / 60 < 60
  {
    var rest := d % 86400;
    assert rest % 3600 == rest % 3600 / 60 * 60 + rest % 3600 % 60;
    assert rest % 3600 % 60 == rest % 60;
  }

  /** Different downtimes never read the same. */
  lemma DowntimeTextInjective(a: nat, b: nat)
    requires DowntimeText(a) == DowntimeText(b)
    ensures a == b
  {
    DowntimeRoundTrip(a);
    DowntimeRoundTrip(b);
  }

  /** A downtime of a day, an hour, a minute and a second. */
  lemma DowntimeExampleDays()
    ensures DowntimeText(90061) == "1 days, 01:01:01"
  {
    assert 90061 / 86400 == 1 && 90061 % 86400 == 3661;
    assert 3661 / 3600 == 1 && 3661 % 3600 == 61 && 3661 % 60 == 1;
    assert 61 / 60 == 1;
    assert TwoDigits(1) == "01" by { TwoDigitsDigits(1); }
    assert Clock(1, 1, 1) == "01:01:01";
    assert DowntimeText(90061) == DowntimeOf(1, "01:01:01");
    assert NatToString(1) == "1";
  }

  /** A downtime under a day has no day count. */
  lemma DowntimeExampleClock()
    ensures DowntimeText(61) == "00:01:01"
  {
    assert TwoDigits(0) == "00" by { TwoDigitsDigits(0); }
    assert TwoDigits(1) == "01" by { TwoDigitsDigits(1); }
    assert Clock(0, 1, 1) == "00:01:01";
    assert 61 / 86400 == 0 && 61 % 86400 == 61 && 61 / 3600 == 0 && 61 % 3600 == 61;
    assert 61 / 60 == 1 && 61 % 60 == 1;
    assert DowntimeText(61) == DowntimeOf(0, "00:01:01");
  }
}
