/** The countdown shown above the leaderboard. Both timer components
    (src/components/leaderboard/NewCountdownTimer.tsx and
    src/components/leaderboard/CountdownTimer.tsx) run the same once-a-second
    updater over a days/hours/minutes/seconds record and use the same
    `formatNumber`; they differ only in their default start values and in
    their markup, which is not modelled. */
module Countdown {
  import JsText

  datatype Time = Time(days: int, hours: int, minutes: int, seconds: int)

  /** The defaults of NewCountdownTimer: 25 days, 6 h, 45 min, 1 s. */
  const NewTimerStart: Time := Time(25, 6, 45, 1)

  /** The defaults of CountdownTimer: 25 days, 16 h, 29 min, 22 s. */
  const ClassicTimerStart: Time := Time(25, 16, 29, 22)

  /** The state every display value stays in: days 0 to 30. */
  predicate InRange(t: Time) {
    0 <= t.days <= 30 && 0 <= t.hours <= 23 && 0 <= t.minutes <= 59 && 0 <= t.seconds <= 59
  }

  /** The whole time left, in seconds. */
  function Total(t: Time): int {
    t.days * 86400 + t.hours * 3600 + t.minutes * 60 + t.seconds
  }

  const Zero: Time := Time(0, 0, 0, 0)

  /** The updater: take one second, borrowing from the next unit up whenever
      a unit drops below zero; days below zero restart at 30, so the timer
      never stops. */
  method Tick(prev: Time) returns (next: Time)
    ensures InRange(prev) ==> InRange(next)
    ensures InRange(prev) && prev != Zero ==> Total(next) == Total(prev) - 1
    ensures prev == Zero ==> next == Time(30, 23, 59, 59)
  {
    var days, hours, minutes, seconds := prev.days, prev.hours, prev.minutes, prev.seconds;
    seconds := seconds - 1;
    if seconds < 0 {
      seconds := 59;
      minutes := minutes - 1;
    }
    if minutes < 0 {
      minutes := 59;
      hours := hours - 1;
    }
    if hours < 0 {
      hours := 23;
      days := days - 1;
    }
    if days < 0 {
      days := 30;
    }
    next := Time(days, hours, minutes, seconds);
  }

  /** In range, the total alone fixes the display: no two displays show the
      same time left. */
  lemma TotalDetermines(a: Time, b: Time)
    requires InRange(a) && InRange(b) && Total(a) == Total(b)
    ensures a == b
  {
    var ra, rb := a.hours * 3600 + a.minutes * 60 + a.seconds, b.hours * 3600 + b.minutes * 60 + b.seconds;
    assert 0 <= ra < 86400 && 0 <= rb < 86400;
    assert (a.days - b.days) * 86400 == rb - ra;
    assert a.days == b.days;
    var ma, mb := a.minutes * 60 + a.seconds, b.minutes * 60 + b.seconds;
    assert 0 <= ma < 3600 && 0 <= mb < 3600;
    assert (a.hours - b.hours) * 3600 == mb - ma;
    assert a.hours == b.hours;
    assert (a.minutes - b.minutes) * 60 == b.seconds - a.seconds;
    assert a.minutes == b.minutes;
  }

  /** NewCountdownTimer starts in range, and therefore counts down one
      second per tick, from 2184301 seconds. */
  lemma NewStartInRange()
    ensures InRange(NewTimerStart) && Total(NewTimerStart) == 2184301
  {
  }

  /** CountdownTimer starts in range too, from 2219362 seconds. */
  lemma ClassicStartInRange()
    ensures InRange(ClassicTimerStart) && Total(ClassicTimerStart) == 2219362
  {
  }

  /** `num.toString().padStart(2, '0')`: at least two characters, ending in
      the number's own text, and that text alone once it has two or more. */
  function FormatNumber(n: int): (s: string)
    ensures |s| >= 2 && |s| >= |JsText.IntToString(n)|
    ensures s[|s| - |JsText.IntToString(n)|..] == JsText.IntToString(n)
    ensures |JsText.IntToString(n)| >= 2 ==> s == JsText.IntToString(n)
  {
    JsText.PadStart(JsText.IntToString(n), 2, '0')
  }

  /** A value from 0 to 99 shows as exactly two decimal digits, which read
      back as the value. */
  lemma FormatNumberTwoDigits(n: int)
    requires 0 <= n <= 99
    ensures |FormatNumber(n)| == 2 && JsText.AllDigits(FormatNumber(n))
    ensures JsText.DecimalValue(FormatNumber(n)) == n
  {
    var digits := JsText.NatToString(n);
    JsText.NatToStringRoundTrip(n);
    if n < 10 {
      var s := FormatNumber(n);
      assert s == ['0'] + digits;
      assert s[..|s| - 1] == ['0'];
    } else {
      JsText.NatToStringTwoDigits(n);
    }
  }
}
