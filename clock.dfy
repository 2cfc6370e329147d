/** A Clock owns three TimeUnits (hours 24, minutes 60, seconds 60) and
    carries a wrap-around of one unit into the next within the same update.
    The Java and C++ versions update and display alike. Java creates the
    three units in field initialisers and C++ allocates them with new in
    the constructor; either way the clock owns three fresh units. */
module Clocks {
  import opened Decimal
  import opened TimeUnits

  /** A reading of the three units. */
  datatype Time = Time(hours: int, minutes: int, seconds: int)

  predicate InRange(t: Time) {
    0 <= t.hours < 24 && 0 <= t.minutes < 60 && 0 <= t.seconds < 60
  }

  /** One clock update: seconds always advance; minutes advance only when
      seconds wrapped, hours only when minutes wrapped too. */
  function Step(t: Time): (u: Time)
    requires InRange(t)
    ensures InRange(u)
  {
    var s := Tick(t.seconds, 60);
    var m := if s == 0 then Tick(t.minutes, 60) else t.minutes;
    var h := if s == 0 && m == 0 then Tick(t.hours, 24) else t.hours;
    Time(h, m, s)
  }

  /** Every update advances the seconds; the minutes advance exactly when the
      seconds wrapped, the hours exactly when the minutes wrapped as well, and
      an hours wrap carries nowhere: the clock is back at midnight. */
  lemma StepCarries(t: Time)
    requires InRange(t)
    ensures Step(t).seconds != t.seconds
    ensures Step(t).minutes != t.minutes <==> t.seconds == 59
    ensures Step(t).hours != t.hours <==> t.seconds == 59 && t.minutes == 59
    ensures Step(t).hours < t.hours ==> Step(t) == Time(0, 0, 0)
  {
  }

  /** The position of a reading within the day, in seconds. */
  function SecondOfDay(t: Time): int {
    t.hours * 3600 + t.minutes * 60 + t.seconds
  }

  function FromSecondOfDay(k: int): Time
    requires 0 <= k < 86400
  {
    Time(k / 3600, k / 60 % 60, k % 60)
  }

  lemma SecondOfDayRoundTrip(t: Time)
    requires InRange(t)
    ensures 0 <= SecondOfDay(t) < 86400
    ensures FromSecondOfDay(SecondOfDay(t)) == t
  {
    var k := SecondOfDay(t);
    DivModUnique(k, 3600, t.hours, t.minutes * 60 + t.seconds);
    DivModUnique(k, 60, t.hours * 60 + t.minutes, t.seconds);
    DivModUnique(t.hours * 60 + t.minutes, 60, t.hours, t.minutes);
  }

  lemma FromSecondOfDayRoundTrip(k: int)
    requires 0 <= k < 86400
    ensures InRange(FromSecondOfDay(k)) && SecondOfDay(FromSecondOfDay(k)) == k
  {
    var a, s := k / 60, k % 60;
    assert k == 60 * a + s;
    var h, m := a / 60, a % 60;
    assert a == 60 * h + m;
    assert k == 3600 * h + (60 * m + s);
    DivModUnique(k, 3600, h, 60 * m + s);
  }

  /** An update moves the clock one second forward, modulo a day. */
  lemma StepIsOneSecond(t: Time)
    requires InRange(t)
    ensures SecondOfDay(Step(t)) == (SecondOfDay(t) + 1) % 86400
  {
    var k := SecondOfDay(t);
    if t.seconds < 59 || t.minutes < 59 || t.hours < 23 {
      assert SecondOfDay(Step(t)) == k + 1;
      DivModUnique(k + 1, 86400, 0, k + 1);
    } else {
      assert k + 1 == 86400;
      DivModUnique(k + 1, 86400, 1, 0);
    }
  }

  /** The reading of a fresh clock after n updates. */
  function TimeAfter(n: nat): (t: Time)
    ensures InRange(t)
  {
    if n == 0 then Time(0, 0, 0) else Step(TimeAfter(n - 1))
  }

  lemma StepFromSecondOfDay(k: int)
    requires 0 <= k < 86400
    ensures Step(FromSecondOfDay(k)) == FromSecondOfDay((k + 1) % 86400)
  {
    var t := FromSecondOfDay(k);
    FromSecondOfDayRoundTrip(k);
    StepIsOneSecond(t);
    SecondOfDayRoundTrip(Step(t));
  }

  lemma {:induction false} TimeAfterIsSecondOfDay(n: nat)
    ensures TimeAfter(n) == FromSecondOfDay(n % 86400)
  {
    if n > 0 {
      var k := (n - 1) % 86400;
      TimeAfterIsSecondOfDay(n - 1);
      StepFromSecondOfDay(k);
      ModSucc(n - 1, 86400);
      assert (k + 1) % 86400 == n % 86400;
      assert TimeAfter(n) == Step(FromSecondOfDay(k));
    }
  }

  /** After n updates: seconds n mod 60, minutes (n div 60) mod 60,
      hours (n div 3600) mod 24. */
  lemma TimeAfterClosedForm(n: nat)
    ensures TimeAfter(n) == Time(n / 3600 % 24, n / 60 % 60, n % 60)
  {
    TimeAfterIsSecondOfDay(n);
    var a, k := n / 86400, n % 86400;
    assert n == 86400 * a + k;
    DivModUnique(n, 3600, 24 * a + k / 3600, k % 3600);
    DivModUnique(n / 3600, 24, a, k / 3600);
    DivModUnique(n, 60, 1440 * a + k / 60, k % 60);
    DivModUnique(n / 60, 60, 24 * a + k / 60 / 60, k / 60 % 60);
  }

  /** A day of updates brings the clock back to where it was. */
  lemma TimeAfterPeriodic(n: nat)
    ensures TimeAfter(n + 86400) == TimeAfter(n)
  {
    TimeAfterIsSecondOfDay(n);
    TimeAfterIsSecondOfDay(n + 86400);
    DivModUnique(n + 86400, 86400, n / 86400 + 1, n % 86400);
  }

  /** The displayed line: hours ":" minutes "." seconds, two digits each. */
  function Show(t: Time): (line: string)
    requires InRange(t)
    ensures |line| >= 8
  {
    ZeroPadded(t.hours, 2) + ":" + ZeroPadded(t.minutes, 2) + "." + ZeroPadded(t.seconds, 2)
  }

  /** A displayed line has the fixed HH:MM.SS shape, and reading its three
      numbers back gives the reading it was made from. */
  lemma ShowReadsBack(t: Time)
    requires InRange(t)
    ensures |Show(t)| == 8 && Show(t)[2] == ':' && Show(t)[5] == '.'
    ensures IsReading(Show(t)) && ReadBack(Show(t)) == t
  {
    var h, m, s := ZeroPadded(t.hours, 2), ZeroPadded(t.minutes, 2), ZeroPadded(t.seconds, 2);
    ZeroPaddedReadsBack(t.hours, 2);
    ZeroPaddedReadsBack(t.minutes, 2);
    ZeroPaddedReadsBack(t.seconds, 2);
    var line := Show(t);
    assert line[..2] == h && line[3..5] == m && line[6..] == s;
  }

  predicate IsReading(line: string) {
    |line| == 8 && AllDigits(line[..2]) && AllDigits(line[3..5]) && AllDigits(line[6..])
  }

  /** Reads the three numbers back out of a displayed line. */
  function ReadBack(line: string): Time
    requires IsReading(line)
  {
    Time(DigitsValue(line[..2]), DigitsValue(line[3..5]), DigitsValue(line[6..]))
  }

  /** Each field of a displayed line is its tens digit then its units digit. */
  lemma ShowDigits(t: Time)
    requires InRange(t)
    ensures Show(t) == [DigitChar(t.hours / 10), DigitChar(t.hours % 10), ':',
                        DigitChar(t.minutes / 10), DigitChar(t.minutes % 10), '.',
                        DigitChar(t.seconds / 10), DigitChar(t.seconds % 10)]
  {
    TwoDigits(t.hours);
    TwoDigits(t.minutes);
    TwoDigits(t.seconds);
  }

  /** The driver's last line: 10 updates (or that plus whole days) show "00:00.10". */
  lemma ShowAfterTen(n: nat)
    requires n % 86400 == 10
    ensures Show(TimeAfter(n)) == "00:00.10"
  {
    var t := TimeAfter(n);
    TimeAfterIsSecondOfDay(n);
    assert t.hours == 0 && t.minutes == 0 && t.seconds == 10;
    ShowDigits(t);
  }

  /** 59 updates (plus any whole number of days) show "00:00.59". */
  lemma ShowAfter59(n: nat)
    requires n % 86400 == 59
    ensures Show(TimeAfter(n)) == "00:00.59"
  {
    var t := TimeAfter(n);
    TimeAfterIsSecondOfDay(n);
    assert t.hours == 0 && t.minutes == 0 && t.seconds == 59;
    ShowDigits(t);
  }

  /** 60 updates: the seconds have carried into the minutes, "00:01.00". */
  lemma ShowAfter60(n: nat)
    requires n % 86400 == 60
    ensures Show(TimeAfter(n)) == "00:01.00"
  {
    var t := TimeAfter(n);
    TimeAfterIsSecondOfDay(n);
    assert t.hours == 0 && t.minutes == 1 && t.seconds == 0;
    ShowDigits(t);
  }

  /** 3600 updates: the carry has reached the hours, "01:00.00". */
  lemma ShowAfter3600(n: nat)
    requires n % 86400 == 3600
    ensures Show(TimeAfter(n)) == "01:00.00"
  {
    var t := TimeAfter(n);
    TimeAfterIsSecondOfDay(n);
    assert t.hours == 1 && t.minutes == 0 && t.seconds == 0;
    ShowDigits(t);
  }

  /** Any whole number of days of updates (86400 each) shows "00:00.00" again. */
  lemma ShowAfterWholeDays(n: nat)
    requires n % 86400 == 0
    ensures Show(TimeAfter(n)) == "00:00.00"
  {
    var t := TimeAfter(n);
    TimeAfterIsSecondOfDay(n);
    assert t.hours == 0 && t.minutes == 0 && t.seconds == 0;
    ShowDigits(t);
  }

  class Clock {
    const hours: TimeUnit
    const minutes: TimeUnit
    const seconds: TimeUnit

    ghost predicate Valid()
      reads hours, minutes, seconds
    {
      && hours != minutes && minutes != seconds && hours != seconds
      && hours.Valid() && minutes.Valid() && seconds.Valid()
      && hours.limit == 24 && minutes.limit == 60 && seconds.limit == 60
    }

    ghost function Reading(): (t: Time)
      reads hours, minutes, seconds
      requires Valid()
      ensures InRange(t)
    {
      Time(hours.value, minutes.value, seconds.value)
    }

    constructor ()
      ensures Valid() && Reading() == Time(0, 0, 0)
      ensures fresh(hours) && fresh(minutes) && fresh(seconds)
      ensures hours.unit == "h" && minutes.unit == "m" && seconds.unit == "s"
    {
      hours := new TimeUnit(24, "h");
      minutes := new TimeUnit(60, "m");
      seconds := new TimeUnit(60, "s");
    }

    /** The cascading carry. */
    method Update()
      requires Valid()
      modifies hours`value, minutes`value, seconds`value
      ensures Valid()
      ensures Reading() == Step(old(Reading()))
    {
      var secondsWrapped := seconds.Update();
      if secondsWrapped {
        var minutesWrapped := minutes.Update();
        if minutesWrapped {
          var _ := hours.Update();
        }
      }
    }

    /** The line display() prints; reading it changes no unit. */
    function Display(): (line: string)
      reads hours, minutes, seconds
      requires Valid()
      ensures |line| == 8 && line[2] == ':' && line[5] == '.'
      ensures IsReading(line) && ReadBack(line) == Reading()
      ensures line == Show(Reading())
    {
      var line := hours.GetDisplayValue() + ":" + minutes.GetDisplayValue() + "." + seconds.GetDisplayValue();
      ShowReadsBack(Reading());
      line
    }
  }

  /** The driver: ten rounds of update and display on a fresh clock. */
  method Drive() returns (lines: seq<string>)
    ensures |lines| == 10
    ensures forall i :: 0 <= i < 10 ==> lines[i] == Show(TimeAfter(i + 1))
    ensures lines[9] == "00:00.10"
  {
    var clock := new Clock();
    lines := [];
    for i := 0 to 10
      invariant fresh(clock.hours) && fresh(clock.minutes) && fresh(clock.seconds)
      invariant clock.Valid() && clock.Reading() == TimeAfter(i)
      invariant |lines| == i
      invariant forall j :: 0 <= j < i ==> lines[j] == Show(TimeAfter(j + 1))
    {
      clock.Update();
      lines := lines + [clock.Display()];
    }
    DivModUnique(|lines|, 86400, 0, 10);
    ShowAfterTen(|lines|);
  }
}
