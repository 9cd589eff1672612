/** The sun cycle of Lightly: sunrise, sunset and the current time of day turned into
    positions in [0, 1) along the day, the horizontal offset that puts solar noon at 0.25,
    and the height of the twilight line on the sine-shaped sun path. */
module SunCycleModel {
  import opened JavaLang

  /** The fields of an instant that `java.util.Calendar` reports in the default time zone. */
  datatype Clock = Clock(hour: int, minute: int, second: int)

  /** HOUR_OF_DAY is always 0..23, MINUTE and SECOND 0..59. */
  type TimeOfDay = c: Clock | 0 <= c.hour < 24 && 0 <= c.minute < 60 && 0 <= c.second < 60
    witness Clock(0, 0, 0)

  /** A position along the day: 0 is midnight, 0.5 is noon, 1 is the next midnight. */
  predicate InUnit(x: real) {
    0.0 <= x < 1.0
  }

  /** The whole minutes elapsed since midnight. */
  function MinuteOfDay(t: TimeOfDay): nat {
    t.hour * 60 + t.minute
  }

  /** getScaledTime: the fraction of the day elapsed at t, counted in whole minutes. */
  function ScaledTime(t: TimeOfDay): (r: real)
    ensures InUnit(r)
    ensures r * 1440.0 == MinuteOfDay(t) as real
  {
    t.hour as real / 24.0 + t.minute as real / (60.0 * 24.0)
  }

  /** Positions follow the clock: an earlier hour:minute is an earlier position, and back. */
  lemma ScaledTimeOrder(t1: TimeOfDay, t2: TimeOfDay)
    ensures ScaledTime(t1) < ScaledTime(t2)
        <==> t1.hour < t2.hour || (t1.hour == t2.hour && t1.minute < t2.minute)
  {
  }

  /** Two times share a position exactly when they share hour and minute: seconds are dropped. */
  lemma ScaledTimeInjective(t1: TimeOfDay, t2: TimeOfDay)
    ensures ScaledTime(t1) == ScaledTime(t2) <==> t1.hour == t2.hour && t1.minute == t2.minute
  {
  }

  /** The solar noon: halfway between sunrise and sunset. */
  function SolarNoon(sunrise: real, sunset: real): (r: real)
    ensures r == (sunrise + sunset) / 2.0
    ensures sunrise <= sunset ==> sunrise <= r <= sunset
    ensures sunset <= sunrise ==> sunset <= r <= sunrise
  {
    sunrise + (sunset - sunrise) / 2.0
  }

  /** cycleOffsetHorizontal: how far along the day the solar noon sits past 0.25, wrapped
      into [0, 1). Shifting the noon back by the offset lands on 0.25, modulo one day. */
  function CycleOffset(sunrise: real, sunset: real): (r: real)
    ensures InUnit(sunrise) && InUnit(sunset) ==> InUnit(r)
    ensures InUnit(sunrise) && InUnit(sunset) ==>
      SolarNoon(sunrise, sunset) - r == 0.25 || SolarNoon(sunrise, sunset) - r == -0.75
  {
    FMod((SolarNoon(sunrise, sunset) - 0.25) + 1.0, 1.0)
  }

  /** A solar noon at 0.25 is the zero offset. */
  lemma CycleOffsetZeroAtQuarter(sunrise: real, sunset: real)
    requires SolarNoon(sunrise, sunset) == 0.25
    ensures CycleOffset(sunrise, sunset) == 0.0
  {
  }

  /** The offset depends on the midpoint only, so sunrise and sunset may be swapped. */
  lemma CycleOffsetSymmetric(sunrise: real, sunset: real)
    ensures CycleOffset(sunrise, sunset) == CycleOffset(sunset, sunrise)
  {
  }

  /** getScaledRadian: an angle reduced by one turn tau (with Java's remainder) and divided
      by tau. A value in [-1, 1] (a sine) lands in [0, 1): a non-negative one is x / tau,
      a negative one is first moved up by a whole turn. */
  function ScaledRadian(radian: real, tau: real): (r: real)
    requires tau > 0.0
    ensures r < 1.0
    ensures radian >= -tau ==> 0.0 <= r
    ensures tau > 1.0 && -1.0 <= radian <= 1.0 ==> InUnit(r)
    ensures tau > 1.0 && 0.0 <= radian <= 1.0 ==> r * tau == radian
    ensures tau > 1.0 && -1.0 <= radian < 0.0 ==> r * tau == radian + tau
  {
    var m := FMod(radian + tau, tau);
    FractionOfTurn(m, tau);
    m / tau
  }

  /** An angle m below one turn tau is below 1 as a fraction of the turn, and not negative
      when m is not. */
  lemma FractionOfTurn(m: real, tau: real)
    requires tau > 0.0 && m < tau
    ensures m / tau < 1.0
    ensures m >= 0.0 ==> m / tau >= 0.0
    ensures (m / tau) * tau == m
  {
    QuotientBelow(m, tau, 1.0);
    if m >= 0.0 {
      QuotientAtLeast(m, tau, 0.0);
    }
  }

  /** A sine: every value lies in [-1, 1]. */
  ghost predicate SineBounded(sin: real -> real) {
    forall x :: -1.0 <= sin(x) <= 1.0
  }

  /** twilightPositionVertical: the average height of the sun path, shifted by the cycle
      offset, at sunrise and at sunset, scaled by getScaledRadian. */
  function TwilightHeight(sunrise: real, sunset: real, offset: real, sin: real -> real, tau: real): (r: real)
    requires tau > 0.0
    ensures SineBounded(sin) && tau > 1.0 ==> InUnit(r)
  {
    ScaledRadian((sin(sunrise * tau + offset * tau) + sin(sunset * tau + offset * tau)) / 2.0, tau)
  }

  /** The hours and minutes getTimeFromPosition reads off a position, as `(int)` casts. */
  function ClockFields(position: real): (hm: (int, int))
    ensures InUnit(position) ==> 0 <= hm.0 < 24 && 0 <= hm.1 < 60
    ensures InUnit(position) ==> hm.0 * 60 + hm.1 == (position * 1440.0).Floor
  {
    var hours := Trunc(position * 24.0 / 1.0);
    var minutes := Trunc(FMod(position * 24.0, 1.0) * 60.0);
    (hours, minutes)
  }

  /** getTimeFromPosition: the clock reading of a position as "H:M", with no zero padding. */
  function TimeFromPosition(position: real): (s: string)
    ensures InUnit(position) ==> s == ClockText(ClockFields(position).0, ClockFields(position).1)
  {
    var hm := ClockFields(position);
    IntToString(hm.0) + ":" + IntToString(hm.1)
  }

  /** "H:M" for a non-negative hour and minute, each as `Integer.toString` writes it. */
  function ClockText(h: nat, m: nat): string {
    NatToDigits(h) + ":" + NatToDigits(m)
  }

  /** A clock text has one colon; the digits before it spell the hour and those after it the
      minute, so the text is read back unambiguously. */
  lemma ClockTextSplits(h: nat, m: nat)
    ensures var s, k := ClockText(h, m), |NatToDigits(h)|;
      k < |s| && s[k] == ':' && (forall i :: 0 <= i < |s| && i != k ==> s[i] != ':')
      && s[..k] == NatToDigits(h) && DigitsValue(s[..k]) == h
      && s[k + 1..] == NatToDigits(m) && DigitsValue(s[k + 1..]) == m
  {
  }

  /** Reading a scaled time back gives the hour and minute it came from. */
  lemma TimeFromPositionRoundTrip(t: TimeOfDay)
    ensures ClockFields(ScaledTime(t)) == (t.hour, t.minute)
    ensures TimeFromPosition(ScaledTime(t)) == ClockText(t.hour, t.minute)
  {
  }

  /** 06:05 is shown as "6:5". */
  lemma TimeFromPositionUnpadded()
    ensures TimeFromPosition(ScaledTime(Clock(6, 5, 0))) == "6:5"
  {
  }

  /** A 06:00 sunrise and an 18:00 sunset put solar noon at 0.5, a quarter day past 0.25. */
  lemma EquinoxCycle()
    ensures ScaledTime(Clock(6, 0, 0)) == 0.25 && ScaledTime(Clock(18, 0, 0)) == 0.75
    ensures CycleOffset(0.25, 0.75) == 0.25
  {
  }

  /** 07:30 and 17:45: solar noon at 1515/2880 of the day, offset 795/2880 = 53/192. */
  lemma SpringCycle()
    ensures ScaledTime(Clock(7, 30, 0)) == 0.3125 && ScaledTime(Clock(17, 45, 0)) == 1065.0 / 1440.0
    ensures CycleOffset(0.3125, 1065.0 / 1440.0) == 53.0 / 192.0
  {
  }

  /** The five scalars a sun cycle holds, read together. */
  datatype CycleState = CycleState(
    sunPositionHorizontal: real,
    cycleOffsetHorizontal: real,
    twilightPositionVertical: real,
    sunrisePosition: real,
    sunsetPosition: real)

  /** The information for one day's sun cycle (class SunCycle). */
  class SunCycle {
    var sunPositionHorizontal: real
    var cycleOffsetHorizontal: real
    var twilightPositionVertical: real
    var sunrisePosition: real
    var sunsetPosition: real

    function State(): CycleState
      reads this
    {
      CycleState(sunPositionHorizontal, cycleOffsetHorizontal, twilightPositionVertical,
                 sunrisePosition, sunsetPosition)
    }

    /** Every field is a position in [0, 1), and the offset is the one of this sunrise and sunset. */
    ghost predicate Valid()
      reads this
    {
      InUnit(sunPositionHorizontal) && InUnit(cycleOffsetHorizontal)
      && InUnit(twilightPositionVertical) && InUnit(sunrisePosition) && InUnit(sunsetPosition)
      && cycleOffsetHorizontal == CycleOffset(sunrisePosition, sunsetPosition)
    }

    /** SunCycle(Date current, Date sunrise, Date sunset), with Math.sin and the full turn
        Constants.tau passed in. The day's fields depend on sunrise and sunset alone. */
    constructor (current: TimeOfDay, sunrise: TimeOfDay, sunset: TimeOfDay, sin: real -> real, tau: real)
      requires SineBounded(sin) && tau > 1.0
      ensures Valid()
      ensures sunrisePosition == ScaledTime(sunrise) && sunsetPosition == ScaledTime(sunset)
      ensures cycleOffsetHorizontal == CycleOffset(ScaledTime(sunrise), ScaledTime(sunset))
      ensures twilightPositionVertical
           == TwilightHeight(sunrisePosition, sunsetPosition, cycleOffsetHorizontal, sin, tau)
      ensures sunPositionHorizontal == ScaledTime(current)
    {
      new;
      InitializeSunCycle(sunrise, sunset, sin, tau);
      UpdateSunPosition(current);
    }

    /** initializeSunCycle: sets every field but the current sun position. */
    method InitializeSunCycle(sunrise: TimeOfDay, sunset: TimeOfDay, sin: real -> real, tau: real)
      requires tau > 0.0
      modifies this`sunrisePosition, this`sunsetPosition, this`cycleOffsetHorizontal,
               this`twilightPositionVertical
      ensures sunrisePosition == ScaledTime(sunrise) && sunsetPosition == ScaledTime(sunset)
      ensures cycleOffsetHorizontal == CycleOffset(sunrisePosition, sunsetPosition)
      ensures twilightPositionVertical
           == TwilightHeight(sunrisePosition, sunsetPosition, cycleOffsetHorizontal, sin, tau)
      ensures SineBounded(sin) && tau > 1.0 ==> InUnit(twilightPositionVertical)
      ensures sunPositionHorizontal == old(sunPositionHorizontal)
    {
      sunrisePosition := ScaledTime(sunrise);
      sunsetPosition := ScaledTime(sunset);
      var solarNoonHorizontalPosition := SolarNoon(sunrisePosition, sunsetPosition);
      cycleOffsetHorizontal := FMod((solarNoonHorizontalPosition - 0.25) + 1.0, 1.0);
      twilightPositionVertical :=
        TwilightHeight(sunrisePosition, sunsetPosition, cycleOffsetHorizontal, sin, tau);
    }

    /** updateSunPosition: moves the sun to the current time and changes nothing else. */
    method UpdateSunPosition(current: TimeOfDay)
      modifies this`sunPositionHorizontal
      ensures State() == old(State()).(sunPositionHorizontal := ScaledTime(current))
      ensures old(Valid()) ==> Valid()
    {
      sunPositionHorizontal := ScaledTime(current);
    }

    method GetSunPositionHorizontal() returns (r: real)
      requires Valid()
      ensures r == sunPositionHorizontal && InUnit(r)
    {
      r := sunPositionHorizontal;
    }

    method GetCycleOffsetHorizontal() returns (r: real)
      requires Valid()
      ensures r == cycleOffsetHorizontal && InUnit(r)
      ensures r == CycleOffset(sunrisePosition, sunsetPosition)
    {
      r := cycleOffsetHorizontal;
    }

    method GetTwilightPositionVertical() returns (r: real)
      requires Valid()
      ensures r == twilightPositionVertical && InUnit(r)
    {
      r := twilightPositionVertical;
    }

    method GetSunrisePosition() returns (r: real)
      requires Valid()
      ensures r == sunrisePosition && InUnit(r)
    {
      r := sunrisePosition;
    }

    method GetSunsetPosition() returns (r: real)
      requires Valid()
      ensures r == sunsetPosition && InUnit(r)
    {
      r := sunsetPosition;
    }
  }

  /** Updating twice with the same time leaves the cycle as one update does. */
  method UpdateTwice(c: SunCycle, current: TimeOfDay)
    requires c.Valid()
    modifies c
    ensures c.Valid()
    ensures c.State() == old(c.State()).(sunPositionHorizontal := ScaledTime(current))
  {
    c.UpdateSunPosition(current);
    var once := c.State();
    c.UpdateSunPosition(current);
    assert c.State() == once;
  }
}
