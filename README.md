# Lightly sun cycle, in Dafny

Lightly tints the screen warmer or cooler over the day. Its one piece of logic is the class
`SunCycle`. It takes the day's sunrise and sunset (civil twilight begin and end) and the
current time. It turns each into a position in [0, 1) along the day, where 0 is midnight and
0.5 is noon. From sunrise and sunset it derives two more values:

- a horizontal cycle offset, which puts solar noon at 0.25;
- a vertical twilight height, which is the sine-shaped sun path averaged at sunrise and
  sunset and scaled into [0, 1).

A static helper renders a position back as an `H:M` clock string.

The project has two files:

- `java_lang.dfy` (module `JavaLang`) holds the Java semantics the class relies on:
  - the `(int)` cast, which rounds toward zero;
  - the floating-point `%`, which truncates the quotient so the remainder takes the
    dividend's sign;
  - the decimal rendering of an `int` in string concatenation.
- `sun_cycle.dfy` (module `SunCycleModel`) holds the rest:
  - `ScaledTime`, `SolarNoon`, `CycleOffset`, `ScaledRadian`, `TwilightHeight`,
    `ClockFields` and `TimeFromPosition` are pure functions, one per computation of the
    source;
  - the class `SunCycle` has the five float fields of the source as `real` fields;
  - its constructor, `InitializeSunCycle` and `UpdateSunPosition` change those fields in
    place, as the Java methods do.

Inputs and foreign calls:

- A `java.util.Date` is reduced to what `Calendar` reports of it: a `TimeOfDay` with hour
  0..23, minute 0..59 and second 0..59.
- `Math.sin` is a parameter `sin: real -> real`. The predicate `SineBounded` requires its
  values to lie in [-1, 1].
- `Constants.tau`, one full turn, is a parameter `tau`. Its definition is not part of this
  model. The constructor requires `tau > 1`; the real constant is about 6.28.

The comment at SunCycle.java:53 makes a solar noon of 0.25 the zero offset. So a day with
sunrise at 06:00 and sunset at 18:00 (noon 0.5) gets offset 0.25 (`EquinoxCycle`), and a
noon of 0.25 gets 0 (`CycleOffsetZeroAtQuarter`). The field comments give the positions as
[0, 1]; the model proves the tighter [0, 1).

## Model

| member | source | states |
|---|---|---|
| JavaLang.Trunc | app/src/main/java/co/adrianblan/lightly/SunCycle.java:106-107 | The `(int)` cast rounds toward zero: for x >= 0 the result is the largest integer at most x, for x <= 0 the smallest at least x |
| JavaLang.FMod | app/src/main/java/co/adrianblan/lightly/SunCycle.java:54 | Java's float `%` with a positive divisor: the remainder lies in [0, b) for a non-negative dividend and in (-b, 0] for a non-positive one; it is the dividend itself below b and the dividend minus b in [b, 2b) |
| JavaLang.FModBounds | app/src/main/java/co/adrianblan/lightly/SunCycle.java:81 | The remainder of truncated division stays within one divisor of zero on the dividend's side; the truncated quotient is 0 on [0, b) and 1 on [b, 2b) |
| JavaLang.NatToDigits | app/src/main/java/co/adrianblan/lightly/SunCycle.java:108 | The decimal form of an int is a non-empty string of digits with no leading zero, one digit long exactly for values below 10 |
| JavaLang.DigitsRoundTrip | app/src/main/java/co/adrianblan/lightly/SunCycle.java:108 | Reading the decimal digits of n back gives n |
| JavaLang.IntToString | app/src/main/java/co/adrianblan/lightly/SunCycle.java:108 | A non-negative int becomes a non-empty run of digits that reads back as the value, with no leading zero except in "0" and one digit long exactly below 10; a negative one becomes '-' followed by such digits for its magnitude |
| SunCycleModel.ScaledTime | app/src/main/java/co/adrianblan/lightly/SunCycle.java:67-77 | getScaledTime lies in [0, 1) and is the number of whole minutes since midnight divided by 1440 |
| SunCycleModel.ScaledTimeOrder | app/src/main/java/co/adrianblan/lightly/SunCycle.java:73-74 | One position is below another exactly when its (hour, minute) comes first in lexicographic order |
| SunCycleModel.ScaledTimeInjective | app/src/main/java/co/adrianblan/lightly/SunCycle.java:72-74 | Two times have the same position exactly when they have the same hour and minute, so seconds are ignored |
| SunCycleModel.SolarNoon | app/src/main/java/co/adrianblan/lightly/SunCycle.java:50-51 | Solar noon is the midpoint of sunrise and sunset and lies between them |
| SunCycleModel.CycleOffset | app/src/main/java/co/adrianblan/lightly/SunCycle.java:53-54 | For sunrise and sunset in [0, 1) the offset lies in [0, 1), and solar noon minus the offset is 0.25 modulo one day (0.25 or -0.75) |
| SunCycleModel.CycleOffsetZeroAtQuarter | app/src/main/java/co/adrianblan/lightly/SunCycle.java:53-54 | A solar noon of exactly 0.25 gives offset 0 |
| SunCycleModel.CycleOffsetSymmetric | app/src/main/java/co/adrianblan/lightly/SunCycle.java:51-54 | Swapping sunrise and sunset leaves the offset unchanged |
| SunCycleModel.EquinoxCycle | app/src/main/java/co/adrianblan/lightly/SunCycle.java:51-54 | 06:00 and 18:00 scale to 0.25 and 0.75, and their offset is 0.25, not 0 |
| SunCycleModel.SpringCycle | app/src/main/java/co/adrianblan/lightly/SunCycle.java:51-54 | 07:30 and 17:45 scale to 0.3125 and 1065/1440, and their offset is 53/192 |
| SunCycleModel.ScaledRadian | app/src/main/java/co/adrianblan/lightly/SunCycle.java:79-82 | getScaledRadian is below 1 for every angle and non-negative from -tau up; for x in [-1, 1] and tau > 1 it lies in [0, 1), and it is x / tau for x >= 0 and (x + tau) / tau for x < 0 |
| SunCycleModel.TwilightHeight | app/src/main/java/co/adrianblan/lightly/SunCycle.java:56-59 | The twilight height, scaled from the average of two sines, lies in [0, 1) whenever the sine is bounded by 1 and tau > 1 |
| SunCycleModel.ClockFields | app/src/main/java/co/adrianblan/lightly/SunCycle.java:104-107 | For a position in [0, 1) the hours lie in 0..23 and the minutes in 0..59, and hours * 60 + minutes is the whole minute of the day that contains the position |
| SunCycleModel.TimeFromPosition | app/src/main/java/co/adrianblan/lightly/SunCycle.java:104-109 | For a position in [0, 1) the text is the hour's digits, ':' and the minute's digits, with no zero padding |
| SunCycleModel.ClockTextSplits | app/src/main/java/co/adrianblan/lightly/SunCycle.java:108 | The "H:M" text holds exactly one ':'; the digits before it read back as the hour and those after it as the minute |
| SunCycleModel.TimeFromPositionRoundTrip | app/src/main/java/co/adrianblan/lightly/SunCycle.java:104-109 | Rendering the position of a time gives back its hour and minute, as "H:M" |
| SunCycleModel.TimeFromPositionUnpadded | app/src/main/java/co/adrianblan/lightly/SunCycle.java:108 | 06:05 is rendered "6:5" |
| SunCycleModel.SunCycle.constructor | app/src/main/java/co/adrianblan/lightly/SunCycle.java:32-35 | After construction every field lies in [0, 1); the sun position is the scaled current time; sunrise, sunset, offset and twilight are functions of sunrise and sunset only |
| SunCycleModel.SunCycle.InitializeSunCycle | app/src/main/java/co/adrianblan/lightly/SunCycle.java:41-60 | Sets sunrise and sunset to their scaled times, the offset from their solar noon and the twilight height from the offset; the sun position is untouched |
| SunCycleModel.SunCycle.UpdateSunPosition | app/src/main/java/co/adrianblan/lightly/SunCycle.java:62-65 | The sun position becomes the scaled current time and no other field changes; the class invariant is kept |
| SunCycleModel.UpdateTwice | app/src/main/java/co/adrianblan/lightly/SunCycle.java:63-65 | Two updates with the same time leave the cycle exactly as one does (idempotence) |
| SunCycleModel.SunCycle.GetSunPositionHorizontal | app/src/main/java/co/adrianblan/lightly/SunCycle.java:84-86 | Returns the sun position, which lies in [0, 1) |
| SunCycleModel.SunCycle.GetCycleOffsetHorizontal | app/src/main/java/co/adrianblan/lightly/SunCycle.java:88-90 | Returns the offset, which lies in [0, 1) and is the offset of the stored sunrise and sunset |
| SunCycleModel.SunCycle.GetTwilightPositionVertical | app/src/main/java/co/adrianblan/lightly/SunCycle.java:92-94 | Returns the twilight height, which lies in [0, 1) |
| SunCycleModel.SunCycle.GetSunrisePosition | app/src/main/java/co/adrianblan/lightly/SunCycle.java:96-98 | Returns the sunrise position, which lies in [0, 1) |
| SunCycleModel.SunCycle.GetSunsetPosition | app/src/main/java/co/adrianblan/lightly/SunCycle.java:100-102 | Returns the sunset position, which lies in [0, 1) |

## Left out

- The constructor that parses the two "hh:mm:ss aa" strings with `SimpleDateFormat` and may throw `ParseException` (SunCycle.java:21-30) is not modelled. It is library parsing; the model starts from parsed times.
- `Calendar` and the default time zone are not modelled. A time enters as its hour, minute and second. The unused `Calendar` in `initializeSunCycle` is dropped.
- `Math.sin` and `Constants.tau` are parameters, not computed. The sine is only assumed to stay in [-1, 1], and tau only to exceed 1.
- Positions are exact reals, not IEEE floats and doubles. Rounding, the `(float)` narrowing of the twilight height and the saturation of `(int)` on values beyond the int range are not modelled.
- SunCycleModel.TimeFromPositionRoundTrip: the round trip holds in exact arithmetic only. In the program, lines 73-74 and 106-107 run in single-precision floats, and the rounding can leave the minute one too low. For 03:01, `1/1440f` rounds up but `0.125f + 1/1440f` rounds down, to just below 181/1440. Times 24, that is just below 3 + 1/60, so `% 1` then `* 60` gives 0.99998…, which `(int)` makes 0, and the text is "3:0". The model does not capture this rounding.
- SunCycleModel.TwilightHeight: the `(float)` narrowing at line 57 can round a `getScaledRadian` result just below 1 up to 1.0f. The model proves [0, 1) for the exact value only.
- JavaLang.FMod: a zero divisor, which gives NaN in Java, is excluded by its precondition. Every divisor in the source is a non-zero constant.
- Sunrise after sunset, and sunrise equal to sunset, get no special case in the code and none in the model. The bounds above hold for them too.
- MainActivity (permissions, preferences, the overlay service, the seek bars) and the `SunriseSunsetDataWrapper` data holder are not part of this model.
