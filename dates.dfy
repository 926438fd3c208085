/**
 * JavaScript `Date` as an epoch-millisecond value in a host whose
 * `getTimezoneOffset()` is the fixed number of minutes `tz` (UTC minus local time;
 * -480 in UTC+8). Local fields are read from `time - tz * MS_PER_MINUTE` the way
 * ECMAScript's Day, HourFromTime, MinFromTime, SecFromTime and msFromTime read them.
 */
module Dates {

  const MS_PER_SECOND: int := 1000
  const MS_PER_MINUTE: int := 60000
  const MS_PER_HOUR: int := 3600000
  const MS_PER_DAY: int := 86400000

  /** Local wall-clock milliseconds of the instant `t` in a host with offset `tz`. */
  function LocalTime(t: int, tz: int): int { t - tz * MS_PER_MINUTE }

  /** The instant whose local wall-clock milliseconds are `local`. */
  function UtcTime(local: int, tz: int): int { local + tz * MS_PER_MINUTE }

  function Day(local: int): int { local / MS_PER_DAY }
  function HourOf(local: int): int { (local % MS_PER_DAY) / MS_PER_HOUR }
  function MinuteOf(local: int): int { (local % MS_PER_HOUR) / MS_PER_MINUTE }
  function SecondOf(local: int): int { (local % MS_PER_MINUTE) / MS_PER_SECOND }
  function MillisOf(local: int): int { local % MS_PER_SECOND }

  /** ECMAScript MakeDate(day, MakeTime(h, m, s, ms)); components may be out of range and carry. */
  function MakeLocal(day: int, h: int, m: int, s: int, ms: int): int {
    day * MS_PER_DAY + h * MS_PER_HOUR + m * MS_PER_MINUTE + s * MS_PER_SECOND + ms
  }

  /** Every local value is the sum of its components, each within its range. */
  lemma Decompose(x: int)
    ensures x == MakeLocal(Day(x), HourOf(x), MinuteOf(x), SecondOf(x), MillisOf(x))
    ensures 0 <= HourOf(x) < 24 && 0 <= MinuteOf(x) < 60
    ensures 0 <= SecondOf(x) < 60 && 0 <= MillisOf(x) < 1000
  {
    var r := x % MS_PER_DAY;
    assert x == Day(x) * MS_PER_DAY + r;
    var rh := r % MS_PER_HOUR;
    assert r == HourOf(x) * MS_PER_HOUR + rh;
    assert rh == x % MS_PER_HOUR by { ModNested(x, 24, MS_PER_HOUR); }
    var rm := rh % MS_PER_MINUTE;
    assert rm == x % MS_PER_MINUTE by { ModNested(x, 60, MS_PER_MINUTE); }
    assert rh == MinuteOf(x) * MS_PER_MINUTE + rm;
    assert rm == SecondOf(x) * MS_PER_SECOND + MillisOf(x) by { ModNested(x, 60, MS_PER_SECOND); }
  }

  lemma ModNested(x: int, k: int, b: int)
    requires k > 0 && b > 0
    ensures (x % (k * b)) % b == x % b
  {
    var q := x / (k * b);
    var r := x % (k * b);
    assert x == q * (k * b) + r;
    assert x == (q * k) * b + r;
    var r2 := r % b;
    assert r == (r / b) * b + r2;
    assert x == (q * k + r / b) * b + r2;
    UniqueMod(x, b, q * k + r / b, r2);
  }

  lemma UniqueMod(x: int, b: int, q: int, r: int)
    requires b > 0 && 0 <= r < b && x == q * b + r
    ensures x % b == r && x / b == q
  {
    var q0, r0 := x / b, x % b;
    assert (q - q0) * b == r0 - r;
    if q > q0 {
      MulAtLeast(q - q0, b);
    } else if q < q0 {
      assert (q0 - q) * b == r - r0;
      MulAtLeast(q0 - q, b);
    }
  }

  lemma MulAtLeast(d: int, b: int)
    requires d >= 1 && b > 0
    ensures d * b >= b
  {
  }

  /**
   * A local value written as components whose lower three are in range: its day
   * and hour are obtained by carrying the hour into days, the rest is kept.
   */
  lemma Compose(day: int, h: int, m: int, s: int, ms: int)
    requires 0 <= m < 60 && 0 <= s < 60 && 0 <= ms < 1000
    ensures var x := MakeLocal(day, h, m, s, ms);
      Day(x) == day + h / 24 && HourOf(x) == h % 24 && MinuteOf(x) == m
      && SecondOf(x) == s && MillisOf(x) == ms
  {
    var x := MakeLocal(day, h, m, s, ms);
    var low := m * MS_PER_MINUTE + s * MS_PER_SECOND + ms;
    assert 0 <= low < MS_PER_HOUR;
    var r := (h % 24) * MS_PER_HOUR + low;
    assert 0 <= r < MS_PER_DAY;
    assert x == (day + h / 24) * MS_PER_DAY + r;
    UniqueMod(x, MS_PER_DAY, day + h / 24, r);
    UniqueMod(r, MS_PER_HOUR, h % 24, low);
    ModNested(x, 24, MS_PER_HOUR);
    assert x % MS_PER_HOUR == low;
    var low2 := s * MS_PER_SECOND + ms;
    UniqueMod(low, MS_PER_MINUTE, m, low2);
    ModNested(x, 60, MS_PER_MINUTE);
    UniqueMod(low2, MS_PER_SECOND, s, ms);
    ModNested(x, 60, MS_PER_SECOND);
  }

  /** Adding whole units of `b` leaves the remainder modulo `b` alone. */
  lemma ModShift(x: int, k: int, b: int)
    requires b > 0
    ensures (x + k * b) % b == x % b
  {
    assert x + k * b == (x / b + k) * b + x % b;
    UniqueMod(x + k * b, b, x / b + k, x % b);
  }

  /** Shifting by whole hours keeps minutes, seconds and milliseconds. */
  lemma ShiftHours(x: int, k: int)
    ensures var y := x + k * MS_PER_HOUR;
      MinuteOf(y) == MinuteOf(x) && SecondOf(y) == SecondOf(x) && MillisOf(y) == MillisOf(x)
  {
    ModShift(x, k, MS_PER_HOUR);
    ModShift(x, k * 60, MS_PER_MINUTE);
    ModShift(x, k * 3600, MS_PER_SECOND);
  }

  /** Shifting by whole minutes keeps seconds and milliseconds. */
  lemma ShiftMinutes(x: int, k: int)
    ensures var y := x + k * MS_PER_MINUTE;
      SecondOf(y) == SecondOf(x) && MillisOf(y) == MillisOf(x)
  {
    ModShift(x, k, MS_PER_MINUTE);
    ModShift(x, k * 60, MS_PER_SECOND);
  }

  /** Shifting by whole seconds keeps milliseconds. */
  lemma ShiftSeconds(x: int, k: int)
    ensures MillisOf(x + k * MS_PER_SECOND) == MillisOf(x)
  {
    ModShift(x, k, MS_PER_SECOND);
  }

  /**
   * Setting local hour `h`, then minute `m`, second 0 and millisecond 0 (in that
   * order, each step carrying) lands on local `h:m:00.000` of the original local day.
   */
  lemma SetClockFields(x: int, h: int, m: int)
    ensures var x1 := MakeLocal(Day(x), h, MinuteOf(x), SecondOf(x), MillisOf(x));
      var x2 := MakeLocal(Day(x1), HourOf(x1), m, SecondOf(x1), MillisOf(x1));
      var x3 := MakeLocal(Day(x2), HourOf(x2), MinuteOf(x2), 0, MillisOf(x2));
      var x4 := MakeLocal(Day(x3), HourOf(x3), MinuteOf(x3), SecondOf(x3), 0);
      x4 == MakeLocal(Day(x), h, m, 0, 0)
  {
    var x1 := MakeLocal(Day(x), h, MinuteOf(x), SecondOf(x), MillisOf(x));
    Decompose(x);
    assert x1 == x + (h - HourOf(x)) * MS_PER_HOUR;
    ShiftHours(x, h - HourOf(x));
    var x2 := MakeLocal(Day(x1), HourOf(x1), m, SecondOf(x1), MillisOf(x1));
    Decompose(x1);
    assert x2 == x1 + (m - MinuteOf(x1)) * MS_PER_MINUTE;
    ShiftMinutes(x1, m - MinuteOf(x1));
    var x3 := MakeLocal(Day(x2), HourOf(x2), MinuteOf(x2), 0, MillisOf(x2));
    Decompose(x2);
    assert x3 == x2 - SecondOf(x2) * MS_PER_SECOND;
    ShiftSeconds(x2, -SecondOf(x2));
    var x4 := MakeLocal(Day(x3), HourOf(x3), MinuteOf(x3), SecondOf(x3), 0);
    Decompose(x3);
    assert x4 == x3 - MillisOf(x3);
  }

  /** Local `h:m:00.000` of day `day`, for any `h` and `m`: the fields after carrying. */
  lemma ClockFieldsOf(day: int, h: int, m: int)
    ensures var x := MakeLocal(day, h, m, 0, 0);
      SecondOf(x) == 0 && MillisOf(x) == 0 && MinuteOf(x) == m % 60
      && HourOf(x) == (h + m / 60) % 24 && Day(x) == day + (h + m / 60) / 24
  {
    assert MakeLocal(day, h, m, 0, 0) == MakeLocal(day, h + m / 60, m % 60, 0, 0);
    Compose(day, h + m / 60, m % 60, 0, 0);
  }

  /** A JavaScript `Date` object: one mutable time value, in a host with a fixed offset. */
  class Date {
    var time: int
    const tz: int

    constructor (t: int, tz: int)
      ensures time == t && this.tz == tz
    {
      time := t;
      this.tz := tz;
    }

    /** `getTimezoneOffset()` */
    function GetTimezoneOffset(): int { tz }

    /** The local wall-clock value of the current time value. */
    function Local(): int reads this { LocalTime(time, tz) }

    /** `setHours(h)`: local hour replaced, minutes, seconds and milliseconds kept. */
    method SetHours(h: int)
      modifies this
      ensures var l := old(Local());
        time == UtcTime(MakeLocal(Day(l), h, MinuteOf(l), SecondOf(l), MillisOf(l)), tz)
    {
      var l := Local();
      time := UtcTime(MakeLocal(Day(l), h, MinuteOf(l), SecondOf(l), MillisOf(l)), tz);
    }

    /** `setHours(h, m, s, ms)` */
    method SetHoursFull(h: int, m: int, s: int, ms: int)
      modifies this
      ensures time == UtcTime(MakeLocal(Day(old(Local())), h, m, s, ms), tz)
    {
      time := UtcTime(MakeLocal(Day(Local()), h, m, s, ms), tz);
    }

    /** `setMinutes(m)`: local minute replaced, hour, seconds and milliseconds kept. */
    method SetMinutes(m: int)
      modifies this
      ensures var l := old(Local());
        time == UtcTime(MakeLocal(Day(l), HourOf(l), m, SecondOf(l), MillisOf(l)), tz)
    {
      var l := Local();
      time := UtcTime(MakeLocal(Day(l), HourOf(l), m, SecondOf(l), MillisOf(l)), tz);
    }

    /** `setSeconds(s)` */
    method SetSeconds(s: int)
      modifies this
      ensures var l := old(Local());
        time == UtcTime(MakeLocal(Day(l), HourOf(l), MinuteOf(l), s, MillisOf(l)), tz)
    {
      var l := Local();
      time := UtcTime(MakeLocal(Day(l), HourOf(l), MinuteOf(l), s, MillisOf(l)), tz);
    }

    /** `setMilliseconds(ms)` */
    method SetMilliseconds(ms: int)
      modifies this
      ensures var l := old(Local());
        time == UtcTime(MakeLocal(Day(l), HourOf(l), MinuteOf(l), SecondOf(l), ms), tz)
    {
      var l := Local();
      time := UtcTime(MakeLocal(Day(l), HourOf(l), MinuteOf(l), SecondOf(l), ms), tz);
    }

    /**
     * `setDate(getDate() + k)`: the local day number moves by `k` (month and year
     * boundaries carry), the local time of day is kept.
     */
    method AddDays(k: int)
      modifies this
      ensures var l := old(Local());
        time == UtcTime(MakeLocal(Day(l) + k, HourOf(l), MinuteOf(l), SecondOf(l), MillisOf(l)), tz)
    {
      var l := Local();
      time := UtcTime(MakeLocal(Day(l) + k, HourOf(l), MinuteOf(l), SecondOf(l), MillisOf(l)), tz);
    }
  }

  /** Moving the local day by `k` moves the instant by exactly `k` days. */
  lemma AddDaysShift(t: int, tz: int, k: int)
    ensures var l := LocalTime(t, tz);
      UtcTime(MakeLocal(Day(l) + k, HourOf(l), MinuteOf(l), SecondOf(l), MillisOf(l)), tz) == t + k * MS_PER_DAY
  {
    Decompose(LocalTime(t, tz));
  }
}
