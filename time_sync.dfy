/**
 * Clock calibration against the venue (utils/timeSync.ts): one process-wide offset,
 * adjusted time `local + offset`, and the UTC+8 target-instant builder.
 */
module TimeSync {
  import opened Wrappers
  import opened Dates

  function Abs(x: int): nat { if x < 0 then -x else x }

  /**
   * ECMAScript ToIntegerOrInfinity of `n / d`: the quotient truncated toward zero, so its
   * magnitude is the whole number of times `d` fits into `|n|` and it carries the sign of `n`.
   */
  function TruncDiv(n: int, d: int): (q: int)
    requires d > 0
    ensures d * Abs(q) <= Abs(n) < d * (Abs(q) + 1)
    ensures q != 0 ==> (q > 0 <==> n > 0)
    ensures n == 0 ==> q == 0
  {
    if n >= 0 then n / d else -((-n) / d)
  }

  /** The UTC offset of UTC+8 as `getTimezoneOffset()` writes it. */
  const UTC8_OFFSET: int := -480

  /**
   * The integer hour `setHours(hours - offsetHours)` receives, where
   * `offsetHours = (-480 - tz) / 60` may be fractional and `setHours` truncates.
   */
  function HourArgument(hours: int, tz: int): int {
    TruncDiv(60 * hours + 480 + tz, 60)
  }

  /** The instant after `setHours(..)`, `setMinutes(minutes)`, `setSeconds(0)`, `setMilliseconds(0)` on a copy of `now`. */
  function SetInstant(now: int, tz: int, hours: int, minutes: int): int {
    UtcTime(MakeLocal(Day(LocalTime(now, tz)), HourArgument(hours, tz), minutes, 0, 0), tz)
  }

  /** What `createTargetTimeUTC8(hours, minutes, days)` returns, as written, for adjusted time `now`. */
  function TargetUTC8AsWritten(now: int, tz: int, hours: int, minutes: int, days: int): int {
    var base := SetInstant(now, tz, hours, minutes);
    var shifted := if days > 0 then base + days * MS_PER_DAY else base;
    if days == 0 && now > shifted then shifted + MS_PER_DAY else shifted
  }

  /** The offset after one time probe: replaced on success, kept on failure. */
  function OffsetAfterProbe(offset: int, probe: Result<int, string>, localTime: int): int {
    match probe
    case Success(serverTime) => serverTime - localTime
    case Failure(_) => offset
  }

  /** The module-level state of utils/timeSync.ts. */
  class TimeSync {
    var timeOffset: int

    constructor ()
      ensures timeOffset == 0
      ensures forall localNow :: AdjustedTime(localNow) == localNow
    {
      timeOffset := 0;
    }

    /** `getAdjustedTime()` for local clock reading `localNow`. */
    function AdjustedTime(localNow: int): int
      reads this
    {
      localNow + timeOffset
    }

    /**
     * `getBinanceServerTime()`: `probe` is the venue's reply (its `serverTime`, or
     * the error the request threw) and `localTime` the `Date.now()` read after it.
     */
    method GetBinanceServerTime(probe: Result<int, string>, localTime: int) returns (r: Result<int, string>)
      modifies this
      ensures timeOffset == OffsetAfterProbe(old(timeOffset), probe, localTime)
      ensures probe.Success? ==> AdjustedTime(localTime) == probe.value
      ensures r == probe
    {
      match probe {
        case Success(serverTime) =>
          timeOffset := serverTime - localTime;
          r := Success(serverTime);
        case Failure(e) =>
          r := Failure(e);
      }
    }

    /** `initTimeSync()`: the probe's error is rethrown unchanged. */
    method InitTimeSync(probe: Result<int, string>, localTime: int) returns (r: Result<(), string>)
      modifies this
      ensures timeOffset == OffsetAfterProbe(old(timeOffset), probe, localTime)
      ensures r.Failure? <==> probe.Failure?
      ensures r.Failure? ==> r.error == probe.error
    {
      var served := GetBinanceServerTime(probe, localTime);
      if served.Failure? {
        r := Failure(served.error);
      } else {
        r := Success(());
      }
    }

    /** `getAdjustedDate()`: a new Date at the adjusted instant. */
    method GetAdjustedDate(localNow: int, tz: int) returns (d: Date)
      ensures fresh(d) && d.tz == tz
      ensures d.time == AdjustedTime(localNow)
    {
      d := new Date(AdjustedTime(localNow), tz);
    }

    /** `createTargetTimeUTC8(hours, minutes, days)`, step by step on a Date copy. */
    method CreateTargetTimeUTC8(localNow: int, tz: int, hours: int, minutes: int, days: int)
      returns (target: Date)
      ensures fresh(target) && target.tz == tz
      ensures target.time == TargetUTC8AsWritten(AdjustedTime(localNow), tz, hours, minutes, days)
    {
      var now := GetAdjustedDate(localNow, tz);
      target := new Date(now.time, tz);
      var localOffset := target.GetTimezoneOffset();
      var h := HourArgument(hours, localOffset);
      SetClock(target, h, minutes);
      ghost var base := target.time;
      assert base == SetInstant(now.time, tz, hours, minutes);
      if days > 0 {
        AddDaysShift(target.time, tz, days);
        target.AddDays(days);
        assert target.time == base + days * MS_PER_DAY;
      }
      ghost var shifted := target.time;
      assert shifted == if days > 0 then base + days * MS_PER_DAY else base;
      var nowTime := now.time;
      if days == 0 && nowTime > target.time {
        AddDaysShift(target.time, tz, 1);
        target.AddDays(1);
        assert target.time == shifted + MS_PER_DAY;
      }
      assert target.time == if days == 0 && nowTime > shifted then shifted + MS_PER_DAY else shifted;
    }
  }

  /**
   * `setHours(h)`, `setMinutes(minutes)`, `setSeconds(0)`, `setMilliseconds(0)` in turn:
   * the same local date at `h:minutes:00.000`.
   */
  method SetClock(target: Date, h: int, minutes: int)
    modifies target
    ensures target.time == UtcTime(MakeLocal(Day(old(target.Local())), h, minutes, 0, 0), target.tz)
  {
    ghost var l0 := target.Local();
    target.SetHours(h);
    ghost var l1 := target.Local();
    assert l1 == MakeLocal(Day(l0), h, MinuteOf(l0), SecondOf(l0), MillisOf(l0));
    target.SetMinutes(minutes);
    ghost var l2 := target.Local();
    assert l2 == MakeLocal(Day(l1), HourOf(l1), minutes, SecondOf(l1), MillisOf(l1));
    target.SetSeconds(0);
    ghost var l3 := target.Local();
    assert l3 == MakeLocal(Day(l2), HourOf(l2), MinuteOf(l2), 0, MillisOf(l2));
    target.SetMilliseconds(0);
    assert target.Local() == MakeLocal(Day(l3), HourOf(l3), MinuteOf(l3), SecondOf(l3), 0);
    SetClockFields(l0, h, minutes);
  }

  /** The UTC+8 wall clock of an instant. */
  function Wall8(t: int): int { LocalTime(t, UTC8_OFFSET) }

  /** The host-local fields of the result: seconds and milliseconds zero, minutes carried into the hour. */
  lemma {:induction false} AsWrittenLocalFields(now: int, tz: int, hours: int, minutes: int, days: int)
    ensures var l := LocalTime(TargetUTC8AsWritten(now, tz, hours, minutes, days), tz);
      SecondOf(l) == 0 && MillisOf(l) == 0 && MinuteOf(l) == minutes % 60
      && HourOf(l) == (HourArgument(hours, tz) + minutes / 60) % 24
  {
    var r := TargetUTC8AsWritten(now, tz, hours, minutes, days);
    var d := Day(LocalTime(now, tz));
    var h := HourArgument(hours, tz);
    var k := (r - SetInstant(now, tz, hours, minutes)) / MS_PER_DAY;
    assert LocalTime(r, tz) == MakeLocal(d + k, h, minutes, 0, 0);
    ClockFieldsOf(d + k, h, minutes);
  }

  /**
   * On a host whose offset is a whole number of hours, the result shows
   * `hours:minutes` on a UTC+8 clock exactly when `(tz + 480) % 720 == 0`:
   * in UTC+8 itself (and, by a double error, in UTC-4), and nowhere else.
   */
  lemma {:induction false} AsWrittenWallClock(now: int, tz: int, hours: int, minutes: int, days: int)
    requires 0 <= hours < 24 && 0 <= minutes < 60 && tz % 60 == 0
    ensures var w := Wall8(TargetUTC8AsWritten(now, tz, hours, minutes, days));
      MinuteOf(w) == minutes && SecondOf(w) == 0 && MillisOf(w) == 0
      && (HourOf(w) == hours <==> (tz + 480) % 720 == 0)
  {
    var r := TargetUTC8AsWritten(now, tz, hours, minutes, days);
    var d := Day(LocalTime(now, tz));
    var j := (tz + 480) / 60;
    assert tz + 480 == 60 * j;
    var h := HourArgument(hours, tz);
    assert h == hours + j;
    var k := (r - SetInstant(now, tz, hours, minutes)) / MS_PER_DAY;
    assert Wall8(r) == MakeLocal(d + k, hours + 2 * j, minutes, 0, 0);
    Compose(d + k, hours + 2 * j, minutes, 0, 0);
    WholeHourShift(hours, j);
  }

  /** Shifting an hour by `2 * j` lands on it again exactly when `60 * j` is a multiple of 720. */
  lemma WholeHourShift(hours: int, j: int)
    requires 0 <= hours < 24
    ensures (hours + 2 * j) % 24 == hours <==> (60 * j) % 720 == 0
  {
    var q, r := j / 12, j % 12;
    assert j == 12 * q + r;
    assert 60 * j == q * 720 + 60 * r;
    UniqueMod(60 * j, 720, q, 60 * r);
    assert hours + 2 * j == (hours + 2 * r) + q * 24;
    ModShift(hours + 2 * r, q, 24);
    if hours + 2 * r < 24 {
      UniqueMod(hours + 2 * r, 24, 0, hours + 2 * r);
    } else {
      UniqueMod(hours + 2 * r, 24, 1, hours + 2 * r - 24);
    }
  }

  /** On a UTC host the builder lands 16 hours late on the UTC+8 clock. */
  lemma UtcHostSixteenHoursOff(now: int, days: int)
    ensures HourOf(Wall8(TargetUTC8AsWritten(now, 0, 18, 0, days))) == 10
  {
    var r := TargetUTC8AsWritten(now, 0, 18, 0, days);
    var d := Day(LocalTime(now, 0));
    var k := (r - SetInstant(now, 0, 18, 0)) / MS_PER_DAY;
    assert Wall8(r) == MakeLocal(d + k, 34, 0, 0, 0);
    Compose(d + k, 34, 0, 0, 0);
  }

  /**
   * With `days > 0` the set instant moves by exactly `days` days and is never rolled;
   * with `days < 0` nothing moves it.
   */
  lemma AsWrittenDayShift(now: int, tz: int, hours: int, minutes: int, days: int)
    ensures days > 0 ==> TargetUTC8AsWritten(now, tz, hours, minutes, days)
                         == SetInstant(now, tz, hours, minutes) + days * MS_PER_DAY
    ensures days < 0 ==> TargetUTC8AsWritten(now, tz, hours, minutes, days)
                         == SetInstant(now, tz, hours, minutes)
  {
  }

  /**
   * With `days == 0`, one day is added exactly when `now` is strictly after the set
   * instant; when the set time of day lies within the local day, the result is the
   * first such instant at or after `now`.
   */
  lemma {:induction false} AsWrittenRollForward(now: int, tz: int, hours: int, minutes: int)
    ensures var base := SetInstant(now, tz, hours, minutes);
      var r := TargetUTC8AsWritten(now, tz, hours, minutes, 0);
      (r == base + MS_PER_DAY <==> now > base) && (r == base <==> now <= base)
    ensures var offset := HourArgument(hours, tz) * MS_PER_HOUR + minutes * MS_PER_MINUTE;
      0 <= offset < MS_PER_DAY ==>
        var r := TargetUTC8AsWritten(now, tz, hours, minutes, 0);
        now <= r < now + MS_PER_DAY
  {
    var l := LocalTime(now, tz);
    Decompose(l);
  }

  /**
   * The evidently intended builder: `hours:minutes` of the current UTC+8 day, moved
   * by `days`, rolled once when `days == 0` and it has passed. It does not depend
   * on the host's offset.
   */
  function TargetTimeUTC8(now: int, hours: int, minutes: int, days: int): int {
    var base := UtcTime(MakeLocal(Day(Wall8(now)), hours, minutes, 0, 0), UTC8_OFFSET);
    var shifted := if days > 0 then base + days * MS_PER_DAY else base;
    if days == 0 && now > shifted then shifted + MS_PER_DAY else shifted
  }

  /** The corrected builder shows `hours:minutes:00.000` on the UTC+8 clock, on any host. */
  lemma {:induction false} CorrectedWallClock(now: int, hours: int, minutes: int, days: int)
    requires 0 <= hours < 24 && 0 <= minutes < 60
    ensures var w := Wall8(TargetTimeUTC8(now, hours, minutes, days));
      HourOf(w) == hours && MinuteOf(w) == minutes && SecondOf(w) == 0 && MillisOf(w) == 0
    ensures days == 0 ==> now <= TargetTimeUTC8(now, hours, minutes, days) < now + MS_PER_DAY
  {
    var r := TargetTimeUTC8(now, hours, minutes, days);
    var d := Day(Wall8(now));
    var base := UtcTime(MakeLocal(d, hours, minutes, 0, 0), UTC8_OFFSET);
    var k := (r - base) / MS_PER_DAY;
    assert Wall8(r) == MakeLocal(d + k, hours, minutes, 0, 0);
    Compose(d + k, hours, minutes, 0, 0);
    Decompose(Wall8(now));
  }

  /** On a UTC+8 host the as-written builder and the corrected one agree. */
  lemma AgreeInUtc8(now: int, hours: int, minutes: int, days: int)
    ensures TargetUTC8AsWritten(now, UTC8_OFFSET, hours, minutes, days) == TargetTimeUTC8(now, hours, minutes, days)
  {
  }
}
