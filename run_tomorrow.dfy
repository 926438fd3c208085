/**
 * The launcher src/run-tomorrow.ts: price 0.8 and quantity 5000 at tomorrow's 18:00
 * local time, for every account of the key file.
 */
module RunTomorrow {
  import opened Wrappers
  import opened Dates
  import opened Signature
  import Order

  /** 18:00:00.000 local time on the local day after the one of reading `t0`. */
  function TomorrowAt18(t0: int, tz: int): int {
    UtcTime(MakeLocal(Day(LocalTime(t0, tz)) + 1, 18, 0, 0, 0), tz)
  }

  /** One day after `t`, the local day number is one more. */
  lemma NextLocalDay(t: int, tz: int)
    ensures Day(LocalTime(t + MS_PER_DAY, tz)) == Day(LocalTime(t, tz)) + 1
  {
    var l := LocalTime(t, tz);
    Decompose(l);
    assert LocalTime(t + MS_PER_DAY, tz) == MakeLocal(Day(l) + 1, HourOf(l), MinuteOf(l), SecondOf(l), MillisOf(l));
    Compose(Day(l) + 1, HourOf(l), MinuteOf(l), SecondOf(l), MillisOf(l));
  }

  /** `getTomorrowAt18()`: `new Date()` at `t0`, one local day forward, then set to 18:00:00.000. */
  method GetTomorrowAt18(t0: int, tz: int) returns (target: Date)
    ensures fresh(target) && target.tz == tz
    ensures target.time == TomorrowAt18(t0, tz)
  {
    target := new Date(t0, tz);
    AddDaysShift(t0, tz, 1);
    target.AddDays(1);
    NextLocalDay(t0, tz);
    target.SetHoursFull(18, 0, 0, 0);
  }

  /**
   * The target is 18:00:00.000 local time on the next local day, one day after
   * today's 18:00, and between 18 and 42 hours after `t0`.
   */
  lemma TomorrowAt18Fields(t0: int, tz: int)
    ensures var w := LocalTime(TomorrowAt18(t0, tz), tz);
      HourOf(w) == 18 && MinuteOf(w) == 0 && SecondOf(w) == 0 && MillisOf(w) == 0
      && Day(w) == Day(LocalTime(t0, tz)) + 1
    ensures TomorrowAt18(t0, tz) == Order.TodayAt18(t0, tz) + MS_PER_DAY
    ensures t0 + 18 * MS_PER_HOUR < TomorrowAt18(t0, tz) <= t0 + 42 * MS_PER_HOUR
  {
    var l := LocalTime(t0, tz);
    Compose(Day(l) + 1, 18, 0, 0, 0);
    Decompose(l);
  }

  /** Once today's 18:00 has passed, `run.ts` picks the same target as this script. */
  lemma AgreesWithRunAfterSix(t0: int, t1: int, tz: int)
    requires t1 > Order.TodayAt18(t0, tz)
    ensures Order.DefaultTarget(t0, t1, tz) == TomorrowAt18(t0, tz)
  {
    TomorrowAt18Fields(t0, tz);
  }

  /** `runTomorrow()`: the order module's `main` with price 0.8, quantity 5000, the file's accounts. */
  method RunTomorrowScript(t0: int, t2: int, tz: int, fileAccounts: seq<Account>)
    returns (wait: int, tasks: seq<Order.RetryTask>)
    ensures |tasks| == |fileAccounts|
    ensures forall k :: 0 <= k < |tasks| ==>
      tasks[k] == Order.RetryTask(fileAccounts[k], "0.8", TomorrowAt18(t0, tz) + 20 * MS_PER_SECOND, "5000")
    ensures wait > 0 <==> t2 < TomorrowAt18(t0, tz) - 10 * MS_PER_SECOND
  {
    var targetTime := GetTomorrowAt18(t0, tz);
    wait, tasks := Order.OrderMain("0.8", targetTime, Some("5000"), None, fileAccounts, t2);
  }
}
