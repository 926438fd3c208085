/**
 * The launcher src/run.ts: price 0.6 and quantity 5000 at today's 18:00 local time,
 * or tomorrow's when that has passed, for every account of the key file.
 */
module Run {
  import opened Wrappers
  import opened Dates
  import opened Signature
  import Order

  /**
   * `getTodayAt18()`: `new Date()` read at `t0` set to 18:00:00.000 local time, one day
   * later when the clock read at `t1` is already past it.
   */
  method GetTodayAt18(t0: int, t1: int, tz: int) returns (target: Date)
    ensures fresh(target) && target.tz == tz
    ensures target.time == Order.DefaultTarget(t0, t1, tz)
  {
    target := new Date(t0, tz);
    target.SetHoursFull(18, 0, 0, 0);
    if t1 > target.time {
      AddDaysShift(target.time, tz, 1);
      target.AddDays(1);
    }
  }

  /**
   * `run()`: the order module's `main` with price 0.6, quantity 5000 and the accounts
   * `main` reads from the key file itself; `t2` is the clock reading inside `main`.
   */
  method RunScript(t0: int, t1: int, t2: int, tz: int, fileAccounts: seq<Account>)
    returns (wait: int, tasks: seq<Order.RetryTask>)
    ensures |tasks| == |fileAccounts|
    ensures forall k :: 0 <= k < |tasks| ==>
      tasks[k] == Order.RetryTask(fileAccounts[k], "0.6", Order.DefaultTarget(t0, t1, tz) + 20 * MS_PER_SECOND, "5000")
    ensures wait > 0 <==> t2 < Order.DefaultTarget(t0, t1, tz) - 10 * MS_PER_SECOND
  {
    var targetTime := GetTodayAt18(t0, t1, tz);
    wait, tasks := Order.OrderMain("0.6", targetTime, Some("5000"), None, fileAccounts, t2);
  }
}
