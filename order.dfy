/**
 * Limit orders on REDUSDT (src/order.ts): the open-order query and cancel, one
 * placement, the retry loop inside a time window, `main`, and the default 18:00
 * target of its command line. `Date.now()` readings are passed in: a sequence of
 * non-decreasing readings is consumed one per call.
 */
module Order {
  import opened Wrappers
  import opened Strings
  import opened Dates
  import opened Signature

  const DEFAULT_QUANTITY: string := "5000"

  /** What `order` returns: `{ success: true, data }` or `{ success: false, error }`. */
  datatype OrderResult<T> = Placed(data: T) | Rejected(error: string)
  {
    predicate Success() { Placed? }
  }

  /** The body of a limit buy, in the order the fields are written. */
  function OrderParams(quantity: string, price: string, timestamp: string): seq<Pair> {
    [("symbol", "REDUSDT"), ("side", "BUY"), ("type", "LIMIT"), ("timeInForce", "GTC"),
     ("quantity", quantity), ("price", price), ("timestamp", timestamp)]
  }

  /** The body of the open-order query and of the cancel. */
  function OpenOrdersParams(timestamp: string): seq<Pair> {
    [("symbol", "REDUSDT"), ("timestamp", timestamp)]
  }

  /** The request `order` sends: a signed POST to the spot order endpoint. */
  function OrderRequest(account: Account, price: string, quantity: string, now: int,
                        createSignature: Signer): HttpRequest
  {
    HttpRequest(
      SpotEndpoint("/api/v3/order"), POST, [("X-MBX-APIKEY", account.apiKey)],
      Some(SignedParams(OrderParams(quantity, price, IntToString(now)), account.secretKey, createSignature)))
  }

  /** One call of `order(account, price, quantity)`, with the `Date.now()` it reads as its timestamp. */
  datatype OrderCall = OrderCall(account: Account, price: string, quantity: string, timestamp: int)

  /** What the order endpoint receives: the seven fields, then the signature over them. */
  lemma OrderWire(account: Account, price: string, quantity: string, now: int, createSignature: Signer)
    ensures var ps := OrderParams(quantity, price, IntToString(now));
      var signature := createSignature(Serialize(ps), account.secretKey);
      OrderRequest(account, price, quantity, now, createSignature).params == Some(ps + [("signature", signature)])
      && Serialize(OrderRequest(account, price, quantity, now, createSignature).params.value)
         == Serialize(ps) + "&signature=" + signature
  {
    SignedWire(OrderParams(quantity, price, IntToString(now)), account.secretKey, createSignature);
  }

  /** `queryLimitOrders(account)`: an error of `binanceRequest` propagates. */
  method QueryLimitOrders<T>(account: Account, now: int, createSignature: Signer, reply: Result<T, string>)
    returns (sent: HttpRequest, r: Result<T, string>)
    ensures sent == HttpRequest(SpotEndpoint("/api/v3/openOrders"), GET,
      [("X-MBX-APIKEY", account.apiKey)],
      Some(SignedParams(OpenOrdersParams(IntToString(now)), account.secretKey, createSignature)))
    ensures r == if reply.Success? then Success(reply.value)
                 else Failure(FailureMessage(account.name, reply.error))
  {
    var params := new SearchParams(OpenOrdersParams(IntToString(now)));
    sent, r := BinanceRequest(account, "/api/v3/openOrders", GET, None, params, Spot, createSignature, reply);
  }

  /** `cancelAllLimitOrders(account)`: the same body sent with DELETE. */
  method CancelAllLimitOrders<T>(account: Account, now: int, createSignature: Signer, reply: Result<T, string>)
    returns (sent: HttpRequest, r: Result<T, string>)
    ensures sent == HttpRequest(SpotEndpoint("/api/v3/openOrders"), DELETE,
      [("X-MBX-APIKEY", account.apiKey)],
      Some(SignedParams(OpenOrdersParams(IntToString(now)), account.secretKey, createSignature)))
    ensures r == if reply.Success? then Success(reply.value)
                 else Failure(FailureMessage(account.name, reply.error))
  {
    var params := new SearchParams(OpenOrdersParams(IntToString(now)));
    sent, r := BinanceRequest(account, "/api/v3/openOrders", DELETE, None, params, Spot, createSignature, reply);
  }

  /**
   * `order(account, price, quantity = "5000")`: never throws; a failed request
   * becomes `{ success: false, error }`.
   */
  method PlaceOrder<T>(account: Account, price: string, quantity: Option<string>, now: int,
                       createSignature: Signer, reply: Result<T, string>)
    returns (sent: HttpRequest, result: OrderResult<T>)
    ensures sent == OrderRequest(account, price, quantity.GetOr(DEFAULT_QUANTITY), now, createSignature)
    ensures result.Success() <==> reply.Success?
    ensures reply.Success? ==> result == Placed(reply.value)
    ensures reply.Failure? ==> result == Rejected(FailureMessage(account.name, reply.error))
  {
    var q := quantity.GetOr(DEFAULT_QUANTITY);
    var params := new SearchParams(OrderParams(q, price, IntToString(now)));
    var r;
    sent, r := BinanceRequest(account, "/api/v3/order", POST, None, params, Spot, createSignature, reply);
    match r {
      case Success(data) => result := Placed(data);
      case Failure(message) => result := Rejected(message);
    }
  }

  /**
   * `tryOrderUntilSuccess(account, price, endTime, quantity)`. `clock[0]` is the
   * entry check, `clock[1..]` the readings at the loop head; `stamps[k]` is the
   * timestamp of the k-th order and `replies[k]` what its request got.
   * Returns whether an order succeeded, the requests sent and the 50 ms pauses.
   */
  method TryOrderUntilSuccess<T>(account: Account, price: string, endTime: int, quantity: Option<string>,
                                 createSignature: Signer, clock: seq<int>, stamps: seq<int>,
                                 replies: seq<Result<T, string>>)
    returns (success: bool, sent: seq<HttpRequest>, pauses: nat)
    requires |clock| >= 1 && clock[|clock| - 1] > endTime
    requires |stamps| >= |clock| && |replies| >= |clock|
    ensures |sent| < |clock|
    ensures clock[0] > endTime ==> sent == []
    ensures forall k :: 1 <= k <= |sent| ==> clock[k] <= endTime
    ensures forall k :: 0 <= k < |sent| ==>
      sent[k] == OrderRequest(account, price, quantity.GetOr(DEFAULT_QUANTITY), stamps[k], createSignature)
    ensures success <==> exists k :: 0 <= k < |sent| && replies[k].Success?
    ensures forall k :: 0 <= k < |sent| - 1 ==> replies[k].Failure?
    ensures success ==> replies[|sent| - 1].Success?
    ensures !success && clock[0] <= endTime ==> |sent| + 1 < |clock| && clock[|sent| + 1] > endTime
    ensures pauses == if success then |sent| - 1 else |sent|
  {
    success := false;
    sent := [];
    pauses := 0;
    if clock[0] > endTime {
      return;
    }
    var q := quantity.GetOr(DEFAULT_QUANTITY);
    var i := 1;
    while !success && clock[i] <= endTime
      invariant 1 <= i < |clock|
      invariant |sent| == i - 1
      invariant forall k :: 1 <= k <= |sent| ==> clock[k] <= endTime
      invariant forall k :: 0 <= k < |sent| ==>
        sent[k] == OrderRequest(account, price, q, stamps[k], createSignature)
      invariant forall k :: 0 <= k < |sent| - 1 ==> replies[k].Failure?
      invariant success <==> |sent| > 0 && replies[|sent| - 1].Success?
      invariant pauses == if success then |sent| - 1 else |sent|
      decreases |clock| - i
    {
      var request, result := PlaceOrder(account, price, quantity, stamps[i - 1], createSignature, replies[i - 1]);
      assert request == OrderRequest(account, price, q, stamps[i - 1], createSignature);
      sent := sent + [request];
      success := result.Success();
      if !success {
        pauses := pauses + 1;
      }
      i := i + 1;
    }
  }

  /** One `tryOrderUntilSuccess` task started by `main`. */
  datatype RetryTask = RetryTask(account: Account, price: string, endTime: int, quantity: string)

  /**
   * `main(price, targetTime, quantity = "5000", accounts = null)` up to the tasks it
   * starts: a missing account list is read from the file (`fileAccounts`), the
   * window opens 10 s before the target and closes 20 s after it, and the wait is
   * the time left until the window opens, when positive.
   */
  method OrderMain(price: string, targetTime: Date, quantity: Option<string>, accounts: Option<seq<Account>>,
                   fileAccounts: seq<Account>, now: int)
    returns (wait: int, tasks: seq<RetryTask>)
    ensures var startTime := targetTime.time - 10 * MS_PER_SECOND;
      (wait > 0 <==> now < startTime)
      && (wait > 0 ==> now + wait == startTime)
      && (wait <= 0 ==> wait == 0)
    ensures var accs := accounts.GetOr(fileAccounts);
      |tasks| == |accs|
      && forall k :: 0 <= k < |tasks| ==>
        tasks[k] == RetryTask(accs[k], price, targetTime.time + 20 * MS_PER_SECOND, quantity.GetOr(DEFAULT_QUANTITY))
  {
    var accs := if accounts.None? then fileAccounts else accounts.value;
    var q := quantity.GetOr(DEFAULT_QUANTITY);
    var startTime := targetTime.time - 10 * 1000;
    var endTime := targetTime.time + 20 * 1000;
    var timeUntilStart := startTime - now;
    wait := if timeUntilStart > 0 then timeUntilStart else 0;
    tasks := [];
    for k := 0 to |accs|
      invariant |tasks| == k
      invariant forall j :: 0 <= j < k ==> tasks[j] == RetryTask(accs[j], price, endTime, q)
    {
      tasks := tasks + [RetryTask(accs[k], price, endTime, q)];
    }
  }

  /** Today's local 18:00:00.000, 18:00 of the day of reading `t0`. */
  function TodayAt18(t0: int, tz: int): int {
    UtcTime(MakeLocal(Day(LocalTime(t0, tz)), 18, 0, 0, 0), tz)
  }

  /**
   * The default target: `new Date()` at reading `t0` set to 18:00:00.000, moved one day
   * forward when the later reading `t1` is past it.
   */
  function DefaultTarget(t0: int, t1: int, tz: int): int {
    var d := TodayAt18(t0, tz);
    if t1 > d then d + MS_PER_DAY else d
  }

  /** The default target is always 18:00:00.000 local time, today or tomorrow. */
  lemma DefaultTargetAt18(t0: int, t1: int, tz: int)
    ensures var w := LocalTime(DefaultTarget(t0, t1, tz), tz);
      HourOf(w) == 18 && MinuteOf(w) == 0 && SecondOf(w) == 0 && MillisOf(w) == 0
      && Day(w) == Day(LocalTime(t0, tz)) + (if t1 > TodayAt18(t0, tz) then 1 else 0)
  {
    var day := Day(LocalTime(t0, tz));
    Compose(day, 18, 0, 0, 0);
    Compose(day + 1, 18, 0, 0, 0);
    assert MakeLocal(day, 18, 0, 0, 0) + MS_PER_DAY == MakeLocal(day + 1, 18, 0, 0, 0);
  }

  /**
   * When the two readings are less than 18 hours apart (from the one that builds the
   * date to the one that compares), the default target is the next 18:00 at or after
   * the comparing reading: never in its past, less than a day ahead.
   */
  lemma DefaultTargetIsNext(t0: int, t1: int, tz: int)
    requires t0 <= t1 < t0 + 18 * MS_PER_HOUR
    ensures t1 <= DefaultTarget(t0, t1, tz) < t1 + MS_PER_DAY
  {
    Decompose(LocalTime(t0, tz));
  }

  /** The command line's target: given as text, or computed by the default. */
  datatype TargetSpec = Given(text: string) | Computed(time: int)

  /**
   * The command-line entry of src/order.ts: `price targetTime [quantity]`, or with fewer
   * than two arguments price 0.6 at the default target. `t0` is the reading of
   * `new Date()`, `t1` that of `Date.now()`.
   */
  method CommandLine(args: seq<string>, t0: int, t1: int, tz: int)
    returns (price: string, target: TargetSpec, quantity: string)
    ensures |args| >= 2 ==>
      price == args[0] && target == Given(args[1]) && quantity == (if |args| >= 3 then args[2] else DEFAULT_QUANTITY)
    ensures |args| < 2 ==>
      price == "0.6" && target == Computed(DefaultTarget(t0, t1, tz)) && quantity == DEFAULT_QUANTITY
  {
    quantity := DEFAULT_QUANTITY;
    if |args| >= 2 {
      price := args[0];
      target := Given(args[1]);
      if |args| >= 3 {
        quantity := args[2];
      }
    } else {
      price := "0.6";
      var defaultTime := new Date(t0, tz);
      defaultTime.SetHoursFull(18, 0, 0, 0);
      if t1 > defaultTime.time {
        AddDaysShift(defaultTime.time, tz, 1);
        defaultTime.AddDays(1);
      }
      target := Computed(defaultTime.time);
    }
  }
}
