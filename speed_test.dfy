/**
 * Order-speed experiments (src/speedTest.ts): account selection, the holdings
 * query, the sequential order run and its statistics, the two flood loops that
 * issue requests until a deadline, and the non-blocking batch test. Readings of
 * `getAdjustedTime()` come from `clock`, readings of `Date.now()` inside the
 * order builders from `stamps`; replies from the exchange are passed in.
 */
module SpeedTest {
  import opened Wrappers
  import opened Seqs
  import opened Strings
  import opened Dates
  import opened Signature
  import opened Order
  import opened Stats
  import opened Holdings

  /** A defined index that selects an account: an integer within `0 <= i < n`. */
  predicate Selects(index: Option<JsInt>, n: nat) {
    index.Some? && index.value.Int? && 0 <= index.value.value < n
  }

  /** `getAccounts(accountIndex)`: one account for a valid index, all of them otherwise. */
  function GetAccounts(accounts: seq<Account>, index: Option<JsInt>): (r: seq<Account>)
    ensures Selects(index, |accounts|) ==> r == [accounts[index.value.value]]
    ensures !Selects(index, |accounts|) ==> r == accounts
  {
    if index.Some? && index.value.Int? && index.value.value >= 0 && index.value.value < |accounts|
    then [accounts[index.value.value]]
    else accounts
  }

  /** `{ RED, USDT }`, each a balance or `null`. */
  datatype AccountHoldings = AccountHoldings(red: Option<Balance>, usdt: Option<Balance>)

  /** `queryHoldings(account)`: on an error both entries are `null`. */
  method QueryHoldings(account: Account, now: int, createSignature: Signer, reply: Result<seq<Balance>, string>)
    returns (sent: HttpRequest, h: AccountHoldings)
    ensures sent == HoldingsRequest(account, now, createSignature)
    ensures reply.Failure? ==> h.red.None? && h.usdt.None?
    ensures reply.Success? ==>
      h.red == Some(OrZero(FindAsset(reply.value, "RED"), "RED"))
      && h.usdt == Some(OrZero(FindAsset(reply.value, "USDT"), "USDT"))
  {
    var params := new SearchParams([("timestamp", IntToString(now))]);
    var r;
    sent, r := BinanceRequest(account, "/api/v3/account", GET, None, params, Spot, createSignature, reply);
    if r.Success? {
      var redBalance := FindAsset(r.value, "RED");
      var usdtBalance := FindAsset(r.value, "USDT");
      h := AccountHoldings(Some(OrZero(redBalance, "RED")), Some(OrZero(usdtBalance, "USDT")));
    } else {
      h := AccountHoldings(None, None);
    }
  }

  /** The fields of the order reply the run reads: `orderId` and the optional `time`. */
  datatype Ack = Ack(orderId: int, time: Option<int>)

  /** One entry of `orderResults`. */
  datatype OrderRecord = OrderRecord(
    index: int, success: bool, orderId: Option<int>, elapsed: int, orderTime: Option<int>, error: Option<string>)

  /** The record for the `k`-th order (counting from 0) whose reply was `reply`. */
  predicate Records(r: OrderRecord, k: int, account: Account, reply: Result<Ack, string>, elapsed: int) {
    r.index == k + 1 && r.elapsed == elapsed && (r.success <==> reply.Success?)
    && (reply.Success? ==> r.orderId == Some(reply.value.orderId) && r.orderTime == reply.value.time && r.error == None)
    && (reply.Failure? ==>
          r.orderId == None && r.orderTime == None && r.error == Some(FailureMessage(account.name, reply.error)))
  }

  /**
   * The sequential run of `testConsecutiveOrders` (lines 107-114 and 133-173): no
   * accounts ends it; otherwise the first account places `orderCount` orders one after
   * another. `clock[0]` is the start reading, `clock[k + 1]` the reading after order `k`.
   */
  method ConsecutiveOrders(accounts: seq<Account>, price: string, quantity: string, orderCount: int,
                           createSignature: Signer, clock: seq<int>, stamps: seq<int>,
                           replies: seq<Result<Ack, string>>)
    returns (records: Option<seq<OrderRecord>>, sent: seq<OrderCall>)
    requires 0 < |clock| && orderCount < |clock| && orderCount <= |stamps| && orderCount <= |replies|
    ensures accounts == [] ==> records == None && sent == []
    ensures accounts != [] ==>
      records.Some? && |records.value| == |sent| == (if orderCount > 0 then orderCount else 0)
    ensures accounts != [] ==> forall k :: 0 <= k < |sent| ==> sent[k] == OrderCall(accounts[0], price, quantity, stamps[k])
    ensures accounts != [] ==> forall k :: 0 <= k < |records.value| ==>
      Records(records.value[k], k, accounts[0], replies[k], clock[k + 1] - clock[0])
  {
    if |accounts| == 0 {
      return None, [];
    }
    var account := accounts[0];
    var startTime := clock[0];
    var orderResults := [];
    sent := [];
    var i := 0;
    while i < orderCount
      invariant 0 <= i && (orderCount > 0 ==> i <= orderCount)
      invariant orderCount <= 0 ==> i == 0
      invariant |orderResults| == |sent| == i
      invariant forall k :: 0 <= k < i ==> sent[k] == OrderCall(account, price, quantity, stamps[k])
      invariant forall k :: 0 <= k < i ==> Records(orderResults[k], k, account, replies[k], clock[k + 1] - startTime)
    {
      var _, orderResult := PlaceOrder(account, price, Some(quantity), stamps[i], createSignature, replies[i]);
      var orderTime := clock[i + 1];
      var elapsedMs := orderTime - startTime;
      var record;
      match orderResult {
        case Placed(data) =>
          record := OrderRecord(i + 1, true, Some(data.orderId), elapsedMs, data.time, None);
        case Rejected(error) =>
          record := OrderRecord(i + 1, false, None, elapsedMs, None, Some(error));
      }
      orderResults := orderResults + [record];
      sent := sent + [OrderCall(account, price, quantity, stamps[i])];
      i := i + 1;
    }
    records := Some(orderResults);
  }

  /** `orderResults.filter((r) => r.success).length` */
  function SuccessCount(rs: seq<OrderRecord>): nat {
    if rs == [] then 0 else (if rs[0].success then 1 else 0) + SuccessCount(rs[1..])
  }

  /** JavaScript truthiness of an optional number. */
  predicate TruthyNumber(t: Option<int>) { t.Some? && t.value != 0 }

  /** `orderResults.filter((r) => r.success && r.orderTime).map((r) => r.orderTime)` */
  function OrderTimes(rs: seq<OrderRecord>): seq<int> {
    if rs == [] then []
    else (if rs[0].success && TruthyNumber(rs[0].orderTime) then [rs[0].orderTime.value] else [])
         + OrderTimes(rs[1..])
  }

  /** `Math.min(...xs)` of a non-empty list. */
  function MinOf(xs: seq<int>): (m: int)
    requires xs != []
    ensures m in xs && forall k :: 0 <= k < |xs| ==> m <= xs[k]
  {
    if |xs| == 1 then xs[0]
    else
      var rest := MinOf(xs[1..]);
      assert forall k :: 1 <= k < |xs| ==> xs[k] == xs[1..][k - 1];
      if xs[0] <= rest then xs[0] else rest
  }

  /** `Math.max(...xs)` of a non-empty list. */
  function MaxOf(xs: seq<int>): (m: int)
    requires xs != []
    ensures m in xs && forall k :: 0 <= k < |xs| ==> xs[k] <= m
  {
    if |xs| == 1 then xs[0]
    else
      var rest := MaxOf(xs[1..]);
      assert forall k :: 1 <= k < |xs| ==> xs[k] == xs[1..][k - 1];
      if xs[0] >= rest then xs[0] else rest
  }

  /** The reported span `maxTime - minTime`, present when some successful order has a time. */
  function TimeSpan(rs: seq<OrderRecord>): Option<int> {
    if SuccessCount(rs) > 0 && |OrderTimes(rs)| > 0
    then Some(MaxOf(OrderTimes(rs)) - MinOf(OrderTimes(rs)))
    else None
  }

  /** At most one success per record, and an order time only for a successful record. */
  lemma {:induction false} CountsBounded(rs: seq<OrderRecord>)
    ensures SuccessCount(rs) <= |rs|
    ensures |OrderTimes(rs)| <= SuccessCount(rs)
  {
    if rs != [] {
      CountsBounded(rs[1..]);
    }
  }

  /**
   * The span is reported exactly when some successful order carries a time, and then
   * it is non-negative and covers every reported time.
   */
  lemma TimeSpanNonNegative(rs: seq<OrderRecord>)
    ensures TimeSpan(rs).Some? <==> |OrderTimes(rs)| > 0
    ensures TimeSpan(rs).Some? ==> TimeSpan(rs).value >= 0
    ensures TimeSpan(rs).Some? ==>
      forall k :: 0 <= k < |OrderTimes(rs)| ==>
           MinOf(OrderTimes(rs)) <= OrderTimes(rs)[k] <= MinOf(OrderTimes(rs)) + TimeSpan(rs).value
  {
    CountsBounded(rs);
    if |OrderTimes(rs)| > 0 {
      var xs := OrderTimes(rs);
      assert MinOf(xs) <= xs[0] <= MaxOf(xs);
    }
  }

  /** A loop-head reading that lets one more request go: `<` or `<=` the deadline. */
  predicate Before(x: int, deadline: int, inclusive: bool) {
    if inclusive then x <= deadline else x < deadline
  }

  /** How many readings, from the first, pass the loop test before one fails it. */
  function LeadingCount(xs: seq<int>, deadline: int, inclusive: bool): (n: nat)
    ensures n <= |xs|
  {
    if xs != [] && Before(xs[0], deadline, inclusive) then 1 + LeadingCount(xs[1..], deadline, inclusive) else 0
  }

  /** The count is the position of the first reading that fails the test. */
  lemma {:induction false} LeadingCountIs(xs: seq<int>, deadline: int, inclusive: bool, n: nat)
    requires n < |xs| && !Before(xs[n], deadline, inclusive)
    requires forall j :: 0 <= j < n ==> Before(xs[j], deadline, inclusive)
    ensures LeadingCount(xs, deadline, inclusive) == n
  {
    if n > 0 {
      assert forall j :: 0 <= j < n - 1 ==> xs[1..][j] == xs[j + 1];
      LeadingCountIs(xs[1..], deadline, inclusive, n - 1);
    }
  }

  /** A later deadline never issues fewer requests. */
  lemma {:induction false} LeadingCountMonotone(xs: seq<int>, d1: int, d2: int, inclusive: bool)
    requires d1 <= d2
    ensures LeadingCount(xs, d1, inclusive) <= LeadingCount(xs, d2, inclusive)
  {
    if xs != [] && Before(xs[0], d1, inclusive) {
      LeadingCountMonotone(xs[1..], d1, d2, inclusive);
    }
  }

  /**
   * On the same readings, the `<=` loop of the optimized test issues at least as many
   * requests as the `<` loop, and at most the readings that equal the deadline more.
   */
  lemma {:induction false} InclusiveIssuesMore(xs: seq<int>, deadline: int)
    ensures LeadingCount(xs, deadline, false) <= LeadingCount(xs, deadline, true)
    ensures NonDecreasing(xs) && (forall k :: 0 <= k < |xs| ==> xs[k] != deadline) ==>
      LeadingCount(xs, deadline, false) == LeadingCount(xs, deadline, true)
  {
    if xs != [] && xs[0] < deadline {
      assert NonDecreasing(xs) ==> NonDecreasing(xs[1..]);
      InclusiveIssuesMore(xs[1..], deadline);
    }
  }

  /** A clock never runs backwards. */
  predicate NonDecreasing(xs: seq<int>) {
    forall j, k :: 0 <= j <= k < |xs| ==> xs[j] <= xs[k]
  }

  /**
   * The flood loop of `testOrderPerformance` (lines 273-305): `order` is called once per
   * loop-head reading strictly before `start + durationMs`, without waiting for it.
   * `clock[0]` is the start, `clock[1..]` the loop heads, then the final reading.
   */
  method FloodBlocking(account: Account, price: string, quantity: string, durationMs: int,
                       clock: seq<int>, stamps: seq<int>)
    returns (orderCount: nat, elapsed: int, qps: Rate, sent: seq<OrderCall>)
    requires |clock| >= 3 && clock[|clock| - 2] >= clock[0] + durationMs
    requires |stamps| >= |clock|
    ensures orderCount == LeadingCount(clock[1..], clock[0] + durationMs, false)
    ensures forall k :: 1 <= k <= orderCount ==> clock[k] < clock[0] + durationMs
    ensures orderCount + 2 < |clock| && clock[orderCount + 1] >= clock[0] + durationMs
    ensures elapsed == clock[orderCount + 2] - clock[0]
    ensures NonDecreasing(clock) ==> elapsed >= durationMs
    ensures qps == RoundedRate(orderCount, elapsed)
    ensures |sent| == orderCount
    ensures forall k :: 0 <= k < orderCount ==> sent[k] == OrderCall(account, price, quantity, stamps[k])
  {
    var startTime := clock[0];
    var endTime := startTime + durationMs;
    orderCount := 0;
    sent := [];
    var i := 1;
    while clock[i] < endTime
      invariant 1 <= i <= |clock| - 2
      invariant orderCount == i - 1 == |sent|
      invariant forall k :: 1 <= k < i ==> clock[k] < endTime
      invariant forall k :: 0 <= k < orderCount ==> sent[k] == OrderCall(account, price, quantity, stamps[k])
      decreases |clock| - i
    {
      orderCount := orderCount + 1;
      sent := sent + [OrderCall(account, price, quantity, stamps[i - 1])];
      i := i + 1;
    }
    forall j | 0 <= j < i - 1 ensures Before(clock[1..][j], endTime, false) {
      assert clock[1..][j] == clock[j + 1];
    }
    LeadingCountIs(clock[1..], endTime, false, i - 1);
    var actualEndTime := clock[i + 1];
    elapsed := actualEndTime - startTime;
    qps := RoundedRate(orderCount, elapsed);
  }

  /** `createOrderParams()`: the seven order fields, signed, with `signature` appended. */
  method CreateOrderParams(quantity: string, price: string, timestamp: int, secretKey: string, createSignature: Signer)
    returns (s: string)
    ensures var body := Serialize(OrderParams(quantity, price, IntToString(timestamp)));
      s == body + "&signature=" + createSignature(body, secretKey)
    ensures s == Serialize(SignedParams(OrderParams(quantity, price, IntToString(timestamp)), secretKey, createSignature))
  {
    var params := new SearchParams(OrderParams(quantity, price, IntToString(timestamp)));
    var signature := createSignature(params.ToString(), secretKey);
    params.Append("signature", signature);
    s := params.ToString();
    SignedWire(OrderParams(quantity, price, IntToString(timestamp)), secretKey, createSignature);
  }

  /** The headers of the optimized test's client. */
  function OptimizedHeaders(account: Account): seq<Pair> {
    [("X-MBX-APIKEY", account.apiKey), ("X-MBX-TIME-UNIT", "MICROSECOND")]
  }

  /** The POST the optimized loop issues for one reading of `Date.now()`. */
  function OptimizedPost(account: Account, price: string, quantity: string, stamp: int, createSignature: Signer): HttpRequest {
    HttpRequest(
      "https://api4.binance.com" + "/api/v3/order" + "?"
        + Serialize(SignedParams(OrderParams(quantity, price, IntToString(stamp)), account.secretKey, createSignature)),
      POST, OptimizedHeaders(account), None)
  }

  /**
   * One pass of the optimized loop (lines 416-421): the pre-signed query from
   * `createOrderParams()` is put after `?` on the order endpoint and POSTed with no body.
   */
  method OptimizedRequest(account: Account, price: string, quantity: string, stamp: int, createSignature: Signer)
    returns (post: HttpRequest)
    ensures post == OptimizedPost(account, price, quantity, stamp, createSignature)
  {
    var baseURL := "https://api4.binance.com";
    var endpointPath := "/api/v3/order";
    var query := CreateOrderParams(quantity, price, stamp, account.secretKey, createSignature);
    var url := baseURL + endpointPath + "?" + query;
    post := HttpRequest(url, POST, OptimizedHeaders(account), None);
  }

  /**
   * The flood loop of `testOrderPerformanceOptimized` (lines 369-429): one POST per
   * loop-head reading at or before `start + durationMs`, so the count is the posts issued.
   * `posts[k]` records the data of the k-th POST; `OptimizedRequest` is the request built from it.
   */
  method FloodOptimized(account: Account, price: string, quantity: string, durationMs: int,
                        createSignature: Signer, clock: seq<int>, stamps: seq<int>)
    returns (orderCount: nat, elapsed: int, qps: Rate, posts: seq<OrderCall>)
    requires |clock| >= 3 && clock[|clock| - 2] > clock[0] + durationMs
    requires |stamps| >= |clock|
    ensures orderCount == LeadingCount(clock[1..], clock[0] + durationMs, true)
    ensures forall k :: 1 <= k <= orderCount ==> clock[k] <= clock[0] + durationMs
    ensures orderCount + 2 < |clock| && clock[orderCount + 1] > clock[0] + durationMs
    ensures elapsed == clock[orderCount + 2] - clock[0]
    ensures NonDecreasing(clock) ==> elapsed > durationMs
    ensures qps == RoundedRate(orderCount, elapsed)
    ensures |posts| == orderCount
    ensures forall k :: 0 <= k < orderCount ==> posts[k] == OrderCall(account, price, quantity, stamps[k])
  {
    var startTime := clock[0];
    var endTimeMs := startTime + durationMs;
    orderCount := 0;
    posts := [];
    var i := 1;
    while clock[i] <= endTimeMs
      invariant 1 <= i <= |clock| - 2
      invariant orderCount == i - 1 == |posts|
      invariant forall k :: 1 <= k < i ==> clock[k] <= endTimeMs
      invariant forall k :: 0 <= k < orderCount ==> posts[k] == OrderCall(account, price, quantity, stamps[k])
      decreases |clock| - i
    {
      posts := posts + [OrderCall(account, price, quantity, stamps[i - 1])];
      orderCount := orderCount + 1;
      i := i + 1;
    }
    forall j | 0 <= j < i - 1 ensures Before(clock[1..][j], endTimeMs, true) {
      assert clock[1..][j] == clock[j + 1];
    }
    LeadingCountIs(clock[1..], endTimeMs, true, i - 1);
    var actualEndTime := clock[i + 1];
    elapsed := actualEndTime - startTime;
    qps := RoundedRate(orderCount, elapsed);
  }

  /**
   * `new Date(y, m, d, targetHour, targetMinute, 0, 0)` from the host's date of `now`:
   * local wall time, no UTC+8 correction and no roll to the next day.
   */
  function TargetToday(now: int, tz: int, targetHour: int, targetMinute: int): int {
    UtcTime(MakeLocal(Day(LocalTime(now, tz)), targetHour, targetMinute, 0, 0), tz)
  }

  /** The non-blocking target reads `targetHour:targetMinute:00.000` on today's local date, even when past. */
  lemma TargetTodayFields(now: int, tz: int, targetHour: int, targetMinute: int)
    requires 0 <= targetHour < 24 && 0 <= targetMinute < 60
    ensures var w := LocalTime(TargetToday(now, tz, targetHour, targetMinute), tz);
      Day(w) == Day(LocalTime(now, tz)) && HourOf(w) == targetHour && MinuteOf(w) == targetMinute
      && SecondOf(w) == 0 && MillisOf(w) == 0
  {
    Compose(Day(LocalTime(now, tz)), targetHour, targetMinute, 0, 0);
  }

  /** The exchange calls `testNonBlockingOrders` makes, in order. */
  datatype Call =
    | HoldingsQuery(account: Account)
    | OpenOrdersQuery(account: Account)
    | CancelAll(account: Account)
    | BatchDispatch(accounts: seq<Account>, price: string, targetTime: int, durationMs: int,
                    startOffsetMs: int, quantity: string, prewarm: bool, prewarmSeconds: seq<int>)

  /**
   * The clean-up phase: per account, the open-order query and, when it lists orders, a
   * cancel. The first failure (of either; neither is caught) ends the phase with its message.
   */
  function Cleanup(accounts: seq<Account>, openOrders: seq<Result<nat, string>>,
                   cancels: seq<Result<(), string>>): (seq<Call>, Option<string>)
    requires |openOrders| >= |accounts| && |cancels| >= |accounts|
  {
    if accounts == [] then ([], None)
    else
      var a := accounts[0];
      if openOrders[0].Failure? then ([OpenOrdersQuery(a)], Some(FailureMessage(a.name, openOrders[0].error)))
      else if openOrders[0].value > 0 && cancels[0].Failure? then
        ([OpenOrdersQuery(a), CancelAll(a)], Some(FailureMessage(a.name, cancels[0].error)))
      else
        var (rest, err) := Cleanup(accounts[1..], openOrders[1..], cancels[1..]);
        ((if openOrders[0].value > 0 then [OpenOrdersQuery(a), CancelAll(a)] else [OpenOrdersQuery(a)]) + rest, err)
  }

  /** How many accounts list open orders. */
  function WithOpenOrders(openOrders: seq<Result<nat, string>>): nat {
    if openOrders == [] then 0
    else (if openOrders[0].Success? && openOrders[0].value > 0 then 1 else 0) + WithOpenOrders(openOrders[1..])
  }

  /** Account `j`'s clean-up throws: its query failed, or it listed orders and the cancel failed. */
  predicate FailsAt(openOrders: seq<Result<nat, string>>, cancels: seq<Result<(), string>>, j: nat)
    requires j < |openOrders| && j < |cancels|
  {
    openOrders[j].Failure? || (openOrders[j].value > 0 && cancels[j].Failure?)
  }

  /** The error account `j`'s clean-up throws. */
  function FailureAt(openOrders: seq<Result<nat, string>>, cancels: seq<Result<(), string>>, j: nat): string
    requires j < |openOrders| && j < |cancels| && FailsAt(openOrders, cancels, j)
  {
    if openOrders[j].Failure? then openOrders[j].error else cancels[j].error
  }

  /** A clean-up over some account opens with the query of the first one. */
  lemma CleanupStartsWithQuery(accounts: seq<Account>, openOrders: seq<Result<nat, string>>,
                               cancels: seq<Result<(), string>>)
    requires |openOrders| >= |accounts| && |cancels| >= |accounts| && accounts != []
    ensures Cleanup(accounts, openOrders, cancels).0 != []
    ensures Cleanup(accounts, openOrders, cancels).0[0] == OpenOrdersQuery(accounts[0])
  {
  }

  /** A clean-up that meets no failure makes one query per account and one cancel per account with open orders. */
  lemma {:induction false} CleanupLength(accounts: seq<Account>, openOrders: seq<Result<nat, string>>,
                                         cancels: seq<Result<(), string>>)
    requires |openOrders| == |accounts| && |cancels| == |accounts|
    requires forall j :: 0 <= j < |accounts| ==> !FailsAt(openOrders, cancels, j)
    ensures Cleanup(accounts, openOrders, cancels).1.None?
    ensures |Cleanup(accounts, openOrders, cancels).0| == |accounts| + WithOpenOrders(openOrders)
  {
    if accounts != [] {
      assert !FailsAt(openOrders, cancels, 0);
      forall j | 0 <= j < |accounts| - 1 ensures !FailsAt(openOrders[1..], cancels[1..], j) {
        assert !FailsAt(openOrders, cancels, j + 1);
      }
      CleanupLength(accounts[1..], openOrders[1..], cancels[1..]);
    }
  }

  /**
   * In a clean-up that meets no failure, account k's query sits after the calls of the
   * accounts before it, and is followed by a cancel of that account exactly when it
   * listed open orders.
   */
  lemma {:induction false} CleanupCallAt(accounts: seq<Account>, openOrders: seq<Result<nat, string>>,
                                         cancels: seq<Result<(), string>>, k: nat)
    requires |openOrders| == |accounts| && |cancels| == |accounts| && k < |accounts|
    requires forall j :: 0 <= j < |accounts| ==> !FailsAt(openOrders, cancels, j)
    ensures var calls := Cleanup(accounts, openOrders, cancels).0;
      var i := k + WithOpenOrders(openOrders[..k]);
      i < |calls| && calls[i] == OpenOrdersQuery(accounts[k]) && openOrders[k].Success?
      && (openOrders[k].value > 0 <==> i + 1 < |calls| && calls[i + 1] == CancelAll(accounts[k]))
  {
    var a := accounts[0];
    assert !FailsAt(openOrders, cancels, 0);
    assert !FailsAt(openOrders, cancels, k);
    var rest := Cleanup(accounts[1..], openOrders[1..], cancels[1..]).0;
    var step := if openOrders[0].value > 0 then [OpenOrdersQuery(a), CancelAll(a)] else [OpenOrdersQuery(a)];
    assert Cleanup(accounts, openOrders, cancels).0 == step + rest;
    if k == 0 {
      assert WithOpenOrders(openOrders[..0]) == 0;
      if openOrders[0].value == 0 && |accounts| > 1 {
        CleanupStartsWithQuery(accounts[1..], openOrders[1..], cancels[1..]);
      }
    } else {
      forall j | 0 <= j < |accounts| - 1 ensures !FailsAt(openOrders[1..], cancels[1..], j) {
        assert !FailsAt(openOrders, cancels, j + 1);
      }
      CleanupCallAt(accounts[1..], openOrders[1..], cancels[1..], k - 1);
      assert openOrders[..k][1..] == openOrders[1..][..k - 1];
      assert |step| == 1 + WithOpenOrders(openOrders[..k][..1]) by { assert openOrders[..k][..1][1..] == []; }
      assert accounts[k] == accounts[1..][k - 1] && openOrders[k] == openOrders[1..][k - 1];
    }
  }

  /**
   * A clean-up that meets no failure queries every account once, in order, and cancels
   * exactly the accounts that listed open orders, each right after its query.
   */
  lemma CleanupCalls(accounts: seq<Account>, openOrders: seq<Result<nat, string>>,
                     cancels: seq<Result<(), string>>)
    requires |openOrders| == |accounts| && |cancels| == |accounts|
    requires forall j :: 0 <= j < |accounts| ==> !FailsAt(openOrders, cancels, j)
    ensures Cleanup(accounts, openOrders, cancels).1.None?
    ensures var calls := Cleanup(accounts, openOrders, cancels).0;
      |calls| == |accounts| + WithOpenOrders(openOrders)
      && forall k :: 0 <= k < |accounts| ==>
        var i := k + WithOpenOrders(openOrders[..k]);
        i < |calls| && calls[i] == OpenOrdersQuery(accounts[k]) && openOrders[k].Success?
        && (openOrders[k].value > 0 <==> i + 1 < |calls| && calls[i + 1] == CancelAll(accounts[k]))
  {
    CleanupLength(accounts, openOrders, cancels);
    forall k | 0 <= k < |accounts|
      ensures var calls := Cleanup(accounts, openOrders, cancels).0;
        var i := k + WithOpenOrders(openOrders[..k]);
        i < |calls| && calls[i] == OpenOrdersQuery(accounts[k]) && openOrders[k].Success?
        && (openOrders[k].value > 0 <==> i + 1 < |calls| && calls[i + 1] == CancelAll(accounts[k]))
    {
      CleanupCallAt(accounts, openOrders, cancels, k);
    }
  }

  /**
   * The first account whose clean-up throws ends the phase with that account's name and
   * error; the calls are those of the accounts before it, then its own up to the failure.
   */
  lemma {:induction false} CleanupFirstFailure(accounts: seq<Account>, openOrders: seq<Result<nat, string>>,
                                               cancels: seq<Result<(), string>>, j: nat)
    requires |openOrders| == |accounts| && |cancels| == |accounts|
    requires j < |accounts| && FailsAt(openOrders, cancels, j)
    requires forall i :: 0 <= i < j ==> !FailsAt(openOrders, cancels, i)
    ensures Cleanup(accounts, openOrders, cancels).1
         == Some(FailureMessage(accounts[j].name, FailureAt(openOrders, cancels, j)))
    ensures Cleanup(accounts, openOrders, cancels).0
         == Cleanup(accounts[..j], openOrders[..j], cancels[..j]).0
            + (if openOrders[j].Failure? then [OpenOrdersQuery(accounts[j])]
               else [OpenOrdersQuery(accounts[j]), CancelAll(accounts[j])])
  {
    if j == 0 {
      assert accounts[..0] == [];
    } else {
      assert !FailsAt(openOrders, cancels, 0);
      forall i | 0 <= i < j - 1 ensures !FailsAt(openOrders[1..], cancels[1..], i) {
        assert !FailsAt(openOrders, cancels, i + 1);
      }
      assert FailsAt(openOrders[1..], cancels[1..], j - 1);
      CleanupFirstFailure(accounts[1..], openOrders[1..], cancels[1..], j - 1);
      assert accounts[..j][1..] == accounts[1..][..j - 1];
      assert openOrders[..j][1..] == openOrders[1..][..j - 1];
      assert cancels[..j][1..] == cancels[1..][..j - 1];
      var a := accounts[0];
      var step := if openOrders[0].value > 0 then [OpenOrdersQuery(a), CancelAll(a)] else [OpenOrdersQuery(a)];
      var before := Cleanup(accounts[1..][..j - 1], openOrders[1..][..j - 1], cancels[1..][..j - 1]).0;
      var own := if openOrders[j].Failure? then [OpenOrdersQuery(accounts[j])]
                 else [OpenOrdersQuery(accounts[j]), CancelAll(accounts[j])];
      assert Cleanup(accounts[..j], openOrders[..j], cancels[..j]).0 == step + before;
      ConcatAssoc(step, before, own);
    }
  }

  /** The phase ends cleanly exactly when no account's query or needed cancel fails. */
  lemma {:induction false} CleanupAbortsIffFailure(accounts: seq<Account>, openOrders: seq<Result<nat, string>>,
                                                   cancels: seq<Result<(), string>>)
    requires |openOrders| == |accounts| && |cancels| == |accounts|
    ensures Cleanup(accounts, openOrders, cancels).1.None?
        <==> forall j :: 0 <= j < |accounts| ==> !FailsAt(openOrders, cancels, j)
  {
    if forall j :: 0 <= j < |accounts| ==> !FailsAt(openOrders, cancels, j) {
      CleanupLength(accounts, openOrders, cancels);
    } else {
      var j :| 0 <= j < |accounts| && FailsAt(openOrders, cancels, j);
      var first := FirstFailing(openOrders, cancels, j);
      CleanupFirstFailure(accounts, openOrders, cancels, first);
    }
  }

  /** The least failing index at or below a failing one. */
  lemma {:induction false} FirstFailing(openOrders: seq<Result<nat, string>>, cancels: seq<Result<(), string>>, j: nat)
    returns (first: nat)
    requires j < |openOrders| && j < |cancels| && FailsAt(openOrders, cancels, j)
    ensures first <= j && FailsAt(openOrders, cancels, first)
    ensures forall i :: 0 <= i < first ==> !FailsAt(openOrders, cancels, i)
    decreases j
  {
    if exists i :: 0 <= i < j && FailsAt(openOrders, cancels, i) {
      var i :| 0 <= i < j && FailsAt(openOrders, cancels, i);
      first := FirstFailing(openOrders, cancels, i);
    } else {
      first := j;
    }
  }

  /** `Cleanup` of a suffix of the accounts, unfolded once. */
  lemma CleanupStep(accounts: seq<Account>, openOrders: seq<Result<nat, string>>,
                    cancels: seq<Result<(), string>>, k: nat)
    requires k < |accounts| <= |openOrders| && |accounts| <= |cancels|
    ensures var a := accounts[k];
      Cleanup(accounts[k..], openOrders[k..], cancels[k..])
      == if openOrders[k].Failure? then ([OpenOrdersQuery(a)], Some(FailureMessage(a.name, openOrders[k].error)))
         else if openOrders[k].value > 0 && cancels[k].Failure? then
           ([OpenOrdersQuery(a), CancelAll(a)], Some(FailureMessage(a.name, cancels[k].error)))
         else
           var next := Cleanup(accounts[k + 1..], openOrders[k + 1..], cancels[k + 1..]);
           ((if openOrders[k].value > 0 then [OpenOrdersQuery(a), CancelAll(a)] else [OpenOrdersQuery(a)]) + next.0, next.1)
  {
    assert accounts[k..][1..] == accounts[k + 1..];
    assert openOrders[k..][1..] == openOrders[k + 1..];
    assert cancels[k..][1..] == cancels[k + 1..];
  }

  /** The clean-up loop (lines 505-513), account by account. */
  method CleanupPhase(accounts: seq<Account>, openOrders: seq<Result<nat, string>>, cancels: seq<Result<(), string>>)
    returns (calls: seq<Call>, err: Option<string>)
    requires |openOrders| >= |accounts| && |cancels| >= |accounts|
    ensures (calls, err) == Cleanup(accounts, openOrders, cancels)
  {
    calls := [];
    assert accounts[0..] == accounts && openOrders[0..] == openOrders && cancels[0..] == cancels;
    var k := 0;
    while k < |accounts|
      invariant 0 <= k <= |accounts|
      invariant Cleanup(accounts, openOrders, cancels).1 == Cleanup(accounts[k..], openOrders[k..], cancels[k..]).1
      invariant Cleanup(accounts, openOrders, cancels).0 == calls + Cleanup(accounts[k..], openOrders[k..], cancels[k..]).0
    {
      CleanupStep(accounts, openOrders, cancels, k);
      var a := accounts[k];
      ghost var prior := calls;
      ghost var next := Cleanup(accounts[k + 1..], openOrders[k + 1..], cancels[k + 1..]);
      calls := calls + [OpenOrdersQuery(a)];
      if openOrders[k].Failure? {
        return calls, Some(FailureMessage(a.name, openOrders[k].error));
      }
      if openOrders[k].value > 0 {
        calls := calls + [CancelAll(a)];
        assert calls == prior + [OpenOrdersQuery(a), CancelAll(a)];
        if cancels[k].Failure? {
          return calls, Some(FailureMessage(a.name, cancels[k].error));
        }
      }
      ghost var step := if openOrders[k].value > 0 then [OpenOrdersQuery(a), CancelAll(a)] else [OpenOrdersQuery(a)];
      assert calls == prior + step;
      assert Cleanup(accounts, openOrders, cancels).0 == prior + (step + next.0);
      ConcatAssoc(prior, step, next.0);
      k := k + 1;
    }
    assert accounts[k..] == [];
    assert Cleanup(accounts[k..], openOrders[k..], cancels[k..]) == ([], None);
    assert calls + [] == calls;
    err := None;
  }

  /**
   * `testNonBlockingOrders` after account selection (lines 468-540): the target is
   * today's `targetHour:targetMinute` from the reading `now`, then come the holdings of
   * each account, the clean-up, the batch dispatch with pre-warm at 30, 15 and 5 seconds,
   * and the figures over the batch results and the configured duration.
   */
  method NonBlockingOrders(accounts: seq<Account>, price: string, quantity: string, durationMs: int,
                           startOffsetMs: int, now: int, tz: int, targetHour: int, targetMinute: int,
                           openOrders: seq<Result<nat, string>>, cancels: seq<Result<(), string>>,
                           results: seq<DispatchResult>)
    returns (calls: seq<Call>, outcome: Result<Summary, string>)
    requires |openOrders| >= |accounts| && |cancels| >= |accounts|
    ensures |calls| >= |accounts|
    ensures forall k :: 0 <= k < |accounts| ==> calls[k] == HoldingsQuery(accounts[k])
    ensures var (cleanup, err) := Cleanup(accounts, openOrders, cancels);
      calls[|accounts|..] == cleanup
        + (if err.None?
           then [BatchDispatch(accounts, price, TargetToday(now, tz, targetHour, targetMinute), durationMs,
                               startOffsetMs, quantity, true, [30, 15, 5])]
           else [])
      && outcome == if err.None? then Success(Summarize(results, durationMs)) else Failure(err.value)
  {
    var targetTime := TargetToday(now, tz, targetHour, targetMinute);
    calls := [];
    for k := 0 to |accounts|
      invariant |calls| == k
      invariant forall j :: 0 <= j < k ==> calls[j] == HoldingsQuery(accounts[j])
    {
      calls := calls + [HoldingsQuery(accounts[k])];
    }
    var cleanup, err := CleanupPhase(accounts, openOrders, cancels);
    calls := calls + cleanup;
    if err.Some? {
      outcome := Failure(err.value);
      return;
    }
    calls := calls + [BatchDispatch(accounts, price, targetTime, durationMs, startOffsetMs, quantity, true, [30, 15, 5])];
    outcome := Success(Summarize(results, durationMs));
  }
}
