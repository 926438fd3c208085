# red-usdt order tooling, modelled in Dafny

This project models the scripts of the red-usdt repository. They place RED/USDT limit orders on the Binance spot API at a chosen instant. The model covers:

- **Clock calibration.** One process-wide offset is kept, and adjusted time is `local + offset`. A UTC+8 target-instant builder sits on top.
- **Order requests.** `order` builds the seven-field body, signs it and sends it. The helpers query and cancel open orders.
- **Retry loop.** `tryOrderUntilSuccess` retries until an order succeeds or a deadline passes. `main` fans it out over every account, in a window from 10 s before the target to 20 s after it.
- **18:00 launchers.** `run`, `run-tomorrow` and the command line of `order.ts` target 18:00 local time.
- **Speed experiments.** These cover account selection, the holdings query and the sequential order run with its statistics. They also cover the two flood loops that issue requests until a deadline, and the non-blocking batch test with its aggregation.
- **Manual test scripts.** This covers the flag parsers, `||` defaults, command dispatch and step order of `test.ts` and `run-test.ts`.
- **Market order.** This covers `marketOrder`'s defaults and phase order.
- **Signed requests.** This covers the URL, signature, header and error-message assembly of `binanceRequest`.
- **Encrypted key files.** This covers the IV-prefix, hex and `0x` framing of `encryptData` and `decryptData`.
- **Logging layer.** This covers line format, write gating while the stream is open, idempotent close, the memoising registry and legacy name routing.

How the environment is modelled:

- Time is an integer of epoch milliseconds.
- The host's time zone is an explicit `getTimezoneOffset()` value in minutes (`tz`; -480 is UTC+8).
- JavaScript `Date` arithmetic is written out with ECMAScript's Day, MakeTime and MakeDate rules (module `Dates`).
- Each `getAdjustedTime()` or `Date.now()` is a reading taken from a sequence (`clock`, `stamps`).
- What the exchange replies is also a sequence of `Result`s.
- HMAC-SHA256, PBKDF2, AES-256-CBC and UTF-8 coding are uninterpreted functions.

Four behaviours of the code worth knowing:

- The system QPS of a zero-length run is `Infinity` or `NaN` (`Stats.RoundedRate`).
- The mean QPS is taken over all results, successful or not. It is `NaN` for an empty list (`Stats.AverageQps`).
- A failing open-order query or cancel aborts `testNonBlockingOrders` and `marketOrder`. The code catches neither.
- The retry pause in src/order.ts:97 is 50 ms (`setTimeout(resolve, 50)`), although the comment beside it says 200 ms.

Where the code has a bug recorded under "## Findings", both halves are modelled, and the members built on top use the corrected half. For the NaN account index these are the members named under "## Left out".

## Model

| member | source | states |
|---|---|---|
| Strings.ParseAfterWhiteSpace | src/test.ts:223 | `parseInt` skips any ECMAScript white space, non-ASCII spaces and line terminators included, before the digits |
| Strings.NoDigitIsNaN | src/run-test.ts:83 | a value that opens with no white space, sign or digit, such as `abc`, parses to NaN |
| TimeSync.TimeSync.constructor | utils/timeSync.ts:5 | the offset starts at 0, so adjusted time equals local time at every reading |
| TimeSync.TimeSync.GetBinanceServerTime | utils/timeSync.ts:11-55 | a successful probe sets the offset to `serverTime - localTime`, so adjusted time at that reading is the server time; a failed request leaves the offset unchanged and its error is returned unchanged (a non-numeric reply is not modelled) |
| TimeSync.TimeSync.InitTimeSync | utils/timeSync.ts:143-158 | the offset moves as the probe dictates; it fails exactly when the probe failed, with the probe's error |
| TimeSync.TimeSync.GetAdjustedDate | utils/timeSync.ts:70-72 | a new Date denoting the adjusted instant |
| TimeSync.TruncDiv | utils/timeSync.ts:118-121 | the fractional hour handed to `setHours` is truncated toward zero: its magnitude is how many whole times the divisor fits into the magnitude of the dividend, and a non-zero result has the dividend's sign |
| TimeSync.TimeSync.CreateTargetTimeUTC8 | utils/timeSync.ts:101-138 | the step-by-step Date mutation yields exactly the as-written target instant of the adjusted now |
| TimeSync.SetClock | utils/timeSync.ts:121-124 | the four setters leave the same local date at the given hour and minute, seconds and milliseconds zero |
| TimeSync.AsWrittenLocalFields | utils/timeSync.ts:121-124 | the result's local seconds and milliseconds are 0; its local minute is `minutes % 60`, with whole hours carried into the hour |
| TimeSync.AsWrittenWallClock | utils/timeSync.ts:114-121 | on a whole-hour host the result shows the requested hour on a UTC+8 clock iff `(tz + 480) % 720 == 0`; minutes and seconds are right on every host |
| TimeSync.UtcHostSixteenHoursOff | utils/timeSync.ts:114-121 | on a UTC host, asking for 18:00 gives 10:00 UTC+8 |
| TimeSync.AsWrittenDayShift | utils/timeSync.ts:127-133 | with `days > 0` the set instant moves by exactly `days` days and is not rolled; with `days < 0` nothing moves it |
| TimeSync.AsWrittenRollForward | utils/timeSync.ts:132-135 | with `days == 0` one day is added iff now is strictly after the set instant (equality does not roll); when the set time of day lies within the local day, the result is at or after now and less than a day ahead |
| TimeSync.CorrectedWallClock | utils/timeSync.ts:101-138 | the corrected builder shows `hours:minutes:00.000` on the UTC+8 clock on any host, and with `days == 0` lies in `[now, now + 1 day)` |
| TimeSync.AgreeInUtc8 | utils/timeSync.ts:114-121 | on a UTC+8 host the as-written and corrected builders agree |
| Signature.SearchParams.Append | utils/signature.ts:52 | `append` adds the pair at the end and keeps the others |
| Signature.SerializeAppend | utils/signature.ts:51-52 | serialising one more pair appends `&key=value` to the previous serialisation |
| Signature.BinanceRequest | utils/signature.ts:25-85 | base URL by market type; with a truthy query string, the URL carries it and its non-empty signature and the body is left unsigned; otherwise a given body gets the signature of its serialisation appended; the header is exactly the API key; a failure becomes `<name> Request failed: <msg>` |
| Signature.SignedWire | utils/signature.ts:50-53 | the signed body serialises as the original fields then `&signature=` with the signature over exactly those fields |
| Signature.QueryUrlShape | utils/signature.ts:42-49 | a signed query URL is `base + path + "?" + qs + "&signature=" + sig`, part by part |
| Order.OrderWire | src/order.ts:44-56 | the order body is the seven fields in fixed order, followed by the signature over them |
| Order.QueryLimitOrders | src/order.ts:5-19 | a signed GET of symbol and timestamp to the open-orders endpoint; errors propagate wrapped |
| Order.CancelAllLimitOrders | src/order.ts:22-36 | the same body sent to the same endpoint with DELETE; errors propagate wrapped |
| Order.PlaceOrder | src/order.ts:39-75 | never fails: success iff the request succeeded, with its data; otherwise the wrapped error; quantity defaults to 5000 |
| Order.TryOrderUntilSuccess | src/order.ts:78-102 | no attempt when the entry reading is past the deadline; no attempt at a loop-head reading past it; returns true iff some attempt succeeded; all attempts before the last failed and none follow a success; a pause follows each failed attempt only |
| Order.OrderMain | src/order.ts:105-143 | one retry task per account (given or from the file), each ending 20 s after the target; it waits exactly `start - now` when that is positive, where start is 10 s before the target |
| Order.DefaultTargetAt18 | src/order.ts:172-177 | the default target is local 18:00:00.000, of today or, when now is past it, of tomorrow |
| Order.DefaultTargetIsNext | src/order.ts:172-177 | when the two readings are under 18 h apart, the default target is at or after now and less than a day ahead |
| Order.CommandLine | src/order.ts:157-179 | two or more arguments give price, target text and an optional quantity; fewer give price 0.6 at the default 18:00 target |
| Stats.RoundedRate | src/speedTest.ts:538 | `Math.round(count / (ms / 1000))`: within 0.5 of the exact rate for non-zero ms, non-negative for positive ms, `NaN` or `Infinity` for zero ms |
| Stats.AverageQps | src/speedTest.ts:532-533 | undefined exactly for no results; otherwise times the count it is the QPS sum |
| Stats.SummaryPermutationInvariant | src/speedTest.ts:528-538 | permuting the results changes none of the three reported figures |
| Stats.RatesAddUp | src/marketOrder.ts:90-100 | when each account ran for the configured duration, the per-account rates add up to the system rate |
| Holdings.FindAsset | src/speedTest.ts:43-44 | `find` yields the first entry for the asset, and nothing iff no entry has it |
| SpeedTest.GetAccounts | src/speedTest.ts:68-80 | a valid index selects that one account; a missing, out-of-range or NaN index gives all accounts |
| SpeedTest.QueryHoldings | src/speedTest.ts:22-66 | the first RED and USDT entries or zero balances; both `null` on an error |
| SpeedTest.ConsecutiveOrders | src/speedTest.ts:107-173 | no accounts ends the test; otherwise exactly `orderCount` orders from the first account, in order, the k-th an `order` call with the given price and quantity and timestamp `stamps[k]`, each recorded with index k+1, its success, id, time or error and its elapsed time |
| SpeedTest.CountsBounded | src/speedTest.ts:201-213 | successes never exceed the records; order times never exceed the successes |
| SpeedTest.MinOf | src/speedTest.ts:216 | `Math.min` returns a member that bounds all from below |
| SpeedTest.MaxOf | src/speedTest.ts:217 | `Math.max` returns a member that bounds all from above |
| SpeedTest.TimeSpanNonNegative | src/speedTest.ts:209-218 | a span is reported iff some success carries a time; it is non-negative and covers every reported time |
| SpeedTest.LeadingCountIs | src/speedTest.ts:282 | the loop count is the position of the first reading that fails the deadline test |
| SpeedTest.LeadingCountMonotone | src/speedTest.ts:279-282 | a later deadline never issues fewer requests |
| SpeedTest.InclusiveIssuesMore | src/speedTest.ts:415 | the `<=` loop issues at least as many requests as the `<` loop on the same readings, and as many when no reading equals the deadline |
| SpeedTest.FloodBlocking | src/speedTest.ts:273-305 | one order per loop-head reading strictly before `start + durationMs`; the count is that many, and the k-th `order` call is from the first account with that price and quantity and timestamp `stamps[k]`; elapsed runs to the final reading and is at least `durationMs` on a monotone clock |
| SpeedTest.CreateOrderParams | src/speedTest.ts:383-403 | the seven fields serialised, then `&signature=` with the signature of exactly that serialisation |
| SpeedTest.FloodOptimized | src/speedTest.ts:369-429 | one POST per loop-head reading at or before `start + durationMs`, so the count equals the posts issued, the k-th built from the account, price, quantity and timestamp `stamps[k]`; elapsed exceeds `durationMs` on a monotone clock |
| SpeedTest.OptimizedRequest | src/speedTest.ts:405-421 | each POST goes to `https://api4.binance.com/api/v3/order?` followed by the signed order query, with the API-key and microsecond headers and no body |
| SpeedTest.TargetTodayFields | src/speedTest.ts:468-477 | the non-blocking target is `targetHour:targetMinute:00.000` on today's local date, never rolled |
| SpeedTest.CleanupCalls | src/speedTest.ts:505-513 | when no query or needed cancel fails, no error is raised, there are as many calls as accounts plus accounts with open orders, and account k's query sits at index k plus the number of earlier accounts with open orders, followed by a cancel of that account exactly when it listed orders |
| SpeedTest.CleanupStartsWithQuery | src/speedTest.ts:505-507 | a clean-up over some account opens with the first account's open-order query |
| SpeedTest.CleanupLength | src/speedTest.ts:505-513 | without a failure no error is raised, and the calls are one query per account plus one cancel per account that listed orders |
| SpeedTest.CleanupCallAt | src/speedTest.ts:505-513 | without a failure, account k's query sits after the calls of the earlier accounts, followed by its cancel exactly when it listed open orders |
| SpeedTest.CleanupFirstFailure | src/speedTest.ts:505-513 | the first account whose query, or whose needed cancel, fails ends the phase with that account's name and error; the calls are those of the earlier accounts, then its own up to the failure |
| SpeedTest.CleanupAbortsIffFailure | src/speedTest.ts:505-513 | the phase ends without error exactly when no account's query or needed cancel fails |
| SpeedTest.CleanupPhase | src/speedTest.ts:505-513 | the loop equals the clean-up specification, stopping at the first failure |
| SpeedTest.NonBlockingOrders | src/speedTest.ts:468-540 | the target is today's `targetHour:targetMinute` from the `now` reading; holdings of every account first, then the clean-up, then one batch dispatch with pre-warm at 30, 15 and 5 s, then the figures over the configured duration; a clean-up failure skips the dispatch |
| TestScript.GetAccounts | src/test.ts:61-75 | a missing index gives all accounts, a valid index that one, any other index none |
| TestScript.NaNIndexSelectsUndefined | src/test.ts:64-71 | as written, `--account abc` selects one undefined account |
| TestScript.SelectionAgrees | src/test.ts:61-75 | apart from a NaN index, the corrected selection is the written one |
| TestScript.SelectionRulesCompared | src/test.ts:64-74 | both selection rules agree on a missing or valid index; otherwise the speed tests use every account and this script none |
| TestScript.QueryHoldings | src/test.ts:12-58 | the first RED and USDT entries, and zero balances when absent or on an error |
| TestScript.ParseArgs | src/test.ts:213-239 | the flag loop with its manual skip computes the token-by-token parse from the defaults |
| TestScript.ParseSplit | src/test.ts:221-239 | parsing an aligned prefix and then the rest is parsing the whole |
| TestScript.TrailingFlagIgnored | src/test.ts:222-235 | a value flag with no value after it changes nothing |
| TestScript.LaterFlagWins | src/test.ts:221-239 | a later flag overrides an earlier one |
| TestScript.UnknownTokenSkipped | src/test.ts:221-239 | unrecognised tokens are skipped |
| TestScript.HelpDoesNotStop | src/test.ts:233-238 | `--help` sets the command to help, and a later `--command` still wins |
| TestScript.Dispatch | src/test.ts:242-264 | help is chosen exactly for a command outside the six named ones |
| TestScript.FullProcessSteps | src/test.ts:183-210 | nothing without accounts; otherwise order, query, holdings, cancel, in that order, over the selected accounts |
| TestScript.MainTestSteps | src/test.ts:151-180 | nothing without accounts; otherwise one call of `main` with a target 30 s after now |
| TestScript.RunCommandLine | src/test.ts:213-264 | help is shown exactly when the parsed command is not one of the six; the default command runs the full process |
| TestScript.NoArgumentsRunFullProcess | src/test.ts:215-218 | with no arguments the full process runs over every account at quantity 100, price 0.6 |
| RunTest.ParseArgs | src/run-test.ts:62-93 | the flag loop equals the token-by-token parse, ending at `--help` with no run |
| RunTest.StartSplit | src/run-test.ts:72-89 | an aligned prefix is parsed first and always reaches the rest |
| RunTest.HelpStops | src/run-test.ts:85-88 | `--help` ends the run whatever follows |
| RunTest.TrailingFlagIgnored | src/run-test.ts:73-84 | a trailing value flag is ignored |
| RunTest.LaterFlagWins | src/run-test.ts:72-84 | a later flag overrides an earlier one |
| RunTest.OrString | src/run-test.ts:30-31 | an absent or empty price or quantity takes the default, so with a non-empty default the result is never empty |
| RunTest.DelaySeconds | src/run-test.ts:32 | an absent, NaN or zero delay becomes 30; any other delay is kept |
| RunTest.RunTestCall | src/run-test.ts:22-59 | no accounts ends the run; otherwise `main` gets the defaulted price and quantity, the selected accounts and `now + delay * 1000` |
| RunTest.RunTestCallAsWritten | src/run-test.ts:8-59 | as written: an empty written selection ends the run; otherwise `main` gets that selection, undefined entries included, with the same defaults and target |
| RunTest.NaNAccountReachesMain | src/run-test.ts:8-15 | as written, `--account abc` parses to a NaN index and enters `main` with one undefined account at 0.6, 100 and 30 s from now |
| RunTest.RunTestCallsAgree | src/run-test.ts:8-59 | off a NaN index the written and corrected runs end alike or make the same `main` call |
| RunTest.NoFlagsDefaults | src/run-test.ts:30-35 | with no flags every account trades 100 at 0.6, 30 s from now |
| RunTest.Run | src/run-test.ts:22-59 | the call carried through `main`: one task per selected account, ending 20 s after the target, and a wait that ends 10 s before the target, measured from `main`'s own `Date.now()` |
| Run.GetTodayAt18 | src/run.ts:5-16 | today's local 18:00:00.000, or tomorrow's when now is strictly past it |
| Run.RunScript | src/run.ts:19-40 | `main` with price 0.6, quantity 5000 and the file's accounts at that target |
| RunTomorrow.GetTomorrowAt18 | src/run-tomorrow.ts:5-11 | the Date moved one local day forward, then set to 18:00:00.000 |
| RunTomorrow.TomorrowAt18Fields | src/run-tomorrow.ts:5-11 | the result is 18:00:00.000 on the next local date, a day after today's 18:00, between 18 and 42 hours after now |
| RunTomorrow.AgreesWithRunAfterSix | src/run-tomorrow.ts:5-11 | once today's 18:00 has passed, the 18:00 launchers pick the same target |
| RunTomorrow.RunTomorrowScript | src/run-tomorrow.ts:14-35 | `main` with price 0.8, quantity 5000 and the file's accounts at that target |
| MarketOrder.SweepVisitsInOrder | src/marketOrder.ts:64-72 | a loop calls the accounts in order; it ends cleanly iff every call succeeded, having then visited them all; otherwise it stopped right after the first failure, with its message |
| MarketOrder.RunSweep | src/marketOrder.ts:64-72 | the warm-up and cancel loops equal that specification |
| MarketOrder.MarketOrder | src/marketOrder.ts:30-103 | defaults quantity 10, duration 3000, offset 1000, symbol REDUSDT, side SELL; without accounts no calls; warm-ups, then cancels, then one dispatch; the figures use the configured duration |
| MarketOrder.CompletedRunVisitsEveryAccount | src/marketOrder.ts:64-87 | a dispatch happens iff every warm-up and cancel succeeded; then each account was warmed up and cancelled exactly once, in order |
| Logging.DateStringDigits | src/logger.ts:97-104 | for a four-digit year the date string is eight digits that read back as year, 1-based month and day |
| Logging.FormatLineParts | src/logger.ts:120-126 | a line is `[time] [LEVEL] `, then `[module] ` exactly when a module is named, then the message |
| Logging.Logger.constructor | src/logger.ts:65-92 | the file is `<type>_<YYYYMMDD>.log` in the log directory; when the stream opens, the start banner is logged |
| Logging.Logger.Log | src/logger.ts:120-135 | every line goes to the console; it goes to the file only while the stream is open |
| Logging.Logger.Info | src/logger.ts:142-144 | a line at level INFO |
| Logging.Logger.Warn | src/logger.ts:151-153 | a line at level WARN |
| Logging.Logger.Error | src/logger.ts:160-162 | a line at level ERROR |
| Logging.Logger.Success | src/logger.ts:169-171 | a line at level SUCCESS |
| Logging.Logger.Close | src/logger.ts:176-182 | an open stream gets the end banner and closes; a closed one is left unchanged, so a second close writes nothing |
| Logging.LogManager.constructor | src/logger.ts:17-21 | the registry starts empty |
| Logging.LogManager.GetLogger | src/logger.ts:37-42 | a registered type returns its logger unchanged; an absent type gets a new logger of that type, registered |
| Logging.LogManager.CloseAll | src/logger.ts:47-50 | every registered logger is closed, writing its banner once if it was open, and the registry is left empty |
| Logging.CreateLogger | src/logger.ts:248-258 | routed by name prefix, checking `order`, then `test`, then `run`, else the system log; the module name is kept except for the system log |
| EncryptData.HexEncodeAppend | utils/encrypt-data.ts:21 | hex of a concatenation is the concatenation of the hexes |
| EncryptData.HexRoundTrip | utils/encrypt-data.ts:21-29 | decoding hex gives back the bytes, and whatever follows decodes after them |
| EncryptData.Decrypt | utils/encrypt-data.ts:24-48 | a decoded buffer shorter than 16 bytes fails with the IV message; a private-key result starts with `0x` |
| EncryptData.EncryptFraming | utils/encrypt-data.ts:3-22 | the output is 32 hex digits of the IV, then two per ciphertext byte, and decodes to IV ++ ciphertext |
| EncryptData.RoundTrip | utils/encrypt-data.ts:3-48 | when the cipher inverts under the derived key, decryption returns the data |
| EncryptData.PrivateKeyRoundTrip | utils/encrypt-data.ts:8-10 | for a private key the round trip gives `0x` plus the data minus its first two characters: the data itself iff it starts with `0x` |

## Left out

- Network transport, the SOCKS proxy, reading `apis.json` and `process.argv`: replies, file contents and arguments are inputs.
- Console output other than the logger's lines, `toLocaleString`, `toISOString`, `formatToUTC8` and `JSON.stringify` of log messages are left out because they only produce text for people. Log times are given strings, and `closeAll` closes every logger with one time string.
- Daylight-saving time: the host offset is fixed.
- `new Date(string)` parsing of a command-line target is not modelled; the target stays text (`Order.TargetSpec.Given`).
- Concurrency is left out:
  - `Promise.all` over the retry tasks: `Order.OrderMain` returns the tasks instead of running them side by side.
  - The unawaited `.then` callbacks that count successes in `testOrderPerformance`.
  - `setTimeout` waits, which become wait amounts and pause counts.
  - The 5 s settle waits.
- IEEE-754 doubles: rates are exact reals and `toFixed` is omitted. Timestamps are unbounded integers, which matches JavaScript below 2^53.
- HMAC-SHA256, PBKDF2, AES-256-CBC, random IVs and UTF-8 are uninterpreted. The cipher's `update`/`final` split is one call.
- `URLSearchParams` percent-encoding is not modelled: keys and values are serialised verbatim.
- `batchPlaceOrdersNonBlocking` and `placeOrdersNonBlocking` are imported but not defined in src/order.ts. Their result lists are inputs.
- The `warmupConnection` imported from `./order` by src/marketOrder.ts is not defined there either. Each warm-up's outcome is an input, and a failure ends `marketOrder` because nothing there catches it. With the definition in src/speedTest.ts every warm-up succeeds.
- SpeedTest.ConsecutiveOrders, SpeedTest.FloodBlocking and SpeedTest.FloodOptimized start at the start reading. The target construction, warm-up, wait and follow-up holdings/cancel calls around them are left out. The statistics are modelled separately (`SuccessCount`, `OrderTimes`, `TimeSpan`).
- The sub-tests of src/test.ts are modelled as steps over the selected accounts. Their per-account requests are the `Order` members.
- `processCommandLineArgs` of src/speedTest.ts, src/run-speed-test.ts, utils/helper.ts and utils/all-functions.ts are not part of this model.
- The `getOrderLogger`, `getTestLogger` and `getRunLogger` wrappers are modelled by `Logging.Route`, the log type plus the module name they attach. Their `close` is a no-op and is not modelled. Creating the log directory and the error text of a stream that fails to open are left out; whether the stream opens is an input.
- The account's `mail` field is never read and is not modelled.
- Logging.LogManager.CloseAll: states each logger's file lines and stream state, not its console lines.
- TimeSync.TimeSync.GetBinanceServerTime: a reply whose `serverTime` is not a number is not representable (the probe is a number or an error). In utils/timeSync.ts, line 19 then sets the offset to `NaN`. The `toISOString()` at line 44 throws a RangeError, and line 54 rethrows it. So that failure, unlike the modelled ones, does not leave the offset unchanged.
- The text of the scripts' own log messages is not modelled, only the logging layer's line format. One example is `marketOrder`'s buy/sell label.
- TestScript.FullProcessSteps: uses the corrected selection. On a NaN index the code goes on with one undefined account: `testPlaceOrder` is entered and throws a TypeError at `account.name`.
- TestScript.MainTestSteps: uses the corrected selection. On a NaN index the code calls `main` with one undefined account.
- TestScript.RunCommandLine: every command uses the corrected selection. On a NaN index the code's sub-tests go on with one undefined account.
- RunTest.RunTestCall: uses the corrected selection (no accounts, no `main`). The code enters `main` with one undefined account, as `RunTest.RunTestCallAsWritten` states.
- RunTest.Run: carries the corrected `RunTest.RunTestCall` into `main`. On a NaN index the code starts one retry task for an undefined account.

## Findings

| source | as written | input that shows it | evidently intended | confidence | as-written member | corrected member |
|---|---|---|---|---|---|---|
| utils/timeSync.ts:114-121 | `setHours(hours - offsetHours)` with `offsetHours = (-480 - localOffset) / 60` moves the hour the wrong way | a UTC host (`tz = 0`) asking for 18:00: `setHours(26)` gives 02:00 UTC the next day, which is 10:00 UTC+8 | `hours:minutes` on the UTC+8 clock on any host | high, not executed | TimeSync.UtcHostSixteenHoursOff | TimeSync.CorrectedWallClock |
| src/test.ts:64-71 | a NaN index (`parseInt` of a non-number) passes both range tests and selects `accounts[NaN]`, which is `undefined` | `--account abc` | treat it as out of range: report it and select no account | high, not executed | TestScript.NaNIndexSelectsUndefined | TestScript.GetAccounts |
| src/run-test.ts:8-15 | the same NaN index selects one `undefined` account, which is then passed to `main` | `--account abc` | no account, so the run ends before `main` | high, not executed | RunTest.NaNAccountReachesMain | RunTest.RunTestCall |
