/**
 * The configurable test runner src/run-test.ts: optional flags, `||` defaults, a
 * target a chosen number of seconds ahead, and a call of the order module's `main`.
 */
module RunTest {
  import opened Wrappers
  import opened Strings
  import opened Dates
  import opened Signature
  import Order
  import TestScript

  /** The `options` object; a flag that was not given is absent. */
  datatype RunOptions = RunOptions(price: Option<string>, quantity: Option<string>,
                                   delaySeconds: Option<JsInt>, accountIndex: Option<JsInt>)

  const NO_OPTIONS: RunOptions := RunOptions(None, None, None, None)

  predicate IsValueFlag(token: string) {
    token == "--price" || token == "--quantity" || token == "--delay" || token == "--account"
  }

  function SetFlag(o: RunOptions, flag: string, value: string): RunOptions
    requires IsValueFlag(flag)
  {
    if flag == "--price" then o.(price := Some(value))
    else if flag == "--quantity" then o.(quantity := Some(value))
    else if flag == "--delay" then o.(delaySeconds := Some(ParseInt(value)))
    else o.(accountIndex := Some(ParseInt(value)))
  }

  /**
   * The flag loop of `start`: a value flag with a token after it consumes both,
   * `--help` shows help and ends the run (`None`), anything else is skipped.
   */
  function StartFrom(args: seq<string>, o: RunOptions): Option<RunOptions>
    decreases |args|
  {
    if args == [] then Some(o)
    else if IsValueFlag(args[0]) && |args| >= 2 then StartFrom(args[2..], SetFlag(o, args[0], args[1]))
    else if args[0] == "--help" then None
    else StartFrom(args[1..], o)
  }

  /** `args` ends at a token boundary and holds no `--help`. */
  predicate Aligned(args: seq<string>)
    decreases |args|
  {
    args == []
    || (IsValueFlag(args[0]) && |args| >= 2 && Aligned(args[2..]))
    || (!IsValueFlag(args[0]) && args[0] != "--help" && Aligned(args[1..]))
  }

  /** `start()`'s loop, with its manual `i++` and the early `return` on `--help`. */
  method ParseArgs(args: seq<string>) returns (r: Option<RunOptions>)
    ensures r == StartFrom(args, NO_OPTIONS)
  {
    var o := NO_OPTIONS;
    var i := 0;
    assert args[0..] == args;
    while i < |args|
      invariant 0 <= i <= |args|
      invariant StartFrom(args[i..], o) == StartFrom(args, NO_OPTIONS)
    {
      assert args[i..][1..] == args[i + 1..];
      if IsValueFlag(args[i]) && i + 1 < |args| {
        assert args[i..][2..] == args[i + 2..];
        o := SetFlag(o, args[i], args[i + 1]);
        i := i + 1;
      } else if args[i] == "--help" {
        return None;
      }
      i := i + 1;
    }
    return Some(o);
  }

  /** An aligned prefix is parsed first and always reaches the rest. */
  lemma {:induction false} StartSplit(a: seq<string>, b: seq<string>, o: RunOptions)
    requires Aligned(a)
    ensures StartFrom(a, o).Some?
    ensures StartFrom(a + b, o) == StartFrom(b, StartFrom(a, o).value)
    decreases |a|
  {
    if a == [] {
      assert a + b == b;
    } else if IsValueFlag(a[0]) && |a| >= 2 {
      assert (a + b)[2..] == a[2..] + b;
      StartSplit(a[2..], b, SetFlag(o, a[0], a[1]));
    } else {
      assert (a + b)[1..] == a[1..] + b;
      StartSplit(a[1..], b, o);
    }
  }

  /** `--help` at a token boundary ends the run whatever follows it. */
  lemma HelpStops(a: seq<string>, b: seq<string>)
    requires Aligned(a)
    ensures StartFrom(a + ["--help"] + b, NO_OPTIONS) == None
  {
    assert a + ["--help"] + b == a + (["--help"] + b);
    StartSplit(a, ["--help"] + b, NO_OPTIONS);
  }

  /** A value flag with nothing after it is skipped, like any unknown token. */
  lemma TrailingFlagIgnored(a: seq<string>, flag: string)
    requires Aligned(a) && IsValueFlag(flag)
    ensures StartFrom(a + [flag], NO_OPTIONS) == StartFrom(a, NO_OPTIONS)
  {
    StartSplit(a, [flag], NO_OPTIONS);
    assert [flag][1..] == [];
  }

  /** The last occurrence of a value flag wins. */
  lemma LaterFlagWins(a: seq<string>, flag: string, value: string)
    requires Aligned(a) && IsValueFlag(flag)
    ensures StartFrom(a, NO_OPTIONS).Some?
    ensures StartFrom(a + [flag, value], NO_OPTIONS) == Some(SetFlag(StartFrom(a, NO_OPTIONS).value, flag, value))
  {
    StartSplit(a, [flag, value], NO_OPTIONS);
    assert [flag, value][2..] == [];
  }

  /** `s || d` for an optional string: the default when absent or empty. */
  function OrString(s: Option<string>, d: string): (r: string)
    ensures s.Some? && s.value != "" ==> r == s.value
    ensures s.None? || s.value == "" ==> r == d
    ensures d != "" ==> r != ""
  {
    if s.Some? && s.value != "" then s.value else d
  }

  /** `options.delaySeconds || 30`: absent, NaN and 0 are falsy. */
  function DelaySeconds(d: Option<JsInt>): (r: int)
    ensures r != 0
    ensures d.Some? && d.value.Int? && d.value.value != 0 ==> r == d.value.value
    ensures d.None? || d.value == NaN || d.value == Int(0) ==> r == 30
  {
    if d.Some? && d.value.Int? && d.value.value != 0 then d.value.value else 30
  }

  /** What `runTest` ends with. */
  datatype Outcome =
    | NoAccounts
    | CallMain(price: string, targetTime: int, quantity: string, accounts: seq<Account>)

  /** `runTest(options)` at clock reading `now`, over the accounts of the key file. */
  function RunTestCall(o: RunOptions, fileAccounts: seq<Account>, now: int): (r: Outcome)
    ensures TestScript.GetAccounts(fileAccounts, o.accountIndex) == [] <==> r == NoAccounts
    ensures r.CallMain? ==>
      && r.accounts == TestScript.GetAccounts(fileAccounts, o.accountIndex)
      && r.price == OrString(o.price, "0.6")
      && r.quantity == OrString(o.quantity, "100")
      && r.targetTime - now == DelaySeconds(o.delaySeconds) * MS_PER_SECOND
  {
    var accounts := TestScript.GetAccounts(fileAccounts, o.accountIndex);
    if accounts == [] then NoAccounts
    else CallMain(OrString(o.price, "0.6"), now + DelaySeconds(o.delaySeconds) * 1000, OrString(o.quantity, "100"), accounts)
  }

  /** What `runTest` ends with under the written selection, where an account may be `undefined`. */
  datatype WrittenOutcome =
    | NoAccountsWritten
    | CallMainWritten(price: string, targetTime: int, quantity: string, accounts: seq<Option<Account>>)

  /** `runTest(options)` as written: `main` receives whatever `getAccounts` returned. */
  function RunTestCallAsWritten(o: RunOptions, fileAccounts: seq<Account>, now: int): (r: WrittenOutcome)
    ensures TestScript.GetAccountsAsWritten(fileAccounts, o.accountIndex) == [] <==> r == NoAccountsWritten
    ensures r.CallMainWritten? ==>
      && r.accounts == TestScript.GetAccountsAsWritten(fileAccounts, o.accountIndex)
      && r.price == OrString(o.price, "0.6")
      && r.quantity == OrString(o.quantity, "100")
      && r.targetTime - now == DelaySeconds(o.delaySeconds) * MS_PER_SECOND
  {
    var accounts := TestScript.GetAccountsAsWritten(fileAccounts, o.accountIndex);
    if accounts == [] then NoAccountsWritten
    else CallMainWritten(OrString(o.price, "0.6"), now + DelaySeconds(o.delaySeconds) * 1000, OrString(o.quantity, "100"), accounts)
  }

  /**
   * As written, `--account abc` gets past the empty-list check and enters `main` with
   * one `undefined` account, at the default price, quantity and delay.
   */
  lemma NaNAccountReachesMain(fileAccounts: seq<Account>, now: int)
    ensures StartFrom(["--account", "abc"], NO_OPTIONS) == Some(NO_OPTIONS.(accountIndex := Some(NaN)))
    ensures RunTestCallAsWritten(NO_OPTIONS.(accountIndex := Some(NaN)), fileAccounts, now)
         == CallMainWritten("0.6", now + 30000, "100", [None])
  {
    assert ["--account", "abc"][2..] == [];
    NoDigitIsNaN("abc");
  }

  /** Off a NaN index the written run and the corrected run make the same call. */
  lemma RunTestCallsAgree(o: RunOptions, fileAccounts: seq<Account>, now: int)
    requires o.accountIndex != Some(NaN)
    ensures RunTestCall(o, fileAccounts, now).NoAccounts?
        <==> RunTestCallAsWritten(o, fileAccounts, now).NoAccountsWritten?
    ensures RunTestCall(o, fileAccounts, now).CallMain? ==>
      var c := RunTestCall(o, fileAccounts, now);
      RunTestCallAsWritten(o, fileAccounts, now)
        == CallMainWritten(c.price, c.targetTime, c.quantity, seq(|c.accounts|, k requires 0 <= k < |c.accounts| => Some(c.accounts[k])))
  {
    TestScript.SelectionAgrees(fileAccounts, o.accountIndex);
  }

  /** With no flags every account trades 100 at 0.6, 30 s from now. */
  lemma NoFlagsDefaults(fileAccounts: seq<Account>, now: int)
    requires fileAccounts != []
    ensures StartFrom([], NO_OPTIONS) == Some(NO_OPTIONS)
    ensures RunTestCall(NO_OPTIONS, fileAccounts, now) == CallMain("0.6", now + 30000, "100", fileAccounts)
  {
  }

  /**
   * `runTest` carried through: the order module's `main` is entered with the chosen
   * price, quantity and accounts and a target `delaySeconds` after `now`; `later` is
   * the `Date.now()` that `main` reads.
   */
  method Run(o: RunOptions, fileAccounts: seq<Account>, now: int, later: int, tz: int)
    returns (outcome: Outcome, wait: int, tasks: seq<Order.RetryTask>)
    ensures outcome == RunTestCall(o, fileAccounts, now)
    ensures outcome == NoAccounts ==> wait == 0 && tasks == []
    ensures outcome.CallMain? ==>
      && |tasks| == |outcome.accounts|
      && (forall k :: 0 <= k < |tasks| ==>
            tasks[k] == Order.RetryTask(outcome.accounts[k], outcome.price, outcome.targetTime + 20 * MS_PER_SECOND,
                                        outcome.quantity))
      && (wait > 0 <==> later < outcome.targetTime - 10 * MS_PER_SECOND)
      && (wait > 0 ==> later + wait == outcome.targetTime - 10 * MS_PER_SECOND)
  {
    outcome := RunTestCall(o, fileAccounts, now);
    wait, tasks := 0, [];
    if outcome.CallMain? {
      var target := new Date(outcome.targetTime, tz);
      wait, tasks := Order.OrderMain(outcome.price, target, Some(outcome.quantity), Some(outcome.accounts), fileAccounts, later);
    }
  }
}
