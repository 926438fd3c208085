/**
 * `marketOrder` of src/marketOrder.ts: defaults for the optional parameters, the key
 * file read when no accounts are given, a connection warm-up and an order cancel per
 * account, then the non-blocking batch dispatch and its figures. The warm-up and the
 * batch dispatch live in code outside this model: what each warm-up and cancel
 * yielded and what the dispatch returned are inputs.
 */
module MarketOrder {
  import opened Wrappers
  import opened Seqs
  import opened Signature
  import opened Stats

  /** What `marketOrder` asks of other code, in order. */
  datatype MarketCall =
    | Warmup(account: Account)
    | CancelAll(account: Account)
    | BatchDispatch(accounts: seq<Account>, price: string, targetTime: int, durationMs: int, startOffsetMs: int,
                    quantity: string, prewarm: bool, prewarmSeconds: seq<int>, symbol: string, side: string)

  /** The two per-account loops. */
  datatype Sweep = WarmupSweep | CancelSweep

  function CallFor(sweep: Sweep, a: Account): MarketCall {
    match sweep
    case WarmupSweep => Warmup(a)
    case CancelSweep => CancelAll(a)
  }

  /** The message a failure ends the run with; `binanceRequest` prefixes the account name. */
  function FailureOf(sweep: Sweep, a: Account, error: string): string {
    match sweep
    case WarmupSweep => error
    case CancelSweep => FailureMessage(a.name, error)
  }

  /**
   * One loop `for (const account of accounts) await ...`: nothing catches, so the first
   * failure ends it (and `marketOrder`) with its message.
   */
  function SweepOf(sweep: Sweep, accounts: seq<Account>, replies: seq<Result<(), string>>): (seq<MarketCall>, Option<string>)
    requires |replies| >= |accounts|
  {
    if accounts == [] then ([], None)
    else if replies[0].Failure? then ([CallFor(sweep, accounts[0])], Some(FailureOf(sweep, accounts[0], replies[0].error)))
    else
      var (rest, err) := SweepOf(sweep, accounts[1..], replies[1..]);
      ([CallFor(sweep, accounts[0])] + rest, err)
  }

  /**
   * A loop visits the accounts in order and stops right after the first failure: it
   * ends cleanly iff every reply succeeded, having then visited every account.
   */
  lemma {:induction false} SweepVisitsInOrder(sweep: Sweep, accounts: seq<Account>, replies: seq<Result<(), string>>)
    requires |replies| >= |accounts|
    ensures var (calls, err) := SweepOf(sweep, accounts, replies);
      |calls| <= |accounts| && forall k :: 0 <= k < |calls| ==> calls[k] == CallFor(sweep, accounts[k])
    ensures var (calls, err) := SweepOf(sweep, accounts, replies);
      err.None? <==> forall k :: 0 <= k < |accounts| ==> replies[k].Success?
    ensures var (calls, err) := SweepOf(sweep, accounts, replies);
      err.None? ==> |calls| == |accounts|
    ensures var (calls, err) := SweepOf(sweep, accounts, replies);
      err.Some? ==>
        && 1 <= |calls|
        && replies[|calls| - 1].Failure?
        && err.value == FailureOf(sweep, accounts[|calls| - 1], replies[|calls| - 1].error)
        && forall k :: 0 <= k < |calls| - 1 ==> replies[k].Success?
  {
    if accounts != [] && replies[0].Success? {
      SweepVisitsInOrder(sweep, accounts[1..], replies[1..]);
      var (rest, err) := SweepOf(sweep, accounts[1..], replies[1..]);
      assert SweepOf(sweep, accounts, replies) == ([CallFor(sweep, accounts[0])] + rest, err);
      forall k | 1 <= k < |accounts|
        ensures replies[k] == replies[1..][k - 1]
      {
      }
    }
  }

  /** `SweepOf` of a suffix, unfolded once. */
  lemma SweepStep(sweep: Sweep, accounts: seq<Account>, replies: seq<Result<(), string>>, k: nat)
    requires k < |accounts| <= |replies|
    ensures SweepOf(sweep, accounts[k..], replies[k..])
         == if replies[k].Failure? then ([CallFor(sweep, accounts[k])], Some(FailureOf(sweep, accounts[k], replies[k].error)))
            else
              var next := SweepOf(sweep, accounts[k + 1..], replies[k + 1..]);
              ([CallFor(sweep, accounts[k])] + next.0, next.1)
  {
    assert accounts[k..][1..] == accounts[k + 1..];
    assert replies[k..][1..] == replies[k + 1..];
  }

  /** The warm-up loop (lines 64-66) and the cancel loop (lines 70-72). */
  method RunSweep(sweep: Sweep, accounts: seq<Account>, replies: seq<Result<(), string>>)
    returns (calls: seq<MarketCall>, err: Option<string>)
    requires |replies| >= |accounts|
    ensures (calls, err) == SweepOf(sweep, accounts, replies)
  {
    calls := [];
    assert accounts[0..] == accounts && replies[0..] == replies;
    var k := 0;
    while k < |accounts|
      invariant 0 <= k <= |accounts|
      invariant SweepOf(sweep, accounts, replies).1 == SweepOf(sweep, accounts[k..], replies[k..]).1
      invariant SweepOf(sweep, accounts, replies).0 == calls + SweepOf(sweep, accounts[k..], replies[k..]).0
    {
      SweepStep(sweep, accounts, replies, k);
      ghost var prior := calls;
      calls := calls + [CallFor(sweep, accounts[k])];
      if replies[k].Failure? {
        return calls, Some(FailureOf(sweep, accounts[k], replies[k].error));
      }
      ConcatAssoc(prior, [CallFor(sweep, accounts[k])], SweepOf(sweep, accounts[k + 1..], replies[k + 1..]).0);
      k := k + 1;
    }
    assert accounts[k..] == [];
    assert calls + [] == calls;
    err := None;
  }

  /** The accounts `marketOrder` works on: the argument, else the key file, else none (`return`). */
  function AccountsToUse(accounts: Option<seq<Account>>, keyFile: Result<seq<Account>, string>): Option<seq<Account>> {
    if accounts.Some? then accounts
    else if keyFile.Success? then Some(keyFile.value)
    else None
  }

  /** How `marketOrder` ends. */
  datatype Outcome =
    | NotLoaded
    | Aborted(message: string)
    | Completed(results: seq<DispatchResult>, summary: Summary)

  /**
   * `marketOrder(price, targetTime, quantity = "10", accounts = null, duration = 3000,
   * startOffset = 1000, symbol = "REDUSDT", side = "SELL")`. An absent optional argument
   * takes its default; `keyFile` is what reading the key file gave, `warmups` and
   * `cancels` what each account's warm-up and cancel gave, `results` the dispatch's answer.
   */
  method MarketOrder(price: string, targetTime: int, quantity: Option<string>, accounts: Option<seq<Account>>,
                     duration: Option<int>, startOffset: Option<int>, symbol: Option<string>, side: Option<string>,
                     keyFile: Result<seq<Account>, string>,
                     warmups: seq<Result<(), string>>, cancels: seq<Result<(), string>>, results: seq<DispatchResult>)
    returns (calls: seq<MarketCall>, outcome: Outcome)
    requires var accs := AccountsToUse(accounts, keyFile);
      accs.Some? ==> |warmups| >= |accs.value| && |cancels| >= |accs.value|
    ensures AccountsToUse(accounts, keyFile).None? ==> calls == [] && outcome == NotLoaded
    ensures AccountsToUse(accounts, keyFile).Some? ==>
      var accs := AccountsToUse(accounts, keyFile).value;
      var (w, werr) := SweepOf(WarmupSweep, accs, warmups);
      werr.Some? ==> calls == w && outcome == Aborted(werr.value)
    ensures AccountsToUse(accounts, keyFile).Some? ==>
      var accs := AccountsToUse(accounts, keyFile).value;
      var (w, werr) := SweepOf(WarmupSweep, accs, warmups);
      var (c, cerr) := SweepOf(CancelSweep, accs, cancels);
      werr.None? && cerr.Some? ==> calls == w + c && outcome == Aborted(cerr.value)
    ensures AccountsToUse(accounts, keyFile).Some? ==>
      var accs := AccountsToUse(accounts, keyFile).value;
      var (w, werr) := SweepOf(WarmupSweep, accs, warmups);
      var (c, cerr) := SweepOf(CancelSweep, accs, cancels);
      var d := duration.GetOr(3000);
      werr.None? && cerr.None? ==>
        && calls == w + c + [BatchDispatch(accs, price, targetTime, d, startOffset.GetOr(1000), quantity.GetOr("10"),
                                           true, [30, 15, 5], symbol.GetOr("REDUSDT"), side.GetOr("SELL"))]
        && outcome == Completed(results, Summarize(results, d))
  {
    var accs := AccountsToUse(accounts, keyFile);
    if accs.None? {
      return [], NotLoaded;
    }
    var w, werr := RunSweep(WarmupSweep, accs.value, warmups);
    calls := w;
    if werr.Some? {
      return calls, Aborted(werr.value);
    }
    var c, cerr := RunSweep(CancelSweep, accs.value, cancels);
    calls := calls + c;
    if cerr.Some? {
      return calls, Aborted(cerr.value);
    }
    var d := duration.GetOr(3000);
    calls := calls + [BatchDispatch(accs.value, price, targetTime, d, startOffset.GetOr(1000), quantity.GetOr("10"),
                                    true, [30, 15, 5], symbol.GetOr("REDUSDT"), side.GetOr("SELL"))];
    outcome := Completed(results, Summarize(results, d));
  }

  /**
   * A run that completes warmed up and cleaned every account, in order, exactly once
   * before the batch dispatch; any failure means no dispatch at all.
   */
  lemma CompletedRunVisitsEveryAccount(accs: seq<Account>, warmups: seq<Result<(), string>>, cancels: seq<Result<(), string>>)
    requires |warmups| >= |accs| && |cancels| >= |accs|
    ensures SweepOf(WarmupSweep, accs, warmups).1.None? && SweepOf(CancelSweep, accs, cancels).1.None? <==>
      forall k :: 0 <= k < |accs| ==> warmups[k].Success? && cancels[k].Success?
    ensures SweepOf(WarmupSweep, accs, warmups).1.None? && SweepOf(CancelSweep, accs, cancels).1.None? ==>
      var calls := SweepOf(WarmupSweep, accs, warmups).0 + SweepOf(CancelSweep, accs, cancels).0;
      |calls| == 2 * |accs|
      && forall k :: 0 <= k < |accs| ==> calls[k] == Warmup(accs[k]) && calls[|accs| + k] == CancelAll(accs[k])
  {
    SweepVisitsInOrder(WarmupSweep, accs, warmups);
    SweepVisitsInOrder(CancelSweep, accs, cancels);
  }
}
