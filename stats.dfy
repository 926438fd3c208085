/**
 * Aggregation of per-account dispatch results (src/speedTest.ts:528-538 and
 * src/marketOrder.ts:90-100): total requests, mean QPS and system QPS over the
 * configured duration. JavaScript numbers are modelled as exact reals, with the
 * non-finite outcomes of a division written out.
 */
module Stats {
  /** The fields of one dispatch result that the aggregation reads. */
  datatype DispatchResult = DispatchResult(requestCount: nat, qps: real)

  /** `Math.round` of a quotient: an integer, or the IEEE `Infinity` / `NaN` of a zero divisor. */
  datatype Rate = Finite(value: int) | Infinity | NaN

  /** A mean: a value, or the `NaN` of `0 / 0` over an empty list. */
  datatype Mean = Value(value: real) | Undefined

  /** `Math.round(count / (ms / 1000))`, with `Math.round(x) = floor(x + 0.5)`. */
  function RoundedRate(count: nat, ms: int): (r: Rate)
    ensures ms != 0 ==>
      r.Finite? && r.value as real - 0.5 <= (count * 1000) as real / ms as real < r.value as real + 0.5
    ensures ms == 0 ==> (r == NaN <==> count == 0) && (r == Infinity <==> count > 0)
    ensures ms > 0 ==> r.Finite? && r.value >= 0
  {
    if ms == 0 then (if count == 0 then NaN else Infinity)
    else Finite(((count * 1000) as real / ms as real + 0.5).Floor)
  }

  /** `results.reduce((sum, r) => sum + r.requestCount, 0)` */
  function TotalRequests(rs: seq<DispatchResult>): nat {
    if rs == [] then 0 else TotalRequests(rs[..|rs| - 1]) + rs[|rs| - 1].requestCount
  }

  /** `results.reduce((sum, r) => sum + r.qps, 0)` */
  function QpsSum(rs: seq<DispatchResult>): real {
    if rs == [] then 0.0 else QpsSum(rs[..|rs| - 1]) + rs[|rs| - 1].qps
  }

  /** The mean per-account QPS: the sum over the count, `NaN` for no results. */
  function AverageQps(rs: seq<DispatchResult>): (m: Mean)
    ensures m.Undefined? <==> rs == []
    ensures m.Value? ==> m.value * |rs| as real == QpsSum(rs)
  {
    if |rs| == 0 then Undefined else Value(QpsSum(rs) / |rs| as real)
  }

  datatype Summary = Summary(totalRequests: nat, averageQps: Mean, systemQps: Rate)

  /** The three figures reported after a batch run of `durationMs` configured milliseconds. */
  function Summarize(rs: seq<DispatchResult>, durationMs: int): Summary {
    var total := TotalRequests(rs);
    Summary(total, AverageQps(rs), RoundedRate(total, durationMs))
  }

  /** Taking one element out of a sum, wherever it sits. */
  lemma {:induction false} RemoveOne(rs: seq<DispatchResult>, i: nat)
    requires i < |rs|
    ensures TotalRequests(rs) == TotalRequests(rs[..i] + rs[i + 1..]) + rs[i].requestCount
    ensures QpsSum(rs) == QpsSum(rs[..i] + rs[i + 1..]) + rs[i].qps
  {
    var n := |rs| - 1;
    if i == n {
      assert rs[..i] + rs[i + 1..] == rs[..n];
    } else {
      var init := rs[..n];
      RemoveOne(init, i);
      assert init[..i] + init[i + 1..] == (rs[..i] + rs[i + 1..])[..n - 1];
      assert (rs[..i] + rs[i + 1..])[n - 1] == rs[n];
    }
  }

  /** The figures do not depend on the order the results arrive in. */
  lemma {:induction false} SummaryPermutationInvariant(a: seq<DispatchResult>, b: seq<DispatchResult>, durationMs: int)
    requires multiset(a) == multiset(b)
    ensures TotalRequests(a) == TotalRequests(b) && QpsSum(a) == QpsSum(b)
    ensures Summarize(a, durationMs) == Summarize(b, durationMs)
  {
    if a != [] {
      var n := |a| - 1;
      var x := a[n];
      assert a == a[..n] + [x];
      assert x in multiset(b);
      var i :| 0 <= i < |b| && b[i] == x;
      assert b == b[..i] + [x] + b[i + 1..];
      assert multiset(a) == multiset(a[..n]) + multiset{x};
      assert multiset(b) == multiset(b[..i]) + multiset{x} + multiset(b[i + 1..]);
      assert multiset(b[..i] + b[i + 1..]) == multiset(b[..i]) + multiset(b[i + 1..]);
      assert multiset(a[..n]) == multiset(a) - multiset{x};
      assert multiset(b[..i] + b[i + 1..]) == multiset(b) - multiset{x};
      SummaryPermutationInvariant(a[..n], b[..i] + b[i + 1..], durationMs);
      RemoveOne(b, i);
    } else {
      assert b == [];
    }
    assert |a| == |b| by {
      assert |multiset(a)| == |a| && |multiset(b)| == |b|;
    }
  }

  /**
   * When every account ran for exactly the configured duration, its QPS is its
   * count over that duration; then the sum of the per-account rates is the
   * system rate, and the mean is that over the number of accounts.
   */
  lemma {:induction false} RatesAddUp(rs: seq<DispatchResult>, durationMs: int)
    requires durationMs > 0
    requires forall k :: 0 <= k < |rs| ==> rs[k].qps == (rs[k].requestCount * 1000) as real / durationMs as real
    ensures QpsSum(rs) == (TotalRequests(rs) * 1000) as real / durationMs as real
    ensures rs != [] ==> AverageQps(rs).value * |rs| as real == (TotalRequests(rs) * 1000) as real / durationMs as real
  {
    if rs != [] {
      var n := |rs| - 1;
      var init := rs[..n];
      forall k | 0 <= k < |init|
        ensures init[k].qps == (init[k].requestCount * 1000) as real / durationMs as real
      {
        assert init[k] == rs[k];
      }
      RatesAddUp(init, durationMs);
      var a := (TotalRequests(init) * 1000) as real;
      var b := (rs[n].requestCount * 1000) as real;
      assert (TotalRequests(rs) * 1000) as real == a + b;
      DivideSum(a, b, durationMs as real);
    }
  }

  lemma DivideSum(a: real, b: real, d: real)
    requires d > 0.0
    ensures (a + b) / d == a / d + b / d
  {
  }
}
