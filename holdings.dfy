/**
 * Balance entries of the `/api/v3/account` reply, read by both `queryHoldings`
 * functions (src/speedTest.ts:43-44 and src/test.ts:32-33).
 */
module Holdings {
  import opened Wrappers
  import opened Strings
  import opened Signature

  datatype Balance = Balance(asset: string, free: string, locked: string)

  /** `balances.find((b) => b.asset === asset)`: the first entry for the asset, if any. */
  function FindAsset(balances: seq<Balance>, asset: string): (r: Option<Balance>)
    ensures r.None? <==> forall k :: 0 <= k < |balances| ==> balances[k].asset != asset
    ensures r.Some? ==> r.value.asset == asset
    ensures r.Some? ==>
      exists k :: 0 <= k < |balances| && balances[k] == r.value && forall j :: 0 <= j < k ==> balances[j].asset != asset
  {
    if balances == [] then None
    else if balances[0].asset == asset then Some(balances[0])
    else
      var r := FindAsset(balances[1..], asset);
      assert r.Some? ==>
        exists k :: 0 < k < |balances| && balances[k] == r.value && forall j :: 0 <= j < k ==> balances[j].asset != asset
      by {
        if r.Some? {
          var k :| 0 <= k < |balances| - 1 && balances[1..][k] == r.value
            && forall j :: 0 <= j < k ==> balances[1..][j].asset != asset;
          assert balances[k + 1] == r.value;
          forall j | 0 <= j < k + 1 ensures balances[j].asset != asset {
            if j > 0 { assert balances[j] == balances[1..][j - 1]; }
          }
        }
      }
      r
  }

  /** `{ asset, free: "0", locked: "0" }` */
  function ZeroBalance(asset: string): Balance { Balance(asset, "0", "0") }

  /** `found || { asset, free: "0", locked: "0" }` */
  function OrZero(found: Option<Balance>, asset: string): Balance {
    found.GetOr(ZeroBalance(asset))
  }

  /** The signed `GET /api/v3/account` request both `queryHoldings` functions send. */
  function HoldingsRequest(account: Account, now: int, createSignature: Signer): HttpRequest {
    HttpRequest(SpotEndpoint("/api/v3/account"), GET, [("X-MBX-APIKEY", account.apiKey)],
      Some(SignedParams([("timestamp", IntToString(now))], account.secretKey, createSignature)))
  }
}
