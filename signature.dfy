/**
 * Signed request assembly (utils/signature.ts). HMAC-SHA256 is the uninterpreted
 * function `createSignature(message, secretKey)`; the HTTP transport is the reply
 * it gives, passed in.
 */
module Signature {
  import opened Wrappers

  /** `BinanceAccountInfo`; `name` is optional. */
  datatype Account = Account(name: Option<string>, apiKey: string, secretKey: string)

  type Pair = (string, string)

  /** `createSignature(queryString, secretKey)`: hex HMAC-SHA256, left uninterpreted. */
  type Signer = (string, string) -> string

  datatype MarketType = Spot | Future
  datatype HttpMethod = GET | POST | PUT | DELETE

  /** What `axios.request` is given. */
  datatype HttpRequest = HttpRequest(
    url: string, verb: HttpMethod, headers: seq<Pair>, params: Option<seq<Pair>>)

  /** One `key=value` field of a form-encoded parameter list. */
  function Field(p: Pair): string { p.0 + "=" + p.1 }

  /** `URLSearchParams.toString()`: fields joined by `&`, in insertion order. */
  function Serialize(ps: seq<Pair>): string {
    if ps == [] then ""
    else if |ps| == 1 then Field(ps[0])
    else Field(ps[0]) + "&" + Serialize(ps[1..])
  }

  /** Appending one parameter appends one `&key=value` field to the serialisation. */
  lemma {:induction false} SerializeAppend(ps: seq<Pair>, p: Pair)
    ensures Serialize(ps + [p]) == if ps == [] then Field(p) else Serialize(ps) + "&" + Field(p)
  {
    if |ps| >= 2 {
      assert (ps + [p])[1..] == ps[1..] + [p];
      SerializeAppend(ps[1..], p);
    } else if |ps| == 1 {
      assert (ps + [p])[1..] == [p];
    }
  }

  /** A mutable `URLSearchParams` object. */
  class SearchParams {
    var pairs: seq<Pair>

    constructor (ps: seq<Pair>)
      ensures pairs == ps
    {
      pairs := ps;
    }

    function ToString(): string
      reads this
    {
      Serialize(pairs)
    }

    /** `append(key, value)` */
    method Append(key: string, value: string)
      modifies this
      ensures pairs == old(pairs) + [(key, value)]
    {
      pairs := pairs + [(key, value)];
    }
  }

  function BaseUrl(marketType: MarketType): string {
    if marketType == Spot then "https://api4.binance.com" else "https://fapi.binance.com"
  }

  /** The URL of a spot endpoint, as the request is built without a query string. */
  function SpotEndpoint(endpointPath: string): string { BaseUrl(Spot) + endpointPath }

  /** JavaScript truthiness of an optional string: present and non-empty. */
  predicate Truthy(s: Option<string>) { s.Some? && s.value != "" }

  /** The URL `binanceRequest` builds: the query string and its signature only when it is truthy. */
  function RequestUrl(marketType: MarketType, endpointPath: string, queryString: Option<string>,
                      secretKey: string, createSignature: Signer): string
  {
    var url := BaseUrl(marketType) + endpointPath;
    if Truthy(queryString) then
      var signature := createSignature(queryString.value, secretKey);
      url + "?" + queryString.value + (if signature != "" then "&signature=" + signature else "")
    else url
  }

  /** The body after signing: the signature of the serialisation, appended as the last parameter. */
  function SignedParams(ps: seq<Pair>, secretKey: string, createSignature: Signer): seq<Pair> {
    ps + [("signature", createSignature(Serialize(ps), secretKey))]
  }

  /** `${name} Request failed: ${message}`, where a missing name prints as `undefined`. */
  function FailureMessage(name: Option<string>, message: string): string {
    name.GetOr("undefined") + " Request failed: " + message
  }

  /**
   * `binanceRequest(account, endpointPath, method, queryString, requestBody, proxy, marketType)`.
   * `reply` is what the transport gives for the request sent: its data or the
   * message of the error it threw.
   */
  method BinanceRequest<T>(account: Account, endpointPath: string, verb: HttpMethod,
                           queryString: Option<string>, requestBody: SearchParams?,
                           marketType: MarketType, createSignature: Signer,
                           reply: Result<T, string>)
    returns (sent: HttpRequest, r: Result<T, string>)
    modifies requestBody
    ensures sent.url == RequestUrl(marketType, endpointPath, queryString, account.secretKey, createSignature)
    ensures sent.verb == verb
    ensures sent.headers == [("X-MBX-APIKEY", account.apiKey)]
    ensures requestBody == null ==> sent.params == None
    ensures requestBody != null ==> sent.params == Some(requestBody.pairs)
    ensures requestBody != null && Truthy(queryString) ==> requestBody.pairs == old(requestBody.pairs)
    ensures requestBody != null && !Truthy(queryString) ==>
      requestBody.pairs == SignedParams(old(requestBody.pairs), account.secretKey, createSignature)
    ensures reply.Success? ==> r == Success(reply.value)
    ensures reply.Failure? ==> r == Failure(FailureMessage(account.name, reply.error))
  {
    var headers := [("X-MBX-APIKEY", account.apiKey)];
    var baseUrl := BaseUrl(marketType);
    var url := baseUrl + endpointPath;
    if Truthy(queryString) {
      var signature := createSignature(queryString.value, account.secretKey);
      url := url + "?" + queryString.value;
      if signature != "" {
        url := url + "&signature=" + signature;
      }
    } else if requestBody != null {
      var signature := createSignature(requestBody.ToString(), account.secretKey);
      requestBody.Append("signature", signature);
    }
    var params := if requestBody == null then None else Some(requestBody.pairs);
    sent := HttpRequest(url, verb, headers, params);
    match reply {
      case Success(data) => r := Success(data);
      case Failure(message) => r := Failure(FailureMessage(account.name, message));
    }
  }

  /**
   * The signed body: the signature covers exactly the fields before it, and on the
   * wire it follows them as the final `&signature=` field.
   */
  lemma SignedWire(ps: seq<Pair>, secretKey: string, createSignature: Signer)
    requires ps != []
    ensures Serialize(SignedParams(ps, secretKey, createSignature))
         == Serialize(ps) + "&signature=" + createSignature(Serialize(ps), secretKey)
  {
    SerializeAppend(ps, ("signature", createSignature(Serialize(ps), secretKey)));
  }

  /** A signed query string is carried verbatim after `?`, its signature after it. */
  lemma QueryUrlShape(marketType: MarketType, endpointPath: string, q: string,
                      secretKey: string, createSignature: Signer)
    requires q != "" && createSignature(q, secretKey) != ""
    ensures var url := RequestUrl(marketType, endpointPath, Some(q), secretKey, createSignature);
      var prefix := BaseUrl(marketType) + endpointPath + "?";
      |url| == |prefix| + |q| + 11 + |createSignature(q, secretKey)|
      && url[..|prefix|] == prefix
      && url[|prefix|..|prefix| + |q|] == q
      && url[|prefix| + |q|..] == "&signature=" + createSignature(q, secretKey)
  {
  }
}
