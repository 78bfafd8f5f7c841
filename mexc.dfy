/**
 * The MEXC client: building the signed parameter dict, the request that
 * goes to the exchange, and the three operations the bot uses. The clock,
 * HMAC-SHA256 and the HTTP transport are inputs (`Env`).
 */
module Mexc {
  import opened Wrappers
  import opened PyText
  import opened PyDict
  import opened Signing

  const BaseUrl := "https://api.mexc.com"
  const OrderEndpoint := "/api/v3/order"
  const AccountEndpoint := "/api/v3/account"
  const OpenOrdersEndpoint := "/api/v3/openOrders"

  /** A decoded JSON document, as `response.json()` returns it. */
  datatype Json =
    | JNull
    | JBool(b: bool)
    | JNumber(x: real)
    | JString(s: string)
    | JArray(elems: seq<Json>)
    | JObject(fields: seq<(string, Json)>)

  /** Python truthiness of a result: `None`, null, false, zero and empty containers are falsy. */
  predicate Truthy(r: Option<Json>)
  {
    match r
    case None => false
    case Some(JNull) => false
    case Some(JBool(b)) => b
    case Some(JNumber(x)) => x != 0.0
    case Some(JString(s)) => s != ""
    case Some(JArray(elems)) => elems != []
    case Some(JObject(fields)) => fields != []
  }

  /** `requests.get` (parameters in the query) or `requests.post` (parameters as a JSON body). */
  datatype Verb = Get | Post

  datatype Request = Request(verb: Verb, url: string, headers: seq<Pair>, params: seq<Pair>)

  /** What the transport gives back: no response at all, or a status code and a body that may not be JSON. */
  datatype Reply = Unreachable | Reply(status: int, body: Option<Json>)

  type Transport = Request -> Reply

  /** The world outside the program: the clock in milliseconds, HMAC-SHA256, the network. */
  datatype Env = Env(clockMs: nat, mac: Mac, transport: Transport)

  datatype Creds = Creds(apiKey: string, secretKey: string)

  /** `str(int(time.time() * 1000))`, with the clock already in milliseconds. */
  function Timestamp(env: Env): (r: string)
    ensures |r| > 0 && AllDigits(r) && DecimalValue(r) == env.clockMs
    ensures r[0] == '0' ==> r == "0"
  {
    NatToStringValue(env.clockMs);
    NatToString(env.clockMs)
  }

  /** The dict after `_send_request` stores `timestamp`, signs, and stores `signature`. */
  function SignParams(mac: Mac, secret: string, items: seq<Pair>, timestamp: string): seq<Pair>
    requires DistinctKeys(items)
  {
    StoreKeys(items, "timestamp", timestamp);
    var stamped := Store(items, "timestamp", timestamp);
    Store(stamped, "signature", Signature(mac, secret, stamped, timestamp))
  }

  /**
   * Signing adds exactly `timestamp` and `signature` and leaves every other
   * entry alone; the signature covers a dict that already holds the
   * timestamp and holds `signature` only if the caller put one there.
   */
  lemma SignParamsEntries(mac: Mac, secret: string, items: seq<Pair>, timestamp: string)
    requires DistinctKeys(items)
    ensures DistinctKeys(SignParams(mac, secret, items, timestamp))
    ensures Keys(SignParams(mac, secret, items, timestamp)) == Keys(items) + {"timestamp", "signature"}
    ensures Lookup(SignParams(mac, secret, items, timestamp), "timestamp") == Some(timestamp)
    ensures Lookup(SignParams(mac, secret, items, timestamp), "signature")
         == Some(mac(secret, SignedString(Store(items, "timestamp", timestamp), timestamp)))
    ensures forall k :: k != "timestamp" && k != "signature" ==>
              Lookup(SignParams(mac, secret, items, timestamp), k) == Lookup(items, k)
    ensures "timestamp" in Keys(Store(items, "timestamp", timestamp))
    ensures "signature" in Keys(Store(items, "timestamp", timestamp)) <==> "signature" in Keys(items)
  {
    StoreKeys(items, "timestamp", timestamp);
    var stamped := Store(items, "timestamp", timestamp);
    var sig := Signature(mac, secret, stamped, timestamp);
    StoreKeys(stamped, "signature", sig);
    LookupStore(stamped, "signature", sig, "timestamp");
    LookupStore(items, "timestamp", timestamp, "timestamp");
    LookupStore(stamped, "signature", sig, "signature");
    forall k | k != "timestamp" && k != "signature"
      ensures Lookup(SignParams(mac, secret, items, timestamp), k) == Lookup(items, k)
    {
      LookupStore(stamped, "signature", sig, k);
      LookupStore(items, "timestamp", timestamp, k);
    }
  }

  /** When the caller's dict has neither key, both are appended, timestamp first. */
  lemma SignParamsAppends(mac: Mac, secret: string, items: seq<Pair>, timestamp: string)
    requires DistinctKeys(items) && "timestamp" !in Keys(items) && "signature" !in Keys(items)
    ensures SignParams(mac, secret, items, timestamp)
         == items + [("timestamp", timestamp),
                     ("signature", mac(secret, SignedString(items + [("timestamp", timestamp)], timestamp)))]
  {
    var stamped := items + [("timestamp", timestamp)];
    StoreAppends(items, "timestamp", timestamp);
    StoreKeys(items, "timestamp", timestamp);
    assert Store(items, "timestamp", timestamp) == stamped;
    assert "signature" !in Keys(stamped);
    var sig := Signature(mac, secret, stamped, timestamp);
    StoreAppends(stamped, "signature", sig);
    assert SignParams(mac, secret, items, timestamp) == stamped + [("signature", sig)];
    assert stamped + [("signature", sig)] == items + [("timestamp", timestamp), ("signature", sig)];
  }

  function Headers(apiKey: string): seq<Pair>
  {
    [("X-MEXC-APIKEY", apiKey), ("Content-Type", "application/json")]
  }

  /** The branch on the method name: only GET and POST ever reach the network. */
  function Transmit(verbName: string, url: string, headers: seq<Pair>, params: seq<Pair>): (r: Option<Request>)
    ensures r.Some? <==> verbName == "GET" || verbName == "POST"
    ensures r.Some? ==> r.value.url == url && r.value.headers == headers && r.value.params == params
    ensures r.Some? ==> (r.value.verb == Get <==> verbName == "GET")
  {
    if verbName == "GET" then Some(Request(Get, url, headers, params))
    else if verbName == "POST" then Some(Request(Post, url, headers, params))
    else None
  }

  /**
   * `raise_for_status()` then `json()`, with every exception turned into
   * `None`. A body that is JSON `null` decodes to Python's `None`, the same
   * value a failure returns.
   */
  function Settle(reply: Reply): (r: Option<Json>)
    ensures r.Some? <==> reply.Reply? && !(400 <= reply.status < 600) && reply.body.Some? && !reply.body.value.JNull?
    ensures r.Some? ==> r == reply.body
  {
    match reply
    case Unreachable => None
    case Reply(status, body) =>
      if 400 <= status < 600 then None else if body.Some? && body.value.JNull? then None else body
  }

  /** The request `_send_request` makes for a caller's items, if it makes one. */
  function Outgoing(creds: Creds, verbName: string, endpoint: string, items: seq<Pair>, env: Env): (r: Option<Request>)
    requires DistinctKeys(items)
    ensures r.Some? <==> verbName == "GET" || verbName == "POST"
    ensures r.Some? ==> (r.value.verb == Get <==> verbName == "GET")
    ensures r.Some? ==> r.value.url == BaseUrl + endpoint && r.value.headers == Headers(creds.apiKey)
    ensures r.Some? ==> r.value.params == SignParams(env.mac, creds.secretKey, items, Timestamp(env))
  {
    Transmit(verbName, BaseUrl + endpoint, Headers(creds.apiKey),
             SignParams(env.mac, creds.secretKey, items, Timestamp(env)))
  }

  /** What `_send_request` returns once the request, if any, has been answered. */
  function Deliver(env: Env, sent: Option<Request>): (r: Option<Json>)
    ensures sent.None? ==> r.None?
    ensures sent.Some? ==> r == Settle(env.transport(sent.value))
  {
    match sent
    case None => None
    case Some(request) => Settle(env.transport(request))
  }

  /** A method name other than GET and POST never reaches the network, so `_send_request` returns `None`. */
  lemma OtherMethodsNone(creds: Creds, verbName: string, endpoint: string, items: seq<Pair>, env: Env)
    requires DistinctKeys(items) && verbName != "GET" && verbName != "POST"
    ensures Outgoing(creds, verbName, endpoint, items, env) == None
    ensures Deliver(env, Outgoing(creds, verbName, endpoint, items, env)) == None
  {
  }

  /** The dict `place_order` builds, in its insertion order. */
  function OrderParams(symbol: string, side: string, quantity: int, orderType: string): seq<Pair>
  {
    [("symbol", symbol), ("side", side), ("type", orderType), ("quoteOrderQty", IntToString(quantity))]
  }

  lemma OrderParamsKeys(symbol: string, side: string, quantity: int, orderType: string)
    ensures DistinctKeys(OrderParams(symbol, side, quantity, orderType))
    ensures Keys(OrderParams(symbol, side, quantity, orderType)) == {"symbol", "side", "type", "quoteOrderQty"}
  {
    var s := OrderParams(symbol, side, quantity, orderType);
    assert s[0].0 == "symbol" && s[1].0 == "side" && s[2].0 == "type" && s[3].0 == "quoteOrderQty";
  }

  /** The keys of an order, stamped, in Python's sorted order. */
  lemma OrderKeysOrdered()
    ensures Below("quoteOrderQty", "side") && Below("side", "symbol")
    ensures Below("symbol", "timestamp") && Below("timestamp", "type")
  {
    assert "side"[1..] == "ide" && "symbol"[1..] == "ymbol";
    assert "timestamp"[1..] == "imestamp" && "type"[1..] == "ype";
  }

  lemma OrderKeysSorted(symbol: string, side: string, quantity: string, orderType: string, timestamp: string)
    ensures Sorted([("quoteOrderQty", quantity), ("side", side), ("symbol", symbol),
                    ("timestamp", timestamp), ("type", orderType)])
  {
    var sorted := [("quoteOrderQty", quantity), ("side", side), ("symbol", symbol),
                   ("timestamp", timestamp), ("type", orderType)];
    OrderKeysOrdered();
    assert forall i :: 0 <= i < |sorted| - 1 ==> PairBelow(sorted[i], sorted[i + 1]);
    SortedByNeighbours(sorted);
  }

  lemma OrderItemsPermuted(symbol: string, side: string, quantity: string, orderType: string, timestamp: string)
    ensures multiset([("quoteOrderQty", quantity), ("side", side), ("symbol", symbol),
                      ("timestamp", timestamp), ("type", orderType)])
         == multiset([("symbol", symbol), ("side", side), ("type", orderType),
                      ("quoteOrderQty", quantity), ("timestamp", timestamp)])
  {
  }

  lemma OrderItemsSorted(symbol: string, side: string, quantity: string, orderType: string, timestamp: string)
    ensures SortItems([("symbol", symbol), ("side", side), ("type", orderType),
                       ("quoteOrderQty", quantity), ("timestamp", timestamp)])
         == [("quoteOrderQty", quantity), ("side", side), ("symbol", symbol),
             ("timestamp", timestamp), ("type", orderType)]
  {
    var items := [("symbol", symbol), ("side", side), ("type", orderType),
                  ("quoteOrderQty", quantity), ("timestamp", timestamp)];
    var sorted := [("quoteOrderQty", quantity), ("side", side), ("symbol", symbol),
                   ("timestamp", timestamp), ("type", orderType)];
    OrderKeysSorted(symbol, side, quantity, orderType, timestamp);
    OrderItemsPermuted(symbol, side, quantity, orderType, timestamp);
    SortItemsIs(items, sorted);
  }

  lemma OrderItemsRendered(symbol: string, side: string, quantity: string, orderType: string, timestamp: string)
    ensures RenderAll([("quoteOrderQty", quantity), ("side", side), ("symbol", symbol),
                       ("timestamp", timestamp), ("type", orderType)])
         == ["quoteOrderQty=" + quantity, "side=" + side, "symbol=" + symbol,
             "timestamp=" + timestamp, "type=" + orderType]
  {
    assert "quoteOrderQty" + "=" == "quoteOrderQty=" && "side" + "=" == "side=";
    assert "symbol" + "=" == "symbol=" && "timestamp" + "=" == "timestamp=" && "type" + "=" == "type=";
  }

  /** The string signed for an order: the five stamped pairs in sorted order, then the timestamp suffix. */
  lemma OrderSignedString(symbol: string, side: string, quantity: string, orderType: string, timestamp: string)
    ensures SignedString([("symbol", symbol), ("side", side), ("type", orderType),
                          ("quoteOrderQty", quantity), ("timestamp", timestamp)], timestamp)
         == Join("&", ["quoteOrderQty=" + quantity, "side=" + side, "symbol=" + symbol,
                       "timestamp=" + timestamp, "type=" + orderType])
            + "&timestamp=" + timestamp
  {
    OrderItemsSorted(symbol, side, quantity, orderType, timestamp);
    OrderItemsRendered(symbol, side, quantity, orderType, timestamp);
  }

  /** The string signed for an account query: the timestamp twice. */
  lemma AccountSignedString(timestamp: string)
    ensures SignedString([("timestamp", timestamp)], timestamp)
         == "timestamp=" + timestamp + "&timestamp=" + timestamp
  {
    assert SortItems([("timestamp", timestamp)]) == [("timestamp", timestamp)];
  }

  /** The order dict once `_send_request` has stamped and signed it. */
  lemma OrderSigned(mac: Mac, secret: string, symbol: string, side: string, quantity: int, orderType: string,
                    timestamp: string)
    ensures DistinctKeys(OrderParams(symbol, side, quantity, orderType))
    ensures SignParams(mac, secret, OrderParams(symbol, side, quantity, orderType), timestamp)
         == OrderParams(symbol, side, quantity, orderType)
            + [("timestamp", timestamp),
               ("signature", mac(secret, Join("&", ["quoteOrderQty=" + IntToString(quantity), "side=" + side,
                                                    "symbol=" + symbol, "timestamp=" + timestamp,
                                                    "type=" + orderType])
                                         + "&timestamp=" + timestamp))]
  {
    OrderParamsKeys(symbol, side, quantity, orderType);
    var items := OrderParams(symbol, side, quantity, orderType);
    var stamped := [("symbol", symbol), ("side", side), ("type", orderType),
                    ("quoteOrderQty", IntToString(quantity)), ("timestamp", timestamp)];
    assert items + [("timestamp", timestamp)] == stamped;
    SignParamsAppends(mac, secret, items, timestamp);
    OrderSignedString(symbol, side, IntToString(quantity), orderType, timestamp);
  }

  /** The one request an order makes: a POST whose body is the order dict plus timestamp and signature. */
  lemma PlaceOrderRequest(creds: Creds, symbol: string, side: string, quantity: int, orderType: string, env: Env)
    ensures DistinctKeys(OrderParams(symbol, side, quantity, orderType))
    ensures Outgoing(creds, "POST", OrderEndpoint, OrderParams(symbol, side, quantity, orderType), env)
         == Some(Request(Post, BaseUrl + OrderEndpoint, Headers(creds.apiKey),
                         OrderParams(symbol, side, quantity, orderType)
                         + [("timestamp", Timestamp(env)),
                            ("signature", env.mac(creds.secretKey,
                               Join("&", ["quoteOrderQty=" + IntToString(quantity), "side=" + side,
                                          "symbol=" + symbol, "timestamp=" + Timestamp(env),
                                          "type=" + orderType])
                               + "&timestamp=" + Timestamp(env)))]))
  {
    OrderSigned(env.mac, creds.secretKey, symbol, side, quantity, orderType, Timestamp(env));
  }

  /** The one request an account query makes: a GET carrying only timestamp and signature. */
  lemma AccountInfoRequest(creds: Creds, env: Env)
    ensures Outgoing(creds, "GET", AccountEndpoint, [], env)
         == Some(Request(Get, BaseUrl + AccountEndpoint, Headers(creds.apiKey),
                         [("timestamp", Timestamp(env)),
                          ("signature", env.mac(creds.secretKey,
                             "timestamp=" + Timestamp(env) + "&timestamp=" + Timestamp(env)))]))
  {
    var empty: seq<Pair> := [];
    assert Keys(empty) == {};
    SignParamsAppends(env.mac, creds.secretKey, empty, Timestamp(env));
    assert empty + [("timestamp", Timestamp(env))] == [("timestamp", Timestamp(env))];
    AccountSignedString(Timestamp(env));
    var signed := SignParams(env.mac, creds.secretKey, empty, Timestamp(env));
    assert signed == [("timestamp", Timestamp(env)),
                      ("signature", env.mac(creds.secretKey,
                         "timestamp=" + Timestamp(env) + "&timestamp=" + Timestamp(env)))];
    assert Outgoing(creds, "GET", AccountEndpoint, empty, env)
        == Transmit("GET", BaseUrl + AccountEndpoint, Headers(creds.apiKey), signed);
  }

  /** MEXC's client object. It holds its credentials and is never changed after construction. */
  class Trader {
    const apiKey: string
    const secretKey: string
    const baseUrl: string := BaseUrl

    constructor (apiKey: string, secretKey: string)
      ensures this.apiKey == apiKey && this.secretKey == secretKey
    {
      this.apiKey := apiKey;
      this.secretKey := secretKey;
    }

    function Credentials(): Creds
    {
      Creds(apiKey, secretKey)
    }

    /**
     * `_send_request`: stores the timestamp in the caller's dict (or a new
     * one), signs it, stores the signature, and makes a GET or POST. Any
     * other method name leaves `response` unbound; that error, like every
     * transport or decoding error, becomes `None`.
     */
    method SendRequest(verbName: string, endpoint: string, params: Dict?, env: Env)
      returns (result: Option<Json>, sent: Option<Request>)
      requires params != null ==> params.Valid()
      modifies params
      ensures params != null ==> params.Valid()
      ensures params != null ==> params.items == SignParams(env.mac, secretKey, old(params.items), Timestamp(env))
      ensures sent == Outgoing(Credentials(), verbName, endpoint, if params == null then [] else old(params.items), env)
      ensures result == Deliver(env, sent)
    {
      var d := params;
      if d == null {
        d := new Dict([]);
      }
      var timestamp := Timestamp(env);
      d.Set("timestamp", timestamp);
      var headers := Headers(apiKey);
      var signature := Signature(env.mac, secretKey, d.items, timestamp);
      d.Set("signature", signature);
      var url := baseUrl + endpoint;
      if verbName == "GET" {
        sent := Some(Request(Get, url, headers, d.items));
      } else if verbName == "POST" {
        sent := Some(Request(Post, url, headers, d.items));
      } else {
        sent := None;
      }
      match sent {
        case None =>
          result := None;
        case Some(request) =>
          var reply := env.transport(request);
          if reply.Unreachable? || 400 <= reply.status < 600 {
            result := None;
          } else if reply.body.Some? && reply.body.value.JNull? {
            result := None;
          } else {
            result := reply.body;
          }
      }
    }

    /** `place_order`: a POST to the order endpoint; `orderType` defaults to MARKET. */
    method PlaceOrder(symbol: string, side: string, quantity: int, env: Env, orderType: string := "MARKET")
      returns (result: Option<Json>, sent: Option<Request>)
      ensures DistinctKeys(OrderParams(symbol, side, quantity, orderType))
      ensures sent == Outgoing(Credentials(), "POST", OrderEndpoint, OrderParams(symbol, side, quantity, orderType), env)
      ensures result == Deliver(env, sent)
    {
      OrderParamsKeys(symbol, side, quantity, orderType);
      var params := new Dict([("symbol", symbol), ("side", side), ("type", orderType),
                              ("quoteOrderQty", IntToString(quantity))]);
      result, sent := SendRequest("POST", OrderEndpoint, params, env);
    }

    /** `get_account_info`: a GET to the account endpoint with no parameters of its own. */
    method GetAccountInfo(env: Env) returns (result: Option<Json>, sent: Option<Request>)
      ensures sent == Outgoing(Credentials(), "GET", AccountEndpoint, [], env)
      ensures result == Deliver(env, sent)
    {
      result, sent := SendRequest("GET", AccountEndpoint, null, env);
    }

    /** `cancel_all_orders`: asks for DELETE, which `_send_request` has no branch for. */
    method CancelAllOrders(symbol: string, env: Env) returns (result: Option<Json>, sent: Option<Request>)
      ensures sent == Outgoing(Credentials(), "DELETE", OpenOrdersEndpoint, [("symbol", symbol)], env)
      ensures result == None && sent == None
    {
      var params := new Dict([("symbol", symbol)]);
      result, sent := SendRequest("DELETE", OpenOrdersEndpoint, params, env);
    }
  }
}
