/**
 * The Flask side that matters: the lazily built global `trader`, and the
 * decisions `webhook` makes — initialise first, fill in defaults, map the
 * action to one exchange call or reject it, and turn the result into a
 * status code.
 */
module Bot {
  import opened Wrappers
  import opened PyText
  import opened PyDict
  import opened Mexc

  const DefaultSymbol := "BTCUSDT"
  const DefaultQuantity := 10

  const LongActions := ["buy", "long"]
  const ShortActions := ["sell", "short"]
  const CloseActions := ["close_long", "close_short", "close"]

  /**
   * The webhook body's fields as `data.get` finds them. An `action` that is
   * absent or not a string is `None`: it can equal none of the action names.
   */
  datatype Payload = Payload(action: Option<string>, symbol: Option<string>, quantity: Option<int>)

  /** The JSON the handler answers with. `Raised` is `{'error': str(e)}` for an exception. */
  datatype Body = Success(message: string, mexcResponse: Json) | Error(error: string) | Raised

  datatype Response = Response(status: nat, body: Body)

  /** One call on the trader. */
  datatype Call =
    | OrderCall(symbol: string, side: string, quantity: int, orderType: string)
    | CancelCall(symbol: string)

  datatype Route = Dispatch(call: Call, message: string) | InvalidAction

  /** Python truthiness of an environment variable read with `os.environ.get`. */
  predicate Present(v: Option<string>)
  {
    v.Some? && v.value != ""
  }

  /** What `initialize_trader` leaves in `trader`: a new client when both credentials are truthy, else what was there. */
  function AfterInitialize(current: Option<Creds>, apiKey: Option<string>, secretKey: Option<string>): Option<Creds>
  {
    if Present(apiKey) && Present(secretKey) then Some(Creds(apiKey.value, secretKey.value)) else current
  }

  /** `if not trader: initialize_trader()`: a client already there is kept. */
  function Resolve(current: Option<Creds>, apiKey: Option<string>, secretKey: Option<string>): Option<Creds>
  {
    if current.Some? then current else AfterInitialize(current, apiKey, secretKey)
  }

  /** Initialising again with the same credentials changes nothing. */
  lemma InitializeIdempotent(current: Option<Creds>, apiKey: Option<string>, secretKey: Option<string>)
    ensures AfterInitialize(AfterInitialize(current, apiKey, secretKey), apiKey, secretKey)
         == AfterInitialize(current, apiKey, secretKey)
  {
  }

  /** After the check, a client exists exactly when one did or both credentials are truthy. */
  lemma ResolveReady(current: Option<Creds>, apiKey: Option<string>, secretKey: Option<string>)
    ensures Resolve(current, apiKey, secretKey).Some? <==> current.Some? || (Present(apiKey) && Present(secretKey))
    ensures current.Some? ==> Resolve(current, apiKey, secretKey) == current
  {
  }

  /** The `if/elif` chain on `action`, after `symbol` and `quantity` have taken their defaults. */
  function RouteAction(p: Payload): Route
  {
    var symbol := if p.symbol.Some? then p.symbol.value else DefaultSymbol;
    var quantity := if p.quantity.Some? then p.quantity.value else DefaultQuantity;
    if p.action.Some? && p.action.value in LongActions then
      Dispatch(OrderCall(symbol, "BUY", quantity, "MARKET"),
               "LONG a\U{e7}\U{131}ld\U{131}: " + symbol + " - " + IntToString(quantity) + " USDT")
    else if p.action.Some? && p.action.value in ShortActions then
      Dispatch(OrderCall(symbol, "SELL", quantity, "MARKET"),
               "SELL a\U{e7}\U{131}ld\U{131}: " + symbol + " - " + IntToString(quantity) + " USDT")
    else if p.action.Some? && p.action.value in CloseActions then
      Dispatch(CancelCall(symbol), "Pozisyon kapat\U{131}ld\U{131}: " + symbol)
    else
      InvalidAction
  }

  /** `buy`/`long` and `sell`/`short` are synonyms, and open a market order on the given side. */
  lemma RouteOpen(p: Payload)
    requires p.action.Some? && p.action.value in LongActions + ShortActions
    ensures RouteAction(p).Dispatch?
    ensures RouteAction(p).call
         == OrderCall(if p.symbol.Some? then p.symbol.value else DefaultSymbol,
                       if p.action.value in LongActions then "BUY" else "SELL",
                       if p.quantity.Some? then p.quantity.value else DefaultQuantity,
                       "MARKET")
  {
  }

  /** `close_long`, `close_short` and `close` all cancel the symbol's open orders. */
  lemma RouteClose(p: Payload)
    requires p.action.Some? && p.action.value in CloseActions
    ensures RouteAction(p).Dispatch?
    ensures RouteAction(p).call == CancelCall(if p.symbol.Some? then p.symbol.value else DefaultSymbol)
  {
  }

  /** Every other action, and a missing one, is invalid. */
  lemma RouteInvalid(p: Payload)
    ensures RouteAction(p).InvalidAction?
        <==> p.action.None? || p.action.value !in LongActions + ShortActions + CloseActions
  {
  }

  /**
   * What `request.get_json()` gives. `Malformed` is a body it raises on;
   * that happens before the client is looked at. A parsed body is an
   * object (`Some`) or a value that `data.get` raises on (`None`).
   */
  datatype Incoming = Malformed | Parsed(data: Option<Payload>)

  datatype Handled = Handled(response: Response, sent: Option<Request>)

  /** The request a call makes, as the trader's methods build it. */
  function CallRequest(creds: Creds, call: Call, env: Env): Option<Request>
  {
    match call
    case OrderCall(symbol, side, quantity, orderType) =>
      OrderParamsKeys(symbol, side, quantity, orderType);
      Outgoing(creds, "POST", OrderEndpoint, OrderParams(symbol, side, quantity, orderType), env)
    case CancelCall(symbol) =>
      Outgoing(creds, "DELETE", OpenOrdersEndpoint, [("symbol", symbol)], env)
  }

  /**
   * The response of `webhook` and the one exchange request it makes, if
   * any, given the client the initialisation check produced.
   */
  function Handle(trader: Option<Creds>, body: Incoming, env: Env): Handled
  {
    if body.Malformed? then Handled(Response(500, Raised), None)
    else if trader.None? then Handled(Response(500, Error("MEXC trader not initialized")), None)
    else if body.data.None? then Handled(Response(500, Raised), None)
    else
      match RouteAction(body.data.value)
      case InvalidAction => Handled(Response(400, Error("Invalid action")), None)
      case Dispatch(call, message) =>
        var sent := CallRequest(trader.value, call, env);
        var result := Deliver(env, sent);
        if Truthy(result) then Handled(Response(200, Success(message, result.value)), sent)
        else Handled(Response(500, Error("Trade failed")), sent)
  }

  /** A body `get_json` cannot parse raises first, whatever the client: 500 and no request. */
  lemma MalformedRaises(trader: Option<Creds>, env: Env)
    ensures Handle(trader, Malformed, env) == Handled(Response(500, Raised), None)
  {
  }

  /** Without a client nothing else is looked at: even an invalid action gets 500 and no request is made. */
  lemma UninitializedFails(data: Option<Payload>, env: Env)
    ensures Handle(None, Parsed(data), env) == Handled(Response(500, Error("MEXC trader not initialized")), None)
  {
  }

  /** An unknown action is answered with 400 and never reaches the exchange. */
  lemma InvalidActionRejected(creds: Creds, p: Payload, env: Env)
    requires p.action.None? || p.action.value !in LongActions + ShortActions + CloseActions
    ensures Handle(Some(creds), Parsed(Some(p)), env) == Handled(Response(400, Error("Invalid action")), None)
  {
    RouteInvalid(p);
  }

  /** Every close action asks for DELETE, which is never sent, so it always ends in 500 "Trade failed". */
  lemma CloseAlwaysFails(creds: Creds, p: Payload, env: Env)
    requires p.action.Some? && p.action.value in CloseActions
    ensures Handle(Some(creds), Parsed(Some(p)), env) == Handled(Response(500, Error("Trade failed")), None)
  {
    RouteClose(p);
  }

  /** A routed call is made once, and its result alone decides between 200 and 500. */
  lemma DispatchOutcome(creds: Creds, p: Payload, env: Env)
    requires RouteAction(p).Dispatch?
    ensures Handle(Some(creds), Parsed(Some(p)), env).sent == CallRequest(creds, RouteAction(p).call, env)
    ensures var h := Handle(Some(creds), Parsed(Some(p)), env);
            h.response == if Truthy(Deliver(env, h.sent))
                          then Response(200, Success(RouteAction(p).message, Deliver(env, h.sent).value))
                          else Response(500, Error("Trade failed"))
  {
  }

  /**
   * An open action makes exactly one POST to the order endpoint whose body is
   * the order dict for the defaulted symbol and quantity, then the timestamp
   * and the signature.
   */
  lemma OpenPlacesOneOrder(creds: Creds, p: Payload, env: Env)
    requires p.action.Some? && p.action.value in LongActions + ShortActions
    ensures var symbol := if p.symbol.Some? then p.symbol.value else DefaultSymbol;
            var quantity := if p.quantity.Some? then p.quantity.value else DefaultQuantity;
            var side := if p.action.value in LongActions then "BUY" else "SELL";
            Handle(Some(creds), Parsed(Some(p)), env).sent
            == Some(Request(Post, BaseUrl + OrderEndpoint, Headers(creds.apiKey),
                            [("symbol", symbol), ("side", side), ("type", "MARKET"),
                             ("quoteOrderQty", IntToString(quantity)),
                             ("timestamp", Timestamp(env)),
                             ("signature", env.mac(creds.secretKey,
                                Join("&", ["quoteOrderQty=" + IntToString(quantity), "side=" + side,
                                           "symbol=" + symbol, "timestamp=" + Timestamp(env),
                                           "type=" + "MARKET"])
                                + "&timestamp=" + Timestamp(env)))]))
  {
    RouteOpen(p);
    DispatchOutcome(creds, p, env);
    var symbol := if p.symbol.Some? then p.symbol.value else DefaultSymbol;
    var quantity := if p.quantity.Some? then p.quantity.value else DefaultQuantity;
    var side := if p.action.value in LongActions then "BUY" else "SELL";
    PlaceOrderRequest(creds, symbol, side, quantity, "MARKET", env);
    var order := OrderParams(symbol, side, quantity, "MARKET");
    var sig := env.mac(creds.secretKey,
                       Join("&", ["quoteOrderQty=" + IntToString(quantity), "side=" + side,
                                  "symbol=" + symbol, "timestamp=" + Timestamp(env), "type=" + "MARKET"])
                       + "&timestamp=" + Timestamp(env));
    assert order + [("timestamp", Timestamp(env)), ("signature", sig)]
        == [("symbol", symbol), ("side", side), ("type", "MARKET"), ("quoteOrderQty", IntToString(quantity)),
            ("timestamp", Timestamp(env)), ("signature", sig)];
  }

  /** The module's globals: the credentials read at start-up and the lazily built client. */
  class App {
    const apiKeyEnv: Option<string>
    const secretKeyEnv: Option<string>
    var trader: Trader?

    constructor (apiKeyEnv: Option<string>, secretKeyEnv: Option<string>)
      ensures this.apiKeyEnv == apiKeyEnv && this.secretKeyEnv == secretKeyEnv && trader == null
    {
      this.apiKeyEnv := apiKeyEnv;
      this.secretKeyEnv := secretKeyEnv;
      trader := null;
    }

    /** The credentials of the current client, if there is one. */
    function Current(): Option<Creds>
      reads this
    {
      if trader == null then None else Some(trader.Credentials())
    }

    /** `initialize_trader`. */
    method InitializeTrader() returns (ok: bool)
      modifies this
      ensures ok <==> Present(apiKeyEnv) && Present(secretKeyEnv)
      ensures Current() == AfterInitialize(old(Current()), apiKeyEnv, secretKeyEnv)
      ensures ok ==> fresh(trader)
      ensures !ok ==> trader == old(trader)
    {
      if apiKeyEnv.Some? && apiKeyEnv.value != "" && secretKeyEnv.Some? && secretKeyEnv.value != "" {
        trader := new Trader(apiKeyEnv.value, secretKeyEnv.value);
        ok := true;
      } else {
        ok := false;
      }
    }

    /**
     * `webhook`, for a body `get_json` raises on (`Malformed`), or one it
     * parses into an object or into something else. Returns the response
     * and the exchange request it made, if any.
     */
    method Webhook(body: Incoming, env: Env) returns (response: Response, sent: Option<Request>)
      modifies this
      ensures Current() == if body.Malformed? then old(Current()) else Resolve(old(Current()), apiKeyEnv, secretKeyEnv)
      ensures body.Malformed? || old(trader) != null ==> trader == old(trader)
      ensures Handled(response, sent) == Handle(Current(), body, env)
    {
      if body.Malformed? {
        return Response(500, Raised), None;
      }
      if trader == null {
        var _ := InitializeTrader();
        if trader == null {
          return Response(500, Error("MEXC trader not initialized")), None;
        }
      }
      var data := body.data;
      if data.None? {
        return Response(500, Raised), None;
      }
      var route := RouteAction(data.value);
      var result: Option<Json>;
      match route {
        case InvalidAction =>
          return Response(400, Error("Invalid action")), None;
        case Dispatch(call, message) =>
          match call {
            case OrderCall(symbol, side, quantity, orderType) =>
              result, sent := trader.PlaceOrder(symbol, side, quantity, env, orderType);
            case CancelCall(symbol) =>
              result, sent := trader.CancelAllOrders(symbol, env);
          }
          if Truthy(result) {
            response := Response(200, Success(message, result.value));
          } else {
            response := Response(500, Error("Trade failed"));
          }
      }
    }
  }
}
