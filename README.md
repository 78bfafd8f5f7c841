# TradingView → MEXC webhook bot, modelled in Dafny

The bot takes trade signals from a TradingView webhook and relays them to the
MEXC spot API as signed REST requests. This project models the part of
`app.py` that decides what gets sent and signed:

- the canonical string `MEXCTrader._generate_signature` signs, and the signature;
- `_send_request`, which stamps and signs the caller's dict in place, picks a transport by method, and turns every failure inside its `try` (the request, the status check and the decoding) into `None`;
- the three operations `place_order`, `get_account_info` and `cancel_all_orders`;
- the lazily built global `trader` and `initialize_trader`;
- the decisions inside `webhook`: initialisation first, then defaults, then action → call, then result → status.

Modules, one per layer:

| file | module | models |
|---|---|---|
| `wrappers.dfy` | `Wrappers` | `Option`, the program's `None` |
| `text.dfy` | `PyText` | Python's `<` on `str` (what `sorted` uses), `str(int)`, `sep.join` |
| `pydict.dfy` | `PyDict` | a `dict` as its insertion-ordered items; `Dict`, the object that is updated in place |
| `signing.dfy` | `Signing` | `sorted(params.items())`, the `k=v&...&timestamp=T` string, the signature |
| `mexc.dfy` | `Mexc` | JSON results, the transport, `MEXCTrader` as class `Trader` |
| `bot.dfy` | `Bot` | the webhook payload, its routing and response, the module globals as class `App` |

Outside inputs. The clock (milliseconds), HMAC-SHA256 with its hex output, and
the HTTP transport are fields of `Mexc.Env`, passed to each call:

- `mac: (string, string) -> string` is any function, so nothing is assumed about the hash;
- `transport: Request -> Reply` answers a request with no response at all, or a status code and a body that is JSON or not.

`Settle` models `raise_for_status()` (400–599 raise) and `json()`.

`sorted` is modelled as an insertion sort under Python's tuple order.
`Signing.SortedUnique` proves that a sorted permutation is unique, so the
result is the one Python's own sort produces.

What the code does that a reader of MEXC's API might not expect (the model follows the code):

- `cancel_all_orders` asks `_send_request` for `DELETE`, but `_send_request` has branches only for `GET` and `POST` (app.py:54-57). `response` is then unbound, the error is swallowed, and the call returns `None` without sending anything. Every close action therefore answers 500 "Trade failed" (`Bot.CloseAlwaysFails`). MEXC's `DELETE /api/v3/openOrders` takes its parameters in the query, but `_send_request` never sends a `DELETE` at all.
- `timestamp` is stored in the dict before signing (app.py:41, 48). The signed string therefore holds the timestamp twice, once as a sorted pair and once as the suffix. For the account query it is `timestamp=T&timestamp=T` (`Mexc.AccountInfoRequest`).
- `Content-Type: application/json` is sent on `GET` as well, not only on requests with a body.
- Failures are `None`, not typed errors. A successful reply whose body is JSON `null` is `None` as well (app.py:60), so the webhook cannot tell it from a failure.
- A body `request.get_json()` raises on (app.py:114) is answered with 500 before the client is looked at, so `trader` is not initialised on that request (`Bot.MalformedRaises`).

## Model

| member | source | states |
|---|---|---|
| `PyText.BelowTransitive` | app.py:27 | Python's string order, used by `sorted`, is transitive |
| `PyText.BelowTotal` | app.py:27 | any two distinct strings are ordered one way or the other |
| `PyText.BelowIrreflexive` | app.py:27 | no string is below itself |
| `PyText.Below` | app.py:27 | defines Python's `<` on `str`: code-point lexicographic order, a proper prefix first; its order properties are the three lemmas above |
| `PyText.NatToString` | app.py:40 | `str(n)` is a non-empty string of decimal digits with no leading zero |
| `PyText.NatToStringValue` | app.py:40 | the digits of `str(n)`, read back as a decimal number, give n |
| `PyText.NatToStringInjective` | app.py:40 | different timestamps give different timestamp strings |
| `PyText.IntToStringInjective` | app.py:71 | different integer quantities give different `quoteOrderQty` strings |
| `PyText.IntToString` | app.py:71 | defines `str(i)` for an int: `-` then the digits of `-i` for a negative i; `IntToStringInjective` is its partner |
| `PyText.Join` | app.py:27 | defines `sep.join(parts)`: the parts with `sep` between neighbours and none at the ends |
| `PyDict.KeysCons` | app.py:41 | an empty dict has no keys; otherwise the keys are the first key and the keys of the rest |
| `PyDict.Lookup` | app.py:41-49 | a key is found exactly when it is present, and the value found belongs to that key |
| `PyDict.LookupAt` | app.py:41-49 | with distinct keys, looking up an item's key yields that item's value |
| `PyDict.Store` | app.py:41 | `d[k] = v`: an existing key keeps its position and gets v; a new key is appended; no other item changes |
| `PyDict.StoreKeys` | app.py:41 | after `d[k] = v` the keys stay distinct and are the old keys plus k |
| `PyDict.StoreAppends` | app.py:41 | storing a key that is not yet present appends the pair |
| `PyDict.LookupStore` | app.py:41 | after `d[k] = v`, reading k gives v and every other key reads as before |
| `PyDict.Dict.constructor` | app.py:67-72 | a dict display holds its pairs in the written order |
| `PyDict.Dict.Set` | app.py:41 | the in-place update leaves the dict's items equal to `Store` of the old items |
| `Signing.PairBelow` | app.py:27 | defines Python's `<` on `(key, value)` tuples: the keys decide, and equal keys fall back to the values; `PairAtMostTotal`, `PairAtMostTransitive` and `PairAtMostAntisymmetric` are its properties |
| `Signing.PairAtMost` | app.py:27 | defines Python's `<=` on those tuples: equal, or below |
| `Signing.PairAtMostTotal` | app.py:27 | Python's order on `(key, value)` tuples is total |
| `Signing.PairAtMostTransitive` | app.py:27 | the tuple order is transitive |
| `Signing.PairAtMostAntisymmetric` | app.py:27 | the tuple order is antisymmetric |
| `Signing.Insert` | app.py:27 | inserting into a sorted list keeps it sorted and adds exactly that element |
| `Signing.SortItems` | app.py:27 | `sorted(params.items())` is sorted and is a permutation of the items |
| `Signing.SortedUnique` | app.py:27 | two sorted lists with the same elements are equal, so every correct sort gives the same list |
| `Signing.SortedHeads` | app.py:27 | two sorted lists with the same elements start with the same element |
| `Signing.SortItemsIs` | app.py:27 | any sorted permutation of the items is exactly what `sorted` returns |
| `Signing.SortedByNeighbours` | app.py:27 | a list whose neighbours are in order is sorted |
| `Signing.DistinctKeysCount` | app.py:27 | a dict's item list holds each item at most once |
| `Signing.Render` | app.py:27 | defines `f"{k}={v}"` for one pair |
| `Signing.RenderAll` | app.py:27 | defines the list comprehension: each sorted pair rendered, in order |
| `Signing.SignedString` | app.py:27-28 | defines the string `_generate_signature` signs: the rendered sorted pairs joined by `&`, then `&timestamp=T`; `SignedStringOrderIndependent` and `OrderSignedString` state its properties |
| `Signing.Signature` | app.py:25-33 | defines the signature as the given MAC of the secret and that string; `SignatureOrderIndependent` states its property |
| `Signing.SignedStringOrderIndependent` | app.py:27-28 | dicts with the same entries in any insertion order give the same signed string |
| `Signing.SignatureOrderIndependent` | app.py:25-33 | the same entries, timestamp and secret always give the same signature, whatever the insertion order |
| `Mexc.Timestamp` | app.py:40 | the timestamp is a non-empty string of decimal digits with no leading zero (only `0` itself starts with `0`) that reads back as the clock's milliseconds, which fixes it as `str(n)` |
| `Mexc.SignParams` | app.py:40-49 | defines the stamping and signing of the dict: `d['timestamp'] = T`, then `d['signature']` over the stamped dict; `SignParamsEntries` and `SignParamsAppends` state its effect |
| `Mexc.Headers` | app.py:43-46 | defines the two headers, `X-MEXC-APIKEY` and `Content-Type: application/json`, for every method |
| `Mexc.SignParamsEntries` | app.py:40-49 | after `_send_request` the dict has exactly its old keys plus `timestamp` and `signature`, with both values set and every other entry unchanged; the signature covers a dict that holds the timestamp and no `signature` unless the caller put one there |
| `Mexc.SignParamsAppends` | app.py:41-49 | a dict without either key gets `timestamp` and then `signature` appended, and the signature is HMAC over the dict extended by the timestamp |
| `Mexc.Transmit` | app.py:53-57 | a request is made exactly for `GET` (query) and `POST` (JSON body), to the given URL with the given headers and parameters; any other method makes none |
| `Mexc.Settle` | app.py:59-63 | the result is present exactly when there was a response, its status is not 400–599 and its body is JSON other than `null`, and it is that body |
| `Mexc.Outgoing` | app.py:35-57 | a request is made exactly for `GET` and `POST`, and `GET` gives a query request and `POST` a JSON-body one; it goes to the base URL plus the endpoint, with the API-key headers and the stamped and signed dict |
| `Mexc.Deliver` | app.py:53-63 | defines what `_send_request` returns: nothing without a request, else the reply settled; `Settle`, `OtherMethodsNone` and `Trader.CancelAllOrders` state its outcomes |
| `Mexc.OtherMethodsNone` | app.py:53-63 | for any method name other than `GET` and `POST` no request is made and `_send_request` returns `None` |
| `Mexc.OrderParams` | app.py:67-72 | defines the dict display of `place_order`: `symbol`, `side`, `type`, `quoteOrderQty=str(quantity)` in that order; `OrderParamsKeys` states its keys |
| `Mexc.Truthy` | app.py:151 | defines `if result:` on a decoded reply: `None`, `null`, `false`, zero and empty strings, lists and objects are falsy |
| `Mexc.OrderParamsKeys` | app.py:67-72 | the order dict has exactly the distinct keys `symbol`, `side`, `type`, `quoteOrderQty` |
| `Mexc.OrderKeysOrdered` | app.py:27 | the stamped order keys in ascending order are `quoteOrderQty`, `side`, `symbol`, `timestamp`, `type` |
| `Mexc.OrderKeysSorted` | app.py:27 | the stamped order pairs in that key order form a sorted list |
| `Mexc.OrderItemsSorted` | app.py:27 | sorting the stamped order dict gives its pairs in that key order |
| `Mexc.OrderItemsRendered` | app.py:27 | those pairs render as `quoteOrderQty=Q`, `side=S`, `symbol=X`, `timestamp=T`, `type=O` |
| `Mexc.OrderSignedString` | app.py:27-28 | an order signs `quoteOrderQty=Q&side=S&symbol=X&timestamp=T&type=O&timestamp=T` |
| `Mexc.AccountSignedString` | app.py:27-28 | a dict holding only the timestamp signs `timestamp=T&timestamp=T` |
| `Mexc.OrderSigned` | app.py:40-49 | the order dict after signing is its four pairs, then `timestamp`, then the signature over the order string above |
| `Mexc.PlaceOrderRequest` | app.py:65-74 | `place_order` makes one POST to `https://api.mexc.com/api/v3/order` with the API-key and content-type headers; its body is `symbol, side, type, quoteOrderQty=str(quantity), timestamp, signature` in that order |
| `Mexc.AccountInfoRequest` | app.py:76-78 | `get_account_info` makes one GET to `/api/v3/account` carrying only `timestamp` and a signature over `timestamp=T&timestamp=T` |
| `Mexc.Trader.constructor` | app.py:20-23 | the client keeps the two credentials; its base URL is `https://api.mexc.com` |
| `Mexc.Trader.SendRequest` | app.py:35-63 | the caller's dict, or a new one when none is given, ends as the stamped and signed dict; the request made and the result returned are `Outgoing` and `Deliver` of the original items |
| `Mexc.Trader.PlaceOrder` | app.py:65-74 | builds the order dict (`orderType` defaults to MARKET) and sends it as a POST to the order endpoint |
| `Mexc.Trader.GetAccountInfo` | app.py:76-78 | sends a GET to the account endpoint with no parameters of its own |
| `Mexc.Trader.CancelAllOrders` | app.py:80-82 | asks for DELETE on the open-orders endpoint, so it sends nothing and returns `None` |
| `Bot.Present` | app.py:89 | defines the truthiness of an environment variable: set and not empty |
| `Bot.AfterInitialize` | app.py:87-95 | defines what `initialize_trader` leaves in `trader`; `InitializeIdempotent` is its property |
| `Bot.Resolve` | app.py:117-120 | defines `if not trader: initialize_trader()`; `ResolveReady` is its property |
| `Bot.InitializeIdempotent` | app.py:87-95 | initialising twice with the same credentials leaves the same client as initialising once |
| `Bot.ResolveReady` | app.py:117-120 | after the initialisation check a client exists exactly when one already did or both credentials are truthy; an existing client is kept |
| `Bot.RouteOpen` | app.py:129-141 | `buy`/`long` give `place_order(symbol, 'BUY', quantity, 'MARKET')` and `sell`/`short` give the same with SELL; symbol defaults to BTCUSDT and quantity to 10 |
| `Bot.RouteClose` | app.py:129-146 | `close_long`, `close_short` and `close` give `cancel_all_orders(symbol)`, with symbol defaulting to BTCUSDT |
| `Bot.RouteInvalid` | app.py:133-149 | an action is rejected exactly when it is missing or none of the seven names |
| `Bot.RouteAction` | app.py:129-149 | defines the defaults and the `if/elif` chain on `action`, with the Turkish success messages; `RouteOpen`, `RouteClose` and `RouteInvalid` state what it routes where |
| `Bot.CallRequest` | app.py:133-145 | defines the request each routed call builds through the trader |
| `Bot.Handle` | app.py:113-163 | defines the webhook decision: parse error, then client check, then payload, route and result; the lemmas below state its outcomes |
| `Bot.MalformedRaises` | app.py:113-163 | a body `get_json` raises on gets 500 and no request, before the client is looked at |
| `Bot.UninitializedFails` | app.py:117-120 | without a client every payload, an invalid action included, gets 500 "MEXC trader not initialized" and no request is made |
| `Bot.InvalidActionRejected` | app.py:148-149 | an unknown action gets 400 "Invalid action" and no request is made |
| `Bot.CloseAlwaysFails` | app.py:143-159 | every close action sends nothing and gets 500 "Trade failed" |
| `Bot.DispatchOutcome` | app.py:151-159 | a routed call is made once; the answer is 200 with the message and the result when the result is truthy, otherwise 500 "Trade failed" |
| `Bot.OpenPlacesOneOrder` | app.py:133-141 | an open action makes exactly one POST to the order endpoint, with the defaulted symbol and quantity, MARKET, the timestamp and the signature over the order string |
| `Bot.App.constructor` | app.py:85 | the program starts with no client |
| `Bot.App.InitializeTrader` | app.py:87-95 | returns whether both credentials are truthy; if they are, the client is new and holds them; if not, `trader` is unchanged |
| `Bot.App.Webhook` | app.py:111-163 | a malformed body changes nothing; otherwise the client is as the initialisation check leaves it, and a client that existed is kept as the same object; the response and the request made are those of `Handle` for that client |

## Left out

- HTTP routing, `request.get_json`, `jsonify`, and the `home`, `status` and `test` endpoints (app.py:97-108, 165-207) are web-framework plumbing. A body `get_json` raises on is `Malformed`, and a parsed body that is not a JSON object is the `None` payload; both are answered before and after the initialisation check respectively, as in the source, but the text of the exception (`str(e)`) is not modelled (`Raised`).
- The `requests` calls, URL-encoding of the query and body, and the API-key header's transport are an oracle (`Env.transport`). The model records the request handed to it.
- HMAC-SHA256, `hexdigest` and UTF-8 encoding are the function `Env.mac`. That changing one character of the signed string changes the signature is a property of the hash, so it is not provable here. The signed string is also not injective in general: values containing `&` or `=` can collide.
- Errors raised before the `try` of `_send_request` (app.py:40-51) are not modelled. In particular, `.encode('utf-8')` of the secret or of the signed string (app.py:30-31) raises on a string holding a lone surrogate. Such a string can arrive in a webhook field or an environment variable. The exception then escapes `place_order`, no request is made, and `webhook` answers 500 with `str(e)` (app.py:161-163). Dafny's `char` cannot hold a surrogate, so the model's strings exclude this input class.
- `requests.get` and `requests.post` are called without a `timeout` (app.py:55, 57), so a call can block forever. `Env.transport` always answers, so the model covers only calls that return.
- `time.time()` is `Env.clockMs`, the milliseconds already truncated.
- Environment variables are the constructor arguments of `App`. Logging and `app.run` are left out.
- `Bot.RouteAction` quantities are integers. A float quantity and Python's float formatting in `str(quantity)` (app.py:71) are not modelled. Non-string symbols and JSON `null` field values are not modelled either.
- Concurrent first requests racing on the global `trader` under Flask's threaded server are not modelled.
- `Mexc.Json` numbers are reals. Truthiness covers null, booleans, zero and empty containers.
