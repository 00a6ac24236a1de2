/**
 * The request builders: the argument checks of each private or public
 * operation, the request object it builds key by key, and the one endpoint
 * call it makes with the caller's parameters merged over that request.
 */
module Requests {
  import opened Wrappers
  import opened Base
  import opened Describe
  import Dict
  import Strings

  /** `if (v !== undefined) { request[key] = v; }` on a request that lacks `key`. */
  function Optional(key: string, v: Json): (p: Params)
    ensures |p| <= 1
    ensures p == [] <==> v == JUndef
    ensures p != [] ==> p[0] == (key, v)
  {
    if v == JUndef then [] else [(key, v)]
  }

  /** One call and the response it got. */
  datatype Sent = Sent(call: Call, response: Json)

  /** The transport's answer to a call. */
  function Response(env: Env, call: Call): Json {
    env.invoke(call.endpoint, call.Query())
  }

  /** The optional key of a request is present exactly when its argument is defined, and holds that argument. */
  lemma OptionalKey(fixed: Params, key: string, v: Json)
    requires !Dict.HasKey(fixed, key)
    ensures Dict.HasKey(fixed + Optional(key, v), key) <==> v != JUndef
    ensures v != JUndef ==> Dict.Get(fixed + Optional(key, v), key) == v
  {
    var p := fixed + Optional(key, v);
    assert Dict.Keys(p) == Dict.Keys(fixed) + Dict.Keys(Optional(key, v));
    if v != JUndef {
      GetAfter(fixed, key, v);
    }
  }

  lemma {:induction false} GetAfter(fixed: Params, key: string, v: Json)
    requires !Dict.HasKey(fixed, key)
    ensures Dict.Get(fixed + [(key, v)], key) == v
  {
    if fixed != [] {
      assert (fixed + [(key, v)])[1..] == fixed[1..] + [(key, v)];
      assert Dict.Keys(fixed) == [fixed[0].0] + Dict.Keys(fixed[1..]);
      GetAfter(fixed[1..], key, v);
    }
  }

  /** `fetchOrderBook(symbol, limit, params)`, up to the unseen `parseOrderBook`. */
  method FetchOrderBook(env: Env, reg: Registry, symbol: Option<string>, limit: Json, params: Params)
    returns (r: Result<Sent>)
    ensures symbol.None? ==> r == Failure(ArgumentsRequired("symbol"))
    ensures symbol.Some? ==> (r.Success? <==> MarketId(reg, symbol).Success?)
    ensures symbol.Some? && r.Failure? ==> r.error == TypeError
    ensures r.Success? ==>
      && r.value.call == Call("openGetMarketDepth", [("symbol", MarketId(reg, symbol).value)] + Optional("limit", limit), params)
      && r.value.response == Response(env, r.value.call)
  {
    if symbol.None? {
      return Failure(ArgumentsRequired("symbol"));
    }
    var id := MarketId(reg, symbol);
    if id.Failure? {
      return Failure(TypeError);
    }
    var request := [("symbol", id.value)];
    if limit != JUndef {
      request := request + [("limit", limit)];
    }
    var call := Call("openGetMarketDepth", request, params);
    return Success(Sent(call, Response(env, call)));
  }

  /** The orders call and `response['data']['list']`, the fetched orders. */
  datatype Orders = Orders(call: Call, list: Json)

  /** The orders request: the market id, then `startTime` and `limit` when defined. */
  function OrdersCall(id: Json, since: Json, limit: Json, params: Params): Call {
    Call("signedGetOrders", [("symbol", id)] + Optional("startTime", since) + Optional("limit", limit), params)
  }

  /** `fetchOrders(symbol, since, limit, params)`. */
  method FetchOrders(env: Env, reg: Registry, symbol: Option<string>, since: Json, limit: Json, params: Params)
    returns (r: Result<Orders>)
    ensures symbol.None? ==> r == Failure(ArgumentsRequired("symbol"))
    ensures symbol.Some? && MarketId(reg, symbol).Failure? ==> r == Failure(TypeError)
    ensures symbol.Some? && MarketId(reg, symbol).Success? ==>
      var call := OrdersCall(MarketId(reg, symbol).value, since, limit, params);
      var response := Response(env, call);
      && (r.Success? <==> !IsNullish(response) && !IsNullish(Prop(response, "data")))
      && (r.Failure? ==> r.error == TypeError)
      && (r.Success? ==> r.value == Orders(call, Prop(Prop(response, "data"), "list")))
  {
    if symbol.None? {
      return Failure(ArgumentsRequired("symbol"));
    }
    var id := MarketId(reg, symbol);
    if id.Failure? {
      return Failure(TypeError);
    }
    var request := [("symbol", id.value)];
    if since != JUndef {
      request := request + [("startTime", since)];
    }
    if limit != JUndef {
      request := request + [("limit", limit)];
    }
    assert request == [("symbol", id.value)] + Optional("startTime", since) + Optional("limit", limit);
    var call := Call("signedGetOrders", request, params);
    var response := Response(env, call);
    var data := Member(response, "data");
    if data.Failure? {
      return Failure(TypeError);
    }
    var list := Member(data.value, "list");
    if list.Failure? {
      return Failure(TypeError);
    }
    return Success(Orders(call, list.value));
  }

  /** The order request: symbol id, side and type codes, quantity, then the price when defined. */
  function OrderRequest(id: Json, orderType: string, side: string, amount: Json, price: Json): Params
    requires side in SIDES && orderType in TYPES
  {
    [("symbol", id), ("side", JNum(SIDES[side] as real)), ("type", JNum(TYPES[orderType] as real)),
     ("quantity", amount)] + Optional("price", price)
  }

  /**
   * `createOrder(symbol, type, side, amount, price, params)`: the symbol, the
   * side and the type are checked in that order, before any request is built.
   */
  method CreateOrder(env: Env, reg: Registry, symbol: Option<string>, orderType: string, side: string,
                     amount: Json, price: Json, params: Params)
    returns (r: Result<Sent>)
    ensures symbol.None? ==> r == Failure(ArgumentsRequired("symbol"))
    ensures symbol.Some? && side !in SIDES ==> r == Failure(NotSupported("Side " + side + " not supported"))
    ensures symbol.Some? && side in SIDES && orderType !in TYPES ==>
              r == Failure(NotSupported("Type " + orderType + " not supported."))
    ensures symbol.Some? && side in SIDES && orderType in TYPES ==>
              (r.Success? <==> MarketId(reg, symbol).Success?) && (r.Failure? ==> r.error == TypeError)
    ensures r.Success? ==>
      && symbol.Some? && side in SIDES && orderType in TYPES
      && r.value.call == Call("signedPostOrders",
                              OrderRequest(MarketId(reg, symbol).value, orderType, side, amount, price), params)
      && r.value.response == Response(env, r.value.call)
  {
    if symbol.None? {
      return Failure(ArgumentsRequired("symbol"));
    }
    if side !in SIDES {
      return Failure(NotSupported("Side " + side + " not supported"));
    }
    var requestSide := SIDES[side];
    if orderType !in TYPES {
      return Failure(NotSupported("Type " + orderType + " not supported."));
    }
    var requestType := TYPES[orderType];
    var id := MarketId(reg, symbol);
    if id.Failure? {
      return Failure(TypeError);
    }
    var request := [("symbol", id.value), ("side", JNum(requestSide as real)), ("type", JNum(requestType as real)),
                    ("quantity", amount)];
    if price != JUndef {
      request := request + [("price", price)];
    }
    assert request == OrderRequest(id.value, orderType, side, amount, price);
    var call := Call("signedPostOrders", request, params);
    return Success(Sent(call, Response(env, call)));
  }

  /** The order request carries the exchange's code of the side (0 or 1) and of the type (1 to 7). */
  lemma OrderCodes(id: Json, orderType: string, side: string, amount: Json, price: Json)
    requires side in SIDES && orderType in TYPES
    ensures var p := OrderRequest(id, orderType, side, amount, price);
            && Dict.Get(p, "side") == JNum(if side == "buy" then 0.0 else 1.0)
            && (var code := Dict.Get(p, "type"); code.JNum? && 1.0 <= code.n <= 7.0)
  {
    var e0, e1, e2 := ("symbol", id), ("side", JNum(SIDES[side] as real)), ("type", JNum(TYPES[orderType] as real));
    var q2 := [("quantity", amount)] + Optional("price", price);
    var p := OrderRequest(id, orderType, side, amount, price);
    assert p == [e0] + ([e1] + ([e2] + q2));
    Dict.GetCons(e0, [e1] + ([e2] + q2));
    Dict.GetCons(e1, [e2] + q2);
    Dict.GetCons(e2, q2);
    assert "symbol" != "side" && "symbol" != "type" by {
      assert |"symbol"| != |"side"| && |"symbol"| != |"type"|;
    }
    assert "side" != "type" by {
      assert "side"[0] != "type"[0];
    }
    SideCode(side);
    TypeCode(orderType);
  }

  lemma SideCode(side: string)
    requires side in SIDES
    ensures SIDES[side] == if side == "buy" then 0 else 1
  {
  }

  /** The order request has a price exactly when one is given, and then it is the given price. */
  lemma OrderPrice(id: Json, orderType: string, side: string, amount: Json, price: Json)
    requires side in SIDES && orderType in TYPES
    ensures var p := OrderRequest(id, orderType, side, amount, price);
            && (Dict.HasKey(p, "price") <==> price != JUndef)
            && (price != JUndef ==> Dict.Get(p, "price") == price)
  {
    var fixed := [("symbol", id), ("side", JNum(SIDES[side] as real)), ("type", JNum(TYPES[orderType] as real)),
                  ("quantity", amount)];
    assert Dict.Keys(fixed) == ["symbol", "side", "type", "quantity"];
    OptionalKey(fixed, "price", price);
  }

  lemma TypeCode(orderType: string)
    requires orderType in TYPES
    ensures 1 <= TYPES[orderType] <= 7
  {
  }

  /** `cancelOrder(id, symbol, params)`. */
  method CancelOrder(env: Env, id: Json, params: Params) returns (r: Result<Sent>)
    ensures id == JUndef ==> r == Failure(ArgumentsRequired("id"))
    ensures id != JUndef ==>
      var call := Call("signedPostOrdersCancel", [("orderId", id)], params);
      r == Success(Sent(call, Response(env, call)))
  {
    if id == JUndef {
      return Failure(ArgumentsRequired("id"));
    }
    var call := Call("signedPostOrdersCancel", [("orderId", id)], params);
    return Success(Sent(call, Response(env, call)));
  }

  /** A history query: the call and `response['data']['list']`, handed to the unseen `parseTransactions`. */
  datatype History = History(call: Call, list: Json)

  /** The request of a deposit or withdrawal history: the currency id, then the 90-day window from `since`. */
  method HistoryRequest(reg: Registry, code: Option<string>, since: Option<int>) returns (r: Result<Params>)
    ensures code.Some? && CurrencyId(reg, code.value).Failure? ==> r == Failure(CurrencyId(reg, code.value).error)
    ensures code.None? || CurrencyId(reg, code.value).Success? ==>
      r == Success((if code.Some? then [("asset", CurrencyId(reg, code.value).value)] else []) +
                   (if since.Some? then [("startTime", JNum(since.value as real)),
                                         ("endTime", JNum((since.value + HISTORY_WINDOW) as real))]
                    else []))
  {
    var request: Params := [];
    if code.Some? {
      var currency := CurrencyId(reg, code.value);
      if currency.Failure? {
        return Failure(currency.error);
      }
      request := request + [("asset", currency.value)];
    }
    ghost var fixed := request;
    if since.Some? {
      request := request + [("startTime", JNum(since.value as real))];
      request := request + [("endTime", JNum((since.value + HISTORY_WINDOW) as real))];
      assert request == fixed + [("startTime", JNum(since.value as real)),
                                 ("endTime", JNum((since.value + HISTORY_WINDOW) as real))];
    } else {
      assert request == fixed + [];
    }
    assert fixed == if code.Some? then [("asset", CurrencyId(reg, code.value).value)] else [];
    return Success(request);
  }

  /** The history window ends exactly 90 days after it starts, and the currency is sent only when a code is given. */
  lemma HistoryWindow(p: Params, code: Option<string>, id: Json, since: int)
    requires p == (if code.Some? then [("asset", id)] else []) +
                  [("startTime", JNum(since as real)), ("endTime", JNum((since + HISTORY_WINDOW) as real))]
    ensures Dict.Get(p, "startTime") == JNum(since as real)
    ensures Dict.Get(p, "endTime") == JNum(since as real + 7776000000.0)
    ensures Dict.HasKey(p, "asset") <==> code.Some?
  {
    assert (since + HISTORY_WINDOW) as real == since as real + 7776000000.0;
    var start, end := ("startTime", JNum(since as real)), ("endTime", JNum(since as real + 7776000000.0));
    var window := [start, end];
    Dict.GetCons(start, [end]);
    Dict.GetCons(end, []);
    assert [start] + [end] == window;
    assert Dict.Keys(window) == ["startTime", "endTime"];
    if code.Some? {
      var asset := ("asset", id);
      assert p == [asset] + window;
      Dict.GetCons(asset, window);
      Dict.KeysCons(p);
      assert p[1..] == window;
    } else {
      assert p == window;
    }
  }

  /** `fetchDeposits` and `fetchWithdrawals`: one history call on `endpoint`. */
  method FetchHistory(env: Env, reg: Registry, endpoint: string, code: Option<string>, since: Option<int>,
                      params: Params)
    returns (r: Result<History>)
    ensures code.Some? && CurrencyId(reg, code.value).Failure? ==> r.Failure?
    ensures code.Some? && code.value !in reg.currencies ==> r == Failure(ExchangeError)
    ensures code.None? || CurrencyId(reg, code.value).Success? ==>
      var request := (if code.Some? then [("asset", CurrencyId(reg, code.value).value)] else []) +
                     (if since.Some? then [("startTime", JNum(since.value as real)),
                                           ("endTime", JNum((since.value + HISTORY_WINDOW) as real))]
                      else []);
      var call := Call(endpoint, request, params);
      var response := Response(env, call);
      && (r.Success? <==> !IsNullish(response) && !IsNullish(Prop(response, "data")))
      && (r.Failure? ==> r.error == TypeError)
      && (r.Success? ==> r.value == History(call, Prop(Prop(response, "data"), "list")))
  {
    var request := HistoryRequest(reg, code, since);
    if request.Failure? {
      return Failure(request.error);
    }
    var call := Call(endpoint, request.value, params);
    var response := Response(env, call);
    var data := Member(response, "data");
    if data.Failure? {
      return Failure(TypeError);
    }
    var list := Member(data.value, "list");
    if list.Failure? {
      return Failure(TypeError);
    }
    return Success(History(call, list.value));
  }

  /** `fetchDeposits(code, since, limit, params)`. */
  method FetchDeposits(env: Env, reg: Registry, code: Option<string>, since: Option<int>, params: Params)
    returns (r: Result<History>)
    ensures code.Some? && CurrencyId(reg, code.value).Failure? ==> r.Failure?
    ensures code.Some? && code.value !in reg.currencies ==> r == Failure(ExchangeError)
    ensures r.Success? ==> r.value.call.endpoint == "signedGetDeposits" && r.value.call.params == params
    ensures code.None? || CurrencyId(reg, code.value).Success? ==>
      var request := (if code.Some? then [("asset", CurrencyId(reg, code.value).value)] else []) +
                     (if since.Some? then [("startTime", JNum(since.value as real)),
                                           ("endTime", JNum((since.value + HISTORY_WINDOW) as real))]
                      else []);
      var call := Call("signedGetDeposits", request, params);
      var response := Response(env, call);
      && (r.Success? <==> !IsNullish(response) && !IsNullish(Prop(response, "data")))
      && (r.Failure? ==> r.error == TypeError)
      && (r.Success? ==> r.value == History(call, Prop(Prop(response, "data"), "list")))
  {
    r := FetchHistory(env, reg, "signedGetDeposits", code, since, params);
  }

  /** `fetchWithdrawals(code, since, limit, params)`. */
  method FetchWithdrawals(env: Env, reg: Registry, code: Option<string>, since: Option<int>, params: Params)
    returns (r: Result<History>)
    ensures code.Some? && CurrencyId(reg, code.value).Failure? ==> r.Failure?
    ensures code.Some? && code.value !in reg.currencies ==> r == Failure(ExchangeError)
    ensures r.Success? ==> r.value.call.endpoint == "signedGetWithdraws" && r.value.call.params == params
    ensures code.None? || CurrencyId(reg, code.value).Success? ==>
      var request := (if code.Some? then [("asset", CurrencyId(reg, code.value).value)] else []) +
                     (if since.Some? then [("startTime", JNum(since.value as real)),
                                           ("endTime", JNum((since.value + HISTORY_WINDOW) as real))]
                      else []);
      var call := Call("signedGetWithdraws", request, params);
      var response := Response(env, call);
      && (r.Success? <==> !IsNullish(response) && !IsNullish(Prop(response, "data")))
      && (r.Failure? ==> r.error == TypeError)
      && (r.Success? ==> r.value == History(call, Prop(Prop(response, "data"), "list")))
  {
    r := FetchHistory(env, reg, "signedGetWithdraws", code, since, params);
  }

  /** What `withdraw` returns: the response as `info`, and its `id`. */
  datatype Withdrawal = Withdrawal(call: Call, info: Json, id: Option<string>)

  /**
   * `withdraw(code, amount, address, tag, params)`: the address is checked
   * before anything else; the request names the withdrawal after the first 20
   * characters of the address.
   */
  method Withdraw(env: Env, reg: Registry, code: string, amount: Json, address: string, tag: Json, params: Params)
    returns (r: Result<Withdrawal>)
    ensures !env.checkAddress(address) ==> r == Failure(InvalidAddress)
    ensures env.checkAddress(address) ==> (r.Success? <==> CurrencyId(reg, code).Success?)
    ensures env.checkAddress(address) && code !in reg.currencies ==> r == Failure(ExchangeError)
    ensures r.Success? ==>
      var request := r.value.call.request;
      && |request| == 4 + |Optional("addressTag", tag)|
      && request[..4] == [("asset", CurrencyId(reg, code).value), ("address", JStr(address)),
                          ("amount", FloatValue(ParseFloat(env, amount))), ("name", JStr(Strings.Take(address, 20)))]
      && request[4..] == Optional("addressTag", tag)
      && r.value.call.endpoint == "signedPostWithdraws" && r.value.call.params == params
      && r.value.info == Response(env, r.value.call)
      && r.value.id == SafeString(env, r.value.info, "id")
  {
    if !env.checkAddress(address) {
      return Failure(InvalidAddress);
    }
    var currency := CurrencyId(reg, code);
    if currency.Failure? {
      return Failure(currency.error);
    }
    var name := Strings.Take(address, 20);
    var request := [("asset", currency.value), ("address", JStr(address)),
                    ("amount", FloatValue(ParseFloat(env, amount))), ("name", JStr(name))];
    if tag != JUndef {
      request := request + [("addressTag", tag)];
    }
    var call := Call("signedPostWithdraws", request, params);
    var response := Response(env, call);
    return Success(Withdrawal(call, response, SafeString(env, response, "id")));
  }

  /** The withdrawal name is a prefix of the address, and the whole address when it has at most 20 characters. */
  lemma WithdrawalName(address: string)
    ensures Strings.Take(address, 20) <= address
    ensures |address| <= 20 ==> Strings.Take(address, 20) == address
    ensures |address| > 20 ==> |Strings.Take(address, 20)| == 20
  {
  }
}
