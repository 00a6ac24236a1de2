/**
 * The operations the adapter emulates on top of `fetchOrders`: the closed and
 * the open orders (the fetched orders filtered by status), and the
 * cancellation of every fetched order, one request per order.
 */
module Compound {
  import opened Wrappers
  import opened Base
  import opened Describe
  import Dict
  import Requests

  /**
   * `filterBy(orders, 'status', status)`: the orders whose `status` is that
   * string, in order. Reading the status of a null order throws.
   */
  function FilterBy(orders: seq<Json>, status: string): (r: Result<seq<Json>>)
    ensures r.Success? <==> forall j :: 0 <= j < |orders| ==> !IsNullish(orders[j])
    ensures r.Failure? ==> r.error == TypeError
    ensures r.Success? ==> |r.value| <= |orders|
    ensures r.Success? ==> forall o :: o in r.value ==> Prop(o, "status") == JStr(status)
    ensures r.Success? ==>
      forall o :: Prop(o, "status") == JStr(status) ==> multiset(r.value)[o] == multiset(orders)[o]
  {
    if orders == [] then Success([])
    else if IsNullish(orders[0]) then Failure(TypeError)
    else
      var rest :- FilterBy(orders[1..], status);
      assert orders == [orders[0]] + orders[1..];
      if Prop(orders[0], "status") == JStr(status) then Success([orders[0]] + rest) else Success(rest)
  }

  /** Filtering keeps the fetched order of the kept orders: the filtered list is a subsequence of the input. */
  lemma {:induction false} FilterByKeepsOrder(orders: seq<Json>, status: string)
    requires FilterBy(orders, status).Success?
    ensures IsSubsequence(FilterBy(orders, status).value, orders)
  {
    if orders != [] {
      FilterByKeepsOrder(orders[1..], status);
    }
  }

  /** `sub` is `s` with some elements left out. */
  predicate IsSubsequence(sub: seq<Json>, s: seq<Json>)
    decreases |s|
  {
    if sub == [] then true
    else if s == [] then false
    else if sub[0] == s[0] then IsSubsequence(sub[1..], s[1..])
    else IsSubsequence(sub, s[1..])
  }

  /** The fetched orders, and those of them that were kept. */
  datatype Filtered = Filtered(fetched: Requests.Orders, orders: seq<Json>)

  /** What `fetchOrders(symbol, since, limit, params)` gets back for a loaded market with id `id`. */
  function OrdersOf(env: Env, id: Json, since: Json, limit: Json, params: Params): Requests.Orders {
    var call := Requests.OrdersCall(id, since, limit, params);
    Requests.Orders(call, Prop(Prop(Requests.Response(env, call), "data"), "list"))
  }

  /**
   * The orders of a loaded market can be fetched and filtered: the response
   * and its `data` are present, `data.list` is a list, and none of its orders
   * is nullish.
   */
  predicate FilterSucceeds(env: Env, reg: Registry, symbol: Option<string>, since: Json, limit: Json, params: Params,
                           status: string)
  {
    && symbol.Some? && MarketId(reg, symbol).Success?
    && var fetched := OrdersOf(env, MarketId(reg, symbol).value, since, limit, params);
    && var response := Requests.Response(env, fetched.call);
    && !IsNullish(response) && !IsNullish(Prop(response, "data"))
    && ListOf(fetched.list).Success?
    && FilterBy(ListOf(fetched.list).value, status).Success?
  }

  /** `fetchOrders` followed by `filterBy(orders, 'status', status)`. */
  method FetchFiltered(env: Env, reg: Registry, symbol: Option<string>, since: Json, limit: Json, params: Params,
                       status: string)
    returns (r: Result<Filtered>)
    ensures symbol.None? ==> r == Failure(ArgumentsRequired("symbol"))
    ensures symbol.Some? && r.Failure? ==> r.error == TypeError
    ensures r.Success? <==> FilterSucceeds(env, reg, symbol, since, limit, params, status)
    ensures r.Success? ==>
      && symbol.Some? && MarketId(reg, symbol).Success?
      && r.value.fetched == OrdersOf(env, MarketId(reg, symbol).value, since, limit, params)
      && ListOf(r.value.fetched.list).Success?
      && FilterBy(ListOf(r.value.fetched.list).value, status) == Success(r.value.orders)
  {
    var fetched := Requests.FetchOrders(env, reg, symbol, since, limit, params);
    if fetched.Failure? {
      return Failure(fetched.error);
    }
    assert fetched.value == OrdersOf(env, MarketId(reg, symbol).value, since, limit, params);
    var orders := ListOf(fetched.value.list);
    if orders.Failure? {
      return Failure(TypeError);
    }
    var kept := FilterBy(orders.value, status);
    if kept.Failure? {
      return Failure(TypeError);
    }
    return Success(Filtered(fetched.value, kept.value));
  }

  /** `fetchClosedOrders(symbol, since, limit, params)`: the fetched orders whose status is `closed`. */
  method FetchClosedOrders(env: Env, reg: Registry, symbol: Option<string>, since: Json, limit: Json, params: Params)
    returns (r: Result<Filtered>)
    ensures symbol.None? ==> r == Failure(ArgumentsRequired("symbol"))
    ensures symbol.Some? && r.Failure? ==> r.error == TypeError
    ensures r.Success? <==> FilterSucceeds(env, reg, symbol, since, limit, params, "closed")
    ensures r.Success? ==>
      && symbol.Some? && MarketId(reg, symbol).Success?
      && r.value.fetched == OrdersOf(env, MarketId(reg, symbol).value, since, limit, params)
      && ListOf(r.value.fetched.list).Success?
      && FilterBy(ListOf(r.value.fetched.list).value, "closed") == Success(r.value.orders)
  {
    r := FetchFiltered(env, reg, symbol, since, limit, params, "closed");
  }

  /**
   * `fetchOpenOrders(symbol, since, limit, params)`: the symbol, `since` and
   * `limit` are each required, in that order; then the fetched orders whose
   * status is `open`.
   */
  method FetchOpenOrders(env: Env, reg: Registry, symbol: Option<string>, since: Json, limit: Json, params: Params)
    returns (r: Result<Filtered>)
    ensures symbol.None? ==> r == Failure(ArgumentsRequired("symbol"))
    ensures symbol.Some? && since == JUndef ==> r == Failure(ArgumentsRequired("since"))
    ensures symbol.Some? && since != JUndef && limit == JUndef ==> r == Failure(ArgumentsRequired("limit"))
    ensures symbol.Some? && since != JUndef && limit != JUndef && r.Failure? ==> r.error == TypeError
    ensures r.Success? <==> since != JUndef && limit != JUndef && FilterSucceeds(env, reg, symbol, since, limit, params, "open")
    ensures r.Success? ==>
      && symbol.Some? && since != JUndef && limit != JUndef && MarketId(reg, symbol).Success?
      && r.value.fetched == OrdersOf(env, MarketId(reg, symbol).value, since, limit, params)
      && ListOf(r.value.fetched.list).Success?
      && FilterBy(ListOf(r.value.fetched.list).value, "open") == Success(r.value.orders)
  {
    if symbol.None? {
      return Failure(ArgumentsRequired("symbol"));
    }
    if since == JUndef {
      return Failure(ArgumentsRequired("since"));
    }
    if limit == JUndef {
      return Failure(ArgumentsRequired("limit"));
    }
    r := FetchFiltered(env, reg, symbol, since, limit, params, "open");
  }

  /** The cancel request for the `j`-th fetched order: its id, and the `j`-th nonce as timestamp. */
  function CancelRequest(env: Env, order: Json, j: nat): (p: Params)
    ensures Dict.Keys(p) == ["orderId", "timestamp"]
    ensures Dict.Get(p, "orderId") == Prop(order, "id")
    ensures Dict.Get(p, "timestamp") == JNum(env.nonceAt(j) as real)
  {
    var p := [("orderId", Prop(order, "id")), ("timestamp", JNum(env.nonceAt(j) as real))];
    assert p[1..] == [("timestamp", JNum(env.nonceAt(j) as real))];
    p
  }

  /** The fetched orders, the cancel requests sent and their responses. */
  datatype CancelAll = CancelAll(fetched: Requests.Orders, requests: seq<Params>, responses: seq<Json>)

  /**
   * `cancelAllOrders(symbol, params)`, with the fetched orders awaited: one
   * cancel request per fetched order, in order, and the responses in that
   * order. The orders are fetched with the symbol alone, and `params` is not
   * sent.
   */
  method CancelAllOrders(env: Env, reg: Registry, symbol: Option<string>, params: Params) returns (r: Result<CancelAll>)
    ensures symbol.None? ==> r == Failure(ArgumentsRequired("symbol"))
    ensures symbol.Some? && r.Failure? ==> r.error == TypeError
    ensures r.Success? ==>
      && symbol.Some? && MarketId(reg, symbol).Success?
      && r.value.fetched == OrdersOf(env, MarketId(reg, symbol).value, JUndef, JUndef, [])
      && ListOf(r.value.fetched.list).Success?
      && var orders := ListOf(r.value.fetched.list).value;
      && |r.value.requests| == |orders| && |r.value.responses| == |orders|
      && forall j :: 0 <= j < |orders| ==>
           && r.value.requests[j] == CancelRequest(env, orders[j], j)
           && r.value.responses[j] == Requests.Response(env, Call("signedPostOrdersCancel", r.value.requests[j], []))
    ensures symbol.Some? && MarketId(reg, symbol).Success? ==>
      var fetched := OrdersOf(env, MarketId(reg, symbol).value, JUndef, JUndef, []);
      var response := Requests.Response(env, fetched.call);
      var orders := ListOf(fetched.list);
      (r.Success? <==> !IsNullish(response) && !IsNullish(Prop(response, "data")) && orders.Success? &&
                       forall j :: 0 <= j < |orders.value| ==> !IsNullish(orders.value[j]))
  {
    if symbol.None? {
      return Failure(ArgumentsRequired("symbol"));
    }
    var fetched := Requests.FetchOrders(env, reg, symbol, JUndef, JUndef, []);
    if fetched.Failure? {
      return Failure(fetched.error);
    }
    var listed := ListOf(fetched.value.list);
    if listed.Failure? {
      return Failure(TypeError);
    }
    var orders := listed.value;
    var requests: seq<Params> := [];
    var responses: seq<Json> := [];
    var index := 0;
    while index < |orders|
      invariant 0 <= index <= |orders|
      invariant Cancelled(env, orders, index, requests, responses)
    {
      var order := orders[index];
      var id := Member(order, "id");
      if id.Failure? {
        return Failure(TypeError);
      }
      var request := [("orderId", id.value), ("timestamp", JNum(env.nonceAt(index) as real))];
      var data := Requests.Response(env, Call("signedPostOrdersCancel", request, []));
      CancelledStep(env, orders, index, requests, responses);
      requests := requests + [request];
      responses := responses + [data];
      index := index + 1;
    }
    return Success(CancelAll(fetched.value, requests, responses));
  }

  /** The loop has sent one cancel request for each of the first `n` orders, none of them nullish. */
  predicate Cancelled(env: Env, orders: seq<Json>, n: nat, requests: seq<Params>, responses: seq<Json>)
    requires n <= |orders|
  {
    && |requests| == n && |responses| == n
    && (forall j :: 0 <= j < n ==> !IsNullish(orders[j]))
    && (forall j :: 0 <= j < n ==>
          && requests[j] == CancelRequest(env, orders[j], j)
          && responses[j] == Requests.Response(env, Call("signedPostOrdersCancel", requests[j], [])))
  }

  /** Cancelling one more order that is not nullish. */
  lemma CancelledStep(env: Env, orders: seq<Json>, n: nat, requests: seq<Params>, responses: seq<Json>)
    requires n < |orders| && Cancelled(env, orders, n, requests, responses) && !IsNullish(orders[n])
    ensures var request := CancelRequest(env, orders[n], n);
            Cancelled(env, orders, n + 1, requests + [request],
                      responses + [Requests.Response(env, Call("signedPostOrdersCancel", request, []))])
  {
  }

  /** Each cancel request is sent as built: extending it with nothing changes nothing. */
  lemma CancelSentAsBuilt(env: Env, order: Json, j: nat)
    ensures Call("signedPostOrdersCancel", CancelRequest(env, order, j), []).Query() == CancelRequest(env, order, j)
  {
  }

  /**
   * `cancelAllOrders` as written: `this.fetchOrders(symbol)` is not awaited, so
   * `orders` is a pending promise, `orders.length` is undefined, and no order
   * is ever cancelled.
   */
  function CancelAllOrdersUnawaited(symbol: Option<string>): (r: Result<seq<Json>>)
    ensures symbol.None? ==> r == Failure(ArgumentsRequired("symbol"))
    ensures symbol.Some? ==> r.Success? && |r.value| == 0
  {
    if symbol.None? then Failure(ArgumentsRequired("symbol")) else Success([])
  }

  /**
   * As written, a loaded market whose fetched order list is non-empty gets no
   * cancel request at all. `CancelAllOrders`, on the same fetch, returns
   * requests and responses that are `Cancelled` over the whole list: one per
   * order, in order.
   */
  lemma UnawaitedCancelsNothing(env: Env, reg: Registry, symbol: string, requests: seq<Params>, responses: seq<Json>)
    requires MarketId(reg, Some(symbol)).Success?
    requires var fetched := OrdersOf(env, MarketId(reg, Some(symbol)).value, JUndef, JUndef, []);
             var response := Requests.Response(env, fetched.call);
             && !IsNullish(response) && !IsNullish(Prop(response, "data"))
             && ListOf(fetched.list).Success? && ListOf(fetched.list).value != []
             && Cancelled(env, ListOf(fetched.list).value, |ListOf(fetched.list).value|, requests, responses)
    ensures |CancelAllOrdersUnawaited(Some(symbol)).value| == 0 < |requests|
  {
  }
}
