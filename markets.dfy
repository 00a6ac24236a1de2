/** `fetchMarkets`: the exchange's symbol list to unified market entries. */
module Markets {
  import opened Wrappers
  import opened Base
  import opened Normalizer

  /** 10 to an integer power, exactly. */
  function Pow10(e: int): (r: real)
    ensures r > 0.0
    decreases if e < 0 then -e else e
  {
    if e == 0 then 1.0
    else if e > 0 then 10.0 * Pow10(e - 1)
    else Pow10(e + 1) / 10.0
  }

  /** A negative power of ten is the reciprocal of the positive one. */
  lemma {:induction false} Pow10Reciprocal(n: nat)
    ensures Pow10(-(n as int)) * Pow10(n) == 1.0
  {
    if n > 0 {
      Pow10Reciprocal(n - 1);
      assert Pow10(-(n as int)) == Pow10(-(n as int) + 1) / 10.0;
      assert Pow10(n) == 10.0 * Pow10(n - 1);
    }
  }

  datatype MarketPrecision = MarketPrecision(base: Option<int>, quote: Option<int>, amount: Option<int>,
                                             price: Option<int>)

  /**
   * The `info` object of a market entry: the fields taken from the raw market.
   * The others are constants: iceberg, OCO, spot trading and market orders by
   * quote quantity allowed, margin trading not allowed, the order types LIMIT,
   * LIMIT_MAKER, MARKET, STOP_LOSS_LIMIT and TAKE_PROFIT_LIMIT, permission SPOT.
   */
  datatype MarketInfo = MarketInfo(
    baseAsset: Option<string>,
    precision: Option<int>,    // baseAssetPrecision, baseComissionPrecision, quoteAssetPrecision, ...
    filters: Json,
    quoteAsset: Option<string>,
    status: Option<string>,
    symbol: string)

  const ORDER_TYPES: seq<string> := ["LIMIT", "LIMIT_MAKER", "MARKET", "STOP_LOSS_LIMIT", "TAKE_PROFIT_LIMIT"]

  datatype Market = Market(
    id: string,
    lowercaseId: string,
    symbol: string,
    base: Option<string>,
    quote: Option<string>,
    baseId: Option<string>,
    quoteId: Option<string>,
    info: MarketInfo,
    marketType: string,
    spot: bool,
    margin: Json,
    future: bool,
    delivery: bool,
    active: bool,
    precision: MarketPrecision,
    amountMin: Float,          // Math.pow(10, -precision.amount): NaN when the precision is undefined
    tierBased: bool)

  /** A raw market that marks a derivative: it has `maintMarginPercent`. */
  predicate IsDerivative(market: Json) {
    In("maintMarginPercent", market)
  }

  /** The type a derivative market sets for itself and every later market. */
  function DerivativeType(market: Json): string {
    if In("marginAsset", market) then "delivery" else "future"
  }

  /**
   * The value of `marketType` once the loop has visited the first `n` markets:
   * `spot` until a derivative is seen, then the type of the last derivative seen.
   */
  function TypeBefore(ms: seq<Json>, n: nat): (t: string)
    requires n <= |ms|
    ensures t in {"spot", "future", "delivery"}
  {
    if n == 0 then "spot"
    else if IsDerivative(ms[n - 1]) then DerivativeType(ms[n - 1])
    else TypeBefore(ms, n - 1)
  }

  /** The type of the market at index `j`, once the loop has visited it. */
  function TypeAt(ms: seq<Json>, j: nat): string
    requires j < |ms|
  {
    TypeBefore(ms, j + 1)
  }

  /**
   * The entry of one raw market, given the value `marketType` has once the
   * market is visited. It fails exactly when the market has no symbol.
   */
  function MarketEntry(env: Env, market: Json, marketType: string): (r: Result<Market>)
    ensures r.Success? <==> ConvertSymbol(env, market).Success?
  {
    var conversion :- ConvertSymbol(env, market);
    var id := conversion.symbol2;
    var baseId := SafeString(env, market, "baseAsset");
    var quoteId := SafeString(env, market, "quoteAsset");
    var base := env.currencyCode(baseId, None);
    var quote := env.currencyCode(quoteId, None);
    // `delivery` is still false here, so the symbol is always BASE/QUOTE
    var symbol := JsString(base) + "/" + JsString(quote);
    var precision := MarketPrecision(SafeInteger(env, market, "basePrecision"),
                                     SafeInteger(env, market, "quotePrecision"),
                                     SafeInteger(env, market, "basePrecision"),
                                     SafeInteger(env, market, "quotePrecision"));
    var delivery := IsDerivative(market) && In("marginAsset", market);
    var future := IsDerivative(market) && !delivery;
    var status := SafeString2(env, market, "status", "contractStatus");
    var rawMargin := SafeValue(market, "isMarginTradingAllowed");
    var margin := if rawMargin.JUndef? then JBool(future || delivery) else rawMargin;
    var info := MarketInfo(baseId, precision.base, Prop(market, "filters"), quoteId, status, id);
    var amountMin := if precision.amount.Some? then Finite(Pow10(-precision.amount.value)) else NaN;
    Success(Market(id, env.lower(id), symbol, base, quote, baseId, quoteId, info, marketType,
                   true, margin, future, delivery, status == Some("TRADING"), precision, amountMin, false))
  }

  /** The raw market list: `response.data.list` of the symbols endpoint. */
  function RawMarkets(env: Env, params: Params): Result<seq<Json>> {
    ListOf(SafeValue(SafeValue(env.invoke("openGetCommonSymbols", params), "data"), "list"))
  }

  /**
   * The entries of the markets `ms`, as `fetchMarkets` builds them: a market
   * without a symbol throws; otherwise entry `j` is that of raw market `j` under
   * the type the loop has once it has visited that market.
   */
  function Entries(env: Env, ms: seq<Json>): (r: Result<seq<Market>>)
    ensures r.Failure? ==> r.error == TypeError
    ensures r.Success? ==> |r.value| == |ms|
  {
    if forall j :: 0 <= j < |ms| ==> ConvertSymbol(env, ms[j]).Success? then
      Success(seq(|ms|, j requires 0 <= j < |ms| => MarketEntry(env, ms[j], TypeAt(ms, j)).value))
    else
      Failure(TypeError)
  }

  /**
   * `fetchMarkets(params)`: one entry per raw market, in order; the `type` of
   * each is `marketType` as the loop has left it after that market.
   */
  method FetchMarkets(env: Env, params: Params) returns (r: Result<seq<Market>>)
    ensures RawMarkets(env, params).Failure? ==> r == Failure(TypeError)
    ensures RawMarkets(env, params).Success? ==>
      r == Entries(env, RawMarkets(env, params).value)
  {
    var response := env.invoke("openGetCommonSymbols", params);
    var data := SafeValue(response, "data");
    var listed := ListOf(SafeValue(data, "list"));
    if listed.Failure? {
      return Failure(TypeError);
    }
    var markets := listed.value;
    var marketType := "spot";
    var result: seq<Market> := [];
    var i := 0;
    while i < |markets|
      invariant 0 <= i <= |markets|
      invariant marketType == TypeBefore(markets, i)
      invariant Built(env, markets, i, result)
    {
      var market := markets[i];
      if IsDerivative(market) {
        var delivery := In("marginAsset", market);
        marketType := if delivery then "delivery" else "future";
      }
      assert marketType == TypeAt(markets, i);
      var entry := MarketEntry(env, market, marketType);
      if entry.Failure? {
        EntriesFailAt(env, markets, i);
        return Failure(TypeError);
      }
      BuiltStep(env, markets, i, result);
      result := result + [entry.value];
      i := i + 1;
    }
    EntriesAre(env, markets, result);
    return Success(result);
  }

  /** A market without a symbol makes the whole list fail. */
  lemma EntriesFailAt(env: Env, ms: seq<Json>, i: nat)
    requires i < |ms| && ConvertSymbol(env, ms[i]).Failure?
    ensures Entries(env, ms) == Failure(TypeError)
  {
  }

  /** The markets are converted exactly when every raw market has a symbol. */
  lemma EntriesSucceed(env: Env, ms: seq<Json>)
    ensures Entries(env, ms).Success? <==> forall j :: 0 <= j < |ms| ==> SafeString(env, ms[j], "symbol").Some?
  {
  }

  /** Entry `j` is raw market `j` under the type the loop has once it visits that market. */
  lemma EntriesAt(env: Env, ms: seq<Json>, j: nat)
    requires Entries(env, ms).Success? && j < |ms|
    ensures MarketEntry(env, ms[j], TypeAt(ms, j)).Success?
    ensures Entries(env, ms).value[j] == MarketEntry(env, ms[j], TypeAt(ms, j)).value
  {
  }

  /** The loop has built the entries of the first `i` markets, each under its type. */
  predicate Built(env: Env, ms: seq<Json>, i: nat, result: seq<Market>)
    requires i <= |ms|
  {
    && |result| == i
    && (forall j :: 0 <= j < i ==> ConvertSymbol(env, ms[j]).Success?)
    && (forall j :: 0 <= j < i ==> result[j] == MarketEntry(env, ms[j], TypeAt(ms, j)).value)
  }

  /** One more market with a symbol: its entry is appended. */
  lemma BuiltStep(env: Env, ms: seq<Json>, i: nat, result: seq<Market>)
    requires i < |ms| && Built(env, ms, i, result)
    requires MarketEntry(env, ms[i], TypeAt(ms, i)).Success?
    ensures Built(env, ms, i + 1, result + [MarketEntry(env, ms[i], TypeAt(ms, i)).value])
  {
  }

  /** The entries of every market, built one by one, are the entries of the list. */
  lemma EntriesAre(env: Env, ms: seq<Json>, result: seq<Market>)
    requires Built(env, ms, |ms|, result)
    ensures Entries(env, ms) == Success(result)
  {
    var entries := seq(|ms|, j requires 0 <= j < |ms| => MarketEntry(env, ms[j], TypeAt(ms, j)).value);
    assert forall j :: 0 <= j < |ms| ==> entries[j] == result[j];
    assert entries == result;
  }

  /** What an entry says about its raw market. */
  lemma MarketEntryFields(env: Env, market: Json, marketType: string)
    requires ConvertSymbol(env, market).Success?
    ensures var m := MarketEntry(env, market, marketType).value;
            var c := ConvertSymbol(env, market).value;
            && m.id == c.symbol2
            && m.info.symbol == m.id
            && m.symbol == JsString(c.base) + "/" + JsString(c.quote)
            && m.marketType == marketType
            && (m.active <==> SafeString2(env, market, "status", "contractStatus") == Some("TRADING"))
            && m.spot
            && (m.future <==> IsDerivative(market) && !In("marginAsset", market))
            && (m.delivery <==> IsDerivative(market) && In("marginAsset", market))
            && !(m.future && m.delivery)
            && (m.precision.amount.Some? ==> m.amountMin == Finite(Pow10(-m.precision.amount.value)))
            && (m.precision.amount.None? ==> m.amountMin.NaN?)
  {
  }

  /** The type is `spot` exactly when no market visited so far is a derivative. */
  lemma {:induction false} TypeBeforeSpot(ms: seq<Json>, n: nat)
    requires n <= |ms|
    ensures TypeBefore(ms, n) == "spot" <==> forall i :: 0 <= i < n ==> !IsDerivative(ms[i])
  {
    if n > 0 {
      TypeBeforeSpot(ms, n - 1);
    }
  }

  /** Once a derivative has been seen, every later market keeps a derivative type. */
  lemma TypeIsSticky(ms: seq<Json>, i: nat, j: nat)
    requires i <= j < |ms|
    requires IsDerivative(ms[i])
    ensures TypeAt(ms, j) in {"future", "delivery"}
  {
    TypeBeforeSpot(ms, j + 1);
  }

  /** After a run of spot markets the type is the last derivative's. */
  lemma {:induction false} TypeAfterLastDerivative(ms: seq<Json>, i: nat, n: nat)
    requires i < n <= |ms| && IsDerivative(ms[i])
    requires forall k :: i < k < n ==> !IsDerivative(ms[k])
    ensures TypeBefore(ms, n) == DerivativeType(ms[i])
  {
    if i < n - 1 {
      TypeAfterLastDerivative(ms, i, n - 1);
    }
  }

  /** A spot market after a future one is listed as a future market, yet with `spot` set. */
  lemma SpotAfterFuture(env: Env, future: Json, spot: Json)
    requires IsDerivative(future) && !In("marginAsset", future)
    requires !IsDerivative(spot) && ConvertSymbol(env, spot).Success?
    ensures var m := MarketEntry(env, spot, TypeAt([future, spot], 1)).value;
            m.marketType == "future" && m.spot && !m.future
  {
    var ms := [future, spot];
    assert ms[0] == future && ms[1] == spot;
    assert TypeBefore(ms, 1) == "future";
  }
}
