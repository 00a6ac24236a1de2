/**
 * The operations that map a list of raw records one by one (tickers, trades,
 * aggregate trades), and the trading fee operations, which map the static fee
 * schedule onto one market or onto every market.
 */
module Lists {
  import opened Wrappers
  import opened Base
  import opened Describe
  import opened Normalizer
  import Markets
  import Requests
  import Strings

  /**
   * `parseTickers(rawTickers, symbols)` before the unseen `filterByArray`:
   * one ticker per raw record, in order, each parsed without a market.
   */
  method ParseTickers(env: Env, rawTickers: Json) returns (r: Result<seq<Ticker>>)
    ensures ListOf(rawTickers).Failure? ==> r == Failure(TypeError)
    ensures ListOf(rawTickers).Success? ==>
      var raw := ListOf(rawTickers).value;
      && r.Success? && |r.value| == |raw|
      && forall j :: 0 <= j < |raw| ==> r.value[j] == ParseTicker(env, raw[j], None)
  {
    var listed := ListOf(rawTickers);
    if listed.Failure? {
      return Failure(TypeError);
    }
    var raw := listed.value;
    var tickers: seq<Ticker> := [];
    var i := 0;
    while i < |raw|
      invariant 0 <= i <= |raw| && TickersOf(env, raw, i, tickers)
    {
      TickersStep(env, raw, i, tickers);
      tickers := tickers + [ParseTicker(env, raw[i], None)];
      i := i + 1;
    }
    return Success(tickers);
  }

  /** The tickers of the first `n` raw records, in order. */
  predicate TickersOf(env: Env, raw: seq<Json>, n: nat, tickers: seq<Ticker>)
    requires n <= |raw|
  {
    |tickers| == n && forall j :: 0 <= j < n ==> tickers[j] == ParseTicker(env, raw[j], None)
  }

  lemma TickersStep(env: Env, raw: seq<Json>, n: nat, tickers: seq<Ticker>)
    requires n < |raw| && TickersOf(env, raw, n, tickers)
    ensures TickersOf(env, raw, n + 1, tickers + [ParseTicker(env, raw[n], None)])
  {
  }

  /** A list operation's call and the records it built from the response. */
  datatype Listed<T> = Listed(call: Call, items: seq<T>)

  /** The trades request: the market id, then the limit when defined. `since` is not sent. */
  function TradesCall(endpoint: string, id: Json, limit: Json, params: Params): Call {
    Call(endpoint, [("symbol", id)] + Requests.Optional("limit", limit), params)
  }

  /**
   * `fetchTrades(symbol, since, limit, params)`: one trade per raw record, in
   * order, converted under the requested symbol; a null record throws.
   */
  method FetchTrades(env: Env, reg: Registry, symbol: Option<string>, limit: Json, params: Params)
    returns (r: Result<Listed<Trade>>)
    ensures MarketId(reg, symbol).Failure? ==> r == Failure(TypeError)
    ensures MarketId(reg, symbol).Success? ==>
      var call := TradesCall("apiGetV3Trades", MarketId(reg, symbol).value, limit, params);
      var raw := ListOf(Requests.Response(env, call));
      && (r.Success? <==> raw.Success? && forall j :: 0 <= j < |raw.value| ==> !IsNullish(raw.value[j]))
      && (r.Failure? ==> r.error == TypeError)
      && (r.Success? ==>
            && r.value.call == call && |r.value.items| == |raw.value|
            && forall j :: 0 <= j < |raw.value| ==> r.value.items[j] == ConvertTrade(env, symbol, raw.value[j]).value)
  {
    var id := MarketId(reg, symbol);
    if id.Failure? {
      return Failure(TypeError);
    }
    var request := [("symbol", id.value)];
    if limit != JUndef {
      request := request + [("limit", limit)];
    }
    assert request == [("symbol", id.value)] + Requests.Optional("limit", limit);
    var call := Call("apiGetV3Trades", request, params);
    var listed := ListOf(Requests.Response(env, call));
    if listed.Failure? {
      return Failure(TypeError);
    }
    var trades := ConvertTrades(env, symbol, listed.value);
    if trades.Failure? {
      return Failure(TypeError);
    }
    return Success(Listed(call, trades.value));
  }

  /** The loop of `fetchTrades`: each raw record converted, in order; the first null record throws. */
  method ConvertTrades(env: Env, symbol: Option<string>, raw: seq<Json>) returns (r: Result<seq<Trade>>)
    ensures r.Success? <==> forall j :: 0 <= j < |raw| ==> !IsNullish(raw[j])
    ensures r.Failure? ==> r.error == TypeError
    ensures r.Success? ==>
      |r.value| == |raw| && forall j :: 0 <= j < |raw| ==> r.value[j] == ConvertTrade(env, symbol, raw[j]).value
  {
    var result: seq<Trade> := [];
    var i := 0;
    while i < |raw|
      invariant 0 <= i <= |raw| && TradesOf(env, symbol, raw, i, result)
    {
      var trade := ConvertTrade(env, symbol, raw[i]);
      if trade.Failure? {
        return Failure(TypeError);
      }
      TradesStep(env, symbol, raw, i, result);
      result := result + [trade.value];
      i := i + 1;
    }
    return Success(result);
  }

  /** The trades of the first `n` raw records, in order, none of them null. */
  predicate TradesOf(env: Env, symbol: Option<string>, raw: seq<Json>, n: nat, trades: seq<Trade>)
    requires n <= |raw|
  {
    && |trades| == n
    && (forall j :: 0 <= j < n ==> !IsNullish(raw[j]))
    && (forall j :: 0 <= j < n ==> trades[j] == ConvertTrade(env, symbol, raw[j]).value)
  }

  lemma TradesStep(env: Env, symbol: Option<string>, raw: seq<Json>, n: nat, trades: seq<Trade>)
    requires n < |raw| && TradesOf(env, symbol, raw, n, trades) && !IsNullish(raw[n])
    ensures TradesOf(env, symbol, raw, n + 1, trades + [ConvertTrade(env, symbol, raw[n]).value])
  {
  }

  /** `fetchAggTrades(symbol, limit, params)`: one aggregate trade per raw record, in order. */
  method FetchAggTrades(env: Env, reg: Registry, symbol: Option<string>, limit: Json, params: Params)
    returns (r: Result<Listed<AggTrade>>)
    ensures MarketId(reg, symbol).Failure? ==> r == Failure(TypeError)
    ensures MarketId(reg, symbol).Success? ==>
      var call := TradesCall("apiGetV3AggTrades", MarketId(reg, symbol).value, limit, params);
      var raw := ListOf(Requests.Response(env, call));
      && (r.Success? <==> raw.Success?)
      && (r.Failure? ==> r.error == TypeError)
      && (r.Success? ==>
            && r.value.call == call && |r.value.items| == |raw.value|
            && forall j :: 0 <= j < |raw.value| ==> r.value.items[j] == ParseL2(env, raw.value[j]))
  {
    var id := MarketId(reg, symbol);
    if id.Failure? {
      return Failure(TypeError);
    }
    var request := [("symbol", id.value)];
    if limit != JUndef {
      request := request + [("limit", limit)];
    }
    assert request == [("symbol", id.value)] + Requests.Optional("limit", limit);
    var call := Call("apiGetV3AggTrades", request, params);
    var listed := ListOf(Requests.Response(env, call));
    if listed.Failure? {
      return Failure(TypeError);
    }
    var result := ParseAggTrades(env, listed.value);
    return Success(Listed(call, result));
  }

  /** The loop of `fetchAggTrades`: each raw record parsed, in order. */
  method ParseAggTrades(env: Env, raw: seq<Json>) returns (result: seq<AggTrade>)
    ensures |result| == |raw| && forall j :: 0 <= j < |raw| ==> result[j] == ParseL2(env, raw[j])
  {
    result := [];
    var i := 0;
    while i < |raw|
      invariant 0 <= i <= |raw| && AggTradesOf(env, raw, i, result)
    {
      AggTradesStep(env, raw, i, result);
      result := result + [ParseL2(env, raw[i])];
      i := i + 1;
    }
  }

  /** The aggregate trades of the first `n` raw records, in order. */
  predicate AggTradesOf(env: Env, raw: seq<Json>, n: nat, trades: seq<AggTrade>)
    requires n <= |raw|
  {
    |trades| == n && forall j :: 0 <= j < n ==> trades[j] == ParseL2(env, raw[j])
  }

  lemma AggTradesStep(env: Env, raw: seq<Json>, n: nat, trades: seq<AggTrade>)
    requires n < |raw| && AggTradesOf(env, raw, n, trades)
    ensures AggTradesOf(env, raw, n + 1, trades + [ParseL2(env, raw[n])])
  {
  }

  /**
   * `fetchTradingFee(symbol, params)`: the static rates under `symbol2`, the
   * market's symbol with its first underscore removed, which
   * `convertTradingFees` looks up again in the registry.
   */
  function FetchTradingFee(env: Env, reg: Registry, symbol: Option<string>): (r: Result<TradingFee>)
    ensures symbol.None? ==> r == Failure(ArgumentsRequired("symbol"))
    ensures symbol.Some? && symbol.value !in reg.markets ==> r == Failure(BadSymbol)
    ensures symbol.Some? && symbol.value in reg.markets && SafeString(env, reg.markets[symbol.value], "symbol").None? ==>
              r == Failure(TypeError)
    ensures symbol.Some? && symbol.value in reg.markets && SafeString(env, reg.markets[symbol.value], "symbol").Some? ==>
      var id := Strings.ReplaceFirst(SafeString(env, reg.markets[symbol.value], "symbol").value, '_', "");
      && (id !in reg.markets ==> r == Failure(BadSymbol))
      && (r.Success? <==> id in reg.markets && SafeString(env, reg.markets[id], "symbol").Some?)
      && (r.Success? ==>
            && r.value.symbol == id && r.value.maker == MAKER_FEE && r.value.taker == TAKER_FEE
            && r.value.info.symbol == Strings.ReplaceFirst(SafeString(env, reg.markets[id], "symbol").value, '/', ""))
  {
    if symbol.None? then Failure(ArgumentsRequired("symbol"))
    else
      var market :- MarketOf(reg, symbol.value);
      var conversion :- ConvertSymbol(env, market);
      ConvertTradingFees(env, reg, conversion.symbol2, MAKER_FEE, TAKER_FEE)
  }

  /**
   * In a loaded registry, the fee of a market whose unified symbol has no
   * underscore is found under that same symbol: `symbol2` is the symbol itself,
   * and the fee's `info.symbol` is the symbol without its first slash.
   */
  lemma TradingFeeOfLoadedMarket(env: Env, reg: Registry, k: string)
    requires Loaded(env, reg) && k in reg.markets && '_' !in k
    ensures FetchTradingFee(env, reg, Some(k)).Success?
    ensures FetchTradingFee(env, reg, Some(k)).value.symbol == k
    ensures FetchTradingFee(env, reg, Some(k)).value.info.symbol == Strings.ReplaceFirst(k, '/', "")
    ensures FetchTradingFee(env, reg, Some(k)).value.maker == MAKER_FEE
  {
  }

  /** The symbols of the fetched markets, in order. */
  function Symbols(ms: seq<Markets.Market>): (ss: seq<string>)
    ensures |ss| == |ms| && forall j :: 0 <= j < |ms| ==> ss[j] == ms[j].symbol
  {
    seq(|ms|, j requires 0 <= j < |ms| => ms[j].symbol)
  }

  /** `this.convertTradingFees(symbol, maker, taker)` with the static rates, as `fetchTradingFees` calls it. */
  function FeeConverter(env: Env, reg: Registry): string -> Result<TradingFee> {
    symbol => ConvertTradingFees(env, reg, symbol, MAKER_FEE, TAKER_FEE)
  }

  /** The conversion of each symbol. */
  function Conversions(convert: string -> Result<TradingFee>, ss: seq<string>): (cs: seq<Result<TradingFee>>)
    ensures |cs| == |ss|
  {
    seq(|ss|, j requires 0 <= j < |ss| => convert(ss[j]))
  }

  lemma ConversionAt(env: Env, reg: Registry, ss: seq<string>, j: nat)
    requires j < |ss|
    ensures Conversions(FeeConverter(env, reg), ss)[j] == ConvertTradingFees(env, reg, ss[j], MAKER_FEE, TAKER_FEE)
  {
  }

  /** The fee map of `fetchTradingFees` over the market symbols `ss`, assigned in order. */
  function FeesFor(env: Env, reg: Registry, ss: seq<string>): Result<map<string, TradingFee>> {
    FeesUpTo(ss, Conversions(FeeConverter(env, reg), ss), |ss|)
  }

  /**
   * The fee map once the loop has visited the first `n` symbols, given the
   * conversion of each; the first failing conversion throws.
   */
  function FeesUpTo(ss: seq<string>, cs: seq<Result<TradingFee>>, n: nat): Result<map<string, TradingFee>>
    requires n <= |ss| == |cs|
  {
    if n == 0 then Success(map[])
    else
      var init :- FeesUpTo(ss, cs, n - 1);
      var fee :- cs[n - 1];
      Success(init[ss[n - 1] := fee])
  }

  /**
   * `fetchTradingFees(params)`, with the markets awaited: the static rates
   * under the symbol of every fetched market. The markets are fetched with no
   * parameters.
   */
  method FetchTradingFees(env: Env, reg: Registry) returns (r: Result<map<string, TradingFee>>)
    ensures Markets.RawMarkets(env, []).Failure? ==> r == Failure(TypeError)
    ensures Markets.RawMarkets(env, []).Success? ==>
      var ms := Markets.Entries(env, Markets.RawMarkets(env, []).value);
      && (ms.Failure? ==> r == Failure(TypeError))
      && (ms.Success? ==> r == FeesFor(env, reg, Symbols(ms.value)))
  {
    var markets := Markets.FetchMarkets(env, []);
    if markets.Failure? {
      return Failure(TypeError);
    }
    r := FeesOver(FeeConverter(env, reg), Symbols(markets.value));
  }

  /**
   * The loop of `fetchTradingFees` over the market symbols `ss`, where
   * `convert` is the fee conversion of one symbol.
   */
  method FeesOver(convert: string -> Result<TradingFee>, ss: seq<string>) returns (r: Result<map<string, TradingFee>>)
    ensures r == FeesUpTo(ss, Conversions(convert, ss), |ss|)
  {
    var response: map<string, TradingFee> := map[];
    ghost var conversions := Conversions(convert, ss);
    for index := 0 to |ss|
      invariant FeesUpTo(ss, conversions, index) == Success(response)
    {
      var symbol := ss[index];
      var fee := convert(symbol);
      FeesStep(ss, conversions, index, response);
      match fee
      case Failure(e) => return Failure(e);
      case Success(f) => response := response[symbol := f];
    }
    return Success(response);
  }

  /** One more symbol: its fee is assigned, or its failure is the loop's. */
  lemma FeesStep(ss: seq<string>, cs: seq<Result<TradingFee>>, n: nat, response: map<string, TradingFee>)
    requires n < |ss| == |cs| && FeesUpTo(ss, cs, n) == Success(response)
    ensures cs[n].Success? ==> FeesUpTo(ss, cs, n + 1) == Success(response[ss[n] := cs[n].value])
    ensures cs[n].Failure? ==> FeesUpTo(ss, cs, |ss|) == Failure(cs[n].error)
  {
    if cs[n].Failure? {
      FeesFailFromPrefix(ss, cs, n + 1, |ss|);
    }
  }

  /** A failed conversion makes the loop fail with its error, whatever follows. */
  lemma {:induction false} FeesFailFromPrefix(ss: seq<string>, cs: seq<Result<TradingFee>>, k: nat, n: nat)
    requires k <= n <= |ss| == |cs| && FeesUpTo(ss, cs, k).Failure?
    ensures FeesUpTo(ss, cs, n) == FeesUpTo(ss, cs, k)
    decreases n
  {
    if k < n {
      FeesFailFromPrefix(ss, cs, k, n - 1);
    }
  }

  /** The symbols among the first `n`. */
  function SymbolsUpTo(ss: seq<string>, n: nat): set<string>
    requires n <= |ss|
  {
    if n == 0 then {} else SymbolsUpTo(ss, n - 1) + {ss[n - 1]}
  }

  lemma {:induction false} SymbolsUpToAll(ss: seq<string>, n: nat)
    requires n <= |ss|
    ensures forall k :: k in SymbolsUpTo(ss, n) <==> exists j :: 0 <= j < n && ss[j] == k
  {
    if n > 0 {
      SymbolsUpToAll(ss, n - 1);
    }
  }

  /**
   * The fee map has exactly the given symbols as keys, and under each the
   * static rates; it exists exactly when every symbol is a registered market
   * with a symbol.
   */
  lemma FeesForEveryMarket(env: Env, reg: Registry, ss: seq<string>)
    ensures FeesFor(env, reg, ss).Success? <==>
              forall j :: 0 <= j < |ss| ==> ConvertTradingFees(env, reg, ss[j], MAKER_FEE, TAKER_FEE).Success?
    ensures FeesFor(env, reg, ss).Success? ==>
      var fees := FeesFor(env, reg, ss).value;
      && (forall k :: k in fees <==> k in ss)
      && forall k :: k in fees ==> fees[k] == ConvertTradingFees(env, reg, k, MAKER_FEE, TAKER_FEE).value
  {
    var cs := Conversions(FeeConverter(env, reg), ss);
    forall j | 0 <= j < |ss|
      ensures cs[j] == ConvertTradingFees(env, reg, ss[j], MAKER_FEE, TAKER_FEE)
    {
      ConversionAt(env, reg, ss, j);
    }
    FeesOfConversions(ss, cs);
    var r := FeesUpTo(ss, cs, |ss|);
    assert r == FeesFor(env, reg, ss);
    if r.Success? {
      var fees := r.value;
      forall k | k in fees
        ensures fees[k] == ConvertTradingFees(env, reg, k, MAKER_FEE, TAKER_FEE).value
      {
        var j :| 0 <= j < |ss| && ss[j] == k && cs[j] == Success(fees[k]);
      }
    }
  }

  /** The loop over any conversions: it succeeds when all of them do, with the symbols as keys. */
  lemma FeesOfConversions(ss: seq<string>, cs: seq<Result<TradingFee>>)
    requires |ss| == |cs|
    ensures FeesUpTo(ss, cs, |ss|).Success? <==> forall j :: 0 <= j < |cs| ==> cs[j].Success?
    ensures FeesUpTo(ss, cs, |ss|).Success? ==>
      var fees := FeesUpTo(ss, cs, |ss|).value;
      && (forall k :: k in fees <==> k in ss)
      && forall k :: k in fees ==> exists j :: 0 <= j < |ss| && ss[j] == k && cs[j] == Success(fees[k])
  {
    if forall j :: 0 <= j < |cs| ==> cs[j].Success? {
      FeesAllConvert(ss, cs, |ss|);
      FeesMap(ss, cs, |ss|);
      SymbolsUpToAll(ss, |ss|);
      forall k
        ensures k in SymbolsUpTo(ss, |ss|) <==> k in ss
      {
        if k in ss {
          var j :| 0 <= j < |ss| && ss[j] == k;
        }
      }
    } else {
      var j :| 0 <= j < |cs| && cs[j].Failure?;
      FeesFailFromPrefix(ss, cs, j + 1, |ss|);
    }
  }

  lemma {:induction false} FeesAllConvert(ss: seq<string>, cs: seq<Result<TradingFee>>, n: nat)
    requires n <= |ss| == |cs|
    requires forall j :: 0 <= j < n ==> cs[j].Success?
    ensures FeesUpTo(ss, cs, n).Success?
  {
    if n > 0 {
      FeesAllConvert(ss, cs, n - 1);
    }
  }

  /** The keys are the symbols visited, and under each the conversion of some occurrence of it. */
  lemma {:induction false} FeesMap(ss: seq<string>, cs: seq<Result<TradingFee>>, n: nat)
    requires n <= |ss| == |cs| && FeesUpTo(ss, cs, n).Success?
    ensures var fees := FeesUpTo(ss, cs, n).value;
      && fees.Keys == SymbolsUpTo(ss, n)
      && forall k :: k in fees ==> exists j :: 0 <= j < n && ss[j] == k && cs[j] == Success(fees[k])
  {
    if n > 0 {
      FeesMap(ss, cs, n - 1);
    }
  }

  /** Under every key of the fee map: that market's symbol, and the exchange's 0.22% for maker and taker. */
  lemma FeeRates(env: Env, reg: Registry, ss: seq<string>, k: string)
    requires FeesFor(env, reg, ss).Success? && k in FeesFor(env, reg, ss).value
    ensures var fee := FeesFor(env, reg, ss).value[k];
            fee.symbol == k && fee.maker == fee.info.maker == 0.0022 && fee.taker == fee.info.taker == 0.0022
  {
    FeesForEveryMarket(env, reg, ss);
  }

  /**
   * `fetchTradingFees` as written: `this.fetchMarkets()` is not awaited, so
   * `markets` is a pending promise, `markets.length` is undefined, the loop
   * never runs, and the result is always empty.
   */
  function FetchTradingFeesUnawaited(env: Env, reg: Registry): (r: map<string, TradingFee>)
    ensures forall k :: k !in r
  {
    map[]
  }

  /** A registered market with a symbol has a fee once the markets are awaited, and none as written. */
  lemma UnawaitedFeesMissMarkets(env: Env, reg: Registry, symbol: string)
    requires symbol in reg.markets && SafeString(env, reg.markets[symbol], "symbol").Some?
    ensures FeesFor(env, reg, [symbol]).Success? && symbol in FeesFor(env, reg, [symbol]).value
    ensures symbol !in FetchTradingFeesUnawaited(env, reg)
  {
    FeesForEveryMarket(env, reg, [symbol]);
  }
}
