/**
 * The record normalisers: raw market, trade, ticker, candle, aggregate-trade
 * and fee records to the canonical shapes.
 */
module Normalizer {
  import opened Wrappers
  import opened Base
  import opened Describe
  import opened Strings

  datatype MinMax = MinMax(min: Option<real>, max: Option<real>)

  const UNBOUNDED: MinMax := MinMax(None, None)

  datatype SymbolPrecision = SymbolPrecision(price: Option<int>, amount: Option<int>, cost: Option<int>)

  /**
   * What `convertSymbol` returns. `percetage` is the key's spelling in the
   * adapter.
   */
  datatype Conversion = Conversion(
    id: string,
    symbol: string,
    symbol2: string,
    symbol3: string,
    base: Option<string>,
    quote: Option<string>,
    active: bool,
    taker: real,
    maker: real,
    percetage: bool,
    tierBase: bool,
    precision: SymbolPrecision,
    amountLimits: MinMax,
    priceLimits: MinMax,
    costLimits: MinMax,
    info: Json)

  /**
   * `convertSymbol(market)`: the raw symbol with its first `_` turned into `/`
   * (`symbol`) or removed (`symbol2`), and with its first `/` removed
   * (`symbol3`). A market without a symbol makes `.replace` throw.
   */
  function ConvertSymbol(env: Env, market: Json): (r: Result<Conversion>)
    ensures r.Success? <==> SafeString(env, market, "symbol").Some?
    ensures r.Success? ==>
      var s := SafeString(env, market, "symbol").value;
      && r.value.id == s
      && r.value.symbol == ReplaceFirst(s, '_', "/")
      && r.value.symbol2 == ReplaceFirst(s, '_', "")
      && r.value.symbol3 == ReplaceFirst(s, '/', "")
      && r.value.taker == TAKER_FEE && r.value.maker == MAKER_FEE
      && r.value.info == market
  {
    match SafeString(env, market, "symbol")
    case None => Failure(TypeError)
    case Some(s) =>
      Success(Conversion(
        s, ReplaceFirst(s, '_', "/"), ReplaceFirst(s, '_', ""), ReplaceFirst(s, '/', ""),
        env.currencyCode(SafeString(env, market, "baseAsset"), None),
        env.currencyCode(SafeString(env, market, "quoteAsset"), None),
        true, TAKER_FEE, MAKER_FEE, true, false,
        SymbolPrecision(SafeInteger(env, market, "quotePrecision"),
                        SafeInteger(env, market, "basePrecision"),
                        SafeInteger(env, market, "basePrecision")),
        UNBOUNDED, UNBOUNDED, UNBOUNDED, market))
  }

  /**
   * For a raw symbol written `BASE_QUOTE` (no `/` of its own): the unified
   * symbol gives the raw one back, and removing its slash gives the exchange id.
   */
  lemma ConvertSymbolForms(env: Env, market: Json)
    requires SafeString(env, market, "symbol").Some?
    requires '/' !in SafeString(env, market, "symbol").value
    ensures var c := ConvertSymbol(env, market).value;
            && ReplaceFirst(c.symbol, '/', "_") == c.id
            && ReplaceFirst(c.symbol, '/', "") == c.symbol2
            && c.symbol3 == c.id
  {
    var s := SafeString(env, market, "symbol").value;
    ReplaceFirstInverse(s, '_', '/');
    ReplaceThenDelete(s, '_', '/');
  }

  /** The `info` object of a trade: the raw fields under the exchange's one-letter names. */
  datatype TradeInfo = TradeInfo(M: Json, T: Json, a: Json, f: Json, l: Json, m: Json, p: Json, q: Json)

  datatype Trade = Trade(
    info: TradeInfo,
    id: Option<string>,
    timestamp: Option<real>,
    datetime: Option<string>,
    fee: Option<real>,
    symbol: Option<string>,
    order: string,
    orderType: string,
    side: string,
    takerOrMaker: string,
    price: Option<real>,
    amount: Option<real>,
    cost: real)

  /**
   * `convertTrade(symbol, trade)`. An undefined `time` makes the timestamp NaN,
   * shown here as `None`. Reading the raw fields of a null trade throws.
   */
  function ConvertTrade(env: Env, symbol: Option<string>, trade: Json): (r: Result<Trade>)
    ensures r.Failure? <==> IsNullish(trade)
    ensures r.Success? ==>
      && (r.value.takerOrMaker == "maker" <==> Truthy(SafeValue(trade, "isBuyerMaker")))
      && r.value.takerOrMaker in {"maker", "taker"}
      && r.value.fee.None? && r.value.side == "buy" && r.value.orderType == "limit" && r.value.cost == 0.0
      && r.value.id == SafeString(env, trade, "id")
      && r.value.price == SafeFloat(env, trade, "price")
      && r.value.amount == SafeFloat(env, trade, "qty")
      && r.value.symbol == symbol
      && r.value.datetime == Datetime(env, r.value.timestamp)
      && (var time := Prop(trade, "time");
          time.JNum? && time.n == time.n.Floor as real ==> r.value.timestamp == Some(time.n))
  {
    if IsNullish(trade) then Failure(TypeError)
    else
      var timestamp := match SafeTimestamp(env, trade, "time")
                       case Some(ms) => Some(ms as real / 1000.0)
                       case None => None;
      var takerOrMaker := if Truthy(SafeValue(trade, "isBuyerMaker")) then "maker" else "taker";
      var info := TradeInfo(Prop(trade, "isBestMatch"), Prop(trade, "time"), Prop(trade, "id"), JUndef, JUndef,
                            Prop(trade, "isBuyerMaker"), Prop(trade, "price"), Prop(trade, "qty"));
      SecondsIntegral(env, trade, "time");
      Success(Trade(info, SafeString(env, trade, "id"), timestamp, Datetime(env, timestamp), None, symbol, "",
                    "limit", "buy", takerOrMaker, SafeFloat(env, trade, "price"), SafeFloat(env, trade, "qty"), 0.0))
  }

  datatype Ticker = Ticker(
    symbol: Option<string>,
    timestamp: Option<int>,
    datetime: Option<string>,
    high: Option<real>,
    low: Option<real>,
    bid: Option<real>,
    bidVolume: Option<real>,
    ask: Option<real>,
    askVolume: Option<real>,
    vwap: Option<real>,
    open: Option<real>,
    close: Option<real>,
    last: Option<real>,
    previousClose: Option<real>,
    change: Option<real>,
    percentage: Option<real>,
    average: Option<real>,
    baseVolume: Option<real>,
    quoteVolume: Option<real>,
    info: Json)

  /** `parseTicker(ticker, market)`, where `market` is the fallback market's symbol. */
  function ParseTicker(env: Env, ticker: Json, market: Option<string>): (r: Ticker)
    ensures r.close == r.last == SafeFloat(env, ticker, "lastPrice")
    ensures r.timestamp == SafeInteger(env, ticker, "closeTime")
    ensures r.datetime == Datetime(env, AsReal(r.timestamp))
    ensures r.symbol == env.safeSymbol(SafeString(env, ticker, "symbol"), market)
    ensures r.average.None? && r.info == ticker
  {
    var timestamp := SafeInteger(env, ticker, "closeTime");
    var last := SafeFloat(env, ticker, "lastPrice");
    Ticker(
      env.safeSymbol(SafeString(env, ticker, "symbol"), market),
      timestamp, Datetime(env, AsReal(timestamp)),
      SafeFloat(env, ticker, "highPrice"), SafeFloat(env, ticker, "lowPrice"),
      SafeFloat(env, ticker, "bidPrice"), SafeFloat(env, ticker, "bidQty"),
      SafeFloat(env, ticker, "askPrice"), SafeFloat(env, ticker, "askQty"),
      SafeFloat(env, ticker, "weightedAvgPrice"), SafeFloat(env, ticker, "openPrice"),
      last, last,
      SafeFloat(env, ticker, "prevClosePrice"), SafeFloat(env, ticker, "priceChange"),
      SafeFloat(env, ticker, "priceChangePercent"), None,
      SafeFloat(env, ticker, "volume"), SafeFloat(env, ticker, "quoteVolume"),
      ticker)
  }

  datatype Ohlcv = Ohlcv(
    timestamp: Option<int>, open: Option<real>, high: Option<real>, low: Option<real>,
    close: Option<real>, volume: Option<real>)

  /** `parseOHLCV(ohlcv)`: the first six entries of a kline array; the rest are dropped. */
  function ParseOhlcv(env: Env, ohlcv: Json): (r: Ohlcv)
    ensures r.timestamp == IntegerOf(env, Item(ohlcv, 0))
    ensures r.open == FloatOf(env, Item(ohlcv, 1)) && r.high == FloatOf(env, Item(ohlcv, 2))
    ensures r.low == FloatOf(env, Item(ohlcv, 3)) && r.close == FloatOf(env, Item(ohlcv, 4))
    ensures r.volume == FloatOf(env, Item(ohlcv, 5))
  {
    Ohlcv(IntegerOf(env, Item(ohlcv, 0)), FloatOf(env, Item(ohlcv, 1)), FloatOf(env, Item(ohlcv, 2)),
          FloatOf(env, Item(ohlcv, 3)), FloatOf(env, Item(ohlcv, 4)), FloatOf(env, Item(ohlcv, 5)))
  }

  /** Only the first six entries of a kline are read: the close time, trade count and the rest are dropped. */
  lemma OhlcvIgnoresTail(env: Env, items: seq<Json>, tail: seq<Json>)
    requires |items| == 6
    ensures ParseOhlcv(env, JArr(items + tail)) == ParseOhlcv(env, JArr(items))
  {
    assert forall i :: 0 <= i < 6 ==> (items + tail)[i] == items[i];
  }

  datatype AggTrade = AggTrade(
    tradeId: Option<int>,
    price: Option<real>,
    quantity: Option<real>,
    firstTradeId: Option<int>,
    lastTradeId: Option<int>,
    timestamp: Option<int>,
    datetime: Option<string>,
    maker: Json,
    bestPriceMatch: Json)

  /** `parseL2(entry)`: an aggregate trade under its one-letter keys; `T` is in seconds. */
  function ParseL2(env: Env, entry: Json): (r: AggTrade)
    ensures r.timestamp == SafeTimestamp(env, entry, "T")
    ensures r.datetime == Datetime(env, AsReal(r.timestamp))
    ensures var t := Prop(entry, "T");
            t.JNum? && t.n == t.n.Floor as real ==> r.timestamp == Some(t.n.Floor * 1000)
    ensures r.tradeId == SafeInteger(env, entry, "a") && r.price == SafeFloat(env, entry, "p")
    ensures r.quantity == SafeFloat(env, entry, "q")
  {
    var timestamp := SafeTimestamp(env, entry, "T");
    SecondsIntegral(env, entry, "T");
    AggTrade(SafeInteger(env, entry, "a"), SafeFloat(env, entry, "p"), SafeFloat(env, entry, "q"),
             SafeInteger(env, entry, "f"), SafeInteger(env, entry, "l"), timestamp,
             Datetime(env, AsReal(timestamp)), SafeValue(entry, "m"), SafeValue(entry, "M"))
  }

  datatype ParsedFee = ParsedFee(info: Json, symbol: Option<string>, maker: Option<real>, taker: Option<real>)

  /** `parseTradingFee(fee)`. */
  function ParseTradingFee(env: Env, fee: Json): (r: ParsedFee)
    ensures r.info == fee
    ensures r.symbol == env.safeSymbol(SafeString(env, fee, "symbol"), None)
    ensures r.maker == SafeFloat(env, fee, "maker") && r.taker == SafeFloat(env, fee, "taker")
  {
    ParsedFee(fee, env.safeSymbol(SafeString(env, fee, "symbol"), None),
              SafeFloat(env, fee, "maker"), SafeFloat(env, fee, "taker"))
  }

  datatype FeeInfo = FeeInfo(maker: real, symbol: string, taker: real)

  datatype TradingFee = TradingFee(info: FeeInfo, maker: real, symbol: string, taker: real)

  /**
   * `convertTradingFees(symbol, maker, taker)`: the given rates, unchanged,
   * under the given symbol; `info.symbol` is the registered market's symbol
   * without its slash.
   */
  function ConvertTradingFees(env: Env, reg: Registry, symbol: string, maker: real, taker: real)
    : (r: Result<TradingFee>)
    ensures symbol !in reg.markets ==> r == Failure(BadSymbol)
    ensures r.Success? <==> symbol in reg.markets && SafeString(env, reg.markets[symbol], "symbol").Some?
    ensures r.Success? ==>
      && r.value.symbol == symbol && r.value.maker == r.value.info.maker == maker
      && r.value.taker == r.value.info.taker == taker
      && r.value.info.symbol == ReplaceFirst(SafeString(env, reg.markets[symbol], "symbol").value, '/', "")
  {
    var market :- MarketOf(reg, symbol);
    var conversion :- ConvertSymbol(env, market);
    Success(TradingFee(FeeInfo(maker, conversion.symbol3, taker), maker, symbol, taker))
  }
}
