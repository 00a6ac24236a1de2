/**
 * The static configuration of the exchange (the parts of `describe()` the core
 * reads) and the market and currency registry filled by `loadMarkets`.
 */
module Describe {
  import opened Wrappers
  import opened Base
  import Dict

  /** `urls.api`: the base URL of each API class. */
  const API_URLS: map<string, string> := map[
    "open" := "https://www.gooplex.com.br/open/v1",
    "signed" := "https://www.gooplex.com.br/open/v1",
    "api" := "https://api.binance.com/api",
    "wapi" := "https://api.binance.com/wapi/v3",
    "sapi" := "https://api.binance.com/sapi/v1",
    "dapiPublic" := "https://dapi.binance.com/dapi/v1",
    "dapiPrivate" := "https://dapi.binance.com/dapi/v1",
    "fapiPublic" := "https://fapi.binance.com/fapi/v1",
    "fapiPrivate" := "https://fapi.binance.com/fapi/v1",
    "public" := "https://api.binance.com/api/v3",
    "private" := "https://api.binance.com/api/v3"
  ]

  /** `sides`: the exchange's numeric code of each order side. */
  const SIDES: map<string, int> := map["buy" := 0, "sell" := 1]

  /** `types`: the exchange's numeric code of each order type. */
  const TYPES: map<string, int> := map[
    "limit" := 1,
    "market" := 2,
    "stop_loss" := 3,
    "stop_loss_limit" := 4,
    "take_profit" := 5,
    "take_profit_limit" := 6,
    "limit_maker" := 7
  ]

  /** `fees.trading`: 0.22% for both sides of every trade. */
  const TAKER_FEE: real := 0.0022
  const MAKER_FEE: real := 0.0022

  /** The widest window of a deposit or withdrawal history query: 90 days in milliseconds. */
  const HISTORY_WINDOW: int := 7776000000

  /** `this.markets` (by unified symbol) and `this.currencies` (by code) after `loadMarkets`. */
  datatype Registry = Registry(markets: map<string, Json>, currencies: map<string, Json>)

  /** After `loadMarkets`, every market is stored under its own unified symbol. */
  predicate Loaded(env: Env, reg: Registry) {
    forall k :: k in reg.markets ==> SafeString(env, reg.markets[k], "symbol") == Some(k)
  }

  /**
   * One primitive endpoint call: the endpoint's method name, the request the
   * adapter builds, and the caller's extra parameters merged over it.
   */
  datatype Call = Call(endpoint: string, request: Params, params: Params) {
    /** `this.extend(request, params)`: what is sent. */
    function Query(): Params {
      Dict.Extend(request, params)
    }
  }

  /** The key an optional symbol becomes: `this.markets[undefined]` reads the key "undefined". */
  function SymbolKey(symbol: Option<string>): string {
    JsString(symbol)
  }

  /** `this.markets[symbol]['id']`, which throws when the symbol is not loaded. */
  function MarketId(reg: Registry, symbol: Option<string>): Result<Json> {
    var key := SymbolKey(symbol);
    if key in reg.markets then Member(reg.markets[key], "id") else Failure(TypeError)
  }

  /** `this.market(symbol)`, which throws BadSymbol for an unknown symbol. */
  function MarketOf(reg: Registry, symbol: string): Result<Json> {
    if symbol in reg.markets then Success(reg.markets[symbol]) else Failure(BadSymbol)
  }

  /** `this.currency(code)['id']`, where `currency` throws ExchangeError for an unknown code. */
  function CurrencyId(reg: Registry, code: string): Result<Json> {
    if code in reg.currencies then Member(reg.currencies[code], "id") else Failure(ExchangeError)
  }
}
