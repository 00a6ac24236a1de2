# Gooplex exchange adapter: a verified model of its translation layer

`js/gooplex.js` is an exchange adapter for the ccxt trading library. It turns
the library's unified calls into requests for the Gooplex REST API. It also
turns the exchange's raw JSON answers back into canonical records. The
transport, the clock, HMAC, URL encoding and the library's base class are not
part of the adapter. The adapter's own logic is the part modelled here:

- it signs requests (`sign`);
- it maps raw records to canonical ones (`convertSymbol`, `convertTrade`,
  `parseTicker`, `parseOHLCV`, `parseL2`, `parseTransaction`, the status
  tables, `parseTradingFee`, `convertTradingFees`);
- it aggregates lists in loops (`fetchMarkets`, `fetchBalance`,
  `parseTickers`, `fetchTrades`, `fetchAggTrades`, `fetchTradingFees`);
- it checks arguments and builds requests (`createOrder`, `fetchOrders`,
  `fetchOrderBook`, `fetchDeposits`, `fetchWithdrawals`, `withdraw`,
  `cancelOrder`);
- it emulates compound operations (`fetchClosedOrders`, `fetchOpenOrders`,
  `cancelAllOrders`).

Modules:

- **`Wrappers`** holds `Option`, `Result` and the exception classes the adapter throws.
- **`Base`** models JavaScript values as `Json`: JSON plus `undefined` and NaN, with numbers as exact reals.
  - It also has the null-safe accessors of the base class (`safeString`, `safeFloat`, `safeInteger`, `safeTimestamp`, …).
  - The operations the adapter calls but does not define are the function-valued fields of one record, `Env`. These are `String()`, `Number()`, `parseFloat`, `toString` of numbers, `toLowerCase`, `iso8601`, `safeCurrencyCode`, `safeSymbol`, both URL encoders, HMAC, `checkAddress`, the transport (`invoke`: the response of one endpoint call) and the clock (`nonceAt`).
  - The model fixes nothing about these functions.
- **`Dict`** models ordered objects built by assignment and merged by `extend`. Assigning an existing key replaces its value in place; a new key goes to the end.
- **`Strings`** has first-occurrence `replace` and `slice(0, n)`, counted in Unicode characters (JavaScript counts UTF-16 code units; see "## Left out").
- **`Describe`** holds the static parts of `describe()` that the core reads:
  - the `urls.api` table;
  - `sides`, `types` and the trading fees;
  - the registry that `loadMarkets` fills (`markets`, `currencies`);
  - one endpoint call, as a `Call`: the request the adapter built, with the caller's parameters merged over it.
- **`Signer`** models `sign`. **`Status`** models `parseTransactionStatusByType`. **`Transactions`** models `parseTransaction`.
- **`Normalizer`** models the other record mappings. **`Markets`** models `fetchMarkets`. **`Balance`** models `fetchBalance`.
- **`Lists`** models the list loops and the trading-fee operations. **`Requests`** models the request builders. **`Compound`** models the emulated operations.

Each loop is a `method` with a `while` or `for` loop. It is proved against a
specification of the prefix visited so far (a function folding over it, or a
predicate on what the loop has built), and lemmas state what that
specification means. A throw becomes a `Failure` value. Every
property read on `undefined` or `null` throws a `TypeError`, modelled
as `Failure(TypeError)`.

Some behaviour of the code is easy to misread, and the model states it as the
code has it:

- **Balance totals.** The per-asset entry and the `total` dictionary disagree.
  - The per-asset entry `data[asset]` sets `total` to `free` (js/gooplex.js:1135-1137).
  - Only the separate `total` dictionary holds `free + locked` (js/gooplex.js:1122-1125).
  - `Balance.AssetTotalIsFree` and `Balance.TotalsDisagree` state this.
- **Market symbols.** Every market's symbol is `BASE/QUOTE`, delivery markets included.
  - `delivery` is still `false` when the symbol is built (js/gooplex.js:591), and is only set afterwards (js/gooplex.js:598-601).
- **Market `type`.** `marketType` is declared outside the loop (js/gooplex.js:576).
  - Once a market with `maintMarginPercent` is seen, every later market keeps the type `future` or `delivery`, including spot markets.
  - `Markets.TypeIsSticky` and `Markets.SpotAfterFuture` state this.
- **Signed query order.** The code builds `extend({timestamp, recvWindow}, params)` (js/gooplex.js:446-449).
  - So `timestamp` and `recvWindow` come first, ahead of every caller key such as `symbol`.
  - `Signer.SignedParamsExample` states the order.
- **`fetchTradingFee`.** It looks the market up again under `symbol2`, the market's symbol with its first underscore removed (js/gooplex.js:1019-1025).
  - Once `loadMarkets` has stored each market under its own unified symbol, a symbol without an underscore is its own `symbol2`, so the fee is found under the symbol asked for (`Lists.TradingFeeOfLoadedMarket`).

## Model

| member | source | states |
|---|---|---|
| Signer.RecvWindow | js/gooplex.js:444 | the receive window is the options' `recvWindow` when it reads as an integer, otherwise 5000 |
| Signer.SignedParamsShape | js/gooplex.js:446-449 | the signed parameters are `timestamp`, `recvWindow`, then the caller's other keys in order; a caller key overrides a value but keeps its position; every caller value is sent unchanged |
| Signer.SignedParamsExample | js/gooplex.js:446-449 | signing `{symbol}` gives the key order timestamp, recvWindow, symbol |
| Signer.Sign | js/gooplex.js:433-461 | an API class outside `urls.api` raises NotSupported; a signed call without credentials raises AuthenticationError; success iff neither; the URL starts with `base/path`; a signed URL is `base/path?enc(params)&signature=hmac(enc(params), secret)` with the `X-MBX-APIKEY` header; otherwise a GET appends `?urlencode(params)` only for non-empty params, and other methods add no query |
| Status.StatusByType | js/gooplex.js:746-764 | a code in the table of its record type maps to a canonical state; every other code, and any code of an unknown or absent type, passes through unchanged; the result differs from the input iff the code is mapped |
| Status.DepositTable | js/gooplex.js:748-751 | deposit '0' is pending, '1' is ok, every other code passes through |
| Status.WithdrawalTable | js/gooplex.js:752-760 | withdrawal '0', '2', '4' are pending, '1' canceled, '3' and '5' failed, '6' ok |
| Status.WithdrawalPassThrough | js/gooplex.js:752-763 | a withdrawal code outside '0'..'6' passes through unchanged |
| Status.DisjointCodeSpaces | js/gooplex.js:750-754 | code '1' means ok for a deposit but canceled for a withdrawal |
| Status.UnknownTypePassesThrough | js/gooplex.js:762-763 | without a known record type every status passes through |
| Transactions.ParseTransaction | js/gooplex.js:766-851 | fails iff the record is nullish (reading `status` throws); an explicit `type` leaves the timestamp undefined; with no type, only `insertTime` gives a deposit at insertTime, only `applyTime` a withdrawal at applyTime, both or neither give no type and no timestamp; datetime, mapped status and currency code follow |
| Transactions.TagCoercion | js/gooplex.js:797-802 | the tag is undefined iff `addressTag` is absent or empty, and is otherwise the raw tag |
| Transactions.FeeDefinedIffTransactionFee | js/gooplex.js:829-835 | the fee is defined iff `transactionFee` reads as a number, and is then that cost in the record's currency |
| Transactions.DepositRecord | js/gooplex.js:795-850 | a raw deposit with `insertTime`, status 1 and an empty tag is an ok deposit stamped with insertTime and with no tag |
| Normalizer.ConvertSymbol | js/gooplex.js:469-508 | fails iff the market has no symbol; `symbol` replaces the first `_` by `/`, `symbol2` deletes the first `_`, `symbol3` deletes the first `/`; the id is the raw symbol; the rates are the static fees |
| Normalizer.ConvertSymbolForms | js/gooplex.js:475-479 | for a raw symbol without a slash, turning `symbol`'s slash back gives the id, removing it gives `symbol2`, and `symbol3` is the id |
| Normalizer.ConvertTrade | js/gooplex.js:511-554 | fails iff the trade is nullish; takerOrMaker is 'maker' iff `isBuyerMaker` is truthy, else 'taker'; fee null (represented as None), side 'buy', type 'limit', cost 0; id, price, amount from `id`, `price`, `qty`; a whole-second `time` comes back as the timestamp |
| Normalizer.ParseTicker | js/gooplex.js:1194-1219 | close and last are both `lastPrice`; the timestamp is `closeTime`; the symbol goes through safeSymbol; average is undefined |
| Normalizer.ParseOhlcv | js/gooplex.js:1271-1278 | a candle is the integer of entry 0 as timestamp and the numbers of entries 1 to 5 as open, high, low, close and volume |
| Normalizer.OhlcvIgnoresTail | js/gooplex.js:1271-1278 | a kline is read from its first six entries only; the rest of the array does not change the candle |
| Normalizer.ParseL2 | js/gooplex.js:1358-1372 | the timestamp is `T` in seconds as milliseconds (a whole number of seconds gives exactly T*1000); trade id, price and quantity from `a`, `p`, `q` |
| Normalizer.ParseTradingFee | js/gooplex.js:981-997 | the fee's symbol is the safeSymbol of its `symbol`, the rates are its `maker` and `taker`, the record is kept as info; nothing in the adapter calls `parseTradingFee`, so it is a field-by-field projection with no further property |
| Normalizer.ConvertTradingFees | js/gooplex.js:1023-1036 | an unknown symbol raises BadSymbol; success iff the market is registered and has a symbol; the given rates under the given symbol, and info.symbol is the market's raw symbol without its slash |
| Markets.Pow10Reciprocal | js/gooplex.js:643 | the amount minimum `10^-precision` is the reciprocal of `10^precision` |
| Markets.TypeBefore | js/gooplex.js:576-601 | `marketType` is always spot, future or delivery |
| Markets.MarketEntry | js/gooplex.js:578-661 | an entry exists iff convertSymbol succeeds on the raw market |
| Markets.MarketEntryFields | js/gooplex.js:583-661 | id is symbol2 and info.symbol is the id; the symbol is always base/quote; active iff status (or contractStatus) is 'TRADING'; spot is set; future and delivery follow `maintMarginPercent`/`marginAsset` and are never both set; the amount minimum is 10^-amount precision, NaN when that is undefined |
| Markets.Entries | js/gooplex.js:578-661 | a successful list of entries has one entry per raw market; a failure is TypeError |
| Markets.FetchMarkets | js/gooplex.js:571-663 | a response without a `data.list` fails with TypeError; otherwise the result is exactly the list of entries, in input order, each typed with `marketType` as the loop leaves it |
| Markets.EntriesSucceed | js/gooplex.js:578-583 | the markets are fetched iff every raw market has a symbol |
| Markets.EntriesAt | js/gooplex.js:578-661 | entry j is the entry of raw market j under the type the loop has after visiting it |
| Markets.TypeBeforeSpot | js/gooplex.js:576-601 | a market's type is spot iff no market up to it is a derivative |
| Markets.TypeIsSticky | js/gooplex.js:576-601 | once a derivative is seen, every later market has a derivative type |
| Markets.TypeAfterLastDerivative | js/gooplex.js:598-601 | after a run of spot markets the type is that of the last derivative seen |
| Markets.SpotAfterFuture | js/gooplex.js:576-645 | a spot market after a future one is typed future while its `spot` flag is set and its `future` flag is not |
| Balance.LastBefore | js/gooplex.js:1118-1138 | the record that decides an asset's balance is the last one stored under its key |
| Balance.SeenIffStored | js/gooplex.js:1118-1138 | an asset has a balance iff some record is stored under its key |
| Balance.FetchBalance | js/gooplex.js:1093-1158 | a response without data throws TypeError; undefined `accountAssets` raises BadRequest, null throws TypeError; otherwise success iff no record is nullish, and the result is the balance of the records; canDeposit, canTrade, canWithdraw are each true iff the raw value is 1; buyer, maker, seller and taker commissions are the parseFloat of the raw values; accountType and permissions are SPOT; updateTime is the response timestamp |
| Balance.Tally | js/gooplex.js:1118-1139 | the loop succeeds iff no record is nullish, and then leaves `data`, the free, used and total dictionaries and the raw balances exactly as storing the records one after the other does |
| Balance.FilledUpToIsStored | js/gooplex.js:1115-1138 | after storing the records in turn, the free dictionary holds each asset's free amount, the used one its locked amount, the total one free + locked, and `data` the entry of its last record |
| Balance.FilledUpToBalances | js/gooplex.js:1129-1133 | the raw balances hold one entry per record, in order: its asset and its amounts rendered back to strings |
| Balance.FilledIsBalance | js/gooplex.js:1118-1157 | the filled dictionaries, with the reserved keys of `data` replaced, are the balance of the records |
| Balance.StoredIsDict | js/gooplex.js:1115-1125 | a dictionary holds its placeholder and every record's key, each with the amount of the last record under it; the placeholder is replaced when an asset has its name |
| Balance.StoredEntriesAre | js/gooplex.js:1134-1138 | `data` holds every record's key with the last record's free, free and locked |
| Balance.WithoutReserved | js/gooplex.js:1153-1156 | after the reserved keys free, info, total and used are overwritten, the per-asset entries are those of every other key |
| Balance.TotalIsFreePlusUsed | js/gooplex.js:1122-1125 | for every asset, the total dictionary holds free + locked of its last record |
| Balance.AssetTotalIsFree | js/gooplex.js:1134-1137 | the per-asset entry repeats free as total, and agrees with the free and used dictionaries |
| Balance.TotalsDisagree | js/gooplex.js:1122-1137 | one BTC record with 1 free and 1 locked: the entry's total is 1, the total dictionary's is 2 |
| Lists.ParseTickers | js/gooplex.js:1237-1243 | a nullish list throws TypeError; otherwise one ticker per raw record, in order, each parsed without a market |
| Lists.FetchTrades | js/gooplex.js:1320-1335 | an unloaded symbol throws TypeError; the request is the market id, then the limit when defined (since is not sent); success iff the response is a list without nullish records; then one trade per record, in order, converted under the requested symbol |
| Lists.ConvertTrades | js/gooplex.js:1330-1334 | the loop succeeds iff no record is nullish, and then holds each record's converted trade, in order |
| Lists.FetchAggTrades | js/gooplex.js:1374-1389 | an unloaded symbol throws TypeError; the request is the market id, then the limit when defined; success iff the response is not nullish; then one aggregate trade per record, in order |
| Lists.FetchTradingFee | js/gooplex.js:999-1021 | an undefined symbol raises ArgumentsRequired, an unknown one BadSymbol, one without a raw symbol TypeError; otherwise the rates are looked up again under symbol2 (the market's symbol without its first underscore): BadSymbol when that is not a key, TypeError when the market under it has no symbol, else the static 0.22% maker and taker under symbol2 |
| Lists.TradingFeeOfLoadedMarket | js/gooplex.js:999-1025 | in a registry where every market is stored under its own symbol, fetchTradingFee of a symbol without an underscore succeeds, under that same symbol, with the 0.22% maker rate and info.symbol the symbol without its slash |
| Lists.FetchTradingFees | js/gooplex.js:1038-1060 | with the markets awaited: a failed market fetch fails with TypeError; otherwise the result is the fee map over the symbols of the fetched markets, in order |
| Lists.FeesOver | js/gooplex.js:1054-1058 | the loop assigns each symbol's converted fee in order and leaves exactly the fee map of the symbols it visited; the first failing conversion is thrown |
| Lists.FeesForEveryMarket | js/gooplex.js:1054-1058 | the fee map exists iff every symbol converts; its keys are exactly the market symbols, each with that symbol's converted fee |
| Lists.FeeRates | js/gooplex.js:1054-1058 | under every key: that symbol, and the configured 0.22% (js/gooplex.js:424-429) for maker and taker, in the fee and in its info |
| Lists.FetchTradingFeesUnawaited | js/gooplex.js:1052-1058 | as written, the loop runs over a pending promise and the result is empty |
| Lists.UnawaitedFeesMissMarkets | js/gooplex.js:1052-1058 | a registered market with a symbol has a fee once the markets are awaited, and none as written |
| Requests.OptionalKey | js/gooplex.js:675-677 | an optional request key is present iff its argument is defined, and then holds it |
| Requests.FetchOrderBook | js/gooplex.js:666-680 | an undefined symbol raises ArgumentsRequired before anything else; an unloaded one throws TypeError; otherwise one `openGetMarketDepth` call with the market id, then the limit when defined |
| Requests.FetchOrders | js/gooplex.js:682-699 | an undefined symbol raises ArgumentsRequired; an unloaded one throws TypeError; the request is the id, then startTime and limit when defined; success iff the response and its data are not nullish, returning `data.list` |
| Requests.CreateOrder | js/gooplex.js:701-730 | checks the symbol (ArgumentsRequired), then the side (NotSupported "Side … not supported"), then the type (NotSupported "Type … not supported."), before any request is built; then an unloaded symbol throws TypeError; the request is symbol id, side code, type code, quantity, then the price when defined |
| Requests.OrderCodes | js/gooplex.js:707-727 | the request's side is 0 for buy and 1 for sell; its type code is between 1 and 7, as the `sides` and `types` tables (js/gooplex.js:411-423) say |
| Requests.OrderPrice | js/gooplex.js:725-727 | the request has a price iff one is given, and then it is that price |
| Requests.CancelOrder | js/gooplex.js:1062-1072 | an undefined id raises ArgumentsRequired; otherwise one `signedPostOrdersCancel` call with `orderId` |
| Requests.HistoryRequest | js/gooplex.js:891-901 | the currency id when a code is given (an unknown code raises ExchangeError), then startTime and endTime when since is given; `fetchWithdrawals` builds the same request (js/gooplex.js:918-928) |
| Requests.HistoryWindow | js/gooplex.js:897-901 | endTime is since + 7776000000 (90 days), and the asset is sent iff a code is given |
| Requests.FetchHistory | js/gooplex.js:889-914 | an unknown currency raises ExchangeError; success iff the response and its data are not nullish, returning `data.list` of the call; `fetchWithdrawals` (js/gooplex.js:916-954) is the same on its own endpoint |
| Requests.FetchDeposits | js/gooplex.js:889-914 | an unknown currency raises ExchangeError; otherwise one `signedGetDeposits` call with the asset when a code is given and startTime/endTime (since + 90 days) when since is given, and the caller's params; success iff the response and its data are not nullish, else TypeError; returns `data.list` of that call |
| Requests.FetchWithdrawals | js/gooplex.js:916-954 | an unknown currency raises ExchangeError; otherwise one `signedGetWithdraws` call with the asset when a code is given and startTime/endTime (since + 90 days) when since is given, and the caller's params; success iff the response and its data are not nullish, else TypeError; returns `data.list` of that call |
| Requests.Withdraw | js/gooplex.js:956-979 | a refused address raises InvalidAddress before anything else; an unknown currency raises ExchangeError; the request is asset, address, parseFloat(amount), name = first 20 characters of the address, then addressTag when defined; returns the response as info and its `id` |
| Requests.WithdrawalName | js/gooplex.js:961 | the name is a prefix of the address: the whole address up to 20 Unicode characters, else exactly 20 (JavaScript counts UTF-16 code units; see "## Left out") |
| Compound.FilterBy | js/gooplex.js:743 | fails iff some order is nullish; otherwise every kept order has the status, and every order with the status is kept as often as it was fetched (the filter of `fetchOpenOrders`, js/gooplex.js:1317, too) |
| Compound.FilterByKeepsOrder | js/gooplex.js:743 | the kept orders keep their fetched order (a subsequence) |
| Compound.FetchFiltered | js/gooplex.js:741-744 | an undefined symbol raises ArgumentsRequired, every other failure is TypeError; success iff the market is loaded, the response and its data are present, `data.list` is a list and no order is nullish; the fetched orders are those of the orders call, and the result is their filter by the status |
| Compound.FetchClosedOrders | js/gooplex.js:741-744 | an undefined symbol raises ArgumentsRequired, every other failure is TypeError; success iff the orders call succeeds on a loaded market with a list of non-null orders; then exactly the fetched orders whose status is 'closed' |
| Compound.FetchOpenOrders | js/gooplex.js:1306-1318 | symbol, since and limit are required in that order (ArgumentsRequired), every other failure is TypeError; success iff all three are given and the orders call succeeds on a loaded market with a list of non-null orders; then exactly the fetched orders whose status is 'open' |
| Compound.CancelRequest | js/gooplex.js:1082-1085 | a cancel request has exactly the keys orderId and timestamp: the order's id and the nonce |
| Compound.CancelAllOrders | js/gooplex.js:1074-1091 | with the orders awaited: an undefined symbol raises ArgumentsRequired; orders are fetched with the symbol alone; one cancel request per fetched order, in order, with orderId = order.id; the responses in the same order and of the same count; success iff the fetch succeeds and no order is nullish |
| Compound.CancelSentAsBuilt | js/gooplex.js:1086 | `extend(request)` sends the cancel request unchanged |
| Compound.CancelAllOrdersUnawaited | js/gooplex.js:1078-1090 | as written: an undefined symbol raises ArgumentsRequired, otherwise no order is cancelled |
| Compound.UnawaitedCancelsNothing | js/gooplex.js:1078-1090 | for a loaded market whose fetched order list is non-empty and free of null orders, the as-written version sends no cancel request, while the requests `CancelAllOrders` returns (one per order of that same list) are non-empty |

## Left out

- Transport, loadMarkets, market and currency lookup: `this[method](...)`, `loadMarkets`, `market()`, `currency()` and `checkAddress` are network or base-class calls. Their answers are inputs (`Env.invoke`, `Registry`, `Env.checkAddress`).
- Uninterpreted functions: HMAC, `nonce()`, `iso8601`, both URL encoders, `safeCurrencyCode` and `safeSymbol` are base-class or runtime code. They are function parameters, and nothing is assumed about them.
- Order of nonces: `Env.nonceAt(j)` is the nonce of the j-th cancel request. How it interleaves with the nonces that signing uses is not modelled.
- Unseen base-class helpers: `parseOrderBook`, `parseTrades`, `parseTransactions` and `parseOHLCVs` are not part of this model. The operations that end in them return the raw response or `data.list`. No order-book sorting is claimed.
- `filterByArray`: this base-class helper is not modelled. `Lists.ParseTickers` returns the tickers before that filter.
- Object-shaped order lists: `filterBy` reads the values of an object list. The model treats an object-shaped `data.list` as holding no orders.
- Operations outside the core: `fetchTime`, `fetchStatus`, `fetchTicker`, `fetchTickers`, `fetchBidsAsks`, `fetchOHLCV`, `fetchOrder`, `fetchMyTrades` and `fetchDepositAddress` only forward or stamp calls. They are not modelled; `parseTicker` and `parseOHLCV`, which some of them use, are.
- The rest of `describe()`: the endpoint tables and the other static tables of `describe()` (js/gooplex.js:11-430) are configuration. Only `urls.api`, `sides`, `types` and the trading fees are modelled.
- Floating point: numbers are exact reals.
  - `parseFloat`, `Number` and `toString` are uninterpreted.
  - `Math.pow(10, -p)` is the exact reciprocal of 10^p, so rounding is not modelled.
  - An undefined power is NaN.
- Inherited prototype keys: `side in this.sides`, `type in this.types` and `api in this.urls['api']` (js/gooplex.js:434) are also true in JavaScript for inherited keys (such as `toString` or `constructor`). The model checks only the tables' own keys, so `Requests.CreateOrder` raises NotSupported and `Signer.Sign` raises NotSupported(api) where the code would go on with the inherited member. The same holds for `this.markets[symbol]['id']` (js/gooplex.js:673, 689, 720, 1226, 1324, 1345, 1378): for a symbol such as `constructor` the code reads the inherited member and sends an undefined id, while `Describe.MarketId` fails with TypeError.
- Strings: JavaScript strings are sequences of UTF-16 code units, and the model's are sequences of Unicode characters. They differ only for characters outside the Basic Multilingual Plane, which take two code units in JavaScript and one character here. This affects `slice(0, 20)`, `.length`, and indexing of a string-shaped list (js/gooplex.js:1081, 1118).
- Requests.WithdrawalName: the name is the first 20 Unicode characters of the address. `address.slice(0, 20)` (js/gooplex.js:961) takes 20 UTF-16 code units, and may end in half a surrogate pair. The two agree for addresses made of characters from the Basic Multilingual Plane.
- Requests.Withdraw: the `name` it sends is `Requests.WithdrawalName`'s, and so is counted in Unicode characters, not UTF-16 code units.
- Integer-like keys: JavaScript lists the integer-like keys of an object first. Dictionaries keep insertion order only.
- async/await: every operation runs to completion on given responses. Transport failures and timeouts are not modelled.
- Normalizer.ConvertSymbol: base and quote are read with `safeString`, where the source uses `safeValue`. The two differ only for a non-string `baseAsset` or `quoteAsset`.
- Balance.FetchBalance: the `exp_free`, `exp_used` and `exp_total` arrays are built but never returned, so they are not modelled.
- Requests.FetchHistory: `since` is a whole number of milliseconds. The base class's `sum` on a non-numeric `since` is not modelled.
- Signer.Sign: the NotSupported error carries the API class name rather than the full message text.

## Findings

| source | as written | input that shows it | evidently intended | confidence | as-written member | corrected member |
|---|---|---|---|---|---|---|
| js/gooplex.js:1052 | `const markets = this.fetchMarkets ()` is not awaited. `markets.length` is then undefined, the loop never runs, and `fetchTradingFees` always returns `{}`. The un-awaited `fetchMarkets` request still goes out in the background, and a rejection of it is never handled | any registry with a registered market that has a symbol | await the markets and map the static fee onto each market's symbol | not executed | Lists.FetchTradingFeesUnawaited, Lists.UnawaitedFeesMissMarkets | Lists.FetchTradingFees, Lists.FeesForEveryMarket |
| js/gooplex.js:1078 | `const orders = this.fetchOrders (symbol)` is not awaited. `orders.length` is undefined, so no order is cancelled and `cancelAllOrders` returns `[]`. The un-awaited `fetchOrders` request still goes out in the background, and its rejection (for example, for an unknown symbol) is never handled | any symbol whose fetched order list is non-empty | await the orders and send one cancel request per order, in order | not executed | Compound.CancelAllOrdersUnawaited, Compound.UnawaitedCancelsNothing | Compound.CancelAllOrders |
