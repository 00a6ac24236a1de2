/** `fetchBalance`: the spot account's asset list to ccxt's balance structure. */
module Balance {
  import opened Wrappers
  import opened Base

  /** An entry of `dict_free`, `dict_used` or `dict_total`: the initial empty object, or a number. */
  datatype Slot = Placeholder | Amount(x: Float)

  /** `data[asset]`: note that `total` is the free amount, as the adapter writes it. */
  datatype AssetBalance = AssetBalance(free: Float, total: Float, used: Float)

  /** An entry of `info.balances`: the amounts rendered back to strings. */
  datatype RawBalance = RawBalance(asset: Json, free: string, locked: string)

  datatype AccountInfo = AccountInfo(
    accountType: string,
    balances: seq<RawBalance>,
    permissions: seq<string>,
    buyerCommission: Float,
    canDeposit: bool,
    canTrade: bool,
    canWithdraw: bool,
    makerCommission: Float,
    sellerCommission: Float,
    takerCommission: Float,
    updateTime: Json)

  /** What `fetchBalance` returns: the per-asset entries, the three dictionaries and `info`. */
  datatype Balances = Balances(
    assets: map<string, AssetBalance>,
    free: map<string, Slot>,
    used: map<string, Slot>,
    total: map<string, Slot>,
    info: AccountInfo)

  /** The keys that the dictionaries and `info` overwrite in the result. */
  const RESERVED: set<string> := {"free", "info", "total", "used"}

  /** `response['data']['accountAssets']`, which throws when the response or its data is missing. */
  function AccountAssets(env: Env, params: Params): Result<Json> {
    var data :- Member(env.invoke("signedGetAccountSpot", params), "data");
    Member(data, "accountAssets")
  }

  /** The key an asset record is stored under. */
  function AssetKey(env: Env, item: Json): string {
    PropertyKey(env, Prop(item, "asset"))
  }

  function FreeAmount(env: Env, item: Json): Float {
    ParseFloat(env, Prop(item, "free"))
  }

  function LockedAmount(env: Env, item: Json): Float {
    ParseFloat(env, Prop(item, "locked"))
  }

  /** The keys of the first `n` asset records. */
  function KeysUpTo(env: Env, items: seq<Json>, n: nat): set<string>
    requires n <= |items|
  {
    set j | 0 <= j < n :: AssetKey(env, items[j])
  }

  /** The index of the last of the first `n` records stored under `k`, or -1 if there is none. */
  function LastBefore(env: Env, items: seq<Json>, n: nat, k: string): (r: int)
    requires n <= |items|
    ensures -1 <= r < n
    ensures r >= 0 ==> AssetKey(env, items[r]) == k
    ensures forall j :: r < j < n ==> AssetKey(env, items[j]) != k
  {
    if n == 0 then -1
    else if AssetKey(env, items[n - 1]) == k then n - 1
    else LastBefore(env, items, n - 1, k)
  }

  /** The record that decides the balance of `k`: the last one stored under it. */
  function Latest(env: Env, items: seq<Json>, k: string): Json
    requires Seen(env, items, |items|, k)
  {
    items[LastBefore(env, items, |items|, k)]
  }

  /** A key is seen exactly when one of the records is stored under it. */
  lemma SeenIffStored(env: Env, items: seq<Json>, n: nat, k: string)
    requires n <= |items|
    ensures Seen(env, items, n, k) <==> k in KeysUpTo(env, items, n)
  {
    if k in KeysUpTo(env, items, n) {
      var j :| 0 <= j < n && AssetKey(env, items[j]) == k;
    }
  }

  /**
   * `fetchBalance(params)`. Every record must be an object (reading `asset` of
   * a missing record throws); the balances are then as the record stored last
   * under each asset says.
   */
  method FetchBalance(env: Env, params: Params) returns (r: Result<Balances>)
    ensures AccountAssets(env, params).Failure? ==> r == Failure(TypeError)
    ensures AccountAssets(env, params) == Success(JUndef) ==> r == Failure(BadRequest)
    ensures AccountAssets(env, params).Success? && AccountAssets(env, params).value != JUndef ==>
              var listed := ListOf(AccountAssets(env, params).value);
              && (listed.Failure? ==> r == Failure(TypeError))
              && (listed.Success? ==>
                    && (r.Success? <==> forall j :: 0 <= j < |listed.value| ==> !IsNullish(listed.value[j]))
                    && (r.Failure? ==> r.error == TypeError)
                    && (r.Success? ==> IsBalanceOf(env, listed.value, r.value)))
    ensures r.Success? ==>
              var data := Prop(env.invoke("signedGetAccountSpot", params), "data");
              && r.value.info.canDeposit == (Prop(data, "canDeposit") == JNum(1.0))
              && r.value.info.canTrade == (Prop(data, "canTrade") == JNum(1.0))
              && r.value.info.canWithdraw == (Prop(data, "canWithdraw") == JNum(1.0))
              && r.value.info.buyerCommission == ParseFloat(env, Prop(data, "buyerCommission"))
              && r.value.info.sellerCommission == ParseFloat(env, Prop(data, "sellerCommission"))
              && r.value.info.makerCommission == ParseFloat(env, Prop(data, "makerCommission"))
              && r.value.info.takerCommission == ParseFloat(env, Prop(data, "takerCommission"))
              && r.value.info.updateTime == Prop(env.invoke("signedGetAccountSpot", params), "timestamp")
  {
    var response := env.invoke("signedGetAccountSpot", params);
    var data := Member(response, "data");
    if data.Failure? {
      return Failure(TypeError);
    }
    var assets := Member(data.value, "accountAssets");
    if assets.Failure? {
      return Failure(TypeError);
    }
    var balance := assets.value;
    if balance == JUndef {
      return Failure(BadRequest);
    }
    var listed := ListOf(balance);
    if listed.Failure? {
      return Failure(TypeError);
    }
    var tally := Tally(env, listed.value);
    if tally.Failure? {
      return Failure(TypeError);
    }
    var t := tally.value;
    var info := AccountInfo(
      "SPOT", t.balances, ["SPOT"],
      ParseFloat(env, Prop(data.value, "buyerCommission")),
      Prop(data.value, "canDeposit") == JNum(1.0),
      Prop(data.value, "canTrade") == JNum(1.0),
      Prop(data.value, "canWithdraw") == JNum(1.0),
      ParseFloat(env, Prop(data.value, "makerCommission")),
      ParseFloat(env, Prop(data.value, "sellerCommission")),
      ParseFloat(env, Prop(data.value, "takerCommission")),
      Prop(response, "timestamp"));
    FilledUpToIsStored(env, listed.value, |listed.value|);
    FilledUpToBalances(env, listed.value, |listed.value|);
    FilledIsBalance(env, listed.value, t, info);
    return Success(Balances(t.entries - RESERVED, t.free, t.used, t.total, info));
  }

  /** What the loop over the records leaves behind: `data`, the three dictionaries and `exp_balances`. */
  datatype Filled = Filled(entries: map<string, AssetBalance>, free: map<string, Slot>, used: map<string, Slot>,
                           total: map<string, Slot>, balances: seq<RawBalance>)

  /** A dictionary after storing the first `n` records, one after the other, over its placeholder. */
  function Stored(env: Env, items: seq<Json>, n: nat, placeholder: string, amount: (Env, Json) -> Float)
    : map<string, Slot>
    requires n <= |items|
  {
    if n == 0 then map[placeholder := Placeholder]
    else Stored(env, items, n - 1, placeholder, amount)[AssetKey(env, items[n - 1]) := Amount(amount(env, items[n - 1]))]
  }

  /** `data` after storing the first `n` records. */
  function StoredEntries(env: Env, items: seq<Json>, n: nat): map<string, AssetBalance>
    requires n <= |items|
  {
    if n == 0 then map[]
    else
      var item := items[n - 1];
      StoredEntries(env, items, n - 1)[AssetKey(env, item) :=
        AssetBalance(FreeAmount(env, item), FreeAmount(env, item), LockedAmount(env, item))]
  }

  /** `dict_free`, `dict_used`, `dict_total`, `data` and `exp_balances` before the loop. */
  const INITIAL: Filled :=
    Filled(map[], map["free" := Placeholder], map["used" := Placeholder], map["total" := Placeholder], [])

  /** What the loop has filled after storing the first `n` records, one after the other. */
  function FilledUpTo(env: Env, items: seq<Json>, n: nat): Filled
    requires n <= |items|
  {
    if n == 0 then INITIAL
    else
      var t := FilledUpTo(env, items, n - 1);
      var item := items[n - 1];
      var asset := AssetKey(env, item);
      var free := FreeAmount(env, item);
      var locked := LockedAmount(env, item);
      Filled(
        t.entries[asset := AssetBalance(free, free, locked)],
        t.free[asset := Amount(free)],
        t.used[asset := Amount(locked)],
        t.total[asset := Amount(Add(free, locked))],
        t.balances + [RawBalance(Prop(item, "asset"), env.floatString(free), env.floatString(locked))])
  }

  /** The loop of `fetchBalance` over the asset records. */
  method Tally(env: Env, items: seq<Json>) returns (r: Result<Filled>)
    ensures r.Success? <==> forall j :: 0 <= j < |items| ==> !IsNullish(items[j])
    ensures r.Failure? ==> r.error == TypeError
    ensures r.Success? ==> r.value == FilledUpTo(env, items, |items|)
  {
    var entries: map<string, AssetBalance> := map[];
    var balances: seq<RawBalance> := [];
    var dictFree: map<string, Slot> := map["free" := Placeholder];
    var dictTotal: map<string, Slot> := map["total" := Placeholder];
    var dictUsed: map<string, Slot> := map["used" := Placeholder];
    var i := 0;
    while i < |items|
      invariant 0 <= i <= |items|
      invariant forall j :: 0 <= j < i ==> !IsNullish(items[j])
      invariant Filled(entries, dictFree, dictUsed, dictTotal, balances) == FilledUpTo(env, items, i)
    {
      var item := items[i];
      if IsNullish(item) {
        return Failure(TypeError);
      }
      var asset := AssetKey(env, item);
      var free := ParseFloat(env, Prop(item, "free"));
      var locked := ParseFloat(env, Prop(item, "locked"));
      var total := Add(free, locked);
      dictFree := dictFree[asset := Amount(free)];
      dictTotal := dictTotal[asset := Amount(total)];
      dictUsed := dictUsed[asset := Amount(locked)];
      balances := balances + [RawBalance(Prop(item, "asset"), env.floatString(free), env.floatString(locked))];
      entries := entries[asset := AssetBalance(free, free, locked)];
      i := i + 1;
    }
    return Success(Filled(entries, dictFree, dictUsed, dictTotal, balances));
  }

  /**
   * Each dictionary the loop fills is the records stored into it one after
   * the other.
   */
  lemma {:induction false} FilledUpToIsStored(env: Env, items: seq<Json>, n: nat)
    requires n <= |items|
    ensures var t := FilledUpTo(env, items, n);
      && t.free == Stored(env, items, n, "free", FreeAmount)
      && t.used == Stored(env, items, n, "used", LockedAmount)
      && t.total == Stored(env, items, n, "total", TotalAmount)
      && t.entries == StoredEntries(env, items, n)
  {
    if n > 0 {
      FilledUpToIsStored(env, items, n - 1);
    }
  }

  /** `exp_balances` has one raw balance per record, in order. */
  lemma {:induction false} FilledUpToBalances(env: Env, items: seq<Json>, n: nat)
    requires n <= |items|
    ensures RawBalancesOf(FilledUpTo(env, items, n).balances, env, items, n)
  {
    if n > 0 {
      FilledUpToBalances(env, items, n - 1);
    }
  }

  function TotalAmount(env: Env, item: Json): Float {
    Add(FreeAmount(env, item), LockedAmount(env, item))
  }

  /** Some of the first `n` records is stored under `k`. */
  predicate Seen(env: Env, items: seq<Json>, n: nat, k: string)
    requires n <= |items|
  {
    LastBefore(env, items, n, k) >= 0
  }

  /**
   * A dictionary built from the first `n` records: its placeholder, the keys of
   * the records, and for each key the amount of the last record under it.
   */
  ghost predicate DictOf(d: map<string, Slot>, placeholder: string, env: Env, items: seq<Json>, n: nat,
                         amount: (Env, Json) -> Float)
    requires n <= |items|
  {
    && (forall k :: k in d <==> k == placeholder || Seen(env, items, n, k))
    && (!Seen(env, items, n, placeholder) ==> d[placeholder] == Placeholder)
    && forall k :: k in d && Seen(env, items, n, k) ==>
         d[k] == Amount(amount(env, items[LastBefore(env, items, n, k)]))
  }

  /** `data` after the first `n` records. */
  ghost predicate EntriesOf(d: map<string, AssetBalance>, env: Env, items: seq<Json>, n: nat)
    requires n <= |items|
  {
    && (forall k :: k in d <==> Seen(env, items, n, k))
    && forall k :: k in d && Seen(env, items, n, k) ==>
         var item := items[LastBefore(env, items, n, k)];
         d[k] == AssetBalance(FreeAmount(env, item), FreeAmount(env, item), LockedAmount(env, item))
  }

  /** `info.balances` after the first `n` records: one per record, in order. */
  ghost predicate RawBalancesOf(b: seq<RawBalance>, env: Env, items: seq<Json>, n: nat)
    requires n <= |items|
  {
    && |b| == n
    && forall j :: 0 <= j < n ==>
         b[j] == RawBalance(Prop(items[j], "asset"), env.floatString(FreeAmount(env, items[j])),
                            env.floatString(LockedAmount(env, items[j])))
  }

  /** The per-asset entries of the result: one per asset key that is not reserved, from its last record. */
  ghost predicate AssetsOf(assets: map<string, AssetBalance>, env: Env, items: seq<Json>) {
    && (forall k :: k in assets <==> Seen(env, items, |items|, k) && k !in RESERVED)
    && (forall k :: k in assets && Seen(env, items, |items|, k) ==>
          var item := Latest(env, items, k);
          assets[k] == AssetBalance(FreeAmount(env, item), FreeAmount(env, item), LockedAmount(env, item)))
  }

  /** The whole result, for the full record list. */
  ghost predicate IsBalanceOf(env: Env, items: seq<Json>, b: Balances) {
    && DictOf(b.free, "free", env, items, |items|, FreeAmount)
    && DictOf(b.used, "used", env, items, |items|, LockedAmount)
    && DictOf(b.total, "total", env, items, |items|, TotalAmount)
    && AssetsOf(b.assets, env, items)
    && RawBalancesOf(b.info.balances, env, items, |items|)
    && b.info.accountType == "SPOT" && b.info.permissions == ["SPOT"]
  }

  /** The loop's result, with the reserved keys replaced, is the balance of the records. */
  lemma FilledIsBalance(env: Env, items: seq<Json>, t: Filled, info: AccountInfo)
    requires t.free == Stored(env, items, |items|, "free", FreeAmount)
    requires t.used == Stored(env, items, |items|, "used", LockedAmount)
    requires t.total == Stored(env, items, |items|, "total", TotalAmount)
    requires t.entries == StoredEntries(env, items, |items|)
    requires RawBalancesOf(t.balances, env, items, |items|)
    requires info.balances == t.balances && info.accountType == "SPOT" && info.permissions == ["SPOT"]
    ensures IsBalanceOf(env, items, Balances(t.entries - RESERVED, t.free, t.used, t.total, info))
  {
    StoredIsDict(env, items, |items|, "free", FreeAmount);
    StoredIsDict(env, items, |items|, "used", LockedAmount);
    StoredIsDict(env, items, |items|, "total", TotalAmount);
    StoredEntriesAre(env, items, |items|);
    WithoutReserved(env, items, t.entries);
  }

  /** Removing the reserved keys from `data` leaves the per-asset entries. */
  lemma WithoutReserved(env: Env, items: seq<Json>, entries: map<string, AssetBalance>)
    requires EntriesOf(entries, env, items, |items|)
    ensures AssetsOf(entries - RESERVED, env, items)
  {
    var assets := entries - RESERVED;
    assert forall k :: k in assets <==> k in entries && k !in RESERVED;
    forall k | k in assets && Seen(env, items, |items|, k)
      ensures assets[k] == entries[k]
    {
    }
  }

  /** A stored dictionary holds its placeholder and the records' keys, each with the last record's amount. */
  lemma {:induction false} StoredIsDict(env: Env, items: seq<Json>, n: nat, placeholder: string,
                                        amount: (Env, Json) -> Float)
    requires n <= |items|
    ensures DictOf(Stored(env, items, n, placeholder, amount), placeholder, env, items, n, amount)
  {
    if n > 0 {
      StoredIsDict(env, items, n - 1, placeholder, amount);
      var d := Stored(env, items, n, placeholder, amount);
      forall k
        ensures k in d <==> k == placeholder || Seen(env, items, n, k)
        ensures k in d && Seen(env, items, n, k) ==> d[k] == Amount(amount(env, items[LastBefore(env, items, n, k)]))
      {
        SeenStep(env, items, n, k);
      }
      SeenStep(env, items, n, placeholder);
    }
  }

  /** The last record stored under `k` among the first `n`: the `n`-th if it is stored under `k`, else as before. */
  lemma SeenStep(env: Env, items: seq<Json>, n: nat, k: string)
    requires 0 < n <= |items|
    ensures LastBefore(env, items, n, k) ==
              if AssetKey(env, items[n - 1]) == k then n - 1 else LastBefore(env, items, n - 1, k)
    ensures Seen(env, items, n, k) <==> AssetKey(env, items[n - 1]) == k || Seen(env, items, n - 1, k)
  {
  }

  /** The stored entries hold each record's key with the last record's amounts. */
  lemma {:induction false} StoredEntriesAre(env: Env, items: seq<Json>, n: nat)
    requires n <= |items|
    ensures EntriesOf(StoredEntries(env, items, n), env, items, n)
  {
    if n > 0 {
      StoredEntriesAre(env, items, n - 1);
      var d := StoredEntries(env, items, n);
      forall k
        ensures k in d <==> Seen(env, items, n, k)
        ensures k in d && Seen(env, items, n, k) ==>
          var item := items[LastBefore(env, items, n, k)];
          d[k] == AssetBalance(FreeAmount(env, item), FreeAmount(env, item), LockedAmount(env, item))
      {
        SeenStep(env, items, n, k);
      }
    }
  }

  /** For every asset, the total dictionary holds the sum of the free and used ones. */
  lemma TotalIsFreePlusUsed(env: Env, items: seq<Json>, b: Balances, k: string)
    requires IsBalanceOf(env, items, b) && Seen(env, items, |items|, k)
    ensures k in b.free && k in b.used && k in b.total
    ensures b.free[k].Amount? && b.used[k].Amount? && b.total[k].Amount?
    ensures b.total[k].x == Add(b.free[k].x, b.used[k].x)
  {
  }

  /**
   * The per-asset entry repeats the free amount as its total, and agrees with
   * the free and used dictionaries.
   */
  lemma AssetTotalIsFree(env: Env, items: seq<Json>, b: Balances, k: string)
    requires IsBalanceOf(env, items, b) && k in b.assets
    ensures k in b.free && k in b.used
    ensures b.assets[k].total == b.assets[k].free
    ensures b.free[k] == Amount(b.assets[k].free) && b.used[k] == Amount(b.assets[k].used)
  {
  }

  /** A single record with one unit free and one locked: the entry's total is 1, the dictionary's 2. */
  lemma TotalsDisagree(env: Env, items: seq<Json>, b: Balances)
    requires items == [JObj(map["asset" := JStr("BTC"), "free" := JNum(1.0), "locked" := JNum(1.0)])]
    requires IsBalanceOf(env, items, b)
    ensures "BTC" in b.assets && "BTC" in b.total
    ensures b.assets["BTC"].total == Finite(1.0) && b.total["BTC"] == Amount(Finite(2.0))
  {
    OneBtcRecord(env, items);
    AssetTotalIsFree(env, items, b, "BTC");
    TotalIsFreePlusUsed(env, items, b, "BTC");
  }

  /** The one record is stored under `BTC` with one unit free and one locked. */
  lemma OneBtcRecord(env: Env, items: seq<Json>)
    requires items == [JObj(map["asset" := JStr("BTC"), "free" := JNum(1.0), "locked" := JNum(1.0)])]
    ensures Seen(env, items, 1, "BTC") && LastBefore(env, items, 1, "BTC") == 0
    ensures FreeAmount(env, items[0]) == Finite(1.0) && LockedAmount(env, items[0]) == Finite(1.0)
  {
    assert AssetKey(env, items[0]) == "BTC";
  }
}
