/** `parseTransaction`: one raw deposit or withdrawal record to a canonical transaction. */
module Transactions {
  import opened Wrappers
  import opened Base
  import Status

  datatype Fee = Fee(currency: Option<string>, cost: real)

  /** The `info` object built from the record (a selection of its fields, not the record itself). */
  datatype TransactionInfo = TransactionInfo(
    address: Option<string>,
    addressTag: Option<string>,
    amount: Option<real>,
    asset: Option<string>,
    creator: Option<string>,
    insertTime: Option<int>,
    status: Json,
    txId: Option<string>)

  datatype Transaction = Transaction(
    info: TransactionInfo,
    id: Option<string>,
    txid: Option<string>,
    timestamp: Option<int>,
    datetime: Option<string>,
    address: Option<string>,
    tag: Option<string>,
    txType: Option<string>,
    amount: Option<real>,
    currency: Option<string>,
    status: Option<string>,
    updated: Option<int>,
    fee: Option<Fee>)

  /**
   * `parseTransaction(transaction, currency)`, where `currency` is the code of
   * the currency argument. Only reading `transaction['status']` can throw.
   */
  function ParseTransaction(env: Env, tx: Json, currency: Option<string>): (r: Result<Transaction>)
    ensures r.Failure? <==> IsNullish(tx)
    ensures r.Success? ==>
      var t := r.value;
      var insertTime := SafeInteger(env, tx, "insertTime");
      var applyTime := SafeInteger(env, tx, "applyTime");
      var given := SafeString(env, tx, "type");
      && (given.Some? ==> t.txType == given && t.timestamp.None?)
      && (given.None? && insertTime.Some? && applyTime.None? ==>
            t.txType == Some("deposit") && t.timestamp == insertTime)
      && (given.None? && insertTime.None? && applyTime.Some? ==>
            t.txType == Some("withdrawal") && t.timestamp == applyTime)
      && (given.None? && insertTime.Some? == applyTime.Some? ==> t.txType.None? && t.timestamp.None?)
      && t.datetime == Datetime(env, AsReal(t.timestamp))
      && t.status == Status.StatusByType(SafeString(env, tx, "status"), t.txType)
      && t.currency == env.currencyCode(SafeString(env, tx, "asset"), currency)
  {
    var status :- Member(tx, "status");
    var id := SafeString(env, tx, "id");
    var address := SafeString(env, tx, "address");
    var rawTag := SafeString(env, tx, "addressTag");
    var tag := if rawTag.Some? && |rawTag.value| < 1 then None else rawTag;
    var txid := SafeString(env, tx, "txId");
    var currencyId := SafeString(env, tx, "asset");
    var code := env.currencyCode(currencyId, currency);
    var insertTime := SafeInteger(env, tx, "insertTime");
    var applyTime := SafeInteger(env, tx, "applyTime");
    var given := SafeString(env, tx, "type");
    var (txType, timestamp) :=
      if given.Some? then (given, None)
      else if insertTime.Some? && applyTime.None? then (Some("deposit"), insertTime)
      else if insertTime.None? && applyTime.Some? then (Some("withdrawal"), applyTime)
      else (None, None);
    var amount := SafeFloat(env, tx, "amount");
    var feeCost := SafeFloat(env, tx, "transactionFee");
    var info := TransactionInfo(address, tag, amount, currencyId, id, insertTime, status, txid);
    var fee := if feeCost.Some? then Some(Fee(code, feeCost.value)) else None;
    Success(Transaction(
      info, id, txid, timestamp, Datetime(env, AsReal(timestamp)), address, tag, txType, amount, code,
      Status.StatusByType(SafeString(env, tx, "status"), txType), None, fee))
  }

  /** An empty `addressTag` becomes undefined; any other tag is kept. */
  lemma TagCoercion(env: Env, tx: Json, currency: Option<string>)
    requires !IsNullish(tx)
    ensures var t := ParseTransaction(env, tx, currency).value;
            var raw := SafeString(env, tx, "addressTag");
            && (t.tag.None? <==> raw.None? || raw.value == "")
            && (t.tag.Some? ==> t.tag == raw)
            && t.info.addressTag == t.tag
  {
  }

  /** The fee is defined exactly when `transactionFee` reads as a number, and is charged in the record's currency. */
  lemma FeeDefinedIffTransactionFee(env: Env, tx: Json, currency: Option<string>)
    requires !IsNullish(tx)
    ensures var t := ParseTransaction(env, tx, currency).value;
            var cost := SafeFloat(env, tx, "transactionFee");
            && (t.fee.Some? <==> cost.Some?)
            && (t.fee.Some? ==> t.fee.value.currency == t.currency && t.fee.value.cost == cost.value)
  {
  }

  /** A deposit record as the exchange sends it: a deposit, stamped with its insertion time, status mapped. */
  lemma DepositRecord(env: Env, t0: int, currency: Option<string>)
    ensures var tx := JObj(map["insertTime" := JNum(t0 as real), "status" := JStr("1"), "addressTag" := JStr("")]);
            var t := ParseTransaction(env, tx, currency).value;
            t.txType == Some("deposit") && t.timestamp == Some(t0) && t.status == Some("ok") && t.tag.None?
  {
    var tx := JObj(map["insertTime" := JNum(t0 as real), "status" := JStr("1"), "addressTag" := JStr("")]);
    assert SafeInteger(env, tx, "insertTime") == Some(Trunc(t0 as real));
    assert Trunc(t0 as real) == t0;
    assert SafeInteger(env, tx, "applyTime").None? && SafeString(env, tx, "type").None?;
    assert SafeString(env, tx, "status") == Some("1") && SafeString(env, tx, "addressTag") == Some("");
  }
}
