/** `parseTransactionStatusByType`: exchange status codes to canonical states, per record type. */
module Status {
  import opened Wrappers

  const DEPOSIT_STATUSES: map<string, string> := map["0" := "pending", "1" := "ok"]

  const WITHDRAWAL_STATUSES: map<string, string> := map[
    "0" := "pending",   // email sent
    "1" := "canceled",
    "2" := "pending",   // awaiting approval
    "3" := "failed",    // rejected
    "4" := "pending",   // processing
    "5" := "failed",    // failure
    "6" := "ok"         // completed
  ]

  const STATUSES_BY_TYPE: map<string, map<string, string>> :=
    map["deposit" := DEPOSIT_STATUSES, "withdrawal" := WITHDRAWAL_STATUSES]

  const CANONICAL: set<string> := {"pending", "ok", "canceled", "failed"}

  /** The code is in the table of the record type. */
  predicate Mapped(status: Option<string>, recordType: Option<string>) {
    && status.Some? && recordType.Some?
    && recordType.value in STATUSES_BY_TYPE
    && status.value in STATUSES_BY_TYPE[recordType.value]
  }

  /**
   * The canonical state of `status` for a record of type `recordType`; a code
   * with no entry for that type, or a type with no table, passes through.
   */
  function StatusByType(status: Option<string>, recordType: Option<string>): (r: Option<string>)
    ensures Mapped(status, recordType) ==> r.Some? && r.value in CANONICAL
    ensures !Mapped(status, recordType) ==> r == status
    ensures r != status <==> Mapped(status, recordType)
  {
    var statuses := if recordType.Some? && recordType.value in STATUSES_BY_TYPE
                    then STATUSES_BY_TYPE[recordType.value] else map[];
    if status.Some? && status.value in statuses then Some(statuses[status.value]) else status
  }

  /** The deposit table. */
  lemma DepositTable()
    ensures StatusByType(Some("0"), Some("deposit")) == Some("pending")
    ensures StatusByType(Some("1"), Some("deposit")) == Some("ok")
    ensures forall c :: c != "0" && c != "1" ==> StatusByType(Some(c), Some("deposit")) == Some(c)
  {
  }

  /** The withdrawal table. */
  lemma WithdrawalTable()
    ensures StatusByType(Some("0"), Some("withdrawal")) == Some("pending")
    ensures StatusByType(Some("1"), Some("withdrawal")) == Some("canceled")
    ensures StatusByType(Some("2"), Some("withdrawal")) == Some("pending")
    ensures StatusByType(Some("3"), Some("withdrawal")) == Some("failed")
    ensures StatusByType(Some("4"), Some("withdrawal")) == Some("pending")
    ensures StatusByType(Some("5"), Some("withdrawal")) == Some("failed")
    ensures StatusByType(Some("6"), Some("withdrawal")) == Some("ok")
  {
  }

  /** A withdrawal code outside the table passes through. */
  lemma WithdrawalPassThrough(c: string)
    requires c !in {"0", "1", "2", "3", "4", "5", "6"}
    ensures StatusByType(Some(c), Some("withdrawal")) == Some(c)
  {
  }

  /** The two code spaces are not merged: the same code means different things. */
  lemma DisjointCodeSpaces()
    ensures StatusByType(Some("1"), Some("deposit")) != StatusByType(Some("1"), Some("withdrawal"))
  {
  }

  /** Without a known record type every status passes through. */
  lemma UnknownTypePassesThrough(status: Option<string>, recordType: Option<string>)
    requires recordType.None? || recordType.value !in {"deposit", "withdrawal"}
    ensures StatusByType(status, recordType) == status
  {
  }
}
