/**
  The user-balance table: one row per (userId, activeSymbol), where the
  symbol "CASH" is the row holding the user's available cash. The table's
  partition key is userId and its sort key activeSymbol, so a key names at
  most one row.
 */
module BalanceLedger {
  import opened Base

  /** The symbol of the cash row. */
  const CASH: string := "CASH"

  datatype BalanceKey = BalanceKey(userId: string, activeSymbol: string)

  /**
    The attributes of a row that the handlers read: `availableBalance` is only
    written on the cash row, `totalStocks` may be absent on a row written by
    another party. Amounts are whole numbers in this model.
   */
  datatype Row = Row(availableBalance: Option<int>, totalStocks: Option<int>)

  type Ledger = map<BalanceKey, Row>

  /** The quantity a trade sees: an absent `totalStocks` counts as 0. */
  function Quantity(row: Row): int {
    row.totalStocks.GetOr(0)
  }

  /** No row holds a negative quantity. */
  predicate NonNegative(l: Ledger) {
    forall k :: k in l ==> Quantity(l[k]) >= 0
  }

  /**
    The rows of one user, keyed by symbol: what a query on the partition key
    `userId` returns.
   */
  function UserRows(l: Ledger, userId: string): (rows: map<string, Row>)
    ensures forall s :: s in rows <==> BalanceKey(userId, s) in l
    ensures forall s :: s in rows ==> rows[s] == l[BalanceKey(userId, s)]
  {
    map k | k in l && k.userId == userId :: k.activeSymbol := l[k]
  }

  /** What a ledger-writing HTTP handler returns: the new ledger and the response. */
  datatype AdminResult = AdminResult(ledger: Ledger, response: ApiResponse<()>)

  /** `l2` agrees with `l1` everywhere except possibly at `key`. */
  predicate SameExcept(l1: Ledger, l2: Ledger, key: BalanceKey) {
    && l1.Keys - {key} == l2.Keys - {key}
    && (forall k :: k in l1 && k in l2 && k != key ==> l2[k] == l1[k])
  }
}
