/**
  The current-balance endpoint: queries the user's rows and splits them into
  the available cash (from the CASH row) and the holdings (every other row's
  stock count). It only reads the ledger. The outcome of the DynamoDB query
  is an input.
 */
module GetCurrentBalance {
  import opened Base
  import opened BalanceLedger

  /** The returned data: the CASH row's balance (absent when the row has none) and the holdings. */
  datatype BalanceData = BalanceData(availableBalance: Option<int>, holdings: map<string, Option<int>>)

  /**
    The split of a user's rows: `cash` is None when no CASH row was seen
    (the handler's `null`), otherwise the balance attribute of that row.
   */
  datatype Split = Split(cash: Option<Option<int>>, holdings: map<string, Option<int>>)

  /** The split the handler's loop computes, stated directly. */
  function SplitOf(rows: map<string, Row>): Split {
    Split(
      if CASH in rows then Some(rows[CASH].availableBalance) else None,
      map s | s in rows && s != CASH :: rows[s].totalStocks)
  }

  /**
    The handler's loop over the query result: each row goes either to the
    cash slot or into the holdings. Rows have distinct symbols, so the order
    of the visit does not matter; the loop visits them in any order.
   */
  method SplitRows(rows: map<string, Row>) returns (split: Split)
    ensures split == SplitOf(rows)
    ensures split.cash.Some? <==> CASH in rows
    ensures CASH !in split.holdings
    ensures forall s :: s in rows && s != CASH ==> s in split.holdings && split.holdings[s] == rows[s].totalStocks
    ensures split.holdings.Keys <= rows.Keys
  {
    var cash: Option<Option<int>> := None;
    var holdings: map<string, Option<int>> := map[];
    var todo := rows.Keys;
    while todo != {}
      invariant todo <= rows.Keys
      invariant cash == (if CASH in rows && CASH !in todo then Some(rows[CASH].availableBalance) else None)
      invariant holdings == map s | s in rows && s !in todo && s != CASH :: rows[s].totalStocks
      decreases todo
    {
      var s :| s in todo;
      if s == CASH {
        cash := Some(rows[s].availableBalance);
      } else {
        holdings := holdings[s := rows[s].totalStocks];
      }
      todo := todo - {s};
    }
    split := Split(cash, holdings);
  }

  function Handler(l: Ledger, userId: Option<string>, queryOk: bool): (r: ApiResponse<BalanceData>)
    ensures !TruthyString(userId) ==> r == Reply(400, 400, "You need to provide the userId")
    ensures TruthyString(userId) && !queryOk ==> r == Reply(400, 500, "Something went wrong")
    ensures TruthyString(userId) && queryOk && UserRows(l, userId.value) == map[]
      ==> r == Reply(404, 404, "Usuario no encontrado o sin balance disponible")
    ensures TruthyString(userId) && queryOk && UserRows(l, userId.value) != map[]
            && BalanceKey(userId.value, CASH) !in l
      ==> r == Reply(404, 404, "User hasn`t balance")
    // Success exactly when the user has a CASH row; only that user's rows are reported.
    ensures r.statusCode == 200 <==> TruthyString(userId) && queryOk && BalanceKey(userId.value, CASH) in l
    ensures r.statusCode == 200 ==>
      && r.success && r.data.Some?
      && r.data.value.availableBalance == l[BalanceKey(userId.value, CASH)].availableBalance
      && CASH !in r.data.value.holdings
      && (forall s :: s in r.data.value.holdings <==> s != CASH && BalanceKey(userId.value, s) in l)
      && (forall s :: s in r.data.value.holdings ==>
            r.data.value.holdings[s] == l[BalanceKey(userId.value, s)].totalStocks)
  {
    if !TruthyString(userId) then Reply(400, 400, "You need to provide the userId")
    else if !queryOk then Reply(400, 500, "Something went wrong")
    else
      var rows := UserRows(l, userId.value);
      if rows == map[] then Reply(404, 404, "Usuario no encontrado o sin balance disponible")
      else
        var split := SplitOf(rows);
        match split.cash
        case None => Reply(404, 404, "User hasn`t balance")
        case Some(cash) =>
          ApiResponse(200, 200, true, "Success", Some(BalanceData(cash, split.holdings)))
  }
}
