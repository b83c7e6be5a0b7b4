/**
  The add-holdings endpoint: validates the request and inserts a
  (userId, activeSymbol) row with the given number of stocks, with a
  conditional write that refuses to overwrite an existing row. The outcome
  of the DynamoDB call (other than the condition check, which the model
  decides from the ledger) is an input.

  The validation only rejects a missing or zero `totalStocks`, so a negative
  number is stored as written (`Handler`, see `NegativeHoldingAccepted`);
  `HandlerChecked` is the evidently intended version that also refuses it and
  keeps every quantity non-negative.
 */
module AddHoldings {
  import opened Base
  import opened BalanceLedger

  datatype AddHoldingsPayload = AddHoldingsPayload(
    userId: Option<string>,
    activeSymbol: Option<string>,
    totalStocks: Option<int>)

  /** The three fields are truthy (a zero stock count is refused). */
  predicate ValidPayload(p: AddHoldingsPayload) {
    TruthyString(p.userId) && TruthyNumber(p.totalStocks) && TruthyString(p.activeSymbol)
  }

  predicate Accepted(req: HttpRequest<AddHoldingsPayload>) {
    HasBody(req) && req.parsed.Some? && ValidPayload(req.parsed.value)
  }

  /** The row an accepted payload addresses. */
  function HoldingKey(p: AddHoldingsPayload): BalanceKey
    requires ValidPayload(p)
  {
    BalanceKey(p.userId.value, p.activeSymbol.value)
  }

  /** The endpoint as written. */
  function Handler(l: Ledger, req: HttpRequest<AddHoldingsPayload>, writeOk: bool): (r: AdminResult)
    ensures !HasBody(req) ==> r == AdminResult(l, Reply(400, 400, "Body cannot be empty"))
    ensures HasBody(req) && req.parsed.Some? && !ValidPayload(req.parsed.value)
      ==> r == AdminResult(l, Reply(400, 400, "userId, activeSymbol and totalStocks are required"))
    ensures HasBody(req) && (req.parsed.None? || (ValidPayload(req.parsed.value) && !writeOk))
      ==> r == AdminResult(l, Reply(400, 500, "Something went wrong"))
    // An existing row is never overwritten.
    ensures Accepted(req) && writeOk && HoldingKey(req.parsed.value) in l
      ==> r == AdminResult(l, Reply(409, 409, "Symbol already exists"))
    // Success inserts exactly the addressed row with the given stocks and no cash.
    ensures r.response.statusCode == 201 <==>
      Accepted(req) && writeOk && HoldingKey(req.parsed.value) !in l
    ensures r.response.statusCode == 201 ==>
      var key := HoldingKey(req.parsed.value);
      && r.ledger.Keys == l.Keys + {key}
      && SameExcept(l, r.ledger, key)
      && r.ledger[key] == Row(None, Some(req.parsed.value.totalStocks.value))
    ensures r.response.statusCode != 201 ==> r.ledger == l
  {
    if !HasBody(req) then AdminResult(l, Reply(400, 400, "Body cannot be empty"))
    else match req.parsed
      case None => AdminResult(l, Reply(400, 500, "Something went wrong"))
      case Some(p) =>
        if !ValidPayload(p) then
          AdminResult(l, Reply(400, 400, "userId, activeSymbol and totalStocks are required"))
        else if !writeOk then AdminResult(l, Reply(400, 500, "Something went wrong"))
        else
          var key := HoldingKey(p);
          if key in l then AdminResult(l, Reply(409, 409, "Symbol already exists"))
          else AdminResult(l[key := Row(None, Some(p.totalStocks.value))],
                           Reply(201, 201, "Hold added Successfully"))
  }

  /**
    The validation lets a negative stock count through: a non-negative ledger
    ends up holding a negative quantity.
   */
  lemma NegativeHoldingAccepted()
    ensures
      var l: Ledger := map[];
      var req := HttpRequest(Some("{}"), Some(AddHoldingsPayload(Some("u"), Some("AAPL"), Some(-5))));
      var r := Handler(l, req, true);
      && NonNegative(l)
      && r.response.statusCode == 201
      && !NonNegative(r.ledger)
  {
    var l: Ledger := map[];
    var req := HttpRequest(Some("{}"), Some(AddHoldingsPayload(Some("u"), Some("AAPL"), Some(-5))));
    var key := BalanceKey("u", "AAPL");
    assert Handler(l, req, true).ledger[key] == Row(None, Some(-5));
  }

  /** The intended validation: the stock count must also be positive. */
  predicate ValidPayloadChecked(p: AddHoldingsPayload) {
    ValidPayload(p) && p.totalStocks.value > 0
  }

  /** The endpoint with the intended validation; it otherwise behaves as Handler. */
  function HandlerChecked(l: Ledger, req: HttpRequest<AddHoldingsPayload>, writeOk: bool): (r: AdminResult)
    ensures NonNegative(l) ==> NonNegative(r.ledger)
    ensures HasBody(req) && req.parsed.Some? && ValidPayload(req.parsed.value)
            && req.parsed.value.totalStocks.value < 0
      ==> r == AdminResult(l, Reply(400, 400, "userId, activeSymbol and totalStocks are required"))
    ensures !(HasBody(req) && req.parsed.Some? && req.parsed.value.totalStocks.Some?
              && req.parsed.value.totalStocks.value < 0)
      ==> r == Handler(l, req, writeOk)
  {
    if HasBody(req) && req.parsed.Some? && ValidPayload(req.parsed.value)
       && !ValidPayloadChecked(req.parsed.value)
    then AdminResult(l, Reply(400, 400, "userId, activeSymbol and totalStocks are required"))
    else Handler(l, req, writeOk)
  }
}
