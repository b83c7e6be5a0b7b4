/**
  The create-initial-balance endpoint: validates the request and inserts the
  user's CASH row with a conditional write that refuses to overwrite an
  existing one. The outcome of the DynamoDB call (other than the condition
  check, which the model decides from the ledger) is an input.
 */
module CreateInitialBalance {
  import opened Base
  import opened BalanceLedger

  /** The parsed body; a field the JSON lacks is None. */
  datatype CreateBalancePayload = CreateBalancePayload(userId: Option<string>, initialBalance: Option<int>)

  /** The row the endpoint creates for a user. */
  function CashKey(userId: string): BalanceKey {
    BalanceKey(userId, CASH)
  }

  /** Both fields are truthy: 0 is not an acceptable initial balance. */
  predicate ValidPayload(p: CreateBalancePayload) {
    TruthyString(p.userId) && TruthyNumber(p.initialBalance)
  }

  /** The request passes every check before the write. */
  predicate Accepted(req: HttpRequest<CreateBalancePayload>) {
    HasBody(req) && req.parsed.Some? && ValidPayload(req.parsed.value)
  }

  function Handler(l: Ledger, req: HttpRequest<CreateBalancePayload>, writeOk: bool): (r: AdminResult)
    ensures !HasBody(req) ==> r == AdminResult(l, Reply(400, 400, "Body cannot be empty"))
    ensures HasBody(req) && req.parsed.Some? && !ValidPayload(req.parsed.value)
      ==> r == AdminResult(l, Reply(400, 400, "userId and initialBalance are required"))
    // A body that does not parse, or a failing write, is the generic error.
    ensures HasBody(req) && (req.parsed.None? || (ValidPayload(req.parsed.value) && !writeOk))
      ==> r == AdminResult(l, Reply(400, 500, "Something went wrong"))
    // An existing CASH row is never overwritten.
    ensures Accepted(req) && writeOk && CashKey(req.parsed.value.userId.value) in l
      ==> r == AdminResult(l, Reply(409, 409, "User already exists"))
    // Success creates exactly the CASH row, holding the initial balance and no stocks.
    ensures r.response.statusCode == 201 <==>
      Accepted(req) && writeOk && CashKey(req.parsed.value.userId.value) !in l
    ensures r.response.statusCode == 201 ==>
      var key := CashKey(req.parsed.value.userId.value);
      && r.ledger.Keys == l.Keys + {key}
      && SameExcept(l, r.ledger, key)
      && r.ledger[key] == Row(Some(req.parsed.value.initialBalance.value), Some(0))
    ensures r.response.statusCode != 201 ==> r.ledger == l
    ensures NonNegative(l) ==> NonNegative(r.ledger)
  {
    if !HasBody(req) then AdminResult(l, Reply(400, 400, "Body cannot be empty"))
    else match req.parsed
      case None => AdminResult(l, Reply(400, 500, "Something went wrong"))
      case Some(p) =>
        if !ValidPayload(p) then AdminResult(l, Reply(400, 400, "userId and initialBalance are required"))
        else if !writeOk then AdminResult(l, Reply(400, 500, "Something went wrong"))
        else
          var key := CashKey(p.userId.value);
          if key in l then AdminResult(l, Reply(409, 409, "User already exists"))
          else AdminResult(l[key := Row(Some(p.initialBalance.value), Some(0))],
                           Reply(201, 201, "Balance created Successfully"))
  }

  /**
    Creating a balance twice for the same user: the second call answers 409
    and the balance set by the first is kept, whatever the second asked for.
   */
  lemma SecondCreateKeepsBalance(l: Ledger, userId: string, first: int, second: int, body: string)
    requires userId != "" && first != 0 && second != 0 && body != ""
    requires CashKey(userId) !in l
    ensures
      var r1 := Handler(l, HttpRequest(Some(body), Some(CreateBalancePayload(Some(userId), Some(first)))), true);
      var r2 := Handler(r1.ledger, HttpRequest(Some(body), Some(CreateBalancePayload(Some(userId), Some(second)))), true);
      && r1.response.statusCode == 201
      && r2.response.statusCode == 409
      && r2.ledger[CashKey(userId)].availableBalance == Some(first)
  {
  }
}
