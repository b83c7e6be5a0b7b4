/**
  How the handlers fit together: orders produced by the signal handler are
  consumed by the broker handler, executed orders are persisted by the
  history sink and read back by the history query, and every handler that
  writes the balance ledger keeps quantities non-negative (with the intended
  add-holdings validation).
 */
module Pipeline {
  import opened Base
  import opened BalanceLedger
  import opened HistoryStore
  import SignalGenerator
  import BrokerExecution
  import CreateInitialBalance
  import AddHoldings
  import GetCurrentBalance
  import ProcessHistoryOperation
  import GetOperationsHistoryByUser

  /**
    The broker's view of an order message sent by the signal handler. A body
    without userId or activeSymbol cannot be used as a key, which the broker
    sees as a payload it cannot use.
   */
  function AsBrokerDelivery(o: SignalGenerator.QueuedOrder, messageId: string, io: BrokerExecution.BrokerIo)
    : BrokerExecution.Delivery
  {
    var payload :=
      if o.body.userId.Some? && o.body.activeSymbol.Some? then
        Some(BrokerExecution.OrderPayload(o.body.userId.value, o.body.activeSymbol.value, o.body.action))
      else None;
    BrokerExecution.Delivery(BrokerExecution.OrderMessage(messageId, payload), io)
  }

  /**
    An order the signal handler sends is never refused as an invalid action:
    with both key fields, a ledger row and working calls, a buy always
    executes and a sell executes exactly when the row holds at least one lot.
   */
  lemma SignalledOrderExecutes(
    s: SignalGenerator.Signal, l: Ledger, messageId: string, io: BrokerExecution.BrokerIo)
    requires SignalGenerator.HandleRecord(s).Sent?
    requires io.readOk && io.writeOk && io.enqueueOk
    ensures
      var o := SignalGenerator.HandleRecord(s).order;
      var r := BrokerExecution.Execute(l, AsBrokerDelivery(o, messageId, io));
      && r.outcome != BrokerExecution.Failed(BrokerExecution.InvalidAction)
      && (o.body.userId.None? || o.body.activeSymbol.None? ==>
            r.outcome == BrokerExecution.Failed(BrokerExecution.Unparseable))
      && (o.body.userId.Some? && o.body.activeSymbol.Some?
          && BalanceKey(o.body.userId.value, o.body.activeSymbol.value) in l ==>
            (r.outcome.Executed? <==>
               o.body.action == "buy"
               || Quantity(l[BalanceKey(o.body.userId.value, o.body.activeSymbol.value)]) >= BrokerExecution.LOT))
  {
  }

  /**
    An executed order that the history sink stores is returned by the
    history query for its user.
   */
  lemma ExecutedOrderIsRetrievable(
    l: Ledger, d: BrokerExecution.Delivery, h: History, messageId: string)
    requires BrokerExecution.Execute(l, d).outcome.Executed?
    ensures
      var rec := BrokerExecution.Execute(l, d).outcome.record;
      var m := ProcessHistoryOperation.HistoryDelivery(
        ProcessHistoryOperation.HistoryMessage(messageId, Some(rec)), true);
      var h' := ProcessHistoryOperation.ProcessBatch(h, [m]).store;
      var q := GetOperationsHistoryByUser.Handler(h', Some(rec.userId), true);
      && q.statusCode == 200
      && rec in q.data.value
      && rec.quantity == BrokerExecution.LOT
  {
    var rec := BrokerExecution.Execute(l, d).outcome.record;
    var m := ProcessHistoryOperation.HistoryDelivery(
      ProcessHistoryOperation.HistoryMessage(messageId, Some(rec)), true);
    assert [m][..0] == [];
    assert ProcessHistoryOperation.LastWrite([m], KeyOf(rec)) == Some(EntryOf(rec));
  }

  /**
    A balance created by the create endpoint is read back by the balance
    endpoint: 200 with that amount, the user's other rows as holdings, and
    no holdings at all for a user who had no rows.
   */
  lemma CreatedBalanceIsReported(l: Ledger, userId: string, amount: int, body: string)
    requires userId != "" && amount != 0 && body != ""
    requires BalanceKey(userId, CASH) !in l
    ensures
      var req := HttpRequest(Some(body), Some(CreateInitialBalance.CreateBalancePayload(Some(userId), Some(amount))));
      var c := CreateInitialBalance.Handler(l, req, true);
      var r := GetCurrentBalance.Handler(c.ledger, Some(userId), true);
      && c.response.statusCode == 201
      && r.statusCode == 200
      && r.data.value.availableBalance == Some(amount)
      && (forall s :: s in r.data.value.holdings <==> s != CASH && BalanceKey(userId, s) in l)
      && ((forall k :: k in l ==> k.userId != userId) ==>
            r.data == Some(GetCurrentBalance.BalanceData(Some(amount), map[])))
  {
    var req := HttpRequest(Some(body), Some(CreateInitialBalance.CreateBalancePayload(Some(userId), Some(amount))));
    var c := CreateInitialBalance.Handler(l, req, true);
    var r := GetCurrentBalance.Handler(c.ledger, Some(userId), true);
    if forall k :: k in l ==> k.userId != userId {
      assert r.data.value.holdings == map[];
    }
  }

  /** A request to one of the ledger-writing handlers. */
  datatype LedgerOp =
    | Create(createReq: HttpRequest<CreateInitialBalance.CreateBalancePayload>, createOk: bool)
    | AddHolding(addReq: HttpRequest<AddHoldings.AddHoldingsPayload>, addOk: bool)
    | Trade(batch: seq<BrokerExecution.Delivery>)

  /** The ledger after one request, with the intended add-holdings validation. */
  function Apply(l: Ledger, op: LedgerOp): Ledger {
    match op
    case Create(req, ok) => CreateInitialBalance.Handler(l, req, ok).ledger
    case AddHolding(req, ok) => AddHoldings.HandlerChecked(l, req, ok).ledger
    case Trade(batch) => BrokerExecution.ProcessBatch(l, batch).ledger
  }

  /** The ledger after a sequence of requests, in order. */
  function ApplyAll(l: Ledger, ops: seq<LedgerOp>): Ledger
    decreases |ops|
  {
    if |ops| == 0 then l else Apply(ApplyAll(l, ops[..|ops| - 1]), ops[|ops| - 1])
  }

  /** No interleaving of ledger-writing requests ever produces a negative quantity. */
  lemma {:induction false} QuantityNeverNegative(l: Ledger, ops: seq<LedgerOp>)
    requires NonNegative(l)
    ensures NonNegative(ApplyAll(l, ops))
    decreases |ops|
  {
    if |ops| > 0 {
      QuantityNeverNegative(l, ops[..|ops| - 1]);
    }
  }
}
