/**
  The broker execution handler: consumes order messages from the
  execute-operations queue one after another, trades a fixed lot against the
  (userId, activeSymbol) row of the balance ledger, and enqueues one history
  record per executed order. A record that fails for any reason is reported
  by its message id; later records are still processed.

  External effects are inputs: the outcome of JSON.parse on the body, whether
  the DynamoDB read and write and the SQS send succeed, and the ISO time
  string stamped on the history record.
 */
module BrokerExecution {
  import opened Base
  import opened BalanceLedger
  import opened HistoryStore

  /** The fixed number of stocks every order trades. */
  const LOT: int := 10

  /** The parsed body of an order message. */
  datatype OrderPayload = OrderPayload(userId: string, activeSymbol: string, action: string)

  /** One message of the batch: its id and the parsed body, None when parsing failed. */
  datatype OrderMessage = OrderMessage(messageId: string, payload: Option<OrderPayload>)

  /** How the external calls made for one message turn out, and the clock reading. */
  datatype BrokerIo = BrokerIo(readOk: bool, writeOk: bool, enqueueOk: bool, now: string)

  datatype Delivery = Delivery(message: OrderMessage, io: BrokerIo)

  /** Why a message is reported as failed. */
  datatype BrokerError =
    | Unparseable      // JSON.parse threw
    | ReadFailed       // the GetItem call threw
    | UserNotFound     // no row for (userId, activeSymbol)
    | InvalidAction    // action is neither "buy" nor "sell"
    | NotEnoughStocks  // a sell with fewer than LOT stocks
    | WriteFailed      // the PutItem call threw
    | EnqueueFailed    // the history message could not be sent (after the write)

  datatype Outcome = Executed(record: HistoryRecord) | Failed(error: BrokerError)

  datatype ItemResult = ItemResult(ledger: Ledger, outcome: Outcome)

  predicate IsTradeAction(action: string) {
    action == "buy" || action == "sell"
  }

  /** The ledger row a payload addresses. */
  function Target(p: OrderPayload): BalanceKey {
    BalanceKey(p.userId, p.activeSymbol)
  }

  /** The signed change of quantity a valid action makes. */
  function Delta(action: string): int {
    if action == "buy" then LOT else -LOT
  }

  /** Every check passes and the ledger write succeeds for this message. */
  predicate Writes(l: Ledger, d: Delivery) {
    && d.message.payload.Some?
    && d.io.readOk
    && Target(d.message.payload.value) in l
    && IsTradeAction(d.message.payload.value.action)
    && (d.message.payload.value.action == "sell" ==> Quantity(l[Target(d.message.payload.value)]) >= LOT)
    && d.io.writeOk
  }

  /** The message is fully executed: it is written and its history record is sent. */
  predicate Executable(l: Ledger, d: Delivery) {
    Writes(l, d) && d.io.enqueueOk
  }

  /**
    Processes one message against the ledger.
   */
  function Execute(l: Ledger, d: Delivery): (r: ItemResult)
    ensures r.outcome.Executed? <==> Executable(l, d)
    // A failed enqueue still fails the item, but keeps the write.
    ensures r.outcome == Failed(EnqueueFailed) <==> Writes(l, d) && !d.io.enqueueOk
    // A write touches only the addressed row, which holds the old quantity
    // (absent counts as 0) moved by one lot; without a write nothing changes.
    ensures Writes(l, d) ==>
      var p := d.message.payload.value;
      && r.ledger.Keys == l.Keys
      && SameExcept(l, r.ledger, Target(p))
      && r.ledger[Target(p)] == Row(None, Some(Quantity(l[Target(p)]) + Delta(p.action)))
    ensures !Writes(l, d) ==> r.ledger == l
    ensures d.message.payload.None? ==> r.outcome == Failed(Unparseable)
    ensures d.message.payload.Some? && !d.io.readOk ==> r.outcome == Failed(ReadFailed)
    // The row is read before anything else is checked: a missing row fails the item.
    ensures d.message.payload.Some? && d.io.readOk && Target(d.message.payload.value) !in l
      ==> r.outcome == Failed(UserNotFound)
    ensures d.message.payload.Some? && d.io.readOk && Target(d.message.payload.value) in l
            && !IsTradeAction(d.message.payload.value.action)
      ==> r.outcome == Failed(InvalidAction)
    // A sell never drives the quantity below zero: with fewer than LOT stocks it is refused.
    ensures d.message.payload.Some? && d.io.readOk && Target(d.message.payload.value) in l
            && d.message.payload.value.action == "sell"
            && Quantity(l[Target(d.message.payload.value)]) < LOT
      ==> r.outcome == Failed(NotEnoughStocks)
    // Every check passed but the write did not.
    ensures d.message.payload.Some? && d.io.readOk && Target(d.message.payload.value) in l
            && IsTradeAction(d.message.payload.value.action)
            && (d.message.payload.value.action == "sell" ==> Quantity(l[Target(d.message.payload.value)]) >= LOT)
            && !d.io.writeOk
      ==> r.outcome == Failed(WriteFailed)
    // An executed order is recorded once, with the fixed lot and the clock reading.
    ensures r.outcome.Executed? ==>
      var p := d.message.payload.value;
      r.outcome.record == HistoryRecord(p.userId, p.activeSymbol, p.action, LOT, d.io.now)
    ensures NonNegative(l) ==> NonNegative(r.ledger)
  {
    match d.message.payload
    case None => ItemResult(l, Failed(Unparseable))
    case Some(p) =>
      var key := Target(p);
      if !d.io.readOk then ItemResult(l, Failed(ReadFailed))
      else if key !in l then ItemResult(l, Failed(UserNotFound))
      else
        var current := Quantity(l[key]);
        if !IsTradeAction(p.action) then ItemResult(l, Failed(InvalidAction))
        else if p.action == "sell" && current < LOT then ItemResult(l, Failed(NotEnoughStocks))
        else if !d.io.writeOk then ItemResult(l, Failed(WriteFailed))
        else
          var l' := l[key := Row(None, Some(current + Delta(p.action)))];
          if !d.io.enqueueOk then ItemResult(l', Failed(EnqueueFailed))
          else ItemResult(l', Executed(HistoryRecord(p.userId, p.activeSymbol, p.action, LOT, d.io.now)))
  }

  /** The message ids of a batch, in order. */
  function MessageIds(batch: seq<Delivery>): seq<string> {
    Project(batch, MessageIdOf)
  }

  function MessageIdOf(d: Delivery): string {
    d.message.messageId
  }

  /** The ledger rows the parsed messages of a batch address. */
  function Targets(batch: seq<Delivery>): (keys: set<BalanceKey>)
    ensures forall i :: 0 <= i < |batch| && batch[i].message.payload.Some? ==>
              Target(batch[i].message.payload.value) in keys
  {
    if |batch| == 0 then {}
    else
      var last := batch[|batch| - 1].message.payload;
      Targets(batch[..|batch| - 1]) + (if last.Some? then {Target(last.value)} else {})
  }

  /** The state after a batch: the ledger, the failed message ids and the history records sent. */
  datatype BatchResult = BatchResult(ledger: Ledger, failures: seq<string>, sent: seq<HistoryRecord>)

  /** Folds one more message into the state of the batch so far. */
  function Step(acc: BatchResult, d: Delivery): BatchResult {
    var item := Execute(acc.ledger, d);
    match item.outcome
    case Executed(rec) => BatchResult(item.ledger, acc.failures, acc.sent + [rec])
    case Failed(_) => BatchResult(item.ledger, acc.failures + [d.message.messageId], acc.sent)
  }

  /** Every record trades one lot with buy or sell. */
  predicate TradeRecords(sent: seq<HistoryRecord>) {
    forall i :: 0 <= i < |sent| ==> sent[i].quantity == LOT && IsTradeAction(sent[i].action)
  }

  /** Processes the batch in order, collecting per-item failures. */
  function ProcessBatch(l: Ledger, batch: seq<Delivery>): (r: BatchResult)
    decreases |batch|
    // Each message either fails or sends exactly one history record.
    ensures |r.failures| + |r.sent| == |batch|
    ensures IsSubsequence(r.failures, MessageIds(batch))
    ensures TradeRecords(r.sent)
    ensures r.ledger.Keys == l.Keys
    ensures forall k :: k in l && k !in Targets(batch) ==> r.ledger[k] == l[k]
    ensures NonNegative(l) ==> NonNegative(r.ledger)
  {
    if |batch| == 0 then BatchResult(l, [], [])
    else
      var prefix := batch[..|batch| - 1];
      var d := batch[|batch| - 1];
      var prev := ProcessBatch(l, prefix);
      assert MessageIds(batch) == MessageIds(prefix) + [d.message.messageId];
      StepEffect(prev, d);
      if Step(prev, d).failures == prev.failures then
        SubsequenceSkip(prev.failures, MessageIds(prefix), d.message.messageId);
        Step(prev, d)
      else
        SubsequenceKeep(prev.failures, MessageIds(prefix), d.message.messageId);
        Step(prev, d)
  }

  /**
    One Step either reports the message or sends one trade record, keeps the
    ledger's keys, touches at most the addressed row and keeps quantities
    non-negative.
   */
  lemma StepEffect(acc: BatchResult, d: Delivery)
    ensures
      var r := Step(acc, d);
      && ((r.failures == acc.failures + [d.message.messageId] && r.sent == acc.sent)
          || (r.failures == acc.failures && |r.sent| == |acc.sent| + 1))
      && (TradeRecords(acc.sent) ==> TradeRecords(r.sent))
      && r.ledger.Keys == acc.ledger.Keys
      && (forall k :: k in acc.ledger && (d.message.payload.None? || k != Target(d.message.payload.value))
            ==> r.ledger[k] == acc.ledger[k])
      && (NonNegative(acc.ledger) ==> NonNegative(r.ledger))
  {
  }

  /**
    The handler's loop: a `for` over the records, threading the ledger and
    appending failures and sent records; it computes exactly ProcessBatch.
   */
  method Handler(l: Ledger, batch: seq<Delivery>) returns (r: BatchResult)
    ensures r == ProcessBatch(l, batch)
    ensures IsSubsequence(r.failures, MessageIds(batch))
  {
    r := BatchResult(l, [], []);
    for i := 0 to |batch|
      invariant r == ProcessBatch(l, batch[..i])
    {
      ProcessBatchUnfold(l, batch, i);
      r := Step(r, batch[i]);
    }
    assert batch[..|batch|] == batch;
  }

  /** Processing one more message of a batch is one more Step. */
  lemma ProcessBatchUnfold(l: Ledger, batch: seq<Delivery>, i: int)
    requires 0 <= i < |batch|
    ensures ProcessBatch(l, batch[..i + 1]) == Step(ProcessBatch(l, batch[..i]), batch[i])
  {
    assert batch[..i + 1][..i] == batch[..i];
    assert batch[..i + 1][i] == batch[i];
  }

  /** Results of two consecutive batches, as one. */
  function Then(r1: BatchResult, r2: BatchResult): BatchResult {
    BatchResult(r2.ledger, r1.failures + r2.failures, r1.sent + r2.sent)
  }

  /**
    Splitting a batch anywhere and processing the parts one after the other,
    the second starting from the first's ledger, gives the same outcome as
    processing it at once: the handler is a sequential fold.
   */
  lemma {:induction false} ProcessBatchSplit(l: Ledger, a: seq<Delivery>, b: seq<Delivery>)
    ensures ProcessBatch(l, a + b) == Then(ProcessBatch(l, a), ProcessBatch(ProcessBatch(l, a).ledger, b))
    decreases |b|
  {
    var ra := ProcessBatch(l, a);
    if |b| == 0 {
      assert a + b == a;
      assert ra.failures + [] == ra.failures && ra.sent + [] == ra.sent;
    } else {
      var b' := b[..|b| - 1];
      var d := b[|b| - 1];
      assert (a + b)[..|a + b| - 1] == a + b';
      assert (a + b)[|a + b| - 1] == d;
      ProcessBatchLast(l, a + b);
      ProcessBatchLast(ra.ledger, b);
      ProcessBatchSplit(l, a, b');
      StepThen(ra, ProcessBatch(ra.ledger, b'), d);
    }
  }

  /** The ledger a message of the batch is processed against: the one the messages before it leave. */
  function LedgerBefore(l: Ledger, batch: seq<Delivery>, i: int): Ledger
    requires 0 <= i <= |batch|
  {
    ProcessBatch(l, batch[..i]).ledger
  }

  /**
    Every message is accounted for: one that does not execute against the
    ledger its predecessors leave is reported by its id, and one that does
    has its history record sent.
   */
  lemma FailedIsReported(l: Ledger, batch: seq<Delivery>, i: int)
    requires 0 <= i < |batch|
    ensures
      var item := Execute(LedgerBefore(l, batch, i), batch[i]);
      && (!item.outcome.Executed? ==> batch[i].message.messageId in ProcessBatch(l, batch).failures)
      && (item.outcome.Executed? ==> item.outcome.record in ProcessBatch(l, batch).sent)
  {
    assert batch[..i + 1] + batch[i + 1..] == batch;
    ProcessBatchSplit(l, batch[..i + 1], batch[i + 1..]);
    ProcessBatchUnfold(l, batch, i);
  }

  /** The last message of a non-empty batch is folded in last. */
  lemma ProcessBatchLast(l: Ledger, batch: seq<Delivery>)
    requires |batch| > 0
    ensures ProcessBatch(l, batch) == Step(ProcessBatch(l, batch[..|batch| - 1]), batch[|batch| - 1])
  {
  }

  /** Folding a message into two concatenated results only affects the second. */
  lemma StepThen(x: BatchResult, y: BatchResult, d: Delivery)
    ensures Step(Then(x, y), d) == Then(x, Step(y, d))
  {
    var item := Execute(y.ledger, d);
    if item.outcome.Executed? {
      assert x.sent + (y.sent + [item.outcome.record]) == x.sent + y.sent + [item.outcome.record];
    } else {
      assert x.failures + (y.failures + [d.message.messageId]) == x.failures + y.failures + [d.message.messageId];
    }
  }

  /**
    A buy followed by a sell of the same row leaves that row as the broker
    writes it: the same stock count and no availableBalance. A row the broker
    wrote is therefore restored; a CASH row loses its balance. With a negative
    quantity the sell is refused instead.
   */
  lemma BuyThenSellRestores(l: Ledger, userId: string, symbol: string, io: BrokerIo)
    requires BalanceKey(userId, symbol) in l && Quantity(l[BalanceKey(userId, symbol)]) >= 0
    requires io.readOk && io.writeOk
    ensures
      var key := BalanceKey(userId, symbol);
      var buy := Delivery(OrderMessage("b", Some(OrderPayload(userId, symbol, "buy"))), io);
      var sell := Delivery(OrderMessage("s", Some(OrderPayload(userId, symbol, "sell"))), io);
      var l2 := Execute(Execute(l, buy).ledger, sell).ledger;
      && l2 == l[key := Row(None, Some(Quantity(l[key])))]
      && (l[key].availableBalance.None? && l[key].totalStocks.Some? ==> l2 == l)
  {
    var key := BalanceKey(userId, symbol);
    var q := Quantity(l[key]);
    var l1 := l[key := Row(None, Some(q + LOT))];
    assert l1[key := Row(None, Some(q))] == l[key := Row(None, Some(q))];
    if l[key].availableBalance.None? && l[key].totalStocks.Some? {
      assert l[key := Row(None, Some(q))] == l;
    }
  }

  /**
    Order matters: on a row holding fewer stocks than a lot, buy-then-sell
    executes both, while sell-then-buy refuses the sell.
   */
  lemma OrderMatters(l: Ledger, buy: Delivery, sell: Delivery)
    requires buy.message.payload.Some? && buy.message.payload.value.action == "buy"
    requires sell.message.payload == Some(buy.message.payload.value.(action := "sell"))
    requires buy.io.readOk && buy.io.writeOk && buy.io.enqueueOk
    requires sell.io.readOk && sell.io.writeOk && sell.io.enqueueOk
    requires Target(buy.message.payload.value) in l
    requires 0 <= Quantity(l[Target(buy.message.payload.value)]) < LOT
    ensures ProcessBatch(l, [buy, sell]).failures == []
    ensures ProcessBatch(l, [sell, buy]).failures == [sell.message.messageId]
  {
    var key := Target(buy.message.payload.value);
    assert Target(sell.message.payload.value) == key;
    var empty := BatchResult(l, [], []);
    // buy, then sell
    PairAsSteps(l, buy, sell);
    StepExecuted(empty, buy);
    var afterBuy := Step(empty, buy);
    assert Quantity(afterBuy.ledger[key]) == Quantity(l[key]) + LOT;
    assert Executable(afterBuy.ledger, sell);
    StepExecuted(afterBuy, sell);
    // sell, then buy
    PairAsSteps(l, sell, buy);
    assert !Writes(l, sell);
    StepFailed(empty, sell);
    var afterSell := Step(empty, sell);
    assert Executable(afterSell.ledger, buy);
    StepExecuted(afterSell, buy);
  }

  /** A batch of two messages is two Steps from the empty result. */
  lemma PairAsSteps(l: Ledger, d1: Delivery, d2: Delivery)
    ensures ProcessBatch(l, [d1, d2]) == Step(Step(BatchResult(l, [], []), d1), d2)
  {
    assert [d1, d2][..1] == [d1] && [d1][..0] == [];
    ProcessBatchLast(l, [d1]);
    ProcessBatchLast(l, [d1, d2]);
  }

  /** An executable message adds no failure. */
  lemma StepExecuted(acc: BatchResult, d: Delivery)
    requires Executable(acc.ledger, d)
    ensures Step(acc, d).failures == acc.failures
  {
  }

  /** A message that cannot execute is reported, and leaves the ledger alone unless its enqueue failed. */
  lemma StepFailed(acc: BatchResult, d: Delivery)
    requires !Writes(acc.ledger, d)
    ensures Step(acc, d).failures == acc.failures + [d.message.messageId]
    ensures Step(acc, d).ledger == acc.ledger
  {
  }
}
