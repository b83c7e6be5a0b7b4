/**
  The trading-signal handler: for each market-data record of a stream batch,
  two predictions in {-1, 0, 1} are combined into one; a buy or sell decision
  is sent as an order to the FIFO execute-operations queue, a 0 decision
  sends nothing. A record whose decoding or sending fails is reported by its
  sequence number; later records are still processed.

  The two random predictions, the outcome of decoding and parsing the record,
  the outcome of the send and the millisecond clock (already rendered as the
  digits used in the deduplication id) are inputs.
 */
module SignalGenerator {
  import opened Base

  /** A model's opinion: -1 sell, 0 hold, 1 buy (randomInt(-1, 2) draws from these). */
  type Prediction = x: int | -1 <= x <= 1

  /**
    The conservative combination: a trade is signalled only when both
    predictions agree on it; any disagreement yields 0.
   */
  function Consensus(svm: Prediction, lstm: Prediction): (r: Prediction)
    ensures r != 0 <==> svm == lstm && svm != 0
    ensures r != 0 ==> r == svm && r == lstm
  {
    if svm == lstm then svm else 0
  }

  /** The queue action for a combined prediction. */
  function ActionFor(prediction: Prediction): (action: string)
    ensures action == "buy" <==> prediction == 1
    ensures action == "sell" <==> prediction == -1
    ensures action == "hold" <==> prediction == 0
  {
    if prediction == 1 then "buy"
    else if prediction == -1 then "sell"
    else "hold"
  }

  /**
    The parsed payload of a stream record (price fields are not read). The
    handler destructures it without checking, so either field may be absent.
   */
  datatype MarketData = MarketData(userId: Option<string>, name: Option<string>)

  /** A stream record: its sequence number and the decoded payload, None when decoding or parsing failed. */
  datatype StreamRecord = StreamRecord(sequenceNumber: string, data: Option<MarketData>)

  /** The random draws, the outcome of the send and the clock for one record. */
  datatype SignalIo = SignalIo(svm: Prediction, lstm: Prediction, sendOk: bool, nowMillis: string)

  datatype Signal = Signal(record: StreamRecord, io: SignalIo)

  /** The JSON body of an order message; JSON.stringify omits an absent field. */
  datatype OrderBody = OrderBody(userId: Option<string>, activeSymbol: Option<string>, action: string)

  /** An order message with its FIFO group and deduplication ids. */
  datatype QueuedOrder = QueuedOrder(body: OrderBody, messageGroupId: Option<string>, deduplicationId: string)

  /** How a template literal renders an optional string: an absent value prints as "undefined". */
  function Interpolate(s: Option<string>): string {
    if s.Some? then s.value else "undefined"
  }

  /**
    The message sent for a prediction: orders of one user share a message
    group, so the queue keeps them in order.
   */
  function BuildOrder(userId: Option<string>, activeSymbol: Option<string>, prediction: Prediction, nowMillis: string)
    : QueuedOrder
  {
    QueuedOrder(OrderBody(userId, activeSymbol, ActionFor(prediction)), userId, Interpolate(userId) + "-" + nowMillis)
  }

  datatype SignalOutcome = Sent(order: QueuedOrder) | Held | Failed

  /**
    Handles one stream record. A record that parses is held on a 0 consensus
    before any of its fields is used, so a missing field matters only when an
    order is sent.
   */
  function HandleRecord(s: Signal): (r: SignalOutcome)
    ensures r.Failed? <==>
      s.record.data.None? || (Consensus(s.io.svm, s.io.lstm) != 0 && !s.io.sendOk)
    ensures r.Held? <==> s.record.data.Some? && Consensus(s.io.svm, s.io.lstm) == 0
    // Only a consensus trade reaches the queue, and never as "hold".
    ensures r.Sent? ==>
      && s.record.data.Some?
      && s.io.svm == s.io.lstm != 0
      && r.order.body.userId == s.record.data.value.userId
      && r.order.body.activeSymbol == s.record.data.value.name
      && r.order.body.action == (if s.io.svm == 1 then "buy" else "sell")
      && r.order.messageGroupId == s.record.data.value.userId
      && r.order.deduplicationId == Interpolate(s.record.data.value.userId) + "-" + s.io.nowMillis
  {
    match s.record.data
    case None => Failed
    case Some(data) =>
      var final := Consensus(s.io.svm, s.io.lstm);
      if final == 0 then Held
      else if !s.io.sendOk then Failed
      else Sent(BuildOrder(data.userId, data.name, final, s.io.nowMillis))
  }

  /** The sequence numbers of a batch, in order. */
  function SequenceNumbers(batch: seq<Signal>): seq<string> {
    Project(batch, SequenceNumberOf)
  }

  function SequenceNumberOf(s: Signal): string {
    s.record.sequenceNumber
  }

  /** The sequence numbers of the records that fail, in batch order. */
  function FailedSequenceNumbers(batch: seq<Signal>): (ids: seq<string>)
    ensures IsSubsequence(ids, SequenceNumbers(batch))
  {
    if |batch| == 0 then []
    else
      var prefix := batch[..|batch| - 1];
      var s := batch[|batch| - 1];
      var prev := FailedSequenceNumbers(prefix);
      assert SequenceNumbers(batch) == SequenceNumbers(prefix) + [s.record.sequenceNumber];
      if HandleRecord(s).Failed? then
        SubsequenceKeep(prev, SequenceNumbers(prefix), s.record.sequenceNumber);
        prev + [s.record.sequenceNumber]
      else
        SubsequenceSkip(prev, SequenceNumbers(prefix), s.record.sequenceNumber);
        prev
  }

  /** The orders of the records that send one, in batch order. */
  function SentOrders(batch: seq<Signal>): (orders: seq<QueuedOrder>)
    ensures forall j :: 0 <= j < |orders| ==>
              (orders[j].body.action == "buy" || orders[j].body.action == "sell")
              && orders[j].messageGroupId == orders[j].body.userId
  {
    if |batch| == 0 then []
    else
      var out := HandleRecord(batch[|batch| - 1]);
      SentOrders(batch[..|batch| - 1]) + (if out.Sent? then [out.order] else [])
  }

  datatype StreamResult = StreamResult(failures: seq<string>, sent: seq<QueuedOrder>)

  /** Folds one more record into the batch result. */
  function StepSignal(acc: StreamResult, s: Signal): StreamResult {
    match HandleRecord(s)
    case Sent(o) => StreamResult(acc.failures, acc.sent + [o])
    case Held => acc
    case Failed => StreamResult(acc.failures + [s.record.sequenceNumber], acc.sent)
  }

  /** Handles the batch in order, collecting per-record failures. */
  function ProcessStream(batch: seq<Signal>): (r: StreamResult)
    decreases |batch|
    ensures |r.failures| + |r.sent| <= |batch|
    // Exactly the failing records are reported, and exactly the sending records' orders go out.
    ensures r.failures == FailedSequenceNumbers(batch)
    ensures r.sent == SentOrders(batch)
    ensures IsSubsequence(r.failures, SequenceNumbers(batch))
    ensures forall j :: 0 <= j < |r.sent| ==>
              (r.sent[j].body.action == "buy" || r.sent[j].body.action == "sell")
              && r.sent[j].messageGroupId == r.sent[j].body.userId
  {
    if |batch| == 0 then StreamResult([], [])
    else StepSignal(ProcessStream(batch[..|batch| - 1]), batch[|batch| - 1])
  }

  /**
    Every order the batch sends is the order some record of the batch
    produced, so it carries a consensus of both predictions.
   */
  lemma {:induction false} SentComesFromRecord(batch: seq<Signal>, j: int)
    requires 0 <= j < |ProcessStream(batch).sent|
    ensures exists i :: 0 <= i < |batch| && HandleRecord(batch[i]) == Sent(ProcessStream(batch).sent[j])
    decreases |batch|
  {
    var prefix := batch[..|batch| - 1];
    var s := batch[|batch| - 1];
    var prev := ProcessStream(prefix);
    var o := ProcessStream(batch).sent[j];
    assert ProcessStream(batch) == StepSignal(prev, s);
    if j < |prev.sent| {
      assert o == prev.sent[j];
      SentComesFromRecord(prefix, j);
      var i :| 0 <= i < |prefix| && HandleRecord(prefix[i]) == Sent(prev.sent[j]);
      assert prefix[i] == batch[i];
      assert HandleRecord(batch[i]) == Sent(o);
    } else {
      assert HandleRecord(batch[|batch| - 1]) == Sent(o);
    }
  }

  /** A record that fails is reported by its sequence number. */
  lemma {:induction false} FailedIsReported(batch: seq<Signal>, i: int)
    requires 0 <= i < |batch| && HandleRecord(batch[i]).Failed?
    ensures batch[i].record.sequenceNumber in ProcessStream(batch).failures
    decreases |batch|
  {
    if i < |batch| - 1 {
      var prefix := batch[..|batch| - 1];
      assert prefix[i] == batch[i];
      FailedIsReported(prefix, i);
    }
  }

  /** A record that sends has its order among the sent ones. */
  lemma {:induction false} SentIsReported(batch: seq<Signal>, i: int)
    requires 0 <= i < |batch| && HandleRecord(batch[i]).Sent?
    ensures HandleRecord(batch[i]).order in ProcessStream(batch).sent
    decreases |batch|
  {
    if i < |batch| - 1 {
      var prefix := batch[..|batch| - 1];
      assert prefix[i] == batch[i];
      SentIsReported(prefix, i);
    }
  }

  /** Handling one more record of a batch is one more StepSignal. */
  lemma ProcessStreamUnfold(batch: seq<Signal>, i: int)
    requires 0 <= i < |batch|
    ensures ProcessStream(batch[..i + 1]) == StepSignal(ProcessStream(batch[..i]), batch[i])
  {
    assert batch[..i + 1][..i] == batch[..i];
    assert batch[..i + 1][i] == batch[i];
  }

  /** The handler's loop over the stream records; it computes exactly ProcessStream. */
  method Handler(batch: seq<Signal>) returns (r: StreamResult)
    ensures r == ProcessStream(batch)
    ensures IsSubsequence(r.failures, SequenceNumbers(batch))
  {
    r := StreamResult([], []);
    for i := 0 to |batch|
      invariant r == ProcessStream(batch[..i])
    {
      ProcessStreamUnfold(batch, i);
      r := StepSignal(r, batch[i]);
    }
    assert batch[..|batch|] == batch;
  }

  /**
    A record whose predictions disagree, or agree on 0, sends nothing and is
    not a failure: appending it to a batch leaves the result unchanged.
   */
  lemma HoldIsSilent(batch: seq<Signal>, s: Signal)
    requires s.record.data.Some? && (s.io.svm != s.io.lstm || s.io.svm == 0)
    ensures ProcessStream(batch + [s]) == ProcessStream(batch)
  {
    assert (batch + [s])[..|batch + [s]| - 1] == batch;
    assert (batch + [s])[|batch + [s]| - 1] == s;
  }
}
