/**
  The history sink: consumes the history queue one message after another and
  puts each record into the history table at (userId, timestamp). The put is
  unconditional, so a later record with the same key overwrites an earlier
  one and a redelivered record writes the same entry again. A message that
  does not parse or whose put fails is reported by its message id.

  The outcome of JSON.parse and of each put are inputs.
 */
module ProcessHistoryOperation {
  import opened Base
  import opened HistoryStore

  /** One message of the batch: its id and the parsed body, None when parsing failed. */
  datatype HistoryMessage = HistoryMessage(messageId: string, payload: Option<HistoryRecord>)

  datatype HistoryDelivery = HistoryDelivery(message: HistoryMessage, putOk: bool)

  datatype SinkResult = SinkResult(store: History, failures: seq<string>)

  /** The message is stored: it parsed and its put succeeded. */
  predicate Stores(d: HistoryDelivery) {
    d.message.payload.Some? && d.putOk
  }

  /** The message ids of a batch, in order. */
  function MessageIds(batch: seq<HistoryDelivery>): seq<string> {
    Project(batch, MessageIdOf)
  }

  function MessageIdOf(d: HistoryDelivery): string {
    d.message.messageId
  }

  /**
    The entry the batch leaves at `key` when it writes there: that of the
    last stored message with this key.
   */
  function LastWrite(batch: seq<HistoryDelivery>, key: HistoryKey): Option<HistoryEntry> {
    if |batch| == 0 then None
    else
      var d := batch[|batch| - 1];
      if Stores(d) && KeyOf(d.message.payload.value) == key then Some(EntryOf(d.message.payload.value))
      else LastWrite(batch[..|batch| - 1], key)
  }

  /** The ids of the messages that are not stored, in batch order. */
  function FailedMessageIds(batch: seq<HistoryDelivery>): (ids: seq<string>)
    ensures IsSubsequence(ids, MessageIds(batch))
  {
    if |batch| == 0 then []
    else
      var prefix := batch[..|batch| - 1];
      var d := batch[|batch| - 1];
      var prev := FailedMessageIds(prefix);
      assert MessageIds(batch) == MessageIds(prefix) + [d.message.messageId];
      if Stores(d) then
        SubsequenceSkip(prev, MessageIds(prefix), d.message.messageId);
        prev
      else
        SubsequenceKeep(prev, MessageIds(prefix), d.message.messageId);
        prev + [d.message.messageId]
  }

  /** Folds one more message into the batch result. */
  function StepSink(acc: SinkResult, d: HistoryDelivery): SinkResult {
    if Stores(d) then
      var rec := d.message.payload.value;
      SinkResult(acc.store[KeyOf(rec) := EntryOf(rec)], acc.failures)
    else SinkResult(acc.store, acc.failures + [d.message.messageId])
  }

  /** Processes the batch in order, collecting per-item failures. */
  function ProcessBatch(h: History, batch: seq<HistoryDelivery>): (r: SinkResult)
    decreases |batch|
    // Nothing is ever removed; a key holds its last write, or its old entry when not written.
    ensures forall k :: k in r.store <==> k in h || LastWrite(batch, k).Some?
    ensures forall k :: k in r.store ==>
              r.store[k] == (if LastWrite(batch, k).Some? then LastWrite(batch, k).value else h[k])
    // Exactly the messages that do not parse or whose put fails are reported.
    ensures r.failures == FailedMessageIds(batch)
    ensures IsSubsequence(r.failures, MessageIds(batch))
  {
    if |batch| == 0 then SinkResult(h, [])
    else StepSink(ProcessBatch(h, batch[..|batch| - 1]), batch[|batch| - 1])
  }

  /** Processing one more message of a batch is one more StepSink. */
  lemma ProcessBatchUnfold(h: History, batch: seq<HistoryDelivery>, i: int)
    requires 0 <= i < |batch|
    ensures ProcessBatch(h, batch[..i + 1]) == StepSink(ProcessBatch(h, batch[..i]), batch[i])
  {
    assert batch[..i + 1][..i] == batch[..i];
    assert batch[..i + 1][i] == batch[i];
  }

  /** The handler's loop over the messages; it computes exactly ProcessBatch. */
  method Handler(h: History, batch: seq<HistoryDelivery>) returns (r: SinkResult)
    ensures r == ProcessBatch(h, batch)
    ensures h.Keys <= r.store.Keys
  {
    r := SinkResult(h, []);
    for i := 0 to |batch|
      invariant r == ProcessBatch(h, batch[..i])
    {
      ProcessBatchUnfold(h, batch, i);
      r := StepSink(r, batch[i]);
    }
    assert batch[..|batch|] == batch;
  }

  /** Every stored message of the batch leaves an entry at its key. */
  lemma {:induction false} StoredIsPresent(h: History, batch: seq<HistoryDelivery>, i: int)
    requires 0 <= i < |batch| && Stores(batch[i])
    ensures KeyOf(batch[i].message.payload.value) in ProcessBatch(h, batch).store
    decreases |batch|
  {
    var key := KeyOf(batch[i].message.payload.value);
    if i < |batch| - 1 {
      var prefix := batch[..|batch| - 1];
      assert prefix[i] == batch[i];
      StoredIsPresent(h, prefix, i);
    }
  }

  /** A message that does not parse, or whose put fails, is reported by its id. */
  lemma {:induction false} FailedIsReported(h: History, batch: seq<HistoryDelivery>, i: int)
    requires 0 <= i < |batch| && !Stores(batch[i])
    ensures batch[i].message.messageId in ProcessBatch(h, batch).failures
    decreases |batch|
  {
    if i < |batch| - 1 {
      var prefix := batch[..|batch| - 1];
      assert prefix[i] == batch[i];
      FailedIsReported(h, prefix, i);
    }
  }

  /**
    Redelivery is harmless: processing the same batch, with the same
    outcomes, a second time leaves the store as the first pass left it.
   */
  lemma RedeliveryIdempotent(h: History, batch: seq<HistoryDelivery>)
    ensures ProcessBatch(ProcessBatch(h, batch).store, batch).store == ProcessBatch(h, batch).store
  {
    var h1 := ProcessBatch(h, batch).store;
    var h2 := ProcessBatch(h1, batch).store;
    assert h2.Keys == h1.Keys;
    forall k | k in h2
      ensures h2[k] == h1[k]
    {
    }
  }
}
