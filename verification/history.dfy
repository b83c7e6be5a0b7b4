/**
  The operations-history table, keyed by partition key userId and sort key
  timestamp, and the execution record that the broker handler enqueues and
  the history sink persists.
 */
module HistoryStore {

  /** An executed order as it travels on the history queue. */
  datatype HistoryRecord = HistoryRecord(
    userId: string,
    activeSymbol: string,
    action: string,
    quantity: int,
    timestamp: string)

  datatype HistoryKey = HistoryKey(userId: string, timestamp: string)

  /** The non-key attributes of a stored history row. */
  datatype HistoryEntry = HistoryEntry(action: string, activeSymbol: string, quantity: int)

  type History = map<HistoryKey, HistoryEntry>

  function KeyOf(rec: HistoryRecord): HistoryKey {
    HistoryKey(rec.userId, rec.timestamp)
  }

  function EntryOf(rec: HistoryRecord): HistoryEntry {
    HistoryEntry(rec.action, rec.activeSymbol, rec.quantity)
  }

  /** Reassembles the full record stored at `key`. */
  function RecordAt(key: HistoryKey, e: HistoryEntry): (rec: HistoryRecord)
    ensures KeyOf(rec) == key && EntryOf(rec) == e
  {
    HistoryRecord(key.userId, e.activeSymbol, e.action, e.quantity, key.timestamp)
  }
}
