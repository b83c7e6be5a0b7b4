/**
  The history query endpoint: returns every stored record of one user. It
  only reads the store. The outcome of the DynamoDB query is an input.
 */
module GetOperationsHistoryByUser {
  import opened Base
  import opened HistoryStore

  datatype HistoryResponse = HistoryResponse(
    statusCode: int,
    code: int,
    data: Option<set<HistoryRecord>>,
    message: Option<string>)

  /** The records of one user, reassembled from their keys and entries. */
  function RecordsOf(h: History, userId: string): (recs: set<HistoryRecord>)
    ensures forall rec :: rec in recs <==>
              rec.userId == userId && KeyOf(rec) in h && h[KeyOf(rec)] == EntryOf(rec)
  {
    var recs := set k | k in h && k.userId == userId :: RecordAt(k, h[k]);
    assert forall rec: HistoryRecord | rec.userId == userId && KeyOf(rec) in h && h[KeyOf(rec)] == EntryOf(rec) ::
      rec == RecordAt(KeyOf(rec), h[KeyOf(rec)]) && rec in recs;
    recs
  }

  /**
    Success answers 200 with exactly the user's records; a missing path
    parameter or a failing query answers 500.
   */
  function Handler(h: History, userId: Option<string>, queryOk: bool): (r: HistoryResponse)
    ensures r.statusCode == 200 <==> userId.Some? && queryOk
    ensures r.statusCode == 200 ==>
      && r.code == 200 && r.data.Some? && r.message == None
      && forall rec :: rec in r.data.value <==>
           rec.userId == userId.value && KeyOf(rec) in h && h[KeyOf(rec)] == EntryOf(rec)
    ensures r.statusCode != 200 ==> r == HistoryResponse(500, 500, None, Some("Something went wrong"))
  {
    match userId
    case None => HistoryResponse(500, 500, None, Some("Something went wrong"))
    case Some(u) =>
      if !queryOk then HistoryResponse(500, 500, None, Some("Something went wrong"))
      else HistoryResponse(200, 200, Some(RecordsOf(h, u)), None)
  }
}
