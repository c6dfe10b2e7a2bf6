/** The batches that the shop plugin sends and the server answers. */
module WooBatches {
  import opened Wrappers
  import opened Intervals
  import opened Projections
  import opened Domain

  type Uuid = nat

  /** `revision` and `data` are absent when the record's times or amounts do not parse. */
  datatype Record = Record(kind: string, sourceId: string, revision: Option<Time>, data: Option<Data>)

  /** What identifies a page: the envelope without its request id and sending time. */
  datatype Content = Content(scan: Uuid, page: nat, window: Interval, finalPage: bool, records: seq<Record>)

  datatype Envelope = Envelope(requestId: Uuid, sentAt: Time, content: Content)

  datatype Status = StatusAccepted | StatusDuplicate | Rejected

  datatype RecordResult = RecordResult(sourceId: string, kind: string, status: Status)

  datatype Ack = Ack(requestId: Uuid, results: seq<RecordResult>, coverageAdvanced: bool, serverTime: Time)
}
