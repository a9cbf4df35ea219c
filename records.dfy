/**
 * The values the connector reads from the parsed binlog and the delivery
 * records it hands to the runtime: CanalConnectRecord, CanalRecordPartition,
 * CanalRecordOffset, RecordPosition and ConnectRecord.
 */
module CanalRecords {
  import opened Wrappers

  /** One row-level change produced by the entry parser (CanalConnectRecord).
      Only the fields the connector reads are kept, plus the table it belongs to. */
  datatype ChangeRecord = ChangeRecord(
    schemaName: string,
    tableName: string,
    journalName: string,
    executeTime: int,
    gtid: Option<string>,
    currentGtid: Option<string>)

  /** A transaction group: the records the parser keyed by one Xid offset, in stream order. */
  datatype TxGroup = TxGroup(xidOffset: int, records: seq<ChangeRecord>)

  /** CanalRecordPartition: where a batch came from. */
  datatype RecordPartition = RecordPartition(serverUUID: Option<string>, journalName: string, timeStamp: int)

  /** CanalRecordOffset: the resumable position of a batch. */
  datatype RecordOffset = RecordOffset(offset: int, gtid: Option<string>, currentGtid: Option<string>)

  /** RecordPosition: a stored partition/offset pair, used to resume. */
  datatype RecordPosition = RecordPosition(partition: RecordPartition, offset: RecordOffset)

  /** ConnectRecord with its three extensions. `data` is the slice that the
      source serialises to JSON; `timestamp` is the emit time read from the clock. */
  datatype ConnectRecord = ConnectRecord(
    partition: RecordPartition,
    offset: RecordOffset,
    timestamp: int,
    messageId: int,
    batchIndex: int,
    totalBatches: int,
    data: seq<ChangeRecord>)

  /** Why a poll ends with an exception instead of a record list. */
  datatype PollError =
    | NullMessage    // the fetch loop never ran, so `message` is null when it is dereferenced
    | ParseFailure   // a raw entry is not a valid protobuf Entry, or the entry parser throws
    | EmptyGroup     // a group's record list is empty, so `get(size() - 1)` throws

  /** StringUtils.isNotEmpty on a nullable string. */
  predicate IsNotEmpty(s: Option<string>)
  {
    s.Some? && |s.value| > 0
  }
}
