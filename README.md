# Canal source increment connector — a verified model

This project models the core of EventMesh's Canal source connector,
`CanalSourceIncrementConnector`. The connector embeds a Canal server that
reads a MySQL or MariaDB binlog. It subscribes with a client identity whose
filter names the configured tables. Each poll fetches one message, turns the
message's change groups into `ConnectRecord`s and acknowledges the message.

The model covers these parts of the connector:

- **Table filter** (`TableFilter`): `buildTableFilters` is a StringBuilder
  loop. It is specified by `FilterSpec`, the entries `schema\.table` of every
  configured table joined by commas.
- **Backoff** (`Backoff`): `applyWait` decides between yielding and parking.
  The `emptyTimes++` counter is a Java `int` and wraps like one.
- **Batching** (`Batching`): the split loop of `poll` cuts a group's records
  into slices of at most `batchSize`.
- **Record assembly** (`BatchAssembler`): for each change group, keyed by its
  Xid offset, the partition and the offset come from the group's last
  record. The group gets one record per slice, carrying `messageId`,
  `batchIndex` and `totalBatches`.
- **Canal setup** (`CanalSetup`): the connector's own helpers that prepare
  the embedded Canal instance. `buildCanal` is `BuildCanal`, with its
  position loop `BuildPositions` and one position `PositionEntryOf`: the
  resume positions, the gtid choice, the slave id default and the fixed
  constants. `checkRDBDataSourceType` is `CheckRdbDataSourceType` (the
  MySQL/MariaDB classification `ClassifyVersion`), `queryServerUUID` is
  `QueryServerUuid`, and `ProbeServer` chains the two as `init` does, with
  the exceptions both throw. The specification functions are covered by
  the lemma rows below.
- **Connector** (`Connector`): the connector object.
  - `init` builds the filter, keeps the field filter, probes the server and
    records its UUID, and fails when a probe throws.
  - `start` and `stop` return at once when there is nothing to do.
  - `poll` fetches while running until a message is non-empty, builds the
    records and then acknowledges the message exactly once.

The embedded server is represented by the sequence of responses it will give
(`pending`). A `None` response is a null message; a message with id -1 is
empty. Every call the connector makes to the server or to the scheduler, and
every write of `running`, is logged in a ghost `trace`. The lemmas about
acknowledgements and waits are stated over that trace.

## Model

Every source cell refers to
`eventmesh-connectors/eventmesh-connector-canal/src/main/java/org/apache/eventmesh/connector/canal/source/connector/CanalSourceIncrementConnector.java`, written out in full in each row.

| member | source | states |
|---|---|---|
| TableFilter.BuildTableFilters | eventmesh-connectors/eventmesh-connector-canal/src/main/java/org/apache/eventmesh/connector/canal/source/connector/CanalSourceIncrementConnector.java:229-246 | The builder loop over databases and their tables produces exactly the comma-joined entries of all tables, in configuration order. |
| TableFilter.AppendTables | eventmesh-connectors/eventmesh-connector-canal/src/main/java/org/apache/eventmesh/connector/canal/source/connector/CanalSourceIncrementConnector.java:233-243 | The inner loop extends the join of the entries so far by one database's tables. A comma is added only when the builder is non-empty. |
| TableFilter.JoinSnoc | eventmesh-connectors/eventmesh-connector-canal/src/main/java/org/apache/eventmesh/connector/canal/source/connector/CanalSourceIncrementConnector.java:235-242 | Appending an entry adds a comma before it unless it is the first. |
| TableFilter.FilterEmptyIff | eventmesh-connectors/eventmesh-connector-canal/src/main/java/org/apache/eventmesh/connector/canal/source/connector/CanalSourceIncrementConnector.java:229-245 | The filter is the empty string exactly when no table is configured. |
| TableFilter.FilterBoundaries | eventmesh-connectors/eventmesh-connector-canal/src/main/java/org/apache/eventmesh/connector/canal/source/connector/CanalSourceIncrementConnector.java:234-243 | There is no leading or trailing comma: the filter starts with the first table's entry and ends with the last table's entry. |
| TableFilter.FilterRoundTrip | eventmesh-connectors/eventmesh-connector-canal/src/main/java/org/apache/eventmesh/connector/canal/source/connector/CanalSourceIncrementConnector.java:234-243 | When no name holds a comma, cutting the filter at commas gives back one `schema\.table` entry per table, in order. |
| Backoff.Inc | eventmesh-connectors/eventmesh-connector-canal/src/main/java/org/apache/eventmesh/connector/canal/source/connector/CanalSourceIncrementConnector.java:376 | `emptyTimes++` on a Java int gives the one int that agrees with the mathematical x + 1 modulo 2^32, as the Java language requires of int addition. |
| Backoff.ApplyWait | eventmesh-connectors/eventmesh-connector-canal/src/main/java/org/apache/eventmesh/connector/canal/source/connector/CanalSourceIncrementConnector.java:455-462 | It yields exactly when emptyTimes is at most 3. Otherwise it parks for a duration above 3 ms and at most maxEmptyTimes (10) ms. |
| Backoff.WaitBounded | eventmesh-connectors/eventmesh-connector-canal/src/main/java/org/apache/eventmesh/connector/canal/source/connector/CanalSourceIncrementConnector.java:94 | No wait is longer than maxEmptyTimes milliseconds. |
| Backoff.WaitMonotone | eventmesh-connectors/eventmesh-connector-canal/src/main/java/org/apache/eventmesh/connector/canal/source/connector/CanalSourceIncrementConnector.java:455-462 | A larger emptyTimes never waits less. |
| Backoff.CounterCounts | eventmesh-connectors/eventmesh-connector-canal/src/main/java/org/apache/eventmesh/connector/canal/source/connector/CanalSourceIncrementConnector.java:370-376 | Until it overflows, the counter passed to applyWait runs 0, 1, 2, … over consecutive empty fetches. |
| Backoff.StreakSchedule | eventmesh-connectors/eventmesh-connector-canal/src/main/java/org/apache/eventmesh/connector/canal/source/connector/CanalSourceIncrementConnector.java:455-462 | The (n+1)-th empty fetch in a row yields when n ≤ 3. Otherwise it parks for min(n, 10) ms. |
| Backoff.CounterWraps | eventmesh-connectors/eventmesh-connector-canal/src/main/java/org/apache/eventmesh/connector/canal/source/connector/CanalSourceIncrementConnector.java:370-376 | After 2^31 empty fetches in a row the counter is Integer.MIN_VALUE, and the backoff yields again. |
| Batching.Split | eventmesh-connectors/eventmesh-connector-canal/src/main/java/org/apache/eventmesh/connector/canal/source/connector/CanalSourceIncrementConnector.java:430-435 | The loop with step batchSize, cutting out subList(i, min(i + batchSize, size)), yields the slicing `Slices`. |
| Batching.SlicesFlatten | eventmesh-connectors/eventmesh-connector-canal/src/main/java/org/apache/eventmesh/connector/canal/source/connector/CanalSourceIncrementConnector.java:430-435 | The slices concatenate back to the record list. |
| Batching.SlicesShape | eventmesh-connectors/eventmesh-connector-canal/src/main/java/org/apache/eventmesh/connector/canal/source/connector/CanalSourceIncrementConnector.java:431-434 | Every slice is non-empty and at most batchSize long. All but the last hold exactly batchSize records. |
| Batching.SlicesCount | eventmesh-connectors/eventmesh-connector-canal/src/main/java/org/apache/eventmesh/connector/canal/source/connector/CanalSourceIncrementConnector.java:431-435 | The number of slices k is the least with N ≤ k·batchSize: (k−1)·batchSize < N ≤ k·batchSize. |
| Batching.SlicesCeiling | eventmesh-connectors/eventmesh-connector-canal/src/main/java/org/apache/eventmesh/connector/canal/source/connector/CanalSourceIncrementConnector.java:431-435 | The number of slices is (N + batchSize − 1) / batchSize. |
| Batching.SliceAt | eventmesh-connectors/eventmesh-connector-canal/src/main/java/org/apache/eventmesh/connector/canal/source/connector/CanalSourceIncrementConnector.java:432-433 | Slice k is the records from k·batchSize to min(k·batchSize + batchSize, N). |
| BatchAssembler.GroupBatches | eventmesh-connectors/eventmesh-connector-canal/src/main/java/org/apache/eventmesh/connector/canal/source/connector/CanalSourceIncrementConnector.java:413-444 | A group with N records gives ceil(N/batchSize) records. They share one partition (server UUID, plus the last record's journal name and execute time) and one offset (the group's Xid key). They carry the message id, batchIndex 0..k−1 and totalBatches k, and the clock reading for each record. Each payload holds 1..batchSize rows, and the payloads concatenate to the group's rows. |
| BatchAssembler.GroupGtid | eventmesh-connectors/eventmesh-connector-canal/src/main/java/org/apache/eventmesh/connector/canal/source/connector/CanalSourceIncrementConnector.java:420-427 | The offset carries gtid and currentGtid exactly when both are non-empty on the last record, and then they are that record's values. |
| BatchAssembler.GroupPayloads | eventmesh-connectors/eventmesh-connector-canal/src/main/java/org/apache/eventmesh/connector/canal/source/connector/CanalSourceIncrementConnector.java:430-444 | The payloads of one group's records concatenate to the group's rows. |
| BatchAssembler.AssembleFailsIff | eventmesh-connectors/eventmesh-connector-canal/src/main/java/org/apache/eventmesh/connector/canal/source/connector/CanalSourceIncrementConnector.java:413-415 | Building the records fails exactly when some group has no record, because `get(size() - 1)` throws. |
| BatchAssembler.AssemblePreservesRecords | eventmesh-connectors/eventmesh-connector-canal/src/main/java/org/apache/eventmesh/connector/canal/source/connector/CanalSourceIncrementConnector.java:411-445 | The payloads of all emitted records concatenate to all the groups' rows in the parser's order. Nothing is lost, duplicated or reordered. |
| CanalSetup.PositionGtid | eventmesh-connectors/eventmesh-connector-canal/src/main/java/org/apache/eventmesh/connector/canal/source/connector/CanalSourceIncrementConnector.java:284-301 | A position gets a gtid exactly when GTID mode is on, the source is not flagged MariaDB and the stored gtid is non-null. The gtid is the stored range, or the range widened by the current gtid when one is stored. Journal name, timestamp and position are copied. |
| CanalSetup.BuildPositions | eventmesh-connectors/eventmesh-connector-canal/src/main/java/org/apache/eventmesh/connector/canal/source/connector/CanalSourceIncrementConnector.java:282-304 | One position entry per stored RecordPosition, in order. |
| CanalSetup.BuildCanal | eventmesh-connectors/eventmesh-connector-canal/src/main/java/org/apache/eventmesh/connector/canal/source/connector/CanalSourceIncrementConnector.java:248-320 | The slaveId is the configured one, or 10000 when unset. Positions are set exactly when the stored list is non-null and non-empty, one per stored position. gtidEnable, ddlIsolation and filterTableError follow the configuration. The buffer sizes, timeout, charset and disabled flags are the fixed constants. |
| CanalSetup.ResumeFromEmitted | eventmesh-connectors/eventmesh-connector-canal/src/main/java/org/apache/eventmesh/connector/canal/source/connector/CanalSourceIncrementConnector.java:286-290 | Resuming from the partition and offset of an emitted record gives Canal the last record's journal name and execute time, and the group's Xid offset. |
| CanalSetup.ContainsLower | eventmesh-connectors/eventmesh-connector-canal/src/main/java/org/apache/eventmesh/connector/canal/source/connector/CanalSourceIncrementConnector.java:216 | The lower-cased string contains a lower-case pattern exactly when some position of the original matches it case-insensitively. |
| CanalSetup.ClassifyMariaDbIff | eventmesh-connectors/eventmesh-connector-canal/src/main/java/org/apache/eventmesh/connector/canal/source/connector/CanalSourceIncrementConnector.java:214-218 | A version is MariaDB exactly when it is non-null and contains "mariadb" in any case. Everything else is MySQL. |
| CanalSetup.BlankIsMySql | eventmesh-connectors/eventmesh-connector-canal/src/main/java/org/apache/eventmesh/connector/canal/source/connector/CanalSourceIncrementConnector.java:212-226 | No result row, or a null or blank version, classifies as MySQL. |
| CanalSetup.ToLowerIdempotent | eventmesh-connectors/eventmesh-connector-canal/src/main/java/org/apache/eventmesh/connector/canal/source/connector/CanalSourceIncrementConnector.java:216 | Lower-casing twice is lower-casing once. |
| CanalSetup.ToLowerKeepsLower | eventmesh-connectors/eventmesh-connector-canal/src/main/java/org/apache/eventmesh/connector/canal/source/connector/CanalSourceIncrementConnector.java:216 | A string with no upper-case letter is unchanged by lower-casing. |
| CanalSetup.UuidQueryFollowsType | eventmesh-connectors/eventmesh-connector-canal/src/main/java/org/apache/eventmesh/connector/canal/source/connector/CanalSourceIncrementConnector.java:184-188 | Once the version probe has an answer, the server_id query is sent exactly when the version contains "mariadb" in any case. Otherwise the server_uuid query is sent. |
| CanalSetup.ProbeServerFailsIff | eventmesh-connectors/eventmesh-connector-canal/src/main/java/org/apache/eventmesh/connector/canal/source/connector/CanalSourceIncrementConnector.java:132-133 | The probes of init fail with the version error exactly when the version query throws. They fail with the UUID error exactly when the version query succeeded and the UUID query of the detected type throws. |
| Connector.FirstNonEmpty | eventmesh-connectors/eventmesh-connector-canal/src/main/java/org/apache/eventmesh/connector/canal/source/connector/CanalSourceIncrementConnector.java:375 | The index of the first response that is neither null nor id −1. All responses before it are empty. |
| Connector.PollAcksOnce | eventmesh-connectors/eventmesh-connector-canal/src/main/java/org/apache/eventmesh/connector/canal/source/connector/CanalSourceIncrementConnector.java:448-449 | The fetch phase acknowledges nothing, and a successful poll acknowledges exactly once. |
| Connector.WaitScheduleAt | eventmesh-connectors/eventmesh-connector-canal/src/main/java/org/apache/eventmesh/connector/canal/source/connector/CanalSourceIncrementConnector.java:370-376 | The blocking-mode schedule of a streak of n empty fetches has n decisions, and the i-th is applyWait of the i-th counter value. |
| Connector.EmptyFetchWaits | eventmesh-connectors/eventmesh-connector-canal/src/main/java/org/apache/eventmesh/connector/canal/source/connector/CanalSourceIncrementConnector.java:372-390 | In blocking mode (batchTimeout < 0) the waits after n empty fetches are exactly that schedule. In timeout mode empty fetches are retried with no wait. |
| Connector.EmptyMessageAcked | eventmesh-connectors/eventmesh-connector-canal/src/main/java/org/apache/eventmesh/connector/canal/source/connector/CanalSourceIncrementConnector.java:411-449 | A message whose parsed map is empty yields no record and is still acknowledged. |
| Connector.ProcessPreservesRecords | eventmesh-connectors/eventmesh-connector-canal/src/main/java/org/apache/eventmesh/connector/canal/source/connector/CanalSourceIncrementConnector.java:407-451 | The records a poll returns carry every row of the message, in order. |
| Connector.BuildRecords | eventmesh-connectors/eventmesh-connector-canal/src/main/java/org/apache/eventmesh/connector/canal/source/connector/CanalSourceIncrementConnector.java:407-445 | The nested group and slice loops produce exactly `Assemble`, or the empty-group error. |
| Connector.EmitGroup | eventmesh-connectors/eventmesh-connector-canal/src/main/java/org/apache/eventmesh/connector/canal/source/connector/CanalSourceIncrementConnector.java:414-444 | The body of the group loop appends exactly the group's records: one per slice, with the partition and offset of the last record. |
| Connector.CanalSourceIncrementConnector.Init | eventmesh-connectors/eventmesh-connector-canal/src/main/java/org/apache/eventmesh/connector/canal/source/connector/CanalSourceIncrementConnector.java:116-139 | Restored positions replace the configured ones when present, and the filter is `FilterSpec` of the databases. The field filter is kept only if non-empty. The server UUID is set only if the query returned a non-empty one. The connector is not running. |
| Connector.Initialize | eventmesh-connectors/eventmesh-connector-canal/src/main/java/org/apache/eventmesh/connector/canal/source/connector/CanalSourceIncrementConnector.java:116-139 | init fails with the probes' error exactly when a probe throws. Otherwise it yields a fresh, valid, stopped connector: restored positions replace the configured ones when present, the server UUID is the probed one when non-empty and the configured one otherwise, the field filter is kept only if non-empty, and there is no client identity, no effect yet and the given server responses. |
| Connector.CanalSourceIncrementConnector.Start | eventmesh-connectors/eventmesh-connector-canal/src/main/java/org/apache/eventmesh/connector/canal/source/connector/CanalSourceIncrementConnector.java:328-340 | Start does nothing when already running. Otherwise it starts the table manager, the server and the destination, subscribes with (destination, clientId, filter) and sets running, in that order. |
| Connector.CanalSourceIncrementConnector.Stop | eventmesh-connectors/eventmesh-connector-canal/src/main/java/org/apache/eventmesh/connector/canal/source/connector/CanalSourceIncrementConnector.java:359-366 | Stop does nothing when not running. Otherwise it clears running first, then stops the destination and the server. |
| Connector.CanalSourceIncrementConnector.FetchMessage | eventmesh-connectors/eventmesh-connector-canal/src/main/java/org/apache/eventmesh/connector/canal/source/connector/CanalSourceIncrementConnector.java:370-390 | While running, it fetches until the first non-empty response and consumes exactly the responses up to it. Each empty fetch is logged with its wait in blocking mode, or with no wait in timeout mode. When not running, nothing is fetched and the message stays null. |
| Connector.CanalSourceIncrementConnector.FetchBlocking | eventmesh-connectors/eventmesh-connector-canal/src/main/java/org/apache/eventmesh/connector/canal/source/connector/CanalSourceIncrementConnector.java:373-380 | The loop without a timeout consumes the responses up to the first non-empty one. After each empty fetch it logs applyWait of the running counter. |
| Connector.CanalSourceIncrementConnector.FetchWithTimeout | eventmesh-connectors/eventmesh-connector-canal/src/main/java/org/apache/eventmesh/connector/canal/source/connector/CanalSourceIncrementConnector.java:382-389 | The loop with a timeout consumes the responses up to the first non-empty one and retries each empty fetch at once. |
| Connector.CanalSourceIncrementConnector.Poll | eventmesh-connectors/eventmesh-connector-canal/src/main/java/org/apache/eventmesh/connector/canal/source/connector/CanalSourceIncrementConnector.java:369-452 | The outcome and the trace are fixed: the fetches, then the records of the first non-empty message, then one ack of that message. A parse failure or an empty group throws before the ack. When not running, the null message throws. |
| Connector.StartStopTwice | eventmesh-connectors/eventmesh-connector-canal/src/main/java/org/apache/eventmesh/connector/canal/source/connector/CanalSourceIncrementConnector.java:328-366 | start and stop are idempotent: start, start, stop, stop has the effect of one start and one stop. |

## Left out

- The Canal server, its HA controller and the instance generator (lines
  142-177) are not modelled. The server is the sequence of responses it
  will give. The generator hands Canal the `buildCanal` result and the
  table filter. It sets ROW binlog format and FULL row image, turns off
  parallel parsing, passes a non-empty field filter on, and starts the HA
  controller. None of these settings is modelled.
- JDBC connections are not modelled. The version query's answer is a
  `VersionProbe` value and the UUID query's answers are the function `run`
  from SQL text to `UuidProbe`. `Connector.Initialize` throws (returns
  `Err`) exactly where one of the two probes throws.
- Calls into the Canal server, the table manager and the connection pool
  are assumed to return normally. The exceptions the source passes on from
  them are not modelled: `ConfigUtil.parse`, `initSourceConnection` and
  `new RdbTableMgr` in `init` (lines 119, 130, 140); the four starts and
  the subscribe in `start` (lines 332-337), after which `running` would
  stay false; the two stops in `stop` (lines 364-365); and `getWithoutAck`
  and `ack` in `poll` (lines 374, 384, 449). A throwing `ack` would lose
  the records already built and leave the message unacknowledged. The
  model's `Start` always ends running and its `Poll` always returns the
  records after the ack.
- CanalSetup.BuildCanal: the fixed run, cluster, meta, HA, index and
  storage modes, the MySQL sourcing type, the database address and
  credentials, and the Canal id, name and description (lines 255-269) are
  not modelled.
- CanalSetup.ClassifyVersion: `DataSourceType.MariaDB.getName()` is taken
  to be "MariaDB". DataSourceType is not part of this model.
- Protobuf decoding of raw entries and `EntryParser.parse` are external. A
  message carries its parsed groups as a sequence in the returned map's
  iteration order, or `None` when an entry fails to parse.
- `EntryParser.replaceGtidRange` is a function parameter. Its range
  arithmetic is not modelled.
- JSON serialisation of the payload and of the position entries is not
  modelled. The payload is kept as the slice of change records, and a
  position entry as its four fields.
- Connector.CanalSourceIncrementConnector.Poll: the messageId extension is
  kept as the numeric id rather than its `String.valueOf` text.
- `System.currentTimeMillis()` is the `clock` parameter, read once per
  emitted record. `Thread.yield` and `parkNanos` are `WaitDecision` values.
  The park lasts newEmptyTimes × 10^6 ns, which is kept as milliseconds.
- Connector.CanalSourceIncrementConnector.Poll: when every response the
  server holds is empty, the outcome is `StillWaiting`. The source goes on
  fetching forever instead.
- Connector.CanalSourceIncrementConnector.Poll: `running` is volatile, and a
  concurrent `stop` during a poll is not modelled. In the source, a stop
  between fetches can end the loop after an empty message. That message
  (id −1) is then processed and acknowledged.
- Connector.CanalSourceIncrementConnector.Poll: requires batchSize ≥ 1.
  Zero makes the split loop spin forever, and a negative size throws in
  `subList`.
- Batching.Split: the overflow of `i + batchSize` is not modelled. It only
  happens for lists longer than 2^30 records.
- CanalSetup.ClassifyMariaDbIff: lower-casing is ASCII only, as in a
  non-Turkish default locale. Full Unicode case mapping is not modelled.
- The `Set` of databases and tables is a sequence in its iteration order.
- Null journal names and timestamps of stored positions are not modelled.
  Every stored field is present.
- The field filter is only stored. Its use by the event parser belongs to
  Canal.
- The `commit`, `onException`, `name` and `configClass` members have no
  behaviour to model.

Behaviours of the code that a reader might not expect, all modelled
as written:

- The acknowledgement happens inside `poll`, after the records are built
  but before the caller receives them. Canal's cursor and redelivery are
  not part of this model; by Canal's ack semantics, records lost after
  `poll` returns would not be redelivered.
- `buildCanal` gates the gtid on the configuration's `isMariaDB` flag, not
  on the type detected by `checkRDBDataSourceType`.
- An empty table configuration gives an empty filter, not a match-all
  pattern.
- Groups are emitted in the parser map's iteration order. No ascending order
  of Xid offsets is assumed.
