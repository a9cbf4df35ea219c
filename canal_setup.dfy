/**
 * The connector's helpers that prepare the embedded Canal instance: the
 * resume positions and the parameters derived from the configuration
 * (buildCanal), the MySQL/MariaDB classification of the server's version
 * string (checkRDBDataSourceType) and the server UUID query
 * (queryServerUUID).
 */
module CanalSetup {
  import opened Wrappers
  import opened CanalRecords
  import opened CanalConfig

  /** Slave id used when the configuration leaves it unset. */
  const DefaultSlaveId: int := 10000

  /** One resume position in the shape Canal reads: {journalName, timestamp, position[, gtid]}. */
  datatype PositionEntry = PositionEntry(journalName: string, timestamp: int, position: int, gtid: Option<string>)

  /** The CanalParameter fields that the connector sets. */
  datatype CanalParameter = CanalParameter(
    gtidEnable: bool,
    positions: Option<seq<PositionEntry>>,   // None: left unset, so the stream starts at its head
    slaveId: int,
    memoryStorageBufferSize: int,
    defaultConnectionTimeoutInSeconds: int,
    connectionCharset: string,
    connectionCharsetNumber: int,
    receiveBufferSize: int,
    sendBufferSize: int,
    detectingEnable: bool,
    ddlIsolation: bool,
    filterTableError: bool,
    memoryStorageRawEntry: bool)

  /**
   * The position entry of one stored RecordPosition. `replaceGtidRange`
   * stands for EntryParser.replaceGtidRange(gtid, currentGtid, serverUUID),
   * whose range arithmetic is not part of this model.
   */
  function PositionEntryOf(config: SourceConfig, p: RecordPosition,
                           replaceGtidRange: (string, string, Option<string>) -> string): PositionEntry
  {
    var gtid :=
      if config.gtidMode && !config.isMariaDB && p.offset.gtid.Some? then
        Some(if p.offset.currentGtid.Some?
             then replaceGtidRange(p.offset.gtid.value, p.offset.currentGtid.value, config.serverUUID)
             else p.offset.gtid.value)
      else None;
    PositionEntry(p.partition.journalName, p.partition.timeStamp, p.offset.offset, gtid)
  }

  /**
   * A position carries a gtid exactly when GTID mode is on, the source is not
   * flagged as MariaDB and the stored gtid is non-null; the gtid is the
   * stored range, widened by the current gtid when one is stored. The other
   * three fields are copied from the stored partition and offset.
   */
  lemma PositionGtid(config: SourceConfig, p: RecordPosition, replaceGtidRange: (string, string, Option<string>) -> string)
    ensures var e := PositionEntryOf(config, p, replaceGtidRange);
      && (e.gtid.Some? <==> config.gtidMode && !config.isMariaDB && p.offset.gtid.Some?)
      && (e.gtid.Some? && p.offset.currentGtid.None? ==> e.gtid == p.offset.gtid)
      && (e.gtid.Some? && p.offset.currentGtid.Some? ==>
            e.gtid.value == replaceGtidRange(p.offset.gtid.value, p.offset.currentGtid.value, config.serverUUID))
      && e.journalName == p.partition.journalName
      && e.timestamp == p.partition.timeStamp
      && e.position == p.offset.offset
  {
  }

  /** The forEach of buildCanal: one entry per stored position, in order. */
  method BuildPositions(config: SourceConfig, stored: seq<RecordPosition>,
                        replaceGtidRange: (string, string, Option<string>) -> string)
    returns (positions: seq<PositionEntry>)
    ensures |positions| == |stored|
    ensures forall i :: 0 <= i < |stored| ==> positions[i] == PositionEntryOf(config, stored[i], replaceGtidRange)
  {
    positions := [];
    for i := 0 to |stored|
      invariant |positions| == i
      invariant forall j :: 0 <= j < i ==> positions[j] == PositionEntryOf(config, stored[j], replaceGtidRange)
    {
      positions := positions + [PositionEntryOf(config, stored[i], replaceGtidRange)];
    }
  }

  /**
   * buildCanal, restricted to the CanalParameter fields the configuration
   * decides or that bound memory: slave id, GTID mode, resume positions, DDL
   * isolation, table-error filtering and buffer sizes. The fixed run,
   * cluster, meta, HA, index and storage modes, the sourcing type, the
   * database address and credentials, and the Canal id, name and
   * description are not part of this model.
   */
  method BuildCanal(config: SourceConfig, replaceGtidRange: (string, string, Option<string>) -> string)
    returns (parameter: CanalParameter)
    ensures parameter.slaveId == if config.slaveId.Some? then config.slaveId.value else DefaultSlaveId
    ensures parameter.gtidEnable == config.gtidMode
    ensures parameter.positions.None? <==> config.recordPositions.None? || config.recordPositions.value == []
    ensures parameter.positions.Some? ==>
      var stored := config.recordPositions.value;
      |parameter.positions.value| == |stored| &&
      forall i :: 0 <= i < |stored| ==> parameter.positions.value[i] == PositionEntryOf(config, stored[i], replaceGtidRange)
    ensures parameter.ddlIsolation == config.ddlSync && parameter.filterTableError == config.filterTableError
    ensures parameter.memoryStorageBufferSize == 32 * 1024 && !parameter.memoryStorageRawEntry
    ensures parameter.receiveBufferSize == 8 * 1024 && parameter.sendBufferSize == 8 * 1024
    ensures parameter.defaultConnectionTimeoutInSeconds == 30 && !parameter.detectingEnable
    ensures parameter.connectionCharset == "UTF-8" && parameter.connectionCharsetNumber == 33
  {
    var slaveId := DefaultSlaveId;
    if config.slaveId.Some? {
      slaveId := config.slaveId.value;
    }
    var positions: Option<seq<PositionEntry>> := None;
    if config.recordPositions.Some? && config.recordPositions.value != [] {
      var entries := BuildPositions(config, config.recordPositions.value, replaceGtidRange);
      positions := Some(entries);
    }
    parameter := CanalParameter(
      gtidEnable := config.gtidMode,
      positions := positions,
      slaveId := slaveId,
      memoryStorageBufferSize := 32 * 1024,
      defaultConnectionTimeoutInSeconds := 30,
      connectionCharset := "UTF-8",
      connectionCharsetNumber := 33,
      receiveBufferSize := 8 * 1024,
      sendBufferSize := 8 * 1024,
      detectingEnable := false,
      ddlIsolation := config.ddlSync,
      filterTableError := config.filterTableError,
      memoryStorageRawEntry := false);
  }

  /**
   * Storing the partition and offset of an emitted record and resuming from
   * it gives Canal the journal name and execute time of the group's last
   * record and the group's Xid offset.
   */
  lemma ResumeFromEmitted(config: SourceConfig, r: ConnectRecord, last: ChangeRecord, key: int,
                          replaceGtidRange: (string, string, Option<string>) -> string)
    requires r.partition == RecordPartition(config.serverUUID, last.journalName, last.executeTime)
    requires r.offset.offset == key
    requires r.offset.gtid.Some? <==> IsNotEmpty(last.gtid) && IsNotEmpty(last.currentGtid)
    requires r.offset.currentGtid.Some? <==> r.offset.gtid.Some?
    ensures var e := PositionEntryOf(config, RecordPosition(r.partition, r.offset), replaceGtidRange);
      && e.journalName == last.journalName
      && e.timestamp == last.executeTime
      && e.position == key
      && (e.gtid.Some? <==> config.gtidMode && !config.isMariaDB && IsNotEmpty(last.gtid) && IsNotEmpty(last.currentGtid))
  {
  }

  // ---------------------------------------------------------------------------
  // checkRDBDataSourceType

  datatype DataSourceType = MySQL | MariaDB

  /** DataSourceType.MariaDB.getName(). */
  const MariaDbTypeName: string := "MariaDB"

  /** The lower-cased type name that a version string is searched for. */
  const MariaDbName: string := "mariadb"

  /** What the `select version() as rdb_version` probe returned. */
  datatype VersionProbe =
    | ProbeFailed                              // the JDBC call threw
    | NoRow                                    // the result set was empty
    | VersionRow(rdbVersion: Option<string>)   // the column, possibly null

  /** The RuntimeExceptions that make init fail. */
  datatype ProbeError = SelectVersionFailed | SelectServerUuidFailed

  /** String.toLowerCase on one character, for the characters that can lower-case to ASCII letters. */
  function LowerChar(c: char): char
  {
    if 'A' <= c <= 'Z' then (c as int + 32) as char else c
  }

  /** String.toLowerCase, character by character. */
  function ToLower(s: string): string
  {
    seq(|s|, i requires 0 <= i < |s| => LowerChar(s[i]))
  }

  /** Lower-casing twice is lower-casing once. */
  lemma ToLowerIdempotent(s: string)
    ensures ToLower(ToLower(s)) == ToLower(s)
  {
    assert forall i :: 0 <= i < |s| ==> LowerChar(LowerChar(s[i])) == LowerChar(s[i]);
  }

  /** A string without an upper-case ASCII letter is its own lower case. */
  lemma ToLowerKeepsLower(s: string)
    requires forall i :: 0 <= i < |s| ==> !('A' <= s[i] <= 'Z')
    ensures ToLower(s) == s
  {
  }

  /** The type name the source lower-cases is "mariadb" once lower-cased. */
  lemma MariaDbNameLowered()
    ensures ToLower(MariaDbTypeName) == MariaDbName
  {
  }

  /** String.contains. */
  function Contains(s: string, pattern: string): bool
    decreases |s|
  {
    if |s| < |pattern| then false
    else s[..|pattern|] == pattern || Contains(s[1..], pattern)
  }

  /** Character.isWhitespace: the Unicode space separators other than the no-break ones, and the ASCII controls it lists. */
  predicate IsWhitespace(c: char)
  {
    var n := c as int;
    n == 0x20 || (0x09 <= n <= 0x0D) || (0x1C <= n <= 0x1F) || n == 0x1680
    || (0x2000 <= n <= 0x2006) || (0x2008 <= n <= 0x200A) || n == 0x2028 || n == 0x2029
    || n == 0x205F || n == 0x3000
  }

  /** StringUtils.isNotBlank. */
  predicate IsNotBlank(s: Option<string>)
  {
    s.Some? && exists i :: 0 <= i < |s.value| && !IsWhitespace(s.value[i])
  }

  /** The classification of a version string. */
  function ClassifyVersion(rdbVersion: Option<string>): DataSourceType
  {
    if IsNotBlank(rdbVersion) && Contains(ToLower(rdbVersion.value), ToLower(MariaDbTypeName)) then MariaDB else MySQL
  }

  /** checkRDBDataSourceType, given the outcome of its SQL probe. */
  function CheckRdbDataSourceType(probe: VersionProbe): Result<DataSourceType, ProbeError>
  {
    match probe
    case ProbeFailed => Err(SelectVersionFailed)
    case NoRow => Ok(MySQL)
    case VersionRow(v) => Ok(ClassifyVersion(v))
  }

  /** The characters of `s` from `i` on match `pattern` when lower-cased. */
  predicate MatchesIgnoringCase(s: string, pattern: string, i: int)
  {
    0 <= i && i + |pattern| <= |s| && forall j :: 0 <= j < |pattern| ==> LowerChar(s[i + j]) == pattern[j]
  }

  lemma {:induction false} ContainsLower(s: string, pattern: string)
    ensures Contains(ToLower(s), pattern) <==> exists i :: MatchesIgnoringCase(s, pattern, i)
    decreases |s|
  {
    var t := ToLower(s);
    if s == [] {
      if |pattern| == 0 {
        assert MatchesIgnoringCase(s, pattern, 0);
      }
    } else if |s| >= |pattern| {
      assert ToLower(s)[1..] == ToLower(s[1..]);
      ContainsLower(s[1..], pattern);
      if t[..|pattern|] == pattern {
        assert MatchesIgnoringCase(s, pattern, 0);
      }
      if exists i :: MatchesIgnoringCase(s[1..], pattern, i) {
        var i :| MatchesIgnoringCase(s[1..], pattern, i);
        assert MatchesIgnoringCase(s, pattern, i + 1);
      }
      if exists i :: MatchesIgnoringCase(s, pattern, i) {
        var i :| MatchesIgnoringCase(s, pattern, i);
        if i == 0 {
          assert t[..|pattern|] == pattern;
        } else {
          assert MatchesIgnoringCase(s[1..], pattern, i - 1);
        }
      }
    }
  }

  /**
   * A version string is classified as MariaDB exactly when it contains
   * "mariadb" in any mix of upper and lower case; everything else, a null or
   * blank string included, is MySQL.
   */
  lemma ClassifyMariaDbIff(rdbVersion: Option<string>)
    ensures ClassifyVersion(rdbVersion) == MariaDB <==>
            rdbVersion.Some? && exists i :: MatchesIgnoringCase(rdbVersion.value, MariaDbName, i)
  {
    if rdbVersion.Some? {
      var v := rdbVersion.value;
      MariaDbNameLowered();
      ContainsLower(v, MariaDbName);
      if exists i :: MatchesIgnoringCase(v, MariaDbName, i) {
        var i :| MatchesIgnoringCase(v, MariaDbName, i);
        assert !IsWhitespace(v[i]) by {
          assert LowerChar(v[i + 0]) == MariaDbName[0];
        }
      }
    }
  }

  /** A probe that returns no row, or a null or blank version, classifies as MySQL. */
  lemma BlankIsMySql(probe: VersionProbe)
    requires probe.NoRow? || (probe.VersionRow? && !IsNotBlank(probe.rdbVersion))
    ensures CheckRdbDataSourceType(probe) == Ok(MySQL)
  {
  }

  // ---------------------------------------------------------------------------
  // queryServerUUID

  const SelectServerUuidInMariaDb: string := "SELECT @@global.server_id as server_uuid"
  const ShowServerUuidInMySql: string := "SELECT @@server_uuid as server_uuid"

  /** What a server UUID query returned. */
  datatype UuidProbe =
    | UuidQueryFailed                          // the JDBC call threw
    | UuidNoRow                                // the result set was empty
    | UuidRow(serverUuid: Option<string>)      // the column, possibly null

  /** The UUID query of a data source type: MariaDB has no server_uuid and is asked for its server_id. */
  function ServerUuidQuery(t: DataSourceType): string
  {
    if t == MariaDB then SelectServerUuidInMariaDb else ShowServerUuidInMySql
  }

  /** queryServerUUID, given what the database answers to each query; an empty result set gives "". */
  function QueryServerUuid(t: DataSourceType, run: string -> UuidProbe): Result<Option<string>, ProbeError>
  {
    match run(ServerUuidQuery(t))
    case UuidQueryFailed => Err(SelectServerUuidFailed)
    case UuidNoRow => Ok(Some(""))
    case UuidRow(v) => Ok(v)
  }

  /** The two probes of init: the data source type, then the server UUID with that type's query. */
  function ProbeServer(version: VersionProbe, run: string -> UuidProbe): Result<Option<string>, ProbeError>
  {
    match CheckRdbDataSourceType(version)
    case Err(e) => Err(e)
    case Ok(t) => QueryServerUuid(t, run)
  }

  /**
   * The server_id query is the one sent exactly when the version string
   * names MariaDB in any case; every other answer to the version probe sends
   * the server_uuid query.
   */
  lemma UuidQueryFollowsType(version: VersionProbe)
    requires !version.ProbeFailed?
    ensures CheckRdbDataSourceType(version).Ok?
    ensures ServerUuidQuery(CheckRdbDataSourceType(version).value) == SelectServerUuidInMariaDb <==>
            version.VersionRow? && version.rdbVersion.Some? &&
            exists i :: MatchesIgnoringCase(version.rdbVersion.value, MariaDbName, i)
  {
    if version.VersionRow? {
      ClassifyMariaDbIff(version.rdbVersion);
    }
  }

  /**
   * The probes fail exactly when the version query throws, or when the UUID
   * query of the detected type throws; the version failure comes first.
   */
  lemma ProbeServerFailsIff(version: VersionProbe, run: string -> UuidProbe)
    ensures ProbeServer(version, run) == Err(SelectVersionFailed) <==> version.ProbeFailed?
    ensures ProbeServer(version, run) == Err(SelectServerUuidFailed) <==>
            !version.ProbeFailed? && run(ServerUuidQuery(CheckRdbDataSourceType(version).value)).UuidQueryFailed?
  {
  }
}
