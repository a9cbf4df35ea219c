/** The connector's configuration (CanalSourceIncrementConfig and the definitions it holds). */
module CanalConfig {
  import opened Wrappers
  import opened CanalRecords

  /** RdbTableDefinition: one table to capture. */
  datatype TableDefinition = TableDefinition(schemaName: string, tableName: string)

  /** RdbDBDefinition: a database and its tables, in the set's iteration order. */
  datatype DbDefinition = DbDefinition(schemaName: string, tables: seq<TableDefinition>)

  datatype SourceConfig = SourceConfig(
    databases: seq<DbDefinition>,
    destination: string,
    clientId: int,
    batchSize: int,
    batchTimeout: int,                              // negative: block without a timeout
    gtidMode: bool,
    isMariaDB: bool,
    serverUUID: Option<string>,
    slaveId: Option<int>,
    recordPositions: Option<seq<RecordPosition>>,   // None: the list is null
    ddlSync: bool,
    filterTableError: bool,
    fieldFilter: Option<string>)
}
