/**
 * The records of `internal/model/migration.go`: the task status enumeration,
 * data-source configurations, the persisted migration task, its progress view,
 * the per-table result, and the JSON-backed `StringSlice` column type.
 *
 * JSON text is modelled abstractly: a `Json<T>` is either the encoding of a
 * value (what `json.Marshal` produces) or text that does not decode.
 */
module MigrationModel {
  import opened Wrappers
  import opened Errs

  /** JSON text holding a `T`: `Encoded(v)` is `json.Marshal(v)`, `Malformed(raw)` fails to decode. */
  datatype Json<T> = Encoded(value: T) | Malformed(raw: string)

  /** `json.Unmarshal`. */
  function Decode<T>(j: Json<T>): (r: Result<T, Error>)
    ensures r.Ok? <==> j.Encoded?
    ensures j.Encoded? ==> r.value == j.value
  {
    match j
    case Encoded(v) => Ok(v)
    case Malformed(_) => Err(Failure("invalid character in JSON input"))
  }

  /** Timestamps (`time.Now()`) are opaque inputs. */
  type Time = nat

  /** `MigrationStatus`: exactly five values. */
  datatype MigrationStatus = Pending | Running | Completed | Failed | Cancelled

  /** The stored text of a status. */
  function StatusText(s: MigrationStatus): string
  {
    match s
    case Pending => "pending"
    case Running => "running"
    case Completed => "completed"
    case Failed => "failed"
    case Cancelled => "cancelled"
  }

  /** Reading a stored status back; any other text is not a status. */
  function ParseStatus(t: string): Option<MigrationStatus>
  {
    if t == "pending" then Some(Pending)
    else if t == "running" then Some(Running)
    else if t == "completed" then Some(Completed)
    else if t == "failed" then Some(Failed)
    else if t == "cancelled" then Some(Cancelled)
    else None
  }

  /** The five status texts are distinct and read back as the status they came from. */
  lemma StatusTextRoundTrip(s: MigrationStatus, t: string)
    ensures ParseStatus(StatusText(s)) == Some(s)
    ensures ParseStatus(t) == Some(s) ==> t == StatusText(s)
  {
  }

  /** A status that ends a task's life: completed or failed (the ones that set an end time). */
  predicate IsFinished(s: MigrationStatus)
  {
    s == Completed || s == Failed
  }

  /** `DataSourceConfig`; the type is kept as text since any string can arrive in a request. */
  datatype DataSourceConfig = DataSourceConfig(
    sourceType: string,
    host: string,
    port: int,
    database: string,
    username: string,
    password: string,
    sslMode: string,
    charset: string,
    timeout: int)

  const MySqlType := "mysql"
  const PostgreSqlType := "postgresql"
  const MongoDbType := "mongodb"
  const MinIoType := "minio"

  /** `MigrationTask` as persisted by the newer engine. */
  datatype MigrationTask = MigrationTask(
    taskId: string,
    sourceConfig: Json<DataSourceConfig>,
    targetConfig: Json<DataSourceConfig>,
    database: Option<seq<string>>,
    /** The `tables` column: JSON of the request's table list; `Malformed("")` is the empty text. */
    tables: Json<Option<seq<string>>>,
    status: MigrationStatus,
    progress: real,
    totalRows: int,
    migratedRows: int,
    failedRows: int,
    startTime: Option<Time>,
    endTime: Option<Time>,
    errorMessage: string,
    batchSize: int,
    createSchema: bool,
    truncateTarget: bool,
    onlySyncSchema: bool)

  /** `MigrationProgress`, the view `GetTaskProgress` returns. */
  datatype MigrationProgress = MigrationProgress(
    taskId: string,
    status: MigrationStatus,
    progress: real,
    totalRows: int,
    migratedRows: int,
    failedRows: int,
    currentTable: string,
    startTime: Option<Time>,
    endTime: Option<Time>,
    errorMessage: string)

  /** `TableMigrationResult` (its start and end times are left out). */
  datatype TableMigrationResult = TableMigrationResult(
    tableName: string,
    success: bool,
    totalRows: int,
    migratedRows: int,
    failedRows: int,
    errorMessage: string)

  /** A failed table result with only a message set, as the early returns of `migrateTable` build it. */
  function TableFailure(tableName: string, message: string): TableMigrationResult
  {
    TableMigrationResult(tableName, false, 0, 0, 0, message)
  }

  /** What the database driver hands `StringSlice.Scan`. */
  datatype DbValue =
    | DbNull
    | DbBytes(bytes: Json<Option<seq<string>>>)
    | DbText(text: Json<Option<seq<string>>>)
    | DbOther

  /**
   * `StringSlice.Scan`: the new value of the slice and the error. A nil source
   * clears the slice; bytes or text are JSON-decoded (JSON `null` is the nil
   * slice); any other source is refused and the slice keeps its value.
   */
  function Scan(current: Option<seq<string>>, v: DbValue): (r: (Option<seq<string>>, Option<Error>))
    ensures v.DbNull? ==> r == (None, None)
    ensures v.DbOther? ==> r == (current, Some(Failure("Scan source is not []byte or string")))
    ensures (v.DbBytes? && v.bytes.Encoded?) ==> r == (v.bytes.value, None)
    ensures (v.DbText? && v.text.Encoded?) ==> r == (v.text.value, None)
    ensures r.1.Some? ==> r.0 == current
  {
    match v
    case DbNull => (None, None)
    case DbBytes(j) => ScanJson(current, j)
    case DbText(j) => ScanJson(current, j)
    case DbOther => (current, Some(Failure("Scan source is not []byte or string")))
  }

  function ScanJson(current: Option<seq<string>>, j: Json<Option<seq<string>>>): (Option<seq<string>>, Option<Error>)
  {
    match Decode(j)
    case Ok(s) => (s, None)
    case Err(e) => (current, Some(e))
  }

  /** `StringSlice.Value`: the JSON encoding, stored as bytes. */
  function Value(s: Option<seq<string>>): (r: DbValue)
    ensures r.DbBytes? && r.bytes.Encoded?
  {
    DbBytes(Encoded(s))
  }

  /** Storing a slice and scanning it back restores it, whatever the slice held before. */
  lemma ScanValue(s: Option<seq<string>>, before: Option<seq<string>>)
    ensures Scan(before, Value(s)) == (s, None)
  {
  }
}
