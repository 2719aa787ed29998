/**
 * The older migration engine (`internal/datamigrate/service.go`), the one the
 * router serves. Its task keeps the configurations as records and the table
 * list as a plain list; every table belongs to the task's one database.
 *
 * Its `migrateTable` asks the target for the table's schema through the older
 * source, which only fails when the target cannot be used at all. So a target
 * table that is merely missing is never created: the copy runs into it and
 * every row fails.
 *
 * The database row behind each task is not modelled: the outcome of each write
 * to it is an input (`dbErr`), and `time.Now()` and `uuid.New()` are inputs.
 */
module OldEngine {
  import opened Wrappers
  import opened Errs
  import opened Strs
  import opened MigrationModel
  import opened SqlServer
  import opened MySqlCommon
  import opened OldSource
  import opened Progress

  /** The older `CreateMigrationRequest`. */
  datatype OldRequest = OldRequest(
    sourceConfig: DataSourceConfig,
    targetConfig: DataSourceConfig,
    database: string,
    tables: seq<string>,
    batchSize: int,
    createSchema: bool,
    truncateTarget: bool)

  /** The older `MigrationTask` (its log list is never written and is left out). */
  datatype OldTask = OldTask(
    taskId: string,
    sourceConfig: DataSourceConfig,
    targetConfig: DataSourceConfig,
    database: string,
    tables: seq<string>,
    status: MigrationStatus,
    progress: real,
    totalRows: int,
    migratedRows: int,
    failedRows: int,
    startTime: Option<Time>,
    endTime: Option<Time>,
    errorMessage: string,
    batchSize: int,
    createSchema: bool,
    truncateTarget: bool)

  /** What `GetTaskProgress` can find in the database for a task not in memory. */
  datatype OldLookup = Found(task: OldTask) | NotFound | LookupFailed(message: string)

  /** The progress view of an older task; `CurrentTable` and `EstimatedTime` are never filled in. */
  function OldProgressOf(t: OldTask): (r: MigrationProgress)
    ensures r.taskId == t.taskId && r.status == t.status && r.progress == t.progress
    ensures r.totalRows == t.totalRows && r.migratedRows == t.migratedRows && r.failedRows == t.failedRows
    ensures r.startTime == t.startTime && r.endTime == t.endTime && r.errorMessage == t.errorMessage
    ensures r.currentTable == ""
  {
    MigrationProgress(t.taskId, t.status, t.progress, t.totalRows, t.migratedRows, t.failedRows, "",
      t.startTime, t.endTime, t.errorMessage)
  }

  /** The task `CreateMigrationTask` builds: the request's fields, pending, no progress. */
  function NewTask(id: string, req: OldRequest): (t: OldTask)
    ensures t.taskId == id && t.status == Pending && t.progress == 0.0
    ensures t.sourceConfig == req.sourceConfig && t.targetConfig == req.targetConfig
    ensures t.database == req.database && t.tables == req.tables
    ensures t.batchSize == req.batchSize && t.createSchema == req.createSchema && t.truncateTarget == req.truncateTarget
    ensures t.totalRows == 0 && t.migratedRows == 0 && t.failedRows == 0
    ensures t.startTime.None? && t.endTime.None? && t.errorMessage == ""
  {
    OldTask(id, req.sourceConfig, req.targetConfig, req.database, req.tables, Pending, 0.0, 0, 0, 0,
      None, None, "", req.batchSize, req.createSchema, req.truncateTarget)
  }

  /** `DataSourceFactory.NewDataSource` of the older package: only MySQL is supported. */
  method NewOldDataSource(sourceType: string, server: Server) returns (ds: OldMySqlSource?, err: Option<Error>)
    ensures ds != null <==> err.None?
    ensures err.None? <==> sourceType == MySqlType
    ensures err.Some? ==> err.value == UnsupportedDataSource
    ensures ds != null ==> fresh(ds) && ds.server == server && ds.conn == NoConn && ds.config == EmptyConfig
  {
    if sourceType == MySqlType {
      ds := new OldMySqlSource(server);
      err := None;
    } else {
      ds, err := null, Some(UnsupportedDataSource);
    }
  }

  // ---------------------------------------------------------------- the whole run

  /** The older table loop goes into every entry. */
  function Every(n: nat): (r: seq<bool>)
    ensures |r| == n && forall j :: 0 <= j < n ==> r[j]
  {
    seq(n, j => true)
  }

  /** A completed older run reports one value per table plus 0 and 100, never going back. */
  lemma OldRunMarks(n: nat)
    ensures |RunMarks(Every(n))| == n + 2
    ensures Ascending(RunMarks(Every(n)))
    ensures RunMarks(Every(n))[0] == 0.0 && RunMarks(Every(n))[n + 1] == 100.0
  {
    MarksEvery(Every(n), n);
    RunMarksAscending(Every(n));
  }

  /** `totalRows` of a run over `tables` of the database `db`. */
  function OldCountedRows(s: Server, db: string, tables: seq<string>): nat
  {
    if |tables| == 0 then 0
    else OldCountedRows(s, db, tables[..|tables| - 1]) + RowsOf(s, db, tables[|tables| - 1])
  }

  /** The rows counted over one more table. */
  lemma OldCountedStep(s: Server, db: string, tables: seq<string>, i: nat)
    requires i < |tables|
    ensures OldCountedRows(s, db, tables[..i + 1]) == OldCountedRows(s, db, tables[..i]) + RowsOf(s, db, tables[i])
  {
    assert tables[..i + 1][..i] == tables[..i];
  }

  /** One more table of a run that goes into every table adds its progress value. */
  lemma EveryMarksStep(n: nat, i: nat)
    requires i < n
    ensures Marks(Every(n), i + 1) == Marks(Every(n), i) + [Pct(i, n)]
  {
  }

  /** The set-up of an older run succeeds: both types are MySQL and both logins succeed. */
  predicate OldOpenable(task: OldTask, srcServer: Server, tgtServer: Server)
  {
    task.sourceConfig.sourceType == MySqlType && task.targetConfig.sourceType == MySqlType &&
    Login(srcServer, task.sourceConfig.database).Ok? && Login(tgtServer, task.targetConfig.database).Ok?
  }

  /** An older run goes through its tables: it can be set up, and it has a table list or can list the database. */
  predicate OldCompletes(task: OldTask, srcServer: Server, tgtServer: Server)
  {
    OldOpenable(task, srcServer, tgtServer) && (|task.tables| > 0 || task.database in srcServer.dbs)
  }

  /** `after` differs from `before` at most in the fields a run writes while going through the tables. */
  predicate OldRunFieldsOnly(before: OldTask, after: OldTask)
  {
    after == before.(status := after.status, endTime := after.endTime, progress := after.progress,
      totalRows := after.totalRows, migratedRows := after.migratedRows)
  }

  lemma OldRunFieldsOnlyTrans(a: OldTask, b: OldTask, c: OldTask)
    requires OldRunFieldsOnly(a, b) && OldRunFieldsOnly(b, c)
    ensures OldRunFieldsOnly(a, c)
  {
  }

  lemma OldFinishOverwrites(a: OldTask, b: OldTask, total: int, migrated: int, now: Time)
    requires OldRunFieldsOnly(a, b)
    ensures b.(status := Completed, errorMessage := "", endTime := Some(now), progress := 100.0,
        totalRows := total, migratedRows := migrated) ==
      a.(status := Completed, errorMessage := "", endTime := Some(now), progress := 100.0,
        totalRows := total, migratedRows := migrated)
  {
  }

  lemma OldOnlyEntryTrans(a: map<string, OldTask>, b: map<string, OldTask>, c: map<string, OldTask>, id: string)
    requires id in b && b == a[id := b[id]] && id in c && c == b[id := c[id]]
    ensures c == a[id := c[id]]
  {
  }

  /** The head of the message of a failed re-creation of the target table. */
  const RecreateFailed := "Failed to recreate target table: "

  /**
   * The outcome of dropping the table `table` of `tdb` on `before` and
   * creating it again from `schema` (on a connection whose database is
   * `current`): a schema without columns leaves it dropped with the
   * invalid-schema message, and success is the table recreated empty.
   */
  predicate Recreated(before: Server, after: Server, current: string, tdb: string, schema: TableSchema, table: string,
                      err: Option<string>)
  {
    var dropped := ExecDrop(before, tdb, table);
    var create := ExecCreate(dropped, current, CreateStatement(QualifiedHead(tdb, schema.name), DefOf(schema)));
    (|schema.columns| == 0 ==>
      err == Some(RecreateFailed + Message(InvalidSchema)) && after == dropped) &&
    (err.None? ==> create.Ok? && after == create.value)
  }

  class OldMigrationService {
    /** `tasks`, keyed by task ID. */
    var tasks: map<string, OldTask>
    /** The progress values written to each task, in order. */
    ghost var progressLog: map<string, seq<real>>

    constructor()
      ensures tasks == map[] && progressLog == map[]
    {
      tasks := map[];
      progressLog := map[];
    }

    /** The progress values written to the task `id` so far. */
    ghost function LogOf(id: string): seq<real>
      reads this
    {
      if id in progressLog then progressLog[id] else []
    }

    /** `CreateMigrationTask`: the task is stored in memory only once the database accepted it. */
    method CreateMigrationTask(req: OldRequest, id: string, dbErr: Option<string>) returns (r: Result<OldTask, Error>)
      modifies this
      ensures progressLog == old(progressLog)
      ensures dbErr.Some? ==> r == Err(Failure("failed to create migration task: " + dbErr.value)) && tasks == old(tasks)
      ensures dbErr.None? ==> r == Ok(NewTask(id, req)) && tasks == old(tasks)[id := NewTask(id, req)]
    {
      var task := NewTask(id, req);
      if dbErr.Some? {
        return Err(Failure("failed to create migration task: " + dbErr.value));
      }
      tasks := tasks[id := task];
      r := Ok(task);
    }

    /** `StartMigration`: unknown, running and completed tasks are refused; any other becomes running. */
    method StartMigration(id: string, now: Time, dbErr: Option<string>) returns (err: Option<Error>)
      modifies this
      ensures progressLog == old(progressLog)
      ensures id !in old(tasks) ==> err == Some(MigrationTaskNotFound) && tasks == old(tasks)
      ensures id in old(tasks) && old(tasks)[id].status == Running ==>
        err == Some(MigrationTaskRunning) && tasks == old(tasks)
      ensures id in old(tasks) && old(tasks)[id].status == Completed ==>
        err == Some(MigrationTaskCompleted) && tasks == old(tasks)
      ensures id in old(tasks) && old(tasks)[id].status != Running && old(tasks)[id].status != Completed ==>
        tasks == old(tasks)[id := old(tasks)[id].(status := Running, startTime := Some(now))] &&
        (dbErr.None? ==> err.None?) &&
        (dbErr.Some? ==> err == Some(Failure("failed to update task status: " + dbErr.value)))
    {
      if id !in tasks {
        return Some(MigrationTaskNotFound);
      }
      var task := tasks[id];
      if task.status == Running {
        return Some(MigrationTaskRunning);
      }
      if task.status == Completed {
        return Some(MigrationTaskCompleted);
      }
      tasks := tasks[id := task.(status := Running, startTime := Some(now))];
      if dbErr.Some? {
        return Some(Failure("failed to update task status: " + dbErr.value));
      }
      err := None;
    }

    /** `CancelTask`: only a pending or running task becomes cancelled, with its end time set. */
    method CancelTask(id: string, now: Time, dbErr: Option<string>) returns (err: Option<Error>)
      modifies this
      ensures progressLog == old(progressLog)
      ensures id !in old(tasks) ==> err == Some(MigrationTaskNotFound) && tasks == old(tasks)
      ensures id in old(tasks) && old(tasks)[id].status != Pending && old(tasks)[id].status != Running ==>
        err == Some(Failure("cannot cancel task with status: " + StatusText(old(tasks)[id].status))) &&
        tasks == old(tasks)
      ensures id in old(tasks) && (old(tasks)[id].status == Pending || old(tasks)[id].status == Running) ==>
        tasks == old(tasks)[id := old(tasks)[id].(status := Cancelled, endTime := Some(now))] &&
        (dbErr.None? ==> err.None?) &&
        (dbErr.Some? ==> err == Some(Failure("failed to update task status: " + dbErr.value)))
    {
      if id !in tasks {
        return Some(MigrationTaskNotFound);
      }
      var task := tasks[id];
      if task.status != Running && task.status != Pending {
        return Some(Failure("cannot cancel task with status: " + StatusText(task.status)));
      }
      tasks := tasks[id := task.(status := Cancelled, endTime := Some(now))];
      if dbErr.Some? {
        return Some(Failure("failed to update task status: " + dbErr.value));
      }
      err := None;
    }

    /** `updateTaskStatus` in memory: status and message overwritten, an end time only for completed or failed. */
    method UpdateTaskStatus(id: string, status: MigrationStatus, message: string, now: Time)
      modifies this
      ensures progressLog == old(progressLog)
      ensures id in old(tasks) ==>
        tasks == old(tasks)[id := old(tasks)[id].(status := status, errorMessage := message,
          endTime := if IsFinished(status) then Some(now) else old(tasks)[id].endTime)]
      ensures id !in old(tasks) ==> tasks == old(tasks)
    {
      if id in tasks {
        var t := tasks[id];
        tasks := tasks[id := t.(status := status, errorMessage := message,
          endTime := if IsFinished(status) then Some(now) else t.endTime)];
      }
    }

    /** `updateTaskProgress` in memory; the current table it is given is not recorded. */
    method UpdateTaskProgress(id: string, progress: real, total: int, migrated: int)
      modifies this
      ensures id in old(tasks) ==>
        tasks == old(tasks)[id := old(tasks)[id].(progress := progress, totalRows := total, migratedRows := migrated)]
      ensures id in old(tasks) ==> LogOf(id) == old(LogOf(id)) + [progress]
      ensures id !in old(tasks) ==> tasks == old(tasks) && progressLog == old(progressLog)
    {
      if id in tasks {
        var t := tasks[id];
        tasks := tasks[id := t.(progress := progress, totalRows := total, migratedRows := migrated)];
        progressLog := progressLog[id := LogOf(id) + [progress]];
      }
    }

    /** `GetTaskProgress`: from memory, else from the database row. */
    method GetTaskProgress(id: string, stored: OldLookup) returns (r: Result<MigrationProgress, Error>)
      ensures id in tasks ==> r == Ok(OldProgressOf(tasks[id]))
      ensures id !in tasks && stored.Found? ==> r == Ok(OldProgressOf(stored.task))
      ensures id !in tasks && stored.NotFound? ==> r == Err(MigrationTaskNotFound)
      ensures id !in tasks && stored.LookupFailed? ==>
        r == Err(Failure("failed to get task from database: " + stored.message))
    {
      if id in tasks {
        return Ok(OldProgressOf(tasks[id]));
      }
      match stored
      case Found(t) => r := Ok(OldProgressOf(t));
      case NotFound => r := Err(MigrationTaskNotFound);
      case LookupFailed(m) => r := Err(Failure("failed to get task from database: " + m));
    }

    /** `ListTasks`: the task rows as the database returns them (newest first), or its error wrapped. */
    static method ListTasks(stored: Result<seq<OldTask>, string>) returns (r: Result<seq<OldTask>, Error>)
      ensures r.Ok? <==> stored.Ok?
      ensures r.Ok? ==> r.value == stored.value
      ensures r.Err? ==> r.error == Failure("failed to list tasks: " + stored.error)
    {
      if stored.Err? {
        return Err(Failure("failed to list tasks: " + stored.error));
      }
      r := Ok(stored.value);
    }

    /**
     * The target-table part of the older `migrateTable`. The probe only fails
     * on an unusable target, and then the table is created or the run refused;
     * on a usable target a truncate drops the table and creates it again from
     * the source schema, and otherwise nothing is done, missing or not.
     */
    static method PrepareTarget(tgt: OldMySqlSource, schema: TableSchema, task: OldTask, table: string) returns (err: Option<string>)
      requires tgt.conn != NoConn
      modifies tgt
      ensures tgt.conn == old(tgt.conn) && tgt.config == old(tgt.config)
      ensures old(tgt.Unavailable()).Some? ==>
        err.Some? && tgt.server == old(tgt.server) &&
        (task.createSchema ==> StartsWith(err.value, "Failed to create target table: ")) &&
        (!task.createSchema ==> err == Some("Target table does not exist and create_schema is false"))
      ensures old(tgt.Unavailable()).None? && !task.truncateTarget ==> err.None? && tgt.server == old(tgt.server)
      ensures old(tgt.Unavailable()).None? && task.truncateTarget ==>
        Recreated(old(tgt.server), tgt.server, tgt.config.database, task.targetConfig.database, schema, table, err)
    {
      var tdb := task.targetConfig.database;
      var probe := tgt.GetTableSchema(tdb, table);
      if probe.Err? {
        err := CreateMissing(tgt, schema, task);
      } else if task.truncateTarget {
        err := Recreate(tgt, schema, tdb, table);
      } else {
        err := None;
      }
    }

    /** The branch of the older `migrateTable` where the probe of the target table failed. */
    static method CreateMissing(tgt: OldMySqlSource, schema: TableSchema, task: OldTask) returns (err: Option<string>)
      requires tgt.conn != NoConn && tgt.Unavailable().Some?
      modifies tgt
      ensures tgt.conn == old(tgt.conn) && tgt.config == old(tgt.config)
      ensures err.Some? && tgt.server == old(tgt.server)
      ensures task.createSchema ==> StartsWith(err.value, "Failed to create target table: ")
      ensures !task.createSchema ==> err == Some("Target table does not exist and create_schema is false")
    {
      if task.createSchema {
        var e := tgt.CreateTable(task.targetConfig.database, Some(schema));
        match e {
          case Some(m) => return Some("Failed to create target table: " + Message(m));
          case None => assert false;
        }
      }
      return Some("Target table does not exist and create_schema is false");
    }

    /**
     * The truncate branch of the older `migrateTable`: the table is dropped
     * and created again from the source schema. A source schema without
     * columns leaves the table dropped.
     */
    static method Recreate(tgt: OldMySqlSource, schema: TableSchema, tdb: string, table: string) returns (err: Option<string>)
      requires tgt.conn != NoConn && tgt.Unavailable().None?
      modifies tgt
      ensures tgt.conn == old(tgt.conn) && tgt.config == old(tgt.config)
      ensures Recreated(old(tgt.server), tgt.server, tgt.config.database, tdb, schema, table, err)
    {
      var e := tgt.DropTable(tdb, table);
      match e {
        case Some(m) => assert false;
        case None =>
      }
      var c := tgt.CreateTable(tdb, Some(schema));
      match c {
        case Some(m) =>
          if |schema.columns| == 0 {
            assert Message(m) == "invalid table schema";
            assert "Failed to recreate target table: " + Message(m) == RecreateFailed + Message(InvalidSchema);
          }
          return Some("Failed to recreate target table: " + Message(m));
        case None =>
      }
      err := None;
    }

    /**
     * The batched copy of the older `migrateTable`: windows of `batchSize`
     * rows, each counted wholly as migrated or failed. A missing target table
     * makes every row fail.
     */
    static method CopyRows(src: OldMySqlSource, tgt: OldMySqlSource, db: string, tdb: string, table: string, batchSize: int)
      returns (r: TableMigrationResult)
      requires src != tgt && src.conn != NoConn && tgt.conn != NoConn && batchSize > 0
      modifies tgt
      ensures tgt.config == old(tgt.config) && tgt.conn == old(tgt.conn)
      ensures r.tableName == table && r.migratedRows >= 0 && r.failedRows >= 0
      ensures r.migratedRows + r.failedRows <= RowsOf(src.server, db, table)
      ensures !(src.Unavailable().None? && HasTable(src.server, db, table)) ==>
        !r.success && r.totalRows == 0 && r.migratedRows == 0 && r.failedRows == 0 &&
        StartsWith(r.errorMessage, "Failed to get row count: ") && tgt.server == old(tgt.server)
      ensures src.Unavailable().None? && HasTable(src.server, db, table) ==>
        r.totalRows == |src.server.dbs[db][table].rows| &&
        r.migratedRows + r.failedRows == r.totalRows &&
        (r.success <==> r.failedRows == 0) && r.errorMessage == ""
      ensures !HasTable(old(tgt.server), tdb, table) ==> r.migratedRows == 0 && tgt.server.dbs == old(tgt.server.dbs)
    {
      var count, cerr := src.GetRowCount(db, table);
      if cerr.Some? {
        return TableMigrationResult(table, false, 0, 0, 0, "Failed to get row count: " + Message(cerr.value));
      }
      ghost var t0 := tgt.server;
      var offset, migrated, failed := 0, 0, 0;
      while offset < count
        invariant 0 <= offset <= count == |src.server.dbs[db][table].rows|
        invariant migrated + failed == offset && migrated >= 0 && failed >= 0
        invariant tgt.conn == old(tgt.conn) && tgt.config == old(tgt.config)
        invariant !HasTable(t0, tdb, table) ==> migrated == 0 && tgt.server.dbs == t0.dbs
        decreases count - offset
      {
        var read := src.ReadRows(db, table, offset, batchSize);
        match read {
          case Err(e) =>
            assert false;
          case Ok(rows) =>
            if |rows| == 0 {
              assert false;
            }
            var werr, cols, committed := tgt.WriteRows(tdb, table, rows, batchSize);
            if werr.Some? {
              failed := failed + |rows|;
            } else {
              migrated := migrated + |rows|;
            }
            offset := offset + |rows|;
        }
      }
      r := TableMigrationResult(table, failed == 0, count, migrated, failed, "");
    }

    /**
     * The older `migrateTable`: the source schema of the task's database, the
     * preparation of the target table in the target configuration's database,
     * then the copy.
     */
    static method MigrateTable(src: OldMySqlSource, tgt: OldMySqlSource, task: OldTask, table: string)
      returns (r: TableMigrationResult)
      requires src != tgt && src.conn != NoConn && tgt.conn != NoConn
      modifies tgt
      ensures tgt.config == old(tgt.config) && tgt.conn == old(tgt.conn)
      ensures r.tableName == table && r.migratedRows >= 0 && r.failedRows >= 0
      ensures r.migratedRows + r.failedRows <= RowsOf(src.server, task.database, table)
      ensures src.Unavailable().Some? ==>
        !r.success && StartsWith(r.errorMessage, "Failed to get source table schema: ") && tgt.server == old(tgt.server)
      ensures src.Unavailable().None? && old(tgt.Unavailable()).Some? ==> !r.success && tgt.server == old(tgt.server)
      ensures src.Unavailable().None? && old(tgt.Unavailable()).None? && task.truncateTarget &&
              !HasTable(src.server, task.database, table) ==>
        r == TableFailure(table, RecreateFailed + Message(InvalidSchema)) &&
        tgt.server == ExecDrop(old(tgt.server), task.targetConfig.database, table)
      ensures src.Unavailable().None? && old(tgt.Unavailable()).None? && !task.truncateTarget &&
              HasTable(src.server, task.database, table) ==>
        r.totalRows == |src.server.dbs[task.database][table].rows| &&
        r.migratedRows + r.failedRows == r.totalRows && (r.success <==> r.failedRows == 0) &&
        (!HasTable(old(tgt.server), task.targetConfig.database, table) ==>
          r.migratedRows == 0 && r.failedRows == r.totalRows && tgt.server.dbs == old(tgt.server.dbs))
    {
      var schema := src.GetTableSchema(task.database, table);
      if schema.Err? {
        return TableFailure(table, "Failed to get source table schema: " + Message(schema.error));
      }
      r := PrepareAndCopy(src, tgt, task, table, schema.value);
    }

    /**
     * The older `migrateTable` as written: its first step reads the source
     * schema through `GetTableSchemaAsWritten`, which the server always
     * refuses, so every table fails there, copies no row and leaves the
     * target alone.
     */
    static method MigrateTableAsWritten(src: OldMySqlSource, tgt: OldMySqlSource, task: OldTask, table: string)
      returns (r: TableMigrationResult)
      requires src != tgt && src.conn != NoConn && tgt.conn != NoConn
      ensures r.tableName == table && !r.success && r.totalRows == 0 && r.migratedRows == 0 && r.failedRows == 0
      ensures r.errorMessage == "Failed to get source table schema: " + ("failed to get table columns: " +
        (if src.Unavailable().Some? then src.Unavailable().value else SyntaxError))
    {
      var schema := src.GetTableSchemaAsWritten(task.database, table);
      // The read never succeeds, so the case that goes on to the target cannot arise.
      match schema {
        case Err(e) =>
          r := TableFailure(table, "Failed to get source table schema: " + Message(e));
      }
    }

    /** The older `migrateTable` once the source schema is read: the target table, then the rows. */
    static method PrepareAndCopy(src: OldMySqlSource, tgt: OldMySqlSource, task: OldTask, table: string, schema: TableSchema)
      returns (r: TableMigrationResult)
      requires src != tgt && src.conn != NoConn && tgt.conn != NoConn
      modifies tgt
      ensures tgt.config == old(tgt.config) && tgt.conn == old(tgt.conn)
      ensures r.tableName == table && r.migratedRows >= 0 && r.failedRows >= 0
      ensures r.migratedRows + r.failedRows <= RowsOf(src.server, task.database, table)
      ensures old(tgt.Unavailable()).Some? ==> !r.success && tgt.server == old(tgt.server)
      ensures old(tgt.Unavailable()).None? && task.truncateTarget && |schema.columns| == 0 ==>
        r == TableFailure(table, RecreateFailed + Message(InvalidSchema)) &&
        tgt.server == ExecDrop(old(tgt.server), task.targetConfig.database, table)
      ensures old(tgt.Unavailable()).None? && !task.truncateTarget &&
              src.Unavailable().None? && HasTable(src.server, task.database, table) ==>
        r.totalRows == |src.server.dbs[task.database][table].rows| &&
        r.migratedRows + r.failedRows == r.totalRows && (r.success <==> r.failedRows == 0) &&
        (!HasTable(old(tgt.server), task.targetConfig.database, table) ==>
          r.migratedRows == 0 && r.failedRows == r.totalRows && tgt.server.dbs == old(tgt.server.dbs))
    {
      var prepErr := PrepareTarget(tgt, schema, task, table);
      if prepErr.Some? {
        return TableFailure(table, prepErr.value);
      }
      var batchSize := if task.batchSize <= 0 then 1000 else task.batchSize;
      r := CopyRows(src, tgt, task.database, task.targetConfig.database, table, batchSize);
    }

    /**
     * The set-up of the older `executeMigration`: the two data sources from
     * the factory, connected with their configurations (a missing target
     * database is not created), then both connections tested.
     */
    static method OpenSources(task: OldTask, srcServer: Server, tgtServer: Server)
      returns (src: OldMySqlSource?, tgt: OldMySqlSource?, failure: Option<string>)
      ensures failure.None? <==> OldOpenable(task, srcServer, tgtServer)
      ensures failure.None? ==>
        src != null && tgt != null && src != tgt && fresh(src) && fresh(tgt) &&
        src.conn == Open && tgt.conn == Open && src.Unavailable().None? && tgt.Unavailable().None? &&
        src.server == srcServer && tgt.server == tgtServer
      ensures task.sourceConfig.sourceType != MySqlType ==>
        failure == Some("Failed to create source data source: " + Message(UnsupportedDataSource))
      ensures task.sourceConfig.sourceType == MySqlType && task.targetConfig.sourceType != MySqlType ==>
        failure == Some("Failed to create target data source: " + Message(UnsupportedDataSource))
      ensures task.sourceConfig.sourceType == MySqlType && task.targetConfig.sourceType == MySqlType ==>
        (Login(srcServer, task.sourceConfig.database).Err? ==>
          failure == Some("Failed to connect source: " +
            Message(Failure("failed to connect to MySQL: " + Login(srcServer, task.sourceConfig.database).error)))) &&
        (Login(srcServer, task.sourceConfig.database).Ok? && Login(tgtServer, task.targetConfig.database).Err? ==>
          failure == Some("Failed to connect target: " +
            Message(Failure("failed to connect to MySQL: " + Login(tgtServer, task.targetConfig.database).error))))
    {
      var e;
      src, e := NewOldDataSource(task.sourceConfig.sourceType, srcServer);
      if e.Some? {
        return null, null, Some("Failed to create source data source: " + Message(e.value));
      }
      tgt, e := NewOldDataSource(task.targetConfig.sourceType, tgtServer);
      if e.Some? {
        return null, null, Some("Failed to create target data source: " + Message(e.value));
      }
      var se := src.Connect(task.sourceConfig);
      if se.Some? {
        return null, null, Some("Failed to connect source: " + Message(se.value));
      }
      var te := tgt.Connect(task.targetConfig);
      if te.Some? {
        return null, null, Some("Failed to connect target: " + Message(te.value));
      }
      var st := src.TestConnection();
      match st {
        case Some(c) => return null, null, Some("Source connection test failed: " + Message(c));
        case None =>
      }
      var tt := tgt.TestConnection();
      match tt {
        case Some(c) => return null, null, Some("Target connection test failed: " + Message(c));
        case None =>
      }
      failure := None;
    }

    /** The table list of the older `executeMigration`: the task's list, or every table of its database when empty. */
    static method ResolveTables(src: OldMySqlSource, task: OldTask) returns (tables: seq<string>, failure: Option<string>)
      requires src.conn != NoConn
      ensures failure.Some? ==> tables == []
      ensures |task.tables| > 0 ==> failure.None? && tables == task.tables
      ensures |task.tables| == 0 ==>
        (failure.None? <==> src.Unavailable().None? && task.database in src.server.dbs) &&
        (failure.None? ==> Distinct(tables) && forall t :: t in tables <==> t in src.server.dbs[task.database]) &&
        (failure.Some? ==> StartsWith(failure.value, "Failed to list tables: "))
    {
      if |task.tables| > 0 {
        return task.tables, None;
      }
      var listed := src.ListTables(task.database);
      match listed {
        case Err(e) =>
          return [], Some("Failed to list tables: " + Message(e));
        case Ok(names) =>
          tables, failure := names, None;
      }
    }

    /** The counting loop of the older `executeMigration`: the rows of every listed table of the task's database that exists. */
    static method TotalRows(src: OldMySqlSource, db: string, tables: seq<string>) returns (total: int)
      requires src.conn != NoConn && src.Unavailable().None?
      ensures total == OldCountedRows(src.server, db, tables)
    {
      total := 0;
      var i := 0;
      while i < |tables|
        invariant 0 <= i <= |tables|
        invariant total == OldCountedRows(src.server, db, tables[..i])
      {
        assert tables[..i + 1][..i] == tables[..i];
        var count, err := src.GetRowCount(db, tables[i]);
        if err.None? {
          total := total + count;
        }
        i := i + 1;
      }
      assert tables[..|tables|] == tables;
    }

    /** The start of one step of the older table loop: a possible cancellation, then the progress `i/n*100`. */
    method MarkEntry(id: string, i: nat, n: nat, total: int, migrated: int, cancel: bool, now: Time)
      requires id in tasks && i < n
      modifies this
      ensures id in tasks && tasks == old(tasks)[id := tasks[id]] && OldRunFieldsOnly(old(tasks)[id], tasks[id])
      ensures LogOf(id) == old(LogOf(id)) + [Pct(i, n)]
    {
      if cancel {
        var _ := CancelTask(id, now, None);
      }
      UpdateTaskProgress(id, Pct(i, n), total, migrated);
    }

    /** One step of the older table loop: a possible cancellation, the progress `i/n*100`, then the table. */
    method VisitEntry(id: string, src: OldMySqlSource, tgt: OldMySqlSource, task: OldTask, tables: seq<string>, i: nat,
                      total: int, migrated: int, cancel: bool, now: Time)
      returns (m: int, f: int)
      requires id in tasks && i < |tables| && src != tgt && src.conn != NoConn && tgt.conn != NoConn
      modifies this, tgt
      ensures id in tasks && tasks == old(tasks)[id := tasks[id]] && OldRunFieldsOnly(old(tasks)[id], tasks[id])
      ensures LogOf(id) == old(LogOf(id)) + [Pct(i, |tables|)]
      ensures 0 <= m && 0 <= f && m + f <= RowsOf(src.server, task.database, tables[i])
      ensures tgt.conn != NoConn
    {
      MarkEntry(id, i, |tables|, total, migrated, cancel, now);
      var r := MigrateTable(src, tgt, task, tables[i]);
      m, f := r.migratedRows, r.failedRows;
    }

    /**
     * The older table loop: before every table the progress `i/n*100` is
     * written, then the table is migrated and its rows added up, whatever its
     * outcome. A cancellation may come before entry `i` for each `i` in
     * `cancels`; it does not stop the loop.
     */
    method MigrateTables(id: string, src: OldMySqlSource, tgt: OldMySqlSource, task: OldTask, tables: seq<string>,
                         total: int, cancels: set<nat>, now: Time)
      returns (migrated: int, failed: int)
      requires id in tasks && src != tgt && src.conn != NoConn && tgt.conn != NoConn
      modifies this, tgt
      ensures id in tasks && tasks == old(tasks)[id := tasks[id]] && OldRunFieldsOnly(old(tasks)[id], tasks[id])
      ensures LogOf(id) == old(LogOf(id)) + Marks(Every(|tables|), |tables|)
      ensures 0 <= migrated && 0 <= failed && migrated + failed <= OldCountedRows(src.server, task.database, tables)
      ensures tgt.conn != NoConn
    {
      ghost var s0, log0, tasks0 := src.server, LogOf(id), tasks;
      migrated, failed := 0, 0;
      var i := 0;
      while i < |tables|
        invariant 0 <= i <= |tables|
        invariant id in tasks && tasks == tasks0[id := tasks[id]] && OldRunFieldsOnly(tasks0[id], tasks[id])
        invariant LogOf(id) == log0 + Marks(Every(|tables|), i)
        invariant 0 <= migrated && 0 <= failed && migrated + failed <= OldCountedRows(s0, task.database, tables[..i])
        invariant tgt.conn != NoConn && src.server == s0
      {
        ghost var tasks1 := tasks;
        OldCountedStep(s0, task.database, tables, i);
        EveryMarksStep(|tables|, i);
        var m, f := VisitEntry(id, src, tgt, task, tables, i, total, migrated, i in cancels, now);
        OldRunFieldsOnlyTrans(tasks0[id], tasks1[id], tasks[id]);
        OldOnlyEntryTrans(tasks0, tasks1, tasks, id);
        migrated, failed := migrated + m, failed + f;
        i := i + 1;
      }
      assert tables[..|tables|] == tables;
    }

    /** The end of the older `executeMigration`: progress 100 with the totals, then the status completed with no message. */
    method FinishRun(id: string, total: int, migrated: int, now: Time)
      requires id in tasks
      modifies this
      ensures id in tasks && tasks == old(tasks)[id := tasks[id]]
      ensures tasks[id] == old(tasks)[id].(status := Completed, errorMessage := "", endTime := Some(now), progress := 100.0,
        totalRows := total, migratedRows := migrated)
      ensures LogOf(id) == old(LogOf(id)) + [100.0]
    {
      UpdateTaskProgress(id, 100.0, total, migrated);
      UpdateTaskStatus(id, Completed, "", now);
    }

    /** The older `executeMigration` once its tables are known: count, progress 0, every table, progress 100 and completed. */
    method RunTables(id: string, src: OldMySqlSource, tgt: OldMySqlSource, task: OldTask, tables: seq<string>,
                     cancels: set<nat>, now: Time)
      requires id in tasks && src != tgt && src.conn != NoConn && tgt.conn != NoConn && src.Unavailable().None?
      modifies this, tgt
      ensures id in tasks && tasks == old(tasks)[id := tasks[id]]
      ensures var total := OldCountedRows(src.server, task.database, tables);
        tasks[id] == old(tasks)[id].(status := Completed, errorMessage := "", endTime := Some(now), progress := 100.0,
          totalRows := total, migratedRows := tasks[id].migratedRows) &&
        0 <= tasks[id].migratedRows <= total &&
        LogOf(id) == old(LogOf(id)) + RunMarks(Every(|tables|))
    {
      ghost var t0, log0 := tasks[id], LogOf(id);
      var total := TotalRows(src, task.database, tables);
      UpdateTaskProgress(id, 0.0, total, 0);
      ghost var t1, log1 := tasks[id], LogOf(id);
      assert OldRunFieldsOnly(t0, t1) && log1 == log0 + [0.0];
      var migrated, failed := MigrateTables(id, src, tgt, task, tables, total, cancels, now);
      ghost var t2, log2 := tasks[id], LogOf(id);
      OldRunFieldsOnlyTrans(t0, t1, t2);
      OldFinishOverwrites(t0, t2, total, migrated, now);
      FinishRun(id, total, migrated, now);
      ghost var marks := Marks(Every(|tables|), |tables|);
      assert LogOf(id) == log0 + [0.0] + marks + [100.0];
      assert RunMarks(Every(|tables|)) == [0.0] + marks + [100.0];
      assert log0 + [0.0] + marks + [100.0] == log0 + ([0.0] + marks + [100.0]);
    }

    /**
     * The older table loop as written: every step marks its progress, then
     * every table fails at the source schema read, so nothing is added up.
     */
    method MigrateTablesAsWritten(id: string, src: OldMySqlSource, tgt: OldMySqlSource, task: OldTask,
                                  tables: seq<string>, total: int, cancels: set<nat>, now: Time)
      returns (migrated: int, failed: int)
      requires id in tasks && src != tgt && src.conn != NoConn && tgt.conn != NoConn
      modifies this
      ensures id in tasks && tasks == old(tasks)[id := tasks[id]] && OldRunFieldsOnly(old(tasks)[id], tasks[id])
      ensures LogOf(id) == old(LogOf(id)) + Marks(Every(|tables|), |tables|)
      ensures migrated == 0 && failed == 0
    {
      ghost var log0, tasks0 := LogOf(id), tasks;
      migrated, failed := 0, 0;
      var i := 0;
      while i < |tables|
        invariant 0 <= i <= |tables|
        invariant id in tasks && tasks == tasks0[id := tasks[id]] && OldRunFieldsOnly(tasks0[id], tasks[id])
        invariant LogOf(id) == log0 + Marks(Every(|tables|), i)
        invariant migrated == 0 && failed == 0
      {
        ghost var tasks1 := tasks;
        EveryMarksStep(|tables|, i);
        MarkEntry(id, i, |tables|, total, migrated, i in cancels, now);
        var r := MigrateTableAsWritten(src, tgt, task, tables[i]);
        OldRunFieldsOnlyTrans(tasks0[id], tasks1[id], tasks[id]);
        OldOnlyEntryTrans(tasks0, tasks1, tasks, id);
        migrated, failed := migrated + r.migratedRows, failed + r.failedRows;
        i := i + 1;
      }
    }

    /**
     * The older `executeMigration` as written, once its tables are known: the
     * rows are counted, every table fails at the source schema read, and the
     * task still ends completed at progress 100 with no row migrated and the
     * target untouched.
     */
    method RunTablesAsWritten(id: string, src: OldMySqlSource, tgt: OldMySqlSource, task: OldTask, tables: seq<string>,
                              cancels: set<nat>, now: Time)
      requires id in tasks && src != tgt && src.conn != NoConn && tgt.conn != NoConn && src.Unavailable().None?
      modifies this
      ensures id in tasks && tasks == old(tasks)[id := tasks[id]]
      ensures tasks[id] == old(tasks)[id].(status := Completed, errorMessage := "", endTime := Some(now), progress := 100.0,
        totalRows := OldCountedRows(src.server, task.database, tables), migratedRows := 0)
      ensures LogOf(id) == old(LogOf(id)) + RunMarks(Every(|tables|))
    {
      ghost var t0, log0 := tasks[id], LogOf(id);
      var total := TotalRows(src, task.database, tables);
      UpdateTaskProgress(id, 0.0, total, 0);
      ghost var t1 := tasks[id];
      assert OldRunFieldsOnly(t0, t1);
      var migrated, failed := MigrateTablesAsWritten(id, src, tgt, task, tables, total, cancels, now);
      ghost var t2 := tasks[id];
      OldRunFieldsOnlyTrans(t0, t1, t2);
      OldFinishOverwrites(t0, t2, total, migrated, now);
      FinishRun(id, total, migrated, now);
      ghost var marks := Marks(Every(|tables|), |tables|);
      assert LogOf(id) == log0 + [0.0] + marks + [100.0];
      assert RunMarks(Every(|tables|)) == [0.0] + marks + [100.0];
      assert log0 + [0.0] + marks + [100.0] == log0 + ([0.0] + marks + [100.0]);
    }

    /**
     * The older `executeMigration` for the task `id` against the given source
     * and target servers: a failed set-up or table list fails the task;
     * otherwise every table is gone through and the task ends completed with
     * progress 100, whatever the tables' outcomes and any cancellation.
     */
    method ExecuteMigration(id: string, srcServer: Server, tgtServer: Server, cancels: set<nat>, now: Time)
      returns (tables: seq<string>)
      requires id in tasks
      modifies this
      ensures id in tasks && tasks == old(tasks)[id := tasks[id]]
      ensures !OldCompletes(old(tasks)[id], srcServer, tgtServer) ==>
        tables == [] && LogOf(id) == old(LogOf(id)) &&
        tasks[id] == old(tasks)[id].(status := Failed, errorMessage := tasks[id].errorMessage, endTime := Some(now))
      ensures OldOpenable(old(tasks)[id], srcServer, tgtServer) && |old(tasks)[id].tables| == 0 &&
              old(tasks)[id].database !in srcServer.dbs ==>
        StartsWith(tasks[id].errorMessage, "Failed to list tables: ")
      ensures OldCompletes(old(tasks)[id], srcServer, tgtServer) ==>
        var t0 := old(tasks)[id];
        var total := OldCountedRows(srcServer, t0.database, tables);
        tasks[id] == t0.(status := Completed, errorMessage := "", endTime := Some(now), progress := 100.0,
          totalRows := total, migratedRows := tasks[id].migratedRows) &&
        0 <= tasks[id].migratedRows <= total &&
        LogOf(id) == old(LogOf(id)) + RunMarks(Every(|tables|)) &&
        (|t0.tables| > 0 ==> tables == t0.tables) &&
        (|t0.tables| == 0 ==> Distinct(tables) && forall t :: t in tables <==> t in srcServer.dbs[t0.database])
    {
      var task := tasks[id];
      var src, tgt, failure := OpenSources(task, srcServer, tgtServer);
      if failure.Some? {
        UpdateTaskStatus(id, Failed, failure.value, now);
        return [];
      }
      var listErr;
      tables, listErr := ResolveTables(src, task);
      if listErr.Some? {
        UpdateTaskStatus(id, Failed, listErr.value, now);
        return [];
      }
      RunTables(id, src, tgt, task, tables, cancels, now);
    }
  }
}
