/**
 * The HTTP handlers of the newer migration engine
 * (`internal/api/datamigrate/api.go`): request validation, the task
 * endpoints, paging of the task list, the data-source probes and the
 * source/target table comparison.
 *
 * A handler's request is its decoded body or path parameter; the MySQL server
 * a configuration reaches is a parameter, as are the outcomes of the task
 * store's database writes (`dbErr`) and the stored task rows.
 */
module NewApi {
  import opened Wrappers
  import opened Errs
  import opened Strs
  import opened MigrationModel
  import opened SqlServer
  import opened MySqlCommon
  import opened NewSource
  import opened NewEngine
  import opened ApiCommon

  /** `CompareRequest`. */
  datatype CompareRequest = CompareRequest(
    sourceConfig: DataSourceConfig,
    targetConfig: DataSourceConfig,
    database: string,
    tables: seq<string>)

  /** `TableCompareResult`: one requested table on both sides. */
  datatype TableCompareResult = TableCompareResult(
    table: string,
    existsInSource: bool,
    existsInTarget: bool,
    rowCountSource: int,
    rowCountTarget: int)

  /** `CompareResponse`. */
  datatype CompareResponse = CompareResponse(
    tableCountEqual: bool,
    tableCountSource: int,
    tableCountTarget: int,
    tables: seq<TableCompareResult>)

  /**
   * `validateCreateRequest`: both configurations need a type and the request
   * a database; a valid request gets the default batch size when it has none.
   * The Go function updates the request in place; here it returns it.
   */
  function ValidateCreateRequest(req: CreateRequest): (r: Result<CreateRequest, Error>)
    ensures r.Err? <==> req.sourceConfig.sourceType == "" || req.targetConfig.sourceType == "" || req.database == ""
    ensures r.Err? ==> r.error == InvalidConfig
    ensures r.Ok? ==> r.value.batchSize > 0 && r.value == req.(batchSize := r.value.batchSize)
    ensures r.Ok? && req.batchSize > 0 ==> r.value == req
    ensures r.Ok? && req.batchSize <= 0 ==> r.value.batchSize == DefaultBatchSize
  {
    if req.sourceConfig.sourceType == "" || req.targetConfig.sourceType == "" || req.database == "" then
      Err(InvalidConfig)
    else if req.batchSize <= 0 then Ok(req.(batchSize := DefaultBatchSize))
    else Ok(req)
  }

  /** Validating a validated request changes nothing more. */
  lemma ValidateIdempotent(req: CreateRequest)
    requires ValidateCreateRequest(req).Ok?
    ensures ValidateCreateRequest(ValidateCreateRequest(req).value) == ValidateCreateRequest(req)
  {
  }

  // ------------------------------------------------------------ comparison

  /** The table name `ParseTableName` reads back from `database + "." + table`. */
  function CompareKey(db: string, table: string): (r: string)
    ensures '.' !in db ==> r == table
  {
    var s := db + "." + table;
    assert s[|db|] == '.';
    JoinPlain(db, table);
    ParseTableName(s).value.1
  }

  /** A database name without a `.` reads back unchanged. */
  lemma JoinPlain(db: string, table: string)
    ensures '.' !in db ==> ParseTableName(db + "." + table) == Ok((db, table))
  {
    if '.' !in db {
      ParseTableNameJoin(db, table);
    }
  }

  /** The result for one requested table, read straight from both servers. */
  function Compared(src: Server, tgt: Server, db: string, table: string): TableCompareResult
  {
    var tbl := CompareKey(db, table);
    TableCompareResult(table, HasTable(src, db, tbl), HasTable(tgt, db, tbl), RowsOf(src, db, tbl), RowsOf(tgt, db, tbl))
  }

  /**
   * For a database name without a `.`, a requested table exists on a side
   * exactly when that side lists it, and its row count there is 0 when it
   * does not.
   */
  lemma ComparedPlain(src: Server, tgt: Server, db: string, table: string)
    requires '.' !in db && db in src.dbs && db in tgt.dbs
    ensures var r := Compared(src, tgt, db, table);
      r.table == table &&
      (r.existsInSource <==> table in src.dbs[db]) && (r.existsInTarget <==> table in tgt.dbs[db]) &&
      (r.existsInSource ==> r.rowCountSource == |src.dbs[db][table].rows|) &&
      (r.existsInTarget ==> r.rowCountTarget == |tgt.dbs[db][table].rows|) &&
      (!r.existsInSource ==> r.rowCountSource == 0) && (!r.existsInTarget ==> r.rowCountTarget == 0)
  {
  }

  /** The keys of the table set the handler builds: `database + "." + t` for every listed `t`. */
  function Keyed(db: string, tables: seq<string>): set<string>
  {
    if |tables| == 0 then {}
    else Keyed(db, tables[..|tables| - 1]) + {db + "." + tables[|tables| - 1]}
  }

  /** Two keys with the same database are equal exactly when their tables are. */
  lemma JoinCancel(db: string, a: string, b: string)
    ensures db + "." + a == db + "." + b <==> a == b
  {
    if db + "." + a == db + "." + b {
      assert a == (db + "." + a)[|db| + 1..];
      assert b == (db + "." + b)[|db| + 1..];
    }
  }

  /** A key is in the set exactly when its table was listed. */
  lemma {:induction false} KeyedHas(db: string, tables: seq<string>, t: string)
    ensures db + "." + t in Keyed(db, tables) <==> t in tables
  {
    if |tables| > 0 {
      var n := |tables| - 1;
      KeyedHas(db, tables[..n], t);
      JoinCancel(db, t, tables[n]);
      assert tables == tables[..n] + [tables[n]];
    }
  }

  class ApiHandler {
    /** `service`. */
    const service: MigrationService

    constructor()
      ensures fresh(service) && service.tasks == map[] && service.progressLog == map[]
    {
      service := new MigrationService();
    }

    /** The loop filling a table set in `CompareHandler`. */
    static method KeySet(db: string, tables: seq<string>) returns (keys: set<string>)
      ensures keys == Keyed(db, tables)
    {
      keys := {};
      var i := 0;
      while i < |tables|
        invariant 0 <= i <= |tables|
        invariant keys == Keyed(db, tables[..i])
      {
        keys := keys + {db + "." + tables[i]};
        assert tables[..i + 1][..i] == tables[..i];
        i := i + 1;
      }
      assert tables[..i] == tables;
    }

    /**
     * `CreateMigrationTaskHandler`: a body that does not decode or does not
     * validate is refused with 400 and no task is created; otherwise the
     * validated request becomes the task `CreatedFrom` describes, stored
     * under the ID, and no other task changes.
     */
    method CreateMigrationTaskHandler(body: Json<CreateRequest>, id: string, dbErr: Option<string>)
      returns (reply: Reply<TaskCreated>)
      modifies service
      ensures service.progressLog == old(service.progressLog)
      ensures body.Malformed? ==> reply == BadBody(body) && service.tasks == old(service.tasks)
      ensures body.Encoded? && ValidateCreateRequest(body.value).Err? ==>
        reply == Refusal(StatusBadRequest, Message(InvalidConfig)) && service.tasks == old(service.tasks)
      ensures body.Encoded? && ValidateCreateRequest(body.value).Ok? && dbErr.Some? ==>
        reply == Refusal(StatusInternalServerError,
          "Failed to create migration task: " + ("failed to create migration task: " + dbErr.value)) &&
        service.tasks == old(service.tasks)
      ensures reply.code == 0 <==> body.Encoded? && ValidateCreateRequest(body.value).Ok? && dbErr.None?
      ensures reply.code == 0 ==>
        reply == Reply(StatusOK, 0, "success", Some(TaskCreated(id, Pending))) &&
        id in service.tasks && service.tasks == old(service.tasks)[id := service.tasks[id]] &&
        CreatedFrom(service.tasks[id], ValidateCreateRequest(body.value).value, id) &&
        service.tasks[id].batchSize > 0
    {
      if body.Malformed? {
        return BadBody(body);
      }
      var req := ValidateCreateRequest(body.value);
      if req.Err? {
        return Refusal(StatusBadRequest, Message(req.error));
      }
      var task := service.CreateMigrationTask(req.value, id, dbErr);
      if task.Err? {
        return Refusal(StatusInternalServerError, "Failed to create migration task: " + Message(task.error));
      }
      reply := Reply(StatusOK, 0, "success", Some(TaskCreated(task.value.taskId, task.value.status)));
    }

    /**
     * `StartMigrationHandler`: an empty task ID is refused with 400; a
     * refusal of `StartMigration` is a 500 carrying its text.
     */
    method StartMigrationHandler(taskId: string, now: Time, dbErr: Option<string>) returns (reply: Reply<()>)
      modifies service
      ensures service.progressLog == old(service.progressLog)
      ensures taskId == "" ==> reply == Refusal(StatusBadRequest, "Task ID is required") && service.tasks == old(service.tasks)
      ensures taskId != "" && taskId !in old(service.tasks) ==>
        reply == Refusal(StatusInternalServerError, "Failed to start migration: " + Message(MigrationTaskNotFound)) &&
        service.tasks == old(service.tasks)
      ensures taskId != "" && taskId in old(service.tasks) && StartRefusal(old(service.tasks)[taskId].status).Some? ==>
        reply == Refusal(StatusInternalServerError,
          "Failed to start migration: " + Message(StartRefusal(old(service.tasks)[taskId].status).value)) &&
        service.tasks == old(service.tasks)
      ensures taskId != "" && taskId in old(service.tasks) && StartRefusal(old(service.tasks)[taskId].status).None? ==>
        service.tasks == old(service.tasks)[taskId := old(service.tasks)[taskId].(status := Running, startTime := Some(now))] &&
        (dbErr.None? ==> reply == Reply(StatusOK, 0, "Migration started successfully", None)) &&
        (dbErr.Some? ==> reply == Refusal(StatusInternalServerError,
          "Failed to start migration: " + ("failed to update task status: " + dbErr.value)))
    {
      if taskId == "" {
        return Refusal(StatusBadRequest, "Task ID is required");
      }
      var err := service.StartMigration(taskId, now, dbErr);
      if err.Some? {
        return Refusal(StatusInternalServerError, "Failed to start migration: " + Message(err.value));
      }
      reply := Reply(StatusOK, 0, "Migration started successfully", None);
    }

    /** `GetTaskProgressHandler`: the progress of a task in memory or in the database. */
    method GetTaskProgressHandler(taskId: string, stored: Lookup) returns (reply: Reply<MigrationProgress>)
      ensures taskId == "" ==> reply == Refusal(StatusBadRequest, "Task ID is required")
      ensures taskId != "" && taskId in service.tasks ==>
        reply == Reply(StatusOK, 0, "success", Some(ProgressOf(service.tasks[taskId])))
      ensures taskId != "" && taskId !in service.tasks && stored.Found? ==>
        reply == Reply(StatusOK, 0, "success", Some(ProgressOf(stored.task)))
      ensures taskId != "" && taskId !in service.tasks && stored.NotFound? ==>
        reply == Refusal(StatusInternalServerError, "Failed to get task progress: " + Message(MigrationTaskNotFound))
      ensures taskId != "" && taskId !in service.tasks && stored.LookupFailed? ==>
        reply == Refusal(StatusInternalServerError,
          "Failed to get task progress: " + ("failed to get task from database: " + stored.message))
    {
      if taskId == "" {
        return Refusal(StatusBadRequest, "Task ID is required");
      }
      var progress := service.GetTaskProgress(taskId, stored);
      if progress.Err? {
        return Refusal(StatusInternalServerError, "Failed to get task progress: " + Message(progress.error));
      }
      reply := Reply(StatusOK, 0, "success", Some(progress.value));
    }

    /**
     * `ListTasksHandler`: the clamped page of the stored tasks. The query
     * parameters arrive as the numbers `strconv.Atoi` reads: 0 for text that
     * is not a number, the nearest end of Go's `int` for a number outside it
     * (`AtoiSaturate`). The paging here is in unbounded integers, as the code
     * evidently intends; `PageForAsWritten` is the 64-bit paging as written,
     * which wraps around and can panic.
     */
    static method ListTasksHandler(page: int, pageSize: int, stored: Result<seq<MigrationTask>, string>)
      returns (reply: Reply<Page<MigrationTask>>)
      ensures stored.Err? ==>
        reply == Refusal(StatusInternalServerError, "Failed to list tasks: " + ("failed to list tasks: " + stored.error))
      ensures stored.Ok? ==>
        reply == Reply(StatusOK, 0, "success", Some(PageFor(stored.value, page, pageSize)))
    {
      var tasks := MigrationService.ListTasks(stored);
      if tasks.Err? {
        return Refusal(StatusInternalServerError, "Failed to list tasks: " + Message(tasks.error));
      }
      var p := Paginate(tasks.value, page, pageSize);
      reply := Reply(StatusOK, 0, "success", Some(p));
    }

    /** `CancelTaskHandler`: an empty task ID is refused with 400; a refusal of `CancelTask` is a 500. */
    method CancelTaskHandler(taskId: string, now: Time, dbErr: Option<string>) returns (reply: Reply<()>)
      modifies service
      ensures service.progressLog == old(service.progressLog)
      ensures taskId == "" ==> reply == Refusal(StatusBadRequest, "Task ID is required") && service.tasks == old(service.tasks)
      ensures taskId != "" && taskId !in old(service.tasks) ==>
        reply == Refusal(StatusInternalServerError, "Failed to cancel task: " + Message(MigrationTaskNotFound)) &&
        service.tasks == old(service.tasks)
      ensures taskId != "" && taskId in old(service.tasks) && CancelRefusal(old(service.tasks)[taskId].status).Some? ==>
        reply == Refusal(StatusInternalServerError,
          "Failed to cancel task: " + Message(CancelRefusal(old(service.tasks)[taskId].status).value)) &&
        service.tasks == old(service.tasks)
      ensures taskId != "" && taskId in old(service.tasks) && CancelRefusal(old(service.tasks)[taskId].status).None? ==>
        service.tasks == old(service.tasks)[taskId := old(service.tasks)[taskId].(status := Cancelled, endTime := Some(now))] &&
        (dbErr.None? ==> reply == Reply(StatusOK, 0, "Task cancelled successfully", None)) &&
        (dbErr.Some? ==> reply == Refusal(StatusInternalServerError,
          "Failed to cancel task: " + ("failed to update task status: " + dbErr.value)))
    {
      if taskId == "" {
        return Refusal(StatusBadRequest, "Task ID is required");
      }
      var err := service.CancelTask(taskId, now, dbErr);
      if err.Some? {
        return Refusal(StatusInternalServerError, "Failed to cancel task: " + Message(err.value));
      }
      reply := Reply(StatusOK, 0, "Task cancelled successfully", None);
    }

    /**
     * `TestConnectionHandler`: an unsupported type is a 400; a failed connect
     * or ping is answered with HTTP 200 and code 1; a reachable server gives
     * code 0.
     */
    static method TestConnectionHandler(body: Json<DataSourceConfig>, server: Server) returns (reply: Reply<()>)
      ensures body.Malformed? ==> reply == BadBody(body)
      ensures body.Encoded? && body.value.sourceType != MySqlType ==>
        reply == Refusal(StatusBadRequest, "Unsupported data source type: " + body.value.sourceType)
      ensures body.Encoded? && body.value.sourceType == MySqlType ==> reply.status == StatusOK
      ensures body.Encoded? && body.value.sourceType == MySqlType && Login(server, body.value.database).Err? ==>
        reply == Reply(StatusOK, 1, "Connection failed: " + ("failed to connect to MySQL: " + Login(server, body.value.database).error), None)
      ensures reply.code == 0 <==> body.Encoded? && Opens(body.value, server)
      ensures reply.code == 0 ==> reply == Reply(StatusOK, 0, "Connection test successful", None)
    {
      if body.Malformed? {
        return BadBody(body);
      }
      var config := body.value;
      var ds, err := NewDataSource(config.sourceType, server);
      if err.Some? {
        return Refusal(StatusBadRequest, "Unsupported data source type: " + config.sourceType);
      }
      var cerr := ds.Connect(config);
      if cerr.Some? {
        return Reply(StatusOK, 1, "Connection failed: " + Message(cerr.value), None);
      }
      var terr := ds.TestConnection();
      match terr {
        case Some(e) =>
          reply := Reply(StatusOK, 1, "Connection test failed: " + Message(e), None);
        case None =>
          reply := Reply(StatusOK, 0, "Connection test successful", None);
      }
    }

    /** `ListDatabasesHandler`: every database of the server reached, each once. */
    static method ListDatabasesHandler(body: Json<DataSourceConfig>, server: Server) returns (reply: Reply<seq<string>>)
      ensures body.Malformed? ==> reply == BadBody(body)
      ensures body.Encoded? && body.value.sourceType != MySqlType ==>
        reply == Refusal(StatusBadRequest, "Unsupported data source type: " + body.value.sourceType)
      ensures body.Encoded? && body.value.sourceType == MySqlType && Login(server, body.value.database).Err? ==>
        reply == Refusal(StatusInternalServerError,
          "Failed to connect: " + ("failed to connect to MySQL: " + Login(server, body.value.database).error))
      ensures reply.code == 0 <==> body.Encoded? && Opens(body.value, server)
      ensures reply.code == 0 ==>
        reply.status == StatusOK && reply.msg == "success" && reply.data.Some? &&
        Distinct(reply.data.value) && forall d :: d in reply.data.value <==> d in server.dbs
    {
      if body.Malformed? {
        return BadBody(body);
      }
      var config := body.value;
      var ds, err := NewDataSource(config.sourceType, server);
      if err.Some? {
        return Refusal(StatusBadRequest, "Unsupported data source type: " + config.sourceType);
      }
      var cerr := ds.Connect(config);
      if cerr.Some? {
        return Refusal(StatusInternalServerError, "Failed to connect: " + Message(cerr.value));
      }
      var databases := ds.ListDatabases();
      match databases {
        case Err(e) =>
          reply := Refusal(StatusInternalServerError, "Failed to list databases: " + Message(e));
        case Ok(names) =>
          reply := Reply(StatusOK, 0, "success", Some(names));
      }
    }

    /**
     * `ListTablesHandler`: an empty database name is refused with 400 before
     * any data source is made (`probed` records whether the factory was
     * asked); otherwise every table of that database, each once.
     */
    static method ListTablesHandler(body: Json<ListTablesRequest>, server: Server)
      returns (reply: Reply<seq<string>>, ghost probed: bool)
      ensures body.Malformed? ==> reply == BadBody(body) && !probed
      ensures body.Encoded? && body.value.database == "" ==>
        reply == Refusal(StatusBadRequest, "Database name is required") && !probed
      ensures body.Encoded? && body.value.database != "" ==> probed
      ensures body.Encoded? && body.value.database != "" && body.value.config.sourceType != MySqlType ==>
        reply == Refusal(StatusBadRequest, "Unsupported data source type: " + body.value.config.sourceType)
      ensures (body.Encoded? && body.value.database != "" && Opens(body.value.config, server) &&
        body.value.database !in server.dbs) ==>
        reply.status == StatusInternalServerError && reply.code == 1 && StartsWith(reply.msg, "Failed to list tables: ")
      ensures reply.code == 0 <==>
        body.Encoded? && body.value.database != "" && Opens(body.value.config, server) && body.value.database in server.dbs
      ensures reply.code == 0 ==>
        reply.status == StatusOK && reply.msg == "success" && reply.data.Some? &&
        Distinct(reply.data.value) && forall t :: t in reply.data.value <==> t in server.dbs[body.value.database]
    {
      probed := false;
      if body.Malformed? {
        return BadBody(body), probed;
      }
      var req := body.value;
      if req.database == "" {
        return Refusal(StatusBadRequest, "Database name is required"), probed;
      }
      probed := true;
      var ds, err := NewDataSource(req.config.sourceType, server);
      if err.Some? {
        return Refusal(StatusBadRequest, "Unsupported data source type: " + req.config.sourceType), probed;
      }
      var cerr := ds.Connect(req.config);
      if cerr.Some? {
        return Refusal(StatusInternalServerError, "Failed to connect: " + Message(cerr.value)), probed;
      }
      var tables := ds.ListTables(req.database);
      if tables.Err? {
        var msg := "Failed to list tables: " + Message(tables.error);
        assert msg[..|"Failed to list tables: "|] == "Failed to list tables: ";
        return Refusal(StatusInternalServerError, msg), probed;
      }
      reply := Reply(StatusOK, 0, "success", Some(tables.value));
    }

    /**
     * One pass of the comparison loop: the table name is read back from
     * `database + "." + table`, existence is membership in each side's key
     * set, and a row count is asked only of a side where the table exists; a
     * failed source count leaves the target count at 0.
     */
    static method CompareOne(src: MySqlSource, tgt: MySqlSource, db: string, table: string,
                             srcSet: set<string>, tgtSet: set<string>)
      returns (res: Option<TableCompareResult>)
      requires src.conn != NoConn && tgt.conn != NoConn && src.Unavailable().None? && tgt.Unavailable().None?
      ensures res.Some? <==> ParseTableName(db + "." + table).Ok?
      ensures res.Some? ==>
        var tbl := ParseTableName(db + "." + table).value.1;
        var se, te := db + "." + tbl in srcSet, db + "." + tbl in tgtSet;
        res.value.table == table && res.value.existsInSource == se && res.value.existsInTarget == te &&
        res.value.rowCountSource == (if se then RowsOf(src.server, db, tbl) else 0) &&
        res.value.rowCountTarget == (if te && (se ==> HasTable(src.server, db, tbl)) then RowsOf(tgt.server, db, tbl) else 0)
    {
      var parsed := ParseTableName(db + "." + table);
      if parsed.Err? {
        return None;
      }
      var tbl := parsed.value.1;
      var srcExists, tgtExists := db + "." + tbl in srcSet, db + "." + tbl in tgtSet;
      var srcCount, tgtCount := 0, 0;
      if srcExists {
        var err;
        srcCount, err := src.GetRowCount(db, tbl);
        if err.Some? {
          return Some(TableCompareResult(table, srcExists, tgtExists, srcCount, tgtCount));
        }
      }
      if tgtExists {
        var err;
        tgtCount, err := tgt.GetRowCount(db, tbl);
        if err.Some? {
          return Some(TableCompareResult(table, srcExists, tgtExists, srcCount, tgtCount));
        }
      }
      res := Some(TableCompareResult(table, srcExists, tgtExists, srcCount, tgtCount));
    }

    /** The comparison loop over the requested tables, with both sides listed. */
    static method CompareTables(src: MySqlSource, tgt: MySqlSource, db: string, tables: seq<string>,
                                srcTables: seq<string>, tgtTables: seq<string>, srcSet: set<string>, tgtSet: set<string>)
      returns (results: seq<TableCompareResult>)
      requires src.conn != NoConn && tgt.conn != NoConn && src.Unavailable().None? && tgt.Unavailable().None?
      requires db in src.server.dbs && db in tgt.server.dbs
      requires forall t :: t in srcTables <==> t in src.server.dbs[db]
      requires forall t :: t in tgtTables <==> t in tgt.server.dbs[db]
      requires srcSet == Keyed(db, srcTables) && tgtSet == Keyed(db, tgtTables)
      ensures |results| == |tables|
      ensures forall k :: 0 <= k < |tables| ==> results[k] == Compared(src.server, tgt.server, db, tables[k])
    {
      results := [];
      var i := 0;
      while i < |tables|
        invariant 0 <= i <= |tables| && |results| == i
        invariant forall k :: 0 <= k < i ==> results[k] == Compared(src.server, tgt.server, db, tables[k])
      {
        var one := CompareOne(src, tgt, db, tables[i], srcSet, tgtSet);
        var tbl := CompareKey(db, tables[i]);
        KeyedHas(db, srcTables, tbl);
        KeyedHas(db, tgtTables, tbl);
        if one.Some? {
          results := results + [one.value];
        }
        i := i + 1;
      }
    }

    /** The part of `CompareHandler` after both sides are connected. */
    static method CompareConnected(src: MySqlSource, tgt: MySqlSource, req: CompareRequest)
      returns (reply: Reply<CompareResponse>)
      requires src.conn != NoConn && tgt.conn != NoConn && src.Unavailable().None? && tgt.Unavailable().None?
      ensures req.database !in tgt.server.dbs ==>
        reply.status == StatusInternalServerError && reply.code == 1 && StartsWith(reply.msg, "Failed to list target tables: ")
      ensures req.database in tgt.server.dbs && req.database !in src.server.dbs ==>
        reply.status == StatusInternalServerError && reply.code == 1 && StartsWith(reply.msg, "Failed to list source tables: ")
      ensures reply.code == 0 <==> req.database in tgt.server.dbs && req.database in src.server.dbs
      ensures reply.code == 0 ==>
        reply.status == StatusOK && reply.msg == "success" && reply.data.Some? &&
        Answers(reply.data.value, req, src.server, tgt.server)
    {
      var db := req.database;
      var tgtTables := tgt.ListTables(db);
      if tgtTables.Err? {
        var msg := "Failed to list target tables: " + Message(tgtTables.error);
        assert msg[..|"Failed to list target tables: "|] == "Failed to list target tables: ";
        return Refusal(StatusInternalServerError, msg);
      }
      var tgtSet := KeySet(db, tgtTables.value);
      var srcTables := src.ListTables(db);
      if srcTables.Err? {
        var msg := "Failed to list source tables: " + Message(srcTables.error);
        assert msg[..|"Failed to list source tables: "|] == "Failed to list source tables: ";
        return Refusal(StatusInternalServerError, msg);
      }
      var srcSet := KeySet(db, srcTables.value);
      var results := CompareTables(src, tgt, db, req.tables, srcTables.value, tgtTables.value, srcSet, tgtSet);
      DistinctCard(srcTables.value, src.server.dbs[db].Keys);
      DistinctCard(tgtTables.value, tgt.server.dbs[db].Keys);
      var n, m := |srcTables.value|, |tgtTables.value|;
      reply := Reply(StatusOK, 0, "success", Some(CompareResponse(n == m, n, m, results)));
    }

    /**
     * `CompareHandler`: both sides must be supported and reachable and hold
     * the database; then one result per requested table, in request order,
     * and the counts of all tables of the database on each side.
     */
    static method CompareHandler(body: Json<CompareRequest>, srcServer: Server, tgtServer: Server)
      returns (reply: Reply<CompareResponse>)
      ensures body.Malformed? ==> reply == BadBody(body)
      ensures body.Encoded? && body.value.sourceConfig.sourceType != MySqlType ==>
        reply == Refusal(StatusBadRequest, "Unsupported source data source type: " + body.value.sourceConfig.sourceType)
      ensures (body.Encoded? && body.value.sourceConfig.sourceType == MySqlType &&
        Login(srcServer, body.value.sourceConfig.database).Err?) ==>
        reply == Refusal(StatusInternalServerError,
          "源库连接失败: " + ("failed to connect to MySQL: " + Login(srcServer, body.value.sourceConfig.database).error))
      ensures body.Encoded? && Opens(body.value.sourceConfig, srcServer) && body.value.targetConfig.sourceType != MySqlType ==>
        reply == Refusal(StatusBadRequest, "Unsupported target data source type: " + body.value.targetConfig.sourceType)
      ensures (body.Encoded? && Opens(body.value.sourceConfig, srcServer) && body.value.targetConfig.sourceType == MySqlType &&
        Login(tgtServer, body.value.targetConfig.database).Err?) ==>
        reply == Refusal(StatusInternalServerError,
          "目标库连接失败: " + ("failed to connect to MySQL: " + Login(tgtServer, body.value.targetConfig.database).error))
      ensures (body.Encoded? && Opens(body.value.sourceConfig, srcServer) && Opens(body.value.targetConfig, tgtServer) &&
        body.value.database !in tgtServer.dbs) ==>
        reply.status == StatusInternalServerError && StartsWith(reply.msg, "Failed to list target tables: ")
      ensures (body.Encoded? && Opens(body.value.sourceConfig, srcServer) && Opens(body.value.targetConfig, tgtServer) &&
        body.value.database in tgtServer.dbs && body.value.database !in srcServer.dbs) ==>
        reply.status == StatusInternalServerError && StartsWith(reply.msg, "Failed to list source tables: ")
      ensures reply.code == 0 <==>
        body.Encoded? && Opens(body.value.sourceConfig, srcServer) && Opens(body.value.targetConfig, tgtServer) &&
        body.value.database in srcServer.dbs && body.value.database in tgtServer.dbs
      ensures reply.code == 0 ==>
        reply.status == StatusOK && reply.msg == "success" && reply.data.Some? &&
        Answers(reply.data.value, body.value, srcServer, tgtServer)
    {
      if body.Malformed? {
        return BadBody(body);
      }
      var req := body.value;
      var srcDS, err := NewDataSource(req.sourceConfig.sourceType, srcServer);
      if err.Some? {
        return Refusal(StatusBadRequest, "Unsupported source data source type: " + req.sourceConfig.sourceType);
      }
      var cerr := srcDS.Connect(req.sourceConfig);
      if cerr.Some? {
        return Refusal(StatusInternalServerError, "源库连接失败: " + Message(cerr.value));
      }
      var tgtDS, terr := NewDataSource(req.targetConfig.sourceType, tgtServer);
      if terr.Some? {
        return Refusal(StatusBadRequest, "Unsupported target data source type: " + req.targetConfig.sourceType);
      }
      cerr := tgtDS.Connect(req.targetConfig);
      if cerr.Some? {
        return Refusal(StatusInternalServerError, "目标库连接失败: " + Message(cerr.value));
      }
      reply := CompareConnected(srcDS, tgtDS, req);
    }
  }

  /**
   * What a successful comparison answers: one result per requested table in
   * request order, and the number of all tables of the database on each
   * side, equal or not.
   */
  ghost predicate Answers(resp: CompareResponse, req: CompareRequest, src: Server, tgt: Server)
    requires req.database in src.dbs && req.database in tgt.dbs
  {
    var db := req.database;
    resp.tableCountSource == |src.dbs[db]| && resp.tableCountTarget == |tgt.dbs[db]| &&
    (resp.tableCountEqual <==> |src.dbs[db]| == |tgt.dbs[db]|) &&
    |resp.tables| == |req.tables| &&
    forall k :: 0 <= k < |req.tables| ==> resp.tables[k] == Compared(src, tgt, db, req.tables[k])
  }
}
