/**
 * The HTTP handlers of the older migration engine
 * (`internal/datamigrate/api.go`), the ones the router serves: request
 * validation, the task endpoints, paging of the task list and the
 * data-source probes. It has no comparison endpoint.
 */
module OldApi {
  import opened Wrappers
  import opened Errs
  import opened Strs
  import opened MigrationModel
  import opened SqlServer
  import opened MySqlCommon
  import opened OldSource
  import opened OldEngine
  import opened ApiCommon

  /**
   * `validateCreateRequest` of the older package: the same three refusals
   * and the same default batch size, on the older request. The Go function
   * updates the request in place; here it returns it.
   */
  function ValidateOldRequest(req: OldRequest): (r: Result<OldRequest, Error>)
    ensures r.Err? <==> req.sourceConfig.sourceType == "" || req.targetConfig.sourceType == "" || req.database == ""
    ensures r.Err? ==> r.error == InvalidConfig
    ensures r.Ok? ==> r.value.batchSize > 0 && r.value == req.(batchSize := r.value.batchSize)
    ensures r.Ok? && req.batchSize > 0 ==> r.value == req
    ensures r.Ok? && req.batchSize <= 0 ==> r.value.batchSize == DefaultBatchSize
  {
    if req.sourceConfig.sourceType == "" || req.targetConfig.sourceType == "" || req.database == "" then
      Err(InvalidConfig)
    else if req.batchSize <= 0 then Ok(req.(batchSize := DefaultBatchSize))
    else Ok(req)
  }

  class OldApiHandler {
    /** `service`. */
    const service: OldMigrationService

    constructor()
      ensures fresh(service) && service.tasks == map[] && service.progressLog == map[]
    {
      service := new OldMigrationService();
    }

    /**
     * `CreateMigrationTaskHandler`: a body that does not decode or does not
     * validate is refused with 400 and never reaches `CreateMigrationTask`;
     * otherwise the validated request becomes a pending task.
     */
    method CreateMigrationTaskHandler(body: Json<OldRequest>, id: string, dbErr: Option<string>)
      returns (reply: Reply<TaskCreated>)
      modifies service
      ensures service.progressLog == old(service.progressLog)
      ensures body.Malformed? ==> reply == BadBody(body) && service.tasks == old(service.tasks)
      ensures body.Encoded? && ValidateOldRequest(body.value).Err? ==>
        reply == Refusal(StatusBadRequest, Message(InvalidConfig)) && service.tasks == old(service.tasks)
      ensures body.Encoded? && ValidateOldRequest(body.value).Ok? && dbErr.Some? ==>
        reply == Refusal(StatusInternalServerError,
          "Failed to create migration task: " + ("failed to create migration task: " + dbErr.value)) &&
        service.tasks == old(service.tasks)
      ensures reply.code == 0 <==> body.Encoded? && ValidateOldRequest(body.value).Ok? && dbErr.None?
      ensures reply.code == 0 ==>
        reply == Reply(StatusOK, 0, "success", Some(TaskCreated(id, Pending))) &&
        service.tasks == old(service.tasks)[id := NewTask(id, ValidateOldRequest(body.value).value)] &&
        service.tasks[id].batchSize > 0
    {
      if body.Malformed? {
        return BadBody(body);
      }
      var req := ValidateOldRequest(body.value);
      if req.Err? {
        return Refusal(StatusBadRequest, Message(req.error));
      }
      var task := service.CreateMigrationTask(req.value, id, dbErr);
      if task.Err? {
        return Refusal(StatusInternalServerError, "Failed to create migration task: " + Message(task.error));
      }
      reply := Reply(StatusOK, 0, "success", Some(TaskCreated(task.value.taskId, task.value.status)));
    }

    /**
     * `StartMigrationHandler`: an empty task ID is refused with 400; an
     * unknown, running or completed task is a 500 carrying the refusal.
     */
    method StartMigrationHandler(taskId: string, now: Time, dbErr: Option<string>) returns (reply: Reply<()>)
      modifies service
      ensures service.progressLog == old(service.progressLog)
      ensures taskId == "" ==> reply == Refusal(StatusBadRequest, "Task ID is required") && service.tasks == old(service.tasks)
      ensures taskId != "" && taskId !in old(service.tasks) ==>
        reply == Refusal(StatusInternalServerError, "Failed to start migration: " + Message(MigrationTaskNotFound)) &&
        service.tasks == old(service.tasks)
      ensures taskId != "" && taskId in old(service.tasks) && old(service.tasks)[taskId].status == Running ==>
        reply == Refusal(StatusInternalServerError, "Failed to start migration: " + Message(MigrationTaskRunning)) &&
        service.tasks == old(service.tasks)
      ensures taskId != "" && taskId in old(service.tasks) && old(service.tasks)[taskId].status == Completed ==>
        reply == Refusal(StatusInternalServerError, "Failed to start migration: " + Message(MigrationTaskCompleted)) &&
        service.tasks == old(service.tasks)
      ensures (taskId != "" && taskId in old(service.tasks) &&
        old(service.tasks)[taskId].status != Running && old(service.tasks)[taskId].status != Completed) ==>
        service.tasks == old(service.tasks)[taskId := old(service.tasks)[taskId].(status := Running, startTime := Some(now))] &&
        (dbErr.None? ==> reply == Reply(StatusOK, 0, "Migration started successfully", None)) &&
        (dbErr.Some? ==> reply == Refusal(StatusInternalServerError,
          "Failed to start migration: " + ("failed to update task status: " + dbErr.value)))
    {
      if taskId == "" {
        return Refusal(StatusBadRequest, "Task ID is required");
      }
      var err := service.StartMigration(taskId, now, dbErr);
      if err.Some? {
        return Refusal(StatusInternalServerError, "Failed to start migration: " + Message(err.value));
      }
      reply := Reply(StatusOK, 0, "Migration started successfully", None);
    }

    /** `GetTaskProgressHandler`: the progress of a task in memory or in the database. */
    method GetTaskProgressHandler(taskId: string, stored: OldLookup) returns (reply: Reply<MigrationProgress>)
      ensures taskId == "" ==> reply == Refusal(StatusBadRequest, "Task ID is required")
      ensures taskId != "" && taskId in service.tasks ==>
        reply == Reply(StatusOK, 0, "success", Some(OldProgressOf(service.tasks[taskId])))
      ensures taskId != "" && taskId !in service.tasks && stored.Found? ==>
        reply == Reply(StatusOK, 0, "success", Some(OldProgressOf(stored.task)))
      ensures taskId != "" && taskId !in service.tasks && stored.NotFound? ==>
        reply == Refusal(StatusInternalServerError, "Failed to get task progress: " + Message(MigrationTaskNotFound))
      ensures taskId != "" && taskId !in service.tasks && stored.LookupFailed? ==>
        reply == Refusal(StatusInternalServerError,
          "Failed to get task progress: " + ("failed to get task from database: " + stored.message))
    {
      if taskId == "" {
        return Refusal(StatusBadRequest, "Task ID is required");
      }
      var progress := service.GetTaskProgress(taskId, stored);
      if progress.Err? {
        return Refusal(StatusInternalServerError, "Failed to get task progress: " + Message(progress.error));
      }
      reply := Reply(StatusOK, 0, "success", Some(progress.value));
    }

    /**
     * `ListTasksHandler`: the clamped page of the stored tasks. The query
     * parameters arrive as the numbers `strconv.Atoi` reads: 0 for text that
     * is not a number, the nearest end of Go's `int` for a number outside it
     * (`AtoiSaturate`). The paging here is in unbounded integers, as the code
     * evidently intends; `PageForAsWritten` is the 64-bit paging as written,
     * which wraps around and can panic.
     */
    static method ListTasksHandler(page: int, pageSize: int, stored: Result<seq<OldTask>, string>)
      returns (reply: Reply<Page<OldTask>>)
      ensures stored.Err? ==>
        reply == Refusal(StatusInternalServerError, "Failed to list tasks: " + ("failed to list tasks: " + stored.error))
      ensures stored.Ok? ==>
        reply == Reply(StatusOK, 0, "success", Some(PageFor(stored.value, page, pageSize)))
    {
      var tasks := OldMigrationService.ListTasks(stored);
      if tasks.Err? {
        return Refusal(StatusInternalServerError, "Failed to list tasks: " + Message(tasks.error));
      }
      var p := Paginate(tasks.value, page, pageSize);
      reply := Reply(StatusOK, 0, "success", Some(p));
    }

    /** `CancelTaskHandler`: an empty task ID is refused with 400; a refusal of `CancelTask` is a 500. */
    method CancelTaskHandler(taskId: string, now: Time, dbErr: Option<string>) returns (reply: Reply<()>)
      modifies service
      ensures service.progressLog == old(service.progressLog)
      ensures taskId == "" ==> reply == Refusal(StatusBadRequest, "Task ID is required") && service.tasks == old(service.tasks)
      ensures taskId != "" && taskId !in old(service.tasks) ==>
        reply == Refusal(StatusInternalServerError, "Failed to cancel task: " + Message(MigrationTaskNotFound)) &&
        service.tasks == old(service.tasks)
      ensures (taskId != "" && taskId in old(service.tasks) &&
        old(service.tasks)[taskId].status != Pending && old(service.tasks)[taskId].status != Running) ==>
        reply == Refusal(StatusInternalServerError,
          "Failed to cancel task: " + ("cannot cancel task with status: " + StatusText(old(service.tasks)[taskId].status))) &&
        service.tasks == old(service.tasks)
      ensures (taskId != "" && taskId in old(service.tasks) &&
        (old(service.tasks)[taskId].status == Pending || old(service.tasks)[taskId].status == Running)) ==>
        service.tasks == old(service.tasks)[taskId := old(service.tasks)[taskId].(status := Cancelled, endTime := Some(now))] &&
        (dbErr.None? ==> reply == Reply(StatusOK, 0, "Task cancelled successfully", None)) &&
        (dbErr.Some? ==> reply == Refusal(StatusInternalServerError,
          "Failed to cancel task: " + ("failed to update task status: " + dbErr.value)))
    {
      if taskId == "" {
        return Refusal(StatusBadRequest, "Task ID is required");
      }
      var err := service.CancelTask(taskId, now, dbErr);
      if err.Some? {
        return Refusal(StatusInternalServerError, "Failed to cancel task: " + Message(err.value));
      }
      reply := Reply(StatusOK, 0, "Task cancelled successfully", None);
    }

    /**
     * `TestConnectionHandler`: an unsupported type is a 400 with code 1; a
     * failed connect or ping is answered with HTTP 200 and code 1; a
     * reachable server gives code 0.
     */
    static method TestConnectionHandler(body: Json<DataSourceConfig>, server: Server) returns (reply: Reply<()>)
      ensures body.Malformed? ==> reply == BadBody(body)
      ensures body.Encoded? && body.value.sourceType != MySqlType ==>
        reply == Refusal(StatusBadRequest, "Unsupported data source type: " + body.value.sourceType)
      ensures body.Encoded? && body.value.sourceType == MySqlType ==> reply.status == StatusOK
      ensures body.Encoded? && body.value.sourceType == MySqlType && Login(server, body.value.database).Err? ==>
        reply == Reply(StatusOK, 1, "Connection failed: " + ("failed to connect to MySQL: " + Login(server, body.value.database).error), None)
      ensures reply.code == 0 <==> body.Encoded? && Opens(body.value, server)
      ensures reply.code == 0 ==> reply == Reply(StatusOK, 0, "Connection test successful", None)
    {
      if body.Malformed? {
        return BadBody(body);
      }
      var config := body.value;
      var ds, err := NewOldDataSource(config.sourceType, server);
      if err.Some? {
        return Refusal(StatusBadRequest, "Unsupported data source type: " + config.sourceType);
      }
      var cerr := ds.Connect(config);
      if cerr.Some? {
        return Reply(StatusOK, 1, "Connection failed: " + Message(cerr.value), None);
      }
      var terr := ds.TestConnection();
      match terr {
        case Some(e) =>
          reply := Reply(StatusOK, 1, "Connection test failed: " + Message(e), None);
        case None =>
          reply := Reply(StatusOK, 0, "Connection test successful", None);
      }
    }

    /** `ListDatabasesHandler`: every database of the server reached, each once. */
    static method ListDatabasesHandler(body: Json<DataSourceConfig>, server: Server) returns (reply: Reply<seq<string>>)
      ensures body.Malformed? ==> reply == BadBody(body)
      ensures body.Encoded? && body.value.sourceType != MySqlType ==>
        reply == Refusal(StatusBadRequest, "Unsupported data source type: " + body.value.sourceType)
      ensures body.Encoded? && body.value.sourceType == MySqlType && Login(server, body.value.database).Err? ==>
        reply == Refusal(StatusInternalServerError,
          "Failed to connect: " + ("failed to connect to MySQL: " + Login(server, body.value.database).error))
      ensures reply.code == 0 <==> body.Encoded? && Opens(body.value, server)
      ensures reply.code == 0 ==>
        reply.status == StatusOK && reply.msg == "success" && reply.data.Some? &&
        Distinct(reply.data.value) && forall d :: d in reply.data.value <==> d in server.dbs
    {
      if body.Malformed? {
        return BadBody(body);
      }
      var config := body.value;
      var ds, err := NewOldDataSource(config.sourceType, server);
      if err.Some? {
        return Refusal(StatusBadRequest, "Unsupported data source type: " + config.sourceType);
      }
      var cerr := ds.Connect(config);
      if cerr.Some? {
        return Refusal(StatusInternalServerError, "Failed to connect: " + Message(cerr.value));
      }
      var databases := ds.ListDatabases();
      match databases {
        case Err(e) =>
          reply := Refusal(StatusInternalServerError, "Failed to list databases: " + Message(e));
        case Ok(names) =>
          reply := Reply(StatusOK, 0, "success", Some(names));
      }
    }

    /**
     * `ListTablesHandler`: an empty database name is refused with 400 before
     * any connection is attempted (`probed` records whether the factory was
     * asked); otherwise every table of that database, each once.
     */
    static method ListTablesHandler(body: Json<ListTablesRequest>, server: Server)
      returns (reply: Reply<seq<string>>, ghost probed: bool)
      ensures body.Malformed? ==> reply == BadBody(body) && !probed
      ensures body.Encoded? && body.value.database == "" ==>
        reply == Refusal(StatusBadRequest, "Database name is required") && !probed
      ensures body.Encoded? && body.value.database != "" ==> probed
      ensures body.Encoded? && body.value.database != "" && body.value.config.sourceType != MySqlType ==>
        reply == Refusal(StatusBadRequest, "Unsupported data source type: " + body.value.config.sourceType)
      ensures (body.Encoded? && body.value.database != "" && Opens(body.value.config, server) &&
        body.value.database !in server.dbs) ==>
        reply.status == StatusInternalServerError && reply.code == 1 && StartsWith(reply.msg, "Failed to list tables: ")
      ensures reply.code == 0 <==>
        body.Encoded? && body.value.database != "" && Opens(body.value.config, server) && body.value.database in server.dbs
      ensures reply.code == 0 ==>
        reply.status == StatusOK && reply.msg == "success" && reply.data.Some? &&
        Distinct(reply.data.value) && forall t :: t in reply.data.value <==> t in server.dbs[body.value.database]
    {
      probed := false;
      if body.Malformed? {
        return BadBody(body), probed;
      }
      var req := body.value;
      if req.database == "" {
        return Refusal(StatusBadRequest, "Database name is required"), probed;
      }
      probed := true;
      var ds, err := NewOldDataSource(req.config.sourceType, server);
      if err.Some? {
        return Refusal(StatusBadRequest, "Unsupported data source type: " + req.config.sourceType), probed;
      }
      var cerr := ds.Connect(req.config);
      if cerr.Some? {
        return Refusal(StatusInternalServerError, "Failed to connect: " + Message(cerr.value)), probed;
      }
      var tables := ds.ListTables(req.database);
      if tables.Err? {
        var msg := "Failed to list tables: " + Message(tables.error);
        assert msg[..|"Failed to list tables: "|] == "Failed to list tables: ";
        return Refusal(StatusInternalServerError, msg), probed;
      }
      reply := Reply(StatusOK, 0, "success", Some(tables.value));
    }
  }
}
