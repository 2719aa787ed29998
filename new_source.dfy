/**
 * The newer MySQL data source (`internal/service/datamigrate/mysql.go`) and the
 * data-source factory (`internal/service/datamigrate/datasource.go`).
 *
 * A `MySqlSource` holds the server its configuration addresses, the state of
 * its `*gorm.DB` handle and the configuration of its last `Connect`. Calling a
 * query method on a handle that was never opened dereferences nil in the Go
 * code; those methods therefore require an opened handle.
 */
module NewSource {
  import opened Wrappers
  import opened Errs
  import opened Strs
  import opened MigrationModel
  import opened SqlServer
  import opened MySqlCommon

  class MySqlSource {
    var server: Server
    var conn: Conn
    var config: DataSourceConfig

    /** `&MySQLDataSource{}` reaching `server`. */
    constructor(server: Server)
      ensures this.server == server && conn == NoConn && config == EmptyConfig
    {
      this.server := server;
      conn := NoConn;
      config := EmptyConfig;
    }

    /** Why a statement on the handle fails before it reaches any data: a closed handle or a server gone away. */
    function Unavailable(): (r: Option<string>)
      reads this
      ensures r.None? <==> conn != Closed && server.up
    {
      if conn == Closed then Some(DatabaseClosed)
      else if !server.up then Some(InvalidConnection)
      else None
    }

    /** `Connect`: remembers the configuration, and opens the handle when the server accepts the login. */
    method Connect(cfg: DataSourceConfig) returns (err: Option<Error>)
      modifies this
      ensures config == cfg && server == old(server)
      ensures err.None? <==> Login(server, cfg.database).Ok?
      ensures err.None? ==> conn == Open
      ensures err.Some? ==> conn == old(conn)
      ensures err.Some? ==> err == Some(Failure("failed to connect to MySQL: " + Login(server, cfg.database).error))
    {
      config := cfg;
      match Login(server, cfg.database)
      case Err(m) =>
        err := Some(Failure("failed to connect to MySQL: " + m));
      case Ok(_) =>
        conn := Open;
        err := None;
    }

    /** `TestConnection`: a never-opened handle is `ErrConnectionFailed`; otherwise the ping's outcome. */
    method TestConnection() returns (err: Option<Error>)
      ensures conn == NoConn ==> err == Some(ConnectionFailed)
      ensures conn != NoConn ==> (err.None? <==> Unavailable().None?)
    {
      if conn == NoConn {
        return Some(ConnectionFailed);
      }
      match Unavailable()
      case Some(m) => err := Some(Failure(m));
      case None => err := None;
    }

    /** `ListDatabases`: every database once, in the server's order. */
    method ListDatabases() returns (r: Result<seq<string>, Error>)
      requires conn != NoConn
      ensures r.Ok? <==> Unavailable().None?
      ensures r.Ok? ==> Distinct(r.value) && forall d :: d in r.value <==> d in server.dbs
      ensures r.Err? ==> r.error == Failure("failed to list databases: " + Unavailable().value)
    {
      match Unavailable()
      case Some(m) =>
        r := Err(Failure("failed to list databases: " + m));
      case None =>
        var names := Enumerate(server.dbs.Keys);
        r := Ok(names);
    }

    /** `ListTables`: every table of the database once. */
    method ListTables(db: string) returns (r: Result<seq<string>, Error>)
      requires conn != NoConn
      ensures r.Ok? <==> Unavailable().None? && db in server.dbs
      ensures r.Ok? ==> Distinct(r.value) && forall t :: t in r.value <==> t in server.dbs[db]
      ensures r.Err? ==> StartsWith(Message(r.error), "failed to list tables: ")
    {
      if Unavailable().Some? {
        return Err(Failure("failed to list tables: " + Unavailable().value));
      }
      match ShowTables(server, db)
      case Err(m) =>
        r := Err(Failure("failed to list tables: " + m));
      case Ok(names) =>
        var listed := Enumerate(names);
        r := Ok(listed);
    }

    /** `GetTableSchema`: `SHOW CREATE TABLE` decides existence; only the name is filled in. */
    method GetTableSchema(db: string, t: string) returns (r: Result<TableSchema, Error>)
      requires conn != NoConn
      ensures r.Ok? <==> Unavailable().None? && HasTable(server, db, t)
      ensures r.Ok? ==> r.value == TableSchema(t, [], [], "")
      ensures r.Err? ==> StartsWith(Message(r.error), "failed to get table DDL: ")
    {
      if Unavailable().Some? {
        return Err(Failure("failed to get table DDL: " + Unavailable().value));
      }
      match ShowCreate(server, db, t)
      case Err(m) =>
        r := Err(Failure("failed to get table DDL: " + m));
      case Ok(_) =>
        r := Ok(TableSchema(t, [], [], ""));
    }

    /** `ReadRows` without a WHERE clause: the selected window of rows, each without its NULL values. */
    method ReadRows(db: string, t: string, offset: int, limit: int) returns (r: Result<seq<Record>, Error>)
      requires conn != NoConn
      ensures r.Ok? <==> Unavailable().None? && offset >= 0 && limit >= 0 && HasTable(server, db, t)
      ensures r.Ok? ==>
        var rows := server.dbs[db][t].rows;
        var cols := ColumnNames(server.dbs[db][t].def.columns);
        var lo := Min(offset, |rows|);
        |r.value| == Min(offset + limit, |rows|) - lo &&
        forall i :: 0 <= i < |r.value| ==> r.value[i] == NonNull(rows[lo + i], cols)
      ensures r.Err? ==> StartsWith(Message(r.error), "failed to read rows: ")
    {
      if Unavailable().Some? {
        return Err(Failure("failed to read rows: " + Unavailable().value));
      }
      match SelectRows(server, db, t, offset, limit)
      case Err(m) =>
        r := Err(Failure("failed to read rows: " + m));
      case Ok((cols, scanned)) =>
        var built := BuildRows(cols, scanned);
        var rows := server.dbs[db][t].rows;
        var lo := Min(offset, |rows|);
        forall i | 0 <= i < |built|
          ensures built[i] == NonNull(rows[lo + i], cols)
        {
          BuildRowNonNull(rows[lo + i], cols);
        }
        r := Ok(built);
    }

    /** `GetTableColumns`: the target table's column names, in definition order. */
    method GetTableColumns(db: string, t: string) returns (r: Result<seq<string>, Error>)
      requires conn != NoConn
      ensures r.Ok? <==> Unavailable().None? && HasTable(server, db, t)
      ensures r.Ok? ==> r.value == ColumnNames(server.dbs[db][t].def.columns)
    {
      if Unavailable().Some? {
        return Err(Failure(Unavailable().value));
      }
      match ShowColumns(server, db, t)
      case Err(m) => r := Err(Failure(m));
      case Ok(cols) => r := Ok(cols);
    }

    /** One INSERT through the handle: refused before the server when the handle is unusable. */
    method Exec(db: string, t: string, cols: seq<string>, values: seq<Value>) returns (e: Option<string>)
      requires conn != NoConn
      modifies this
      ensures conn == old(conn) && config == old(config)
      ensures old(Unavailable()).Some? ==> e == old(Unavailable()) && server == old(server)
      ensures old(Unavailable()).None? ==> (server, e) == ExecInsert(old(server), db, t, cols, values)
    {
      e := Unavailable();
      if e.None? {
        var (s, x) := ExecInsert(server, db, t, cols, values);
        server := s;
        e := x;
      }
    }

    /** `Close`: an opened handle becomes closed; a nil one stays nil. */
    method Close() returns (err: Option<Error>)
      modifies this
      ensures err.None?
      ensures server == old(server) && config == old(config)
      ensures conn == (if old(conn) == NoConn then NoConn else Closed)
    {
      if conn != NoConn {
        conn := Closed;
      }
      err := None;
    }

    /**
     * The retry loop of `WriteRows` for one batch: a failure whose text names an
     * invalid connection or a broken pipe closes the handle, reconnects with the
     * remembered configuration and tries again, at most `MaxRetry` times; any
     * other failure, a failed reconnect, or a failure after the last retry is
     * returned. The batch is stored wholly or not at all.
     */
    method ExecWithRetry(db: string, t: string, cols: seq<string>, values: seq<Value>) returns (err: Option<Error>)
      requires conn != NoConn
      modifies this
      ensures config == old(config)
      ensures err.None? ==>
        HasTable(old(server), db, t) && |cols| > 0 && Distinct(cols) &&
        server.dbs == Appended(old(server), db, t, Unflatten(cols, values)).dbs
      ensures err.Some? ==> server.dbs == old(server.dbs)
      ensures err.Some? ==> (err.value.Failure? &&
        (StartsWith(err.value.text, "failed to reconnect: ") || StartsWith(err.value.text, "failed to write batch rows: ")))
      ensures |old(server.inserts)| - |server.inserts| <= MaxRetry + 1
      ensures conn != NoConn
    {
      var retry := 0;
      while true
        invariant 0 <= retry <= MaxRetry
        invariant conn != NoConn && config == old(config)
        invariant server.dbs == old(server.dbs)
        invariant |server.inserts| <= |old(server.inserts)| && |old(server.inserts)| - |server.inserts| <= retry
        decreases MaxRetry - retry
      {
        ghost var before := server;
        var e := Exec(db, t, cols, values);
        if e.None? {
          assert server.dbs == Appended(before, db, t, Unflatten(cols, values)).dbs;
          return None;
        }
        var msg := e.value;
        if Retryable(msg) && retry < MaxRetry {
          retry := retry + 1;
          var _ := Close();
          var cerr := Connect(config);
          if cerr.Some? {
            return Some(Failure("failed to reconnect: " + Message(cerr.value)));
          }
          continue;
        }
        return Some(Failure("failed to write batch rows: " + msg));
      }
    }

    /**
     * `WriteRows`: the rows are sent in consecutive batches of `batchSize`
     * (the last may be shorter), each batch flattened in the target table's
     * column order. Batches before a failing one stay stored; `committed` is
     * how many rows that is. No rows: nothing is executed.
     */
    method WriteRows(db: string, t: string, rows: seq<Record>, batchSize: int) returns (err: Option<Error>, ghost committed: nat)
      requires batchSize > 0 && conn != NoConn
      modifies this
      ensures config == old(config) && conn != NoConn
      ensures |rows| == 0 ==> err.None? && server == old(server) && conn == old(conn)
      ensures committed <= |rows| && (err.None? ==> committed == |rows|)
      ensures committed < |rows| ==> WholeBatches(committed, batchSize)
      ensures committed == 0 ==> server.dbs == old(server.dbs)
      ensures committed > 0 ==>
        HasTable(old(server), db, t) &&
        var cols := ColumnNames(old(server).dbs[db][t].def.columns);
        Distinct(cols) && server.dbs == AfterWrite(old(server), db, t, rows, cols, true, committed).dbs
    {
      committed := 0;
      if |rows| == 0 {
        return None, 0;
      }
      var colsR := GetTableColumns(db, t);
      if colsR.Err? {
        return Some(Failure("failed to get table columns: " + Message(colsR.error))), 0;
      }
      var cols := colsR.value;
      ghost var s0 := old(server);
      assert HasTable(s0, db, t) && cols == ColumnNames(s0.dbs[db][t].def.columns);
      var i := 0;
      while i < |rows|
        invariant i == committed
        invariant committed <= |rows| && (committed < |rows| ==> WholeBatches(committed, batchSize))
        invariant config == old(config) && conn != NoConn
        invariant committed == 0 ==> server.dbs == s0.dbs
        invariant committed > 0 ==> Distinct(cols) && server.dbs == AfterWrite(s0, db, t, rows, cols, true, committed).dbs
        decreases |rows| - i
      {
        var end := if i + batchSize > |rows| then |rows| else i + batchSize;
        assert end < |rows| ==> end - batchSize == i && WholeBatches(end, batchSize);
        var batch := rows[i..end];
        var values := FlattenBatch(batch, cols, true);
        ghost var before := server;
        err := ExecWithRetry(db, t, cols, values);
        if err.Some? {
          return;
        }
        UnflattenFlatten(batch, cols, true);
        AppendStored(s0, before, db, t, rows, cols, true, i, end);
        committed := end;
        i := end;
      }
      err := None;
    }

    /**
     * `CreateTable`: a missing schema or one without columns is
     * `ErrInvalidSchema`; otherwise the statement names the table by database
     * and creates it with the schema's columns and comment.
     */
    method CreateTable(db: string, schema: Option<TableSchema>) returns (err: Option<Error>)
      requires conn != NoConn
      modifies this
      ensures conn == old(conn) && config == old(config)
      ensures !ValidSchema(schema) ==> err == Some(InvalidSchema) && server == old(server)
      ensures err.None? <==>
        ValidSchema(schema) && old(Unavailable()).None? &&
        ExecCreate(old(server), config.database, CreateStatement(QualifiedHead(db, schema.value.name), DefOf(schema.value))).Ok?
      ensures err.None? ==>
        server == ExecCreate(old(server), config.database, CreateStatement(QualifiedHead(db, schema.value.name), DefOf(schema.value))).value
      ensures err.Some? ==> server == old(server)
      ensures ValidSchema(schema) && err.Some? ==> StartsWith(Message(err.value), "failed to create table: ")
    {
      if !ValidSchema(schema) {
        return Some(InvalidSchema);
      }
      var sc := schema.value;
      var defs := ColumnDefs(sc.columns);
      var query := CreateTableSql(db, sc, defs);
      // The statement text starts with the qualified head; the server reads the head and the column list.
      var stmt := CreateStatement(QualifiedHead(db, sc.name), DefOf(sc));
      if Unavailable().Some? {
        return Some(Failure("failed to create table: " + Unavailable().value));
      }
      match ExecCreate(server, config.database, stmt)
      case Err(m) =>
        err := Some(Failure("failed to create table: " + m));
      case Ok(s) =>
        server := s;
        err := None;
    }

    /** `DropTable`: `DROP TABLE IF EXISTS`, an error only when the handle is unusable. */
    method DropTable(db: string, t: string) returns (err: Option<Error>)
      requires conn != NoConn
      modifies this
      ensures conn == old(conn) && config == old(config)
      ensures err.None? <==> old(Unavailable()).None?
      ensures err.None? ==> server == ExecDrop(old(server), db, t) && !HasTable(server, db, t)
      ensures err.Some? ==> server == old(server) && err == Some(Failure("failed to drop table: " + old(Unavailable()).value))
    {
      if Unavailable().Some? {
        return Some(Failure("failed to drop table: " + Unavailable().value));
      }
      server := ExecDrop(server, db, t);
      err := None;
    }

    /** `GetRowCount`: the number of rows, or 0 with the error. */
    method GetRowCount(db: string, t: string) returns (count: int, err: Option<Error>)
      requires conn != NoConn
      ensures err.None? <==> Unavailable().None? && HasTable(server, db, t)
      ensures err.None? ==> count == |server.dbs[db][t].rows|
      ensures err.Some? ==> count == 0 && StartsWith(Message(err.value), "failed to get row count: ")
    {
      if Unavailable().Some? {
        return 0, Some(Failure("failed to get row count: " + Unavailable().value));
      }
      match CountRows(server, db, t)
      case Err(m) =>
        count, err := 0, Some(Failure("failed to get row count: " + m));
      case Ok(n) =>
        count, err := n, None;
    }

    /**
     * `CreateDatabaseIfNotExists`: an empty name is refused; without an opened
     * handle a temporary connection with no default database is used;
     * otherwise the handle's own error, if any, is returned as it is.
     */
    method CreateDatabaseIfNotExists(db: string) returns (err: Option<Error>)
      modifies this
      ensures conn == old(conn) && config == old(config)
      ensures db == "" ==> err == Some(Failure("database name is empty"))
      ensures err.None? <==>
        db != "" && (if old(conn) == NoConn then old(server).up else old(Unavailable()).None?)
      ensures err.None? ==> server == CreateDatabase(old(server), db) && db in server.dbs
      ensures err.Some? ==> server == old(server)
      ensures db != "" && old(conn) == NoConn && err.Some? ==>
        err.value == Failure("failed to connect to MySQL for create database: " + ConnectionRefused)
      ensures db != "" && old(conn) != NoConn && err.Some? ==> err.value == Failure(old(Unavailable()).value)
    {
      if db == "" {
        return Some(Failure("database name is empty"));
      }
      if conn == NoConn {
        match Login(server, "")
        case Err(m) =>
          return Some(Failure("failed to connect to MySQL for create database: " + m));
        case Ok(_) =>
          server := CreateDatabase(server, db);
          return None;
      }
      match Unavailable()
      case Some(m) =>
        err := Some(Failure(m));
      case None =>
        server := CreateDatabase(server, db);
        err := None;
    }

    /**
     * `CreateTableFromSource`: takes the source table's `SHOW CREATE TABLE`
     * statement, rewrites its first bare `CREATE TABLE \`t\`` head to name the
     * target database, and runs it on this handle.
     */
    method CreateTableFromSource(source: MySqlSource?, sourceDb: string, table: string, targetDb: string) returns (err: Option<Error>)
      requires conn != NoConn
      modifies this
      ensures conn == old(conn) && config == old(config)
      ensures source == null || old(source.conn) == NoConn ==> err == Some(Failure("source datasource is nil")) && server == old(server)
      ensures err.Some? ==> server == old(server)
      ensures err.None? ==>
        source != null && old(source.conn) != NoConn && old(source.Unavailable()).None? &&
        HasTable(old(source.server), sourceDb, table) && old(Unavailable()).None?
      ensures ('`' !in targetDb && '`' !in table) ==>
        (err.None? <==>
          source != null && old(source.conn) != NoConn && old(source.Unavailable()).None? &&
          HasTable(old(source.server), sourceDb, table) && old(Unavailable()).None? &&
          targetDb != "" && targetDb in old(server).dbs && table !in old(server).dbs[targetDb])
      ensures ('`' !in targetDb && '`' !in table) && err.None? ==>
        server == old(server).(dbs := old(server).dbs[targetDb := old(server).dbs[targetDb][table := Table(old(source.server).dbs[sourceDb][table].def, [])]])
    {
      if source == null || source.conn == NoConn {
        return Some(Failure("source datasource is nil"));
      }
      if source.Unavailable().Some? {
        return Some(Failure("failed to get source table DDL: " + source.Unavailable().value));
      }
      match ShowCreate(source.server, sourceDb, table)
      case Err(m) =>
        err := Some(Failure("failed to get source table DDL: " + m));
      case Ok(ddl) =>
        var stmt := ddl.(head := ReplaceFirst(ddl.head, Head(table), QualifiedHead(targetDb, table)));
        if '`' !in targetDb && '`' !in table {
          RewriteHead(targetDb, table);
          ExecCreateQualified(server, config.database, targetDb, table, ddl.def);
        }
        err := ExecDdl(stmt);
    }

    /** The last step of `CreateTableFromSource`: the rewritten DDL executed on this handle. */
    method ExecDdl(stmt: CreateStatement) returns (err: Option<Error>)
      requires conn != NoConn
      modifies this
      ensures conn == old(conn) && config == old(config)
      ensures err.None? <==> old(Unavailable()).None? && ExecCreate(old(server), config.database, stmt).Ok?
      ensures err.None? ==> server == ExecCreate(old(server), config.database, stmt).value
      ensures err.Some? ==> server == old(server) && StartsWith(Message(err.value), "failed to create table on target: ")
    {
      if Unavailable().Some? {
        return Some(Failure("failed to create table on target: " + Unavailable().value));
      }
      match ExecCreate(server, config.database, stmt)
      case Err(m) =>
        err := Some(Failure("failed to create table on target: " + m));
      case Ok(s) =>
        server := s;
        err := None;
    }
  }

  /** The rewritten `SHOW CREATE TABLE` head names the target database and the same table. */
  lemma RewriteHead(targetDb: string, table: string)
    requires '`' !in targetDb && '`' !in table
    ensures ReplaceFirst(Head(table), Head(table), QualifiedHead(targetDb, table)) == QualifiedHead(targetDb, table)
    ensures ParseHead(QualifiedHead(targetDb, table)) == Some((Some(targetDb), table))
  {
    ReplaceFirstAtStart(Head(table), QualifiedHead(targetDb, table), "");
    assert Head(table) + "" == Head(table);
    assert QualifiedHead(targetDb, table) + "" == QualifiedHead(targetDb, table);
    ParseHeadQualified(targetDb, table);
  }

  /**
   * `DataSourceFactory.NewDataSource`: a fresh, unopened MySQL source for the
   * MySQL type; every other type, named or not, is `ErrUnsupportedDataSource`.
   */
  method NewDataSource(sourceType: string, server: Server) returns (ds: MySqlSource?, err: Option<Error>)
    ensures ds != null <==> err.None?
    ensures err.None? <==> sourceType == MySqlType
    ensures err.Some? ==> err.value == UnsupportedDataSource
    ensures ds != null ==> fresh(ds) && ds.server == server && ds.conn == NoConn && ds.config == EmptyConfig
  {
    if sourceType == MySqlType {
      ds := new MySqlSource(server);
      err := None;
    } else {
      ds, err := null, Some(UnsupportedDataSource);
    }
  }
}
