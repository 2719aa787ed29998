/**
 * The older MySQL data source (`internal/datamigrate/mysql.go`), the one the
 * older migration engine drives.
 *
 * It differs from the newer source in three ways: its `GetTableSchema` reads
 * `INFORMATION_SCHEMA` (so a missing table is not an error, just an empty
 * schema), its `WriteRows` takes the INSERT columns from the keys of the first
 * row, and a failed batch is never retried.
 */
module OldSource {
  import opened Wrappers
  import opened Errs
  import opened Strs
  import opened MigrationModel
  import opened SqlServer
  import opened MySqlCommon

  /** The schema `GetTableSchema` assembles from the three `INFORMATION_SCHEMA` queries. */
  function SchemaOf(s: Server, db: string, t: string): (r: TableSchema)
    ensures r.name == t
    ensures |r.columns| == |InfoColumns(s, db, t)|
    ensures forall i :: 0 <= i < |r.columns| ==> r.columns[i] == DecodeColumn(InfoColumns(s, db, t)[i])
    ensures !HasTable(s, db, t) ==> r == TableSchema(t, [], [], "")
  {
    var cols := InfoColumns(s, db, t);
    TableSchema(t, seq(|cols|, i requires 0 <= i < |cols| => DecodeColumn(cols[i])),
      InfoIndexes(s, db, t), InfoComment(s, db, t))
  }

  /**
   * A table made by `CreateTable` reads back through `GetTableSchema` as the
   * schema it was made from, except that it has no index.
   */
  lemma SchemaOfCreated(s: Server, current: string, db: string, schema: TableSchema)
    requires '`' !in db && '`' !in schema.name
    requires ExecCreate(s, current, CreateStatement(QualifiedHead(db, schema.name), DefOf(schema))).Ok?
    ensures SchemaOf(ExecCreate(s, current, CreateStatement(QualifiedHead(db, schema.name), DefOf(schema))).value, db, schema.name)
      == schema.(indexes := [])
  {
    ParseHeadQualified(db, schema.name);
    var s' := ExecCreate(s, current, CreateStatement(QualifiedHead(db, schema.name), DefOf(schema))).value;
    assert s'.dbs[db][schema.name] == Table(DefOf(schema), []);
    var r := SchemaOf(s', db, schema.name);
    forall i | 0 <= i < |schema.columns|
      ensures r.columns[i] == schema.columns[i]
    {
      DecodeEncodeColumn(schema.columns[i]);
    }
  }

  // ----------------------------------------------------------- schema queries

  /** The `INFORMATION_SCHEMA.COLUMNS` query of `GetTableSchema`, whose `?` placeholders take the database and the table. */
  const ColumnsQuery: string := "\n\t\tSELECT \n\t\t\tCOLUMN_NAME,\n\t\t\tDATA_TYPE,\n\t\t\tIS_NULLABLE,\n\t\t\tCOLUMN_DEFAULT,\n\t\t\tCOLUMN_COMMENT\n\t\tFROM INFORMATION_SCHEMA.COLUMNS \n\t\tWHERE TABLE_SCHEMA = ? AND TABLE_NAME = ?\n\t\tORDER BY ORDINAL_POSITION\n\t"

  /** The `INFORMATION_SCHEMA.STATISTICS` query of `GetTableSchema`. */
  const IndexesQuery: string := "\n\t\tSELECT INDEX_NAME \n\t\tFROM INFORMATION_SCHEMA.STATISTICS \n\t\tWHERE TABLE_SCHEMA = ? AND TABLE_NAME = ?\n\t\tGROUP BY INDEX_NAME\n\t"

  /** The `INFORMATION_SCHEMA.TABLES` query of `GetTableSchema`. */
  const CommentQuery: string := "\n\t\tSELECT TABLE_COMMENT \n\t\tFROM INFORMATION_SCHEMA.TABLES \n\t\tWHERE TABLE_SCHEMA = ? AND TABLE_NAME = ?\n\t"

  /**
   * Go's `fmt.Sprintf` for a format that holds no `%` verb, such as the three
   * templates above: the format itself, followed, when there are arguments,
   * by the trailer `%!(EXTRA string=a, string=b)` naming every argument left over.
   */
  function SprintfNoVerb(format: string, args: seq<string>): (r: string)
    ensures args == [] ==> r == format
    ensures args != [] ==> |r| > |format| + 9 && r[..|format|] == format && r[|format|..|format| + 9] == "%!(EXTRA "
  {
    if args == [] then format
    else format + "%!(EXTRA " + Join(seq(|args|, i requires 0 <= i < |args| => "string=" + args[i]), ", ") + ")"
  }

  /**
   * How the server answers the query text `text` sent where `template` was
   * meant, with the database and the table bound to the placeholders: the
   * template itself is answered; any other text is refused as a syntax
   * error. That is MySQL's answer to a template followed by the
   * `%!(EXTRA string=..., string=...)` trailer: after the last clause the
   * trailer reads `% !(EXTRA string = ...)`, and `EXTRA string` are two
   * identifiers side by side inside parentheses, which no expression allows.
   */
  function QueryRefusal(template: string, text: string): (r: Option<string>)
    ensures r.None? <==> text == template
    ensures r.Some? ==> r.value == SyntaxError
  {
    if text == template then None else Some(SyntaxError)
  }

  class OldMySqlSource {
    var server: Server
    var conn: Conn
    var config: DataSourceConfig

    constructor(server: Server)
      ensures this.server == server && conn == NoConn && config == EmptyConfig
    {
      this.server := server;
      conn := NoConn;
      config := EmptyConfig;
    }

    /** Why a statement on the handle fails before it reaches any data. */
    function Unavailable(): (r: Option<string>)
      reads this
      ensures r.None? <==> conn != Closed && server.up
    {
      if conn == Closed then Some(DatabaseClosed)
      else if !server.up then Some(InvalidConnection)
      else None
    }

    /** `Connect`: remembers the configuration and opens the handle when the login succeeds. */
    method Connect(cfg: DataSourceConfig) returns (err: Option<Error>)
      modifies this
      ensures config == cfg && server == old(server)
      ensures err.None? <==> Login(server, cfg.database).Ok?
      ensures err.None? ==> conn == Open
      ensures err.Some? ==> conn == old(conn)
      ensures err.Some? ==> err == Some(Failure("failed to connect to MySQL: " + Login(server, cfg.database).error))
    {
      config := cfg;
      match Login(server, cfg.database)
      case Err(m) =>
        err := Some(Failure("failed to connect to MySQL: " + m));
      case Ok(_) =>
        conn := Open;
        err := None;
    }

    /** `TestConnection`: a never-opened handle is `ErrConnectionFailed`; otherwise the ping's outcome. */
    method TestConnection() returns (err: Option<Error>)
      ensures conn == NoConn ==> err == Some(ConnectionFailed)
      ensures conn != NoConn ==> (err.None? <==> Unavailable().None?)
    {
      if conn == NoConn {
        return Some(ConnectionFailed);
      }
      match Unavailable()
      case Some(m) => err := Some(Failure(m));
      case None => err := None;
    }

    /** `ListDatabases`: every database once. */
    method ListDatabases() returns (r: Result<seq<string>, Error>)
      requires conn != NoConn
      ensures r.Ok? <==> Unavailable().None?
      ensures r.Ok? ==> Distinct(r.value) && forall d :: d in r.value <==> d in server.dbs
      ensures r.Err? ==> r.error == Failure("failed to list databases: " + Unavailable().value)
    {
      match Unavailable()
      case Some(m) =>
        r := Err(Failure("failed to list databases: " + m));
      case None =>
        var names := Enumerate(server.dbs.Keys);
        r := Ok(names);
    }

    /** `ListTables`: every table of the database once. */
    method ListTables(db: string) returns (r: Result<seq<string>, Error>)
      requires conn != NoConn
      ensures r.Ok? <==> Unavailable().None? && db in server.dbs
      ensures r.Ok? ==> Distinct(r.value) && forall t :: t in r.value <==> t in server.dbs[db]
      ensures r.Err? ==> StartsWith(Message(r.error), "failed to list tables: ")
    {
      if Unavailable().Some? {
        return Err(Failure("failed to list tables: " + Unavailable().value));
      }
      match ShowTables(server, db)
      case Err(m) =>
        r := Err(Failure("failed to list tables: " + m));
      case Ok(names) =>
        var listed := Enumerate(names);
        r := Ok(listed);
    }

    /**
     * The three `INFORMATION_SCHEMA` queries of `GetTableSchema`, sent as the
     * given texts: the columns, decoded one by one, then the index names,
     * then the comment. The first query that fails ends the read with its
     * own message.
     */
    method ReadSchema(db: string, t: string, columnsText: string, indexesText: string, commentText: string)
      returns (r: Result<TableSchema, Error>)
      requires conn != NoConn
      ensures r.Ok? <==>
        Unavailable().None? && columnsText == ColumnsQuery && indexesText == IndexesQuery && commentText == CommentQuery
      ensures r.Ok? ==> r.value == SchemaOf(server, db, t)
      ensures Unavailable().Some? ==> r == Err(Failure("failed to get table columns: " + Unavailable().value))
      ensures Unavailable().None? && columnsText != ColumnsQuery ==>
        r == Err(Failure("failed to get table columns: " + SyntaxError))
      ensures Unavailable().None? && columnsText == ColumnsQuery && indexesText != IndexesQuery ==>
        r == Err(Failure("failed to get table indexes: " + SyntaxError))
      ensures Unavailable().None? && columnsText == ColumnsQuery && indexesText == IndexesQuery &&
              commentText != CommentQuery ==>
        r == Err(Failure("failed to get table comment: " + SyntaxError))
    {
      if Unavailable().Some? {
        return Err(Failure("failed to get table columns: " + Unavailable().value));
      }
      var refused := QueryRefusal(ColumnsQuery, columnsText);
      if refused.Some? {
        return Err(Failure("failed to get table columns: " + refused.value));
      }
      var rows := InfoColumns(server, db, t);
      var columns: seq<ColumnInfo> := [];
      var i := 0;
      while i < |rows|
        invariant 0 <= i <= |rows|
        invariant |columns| == i
        invariant forall k :: 0 <= k < i ==> columns[k] == DecodeColumn(rows[k])
      {
        columns := columns + [DecodeColumn(rows[i])];
        i := i + 1;
      }
      refused := QueryRefusal(IndexesQuery, indexesText);
      if refused.Some? {
        return Err(Failure("failed to get table indexes: " + refused.value));
      }
      var indexes := InfoIndexes(server, db, t);
      refused := QueryRefusal(CommentQuery, commentText);
      if refused.Some? {
        return Err(Failure("failed to get table comment: " + refused.value));
      }
      r := Ok(TableSchema(t, columns, indexes, InfoComment(server, db, t)));
    }

    /**
     * `GetTableSchema` as its queries are evidently meant to be sent: each
     * template as it stands, with the database and the table bound to its
     * placeholders. The older engine reads schemas through this one.
     */
    method GetTableSchema(db: string, t: string) returns (r: Result<TableSchema, Error>)
      requires conn != NoConn
      ensures r.Ok? <==> Unavailable().None?
      ensures r.Ok? ==> r.value == SchemaOf(server, db, t)
      ensures r.Err? ==> r.error == Failure("failed to get table columns: " + Unavailable().value)
    {
      r := ReadSchema(db, t, ColumnsQuery, IndexesQuery, CommentQuery);
    }

    /**
     * `GetTableSchema` as written: each template goes through `fmt.Sprintf`
     * with the database and the table as arguments, and since no template
     * holds a verb, each text gets the `%!(EXTRA ...)` trailer. The server
     * refuses the first query, so the read never succeeds: it fails with the
     * handle's own error or with MySQL's syntax error.
     */
    method GetTableSchemaAsWritten(db: string, t: string) returns (r: Result<TableSchema, Error>)
      requires conn != NoConn
      ensures r.Err?
      ensures r.error == Failure("failed to get table columns: " +
        (if Unavailable().Some? then Unavailable().value else SyntaxError))
    {
      r := ReadSchema(db, t, SprintfNoVerb(ColumnsQuery, [db, t]), SprintfNoVerb(IndexesQuery, [db, t]),
        SprintfNoVerb(CommentQuery, [db, t]));
    }

    /** `ReadRows` with no WHERE clause: the selected window, each row without its NULL values. */
    method ReadRows(db: string, t: string, offset: int, limit: int) returns (r: Result<seq<Record>, Error>)
      requires conn != NoConn
      ensures r.Ok? <==> Unavailable().None? && offset >= 0 && limit >= 0 && HasTable(server, db, t)
      ensures r.Ok? ==>
        var rows := server.dbs[db][t].rows;
        var cols := ColumnNames(server.dbs[db][t].def.columns);
        var lo := Min(offset, |rows|);
        |r.value| == Min(offset + limit, |rows|) - lo &&
        forall i :: 0 <= i < |r.value| ==> r.value[i] == NonNull(rows[lo + i], cols)
      ensures r.Err? ==> StartsWith(Message(r.error), "failed to read rows: ")
    {
      if Unavailable().Some? {
        return Err(Failure("failed to read rows: " + Unavailable().value));
      }
      match SelectRows(server, db, t, offset, limit)
      case Err(m) =>
        r := Err(Failure("failed to read rows: " + m));
      case Ok((cols, scanned)) =>
        var built := BuildRows(cols, scanned);
        var rows := server.dbs[db][t].rows;
        var lo := Min(offset, |rows|);
        forall i | 0 <= i < |built|
          ensures built[i] == NonNull(rows[lo + i], cols)
        {
          BuildRowNonNull(rows[lo + i], cols);
        }
        r := Ok(built);
    }

    /** One INSERT through the handle. */
    method Exec(db: string, t: string, cols: seq<string>, values: seq<Value>) returns (e: Option<string>)
      requires conn != NoConn
      modifies this
      ensures conn == old(conn) && config == old(config)
      ensures old(Unavailable()).Some? ==> e == old(Unavailable()) && server == old(server)
      ensures old(Unavailable()).None? ==> (server, e) == ExecInsert(old(server), db, t, cols, values)
      ensures e.None? ==>
        HasTable(old(server), db, t) && |cols| > 0 && Distinct(cols) &&
        server.dbs == Appended(old(server), db, t, Unflatten(cols, values)).dbs
      ensures e.Some? ==> server.dbs == old(server.dbs)
    {
      e := Unavailable();
      if e.None? {
        var (s, x) := ExecInsert(server, db, t, cols, values);
        server := s;
        e := x;
      }
    }

    /**
     * `WriteRows`: nothing for no rows; otherwise the columns are the keys of
     * the first row, in map order, and the rows go in consecutive batches of
     * `batchSize`, each row giving its value (NULL where absent) per column.
     * The first failed batch ends the write; the earlier ones stay stored.
     */
    method WriteRows(db: string, t: string, rows: seq<Record>, batchSize: int)
      returns (err: Option<Error>, ghost cols: seq<string>, ghost committed: nat)
      requires batchSize > 0 && conn != NoConn
      modifies this
      ensures config == old(config) && conn == old(conn)
      ensures |rows| == 0 ==> err.None? && server == old(server)
      ensures |rows| > 0 ==> Distinct(cols) && forall c :: c in cols <==> c in rows[0]
      ensures committed <= |rows| && (err.None? ==> committed == |rows|)
      ensures committed < |rows| ==> WholeBatches(committed, batchSize)
      ensures committed == 0 ==> server.dbs == old(server.dbs)
      ensures committed > 0 ==>
        HasTable(old(server), db, t) && Distinct(cols) &&
        server.dbs == AfterWrite(old(server), db, t, rows, cols, false, committed).dbs
      ensures err.Some? ==> StartsWith(Message(err.value), "failed to write batch rows: ")
    {
      committed, cols := 0, [];
      if |rows| == 0 {
        return None, [], 0;
      }
      var columns := Enumerate(rows[0].Keys);
      cols := columns;
      ghost var s0 := old(server);
      var i := 0;
      while i < |rows|
        invariant i == committed
        invariant committed <= |rows| && (committed < |rows| ==> WholeBatches(committed, batchSize))
        invariant config == old(config) && conn == old(conn)
        invariant committed == 0 ==> server.dbs == s0.dbs
        invariant committed > 0 ==>
          HasTable(s0, db, t) && Distinct(cols) && server.dbs == AfterWrite(s0, db, t, rows, cols, false, committed).dbs
        decreases |rows| - i
      {
        var end := if i + batchSize > |rows| then |rows| else i + batchSize;
        assert end < |rows| ==> end - batchSize == i && WholeBatches(end, batchSize);
        var batch := rows[i..end];
        var values := FlattenBatch(batch, columns, false);
        ghost var before := server;
        var e := Exec(db, t, columns, values);
        if e.Some? {
          return Some(Failure("failed to write batch rows: " + e.value)), cols, committed;
        }
        UnflattenFlatten(batch, columns, false);
        AppendStored(s0, before, db, t, rows, columns, false, i, end);
        committed := end;
        i := end;
      }
      err := None;
    }

    /** `CreateTable`: the same statement as the newer source's. */
    method CreateTable(db: string, schema: Option<TableSchema>) returns (err: Option<Error>)
      requires conn != NoConn
      modifies this
      ensures conn == old(conn) && config == old(config)
      ensures !ValidSchema(schema) ==> err == Some(InvalidSchema) && server == old(server)
      ensures err.None? <==>
        ValidSchema(schema) && old(Unavailable()).None? &&
        ExecCreate(old(server), config.database, CreateStatement(QualifiedHead(db, schema.value.name), DefOf(schema.value))).Ok?
      ensures err.None? ==>
        server == ExecCreate(old(server), config.database, CreateStatement(QualifiedHead(db, schema.value.name), DefOf(schema.value))).value
      ensures err.Some? ==> server == old(server)
      ensures ValidSchema(schema) && err.Some? ==> StartsWith(Message(err.value), "failed to create table: ")
    {
      if !ValidSchema(schema) {
        return Some(InvalidSchema);
      }
      var sc := schema.value;
      var defs := ColumnDefs(sc.columns);
      var query := CreateTableSql(db, sc, defs);
      var stmt := CreateStatement(QualifiedHead(db, sc.name), DefOf(sc));
      if Unavailable().Some? {
        return Some(Failure("failed to create table: " + Unavailable().value));
      }
      match ExecCreate(server, config.database, stmt)
      case Err(m) =>
        err := Some(Failure("failed to create table: " + m));
      case Ok(s) =>
        server := s;
        err := None;
    }

    /** `DropTable`: `DROP TABLE IF EXISTS`. */
    method DropTable(db: string, t: string) returns (err: Option<Error>)
      requires conn != NoConn
      modifies this
      ensures conn == old(conn) && config == old(config)
      ensures err.None? <==> old(Unavailable()).None?
      ensures err.None? ==> server == ExecDrop(old(server), db, t) && !HasTable(server, db, t)
      ensures err.Some? ==> server == old(server) && err == Some(Failure("failed to drop table: " + old(Unavailable()).value))
    {
      if Unavailable().Some? {
        return Some(Failure("failed to drop table: " + Unavailable().value));
      }
      server := ExecDrop(server, db, t);
      err := None;
    }

    /** `GetRowCount`: the number of rows, or 0 with the error. */
    method GetRowCount(db: string, t: string) returns (count: int, err: Option<Error>)
      requires conn != NoConn
      ensures err.None? <==> Unavailable().None? && HasTable(server, db, t)
      ensures err.None? ==> count == |server.dbs[db][t].rows|
      ensures err.Some? ==> count == 0 && StartsWith(Message(err.value), "failed to get row count: ")
    {
      if Unavailable().Some? {
        return 0, Some(Failure("failed to get row count: " + Unavailable().value));
      }
      match CountRows(server, db, t)
      case Err(m) =>
        count, err := 0, Some(Failure("failed to get row count: " + m));
      case Ok(n) =>
        count, err := n, None;
    }

    /** `Close`: an opened handle becomes closed; a nil one stays nil. */
    method Close() returns (err: Option<Error>)
      modifies this
      ensures err.None?
      ensures server == old(server) && config == old(config)
      ensures conn == (if old(conn) == NoConn then NoConn else Closed)
    {
      if conn != NoConn {
        conn := Closed;
      }
      err := None;
    }
  }

  /**
   * Taking the INSERT columns from the first row loses data: a source table
   * with columns `a` and `b` whose first row has `b` NULL reads back as rows
   * `{a: 1}` and `{a: 2, b: "x"}`, so the columns are just `a`, and the second
   * row is stored without its `b`.
   */
  lemma FirstRowColumnsLoseValue(cols: seq<string>)
    requires Distinct(cols) && forall c :: c in cols <==> c == "a"
    ensures var source := [map["a" := Int(1), "b" := Null], map["a" := Int(2), "b" := Text("x")]];
      var read := [NonNull(source[0], ["a", "b"]), NonNull(source[1], ["a", "b"])];
      read == [map["a" := Int(1)], map["a" := Int(2), "b" := Text("x")]] &&
      Cell(read[1], "b") == Text("x") &&
      Cell(Stored(read[1], cols, false), "b") == Null
  {
    var source := [map["a" := Int(1), "b" := Null], map["a" := Int(2), "b" := Text("x")]];
    var read0 := NonNull(source[0], ["a", "b"]);
    var read1 := NonNull(source[1], ["a", "b"]);
    assert Cell(source[0], "a") == Int(1) && Cell(source[0], "b") == Null;
    assert Cell(source[1], "a") == Int(2) && Cell(source[1], "b") == Text("x");
    assert read0.Keys == {"a"};
    assert read0 == map["a" := Int(1)];
    assert read1.Keys == {"a", "b"};
    assert read1 == map["a" := Int(2), "b" := Text("x")];
    assert "b" !in cols;
    assert "b" !in Stored(read1, cols, false);
  }
}
