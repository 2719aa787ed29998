/**
 * An in-memory MySQL server, the environment both MySQL data sources talk to.
 *
 * A server holds databases of tables; a table has a definition (its columns as
 * `INFORMATION_SCHEMA` reports them, its comment and index names) and its rows.
 * Statement execution is modelled by the functions below, each returning either
 * the new server state or the error text the driver reports. Whether an INSERT
 * succeeds is not decided by the model: the server carries a script of INSERT
 * outcomes, consumed one per INSERT, so every write failure the code reacts to
 * (a refused statement, a dropped connection) can be exercised. An exhausted
 * script applies every further INSERT.
 */
module SqlServer {
  import opened Wrappers
  import opened Strs

  /** A column value as the driver hands it over: `nil`, `[]uint8`, a string or a number. */
  datatype Value = Null | Bytes(bytes: string) | Text(text: string) | Int(number: int)

  /** A stored row or a `Row` map: column name to value. */
  type Record = map<string, Value>

  /** A column as `INFORMATION_SCHEMA.COLUMNS` reports it. */
  datatype Column = Column(name: string, dataType: string, isNullable: string, default: Option<string>, comment: string)

  datatype TableDef = TableDef(columns: seq<Column>, comment: string, indexes: seq<string>)

  datatype Table = Table(def: TableDef, rows: seq<Record>)

  type Database = map<string, Table>

  /** What the server does with the next INSERT: apply it, refuse it, or drop the connection and go away. */
  datatype ExecOutcome = Applied | Refused(message: string) | Lost(message: string)

  datatype Server = Server(up: bool, dbs: map<string, Database>, inserts: seq<ExecOutcome>)

  /**
   * A `CREATE TABLE` statement: its head, `` CREATE TABLE `t` `` or
   * `` CREATE TABLE `db`.`t` ``, as text, and the definition its remainder spells out.
   */
  datatype CreateStatement = CreateStatement(head: string, def: TableDef)

  // ---------------------------------------------------------------- DDL heads

  const CreatePrefix: string := "CREATE TABLE `"

  /** The head `SHOW CREATE TABLE` prints: the bare table name. */
  function Head(t: string): string
  {
    CreatePrefix + t + "`"
  }

  /** A head naming the database too. */
  function QualifiedHead(db: string, t: string): string
  {
    CreatePrefix + db + "`.`" + t + "`"
  }

  /** How the server reads a head: the database it names (if any) and the table. */
  function ParseHead(h: string): Option<(Option<string>, string)>
  {
    if |h| < |CreatePrefix| + 1 || h[..|CreatePrefix|] != CreatePrefix || h[|h| - 1] != '`' then None
    else
      var inner := h[|CreatePrefix|..|h| - 1];
      var parts := SplitOn(inner, "`.`");
      if |parts| == 1 && '`' !in inner then Some((None, inner))
      else if |parts| == 2 && '`' !in parts[0] && '`' !in parts[1] then Some((Some(parts[0]), parts[1]))
      else None
  }

  lemma ParseHeadBare(t: string)
    requires '`' !in t
    ensures ParseHead(Head(t)) == Some((None, t))
  {
    var h := Head(t);
    assert h[..|CreatePrefix|] == CreatePrefix;
    assert h[|CreatePrefix|..|h| - 1] == t;
    CleanFirst(t, "`.`");
    SplitOnAlone(t, "`.`");
  }

  lemma ParseHeadQualified(db: string, t: string)
    requires '`' !in db && '`' !in t
    ensures ParseHead(QualifiedHead(db, t)) == Some((Some(db), t))
  {
    var h := QualifiedHead(db, t);
    assert h[..|CreatePrefix|] == CreatePrefix;
    assert h[|CreatePrefix|..|h| - 1] == db + "`.`" + t;
    CleanFirst(db, "`.`");
    CleanFirst(t, "`.`");
    SplitOnCons(db, "`.`", t);
    SplitOnAlone(t, "`.`");
  }

  /** A `CREATE TABLE` headed by a plain qualified name creates exactly that table, when its database exists and lacks it. */
  lemma ExecCreateQualified(s: Server, current: string, db: string, t: string, def: TableDef)
    requires '`' !in db && '`' !in t
    ensures ExecCreate(s, current, CreateStatement(QualifiedHead(db, t), def)).Ok? <==>
      db != "" && db in s.dbs && t !in s.dbs[db]
    ensures ExecCreate(s, current, CreateStatement(QualifiedHead(db, t), def)).Ok? ==>
      ExecCreate(s, current, CreateStatement(QualifiedHead(db, t), def)).value ==
        s.(dbs := s.dbs[db := s.dbs[db][t := Table(def, [])]])
  {
    ParseHeadQualified(db, t);
  }

  // ---------------------------------------------------------------- error texts

  const ConnectionRefused: string := "dial tcp: connect: connection refused"
  const InvalidConnection: string := "invalid connection"
  const DatabaseClosed: string := "sql: database is closed"
  const NoDatabaseSelected: string := "Error 1046 (3D000): No database selected"
  const SyntaxError: string := "Error 1064 (42000): You have an error in your SQL syntax"
  const ColumnCountMismatch: string := "Error 1136 (21S01): Column count doesn't match value count"
  const DuplicateColumn: string := "Error 1110 (42000): Column specified twice"

  function UnknownDatabase(db: string): string
  {
    "Error 1049 (42000): " + UnknownDatabaseWords + " '" + db + "'"
  }

  const UnknownDatabaseWords := "Unknown database"

  /** Whatever an error message is wrapped in, the refusal still says `Unknown database`. */
  lemma UnknownDatabaseNamed(prefix: string, db: string)
    ensures Contains(prefix + UnknownDatabase(db), UnknownDatabaseWords)
  {
    var a, b := prefix + "Error 1049 (42000): ", " '" + db + "'";
    assert prefix + UnknownDatabase(db) == a + UnknownDatabaseWords + b;
    ContainsInside(a, UnknownDatabaseWords, b);
  }

  function NoSuchTable(db: string, t: string): string
  {
    "Error 1146 (42S02): Table '" + db + "." + t + "' doesn't exist"
  }

  function TableAlreadyExists(t: string): string
  {
    "Error 1050 (42S01): Table '" + t + "' already exists"
  }

  function UnknownColumn(c: string): string
  {
    "Error 1054 (42S22): Unknown column '" + c + "' in 'field list'"
  }

  // ---------------------------------------------------------------- queries

  function ColumnNames(cols: seq<Column>): (r: seq<string>)
    ensures |r| == |cols| && forall i :: 0 <= i < |cols| ==> r[i] == cols[i].name
  {
    seq(|cols|, i requires 0 <= i < |cols| => cols[i].name)
  }

  /** A row's value in a column; a column the row lacks reads as SQL NULL. */
  function Cell(r: Record, c: string): Value
  {
    if c in r then r[c] else Null
  }

  predicate HasTable(s: Server, db: string, t: string)
  {
    db in s.dbs && t in s.dbs[db]
  }

  /** The rows of `t` in `db`, none when the table is missing. */
  function RowsOf(s: Server, db: string, t: string): nat
  {
    if HasTable(s, db, t) then |s.dbs[db][t].rows| else 0
  }

  function FindTable(s: Server, db: string, t: string): (r: Result<Table, string>)
    ensures r.Ok? <==> HasTable(s, db, t)
    ensures r.Ok? ==> r.value == s.dbs[db][t]
  {
    if db !in s.dbs then Err(UnknownDatabase(db))
    else if t !in s.dbs[db] then Err(NoSuchTable(db, t))
    else Ok(s.dbs[db][t])
  }

  /** The handshake of opening a connection with a default database (`""` for none). */
  function Login(s: Server, database: string): (r: Result<(), string>)
    ensures r.Ok? <==> s.up && (database == "" || database in s.dbs)
  {
    if !s.up then Err(ConnectionRefused)
    else if database != "" && database !in s.dbs then Err(UnknownDatabase(database))
    else Ok(())
  }

  /** `SHOW TABLES FROM db`. */
  function ShowTables(s: Server, db: string): (r: Result<set<string>, string>)
    ensures r.Ok? <==> db in s.dbs
    ensures r.Ok? ==> r.value == s.dbs[db].Keys
  {
    if db in s.dbs then Ok(s.dbs[db].Keys) else Err(UnknownDatabase(db))
  }

  /** `SELECT COUNT(*)`. */
  function CountRows(s: Server, db: string, t: string): (r: Result<nat, string>)
    ensures r.Ok? <==> HasTable(s, db, t)
    ensures r.Ok? ==> r.value == |s.dbs[db][t].rows|
  {
    match FindTable(s, db, t)
    case Ok(table) => Ok(|table.rows|)
    case Err(e) => Err(e)
  }

  /** `SHOW CREATE TABLE`: the DDL, headed by the bare table name. */
  function ShowCreate(s: Server, db: string, t: string): (r: Result<CreateStatement, string>)
    ensures r.Ok? <==> HasTable(s, db, t)
    ensures r.Ok? ==> r.value == CreateStatement(Head(t), s.dbs[db][t].def)
  {
    match FindTable(s, db, t)
    case Ok(table) => Ok(CreateStatement(Head(t), table.def))
    case Err(e) => Err(e)
  }

  /** `SHOW COLUMNS`: the column names in definition order. */
  function ShowColumns(s: Server, db: string, t: string): (r: Result<seq<string>, string>)
    ensures r.Ok? <==> HasTable(s, db, t)
    ensures r.Ok? ==> r.value == ColumnNames(s.dbs[db][t].def.columns)
  {
    match FindTable(s, db, t)
    case Ok(table) => Ok(ColumnNames(table.def.columns))
    case Err(e) => Err(e)
  }

  /** A row's values in column order, as `rows.Scan` fills them. */
  function RowValues(r: Record, cols: seq<string>): (v: seq<Value>)
    ensures |v| == |cols| && forall j :: 0 <= j < |cols| ==> v[j] == Cell(r, cols[j])
  {
    seq(|cols|, j requires 0 <= j < |cols| => Cell(r, cols[j]))
  }

  function Min(a: int, b: int): int
  {
    if a <= b then a else b
  }

  /** `SELECT * ... LIMIT limit OFFSET offset`: the column names and the selected rows' values. */
  function SelectRows(s: Server, db: string, t: string, offset: int, limit: int): (r: Result<(seq<string>, seq<seq<Value>>), string>)
    ensures r.Ok? <==> offset >= 0 && limit >= 0 && HasTable(s, db, t)
    ensures r.Ok? ==>
      var rows := s.dbs[db][t].rows;
      var lo := Min(offset, |rows|);
      var hi := Min(offset + limit, |rows|);
      r.value.0 == ColumnNames(s.dbs[db][t].def.columns) &&
      |r.value.1| == hi - lo &&
      forall i :: 0 <= i < hi - lo ==> r.value.1[i] == RowValues(rows[lo + i], r.value.0)
  {
    if offset < 0 || limit < 0 then Err(SyntaxError)
    else match FindTable(s, db, t)
      case Err(e) => Err(e)
      case Ok(table) =>
        var cols := ColumnNames(table.def.columns);
        var lo := Min(offset, |table.rows|);
        var hi := Min(offset + limit, |table.rows|);
        Ok((cols, seq(hi - lo, i requires 0 <= i < hi - lo => RowValues(table.rows[lo + i], cols))))
  }

  /** `INFORMATION_SCHEMA.COLUMNS` for a table: no rows (not an error) when it does not exist. */
  function InfoColumns(s: Server, db: string, t: string): (r: seq<Column>)
    ensures !HasTable(s, db, t) ==> r == []
  {
    if HasTable(s, db, t) then s.dbs[db][t].def.columns else []
  }

  /** `INFORMATION_SCHEMA.STATISTICS` index names: none when the table does not exist. */
  function InfoIndexes(s: Server, db: string, t: string): (r: seq<string>)
    ensures !HasTable(s, db, t) ==> r == []
  {
    if HasTable(s, db, t) then s.dbs[db][t].def.indexes else []
  }

  /** `INFORMATION_SCHEMA.TABLES` comment: scanning no row leaves the string empty. */
  function InfoComment(s: Server, db: string, t: string): (r: string)
    ensures !HasTable(s, db, t) ==> r == ""
  {
    if HasTable(s, db, t) then s.dbs[db][t].def.comment else ""
  }

  // ---------------------------------------------------------------- statements

  /** `CREATE DATABASE IF NOT EXISTS`. */
  function CreateDatabase(s: Server, db: string): (r: Server)
    ensures r.up == s.up && r.inserts == s.inserts
    ensures db in r.dbs && r.dbs.Keys == s.dbs.Keys + {db}
    ensures forall d :: d in s.dbs ==> r.dbs[d] == s.dbs[d]
    ensures db !in s.dbs ==> r.dbs[db] == map[]
  {
    if db in s.dbs then s else s.(dbs := s.dbs[db := map[]])
  }

  /** Executing a `CREATE TABLE` on a connection whose default database is `current`. */
  function ExecCreate(s: Server, current: string, stmt: CreateStatement): (r: Result<Server, string>)
    ensures r.Ok? ==> ParseHead(stmt.head).Some?
    ensures r.Ok? ==>
      var (q, t) := ParseHead(stmt.head).value;
      var db := q.GetOr(current);
      db in s.dbs && t !in s.dbs[db] &&
      r.value == s.(dbs := s.dbs[db := s.dbs[db][t := Table(stmt.def, [])]])
    ensures ParseHead(stmt.head).Some? ==>
      var (q, t) := ParseHead(stmt.head).value;
      var db := q.GetOr(current);
      (db != "" && db in s.dbs && t !in s.dbs[db]) ==> r.Ok?
  {
    match ParseHead(stmt.head)
    case None => Err(SyntaxError)
    case Some((q, t)) =>
      var db := q.GetOr(current);
      if db == "" then Err(NoDatabaseSelected)
      else if db !in s.dbs then Err(UnknownDatabase(db))
      else if t in s.dbs[db] then Err(TableAlreadyExists(t))
      else Ok(s.(dbs := s.dbs[db := s.dbs[db][t := Table(stmt.def, [])]]))
  }

  /** `DROP TABLE IF EXISTS`: never an error. */
  function ExecDrop(s: Server, db: string, t: string): (r: Server)
    ensures !HasTable(r, db, t)
    ensures r.up == s.up && r.inserts == s.inserts && r.dbs.Keys == s.dbs.Keys
    ensures forall d, u :: HasTable(s, d, u) && (d, u) != (db, t) ==> HasTable(r, d, u) && r.dbs[d][u] == s.dbs[d][u]
  {
    if HasTable(s, db, t) then s.(dbs := s.dbs[db := s.dbs[db] - {t}]) else s
  }

  /** The record an INSERT stores from one row of values. */
  function Zip(cols: seq<string>, vals: seq<Value>): (r: Record)
    requires |cols| == |vals| && Distinct(cols)
    ensures r.Keys == set c | c in cols
    ensures forall j :: 0 <= j < |cols| ==> r[cols[j]] == vals[j]
  {
    map j | 0 <= j < |cols| :: cols[j] := vals[j]
  }

  /** The records a multi-row INSERT stores: one per group of `|cols|` values (a short tail stores nothing). */
  function Unflatten(cols: seq<string>, vals: seq<Value>): seq<Record>
    requires |cols| > 0 && Distinct(cols)
    decreases |vals|
  {
    if |vals| < |cols| then []
    else [Zip(cols, vals[..|cols|])] + Unflatten(cols, vals[|cols|..])
  }

  /** The first of `cols` that is not a column of the table, if any. */
  function FirstUnknown(cols: seq<string>, names: seq<string>): (r: Option<string>)
    ensures r.None? <==> forall c :: c in cols ==> c in names
    ensures r.Some? ==> r.value in cols && r.value !in names
  {
    if |cols| == 0 then None
    else if cols[0] !in names then Some(cols[0])
    else FirstUnknown(cols[1..], names)
  }

  /** The table's rows after a successful INSERT of `recs`. */
  function Appended(s: Server, db: string, t: string, recs: seq<Record>): Server
    requires HasTable(s, db, t)
  {
    var table := s.dbs[db][t];
    s.(dbs := s.dbs[db := s.dbs[db][t := table.(rows := table.rows + recs)]])
  }

  /** The stored rows after an INSERT depend only on the databases, and two appends compose. */
  lemma AppendedTwice(s: Server, mid: Server, db: string, t: string, a: seq<Record>, b: seq<Record>)
    requires HasTable(s, db, t) && mid.dbs == Appended(s, db, t, a).dbs
    ensures HasTable(mid, db, t)
    ensures Appended(mid, db, t, b).dbs == Appended(s, db, t, a + b).dbs
  {
    var tb := s.dbs[db][t];
    var once := tb.(rows := tb.rows + a);
    var twice := tb.(rows := tb.rows + (a + b));
    assert mid.dbs == s.dbs[db := s.dbs[db][t := once]];
    assert tb.rows + a + b == tb.rows + (a + b);
    assert mid.dbs[db][t := once.(rows := once.rows + b)] == s.dbs[db][t := twice];
  }

  lemma AppendedSameDbs(s: Server, s': Server, db: string, t: string, a: seq<Record>)
    requires HasTable(s, db, t) && s'.dbs == s.dbs
    ensures HasTable(s', db, t) && Appended(s', db, t, a).dbs == Appended(s, db, t, a).dbs
  {
  }

  /**
   * A multi-row `INSERT INTO db.t (cols) VALUES ...` with the flattened values.
   * A statement the server rejects consumes no script entry; an accepted one
   * consumes one: applied, refused, or refused with the connection lost.
   */
  function ExecInsert(s: Server, db: string, t: string, cols: seq<string>, vals: seq<Value>): (r: (Server, Option<string>))
    ensures r.1.Some? ==> r.0.dbs == s.dbs
    ensures r.1.None? ==>
      HasTable(s, db, t) && |cols| > 0 && Distinct(cols) &&
      r.0.up == s.up &&
      r.0 == Appended(s, db, t, Unflatten(cols, vals)).(inserts := r.0.inserts)
    ensures |r.0.inserts| <= |s.inserts|
    ensures s.up && !r.0.up ==> r.1.Some?
  {
    if !HasTable(s, db, t) then (s, Some(FindTable(s, db, t).error))
    else if |cols| == 0 || |vals| == 0 then (s, Some(SyntaxError))
    else if !Distinct(cols) then (s, Some(DuplicateColumn))
    else if FirstUnknown(cols, ColumnNames(s.dbs[db][t].def.columns)).Some? then
      (s, Some(UnknownColumn(FirstUnknown(cols, ColumnNames(s.dbs[db][t].def.columns)).value)))
    else if |vals| % |cols| != 0 then (s, Some(ColumnCountMismatch))
    else
      var next := if |s.inserts| == 0 then Applied else s.inserts[0];
      var rest := if |s.inserts| == 0 then [] else s.inserts[1..];
      match next
      case Applied => (Appended(s, db, t, Unflatten(cols, vals)).(inserts := rest), None)
      case Refused(m) => (s.(inserts := rest), Some(m))
      case Lost(m) => (s.(up := false, inserts := rest), Some(m))
  }
}
