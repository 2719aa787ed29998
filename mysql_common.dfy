/**
 * What the two MySQL data sources (`internal/service/datamigrate/mysql.go` and
 * `internal/datamigrate/mysql.go`) share: the schema records, the charset
 * default, the `CREATE TABLE` grammar, the building of `Row` maps from scanned
 * values, and the flattening of a batch of rows into INSERT arguments.
 */
module MySqlCommon {
  import opened Wrappers
  import opened Strs
  import opened MigrationModel
  import opened SqlServer

  /** The `*gorm.DB` handle: never opened (nil), open, or closed. */
  datatype Conn = NoConn | Open | Closed

  /** `ColumnInfo`. */
  datatype ColumnInfo = ColumnInfo(name: string, dataType: string, isNullable: bool, defaultValue: string, comment: string)

  /** `TableSchema`. */
  datatype TableSchema = TableSchema(name: string, columns: seq<ColumnInfo>, indexes: seq<string>, comment: string)

  /** The configuration of a data source before `Connect` (Go's zero value). */
  const EmptyConfig: DataSourceConfig := DataSourceConfig("", "", 0, "", "", "", "", "", 0)

  /** `getCharset`: the configured charset, `utf8mb4` when none is set. */
  function Charset(cfg: DataSourceConfig): (r: string)
    ensures r != ""
    ensures cfg.charset != "" ==> r == cfg.charset
    ensures cfg.charset == "" ==> r == "utf8mb4"
  {
    if cfg.charset != "" then cfg.charset else "utf8mb4"
  }

  // ---------------------------------------------------------------- CREATE TABLE

  /** One column definition of the `CREATE TABLE` statement `CreateTable` builds. */
  function ColumnDef(c: ColumnInfo): string
  {
    "`" + c.name + "` " + c.dataType
    + (if !c.isNullable then " NOT NULL" else "")
    + (if c.defaultValue != "" then " DEFAULT " + c.defaultValue else "")
    + (if c.comment != "" then " COMMENT '" + c.comment + "'" else "")
  }

  /**
   * The clauses of a column definition follow the column's flags: the
   * definition is the quoted name and type, then ` NOT NULL` exactly for a
   * non-nullable column, then ` DEFAULT d` exactly for a non-empty default,
   * then ` COMMENT 'c'` exactly for a non-empty comment.
   */
  lemma ColumnDefClauses(c: ColumnInfo)
    ensures var h := "`" + c.name + "` " + c.dataType;
      var n := if c.isNullable then 0 else |" NOT NULL"|;
      var d := if c.defaultValue == "" then 0 else |" DEFAULT "| + |c.defaultValue|;
      var m := if c.comment == "" then 0 else |" COMMENT '"| + |c.comment| + 1;
      var s := ColumnDef(c);
      |s| == |h| + n + d + m &&
      s[..|h|] == h &&
      (!c.isNullable ==> s[|h|..|h| + n] == " NOT NULL") &&
      (c.defaultValue != "" ==> s[|h| + n..|h| + n + d] == " DEFAULT " + c.defaultValue) &&
      (c.comment != "" ==> s[|h| + n + d..] == " COMMENT '" + c.comment + "'")
  {
  }

  /** The column definitions, one per column in order, as `CreateTable`'s loop fills them. */
  method ColumnDefs(cols: seq<ColumnInfo>) returns (defs: seq<string>)
    ensures |defs| == |cols|
    ensures forall i :: 0 <= i < |cols| ==> defs[i] == ColumnDef(cols[i])
  {
    defs := [];
    var i := 0;
    while i < |cols|
      invariant 0 <= i <= |cols|
      invariant |defs| == i
      invariant forall k :: 0 <= k < i ==> defs[k] == ColumnDef(cols[k])
    {
      defs := defs + [ColumnDef(cols[i])];
      i := i + 1;
    }
  }

  /** The full statement text: the qualified head, the column list, and the table comment when set. */
  function CreateTableSql(db: string, schema: TableSchema, defs: seq<string>): (r: string)
    ensures QualifiedHead(db, schema.name) <= r
  {
    QualifiedHead(db, schema.name) + " (\n  " + Join(defs, ",\n  ") + "\n)"
    + (if schema.comment != "" then " COMMENT='" + schema.comment + "'" else "")
  }

  /** The column the server records for a column definition of `CreateTable`. */
  function EncodeColumn(c: ColumnInfo): Column
  {
    Column(c.name, c.dataType, if c.isNullable then "YES" else "NO",
      if c.defaultValue != "" then Some(c.defaultValue) else None, c.comment)
  }

  /** The older `GetTableSchema`'s decoding of an `INFORMATION_SCHEMA.COLUMNS` row. */
  function DecodeColumn(c: Column): (r: ColumnInfo)
    ensures r.name == c.name && r.dataType == c.dataType && r.comment == c.comment
    ensures r.isNullable <==> c.isNullable == "YES"
    ensures c.default.Some? ==> r.defaultValue == c.default.value
    ensures c.default.None? ==> r.defaultValue == ""
  {
    ColumnInfo(c.name, c.dataType, c.isNullable == "YES",
      match c.default case Some(d) => d case None => "", c.comment)
  }

  /** A column created by `CreateTable` reads back as the `ColumnInfo` it was created from. */
  lemma DecodeEncodeColumn(c: ColumnInfo)
    ensures DecodeColumn(EncodeColumn(c)) == c
  {
  }

  /** The table definition a `CreateTable` statement spells out: its columns and comment, and no index. */
  function DefOf(schema: TableSchema): (r: TableDef)
    ensures |r.columns| == |schema.columns|
    ensures forall i :: 0 <= i < |schema.columns| ==> r.columns[i] == EncodeColumn(schema.columns[i])
    ensures r.comment == schema.comment && r.indexes == []
  {
    TableDef(seq(|schema.columns|, i requires 0 <= i < |schema.columns| => EncodeColumn(schema.columns[i])),
      schema.comment, [])
  }

  /** `CREATE TABLE` rejects a missing schema or one without columns. */
  predicate ValidSchema(schema: Option<TableSchema>)
  {
    schema.Some? && |schema.value.columns| > 0
  }

  // ---------------------------------------------------------------- reading rows

  /** The `Row` map `ReadRows` builds from one scanned row: NULL values are left out; a later column wins a repeated name. */
  function BuildRow(cols: seq<string>, vals: seq<Value>): Record
    requires |cols| == |vals|
  {
    if |cols| == 0 then map[]
    else
      var m := BuildRow(cols[..|cols| - 1], vals[..|vals| - 1]);
      if vals[|vals| - 1] != Null then m[cols[|cols| - 1] := vals[|vals| - 1]] else m
  }

  /** A stored row restricted to the non-NULL values of the listed columns. */
  function NonNull(r: Record, cols: seq<string>): Record
  {
    map c | c in cols && Cell(r, c) != Null :: Cell(r, c)
  }

  /** Reading a stored row yields exactly its non-NULL values, keyed by column. */
  lemma {:induction false} BuildRowNonNull(r: Record, cols: seq<string>)
    ensures BuildRow(cols, RowValues(r, cols)) == NonNull(r, cols)
  {
    if |cols| > 0 {
      var init := cols[..|cols| - 1];
      assert RowValues(r, cols)[..|cols| - 1] == RowValues(r, init);
      BuildRowNonNull(r, init);
    }
  }

  /** The rows `ReadRows` returns from the scanned values, as its two loops build them. */
  method BuildRows(cols: seq<string>, scanned: seq<seq<Value>>) returns (rows: seq<Record>)
    requires forall i :: 0 <= i < |scanned| ==> |scanned[i]| == |cols|
    ensures |rows| == |scanned|
    ensures forall i :: 0 <= i < |scanned| ==> rows[i] == BuildRow(cols, scanned[i])
  {
    rows := [];
    var i := 0;
    while i < |scanned|
      invariant 0 <= i <= |scanned|
      invariant |rows| == i
      invariant forall k :: 0 <= k < i ==> rows[k] == BuildRow(cols, scanned[k])
    {
      var vals := scanned[i];
      var row: Record := map[];
      var j := 0;
      while j < |cols|
        invariant 0 <= j <= |cols|
        invariant row == BuildRow(cols[..j], vals[..j])
      {
        assert cols[..j + 1][..j] == cols[..j];
        assert vals[..j + 1][..j] == vals[..j];
        if vals[j] != Null {
          row := row[cols[j] := vals[j]];
        }
        j := j + 1;
      }
      assert cols[..j] == cols && vals[..j] == vals;
      rows := rows + [row];
      i := i + 1;
    }
  }

  // ---------------------------------------------------------------- writing rows

  /** The newer `WriteRows` hands `[]uint8` values over as strings. */
  function AsText(v: Value): Value
  {
    match v
    case Bytes(b) => Text(b)
    case _ => v
  }

  /** The INSERT arguments one row contributes: its value per column, NULL where absent. */
  function RowArgs(r: Record, cols: seq<string>, convert: bool): (a: seq<Value>)
    ensures |a| == |cols|
    ensures forall j :: 0 <= j < |cols| ==> a[j] == (if convert then AsText(Cell(r, cols[j])) else Cell(r, cols[j]))
  {
    seq(|cols|, j requires 0 <= j < |cols| => if convert then AsText(Cell(r, cols[j])) else Cell(r, cols[j]))
  }

  /** The INSERT arguments of a batch: row after row, column after column. */
  function Flatten(batch: seq<Record>, cols: seq<string>, convert: bool): seq<Value>
  {
    if |batch| == 0 then []
    else Flatten(batch[..|batch| - 1], cols, convert) + RowArgs(batch[|batch| - 1], cols, convert)
  }

  lemma {:induction false} FlattenAppend(a: seq<Record>, b: seq<Record>, cols: seq<string>, convert: bool)
    ensures Flatten(a + b, cols, convert) == Flatten(a, cols, convert) + Flatten(b, cols, convert)
    decreases |b|
  {
    if |b| == 0 {
      assert a + b == a;
    } else {
      var b' := b[..|b| - 1];
      assert (a + b)[..|a + b| - 1] == a + b';
      assert (a + b)[|a + b| - 1] == b[|b| - 1];
      FlattenAppend(a, b', cols, convert);
    }
  }

  /** A batch of `n` rows over `k` columns gives `n * k` arguments. */
  lemma {:induction false} FlattenLength(batch: seq<Record>, cols: seq<string>, convert: bool)
    ensures |Flatten(batch, cols, convert)| == |batch| * |cols|
  {
    if |batch| > 0 {
      FlattenLength(batch[..|batch| - 1], cols, convert);
    }
  }

  /** The record a target table stores for a written row. */
  function Stored(r: Record, cols: seq<string>, convert: bool): Record
    requires Distinct(cols)
  {
    Zip(cols, RowArgs(r, cols, convert))
  }

  function StoredRows(batch: seq<Record>, cols: seq<string>, convert: bool): (r: seq<Record>)
    requires Distinct(cols)
    ensures |r| == |batch|
    ensures forall i :: 0 <= i < |batch| ==> r[i] == Stored(batch[i], cols, convert)
  {
    seq(|batch|, i requires 0 <= i < |batch| => Stored(batch[i], cols, convert))
  }

  /** The server reassembles flattened arguments into exactly one stored record per written row. */
  lemma {:induction false} UnflattenFlatten(batch: seq<Record>, cols: seq<string>, convert: bool)
    requires |cols| > 0 && Distinct(cols)
    ensures Unflatten(cols, Flatten(batch, cols, convert)) == StoredRows(batch, cols, convert)
    decreases |batch|
  {
    if |batch| > 0 {
      var rest := batch[1..];
      assert batch == [batch[0]] + rest;
      FlattenAppend([batch[0]], rest, cols, convert);
      assert Flatten([batch[0]], cols, convert) == RowArgs(batch[0], cols, convert) by {
        assert [batch[0]][..0] == [];
      }
      var vals := Flatten(batch, cols, convert);
      FlattenLength(rest, cols, convert);
      assert vals[..|cols|] == RowArgs(batch[0], cols, convert);
      assert vals[|cols|..] == Flatten(rest, cols, convert);
      UnflattenFlatten(rest, cols, convert);
    }
  }

  /** Flattening one batch, with the two nested loops of `WriteRows`. */
  method FlattenBatch(batch: seq<Record>, cols: seq<string>, convert: bool) returns (values: seq<Value>)
    ensures values == Flatten(batch, cols, convert)
  {
    values := [];
    var i := 0;
    while i < |batch|
      invariant 0 <= i <= |batch|
      invariant values == Flatten(batch[..i], cols, convert)
    {
      var row := batch[i];
      var j := 0;
      while j < |cols|
        invariant 0 <= j <= |cols|
        invariant values == Flatten(batch[..i], cols, convert) + RowArgs(row, cols, convert)[..j]
      {
        var v := if convert then AsText(Cell(row, cols[j])) else Cell(row, cols[j]);
        assert RowArgs(row, cols, convert)[..j + 1] == RowArgs(row, cols, convert)[..j] + [v];
        values := values + [v];
        j := j + 1;
      }
      assert batch[..i + 1][..i] == batch[..i];
      assert RowArgs(row, cols, convert)[..j] == RowArgs(row, cols, convert);
      i := i + 1;
    }
    assert batch[..i] == batch;
  }

  /** A copied row keeps every column's value (bytes become text in the newer copy), NULL where it was NULL or absent. */
  lemma CopyRow(r: Record, cols: seq<string>, convert: bool)
    requires Distinct(cols)
    ensures Stored(NonNull(r, cols), cols, convert).Keys == set c | c in cols
    ensures forall c :: c in cols ==>
      Stored(NonNull(r, cols), cols, convert)[c] == (if convert then AsText(Cell(r, c)) else Cell(r, c))
  {
    var s := Stored(NonNull(r, cols), cols, convert);
    forall c | c in cols
      ensures s[c] == (if convert then AsText(Cell(r, c)) else Cell(r, c))
    {
      var j :| 0 <= j < |cols| && cols[j] == c;
      assert s[cols[j]] == RowArgs(NonNull(r, cols), cols, convert)[j];
    }
  }

  /** The target server after the first `n` of `rows` were written over the columns `cols`. */
  ghost function AfterWrite(s: Server, db: string, t: string, rows: seq<Record>, cols: seq<string>, convert: bool, n: nat): Server
    requires HasTable(s, db, t) && Distinct(cols) && n <= |rows|
  {
    Appended(s, db, t, StoredRows(rows[..n], cols, convert))
  }

  /** Storing the batch `rows[i..end]` after the first `i` rows gives the first `end` rows stored, in order. */
  lemma AppendStored(s0: Server, before: Server, db: string, t: string, rows: seq<Record>, cols: seq<string>, convert: bool, i: nat, end: nat)
    requires HasTable(s0, db, t) && Distinct(cols) && i <= end <= |rows|
    requires i == 0 ==> before.dbs == s0.dbs
    requires i > 0 ==> before.dbs == AfterWrite(s0, db, t, rows, cols, convert, i).dbs
    ensures HasTable(before, db, t)
    ensures Appended(before, db, t, StoredRows(rows[i..end], cols, convert)).dbs == AfterWrite(s0, db, t, rows, cols, convert, end).dbs
  {
    var a, b := StoredRows(rows[..i], cols, convert), StoredRows(rows[i..end], cols, convert);
    StoredRowsSplit(rows, cols, convert, i, end);
    if i == 0 {
      assert a == [];
      assert b == a + b;
      AppendedSameDbs(s0, before, db, t, b);
    } else {
      AppendedTwice(s0, before, db, t, a, b);
    }
  }

  /** Storing a prefix of the rows is storing its two parts one after the other. */
  lemma StoredRowsSplit(rows: seq<Record>, cols: seq<string>, convert: bool, i: nat, end: nat)
    requires Distinct(cols) && i <= end <= |rows|
    ensures StoredRows(rows[..end], cols, convert) == StoredRows(rows[..i], cols, convert) + StoredRows(rows[i..end], cols, convert)
  {
    var whole, a, b := StoredRows(rows[..end], cols, convert), StoredRows(rows[..i], cols, convert), StoredRows(rows[i..end], cols, convert);
    forall k | 0 <= k < end ensures whole[k] == (a + b)[k] {
      if k < i {
        assert (a + b)[k] == a[k];
      } else {
        assert (a + b)[k] == b[k - i];
      }
    }
  }

  /** `n` rows make a whole number of batches of `size` rows. */
  predicate WholeBatches(n: nat, size: nat)
    decreases n
  {
    n == 0 || (size > 0 && n >= size && WholeBatches(n - size, size))
  }

  // ---------------------------------------------------------------- retry

  /** The error texts after which the newer `WriteRows` reconnects and tries again. */
  predicate Retryable(msg: string)
  {
    Contains(msg, "invalid connection") || Contains(msg, "broken pipe")
  }

  /** How many times one batch may be retried. */
  const MaxRetry: nat := 3
}
