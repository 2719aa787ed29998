/**
 * The data side of the MySQL migration page: the task payload the form
 * submits, how the data comparison reads a stored task back, the comparison
 * loop over the task's databases, and the result table and per-database
 * summary it shows.
 *
 * The migration client's answers (`datamigrateAPI.compare`) are inputs: a
 * comparer maps a database and its table names to a reply, or to the message
 * of the exception the call throws.
 */
module MysqlCompare {
  import opened Wrappers
  import Strs

  // ------------------------------------------------------------ parseConfig

  /** A stored connection config: JSON text, or an already decoded object. */
  datatype ConfigField = Text(raw: string) | Object(fields: map<string, string>)

  /** `JSON.parse` on an object, `None` where it throws. */
  type JsonParser = string -> Option<map<string, string>>

  /** `parseConfig`: text is decoded, `{}` where decoding throws; an object is returned unchanged. */
  function ParseConfig(c: ConfigField, parse: JsonParser): (r: map<string, string>)
    ensures c.Object? ==> r == c.fields
    ensures c.Text? && parse(c.raw).None? ==> r == map[]
    ensures c.Text? && parse(c.raw).Some? ==> r == parse(c.raw).value
  {
    match c
    case Object(fields) => fields
    case Text(raw) => match parse(raw) { case None => map[] case Some(o) => o }
  }

  // ------------------------------------------------------------ the created task

  datatype DbConfig = DbConfig(kind: string, host: string, port: int, database: string,
                               username: string, password: string, charset: string)

  /** `defaultConfig`. */
  const DefaultConfig := DbConfig("mysql", "", 3306, "", "", "", "utf8mb4")

  /** A table chosen in the form, with the database it belongs to. */
  datatype Selection = Selection(db: string, table: string)

  /** The body `handleCreateTask` sends. */
  datatype TaskPayload = TaskPayload(sourceConfig: DbConfig, targetConfig: DbConfig, database: string,
                                     tables: seq<string>, batchSize: int, createSchema: bool,
                                     truncateTarget: bool, onlySyncSchema: bool)

  /** `selectedTables.map(sel => sel.db + "." + sel.table)`. */
  function QualifiedNames(sel: seq<Selection>): (r: seq<string>)
    ensures |r| == |sel|
    ensures forall i :: 0 <= i < |sel| ==> r[i] == sel[i].db + "." + sel[i].table
  {
    if |sel| == 0 then []
    else QualifiedNames(sel[..|sel| - 1]) + [sel[|sel| - 1].db + "." + sel[|sel| - 1].table]
  }

  /**
   * The payload: the tables as `db.table` in selection order, the databases
   * joined with `,`, and both configs pointed at the first selected database
   * (`""` when none is selected).
   */
  function Payload(source: DbConfig, target: DbConfig, selectedDatabase: seq<string>, selectedTables: seq<Selection>,
                   batchSize: int, createSchema: bool, truncateTarget: bool, onlySyncSchema: bool): TaskPayload
  {
    var main := if |selectedDatabase| > 0 then selectedDatabase[0] else "";
    TaskPayload(source.(database := main), target.(database := main), Strs.Join(selectedDatabase, ","),
                QualifiedNames(selectedTables), batchSize, createSchema, truncateTarget, onlySyncSchema)
  }

  // ------------------------------------------------------------ reading a task back

  /** A task's `database` or `tables` field: an array, a string, or anything else. */
  datatype ListField = Array(items: seq<string>) | Str(text: string) | Other

  /** The trimmed, non-empty parts, in order. */
  function Names(parts: seq<string>): (r: seq<string>)
    ensures forall i :: 0 <= i < |r| ==> r[i] != ""
    ensures forall x :: x in r <==> x != "" && exists i :: 0 <= i < |parts| && Strs.Trim(parts[i]) == x
  {
    if |parts| == 0 then []
    else
      var init := parts[..|parts| - 1];
      var t := Strs.Trim(parts[|parts| - 1]);
      assert forall i :: 0 <= i < |init| ==> init[i] == parts[i];
      Names(init) + (if t == "" then [] else [t])
  }

  /** The databases a comparison visits: an array as it is, a string split on `,`, trimmed, empties dropped. */
  function DatabasesOf(f: ListField): (r: seq<string>)
  {
    match f
    case Array(items) => items
    case Str(text) => Names(Strs.Split(text, ','))
    case Other => []
  }

  /** `t.split(".")[1]`: the text between the first dot and the next one (or the end). */
  function Segment(t: string): string
    requires '.' in t
  {
    var i := Strs.FirstIndex(t, '.');
    var rest := t[i + 1..];
    rest[..Strs.FirstIndex(rest, '.')]
  }

  /** `allTables.filter(t => t.startsWith(db + ".")).map(t => t.split(".")[1])`. */
  function TablesOf(all: seq<string>, db: string): seq<string>
  {
    if |all| == 0 then []
    else
      var t := all[|all| - 1];
      TablesOf(all[..|all| - 1], db) +
        (if Strs.StartsWith(t, db + ".") then (assert t[|db|] == (db + ".")[|db|]; [Segment(t)]) else [])
  }

  /** The tables selected in database `db`, in selection order. */
  function TablesIn(sel: seq<Selection>, db: string): seq<string>
  {
    if |sel| == 0 then []
    else TablesIn(sel[..|sel| - 1], db) + (if sel[|sel| - 1].db == db then [sel[|sel| - 1].table] else [])
  }

  /** A name the round trip keeps: non-empty, without `,`, and with nothing for `trim` to remove. */
  predicate PlainName(d: string)
  {
    d != "" && ',' !in d && '.' !in d && !Strs.IsSpace(d[0]) && !Strs.IsSpace(d[|d| - 1])
  }

  /** `trim` leaves a name without outer white space alone. */
  lemma TrimPlain(d: string)
    requires d != "" && !Strs.IsSpace(d[0]) && !Strs.IsSpace(d[|d| - 1])
    ensures Strs.Trim(d) == d
  {
  }

  /** Splitting the joined databases and dropping empties gives the selection back. */
  lemma {:induction false} NamesOfPlain(parts: seq<string>)
    requires forall i :: 0 <= i < |parts| ==> PlainName(parts[i])
    ensures Names(parts) == parts
  {
    if |parts| > 0 {
      var init := parts[..|parts| - 1];
      NamesOfPlain(init);
      TrimPlain(parts[|parts| - 1]);
      assert init + [parts[|parts| - 1]] == parts;
    }
  }

  /** A `db.table` name starts with `d + "."` exactly when its database is `d`, for names without dots. */
  lemma QualifiedPrefix(s: Selection, d: string)
    requires '.' !in s.db && '.' !in s.table && '.' !in d
    ensures Strs.StartsWith(s.db + "." + s.table, d + ".") <==> s.db == d
  {
    var t := s.db + "." + s.table;
    var p := d + ".";
    if p <= t {
      assert forall k :: 0 <= k < |p| ==> p[k] == t[k];
      assert forall k :: 0 <= k < |s.db| ==> t[k] == s.db[k];
      assert forall k :: 0 <= k < |d| ==> p[k] == d[k];
      assert t[|s.db|] == '.' && p[|d|] == '.';
      assert |d| == |s.db|;
      assert d == p[..|d|] == t[..|d|] == s.db;
    }
    if s.db == d {
      assert t == p + s.table;
    }
  }

  /** The segment after the first dot of `db.table` is the table. */
  lemma SegmentOfQualified(s: Selection)
    requires '.' !in s.db && '.' !in s.table
    ensures '.' in s.db + "." + s.table
    ensures Segment(s.db + "." + s.table) == s.table
  {
    var t := s.db + "." + s.table;
    assert t[|s.db|] == '.';
    assert forall k :: 0 <= k < |s.db| ==> t[k] == s.db[k];
    var i := Strs.FirstIndex(t, '.');
    assert i == |s.db|;
    var rest := t[i + 1..];
    assert rest == s.table;
    var j := Strs.FirstIndex(rest, '.');
    assert j == |rest|;
  }

  /** Reading the `db.table` names back for one database gives the tables selected in it, in order. */
  lemma {:induction false} TablesRoundTrip(sel: seq<Selection>, d: string)
    requires forall i :: 0 <= i < |sel| ==> '.' !in sel[i].db && '.' !in sel[i].table
    requires '.' !in d
    ensures TablesOf(QualifiedNames(sel), d) == TablesIn(sel, d)
  {
    if |sel| > 0 {
      var init := sel[..|sel| - 1];
      var s := sel[|sel| - 1];
      var names := QualifiedNames(sel);
      assert names[..|names| - 1] == QualifiedNames(init);
      assert names[|names| - 1] == s.db + "." + s.table;
      TablesRoundTrip(init, d);
      QualifiedPrefix(s, d);
      if s.db == d {
        SegmentOfQualified(s);
      }
    }
  }

  /**
   * A task created by the form and then compared is read back faithfully:
   * when the database and table names are plain (non-empty, no `,`, no `.`,
   * no outer white space), the comparison visits exactly the selected
   * databases, and asks each one for exactly the tables selected in it.
   */
  lemma PayloadRoundTrip(source: DbConfig, target: DbConfig, selectedDatabase: seq<string>, selectedTables: seq<Selection>,
                         batchSize: int, createSchema: bool, truncateTarget: bool, onlySyncSchema: bool)
    requires forall i :: 0 <= i < |selectedDatabase| ==> PlainName(selectedDatabase[i])
    requires forall i :: 0 <= i < |selectedTables| ==> '.' !in selectedTables[i].db && '.' !in selectedTables[i].table
    ensures var p := Payload(source, target, selectedDatabase, selectedTables, batchSize, createSchema, truncateTarget, onlySyncSchema);
      DatabasesOf(Str(p.database)) == selectedDatabase &&
      (forall i :: 0 <= i < |selectedDatabase| ==>
        TablesOf(p.tables, selectedDatabase[i]) == TablesIn(selectedTables, selectedDatabase[i])) &&
      p.sourceConfig.database == p.targetConfig.database ==
        (if |selectedDatabase| > 0 then selectedDatabase[0] else "")
  {
    var joined := Strs.Join(selectedDatabase, ",");
    if |selectedDatabase| == 0 {
      assert Strs.Split(joined, ',') == [""];
      assert Names([""]) == [];
    } else {
      Strs.SplitJoinChar(selectedDatabase, ',');
      NamesOfPlain(selectedDatabase);
    }
    forall i | 0 <= i < |selectedDatabase|
      ensures TablesOf(QualifiedNames(selectedTables), selectedDatabase[i]) == TablesIn(selectedTables, selectedDatabase[i])
    {
      TablesRoundTrip(selectedTables, selectedDatabase[i]);
    }
  }

  // ------------------------------------------------------------ handleCompare

  datatype CompareRow = CompareRow(database: string, table: string, rowsSource: int, rowsTarget: int,
                                   inSource: bool, inTarget: bool)

  /** One database's comparison reply; absent fields read as `0`, `[]` and false. */
  datatype CompareReply = CompareReply(code: int, msg: string, rows: seq<CompareRow>,
                                       countSource: int, countTarget: int, countEqual: bool)

  /** What the comparison dialog is given. */
  datatype CompareSummary = CompareSummary(countSource: int, countTarget: int, countEqual: bool, rows: seq<CompareRow>)

  /** `datamigrateAPI.compare` for one database and its tables, or the message it throws. */
  type Comparer = (string, seq<string>) -> Result<CompareReply, string>

  /** The databases actually compared: those with at least one table in the task. */
  function Queried(dbs: seq<string>, all: seq<string>): seq<string>
  {
    if |dbs| == 0 then []
    else Queried(dbs[..|dbs| - 1], all) + (if TablesOf(all, dbs[|dbs| - 1]) == [] then [] else [dbs[|dbs| - 1]])
  }

  /** The reply for database `db`. */
  function ReplyOf(db: string, all: seq<string>, compare: Comparer): Result<CompareReply, string>
  {
    compare(db, TablesOf(all, db))
  }

  /** A reply that stops the comparison: the call threw, or answered a non-zero code. */
  predicate Failed(x: Result<CompareReply, string>)
  {
    x.Err? || x.value.code != 0
  }

  /** The reply's content; a thrown call has none and counts as the empty reply. */
  function Answer(x: Result<CompareReply, string>): CompareReply
  {
    match x
    case Ok(reply) => reply
    case Err(_) => CompareReply(0, "", [], 0, 0, false)
  }

  /** The error a stopping reply shows: the thrown message, or the reply's message (or "对比失败") naming the database. */
  function FailureText(x: Result<CompareReply, string>, db: string): string
  {
    match x
    case Err(e) => e
    case Ok(reply) => (if reply.msg == "" then "对比失败" else reply.msg) + ("（库：" + (db + "）"))
  }

  /** Each row tagged with its database, `{...row, database: db}`. */
  function Tag(rows: seq<CompareRow>, db: string): (r: seq<CompareRow>)
    ensures |r| == |rows|
    ensures forall i :: 0 <= i < |rows| ==> r[i] == rows[i].(database := db)
  {
    if |rows| == 0 then [] else Tag(rows[..|rows| - 1], db) + [rows[|rows| - 1].(database := db)]
  }

  /** Sum of the source table counts over the compared databases. */
  function TotalSource(q: seq<string>, all: seq<string>, compare: Comparer): int
  {
    if |q| == 0 then 0
    else TotalSource(q[..|q| - 1], all, compare) + Answer(ReplyOf(q[|q| - 1], all, compare)).countSource
  }

  /** Sum of the target table counts over the compared databases. */
  function TotalTarget(q: seq<string>, all: seq<string>, compare: Comparer): int
  {
    if |q| == 0 then 0
    else TotalTarget(q[..|q| - 1], all, compare) + Answer(ReplyOf(q[|q| - 1], all, compare)).countTarget
  }

  /** Every compared database reported its table counts equal. */
  predicate AllEqual(q: seq<string>, all: seq<string>, compare: Comparer)
  {
    forall k :: 0 <= k < |q| ==> Answer(ReplyOf(q[k], all, compare)).countEqual
  }

  /** All rows of the compared databases, tagged, in database order. */
  function AllRows(q: seq<string>, all: seq<string>, compare: Comparer): seq<CompareRow>
  {
    if |q| == 0 then []
    else AllRows(q[..|q| - 1], all, compare) + Tag(Answer(ReplyOf(q[|q| - 1], all, compare)).rows, q[|q| - 1])
  }

  /** The summary of comparing the databases `q`. */
  function SummaryOf(q: seq<string>, all: seq<string>, compare: Comparer): CompareSummary
  {
    CompareSummary(TotalSource(q, all, compare), TotalTarget(q, all, compare), AllEqual(q, all, compare),
                   AllRows(q, all, compare))
  }

  /** Every database in `q` was compared without failure. */
  predicate Done(q: seq<string>, all: seq<string>, compare: Comparer)
  {
    forall k :: 0 <= k < |q| ==> !Failed(ReplyOf(q[k], all, compare))
  }

  /** `q[j]` is the first database of `q` whose comparison fails. */
  predicate FirstFailure(q: seq<string>, all: seq<string>, compare: Comparer, j: int)
    requires 0 <= j < |q|
  {
    Failed(ReplyOf(q[j], all, compare)) && Done(q[..j], all, compare)
  }

  /** How the tables field is read: an array as it is, a string decoded, anything else `[]`. */
  function TablesField(f: ListField, parseList: string -> Result<seq<string>, string>): Result<seq<string>, string>
  {
    match f
    case Array(items) => Ok(items)
    case Str(text) => parseList(text)
    case Other => Ok([])
  }

  /**
   * `handleCompare`: every database with tables in the task is compared in
   * order. A tables field that cannot be decoded reports the decoding error.
   * The first database whose call throws or answers a non-zero code stops the
   * comparison with its error; otherwise the totals are the sums of the
   * per-database counts, the tables count as equal exactly when every
   * database reported them equal, and the rows are all the databases' rows
   * tagged with their database.
   */
  method Compare(database: ListField, tables: ListField, parseList: string -> Result<seq<string>, string>,
                 compare: Comparer) returns (r: Result<CompareSummary, string>)
    ensures TablesField(tables, parseList).Err? ==> r == Err(TablesField(tables, parseList).error)
    ensures TablesField(tables, parseList).Ok? ==>
      var all := TablesField(tables, parseList).value;
      var q := Queried(DatabasesOf(database), all);
      (r.Ok? <==> Done(q, all, compare)) &&
      (r.Ok? ==> r.value == CompareSummary(TotalSource(q, all, compare), TotalTarget(q, all, compare),
                                           AllEqual(q, all, compare), AllRows(q, all, compare))) &&
      (r.Err? ==> exists j :: 0 <= j < |q| && FirstFailure(q, all, compare, j) &&
                              r.error == FailureText(ReplyOf(q[j], all, compare), q[j]))
  {
    var parsed := TablesField(tables, parseList);
    if parsed.Err? {
      return Err(parsed.error);
    }
    r := CompareDatabases(DatabasesOf(database), parsed.value, compare);
  }

  /** The loop of `handleCompare` over the task's databases. */
  method CompareDatabases(dbs: seq<string>, all: seq<string>, compare: Comparer) returns (r: Result<CompareSummary, string>)
    ensures var q := Queried(dbs, all);
      (r.Ok? <==> Done(q, all, compare)) &&
      (r.Ok? ==> r.value == SummaryOf(q, all, compare)) &&
      (r.Err? ==> exists j :: 0 <= j < |q| && FirstFailure(q, all, compare, j) &&
                              r.error == FailureText(ReplyOf(q[j], all, compare), q[j]))
  {
    var rows: seq<CompareRow> := [];
    var totalSource, totalTarget, allEqual := 0, 0, true;
    ghost var q: seq<string> := [];
    var i := 0;
    while i < |dbs|
      invariant 0 <= i <= |dbs| && q == Queried(dbs[..i], all)
      invariant Done(q, all, compare)
      invariant totalSource == TotalSource(q, all, compare) && totalTarget == TotalTarget(q, all, compare)
      invariant allEqual == AllEqual(q, all, compare) && rows == AllRows(q, all, compare)
    {
      var db := dbs[i];
      var dbTables := TablesOf(all, db);
      QueriedStep(dbs, i, all);
      if |dbTables| > 0 {
        var reply := ReplyOf(db, all, compare);
        if Failed(reply) {
          FailureFound(dbs, i, all, compare);
          return Err(FailureText(reply, db));
        }
        SummaryStep(q, db, all, compare);
        var answer := reply.value;
        rows := rows + Tag(answer.rows, db);
        totalSource := totalSource + answer.countSource;
        totalTarget := totalTarget + answer.countTarget;
        allEqual := allEqual && answer.countEqual;
        q := q + [db];
      }
      i := i + 1;
    }
    assert dbs[..i] == dbs;
    return Ok(CompareSummary(totalSource, totalTarget, allEqual, rows));
  }

  /** One more database extends the compared list by itself exactly when it has tables. */
  lemma QueriedStep(dbs: seq<string>, i: int, all: seq<string>)
    requires 0 <= i < |dbs|
    ensures Queried(dbs[..i + 1], all) ==
      Queried(dbs[..i], all) + (if TablesOf(all, dbs[i]) == [] then [] else [dbs[i]])
  {
    assert dbs[..i + 1][..i] == dbs[..i];
  }

  /** The databases compared from a prefix are a prefix of those compared from the whole list. */
  lemma {:induction false} QueriedPrefix(dbs: seq<string>, i: int, all: seq<string>)
    requires 0 <= i <= |dbs|
    ensures Queried(dbs[..i], all) <= Queried(dbs, all)
    decreases |dbs| - i
  {
    if i < |dbs| {
      QueriedStep(dbs, i, all);
      QueriedPrefix(dbs, i + 1, all);
    } else {
      assert dbs[..i] == dbs;
    }
  }

  /** A database with tables that fails after clean ones is the first failure of the whole comparison. */
  lemma FailureFound(dbs: seq<string>, i: int, all: seq<string>, compare: Comparer)
    requires 0 <= i < |dbs| && TablesOf(all, dbs[i]) != []
    requires Done(Queried(dbs[..i], all), all, compare) && Failed(ReplyOf(dbs[i], all, compare))
    ensures var full := Queried(dbs, all);
      !Done(full, all, compare) &&
      exists j :: 0 <= j < |full| && FirstFailure(full, all, compare, j) && full[j] == dbs[i]
  {
    var q := Queried(dbs[..i], all);
    QueriedStep(dbs, i, all);
    QueriedPrefix(dbs, i + 1, all);
    var full := Queried(dbs, all);
    assert full[|q|] == (q + [dbs[i]])[|q|] == dbs[i];
    assert full[..|q|] == q;
    assert FirstFailure(full, all, compare, |q|);
  }

  /** Appending a database that compared cleanly keeps `Done` and adds its counts, its verdict and its tagged rows. */
  lemma SummaryStep(q: seq<string>, db: string, all: seq<string>, compare: Comparer)
    requires Done(q, all, compare) && !Failed(ReplyOf(db, all, compare))
    ensures Done(q + [db], all, compare)
    ensures var v := ReplyOf(db, all, compare).value;
      TotalSource(q + [db], all, compare) == TotalSource(q, all, compare) + v.countSource &&
      TotalTarget(q + [db], all, compare) == TotalTarget(q, all, compare) + v.countTarget &&
      AllEqual(q + [db], all, compare) == (AllEqual(q, all, compare) && v.countEqual) &&
      AllRows(q + [db], all, compare) == AllRows(q, all, compare) + Tag(v.rows, db)
  {
    var q' := q + [db];
    assert q'[..|q|] == q && q'[|q|] == db;
    assert AllEqual(q', all, compare) <==> AllEqual(q, all, compare) && Answer(ReplyOf(db, all, compare)).countEqual;
  }

  // ------------------------------------------------------------ the result table

  /** A row that differs: the row counts differ, or the table is missing on one side. */
  predicate Diverges(row: CompareRow)
  {
    row.rowsSource != row.rowsTarget || !row.inSource || !row.inTarget
  }

  /** `rows.filter(row => !!row.table)`. */
  function Named(rows: seq<CompareRow>): seq<CompareRow>
  {
    if |rows| == 0 then []
    else Named(rows[..|rows| - 1]) + (if rows[|rows| - 1].table != "" then [rows[|rows| - 1]] else [])
  }

  /** The divergent rows, in order. */
  function Divergent(rows: seq<CompareRow>): seq<CompareRow>
  {
    if |rows| == 0 then []
    else Divergent(rows[..|rows| - 1]) + (if Diverges(rows[|rows| - 1]) then [rows[|rows| - 1]] else [])
  }

  /** The rows that agree, in order. */
  function Agreeing(rows: seq<CompareRow>): seq<CompareRow>
  {
    if |rows| == 0 then []
    else Agreeing(rows[..|rows| - 1]) + (if Diverges(rows[|rows| - 1]) then [] else [rows[|rows| - 1]])
  }

  /**
   * The table's sort: its comparator puts divergent rows before agreeing
   * ones and calls any two rows of the same kind equal, so the stable sort
   * gives the divergent rows, then the agreeing ones, each in their order.
   */
  function DivergentFirst(rows: seq<CompareRow>): seq<CompareRow>
  {
    Divergent(rows) + Agreeing(rows)
  }

  /** The rows the comparison table lists, with or without "only differences". */
  function ResultTable(rows: seq<CompareRow>, onlyDiff: bool): seq<CompareRow>
  {
    var sorted := DivergentFirst(Named(rows));
    if onlyDiff then Divergent(sorted) else sorted
  }

  /** `Divergent` keeps exactly the divergent rows. */
  lemma {:induction false} DivergentMembers(rows: seq<CompareRow>)
    ensures forall x :: x in Divergent(rows) <==> x in rows && Diverges(x)
  {
    if |rows| > 0 {
      var init := rows[..|rows| - 1];
      DivergentMembers(init);
      assert rows == init + [rows[|rows| - 1]];
    }
  }

  /** `Agreeing` keeps exactly the rows that agree. */
  lemma {:induction false} AgreeingMembers(rows: seq<CompareRow>)
    ensures forall x :: x in Agreeing(rows) <==> x in rows && !Diverges(x)
  {
    if |rows| > 0 {
      var init := rows[..|rows| - 1];
      AgreeingMembers(init);
      assert rows == init + [rows[|rows| - 1]];
    }
  }

  /** Together `Divergent` and `Agreeing` use each row exactly once. */
  lemma {:induction false} PartitionRows(rows: seq<CompareRow>)
    ensures multiset(Divergent(rows)) + multiset(Agreeing(rows)) == multiset(rows)
  {
    if |rows| > 0 {
      var init := rows[..|rows| - 1];
      PartitionRows(init);
      assert init + [rows[|rows| - 1]] == rows;
      PartitionStep(init, rows[|rows| - 1]);
    } else {
      assert Divergent(rows) == [] && Agreeing(rows) == [];
    }
  }

  /** One more row goes to exactly one of the two parts. */
  lemma PartitionStep(init: seq<CompareRow>, x: CompareRow)
    requires multiset(Divergent(init)) + multiset(Agreeing(init)) == multiset(init)
    ensures multiset(Divergent(init + [x])) + multiset(Agreeing(init + [x])) == multiset(init + [x])
  {
    DivergentStep(init, x);
    AgreeingStep(init, x);
    assert multiset(init + [x]) == multiset(init) + multiset{x};
  }

  /** `Divergent` of one more row. */
  lemma DivergentStep(init: seq<CompareRow>, x: CompareRow)
    ensures Divergent(init + [x]) == Divergent(init) + (if Diverges(x) then [x] else [])
  {
    assert (init + [x])[..|init|] == init;
  }

  /** `Agreeing` of one more row. */
  lemma AgreeingStep(init: seq<CompareRow>, x: CompareRow)
    ensures Agreeing(init + [x]) == Agreeing(init) + (if Diverges(x) then [] else [x])
  {
    assert (init + [x])[..|init|] == init;
  }

  /** `Divergent` distributes over concatenation. */
  lemma {:induction false} DivergentAppend(a: seq<CompareRow>, b: seq<CompareRow>)
    ensures Divergent(a + b) == Divergent(a) + Divergent(b)
    decreases |b|
  {
    if |b| > 0 {
      var b' := b[..|b| - 1];
      assert (a + b)[..|a + b| - 1] == a + b';
      DivergentAppend(a, b');
    } else {
      assert a + b == a;
    }
  }

  /** Filtering again changes nothing, and no agreeing row is divergent. */
  lemma {:induction false} DivergentOfParts(rows: seq<CompareRow>)
    ensures Divergent(Divergent(rows)) == Divergent(rows)
    ensures Divergent(Agreeing(rows)) == []
  {
    if |rows| > 0 {
      var init := rows[..|rows| - 1];
      var x := rows[|rows| - 1];
      DivergentOfParts(init);
      assert rows[..|rows| - 1] == init;
      if Diverges(x) {
        assert Divergent(rows) == Divergent(init) + [x] && Agreeing(rows) == Agreeing(init);
        DivergentAppend(Divergent(init), [x]);
        assert Divergent([x]) == Divergent([]) + [x];
      } else {
        assert Divergent(rows) == Divergent(init) && Agreeing(rows) == Agreeing(init) + [x];
        DivergentAppend(Agreeing(init), [x]);
        assert Divergent([x]) == Divergent([]);
      }
    }
  }

  /** In the sorted table every divergent row comes before every agreeing one. */
  lemma DivergentFirstOrdered(named: seq<CompareRow>)
    ensures var all := DivergentFirst(named);
      forall i, j :: 0 <= i < j < |all| && Diverges(all[j]) ==> Diverges(all[i])
  {
    var d, a := Divergent(named), Agreeing(named);
    DivergentMembers(named);
    AgreeingMembers(named);
    var all := d + a;
    forall k | 0 <= k < |all| ensures Diverges(all[k]) <==> k < |d| {
      if k < |d| {
        assert all[k] == d[k] && d[k] in d;
      } else {
        assert all[k] == a[k - |d|] && a[k - |d|] in a;
      }
    }
  }

  /** Sorting keeps each kind's rows in their order. */
  lemma DivergentFirstStable(named: seq<CompareRow>)
    ensures Divergent(DivergentFirst(named)) == Divergent(named)
    ensures Agreeing(DivergentFirst(named)) == Agreeing(named)
  {
    var d, a := Divergent(named), Agreeing(named);
    DivergentAppend(d, a);
    DivergentOfParts(named);
    AgreeingAppend(d, a);
    AgreeingOfParts(named);
  }

  /**
   * The table lists exactly the rows with a table name, each once; every
   * divergent row comes before every agreeing one; each kind keeps its
   * order; and "only differences" lists exactly the divergent ones, in order.
   */
  lemma ResultTableShape(rows: seq<CompareRow>)
    ensures var all := ResultTable(rows, false);
      multiset(all) == multiset(Named(rows)) &&
      (forall i, j :: 0 <= i < j < |all| && Diverges(all[j]) ==> Diverges(all[i])) &&
      Divergent(all) == Divergent(Named(rows)) && Agreeing(all) == Agreeing(Named(rows))
    ensures ResultTable(rows, true) == Divergent(Named(rows))
    ensures forall x :: x in ResultTable(rows, false) ==> x.table != ""
  {
    var named := Named(rows);
    PartitionRows(named);
    DivergentFirstOrdered(named);
    DivergentFirstStable(named);
    NamedTables(rows);
    var all := DivergentFirst(named);
    assert multiset(all) == multiset(Divergent(named)) + multiset(Agreeing(named));
    forall x | x in all ensures x.table != "" {
      assert x in multiset(all);
      assert x in multiset(named);
      assert x in named;
    }
  }

  /** Every named row has a table name. */
  lemma {:induction false} NamedTables(rows: seq<CompareRow>)
    ensures forall x :: x in Named(rows) ==> x.table != ""
  {
    if |rows| > 0 {
      NamedTables(rows[..|rows| - 1]);
    }
  }

  /** `Agreeing` distributes over concatenation. */
  lemma {:induction false} AgreeingAppend(a: seq<CompareRow>, b: seq<CompareRow>)
    ensures Agreeing(a + b) == Agreeing(a) + Agreeing(b)
    decreases |b|
  {
    if |b| > 0 {
      var b' := b[..|b| - 1];
      assert (a + b)[..|a + b| - 1] == a + b';
      AgreeingAppend(a, b');
    } else {
      assert a + b == a;
    }
  }

  /** No divergent row is agreeing, and filtering agreeing rows again changes nothing. */
  lemma {:induction false} AgreeingOfParts(rows: seq<CompareRow>)
    ensures Agreeing(Divergent(rows)) == []
    ensures Agreeing(Agreeing(rows)) == Agreeing(rows)
  {
    if |rows| > 0 {
      var init := rows[..|rows| - 1];
      var x := rows[|rows| - 1];
      AgreeingOfParts(init);
      assert rows[..|rows| - 1] == init;
      if Diverges(x) {
        assert Divergent(rows) == Divergent(init) + [x] && Agreeing(rows) == Agreeing(init);
        AgreeingAppend(Divergent(init), [x]);
        assert Agreeing([x]) == Agreeing([]);
      } else {
        assert Divergent(rows) == Divergent(init) && Agreeing(rows) == Agreeing(init) + [x];
        AgreeingAppend(Agreeing(init), [x]);
        assert Agreeing([x]) == Agreeing([]) + [x];
      }
    }
  }

  // ------------------------------------------------------------ the per-database summary

  /** How many of a database's rows exist in the source, and in the target. */
  datatype Counts = Counts(source: nat, target: nat)

  /** The rows of database `db` whose table exists in the source. */
  function SourceCount(rows: seq<CompareRow>, db: string): nat
  {
    if |rows| == 0 then 0
    else SourceCount(rows[..|rows| - 1], db) + (if rows[|rows| - 1].database == db && rows[|rows| - 1].inSource then 1 else 0)
  }

  /** The rows of database `db` whose table exists in the target. */
  function TargetCount(rows: seq<CompareRow>, db: string): nat
  {
    if |rows| == 0 then 0
    else TargetCount(rows[..|rows| - 1], db) + (if rows[|rows| - 1].database == db && rows[|rows| - 1].inTarget then 1 else 0)
  }

  /** A database is shown as consistent when it has as many tables on both sides. */
  predicate Consistent(c: Counts)
  {
    c.source == c.target
  }

  /** Some row belongs to database `db`. */
  predicate HasDb(rows: seq<CompareRow>, db: string)
  {
    exists k :: 0 <= k < |rows| && rows[k].database == db
  }

  /** `m` is the summary of `rows`: one entry per non-empty database name, with its counts. */
  ghost predicate Summarises(m: map<string, Counts>, rows: seq<CompareRow>)
  {
    (forall db :: db in m <==> db != "" && HasDb(rows, db)) &&
    (forall db :: db in m ==> m[db] == Counts(SourceCount(rows, db), TargetCount(rows, db))) &&
    (forall db :: db != "" && db !in m ==> SourceCount(rows, db) == 0 && TargetCount(rows, db) == 0)
  }

  /** Counting one more row: `dbMap[row.database]` is created at zero if needed, then incremented. */
  function CountRow(m: map<string, Counts>, row: CompareRow): map<string, Counts>
  {
    if row.database == "" then m
    else
      var c := if row.database in m then m[row.database] else Counts(0, 0);
      m[row.database := Counts(c.source + (if row.inSource then 1 else 0), c.target + (if row.inTarget then 1 else 0))]
  }

  /** One more row adds to its own database's source count only. */
  lemma SourceCountStep(rows: seq<CompareRow>, row: CompareRow, db: string)
    ensures SourceCount(rows + [row], db) == SourceCount(rows, db) + (if row.database == db && row.inSource then 1 else 0)
  {
    assert (rows + [row])[..|rows|] == rows;
  }

  /** One more row adds to its own database's target count only. */
  lemma TargetCountStep(rows: seq<CompareRow>, row: CompareRow, db: string)
    ensures TargetCount(rows + [row], db) == TargetCount(rows, db) + (if row.database == db && row.inTarget then 1 else 0)
  {
    assert (rows + [row])[..|rows|] == rows;
  }

  /** Counting one more row keeps the map a summary of the rows seen. */
  lemma CountRowStep(m: map<string, Counts>, rows: seq<CompareRow>, row: CompareRow,
                     m': map<string, Counts>, rows': seq<CompareRow>)
    requires Summarises(m, rows)
    requires m' == CountRow(m, row) && rows' == rows + [row]
    ensures Summarises(m', rows')
  {
    forall db
      ensures SourceCount(rows', db) == SourceCount(rows, db) + (if row.database == db && row.inSource then 1 else 0)
      ensures TargetCount(rows', db) == TargetCount(rows, db) + (if row.database == db && row.inTarget then 1 else 0)
    {
      SourceCountStep(rows, row, db);
      TargetCountStep(rows, row, db);
    }
    forall db
      ensures HasDb(rows', db) <==> HasDb(rows, db) || row.database == db
    {
      if exists k :: 0 <= k < |rows| && rows[k].database == db {
        var k :| 0 <= k < |rows| && rows[k].database == db;
        assert rows'[k] == rows[k];
      }
      if row.database == db {
        assert rows'[|rows|] == row;
      }
      if exists k :: 0 <= k < |rows'| && rows'[k].database == db {
        var k :| 0 <= k < |rows'| && rows'[k].database == db;
        assert k < |rows| ==> rows[k] == rows'[k];
      }
    }
  }

  /** `dbMap` after the `forEach` over `rows`. */
  function SummaryMap(rows: seq<CompareRow>): map<string, Counts>
  {
    if |rows| == 0 then map[] else CountRow(SummaryMap(rows[..|rows| - 1]), rows[|rows| - 1])
  }

  /** The map the loop builds is the summary of the rows. */
  lemma {:induction false} SummaryMapSummarises(rows: seq<CompareRow>)
    ensures Summarises(SummaryMap(rows), rows)
  {
    if |rows| == 0 {
      assert SummaryMap(rows) == map[];
    } else {
      var init := rows[..|rows| - 1];
      SummaryMapSummarises(init);
      assert init + [rows[|rows| - 1]] == rows;
      CountRowStep(SummaryMap(init), init, rows[|rows| - 1], SummaryMap(rows), rows);
    }
  }

  /**
   * The per-database summary: one entry per non-empty database name among
   * the rows, holding how many of its rows exist in the source and how many
   * in the target.
   */
  method DatabaseSummary(rows: seq<CompareRow>) returns (m: map<string, Counts>)
    ensures forall db :: db in m <==> db != "" && exists i :: 0 <= i < |rows| && rows[i].database == db
    ensures forall db :: db in m ==> m[db] == Counts(SourceCount(rows, db), TargetCount(rows, db))
  {
    m := map[];
    var i := 0;
    while i < |rows|
      invariant 0 <= i <= |rows|
      invariant m == SummaryMap(rows[..i])
    {
      var row := rows[i];
      assert rows[..i + 1][..i] == rows[..i];
      if row.database != "" {
        var c := if row.database in m then m[row.database] else Counts(0, 0);
        m := m[row.database := Counts(c.source + (if row.inSource then 1 else 0),
                                      c.target + (if row.inTarget then 1 else 0))];
      }
      i := i + 1;
    }
    assert rows[..i] == rows;
    SummaryMapSummarises(rows);
  }
}
