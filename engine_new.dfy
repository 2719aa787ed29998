/**
 * The newer migration engine (`internal/service/datamigrate/service.go`): the
 * in-memory task store with its status rules, the parsing of `db.table`
 * entries, the per-table decision tree and batched copy of `migrateTable`, and
 * the whole run of `executeMigration`.
 *
 * The database row behind each task is not modelled: the outcome of each write
 * to it is an input (`dbErr`), and `time.Now()` and `uuid.New()` are inputs.
 */
module NewEngine {
  import opened Wrappers
  import opened Errs
  import opened Strs
  import opened MigrationModel
  import opened SqlServer
  import opened MySqlCommon
  import opened NewSource
  import opened Progress

  /** `CreateMigrationRequest`; `tables` is `None` for a request without a table list (a nil slice). */
  datatype CreateRequest = CreateRequest(
    sourceConfig: DataSourceConfig,
    targetConfig: DataSourceConfig,
    database: string,
    tables: Option<seq<string>>,
    batchSize: int,
    createSchema: bool,
    truncateTarget: bool,
    onlySyncSchema: bool)

  /** The table entries of a request (none for a nil list). */
  function Entries(tables: Option<seq<string>>): seq<string>
  {
    tables.GetOr([])
  }

  /** The names of the comma-separated `database` field: each part trimmed, empty ones dropped. */
  function NamedDatabases(parts: seq<string>): set<string>
  {
    if |parts| == 0 then {}
    else
      var last := Trim(parts[|parts| - 1]);
      NamedDatabases(parts[..|parts| - 1]) + (if last != "" then {last} else {})
  }

  /** The databases of the table entries: the part before the first `.`, for entries that have one. */
  function EntryDatabases(entries: seq<string>): set<string>
  {
    if |entries| == 0 then {}
    else
      var ps := SplitFirst(entries[|entries| - 1], '.');
      EntryDatabases(entries[..|entries| - 1]) + (if |ps| == 2 then {ps[0]} else {})
  }

  /** The databases a new task records. */
  function RequestDatabases(req: CreateRequest): set<string>
  {
    NamedDatabases(Split(req.database, ',')) + EntryDatabases(Entries(req.tables))
  }

  /**
   * The task `CreateMigrationTask` stores for a request under an ID: pending
   * at progress 0, with the request's configurations and table list as JSON,
   * each requested database listed once, the request's batch size and flags,
   * and no times, counts or message yet.
   */
  ghost predicate CreatedFrom(t: MigrationTask, req: CreateRequest, id: string)
  {
    t.taskId == id && t.status == Pending && t.progress == 0.0 &&
    t.sourceConfig == Encoded(req.sourceConfig) && t.targetConfig == Encoded(req.targetConfig) &&
    t.tables == Encoded(req.tables) &&
    t.database.Some? && Distinct(t.database.value) &&
    (forall d :: d in t.database.value <==> d in RequestDatabases(req)) &&
    t.totalRows == 0 && t.migratedRows == 0 && t.failedRows == 0 &&
    t.startTime.None? && t.endTime.None? && t.errorMessage == "" &&
    t.batchSize == req.batchSize && t.createSchema == req.createSchema &&
    t.truncateTarget == req.truncateTarget && t.onlySyncSchema == req.onlySyncSchema
  }

  /** Every trimmed, non-empty part of the `database` field is recorded. */
  lemma {:induction false} NamedDatabasesHas(parts: seq<string>, i: int)
    requires 0 <= i < |parts| && Trim(parts[i]) != ""
    ensures Trim(parts[i]) in NamedDatabases(parts)
  {
    var n := |parts| - 1;
    if i < n {
      NamedDatabasesHas(parts[..n], i);
    }
  }

  /** Every name recorded from the `database` field is a trimmed, non-empty part of it. */
  lemma {:induction false} NamedDatabasesSource(parts: seq<string>, d: string) returns (i: int)
    requires d in NamedDatabases(parts)
    ensures 0 <= i < |parts| && Trim(parts[i]) == d && d != ""
  {
    var n := |parts| - 1;
    if d == Trim(parts[n]) && d != "" {
      i := n;
    } else {
      i := NamedDatabasesSource(parts[..n], d);
      assert parts[..n][i] == parts[i];
    }
  }

  /** The database of every table entry that has a `.` is recorded. */
  lemma {:induction false} EntryDatabasesHas(entries: seq<string>, i: int)
    requires 0 <= i < |entries| && '.' in entries[i]
    ensures SplitFirst(entries[i], '.')[0] in EntryDatabases(entries)
  {
    var n := |entries| - 1;
    var ps := SplitFirst(entries[n], '.');
    assert EntryDatabases(entries) == EntryDatabases(entries[..n]) + (if |ps| == 2 then {ps[0]} else {});
    if i < n {
      assert entries[..n][i] == entries[i];
      EntryDatabasesHas(entries[..n], i);
    } else {
      assert |ps| == 2;
    }
  }

  /** Every name recorded from the table entries is the part before the first `.` of one of them. */
  lemma {:induction false} EntryDatabasesSource(entries: seq<string>, d: string) returns (i: int)
    requires d in EntryDatabases(entries)
    ensures 0 <= i < |entries| && '.' in entries[i] && SplitFirst(entries[i], '.')[0] == d
  {
    var n := |entries| - 1;
    var ps := SplitFirst(entries[n], '.');
    if |ps| == 2 && d == ps[0] {
      i := n;
    } else {
      i := EntryDatabasesSource(entries[..n], d);
    }
  }

  /** `parseTableName`: the parts around the first `.`; an entry without one is refused. */
  function ParseTableName(table: string): (r: Result<(string, string), Error>)
    ensures r.Ok? <==> '.' in table
    ensures r.Ok? ==> '.' !in r.value.0 && table == r.value.0 + "." + r.value.1
    ensures r.Err? ==> r.error == Failure("invalid table name format: " + table + ", must be db.table")
  {
    var parts := SplitFirst(table, '.');
    if |parts| != 2 then Err(Failure("invalid table name format: " + table + ", must be db.table"))
    else Ok((parts[0], parts[1]))
  }

  /** Joining a database without a `.` and any table name with `.` parses back to the pair. */
  lemma ParseTableNameJoin(db: string, t: string)
    requires '.' !in db
    ensures ParseTableName(db + "." + t) == Ok((db, t))
  {
    var s := db + "." + t;
    assert s[|db|] == '.';
    var r := ParseTableName(s);
    var (d', t') := r.value;
    assert s == d' + "." + t';
    assert forall i :: 0 <= i < |d'| ==> s[i] == d'[i];
    assert forall i :: 0 <= i < |db| ==> s[i] == db[i];
    assert |d'| == |db|;
    assert d' == s[..|d'|] && db == s[..|db|];
    assert t' == s[|d'| + 1..] && t == s[|db| + 1..];
  }

  /** Every database a task derives from its table entries is the database `parseTableName` later reads from them. */
  lemma TableDatabasesRecorded(req: CreateRequest, i: int)
    requires 0 <= i < |Entries(req.tables)| && ParseTableName(Entries(req.tables)[i]).Ok?
    ensures ParseTableName(Entries(req.tables)[i]).value.0 in RequestDatabases(req)
  {
    EntryDatabasesHas(Entries(req.tables), i);
  }

  /** A bare table name, as `ListTables` returns it, is skipped by `executeMigration`. */
  lemma BareNamesSkipped(names: seq<string>)
    requires forall n :: n in names ==> '.' !in n
    ensures forall n :: n in names ==> ParseTableName(n).Err?
  {
  }

  /** What `GetTaskProgress` can find in the database for a task not in memory. */
  datatype Lookup = Found(task: MigrationTask) | NotFound | LookupFailed(message: string)

  /** The progress view of a task; `CurrentTable` is never filled in. */
  function ProgressOf(t: MigrationTask): (r: MigrationProgress)
    ensures r.taskId == t.taskId && r.status == t.status && r.progress == t.progress
    ensures r.totalRows == t.totalRows && r.migratedRows == t.migratedRows && r.failedRows == t.failedRows
    ensures r.startTime == t.startTime && r.endTime == t.endTime && r.errorMessage == t.errorMessage
    ensures r.currentTable == ""
  {
    MigrationProgress(t.taskId, t.status, t.progress, t.totalRows, t.migratedRows, t.failedRows, "",
      t.startTime, t.endTime, t.errorMessage)
  }

  /** The task after `updateTaskStatus`: status and message overwritten, an end time only for a finished status. */
  function WithStatus(t: MigrationTask, status: MigrationStatus, message: string, now: Time): (r: MigrationTask)
    ensures r.status == status && r.errorMessage == message
    ensures IsFinished(status) ==> r.endTime == Some(now)
    ensures r == t.(status := status, errorMessage := message, endTime := r.endTime)
    ensures !IsFinished(status) ==> r.endTime == t.endTime
  {
    t.(status := status, errorMessage := message, endTime := if IsFinished(status) then Some(now) else t.endTime)
  }

  /** The task after `updateTaskProgress`: progress, total and migrated rows, and nothing else. */
  function WithProgress(t: MigrationTask, progress: real, total: int, migrated: int): (r: MigrationTask)
    ensures r.progress == progress && r.totalRows == total && r.migratedRows == migrated
    ensures r == t.(progress := r.progress, totalRows := r.totalRows, migratedRows := r.migratedRows)
  {
    t.(progress := progress, totalRows := total, migratedRows := migrated)
  }

  /** `StartMigration`'s refusals: a running or completed task cannot be started again. */
  function StartRefusal(s: MigrationStatus): (r: Option<Error>)
    ensures r.None? <==> s != Running && s != Completed
    ensures s == Running ==> r == Some(MigrationTaskRunning)
    ensures s == Completed ==> r == Some(MigrationTaskCompleted)
  {
    if s == Running then Some(MigrationTaskRunning)
    else if s == Completed then Some(MigrationTaskCompleted)
    else None
  }

  /** `CancelTask`'s refusal: only a pending or running task can be cancelled. */
  function CancelRefusal(s: MigrationStatus): (r: Option<Error>)
    ensures r.None? <==> s == Pending || s == Running
    ensures r.Some? ==> r.value == Failure("cannot cancel task with status: " + StatusText(s))
  {
    if s != Running && s != Pending then Some(Failure("cannot cancel task with status: " + StatusText(s)))
    else None
  }

  /**
   * The status rules together: a task that can be cancelled can be started
   * unless it is already running; a cancelled or failed task can be started
   * again but not cancelled; a completed task can be neither.
   */
  lemma StatusRules(s: MigrationStatus)
    ensures CancelRefusal(s).None? && s != Running ==> StartRefusal(s).None?
    ensures s == Cancelled || s == Failed ==> StartRefusal(s).None? && CancelRefusal(s).Some?
    ensures s == Completed ==> StartRefusal(s).Some? && CancelRefusal(s).Some?
  {
  }

  // ---------------------------------------------------------------- one table

  /** The rows of a table as `ReadRows` hands them out: each without its NULL values. */
  function SourceView(s: Server, db: string, t: string): (r: seq<Record>)
    requires HasTable(s, db, t)
    ensures |r| == |s.dbs[db][t].rows|
    ensures forall i :: 0 <= i < |r| ==>
      r[i] == NonNull(s.dbs[db][t].rows[i], ColumnNames(s.dbs[db][t].def.columns))
  {
    var tb := s.dbs[db][t];
    seq(|tb.rows|, i requires 0 <= i < |tb.rows| => NonNull(tb.rows[i], ColumnNames(tb.def.columns)))
  }

  /** The column order `WriteRows` uses for a target table. */
  function TargetColumns(s: Server, db: string, t: string): seq<string>
    requires HasTable(s, db, t)
  {
    ColumnNames(s.dbs[db][t].def.columns)
  }

  /**
   * The target during the copy of `view` into `table`, `offset` rows in: untouched
   * while nothing is written or when the table is missing, and otherwise, as
   * long as no window failed, the old rows followed by the first `offset`
   * rows of the view.
   */
  ghost predicate Copied(t0: Server, cur: Server, db: string, t: string, view: seq<Record>, cols: seq<string>,
                         migrated: int, failed: int, offset: nat)
  {
    (failed == 0 && offset == 0 ==> cur.dbs == t0.dbs) &&
    (!HasTable(t0, db, t) ==> migrated == 0 && cur.dbs == t0.dbs) &&
    (failed == 0 && offset > 0 ==>
      HasTable(t0, db, t) && Distinct(cols) && offset <= |view| &&
      cur.dbs == AfterWrite(t0, db, t, view, cols, true, offset).dbs)
  }

  /** What `migrateTable` does to the target table before copying. */
  datatype TablePlan =
    | Refuse     // missing, and `create_schema` is off
    | Keep       // present, and `truncate_target` is off
    | Create     // missing: created from the source's DDL
    | Truncate   // present: dropped and, without `create_schema`, not recreated
    | Recreate   // present: dropped and created again from the source's DDL

  /** The decision tree of `migrateTable` over the target table's presence and the task's two flags. */
  function PlanFor(present: bool, createSchema: bool, truncate: bool): (p: TablePlan)
    ensures p == Refuse <==> !present && !createSchema
    ensures p == Keep <==> present && !truncate
    ensures p == Create <==> !present && createSchema
    ensures p == Truncate <==> present && truncate && !createSchema
    ensures p == Recreate <==> present && truncate && createSchema
  {
    if !present then (if createSchema then Create else Refuse)
    else if truncate then (if createSchema then Recreate else Truncate)
    else Keep
  }

  /** `t` in `db` replaced by an empty table with the definition `def`. */
  function WithEmptyTable(s: Server, db: string, t: string, def: TableDef): (r: Server)
    requires db in s.dbs
    ensures HasTable(r, db, t) && r.dbs[db][t] == Table(def, [])
    ensures r.up == s.up && r.inserts == s.inserts && r.dbs.Keys == s.dbs.Keys
  {
    s.(dbs := s.dbs[db := s.dbs[db][t := Table(def, [])]])
  }

  /** The target server once the plan has been carried out, taking the definition from the source `src`. */
  function Prepared(s: Server, src: Server, db: string, t: string, plan: TablePlan): (r: Server)
    requires db in s.dbs && HasTable(src, db, t)
    ensures plan == Refuse || plan == Keep ==> r == s
    ensures plan == Truncate ==> r == ExecDrop(s, db, t) && !HasTable(r, db, t)
    ensures plan == Create || plan == Recreate ==> HasTable(r, db, t) && r.dbs[db][t] == Table(src.dbs[db][t].def, [])
  {
    match plan
    case Refuse => s
    case Keep => s
    case Create => WithEmptyTable(s, db, t, src.dbs[db][t].def)
    case Truncate => ExecDrop(s, db, t)
    case Recreate => WithEmptyTable(ExecDrop(s, db, t), db, t, src.dbs[db][t].def)
  }

  /** The plan as `migrateTable` decides it: a table the target cannot read counts as missing. */
  function TargetPlan(unavailable: Option<string>, s: Server, db: string, t: string, createSchema: bool, truncate: bool): TablePlan
  {
    PlanFor(unavailable.None? && HasTable(s, db, t), createSchema, truncate)
  }

  /** `after` is `before` with the plan carried out. */
  predicate PreparedBy(before: Server, after: Server, src: Server, db: string, t: string, plan: TablePlan)
  {
    db in before.dbs && HasTable(src, db, t) && after == Prepared(before, src, db, t, plan)
  }

  /**
   * The outcome of `migrateTable` once its refusals are passed and the source
   * table is there, on a target that was `before`: refused when the table
   * is missing and may not be created; otherwise the table is prepared by
   * its plan, and then, unless only the schema is synchronised, every source
   * row is counted as migrated or failed, and with no failure the prepared
   * table holds the source's rows after its own.
   */
  ghost predicate Migrated(before: Server, after: Server, source: Server, task: MigrationTask, db: string, t: string,
                           r: TableMigrationResult)
    requires db in before.dbs && HasTable(source, db, t)
  {
    var plan := PlanFor(HasTable(before, db, t), task.createSchema, task.truncateTarget);
    var prepared := Prepared(before, source, db, t, plan);
    (plan == Refuse ==>
      r == TableFailure(t, "Target table does not exist and create_schema is false") && after == before) &&
    (plan != Refuse && task.onlySyncSchema ==>
      r == TableMigrationResult(t, true, 0, 0, 0, "") && after == prepared) &&
    (plan != Refuse && !task.onlySyncSchema ==>
      r.totalRows == |source.dbs[db][t].rows| &&
      r.migratedRows + r.failedRows == r.totalRows &&
      (r.success <==> r.failedRows == 0) && r.errorMessage == "" &&
      (plan == Truncate ==> r.migratedRows == 0) &&
      (r.failedRows == 0 && r.totalRows > 0 ==>
        HasTable(prepared, db, t) && Distinct(TargetColumns(prepared, db, t)) &&
        after.dbs == AfterWrite(prepared, db, t, SourceView(source, db, t), TargetColumns(prepared, db, t), true, r.totalRows).dbs))
  }

  /** Neither name holds a backtick, so the rewritten DDL head names the intended table. */
  predicate PlainNames(db: string, t: string)
  {
    '`' !in db && '`' !in t
  }

  // ---------------------------------------------------------------- the whole run

  /** The entries the table loop goes into: those `parseTableName` accepts. */
  function Parsed(tables: seq<string>): (r: seq<bool>)
    ensures |r| == |tables|
    ensures forall j :: 0 <= j < |tables| ==> (r[j] <==> '.' in tables[j])
  {
    if |tables| == 0 then [] else Parsed(tables[..|tables| - 1]) + ['.' in tables[|tables| - 1]]
  }

  /** The rows `GetRowCount` counts for one entry on an available source: none for a malformed entry or a missing table. */
  function EntryRows(s: Server, entry: string): nat
  {
    match ParseTableName(entry)
    case Err(_) => 0
    case Ok((db, t)) => RowsOf(s, db, t)
  }

  /** `totalRows` of a run over `tables`. */
  function CountedRows(s: Server, tables: seq<string>): nat
  {
    if |tables| == 0 then 0
    else CountedRows(s, tables[..|tables| - 1]) + EntryRows(s, tables[|tables| - 1])
  }

  /** One more entry adds its rows to the count. */
  lemma CountedStep(s: Server, tables: seq<string>, i: nat)
    requires i < |tables|
    ensures CountedRows(s, tables[..i + 1]) == CountedRows(s, tables[..i]) + EntryRows(s, tables[i])
  {
    assert tables[..i + 1][..i] == tables[..i];
  }

  /** The set-up of a run succeeds: both configurations decode to MySQL, the source accepts the login, the target is up. */
  predicate Openable(task: MigrationTask, srcServer: Server, tgtServer: Server)
  {
    Decode(task.sourceConfig).Ok? && Decode(task.targetConfig).Ok? &&
    Decode(task.sourceConfig).value.sourceType == MySqlType &&
    Decode(task.targetConfig).value.sourceType == MySqlType &&
    Login(srcServer, Decode(task.sourceConfig).value.database).Ok? && tgtServer.up
  }

  /** The target server once the run is set up: its configured database created if it was missing. */
  function OpenedTarget(task: MigrationTask, tgtServer: Server): Server
    requires Decode(task.targetConfig).Ok?
  {
    var db := Decode(task.targetConfig).value.database;
    if db == "" then tgtServer else CreateDatabase(tgtServer, db)
  }

  /** The point of `migrateTable` past its refusals: target reachable, configuration readable and naming a database. */
  predicate Reached(tgtUnavailable: Option<string>, task: MigrationTask, db: string)
  {
    db != "" && tgtUnavailable.None? && Decode(task.targetConfig).Ok? && Decode(task.targetConfig).value.database != ""
  }

  /** `task.Database[0]`, or `""` for an empty list: the database whose tables an empty table list means. */
  function MainDatabase(task: MigrationTask): string
  {
    if task.database.Some? && |task.database.value| > 0 then task.database.value[0] else ""
  }

  /** The entries of a decoded table list; JSON `null` decodes to no entries. */
  function ListedEntries(tables: Option<seq<string>>): seq<string>
  {
    if tables.Some? then tables.value else []
  }

  /** A run goes through its tables: it can be set up and its table list is readable or can be listed. */
  predicate Completes(task: MigrationTask, srcServer: Server, tgtServer: Server)
  {
    Openable(task, srcServer, tgtServer) &&
    (task.tables.Encoded? || (task.tables == Malformed("") && MainDatabase(task) in srcServer.dbs))
  }

  /** `after` differs from `before` at most in the fields a run writes while going through the tables. */
  predicate RunFieldsOnly(before: MigrationTask, after: MigrationTask)
  {
    after == before.(status := after.status, endTime := after.endTime, progress := after.progress,
      totalRows := after.totalRows, migratedRows := after.migratedRows)
  }

  /** Two runs of changes to the run fields are one. */
  lemma RunFieldsOnlyTrans(a: MigrationTask, b: MigrationTask, c: MigrationTask)
    requires RunFieldsOnly(a, b) && RunFieldsOnly(b, c)
    ensures RunFieldsOnly(a, c)
  {
  }

  /** Finishing a run overwrites every run field, so it ends in the same task whatever the run wrote before. */
  lemma FinishOverwrites(a: MigrationTask, b: MigrationTask, total: int, migrated: int, now: Time)
    requires RunFieldsOnly(a, b)
    ensures b.(status := Completed, errorMessage := "", endTime := Some(now), progress := 100.0,
        totalRows := total, migratedRows := migrated) ==
      a.(status := Completed, errorMessage := "", endTime := Some(now), progress := 100.0,
        totalRows := total, migratedRows := migrated)
  {
  }

  /** Changing only the entry `id` twice changes only the entry `id`. */
  lemma OnlyEntryTrans(a: map<string, MigrationTask>, b: map<string, MigrationTask>, c: map<string, MigrationTask>, id: string)
    requires id in b && b == a[id := b[id]] && id in c && c == b[id := c[id]]
    ensures c == a[id := c[id]]
  {
  }

  class MigrationService {
    /** `Tasks`, keyed by task ID. */
    var tasks: map<string, MigrationTask>
    /** The progress values written to each task, in order. */
    ghost var progressLog: map<string, seq<real>>

    constructor()
      ensures tasks == map[] && progressLog == map[]
    {
      tasks := map[];
      progressLog := map[];
    }

    /** The progress values written to the task `id` so far. */
    ghost function LogOf(id: string): seq<real>
      reads this
    {
      if id in progressLog then progressLog[id] else []
    }

    /** The first loop of `CreateMigrationTask`: the trimmed, non-empty parts of the `database` field. */
    static method NamedDatabaseSet(parts: seq<string>) returns (dbSet: set<string>)
      ensures dbSet == NamedDatabases(parts)
    {
      dbSet := {};
      var i := 0;
      while i < |parts|
        invariant 0 <= i <= |parts|
        invariant dbSet == NamedDatabases(parts[..i])
      {
        var name := Trim(parts[i]);
        if name != "" {
          dbSet := dbSet + {name};
        }
        assert parts[..i + 1][..i] == parts[..i];
        i := i + 1;
      }
      assert parts[..i] == parts;
    }

    /** The second loop of `CreateMigrationTask`: adds the database of every `db.table` entry. */
    static method AddEntryDatabases(start: set<string>, entries: seq<string>) returns (dbSet: set<string>)
      ensures dbSet == start + EntryDatabases(entries)
    {
      dbSet := start;
      var j := 0;
      while j < |entries|
        invariant 0 <= j <= |entries|
        invariant dbSet == start + EntryDatabases(entries[..j])
      {
        var ps := SplitFirst(entries[j], '.');
        if |ps| == 2 {
          dbSet := dbSet + {ps[0]};
        }
        assert entries[..j + 1][..j] == entries[..j];
        j := j + 1;
      }
      assert entries[..j] == entries;
    }

    /** The database list of a new task: both loops, then the set in map order. */
    static method DatabaseList(req: CreateRequest) returns (dbs: seq<string>)
      ensures Distinct(dbs)
      ensures forall d :: d in dbs <==> d in RequestDatabases(req)
    {
      var named := NamedDatabaseSet(Split(req.database, ','));
      var dbSet := AddEntryDatabases(named, Entries(req.tables));
      dbs := Enumerate(dbSet);
    }

    /**
     * `CreateMigrationTask`: a pending task with progress 0 holding the
     * request's settings, its configurations and table list as JSON, and its
     * database list; it joins the store only once the database row is written.
     */
    method CreateMigrationTask(req: CreateRequest, id: string, dbErr: Option<string>) returns (r: Result<MigrationTask, Error>)
      modifies this
      ensures progressLog == old(progressLog)
      ensures dbErr.Some? ==> r == Err(Failure("failed to create migration task: " + dbErr.value)) && tasks == old(tasks)
      ensures dbErr.None? ==> r.Ok? && tasks == old(tasks)[id := r.value]
      ensures r.Ok? ==> CreatedFrom(r.value, req, id)
    {
      var dbList := DatabaseList(req);
      var task := MigrationTask(id, Encoded(req.sourceConfig), Encoded(req.targetConfig), Some(dbList),
        Encoded(req.tables), Pending, 0.0, 0, 0, 0, None, None, "", req.batchSize,
        req.createSchema, req.truncateTarget, req.onlySyncSchema);
      if dbErr.Some? {
        return Err(Failure("failed to create migration task: " + dbErr.value));
      }
      tasks := tasks[id := task];
      r := Ok(task);
    }

    /**
     * `StartMigration`: an unknown task, a running one and a completed one are
     * refused; any other becomes running with its start time set. The task is
     * changed in memory even when writing it to the database then fails.
     * Launching the run itself is `ExecuteMigration`.
     */
    method StartMigration(id: string, now: Time, dbErr: Option<string>) returns (err: Option<Error>)
      modifies this
      ensures progressLog == old(progressLog)
      ensures id !in old(tasks) ==> err == Some(MigrationTaskNotFound) && tasks == old(tasks)
      ensures id in old(tasks) && StartRefusal(old(tasks)[id].status).Some? ==>
        err == StartRefusal(old(tasks)[id].status) && tasks == old(tasks)
      ensures id in old(tasks) && StartRefusal(old(tasks)[id].status).None? ==>
        tasks == old(tasks)[id := old(tasks)[id].(status := Running, startTime := Some(now))] &&
        (dbErr.None? ==> err.None?) &&
        (dbErr.Some? ==> err == Some(Failure("failed to update task status: " + dbErr.value)))
    {
      if id !in tasks {
        return Some(MigrationTaskNotFound);
      }
      var task := tasks[id];
      var refusal := StartRefusal(task.status);
      if refusal.Some? {
        return refusal;
      }
      tasks := tasks[id := task.(status := Running, startTime := Some(now))];
      if dbErr.Some? {
        return Some(Failure("failed to update task status: " + dbErr.value));
      }
      err := None;
    }

    /** `CancelTask`: only a pending or running task becomes cancelled, with its end time set. */
    method CancelTask(id: string, now: Time, dbErr: Option<string>) returns (err: Option<Error>)
      modifies this
      ensures progressLog == old(progressLog)
      ensures id !in old(tasks) ==> err == Some(MigrationTaskNotFound) && tasks == old(tasks)
      ensures id in old(tasks) && CancelRefusal(old(tasks)[id].status).Some? ==>
        err == CancelRefusal(old(tasks)[id].status) && tasks == old(tasks)
      ensures id in old(tasks) && CancelRefusal(old(tasks)[id].status).None? ==>
        tasks == old(tasks)[id := old(tasks)[id].(status := Cancelled, endTime := Some(now))] &&
        (dbErr.None? ==> err.None?) &&
        (dbErr.Some? ==> err == Some(Failure("failed to update task status: " + dbErr.value)))
    {
      if id !in tasks {
        return Some(MigrationTaskNotFound);
      }
      var task := tasks[id];
      var refusal := CancelRefusal(task.status);
      if refusal.Some? {
        return refusal;
      }
      tasks := tasks[id := task.(status := Cancelled, endTime := Some(now))];
      if dbErr.Some? {
        return Some(Failure("failed to update task status: " + dbErr.value));
      }
      err := None;
    }

    /** `updateTaskStatus` on the store; an unknown task is left alone. */
    method UpdateTaskStatus(id: string, status: MigrationStatus, message: string, now: Time)
      modifies this
      ensures progressLog == old(progressLog)
      ensures id in old(tasks) ==> tasks == old(tasks)[id := WithStatus(old(tasks)[id], status, message, now)]
      ensures id !in old(tasks) ==> tasks == old(tasks)
    {
      if id in tasks {
        tasks := tasks[id := WithStatus(tasks[id], status, message, now)];
      }
    }

    /** `updateTaskProgress` on the store; the current table it is given is not recorded. */
    method UpdateTaskProgress(id: string, progress: real, total: int, migrated: int)
      modifies this
      ensures id in old(tasks) ==> tasks == old(tasks)[id := WithProgress(old(tasks)[id], progress, total, migrated)]
      ensures id in old(tasks) ==> progressLog == old(progressLog)[id := old(LogOf(id)) + [progress]]
      ensures id in old(tasks) ==> LogOf(id) == old(LogOf(id)) + [progress]
      ensures id !in old(tasks) ==> tasks == old(tasks) && progressLog == old(progressLog)
    {
      if id in tasks {
        tasks := tasks[id := WithProgress(tasks[id], progress, total, migrated)];
        progressLog := progressLog[id := LogOf(id) + [progress]];
      }
    }

    /** `GetTaskProgress`: from memory, else from the database row. */
    method GetTaskProgress(id: string, stored: Lookup) returns (r: Result<MigrationProgress, Error>)
      ensures id in tasks ==> r == Ok(ProgressOf(tasks[id]))
      ensures id !in tasks && stored.Found? ==> r == Ok(ProgressOf(stored.task))
      ensures id !in tasks && stored.NotFound? ==> r == Err(MigrationTaskNotFound)
      ensures id !in tasks && stored.LookupFailed? ==>
        r == Err(Failure("failed to get task from database: " + stored.message))
    {
      if id in tasks {
        return Ok(ProgressOf(tasks[id]));
      }
      match stored
      case Found(t) => r := Ok(ProgressOf(t));
      case NotFound => r := Err(MigrationTaskNotFound);
      case LookupFailed(m) => r := Err(Failure("failed to get task from database: " + m));
    }

    /** `ListTasks`: the task rows as the database returns them (newest first), or its error wrapped. */
    static method ListTasks(stored: Result<seq<MigrationTask>, string>) returns (r: Result<seq<MigrationTask>, Error>)
      ensures r.Ok? <==> stored.Ok?
      ensures r.Ok? ==> r.value == stored.value
      ensures r.Err? ==> r.error == Failure("failed to list tasks: " + stored.error)
    {
      if stored.Err? {
        return Err(Failure("failed to list tasks: " + stored.error));
      }
      r := Ok(stored.value);
    }

    /**
     * The target-table part of `migrateTable`: whether the table exists is
     * whether `GetTableSchema` succeeds on the target; then the plan is
     * carried out.
     */
    static method PrepareTarget(src: MySqlSource, tgt: MySqlSource, createSchema: bool, truncate: bool, db: string, table: string)
      returns (err: Option<string>)
      requires src != tgt && src.conn != NoConn && tgt.conn != NoConn
      modifies tgt
      ensures tgt.conn == old(tgt.conn) && tgt.config == old(tgt.config)
      ensures TargetPlan(old(tgt.Unavailable()), old(tgt.server), db, table, createSchema, truncate) == Refuse ==>
        err == Some("Target table does not exist and create_schema is false") && tgt.server == old(tgt.server)
      ensures TargetPlan(old(tgt.Unavailable()), old(tgt.server), db, table, createSchema, truncate) == Keep ==>
        err.None? && tgt.server == old(tgt.server)
      ensures TargetPlan(old(tgt.Unavailable()), old(tgt.server), db, table, createSchema, truncate) == Create && err.Some? ==>
        StartsWith(err.value, "Failed to create target table by DDL: ") && tgt.server == old(tgt.server)
      ensures TargetPlan(old(tgt.Unavailable()), old(tgt.server), db, table, createSchema, truncate) == Truncate ==>
        err.None? && tgt.server == ExecDrop(old(tgt.server), db, table)
      ensures TargetPlan(old(tgt.Unavailable()), old(tgt.server), db, table, createSchema, truncate) == Recreate && err.Some? ==>
        StartsWith(err.value, "Failed to recreate target table by DDL: ") &&
        tgt.server == ExecDrop(old(tgt.server), db, table)
      ensures PlainNames(db, table) && src.Unavailable().None? && HasTable(src.server, db, table) &&
              old(tgt.Unavailable()).None? && db != "" && db in old(tgt.server).dbs ==>
        var plan := PlanFor(HasTable(old(tgt.server), db, table), createSchema, truncate);
        (err.None? <==> plan != Refuse) &&
        (err.None? ==> PreparedBy(old(tgt.server), tgt.server, src.server, db, table, plan))
    {
      var probe := tgt.GetTableSchema(db, table);
      if probe.Err? {
        err := CreateMissing(src, tgt, createSchema, db, table);
      } else {
        err := ResetPresent(src, tgt, createSchema, truncate, db, table);
      }
    }

    /** The branch of `PrepareTarget` for a target table that is not there (or cannot be read). */
    static method CreateMissing(src: MySqlSource, tgt: MySqlSource, createSchema: bool, db: string, table: string)
      returns (err: Option<string>)
      requires src != tgt && src.conn != NoConn && tgt.conn != NoConn
      modifies tgt
      ensures tgt.conn == old(tgt.conn) && tgt.config == old(tgt.config)
      ensures !createSchema ==>
        err == Some("Target table does not exist and create_schema is false") && tgt.server == old(tgt.server)
      ensures err.Some? ==> tgt.server == old(tgt.server)
      ensures createSchema && err.Some? ==> StartsWith(err.value, "Failed to create target table by DDL: ")
      ensures PlainNames(db, table) && src.Unavailable().None? && HasTable(src.server, db, table) &&
              old(tgt.Unavailable()).None? && db != "" && db in old(tgt.server).dbs && !HasTable(old(tgt.server), db, table) ==>
        (err.None? <==> createSchema) &&
        (err.None? ==> PreparedBy(old(tgt.server), tgt.server, src.server, db, table, Create))
    {
      if !createSchema {
        return Some("Target table does not exist and create_schema is false");
      }
      var e := tgt.CreateTableFromSource(src, db, table, db);
      if e.Some? {
        return Some("Failed to create target table by DDL: " + Message(e.value));
      }
      err := None;
    }

    /** The branch of `PrepareTarget` for a target table that is there: truncated, and recreated with `create_schema`. */
    static method ResetPresent(src: MySqlSource, tgt: MySqlSource, createSchema: bool, truncate: bool, db: string, table: string)
      returns (err: Option<string>)
      requires src != tgt && src.conn != NoConn && tgt.conn != NoConn
      requires tgt.Unavailable().None? && HasTable(tgt.server, db, table)
      modifies tgt
      ensures tgt.conn == old(tgt.conn) && tgt.config == old(tgt.config)
      ensures !truncate ==> err.None? && tgt.server == old(tgt.server)
      ensures truncate ==> tgt.server == ExecDrop(old(tgt.server), db, table) || (err.None? && createSchema)
      ensures truncate && !createSchema ==> err.None?
      ensures truncate && createSchema && err.Some? ==>
        StartsWith(err.value, "Failed to recreate target table by DDL: ")
      ensures PlainNames(db, table) && src.Unavailable().None? && HasTable(src.server, db, table) && db != "" ==>
        err.None? && PreparedBy(old(tgt.server), tgt.server, src.server, db, table, PlanFor(true, createSchema, truncate))
    {
      if truncate {
        var e := tgt.DropTable(db, table);
        match e {
          case Some(m) => return Some("Failed to truncate target table: " + Message(m));
          case None =>
        }
        if createSchema {
          var c := tgt.CreateTableFromSource(src, db, table, db);
          if c.Some? {
            return Some("Failed to recreate target table by DDL: " + Message(c.value));
          }
        }
      }
      err := None;
    }

    /** `ReadRows` of the window at `offset` from a source table that exists: the next rows of its view. */
    static method ReadWindow(src: MySqlSource, db: string, table: string, offset: nat, batchSize: int)
      returns (r: Result<seq<Record>, Error>)
      requires src.conn != NoConn && batchSize > 0 && src.Unavailable().None? && HasTable(src.server, db, table)
      requires offset <= |src.server.dbs[db][table].rows|
      ensures r.Ok? && offset + |r.value| <= |src.server.dbs[db][table].rows|
      ensures offset < |src.server.dbs[db][table].rows| ==> |r.value| > 0
      ensures r.value == SourceView(src.server, db, table)[offset..offset + |r.value|]
    {
      r := src.ReadRows(db, table, offset, batchSize);
      if r.Ok? {
        ghost var view := SourceView(src.server, db, table);
        assert r.value == view[offset..offset + |r.value|];
      }
    }

    /**
     * `WriteRows` of one window read at `offset`: the window is counted
     * wholly as migrated or wholly as failed, and the target keeps the
     * shape `Copied` describes.
     */
    static method WriteWindow(tgt: MySqlSource, db: string, table: string, rows: seq<Record>, batchSize: int,
                              ghost t0: Server, ghost view: seq<Record>, ghost cols: seq<string>,
                              migrated: int, failed: int, offset: nat)
      returns (migrated': int, failed': int)
      requires tgt.conn != NoConn && batchSize > 0 && |rows| > 0
      requires offset + |rows| <= |view| && rows == view[offset..offset + |rows|]
      requires cols == if HasTable(t0, db, table) then TargetColumns(t0, db, table) else []
      requires migrated >= 0 && failed >= 0 && Copied(t0, tgt.server, db, table, view, cols, migrated, failed, offset)
      modifies tgt
      ensures tgt.conn != NoConn && tgt.config == old(tgt.config)
      ensures migrated' >= 0 && failed' >= 0 && migrated' + failed' == migrated + failed + |rows|
      ensures Copied(t0, tgt.server, db, table, view, cols, migrated', failed', offset + |rows|)
    {
      ghost var before := tgt.server;
      var werr, committed := tgt.WriteRows(db, table, rows, batchSize);
      if werr.Some? {
        return migrated, failed + |rows|;
      }
      migrated', failed' := migrated + |rows|, failed;
      if failed == 0 {
        assert rows[..|rows|] == rows;
        assert HasTable(t0, db, table) && ColumnNames(before.dbs[db][table].def.columns) == cols;
        AppendStored(t0, before, db, table, view, cols, true, offset, offset + |rows|);
      }
    }

    /**
     * The batched copy of `migrateTable`: the source's row count, then
     * windows of `batchSize` rows read from the source and written to the
     * target, each window counted wholly as migrated or wholly as failed.
     * With no failed row the target table holds its old rows followed by
     * every source row, as `WriteRows` stores it; a missing target table
     * makes every row fail.
     */
    static method CopyRows(src: MySqlSource, tgt: MySqlSource, db: string, table: string, batchSize: int)
      returns (r: TableMigrationResult)
      requires src != tgt && src.conn != NoConn && tgt.conn != NoConn && batchSize > 0
      modifies tgt
      ensures tgt.config == old(tgt.config) && tgt.conn != NoConn
      ensures r.tableName == table && r.migratedRows >= 0 && r.failedRows >= 0
      ensures !(src.Unavailable().None? && HasTable(src.server, db, table)) ==>
        !r.success && r.totalRows == 0 && r.migratedRows == 0 && r.failedRows == 0 &&
        StartsWith(r.errorMessage, "Failed to get row count: ") && tgt.server == old(tgt.server)
      ensures src.Unavailable().None? && HasTable(src.server, db, table) ==>
        r.totalRows == |src.server.dbs[db][table].rows| &&
        r.migratedRows + r.failedRows == r.totalRows &&
        (r.success <==> r.failedRows == 0) && r.errorMessage == ""
      ensures r.totalRows == 0 ==> tgt.server.dbs == old(tgt.server.dbs)
      ensures !HasTable(old(tgt.server), db, table) ==> r.migratedRows == 0 && tgt.server.dbs == old(tgt.server.dbs)
      ensures r.failedRows == 0 && r.totalRows > 0 ==>
        HasTable(src.server, db, table) && HasTable(old(tgt.server), db, table) &&
        Distinct(TargetColumns(old(tgt.server), db, table)) &&
        tgt.server.dbs == AfterWrite(old(tgt.server), db, table, SourceView(src.server, db, table),
          TargetColumns(old(tgt.server), db, table), true, |src.server.dbs[db][table].rows|).dbs
    {
      var count, cerr := src.GetRowCount(db, table);
      if cerr.Some? {
        return TableMigrationResult(table, false, 0, 0, 0, "Failed to get row count: " + Message(cerr.value));
      }
      ghost var t0 := tgt.server;
      ghost var view := SourceView(src.server, db, table);
      ghost var cols := if HasTable(t0, db, table) then TargetColumns(t0, db, table) else [];
      var offset, migrated, failed := 0, 0, 0;
      while offset < count
        invariant 0 <= offset <= count == |view|
        invariant migrated + failed == offset && migrated >= 0 && failed >= 0
        invariant tgt.conn != NoConn && tgt.config == old(tgt.config)
        invariant Copied(t0, tgt.server, db, table, view, cols, migrated, failed, offset)
        decreases count - offset
      {
        var read := ReadWindow(src, db, table, offset, batchSize);
        match read {
          case Err(e) =>
            return TableMigrationResult(table, false, count, migrated, failed, "Failed to read rows: " + Message(e));
          case Ok(rows) =>
            if |rows| == 0 {
              break;
            }
            migrated, failed := WriteWindow(tgt, db, table, rows, batchSize, t0, view, cols, migrated, failed, offset);
            offset := offset + |rows|;
        }
      }
      r := TableMigrationResult(table, failed == 0, count, migrated, failed, "");
    }

    /** The head of the refusal when the target database cannot be created. */
    static const EnsureFailed := "Failed to ensure target database exists: "

    /**
     * The refusals at the top of `migrateTable`: the target database is
     * created if missing, then the task's target configuration must decode,
     * the database name must be set and the configuration must name a
     * database. These refusals carry no table name.
     */
    static method CheckTarget(tgt: MySqlSource, task: MigrationTask, db: string) returns (refusal: Option<TableMigrationResult>)
      requires tgt.conn != NoConn
      modifies tgt
      ensures tgt.config == old(tgt.config) && tgt.conn == old(tgt.conn)
      ensures refusal.None? <==> Reached(old(tgt.Unavailable()), task, db)
      ensures refusal.Some? ==> !refusal.value.success && refusal.value.tableName == ""
      ensures db == "" ==>
        refusal == Some(TableFailure("", EnsureFailed + "database name is empty")) &&
        tgt.server == old(tgt.server)
      ensures db != "" && old(tgt.Unavailable()).Some? ==>
        refusal == Some(TableFailure("", EnsureFailed + old(tgt.Unavailable()).value)) &&
        tgt.server == old(tgt.server)
      ensures db != "" && old(tgt.Unavailable()).None? ==>
        tgt.server == CreateDatabase(old(tgt.server), db) &&
        (Decode(task.targetConfig).Err? ==>
          refusal == Some(TableFailure("", "Failed to parse target config: " + Message(Decode(task.targetConfig).error)))) &&
        (Decode(task.targetConfig).Ok? && Decode(task.targetConfig).value.database == "" ==>
          refusal == Some(TableFailure("", "")))
    {
      var dbErr := tgt.CreateDatabaseIfNotExists(db);
      if dbErr.Some? {
        return Some(TableFailure("", EnsureFailed + Message(dbErr.value)));
      }
      var cfg := Decode(task.targetConfig);
      if cfg.Err? {
        return Some(TableFailure("", "Failed to parse target config: " + Message(cfg.error)));
      }
      if db == "" {
        return Some(TableFailure("", "Source database is not set"));
      }
      if cfg.value.database == "" {
        return Some(TableFailure("", ""));
      }
      refusal := None;
    }

    /**
     * `migrateTable` past its refusals: the source schema, the preparation of
     * the target table, and the copy of the rows unless only the schema is
     * synchronised.
     */
    static method MigrateReached(src: MySqlSource, tgt: MySqlSource, task: MigrationTask, db: string, table: string)
      returns (r: TableMigrationResult)
      requires src != tgt && src.conn != NoConn && tgt.conn != NoConn
      modifies tgt
      ensures tgt.config == old(tgt.config) && tgt.conn != NoConn
      ensures r.tableName == table
      ensures r.migratedRows >= 0 && r.failedRows >= 0 && r.migratedRows + r.failedRows <= RowsOf(src.server, db, table)
      ensures !(src.Unavailable().None? && HasTable(src.server, db, table)) ==>
        !r.success && StartsWith(r.errorMessage, "Failed to get source table schema: ")
      ensures old(tgt.Unavailable()).None? && db != "" && db in old(tgt.server).dbs &&
              src.Unavailable().None? && HasTable(src.server, db, table) && PlainNames(db, table) ==>
        Migrated(old(tgt.server), tgt.server, src.server, task, db, table, r)
    {
      var schema := src.GetTableSchema(db, table);
      if schema.Err? {
        return TableFailure(table, "Failed to get source table schema: " + Message(schema.error));
      }
      r := PrepareAndCopy(src, tgt, task, db, table);
    }

    /**
     * `migrateTable` once the source schema is read: the preparation of the
     * target table, then the copy of the rows, in windows of the task's batch
     * size (1000 when it is not positive), unless only the schema is
     * synchronised.
     */
    static method PrepareAndCopy(src: MySqlSource, tgt: MySqlSource, task: MigrationTask, db: string, table: string)
      returns (r: TableMigrationResult)
      requires src != tgt && src.conn != NoConn && tgt.conn != NoConn
      requires src.Unavailable().None? && HasTable(src.server, db, table)
      modifies tgt
      ensures tgt.config == old(tgt.config) && tgt.conn != NoConn
      ensures r.tableName == table
      ensures r.migratedRows >= 0 && r.failedRows >= 0 && r.migratedRows + r.failedRows <= |src.server.dbs[db][table].rows|
      ensures old(tgt.Unavailable()).None? && db != "" && db in old(tgt.server).dbs && PlainNames(db, table) ==>
        Migrated(old(tgt.server), tgt.server, src.server, task, db, table, r)
    {
      var prepErr := PrepareTarget(src, tgt, task.createSchema, task.truncateTarget, db, table);
      if prepErr.Some? {
        return TableFailure(table, prepErr.value);
      }
      if task.onlySyncSchema {
        return TableMigrationResult(table, true, 0, 0, 0, "");
      }
      var batchSize := if task.batchSize <= 0 then 1000 else task.batchSize;
      r := CopyRows(src, tgt, db, table, batchSize);
    }

    /**
     * `migrateTable`: the refusals of `CheckTarget`, then `MigrateReached`.
     * The target database named by the entry is created first, so whether
     * the table exists is judged on the server as it was.
     */
    static method MigrateTable(src: MySqlSource, tgt: MySqlSource, task: MigrationTask, db: string, table: string)
      returns (r: TableMigrationResult)
      requires src != tgt && src.conn != NoConn && tgt.conn != NoConn
      modifies tgt
      ensures tgt.config == old(tgt.config) && tgt.conn != NoConn
      ensures r.migratedRows >= 0 && r.failedRows >= 0 && r.migratedRows + r.failedRows <= RowsOf(src.server, db, table)
      ensures !Reached(old(tgt.Unavailable()), task, db) ==> !r.success && r.tableName == ""
      ensures db == "" || old(tgt.Unavailable()).Some? ==> tgt.server == old(tgt.server)
      ensures Reached(old(tgt.Unavailable()), task, db) ==>
        r.tableName == table &&
        (!(src.Unavailable().None? && HasTable(src.server, db, table)) ==>
          !r.success && StartsWith(r.errorMessage, "Failed to get source table schema: "))
      ensures Reached(old(tgt.Unavailable()), task, db) && src.Unavailable().None? && HasTable(src.server, db, table) &&
              PlainNames(db, table) ==>
        HasTable(CreateDatabase(old(tgt.server), db), db, table) == HasTable(old(tgt.server), db, table) &&
        Migrated(CreateDatabase(old(tgt.server), db), tgt.server, src.server, task, db, table, r)
    {
      var refusal := CheckTarget(tgt, task, db);
      if refusal.Some? {
        return refusal.value;
      }
      assert HasTable(tgt.server, db, table) == HasTable(old(tgt.server), db, table);
      r := MigrateReached(src, tgt, task, db, table);
    }

    /** `migrateTable` as the table loop sees it: the rows it migrated and failed, at most the table's rows. */
    static method MigrateEntry(src: MySqlSource, tgt: MySqlSource, task: MigrationTask, entry: string)
      returns (m: int, f: int)
      requires src != tgt && src.conn != NoConn && tgt.conn != NoConn
      modifies tgt
      ensures 0 <= m && 0 <= f && m + f <= EntryRows(src.server, entry)
      ensures tgt.conn != NoConn
    {
      m, f := 0, 0;
      match ParseTableName(entry) {
        case Err(_) =>
        case Ok((db, table)) =>
          var r := MigrateTable(src, tgt, task, db, table);
          m, f := r.migratedRows, r.failedRows;
      }
    }

    /**
     * The set-up of `executeMigration`: decode both configurations, create
     * both data sources, connect them (on an unknown target database, create
     * it and connect again) and test both connections. A failure is the
     * message the task is failed with.
     */
    static method OpenSources(task: MigrationTask, srcServer: Server, tgtServer: Server)
      returns (src: MySqlSource?, tgt: MySqlSource?, failure: Option<string>)
      ensures failure.None? <==> Openable(task, srcServer, tgtServer)
      ensures failure.None? ==>
        src != null && tgt != null && src != tgt && fresh(src) && fresh(tgt) &&
        src.conn == Open && tgt.conn == Open && src.Unavailable().None? && tgt.Unavailable().None? &&
        src.server == srcServer && tgt.server == OpenedTarget(task, tgtServer)
      ensures Decode(task.sourceConfig).Err? ==>
        failure == Some("Failed to parse source config: " + Message(Decode(task.sourceConfig).error))
      ensures Decode(task.sourceConfig).Ok? && Decode(task.targetConfig).Err? ==>
        failure == Some("Failed to parse target config: " + Message(Decode(task.targetConfig).error))
      ensures Decode(task.sourceConfig).Ok? && Decode(task.targetConfig).Ok? ==>
        var srcCfg := Decode(task.sourceConfig).value;
        (srcCfg.sourceType != MySqlType ==>
          failure == Some("Failed to create source data source: " + Message(UnsupportedDataSource))) &&
        (srcCfg.sourceType == MySqlType && Decode(task.targetConfig).value.sourceType != MySqlType ==>
          failure == Some("Failed to create target data source: " + Message(UnsupportedDataSource))) &&
        (srcCfg.sourceType == MySqlType && Decode(task.targetConfig).value.sourceType == MySqlType &&
         Login(srcServer, srcCfg.database).Err? ==>
          failure == Some("Failed to connect source: " + Message(Failure("failed to connect to MySQL: " + Login(srcServer, srcCfg.database).error))))
    {
      var srcCfgR := Decode(task.sourceConfig);
      if srcCfgR.Err? {
        return null, null, Some("Failed to parse source config: " + Message(srcCfgR.error));
      }
      var tgtCfgR := Decode(task.targetConfig);
      if tgtCfgR.Err? {
        return null, null, Some("Failed to parse target config: " + Message(tgtCfgR.error));
      }
      var srcCfg, tgtCfg := srcCfgR.value, tgtCfgR.value;
      var e;
      src, e := NewDataSource(srcCfg.sourceType, srcServer);
      if e.Some? {
        return null, null, Some("Failed to create source data source: " + Message(e.value));
      }
      tgt, e := NewDataSource(tgtCfg.sourceType, tgtServer);
      if e.Some? {
        return null, null, Some("Failed to create target data source: " + Message(e.value));
      }
      var se := src.Connect(srcCfg);
      if se.Some? {
        return null, null, Some("Failed to connect source: " + Message(se.value));
      }
      var te := ConnectTarget(tgt, tgtCfg, srcCfg.database);
      if te.Some? {
        return null, null, te;
      }
      var st := src.TestConnection();
      match st {
        case Some(c) => return null, null, Some("Source connection test failed: " + Message(c));
        case None =>
      }
      var tt := tgt.TestConnection();
      match tt {
        case Some(c) => return null, null, Some("Target connection test failed: " + Message(c));
        case None =>
      }
      failure := None;
    }

    /** A login refused by a running server names the missing database. */
    static lemma LoginRefusal(server: Server, db: string)
      requires server.up && Login(server, db).Err?
      ensures Login(server, db).error == UnknownDatabase(db)
    {
    }

    static method ConnectTarget(tgt: MySqlSource, cfg: DataSourceConfig, srcDb: string) returns (failure: Option<string>)
      requires tgt.conn == NoConn
      modifies tgt
      ensures failure.None? <==> old(tgt.server).up
      ensures failure.None? ==>
        tgt.conn == Open && tgt.server == (if cfg.database == "" then old(tgt.server) else CreateDatabase(old(tgt.server), cfg.database))
    {
      var te := tgt.Connect(cfg);
      match te {
        case None =>
        case Some(terr) =>
          var msg := Message(terr);
          if tgt.server.up {
            LoginRefusal(tgt.server, cfg.database);
            UnknownDatabaseNamed("failed to connect to MySQL: ", cfg.database);
            assert msg == "failed to connect to MySQL: " + UnknownDatabase(cfg.database);
          }
          if !Contains(msg, UnknownDatabaseWords) {
            return Some("Failed to connect target: " + msg);
          }
          var cfg' := if cfg.database == "" then cfg.(database := srcDb) else cfg;
          var ce := tgt.CreateDatabaseIfNotExists(cfg'.database);
          match ce {
            case Some(c) => return Some("Failed to create target database: " + Message(c));
            case None =>
          }
          var re := tgt.Connect(cfg');
          match re {
            case Some(c) => return Some("Failed to connect target after create db: " + Message(c));
            case None =>
          }
      }
      failure := None;
    }

    /**
     * The table list of `executeMigration`: the task's list when its text is
     * not empty, else the names `ListTables` gives for the first database.
     */
    static method ResolveTables(src: MySqlSource, task: MigrationTask) returns (tables: seq<string>, failure: Option<string>)
      requires src.conn != NoConn
      ensures failure.Some? ==> tables == []
      ensures task.tables.Encoded? ==> failure.None? && tables == ListedEntries(task.tables.value)
      ensures task.tables.Malformed? && task.tables.raw != "" ==>
        failure == Some("Failed to parse tables: " + Message(Decode(task.tables).error))
      ensures task.tables == Malformed("") ==>
        (failure.None? <==> src.Unavailable().None? && MainDatabase(task) in src.server.dbs) &&
        (failure.None? ==> Distinct(tables) && forall t :: t in tables <==> t in src.server.dbs[MainDatabase(task)]) &&
        (failure.Some? ==> StartsWith(failure.value, "Failed to list tables: "))
    {
      match task.tables {
        case Encoded(v) =>
          return ListedEntries(v), None;
        case Malformed(raw) =>
          if raw != "" {
            return [], Some("Failed to parse tables: " + Message(Decode(task.tables).error));
          }
      }
      var listed := src.ListTables(MainDatabase(task));
      match listed {
        case Err(e) =>
          return [], Some("Failed to list tables: " + Message(e));
        case Ok(names) =>
          tables, failure := names, None;
      }
    }

    /** The counting loop of `executeMigration`: the rows of every entry that parses and whose table exists. */
    static method TotalRows(src: MySqlSource, tables: seq<string>) returns (total: int)
      requires src.conn != NoConn && src.Unavailable().None?
      ensures total == CountedRows(src.server, tables)
    {
      total := 0;
      var i := 0;
      while i < |tables|
        invariant 0 <= i <= |tables|
        invariant total == CountedRows(src.server, tables[..i])
      {
        assert tables[..i + 1][..i] == tables[..i];
        match ParseTableName(tables[i]) {
          case Err(_) =>
          case Ok((db, t)) =>
            var count, err := src.GetRowCount(db, t);
            if err.None? {
              total := total + count;
            }
        }
        i := i + 1;
      }
      assert tables[..|tables|] == tables;
    }

    /**
     * One step of the table loop of `executeMigration`: a possible
     * cancellation, then, for an entry that parses, the progress `i/n*100`
     * and the migration of the table; the rows it migrated and failed.
     */
    method VisitEntry(id: string, tables: seq<string>, i: nat, total: int, migrated: int, cancel: bool, now: Time,
                      ghost tasks0: map<string, MigrationTask>, ghost log0: seq<real>)
      requires i < |tables|
      requires id in tasks && id in tasks0 && tasks == tasks0[id := tasks[id]] && RunFieldsOnly(tasks0[id], tasks[id])
      requires LogOf(id) == log0 + Marks(Parsed(tables), i)
      modifies this
      ensures id in tasks && tasks == tasks0[id := tasks[id]] && RunFieldsOnly(tasks0[id], tasks[id])
      ensures LogOf(id) == log0 + Marks(Parsed(tables), i + 1)
    {
      ghost var tasks1 := tasks;
      Cancel(id, cancel, now);
      RunFieldsOnlyTrans(tasks0[id], tasks1[id], tasks[id]);
      OnlyEntryTrans(tasks0, tasks1, tasks, id);
      ghost var tasks2, log2 := tasks, LogOf(id);
      var parsed := ParseTableName(tables[i]).Ok?;
      MarkProgress(id, parsed, Pct(i, |tables|), total, migrated);
      RunFieldsOnlyTrans(tasks0[id], tasks2[id], tasks[id]);
      OnlyEntryTrans(tasks0, tasks2, tasks, id);
      ghost var step: seq<real> := if parsed then [Pct(i, |tables|)] else [];
      assert LogOf(id) == log2 + step;
      assert Marks(Parsed(tables), i + 1) == Marks(Parsed(tables), i) + step;
      LogAppend(log0, Marks(Parsed(tables), i), step);
    }

    /** A cancellation arriving during a run, when `cancel`: `CancelTask` with the database write succeeding. */
    method Cancel(id: string, cancel: bool, now: Time)
      requires id in tasks
      modifies this
      ensures id in tasks && tasks == old(tasks)[id := tasks[id]] && RunFieldsOnly(old(tasks)[id], tasks[id])
      ensures progressLog == old(progressLog)
    {
      if cancel {
        var _ := CancelTask(id, now, None);
      }
    }

    /** `updateTaskProgress` during a run, for an entry that parses: only the run fields change, and the value is logged. */
    method MarkProgress(id: string, parsed: bool, p: real, total: int, migrated: int)
      requires id in tasks
      modifies this
      ensures id in tasks && tasks == old(tasks)[id := tasks[id]] && RunFieldsOnly(old(tasks)[id], tasks[id])
      ensures LogOf(id) == old(LogOf(id)) + (if parsed then [p] else [])
    {
      if parsed {
        UpdateTaskProgress(id, p, total, migrated);
      }
    }

    /**
     * The table loop of `executeMigration`: entries that do not parse are
     * skipped; before each other entry the progress `i/n*100` is written,
     * then the table is migrated and its rows added up, whatever its outcome.
     * A cancellation (a step of another request) may come before entry `i`
     * for each `i` in `cancels`; it does not stop the loop.
     */
    method MigrateTables(id: string, src: MySqlSource, tgt: MySqlSource, task: MigrationTask, tables: seq<string>,
                         total: int, cancels: set<nat>, now: Time)
      returns (migrated: int, failed: int)
      requires id in tasks && src != tgt && src.conn != NoConn && tgt.conn != NoConn
      modifies this, tgt
      ensures id in tasks && tasks == old(tasks)[id := tasks[id]] && RunFieldsOnly(old(tasks)[id], tasks[id])
      ensures LogOf(id) == old(LogOf(id)) + Marks(Parsed(tables), |tables|)
      ensures 0 <= migrated && 0 <= failed && migrated + failed <= CountedRows(src.server, tables)
      ensures tgt.conn != NoConn
    {
      ghost var s0, log0, tasks0 := src.server, LogOf(id), tasks;
      migrated, failed := 0, 0;
      var i := 0;
      while i < |tables|
        invariant 0 <= i <= |tables|
        invariant id in tasks && tasks == tasks0[id := tasks[id]] && RunFieldsOnly(tasks0[id], tasks[id])
        invariant LogOf(id) == log0 + Marks(Parsed(tables), i)
        invariant 0 <= migrated && 0 <= failed && migrated + failed <= CountedRows(s0, tables[..i])
        invariant tgt.conn != NoConn && src.server == s0
      {
        migrated, failed := MigrateStep(id, src, tgt, task, tables, i, total, migrated, failed, i in cancels, now,
                                        s0, tasks0, log0);
        i := i + 1;
      }
      assert tables[..|tables|] == tables;
    }

    /** One turn of the table loop: the entry `i` is visited, then migrated, and its rows counted. */
    method MigrateStep(id: string, src: MySqlSource, tgt: MySqlSource, task: MigrationTask, tables: seq<string>, i: nat,
                       total: int, migrated: int, failed: int, cancel: bool, now: Time,
                       ghost s0: Server, ghost tasks0: map<string, MigrationTask>, ghost log0: seq<real>)
      returns (migrated': int, failed': int)
      requires i < |tables| && src != tgt && src.conn != NoConn && tgt.conn != NoConn && src.server == s0
      requires id in tasks && id in tasks0 && tasks == tasks0[id := tasks[id]] && RunFieldsOnly(tasks0[id], tasks[id])
      requires LogOf(id) == log0 + Marks(Parsed(tables), i)
      requires 0 <= migrated && 0 <= failed && migrated + failed <= CountedRows(s0, tables[..i])
      modifies this, tgt
      ensures id in tasks && tasks == tasks0[id := tasks[id]] && RunFieldsOnly(tasks0[id], tasks[id])
      ensures LogOf(id) == log0 + Marks(Parsed(tables), i + 1)
      ensures 0 <= migrated' && 0 <= failed' && migrated' + failed' <= CountedRows(s0, tables[..i + 1])
      ensures tgt.conn != NoConn && src.server == s0
    {
      VisitEntry(id, tables, i, total, migrated, cancel, now, tasks0, log0);
      var m, f := MigrateEntry(src, tgt, task, tables[i]);
      CountedStep(s0, tables, i);
      migrated', failed' := migrated + m, failed + f;
    }

    /**
     * `executeMigration` for the task `id` against the given source and
     * target servers: a failed set-up or table list fails the task; otherwise
     * every table is gone through and the task ends completed with progress
     * 100, whatever the tables' outcomes and any cancellation on the way.
     * The failed rows are never written to the task.
     */
    method ExecuteMigration(id: string, srcServer: Server, tgtServer: Server, cancels: set<nat>, now: Time)
      returns (tables: seq<string>)
      requires id in tasks
      modifies this
      ensures id in tasks && tasks == old(tasks)[id := tasks[id]]
      ensures !Completes(old(tasks)[id], srcServer, tgtServer) ==>
        tables == [] && LogOf(id) == old(LogOf(id)) &&
        tasks[id] == WithStatus(old(tasks)[id], Failed, tasks[id].errorMessage, now)
      ensures Openable(old(tasks)[id], srcServer, tgtServer) && old(tasks)[id].tables.Malformed? ==>
        (old(tasks)[id].tables.raw != "" ==>
          tasks[id].errorMessage == "Failed to parse tables: " + Message(Decode(old(tasks)[id].tables).error)) &&
        (old(tasks)[id].tables.raw == "" && MainDatabase(old(tasks)[id]) !in srcServer.dbs ==>
          StartsWith(tasks[id].errorMessage, "Failed to list tables: "))
      ensures Completes(old(tasks)[id], srcServer, tgtServer) ==>
        var t0 := old(tasks)[id];
        var total := CountedRows(srcServer, tables);
        tasks[id] == t0.(status := Completed, errorMessage := "", endTime := Some(now), progress := 100.0,
          totalRows := total, migratedRows := tasks[id].migratedRows) &&
        0 <= tasks[id].migratedRows <= total &&
        LogOf(id) == old(LogOf(id)) + RunMarks(Parsed(tables)) &&
        (t0.tables.Encoded? ==> tables == ListedEntries(t0.tables.value)) &&
        (t0.tables.Malformed? ==>
          Distinct(tables) && forall t :: t in tables <==> t in srcServer.dbs[MainDatabase(t0)])
    {
      var task := tasks[id];
      var src, tgt, failure := OpenSources(task, srcServer, tgtServer);
      if failure.Some? {
        UpdateTaskStatus(id, Failed, failure.value, now);
        return [];
      }
      var listErr;
      tables, listErr := ResolveTables(src, task);
      if listErr.Some? {
        UpdateTaskStatus(id, Failed, listErr.value, now);
        return [];
      }
      RunTables(id, src, tgt, task, tables, cancels, now);
    }

    /** The end of `executeMigration`: progress 100 with the totals, then the status completed with no message. */
    method FinishRun(id: string, total: int, migrated: int, now: Time)
      requires id in tasks
      modifies this
      ensures id in tasks && tasks == old(tasks)[id := tasks[id]]
      ensures tasks[id] == old(tasks)[id].(status := Completed, errorMessage := "", endTime := Some(now), progress := 100.0,
        totalRows := total, migratedRows := migrated)
      ensures LogOf(id) == old(LogOf(id)) + [100.0]
    {
      UpdateTaskProgress(id, 100.0, total, migrated);
      UpdateTaskStatus(id, Completed, "", now);
    }

    /**
     * `executeMigration` once its tables are known: the rows are counted,
     * progress 0 is written, the tables are gone through, and the task ends
     * completed with progress 100 and the migrated rows.
     */
    method RunTables(id: string, src: MySqlSource, tgt: MySqlSource, task: MigrationTask, tables: seq<string>,
                     cancels: set<nat>, now: Time)
      requires id in tasks && src != tgt && src.conn != NoConn && tgt.conn != NoConn && src.Unavailable().None?
      modifies this, tgt
      ensures id in tasks && tasks == old(tasks)[id := tasks[id]]
      ensures var total := CountedRows(src.server, tables);
        tasks[id] == old(tasks)[id].(status := Completed, errorMessage := "", endTime := Some(now), progress := 100.0,
          totalRows := total, migratedRows := tasks[id].migratedRows) &&
        0 <= tasks[id].migratedRows <= total &&
        LogOf(id) == old(LogOf(id)) + RunMarks(Parsed(tables))
    {
      ghost var t0, log0 := tasks[id], LogOf(id);
      var total := TotalRows(src, tables);
      UpdateTaskProgress(id, 0.0, total, 0);
      ghost var t1, log1 := tasks[id], LogOf(id);
      assert RunFieldsOnly(t0, t1) && log1 == log0 + [0.0];
      var migrated, failed := MigrateTables(id, src, tgt, task, tables, total, cancels, now);
      ghost var t2, log2 := tasks[id], LogOf(id);
      RunFieldsOnlyTrans(t0, t1, t2);
      FinishOverwrites(t0, t2, total, migrated, now);
      FinishRun(id, total, migrated, now);
      ghost var marks := Marks(Parsed(tables), |tables|);
      assert LogOf(id) == log0 + [0.0] + marks + [100.0];
      LogRun(log0, Parsed(tables));
    }
  }
}
