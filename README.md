# opscore core, modelled in Dafny

opscore is an operations console. A Go backend (gin handlers over services) and a Next.js dashboard work together:

- **MySQL data-migration tasks.** The backend keeps migration tasks in a store keyed by task id. Each task moves through the statuses pending, running, completed, failed and cancelled. Running a task copies the selected tables from a source MySQL server to a target one: it creates, truncates or recreates the target tables, then copies rows in batches and counts every row as migrated or failed. The handlers validate requests, page the task list, probe data sources, and compare the tables of a source and a target database.
- **Kubernetes.** The backend copies the resources of a namespace from one cluster to another, with a per-resource outcome map. It also exports a namespace as `--delimiter--`-framed YAML, lists pods, applies a VMware credential override and sets the CORS headers.
- **Dashboard.** The pages filter and classify lists, drive the migration form step by step and aggregate comparison results. They also extract images from exported YAML, and talk to a mock API that routes paths, stores clusters and answers terminal commands.

The project models the two versions of the migration engine that the repository carries:

- the newer one, under `internal/service/datamigrate`, reached through `internal/api/datamigrate`;
- the older one, under `internal/datamigrate`.

The older data source builds its schema queries with `fmt.Sprintf` from templates that hold no verb, so Go appends an `%!(EXTRA ...)` trailer that MySQL refuses. As written, the older engine therefore fails every table at its schema read, copies no row, and still ends the run completed. The model carries both that behaviour and the evidently intended read, which the rest of the older engine uses (see "## Findings").

## Module layout

**Shared definitions**
- `wrappers.dfy`: `Option`, `Result` and the error values of `error/errors.go`.
- `strs.dfy`: the string functions the code uses (split, trim, replace, lower-casing, search) with their properties.
- `lists.dfy`: filtering and mapping over sequences.

**Migration domain**
- `migration_model.dfy`: the task record, its statuses and the string-slice codec.
- `sql_server.dfy`: an in-memory MySQL server standing in for the database/sql calls, with scripted write failures.
- `mysql_common.dfy`: DDL text, batching, value flattening and the charset default.

**Data sources and engines**
- `new_source.dfy` and `old_source.dfy`: the two MySQL data sources, as classes over such a server.
- `engine_new.dfy` and `engine_old.dfy`: the two migration services, as classes holding the task map.
- `progress.dfy`: the progress log shared by both engines.

**HTTP layer**
- `api_common.dfy`, `api_new.dfy` and `api_old.dfy`: the HTTP handlers and pagination.
- `cors.dfy`: the CORS middleware over a gin-like context.

**Kubernetes and VMware**
- `k8s_cluster.dfy`: a cluster as a map of object records, with the apply rules.
- `k8s_objects.dfy`: object scrubbing, resource-type resolution and aliases.
- `k8s_migrate.dfy`: namespace migration and its result map.
- `k8s_export.dfy`: YAML export framing and the handler's split.
- `k8s_pods.dfy`: the two pod listings.
- `vmware_env.dfy`: environment defaults and the URL credential override.

**Dashboard** (the `web_*.dfy` files)
- `web_api.dfy`: the mock API client.
- One module per page or component, with `web_common.dfy` and `web_select.dfy` for what the pages share.

## Modelling choices

**The outside world becomes parameters.**
- The database, clusters, clocks, id generators, JSON codecs and HTTP replies are parameters or in-memory values.
- A cancel request is a step taken between two tables.
- Progress `i/n*100` is an exact `real`.

**Where the source updates state in place, the model is a class.**
- This covers the task stores, the data sources, the CORS context, the terminal and the migration form.
- Their loops are methods with invariants, proved against specification functions.

**What can be computed as a value is a function.**
- The remaining logic is functions, with lemmas relating each to its partner. For example:
  - the decoder to the encoder;
  - the framing to the split;
  - a page to its neighbours;
  - the sorted table to its two parts.

## Model

| member | source | states |
|---|---|---|
| MigrationModel.Decode | internal/model/migration.go:28 | JSON decoding succeeds exactly on text that encodes a value, and then yields that value |
| MigrationModel.StatusTextRoundTrip | internal/model/migration.go:111-119 | the stored text of each of the five statuses reads back as that status, and only that text does |
| MigrationModel.Scan | internal/model/migration.go:15-29 | a nil source clears the slice; bytes or text that decode replace it; any other source is refused with `Scan source is not []byte or string`; whenever an error is returned the slice keeps its value |
| MigrationModel.Value | internal/model/migration.go:31-33 | the stored value is always bytes holding a decodable JSON encoding |
| MigrationModel.ScanValue | internal/model/migration.go:15-33 | storing a slice with `Value` and scanning it back restores it, whatever the slice held before |
| MySqlCommon.Charset | internal/service/datamigrate/mysql.go:379-384 | the charset is never empty: the configured one when set, `utf8mb4` otherwise |
| MySqlCommon.ColumnDefClauses | internal/service/datamigrate/mysql.go:252-265 | a column definition is the quoted name and type, then ` NOT NULL` exactly for a non-nullable column, ` DEFAULT d` exactly for a non-empty default, ` COMMENT 'c'` exactly for a non-empty comment, in that order and nothing else |
| MySqlCommon.ColumnDefs | internal/service/datamigrate/mysql.go:251-268 | the loop yields one definition per column, in column order |
| MySqlCommon.CreateTableSql | internal/service/datamigrate/mysql.go:270-278 | the statement starts with the head naming the database and the table |
| MySqlCommon.DecodeColumn | internal/datamigrate/mysql.go:118-139 | a column row keeps name, type and comment; nullable exactly when `IS_NULLABLE` is `YES`; the default when one is stored, `""` otherwise |
| MySqlCommon.DecodeEncodeColumn | internal/datamigrate/mysql.go:118-139 | a column created from a `ColumnInfo` reads back as that `ColumnInfo` |
| MySqlCommon.DefOf | internal/service/datamigrate/mysql.go:245-286 | the table a `CreateTable` statement defines has one column per schema column, in order, the schema's comment and no index |
| MySqlCommon.BuildRowNonNull | internal/service/datamigrate/mysql.go:146-153 | a row read back holds exactly the stored row's non-NULL values, keyed by column |
| MySqlCommon.BuildRows | internal/service/datamigrate/mysql.go:131-158 | one row per scanned tuple, in order, each built from its values |
| MySqlCommon.RowArgs | internal/service/datamigrate/mysql.go:189-199 | one argument per column in column order: the row's value, NULL when absent, bytes turned to text in the newer copy |
| MySqlCommon.FlattenAppend | internal/service/datamigrate/mysql.go:187-200 | flattening two batches one after the other is flattening their concatenation |
| MySqlCommon.FlattenLength | internal/service/datamigrate/mysql.go:187 | a batch of n rows over k columns gives n·k arguments |
| MySqlCommon.StoredRows | internal/service/datamigrate/mysql.go:208-217 | the server stores one record per written row, in order |
| MySqlCommon.UnflattenFlatten | internal/service/datamigrate/mysql.go:187-217 | the flattened arguments of a batch are reassembled into exactly one stored record per row |
| MySqlCommon.FlattenBatch | internal/service/datamigrate/mysql.go:187-200 | the two nested loops build exactly the flattened batch |
| MySqlCommon.CopyRow | internal/service/datamigrate/mysql.go:146-153 | a row read and then written keeps every column's value, NULL where it was NULL or absent |
| MySqlCommon.AppendStored | internal/service/datamigrate/mysql.go:180-239 | storing the batch `rows[i..end]` after the first i rows leaves the first `end` rows stored, in order |
| MySqlCommon.StoredRowsSplit | internal/service/datamigrate/mysql.go:180-186 | storing a prefix of the rows is storing its two parts one after the other |
| SqlServer.ParseHeadBare | internal/service/datamigrate/mysql.go:353-358 | the head `SHOW CREATE TABLE` prints for a name without backticks names that table and no database |
| SqlServer.ParseHeadQualified | internal/service/datamigrate/mysql.go:358 | the rewritten head names the target database and the table |
| SqlServer.ExecCreateQualified | internal/service/datamigrate/mysql.go:358-362 | a statement with the rewritten head succeeds exactly when the database is named, exists and lacks the table, and then adds the table empty with the source's definition |
| SqlServer.UnknownDatabaseNamed | internal/service/datamigrate/service.go:205-209 | however the login refusal for a missing database is wrapped, it still contains `Unknown database` |
| SqlServer.FindTable | internal/datamigrate/mysql.go:112-115 | a table is found exactly when its database holds it, and it is the stored table |
| SqlServer.Login | internal/service/datamigrate/mysql.go:41-44 | a login succeeds exactly when the server is up and the default database, if any, exists |
| SqlServer.ShowTables | internal/service/datamigrate/mysql.go:85-93 | `SHOW TABLES FROM db` succeeds exactly when the database exists, with its table names |
| SqlServer.CountRows | internal/service/datamigrate/mysql.go:299-310 | `SELECT COUNT(*)` succeeds exactly when the table exists, with its number of rows |
| SqlServer.ShowCreate | internal/service/datamigrate/mysql.go:96-102 | `SHOW CREATE TABLE` succeeds exactly when the table exists, with the bare head and the table's definition |
| SqlServer.ShowColumns | internal/service/datamigrate/mysql.go:395-412 | `SHOW COLUMNS` succeeds exactly when the table exists, with its column names in order |
| SqlServer.RowValues | internal/service/datamigrate/mysql.go:141 | a scanned row holds the stored value of each column, in column order, NULL where absent |
| SqlServer.SelectRows | internal/service/datamigrate/mysql.go:111-124 | `SELECT * … LIMIT l OFFSET o` succeeds exactly for a table that exists and a window that is not negative, with the table's columns and exactly the rows of the window, in stored order |
| SqlServer.InfoColumns | internal/datamigrate/mysql.go:100-118 | the answer to the columns query sent as intended: `INFORMATION_SCHEMA.COLUMNS` holds no column for a table that does not exist |
| SqlServer.InfoIndexes | internal/datamigrate/mysql.go:143-156 | the answer to the index query sent as intended: `INFORMATION_SCHEMA.STATISTICS` holds no index for a table that does not exist |
| SqlServer.InfoComment | internal/datamigrate/mysql.go:166-177 | the answer to the comment query sent as intended: the comment of a table that does not exist reads as empty |
| SqlServer.CreateDatabase | internal/service/datamigrate/mysql.go:317 | `CREATE DATABASE IF NOT EXISTS` adds the database, empty, when missing, and changes no other database |
| SqlServer.ExecCreate | internal/service/datamigrate/mysql.go:360-362 | a `CREATE TABLE` succeeds only on a head the server reads, in a database that exists and lacks the table, and then adds the table empty; with such a head and database it always succeeds |
| SqlServer.ExecDrop | internal/service/datamigrate/mysql.go:289-296 | `DROP TABLE IF EXISTS` removes exactly that table and keeps every database and every other table |
| SqlServer.Zip | internal/service/datamigrate/mysql.go:208-217 | the stored record holds exactly the listed columns, each with its argument |
| SqlServer.FirstUnknown | internal/service/datamigrate/mysql.go:208-217 | an INSERT naming a column the table lacks is refused with that column, and only then |
| SqlServer.ExecInsert | internal/service/datamigrate/mysql.go:217 | a failed INSERT stores nothing; a successful one appends one record per row to a table that exists; a server that goes away reports an error |
| SqlServer.AppendedTwice | internal/service/datamigrate/mysql.go:180-239 | appending two batches one after the other is appending their concatenation |
| NewSource.MySqlSource.constructor | internal/service/datamigrate/datasource.go:111-115 | a new data source talks to the given server, holds no connection and no configuration |
| NewSource.MySqlSource.Unavailable | internal/service/datamigrate/mysql.go:367-376 | a statement fails before reaching data exactly when the handle was closed or the server is gone |
| NewSource.MySqlSource.Connect | internal/service/datamigrate/mysql.go:23-58 | the configuration is remembered whatever happens; the handle opens exactly when the login succeeds, and otherwise the login error comes back wrapped in `failed to connect to MySQL: ` and the handle is unchanged |
| NewSource.MySqlSource.TestConnection | internal/service/datamigrate/mysql.go:61-72 | with no handle the answer is `ErrConnectionFailed`; otherwise the ping succeeds exactly when the handle is usable |
| NewSource.MySqlSource.ListDatabases | internal/service/datamigrate/mysql.go:75-82 | on a usable handle, every database exactly once; otherwise the error wrapped in `failed to list databases: ` |
| NewSource.MySqlSource.ListTables | internal/service/datamigrate/mysql.go:85-93 | succeeds exactly on a usable handle and a database that exists, with each of its tables exactly once; errors start with `failed to list tables: ` |
| NewSource.MySqlSource.GetTableSchema | internal/service/datamigrate/mysql.go:96-108 | succeeds exactly when the table exists on a usable handle, and then only the name is filled in; errors start with `failed to get table DDL: ` |
| NewSource.MySqlSource.ReadRows | internal/service/datamigrate/mysql.go:111-159 | succeeds exactly for a table that exists, on a usable handle, with a window that is not negative; the rows are those of the window in stored order, each without its NULL values; errors start with `failed to read rows: ` |
| NewSource.MySqlSource.GetTableColumns | internal/service/datamigrate/mysql.go:395-412 | succeeds exactly for a table that exists on a usable handle, with its column names in table order |
| NewSource.MySqlSource.Exec | internal/service/datamigrate/mysql.go:217 | an unusable handle fails without touching the server; otherwise the server runs the INSERT |
| NewSource.MySqlSource.Close | internal/service/datamigrate/mysql.go:367-376 | never fails; an opened handle becomes closed and the server and configuration are kept |
| NewSource.MySqlSource.ExecWithRetry | internal/service/datamigrate/mysql.go:215-238 | a batch is stored wholly or not at all; a dropped connection is retried after a reconnect at most three times; errors start with `failed to reconnect: ` or `failed to write batch rows: ` |
| NewSource.MySqlSource.WriteRows | internal/service/datamigrate/mysql.go:162-242 | no rows: nothing happens; otherwise the rows are stored in batches of the batch size, in the table's column order with bytes turned to text; when a batch fails the batches before it stay stored and nothing of it does |
| NewSource.MySqlSource.CreateTable | internal/service/datamigrate/mysql.go:245-286 | a missing schema or one without columns is refused with `ErrInvalidSchema`; otherwise the statement's outcome on the server, with errors wrapped in `failed to create table: ` |
| NewSource.MySqlSource.DropTable | internal/service/datamigrate/mysql.go:289-296 | on a usable handle the table is dropped, whether it existed or not; otherwise the error wrapped in `failed to drop table: ` and the server is unchanged |
| NewSource.MySqlSource.GetRowCount | internal/service/datamigrate/mysql.go:299-310 | the table's number of rows when it exists on a usable handle; otherwise 0 with an error starting `failed to get row count: ` |
| NewSource.MySqlSource.CreateDatabaseIfNotExists | internal/service/datamigrate/mysql.go:313-344 | an empty name is refused; without a handle a temporary login without database is used and its refusal wrapped; otherwise the handle's error as it is; on success the database exists and nothing else changed |
| NewSource.MySqlSource.CreateTableFromSource | internal/service/datamigrate/mysql.go:347-364 | without a source handle the answer is `source datasource is nil`; with names free of backticks it succeeds exactly when the source table exists, both handles are usable and the target database exists without the table, and then the target gains the table, empty, with the source's definition |
| NewSource.MySqlSource.ExecDdl | internal/service/datamigrate/mysql.go:360-362 | the rewritten statement's outcome on the server; errors start with `failed to create table on target: ` |
| NewSource.RewriteHead | internal/service/datamigrate/mysql.go:358 | replacing the bare head by the qualified one yields the head naming the target database and the table |
| NewSource.NewDataSource | internal/service/datamigrate/datasource.go:111-127 | only the MySQL type yields a fresh, unconnected data source; every other type is `ErrUnsupportedDataSource` |
| OldSource.SchemaOf | internal/datamigrate/mysql.go:94-180 | the schema the intended read assembles carries the table's name, one decoded column per `INFORMATION_SCHEMA` column in order, and is empty apart from the name for a table that does not exist |
| OldSource.SchemaOfCreated | internal/datamigrate/mysql.go:94-180 | a table created from a schema reads back through the intended read as that schema without indexes |
| OldSource.SprintfNoVerb | internal/datamigrate/mysql.go:100-110 | `fmt.Sprintf` of a format without verbs keeps the format and, when arguments are left over, follows it with the `%!(EXTRA ` trailer |
| OldSource.QueryRefusal | internal/datamigrate/mysql.go:112-114 | the server answers a query text exactly when it is the template as it stands, and otherwise refuses it with MySQL's syntax error |
| OldSource.OldMySqlSource.constructor | internal/datamigrate/mysql.go:15-18 | a new data source talks to the given server, holds no connection and no configuration |
| OldSource.OldMySqlSource.Unavailable | internal/datamigrate/mysql.go:357-366 | a statement fails before reaching data exactly when the handle was closed or the server is gone |
| OldSource.OldMySqlSource.Connect | internal/datamigrate/mysql.go:21-56 | the configuration is remembered whatever happens; the handle opens exactly when the login succeeds, and otherwise the login error comes back wrapped in `failed to connect to MySQL: ` |
| OldSource.OldMySqlSource.TestConnection | internal/datamigrate/mysql.go:59-70 | with no handle the answer is `ErrConnectionFailed`; otherwise the ping succeeds exactly when the handle is usable |
| OldSource.OldMySqlSource.ListDatabases | internal/datamigrate/mysql.go:73-80 | on a usable handle, every database exactly once; otherwise the error wrapped in `failed to list databases: ` |
| OldSource.OldMySqlSource.ListTables | internal/datamigrate/mysql.go:83-91 | succeeds exactly on a usable handle and a database that exists, with each of its tables exactly once |
| OldSource.OldMySqlSource.ReadSchema | internal/datamigrate/mysql.go:94-180 | the three queries succeed exactly on a usable handle with each text the template it stands for, yielding the schema read from `INFORMATION_SCHEMA`; otherwise the first failing query's error, wrapped in `failed to get table columns: `, `failed to get table indexes: ` or `failed to get table comment: ` |
| OldSource.OldMySqlSource.GetTableSchemaAsWritten | internal/datamigrate/mysql.go:94-114 | as written the read never succeeds: it fails with `failed to get table columns: ` and the handle's error or MySQL's syntax error |
| OldSource.OldMySqlSource.GetTableSchema | internal/datamigrate/mysql.go:94-180 | the read as evidently intended succeeds exactly on a usable handle, also for a table that does not exist (the queries return no rows), and then yields the schema read from `INFORMATION_SCHEMA` |
| OldSource.OldMySqlSource.ReadRows | internal/datamigrate/mysql.go:183-231 | succeeds exactly for a table that exists, on a usable handle, with a window that is not negative; the rows are those of the window in stored order, each without its NULL values |
| OldSource.OldMySqlSource.Exec | internal/datamigrate/mysql.go:280 | an unusable handle fails without touching the server; otherwise the server runs the INSERT, which stores the whole batch or nothing |
| OldSource.OldMySqlSource.WriteRows | internal/datamigrate/mysql.go:234-287 | no rows: nothing happens; the columns are the keys of the first row; the rows are stored in batches, and when a batch fails the batches before it stay stored and the error starts with `failed to write batch rows: ` |
| OldSource.OldMySqlSource.CreateTable | internal/datamigrate/mysql.go:290-331 | a missing schema or one without columns is refused with `ErrInvalidSchema`; otherwise the statement's outcome on the server, with errors wrapped in `failed to create table: ` |
| OldSource.OldMySqlSource.DropTable | internal/datamigrate/mysql.go:334-341 | on a usable handle the table is dropped, whether it existed or not; otherwise the error wrapped in `failed to drop table: ` |
| OldSource.OldMySqlSource.GetRowCount | internal/datamigrate/mysql.go:344-354 | the table's number of rows when it exists on a usable handle; otherwise 0 with an error starting `failed to get row count: ` |
| OldSource.OldMySqlSource.Close | internal/datamigrate/mysql.go:357-366 | never fails; an opened handle becomes closed |
| OldSource.FirstRowColumnsLoseValue | internal/datamigrate/mysql.go:240-243 | the columns come from the first row read, which lacks its NULL columns, so a later row's value in such a column is written as NULL |
| NewEngine.NamedDatabasesHas | internal/service/datamigrate/service.go:50-55 | every non-blank name of the comma-separated `database` field, trimmed, is recorded |
| NewEngine.NamedDatabasesSource | internal/service/datamigrate/service.go:50-55 | every recorded name comes from a non-blank part of the `database` field, trimmed |
| NewEngine.EntryDatabasesHas | internal/service/datamigrate/service.go:57-61 | the part before the first `.` of every `db.table` entry is recorded |
| NewEngine.EntryDatabasesSource | internal/service/datamigrate/service.go:57-61 | every name recorded from the entries is the part before the first `.` of an entry holding a `.` |
| NewEngine.ParseTableName | internal/service/datamigrate/service.go:314-320 | succeeds exactly when the entry holds a `.`, splitting it at the first one, so that the database part has no `.` and the two rejoin to the entry; otherwise `invalid table name format: <entry>, must be db.table` |
| NewEngine.ParseTableNameJoin | internal/service/datamigrate/service.go:314-320 | a database name without `.` joined to any table name parses back to the two |
| NewEngine.TableDatabasesRecorded | internal/service/datamigrate/service.go:57-61 | the database of every table entry that parses is among the task's databases |
| NewEngine.BareNamesSkipped | internal/service/datamigrate/service.go:253-287 | bare table names, as `ListTables` returns them, never parse, so a task without a table list skips every table |
| NewEngine.ProgressOf | internal/service/datamigrate/service.go:582-592 | the progress view copies every field of the task, and the current table is left empty |
| NewEngine.WithStatus | internal/service/datamigrate/service.go:515-524 | status and message are set; completed and failed set the end time; nothing else changes |
| NewEngine.WithProgress | internal/service/datamigrate/service.go:545-551 | progress, total and migrated rows are set, nothing else changes |
| NewEngine.StartRefusal | internal/service/datamigrate/service.go:108-116 | a task may start exactly when it is neither running (`ErrMigrationTaskRunning`) nor completed (`ErrMigrationTaskCompleted`) |
| NewEngine.CancelRefusal | internal/service/datamigrate/service.go:615-618 | a task may be cancelled exactly when pending or running, otherwise `cannot cancel task with status: <status>` |
| NewEngine.StatusRules | internal/service/datamigrate/service.go:108-116 | a cancellable task that is not running may be started; a cancelled or failed task may be started again but not cancelled; a completed task can be neither |
| NewEngine.SourceView | internal/service/datamigrate/service.go:468-501 | the rows the copy reads are the source table's rows in order, each without its NULL values |
| NewEngine.PlanFor | internal/service/datamigrate/service.go:387-442 | the five outcomes of the target-table decision, each characterised exactly by presence, `create_schema` and `truncate_target` |
| NewEngine.WithEmptyTable | internal/service/datamigrate/service.go:392 | the table is replaced by an empty one with the given definition, and no database is added or removed |
| NewEngine.Prepared | internal/service/datamigrate/service.go:387-442 | a refused or kept table leaves the target as it was; truncation without `create_schema` leaves the table dropped; creation and recreation leave it empty with the source's definition |
| NewEngine.Parsed | internal/service/datamigrate/service.go:283-287 | an entry is visited exactly when it holds a `.` |
| NewEngine.MigrationService.constructor | internal/service/datamigrate/service.go:30-37 | the service starts with no task |
| NewEngine.MigrationService.NamedDatabaseSet | internal/service/datamigrate/service.go:50-55 | the loop collects exactly the non-blank trimmed names of the `database` field |
| NewEngine.MigrationService.AddEntryDatabases | internal/service/datamigrate/service.go:57-61 | the loop adds exactly the databases of the entries that hold a `.` |
| NewEngine.MigrationService.DatabaseList | internal/service/datamigrate/service.go:48-66 | the task's database list holds each requested database exactly once |
| NewEngine.MigrationService.CreateMigrationTask | internal/service/datamigrate/service.go:40-97 | a failed insert is `failed to create migration task: …` and nothing is kept; otherwise a pending task with progress 0, the request's encoded configurations, table list and options, and its database list, is stored under its id |
| NewEngine.MigrationService.StartMigration | internal/service/datamigrate/service.go:100-135 | an unknown task is `ErrMigrationTaskNotFound`; a refused status is refused without change; otherwise the task is running with its start time, and a failed database write is reported as `failed to update task status: …` |
| NewEngine.MigrationService.CancelTask | internal/service/datamigrate/service.go:607-634 | an unknown task is `ErrMigrationTaskNotFound`; a refused status is refused without change; otherwise the task is cancelled with its end time, and a failed database write is reported |
| NewEngine.MigrationService.UpdateTaskStatus | internal/service/datamigrate/service.go:515-542 | a known task gets the status, message and end time of `WithStatus`; an unknown one changes nothing |
| NewEngine.MigrationService.UpdateTaskProgress | internal/service/datamigrate/service.go:545-562 | a known task gets the progress and counts, and the progress is appended to its progress record; an unknown one changes nothing |
| NewEngine.MigrationService.GetTaskProgress | internal/service/datamigrate/service.go:565-595 | a task in memory, else the stored one, is reported; a missing task is `ErrMigrationTaskNotFound`; a failed lookup is `failed to get task from database: …` |
| NewEngine.MigrationService.ListTasks | internal/service/datamigrate/service.go:598-604 | the stored tasks as they are, or the error wrapped in `failed to list tasks: ` |
| NewEngine.MigrationService.PrepareTarget | internal/service/datamigrate/service.go:380-442 | a missing table without `create_schema` is refused; a present one without `truncate_target` is kept; otherwise the table is created, dropped, or dropped and recreated, each failure with its own message; on usable handles and plain names the outcome is exactly `Prepared` |
| NewEngine.MigrationService.CreateMissing | internal/service/datamigrate/service.go:387-406 | a missing table is refused without `create_schema`, and otherwise created from the source's DDL or the failure reported with the server unchanged |
| NewEngine.MigrationService.ResetPresent | internal/service/datamigrate/service.go:407-441 | a present table is kept without `truncate_target`, dropped with it, and recreated from the source's DDL with `create_schema` too |
| NewEngine.MigrationService.ReadWindow | internal/service/datamigrate/service.go:470-482 | the window read at an offset is the next rows of the source view, at least one while rows remain |
| NewEngine.MigrationService.WriteWindow | internal/service/datamigrate/service.go:484-500 | every row of the window is counted once, as migrated or as failed, and the copy invariant is kept |
| NewEngine.MigrationService.CopyRows | internal/service/datamigrate/service.go:452-511 | a failed row count ends the table with `Failed to get row count: `; otherwise every source row is counted as migrated or failed, success means no failed row, and with no failure the target table holds the source's rows after its own |
| NewEngine.MigrationService.CheckTarget | internal/service/datamigrate/service.go:326-357 | the target database is created first; the refusals (database not created, target configuration not decoding, no database, configuration without database) carry no table name and fail |
| NewEngine.MigrationService.MigrateReached | internal/service/datamigrate/service.go:359-512 | a source table that cannot be read fails with `Failed to get source table schema: `; otherwise the outcome is `Migrated` |
| NewEngine.MigrationService.PrepareAndCopy | internal/service/datamigrate/service.go:380-512 | past the source schema, the target table is prepared and, unless only the schema is synchronised, the rows are copied in windows of the batch size, 1000 when not positive |
| NewEngine.MigrationService.MigrateTable | internal/service/datamigrate/service.go:323-512 | the refusals of `CheckTarget` fail without a table name; past them the outcome is `Migrated` on the target with its database created, whose table presence is that of the target before |
| NewEngine.MigrationService.MigrateEntry | internal/service/datamigrate/service.go:283-292 | an entry contributes at most its source table's rows, migrated or failed |
| NewEngine.MigrationService.OpenSources | internal/service/datamigrate/service.go:143-227 | the set-up fails with the first failing step's message (source configuration, target configuration, source type, target type, source login, target login) and otherwise yields two opened sources |
| NewEngine.MigrationService.LoginRefusal | internal/service/datamigrate/service.go:207-209 | a server that is up refuses a login only for a missing database, with MySQL's `Unknown database` error |
| NewEngine.MigrationService.ConnectTarget | internal/service/datamigrate/service.go:207-227 | the target connects exactly when its server is up; a missing database is created and the login retried |
| NewEngine.MigrationService.ResolveTables | internal/service/datamigrate/service.go:240-258 | a decodable list is used as it is; undecodable text fails with `Failed to parse tables: `; empty text lists the tables of the first database, or fails with `Failed to list tables: ` |
| NewEngine.MigrationService.TotalRows | internal/service/datamigrate/service.go:260-274 | the total is the sum of the row counts of the entries that parse and whose tables exist |
| NewEngine.MigrationService.VisitEntry | internal/service/datamigrate/service.go:282-288 | each entry that parses records the progress i/n·100 before its table is migrated, and only the run fields of the task change |
| NewEngine.MigrationService.Cancel | internal/service/datamigrate/service.go:607-634 | a cancellation during a run changes only the status and end time of the task |
| NewEngine.MigrationService.MarkProgress | internal/service/datamigrate/service.go:283-288 | an entry that parses appends its progress, one that does not appends nothing |
| NewEngine.MigrationService.MigrateTables | internal/service/datamigrate/service.go:282-300 | the loop records one progress mark per entry that parses, in order, and the migrated and failed rows never exceed the listed tables' rows |
| NewEngine.MigrationService.MigrateStep | internal/service/datamigrate/service.go:282-292 | one turn of the loop keeps the loop's invariant for one more entry |
| NewEngine.MigrationService.ExecuteMigration | internal/service/datamigrate/service.go:138-311 | a failing set-up or table list fails the task with its message and records no progress; otherwise the task ends completed with progress 100, the total of the listed tables' rows, at most that many migrated rows, progress marks 0, one per parsed entry, then 100, whatever the tables' outcomes |
| NewEngine.MigrationService.FinishRun | internal/service/datamigrate/service.go:302-304 | the run ends completed, with progress 100, an empty message and the end time |
| NewEngine.MigrationService.RunTables | internal/service/datamigrate/service.go:260-304 | past the set-up, the task always ends completed with the counted total and progress marks for each parsed entry |
| Progress.PctBounds | internal/service/datamigrate/service.go:288 | the progress before table i of n lies in [0, 100) and grows from one table to the next |
| Progress.AppendAscending | internal/service/datamigrate/service.go:276-303 | two ascending runs of progress values split by a value between them form an ascending run |
| Progress.ExtendMarks | internal/service/datamigrate/service.go:282-288 | adding the mark of the next table keeps the marks ascending and below the bound |
| Progress.MarksAscending | internal/service/datamigrate/service.go:282-288 | the marks recorded up to table i ascend and stay below the next table's progress, or below 100 at the end |
| Progress.RunMarksAscending | internal/service/datamigrate/service.go:276-303 | the progress a completed run reports starts at 0, ends at 100, never goes back and stays within [0, 100] |
| Progress.MarksEvery | internal/service/datamigrate/service.go:282-288 | when every entry parses, one mark is recorded per table |
| Progress.LogRun | internal/service/datamigrate/service.go:276-303 | the marks of a run, 0 then one per parsed entry then 100, are appended to the task's progress record as one block |
| OldEngine.OldProgressOf | internal/datamigrate/service.go:392-402 | the progress view copies status, progress, the row counts, the times and the message of the task, and leaves the current table empty |
| OldEngine.NewTask | internal/datamigrate/service.go:41-52 | a new task carries the request's configurations, database, tables, batch size and flags, is pending with progress 0, and has no times, counts or message |
| OldEngine.NewOldDataSource | internal/datamigrate/service.go:122-134 | a data source is made exactly for the type `mysql`, fresh, on the given server and not yet connected; any other type gets the unsupported-data-source error |
| OldEngine.Every | internal/datamigrate/service.go:186-199 | the older table loop goes into every one of the `n` entries |
| OldEngine.OldRunMarks | internal/datamigrate/service.go:180-202 | a run over `n` tables writes `n + 2` progress values, starting at 0, ending at 100 and never going back |
| OldEngine.OldCountedStep | internal/datamigrate/service.go:170-178 | the row total grows, table by table, by the rows of each listed table that exists |
| OldEngine.OldMigrationService.constructor | internal/datamigrate/service.go:26-33 | the service starts with no task |
| OldEngine.OldMigrationService.CreateMigrationTask | internal/datamigrate/service.go:36-66 | a failed database insert returns `failed to create migration task: ...` and stores nothing; otherwise the new task is returned and stored under its ID |
| OldEngine.OldMigrationService.StartMigration | internal/datamigrate/service.go:69-104 | an unknown task is `ErrMigrationTaskNotFound`, a running one `ErrMigrationTaskRunning`, a completed one `ErrMigrationTaskCompleted`, and those change nothing; any other becomes running with its start time, and a failed database update is reported after the change |
| OldEngine.OldMigrationService.CancelTask | internal/datamigrate/service.go:417-444 | an unknown task is `ErrMigrationTaskNotFound`; a task that is neither pending nor running is refused with `cannot cancel task with status: <status>`; otherwise it becomes cancelled with its end time |
| OldEngine.OldMigrationService.UpdateTaskStatus | internal/datamigrate/service.go:325-352 | a known task gets the status and message, and an end time exactly when completed or failed; an unknown one changes nothing |
| OldEngine.OldMigrationService.UpdateTaskProgress | internal/datamigrate/service.go:355-372 | a known task gets progress, total and migrated rows, and its progress history grows by that value; the current table is not kept |
| OldEngine.OldMigrationService.GetTaskProgress | internal/datamigrate/service.go:375-405 | the view of the task in memory, else of the database row; a missing row is `ErrMigrationTaskNotFound`, a failed lookup `failed to get task from database: ...` |
| OldEngine.OldMigrationService.ListTasks | internal/datamigrate/service.go:408-414 | the stored tasks as the database returns them, or `failed to list tasks: ...` |
| OldEngine.OldMigrationService.PrepareTarget | internal/datamigrate/service.go:233-261 | with the intended schema read as its probe: an unusable target fails (creation error or the `create_schema is false` refusal) and changes nothing; a usable one is left alone without truncation and dropped and re-created from the source schema with it |
| OldEngine.OldMigrationService.CreateMissing | internal/datamigrate/service.go:235-247 | with `create_schema` the creation is attempted and its error reported as `Failed to create target table: ...`; without it the message is `Target table does not exist and create_schema is false`; the target is unchanged |
| OldEngine.OldMigrationService.Recreate | internal/datamigrate/service.go:248-260 | the table is dropped and created again from the source schema; a schema without columns leaves it dropped and reports `Failed to recreate target table: ...` |
| OldEngine.OldMigrationService.CopyRows | internal/datamigrate/service.go:263-321 | the copy reads the source table's rows batch by batch; the migrated and failed counts never exceed its rows; success means no failed row; a missing target table migrates nothing |
| OldEngine.OldMigrationService.MigrateTableAsWritten | internal/datamigrate/service.go:213-231 | as written every table fails at the source schema read with `Failed to get source table schema: failed to get table columns: ` and the cause, with no row counted and the target untouched |
| OldEngine.OldMigrationService.MigrateTable | internal/datamigrate/service.go:213-322 | with the intended schema read: a source schema that cannot be read or an unusable target fails the table; otherwise the target table is prepared and the rows copied, with migrated plus failed rows at most the source's rows |
| OldEngine.OldMigrationService.PrepareAndCopy | internal/datamigrate/service.go:233-321 | reached only with the intended schema read: a failed preparation returns at once; otherwise the rows are copied into the prepared table |
| OldEngine.OldMigrationService.OpenSources | internal/datamigrate/service.go:121-156 | set-up succeeds exactly when both types are MySQL and both logins succeed, giving two fresh open sources on the two servers; each failure gets its own message |
| OldEngine.OldMigrationService.ResolveTables | internal/datamigrate/service.go:158-167 | the task's table list when not empty; otherwise every table of the task's database, or `Failed to list tables: ...` |
| OldEngine.OldMigrationService.TotalRows | internal/datamigrate/service.go:169-178 | the total is the sum of the rows of every listed table of the task's database |
| OldEngine.OldMigrationService.MarkEntry | internal/datamigrate/service.go:186-187 | a possible cancellation, then the progress `i/n*100` is logged; only the run's fields of the task change |
| OldEngine.OldMigrationService.MigrateTablesAsWritten | internal/datamigrate/service.go:186-199 | as written the table loop logs one progress mark per table and adds up no migrated and no failed row |
| OldEngine.OldMigrationService.VisitEntry | internal/datamigrate/service.go:186-199 | one table: the progress `i/n*100` is written, then the table migrated; only the run's fields of the task change |
| OldEngine.OldMigrationService.MigrateTables | internal/datamigrate/service.go:183-199 | every table is migrated whatever its outcome, the progress `i/n*100` written before each, and the migrated and failed rows add up to at most the counted total |
| OldEngine.OldMigrationService.FinishRun | internal/datamigrate/service.go:201-203 | the run ends with progress 100, the totals, and the status completed with no message and an end time |
| OldEngine.OldMigrationService.RunTablesAsWritten | internal/datamigrate/service.go:169-203 | as written a run over known tables ends completed at progress 100 with the counted total but no migrated row, having written the progress values 0, one per table, and 100 |
| OldEngine.OldMigrationService.RunTables | internal/datamigrate/service.go:169-203 | with the intended schema read, a run over known tables ends completed at progress 100 with the counted total and at most that many migrated rows, having written the progress values 0, one per table, and 100 |
| OldEngine.OldMigrationService.ExecuteMigration | internal/datamigrate/service.go:107-210 | a run that cannot be set up or listed fails the task and writes no progress; otherwise it ends completed with the counted total, over the task's tables or every table of its database, whatever the tables' outcomes |
| ApiCommon.Refusal | internal/api/datamigrate/api.go:76-79 | every refusal carries `code` 1 and no data |
| ApiCommon.BadBody | internal/api/datamigrate/api.go:33-39 | a body that does not decode is answered with 400 and `code` 1 |
| ApiCommon.ClampPage | internal/api/datamigrate/api.go:133-135 | the page is at least 1: a page of 1 or more is kept, anything below becomes 1 |
| ApiCommon.ClampPageSize | internal/api/datamigrate/api.go:136-138 | the page size lies in 1..100: a size in range is kept, any other becomes 10 |
| ApiCommon.PageStart | internal/api/datamigrate/api.go:152-157 | a page starts no later than the end of the list |
| ApiCommon.PageEnd | internal/api/datamigrate/api.go:153-160 | a page ends between its start and the end of the list |
| ApiCommon.Paginate | internal/api/datamigrate/api.go:150-165 | the page the handler cuts is the page `PageForContents` describes |
| ApiCommon.PageForContents | internal/api/datamigrate/api.go:128-176 | the reply carries the clamped page and size, the total and the page count; a page starting at or past the end has no list; any other holds 1 to `page_size` tasks in order from `(page-1)*page_size`, and is full unless it reaches the end |
| ApiCommon.PagesContiguous | internal/api/datamigrate/api.go:152-160 | a page holds at most `page_size` items and the next page starts where it ends |
| ApiCommon.PagesDisjoint | internal/api/datamigrate/api.go:152-160 | an earlier page ends no later than a later page starts |
| ApiCommon.PageOfItem | internal/api/datamigrate/api.go:152-175 | every task lies on exactly one page, and that page is at most `total_page` |
| ApiCommon.Wrap | internal/api/datamigrate/api.go:152-153 | Go's 64-bit `int` keeps a result in range and congruent to the exact one modulo 2^64, and leaves a result that fits unchanged |
| ApiCommon.AtoiSaturate | internal/api/datamigrate/api.go:130-131 | `strconv.Atoi` keeps a number that fits an `int` and cuts any other to the nearest end of the range |
| ApiCommon.PageForAsWrittenAgrees | internal/api/datamigrate/api.go:130-165 | while `page * page_size` fits an `int`, the 64-bit paging as written is exactly the page in unbounded integers: nothing wraps and nothing panics |
| ApiCommon.HugePagePanics | internal/api/datamigrate/api.go:130-165 | as written, `?page=99999999999999999999` saturates, the start wraps to -20, and slicing a non-empty list panics |
| ApiCommon.WrappedPageRepeats | internal/api/datamigrate/api.go:130-165 | as written, `?page=4611686018427387905&page_size=4` wraps the start to 0 and repeats the first page where the unbounded paging has no list |
| ApiCommon.PageCountCeiling | internal/api/datamigrate/api.go:175 | `total_page` is the ceiling of total over page size: the pages cover every task, and the last page is not empty |
| NewApi.ValidateCreateRequest | internal/api/datamigrate/api.go:503-517 | refused with `ErrInvalidConfig` exactly when a type or the database is empty; a valid request changes only its batch size, which becomes 1000 when it was not positive |
| NewApi.ValidateIdempotent | internal/api/datamigrate/api.go:503-517 | validating a validated request changes nothing |
| NewApi.CompareKey | internal/api/datamigrate/api.go:445 | for a database name without a `.`, the table read back from `database.table` is the requested table |
| NewApi.JoinPlain | internal/api/datamigrate/api.go:445 | a database name without a `.` joined to any table parses back to the two |
| NewApi.ComparedPlain | internal/api/datamigrate/api.go:443-488 | for a database name without a `.`, a table exists on a side exactly when that side lists it, its count is that side's row count, and 0 where it is missing |
| NewApi.JoinCancel | internal/api/datamigrate/api.go:423-440 | two keys of the same database are equal exactly when their tables are |
| NewApi.KeyedHas | internal/api/datamigrate/api.go:423-440 | a key `database.table` is in a side's set exactly when that side listed the table |
| NewApi.ApiHandler.constructor | internal/api/datamigrate/api.go:23-28 | the handler starts with a fresh service with no task |
| NewApi.ApiHandler.KeySet | internal/api/datamigrate/api.go:423-426 | the set holds `database.table` for every listed table and nothing else |
| NewApi.ApiHandler.CreateMigrationTaskHandler | internal/api/datamigrate/api.go:31-70 | a malformed or invalid body is a 400 and a failed insert a 500, none storing a task; `code` 0 exactly when the body is valid and stored, answering the task ID and `pending`; the stored task is the service's `CreatedFrom` task of the validated request (pending at progress 0, the request's encoded configurations, tables and flags, each requested database once, a positive batch size), and no other task changes |
| NewApi.ApiHandler.StartMigrationHandler | internal/api/datamigrate/api.go:73-97 | an empty ID is a 400; an unknown, running or completed task is a 500 with the refusal and no change; any other task is started, and a failed database update is a 500 |
| NewApi.ApiHandler.GetTaskProgressHandler | internal/api/datamigrate/api.go:100-125 | an empty ID is a 400; the view of the task in memory, else of its database row; a missing row or failed lookup is a 500 |
| NewApi.ApiHandler.ListTasksHandler | internal/api/datamigrate/api.go:128-178 | a failed listing is a 500 with `Failed to list tasks: ...`; otherwise the clamped page of the stored tasks, paged in unbounded integers |
| NewApi.ApiHandler.CancelTaskHandler | internal/api/datamigrate/api.go:181-205 | an empty ID is a 400; an unknown task or one neither pending nor running is a 500 with no change; otherwise it is cancelled, and a failed database update is a 500 |
| NewApi.ApiHandler.TestConnectionHandler | internal/api/datamigrate/api.go:208-251 | an unsupported type is a 400; a failed connect or ping is HTTP 200 with `code` 1; `code` 0 exactly when the server is reached |
| NewApi.ApiHandler.ListDatabasesHandler | internal/api/datamigrate/api.go:254-300 | an unsupported type is a 400 and a failed connect a 500; `code` 0 exactly when the server is reached, with every database once |
| NewApi.ApiHandler.ListTablesHandler | internal/api/datamigrate/api.go:303-364 | an empty database name is a 400 before any data source is made; `code` 0 exactly when the server is reached and has the database, with each of its tables once; a missing database is a 500 |
| NewApi.ApiHandler.CompareOne | internal/api/datamigrate/api.go:444-488 | a result exactly for a table name that parses; existence is membership in each side's set; a side's count is its row count where the table exists; a failed source count leaves the target count 0 |
| NewApi.ApiHandler.CompareTables | internal/api/datamigrate/api.go:443-488 | one result per requested table, in request order, each the comparison of that table |
| NewApi.ApiHandler.CompareConnected | internal/api/datamigrate/api.go:414-499 | a database missing on the target, then on the source, is a 500; otherwise the per-table results and both sides' table counts |
| NewApi.ApiHandler.CompareHandler | internal/api/datamigrate/api.go:367-500 | each side's unsupported type is a 400 and failed connect a 500, in source-then-target order; `code` 0 exactly when both sides are reached and hold the database, answering the comparison |
| OldApi.ValidateOldRequest | internal/datamigrate/api.go:361-375 | refused with `ErrInvalidConfig` exactly when a type or the database is empty; a valid request changes only its batch size, which becomes 1000 when it was not positive |
| OldApi.OldApiHandler.constructor | internal/datamigrate/api.go:20-25 | the handler starts with a fresh older service with no task |
| OldApi.OldApiHandler.CreateMigrationTaskHandler | internal/datamigrate/api.go:28-67 | a malformed or invalid body is a 400 and a failed insert a 500, none storing a task; otherwise the validated request is stored as a new pending task and its ID answered |
| OldApi.OldApiHandler.StartMigrationHandler | internal/datamigrate/api.go:70-94 | an empty ID is a 400; an unknown, running or completed task is a 500 with the refusal and no change; any other task is started |
| OldApi.OldApiHandler.GetTaskProgressHandler | internal/datamigrate/api.go:97-122 | an empty ID is a 400; the view of the task in memory, else of its database row; a missing row or failed lookup is a 500 |
| OldApi.OldApiHandler.ListTasksHandler | internal/datamigrate/api.go:125-175 | a failed listing is a 500; otherwise the clamped page of the stored tasks, paged in unbounded integers |
| OldApi.OldApiHandler.CancelTaskHandler | internal/datamigrate/api.go:178-202 | an empty ID is a 400; an unknown task or one neither pending nor running is a 500 with no change; otherwise it is cancelled |
| OldApi.OldApiHandler.TestConnectionHandler | internal/datamigrate/api.go:205-248 | an unsupported type is a 400; a failed connect or ping is HTTP 200 with `code` 1; `code` 0 exactly when the server is reached |
| OldApi.OldApiHandler.ListDatabasesHandler | internal/datamigrate/api.go:251-297 | `code` 0 exactly when the server is reached, with every database once |
| OldApi.OldApiHandler.ListTablesHandler | internal/datamigrate/api.go:300-358 | an empty database name is a 400 before any connection; `code` 0 exactly when the server is reached and has the database, with each of its tables once |
| Cors.CorsHeadersShape | internal/middleware/middleware.go:53-67 | a request with an `Origin` has it echoed with `Vary: Origin`; one without gets `*`; credentials, methods, headers and max-age are always set; no other header changes |
| Cors.CorsHeadersIdempotent | internal/middleware/middleware.go:53-67 | setting the headers twice gives the same headers |
| Cors.Context.Cors | internal/middleware/middleware.go:47-80 | the headers become the CORS headers; `OPTIONS` is aborted with 204 and the next handler is not called; any other request calls it once, after the headers are set |
| KubeCluster.KeyOf | internal/kubernetes/migrate-resources.go:429-435 | an object is applied under its own kind and name, in the target namespace, except a PersistentVolume, which is cluster-wide |
| KubeCluster.Lookup | internal/kubernetes/namespace.go:34-43 | the lookup succeeds exactly for a registered cluster ID, and gives that cluster's registration |
| KubeCluster.RuleClasses | internal/kubernetes/migrate-resources.go:326-509 | Deployment, StatefulSet, Service, Secret and CronJob are created or updated; PersistentVolumeClaim, PersistentVolume and Job are only created; ConfigMap has no case |
| KubeCluster.ApplyFrame | internal/kubernetes/migrate-resources.go:311-512 | a failed apply changes nothing; a successful one stores the object under its key and changes nothing else |
| KubeCluster.ApplyWithoutFaults | internal/kubernetes/migrate-resources.go:326-509 | with no refused call (refusals include the server's own checks on the body, which are not modelled otherwise): an upserted kind always succeeds; a create-only kind succeeds exactly when absent, else fails with `<kind>已存在，无法更新，请先删除再创建`; a ConfigMap fails with `不支持的资源类型: *v1.ConfigMap` |
| KubeCluster.ApplyGetRefused | internal/kubernetes/migrate-resources.go:329-339 | a refused `Get` fails every supported kind with `获取<kind>失败: ...`, whether or not the object exists |
| KubeCluster.ApplyErrorText | internal/kubernetes/migrate-resources.go:256-268 | no error text of an apply can be taken for the success message `迁移成功` |
| KubeCluster.Cluster.constructor | internal/kubernetes/migrate-resources.go:282-512 | the cluster holds the given objects, namespaces and refusals |
| KubeCluster.Cluster.EnsureNamespace | internal/kubernetes/migrate-resources.go:282-308 | an existing namespace is accepted; a refused `Get` reports `检查命名空间是否存在时出错: ...`; a missing one is created or the refusal reported as `创建命名空间失败: ...`; on success the namespace exists; objects never change |
| KubeCluster.Cluster.Apply | internal/kubernetes/migrate-resources.go:311-512 | the new stored objects and the error are those `ApplySpec` gives for the old objects; namespaces do not change |
| KubeExport.Prepend | internal/service/kubernetes/export-yaml.go:196-213 | documents written before a later failure are dropped with it; on success they come first |
| KubeExport.WithoutRootCa | internal/service/kubernetes/export-yaml.go:113-121 | the ConfigMap listing keeps exactly the objects not named `kube-root-ca.crt` |
| KubeExport.Listings | internal/service/kubernetes/export-yaml.go:58-194 | one listing per requested type, in request order, each that type's listing |
| KubeExport.Wrap | internal/api/kubeapi/export-yaml.go:44-45 | the split yields, per document, the document between two newlines |
| KubeExport.ExportResources | internal/service/kubernetes/export-yaml.go:32-223 | the result is `ExportSpec`: the lookup and client errors, the first listing or marshalling failure, nothing for an empty buffer, or the framed YAML of every exported object |
| KubeExport.WriteTypes | internal/service/kubernetes/export-yaml.go:58-214 | the loop over types returns the first failure, or the framing of every document in type order |
| KubeExport.WriteDocs | internal/service/kubernetes/export-yaml.go:197-213 | the buffer gains `--delimiter--\n`, the YAML and `\n` for each object, in order, or the first marshalling failure |
| KubeExport.CollectAt | internal/service/kubernetes/export-yaml.go:58-214 | from listing `i` on: its failure, its first marshalling failure, or its documents before the rest |
| KubeExport.FrameOneMore | internal/service/kubernetes/export-yaml.go:210-212 | writing one more document appends `--delimiter--\n`, its YAML and a newline |
| KubeExport.FrameEmpty | internal/service/kubernetes/export-yaml.go:216-220 | the buffer is empty exactly when no document was written |
| KubeExport.RenderShape | internal/service/kubernetes/export-yaml.go:197-207 | one document per object in order, the YAML of the cleaned object; it fails exactly when the marshaller refuses a cleaned object |
| KubeExport.RenderAppend | internal/service/kubernetes/export-yaml.go:197-207 | rendering two runs of objects gives the first run's documents then the second's |
| KubeExport.CollectObjects | internal/service/kubernetes/export-yaml.go:58-214 | when every listing succeeds, the documents are the rendering of all listed objects in type then listing order; a failed listing fails the export |
| KubeExport.ListingFailureAborts | internal/service/kubernetes/export-yaml.go:62-65 | if any requested type's listing fails, the export fails |
| KubeExport.ObjectsFromListings | internal/service/kubernetes/export-yaml.go:58-194 | objects gathered from listings without the root CA ConfigMap contain none |
| KubeExport.ExportListingShape | internal/service/kubernetes/export-yaml.go:60-194 | a listing never holds the `kube-root-ca.crt` ConfigMap; a type that matches no case lists nothing |
| KubeExport.NoRootCa | internal/service/kubernetes/export-yaml.go:117-119 | the `kube-root-ca.crt` ConfigMap is never exported |
| KubeExport.WrapClean | internal/api/kubeapi/export-yaml.go:45 | a framed document does not contain the delimiter when the document does not |
| KubeExport.FrameJoin | internal/service/kubernetes/export-yaml.go:210-212 | the buffer is the delimiter, then the wrapped documents joined by the delimiter |
| KubeExport.Wrapped | internal/api/kubeapi/export-yaml.go:44-45 | one part per document |
| KubeExport.SplitFrame | internal/api/kubeapi/export-yaml.go:44-45 | splitting the buffer on `--delimiter--` gives an empty first part, then each document between newlines, one more part than documents, when no document holds the delimiter |
| KubeExport.DelimiterInsideDoc | internal/api/kubeapi/export-yaml.go:44-45 | a document holding the delimiter comes back as three parts |
| KubeExport.ExportHandlerReplies | internal/api/kubeapi/export-yaml.go:25-51 | a bind error is 200 with code 1, an export error 500 with code 1, both without data; an empty export gives `[""]`; otherwise the data is `""` followed by each wrapped document |
| KubeMigrate.SetupError | internal/kubernetes/migrate-resources.go:40-63 | setup succeeds exactly when both clusters are registered and both clients can be built; otherwise the first failing step's message, in the order source lookup, destination lookup, source client, destination client |
| KubeMigrate.ApplyAllEntries | internal/kubernetes/migrate-resources.go:249-269 | applying a listing records one outcome per listed name, whatever fails: success with `迁移成功` or failure with the error text |
| KubeMigrate.ApplyAllFrame | internal/kubernetes/migrate-resources.go:249-269 | applying a listing changes no stored object outside the listed objects' keys |
| KubeMigrate.MigrateTypeShape | internal/kubernetes/migrate-resources.go:84-275 | one type's result is `_error` alone when its listing fails, `_info` alone exactly when it lists nothing (a type matching no case included), and otherwise one outcome per listed name |
| KubeMigrate.MigrateAllShape | internal/kubernetes/migrate-resources.go:83-276 | the result has exactly the requested type names as keys, each holding the result of its own listing |
| KubeMigrate.MigrateAllFrame | internal/kubernetes/migrate-resources.go:83-276 | the migration changes no stored object of the destination outside the keys of the listed objects |
| KubeMigrate.MigrateResources | internal/kubernetes/migrate-resources.go:30-279 | a setup failure or a failure to make the destination namespace is returned with no object changed; success means the namespace exists and the results and new objects are those of `MigrateAll` over the requested or default types |
| KubeMigrate.MigrateOne | internal/kubernetes/migrate-resources.go:84-275 | one type's results and the destination's new objects are those of `MigrateType`; namespaces do not change |
| KubeMigrate.Connect | internal/kubernetes/migrate-resources.go:40-63 | the setup's error is `SetupError` |
| KubeMigrate.MigrateTypes | internal/kubernetes/migrate-resources.go:83-276 | the loop over types gives the results and objects of `MigrateAll`; namespaces do not change |
| KubeObjects.CleanScrubs | internal/service/kubernetes/export-yaml.go:226-262 | the cleaned object is clean and keeps name, namespace, labels, annotations, version, kind and spec, and the status of a kind without one; cleaning a clean object changes nothing, so cleaning is idempotent |
| KubeObjects.ScrubServiceSpec | internal/kubernetes/migrate-resources.go:132-140 | the cluster-assigned addresses, ports and policies of a Service spec are cleared and the rest is kept |
| KubeObjects.ScrubService | internal/kubernetes/migrate-resources.go:128-143 | a listed Service loses its managed fields and the spec fields above; nothing else changes |
| KubeObjects.Requested | internal/kubernetes/migrate-resources.go:66-71 | the requested types when there are any, otherwise the nine defaults |
| KubeObjects.ToLowerIdempotent | internal/kubernetes/migrate-resources.go:90 | lower-casing twice is lower-casing once |
| KubeObjects.ToLowerOfLower | internal/kubernetes/migrate-resources.go:90 | a text without upper-case letters is its own lower-case form |
| KubeObjects.ResourceCaseInsensitive | internal/kubernetes/migrate-resources.go:90 | matching a type name ignores letter case |
| KubeObjects.ResourceAliases | internal/kubernetes/migrate-resources.go:174-189 | `persistentvolumeclaims` and `persistentvolumes` are aliases of `pvcs` and `pvs` in any case; the other types match their plural alone |
| KubeObjects.DefaultsCoverAll | internal/kubernetes/migrate-resources.go:66-71 | the nine defaults reach the nine cases in order, each once |
| KubeObjects.PrepareAll | internal/kubernetes/migrate-resources.go:98-104 | each listed item, in order, gets the type's API version and kind |
| KubeObjects.ListingShape | internal/kubernetes/migrate-resources.go:90-246 | a failed listing lists nothing; a type matching no case lists nothing and does not fail; items keep their order and get the type's kind; CronJobs fail only when both API versions fail, and fall back to `batch/v1beta1` |
| KubeObjects.PreparedKeepsName | internal/kubernetes/migrate-resources.go:98-104 | a prepared item keeps its name and gets the type's kind and API version |
| KubeObjects.Names | internal/kubernetes/migrate-resources.go:103 | the names of the listed objects, in order |
| KubePods.PodInfoFields | internal/service/kubernetes/pod.go:57-75 | a pod's row holds its name, namespace, phase, node and creation time, `1` for CPU and memory, and the first container's restart count, or 0 when there is none |
| KubePods.PodListOptions | internal/service/kubernetes/pod.go:41-47 | the list sends a limit only when positive, and the continue token as given |
| KubePods.GetPodsInNamespace | internal/service/kubernetes/pod.go:27-78 | a failed lookup, client or list returns no pods, no token and the error; otherwise one row per listed pod, in order, and the page's continue token |
| KubePods.OldPodInfoAsWritten | internal/kubernetes/pod.go:52-64 | the older projection fails exactly for a pod without container statuses, and otherwise gives the same row as the guarded one |
| KubePods.PendingPodPanics | internal/kubernetes/pod.go:61 | a pending pod with no container statuses makes the older projection panic |
| KubePods.OldGetPodsAsWritten | internal/kubernetes/pod.go:25-95 | a failed lookup, client or list returns no pods and the error; a listed namespace panics exactly when some pod has no container status, and otherwise gives one row per pod in order |
| KubePods.OldGetPods | internal/kubernetes/pod.go:25-95 | with the guard of the newer version the older listing never panics: it fails exactly when the lookup, client or list does, and otherwise gives one row per pod in order |
| KubePods.OldAgreesWithGuarded | internal/kubernetes/pod.go:52-64 | where the older projection does not panic it agrees with the guarded one |
| VmwareEnv.EnvString | internal/vmware/vmware.go:21-28 | the variable's value, or the default when it is empty or unset |
| VmwareEnv.EnvBool | internal/vmware/vmware.go:31-43 | the default when the variable is empty or unset; otherwise true exactly when its first character is `t`, `y` or `1` in either case |
| VmwareEnv.EnvBoolWords | internal/vmware/vmware.go:37-42 | only the first character counts: `true`, `Yes` and `1` are true, `false`, `no`, `0`, `on` and `off` are false |
| VmwareEnv.OverrideNothing | internal/vmware/vmware.go:58-88 | with both variables empty the user part is unchanged |
| VmwareEnv.OverrideUsername | internal/vmware/vmware.go:63-76 | a username alone replaces the username and keeps a password only when one was set |
| VmwareEnv.OverridePassword | internal/vmware/vmware.go:79-87 | a password alone sets the password and keeps the username, empty when there was no user |
| VmwareEnv.OverrideBoth | internal/vmware/vmware.go:58-88 | with both variables set the user part is exactly theirs |
| VmwareEnv.OverrideIdempotent | internal/vmware/vmware.go:58-88 | applying the same overrides twice is the same as once |
| VmwareEnv.Url.ProcessOverride | internal/vmware/vmware.go:58-88 | `processOverride`, whose only call (internal/vmware/vmware.go:108) is commented out: the user part becomes `Override` of the old one and the two variables |
| Api.SplitEndpoint | web/lib/api.js:305 | an endpoint splits at `/` back into its segments, after the empty piece before the leading `/` |
| Api.NotClusterList | web/lib/api.js:278-304 | only the one-segment endpoint `/clusters` is the cluster list; every other endpoint goes on to the patterns |
| Api.ClusterPathsRoute | web/lib/api.js:304-323 | `/clusters/<id>` reaches the cluster route and `/clusters/<id>/test` the test route, for the id in the path |
| Api.ResourcePathRoute | web/lib/api.js:342-370 | `/kubernetes/<cluster>/namespaces/<ns>/<kind>` reaches the route of that kind, with the namespace taken from the path |
| Api.InNamespaceSpec | web/lib/api.js:344 | the listed items are those in the namespace, all of them for `"all"`, each as often as in the data and in its order |
| Api.TestAnswer | web/lib/api.js:320-336 | a known cluster not in error answers `success` with its version (`v1.25.0` when it has none), 3 nodes, 24 pods and 6 namespaces; any other never settles |
| Api.LinesFront | web/lib/api.js:383-386 | the first row of a listing comes first, followed by a newline |
| Api.JoinLines | web/lib/api.js:383-386 | the rows, each followed by a newline, are the rows joined by newlines with an empty piece after the last |
| Api.ListingLines | web/lib/api.js:381-387 | a listing splits at its newlines into the header, one piece per row and a final empty piece, when none of them holds a newline |
| Api.Rows | web/lib/api.js:384-386 | one row per item |
| Api.BuildListing | web/lib/api.js:383-386 | the loop `output += row + "\n"` builds the header followed by every row and a newline after each |
| Api.TerminalOutput | web/lib/api.js:372-407 | the loop builds the terminal route's output for the command and namespace |
| Api.PostThenList | web/lib/api.js:279-301 | a POST to `/clusters` answers the new cluster, connected, version `v1.25.0`, its id from the clock, and appends it to the stored list; a later GET lists the stored clusters with it last |
| Api.ListWithoutStored | web/lib/api.js:298-300 | with nothing stored, listing answers the three built-in clusters and stores nothing |
| Api.DeleteThenGet | web/lib/api.js:304-317 | a DELETE answers success and keeps every stored cluster except those with the id, in order; a later GET of the id still finds the built-in cluster with it, if any |
| Api.TestBuiltIn | web/lib/api.js:10-35 | the two connected built-in clusters answer their versions; the one in error and an unknown id never settle |
| Api.PodsPathAnswer | web/lib/api.js:342-346 | the pods path answers the sample pods in the namespace, or all for `"all"`, each as often as in the sample data and in order |
| Api.ResourcePathReply | web/lib/api.js:342-370 | a resource path is answered from the sample data of its kind and leaves the stored clusters alone |
| Api.Unmatched | web/lib/api.js:408-411 | an endpoint that no pattern matches answers the not-found message and changes nothing |
| Api.TerminalPods | web/lib/api.js:381-387 | a `get pods` command answers the header and one line per pod of the namespace |
| Api.PodRowOneLine | web/lib/api.js:385 | a pod's row holds a newline only when one of its fields does |
| Api.RowsAt | web/lib/api.js:384-386 | the row of item `i` is the row function applied to it |
| Api.MockApi.Respond | web/lib/api.js:273-414 | the reply and the new stored clusters are `MockReply` and `MockStored` of the old ones |
| Api.MockApi.Fetch | web/lib/api.js:214-265 | with mock data on (as the client sets it) or a failed request the mock answers; otherwise the server's answer, and nothing stored changes |
| CloudPage.FilteredDataIsFilter | web/app/dashboard/cloud/page.jsx:261-278 | the two-stage filter (provider, then search term) is one filter by the conjunction of both tests |
| CloudPage.FilteredDataSpec | web/app/dashboard/cloud/page.jsx:261-278 | the shown items are exactly the items that pass both tests, each as often as in the data and in order; with provider `all` and no term every item is shown |
| CloudPage.StatusBadge | web/app/dashboard/cloud/page.jsx:281-311 | running, available and in-use get the success badge, stopped the secondary, error and warning the destructive, and every other status the outline |
| CloudPage.ProviderIcon | web/app/dashboard/cloud/page.jsx:346-358 | AWS, Azure and GCP get their own lower-case icon and every other provider the generic cloud icon |
| CloudPage.ActionStatus | web/app/dashboard/cloud/page.jsx:332 | the stop action makes an instance stopped and every other action makes it running |
| CloudPage.InstanceActionSpec | web/app/dashboard/cloud/page.jsx:314-343 | applied to the `cloudData` captured at the click, the action changes the status of the instances with the id and nothing else, and repeating it changes nothing more |
| CloudPage.OverlappingActionsLoseFirst | web/app/dashboard/cloud/page.jsx:327-341 | as written, of two actions clicked within the same two seconds the first leaves no trace: its instance keeps the status it had before the click |
| CloudPage.OverlappingActionsKeepBoth | web/app/dashboard/cloud/page.jsx:327-341 | with each update applied to the current state, both actions stand and nothing else changes |
| ClustersPage.LoadClusters | web/app/dashboard/clusters/page.jsx:54-74 | the list is the API's answer; on an error the stored list when there is one, and otherwise it is left as it was |
| ClustersPage.LoadKubeconfig | web/app/dashboard/clusters/page.jsx:76-104 | loading a file sets the form's kubeconfig to its content and changes nothing else |
| ClustersPage.AddClusterSpec | web/app/dashboard/clusters/page.jsx:106-145 | without a name, without a kubeconfig or with an empty kubeconfig text, or when the API fails, nothing changes; otherwise the added cluster is appended, stored, and the form is reset and closed |
| ClustersPage.EmptyFileRefused | web/app/dashboard/clusters/page.jsx:85-88 | a loaded kubeconfig file with empty text is refused like a missing one: adding then changes nothing |
| ClustersPage.DeleteClusterSpec | web/app/dashboard/clusters/page.jsx:147-171 | on an API error nothing changes; otherwise exactly the clusters with the id go, the rest keep their order, and the list is stored |
| ClustersPage.OutcomeResult | web/app/dashboard/clusters/page.jsx:190-213 | a success records `success` overridden by the reply's own status and its fields; a failure records the error message, or the default message when it is empty |
| ClustersPage.WithStatusSpec | web/app/dashboard/clusters/page.jsx:177 | setting a status changes exactly the clusters with the id |
| ClustersPage.WithStatusTwice | web/app/dashboard/clusters/page.jsx:177-204 | setting the status twice is setting the second |
| ClustersPage.StartTestSpec | web/app/dashboard/clusters/page.jsx:173-180 | starting a test marks the cluster and its result as testing and changes nothing else |
| ClustersPage.FinishTestSpec | web/app/dashboard/clusters/page.jsx:182-222 | a finished test sets the cluster's status from the outcome and its result, keeps the other results, and does not depend on the testing mark |
| ClustersPage.OverlappingTestsLoseFirst | web/app/dashboard/clusters/page.jsx:173-222 | as written, with a second test started before the first one ends, the first cluster stays `testing` for good |
| ClustersPage.OverlappingStatuses | web/app/dashboard/clusters/page.jsx:177-204 | status updates on two different ids made in turn each keep the other's |
| ClustersPage.OverlappingTestsKeepBoth | web/app/dashboard/clusters/page.jsx:173-222 | with each update applied to the latest state, two overlapping tests both record their outcomes |
| ClustersPage.StatusBadge | web/app/dashboard/clusters/page.jsx:236-251 | connected, error and testing each get their badge and text; every other status shows as waiting to connect |
| WebCommon.DeleteResource | web/components/kubernetes/services-list.jsx:15-37 | the delete handler every resource list repeats, cited at the services list's copy: without a cluster or namespace nothing is called; otherwise the delete call for the kind and name is made, and the list refreshes exactly when it succeeds |
| DeploymentsList.LeadingDigits | web/components/kubernetes/deployments-list.jsx:199 | the digits `parseInt` reads are the longest run of digits at the front of the text |
| DeploymentsList.Decimal | web/components/kubernetes/deployments-list.jsx:199 | a number's decimal text is non-empty and all digits |
| DeploymentsList.DecimalValue | web/components/kubernetes/deployments-list.jsx:199 | reading a number's decimal text gives the number back |
| DeploymentsList.LeadingDigitsOf | web/components/kubernetes/deployments-list.jsx:199 | the leading digits of digits followed by a non-digit are those digits |
| DeploymentsList.ParseDecimal | web/components/kubernetes/deployments-list.jsx:199 | `parseInt` of a decimal, with or without a minus sign and followed by anything that is not a digit, is that number |
| DeploymentsList.Replicas | web/components/kubernetes/deployments-list.jsx:198-200 | the replica count is the parsed number when it is one other than 0, and 1 when the text does not parse or parses to 0 |
| DeploymentsList.ReplicasOfNumbers | web/components/kubernetes/deployments-list.jsx:198-200 | a typed positive or negative count, with or without a fraction, is kept as its integer part |
| DeploymentsList.ReplicasOfZero | web/components/kubernetes/deployments-list.jsx:198-200 | `0` and the empty field both become 1 |
| DeploymentsList.CreateSpec | web/components/kubernetes/deployments-list.jsx:60-113 | without a cluster, name or image nothing is sent; otherwise the YAML is sent when there is some and the fields otherwise, in the form's namespace; the list refreshes and the form resets to the current namespace exactly when the API succeeds |
| DeploymentsList.CreateTwice | web/components/kubernetes/deployments-list.jsx:61-98 | after a successful creation the reset form sends nothing |
| DeploymentsList.StatusBadge | web/components/kubernetes/deployments-list.jsx:116-137 | Available gets the success badge, Progressing the warning, Degraded and Failed the destructive, and every other status the outline |
| DeploymentsList.DeleteDeployment | web/components/kubernetes/deployments-list.jsx:36-57 | without a cluster or namespace nothing is called; otherwise the deployment is deleted and the list refreshes exactly when that succeeds |
| PodsList.StatusBadge | web/components/kubernetes/pods-list.jsx:59-80 | Running and Available get the success badge, Degraded and Pending the warning, CrashLoopBackOff and Failed the destructive, and every other status the outline |
| PodsList.ToggleExpanded | web/components/kubernetes/pods-list.jsx:131 | the details of the pod close when they were open and open otherwise |
| PodsList.ToggleTwice | web/components/kubernetes/pods-list.jsx:131 | toggling the same pod twice restores a closed or own state, and closes another pod's details |
| PodsList.DeletePod | web/components/kubernetes/pods-list.jsx:17-38 | without a cluster or namespace nothing is called; otherwise the pod is deleted and the list refreshes exactly when that succeeds |
| KubeTerminal.Settled | web/components/kubernetes-terminal.jsx:77-91 | only the last history entry changes: it keeps its command, stops loading, and shows the output or the error |
| KubeTerminal.RunAppends | web/components/kubernetes-terminal.jsx:67-91 | running a command adds exactly one settled entry `$ command` after the earlier ones, which stay as they were |
| KubeTerminal.Terminal.constructor | web/components/kubernetes-terminal.jsx:10-23 | a terminal starts with no command, no history, not executing, in the given namespace with the five default namespaces |
| KubeTerminal.Terminal.LoadNamespaces | web/components/kubernetes-terminal.jsx:38-46 | the namespaces are the API's answer, or stay the defaults when it fails |
| KubeTerminal.Terminal.ChooseNamespace | web/components/kubernetes-terminal.jsx:26-28 | choosing a namespace changes only the namespace |
| KubeTerminal.Terminal.Type | web/components/kubernetes-terminal.jsx:151-157 | typing replaces the command unless a command is executing |
| KubeTerminal.Terminal.Start | web/components/kubernetes-terminal.jsx:56-71 | a blank command or missing cluster sends nothing; otherwise the trimmed command is sent for the namespace and one loading entry is appended |
| KubeTerminal.Terminal.Finish | web/components/kubernetes-terminal.jsx:73-101 | the reply settles the last entry, the command is cleared and execution ends |
| KubeTerminal.Terminal.KeyDown | web/components/kubernetes-terminal.jsx:104-108 | only Enter while nothing executes starts the command |
| KubeTerminal.Terminal.Click | web/components/kubernetes-terminal.jsx:125 | the button starts the command only when nothing executes and the command is not blank |
| ClusterSelect.FindIndex | web/app/dashboard/kubernetes/advance/page.jsx:51 | the index found is that of the first cluster with the id, or the end of the list when no cluster has it |
| ClusterSelect.FindSpec | web/app/dashboard/kubernetes/advance/page.jsx:51 | `find` gives the first cluster with the id, and nothing exactly when no cluster has it |
| ClusterSelect.SelectClusterSpec | web/app/dashboard/kubernetes/advance/page.jsx:48-59 | a cluster is selected exactly when the list is not empty: the first with the saved id when there is one, else the first cluster |
| KubeAdvance.SelectedTypesSpec | web/app/dashboard/kubernetes/advance/page.jsx:121-138 | the requested types are exactly the keys whose flag is on, and there is one exactly when some flag is on |
| KubeAdvance.ExportSpec | web/app/dashboard/kubernetes/advance/page.jsx:110-168 | a request is made exactly when a cluster and a namespace are chosen and a type is selected, and names exactly the selected types; the YAML becomes the documents joined by `---`, the no-resources placeholder without data, empty on an error, and is unchanged when no request is made |
| KubeAdvance.PageImageNamesMembers | web/app/dashboard/kubernetes/advance/page.jsx:173-179 | the names are exactly those of the lines whose trimmed form starts with `image: ` |
| Strs.DedupFirstOrder | web/app/dashboard/kubernetes/advance/page.jsx:179 | `[...new Set(xs)]` keeps the order of first occurrences: of two kept elements, the earlier one first occurs earlier in `xs` |
| KubeAdvance.PageImagesSpec | web/app/dashboard/kubernetes/advance/page.jsx:169-181 | an empty YAML leaves the list alone; otherwise the list has no repeats, holds exactly the images of the image lines, and keeps the order of their first occurrences |
| KubeAdvance.ImageLineName | web/app/dashboard/kubernetes/advance/page.jsx:175-179 | an indented `image: x` line is an image line and gives `x` |
| KubeAdvance.Commands | web/app/dashboard/kubernetes/advance/components/ExportYamlTab.jsx:93-98 | one command block per image, in order |
| KubeAdvance.FileNameClean | web/app/dashboard/kubernetes/advance/components/ExportYamlTab.jsx:95 | the archive name has no `:` or `/`, is as long as the image and keeps its other characters |
| KubeAdvance.CommandInjective | web/app/dashboard/kubernetes/advance/components/ExportYamlTab.jsx:93-97 | two images with the same command block are the same image |
| KubeAdvance.CommandsDistinct | web/app/dashboard/kubernetes/advance/components/ExportYamlTab.jsx:92-98 | distinct images give distinct command blocks |
| KubeAdvance.TabCommandsSpec | web/app/dashboard/kubernetes/advance/components/ExportYamlTab.jsx:80-100 | an empty YAML leaves the commands alone; otherwise there is exactly one block per distinct image, the images in the order of their first occurrences, and no two blocks are the same |
| KubeAdvance.TabImageLineName | web/app/dashboard/kubernetes/advance/components/ExportYamlTab.jsx:84-92 | an indented `image: x` and an indented `- image: x` line are both image lines and both give the bare `x` |
| KubeAdvance.PackageAllImages | web/app/dashboard/kubernetes/advance/page.jsx:216-248 | without a cluster, a namespace or images nothing is published; otherwise progress goes 0, 10, ..., 100, strictly increasing, and the package link is first cleared, then set to the package address |
| KubeAdvance.MigrateSpec | web/app/dashboard/kubernetes/advance/components/ResourceMigrationTab.jsx:79-139 | a request is made exactly when both clusters and namespaces are chosen, the clusters differ and a type is selected, naming exactly the selected types; success is reported exactly when some entry of some type succeeded |
| KubeAdvance.InfoOnlyIsSuccess | web/app/dashboard/kubernetes/advance/components/ResourceMigrationTab.jsx:126-128 | a type that found nothing and carries only the `_info` entry counts as a successful migration |
| KubernetesPage.Initial | web/app/dashboard/kubernetes/page.jsx:35-45 | the page starts with no clusters, none selected, the `default` namespace, the pods tab and four empty resource lists |
| KubernetesPage.UrlCluster | web/app/dashboard/kubernetes/page.jsx:48-54 | a `cluster` URL parameter is saved as the id to select, and an empty one changes nothing |
| KubernetesPage.LoadClustersSpec | web/app/dashboard/kubernetes/page.jsx:62-109 | the list is the API's, else the stored one, else unchanged; a non-empty loaded list gets a selected cluster from it, the one with the saved id when there is one; nothing else changes |
| KubernetesPage.ChangeClusterSpec | web/app/dashboard/kubernetes/page.jsx:214-219 | the selection becomes the first cluster with the id, or none; the namespace goes back to `default` and the id is saved, so reloading the same list selects the same cluster |
| KubernetesPage.TabLabel | web/app/dashboard/kubernetes/page.jsx:185-198 | the four known tabs get their kind's label and every other tab the generic one |
| KubernetesPage.FetchResourcesSpec | web/app/dashboard/kubernetes/page.jsx:147-182 | without a cluster or namespace, or on an error, nothing changes; otherwise only the current tab's slot changes, to the reply (its `data` field for pods) |
| KubernetesPage.ListReplyHidesPods | web/app/dashboard/kubernetes/page.jsx:157-158 | a pods reply that is a plain array, as the mock answers, leaves the pods tab listing nothing |
| KubernetesPage.FilteredResourcesSpec | web/app/dashboard/kubernetes/page.jsx:201-211 | the listed resources are those of the slot whose name, namespace or status contains the term ignoring case (all of them for an empty term), each as often as in the slot and in order |
| VmwarePage.FilteredDataSpec | web/app/dashboard/vmware/page.jsx:176-187 | the listed items are those whose name or status contains the term ignoring case, or whose ip contains it (all of them for an empty term), each as often as in the data and in order |
| VmwarePage.StatusBadge | web/app/dashboard/vmware/page.jsx:190-222 | running, online and normal get the success badge, stopped and offline the secondary, suspended, maintenance and warning the warning badge, and every other status the outline |
| VmwarePage.ActionStatus | web/app/dashboard/vmware/page.jsx:243 | the shut-down action makes a VM stopped and every other action makes it running |
| VmwarePage.VmActionSpec | web/app/dashboard/vmware/page.jsx:225-254 | applied to the `vmwareData` captured at the click, the action changes only the status of the VMs with the id; hosts, datastores and the VMs' order stay, and repeating it changes nothing more |
| VmwarePage.OverlappingActionsLoseFirst | web/app/dashboard/vmware/page.jsx:238-252 | as written, of two actions clicked within the same two seconds the first leaves no trace: its VM keeps the status it had before the click |
| VmwarePage.OverlappingActionsKeepBoth | web/app/dashboard/vmware/page.jsx:238-252 | with each update applied to the current state, both actions stand and nothing else changes |
| MysqlForm.ConnectionCheckCases | web/app/dashboard/datamigrate/mysql/page.jsx:93-127 | the check passes exactly when both connection tests and the database listing answer code 0, and then gives the listed databases; a failing source test, then a failing target test, decides the message |
| MysqlForm.FetchTables | web/app/dashboard/datamigrate/mysql/page.jsx:133-141 | the loop gives one group per database, in order, when every listing succeeds; otherwise the message of the first listing that fails |
| MysqlForm.Selections | web/app/dashboard/datamigrate/mysql/page.jsx:399 | one selection per table of the group, in order, each naming the group's database |
| MysqlForm.AllSelectionsMembers | web/app/dashboard/datamigrate/mysql/page.jsx:397-401 | a selection is offered exactly when its database's group is a list holding the table |
| MysqlForm.WithoutRemoves | web/app/dashboard/datamigrate/mysql/page.jsx:379 | unchecking removes every copy of the item and keeps every other item as often as before |
| MysqlForm.WithoutAppend | web/app/dashboard/datamigrate/mysql/page.jsx:379 | unchecking keeps the order of the rest: it distributes over concatenation |
| MysqlForm.RemoveAdded | web/app/dashboard/datamigrate/mysql/page.jsx:375-381 | checking an unselected item and unchecking it again restores the selection |
| MysqlForm.SelectAllTwice | web/app/dashboard/datamigrate/mysql/page.jsx:358-364 | from a partial selection the first press selects all and the second clears; from a full one the first clears and the second selects all |
| MysqlForm.Wizard.constructor | web/app/dashboard/datamigrate/mysql/page.jsx:44-58 | a new form is at step 1 with nothing tested, listed or selected |
| MysqlForm.Wizard.TestConnection | web/app/dashboard/datamigrate/mysql/page.jsx:93-127 | the connection counts as tested exactly when the check passes; then the databases are stored and success is shown, otherwise the error is shown; nothing else changes |
| MysqlForm.Wizard.ListTables | web/app/dashboard/datamigrate/mysql/page.jsx:130-147 | `handleListTables`, which nothing on the page calls: the listed tables replace the stored ones, or the listing error is shown and they stay; nothing else changes |
| MysqlForm.Wizard.Next | web/app/dashboard/datamigrate/mysql/page.jsx:242-279 | from step 1 the databases are listed and step 2 follows unless a call throws; from step 2 the tables are listed and step 3 follows unless a listing fails; step 3 goes to 4; the step stays within 1 to 4 |
| MysqlForm.Wizard.PressNext | web/app/dashboard/datamigrate/mysql/page.jsx:464 | a disabled button changes nothing; a step forward is by one, and leaves step 1 only when tested, step 2 only with a database selected and step 3 only with a table selected |
| MysqlForm.Wizard.Prev | web/app/dashboard/datamigrate/mysql/page.jsx:281-283 | back one step, except from step 1; nothing else changes |
| MysqlForm.Wizard.SelectAllDatabases | web/app/dashboard/datamigrate/mysql/page.jsx:358-364 | clears when as many databases are selected as listed, otherwise selects all of them |
| MysqlForm.Wizard.ToggleDatabase | web/app/dashboard/datamigrate/mysql/page.jsx:375-381 | checking appends the database, unchecking removes exactly it |
| MysqlForm.Wizard.SelectAllTables | web/app/dashboard/datamigrate/mysql/page.jsx:396-407 | clears when as many tables are selected as offered, otherwise selects every offered table |
| MysqlForm.Wizard.ToggleTable | web/app/dashboard/datamigrate/mysql/page.jsx:424-430 | checking appends the selection, unchecking removes exactly that database and table |
| MysqlCompare.ParseConfig | web/app/dashboard/datamigrate/mysql/page.jsx:25-34 | text is decoded, with the empty object when decoding fails; an object is returned unchanged |
| MysqlCompare.QualifiedNames | web/app/dashboard/datamigrate/mysql/page.jsx:154 | one `db.table` name per selection, in order |
| MysqlCompare.Names | web/app/dashboard/datamigrate/mysql/page.jsx:193-195 | the names are non-empty and are exactly the non-empty trimmed parts |
| MysqlCompare.NamesOfPlain | web/app/dashboard/datamigrate/mysql/page.jsx:160-195 | splitting the joined databases and dropping empties gives the selection back |
| MysqlCompare.QualifiedPrefix | web/app/dashboard/datamigrate/mysql/page.jsx:203 | a `db.table` name starts with `d.` exactly when its database is `d`, for names without dots |
| MysqlCompare.TablesRoundTrip | web/app/dashboard/datamigrate/mysql/page.jsx:154-203 | reading the `db.table` names back for one database gives the tables selected in it, in order |
| MysqlCompare.PayloadRoundTrip | web/app/dashboard/datamigrate/mysql/page.jsx:150-166 | a task the form creates is read back by the comparison as the same databases and, per database, the same tables; both configurations name the first database |
| MysqlCompare.Tag | web/app/dashboard/datamigrate/mysql/page.jsx:220 | each row keeps its fields and is tagged with its database |
| MysqlCompare.Compare | web/app/dashboard/datamigrate/mysql/page.jsx:188-239 | a tables field that cannot be decoded reports the decoding error; otherwise the result is the summed totals, the conjunction of the verdicts and the tagged rows of every database with tables, or the message of the first that fails |
| MysqlCompare.CompareDatabases | web/app/dashboard/datamigrate/mysql/page.jsx:200-225 | the loop succeeds exactly when every database with tables compares cleanly, and then gives their summary; otherwise the failure text of the first that fails |
| MysqlCompare.FailureFound | web/app/dashboard/datamigrate/mysql/page.jsx:211-217 | a database with tables that fails after clean ones is the first failure of the whole comparison |
| MysqlCompare.SummaryStep | web/app/dashboard/datamigrate/mysql/page.jsx:219-224 | a clean database adds its counts, its verdict and its tagged rows |
| MysqlCompare.DivergentMembers | web/app/dashboard/datamigrate/mysql/page.jsx:647-655 | the divergent rows are exactly the rows whose counts differ or that are missing on a side |
| MysqlCompare.AgreeingMembers | web/app/dashboard/datamigrate/mysql/page.jsx:647-655 | the agreeing rows are exactly the other rows |
| MysqlCompare.PartitionRows | web/app/dashboard/datamigrate/mysql/page.jsx:645-651 | together the two parts use each row exactly once |
| MysqlCompare.DivergentOfParts | web/app/dashboard/datamigrate/mysql/page.jsx:652-656 | filtering the divergent rows again changes nothing, and no agreeing row is divergent |
| MysqlCompare.AgreeingOfParts | web/app/dashboard/datamigrate/mysql/page.jsx:652-656 | no divergent row is agreeing, and filtering the agreeing rows again changes nothing |
| MysqlCompare.DivergentFirstOrdered | web/app/dashboard/datamigrate/mysql/page.jsx:645-651 | after sorting, every divergent row comes before every agreeing one |
| MysqlCompare.DivergentFirstStable | web/app/dashboard/datamigrate/mysql/page.jsx:645-651 | sorting keeps each kind's rows in their order |
| MysqlCompare.ResultTableShape | web/app/dashboard/datamigrate/mysql/page.jsx:643-656 | the table lists exactly the rows with a table name, each once, divergent ones first and each kind in order; showing only differences lists exactly the divergent ones |
| MysqlCompare.SummaryMapSummarises | web/app/dashboard/datamigrate/mysql/page.jsx:613-619 | the map counts, for each database named by the rows, its rows present in the source and in the target |
| MysqlCompare.DatabaseSummary | web/app/dashboard/datamigrate/mysql/page.jsx:610-625 | one entry per non-empty database among the rows, holding how many of its rows exist in the source and how many in the target |

## Findings

| source | as written | input that shows it | evidently intended | confidence | as-written member | corrected member |
|---|---|---|---|---|---|---|
| internal/kubernetes/pod.go:61 | the restart count is read from the first container status with no check that one exists | a pod in phase Pending whose containers have not started yet, so it has no container statuses: the index is out of range and the listing panics | a restart count of 0 when a pod has no container status, as in internal/service/kubernetes/pod.go:59-62 | not executed | KubePods.OldGetPodsAsWritten | KubePods.OldGetPods |
| web/app/dashboard/clusters/page.jsx:187 | each finished connection test writes `clusters.map(...)` over the list its handler captured when it started | start a test of cluster `a`, start one of `b` before it ends, let `a` finish first: `b`'s final write is built from the list in which `a` is still `testing` | each update applied to the current list (`setClusters(prev => prev.map(...))`), so both clusters end with their own outcome | not executed | ClustersPage.OverlappingTestsLoseFirst | ClustersPage.OverlappingTestsKeepBoth |
| internal/datamigrate/mysql.go:100-114 | each `INFORMATION_SCHEMA` query of the older `GetTableSchema` is built with `fmt.Sprintf(template, database, table)`, and no template holds a verb, so Go appends `%!(EXTRA string=<database>, string=<table>)` to the text | any table on a usable handle: the columns query ends `ORDER BY ORDINAL_POSITION` followed by the trailer, MySQL refuses it as a syntax error, and the read fails with `failed to get table columns: ` | each template sent as it stands, with its `?` placeholders bound to the database and the table by `Raw` | not executed | OldSource.OldMySqlSource.GetTableSchemaAsWritten | OldSource.OldMySqlSource.GetTableSchema |
| internal/datamigrate/service.go:169-231 | the older `executeMigration` goes on after every failed table and then marks the task completed | any run of the older engine over tables that exist and hold rows: with the schema read as written, every table fails at `Failed to get source table schema: `, no row is copied, and the task ends completed at progress 100 with 0 migrated rows | the source schema read succeeds, the target table is prepared and the rows are copied | not executed | OldEngine.OldMigrationService.RunTablesAsWritten | OldEngine.OldMigrationService.MigrateTable |
| internal/api/datamigrate/api.go:130-165 | `page` is an `int` read by `strconv.Atoi`, whose range error is dropped, and `(page-1)*pageSize` wraps around; the same code is at internal/datamigrate/api.go:127-162 | `?page=99999999999999999999` on a non-empty task list: `page` saturates to 2^63-1, the start wraps to -20, and `tasks[start:end]` panics | a page past the end of the list, with no list | not executed | ApiCommon.HugePagePanics | ApiCommon.PageForContents |
| internal/api/datamigrate/api.go:130-165 | as in the row above, the start `(page-1)*pageSize` wraps around | `?page=4611686018427387905&page_size=4` on a list of 4 or more tasks: the start is 2^64, which wraps to 0, so the reply repeats page 1 | distinct pages hold disjoint tasks, and a page past the end has no list | not executed | ApiCommon.WrappedPageRepeats | ApiCommon.PagesDisjoint |
| web/app/dashboard/vmware/page.jsx:238-252 | each delayed VM action writes `{...vmwareData, vms: vmwareData.vms.map(...)}` over the `vmwareData` its handler captured at the click | start VM `a`, then stop VM `b` within two seconds: `b`'s write is built from the data in which `a` has its old status | each update applied to the current state (`setVMwareData(prev => ...)`), so both VMs end with their new status | not executed | VmwarePage.OverlappingActionsLoseFirst | VmwarePage.OverlappingActionsKeepBoth |
| web/app/dashboard/cloud/page.jsx:327-341 | each delayed instance action writes `{...cloudData, instances: cloudData.instances.map(...)}` over the `cloudData` its handler captured at the click | start instance `a`, then stop instance `b` within two seconds: `b`'s write is built from the data in which `a` has its old status | each update applied to the current state (`setCloudData(prev => ...)`), so both instances end with their new status | not executed | CloudPage.OverlappingActionsLoseFirst | CloudPage.OverlappingActionsKeepBoth |

The first finding's counterexample lemma is `KubePods.PendingPodPanics`. The second finding's as-written composition is `ClustersPage.OverlappingTestsAsWritten`, and its corrected one is `ClustersPage.OverlappingTests`.

The older schema read as written is `OldSource.OldMySqlSource.ReadSchema` given the texts `OldSource.SprintfNoVerb` makes; the corrected read gives it the templates. The older table loop as written is `OldEngine.OldMigrationService.MigrateTablesAsWritten`, built on `MigrateTableAsWritten`. The paging as written is `ApiCommon.PageForAsWritten`; `ApiCommon.PageForAsWrittenAgrees` shows it is the corrected paging `ApiCommon.PageFor` whenever nothing overflows. The VM and instance compositions are `OverlappingActionsAsWritten` (as written) and `OverlappingActions` (corrected) in `VmwarePage` and `CloudPage`.

## Left out

**Persistence, concurrency and I/O**
- GORM persistence. The stored task rows, and their newest-first order, are inputs to the list handlers.
- The goroutine that runs a migration, and the task mutexes. Execution is sequential, and a cancel is a step between two tables.
- Deferred `Close` calls and all logging.
- Real SQL execution, connection pools and `Ping`. An in-memory server stands in for them; its scripted outcomes decide when a write or reconnect fails.
- client-go, the YAML encoders and the scheme codecs. Clusters are maps of object records, and listings and applies are function parameters.
- The migrate-resources HTTP handler is not part of this model: it only binds the request and forwards it. The namespace migration it calls is modelled.
- Clocks, UUIDs, `Date.now` and `Math.random` are opaque inputs. Time formatting and the "age" strings are left out.

**Data and encodings**
- JSON encoding and decoding are abstract codecs passed as parameters; only their round-trip is assumed.
- `res.data || res` in the dashboard is modelled as a reply that is one or the other.
- Go string indexing is on bytes, and the model indexes characters. The two agree on ASCII names, and nothing else is modelled.
- Floating-point progress is an exact `real`.
- gin's canonicalisation of header names is left out. Header names are compared as written.
- Map iteration order in Go is arbitrary. Where it decides an order (database lists, older WriteRows columns), the model picks some enumeration and states only what is independent of it.

**Outside this model**
- The older data-source interface and factory are not part of this model. The older engine creates its sources by the same switch as the newer factory: a MySQL source, or the unsupported-source error.
- The newer engine only ever obtains MySQL sources, so the `CreateTable(sourceSchema)` branches for non-MySQL targets in `migrateTable` are unreachable and are not modelled.
- A source and a target that are the same physical server are two separate server values. Writes to one are not seen through the other.

**Dashboard**
- Rendering, toasts, dialogs, timers, clipboard, downloads and localStorage I/O. Stored lists are explicit state.
- The loading and spinner flags, including `formLoading` and `isLoading`.
- Display-only fields.
- The page's `handleViewLogs`.
- The mock's PUT route.
- ResourceMigrationTab's namespace fetches.
- KubeMigrate.ApplyAll: internal/kubernetes/migrate-resources.go:253 calls that package's own `cleanObject`, which is not part of this model. The model assumes it is the export's `cleanObject` (internal/service/kubernetes/export-yaml.go:226-266), which keeps `metadata.namespace`.
- KubeCluster.ApplyWithoutFaults: the API server's refusal of a body whose `metadata.namespace` differs from the request's namespace is not modelled. With the assumed cleaning, every object migrated to a differently named namespace would be refused by a real server; here such refusals are only possible through the scripted refusals, which are not tied to the namespace.
- Strs.IsSpace: U+0085, which Go's `strings.TrimSpace` also removes, and U+FEFF, which JavaScript's `trim` also removes, are not white space in the model. Every other character either of them removes is.
- OldEngine.OldMigrationService.PrepareTarget: modelled with the intended schema read as its probe. As written the probe is refused like every schema read, but the table has already failed at the source schema read before the probe is reached (see "## Findings").
- OldEngine.OldMigrationService.MigrateTable: modelled with the intended schema read. As written it fails every table at the source schema read, which `MigrateTableAsWritten` states (see "## Findings").
- OldEngine.OldMigrationService.PrepareAndCopy: modelled as reached after the intended schema read. As written it is never reached (see "## Findings").
- NewEngine.MigrationService.ReadWindow: the source server never fails a read once the row count has succeeded, so the `Failed to read rows: ` exit of internal/service/datamigrate/service.go:474-478 is not modelled. The model's server has no read fault: its scripted faults are on INSERTs only.
- NewEngine.MigrationService.CopyRows: for the same reason, the read error exit and the empty-read `break` (internal/service/datamigrate/service.go:480-482) are not modelled. That `break` would end a table as a success with fewer migrated and failed rows than its total.
- OldEngine.OldMigrationService.CopyRows: the read error exit and the empty-read `break` of internal/datamigrate/service.go are not modelled either. In the model they cannot happen, and both branches are proved unreachable.
- ApiCommon.PageStart, ApiCommon.PageEnd, ApiCommon.Paginate, ApiCommon.PageForContents, ApiCommon.PagesContiguous, ApiCommon.PagesDisjoint and ApiCommon.PageOfItem: stated in unbounded integers, the paging the code evidently intends. The 64-bit wrap-around and the slice panic are modelled separately by `ApiCommon.PageForAsWritten` (see "## Findings").
- NewApi.ApiHandler.ListTasksHandler: pages in unbounded integers; the 64-bit paging as written is `ApiCommon.PageForAsWritten` (see "## Findings").
- OldApi.OldApiHandler.ListTasksHandler: pages in unbounded integers, as the newer handler does; the code at internal/datamigrate/api.go:127-162 has the same wrap-around.
- Strs.ToLower: lower-cases ASCII letters only, while JavaScript's `toLowerCase` and Go's `strings.ToLower` also fold other letters. `WebCommon.IncludesIgnoringCase`, the page filters, `KubeObjects.ResourceCaseInsensitive` and `KubeObjects.ToLowerIdempotent` inherit this.
- The dashboard's calls to `datamigrateAPI`, which web/lib/api.js never exports, and to `kubernetesAPI.exportNamespaceYaml`, `getNamespaceImages` and `migrateResources`, which web/lib/api.js:419-512 does not define, would throw a `TypeError` in the browser. The model takes the answers of these calls as inputs, so it does not capture the exception.
- Api.SplitEndpoint: the route regexes are modelled on `/`-separated segments. Cluster ids that contain `/`, or that equal `clusters`, are not considered.
- Api.TerminalOutput: the listings are stated for sample fields without newlines, as the built-in data is.
- DeploymentsList.ParseInt: `parseInt`'s `0x` prefix and its loss of precision beyond 2^53 are left out.
- KubeTerminal.Terminal.Start: the asynchronous handler is split into `Start` and `Finish`. Other interleavings of one terminal's commands are excluded by the `executing` flag, as in the page.
- Sorting in the comparison table is a stable partition into divergent and agreeing rows, which is what the comparator decides. A JavaScript engine's sort with an inconsistent comparator is not modelled.
