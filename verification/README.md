# Hecatoncheir profiler core in Dafny

Hecatoncheir profiles database tables. For one table, a run collects the
column names and data types, optional sample rows and the row count, and
then (unless a gate stops it) per-column statistics: null counts, min/max,
most and least frequent values, and cardinalities. It can also run record
validation and post-scan validation. The result is a snapshot of the table.
A new snapshot can take the annotations a human entered in an older one.

This project models, as pure functions and small methods over immutable
data:

- `Model`: the values a driver returns, the exceptions that cross module
  boundaries (as an `Error` datatype), a table's snapshot (`TableMeta`,
  `ColumnMeta`), the profiler configuration, and the trace of requests a run
  sends (`Call`, in pipeline order).
- `Migration`: `migrate_table_meta` on JSON-like snapshots.
- `Queries`: the decoding helpers the dialect profilers share. These are
  `_query_column_profile`, the batched `_query_record_validation` loop, and
  the schema filter of `_query_schema_names`.
- `ColumnStats`: `run_column_profiling` and `_run_record_validation`.
- `Orchestrator`: `run` and its helpers. The profiler is a record of its
  configuration and its mutable flag `skip_column_profiling`. Each run
  returns the updated record, the requests it sent and the outcome.
- `MyProfiler`: the MySQL profiler. This covers the blob test, the phase-1
  select list and its per-table cache, the cache reads, the frequent-value
  and cardinality maps, record validation and the schema list.
- `OraDriver`: the Oracle driver's `query_to_resultset` and `disconnect`.
  It connects lazily, caps the rows, classifies errors and tracks the
  connection state.

Every driver round trip is an input. The orchestrator gets an `Answers`
record holding each request's outcome. The MySQL profiler gets a `Database`
holding the answer to each query shape. The Oracle driver gets a `Server`
holding connect, execute and close outcomes. Python exceptions are `Err`
values, and `None` is `Option.None`.

A profiler instance keeps `skip_column_profiling` between runs. The code
sets the flag when table profiling is skipped (DbProfilerBase.py:556-557)
and after a row-count timeout (DbProfilerBase.py:518), and never clears
it. So a later run on the same instance skips column profiling too. `Run`
takes and returns the profiler state to carry the flag between runs.

The Oracle row cap follows the code. The test `i > max_rows` lets
`max_rows + 1` rows through.

## Model

| member | source | states |
|---|---|---|
| Migration.MigrateTableMeta | hecatoncheir/DbProfilerBase.py:18-37 | Without an old snapshot it returns `None` and leaves the new one unchanged. Otherwise the new mapping, even when the call then raises, has exactly the four table annotations taken from the old snapshot (`None` when missing) and keeps every other key. A missing `columns` key is a `KeyError('columns')` after those writes. Otherwise the columns are what the column loop left, and the call raises `KeyError('column_name')` exactly when some compared column lacks a name. On success it returns the updated mapping, with every column migrated from its last match. |
| Migration.MigrateColumns | hecatoncheir/DbProfilerBase.py:28-35 | The column loop keeps the number of columns. Without old columns nothing is compared and every column is unchanged. Any exception is `KeyError('column_name')`. |
| Migration.MigrateColumnAt | hecatoncheir/DbProfilerBase.py:29-35 | One column's inner loop. It raises exactly when there are old columns and the column, or some old column, has no name. A nameless column is left unchanged; otherwise the column is migrated from the old columns before the first nameless one, and from all of them when none raises. Only annotation keys change. |
| Migration.MigrateColumnsFails | hecatoncheir/DbProfilerBase.py:29-31 | The column loop raises exactly when there are columns and old columns and some of either lacks `column_name`. |
| Migration.MigrateColumnsComplete | hecatoncheir/DbProfilerBase.py:29-35 | When the loop does not raise and there are old columns, every column has a name and is migrated from its last match. |
| Migration.MigrateColumnsStopAtNamelessOld | hecatoncheir/DbProfilerBase.py:29-31 | A nameless old column raises during the first column's scan. That column keeps the annotations of the matches before the nameless one (or is unchanged when it has no name itself), and every later column is untouched. |
| Migration.MigrateColumnsStopAtNamelessColumn | hecatoncheir/DbProfilerBase.py:29-31 | With every old column named, the first nameless column raises. The columns before it are migrated, and it and every later column are untouched. |
| Migration.MigrateColumnsKeepOthers | hecatoncheir/DbProfilerBase.py:29-35 | Whether or not the loop raises, every column agrees with its original on every key other than the four annotations. |
| Migration.LastMatch | hecatoncheir/DbProfilerBase.py:29-35 | Of the nested loop's overwrites, the last matching old column is the one that wins. There is none exactly when no old column has the name. |
| Migration.MigrateColumnIdempotent | hecatoncheir/DbProfilerBase.py:31-35 | Migrating a column twice from the same old columns equals migrating it once. |
| Migration.MigrationIsIdempotent | hecatoncheir/DbProfilerBase.py:18-37 | After a migration that does not raise, migrating the result again from the same old snapshot changes nothing. |
| Migration.MigrationKeepsStatistics | hecatoncheir/DbProfilerBase.py:28-35 | Even when the call raises, every column key other than the four annotations, statistics included, keeps its presence and its value. |
| Migration.ColumnsKeyErrorAfterAnnotations | hecatoncheir/DbProfilerBase.py:23-29 | Example: a new snapshot without `columns` raises `KeyError('columns')`, and its `comment` has already been taken from the old snapshot. |
| Migration.NamelessColumnAfterMigratedOne | hecatoncheir/DbProfilerBase.py:29-35 | Example: columns `[a, {}]` and one old column `a` with a comment. The call raises `KeyError('column_name')`; column `a` already has the old comment, and the nameless column is unchanged. |
| Queries.Triples | hecatoncheir/DbProfilerBase.py:258-262 | The cells after the leading count, grouped by three, one `(nulls, min, max)` triple per column. |
| Queries.SplitTriples | hecatoncheir/DbProfilerBase.py:259-267 | Triple `j` goes to `names[j]`, and a repeated name keeps its last triple. The key sets of both maps are exactly the names used. It fails when there are more triples than names or a null count is not an integer. The first bad triple decides the error: `IndexError` for a missing name, `TypeError` for a non-integer count. |
| Queries.QueryColumnProfile | hecatoncheir/DbProfilerBase.py:234-275 | It succeeds exactly on a single row with an integer count and a length of 1 plus a multiple of 3, whose triples all have a name and an integer null count. The result is that count, and column `j` gets `nulls = row[1+3j]` and `[min, max] = [row[2+3j], row[3+3j]]`. The wrong number of rows or a bad remainder is an `AssertionError`. A count that is not an integer is a `TypeError`, and a bad triple is a `TypeError` or `IndexError`. A driver error propagates. |
| Queries.FetchMany | hecatoncheir/DbProfilerBase.py:391-393 | A batch is at most `size` rows and continues the rows read so far. It is empty exactly at the end. |
| Queries.QueryRecordValidation | hecatoncheir/DbProfilerBase.py:364-399 | It fails exactly on a cursor error or an empty description. Otherwise `count` is the number of rows, `failed` is the number the validator rejects, and `failed <= count`. The fetched batches concatenate to all rows, each batch non-empty and at most `fetch_size`, so no failure stops the loop early. |
| Queries.CountBatch | hecatoncheir/DbProfilerBase.py:394-397 | Counting one fetched batch adds its length to the row count and leaves the failure count equal to the number of rejected rows among all rows seen so far. |
| Queries.SchemaNamesAsWritten | hecatoncheir/DbProfilerBase.py:101-108 | The filter as the code parses it: an empty result without an ignore list, and the intended filter with one. |
| Queries.SchemaNames | hecatoncheir/DbProfilerBase.py:91-108 | The documented filter: a name is kept exactly when it is listed and not ignored. Without an ignore list every name is kept. A single name gives itself, or nothing when ignored. |
| Queries.SchemaNamesConcat | hecatoncheir/DbProfilerBase.py:104-106 | The filter works row by row: filtering a concatenation is the concatenation of the filtered parts. With the single-name case this fixes the order and the repetitions of the result. |
| Queries.SchemaFilterDropsAllWithoutIgnores | hecatoncheir/DbProfilerBase.py:105 | One schema and no ignore list: as written no schema is reported, and the intended filter reports it. |
| ColumnStats.MergeColumns | hecatoncheir/DbProfilerBase.py:406-408 | Each column is updated with its own entry, in order. It fails exactly when some column is missing from the answer, with a `KeyError` naming such a column. |
| ColumnStats.MergeStep | hecatoncheir/DbProfilerBase.py:402-408 | A disabled step sends nothing and changes nothing. An enabled one sends one request. It succeeds exactly when the answer arrived and names every column, and then updates each column from its entry and renames nothing. |
| ColumnStats.FreqStep | hecatoncheir/DbProfilerBase.py:424-437 | Only with `num_freq_values > 0`: most-frequent then least-frequent values. It succeeds exactly when both answers name every column, and then each column gets both lists. |
| ColumnStats.ProfileNullsMinMax | hecatoncheir/DbProfilerBase.py:402-422 | Nulls, then min/max rendered as text, each under its own flag. It succeeds exactly when each enabled answer names every column. Its requests are a prefix of the enabled ones, and the other statistics are untouched. |
| ColumnStats.ProfileFreqCardinality | hecatoncheir/DbProfilerBase.py:424-447 | Frequent values, then cardinality, each under its own flag. It succeeds exactly when each enabled answer names every column, and leaves nulls and min/max untouched. |
| ColumnStats.RunColumnProfiling | hecatoncheir/DbProfilerBase.py:401-449 | It succeeds exactly when every enabled statistic's answer names every column, after sending every enabled request. Each column then holds the answers for exactly the enabled statistics and is otherwise unchanged. |
| ColumnStats.ColumnProfilingCallsArePrefix | hecatoncheir/DbProfilerBase.py:401-449 | A failing request ends column profiling: the requests sent are a prefix of the enabled ones. |
| ColumnStats.ColumnProfilingCallsInOrder | hecatoncheir/DbProfilerBase.py:401-449 | Whatever the answers, the statistic requests come as nulls, min/max, most, least, cardinality. |
| ColumnStats.DefaultStatCalls | hecatoncheir/DbProfilerBase.py:51-57 | With the class defaults, every statistic is enabled, so column profiling asks for all five statistics in order. |
| ColumnStats.AttachRecordValidation | hecatoncheir/DbProfilerBase.py:451-471 | Skipped, or without rules, it sends nothing and changes nothing. Otherwise it sends one request, succeeds exactly when the answer arrives, and sets `validation` on exactly the columns the answer names. |
| Model.InPipelineOrderPrefix | hecatoncheir/DbProfilerBase.py:547-604 | A prefix of an ordered request trace is ordered. |
| Model.InPipelineOrderConcat | hecatoncheir/DbProfilerBase.py:547-604 | Two ordered traces of consecutive pipeline stages concatenate into an ordered trace. |
| Orchestrator.FreshColumns | hecatoncheir/DbProfilerBase.py:540-544 | One column per discovered name, in order, with no statistics. |
| Orchestrator.BuildTableMeta | hecatoncheir/DbProfilerBase.py:534-545 | A well-formed snapshot carrying the database, schema, table and discovered column names. Every column lacks statistics, and there is no row count and no sample rows. |
| Orchestrator.ProfileDataTypes | hecatoncheir/DbProfilerBase.py:491-500 | An empty type map is an `InternalError`. Otherwise it succeeds exactly when every column has a type, and each column then gets its own. A missing column is a `KeyError` naming it. |
| Orchestrator.ProfileTable | hecatoncheir/DbProfilerBase.py:534-545 | Build, data types, sample rows. It succeeds exactly when the answers are usable, and then sends every table request and gives each column its type. The snapshot has no statistics and no row count. |
| Orchestrator.ProfileRowCount | hecatoncheir/DbProfilerBase.py:502-522 | The exact count is requested exactly when row counting is on. The statistics estimate is requested exactly when the exact count timed out, and `skip_column_profiling` is then set if the estimate arrives. Other errors propagate, and with row counting off nothing changes. |
| Orchestrator.ProfileAndValidate | hecatoncheir/DbProfilerBase.py:595-598 | Column profiling, then record validation. Usable statistics without a validation request always succeed. Each column ends up profiled with every enabled statistic, with at most its findings changed. |
| Orchestrator.ProfileAndValidateCallsInOrder | hecatoncheir/DbProfilerBase.py:595-598 | Its requests are in pipeline order and lie in the column stages. |
| Orchestrator.ProfileColumns | hecatoncheir/DbProfilerBase.py:595-601 | It adds post-scan validation after ProfileAndValidate. Without rules the data is the snapshot; with rules it is what post-scan validation returns. Success sends exactly the enabled statistic requests, then record validation and post-scan validation when they apply. |
| Orchestrator.ProfileFront | hecatoncheir/DbProfilerBase.py:550-579 | The run up to the row count. The requests are ordered, the estimate is requested only after a timeout, and the flag changes only through a used estimate. Skipping table profiling stops after the table requests with no row count. |
| Orchestrator.Run | hecatoncheir/DbProfilerBase.py:547-604 | An empty schema or table name fails the assertion, with no request and no state change. The configuration never changes. |
| Orchestrator.BackCalls | hecatoncheir/DbProfilerBase.py:581-601 | The requests after the row count lie in the column stages, in order. |
| Orchestrator.RunCallsSplit | hecatoncheir/DbProfilerBase.py:547-604 | A run's requests are those up to the row count followed by the column-stage ones, and its final state is the one after the row count. |
| Orchestrator.TableCallsInOrder | hecatoncheir/DbProfilerBase.py:564-570 | The table requests come in pipeline order. |
| Orchestrator.RunCallsInPipelineOrder | hecatoncheir/DbProfilerBase.py:547-604 | Every run sends its requests in the fixed pipeline order, whatever the answers. |
| Orchestrator.SkipTableProfilingStopsAfterSampleRows | hecatoncheir/DbProfilerBase.py:555-576 | With table profiling skipped, only table requests are sent, and the snapshot has no row count and no statistics. Column profiling is then off for the instance. |
| Orchestrator.StatisticsRowCountOnlyAfterTimeout | hecatoncheir/DbProfilerBase.py:507-515 | The statistics row count is requested exactly when the exact count was requested and timed out. |
| Orchestrator.RunProfilerState | hecatoncheir/DbProfilerBase.py:553-557 | A run sets the timeout and turns column profiling off when it was off, when table profiling is skipped, or when the estimate was used. It never turns it back on. |
| Orchestrator.SkippedColumnProfilingStaysSkipped | hecatoncheir/DbProfilerBase.py:581-585 | With the flag set, a run sends no column request, returns the snapshot without statistics and keeps the flag. |
| Orchestrator.ThresholdSkipsColumnProfiling | hecatoncheir/DbProfilerBase.py:587-593 | A known row count over the threshold stops the run before column profiling. |
| Orchestrator.TimeoutSkipsColumnProfiling | hecatoncheir/DbProfilerBase.py:510-518 | With table profiling and row counting on and usable table answers, a timed-out exact count answered from the statistics is asked for, recorded as the row count, and no column is profiled. The next run of the same instance profiles no column either, whatever it is asked. |
| Orchestrator.FrontAfterTimeout | hecatoncheir/DbProfilerBase.py:502-520 | When the exact count times out and the statistics answer, the statistics count is requested, the estimate becomes the row count and column profiling is switched off. |
| Orchestrator.RunStopsAtGates | hecatoncheir/DbProfilerBase.py:581-593 | A run whose front succeeds but meets a closed gate returns the snapshot as the front left it, as both data and snapshot, with no further request. |
| Orchestrator.FullRunProfilesEveryColumn | hecatoncheir/DbProfilerBase.py:547-604 | With every gate open and every answer usable, the run sends exactly the table, row-count and enabled statistic requests. Every column, in discovery order, then carries its type and every enabled statistic. An unknown row count passes the threshold. |
| Orchestrator.SnapshotKeepsDiscoveryOrder | hecatoncheir/DbProfilerBase.py:538-544 | A successful run's snapshot lists the columns in the order the database reported them, one profile per name. |
| Orchestrator.ColumnCallsEnabled | hecatoncheir/DbProfilerBase.py:595-601 | The column-stage requests are all enabled statistic requests, record validation or post-scan validation. |
| Orchestrator.NoFrequentValueRequestsWhenDisabled | hecatoncheir/DbProfilerBase.py:424 | With no frequent values configured, a run never requests them. |
| Orchestrator.NoFrequentValuesWhenDisabled | hecatoncheir/DbProfilerBase.py:424-436 | With no frequent values configured, no column of the snapshot has any. |
| MyProfiler.Upper | hecatoncheir/mysql/MyProfiler.py:106 | Upper-casing keeps the length and maps every character on its own. |
| MyProfiler.HasMinMaxUnlessBlob | hecatoncheir/mysql/MyProfiler.py:103-109 | A type has no min/max exactly when its name, ignoring case, is one of the four blob types. |
| MyProfiler.BlobHasNoMinMax | hecatoncheir/mysql/MyProfiler.py:106-108 | Example: the mixed-case type name `Blob` upper-cases to `BLOB`, so it has no min/max. |
| MyProfiler.VarcharHasMinMax | hecatoncheir/mysql/MyProfiler.py:106-109 | Example: `varchar` is none of the four blob types, so it has min/max. |
| MyProfiler.PerColumnItems | hecatoncheir/mysql/MyProfiler.py:123-134 | Three items per column. A column without a type is a `KeyError` naming it. |
| MyProfiler.PerColumnItemsAt | hecatoncheir/mysql/MyProfiler.py:123-134 | Column `j`'s items sit at positions `3j` to `3j+2`. |
| MyProfiler.Phase1SelectList | hecatoncheir/mysql/MyProfiler.py:119-134 | `COUNT(*)` first, then for column `j` the null count at `1+3j` and `MIN`/`MAX` at `2+3j`/`3+3j` (two `NULL`s for a blob). It succeeds exactly when every column has a type. |
| MyProfiler.Phase1RowDecodes | hecatoncheir/mysql/MyProfiler.py:135-140 | A row answering the phase-1 select list always has the shape `_query_column_profile` accepts, with one triple per column. |
| MyProfiler.Phase1 | hecatoncheir/mysql/MyProfiler.py:116-140 | An error discovering names or types, building the select list, or running it is returned. It succeeds exactly when the select list builds and the answer is one row that `_query_column_profile` accepts. The result is then the row count in cell 0 and, for column `j`, the null count at `1+3j` and min/max at `2+3j`, `3+3j`. |
| MyProfiler.CachedProfile | hecatoncheir/mysql/MyProfiler.py:116-145 | The database is asked exactly on a cache miss. A hit returns the cached triple unchanged. A successful miss stores its result under (schema, table), decoded from the one-row answer as in phase 1, and a failure changes nothing. |
| MyProfiler.GetRowCount | hecatoncheir/mysql/MyProfiler.py:85-92 | The statistics option is not implemented. Otherwise it returns component 0 of the cached triple, querying only on a miss; a query stores the decoded phase-1 answer. |
| MyProfiler.GetColumnNulls | hecatoncheir/mysql/MyProfiler.py:94-101 | The statistics option is not implemented. Otherwise it returns component 2 of the cached triple, querying only on a miss; a query stores the decoded phase-1 answer. |
| MyProfiler.GetColumnMinMax | hecatoncheir/mysql/MyProfiler.py:111-114 | It returns component 1 of the cached triple, querying only on a miss; a query stores the decoded phase-1 answer. |
| MyProfiler.ReadColumnProfile | hecatoncheir/mysql/MyProfiler.py:85-114 | After a successful row count, the null and min/max reads succeed without a new query. Phase 1 runs at most once, and the three answers are one cached triple, decoded from the database's answer when it was not cached before. |
| MyProfiler.FreqPairs | hecatoncheir/DbProfilerBase.py:315-318 | One `[value, count]` pair per row, in order. It succeeds exactly when every row has two cells and an integer count. Otherwise the first bad row decides: fewer than two cells is an `IndexError`, a non-integer count a `TypeError`. |
| MyProfiler.FreqsFor | hecatoncheir/mysql/MyProfiler.py:157-185 | Its keys are exactly the column names. Each value is the column's own answer, empty for a blob. It succeeds exactly when every column has a type and an answer. |
| MyProfiler.FreqValueMapsShape | hecatoncheir/mysql/MyProfiler.py:147-185 | The most- and least-frequent maps name every column. A blob column has no values, and otherwise the most frequent come from the descending query and the least frequent from the ascending one. |
| MyProfiler.LastCount | hecatoncheir/DbProfilerBase.py:344-346 | The last row's first cell wins, and no rows give no entry. A cell that is not an integer, or an empty row, is an error. |
| MyProfiler.CardinalitiesFor | hecatoncheir/mysql/MyProfiler.py:193-209 | Its keys are exactly the columns whose answer has a row. Each value is that column's count. |
| MyProfiler.CardinalityPerColumn | hecatoncheir/mysql/MyProfiler.py:187-209 | When every count query returns one integer row, the map has exactly one entry per discovered column, holding its count. |
| MyProfiler.RunRecordValidation | hecatoncheir/mysql/MyProfiler.py:211-234 | Without record rules it returns `{}`. A table without columns is an `InternalError`, and a column or cursor error propagates. Otherwise it returns the validator's findings after the validator has seen every record. |
| MyProfiler.GetSchemaNames | hecatoncheir/mysql/MyProfiler.py:27-35 | Exactly the non-system schemas are listed. The system-schema list is not empty, so the shared filter as written gives the same list. |
| OraDriver.Classify | hecatoncheir/oracle/OraDriver.py:89-95 | Internal and driver errors pass through unchanged. Every other error becomes a query error carrying the query. |
| OraDriver.ClassifyIdempotent | hecatoncheir/oracle/OraDriver.py:89-95 | A classified error classifies to itself. |
| OraDriver.ColumnNames | hecatoncheir/oracle/OraDriver.py:76-79 | The first element of every description entry, in order. |
| OraDriver.KeepRows | hecatoncheir/oracle/OraDriver.py:81-87 | Rows are kept in fetch order. It succeeds exactly when there are at most `max_rows + 1` rows (or none); otherwise it is an `InternalError` carrying the query. |
| OraDriver.QueryToResultset | hecatoncheir/oracle/OraDriver.py:54-103 | An empty query fails its assertion. The driver connects only when it has no connection, and a refused connection is a driver error that leaves it unconnected. Once connected, each cause has its own outcome: an execute error and a fetch error are classified, a statement without a description is a query error, more than `max_rows + 1` rows is an `InternalError` carrying the query, and otherwise the result holds the query, the description's column names and the fetched rows. |
| OraDriver.QueryWithDefaultCap | hecatoncheir/oracle/OraDriver.py:54 | With the default `max_rows` of 10000, a result has at most 10001 rows, and every error is internal, driver or a query error carrying the query. |
| OraDriver.ConnectsOnce | hecatoncheir/oracle/OraDriver.py:70-71 | A second query runs on the connection the first one made. |
| OraDriver.Disconnect | hecatoncheir/oracle/OraDriver.py:105-116 | With no connection it returns false and changes nothing. A failed close is a driver error that keeps the connection. Otherwise it drops the connection and returns true. |
| OraDriver.DisconnectTwice | hecatoncheir/oracle/OraDriver.py:105-107 | A second disconnect returns false and changes nothing. |
| OraDriver.ReconnectsAfterDisconnect | hecatoncheir/oracle/OraDriver.py:70-71 | After a disconnection, the next query connects afresh. |

## Left out

- Connecting, `sys.exit` on connection failure, loading `cx_Oracle` and `makedsn` (DbProfilerBase.py:72-85, OraDriver.py:29-50): process and driver plumbing. A refused Oracle connection is a `Server` outcome.
- SQL text and its execution: every query is a function of its shape (`Answers`, `Database`, `Server`).
- Logging, `gettext`, `datetime.now()` (the timestamp is a parameter `now`), and `_s2u`/UTF-8 decoding. Min/max text is an abstract `render` function.
- `makedic` and the internals of `TableMeta`/`TableColumnMeta`: a snapshot is the `TableMeta` record itself, and `Output.data` is the post-scan value.
- `run_postscan_validation` and `DbProfilerValidator` internals: post-scan validation is an opaque function of the snapshot. The MySQL record validator is an opaque `RecordValidator` (whether it has record rules, its per-record check, its findings).
- The `timeout=` keyword that the shared code passes to `q2rs`, which `OraDriver.q2rs` does not accept: the timeout is only recorded in the profiler state.
- `profile_most_freq_values_enabled`, read by the MySQL frequent-value query but defined nowhere: the limit is a parameter.
- Oracle `rollback` in `finally` and `cur.close()`: side effects with no value in the model.
- `_query_record_validation` with `fetch_size` `None` or 0: the model requires a positive fetch size, which every caller passes.
- MyProfiler.Upper: ASCII-only upper-casing, without Unicode case mapping.
- MyProfiler.LastCount: `int()` is modelled only on integer cells. Any other cell is a `TypeError`, not a parse of its text.
- MySQL `get_table_names`, `get_column_names`, `get_sample_rows` and `get_column_datatypes`: their answers are inputs.
- Orchestrator.FullRunProfilesEveryColumn: stated for runs without validation rules, since post-scan validation is opaque.
- `assert isinstance(query, unicode)` in `query_to_resultset` (OraDriver.py:65): strings are `seq<char>`, with no byte/unicode distinction, so the assertion always holds in the model.

## Findings

| source | as written | input that shows it | evidently intended | confidence | as-written member | corrected member |
|---|---|---|---|---|---|---|
| hecatoncheir/DbProfilerBase.py:105 | `row[0] not in ignores if ignores else []` parses as a conditional expression whose else branch is the falsy `[]`, so without an ignore list every schema is dropped | names `["sales"]`, `ignores = None`: nothing is listed | drop only the ignored names; without an ignore list keep every name, as the docstring describes | high, not executed | Queries.SchemaNamesAsWritten (shown by Queries.SchemaFilterDropsAllWithoutIgnores) | Queries.SchemaNames |
