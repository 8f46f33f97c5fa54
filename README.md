# DatabaseUtils, modelled in Dafny

DatabaseUtils is a small Java library on top of JDBC. This project models
its core.

- **Named parameters.** `SQLParameterParser` turns a template such as
  `VALUES (:id, :name)` into `VALUES (?, ?)` and finds the order of the
  keys.
- **The connection handle.** `DBUtilsConnection` opens its connection
  lazily, prepares one statement, and closes the statement before the
  connection.
- **Queries.** `Query` and `AbstractQuery` bind positional parameters,
  run the statement, map the results, and close the handle in `finally`.
- **Batches.** `BatchQuery` chains statements on one connection with
  auto-commit off. It keeps a running row total, rolls back on a fault,
  and commits and then closes in `finally`.
- **The controller.** `SQLDatabaseController` hands out queries and
  batches.
- **Handlers.**
  - `ResultSetHandler` maps a result set the caller hands in.
  - `SQLFileExecutor` hands the non-empty `;`-separated statements of a
    `/sql/` file to one batch and reports whether its update touched a
    row. Which of them the batch executes is stated below.
- **Configuration.**
  - `PropertiesHandler` caches `/config/*.properties` files.
  - `SQLiteDatabaseProperties` is the lazily loaded database name and
    table list.
- **Providers.** `DatabaseConnectionProviderFactory` keeps one connection
  provider per database.
- **The initialiser.** `SQLiteDatabaseInitialiser` is documented to
  verify every table's schema against its SQL file and, on a mismatch,
  to back up the database file and create the tables again with their
  base data. As written it does so only when `mkdirs()` has just created
  the database directory (see "## Findings").

How each part is modelled:

- **Exceptions.** Every Java exception becomes an `Err` of `Result`.
  `Fault` names the exception class.
- **The JDBC driver.** The driver is an oracle (`Jdbc.Driver`). It fixes
  which calls throw `SQLException`, how many rows an update touches, and
  what a query returns.
- **The handle's call log.** The handle logs every driver call it makes,
  so contracts can say which calls happen, in what order.
- **State the library mutates.** Each such object is a class whose
  methods carry `modifies` clauses:
  - the handle;
  - the batch, whose running total is a field and whose commits,
    rollbacks and closes are read off the handle's call log;
  - the static caches and singletons;
  - the initialiser, whose file system is a map from path to length and
    whose inserted statements are logged.
- **Class-path resources.** These are a `Resources` map from path to
  text, with flags for a failing read and a failing close.
- **Java `Map`s.** Where a map's key order matters, its key set is a
  sequence in iteration order.

The source files come from different revisions of the repository.

- `BatchQuery` and `SQLDatabaseController` call a `Query` API that
  `Query.java` does not have:
  - `Query(connection, sql)`;
  - `setSql`;
  - `setParameter`;
  - `prepareStatementWithParameters`;
  - `statement()` on the handle.

  The model gives these the simplest behaviour their callers rely on.
- `prepareStatementWithParameters` prepares the SQL with every key
  replaced by `?`. It then binds the keys' values in the order the keys
  occur.
- `DatabaseConnectionProviderFactory` is modelled with its one-argument
  lookup, as its own file has it.

As written, a batch of `n` statements does not execute them in order.

- `prepareBatchQuery(String...)` starts the batch with `queries[0]` and
  chains only `queries[1]` to `queries[n-2]`.
- `BatchQuery.prepareBatchQuery(sql)` makes `sql` current before it
  executes, so each chaining step executes the statement it is handed,
  not the one before it.
- `executeUpdate()` then executes the current statement once more.
- So the batch executes `queries[1..n-2]` and then `queries[n-2]` again
  (`BatchRunOrder`), or just `queries[0]` when `n <= 2`. `queries[0]` is
  lost when `n >= 3`, and `queries[n-1]` never runs.

The model keeps this behaviour (`PrepareBatchQuery`, `RunBatch`) and
also models the evidently intended order (`PrepareBatchInOrder`,
`RunInOrder`); see "## Findings".

## Model

| member | source | states |
|---|---|---|
| Wrappers.Present | src/main/java/com/majoinen/d/database/AbstractQuery.java:70-81 | A result reported through a nullable return is `Ok(Some(v))` exactly when the call succeeded with `v`, and keeps the fault otherwise. |
| Jdbc.Wrap | src/main/java/com/majoinen/d/database/DBUtilsConnection.java:57-77 | A raw driver call's `SQLException` becomes `DBUtilsException`, a null dereference stays a `NullPointerException`, and a success keeps its value. |
| Jdbc.ResultSet.Current | src/main/java/com/majoinen/d/database/util/ResultSetHandler.java:25 | The mapper sees a row exactly when the cursor is on one, and then it sees the row at that position. |
| Jdbc.ResultSet.Next | src/main/java/com/majoinen/d/database/util/ResultSetHandler.java:40 | `next()` throws on a closed result set or a faulty position without moving. Otherwise it moves one row on and reports whether the cursor is on a row. |
| Jdbc.ResultSet.Close | src/main/java/com/majoinen/d/database/util/ResultSetHandler.java:51-58 | Closing a closed result set succeeds. A failing close leaves it open. A normal close closes it. |
| Jdbc.Prepend | src/main/java/com/majoinen/d/database/util/ResultSetHandler.java:40-41 | The list built so far is prefixed to the rest of the rows, or discarded when a later row fails. |
| Jdbc.DrainMapsEveryRow | src/main/java/com/majoinen/d/database/util/ResultSetHandler.java:40-41 | With no cursor or mapper fault, the `while (next()) add(map())` loop yields exactly one mapped element per remaining row, in cursor order. |
| Jdbc.DrainFailsOnCursorFault | src/main/java/com/majoinen/d/database/util/ResultSetHandler.java:40-44 | A `next()` fault at any remaining position makes the whole mapping fail; no partial list escapes. |
| ParameterParser.RemoveParameterKeys | src/main/java/com/majoinen/d/database/util/SQLParameterParser.java:18-23 | Every key is replaced in iteration order. No key is left in the result, and an empty map leaves the SQL unchanged. |
| ParameterParser.ReplaceAllShrinks | src/main/java/com/majoinen/d/database/util/SQLParameterParser.java:21 | Replacing a key by `?` never lengthens the SQL. |
| ParameterParser.UnchangedPrefix | src/main/java/com/majoinen/d/database/util/SQLParameterParser.java:21 | A `?`-free prefix of the replaced SQL was copied unchanged from the original. |
| ParameterParser.ReplaceAllLeavesNoKey | src/main/java/com/majoinen/d/database/util/SQLParameterParser.java:20-21 | After `replaceAll(k, "?")`, `k` no longer occurs, and a `?`-free key that did not occur before does not occur afterwards. |
| ParameterParser.IndexOf | src/main/java/com/majoinen/d/database/util/SQLParameterParser.java:37 | `indexOf(k, from)` is the first occurrence at or after `from`, or -1 when there is none. |
| ParameterParser.ScanPicksEarliest | src/main/java/com/majoinen/d/database/util/SQLParameterParser.java:33-43 | One pass over the keys finds nothing exactly when no key has an accepted index (above 0). Otherwise it finds a key of the map at the smallest accepted index. |
| ParameterParser.ScanTieGoesToFirst | src/main/java/com/majoinen/d/database/util/SQLParameterParser.java:38-42 | On a tie, the key met first in iteration order wins, because the comparison is a strict `<`. |
| ParameterParser.MatchesAreOrderedOccurrences | src/main/java/com/majoinen/d/database/util/SQLParameterParser.java:29-52 | Every reported key is a real occurrence of a map key above offset 0. The offsets strictly increase, so the loop ends. |
| ParameterParser.ScanReachesOccurrence | src/main/java/com/majoinen/d/database/util/SQLParameterParser.java:33-43 | A pass that can see an occurrence of a key above offset 0 finds some key, at that offset or before it. |
| ParameterParser.MatchesAreComplete | src/main/java/com/majoinen/d/database/util/SQLParameterParser.java:29-52 | Completeness: every offset above 0, at or after `from`, where a key occurs is reported. Searching from 0 needs that key not to occur at offset 0, where `indexOf` would answer 0. |
| ParameterParser.MatchesAreTheKeyOffsets | src/main/java/com/majoinen/d/database/util/SQLParameterParser.java:25-54 | When no key occurs at offset 0, the reported offsets are exactly the offsets where a key of the map occurs, each once, so the list has one key per such offset. |
| ParameterParser.KeysOfStep | src/main/java/com/majoinen/d/database/util/SQLParameterParser.java:44-51 | A round that finds a key adds it and restarts one past its index. A round that finds none ends the list. |
| ParameterParser.ReportedKeysComeFromTheMap | src/main/java/com/majoinen/d/database/util/SQLParameterParser.java:26-54 | Every reported key is a map key. An empty map reports nothing. There are no more keys than characters. |
| ParameterParser.NextKey | src/main/java/com/majoinen/d/database/util/SQLParameterParser.java:33-43 | The inner loop over the keys computes exactly one scan pass. |
| ParameterParser.GetParameterKeys | src/main/java/com/majoinen/d/database/util/SQLParameterParser.java:26-54 | The outer loop returns the keys in the order the scans find them (`KeysOf(Matches(sql, keys, 0))`). They are map keys, none for an empty map, and at most one per character. When no key occurs at offset 0, there is exactly one key per offset where some key occurs. |
| ParameterParserExamples.ReplaceAllSkips | src/main/java/com/majoinen/d/database/util/SQLParameterParser.java:21 | Text without the key's first character passes through `replaceAll` unchanged. |
| ParameterParserExamples.IndexOfSkips | src/main/java/com/majoinen/d/database/util/SQLParameterParser.java:37 | `indexOf` skips over text without the key's first character. |
| ParameterParserExamples.RemoveTwo | src/main/java/com/majoinen/d/database/util/SQLParameterParser.java:20-21 | A two-key map replaces its first key, then its second. |
| ParameterParserExamples.RemoveKeysAfter | src/main/java/com/majoinen/d/database/util/SQLParameterParser.java:18-23 | Any colon-free text followed by `:id, :name)` becomes the same text followed by `?, ?)`, in both iteration orders. |
| ParameterParserExamples.RemoveKeysOfTemplate | src/test/java/com/majoinen/d/database/util/SQLParameterParserTest.java:30-37 | The test's template becomes `... VALUES (?, ?)` in both iteration orders of its map. |
| ParameterParserExamples.ScansAfter | src/main/java/com/majoinen/d/database/util/SQLParameterParser.java:33-43 | On the template, the three passes find `:id`, then `:name`, then nothing. |
| ParameterParserExamples.KeysAfter | src/main/java/com/majoinen/d/database/util/SQLParameterParser.java:26-54 | With any colon-free, non-empty text before the keys, they are reported in the order they occur, whatever the map's order. |
| ParameterParserExamples.KeysOfTemplate | src/test/java/com/majoinen/d/database/util/SQLParameterParserTest.java:39-46 | The test's template reports `[":id", ":name"]` in both iteration orders. |
| ParameterParserExamples.LeadingKeyIsNotReported | src/main/java/com/majoinen/d/database/util/SQLParameterParser.java:38 | The `index > 0` guard drops a key at offset 0. A statement that starts with its only key reports no keys, even where the key occurs again. |
| ParameterParserExamples.OverlappingKeyIsReportedTwice | src/main/java/com/majoinen/d/database/util/SQLParameterParser.java:18-54 | In `xaaa` the key `aa` is reported twice, but `replaceAll` leaves one `?` (`x?a`): overlapping occurrences break the one-key-per-`?` pairing. |
| Connection.CloseCalls | src/main/java/com/majoinen/d/database/DBUtilsConnection.java:145-184 | `close()` closes a live statement first and a live connection last. A failing statement close stops before the connection. Nothing live means no calls. |
| Connection.UpdateAttempt | src/main/java/com/majoinen/d/database/DBUtilsConnection.java:57-63 | An update on a null statement dereferences null. It throws exactly for a closed statement or a driver fault, and otherwise returns the SQL's row count. |
| Connection.DBUtilsConnection.constructor | src/main/java/com/majoinen/d/database/DBUtilsConnection.java:28-30 | A new handle has no connection, no statement and no calls. |
| Connection.DBUtilsConnection.OpenConnection | src/main/java/com/majoinen/d/database/DBUtilsConnection.java:129-136 | A live connection is reused without a call. Otherwise the provider is asked once, and its fault becomes `DBUtilsException`. |
| Connection.DBUtilsConnection.DisableAutoCommit | src/main/java/com/majoinen/d/database/DBUtilsConnection.java:89-99 | Opens if needed, then turns auto-commit off. It returns true exactly when neither call faults. The calls are the open, if needed, then `setAutoCommit(false)` unless the open failed. On failure the connection is the one opening left. |
| Connection.DBUtilsConnection.PrepareStatement | src/main/java/com/majoinen/d/database/DBUtilsConnection.java:109-121 | Null or empty SQL is refused before anything is opened. Otherwise it opens if needed and prepares a fresh, unbound statement. |
| Connection.DBUtilsConnection.CloseStatement | src/main/java/com/majoinen/d/database/DBUtilsConnection.java:157-166 | A null or closed statement is left alone. Otherwise it is closed, or its fault becomes `DBUtilsException`. |
| Connection.DBUtilsConnection.CloseConnection | src/main/java/com/majoinen/d/database/DBUtilsConnection.java:175-184 | A null or closed connection is left alone. Otherwise it is closed, or its fault becomes `DBUtilsException`. |
| Connection.DBUtilsConnection.Close | src/main/java/com/majoinen/d/database/DBUtilsConnection.java:145-148 | The calls made are exactly `CloseCalls`, and it succeeds exactly when `CloseSucceeds`. A failing statement close changes nothing. Otherwise a live statement ends closed, and a live connection ends closed unless its close fails, in which case it stays open for reuse. |
| Connection.DBUtilsConnection.StatementExecuteUpdate | src/main/java/com/majoinen/d/database/DBUtilsConnection.java:46-48 | The raw update on the current statement, as `UpdateAttempt` gives it. |
| Connection.DBUtilsConnection.StatementExecuteQuery | src/main/java/com/majoinen/d/database/DBUtilsConnection.java:46-48 | The raw query gives a fresh result set over the table of the statement's SQL, unless it is refused. |
| Connection.DBUtilsConnection.StatementSetObject | src/main/java/com/majoinen/d/database/DBUtilsConnection.java:46-48 | The raw bind records the value at its index on a live statement without a fault, and fails otherwise. |
| Connection.DBUtilsConnection.ExecuteUpdate | src/main/java/com/majoinen/d/database/DBUtilsConnection.java:57-63 | The statement's update, with a driver fault wrapped as `DBUtilsException`. |
| Connection.DBUtilsConnection.ExecuteQuery | src/main/java/com/majoinen/d/database/DBUtilsConnection.java:71-77 | The statement's query, with a driver fault wrapped as `DBUtilsException`. |
| Connection.DBUtilsConnection.SetObject | src/main/java/com/majoinen/d/database/DBUtilsConnection.java:194-201 | Binds one value, with a fault wrapped as `DBUtilsException`. |
| Connection.DBUtilsConnection.Commit | src/main/java/com/majoinen/d/database/DBUtilsConnection.java:209-216 | Commits the connection. A null connection is dereferenced, and a fault becomes `DBUtilsException`. |
| Connection.DBUtilsConnection.Rollback | src/main/java/com/majoinen/d/database/DBUtilsConnection.java:224-231 | Rolls back the connection. A null connection is dereferenced, and a fault becomes `DBUtilsException`. |
| Connection.CloseTwice | src/main/java/com/majoinen/d/database/DBUtilsConnection.java:157-184 | After a successful `close()`, a second one makes no driver call and returns true. |
| Queries.BindAllPlacesEachParameter | src/main/java/com/majoinen/d/database/Query.java:58-67 | Binding puts the i-th parameter at index i+1, keeps every other binding, and adds nothing else. |
| Queries.SetCalls | src/main/java/com/majoinen/d/database/Query.java:61-63 | One `setObject` call per parameter, in order, from index 1. |
| Queries.AcceptedFrom | src/main/java/com/majoinen/d/database/Query.java:61-66 | Counts the parameters the driver accepts before the first refusal, which is where the loop stops. |
| Queries.Accepted | src/main/java/com/majoinen/d/database/Query.java:61-66 | All parameters are accepted exactly when the statement is open and no bind faults. |
| Queries.ParameterValues | src/main/java/com/majoinen/d/database/BatchQuery.java:66 | One value per key, in key order: the key's value from the map. |
| Queries.BindsEachOccurrence | src/main/java/com/majoinen/d/database/BatchQuery.java:66 | When `prepareStatementWithParameters` returns, the statement holds the template with every key replaced by `?`, the i-th key found in the template has its value at index i+1, and nothing else is bound. |
| Queries.Query.constructor | src/main/java/com/majoinen/d/database/Query.java:17-19 | A new query on a handle has no SQL and no parameters. |
| Queries.Query.WithSql | src/main/java/com/majoinen/d/database/BatchQuery.java:16-18 | `Query(connection, sql)` holds the SQL, with no parameters. |
| Queries.Query.SetSql | src/main/java/com/majoinen/d/database/BatchQuery.java:65 | Replaces the SQL and keeps the parameters. |
| Queries.Query.SetParameter | src/main/java/com/majoinen/d/database/BatchQuery.java:33-36 | Maps the key to the value. A new key is added at the end of the iteration order. |
| Queries.Query.PrepareStatementWithParameters | src/main/java/com/majoinen/d/database/BatchQuery.java:66 | Prepares the SQL with every key replaced by `?`, then binds the key values in order of occurrence. Failure is `DBUtilsException`. |
| Queries.Query.PrepareTemplate | src/main/java/com/majoinen/d/database/BatchQuery.java:66 | On a non-null template: the same calls, connection, statement and outcome as `prepareStatementWithParameters`. |
| Queries.Query.BindTemplate | src/main/java/com/majoinen/d/database/BatchQuery.java:66 | Once the `?` text is prepared, binds the values of the keys in the order `getParameterKeys` finds them, up to the first refusal, and fails exactly when one is refused. |
| Queries.Query.SetParameters | src/main/java/com/majoinen/d/database/Query.java:58-67 | Binds each parameter at its 1-based index, stopping at the first fault with `DBUtilsException`. The bindings and calls made are exactly those of the accepted prefix. |
| Queries.Query.AddParameters | src/main/java/com/majoinen/d/database/Query.java:30-33 | `setParameters`, then returns this query. With no parameters nothing changes. With a null statement it throws `NullPointerException` and changes nothing. Otherwise the statement holds exactly the bindings, and the log the calls, of the accepted prefix on every path, and a failure is `DBUtilsException`. |
| Queries.Query.AddParameterList | src/main/java/com/majoinen/d/database/Query.java:44-47 | Behaves exactly as the varargs form on the list's elements, on success and failure alike. |
| AbstractQuery.AsInsert | src/main/java/com/majoinen/d/database/AbstractQuery.java:38-46 | An update's `SQLException` becomes `InsertException`. |
| AbstractQuery.ExecuteUpdate | src/main/java/com/majoinen/d/database/AbstractQuery.java:38-46 | Runs the update and then always closes. A failing close replaces the outcome. |
| AbstractQuery.ExecuteAndMap | src/main/java/com/majoinen/d/database/AbstractQuery.java:54-81 | A query fault escapes before `try`, without closing. Otherwise it maps the initial cursor, or gives null for a closed result set, and then closes. |
| AbstractQuery.ExecuteAndMapAll | src/main/java/com/majoinen/d/database/AbstractQuery.java:92-107 | Maps every row in order (`Drain`), or gives null for a closed result set, and then closes. A query fault escapes without closing. |
| ResultSetHandler.CloseResultSet | src/main/java/com/majoinen/d/database/util/ResultSetHandler.java:51-58 | Closes the result set. A null one is dereferenced, and a fault becomes `DBUtilsException`. |
| ResultSetHandler.Handle | src/main/java/com/majoinen/d/database/util/ResultSetHandler.java:20-32 | Null for a closed result set; otherwise the row under the cursor, mapped. It always closes, and a failing close replaces the outcome. |
| ResultSetHandler.HandleAll | src/main/java/com/majoinen/d/database/util/ResultSetHandler.java:34-49 | The empty list for a closed result set; otherwise every remaining row, mapped in order. It always closes, and a failing close replaces the outcome. |
| BatchQueries.BatchNeverCommits | src/main/java/com/majoinen/d/database/BatchQuery.java:63-76 | On the call log, a chaining step never commits. It rolls back exactly when its try block failed with a connection there. It closes only after a rollback that returned. It executes its own statement once, when that got as far as the update. |
| BatchQueries.UpdateCommitsOnce | src/main/java/com/majoinen/d/database/BatchQuery.java:86-99 | On the call log, `executeUpdate` commits exactly once whenever it has a connection. A rollback comes first exactly when prepare or execute failed. |
| BatchQueries.UpdateClosesAfterCommit | src/main/java/com/majoinen/d/database/BatchQuery.java:95-98 | `executeUpdate` closes the statement and connection only after a commit that returned. |
| BatchQueries.UpdateEndsWithCommit | src/main/java/com/majoinen/d/database/BatchQuery.java:95-98 | Once there is a connection, the log of `executeUpdate` ends with the commit followed by those closes. |
| BatchQueries.UpdateExecutesOnce | src/main/java/com/majoinen/d/database/BatchQuery.java:88-90 | `executeUpdate` executes its own statement once, when it was prepared and bound, and executes nothing else. |
| BatchQueries.UpdateResultCases | src/main/java/com/majoinen/d/database/BatchQuery.java:86-99 | `executeUpdate` returns only when the update ran, and then returns the total plus that statement's rows. Otherwise it throws `DBUtilsException` or `NullPointerException`. |
| BatchQueries.BatchQuery.New | src/main/java/com/majoinen/d/database/BatchQuery.java:16-20 | The constructor holds the SQL and turns auto-commit off. It fails exactly when opening or switching faults. On every path the log grows by the open, if needed, and `setAutoCommit(false)` unless the open failed, and by nothing else. On failure the connection is the one opening left. |
| BatchQueries.BatchQuery.SetParameter | src/main/java/com/majoinen/d/database/BatchQuery.java:32-36 | Sets the parameter on the query and returns this batch. |
| BatchQueries.BatchQuery.SetEncryptedParameter | src/main/java/com/majoinen/d/database/BatchQuery.java:48-52 | Sets the parameter to the encrypted value and returns this batch. |
| BatchQueries.BatchQuery.Attempt | src/main/java/com/majoinen/d/database/BatchQuery.java:66-67 | Appends `AttemptCalls` to the handle's log: prepare with parameters, then execute. It gives the row count exactly when both return. |
| BatchQueries.BatchQuery.Recover | src/main/java/com/majoinen/d/database/BatchQuery.java:69-73 | Appends `RecoveryCalls` to the handle's log: the rollback and, when that returned, the closes. It fails with the rollback's exception, or else with `DBUtilsException`. |
| BatchQueries.BatchQuery.PrepareBatchQuery | src/main/java/com/majoinen/d/database/BatchQuery.java:63-76 | Makes `sql` current before executing, so the step executes `sql` itself, then prepares it again. The log grows by `BatchCalls`. It succeeds exactly when `BatchReturns`, and the total grows by `sql`'s rows exactly when it executed. |
| BatchQueries.BatchQuery.PrepareNextQuery | src/main/java/com/majoinen/d/database/BatchQuery.java:54-62 | As documented: executes the current SQL, adds its rows, then makes `sql` current and prepares it, with the same log, outcome and recovery. |
| BatchQueries.BatchQuery.Advance | src/main/java/com/majoinen/d/database/BatchQuery.java:68-73 | Makes `next` current and prepares it. A failure goes to the catch block, which rolls back and closes. |
| BatchQueries.BatchQuery.Chain | src/main/java/com/majoinen/d/database/BatchQuery.java:66-73 | Executes the current SQL, adds its rows, then moves on to `next`. On a fault it rolls back and closes, and the log grows by `BatchCalls`. |
| BatchQueries.BatchQuery.CommitAndClose | src/main/java/com/majoinen/d/database/BatchQuery.java:95-98 | Appends `FinishCalls` to the log: commit, then close, where a commit exception skips the close. Success leaves nothing live. |
| BatchQueries.BatchQuery.Undo | src/main/java/com/majoinen/d/database/BatchQuery.java:91-94 | Rolls back and fails, with the rollback's exception or `DBUtilsException`. The connection and statement stay as they were. |
| BatchQueries.BatchQuery.ExecuteUpdate | src/main/java/com/majoinen/d/database/BatchQuery.java:86-99 | The log grows by `UpdateCalls` and the result is `UpdateResult`: the lemmas above state its commit, rollback, close and row guarantees. Success leaves nothing live. |
| BatchQueries.ChainedTotal | src/test/java/com/majoinen/d/database/BatchQueryTest.java:64-73 | One chained statement and a final one, each touching one row, total 2. |
| DatabaseControllers.ChainedQueries | src/main/java/com/majoinen/d/database/SQLDatabaseController.java:86-87 | The loop chains elements 1 to n-2 in order, and nothing when n <= 2. |
| DatabaseControllers.BatchRunOrder | src/main/java/com/majoinen/d/database/SQLDatabaseController.java:85-87 | The statements a batch executes when nothing fails: n-1 of them for n >= 3 (the chained ones, then the last chained again), or one for n <= 2. All are present when the queries are. |
| DatabaseControllers.LastQueryNeverRuns | src/main/java/com/majoinen/d/database/SQLDatabaseController.java:86 | The last of two or more statements never runs, unless it repeats an earlier one. |
| DatabaseControllers.ThreeStatementsRunAsTwo | src/main/java/com/majoinen/d/database/BatchQuery.java:65-67 | The statements `a; b; c` run as `b; b`. |
| DatabaseControllers.FirstStatementRowsAreLost | src/main/java/com/majoinen/d/database/SQLDatabaseController.java:85-87 | When only the first of three statements touches a row, the batch reports 0 rows; run in order they touch 1. |
| DatabaseControllers.NoFaultsStepReturns | src/main/java/com/majoinen/d/database/BatchQuery.java:64-68 | With a driver that throws nothing, a chaining step on non-empty SQL returns. |
| DatabaseControllers.NoFaultsUpdateReturns | src/main/java/com/majoinen/d/database/BatchQuery.java:88-99 | With a driver that throws nothing, `executeUpdate` on non-empty SQL returns. |
| DatabaseControllers.StepLog | src/main/java/com/majoinen/d/database/BatchQuery.java:63-76 | A step that returned adds its statement, once, to the executed list, and adds no commit, rollback or close. |
| DatabaseControllers.Start | src/main/java/com/majoinen/d/database/SQLDatabaseController.java:82-85 | A batch on a new handle has executed nothing and made no transaction or close call. It fails only with `DBUtilsException` or `NullPointerException`, and never with a driver that throws nothing. |
| DatabaseControllers.ChainStep | src/main/java/com/majoinen/d/database/SQLDatabaseController.java:86-87 | One turn of the loop executes the current statement's successor as handed over: on success the executed list gains `q`, and `q` is current. With a driver that throws nothing and non-empty `q`, it succeeds. |
| DatabaseControllers.NextStep | src/main/java/com/majoinen/d/database/BatchQuery.java:54-62 | One turn of the intended loop executes the current statement: the executed list gains it, and `q` becomes current. |
| DatabaseControllers.Finish | src/main/java/com/majoinen/d/database/BatchQuery.java:86-99 | `executeUpdate` on a chained batch returns the rows of the executed statements plus those of the current one. |
| DatabaseControllers.SQLDatabaseController.constructor | src/main/java/com/majoinen/d/database/SQLDatabaseController.java:21-32 | The getters return the two constructor arguments. |
| DatabaseControllers.SQLDatabaseController.PrepareQuery | src/main/java/com/majoinen/d/database/SQLDatabaseController.java:44-49 | A query holding the SQL on a fresh, unopened handle. |
| DatabaseControllers.SQLDatabaseController.PrepareBatchQuery | src/main/java/com/majoinen/d/database/SQLDatabaseController.java:78-89 | An empty array is out of bounds. Otherwise the batch has executed exactly `ChainedQueries(queries)`, in order, with their rows counted and nothing committed, and its SQL is `queries[0]` or `queries[n-2]`. A driver that throws nothing never makes it fail. |
| DatabaseControllers.SQLDatabaseController.PrepareBatchQueryList | src/main/java/com/majoinen/d/database/SQLDatabaseController.java:61-66 | The same as the array form on the list's elements. |
| DatabaseControllers.SQLDatabaseController.RunBatch | src/main/java/com/majoinen/d/database/SQLDatabaseController.java:78-89 | `prepareBatchQuery(queries).executeUpdate()`: an empty array is out of bounds; a driver that throws nothing never makes it fail; a result is the rows of `BatchRunOrder(queries)`. |
| DatabaseControllers.SQLDatabaseController.PrepareBatchInOrder | src/main/java/com/majoinen/d/database/SQLDatabaseController.java:78-89 | Intended: the batch has executed every query but the last, in order, and holds the last as its SQL. |
| DatabaseControllers.SQLDatabaseController.RunInOrder | src/main/java/com/majoinen/d/database/SQLDatabaseController.java:78-89 | Intended: a result is the rows of all the queries, in order, with the same error cases as `RunBatch`. |
| JavaText.Fields | src/main/java/com/majoinen/d/database/util/SQLFileExecutor.java:72 | Splitting always gives at least one field. |
| JavaText.JoinFields | src/main/java/com/majoinen/d/database/util/SQLFileExecutor.java:72 | Joining the fields with the delimiter gives back the text. |
| JavaText.FieldsAvoidDelimiter | src/main/java/com/majoinen/d/database/util/SQLFileExecutor.java:72 | No field contains the delimiter. |
| JavaText.DropTrailingEmpty | src/main/java/com/majoinen/d/database/util/SQLFileExecutor.java:72 | `split` drops exactly the trailing empty strings and keeps the prefix. |
| JavaText.NonEmpty | src/main/java/com/majoinen/d/database/util/SQLFileExecutor.java:74-77 | The filter keeps exactly the non-empty fields. |
| JavaText.NonEmptyAppend | src/main/java/com/majoinen/d/database/util/SQLFileExecutor.java:74-77 | The filter distributes over concatenation, keeping order. |
| JavaText.SplitNonEmpty | src/main/java/com/majoinen/d/database/util/SQLFileExecutor.java:72-77 | Filtering `split`'s output gives the same statements as filtering all the fields. |
| SQLFileExecutors.SqlPath | src/main/java/com/majoinen/d/database/util/SQLFileExecutor.java:104-106 | The path is `/sql/` + name + `.sql`. |
| SQLFileExecutors.SQLFileContents | src/main/java/com/majoinen/d/database/util/SQLFileExecutor.java:102-131 | Gives the text exactly for a present, non-empty file that closes. A required missing or empty file throws `NullPointerException` with its message. An optional one gives null. A close error gives `DBUtilsException`. |
| SQLFileExecutors.SQLFileExecutor.ValidQueries | src/main/java/com/majoinen/d/database/util/SQLFileExecutor.java:73-77 | The loop keeps exactly the non-empty fragments, in order. |
| SQLFileExecutors.SQLFileExecutor.ExecuteFile | src/main/java/com/majoinen/d/database/util/SQLFileExecutor.java:68-89 | A read failure passes through. No file, or no non-empty statement, gives false without a batch. Otherwise the result is true exactly when the statements the batch executes (`BatchRunOrder`) touch a row. It fails only with `DBUtilsException` or `NullPointerException`, and never with a driver that throws nothing. |
| SQLFileExecutors.SQLFileExecutor.ExecuteOptionalFile | src/main/java/com/majoinen/d/database/util/SQLFileExecutor.java:49-51 | `executeFile` for an optional file, with every case of `ExecuteFile`: a missing file gives false, and a failure is `DBUtilsException` or `NullPointerException`. |
| SQLFileExecutors.SQLFileExecutor.ExecuteRequiredFile | src/main/java/com/majoinen/d/database/util/SQLFileExecutor.java:53-56 | `executeFile` for a required file: a missing one throws `NullPointerException("resources/sql/<name>.sql is missing")` and an empty one `"... is empty"`. |
| SQLFileExecutors.ExecutorRegistry.GetInstance | src/main/java/com/majoinen/d/database/util/SQLFileExecutor.java:38-47 | Returns the stored executor for a known controller. Otherwise it stores a new one under that controller. |
| SQLFileExecutors.GetInstanceTwice | src/main/java/com/majoinen/d/database/util/SQLFileExecutor.java:38-47 | Two requests for one controller give the same executor. |
| PropertiesHandlers.ConfigPath | src/main/java/com/majoinen/d/database/util/PropertiesHandler.java:45-46 | The path is `/config/` + name + `.properties`. |
| PropertiesHandlers.LoadProperties | src/main/java/com/majoinen/d/database/util/PropertiesHandler.java:44-59 | Loads exactly when the file exists and reads and closes cleanly. A missing file is `ConfigFileNotFoundException`; any I/O error is `DBUtilsException`. |
| PropertiesHandlers.PropertiesCache.GetDatabaseProperties | src/main/java/com/majoinen/d/database/util/PropertiesHandler.java:37-63 | A cached file is served without reading. Otherwise the map is created on first use and the load is cached only when it succeeds. |
| PropertiesHandlers.PropertiesCache.GetProperty | src/main/java/com/majoinen/d/database/util/PropertiesHandler.java:65-69 | The key's value, or null. It succeeds exactly when the file ends up cached. |
| PropertiesHandlers.PropertiesCache.GetRequiredProperty | src/main/java/com/majoinen/d/database/util/PropertiesHandler.java:71-81 | A non-empty value; a missing key and an empty value each throw `NullPointerException` with their own message. |
| PropertiesHandlers.PropertiesCache.SetProperty | src/main/java/com/majoinen/d/database/util/PropertiesHandler.java:83-87 | Updates the cached properties object in place. |
| PropertiesHandlers.SetThenGet | src/main/java/com/majoinen/d/database/util/PropertiesHandler.java:65-87 | After a successful `setProperty`, `getProperty` gives the new value whatever the resources say. |
| PropertiesHandlers.GetPropertyTwice | src/main/java/com/majoinen/d/database/util/PropertiesHandler.java:37-69 | Once loaded, a second lookup gives the same answer even if the file has changed. |
| SQLiteProperties.Lookup | src/main/java/com/majoinen/d/database/sqlite/SQLiteDatabaseProperties.java:85 | `getProperty` gives the value exactly for a present key. |
| SQLiteProperties.TableNames | src/main/java/com/majoinen/d/database/sqlite/SQLiteDatabaseProperties.java:86-87 | The table list is `tableNames` split by `delimiter`. Either key being absent is a null dereference. |
| SQLiteProperties.Load | src/main/java/com/majoinen/d/database/sqlite/SQLiteDatabaseProperties.java:79-94 | A missing file gives `FileNotFoundException` and a failing read `IOException`, with the fields as they were. Otherwise the name is set from the file. A list that cannot be split throws and keeps the old list. Otherwise the list is set, and a failing close gives `IOException`. |
| SQLiteProperties.DatabaseNameLoading | src/main/java/com/majoinen/d/database/sqlite/SQLiteDatabaseProperties.java:51-56 | A loaded name is returned without reading. Otherwise a returned name is the one in the file, which may be null, and the list is loaded with it. A failure is `FileNotFoundException`, `IOException` or `NullPointerException`. |
| SQLiteProperties.TableNamesLoading | src/main/java/com/majoinen/d/database/sqlite/SQLiteDatabaseProperties.java:65-70 | A loaded list is returned without reading. Otherwise the list returned is the split of the file's `tableNames`. A returned list stays loaded. A failure is `FileNotFoundException`, `IOException` or `NullPointerException`. |
| SQLiteProperties.SQLiteDatabaseProperties.GetProperties | src/main/java/com/majoinen/d/database/sqlite/SQLiteDatabaseProperties.java:79-94 | The outcome and the fields afterwards are exactly `Load` of the fields before. |
| SQLiteProperties.SQLiteDatabaseProperties.GetDatabaseName | src/main/java/com/majoinen/d/database/sqlite/SQLiteDatabaseProperties.java:51-56 | The result and the fields afterwards are exactly `DatabaseNameLoading` of the fields before. |
| SQLiteProperties.SQLiteDatabaseProperties.GetTableNames | src/main/java/com/majoinen/d/database/sqlite/SQLiteDatabaseProperties.java:65-70 | The result and the fields afterwards are exactly `TableNamesLoading` of the fields before. |
| SQLiteProperties.PropertiesRegistry.GetInstance | src/main/java/com/majoinen/d/database/sqlite/SQLiteDatabaseProperties.java:36-41 | The one instance, created on first use, with its caller overwritten and what it loaded kept. |
| SQLiteProperties.GetInstanceTwice | src/main/java/com/majoinen/d/database/sqlite/SQLiteDatabaseProperties.java:36-41 | Two callers get the same object, which loads through the second. |
| SQLiteProperties.TableNamesAreLoadedOnce | src/main/java/com/majoinen/d/database/sqlite/SQLiteDatabaseProperties.java:65-70 | Once loaded, the table list comes back the same through any caller. |
| ConnectionProviders.ProviderRegistry.GetConnectionProvider | src/main/java/com/majoinen/d/database/DatabaseConnectionProviderFactory.java:19-35 | A known name returns its stored provider without a lookup. `SQLITE` creates and stores a provider for the name. A failing or null type lookup stores nothing. |
| ConnectionProviders.GetConnectionProviderTwice | src/main/java/com/majoinen/d/database/DatabaseConnectionProviderFactory.java:21-24 | A second request for a name returns the first provider, whatever the type lookup now says. |
| SQLiteInitialisers.DatabaseFile | src/main/java/com/majoinen/d/database/sqlite/SQLiteDatabaseInitialiser.java:229-233 | The database file is `sqlite/` + name + `.db`. |
| SQLiteInitialisers.BackupFile | src/main/java/com/majoinen/d/database/sqlite/SQLiteDatabaseInitialiser.java:213-220 | The backup file is `sqlite/` + name + `-` + timestamp + `.bak`. |
| SQLiteInitialisers.BackupIsNotADatabase | src/main/java/com/majoinen/d/database/sqlite/SQLiteDatabaseInitialiser.java:213-233 | A backup name never equals a database file name. |
| SQLiteInitialisers.BackupNamesDiffer | src/main/java/com/majoinen/d/database/sqlite/SQLiteDatabaseInitialiser.java:213-220 | Backups of one database taken at different times get different names. |
| SQLiteInitialisers.TableVerified | src/main/java/com/majoinen/d/database/sqlite/SQLiteDatabaseInitialiser.java:122-137 | A table passes exactly when its stored schema is non-null and equals its SQL file. A missing file is dereferenced, and I/O errors throw `IOException`. |
| SQLiteInitialisers.VerifyTablesAllPass | src/main/java/com/majoinen/d/database/sqlite/SQLiteDatabaseInitialiser.java:96-108 | The database verifies exactly when every table does. |
| SQLiteInitialisers.VerifyTablesFirstFailure | src/main/java/com/majoinen/d/database/sqlite/SQLiteDatabaseInitialiser.java:99-105 | The first table that does not pass decides the outcome; later tables are never checked. |
| SQLiteInitialisers.InitTableCases | src/main/java/com/majoinen/d/database/sqlite/SQLiteDatabaseInitialiser.java:168-184 | A missing file is `InsertFailedException` and a failing read `IOException`, before any insert. Otherwise every `;`-fragment is inserted in order. It returns normally exactly when the file is readable. |
| SQLiteInitialisers.TableEffect | src/main/java/com/majoinen/d/database/sqlite/SQLiteDatabaseInitialiser.java:151-154 | One table returns normally exactly when both its SQL file and its `-insert` file are readable. |
| SQLiteInitialisers.InitTablesStep | src/main/java/com/majoinen/d/database/sqlite/SQLiteDatabaseInitialiser.java:150-155 | One iteration runs the table's file, then its `-insert` file, and stops at the first exception. |
| SQLiteInitialisers.InitTablesSucceed | src/main/java/com/majoinen/d/database/sqlite/SQLiteDatabaseInitialiser.java:146-156 | Initialising succeeds exactly when every table has a readable SQL file and a readable `-insert` file. |
| SQLiteInitialisers.Length | src/main/java/com/majoinen/d/database/sqlite/SQLiteDatabaseInitialiser.java:195 | `File.length` is positive only for an existing file. |
| SQLiteInitialisers.Renamed | src/main/java/com/majoinen/d/database/sqlite/SQLiteDatabaseInitialiser.java:196 | A rename moves the file with its contents and leaves every other file alone. |
| SQLiteInitialisers.BackedUp | src/main/java/com/majoinen/d/database/sqlite/SQLiteDatabaseInitialiser.java:192-203 | An empty or absent database file is left alone. A non-empty one moves to its backup name. |
| SQLiteInitialisers.Named | src/main/java/com/majoinen/d/database/sqlite/SQLiteDatabaseInitialiser.java:229-233 | A database name dereferenced: a null one throws `NullPointerException`, and a failed load keeps its exception. |
| SQLiteInitialisers.VerifiedDatabaseIsKept | src/main/java/com/majoinen/d/database/sqlite/SQLiteDatabaseInitialiser.java:81-84 | A database that verifies, or whose check throws, is left alone: nothing is backed up or inserted, and the step succeeds exactly when verification gave true. |
| SQLiteInitialisers.RebuildBacksUpFirst | src/main/java/com/majoinen/d/database/sqlite/SQLiteDatabaseInitialiser.java:81-83 | After a failed verification, a rebuild that inserted anything first renamed the database file to its backup name (`BackedUp`). |
| SQLiteInitialisers.RebuildInitialisesVerifiedTables | src/main/java/com/majoinen/d/database/sqlite/SQLiteDatabaseInitialiser.java:81-84 | When the table list was not loaded before, or was loaded with the name: a rebuild that succeeds inserted exactly `InitTables` of that list, and each table has readable SQL and `-insert` files. |
| SQLiteInitialisers.InitNeverBacksUp | src/main/java/com/majoinen/d/database/sqlite/SQLiteDatabaseInitialiser.java:79-85 | As written, `init` verifies only in a directory `mkdirs()` has just created. When no file lies in that directory, the verify, back-up and initialise step leaves every file as it was. |
| SQLiteInitialisers.SQLiteDatabaseInitialiser.VerifyDatabase | src/main/java/com/majoinen/d/database/sqlite/SQLiteDatabaseInitialiser.java:96-108 | The result and what the properties singleton has loaded are exactly `Verification` of the state before: the configured tables, checked in order until the first that fails or throws. |
| SQLiteInitialisers.SQLiteDatabaseInitialiser.InitTable | src/main/java/com/majoinen/d/database/sqlite/SQLiteDatabaseInitialiser.java:168-184 | The inserts and the outcome are exactly `InitTableEffect`, with no file changed. |
| SQLiteInitialisers.SQLiteDatabaseInitialiser.InitDatabase | src/main/java/com/majoinen/d/database/sqlite/SQLiteDatabaseInitialiser.java:146-156 | The inserts, the outcome and the singleton's state are exactly `Initialised`: `InitTables` of the configured list. |
| SQLiteInitialisers.SQLiteDatabaseInitialiser.InitTablePair | src/main/java/com/majoinen/d/database/sqlite/SQLiteDatabaseInitialiser.java:151-154 | One loop turn: the inserts and the outcome are exactly `TableEffect`. |
| SQLiteInitialisers.SQLiteDatabaseInitialiser.InitTableList | src/main/java/com/majoinen/d/database/sqlite/SQLiteDatabaseInitialiser.java:150-155 | The loop: the inserts and the outcome are exactly `InitTables` of the list. |
| SQLiteInitialisers.SQLiteDatabaseInitialiser.CurrentFilename | src/main/java/com/majoinen/d/database/sqlite/SQLiteDatabaseInitialiser.java:229-233 | The database file of the configured name, loaded if need be. A null name is dereferenced. |
| SQLiteInitialisers.SQLiteDatabaseInitialiser.NewFilename | src/main/java/com/majoinen/d/database/sqlite/SQLiteDatabaseInitialiser.java:213-220 | The backup file of the configured name at the given time. A null name is dereferenced. |
| SQLiteInitialisers.SQLiteDatabaseInitialiser.BackupDatabase | src/main/java/com/majoinen/d/database/sqlite/SQLiteDatabaseInitialiser.java:192-203 | The outcome, the files and the singleton's state are exactly `BackupRun`: a non-empty database file is renamed to its backup name, or `DatabaseBackupException` when the rename fails. Nothing is inserted. |
| SQLiteInitialisers.SQLiteDatabaseInitialiser.Init | src/main/java/com/majoinen/d/database/sqlite/SQLiteDatabaseInitialiser.java:79-85 | As written: when `mkdirs()` did not create the directory, nothing happens. When it did, the inserts, files and outcome are exactly `Reinitialised`. |
| SQLiteInitialisers.SQLiteDatabaseInitialiser.Reinitialise | src/main/java/com/majoinen/d/database/sqlite/SQLiteDatabaseInitialiser.java:81-84 | Verify; on false, back up and then initialise. The inserts, the files, the outcome and the singleton's state are exactly `Reinitialised`. |
| SQLiteInitialisers.SQLiteDatabaseInitialiser.InitAlwaysVerifying | src/main/java/com/majoinen/d/database/sqlite/SQLiteDatabaseInitialiser.java:68-77 | As documented, whether the directory existed or not: a database that verifies is kept as it is. One that fails is backed up, and on success every configured table is re-created from readable files. |

## Left out

- Regular expressions: `replaceAll` and `split` are modelled for literal
  keys and delimiters only. `Query.Valid` and
  `SQLiteProperties.LiteralDelimiter` require parameter keys and the
  table delimiter to be non-empty and free of regex metacharacters.
- `HashMap` iteration order is runtime-defined. The parser's properties
  take the key set as any sequence of its keys and are proved for every
  order.
- `Queries.Query.SetParameter`: a new key is appended to the key list, so
  a query's keys come in insertion order, one order a `HashMap` may show.
  A `HashMap` may also reorder the keys already present when `put`
  resizes it; the model does not capture that.
- `BatchQueries.BatchQuery.SetParameter`,
  `BatchQueries.BatchQuery.SetEncryptedParameter`: inherit that
  insertion order from `Query.SetParameter`.
- `isClosed()` never throws in the driver oracle. A call on a closed
  statement or connection throws, as the oracle's fault set says.
- Logging (log4j), `synchronized` blocks, and the cipher behind
  `setEncryptedParameter`, which is a function parameter.
- The clock: `newFilename`'s timestamp is a parameter.
- The file system: `mkdirs()` and `renameTo` results are parameters.
- Class-path resources: these are a `Resources` map.
- `Properties.load` parsing: this is a `Loader` function parameter.
- `Scanner` swallows read errors in `getSQLFileContents`, so only a failing
  close is an `IOException` there.
- `BatchQueries.BatchQuery.ExecuteUpdate`: does not model the 32-bit
  wrap-around of `affectedRows`, an `int` in the source. The total is an
  unbounded integer.
- `BatchQueries.BatchQuery.PrepareBatchQuery`,
  `BatchQueries.BatchQuery.Chain`, `BatchQueries.BatchQuery.PrepareNextQuery`:
  add to that unbounded total too, so the 32-bit wrap-around of
  `affectedRows` is not modelled there either.
- `SQLiteInitialisers.SQLiteDatabaseInitialiser.InitTable`: the
  controller's `insert` is modelled as always succeeding and is recorded
  in a log. `select`/`getObject` on `sqlite_master` is a `Schema`
  function.
- `SQLiteInitialisers.TableVerified`,
  `SQLiteInitialisers.SQLiteDatabaseInitialiser.VerifyDatabase`: the
  stored schema is a total `Schema` function, so an `SQLException` from
  `select` or `getObject` on `sqlite_master` is not modelled.
- `DatabaseType` has only `SQLITE`, so the branch where no provider is
  created cannot be reached. A null type is dereferenced by `equals` and
  throws `NullPointerException`.
- `SQLiteDatabaseController`, `SQLiteConnectionProvider` (beyond its
  name), `DatabaseControllerFactory`, `DatabaseProperties` and the
  `ObjectMapper` implementations are not part of this model. The
  provider's connection is the driver oracle, the type lookup is a
  function parameter, and a mapper is a function of the current row.
- The two-argument `getConnectionProvider(databaseName, configFilename)`
  that `SQLDatabaseController` calls is modelled by the one-argument form
  of `DatabaseConnectionProviderFactory.java`.
- `SQLDatabaseController`'s handles take the controller's driver directly
  instead of going through the provider registry.
- The `Query` members missing from `Query.java` are given their simplest
  behaviour, described above. `setEncryptedParameter` of `Query` is left
  out except as `BatchQuery` uses it.
- `ParameterParser.GetParameterKeys`: the pairing of one reported key
  per `?` that `removeParameterKeys` leaves is not proved in general. It
  fails for a key that overlaps itself (`OverlappingKeyIsReportedTwice`)
  and for a key at offset 0 (`LeadingKeyIsNotReported`). A key that lies
  inside a longer key is bound by the key set's iteration order.
- `SQLiteInitialisers.RebuildInitialisesVerifiedTables`: the table-list
  property assumes the singleton had not loaded the list without the
  name. A list loaded through another caller is replaced when the name is
  loaded.
- `SQLiteInitialisers.SQLiteDatabaseInitialiser.InitAlwaysVerifying`:
  states its table-list clause under the same assumption.

## Findings

| source | as written | input that shows it | evidently intended | confidence | as-written member | corrected member |
|---|---|---|---|---|---|---|
| src/main/java/com/majoinen/d/database/sqlite/SQLiteDatabaseInitialiser.java:81 | `if(directory.mkdirs() && !verifyDatabase())`: verification runs only when `mkdirs()` has just created `sqlite/` | An existing `sqlite/` directory holding a database whose schema no longer matches its SQL files: `mkdirs()` returns false, so nothing is verified, backed up or re-created. On a first run the directory is new and empty, so the backup never renames anything. | Verify whether or not the directory had to be created: `init`'s documentation promises that a database failing verification for any reason is backed up and created anew | medium; not executed | SQLiteInitialisers.InitNeverBacksUp | SQLiteInitialisers.SQLiteDatabaseInitialiser.InitAlwaysVerifying |
| src/main/java/com/majoinen/d/database/SQLDatabaseController.java:85-87 | `prepareBatchQuery(queries[0])`, then `prepareBatchQuery(queries[i])` for `i` in `1..n-2`. `BatchQuery.prepareBatchQuery(sql)` makes `sql` current before it executes (BatchQuery.java:65-67). | Three statements `a; b; c` where only `a` touches a row: the batch executes `b` twice and never `a` or `c`, and reports 0 rows instead of 1. | Every statement runs once, in order: each chaining step executes the current statement before making the next one current, and the loop runs to `n-1` | medium; not executed | DatabaseControllers.FirstStatementRowsAreLost | DatabaseControllers.SQLDatabaseController.RunInOrder |
