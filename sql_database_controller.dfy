/**
 * `SQLDatabaseController`: hands out queries and batches, each on a new
 * connection handle whose connections come from the database's provider.
 */
module DatabaseControllers {
  import opened Wrappers
  import opened Jdbc
  import opened Connection
  import opened Queries
  import opened BatchQueries

  // ---------------------------------------------------------------------
  // The statements a batch runs
  // ---------------------------------------------------------------------

  /** Every statement of the list is there (no Java `null`). */
  predicate AllPresent(queries: seq<Option<string>>)
  {
    forall i :: 0 <= i < |queries| ==> queries[i].Some?
  }

  /** The SQL of statements that are all there. */
  function Texts(queries: seq<Option<string>>): (r: seq<string>)
    requires AllPresent(queries)
    ensures |r| == |queries|
    ensures forall i :: 0 <= i < |queries| ==> r[i] == queries[i].value
  {
    seq(|queries|, i requires 0 <= i < |queries| => queries[i].value)
  }

  /** Statements the driver can run when it throws nothing: present and not empty. */
  predicate Runnable(queries: seq<Option<string>>)
  {
    forall i :: 0 <= i < |queries| ==> queries[i].Some? && queries[i].value != []
  }

  /** The SQL that the chaining loop hands to `prepareBatchQuery`: elements 1 to |queries| - 2. */
  function ChainedQueries(queries: seq<Option<string>>): (r: seq<Option<string>>)
    ensures |queries| <= 2 ==> r == []
    ensures |queries| > 2 ==> |r| == |queries| - 2 && forall i :: 0 <= i < |r| ==> r[i] == queries[i + 1]
  {
    if |queries| <= 2 then [] else queries[1..|queries| - 1]
  }

  /** The SQL the batch holds once the chaining loop is over: the first, or the last one chained. */
  function CurrentQuery(queries: seq<Option<string>>): Option<string>
    requires queries != []
  {
    if |queries| <= 2 then queries[0] else queries[|queries| - 2]
  }

  /**
   * The statements `prepareBatchQuery(queries).executeUpdate()` executes,
   * in order, when nothing fails: the chained ones, each as it is handed
   * over, then the current one once more.
   */
  function BatchRunOrder(queries: seq<Option<string>>): (r: seq<Option<string>>)
    requires queries != []
    ensures |r| == if |queries| <= 2 then 1 else |queries| - 1
    ensures AllPresent(queries) ==> AllPresent(r)
  {
    ChainedQueries(queries) + [CurrentQuery(queries)]
  }

  /** The last statement of a batch of two or more never runs, unless it repeats an earlier one. */
  lemma LastQueryNeverRuns(queries: seq<Option<string>>)
    requires |queries| >= 2 && queries[|queries| - 1] !in queries[..|queries| - 1]
    ensures queries[|queries| - 1] !in BatchRunOrder(queries)
  {
    var last := queries[|queries| - 1];
    forall i | 0 <= i < |BatchRunOrder(queries)|
      ensures BatchRunOrder(queries)[i] != last
    {
      if |queries| <= 2 {
        assert BatchRunOrder(queries)[i] == queries[0];
      } else if i < |queries| - 2 {
        assert BatchRunOrder(queries)[i] == queries[..|queries| - 1][i + 1];
      } else {
        assert BatchRunOrder(queries)[i] == queries[..|queries| - 1][|queries| - 2];
      }
    }
  }

  /** Three statements `a; b; c` run as `b; b`. */
  lemma ThreeStatementsRunAsTwo(a: string, b: string, c: string)
    ensures BatchRunOrder([Some(a), Some(b), Some(c)]) == [Some(b), Some(b)]
  {
    assert ChainedQueries([Some(a), Some(b), Some(c)]) == [Some(b)];
  }

  /**
   * Where only the first of three statements touches a row, the batch
   * reports no row touched; run in order, the three touch one.
   */
  lemma FirstStatementRowsAreLost(driver: Driver, a: string, b: string, c: string)
    requires driver.rowCount(a) == 1 && driver.rowCount(b) == 0 && driver.rowCount(c) == 0
    ensures RowTotal(driver, Texts(BatchRunOrder([Some(a), Some(b), Some(c)]))) == 0
    ensures RowTotal(driver, Texts([Some(a), Some(b), Some(c)])) == 1
  {
    ThreeStatementsRunAsTwo(a, b, c);
    assert Texts([Some(b), Some(b)]) == [b, b];
    assert RowTotal(driver, [b]) == 0 by { assert [b][..0] == []; }
    assert RowTotal(driver, [b, b]) == 0 by { assert [b, b][..1] == [b]; }
    assert Texts([Some(a), Some(b), Some(c)]) == [a, b, c];
    assert RowTotal(driver, [a]) == 1 by { assert [a][..0] == []; }
    assert RowTotal(driver, [a, b]) == 1 by { assert [a, b][..1] == [a]; }
    assert RowTotal(driver, [a, b, c]) == 1 by { assert [a, b, c][..2] == [a, b]; }
  }

  // ---------------------------------------------------------------------
  // One chaining step on a batch without parameters
  // ---------------------------------------------------------------------

  /** A driver that throws nothing runs a chaining step on non-empty SQL to the end. */
  lemma NoFaultsStepReturns(driver: Driver, connection: Option<Conn>, text: string, next: string)
    requires driver.faults == {} && text != [] && next != []
    ensures BatchReturns(driver, connection, Some(text), [], Some(next))
  {
    assert Accepted(Stmt(text, false, map[]), [], driver.faults) == 0;
  }

  /** A driver that throws nothing runs `executeUpdate` on non-empty SQL to the end. */
  lemma NoFaultsUpdateReturns(driver: Driver, connection: Option<Conn>, statement: Option<Stmt>, text: string, total: int)
    requires driver.faults == {} && text != []
    ensures UpdateResult(driver, connection, statement, Some(text), [], total).Ok?
  {
    assert Accepted(Stmt(text, false, map[]), [], driver.faults) == 0;
    assert Live(ConnectionAfterPrepare(driver, connection, Some(text)));
  }

  /** A step that returned executed its statement, once, and neither committed, rolled back nor closed. */
  lemma StepLog(log: seq<Call>, driver: Driver, connection: Option<Conn>, statement: Option<Stmt>,
                text: string, next: Option<string>)
    requires BatchReturns(driver, connection, Some(text), [], next)
    ensures var calls := log + BatchCalls(driver, connection, statement, Some(text), [], next);
      && Updates(calls) == Updates(log) + [text]
      && Only(calls, Transaction) == Only(log, Transaction)
      && Only(calls, Closing) == Only(log, Closing)
  {
    var step := BatchCalls(driver, connection, statement, Some(text), [], next);
    BatchNeverCommits(driver, connection, statement, Some(text), [], next);
    UpdatesAppend(log, step);
    OnlyAppend(log, step, Transaction);
    OnlyAppend(log, step, Closing);
  }

  /** The log of a new handle once a batch started on it: an open and auto-commit off, nothing else. */
  lemma StartLog(driver: Driver)
    ensures var calls := [] + OpenCalls(None) + [Call.SetAutoCommit(false)];
      Updates(calls) == [] && Only(calls, Transaction) == [] && Only(calls, Closing) == []
  {
    var calls := [] + OpenCalls(None) + [Call.SetAutoCommit(false)];
    assert calls == [Call.OpenConnection, Call.SetAutoCommit(false)];
    assert Quiet(calls);
    QuietFilters(calls);
  }

  /** Adding one more present statement to a list of texts. */
  lemma TextsAppend(queries: seq<Option<string>>, q: string)
    requires AllPresent(queries)
    ensures AllPresent(queries + [Some(q)]) && Texts(queries + [Some(q)]) == Texts(queries) + [q]
  {
  }

  /**
   * A batch without parameters, on a handle with auto-commit off, that has
   * executed the statements `done`, in order, counted their rows, and
   * neither committed, rolled back nor closed.
   */
  ghost predicate Chained(batch: BatchQuery, driver: Driver, done: seq<string>)
    reads batch, batch.query, batch.query.connection
  {
    var log := batch.query.connection.calls;
    && batch.Valid() && batch.query.connection.driver == driver
    && batch.query.keys == [] && batch.query.parameters == map[]
    && Updates(log) == done && batch.affectedRows == RowTotal(driver, done)
    && Only(log, Transaction) == [] && Only(log, Closing) == []
  }

  /** `new BatchQuery(connection, sql)` on a new handle: a chained batch that has executed nothing. */
  method Start(driver: Driver, sql: Option<string>) returns (r: Result<BatchQuery>)
    ensures r.Ok? ==>
      && fresh(r.value) && fresh(r.value.query) && fresh(r.value.query.connection)
      && Chained(r.value, driver, []) && r.value.query.sql == sql
    ensures r.Err? ==> r.fault in {DBUtilsException, NullPointerException("")}
    ensures driver.faults == {} ==> r.Ok?
  {
    var connection := new DBUtilsConnection(driver);
    r := BatchQuery.New(connection, sql);
    StartLog(driver);
  }

  /**
   * One turn of the chaining loop: `batch.prepareBatchQuery(q)`, which
   * executes `q` itself.
   */
  method ChainStep(batch: BatchQuery, ghost driver: Driver, ghost done: seq<string>, q: Option<string>)
    returns (r: Result<BatchQuery>)
    requires Chained(batch, driver, done)
    modifies batch, batch.query, batch.query.connection
    ensures r.Ok? ==> q.Some? && Chained(batch, driver, done + [q.value]) && batch.query.sql == q
    ensures r.Err? ==> r.fault in {DBUtilsException, NullPointerException("")}
    ensures driver.faults == {} && q.Some? && q.value != [] ==> r.Ok?
  {
    ghost var log, c0, s0 := batch.query.connection.calls, batch.query.connection.connection, batch.query.connection.statement;
    NoKeysNoValues(q, map[]);
    r := batch.PrepareBatchQuery(q);
    if r.Err? {
      if driver.faults == {} && q.Some? && q.value != [] {
        NoFaultsStepReturns(driver, c0, q.value, q.value);
      }
      return;
    }
    StepLog(log, driver, c0, s0, q.value, q);
  }

  /**
   * One turn of the evidently intended chaining loop:
   * `batch.prepareNextQuery(q)`, which executes the current SQL and then
   * makes `q` current.
   */
  method NextStep(batch: BatchQuery, ghost driver: Driver, ghost done: seq<string>, q: Option<string>)
    returns (r: Result<BatchQuery>)
    requires Chained(batch, driver, done)
    modifies batch, batch.query, batch.query.connection
    ensures r.Ok? ==>
      old(batch.query.sql).Some? && Chained(batch, driver, done + [old(batch.query.sql).value]) && batch.query.sql == q
    ensures r.Err? ==> r.fault in {DBUtilsException, NullPointerException("")}
    ensures (driver.faults == {} && old(batch.query.sql).Some? && old(batch.query.sql).value != [] &&
             q.Some? && q.value != []) ==> r.Ok?
  {
    ghost var log, c0, s0 := batch.query.connection.calls, batch.query.connection.connection, batch.query.connection.statement;
    ghost var current := batch.query.sql;
    NoKeysNoValues(current, map[]);
    r := batch.PrepareNextQuery(q);
    if r.Err? {
      if driver.faults == {} && current.Some? && current.value != [] && q.Some? && q.value != [] {
        NoFaultsStepReturns(driver, c0, current.value, q.value);
      }
      return;
    }
    StepLog(log, driver, c0, s0, current.value, q);
  }

  /**
   * `executeUpdate()` on a chained batch: the total it returns adds the
   * current statement's rows to those of the statements done.
   */
  method Finish(batch: BatchQuery, ghost driver: Driver, ghost done: seq<string>) returns (r: Result<int>)
    requires Chained(batch, driver, done)
    modifies batch.query.connection
    ensures r.Ok? ==> batch.query.sql.Some? && r.value == RowTotal(driver, done + [batch.query.sql.value])
    ensures r.Err? ==> r.fault in {DBUtilsException, NullPointerException("")}
    ensures driver.faults == {} && batch.query.sql.Some? && batch.query.sql.value != [] ==> r.Ok?
  {
    ghost var c0, s0 := batch.query.connection.connection, batch.query.connection.statement;
    NoKeysNoValues(batch.query.sql, map[]);
    r := batch.ExecuteUpdate();
    UpdateResultCases(driver, c0, s0, batch.query.sql, [], batch.affectedRows);
    if r.Err? {
      if driver.faults == {} && batch.query.sql.Some? && batch.query.sql.value != [] {
        NoFaultsUpdateReturns(driver, c0, s0, batch.query.sql.value, batch.affectedRows);
      }
      return;
    }
    assert (done + [batch.query.sql.value])[..|done|] == done;
  }

  class SQLDatabaseController {
    const databaseName: string
    const configFilename: string
    /** How the connections the provider opens for this database behave. */
    const driver: Driver

    /** The getters return exactly these two arguments. */
    constructor (databaseName: string, filename: string, driver: Driver)
      ensures this.databaseName == databaseName && configFilename == filename && this.driver == driver
    {
      this.databaseName := databaseName;
      configFilename := filename;
      this.driver := driver;
    }

    /** `prepareQuery`: a query holding `sql` on a new handle; nothing is opened yet. */
    method PrepareQuery(sql: Option<string>) returns (r: Query)
      ensures fresh(r) && fresh(r.connection) && r.Valid()
      ensures r.sql == sql && r.keys == [] && r.connection.driver == driver
      ensures r.connection.connection == None && r.connection.statement == None && r.connection.calls == []
    {
      var connection := new DBUtilsConnection(driver);
      r := new Query.WithSql(connection, sql);
    }

    /**
     * `prepareBatchQuery(String...)`: the first query starts a batch on a
     * new handle, which switches auto-commit off; then every later query
     * but the last is chained in order, and each chaining step executes
     * the query it is handed. An empty array is indexed out of bounds; the
     * first exception from the batch propagates. Nothing is committed yet.
     */
    method PrepareBatchQuery(queries: seq<Option<string>>) returns (r: Result<BatchQuery>)
      ensures queries == [] ==> r == Err(ArrayIndexOutOfBoundsException)
      ensures queries != [] && r.Err? ==> r.fault in {DBUtilsException, NullPointerException("")}
      ensures queries != [] && driver.faults == {} && Runnable(queries) ==> r.Ok?
      ensures r.Ok? ==>
        && fresh(r.value) && fresh(r.value.query) && fresh(r.value.query.connection)
        && queries != [] && r.value.query.sql == CurrentQuery(queries) && AllPresent(ChainedQueries(queries))
        && Chained(r.value, driver, Texts(ChainedQueries(queries)))
    {
      if queries == [] {
        return Err(ArrayIndexOutOfBoundsException);
      }
      var started := Start(driver, queries[0]);
      if started.Err? {
        return Err(started.fault);
      }
      var batch := started.value;
      assert queries[1..1] == [];
      var i := 1;
      while i < |queries| - 1
        invariant 1 <= i <= |queries| && (i == 1 || i <= |queries| - 1)
        invariant fresh(batch) && fresh(batch.query) && fresh(batch.query.connection)
        invariant batch.query.sql == queries[i - 1] && AllPresent(queries[1..i])
        invariant Chained(batch, driver, Texts(queries[1..i]))
      {
        var next := ChainStep(batch, driver, Texts(queries[1..i]), queries[i]);
        if next.Err? {
          return Err(next.fault);
        }
        TextsAppend(queries[1..i], queries[i].value);
        assert queries[1..i + 1] == queries[1..i] + [queries[i]];
        i := i + 1;
      }
      assert ChainedQueries(queries) == queries[1..i];
      r := Ok(batch);
    }

    /** `prepareBatchQuery(List)`: the same as the array form on the list's elements, in order. */
    method PrepareBatchQueryList(queries: seq<Option<string>>) returns (r: Result<BatchQuery>)
      ensures queries == [] ==> r == Err(ArrayIndexOutOfBoundsException)
      ensures queries != [] && r.Err? ==> r.fault in {DBUtilsException, NullPointerException("")}
      ensures queries != [] && driver.faults == {} && Runnable(queries) ==> r.Ok?
      ensures r.Ok? ==>
        && fresh(r.value) && fresh(r.value.query) && fresh(r.value.query.connection)
        && queries != [] && r.value.query.sql == CurrentQuery(queries) && AllPresent(ChainedQueries(queries))
        && Chained(r.value, driver, Texts(ChainedQueries(queries)))
    {
      r := PrepareBatchQuery(queries);
    }

    /**
     * `prepareBatchQuery(queries).executeUpdate()`, as the callers write
     * it: the row count it returns is that of `BatchRunOrder(queries)`.
     */
    method RunBatch(queries: seq<Option<string>>) returns (r: Result<int>)
      ensures queries == [] ==> r == Err(ArrayIndexOutOfBoundsException)
      ensures queries != [] && r.Err? ==> r.fault in {DBUtilsException, NullPointerException("")}
      ensures queries != [] && driver.faults == {} && Runnable(queries) ==> r.Ok?
      ensures r.Ok? ==>
        queries != [] && AllPresent(BatchRunOrder(queries)) && r.value == RowTotal(driver, Texts(BatchRunOrder(queries)))
    {
      var prepared := PrepareBatchQuery(queries);
      if prepared.Err? {
        return Err(prepared.fault);
      }
      r := Finish(prepared.value, driver, Texts(ChainedQueries(queries)));
      if r.Ok? {
        TextsAppend(ChainedQueries(queries), CurrentQuery(queries).value);
      }
    }

    /**
     * The evidently intended `prepareBatchQuery(String...)`: every query
     * after the first is chained, and each chaining step executes the
     * query before the one it is handed, so that the batch executes all
     * queries but the last and holds the last as its current SQL.
     */
    method PrepareBatchInOrder(queries: seq<Option<string>>) returns (r: Result<BatchQuery>)
      ensures queries == [] ==> r == Err(ArrayIndexOutOfBoundsException)
      ensures queries != [] && r.Err? ==> r.fault in {DBUtilsException, NullPointerException("")}
      ensures queries != [] && driver.faults == {} && Runnable(queries) ==> r.Ok?
      ensures r.Ok? ==>
        && fresh(r.value) && fresh(r.value.query) && fresh(r.value.query.connection)
        && queries != [] && r.value.query.sql == queries[|queries| - 1] && AllPresent(queries[..|queries| - 1])
        && Chained(r.value, driver, Texts(queries[..|queries| - 1]))
    {
      if queries == [] {
        return Err(ArrayIndexOutOfBoundsException);
      }
      var started := Start(driver, queries[0]);
      if started.Err? {
        return Err(started.fault);
      }
      var batch := started.value;
      assert queries[..0] == [];
      var i := 1;
      while i < |queries|
        invariant 1 <= i <= |queries|
        invariant fresh(batch) && fresh(batch.query) && fresh(batch.query.connection)
        invariant batch.query.sql == queries[i - 1] && AllPresent(queries[..i - 1])
        invariant Chained(batch, driver, Texts(queries[..i - 1]))
      {
        var next := NextStep(batch, driver, Texts(queries[..i - 1]), queries[i]);
        if next.Err? {
          return Err(next.fault);
        }
        TextsAppend(queries[..i - 1], queries[i - 1].value);
        assert queries[..i] == queries[..i - 1] + [queries[i - 1]];
        i := i + 1;
      }
      r := Ok(batch);
    }

    /** The evidently intended batch run: every query executes, in order, and the row count is theirs. */
    method RunInOrder(queries: seq<Option<string>>) returns (r: Result<int>)
      ensures queries == [] ==> r == Err(ArrayIndexOutOfBoundsException)
      ensures queries != [] && r.Err? ==> r.fault in {DBUtilsException, NullPointerException("")}
      ensures queries != [] && driver.faults == {} && Runnable(queries) ==> r.Ok?
      ensures r.Ok? ==> AllPresent(queries) && r.value == RowTotal(driver, Texts(queries))
    {
      var prepared := PrepareBatchInOrder(queries);
      if prepared.Err? {
        return Err(prepared.fault);
      }
      r := Finish(prepared.value, driver, Texts(queries[..|queries| - 1]));
      if r.Ok? {
        TextsAppend(queries[..|queries| - 1], queries[|queries| - 1].value);
        assert queries == queries[..|queries| - 1] + [queries[|queries| - 1]];
      }
    }
  }
}
