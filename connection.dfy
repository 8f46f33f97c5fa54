/**
 * `DBUtilsConnection`: the handle that holds one driver connection and one
 * prepared statement, opens the connection lazily and closes the statement
 * before the connection.
 */
module Connection {
  import opened Wrappers
  import opened Jdbc

  datatype Conn = Conn(closed: bool, autoCommit: bool)

  /** A prepared statement: its SQL, whether it is closed, and the values bound so far (1-based). */
  datatype Stmt = Stmt(sql: string, closed: bool, bound: map<int, Value>)

  /** A connection that is present and not closed. */
  predicate Live(c: Option<Conn>)
  {
    c.Some? && !c.value.closed
  }

  /** A statement that is present and not closed. */
  predicate LiveStatement(s: Option<Stmt>)
  {
    s.Some? && !s.value.closed
  }

  /** The driver calls `close()` makes from a state, in order. */
  function CloseCalls(statement: Option<Stmt>, connection: Option<Conn>, faults: set<Call>): (r: seq<Call>)
    ensures LiveStatement(statement) ==> |r| > 0 && r[0] == CloseStatement(statement.value.sql)
    ensures LiveStatement(statement) && CloseStatement(statement.value.sql) in faults ==>
      r == [CloseStatement(statement.value.sql)]
    ensures CloseConnection in r <==>
      Live(connection) && (LiveStatement(statement) ==> CloseStatement(statement.value.sql) !in faults)
    ensures CloseConnection in r ==> r[|r| - 1] == CloseConnection
    ensures !LiveStatement(statement) && !Live(connection) ==> r == []
    ensures forall i :: 0 <= i < |r| ==> r[i].CloseStatement? || r[i].CloseConnection?
  {
    if LiveStatement(statement) then
      var c := Call.CloseStatement(statement.value.sql);
      if c in faults then [c]
      else [c] + (if Live(connection) then [Call.CloseConnection] else [])
    else if Live(connection) then [Call.CloseConnection]
    else []
  }

  /** Whether `openConnection()` asks the provider and the provider throws. */
  predicate OpenFails(driver: Driver, connection: Option<Conn>)
  {
    !Live(connection) && Call.OpenConnection in driver.faults
  }

  /** The calls of the lazy `openConnection()`: none while the connection is live. */
  function OpenCalls(connection: Option<Conn>): seq<Call>
  {
    if Live(connection) then [] else [Call.OpenConnection]
  }

  /** The connection after `openConnection()`: a live one is kept, otherwise the provider's new one unless it throws. */
  function Opened(driver: Driver, connection: Option<Conn>): (r: Option<Conn>)
    ensures !OpenFails(driver, connection) ==> Live(r)
    ensures OpenFails(driver, connection) ==> r == connection
  {
    if Live(connection) || Call.OpenConnection in driver.faults then connection else Some(Conn(false, true))
  }

  /**
   * The calls `prepareStatement(sql)` makes: none for empty SQL, then the
   * lazy open, then the prepare unless the open threw.
   */
  function PrepareCalls(driver: Driver, connection: Option<Conn>, sql: string): (r: seq<Call>)
    ensures forall i :: 0 <= i < |r| ==> r[i] == Call.OpenConnection || r[i] == Call.PrepareStatement(sql)
  {
    if sql == [] then []
    else OpenCalls(connection) + (if OpenFails(driver, connection) then [] else [Call.PrepareStatement(sql)])
  }

  /** Whether `prepareStatement(sql)` returns normally. */
  predicate PrepareReturns(driver: Driver, connection: Option<Conn>, sql: string)
  {
    sql != [] && !OpenFails(driver, connection) && Call.PrepareStatement(sql) !in driver.faults
  }

  /** The calls of `commit()` or `rollback()`: none when the connection is null. */
  function TransactionCalls(connection: Option<Conn>, c: Call): seq<Call>
  {
    if connection.None? then [] else [c]
  }

  /**
   * What `commit()` or `rollback()` does: a null connection is
   * dereferenced, and a closed connection or a driver fault surfaces as
   * `DBUtilsException`.
   */
  function TransactionResult(driver: Driver, connection: Option<Conn>, c: Call): (r: Outcome)
    ensures r.Ok? <==> connection.Some? && !connection.value.closed && c !in driver.faults
    ensures connection.None? ==> r == Err(NullPointerException(""))
    ensures connection.Some? && r.Err? ==> r == Err(DBUtilsException)
  {
    if connection.None? then Err(NullPointerException(""))
    else if connection.value.closed || c in driver.faults then Err(DBUtilsException)
    else Done
  }

  /** Whether `close()` returns normally from the given state. */
  predicate CloseReturns(statement: Option<Stmt>, connection: Option<Conn>, faults: set<Call>)
  {
    (LiveStatement(statement) ==> Call.CloseStatement(statement.value.sql) !in faults) &&
    (Live(connection) ==> Call.CloseConnection !in faults)
  }

  /** What `statement.executeUpdate()` does for the given statement. */
  function UpdateAttempt(driver: Driver, statement: Option<Stmt>): (r: Attempt<nat>)
    ensures statement.None? <==> r.NullPointer?
    ensures r.SQLException? <==>
      statement.Some? && (statement.value.closed || ExecuteUpdate(statement.value.sql) in driver.faults)
    ensures r.Success? ==> r.value == driver.rowCount(statement.value.sql)
  {
    match statement
    case None => NullPointer
    case Some(s) =>
      if s.closed || ExecuteUpdate(s.sql) in driver.faults then SQLException
      else Success(driver.rowCount(s.sql))
  }

  /** Whether `statement.executeQuery()` throws for the given statement. */
  predicate QueryRefused(driver: Driver, s: Stmt)
  {
    s.closed || ExecuteQuery(s.sql) in driver.faults
  }

  class DBUtilsConnection {
    const driver: Driver
    var connection: Option<Conn>
    var statement: Option<Stmt>
    /** Every driver call made through this handle, in order. */
    ghost var calls: seq<Call>

    /** A live statement always sits on a live connection. */
    ghost predicate Valid()
      reads this
    {
      LiveStatement(statement) ==> Live(connection)
    }

    constructor (driver: Driver)
      ensures this.driver == driver && connection == None && statement == None && calls == []
      ensures Valid()
    {
      this.driver := driver;
      connection := None;
      statement := None;
      calls := [];
    }

    /**
     * Asks the provider for a connection only when there is none or it is
     * closed; a live connection is reused.
     */
    method OpenConnection() returns (r: Outcome)
      requires Valid()
      modifies this
      ensures Valid() && statement == old(statement)
      ensures Live(old(connection)) ==> r == Done && connection == old(connection) && calls == old(calls)
      ensures !Live(old(connection)) ==> calls == old(calls) + [Call.OpenConnection]
      ensures !Live(old(connection)) && Call.OpenConnection in driver.faults ==>
        r == Err(DBUtilsException) && connection == old(connection)
      ensures !Live(old(connection)) && Call.OpenConnection !in driver.faults ==>
        r == Done && connection == Some(Conn(false, true))
      ensures r.Ok? ==> Live(connection)
    {
      if !Live(connection) {
        calls := calls + [Call.OpenConnection];
        if Call.OpenConnection in driver.faults {
          return Err(DBUtilsException);
        }
        connection := Some(Conn(false, true));
      }
      r := Done;
    }

    /** Opens the connection if needed and switches auto-commit off. */
    method DisableAutoCommit() returns (r: Result<bool>)
      requires Valid()
      modifies this
      ensures Valid() && statement == old(statement)
      ensures r.Ok? <==>
        (Live(old(connection)) || Call.OpenConnection !in driver.faults) && Call.SetAutoCommit(false) !in driver.faults
      ensures r.Ok? ==> r.value && Live(connection) && !connection.value.autoCommit
      ensures r.Err? ==> r.fault == DBUtilsException && connection == Opened(driver, old(connection))
      ensures var opening := if Live(old(connection)) then [] else [Call.OpenConnection];
        calls == old(calls) + opening + (if Live(old(connection)) || Call.OpenConnection !in driver.faults then [Call.SetAutoCommit(false)] else [])
    {
      var o := OpenConnection();
      if o.Err? {
        return Err(o.fault);
      }
      calls := calls + [Call.SetAutoCommit(false)];
      if Call.SetAutoCommit(false) in driver.faults {
        return Err(DBUtilsException);
      }
      connection := Some(connection.value.(autoCommit := false));
      r := Ok(true);
    }

    /**
     * Prepares `sql` (`None` is Java's `null`) on a connection opened if
     * needed; null or empty SQL is refused before anything is opened.
     */
    method PrepareStatement(sql: Option<string>) returns (r: Result<bool>)
      requires Valid()
      modifies this
      ensures Valid()
      ensures sql.None? || sql.value == [] ==>
        r == Err(DBUtilsException) && connection == old(connection) && statement == old(statement) && calls == old(calls)
      ensures sql.Some? ==>
        calls == old(calls) + PrepareCalls(driver, old(connection), sql.value) &&
        connection == (if sql.value == [] then old(connection) else Opened(driver, old(connection))) &&
        (r.Ok? <==> PrepareReturns(driver, old(connection), sql.value))
      ensures r.Ok? ==> r.value && Live(connection) && statement == Some(Stmt(sql.value, false, map[]))
      ensures r.Err? ==> r.fault == DBUtilsException && statement == old(statement)
    {
      if sql.None? || sql.value == [] {
        return Err(DBUtilsException);
      }
      var o := OpenConnection();
      if o.Err? {
        return Err(o.fault);
      }
      calls := calls + [Call.PrepareStatement(sql.value)];
      if Call.PrepareStatement(sql.value) in driver.faults {
        return Err(DBUtilsException);
      }
      statement := Some(Stmt(sql.value, false, map[]));
      r := Ok(true);
    }

    /** Closes the statement unless it is null or already closed. */
    method CloseStatement() returns (r: Result<bool>)
      requires Valid()
      modifies this
      ensures Valid() && connection == old(connection)
      ensures !LiveStatement(old(statement)) ==> r == Ok(true) && statement == old(statement) && calls == old(calls)
      ensures LiveStatement(old(statement)) ==>
        var c := Call.CloseStatement(old(statement).value.sql);
        calls == old(calls) + [c] &&
        (c in driver.faults ==> r == Err(DBUtilsException) && statement == old(statement)) &&
        (c !in driver.faults ==> r == Ok(true) && statement == Some(old(statement).value.(closed := true)))
    {
      if LiveStatement(statement) {
        var c := Call.CloseStatement(statement.value.sql);
        calls := calls + [c];
        if c in driver.faults {
          return Err(DBUtilsException);
        }
        statement := Some(statement.value.(closed := true));
      }
      r := Ok(true);
    }

    /** Closes the connection unless it is null or already closed. */
    method CloseConnection() returns (r: Result<bool>)
      requires !LiveStatement(statement)
      modifies this
      ensures Valid() && statement == old(statement)
      ensures !Live(old(connection)) ==> r == Ok(true) && connection == old(connection) && calls == old(calls)
      ensures Live(old(connection)) ==>
        calls == old(calls) + [Call.CloseConnection] &&
        (Call.CloseConnection in driver.faults ==> r == Err(DBUtilsException) && connection == old(connection)) &&
        (Call.CloseConnection !in driver.faults ==> r == Ok(true) && connection == Some(old(connection).value.(closed := true)))
    {
      if Live(connection) {
        calls := calls + [Call.CloseConnection];
        if Call.CloseConnection in driver.faults {
          return Err(DBUtilsException);
        }
        connection := Some(connection.value.(closed := true));
      }
      r := Ok(true);
    }

    /**
     * Closes the statement, then the connection; a failing statement close
     * stops before the connection is touched.
     */
    method Close() returns (r: Result<bool>)
      requires Valid()
      modifies this
      ensures Valid()
      ensures calls == old(calls) + CloseCalls(old(statement), old(connection), driver.faults)
      ensures r.Ok? ==> r.value && !LiveStatement(statement) && !Live(connection)
      ensures r.Err? ==> r.fault == DBUtilsException
      ensures LiveStatement(old(statement)) && Call.CloseStatement(old(statement).value.sql) in driver.faults ==>
        r.Err? && statement == old(statement) && connection == old(connection)
      ensures !LiveStatement(old(statement)) && !Live(old(connection)) ==>
        r == Ok(true) && statement == old(statement) && connection == old(connection)
      ensures r.Ok? <==> CloseSucceeds(old(statement), old(connection))
      ensures !(LiveStatement(old(statement)) && Call.CloseStatement(old(statement).value.sql) in driver.faults) ==>
        && statement == (if LiveStatement(old(statement)) then Some(old(statement).value.(closed := true)) else old(statement))
        && connection ==
             (if Live(old(connection)) && Call.CloseConnection !in driver.faults then Some(old(connection).value.(closed := true))
              else old(connection))
    {
      r := CloseStatement();
      if r.Err? {
        return;
      }
      r := CloseConnection();
    }

    /** Whether `close()` returns normally from the given state, with this handle's driver. */
    predicate CloseSucceeds(statement: Option<Stmt>, connection: Option<Conn>)
    {
      CloseReturns(statement, connection, driver.faults)
    }

    /** `statement().executeUpdate()`: the row count of the statement's SQL. */
    method StatementExecuteUpdate() returns (r: Attempt<nat>)
      modifies this
      ensures connection == old(connection) && statement == old(statement)
      ensures statement.None? ==> r == NullPointer && calls == old(calls)
      ensures statement.Some? ==>
        var sql := statement.value.sql;
        calls == old(calls) + [Call.ExecuteUpdate(sql)] &&
        r == if statement.value.closed || Call.ExecuteUpdate(sql) in driver.faults then SQLException
             else Success(driver.rowCount(sql))
    {
      if statement.None? {
        return NullPointer;
      }
      var sql := statement.value.sql;
      calls := calls + [Call.ExecuteUpdate(sql)];
      if statement.value.closed || Call.ExecuteUpdate(sql) in driver.faults {
        return SQLException;
      }
      r := Success(driver.rowCount(sql));
    }

    /** `statement().executeQuery()`: a fresh result set over the statement's table. */
    method StatementExecuteQuery() returns (r: Attempt<ResultSet>)
      modifies this
      ensures connection == old(connection) && statement == old(statement)
      ensures statement.None? ==> r == NullPointer && calls == old(calls)
      ensures statement.Some? ==>
        var sql := statement.value.sql;
        calls == old(calls) + [Call.ExecuteQuery(sql)] &&
        (r.SQLException? <==> statement.value.closed || Call.ExecuteQuery(sql) in driver.faults) &&
        (r.NullPointer? ==> false)
      ensures r.Success? ==>
        var t := driver.table(statement.value.sql);
        fresh(r.value) && r.value.Valid() && r.value.rows == t.rows && r.value.position == 0 &&
        r.value.closed == t.closed && r.value.nextFaults == t.nextFaults && r.value.closeFails == t.closeFails
    {
      if statement.None? {
        return NullPointer;
      }
      var sql := statement.value.sql;
      calls := calls + [Call.ExecuteQuery(sql)];
      if statement.value.closed || Call.ExecuteQuery(sql) in driver.faults {
        return SQLException;
      }
      var rs := new ResultSet(driver.table(sql));
      r := Success(rs);
    }

    /** `statement().setObject(index, value)`: binds a value on the statement. */
    method StatementSetObject(index: int, value: Value) returns (r: Attempt<()>)
      requires Valid()
      modifies this
      ensures Valid() && connection == old(connection)
      ensures old(statement).None? ==> r == NullPointer && statement == old(statement) && calls == old(calls)
      ensures old(statement).Some? ==>
        var s := old(statement).value;
        var c := Call.SetObject(s.sql, index, value);
        calls == old(calls) + [c] &&
        (s.closed || c in driver.faults ==> r == SQLException && statement == old(statement)) &&
        (!s.closed && c !in driver.faults ==> r.Success? && statement == Some(s.(bound := s.bound[index := value])))
    {
      if statement.None? {
        return NullPointer;
      }
      var s := statement.value;
      var c := Call.SetObject(s.sql, index, value);
      calls := calls + [c];
      if s.closed || c in driver.faults {
        return SQLException;
      }
      statement := Some(s.(bound := s.bound[index := value]));
      r := Success(());
    }

    /** `executeUpdate()`: a driver fault surfaces as `DBUtilsException`. */
    method ExecuteUpdate() returns (r: Result<nat>)
      modifies this
      ensures connection == old(connection) && statement == old(statement)
      ensures statement.None? ==> r == Err(NullPointerException("")) && calls == old(calls)
      ensures statement.Some? ==>
        var sql := statement.value.sql;
        calls == old(calls) + [Call.ExecuteUpdate(sql)] &&
        (r.Ok? <==> !statement.value.closed && Call.ExecuteUpdate(sql) !in driver.faults) &&
        (r.Ok? ==> r.value == driver.rowCount(sql)) &&
        (r.Err? ==> r.fault == DBUtilsException)
    {
      var a := StatementExecuteUpdate();
      r := Wrap(a);
    }

    /** `executeQuery()`: a driver fault surfaces as `DBUtilsException`. */
    method ExecuteQuery() returns (r: Result<ResultSet>)
      modifies this
      ensures connection == old(connection) && statement == old(statement)
      ensures statement.None? ==> r == Err(NullPointerException("")) && calls == old(calls)
      ensures statement.Some? ==>
        var sql := statement.value.sql;
        calls == old(calls) + [Call.ExecuteQuery(sql)] &&
        (r.Ok? <==> !statement.value.closed && Call.ExecuteQuery(sql) !in driver.faults) &&
        (r.Err? ==> r.fault == DBUtilsException)
      ensures r.Ok? ==>
        fresh(r.value) && r.value.Valid() && r.value.rows == driver.table(statement.value.sql).rows &&
        r.value.position == 0
    {
      var a := StatementExecuteQuery();
      r := Wrap(a);
    }

    /** `setObject(index, value)`: a driver fault surfaces as `DBUtilsException`. */
    method SetObject(index: int, value: Value) returns (r: Outcome)
      requires Valid()
      modifies this
      ensures Valid() && connection == old(connection)
      ensures old(statement).None? ==> r == Err(NullPointerException("")) && statement == old(statement) && calls == old(calls)
      ensures old(statement).Some? ==>
        var s := old(statement).value;
        var c := Call.SetObject(s.sql, index, value);
        calls == old(calls) + [c] &&
        (s.closed || c in driver.faults ==> r == Err(DBUtilsException) && statement == old(statement)) &&
        (!s.closed && c !in driver.faults ==> r.Ok? && statement == Some(s.(bound := s.bound[index := value])))
    {
      var a := StatementSetObject(index, value);
      r := Wrap(a);
    }

    /** `commit()` on the current connection. */
    method Commit() returns (r: Outcome)
      modifies this
      ensures connection == old(connection) && statement == old(statement)
      ensures calls == old(calls) + TransactionCalls(connection, Call.Commit)
      ensures r == TransactionResult(driver, connection, Call.Commit)
    {
      if connection.None? {
        return Err(NullPointerException(""));
      }
      calls := calls + [Call.Commit];
      if connection.value.closed || Call.Commit in driver.faults {
        return Err(DBUtilsException);
      }
      r := Done;
    }

    /** `rollback()` on the current connection. */
    method Rollback() returns (r: Outcome)
      modifies this
      ensures connection == old(connection) && statement == old(statement)
      ensures calls == old(calls) + TransactionCalls(connection, Call.Rollback)
      ensures r == TransactionResult(driver, connection, Call.Rollback)
    {
      if connection.None? {
        return Err(NullPointerException(""));
      }
      calls := calls + [Call.Rollback];
      if connection.value.closed || Call.Rollback in driver.faults {
        return Err(DBUtilsException);
      }
      r := Done;
    }
  }

  /** A repeated `close()` after a successful one makes no driver call and returns true. */
  method CloseTwice(h: DBUtilsConnection) returns (first: Result<bool>, second: Result<bool>)
    requires h.Valid()
    modifies h
    ensures first.Ok? ==> second == Ok(true) && h.calls == old(h.calls) + CloseCalls(old(h.statement), old(h.connection), h.driver.faults)
  {
    first := h.Close();
    second := h.Close();
  }
}
