/**
 * `AbstractQuery`: executing the prepared statement of a connection handle
 * and mapping its results, with the handle closed in `finally`.
 */
module AbstractQuery {
  import opened Wrappers
  import opened Jdbc
  import opened Connection

  /** What a statement update surfaces as inside `AbstractQuery.executeUpdate`. */
  function AsInsert(a: Attempt<nat>): (r: Result<nat>)
    ensures a.Success? <==> r.Ok?
    ensures a.Success? ==> r.value == a.value
    ensures a.SQLException? ==> r == Err(InsertException)
    ensures a.NullPointer? ==> r == Err(NullPointerException(""))
  {
    match a
    case Success(n) => Ok(n)
    case SQLException => Err(InsertException)
    case NullPointer => Err(NullPointerException(""))
  }

  /**
   * Runs the update and closes the handle on every path: a driver fault
   * becomes `InsertException`, and a failing close replaces the outcome.
   */
  method ExecuteUpdate(connection: DBUtilsConnection) returns (r: Result<nat>)
    requires connection.Valid()
    modifies connection
    ensures connection.Valid()
    ensures var executed := if old(connection.statement).Some? then [Call.ExecuteUpdate(old(connection.statement).value.sql)] else [];
      connection.calls == old(connection.calls) + executed +
        CloseCalls(old(connection.statement), old(connection.connection), connection.driver.faults)
    ensures !connection.CloseSucceeds(old(connection.statement), old(connection.connection)) ==> r == Err(DBUtilsException)
    ensures connection.CloseSucceeds(old(connection.statement), old(connection.connection)) ==>
      r == AsInsert(UpdateAttempt(connection.driver, old(connection.statement))) &&
      !LiveStatement(connection.statement) && !Live(connection.connection)
  {
    var a := connection.StatementExecuteUpdate();
    r := AsInsert(a);
    var c := connection.Close();
    if c.Err? {
      r := Err(c.fault);
    }
  }

  /**
   * Maps the result set at its initial cursor, before any `next()`, or
   * returns null for a closed result set. A query fault escapes before the
   * `try`, so on that path the handle is not closed.
   */
  method ExecuteAndMap<T>(connection: DBUtilsConnection, mapper: Mapper<T>) returns (r: Result<Option<T>>)
    requires connection.Valid()
    modifies connection
    ensures connection.Valid()
    ensures old(connection.statement).None? ==>
      r == Err(NullPointerException("")) && connection.calls == old(connection.calls) &&
      connection.connection == old(connection.connection) && connection.statement == old(connection.statement)
    ensures old(connection.statement).Some? && QueryRefused(connection.driver, old(connection.statement).value) ==>
      r == Err(DBUtilsException) &&
      connection.calls == old(connection.calls) + [Call.ExecuteQuery(old(connection.statement).value.sql)] &&
      connection.connection == old(connection.connection) && connection.statement == old(connection.statement)
    ensures old(connection.statement).Some? && !QueryRefused(connection.driver, old(connection.statement).value) ==>
      var s := old(connection.statement).value;
      var t := connection.driver.table(s.sql);
      connection.calls == old(connection.calls) + [Call.ExecuteQuery(s.sql)] +
        CloseCalls(old(connection.statement), old(connection.connection), connection.driver.faults) &&
      (!connection.CloseSucceeds(old(connection.statement), old(connection.connection)) ==> r == Err(DBUtilsException)) &&
      (connection.CloseSucceeds(old(connection.statement), old(connection.connection)) ==>
        r == (if t.closed then Ok(None) else Present(Wrap(mapper(None)))) &&
        !LiveStatement(connection.statement) && !Live(connection.connection))
  {
    var q := connection.StatementExecuteQuery();
    if q.NullPointer? {
      return Err(NullPointerException(""));
    }
    if q.SQLException? {
      return Err(DBUtilsException);
    }
    var resultSet := q.value;
    if resultSet.closed {
      r := Ok(None);
    } else {
      r := Present(Wrap(mapper(resultSet.Current())));
    }
    var c := connection.Close();
    if c.Err? {
      r := Err(c.fault);
    }
  }

  /**
   * Maps every row of the result set, in cursor order, or returns null for
   * a closed result set; a cursor or mapper fault discards the partial list.
   */
  method ExecuteAndMapAll<T>(connection: DBUtilsConnection, mapper: Mapper<T>) returns (r: Result<Option<seq<T>>>)
    requires connection.Valid()
    modifies connection
    ensures connection.Valid()
    ensures old(connection.statement).None? ==>
      r == Err(NullPointerException("")) && connection.calls == old(connection.calls) &&
      connection.connection == old(connection.connection) && connection.statement == old(connection.statement)
    ensures old(connection.statement).Some? && QueryRefused(connection.driver, old(connection.statement).value) ==>
      r == Err(DBUtilsException) &&
      connection.calls == old(connection.calls) + [Call.ExecuteQuery(old(connection.statement).value.sql)] &&
      connection.connection == old(connection.connection) && connection.statement == old(connection.statement)
    ensures old(connection.statement).Some? && !QueryRefused(connection.driver, old(connection.statement).value) ==>
      var s := old(connection.statement).value;
      var t := connection.driver.table(s.sql);
      connection.calls == old(connection.calls) + [Call.ExecuteQuery(s.sql)] +
        CloseCalls(old(connection.statement), old(connection.connection), connection.driver.faults) &&
      (!connection.CloseSucceeds(old(connection.statement), old(connection.connection)) ==> r == Err(DBUtilsException)) &&
      (connection.CloseSucceeds(old(connection.statement), old(connection.connection)) ==>
        r == (if t.closed then Ok(None) else Present(Drain(t.rows, t.nextFaults, mapper, 0))) &&
        !LiveStatement(connection.statement) && !Live(connection.connection))
  {
    var q := connection.StatementExecuteQuery();
    if q.NullPointer? {
      return Err(NullPointerException(""));
    }
    if q.SQLException? {
      return Err(DBUtilsException);
    }
    var resultSet := q.value;
    if resultSet.closed {
      r := Ok(None);
    } else {
      var list: seq<T> := [];
      var done := false;
      r := Ok(None);
      PrependNothing(Drain(resultSet.rows, resultSet.nextFaults, mapper, 0));
      while !done
        modifies resultSet
        invariant resultSet.Valid() && !resultSet.closed
        invariant !done ==> Prepend(list, Drain(resultSet.rows, resultSet.nextFaults, mapper, resultSet.position)) ==
                            Drain(resultSet.rows, resultSet.nextFaults, mapper, 0)
        invariant done ==> r == Present(Drain(resultSet.rows, resultSet.nextFaults, mapper, 0))
        decreases !done, |resultSet.rows| + 1 - resultSet.position
      {
        var p := resultSet.position;
        var next := resultSet.Next();
        if next.SQLException? {
          r := Err(DBUtilsException);
          done := true;
        } else if !next.value {
          assert list + [] == list;
          r := Ok(Some(list));
          done := true;
        } else {
          var m := Wrap(mapper(resultSet.Current()));
          if m.Err? {
            assert Drain(resultSet.rows, resultSet.nextFaults, mapper, p) == Err(m.fault);
            r := Err(m.fault);
            done := true;
          } else {
            PrependTwice(list, m.value, Drain(resultSet.rows, resultSet.nextFaults, mapper, p + 1));
            list := list + [m.value];
          }
        }
      }
    }
    var c := connection.Close();
    if c.Err? {
      r := Err(c.fault);
    }
  }
}
