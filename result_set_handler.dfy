/**
 * `ResultSetHandler`: mapping a result set handed in by the caller, with the
 * result set closed in `finally` on every path.
 */
module ResultSetHandler {
  import opened Wrappers
  import opened Jdbc

  /**
   * Closes the result set; a driver fault surfaces as `DBUtilsException`,
   * and a null result set is dereferenced.
   */
  method CloseResultSet(resultSet: ResultSet?) returns (r: Outcome)
    modifies resultSet
    ensures resultSet == null ==> r == Err(NullPointerException(""))
    ensures resultSet != null ==>
      resultSet.position == old(resultSet.position) &&
      (r.Ok? <==> old(resultSet.closed) || !resultSet.closeFails) &&
      (r.Ok? ==> resultSet.closed) &&
      (r.Err? ==> r.fault == DBUtilsException && !resultSet.closed)
  {
    if resultSet == null {
      return Err(NullPointerException(""));
    }
    var a := resultSet.Close();
    r := Wrap(a);
  }

  /**
   * Maps the row under the cursor without moving it, or gives null for a
   * closed result set without calling the mapper; the result set is then
   * closed, and a failing close replaces the outcome.
   */
  method Handle<T>(resultSet: ResultSet?, mapper: Mapper<T>) returns (r: Result<Option<T>>)
    requires resultSet != null ==> resultSet.Valid()
    modifies resultSet
    ensures resultSet == null ==> r == Err(NullPointerException(""))
    ensures resultSet != null ==>
      resultSet.position == old(resultSet.position) &&
      (old(resultSet.closed) ==> r == Ok(None) && resultSet.closed) &&
      (!old(resultSet.closed) && resultSet.closeFails ==> r == Err(DBUtilsException) && !resultSet.closed) &&
      (!old(resultSet.closed) && !resultSet.closeFails ==>
        r == Present(Wrap(mapper(old(resultSet.Current())))) && resultSet.closed)
  {
    if resultSet == null {
      r := Ok(None);
    } else if resultSet.closed {
      r := Ok(None);
    } else {
      r := Present(Wrap(mapper(resultSet.Current())));
    }
    var c := CloseResultSet(resultSet);
    if c.Err? {
      r := Err(c.fault);
    }
  }

  /**
   * Maps every row after the cursor, in order, or gives the empty list for
   * a closed result set; a cursor or mapper fault discards the partial list.
   * The result set is then closed, and a failing close replaces the outcome.
   */
  method HandleAll<T>(resultSet: ResultSet?, mapper: Mapper<T>) returns (r: Result<seq<T>>)
    requires resultSet != null ==> resultSet.Valid()
    modifies resultSet
    ensures resultSet == null ==> r == Err(NullPointerException(""))
    ensures resultSet != null ==>
      (old(resultSet.closed) ==> r == Ok([]) && resultSet.closed) &&
      (!old(resultSet.closed) && resultSet.closeFails ==> r == Err(DBUtilsException) && !resultSet.closed) &&
      (!old(resultSet.closed) && !resultSet.closeFails ==>
        r == Drain(resultSet.rows, resultSet.nextFaults, mapper, old(resultSet.position)) && resultSet.closed)
  {
    var list: seq<T> := [];
    if resultSet == null {
      r := Ok(list);
    } else if resultSet.closed {
      r := Ok(list);
    } else {
      var done := false;
      r := Ok([]);
      ghost var start := resultSet.position;
      PrependNothing(Drain(resultSet.rows, resultSet.nextFaults, mapper, start));
      while !done
        modifies resultSet
        invariant resultSet.Valid() && !resultSet.closed
        invariant !done ==> Prepend(list, Drain(resultSet.rows, resultSet.nextFaults, mapper, resultSet.position)) ==
                            Drain(resultSet.rows, resultSet.nextFaults, mapper, start)
        invariant done ==> r == Drain(resultSet.rows, resultSet.nextFaults, mapper, start)
        decreases !done, |resultSet.rows| + 1 - resultSet.position
      {
        var p := resultSet.position;
        var next := resultSet.Next();
        if next.SQLException? {
          r := Err(DBUtilsException);
          done := true;
        } else if !next.value {
          assert list + [] == list;
          r := Ok(list);
          done := true;
        } else {
          var m := Wrap(mapper(resultSet.Current()));
          if m.Err? {
            assert Drain(resultSet.rows, resultSet.nextFaults, mapper, p) == Err(m.fault);
            r := Err(m.fault);
            done := true;
          } else {
            PrependTwice(list, m.value, Drain(resultSet.rows, resultSet.nextFaults, mapper, p + 1));
            list := list + [m.value];
          }
        }
      }
    }
    var c := CloseResultSet(resultSet);
    if c.Err? {
      r := Err(c.fault);
    }
  }
}
