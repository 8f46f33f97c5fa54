/**
 * The JDBC driver as the library sees it: an oracle that answers each call
 * on a connection or a prepared statement, and result sets with a cursor.
 *
 * Which calls fail is fixed by the driver value: a call in `faults` throws
 * `SQLException`, as does any call on a closed statement or connection;
 * `isClosed` never fails. An update returns `rowCount` of its SQL and a
 * query returns a result set over `table` of its SQL.
 */
module Jdbc {
  import opened Wrappers

  /** A parameter or column value. */
  datatype Value = NullValue | IntValue(i: int) | TextValue(s: string)

  type Row = seq<Value>

  /** What a raw driver call did: it returned, threw `SQLException`, or dereferenced null. */
  datatype Attempt<T> = Success(value: T) | SQLException | NullPointer

  /** A driver call, as logged by the connection handle. */
  datatype Call =
    | OpenConnection
    | SetAutoCommit(on: bool)
    | PrepareStatement(sql: string)
    | ExecuteUpdate(sql: string)
    | ExecuteQuery(sql: string)
    | SetObject(sql: string, index: int, value: Value)
    | CloseStatement(sql: string)
    | CloseConnection
    | Commit
    | Rollback

  /**
   * What a query returns: its rows, whether the result set comes back
   * already closed, the cursor positions at which `next()` throws, and
   * whether `close()` throws.
   */
  datatype Table = Table(rows: seq<Row>, closed: bool, nextFaults: set<nat>, closeFails: bool)

  datatype Driver = Driver(faults: set<Call>, rowCount: string -> nat, table: string -> Table)

  /**
   * A function of the row under the cursor (`None` when the cursor is
   * before the first row or after the last): `ObjectMapper.map`.
   */
  type Mapper<T> = Option<Row> -> Attempt<T>

  /** How the library surfaces a raw call: `SQLException` is wrapped, a null dereference escapes. */
  function Wrap<T>(a: Attempt<T>): (r: Result<T>)
    ensures a.Success? <==> r.Ok?
    ensures a.Success? ==> r.value == a.value
    ensures a.SQLException? ==> r == Err(DBUtilsException)
    ensures a.NullPointer? ==> r == Err(NullPointerException(""))
  {
    match a
    case Success(v) => Ok(v)
    case SQLException => Err(DBUtilsException)
    case NullPointer => Err(NullPointerException(""))
  }

  /**
   * A JDBC result set. `position` 0 is before the first row, `k` in
   * 1..|rows| is on row `k - 1`, and |rows| + 1 is after the last row.
   */
  class ResultSet {
    const rows: seq<Row>
    const nextFaults: set<nat>
    const closeFails: bool
    var position: nat
    var closed: bool

    ghost predicate Valid()
      reads this
    {
      position <= |rows| + 1
    }

    constructor (t: Table)
      ensures rows == t.rows && nextFaults == t.nextFaults && closeFails == t.closeFails
      ensures position == 0 && closed == t.closed
      ensures Valid()
    {
      rows := t.rows;
      nextFaults := t.nextFaults;
      closeFails := t.closeFails;
      position := 0;
      closed := t.closed;
    }

    /** The row under the cursor. */
    function Current(): (r: Option<Row>)
      reads this
      ensures r.Some? <==> 1 <= position <= |rows|
      ensures r.Some? ==> r.value == rows[position - 1]
    {
      if 1 <= position <= |rows| then Some(rows[position - 1]) else None
    }

    /** `next()`: move one row on and say whether the cursor is on a row. */
    method Next() returns (r: Attempt<bool>)
      requires Valid()
      modifies this
      ensures Valid() && closed == old(closed)
      ensures closed || old(position) in nextFaults ==> r == SQLException && position == old(position)
      ensures !closed && old(position) !in nextFaults ==>
        position == (if old(position) <= |rows| then old(position) + 1 else old(position)) &&
        r == Success(position <= |rows|)
    {
      if closed || position in nextFaults {
        return SQLException;
      }
      if position <= |rows| {
        position := position + 1;
      }
      r := Success(position <= |rows|);
    }

    /** `close()`: closing a closed result set does nothing. */
    method Close() returns (r: Attempt<()>)
      modifies this
      ensures position == old(position)
      ensures old(closed) ==> r.Success? && closed
      ensures !old(closed) && closeFails ==> r == SQLException && !closed
      ensures !old(closed) && !closeFails ==> r.Success? && closed
    {
      if closed {
        return Success(());
      }
      if closeFails {
        return SQLException;
      }
      closed := true;
      r := Success(());
    }
  }

  /**
   * What `while (rs.next()) list.add(mapper.map(rs))` yields from cursor
   * position `p` on: the mapped rows after `p` in order, or the first fault.
   */
  function Drain<T>(rows: seq<Row>, nextFaults: set<nat>, mapper: Mapper<T>, p: nat): Result<seq<T>>
    requires p <= |rows| + 1
    decreases |rows| + 1 - p
  {
    if p in nextFaults then Err(DBUtilsException)
    else if p >= |rows| then Ok([])
    else
      match Wrap(mapper(Some(rows[p])))
      case Err(f) => Err(f)
      case Ok(v) =>
        match Drain(rows, nextFaults, mapper, p + 1)
        case Err(f) => Err(f)
        case Ok(vs) => Ok([v] + vs)
  }

  /** `list` followed by what is still to come. */
  function Prepend<T>(list: seq<T>, rest: Result<seq<T>>): (r: Result<seq<T>>)
    ensures rest.Ok? ==> r == Ok(list + rest.value)
    ensures rest.Err? ==> r == rest
  {
    match rest
    case Ok(vs) => Ok(list + vs)
    case Err(f) => Err(f)
  }

  /** Prepending nothing changes nothing. */
  lemma PrependNothing<T>(rest: Result<seq<T>>)
    ensures Prepend([], rest) == rest
  {
    if rest.Ok? {
      assert [] + rest.value == rest.value;
    }
  }

  /** Prepending twice is prepending the concatenation. */
  lemma PrependTwice<T>(list: seq<T>, v: T, rest: Result<seq<T>>)
    ensures Prepend(list, Prepend([v], rest)) == Prepend(list + [v], rest)
  {
    if rest.Ok? {
      assert list + ([v] + rest.value) == (list + [v]) + rest.value;
    }
  }

  /** The mapper succeeds on every row from `p` on. */
  ghost predicate MapsRowsFrom<T>(rows: seq<Row>, mapper: Mapper<T>, p: nat)
  {
    forall i :: p <= i < |rows| ==> mapper(Some(rows[i])).Success?
  }

  /**
   * Without cursor or mapper faults, draining from `p` gives one mapped
   * element per remaining row, in cursor order.
   */
  lemma {:induction false} DrainMapsEveryRow<T>(rows: seq<Row>, nextFaults: set<nat>, mapper: Mapper<T>, p: nat)
    requires p <= |rows|
    requires forall q :: p <= q <= |rows| ==> q !in nextFaults
    requires MapsRowsFrom(rows, mapper, p)
    ensures var d := Drain(rows, nextFaults, mapper, p);
      d.Ok? && |d.value| == |rows| - p &&
      forall i :: 0 <= i < |d.value| ==> d.value[i] == mapper(Some(rows[p + i])).value
    decreases |rows| + 1 - p
  {
    if p < |rows| {
      DrainMapsEveryRow(rows, nextFaults, mapper, p + 1);
      var rest := Drain(rows, nextFaults, mapper, p + 1).value;
      var d := Drain(rows, nextFaults, mapper, p).value;
      assert d == [mapper(Some(rows[p])).value] + rest;
      forall i | 0 <= i < |d|
        ensures d[i] == mapper(Some(rows[p + i])).value
      {
        if i > 0 {
          assert d[i] == rest[i - 1];
        }
      }
    }
  }

  /** A cursor fault at any position from `p` to the end makes draining fail. */
  lemma {:induction false} DrainFailsOnCursorFault<T>(rows: seq<Row>, nextFaults: set<nat>, mapper: Mapper<T>, p: nat, q: nat)
    requires p <= q <= |rows| && q in nextFaults
    ensures Drain(rows, nextFaults, mapper, p).Err?
    decreases q - p
  {
    if p < q && p !in nextFaults && p < |rows| && mapper(Some(rows[p])).Success? {
      DrainFailsOnCursorFault(rows, nextFaults, mapper, p + 1, q);
    }
  }
}
